/** The report and invite documents the device advertises, as document
    values (the text the JSON library prints from them is not modelled).
    Both builders add one member `report` to an empty object, and fill that
    member with six fields in a fixed order. */
module Document {
  import opened Wrappers

  /** The part of a JSON document these builders use. */
  datatype Json =
    | JString(str: string)
    | JBool(b: bool)
    | JObject(members: seq<Member>)

  /** One key/value pair of an object, in insertion order. */
  datatype Member = Member(key: string, value: Json)

  /** The metadata a report carries. */
  datatype Metadata = Metadata(
    name: string, kind: string, excl: bool,
    desc: string, model: string, vendor: string)

  /** The metadata this device reports about itself. */
  const IotPi: Metadata := Metadata("IoT Pi", "device", false, "IoT Pi", "1", "ACOINFO")

  /** The keys of the inner `report` object, in the order they are added. */
  const ReportKeys: seq<string> := ["name", "type", "excl", "desc", "model", "vendor"]

  /** An object with no members. */
  const EmptyObject: Json := JObject([])

  /** Adding a member to an object appends it after the existing ones. */
  function Add(obj: Json, key: string, value: Json): (r: Json)
    requires obj.JObject?
    ensures r.JObject?
    ensures |r.members| == |obj.members| + 1
    ensures r.members[..|obj.members|] == obj.members
    ensures r.members[|obj.members|] == Member(key, value)
  {
    JObject(obj.members + [Member(key, value)])
  }

  /** The canonical report document for metadata `m`. */
  function Report(m: Metadata): (d: Json)
  {
    JObject([Member("report", JObject([
      Member("name", JString(m.name)),
      Member("type", JString(m.kind)),
      Member("excl", JBool(m.excl)),
      Member("desc", JString(m.desc)),
      Member("model", JString(m.model)),
      Member("vendor", JString(m.vendor))]))])
  }

  /** Reads a report document back; only a document of exactly the report
      shape decodes. */
  function Decode(d: Json): (r: Option<Metadata>)
  {
    if d.JObject? && |d.members| == 1 && d.members[0].key == "report" then
      DecodeFields(d.members[0].value)
    else
      None
  }

  /** Reads the six fields of the inner `report` object. */
  function DecodeFields(o: Json): (r: Option<Metadata>)
    ensures r.Some? ==> o.JObject? && |o.members| == |ReportKeys|
  {
    if o.JObject? && |o.members| == |ReportKeys|
       && (forall j :: 0 <= j < |ReportKeys| ==> o.members[j].key == ReportKeys[j])
       && o.members[0].value.JString? && o.members[1].value.JString?
       && o.members[2].value.JBool? && o.members[3].value.JString?
       && o.members[4].value.JString? && o.members[5].value.JString?
    then
      Some(Metadata(
        o.members[0].value.str, o.members[1].value.str, o.members[2].value.b,
        o.members[3].value.str, o.members[4].value.str, o.members[5].value.str))
    else
      None
  }

  /** Every metadata value survives building and decoding its report. */
  lemma DecodeReport(m: Metadata)
    ensures Decode(Report(m)) == Some(m)
  {
    var o := Report(m).members[0].value;
    assert forall j :: 0 <= j < |ReportKeys| ==> o.members[j].key == ReportKeys[j];
  }

  /** A document decodes to `m` only if it is exactly the report for `m`:
      no extra keys, no other order, no other value types. */
  lemma {:induction false} DecodeOnlyReport(d: Json, m: Metadata)
    requires Decode(d) == Some(m)
    ensures d == Report(m)
  {
    var o := d.members[0].value;
    assert o.JObject? && |o.members| == 6;
    assert forall j :: 0 <= j < 6 ==> o.members[j].key == ReportKeys[j];
    assert o.members[0] == Member("name", JString(m.name));
    assert o.members[1] == Member("type", JString(m.kind));
    assert o.members[2] == Member("excl", JBool(m.excl));
    assert o.members[3] == Member("desc", JString(m.desc));
    assert o.members[4] == Member("model", JString(m.model));
    assert o.members[5] == Member("vendor", JString(m.vendor));
    assert o == Report(m).members[0].value;
    assert d.members == [Member("report", o)];
  }

  /** The REPORT data: an empty root gets one `report` member whose object
      receives the six fields one by one. */
  function ReportDataCreate(): (d: Json)
    ensures Decode(d) == Some(IotPi)
  {
    var r1 := Add(EmptyObject, "name", JString("IoT Pi"));
    var r2 := Add(r1, "type", JString("device"));
    var r3 := Add(r2, "excl", JBool(false));
    var r4 := Add(r3, "desc", JString("IoT Pi"));
    var r5 := Add(r4, "model", JString("1"));
    var report := Add(r5, "vendor", JString("ACOINFO"));
    Add(EmptyObject, "report", report)
  }

  /** The INVITE data, built by its own sequence of the same steps. */
  function InviteDataCreate(): (d: Json)
    ensures Decode(d) == Some(IotPi)
  {
    var r1 := Add(EmptyObject, "name", JString("IoT Pi"));
    var r2 := Add(r1, "type", JString("device"));
    var r3 := Add(r2, "excl", JBool(false));
    var r4 := Add(r3, "desc", JString("IoT Pi"));
    var r5 := Add(r4, "model", JString("1"));
    var report := Add(r5, "vendor", JString("ACOINFO"));
    Add(EmptyObject, "report", report)
  }

  /** The two advertised documents are the same document: the report for
      the IoT Pi metadata, with one top-level key. */
  lemma AdvertisedDocumentsAgree()
    ensures ReportDataCreate() == InviteDataCreate() == Report(IotPi)
    ensures |ReportDataCreate().members| == 1
    ensures ReportDataCreate().members[0].key == "report"
  {
    DecodeOnlyReport(ReportDataCreate(), IotPi);
    DecodeOnlyReport(InviteDataCreate(), IotPi);
  }
}
