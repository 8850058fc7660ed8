/** The seven callbacks the device registers with the SDDC engine. Each
    payload-carrying callback receives the result of parsing its payload
    (`None` when the JSON library returns NULL); the parse itself belongs to
    the JSON library and is not modelled. */
module Dispatcher {
  import opened Wrappers
  import opened Document

  /** The 6-byte unique id of the peer the engine reports. */
  type Uid = seq<bv8>

  /** The 16-bit message sequence number of an acknowledgement or loss. */
  type Seqno = x: int | 0 <= x < 0x1_0000

  /** One callback invocation by the engine. */
  datatype Inbound =
    | Message(uid: Uid, parsed: Option<Json>)
    | MessageAck(uid: Uid, seqno: Seqno)
    | MessageLost(uid: Uid, seqno: Seqno)
    | EdgerosLost(uid: Uid)
    | Invite(uid: Uid, parsed: Option<Json>)
    | InviteEnd(uid: Uid)
    | Update(uid: Uid, parsed: Option<Json>)

  /** What a callback hands back to the engine: the `void` callbacks return
      nothing, the others a boolean. */
  datatype Reply = NoReply | Answer(ok: bool)

  /** MESSAGE: the payload is parsed and printed, and the message is
      accepted whether or not it parsed. */
  function OnMessage(uid: Uid, parsed: Option<Json>): (ok: bool)
    ensures ok
  {
    true
  }

  /** UPDATE: accepted exactly when the payload parsed. */
  function OnUpdate(uid: Uid, parsed: Option<Json>): (ok: bool)
    ensures ok <==> parsed.Some?
  {
    match parsed
    case Some(_) => true
    case None => false
  }

  /** INVITE: accepted exactly when the payload parsed. */
  function OnInvite(uid: Uid, parsed: Option<Json>): (ok: bool)
    ensures ok <==> parsed.Some?
  {
    match parsed
    case Some(_) => true
    case None => false
  }

  /** End of INVITE: always accepted. */
  function OnInviteEnd(uid: Uid): (ok: bool)
    ensures ok
  {
    true
  }

  /** The callback table: each invocation goes to its handler. */
  function Dispatch(ev: Inbound): (r: Reply)
    ensures r.NoReply? <==> ev.MessageAck? || ev.MessageLost? || ev.EdgerosLost?
  {
    match ev
    case Message(uid, parsed) => Answer(OnMessage(uid, parsed))
    case MessageAck(_, _) => NoReply
    case MessageLost(_, _) => NoReply
    case EdgerosLost(_) => NoReply
    case Invite(uid, parsed) => Answer(OnInvite(uid, parsed))
    case InviteEnd(uid) => Answer(OnInviteEnd(uid))
    case Update(uid, parsed) => Answer(OnUpdate(uid, parsed))
  }

  /** The kinds whose answer reflects whether their payload was readable. */
  predicate ValidatesPayload(ev: Inbound)
  {
    ev.Update? || ev.Invite?
  }

  /** A payload-validating callback rejects exactly the unreadable payloads;
      every other answering callback accepts unconditionally. */
  lemma AnswerContract(ev: Inbound)
    ensures ValidatesPayload(ev) ==> Dispatch(ev) == Answer(ev.parsed.Some?)
    ensures (ev.Message? || ev.InviteEnd?) ==> Dispatch(ev) == Answer(true)
    ensures Dispatch(ev) == Answer(false) <==> ValidatesPayload(ev) && ev.parsed.None?
  {
  }

  /** The parse outcome changes the answer for UPDATE and INVITE and for no
      other callback: a malformed MESSAGE does not end anything. */
  lemma ParseMattersOnlyForValidating(uid: Uid, d: Json)
    ensures Dispatch(Update(uid, Some(d))) != Dispatch(Update(uid, None))
    ensures Dispatch(Invite(uid, Some(d))) != Dispatch(Invite(uid, None))
    ensures Dispatch(Message(uid, Some(d))) == Dispatch(Message(uid, None))
  {
  }
}
