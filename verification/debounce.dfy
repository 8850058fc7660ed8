/** The key debounce filter of `flash_key_task`: once per sampling period the
    level of GPIO 0 is read; a low level extends a run of consecutive low
    samples, a high level ends it, and a run that grows past `Threshold`
    fires one activation and starts counting again from zero. */
module Debounce {

  /** The level `gpio_get_level(0)` reports; the key pulls the line low. */
  datatype Level = Low | High

  /** The counter must EXCEED this value to fire. */
  const Threshold: nat := 3

  /** Low samples per activation of a sustained press. */
  const Period: nat := Threshold + 1

  /** The counter after one sample, and whether that sample fired. */
  datatype Sampled = Sampled(count: nat, fired: bool)

  /** One iteration of the sampling loop, from counter value `count`. */
  function Sample(count: nat, level: Level): (r: Sampled)
    ensures level == High ==> r == Sampled(0, false)
    ensures r.fired <==> level == Low && count >= Threshold
    ensures r.fired ==> r.count == 0
    ensures !r.fired && level == Low ==> r.count == count + 1
    ensures count <= Threshold ==> r.count <= Threshold
  {
    var i := if level == Low then count + 1 else 0;
    if i > Threshold then Sampled(0, true) else Sampled(i, false)
  }

  /** Reference definition: how many samples at the end of `ls` are low. */
  function TrailingLows(ls: seq<Level>): (n: nat)
    ensures n <= |ls|
  {
    if |ls| == 0 || ls[|ls| - 1] == High then 0
    else TrailingLows(ls[..|ls| - 1]) + 1
  }

  /** The counter after feeding `ls`, in order, to a task that starts at 0. */
  function CountAfter(ls: seq<Level>): (c: nat)
  {
    if |ls| == 0 then 0
    else Sample(CountAfter(ls[..|ls| - 1]), ls[|ls| - 1]).count
  }

  /** Whether the last sample of `ls` fires, the task having started at 0. */
  predicate FiresOnLast(ls: seq<Level>)
    requires |ls| > 0
  {
    Sample(CountAfter(ls[..|ls| - 1]), ls[|ls| - 1]).fired
  }

  /** The counter is the length of the current low run modulo `Period`, and a
      sample fires exactly when it completes a positive multiple of `Period`
      consecutive low samples. */
  lemma {:induction false} CountTracksLowRun(ls: seq<Level>)
    ensures CountAfter(ls) == TrailingLows(ls) % Period
    ensures |ls| > 0 ==>
      (FiresOnLast(ls) <==> TrailingLows(ls) > 0 && TrailingLows(ls) % Period == 0)
  {
    if |ls| > 0 {
      CountTracksLowRun(ls[..|ls| - 1]);
    }
  }

  /** Between samples the counter stays within 0..Threshold. */
  lemma CountBounded(ls: seq<Level>)
    ensures CountAfter(ls) <= Threshold
  {
    CountTracksLowRun(ls);
  }

  /** A run of `k` trailing low samples really consists of low samples. */
  lemma {:induction false} TrailingLowsAreLow(ls: seq<Level>, k: nat)
    requires k <= TrailingLows(ls)
    ensures k <= |ls|
    ensures forall j :: |ls| - k <= j < |ls| ==> ls[j] == Low
  {
    if k > 0 {
      TrailingLowsAreLow(ls[..|ls| - 1], k - 1);
      assert forall j :: |ls| - k <= j < |ls| - 1 ==> ls[j] == ls[..|ls| - 1][j];
    }
  }

  /** Firing needs at least `Period` consecutive low samples. */
  lemma FiringNeedsFullPeriod(ls: seq<Level>)
    requires |ls| > 0 && FiresOnLast(ls)
    ensures |ls| >= Period
    ensures forall j :: |ls| - Period <= j < |ls| ==> ls[j] == Low
  {
    CountTracksLowRun(ls);
    TrailingLowsAreLow(ls, Period);
  }

  /** A high sample never fires, so a low sample followed by a high one
      does not fire on the high one. */
  lemma HighNeverFires(ls: seq<Level>)
    requires |ls| > 0 && ls[|ls| - 1] == High
    ensures !FiresOnLast(ls)
    ensures CountAfter(ls) == 0
  {
  }

  /** `n` low samples. */
  function Lows(n: nat): (r: seq<Level>)
    ensures |r| == n
    ensures forall j :: 0 <= j < n ==> r[j] == Low
  {
    seq(n, _ => Low)
  }

  /** A press of `n` samples started after a release (or at power-up) leaves
      exactly `n` trailing low samples. */
  lemma {:induction false} PressLength(p: seq<Level>, n: nat)
    requires |p| == 0 || p[|p| - 1] == High
    ensures TrailingLows(p + Lows(n)) == n
  {
    if n > 0 {
      assert (p + Lows(n))[..|p + Lows(n)| - 1] == p + Lows(n - 1);
      PressLength(p, n - 1);
    }
  }

  /** A sustained press fires on its 4th, 8th, 12th, ... sample and on no
      other. */
  lemma SustainedPressRefires(p: seq<Level>, n: nat)
    requires |p| == 0 || p[|p| - 1] == High
    requires n > 0
    ensures FiresOnLast(p + Lows(n)) <==> n % Period == 0
  {
    PressLength(p, n);
    CountTracksLowRun(p + Lows(n));
  }

  /** The sampling loop of `flash_key_task`, run over a finite sequence of
      samples: the final counter, and for each sample whether it fired. */
  method KeyTask(levels: seq<Level>) returns (count: nat, fired: seq<bool>)
    ensures count == TrailingLows(levels) % Period
    ensures |fired| == |levels|
    ensures forall k :: 0 <= k < |levels| ==>
      (fired[k] <==> TrailingLows(levels[..k + 1]) > 0 && TrailingLows(levels[..k + 1]) % Period == 0)
  {
    count := 0;
    fired := [];
    var n := 0;
    while n < |levels|
      invariant 0 <= n <= |levels|
      invariant |fired| == n
      invariant count == TrailingLows(levels[..n]) % Period
      invariant forall k :: 0 <= k < n ==>
        (fired[k] <==> TrailingLows(levels[..k + 1]) > 0 && TrailingLows(levels[..k + 1]) % Period == 0)
    {
      var r := Sample(count, levels[n]);
      assert levels[..n + 1][..n] == levels[..n];
      count := r.count;
      fired := fired + [r.fired];
      n := n + 1;
    }
    assert levels[..n] == levels;
  }
}
