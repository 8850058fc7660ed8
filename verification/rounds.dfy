/** Properties of the provisioning control over sequences of events: the
    invariant every reachable state keeps, that rounds never overlap, and
    what each kind of event may and may not do to the round. */
module Rounds {
  import opened Wrappers
  import Debounce
  import opened Provisioning

  /** The actions that open and close a provisioning round. */
  predicate IsMark(a: Action)
  {
    a == SpawnSmartconfigTask || a == SmartconfigStop
  }

  /** The round-opening and round-closing actions of a trace, in order. */
  function Marks(t: seq<Action>): (r: seq<Action>)
    ensures |r| <= |t|
  {
    if |t| == 0 then []
    else (if IsMark(t[0]) then [t[0]] else []) + Marks(t[1..])
  }

  lemma {:induction false} MarksAppend(a: seq<Action>, b: seq<Action>)
    ensures Marks(a + b) == Marks(a) + Marks(b)
  {
    if |a| > 0 {
      assert (a + b)[1..] == a[1..] + b;
      MarksAppend(a[1..], b);
    } else {
      assert a + b == b;
    }
  }

  lemma {:induction false} NoMarks(t: seq<Action>)
    requires forall j :: 0 <= j < |t| ==> !IsMark(t[j])
    ensures Marks(t) == []
  {
    if |t| > 0 {
      NoMarks(t[1..]);
    }
  }

  /** Rounds open and close alternately, starting with an opening. */
  predicate Alternating(r: seq<Action>)
  {
    forall j :: 0 <= j < |r| ==> r[j] == (if j % 2 == 0 then SpawnSmartconfigTask else SmartconfigStop)
  }

  /** What holds of every state the device can reach. The last conjunct,
      that a done bit is only ever set while SmartConfig is running, holds
      only when the done bit is cleared at the end of a round. */
  predicate Inv(v: Variant, s: State)
  {
    && s.keyCount <= Debounce.Threshold
    && (s.scFlag <==> s.task != Absent)
    && (s.task != Absent ==> s.gotIpHooked)
    && Alternating(Marks(s.trace))
    && (|Marks(s.trace)| % 2 == 1 <==> s.scFlag)
    && (v == ClearsDoneOnStop && EsptouchDone in s.bits ==> ScRunning(s))
  }

  /** Extending a trace by actions that neither open nor close a round. */
  lemma QuietExtension(t: seq<Action>, x: seq<Action>)
    requires forall j :: 0 <= j < |x| ==> !IsMark(x[j])
    ensures Marks(t + x) == Marks(t)
  {
    MarksAppend(t, x);
    NoMarks(x);
  }

  lemma InitEstablishesInv(v: Variant)
    ensures Inv(v, Init())
  {
  }

  lemma KeyTickPreservesInv(v: Variant, s: State, level: Debounce.Level)
    requires Inv(v, s)
    ensures Inv(v, KeyTick(s, level))
  {
    var r := KeyTick(s, level);
    if !s.scFlag && r.scFlag {
      QuietExtension(s.trace, InitialiseWifi());
      MarksAppend(s.trace + InitialiseWifi(), [SpawnSmartconfigTask]);
      assert Marks([SpawnSmartconfigTask]) == [SpawnSmartconfigTask];
    }
  }

  lemma BeginTaskPreservesInv(v: Variant, s: State)
    requires Inv(v, s) && s.task == Spawned
    ensures Inv(v, BeginTask(s))
  {
    QuietExtension(s.trace, [SmartconfigSetType, SmartconfigStart]);
  }

  lemma HandlePreservesInv(v: Variant, s: State)
    requires Inv(v, s) && s.task.Handling?
    ensures Inv(v, Handle(v, s))
  {
    if EsptouchDone in s.task.got {
      MarksAppend(s.trace, [SmartconfigStop]);
      assert Marks([SmartconfigStop]) == [SmartconfigStop];
    }
  }

  lemma OnScStatusPreservesInv(v: Variant, s: State, status: ScStatus)
    requires Inv(v, s) && ScRunning(s)
    ensures Inv(v, OnScStatus(s, status))
  {
    if status.Link? {
      QuietExtension(s.trace, ApplyCredentials(status.config));
    }
  }

  lemma {:induction false} StepPreservesInv(v: Variant, s: State, e: Event)
    requires Inv(v, s)
    ensures Inv(v, Step(v, s, e))
  {
    match e
    case KeySampled(level) => KeyTickPreservesInv(v, s, level);
    case TaskBegins =>
      if s.task == Spawned {
        BeginTaskPreservesInv(v, s);
      }
    case WaitReturns =>
    case TaskResumes =>
      if s.task.Handling? {
        HandlePreservesInv(v, s);
      }
    case ScCallback(status) =>
      if ScRunning(s) {
        OnScStatusPreservesInv(v, s, status);
      }
    case GotIp =>
  }

  lemma {:induction false} RunPreservesInv(v: Variant, s: State, es: seq<Event>)
    requires Inv(v, s)
    ensures Inv(v, Run(v, s, es))
    decreases |es|
  {
    if |es| > 0 {
      StepPreservesInv(v, s, es[0]);
      RunPreservesInv(v, Step(v, s, es[0]), es[1..]);
    }
  }

  /** Whatever the events, rounds never overlap: every opening of a round is
      followed by its closing before the next opening, and the flag is set
      exactly while a round is open. */
  lemma RoundsNeverOverlap(v: Variant, es: seq<Event>)
    ensures Alternating(Marks(Run(v, Init(), es).trace))
    ensures Run(v, Init(), es).scFlag <==> |Marks(Run(v, Init(), es).trace)| % 2 == 1
    ensures Run(v, Init(), es).scFlag <==> Run(v, Init(), es).task != Absent
    ensures Run(v, Init(), es).keyCount <= Debounce.Threshold
  {
    RunPreservesInv(v, Init(), es);
  }

  /** The flag returns to clear only when the task handles a wait that
      returned the done bit, which also stops SmartConfig and ends the task. */
  lemma FlagClearedOnlyByDone(v: Variant, s: State, e: Event)
    requires s.scFlag && !Step(v, s, e).scFlag
    ensures e == TaskResumes
    ensures s.task.Handling? && EsptouchDone in s.task.got
    ensures Step(v, s, e).task == Absent
    ensures Step(v, s, e).trace == s.trace + [SmartconfigStop]
  {
  }

  /** The flag becomes set only through a firing of the key task, which
      initialises Wi-Fi and spawns the SmartConfig task. */
  lemma FlagSetOnlyByFiring(v: Variant, s: State, e: Event)
    requires !s.scFlag && Step(v, s, e).scFlag
    ensures e.KeySampled? && e.level == Debounce.Low
    ensures Debounce.Sample(s.keyCount, e.level).fired
    ensures Step(v, s, e).task == Spawned
    ensures Step(v, s, e).trace == s.trace + InitialiseWifi() + [SpawnSmartconfigTask]
  {
  }

  /** While a round is open, a firing starts nothing: only the counter
      moves. */
  lemma FiringDuringRoundIgnored(v: Variant, s: State, level: Debounce.Level)
    requires s.scFlag
    ensures Step(v, s, KeySampled(level)) == s.(keyCount := Debounce.Sample(s.keyCount, level).count)
  {
  }

  /** The waiter clears the bits it consumes, and the connected bit alone
      does not end the round: the task goes back to waiting. */
  lemma ConnectedAloneKeepsRound(v: Variant, s: State)
    requires s.task == Waiting && s.bits == {Connected}
    ensures Step(v, s, WaitReturns) == s.(bits := {}, task := Handling({Connected}))
    ensures Step(v, Step(v, s, WaitReturns), TaskResumes) == s.(bits := {})
  {
    assert {Connected} * Watched == {Connected};
  }

  /** Waking on both bits together clears both and still ends the round. */
  lemma BothBitsEndRound(v: Variant, s: State)
    requires s.task == Waiting && s.bits == {Connected, EsptouchDone}
    ensures Step(v, Step(v, s, WaitReturns), TaskResumes)
            == s.(bits := {}, scFlag := false, task := Absent, trace := s.trace + [SmartconfigStop])
  {
    assert s.bits - Watched == {};
    assert s.bits * Watched == s.bits;
  }

  /** LINK applies the credentials as disconnect, set_config, connect, and
      changes nothing else. */
  lemma LinkAppliesInOrder(v: Variant, s: State, config: WifiConfig)
    requires ScRunning(s)
    ensures Step(v, s, ScCallback(Link(config))).trace
            == s.trace + [WifiDisconnect, WifiSetConfig(config), WifiConnect]
    ensures Step(v, s, ScCallback(Link(config))) == s.(trace := Step(v, s, ScCallback(Link(config))).trace)
  {
  }

  /** LINK_OVER raises the done bit whatever it carries: no data, an
      ESPTOUCH or AIRKISS acknowledgement, or an unknown type. */
  lemma LinkOverAlwaysDone(v: Variant, s: State, pdata: Option<CallbackData>)
    requires ScRunning(s)
    ensures Step(v, s, ScCallback(LinkOver(pdata))) == Step(v, s, ScCallback(LinkOver(None)))
    ensures Step(v, s, ScCallback(LinkOver(pdata))) == s.(bits := s.bits + {EsptouchDone})
  {
  }

  /** With the done bit cleared when a round ends, a freshly spawned task
      never finds a done bit left over from an earlier round. */
  lemma NoStaleDone(es: seq<Event>)
    requires Run(ClearsDoneOnStop, Init(), es).task == Spawned
    ensures EsptouchDone !in Run(ClearsDoneOnStop, Init(), es).bits
  {
    RunPreservesInv(ClearsDoneOnStop, Init(), es);
  }

  /** `on_got_ip` is never unregistered: once a round has been started, a
      got-IP event sets the connected bit even after the round has ended. */
  lemma StaleConnectedBit(v: Variant, s: State)
    requires s.gotIpHooked && s.task == Absent
    ensures Connected in Step(v, s, GotIp).bits
    ensures Step(v, s, GotIp).task == Absent
  {
  }

  lemma RunCons(v: Variant, s: State, e: Event, rest: seq<Event>)
    ensures Run(v, s, [e] + rest) == Run(v, Step(v, s, e), rest)
  {
    assert ([e] + rest)[1..] == rest;
  }

  /** Running two event sequences one after the other. */
  lemma {:induction false} RunSplit(v: Variant, s: State, a: seq<Event>, b: seq<Event>)
    ensures Run(v, s, a + b) == Run(v, Run(v, s, a), b)
    decreases |a|
  {
    if |a| == 0 {
      assert a + b == b;
    } else {
      assert (a + b)[1..] == a[1..] + b;
      RunSplit(v, Step(v, s, a[0]), a[1..], b);
    }
  }

  /** Four low samples: a press long enough to fire. */
  function Press(): (es: seq<Event>)
    ensures |es| == Debounce.Period
    ensures forall j :: 0 <= j < |es| ==> es[j] == KeySampled(Debounce.Low)
  {
    [KeySampled(Debounce.Low), KeySampled(Debounce.Low),
     KeySampled(Debounce.Low), KeySampled(Debounce.Low)]
  }

  /** A press from rest, with no round open, starts a round. */
  lemma PressStartsRound(v: Variant, s: State)
    requires s.keyCount == 0 && !s.scFlag && s.task == Absent
    ensures Run(v, s, Press()) == s.(scFlag := true, gotIpHooked := true, task := Spawned,
                                     trace := s.trace + InitialiseWifi() + [SpawnSmartconfigTask])
  {
  }

  /** The task starts, LINK applies the credentials, the address is
      acquired, and the task handles the connected bit and waits again. */
  lemma LinkAndConnect(v: Variant, s: State, config: WifiConfig)
    requires s.task == Spawned && s.gotIpHooked && s.bits == {}
    ensures Run(v, s, [TaskBegins, ScCallback(Link(config)), GotIp, WaitReturns, TaskResumes])
            == s.(task := Waiting,
                  trace := s.trace + [SmartconfigSetType, SmartconfigStart] + ApplyCredentials(config))
  {
    var s1 := Step(v, s, TaskBegins);
    var s2 := Step(v, s1, ScCallback(Link(config)));
    var s3 := Step(v, s2, GotIp);
    assert s3.bits == {Connected};
    assert {Connected} * Watched == {Connected};
    var s4 := Step(v, s3, WaitReturns);
    assert s4.bits == {} by { assert {Connected} - Watched == {}; }
    RunCons(v, s4, TaskResumes, []);
    RunCons(v, s3, WaitReturns, [TaskResumes]);
    RunCons(v, s2, GotIp, [WaitReturns, TaskResumes]);
    RunCons(v, s1, ScCallback(Link(config)), [GotIp, WaitReturns, TaskResumes]);
    RunCons(v, s, TaskBegins, [ScCallback(Link(config)), GotIp, WaitReturns, TaskResumes]);
  }

  /** LINK_OVER while the task waits ends the round. */
  lemma LinkOverEndsRound(v: Variant, s: State)
    requires s.task == Waiting && s.scFlag && s.bits == {}
    ensures Run(v, s, [ScCallback(LinkOver(None)), WaitReturns, TaskResumes])
            == s.(task := Absent, scFlag := false, trace := s.trace + [SmartconfigStop])
  {
  }

  /** A complete round: a press, the task starting, credentials arriving, the
      address being acquired (which the task handles without ending the
      round), and SmartConfig finishing. The flag is clear again and the
      platform saw exactly these calls in this order. */
  lemma FullRound(v: Variant, config: WifiConfig)
    ensures var r := Run(v, Init(), Press() + [TaskBegins, ScCallback(Link(config)), GotIp,
                                               WaitReturns, TaskResumes]
                                           + [ScCallback(LinkOver(None)), WaitReturns, TaskResumes]);
            && !r.scFlag && r.task == Absent && r.bits == {} && r.keyCount == 0
            && r.trace == InitialiseWifi() + [SpawnSmartconfigTask, SmartconfigSetType, SmartconfigStart]
                          + ApplyCredentials(config) + [SmartconfigStop]
  {
    var first := [TaskBegins, ScCallback(Link(config)), GotIp, WaitReturns, TaskResumes];
    var second := [ScCallback(LinkOver(None)), WaitReturns, TaskResumes];
    RunSplit(v, Init(), Press() + first, second);
    RunSplit(v, Init(), Press(), first);
    PressStartsRound(v, Init());
    LinkAndConnect(v, Run(v, Init(), Press()), config);
    LinkOverEndsRound(v, Run(v, Init(), Press() + first));
  }

  /** The code as written: SmartConfig keeps running after the wait has
      returned the done bit, until the task stops it, and a second LINK_OVER
      in that window sets the done bit again. Nothing clears it, so the next
      press spawns a task that wakes on that stale bit and stops SmartConfig
      straight after starting it, before any status arrives. */
  lemma StaleDoneCutsNextRound()
    ensures var s := Run(AsWritten, Init(), Press() + [TaskBegins, ScCallback(LinkOver(None)), WaitReturns,
                                                       ScCallback(LinkOver(None)), TaskResumes] + Press());
            && s.task == Spawned && EsptouchDone in s.bits
            && Run(AsWritten, s, [TaskBegins, WaitReturns, TaskResumes])
               == s.(task := Absent, scFlag := false, bits := {},
                     trace := s.trace + [SmartconfigSetType, SmartconfigStart, SmartconfigStop])
  {
    var v := AsWritten;
    var round := [TaskBegins, ScCallback(LinkOver(None)), WaitReturns, ScCallback(LinkOver(None)), TaskResumes];
    RunSplit(v, Init(), Press() + round, Press());
    RunSplit(v, Init(), Press(), round);
    PressStartsRound(v, Init());
    var s4 := Run(v, Init(), Press());
    var s5 := Step(v, s4, TaskBegins);
    var s6 := Step(v, s5, ScCallback(LinkOver(None)));
    assert s6.bits == {EsptouchDone};
    assert {EsptouchDone} * Watched == {EsptouchDone};
    var s7 := Step(v, s6, WaitReturns);
    assert s7.bits == {} by { assert {EsptouchDone} - Watched == {}; }
    var s8 := Step(v, s7, ScCallback(LinkOver(None)));
    var s9 := Step(v, s8, TaskResumes);
    assert s9.bits == {EsptouchDone} && s9.task == Absent && !s9.scFlag && s9.keyCount == 0;
    RunCons(v, s8, TaskResumes, []);
    RunCons(v, s7, ScCallback(LinkOver(None)), round[4..]);
    RunCons(v, s6, WaitReturns, round[3..]);
    RunCons(v, s5, ScCallback(LinkOver(None)), round[2..]);
    RunCons(v, s4, TaskBegins, round[1..]);
    PressStartsRound(v, s9);
    var s := Run(v, s9, Press());
    var t1 := Step(v, s, TaskBegins);
    var t2 := Step(v, t1, WaitReturns);
    assert t2.bits == {} by { assert {EsptouchDone} - Watched == {}; }
    RunCons(v, t2, TaskResumes, []);
    RunCons(v, t1, WaitReturns, [TaskResumes]);
    RunCons(v, s, TaskBegins, [WaitReturns, TaskResumes]);
  }
}
