/** The provisioning control of the device as one immutable state record and
    one step function per atomic event: the key task's sampling iteration, the
    SmartConfig task's start, the return of its wait on the event group, its
    handling of the bits that wait returned, the SmartConfig status callback,
    and the got-IP notification. Platform calls are recorded, in order, as
    actions in a trace. */
module Provisioning {
  import opened Wrappers
  import Debounce

  /** The two bits of `wifi_event_group`. */
  datatype Bit = Connected | EsptouchDone

  /** The bits the SmartConfig task waits for. */
  const Watched: set<Bit> := {Connected, EsptouchDone}

  /** Credentials SmartConfig delivers with its LINK status. */
  datatype WifiConfig = WifiConfig(ssid: string, password: string)

  /** How the phone acknowledged the credentials. */
  datatype AckType = AckEsptouch | AckAirkiss | AckOther(code: int)

  /** What LINK_OVER may carry: the acknowledgement type and the phone's
      address. */
  datatype CallbackData = CallbackData(ackType: AckType, phoneIp: seq<bv8>)

  /** The statuses SmartConfig reports to its callback. */
  datatype ScStatus =
    | Wait
    | FindChannel
    | GettingSsidPswd
    | Link(config: WifiConfig)
    | LinkOver(pdata: Option<CallbackData>)
    | OtherStatus(code: int)

  /** Platform calls, in the order the device makes them. */
  datatype Action =
    | TcpipAdapterInit
    | WifiStop
    | WifiInit
    | RegisterDisconnectHandler
    | RegisterGotIpHandler
    | WifiSetModeSta
    | WifiStart
    | WifiConnect
    | WifiDisconnect
    | WifiSetConfig(config: WifiConfig)
    | SpawnSmartconfigTask
    | SmartconfigSetType
    | SmartconfigStart
    | SmartconfigStop

  /** The life of the SmartConfig task: not running, created but not yet
      started, blocked in its wait on the event group, or back from that wait
      with the bits `got` and not yet done handling them. */
  datatype TaskPhase = Absent | Spawned | Waiting | Handling(got: set<Bit>)

  /** How the task ends a round. `AsWritten` is the code: stop SmartConfig,
      clear the flag, delete the task. `ClearsDoneOnStop` also clears the done
      bit once SmartConfig is stopped, so that a LINK_OVER reported after the
      wait returned cannot leave the bit set for the next round. */
  datatype Variant = AsWritten | ClearsDoneOnStop

  /** Everything the control rules read or write. */
  datatype State = State(
    keyCount: nat,          // the key task's consecutive-low counter
    scFlag: bool,           // `smartconfig_flag`
    bits: set<Bit>,         // `wifi_event_group`
    gotIpHooked: bool,      // whether `on_got_ip` is registered
    task: TaskPhase,        // the SmartConfig task
    trace: seq<Action>)     // platform calls made so far

  /** The atomic events the tasks and the platform can interleave. */
  datatype Event =
    | KeySampled(level: Debounce.Level)
    | TaskBegins
    | WaitReturns
    | TaskResumes
    | ScCallback(status: ScStatus)
    | GotIp

  /** When the key task starts: no round, flag clear, counter zero. */
  function Init(): (s: State)
    ensures !s.scFlag && s.task == Absent && s.keyCount == 0
    ensures s.bits == {} && s.trace == []
  {
    State(0, false, {}, false, Absent, [])
  }

  /** The platform calls `initialise_wifi` makes: Wi-Fi is stopped and
      initialised again, both event handlers are registered before the
      station starts, and the last call connects. */
  function InitialiseWifi(): (r: seq<Action>)
    ensures |r| == 8 && r[0] == TcpipAdapterInit && r[|r| - 1] == WifiConnect
    ensures r[1] == WifiStop && r[2] == WifiInit
    ensures r[3] == RegisterDisconnectHandler && r[4] == RegisterGotIpHandler
    ensures r[5] == WifiSetModeSta && r[6] == WifiStart
  {
    [TcpipAdapterInit, WifiStop, WifiInit,
     RegisterDisconnectHandler, RegisterGotIpHandler,
     WifiSetModeSta, WifiStart, WifiConnect]
  }

  /** How LINK applies the delivered credentials: disconnect first, then set
      exactly these credentials, then connect. */
  function ApplyCredentials(config: WifiConfig): (r: seq<Action>)
    ensures |r| == 3
    ensures r[0] == WifiDisconnect && r[1] == WifiSetConfig(config) && r[2] == WifiConnect
  {
    [WifiDisconnect, WifiSetConfig(config), WifiConnect]
  }

  /** One iteration of the key task. A firing starts a round only when the
      flag is clear; otherwise only the counter moves. */
  function KeyTick(s: State, level: Debounce.Level): (r: State)
    ensures r.keyCount == Debounce.Sample(s.keyCount, level).count
    ensures r.bits == s.bits
    ensures r.scFlag <==> s.scFlag || Debounce.Sample(s.keyCount, level).fired
    ensures s.scFlag || !Debounce.Sample(s.keyCount, level).fired ==> r == s.(keyCount := r.keyCount)
    ensures !s.scFlag && r.scFlag ==>
      r.task == Spawned && r.gotIpHooked && r.trace == s.trace + InitialiseWifi() + [SpawnSmartconfigTask]
  {
    var sampled := Debounce.Sample(s.keyCount, level);
    var s1 := s.(keyCount := sampled.count);
    if sampled.fired && !s.scFlag then
      s1.(scFlag := true, gotIpHooked := true, task := Spawned,
          trace := s.trace + InitialiseWifi() + [SpawnSmartconfigTask])
    else
      s1
  }

  /** The SmartConfig task sets the protocol type and starts SmartConfig. */
  function BeginTask(s: State): (r: State)
    requires s.task == Spawned
    ensures r.task == Waiting
    ensures r == s.(task := Waiting, trace := s.trace + [SmartconfigSetType, SmartconfigStart])
  {
    s.(task := Waiting, trace := s.trace + [SmartconfigSetType, SmartconfigStart])
  }

  /** The wait on the event group returns because a watched bit is set. It
      was called with clear-on-exit, so the bits it returns are cleared as it
      returns them; the task has not acted on them yet. */
  function Consume(s: State): (r: State)
    requires s.task == Waiting
    requires s.bits * Watched != {}
    ensures r.task == Handling(s.bits * Watched)
    ensures r.bits == s.bits - Watched
    ensures r == s.(task := r.task, bits := r.bits)
  {
    var got := s.bits * Watched;
    s.(bits := s.bits - got, task := Handling(got))
  }

  /** The task acts on the bits its wait returned. The connected bit is only
      logged, and the task waits again. The done bit stops SmartConfig, clears
      the flag and ends the task; `ClearsDoneOnStop` then also clears the done
      bit. */
  function Handle(v: Variant, s: State): (r: State)
    requires s.task.Handling?
    ensures r.keyCount == s.keyCount && r.gotIpHooked == s.gotIpHooked
    ensures EsptouchDone in s.task.got ==>
      !r.scFlag && r.task == Absent && r.trace == s.trace + [SmartconfigStop]
    ensures EsptouchDone in s.task.got && v == AsWritten ==> r.bits == s.bits
    ensures EsptouchDone in s.task.got && v == ClearsDoneOnStop ==>
      r.bits == s.bits - {EsptouchDone}
    ensures EsptouchDone !in s.task.got ==> r == s.(task := Waiting)
  {
    if EsptouchDone in s.task.got then
      var ended := s.(trace := s.trace + [SmartconfigStop], scFlag := false, task := Absent);
      if v == ClearsDoneOnStop then ended.(bits := s.bits - {EsptouchDone}) else ended
    else
      s.(task := Waiting)
  }

  /** SmartConfig is running, and so may call `sc_callback`, from
      `esp_smartconfig_start` until `esp_smartconfig_stop`: while the task
      waits and while it handles what the wait returned. */
  predicate ScRunning(s: State)
  {
    s.task == Waiting || s.task.Handling?
  }

  /** `sc_callback`: LINK applies the credentials, LINK_OVER raises the done
      bit whatever it carries, every other status only logs. */
  function OnScStatus(s: State, status: ScStatus): (r: State)
    ensures status.Link? ==> r == s.(trace := s.trace + ApplyCredentials(status.config))
    ensures status.LinkOver? ==> r == s.(bits := s.bits + {EsptouchDone})
    ensures !status.Link? && !status.LinkOver? ==> r == s
  {
    match status
    case Link(config) => s.(trace := s.trace + ApplyCredentials(config))
    case LinkOver(pdata) =>
      // the acknowledgement type and phone address are only logged
      s.(bits := s.bits + {EsptouchDone})
    case _ => s
  }

  /** `on_got_ip`, delivered only once `initialise_wifi` has registered it. */
  function OnGotIp(s: State): (r: State)
    ensures s.gotIpHooked ==> r == s.(bits := s.bits + {Connected})
    ensures !s.gotIpHooked ==> r == s
  {
    if s.gotIpHooked then s.(bits := s.bits + {Connected}) else s
  }

  /** One atomic event. An event that cannot happen in `s` (the task is not
      at that point, the wait is still blocked, SmartConfig is not running)
      leaves the state unchanged. The atomic steps are one iteration of the
      key task (sample, fire, initialise Wi-Fi and spawn), the task's start,
      the return of its wait, its handling of the returned bits, one
      `sc_callback` and one `on_got_ip`. */
  function Step(v: Variant, s: State, e: Event): (r: State)
    ensures s.trace <= r.trace
    ensures !e.KeySampled? ==> r.keyCount == s.keyCount
    ensures e == TaskBegins && s.task != Spawned ==> r == s
    ensures e == WaitReturns && (s.task != Waiting || s.bits * Watched == {}) ==> r == s
    ensures e == TaskResumes && !s.task.Handling? ==> r == s
    ensures e.ScCallback? && !ScRunning(s) ==> r == s
  {
    match e
    case KeySampled(level) => KeyTick(s, level)
    case TaskBegins => if s.task == Spawned then BeginTask(s) else s
    case WaitReturns =>
      if s.task == Waiting && s.bits * Watched != {} then Consume(s) else s
    case TaskResumes => if s.task.Handling? then Handle(v, s) else s
    case ScCallback(status) => if ScRunning(s) then OnScStatus(s, status) else s
    case GotIp => OnGotIp(s)
  }

  /** The state after the events `es`, in order. */
  function Run(v: Variant, s: State, es: seq<Event>): (r: State)
    ensures s.trace <= r.trace
    decreases |es|
  {
    if |es| == 0 then s else Run(v, Step(v, s, es[0]), es[1..])
  }
}
