/**
 The USB gadget service as a transition system: any number of concurrent
 setCurrentUsbFunctions requests, and the monitor threads they create. One step is one action on
 shared state; file writes, endpoint checks, epoll results and timeouts are nondeterministic.

 Fields that no code reads are history: they record what happened so that properties can speak
 about it. They are `Monitor.owner`, `Monitor.endpoints`, `Monitor.pulled`, `Monitor.log`,
 `Request.created`, `Request.refusal`, `Request.timedOut` and `Request.calls`.
 */
module GadgetProtocol {
  import opened Wrappers
  import opened GadgetFunctions

  type RequestId = nat
  type MonitorId = nat

  // ---------- the monitor thread ----------

  /** A file descriptor as epoll_wait reports it. */
  datatype Ready = Inotify | Event

  /** What a monitor thread asked of the outside world, and the answer. `inLoop` tells the event loop
      from the first check before it. */
  datatype Action =
    | Access(path: string, readable: bool, inLoop: bool)
    | UdcWrite(ok: bool, inLoop: bool)
    | Answer(events: seq<Ready>)      // of epoll_wait
    | Records(count: nat)             // read from the inotify descriptor
    | Flag(value: nat)                // read from the eventfd

  datatype MonitorPc =
    | Check(inLoop: bool, j: nat)     // about to test endpoint j
    | WriteUdc(inLoop: bool)
    | LockForPullup(inLoop: bool)     // wants mLock
    | Pullup(inLoop: bool)            // holds mLock
    | EpollWait
    | NextEvent
    | ReadInotify
    | NextRecord
    | Decide(present: bool)
    | ReadFlag
    | Returned
    | Joined

  datatype Monitor = Monitor(
    pc: MonitorPc,
    writeUdc: bool,
    events: seq<Ready>,               // events of this round still to handle
    records: nat,                     // inotify records still to handle
    owner: RequestId,
    endpoints: seq<string>,
    pulled: bool,
    log: seq<Action>)

  /** What the loop does about one inotify record. */
  datatype Decision = Rearm | TryPullup | Ignore

  function DecideRecord(present: bool, writeUdc: bool): Decision {
    if !present && !writeUdc then Rearm
    else if present && writeUdc then TryPullup
    else Ignore
  }

  // ---------- the request thread ----------

  datatype RequestPc =
    | Enter                           // wants mLockSetCurrentFunction
    | TearDownWrites
    | CheckCreated
    | WriteStopFlag
    | Join
    | ClearCreated
    | ClearShared
    | Dispatch
    | Validate
    | LockForSetup                    // wants mLock
    | LinkAll
    | PullupNow
    | ReportNow
    | OpenDescriptors
    | Publish(inotify: nat, event: nat, epoll: nat)
    | Spawn
    | SetCreated
    | TestPullup(timedOut: bool)      // evaluates the predicate of wait_for
    | Sleep                           // in wait_for, mLock released
    | Relock(timedOut: bool)          // woken up, wants mLock
    | Report
    | Fail(status: Status)
    | Leave
    | Finished

  datatype Request = Request(
    functions: Functions,
    hasCallback: bool,
    pc: RequestPc,
    created: Option<MonitorId>,       // the monitor this request created
    refusal: Option<Status>,          // the system refused an operation, and what that means
    timedOut: Option<bool>,           // how the last wait ended
    calls: seq<Status>)

  // ---------- shared state ----------

  datatype Holder = Nobody | ByRequest(r: RequestId) | ByMonitor(m: MonitorId)

  datatype Descriptors = Descriptors(inotify: Option<nat>, event: Option<nat>, epoll: Option<nat>)

  const CLOSED := Descriptors(None, None, None)

  datatype State = State(
    requestLock: Option<RequestId>,   // mLockSetCurrentFunction
    lock: Holder,                     // mLock
    sleepers: set<RequestId>,         // threads blocked on mCv
    monitorCreated: bool,
    thread: Option<MonitorId>,        // the joinable thread of mMonitor
    gadgetPullup: bool,
    endpoints: seq<string>,           // mEndpointList
    fds: Descriptors,
    flag: nat,                        // counter of the eventfd behind fds.event
    requests: map<RequestId, Request>,
    monitors: map<MonitorId, Monitor>,
    aborted: bool)                    // std::terminate was called

  ghost predicate Init(s: State) {
    && s.requestLock == None && s.lock == Nobody && s.sleepers == {}
    && !s.monitorCreated && s.thread == None
    && s.endpoints == [] && s.fds == CLOSED && s.flag == 0
    && s.requests == map[] && s.monitors == map[] && !s.aborted
  }

  const STOP_FLAG := 100

  /** read() fills a buffer of 512 bytes with records of at least 16. */
  const MAX_RECORDS := 32

  // ---------- steps of a request ----------

  function Goto(s: State, r: RequestId, pc: RequestPc): State
    requires r in s.requests
  {
    s.(requests := s.requests[r := s.requests[r].(pc := pc)])
  }

  /** An operation was refused. */
  function Refuse(s: State, r: RequestId, status: Status): State
    requires r in s.requests
  {
    s.(requests := s.requests[r := s.requests[r].(pc := Fail(status), refusal := Some(status))])
  }

  /** A wait has ended. */
  function Wake(s: State, r: RequestId, timedOut: bool): State
    requires r in s.requests
  {
    var q := s.requests[r].(pc := Relock(timedOut), timedOut := Some(timedOut));
    s.(sleepers := s.sleepers - {r}, requests := s.requests[r := q])
  }

  /** setCurrentUsbFunctionsCb, if there is a callback. */
  function Deliver(s: State, r: RequestId, status: Status): State
    requires r in s.requests
  {
    var q := s.requests[r];
    if q.hasCallback then s.(requests := s.requests[r := q.(calls := q.calls + [status])]) else s
  }

  function Unlock(s: State): State { s.(lock := Nobody) }

  ghost predicate Arrive(s: State, s': State, r: RequestId, functions: Functions, hasCallback: bool) {
    && r !in s.requests
    && s' == s.(requests := s.requests[r := Request(functions, hasCallback, Enter, None, None, None, [])])
  }

  /** tearDownGadget, and the dispatch after it. */
  ghost predicate TearDownStep(s: State, s': State, r: RequestId)
    requires r in s.requests
  {
    var q := s.requests[r];
    match q.pc
    case Enter =>
      s.requestLock == None && s' == Goto(s.(requestLock := Some(r)), r, TearDownWrites)
    case TearDownWrites =>
      s' == Goto(s, r, CheckCreated) || s' == Refuse(s, r, ERROR)
    case CheckCreated =>
      s' == Goto(s, r, if s.monitorCreated then WriteStopFlag else ClearShared)
    case WriteStopFlag =>
      s' == Goto(s.(flag := s.flag + STOP_FLAG), r, Join)
    case Join =>
      (match s.thread
       case None => s' == s.(aborted := true)
       case Some(m) =>
         && m in s.monitors && s.monitors[m].pc == Returned
         && s' == Goto(s.(thread := None, monitors := s.monitors[m := s.monitors[m].(pc := Joined)]), r, ClearCreated))
    case ClearCreated =>
      s' == Goto(s.(monitorCreated := false), r, ClearShared)
    case ClearShared =>
      s' == Goto(s.(fds := CLOSED, endpoints := []), r, Dispatch)
    case Dispatch =>
      if q.functions == NONE then s' == Goto(Deliver(s, r, SUCCESS), r, Leave)
      else s' == Goto(s, r, Validate)
    case _ => false
  }

  /** validateAndSetVidPid and setupFunctions up to the thread creation. */
  ghost predicate SetupStep(s: State, s': State, r: RequestId)
    requires r in s.requests
  {
    var q := s.requests[r];
    match q.pc
    case Validate =>
      || (Supported(q.functions) && s' == Goto(s, r, LockForSetup))
      || s' == Refuse(s, r, ERROR)
      || s' == Refuse(s, r, CONFIGURATION_NOT_SUPPORTED)
    case LockForSetup =>
      s.lock == Nobody && s' == Goto(s.(lock := ByRequest(r)), r, LinkAll)
    case LinkAll =>
      || s' == Goto(s.(endpoints := s.endpoints + EndpointsOf(q.functions)), r,
                    if q.functions.UsesFfs() then OpenDescriptors else PullupNow)
      || (exists k: nat :: k <= |EndpointsOf(q.functions)|
            && s' == Unlock(Refuse(s.(endpoints := s.endpoints + EndpointsOf(q.functions)[..k]), r, ERROR)))
    case PullupNow =>
      s' == Goto(s, r, ReportNow) || s' == Unlock(Refuse(s, r, ERROR))
    case ReportNow =>
      s' == Unlock(Goto(Deliver(s, r, SUCCESS), r, Leave))
    case OpenDescriptors =>
      || (exists inotify, event, epoll :: s' == Goto(s, r, Publish(inotify, event, epoll)))
      || s' == Unlock(Refuse(s, r, ERROR))
    case Publish(inotify, event, epoll) =>
      s' == Goto(s.(fds := Descriptors(Some(inotify), Some(event), Some(epoll)),
                    flag := 0, gadgetPullup := false), r, Spawn)
    case Spawn =>
      exists m :: m !in s.monitors && s' == SpawnMonitor(s, r, m)
    case _ => false
  }

  /** Replacing a joinable thread ends the process. */
  function SpawnMonitor(s: State, r: RequestId, m: MonitorId): State
    requires r in s.requests
  {
    if s.thread.Some? then s.(aborted := true)
    else s.(thread := Some(m),
            monitors := s.monitors[m := NewMonitor(r, s.endpoints)],
            requests := s.requests[r := s.requests[r].(pc := SetCreated, created := Some(m))])
  }

  function NewMonitor(owner: RequestId, endpoints: seq<string>): Monitor {
    Monitor(Check(false, 0), true, [], 0, owner, endpoints, false, [])
  }

  /** Waiting for the monitor, reporting, and leaving. */
  ghost predicate ReportStep(s: State, s': State, r: RequestId)
    requires r in s.requests
  {
    var q := s.requests[r];
    match q.pc
    case SetCreated =>
      var t := s.(monitorCreated := true);
      s' == if q.hasCallback then Goto(t, r, TestPullup(false)) else Unlock(Goto(t, r, Leave))
    case TestPullup(timedOut) =>
      s' == if s.gadgetPullup || timedOut then Goto(s, r, Report)
            else Unlock(Goto(s.(sleepers := s.sleepers + {r}), r, Sleep))
    case Sleep =>
      // notified, woken spuriously, or timed out
      exists timedOut :: s' == Wake(s, r, timedOut)
    case Relock(timedOut) =>
      s.lock == Nobody && s' == Goto(s.(lock := ByRequest(r)), r, TestPullup(timedOut))
    case Report =>
      s' == Unlock(Goto(Deliver(s, r, if s.gadgetPullup then SUCCESS else ERROR), r, Leave))
    case Fail(status) =>
      s' == Goto(Deliver(s, r, status), r, Leave)
    case Leave =>
      s' == Goto(s.(requestLock := None), r, Finished)
    case _ => false
  }

  ghost predicate RequestStep(s: State, s': State, r: RequestId) {
    r in s.requests && (TearDownStep(s, s', r) || SetupStep(s, s', r) || ReportStep(s, s', r))
  }

  // ---------- steps of a monitor ----------

  function Put(s: State, m: MonitorId, mon: Monitor): State {
    s.(monitors := s.monitors[m := mon])
  }

  /** Endpoint checks and the pull-up, shared by the first check and the loop. */
  ghost predicate PullupStep(s: State, s': State, m: MonitorId)
    requires m in s.monitors
  {
    var mon := s.monitors[m];
    match mon.pc
    case Check(inLoop, j) =>
      if j >= |s.endpoints| then
        s' == Put(s, m, mon.(pc := if inLoop then Decide(true) else WriteUdc(false)))
      else
        exists readable ::
          s' == Put(s, m, mon.(log := mon.log + [Access(s.endpoints[j], readable, inLoop)],
                               pc := if readable then Check(inLoop, j + 1)
                                     else if inLoop then Decide(false) else EpollWait))
    case WriteUdc(inLoop) =>
      exists ok ::
        s' == Put(s, m, mon.(log := mon.log + [UdcWrite(ok, inLoop)],
                             pc := if ok then LockForPullup(inLoop) else if inLoop then NextRecord else EpollWait))
    case LockForPullup(inLoop) =>
      s.lock == Nobody && s' == Put(s, m, mon.(pc := Pullup(inLoop))).(lock := ByMonitor(m))
    case Pullup(inLoop) =>
      // sets the flags, notify_all, and releases mLock
      s' == Put(s, m, mon.(pulled := true,
                           writeUdc := if inLoop then false else mon.writeUdc,
                           pc := if inLoop then NextRecord else EpollWait))
            .(gadgetPullup := true, sleepers := {}, lock := Nobody)
    case _ => false
  }

  /** A non-empty answer of epoll_wait: each descriptor at most once, the eventfd exactly if it is
      readable (it is registered level-triggered). */
  ghost predicate Batch(events: seq<Ready>, flag: nat) {
    && (|events| == 1 || (|events| == 2 && events[0] != events[1]))
    && (Event in events <==> flag > 0)
  }

  /** The event loop. */
  ghost predicate LoopStep(s: State, s': State, m: MonitorId)
    requires m in s.monitors
  {
    var mon := s.monitors[m];
    match mon.pc
    case EpollWait =>
      // an empty or failed answer goes round again without an effect
      || s' == s
      || (exists events :: Batch(events, s.flag)
            && s' == Put(s, m, mon.(pc := NextEvent, events := events, log := mon.log + [Answer(events)])))
    case NextEvent =>
      if mon.events == [] then s' == Put(s, m, mon.(pc := EpollWait))
      else s' == Put(s, m, mon.(pc := if mon.events[0] == Inotify then ReadInotify else ReadFlag,
                              events := mon.events[1..]))
    case ReadInotify =>
      exists k: nat :: k <= MAX_RECORDS
        && s' == Put(s, m, mon.(pc := NextRecord, records := k, log := mon.log + [Records(k)]))
    case NextRecord =>
      if mon.records == 0 then s' == Put(s, m, mon.(pc := NextEvent))
      else s' == Put(s, m, mon.(pc := Check(true, 0), records := mon.records - 1))
    case Decide(present) =>
      (match DecideRecord(present, mon.writeUdc)
       case Rearm => s' == Put(s, m, mon.(writeUdc := true, pc := NextRecord))
       case TryPullup => s' == Put(s, m, mon.(pc := WriteUdc(true)))
       case Ignore => s' == Put(s, m, mon.(pc := NextRecord)))
    case ReadFlag =>
      // a blocking read, which resets the counter
      && s.flag > 0
      && s' == Put(s, m, mon.(pc := if s.flag == STOP_FLAG then Returned else NextEvent,
                              log := mon.log + [Flag(s.flag)])).(flag := 0)
    case _ => false
  }

  ghost predicate MonitorStep(s: State, s': State, m: MonitorId) {
    m in s.monitors && (PullupStep(s, s', m) || LoopStep(s, s', m))
  }

  // ---------- runs ----------

  ghost predicate Next(s: State, s': State) {
    !s.aborted &&
    ( || (exists r, functions, hasCallback :: Arrive(s, s', r, functions, hasCallback))
      || (exists r :: RequestStep(s, s', r))
      || (exists m :: MonitorStep(s, s', m)))
  }

  ghost predicate Run(states: seq<State>) {
    && states != [] && Init(states[0])
    && forall i :: 0 <= i < |states| - 1 ==> Next(states[i], states[i + 1])
  }
}
