/** The promises of the gadget service, over every run: callbacks, threads, deadlock, shutdown. */
module GadgetTheorems {
  import opened Wrappers
  import opened GadgetFunctions
  import opened GadgetProtocol
  import opened GadgetInvariants
  import opened GadgetMonitorLog

  // ---------- callbacks ----------

  /** A request that has a callback calls it exactly once, whichever way it ends, and one that has
      none never calls it. */
  lemma CallbackOnce(states: seq<State>, i: nat, r: RequestId)
    requires Run(states) && i < |states| && r in states[i].requests
    ensures var q := states[i].requests[r];
            |q.calls| == if q.hasCallback && (q.pc == Leave || q.pc == Finished) then 1 else 0
  {
    hide Next, LiveInv, PhaseInv, ThreadInv, OwnerInv, Supported;
    ControlAlways(states, i);
  }

  /** What the one call says: SUCCESS only for NONE or a mask that has ids, which are those with at most one
      interface beside ADB, and CONFIGURATION_NOT_SUPPORTED never for NONE. */
  lemma DeliveredStatus(states: seq<State>, i: nat, r: RequestId)
    requires Run(states) && i < |states| && r in states[i].requests && |states[i].requests[r].calls| == 1
    ensures var q := states[i].requests[r];
            && (q.calls[0] == SUCCESS ==> q.functions == NONE || OneInterface(q.functions))
            && (q.calls[0] == CONFIGURATION_NOT_SUPPORTED ==> q.functions != NONE)
  {
    hide Next, LiveInv, PhaseInv, ThreadInv, OwnerInv, Supported, OneInterface;
    ControlAlways(states, i);
    SupportedExactly(states[i].requests[r].functions);
  }

  /** The status of the one call. If the system refused an operation, the call says what that means.
      Otherwise a request without FunctionFS functions, NONE among them, is told SUCCESS, and any other
      has created its own monitor, which decides; such a request is told ERROR only after its wait has
      timed out. */
  lemma CallbackStatus(states: seq<State>, i: nat, r: RequestId)
    requires Run(states) && i < |states| && r in states[i].requests && |states[i].requests[r].calls| == 1
    ensures var q := states[i].requests[r];
            && (q.refusal.Some? ==> q.calls == [q.refusal.value] && q.refusal.value != SUCCESS && q.created.None?)
            && (q.refusal.None? && !q.functions.UsesFfs() ==> q.calls == [SUCCESS])
            && (q.refusal.None? && q.functions.UsesFfs() ==>
                  q.created.Some? && (q.calls == [SUCCESS] || (q.calls == [ERROR] && q.timedOut == Some(true))))
  {
    hide Next, LiveInv, PhaseInv, ThreadInv, OwnerInv, Supported;
    ControlAlways(states, i);
  }

  /** A request that has created a monitor is told SUCCESS exactly if that monitor has pulled the gadget up
      by then, and ERROR otherwise. */
  lemma PulledUpIsSuccess(states: seq<State>, i: nat, r: RequestId)
    requires Run(states) && i + 1 < |states| && r in states[i].requests && r in states[i + 1].requests
    requires states[i].requests[r].created.Some?
    requires states[i].requests[r].calls == [] && states[i + 1].requests[r].calls != []
    ensures var m := states[i].requests[r].created.value;
            && m in states[i].monitors
            && states[i + 1].requests[r].calls == [if states[i].monitors[m].pulled then SUCCESS else ERROR]
  {
    hide Next, Local;
    ControlAlways(states, i);
    ControlOf(states[i], r);
    StepOfRequest(states[i], states[i + 1], r);
    ReportTells(states[i], states[i + 1], r);
  }

  /** Only its own steps change a request. */
  lemma StepOfRequest(s: State, s': State, r: RequestId)
    requires ControlInv(s) && Next(s, s') && r in s.requests
    ensures r in s'.requests && (s'.requests[r] == s.requests[r] || RequestStep(s, s', r))
  {
    hide ControlInv, Arrive, RequestStep, MonitorStep, LiveInv, LocalMonitor, Local;
    if x, functions, hasCallback :| Arrive(s, s', x, functions, hasCallback) {
      ArriveLeavesRequests(s, s', x, functions, hasCallback);
    } else if x :| RequestStep(s, s', x) {
      hide PhaseInv, CallInv;
      RequestExists(s, s', x);
      ControlOf(s, x);
      RequestKeeps(s, s', x);
    } else {
      var m :| MonitorStep(s, s', m);
      MonitorControlOf(s, s', m);
      MonitorStepKeeps(s, s', m);
    }
  }

  lemma RequestExists(s: State, s': State, r: RequestId)
    requires RequestStep(s, s', r)
    ensures r in s.requests
  {
  }

  lemma ArriveLeavesRequests(s: State, s': State, r: RequestId, functions: Functions, hasCallback: bool)
    requires Arrive(s, s', r, functions, hasCallback)
    ensures forall x :: x in s.requests ==> x in s'.requests && s'.requests[x] == s.requests[x]
  {
  }

  lemma ReportTells(s: State, s': State, r: RequestId)
    requires Local(s, r) && RequestStep(s, s', r) && s.requests[r].created.Some? && r in s'.requests
    requires s.requests[r].calls == [] && s'.requests[r].calls != []
    ensures s.requests[r].created.value in s.monitors
    ensures s'.requests[r].calls == [if s.monitors[s.requests[r].created.value].pulled then SUCCESS else ERROR]
  {
    hide LiveInv, Handle, Supported, EndpointsOf;
    assert PhaseInv(s, r) && CallInv(s, r);
    assert s.requests[r].pc.Report?;
    hide TearDownStep, SetupStep;
  }

  /** Past its time limit. */
  predicate OutOfTime(pc: RequestPc) {
    pc == Relock(true) || pc == TestPullup(true) || pc == Report || pc == Leave || pc == Finished
  }

  lemma StepOutOfTime(s: State, s': State, r: RequestId)
    requires r in s.requests && r in s'.requests && OutOfTime(s.requests[r].pc) && RequestStep(s, s', r)
    ensures OutOfTime(s'.requests[r].pc)
  {
    hide SetupStep, TearDownStep;
    NotBefore(s, s', r);
  }

  lemma NotBefore(s: State, s': State, r: RequestId)
    requires r in s.requests && OutOfTime(s.requests[r].pc)
    ensures !TearDownStep(s, s', r) && !SetupStep(s, s', r)
  {
  }

  /** A request whose wait has timed out does not wait again: from then on it only reports and leaves. */
  lemma {:induction false} TimedOutReports(states: seq<State>, i: nat, j: nat, r: RequestId)
    requires Run(states) && i <= j < |states| && r in states[i].requests
    requires states[i].requests[r].pc == Relock(true)
    ensures r in states[j].requests && OutOfTime(states[j].requests[r].pc)
  {
    hide Next, ControlInv, RequestStep;
    if i < j {
      TimedOutReports(states, i, j - 1, r);
      ControlAlways(states, j - 1);
      StepOfRequest(states[j - 1], states[j], r);
      if states[j].requests[r] != states[j - 1].requests[r] {
        StepOutOfTime(states[j - 1], states[j], r);
      }
    }
  }

  /** Success means pulled up: if an MTP, PTP or ADB request reports SUCCESS, then the monitor that
      this request created, and no other, found every endpoint of the request readable in one pass
      and then wrote the UDC successfully. */
  lemma SuccessIsPulledUp(states: seq<State>, i: nat, r: RequestId)
    requires Run(states) && i < |states| && r in states[i].requests
    requires states[i].requests[r].calls == [SUCCESS] && states[i].requests[r].functions.UsesFfs()
    ensures var q := states[i].requests[r];
            && q.created.Some? && q.created.value in states[i].monitors
            && var mon := states[i].monitors[q.created.value];
               && mon.owner == r
               && mon.endpoints == EndpointsOf(q.functions) != []
               && Witness(mon.log, mon.endpoints)
    ensures forall m :: m in states[i].monitors && states[i].monitors[m].owner == r ==>
              states[i].requests[r].created == Some(m)
  {
    hide Next, LiveInv, PhaseInv, ThreadInv, EndpointsOf, Witness, EdgeTriggered;
    ControlAlways(states, i);
    LogsAlways(states, i);
    EndpointsExist(states[i].requests[r].functions);
    assert CallInv(states[i], r);
    assert Good(states[i].monitors[states[i].requests[r].created.value]);
  }

  // ---------- edges ----------

  /** In every run, the event loop of a monitor pulls the gadget up on edges only: between a successful
      pull-up and any later attempt it saw an endpoint absent, and it has pulled up at most once more
      than it saw one absent. */
  lemma LoopPullsUpOnEdges(states: seq<State>, i: nat, m: MonitorId)
    requires Run(states) && i < |states| && m in states[i].monitors
    ensures var log := states[i].monitors[m].log;
            && (forall j, k :: 0 <= j < k < |log| && LoopPullup(log[j]) && log[k].UdcWrite? && log[k].inLoop ==>
                  exists x :: j < x < k && LoopAbsent(log[x]))
            && CountActions(log, LoopPullup) <= CountActions(log, LoopAbsent) + 1
  {
    hide Next, EdgeTriggered, Armed, Witness, LoopPullup, LoopAbsent, CountActions;
    LogsAlways(states, i);
    var log := states[i].monitors[m].log;
    assert Good(states[i].monitors[m]);
    PullupsAreBounded(log);
    forall j, k | 0 <= j < k < |log| && LoopPullup(log[j]) && log[k].UdcWrite? && log[k].inLoop
      ensures exists x :: j < x < k && LoopAbsent(log[x])
    {
      EdgeBetween(log, j, k);
    }
  }

  // ---------- threads ----------

  predicate Alive(s: State, m: MonitorId) { m in s.monitors && s.monitors[m].pc != Joined }

  /** There is at most one monitor thread, the service never aborts by dropping or double-joining it,
      and mMonitorCreated tells whether there is one whenever no request is being processed. Without one
      all descriptors are closed then. */
  lemma OneMonitor(states: seq<State>, i: nat)
    requires Run(states) && i < |states|
    ensures var s := states[i];
            && !s.aborted
            && (forall m, n :: Alive(s, m) && Alive(s, n) ==> m == n)
            && (s.requestLock == None ==> (s.monitorCreated <==> exists m :: Alive(s, m)))
            && (s.requestLock == None && !s.monitorCreated ==> s.fds == CLOSED)
  {
    hide Next, LiveInv, PhaseInv, CallInv, OwnerInv;
    ControlAlways(states, i);
    var s := states[i];
    if s.thread.Some? {
      assert Alive(s, s.thread.value);
    }
  }

  /** While a monitor is alive, nobody changes the endpoint list or the descriptors it uses. */
  lemma SharedStateIsStable(states: seq<State>, i: nat, m: MonitorId)
    requires Run(states) && i + 1 < |states| && Alive(states[i], m) && Alive(states[i + 1], m)
    ensures states[i + 1].endpoints == states[i].endpoints == states[i].monitors[m].endpoints
    ensures states[i + 1].fds == states[i].fds && Open(states[i].fds)
  {
    hide ControlInv, Arrive, RequestStep, MonitorStep, LiveInv;
    var s, s' := states[i], states[i + 1];
    ControlAlways(states, i);
    AliveIsThread(s, m);
    if r :| RequestStep(s, s', r) {
      RequestLeavesShared(s, s', r, m);
    } else if r, f, c :| Arrive(s, s', r, f, c) {
      ArriveLeavesShared(s, s', r, f, c);
    } else {
      var n :| MonitorStep(s, s', n);
      MonitorLeavesShared(s, s', n);
    }
  }

  lemma AliveIsThread(s: State, m: MonitorId)
    requires ControlInv(s) && Alive(s, m)
    ensures s.thread == Some(m) && s.endpoints == s.monitors[m].endpoints && Open(s.fds)
  {
    hide PhaseInv, CallInv, OwnerInv;
  }

  lemma ArriveLeavesShared(s: State, s': State, r: RequestId, functions: Functions, hasCallback: bool)
    requires Arrive(s, s', r, functions, hasCallback)
    ensures s'.endpoints == s.endpoints && s'.fds == s.fds
  {
  }

  lemma MonitorLeavesShared(s: State, s': State, m: MonitorId)
    requires ControlInv(s) && MonitorStep(s, s', m)
    ensures s'.endpoints == s.endpoints && s'.fds == s.fds
  {
    hide ControlInv, MonitorStep, LiveInv;
    MonitorControlOf(s, s', m);
    MonitorStepKeeps(s, s', m);
  }

  lemma RequestLeavesShared(s: State, s': State, r: RequestId, m: MonitorId)
    requires ControlInv(s) && RequestStep(s, s', r) && s.thread == Some(m)
    ensures s'.endpoints == s.endpoints && s'.fds == s.fds
  {
    hide LiveInv, CallInv, OwnerInv, LockInv, Supported, EndpointsOf, Handle;
    assert PhaseInv(s, r);
  }

  // ---------- no lost notification ----------

  /** Nobody is left blocked on mCv once the gadget is pulled up. */
  lemma NoLostNotify(states: seq<State>, i: nat)
    requires Run(states) && i < |states| && states[i].gadgetPullup
    ensures states[i].sleepers == {}
  {
    hide Next, LiveInv, PhaseInv, CallInv, OwnerInv, LockInv, ThreadInv;
    ControlAlways(states, i);
    assert forall r :: r !in states[i].sleepers;
  }

  // ---------- no deadlock ----------

  ghost predicate RequestCanStep(s: State, r: RequestId) { exists s' :: RequestStep(s, s', r) }

  /** The monitor can do something other than wait for events. */
  ghost predicate MonitorCanStep(s: State, m: MonitorId) { exists s' :: s' != s && MonitorStep(s, s', m) }

  /** One step the monitor can take wherever it is, events permitting. */
  function AdvancePullup(s: State, m: MonitorId): State
    requires m in s.monitors
  {
    var mon := s.monitors[m];
    match mon.pc
    case Check(inLoop, j) =>
      if j >= |s.endpoints| then Put(s, m, mon.(pc := if inLoop then Decide(true) else WriteUdc(false)))
      else Put(s, m, mon.(log := mon.log + [Access(s.endpoints[j], true, inLoop)], pc := Check(inLoop, j + 1)))
    case WriteUdc(inLoop) => Put(s, m, mon.(log := mon.log + [UdcWrite(true, inLoop)], pc := LockForPullup(inLoop)))
    case LockForPullup(inLoop) => Put(s, m, mon.(pc := Pullup(inLoop))).(lock := ByMonitor(m))
    case Pullup(inLoop) =>
      Put(s, m, mon.(pulled := true, writeUdc := if inLoop then false else mon.writeUdc,
                     pc := if inLoop then NextRecord else EpollWait))
      .(gadgetPullup := true, sleepers := {}, lock := Nobody)
    case _ => s
  }

  function AdvanceLoop(s: State, m: MonitorId): State
    requires m in s.monitors
  {
    var mon := s.monitors[m];
    match mon.pc
    case EpollWait => Put(s, m, mon.(pc := NextEvent, events := [Event], log := mon.log + [Answer([Event])]))
    case NextEvent =>
      if mon.events == [] then Put(s, m, mon.(pc := EpollWait))
      else Put(s, m, mon.(pc := if mon.events[0] == Inotify then ReadInotify else ReadFlag, events := mon.events[1..]))
    case ReadInotify => Put(s, m, mon.(pc := NextRecord, records := 0, log := mon.log + [Records(0)]))
    case NextRecord =>
      if mon.records == 0 then Put(s, m, mon.(pc := NextEvent))
      else Put(s, m, mon.(pc := Check(true, 0), records := mon.records - 1))
    case Decide(present) =>
      (match DecideRecord(present, mon.writeUdc)
       case Rearm => Put(s, m, mon.(writeUdc := true, pc := NextRecord))
       case TryPullup => Put(s, m, mon.(pc := WriteUdc(true)))
       case Ignore => Put(s, m, mon.(pc := NextRecord)))
    case ReadFlag =>
      Put(s, m, mon.(pc := if s.flag == STOP_FLAG then Returned else NextEvent, log := mon.log + [Flag(s.flag)]))
      .(flag := 0)
    case _ => s
  }

  predicate InPullup(pc: MonitorPc) { pc.Check? || pc.WriteUdc? || pc.LockForPullup? || pc.Pullup? }

  lemma PullupProgress(s: State, m: MonitorId)
    requires m in s.monitors && InPullup(s.monitors[m].pc)
    requires s.monitors[m].pc.LockForPullup? ==> s.lock.Nobody?
    ensures MonitorCanStep(s, m)
  {
    var s' := AdvancePullup(s, m);
    assert s' != s by { hide PullupStep; assert s'.monitors[m].pc != s.monitors[m].pc; }
    assert PullupStep(s, s', m);
    hide PullupStep, LoopStep, AdvancePullup;
    assert MonitorStep(s, s', m);
  }

  lemma LoopProgress(s: State, m: MonitorId)
    requires m in s.monitors && !InPullup(s.monitors[m].pc)
    requires s.monitors[m].pc != Returned && s.monitors[m].pc != Joined
    requires s.monitors[m].pc == EpollWait || s.monitors[m].pc == ReadFlag ==> s.flag > 0
    ensures MonitorCanStep(s, m)
  {
    var s' := AdvanceLoop(s, m);
    assert s' != s by { hide LoopStep; assert s'.monitors[m].pc != s.monitors[m].pc; }
    AdvanceLoopSteps(s, m);
    hide PullupStep, LoopStep, AdvanceLoop;
    assert MonitorStep(s, s', m);
  }

  lemma AdvanceLoopSteps(s: State, m: MonitorId)
    requires m in s.monitors && !InPullup(s.monitors[m].pc)
    requires s.monitors[m].pc != Returned && s.monitors[m].pc != Joined
    requires s.monitors[m].pc == EpollWait || s.monitors[m].pc == ReadFlag ==> s.flag > 0
    ensures LoopStep(s, AdvanceLoop(s, m), m)
  {
    hide Put;
    assert s.flag > 0 ==> Batch([Event], s.flag);
  }

  /** A request that is joining its predecessor's thread is never waited for by that thread: the mutex
      is not the request's, and the thread has returned or can go on. */
  lemma JoinIsServed(states: seq<State>, i: nat, r: RequestId)
    requires Run(states) && i < |states| && r in states[i].requests && states[i].requests[r].pc == Join
    ensures var s := states[i];
            && !s.lock.ByRequest?
            && s.thread.Some? && s.thread.value in s.monitors
            && (s.monitors[s.thread.value].pc == Returned || MonitorCanStep(s, s.thread.value))
  {
    hide Next, CallInv, OwnerInv, SleepInv;
    ControlAlways(states, i);
    var s := states[i];
    assert PhaseInv(s, r);
    var m := s.thread.value;
    assert LocalMonitor(s, m);
    assert !s.lock.ByRequest?;
    assert s.lock.Nobody? || s.monitors[m].pc.Pullup?;
    hide LocalMonitor, PhaseInv, LockInv, MonitorCanStep;
    if InPullup(s.monitors[m].pc) {
      PullupProgress(s, m);
    } else if s.monitors[m].pc != Returned {
      LoopProgress(s, m);
    }
  }

  /** One step a request can take wherever it is, when nothing blocks it. */
  function AdvanceTearDown(s: State, r: RequestId): State
    requires r in s.requests
  {
    match s.requests[r].pc
    case Enter => Goto(s.(requestLock := Some(r)), r, TearDownWrites)
    case TearDownWrites => Goto(s, r, CheckCreated)
    case CheckCreated => Goto(s, r, if s.monitorCreated then WriteStopFlag else ClearShared)
    case WriteStopFlag => Goto(s.(flag := s.flag + STOP_FLAG), r, Join)
    case Join =>
      if s.thread.Some? && s.thread.value in s.monitors then
        Goto(s.(thread := None, monitors := s.monitors[s.thread.value := s.monitors[s.thread.value].(pc := Joined)]),
             r, ClearCreated)
      else s.(aborted := true)
    case ClearCreated => Goto(s.(monitorCreated := false), r, ClearShared)
    case ClearShared => Goto(s.(fds := CLOSED, endpoints := []), r, Dispatch)
    case Dispatch =>
      if s.requests[r].functions == NONE then Goto(Deliver(s, r, SUCCESS), r, Leave) else Goto(s, r, Validate)
    case _ => s
  }

  function AdvanceSetup(s: State, r: RequestId, m: MonitorId): State
    requires r in s.requests
  {
    match s.requests[r].pc
    case Validate => Refuse(s, r, ERROR)
    case LockForSetup => Goto(s.(lock := ByRequest(r)), r, LinkAll)
    case LinkAll =>
      Goto(s.(endpoints := s.endpoints + EndpointsOf(s.requests[r].functions)), r,
           if s.requests[r].functions.UsesFfs() then OpenDescriptors else PullupNow)
    case PullupNow => Goto(s, r, ReportNow)
    case ReportNow => Unlock(Goto(Deliver(s, r, SUCCESS), r, Leave))
    case OpenDescriptors => Goto(s, r, Publish(0, 1, 2))
    case Publish(inotify, event, epoll) =>
      Goto(s.(fds := Descriptors(Some(inotify), Some(event), Some(epoll)), flag := 0, gadgetPullup := false), r, Spawn)
    case Spawn => SpawnMonitor(s, r, m)
    case _ => s
  }

  function AdvanceReport(s: State, r: RequestId): State
    requires r in s.requests
  {
    var q := s.requests[r];
    match q.pc
    case SetCreated =>
      var t := s.(monitorCreated := true);
      if q.hasCallback then Goto(t, r, TestPullup(false)) else Unlock(Goto(t, r, Leave))
    case TestPullup(timedOut) =>
      if s.gadgetPullup || timedOut then Goto(s, r, Report)
      else Unlock(Goto(s.(sleepers := s.sleepers + {r}), r, Sleep))
    case Sleep => Wake(s, r, true)
    case Relock(timedOut) => Goto(s.(lock := ByRequest(r)), r, TestPullup(timedOut))
    case Report => Unlock(Goto(Deliver(s, r, if s.gadgetPullup then SUCCESS else ERROR), r, Leave))
    case Fail(status) => Goto(Deliver(s, r, status), r, Leave)
    case Leave => Goto(s.(requestLock := None), r, Finished)
    case _ => s
  }

  /** What a request at this point has to wait for. */
  predicate Blocked(s: State, r: RequestId)
    requires r in s.requests
  {
    match s.requests[r].pc
    case Enter => s.requestLock.Some?
    case LockForSetup => !s.lock.Nobody?
    case Relock(_) => !s.lock.Nobody?
    case Join => s.thread.Some? && (s.thread.value in s.monitors ==> s.monitors[s.thread.value].pc != Returned)
    case Finished => true
    case _ => false
  }

  predicate InTearDown(pc: RequestPc) {
    pc.Enter? || pc.TearDownWrites? || pc.CheckCreated? || pc.WriteStopFlag? || pc.Join? || pc.ClearCreated?
    || pc.ClearShared? || pc.Dispatch?
  }

  predicate InSetup(pc: RequestPc) {
    pc.Validate? || pc.LockForSetup? || pc.LinkAll? || pc.PullupNow? || pc.ReportNow? || pc.OpenDescriptors?
    || pc.Publish? || pc.Spawn?
  }

  lemma {:induction false} FreshAbove(keys: set<nat>) returns (m: nat)
    ensures forall k :: k in keys ==> k < m
  {
    if keys == {} {
      m := 0;
    } else {
      var k :| k in keys;
      var n := FreshAbove(keys - {k});
      m := if n > k then n else k + 1;
      assert keys == (keys - {k}) + {k};
    }
  }

  lemma TearDownProgress(s: State, r: RequestId)
    requires r in s.requests && !Blocked(s, r) && InTearDown(s.requests[r].pc)
    ensures RequestCanStep(s, r)
  {
    var s' := AdvanceTearDown(s, r);
    assert TearDownStep(s, s', r);
    assert RequestStep(s, s', r);
  }

  lemma SetupProgress(s: State, r: RequestId)
    requires r in s.requests && !Blocked(s, r) && InSetup(s.requests[r].pc)
    ensures RequestCanStep(s, r)
  {
    hide Supported, EndpointsOf;
    var m := FreshAbove(s.monitors.Keys);
    assert m !in s.monitors;
    var s' := AdvanceSetup(s, r, m);
    assert SetupStep(s, s', r);
    assert RequestStep(s, s', r);
  }

  lemma ReportProgress(s: State, r: RequestId)
    requires r in s.requests && !Blocked(s, r) && !InTearDown(s.requests[r].pc) && !InSetup(s.requests[r].pc)
    ensures RequestCanStep(s, r)
  {
    var s' := AdvanceReport(s, r);
    assert ReportStep(s, s', r);
    assert RequestStep(s, s', r);
  }

  lemma RequestProgress(s: State, r: RequestId)
    requires r in s.requests && !Blocked(s, r)
    ensures RequestCanStep(s, r)
  {
    hide RequestCanStep, Blocked;
    if InTearDown(s.requests[r].pc) { TearDownProgress(s, r); }
    else if InSetup(s.requests[r].pc) { SetupProgress(s, r); }
    else { ReportProgress(s, r); }
  }

  /** Any number of requests cannot block each other for good: as long as one is unfinished, some
      request can take a step, or the monitor can. */
  lemma NoDeadlock(states: seq<State>, i: nat, r: RequestId)
    requires Run(states) && i < |states| && r in states[i].requests && states[i].requests[r].pc != Finished
    ensures var s := states[i];
            || (exists x :: RequestCanStep(s, x))
            || (s.thread.Some? && MonitorCanStep(s, s.thread.value))
  {
    hide Next, CallInv, OwnerInv, SleepInv, LiveInv, PhaseInv, RequestCanStep, MonitorCanStep;
    ControlAlways(states, i);
    var s := states[i];
    var x := if s.requestLock.Some? then s.requestLock.value else r;
    if s.requests[x].pc == Join {
      JoinIsServed(states, i, x);
    }
    if !Blocked(s, x) {
      RequestProgress(s, x);
    } else if s.lock.ByMonitor? {
      PullupProgress(s, s.lock.m);
    }
  }

  // ---------- bounded shutdown ----------

  function Times(k: nat, cost: nat): nat { if k == 0 then 0 else cost + Times(k - 1, cost) }

  lemma {:induction false} TimesMonotone(j: nat, k: nat, cost: nat)
    requires j <= k
    ensures Times(j, cost) <= Times(k, cost)
  {
    if j < k { TimesMonotone(j, k - 1, cost); }
  }

  /** A bound on the steps for one inotify record, and for one event, with `n` endpoints. */
  function RecordCost(n: nat): nat { n + 8 }

  function EventCost(n: nat): nat { Times(MAX_RECORDS, RecordCost(n)) + 6 }

  /** The monitor holds the stop event and will not ask epoll again. */
  predicate FlagTaken(mon: Monitor) { Event in mon.events || mon.pc == ReadFlag || mon.pc == Returned }

  /** How many more answers of epoll_wait the monitor takes before it stops. */
  function RoundsLeft(mon: Monitor): nat { if FlagTaken(mon) then 0 else 1 }

  function RoundWork(mon: Monitor, n: nat): nat {
    var events := Times(|mon.events|, EventCost(n)) + 1;
    var records := events + Times(mon.records, RecordCost(n));
    match mon.pc
    case Check(inLoop, j) => (if inLoop then records else 0) + 6 + if j < n then n - j else 0
    case Decide(_) => records + 5
    case WriteUdc(inLoop) => (if inLoop then records else 0) + 4
    case LockForPullup(inLoop) => (if inLoop then records else 0) + 3
    case Pullup(inLoop) => (if inLoop then records else 0) + 2
    case NextRecord => records + 1
    case ReadInotify => events + Times(MAX_RECORDS, RecordCost(n)) + 2
    case ReadFlag => events + 1
    case NextEvent => events
    case EpollWait => 0
    case Returned => 0
    case Joined => 0
  }

  /** The steps left before the monitor stops, once the stop flag is up. */
  function StopBudget(mon: Monitor, n: nat): nat {
    RoundWork(mon, n) + if FlagTaken(mon) then 0 else Times(2, EventCost(n)) + 2
  }

  /** Moving from one monitor state to the next uses up budget, and takes a round only at epoll_wait. */
  predicate Cheaper(mon: Monitor, mon': Monitor, n: nat) {
    && StopBudget(mon', n) < StopBudget(mon, n)
    && RoundsLeft(mon') == (if mon.pc == EpollWait then 0 else RoundsLeft(mon))
    && (mon.pc == EpollWait ==> RoundsLeft(mon) == 1)
  }

  ghost predicate Spends(s: State, s': State, m: MonitorId)
    requires m in s.monitors
  {
    m in s'.monitors && Cheaper(s.monitors[m], s'.monitors[m], |s.endpoints|)
  }

  lemma PassIsCheaper(mon: Monitor, mon': Monitor, n: nat)
    requires mon.pc.Check? && mon'.events == mon.events && mon'.records == mon.records
    requires if mon.pc.j >= n then mon'.pc == (if mon.pc.inLoop then Decide(true) else WriteUdc(false))
             else mon'.pc == Check(mon.pc.inLoop, mon.pc.j + 1)
                  || mon'.pc == (if mon.pc.inLoop then Decide(false) else EpollWait)
    ensures Cheaper(mon, mon', n)
  {
    hide Times, EventCost, RecordCost;
  }

  lemma RecordIsCheaper(mon: Monitor, mon': Monitor, n: nat)
    requires mon.pc == NextRecord && mon'.events == mon.events
    requires if mon.records == 0 then mon'.records == 0 && mon'.pc == NextEvent
             else mon'.records == mon.records - 1 && mon'.pc == Check(true, 0)
    ensures Cheaper(mon, mon', n)
  {
    hide EventCost;
  }

  lemma RoundIsCheaper(mon: Monitor, mon': Monitor, n: nat, flag: nat)
    requires mon.pc == EpollWait && mon.events == [] && flag > 0
    requires Batch(mon'.events, flag) && mon'.records == mon.records && mon'.pc == NextEvent
    ensures Cheaper(mon, mon', n)
  {
    TimesMonotone(|mon'.events|, 2, EventCost(n));
    hide Times, EventCost, RecordCost;
  }

  lemma EventIsCheaper(mon: Monitor, mon': Monitor, n: nat)
    requires mon.pc == NextEvent && mon'.records == mon.records && (FlagTaken(mon) <==> FlagTaken(mon'))
    requires if mon.events == [] then mon'.events == [] && mon'.pc == EpollWait
             else mon'.events == mon.events[1..]
                  && mon'.pc == (if mon.events[0] == Inotify then ReadInotify else ReadFlag)
    ensures Cheaper(mon, mon', n)
  {
    var k := |mon.events|;
    assert k > 0 ==> Times(k, EventCost(n)) == EventCost(n) + Times(k - 1, EventCost(n));
    assert EventCost(n) == Times(MAX_RECORDS, RecordCost(n)) + 6;
    hide Times, EventCost, RecordCost, FlagTaken;
  }

  lemma CheckSpends(s: State, s': State, m: MonitorId)
    requires LocalMonitor(s, m) && s.monitors[m].pc.Check? && PullupStep(s, s', m)
    ensures Spends(s, s', m)
  {
    hide LiveInv, Cheaper;
    PassIsCheaper(s.monitors[m], s'.monitors[m], |s.endpoints|);
  }

  lemma WriteSpends(s: State, s': State, m: MonitorId)
    requires LocalMonitor(s, m) && s.monitors[m].pc.WriteUdc? && PullupStep(s, s', m)
    ensures Spends(s, s', m)
  {
    hide LocalMonitor, Times, EventCost, RecordCost;
  }

  lemma LockSpends(s: State, s': State, m: MonitorId)
    requires LocalMonitor(s, m) && (s.monitors[m].pc.LockForPullup? || s.monitors[m].pc.Pullup?) && PullupStep(s, s', m)
    ensures Spends(s, s', m)
  {
    hide LocalMonitor, Times, EventCost, RecordCost;
  }

  lemma EpollSpends(s: State, s': State, m: MonitorId)
    requires LocalMonitor(s, m) && s.monitors[m].pc.EpollWait? && s' != s && LoopStep(s, s', m)
    requires s.flag == STOP_FLAG || FlagTaken(s.monitors[m])
    ensures Spends(s, s', m)
  {
    hide Cheaper, Batch;
    RoundIsCheaper(s.monitors[m], s'.monitors[m], |s.endpoints|, s.flag);
  }

  lemma NextEventSpends(s: State, s': State, m: MonitorId)
    requires LocalMonitor(s, m) && s.monitors[m].pc.NextEvent? && LoopStep(s, s', m)
    ensures Spends(s, s', m)
  {
    hide Cheaper, Batch;
    var events := s.monitors[m].events;
    if events != [] { assert events == [events[0]] + events[1..]; }
    EventIsCheaper(s.monitors[m], s'.monitors[m], |s.endpoints|);
  }

  lemma ReadInotifySpends(s: State, s': State, m: MonitorId)
    requires LocalMonitor(s, m) && s.monitors[m].pc.ReadInotify? && LoopStep(s, s', m)
    ensures Spends(s, s', m)
  {
    hide LocalMonitor, Times, EventCost, RecordCost;
    TimesMonotone(s'.monitors[m].records, MAX_RECORDS, RecordCost(|s.endpoints|));
  }

  lemma NextRecordSpends(s: State, s': State, m: MonitorId)
    requires LocalMonitor(s, m) && s.monitors[m].pc.NextRecord? && LoopStep(s, s', m)
    ensures Spends(s, s', m)
  {
    hide LiveInv, Cheaper, Batch;
    RecordIsCheaper(s.monitors[m], s'.monitors[m], |s.endpoints|);
  }

  lemma DecideSpends(s: State, s': State, m: MonitorId)
    requires LocalMonitor(s, m) && s.monitors[m].pc.Decide? && LoopStep(s, s', m)
    ensures Spends(s, s', m)
  {
    hide LocalMonitor, Times, EventCost, RecordCost;
  }

  lemma ReadFlagSpends(s: State, s': State, m: MonitorId)
    requires LocalMonitor(s, m) && s.monitors[m].pc.ReadFlag? && LoopStep(s, s', m)
    requires s.flag == STOP_FLAG || FlagTaken(s.monitors[m])
    ensures Spends(s, s', m)
  {
    hide Times, EventCost, RecordCost;
  }

  lemma MonitorSpends(s: State, s': State, m: MonitorId)
    requires LocalMonitor(s, m) && MonitorStep(s, s', m) && s' != s
    requires s.flag == STOP_FLAG || FlagTaken(s.monitors[m])
    ensures m in s.monitors && Spends(s, s', m)
  {
    hide LocalMonitor, Spends, Put, Batch, FlagTaken;
    if PullupStep(s, s', m) {
      match s.monitors[m].pc
      case Check(_, _) => CheckSpends(s, s', m);
      case WriteUdc(_) => WriteSpends(s, s', m);
      case LockForPullup(_) => LockSpends(s, s', m);
      case Pullup(_) => LockSpends(s, s', m);
      case _ => assert false;
    } else {
      match s.monitors[m].pc
      case EpollWait => EpollSpends(s, s', m);
      case NextEvent => NextEventSpends(s, s', m);
      case ReadInotify => ReadInotifySpends(s, s', m);
      case NextRecord => NextRecordSpends(s, s', m);
      case Decide(_) => DecideSpends(s, s', m);
      case ReadFlag => ReadFlagSpends(s, s', m);
      case _ => assert false;
    }
  }

  /** How often the monitor moved between two states of a run. */
  ghost function MonitorMoves(states: seq<State>, m: MonitorId, i: nat, j: nat): nat
    requires i <= j < |states|
    requires forall k :: i <= k <= j ==> m in states[k].monitors
  {
    if i == j then 0
    else MonitorMoves(states, m, i, j - 1) + if states[j - 1].monitors[m] == states[j].monitors[m] then 0 else 1
  }

  /** How often epoll_wait answered the monitor. */
  ghost function EpollAnswers(states: seq<State>, m: MonitorId, i: nat, j: nat): nat
    requires i <= j < |states|
    requires forall k :: i <= k <= j ==> m in states[k].monitors
  {
    if i == j then 0
    else
      var before, after := states[j - 1].monitors[m], states[j].monitors[m];
      EpollAnswers(states, m, i, j - 1) + if before.pc == EpollWait && after != before then 1 else 0
  }

  lemma JoinStepSpends(states: seq<State>, k: nat, r: RequestId, m: MonitorId)
    requires Run(states) && k + 1 < |states| && r in states[k].requests && r in states[k + 1].requests
    requires states[k].requests[r].pc == Join && states[k + 1].requests[r].pc == Join
    requires states[k].thread == Some(m)
    ensures m in states[k].monitors && m in states[k + 1].monitors && states[k + 1].thread == Some(m)
    ensures states[k + 1].endpoints == states[k].endpoints
    ensures states[k + 1].monitors[m] == states[k].monitors[m] || Spends(states[k], states[k + 1], m)
  {
    var s, s' := states[k], states[k + 1];
    hide Spends, LiveInv, CallInv, SleepInv, OwnerInv, Arrive, MonitorStep, TearDownStep, SetupStep, ReportStep;
    ControlAlways(states, k);
    assert PhaseInv(s, r);
    if x :| RequestStep(s, s', x) {
      OnlyTheJoinerSteps(s, s', r, x);
    } else if x :| MonitorStep(s, s', x) {
      MonitorControlOf(s, s', x);
      MonitorStepKeeps(s, s', x);
      assert x == m;
      MonitorLeavesShared(s, s', m);
      if s' != s { MonitorSpends(s, s', m); }
    } else {
      var x, f, c :| Arrive(s, s', x, f, c);
      ArriveLeavesMonitors(s, s', x, f, c);
    }
  }

  lemma ArriveLeavesMonitors(s: State, s': State, r: RequestId, functions: Functions, hasCallback: bool)
    requires Arrive(s, s', r, functions, hasCallback)
    ensures s'.monitors == s.monitors && s'.thread == s.thread && s'.endpoints == s.endpoints
  {
  }

  lemma OnlyTheJoinerSteps(s: State, s': State, r: RequestId, x: RequestId)
    requires ControlInv(s) && r in s.requests && s.requests[r].pc == Join && RequestStep(s, s', x)
    ensures r !in s'.requests || s'.requests[r].pc != Join
  {
    hide LiveInv, CallInv, SleepInv, OwnerInv, ThreadInv, PhaseInv, TearDownStep, SetupStep, ReportStep, Local;
    ControlOf(s, x);
    RequestKeeps(s, s', x);
  }

  /** While a request joins the monitor, only a monitor that has returned has no move left. */
  lemma SpentMeansReturned(states: seq<State>, k: nat, r: RequestId, m: MonitorId)
    requires Run(states) && k < |states| && r in states[k].requests && states[k].requests[r].pc == Join
    requires states[k].thread == Some(m)
    ensures m in states[k].monitors
    ensures StopBudget(states[k].monitors[m], |states[k].endpoints|) == 0 <==> states[k].monitors[m].pc == Returned
  {
    hide Next, CallInv, OwnerInv, SleepInv, LockInv, Times, EventCost, RecordCost;
    ControlAlways(states, k);
    assert PhaseInv(states[k], r);
    assert LiveInv(states[k]);
  }

  /** Shutdown is bounded: while a request joins it, the monitor makes at most StopBudget moves, at most
      one of them an answer of epoll_wait, and none if it has already taken the stop event. When the budget
      is spent, it has returned. */
  lemma {:induction false} ShutdownIsBounded(states: seq<State>, r: RequestId, m: MonitorId, i: nat, j: nat)
    requires Run(states) && i <= j < |states| && states[i].thread == Some(m)
    requires forall k :: i <= k <= j ==> r in states[k].requests && states[k].requests[r].pc == Join
    ensures forall k :: i <= k <= j ==> m in states[k].monitors
    ensures states[j].thread == Some(m) && states[j].endpoints == states[i].endpoints
    ensures MonitorMoves(states, m, i, j) + StopBudget(states[j].monitors[m], |states[i].endpoints|)
         <= StopBudget(states[i].monitors[m], |states[i].endpoints|)
    ensures EpollAnswers(states, m, i, j) + RoundsLeft(states[j].monitors[m]) <= RoundsLeft(states[i].monitors[m]) <= 1
    ensures StopBudget(states[j].monitors[m], |states[i].endpoints|) == 0 <==> states[j].monitors[m].pc == Returned
    ensures MonitorMoves(states, m, i, j) == StopBudget(states[i].monitors[m], |states[i].endpoints|) ==>
              states[j].monitors[m].pc == Returned
  {
    hide Run, StopBudget, RoundsLeft;
    if i == j {
      ThreadExists(states, i);
    } else {
      ShutdownIsBounded(states, r, m, i, j - 1);
      JoinStepSpends(states, j - 1, r, m);
    }
    SpentMeansReturned(states, j, r, m);
    AtMostOneRound(states[i].monitors[m]);
  }

  lemma AtMostOneRound(mon: Monitor)
    ensures RoundsLeft(mon) <= 1
  {
  }

  lemma ThreadExists(states: seq<State>, i: nat)
    requires Run(states) && i < |states| && states[i].thread.Some?
    ensures states[i].thread.value in states[i].monitors
  {
    hide Next, LiveInv, PhaseInv, CallInv, OwnerInv, SleepInv;
    ControlAlways(states, i);
  }
}
