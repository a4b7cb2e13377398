/** What every step of the gadget service keeps. */
module GadgetInvariants {
  import opened Wrappers
  import opened GadgetFunctions
  import opened GadgetProtocol

  // ---------- locks ----------

  predicate Inside(pc: RequestPc) { pc != Enter && pc != Finished }

  predicate HoldsLock(pc: RequestPc) {
    pc.LinkAll? || pc.PullupNow? || pc.ReportNow? || pc.OpenDescriptors? || pc.Publish? || pc.Spawn?
    || pc.SetCreated? || pc.TestPullup? || pc.Report?
  }

  ghost predicate LockInv(s: State) {
    && (s.requestLock.Some? ==> s.requestLock.value in s.requests)
    && (forall r :: r in s.requests ==> (Inside(s.requests[r].pc) <==> s.requestLock == Some(r)))
    && (forall r :: r in s.requests ==> (HoldsLock(s.requests[r].pc) <==> s.lock == ByRequest(r)))
    && (forall m :: m in s.monitors ==> (s.monitors[m].pc.Pullup? <==> s.lock == ByMonitor(m)))
    && (s.lock.ByRequest? ==> s.lock.r in s.requests)
    && (s.lock.ByMonitor? ==> s.lock.m in s.monitors)
  }

  // ---------- one monitor thread ----------

  ghost predicate ThreadInv(s: State) {
    && Handle(s)
    && (forall m :: m in s.monitors && s.monitors[m].pc != Joined ==> s.thread == Some(m))
  }

  /** mMonitor names an unjoined thread or none, and mMonitorCreated says which whenever the request
      lock is free. */
  predicate Handle(s: State) {
    && (s.thread.Some? ==> s.thread.value in s.monitors && s.monitors[s.thread.value].pc != Joined)
    && (s.requestLock.None? ==> s.monitorCreated == s.thread.Some? && (s.thread.None? ==> s.fds == CLOSED))
  }

  predicate Open(fds: Descriptors) { fds.inotify.Some? && fds.event.Some? && fds.epoll.Some? }

  /** What the live monitor thread relies on. The stop flag is raised only while a request joins the
      thread that reads it. */
  ghost predicate LiveInv(s: State) {
    s.thread.Some? && s.thread.value in s.monitors ==>
      var mon := s.monitors[s.thread.value];
      && Live(mon, s.endpoints, s.fds, s.flag)
      && (s.flag == STOP_FLAG || mon.pc == Returned ==> Joining(s))
  }

  predicate Live(mon: Monitor, endpoints: seq<string>, fds: Descriptors, flag: nat) {
    && mon.endpoints == endpoints && Open(fds)
    && (flag == 0 || flag == STOP_FLAG)
    && (mon.pc == Returned ==> flag == 0)
    && (Event in mon.events || mon.pc == ReadFlag ==> flag == STOP_FLAG)
    && !(Event in mon.events && mon.pc == ReadFlag)
    && |mon.events| <= 2 && (|mon.events| == 2 ==> mon.events[0] != mon.events[1])
    && (BeforeRound(mon.pc) ==> mon.events == [])
  }

  predicate BeforeRound(pc: MonitorPc) {
    pc.EpollWait? || ((pc.Check? || pc.WriteUdc? || pc.LockForPullup? || pc.Pullup?) && !pc.inLoop)
  }

  predicate Joining(s: State) {
    s.requestLock.Some? && s.requestLock.value in s.requests && s.requests[s.requestLock.value].pc == Join
  }

  // ---------- where the active request is ----------

  /** The request waits for the thread it created. */
  predicate Owns(pc: RequestPc) {
    pc.SetCreated? || pc.TestPullup? || pc.Sleep? || pc.Relock? || pc.Report?
  }

  /** The old thread is gone and no new one exists yet. */
  predicate BetweenThreads(pc: RequestPc) {
    pc.ClearShared? || pc.Dispatch? || pc.Validate? || pc.LockForSetup? || pc.LinkAll? || pc.PullupNow?
    || pc.ReportNow? || pc.OpenDescriptors? || pc.Publish? || pc.Spawn?
  }

  /** validateAndSetVidPid has accepted the mask. */
  predicate Validated(pc: RequestPc) {
    pc.LockForSetup? || pc.LinkAll? || pc.PullupNow? || pc.ReportNow? || pc.OpenDescriptors? || pc.Publish?
    || pc.Spawn? || Owns(pc)
  }

  ghost predicate PhaseInv(s: State, r: RequestId)
    requires r in s.requests
  {
    var q := s.requests[r];
    var pc := q.pc;
    && (pc.ClearCreated? ==> s.thread.None? && s.monitorCreated)
    && (pc.SetCreated? ==> s.thread.Some? && !s.monitorCreated)
    && (Inside(pc) && !pc.ClearCreated? && !pc.SetCreated? ==> s.monitorCreated == s.thread.Some?)
    && (pc.WriteStopFlag? ==> s.thread.Some?)
    && (Inside(pc) && s.thread.None? && !pc.ClearCreated? && !pc.ClearShared? && !pc.Spawn? ==> s.fds == CLOSED)
    && (pc.Report? ==> s.gadgetPullup || q.timedOut == Some(true))
    && (pc.Relock? ==> q.timedOut == Some(pc.timedOut))
    && (pc.TestPullup? && pc.timedOut ==> q.timedOut == Some(true))
    && (pc.Join? ==> s.thread.Some? && s.thread.value in s.monitors
                     && (s.flag == STOP_FLAG || s.monitors[s.thread.value].pc == Returned))
    && (BetweenThreads(pc) ==> s.thread.None?)
    && (pc.Dispatch? || pc.Validate? || pc.LockForSetup? || pc.LinkAll? ==> s.endpoints == [])
    && (pc.OpenDescriptors? || pc.Publish? || pc.Spawn? ==>
          q.functions.UsesFfs() && s.endpoints == EndpointsOf(q.functions))
    && (pc.PullupNow? || pc.ReportNow? ==> !q.functions.UsesFfs())
    && (pc.Spawn? ==> !s.gadgetPullup && s.flag == 0 && Open(s.fds))
    && (Owns(pc) ==> s.thread.Some? && q.created == s.thread && s.thread.value in s.monitors
                     && (s.gadgetPullup <==> s.monitors[s.thread.value].pulled))
    && (Owns(pc) && !pc.SetCreated? ==> q.hasCallback)
    && (pc.Fail? ==> pc.status != SUCCESS)
    && (Validated(pc) ==> Supported(q.functions))
    && (pc.Validate? ==> q.functions != NONE)
    && (pc.Fail? && pc.status == CONFIGURATION_NOT_SUPPORTED ==> q.functions != NONE)
  }

  ghost predicate SleepInv(s: State) {
    forall r :: r in s.sleepers ==> r in s.requests && s.requests[r].pc.Sleep? && !s.gadgetPullup
  }

  // ---------- callbacks ----------

  predicate Left(pc: RequestPc) { pc == Leave || pc == Finished }

  ghost predicate CallInv(s: State, r: RequestId)
    requires r in s.requests
  {
    var q := s.requests[r];
    && (!Left(q.pc) ==> q.calls == [])
    && (Left(q.pc) ==> |q.calls| == if q.hasCallback then 1 else 0)
    && (!Left(q.pc) && !q.pc.Fail? ==> q.refusal == None)
    && (q.pc.Fail? ==> q.refusal == Some(q.pc.status))
    && (q.refusal.Some? ==> q.refusal.value != SUCCESS && q.created.None?)
    && (Left(q.pc) && q.refusal.None? && q.functions.UsesFfs() ==> q.created.Some?)
    && (|q.calls| == 1 && (q.refusal.Some? || !q.functions.UsesFfs()) ==>
          q.calls[0] == if q.refusal.Some? then q.refusal.value else SUCCESS)
    && (|q.calls| == 1 && q.refusal.None? ==>
          q.calls[0] == SUCCESS || (q.calls[0] == ERROR && q.timedOut == Some(true)))
    && (|q.calls| == 1 && q.calls[0] == SUCCESS ==> q.functions == NONE || Supported(q.functions))
    && (|q.calls| == 1 && q.calls[0] == CONFIGURATION_NOT_SUPPORTED ==> q.functions != NONE)
    && (q.created.Some? ==>
          var m := q.created.value;
          && (Owns(q.pc) || Left(q.pc)) && q.functions.UsesFfs()
          && m in s.monitors && s.monitors[m].owner == r && s.monitors[m].endpoints == EndpointsOf(q.functions))
    && (|q.calls| == 1 && q.calls[0] == SUCCESS && q.functions.UsesFfs() ==>
          q.created.Some? && q.created.value in s.monitors && s.monitors[q.created.value].pulled)
  }

  ghost predicate OwnerInv(s: State) {
    forall m :: m in s.monitors ==>
      s.monitors[m].owner in s.requests && s.requests[s.monitors[m].owner].created == Some(m)
  }

  ghost predicate ControlInv(s: State) {
    && !s.aborted && LockInv(s) && ThreadInv(s) && LiveInv(s) && SleepInv(s) && OwnerInv(s)
    && (forall r :: r in s.requests ==> PhaseInv(s, r))
    && (forall r :: r in s.requests ==> CallInv(s, r))
  }

  // ---------- steps of a request ----------

  /** What a request may assume about itself and the thread. */
  ghost predicate Local(s: State, r: RequestId) {
    && !s.aborted && Handle(s) && LiveInv(s)
    && r in s.requests && PhaseInv(s, r) && CallInv(s, r)
    && (Inside(s.requests[r].pc) <==> s.requestLock == Some(r))
    && (HoldsLock(s.requests[r].pc) <==> s.lock == ByRequest(r))
    && (r in s.sleepers ==> s.requests[r].pc.Sleep?)
  }

  /** How a request moves between locks, and what it does to the monitors and the sleepers. */
  ghost predicate Move(s: State, s': State, r: RequestId, q: Request, q': Request) {
    && s'.requests == s.requests[r := q']
    && (Inside(q.pc) || Inside(q'.pc))
    && s'.requestLock == (if Inside(q'.pc) then Some(r) else if Inside(q.pc) then None else s.requestLock)
    && (Inside(q'.pc) && !Inside(q.pc) ==> s.requestLock == None)
    && s'.lock == (if HoldsLock(q'.pc) then ByRequest(r) else if HoldsLock(q.pc) then Nobody else s.lock)
    && (HoldsLock(q'.pc) && !HoldsLock(q.pc) ==> s.lock == Nobody)
    && s'.sleepers == (if q'.pc.Sleep? then s.sleepers + {r} else s.sleepers - {r})
    && (s'.gadgetPullup ==> s.gadgetPullup)
    && (q'.pc.Sleep? ==> !s'.gadgetPullup)
    && (q.pc.Spawn? <==> q'.pc.SetCreated?)
    && (q.pc.Join? ==> q'.pc.ClearCreated?)
    && q'.created == (if q.pc.Spawn? then s'.thread else q.created)
    && (if q.pc.Join? then JoinMove(s, s') else if q.pc.Spawn? then SpawnMove(s, s', r)
        else s'.monitors == s.monitors && s'.thread == s.thread)
  }

  ghost predicate JoinMove(s: State, s': State) {
    && s.thread.Some? && s.thread.value in s.monitors && s.monitors[s.thread.value].pc.Returned?
    && s'.monitors == s.monitors[s.thread.value := s.monitors[s.thread.value].(pc := Joined)]
    && s'.thread == None
  }

  ghost predicate SpawnMove(s: State, s': State, r: RequestId) {
    && s.thread == None && s'.thread.Some? && s'.thread.value !in s.monitors
    && s'.monitors == s.monitors[s'.thread.value := NewMonitor(r, s.endpoints)]
  }

  ghost predicate Kept(s: State, s': State, r: RequestId)
    requires r in s.requests
  {
    Local(s', r) && Move(s, s', r, s.requests[r], s'.requests[r])
  }

  /** A request elsewhere than in its join does not disturb the monitor by moving on. */
  lemma MovingOnKeepsLive(s: State, s': State, r: RequestId)
    requires LiveInv(s) && r in s.requests && !s.requests[r].pc.Join? && r in s'.requests
    requires s'.requests == s.requests[r := s'.requests[r]] && s'.requestLock == s.requestLock
    requires s'.thread == s.thread && s'.monitors == s.monitors
    requires s'.endpoints == s.endpoints && s'.fds == s.fds && s'.flag == s.flag
    ensures LiveInv(s')
  {
    hide Live;
  }

  lemma EnterKeeps(s: State, s': State, r: RequestId)
    requires Local(s, r) && s.requests[r].pc.Enter? && TearDownStep(s, s', r)
    ensures Kept(s, s', r)
  {
    hide Live, Supported, EndpointsOf;
  }

  /** A refusal without mLock. */
  lemma RefusedKeeps(s: State, r: RequestId, status: Status)
    requires Local(s, r) && (s.requests[r].pc.TearDownWrites? || s.requests[r].pc.Validate?) && status != SUCCESS
    requires status == CONFIGURATION_NOT_SUPPORTED ==> s.requests[r].functions != NONE
    ensures Kept(s, Refuse(s, r, status), r)
  {
    hide LiveInv, Supported, EndpointsOf;
    MovingOnKeepsLive(s, Refuse(s, r, status), r);
  }

  /** A refusal that releases mLock. */
  lemma RefusedUnlocks(s: State, r: RequestId)
    requires Local(s, r) && (s.requests[r].pc.PullupNow? || s.requests[r].pc.OpenDescriptors?)
    ensures Kept(s, Unlock(Refuse(s, r, ERROR)), r)
  {
    hide LiveInv, Supported, EndpointsOf;
    MovingOnKeepsLive(s, Unlock(Refuse(s, r, ERROR)), r);
  }

  lemma TearDownWritesKeeps(s: State, s': State, r: RequestId)
    requires Local(s, r) && s.requests[r].pc.TearDownWrites? && TearDownStep(s, s', r)
    ensures Kept(s, s', r)
  {
    hide LiveInv, Supported, EndpointsOf, Refuse;
    if s' == Goto(s, r, CheckCreated) {
      MovingOnKeepsLive(s, s', r);
    } else {
      hide Local, Move;
      RefusedKeeps(s, r, ERROR);
    }
  }

  lemma CheckCreatedKeeps(s: State, s': State, r: RequestId)
    requires Local(s, r) && s.requests[r].pc.CheckCreated? && TearDownStep(s, s', r)
    ensures Kept(s, s', r)
  {
    hide LiveInv, Supported, EndpointsOf;
    MovingOnKeepsLive(s, s', r);
  }

  lemma WriteStopFlagKeeps(s: State, s': State, r: RequestId)
    requires Local(s, r) && s.requests[r].pc.WriteStopFlag? && TearDownStep(s, s', r)
    ensures Kept(s, s', r)
  {
    hide Supported, EndpointsOf;
  }

  lemma JoinKeeps(s: State, s': State, r: RequestId)
    requires Local(s, r) && s.requests[r].pc.Join? && TearDownStep(s, s', r)
    ensures Kept(s, s', r)
  {
    hide Supported, EndpointsOf;
  }

  lemma ClearCreatedKeeps(s: State, s': State, r: RequestId)
    requires Local(s, r) && s.requests[r].pc.ClearCreated? && TearDownStep(s, s', r)
    ensures Kept(s, s', r)
  {
    hide Live, Supported, EndpointsOf;
  }

  lemma ClearSharedKeeps(s: State, s': State, r: RequestId)
    requires Local(s, r) && s.requests[r].pc.ClearShared? && TearDownStep(s, s', r)
    ensures Kept(s, s', r)
  {
    hide Live, Supported, EndpointsOf;
  }

  function Delivered(q: Request, status: Status, pc: RequestPc): Request {
    q.(calls := if q.hasCallback then q.calls + [status] else q.calls, pc := pc)
  }

  lemma DeliverAndGo(s: State, r: RequestId, status: Status, pc: RequestPc)
    requires r in s.requests
    ensures Goto(Deliver(s, r, status), r, pc) == s.(requests := s.requests[r := Delivered(s.requests[r], status, pc)])
  {
    assert Goto(Deliver(s, r, status), r, pc).requests == s.requests[r := Delivered(s.requests[r], status, pc)];
  }

  lemma NoneIsDone(s: State, r: RequestId)
    requires Local(s, r) && s.requests[r].pc.Dispatch? && s.requests[r].functions == NONE
    ensures Kept(s, s.(requests := s.requests[r := Delivered(s.requests[r], SUCCESS, Leave)]), r)
  {
    hide LiveInv, Supported, EndpointsOf;
    MovingOnKeepsLive(s, s.(requests := s.requests[r := Delivered(s.requests[r], SUCCESS, Leave)]), r);
  }

  lemma DispatchKeeps(s: State, s': State, r: RequestId)
    requires Local(s, r) && s.requests[r].pc.Dispatch? && TearDownStep(s, s', r)
    ensures Kept(s, s', r)
  {
    hide LiveInv, Supported, EndpointsOf;
    if s.requests[r].functions == NONE {
      DeliverAndGo(s, r, SUCCESS, Leave);
      NoneIsDone(s, r);
      hide Local, Move, Goto, Deliver;
    } else {
      hide Deliver;
      MovingOnKeepsLive(s, s', r);
    }
  }

  lemma AcceptedKeeps(s: State, r: RequestId)
    requires Local(s, r) && s.requests[r].pc.Validate? && Supported(s.requests[r].functions)
    ensures Kept(s, Goto(s, r, LockForSetup), r)
  {
    hide LiveInv, Supported, EndpointsOf;
    MovingOnKeepsLive(s, Goto(s, r, LockForSetup), r);
  }

  lemma ValidateKeeps(s: State, s': State, r: RequestId)
    requires Local(s, r) && s.requests[r].pc.Validate? && SetupStep(s, s', r)
    ensures Kept(s, s', r)
  {
    assert s.requests[r].functions != NONE;
    hide LiveInv, PhaseInv, CallInv, Supported, Goto, Refuse, Kept;
    RefusedKeeps(s, r, ERROR);
    RefusedKeeps(s, r, CONFIGURATION_NOT_SUPPORTED);
    if Supported(s.requests[r].functions) { AcceptedKeeps(s, r); }
  }

  lemma LockForSetupKeeps(s: State, s': State, r: RequestId)
    requires Local(s, r) && s.requests[r].pc.LockForSetup? && SetupStep(s, s', r)
    ensures Kept(s, s', r)
  {
    hide LiveInv, Supported, EndpointsOf;
    MovingOnKeepsLive(s, s', r);
  }

  lemma LinkedKeeps(s: State, r: RequestId)
    requires Local(s, r) && s.requests[r].pc.LinkAll?
    ensures var f := s.requests[r].functions;
            Kept(s, Goto(s.(endpoints := s.endpoints + EndpointsOf(f)), r,
                         if f.UsesFfs() then OpenDescriptors else PullupNow), r)
  {
    hide Live, Supported, EndpointsOf;
  }

  lemma BrokenLinkKeeps(s: State, r: RequestId, made: seq<string>)
    requires Local(s, r) && s.requests[r].pc.LinkAll?
    ensures Kept(s, Unlock(Refuse(s.(endpoints := s.endpoints + made), r, ERROR)), r)
  {
    hide Live, Supported, EndpointsOf;
  }

  lemma LinkAllKeeps(s: State, s': State, r: RequestId)
    requires Local(s, r) && s.requests[r].pc.LinkAll? && SetupStep(s, s', r)
    ensures Kept(s, s', r)
  {
    hide LiveInv, PhaseInv, CallInv, Supported, EndpointsOf, Goto, Refuse, Unlock, Kept;
    LinkedKeeps(s, r);
    forall k: nat | k <= |EndpointsOf(s.requests[r].functions)|
      ensures var made := EndpointsOf(s.requests[r].functions)[..k];
              Kept(s, Unlock(Refuse(s.(endpoints := s.endpoints + made), r, ERROR)), r)
    {
      BrokenLinkKeeps(s, r, EndpointsOf(s.requests[r].functions)[..k]);
    }
  }

  lemma PullupNowKeeps(s: State, s': State, r: RequestId)
    requires Local(s, r) && s.requests[r].pc.PullupNow? && SetupStep(s, s', r)
    ensures Kept(s, s', r)
  {
    hide LiveInv, Supported, EndpointsOf, Refuse;
    if s' == Unlock(Refuse(s, r, ERROR)) {
      hide Local, Move;
      RefusedUnlocks(s, r);
    } else {
      MovingOnKeepsLive(s, s', r);
    }
  }

  lemma ReportNowKeeps(s: State, s': State, r: RequestId)
    requires Local(s, r) && s.requests[r].pc.ReportNow? && SetupStep(s, s', r)
    ensures Kept(s, s', r)
  {
    hide LiveInv, Supported, EndpointsOf;
    MovingOnKeepsLive(s, s', r);
  }

  lemma OpenDescriptorsKeeps(s: State, s': State, r: RequestId)
    requires Local(s, r) && s.requests[r].pc.OpenDescriptors? && SetupStep(s, s', r)
    ensures Kept(s, s', r)
  {
    hide LiveInv, Supported, EndpointsOf, Refuse;
    if s' == Unlock(Refuse(s, r, ERROR)) {
      hide Local, Move;
      RefusedUnlocks(s, r);
    } else {
      assert s'.requests[r].pc.Publish? && s' == Goto(s, r, s'.requests[r].pc);
      MovingOnKeepsLive(s, s', r);
      hide SetupStep;
    }
  }

  lemma PublishKeeps(s: State, s': State, r: RequestId)
    requires Local(s, r) && s.requests[r].pc.Publish? && SetupStep(s, s', r)
    ensures Kept(s, s', r)
  {
    hide Supported, EndpointsOf;
  }

  lemma SpawnKeeps(s: State, s': State, r: RequestId)
    requires Local(s, r) && s.requests[r].pc.Spawn? && SetupStep(s, s', r)
    ensures Kept(s, s', r)
  {
    hide Supported, EndpointsOf;
  }

  lemma CreatedAndWaits(s: State, r: RequestId)
    requires Local(s, r) && s.requests[r].pc.SetCreated? && s.requests[r].hasCallback
    ensures Kept(s, Goto(s.(monitorCreated := true), r, TestPullup(false)), r)
  {
    hide LiveInv, Supported, EndpointsOf;
    MovingOnKeepsLive(s, Goto(s.(monitorCreated := true), r, TestPullup(false)), r);
  }

  lemma CreatedAndLeaves(s: State, r: RequestId)
    requires Local(s, r) && s.requests[r].pc.SetCreated? && !s.requests[r].hasCallback
    ensures Kept(s, Unlock(Goto(s.(monitorCreated := true), r, Leave)), r)
  {
    hide LiveInv, Supported, EndpointsOf;
    MovingOnKeepsLive(s, Unlock(Goto(s.(monitorCreated := true), r, Leave)), r);
  }

  lemma SetCreatedKeeps(s: State, s': State, r: RequestId)
    requires Local(s, r) && s.requests[r].pc.SetCreated? && ReportStep(s, s', r)
    ensures Kept(s, s', r)
  {
    hide LiveInv, PhaseInv, CallInv, Kept;
    if s.requests[r].hasCallback { CreatedAndWaits(s, r); } else { CreatedAndLeaves(s, r); }
  }

  lemma TestPullupKeeps(s: State, s': State, r: RequestId)
    requires Local(s, r) && s.requests[r].pc.TestPullup? && ReportStep(s, s', r)
    ensures Kept(s, s', r)
  {
    hide LiveInv, Supported, EndpointsOf;
    MovingOnKeepsLive(s, s', r);
  }

  lemma SleepKeeps(s: State, s': State, r: RequestId)
    requires Local(s, r) && s.requests[r].pc.Sleep? && ReportStep(s, s', r)
    ensures Kept(s, s', r)
  {
    hide LiveInv, Supported, EndpointsOf;
    MovingOnKeepsLive(s, s', r);
  }

  lemma RelockKeeps(s: State, s': State, r: RequestId)
    requires Local(s, r) && s.requests[r].pc.Relock? && ReportStep(s, s', r)
    ensures Kept(s, s', r)
  {
    hide LiveInv, Supported, EndpointsOf;
    MovingOnKeepsLive(s, s', r);
  }

  lemma ReportKeeps(s: State, s': State, r: RequestId)
    requires Local(s, r) && s.requests[r].pc.Report? && ReportStep(s, s', r)
    ensures Kept(s, s', r)
  {
    hide LiveInv, Supported, EndpointsOf;
    MovingOnKeepsLive(s, s', r);
  }

  lemma FailKeeps(s: State, s': State, r: RequestId)
    requires Local(s, r) && s.requests[r].pc.Fail? && ReportStep(s, s', r)
    ensures Kept(s, s', r)
  {
    hide LiveInv, Supported, EndpointsOf;
    MovingOnKeepsLive(s, s', r);
  }

  lemma LeaveKeeps(s: State, s': State, r: RequestId)
    requires Local(s, r) && s.requests[r].pc.Leave? && ReportStep(s, s', r)
    ensures Kept(s, s', r)
  {
    hide Live, Supported, EndpointsOf;
  }

  lemma TearDownKeeps(s: State, s': State, r: RequestId)
    requires r in s.requests && Local(s, r) && TearDownStep(s, s', r)
    ensures Kept(s, s', r)
  {
    hide Local, Kept, Goto, Deliver, Unlock, Supported, EndpointsOf, SpawnMonitor;
    match s.requests[r].pc
    case Enter => EnterKeeps(s, s', r);
    case TearDownWrites => TearDownWritesKeeps(s, s', r);
    case CheckCreated => CheckCreatedKeeps(s, s', r);
    case WriteStopFlag => WriteStopFlagKeeps(s, s', r);
    case Join => JoinKeeps(s, s', r);
    case ClearCreated => ClearCreatedKeeps(s, s', r);
    case ClearShared => ClearSharedKeeps(s, s', r);
    case Dispatch => DispatchKeeps(s, s', r);
    case _ => assert false;
  }

  lemma SetupKeeps(s: State, s': State, r: RequestId)
    requires r in s.requests && Local(s, r) && SetupStep(s, s', r)
    ensures Kept(s, s', r)
  {
    hide Local, Kept, Goto, Deliver, Unlock, Supported, EndpointsOf, SpawnMonitor;
    match s.requests[r].pc
    case Validate => ValidateKeeps(s, s', r);
    case LockForSetup => LockForSetupKeeps(s, s', r);
    case LinkAll => LinkAllKeeps(s, s', r);
    case PullupNow => PullupNowKeeps(s, s', r);
    case ReportNow => ReportNowKeeps(s, s', r);
    case OpenDescriptors => OpenDescriptorsKeeps(s, s', r);
    case Publish(_, _, _) => PublishKeeps(s, s', r);
    case Spawn => SpawnKeeps(s, s', r);
    case _ => assert false;
  }

  lemma WaitKeeps(s: State, s': State, r: RequestId)
    requires r in s.requests && Local(s, r) && ReportStep(s, s', r)
    ensures Kept(s, s', r)
  {
    hide Local, Kept, Goto, Deliver, Unlock, Supported, EndpointsOf, SpawnMonitor;
    match s.requests[r].pc
    case SetCreated => SetCreatedKeeps(s, s', r);
    case TestPullup(_) => TestPullupKeeps(s, s', r);
    case Sleep => SleepKeeps(s, s', r);
    case Relock(_) => RelockKeeps(s, s', r);
    case Report => ReportKeeps(s, s', r);
    case Fail(_) => FailKeeps(s, s', r);
    case Leave => LeaveKeeps(s, s', r);
    case _ => assert false;
  }

  lemma RequestKeeps(s: State, s': State, r: RequestId)
    requires Local(s, r) && RequestStep(s, s', r)
    ensures Kept(s, s', r)
  {
    hide Local, Kept, TearDownStep, SetupStep, ReportStep;
    if TearDownStep(s, s', r) { TearDownKeeps(s, s', r); }
    else if SetupStep(s, s', r) { SetupKeeps(s, s', r); }
    else { WaitKeeps(s, s', r); }
  }

  // ---------- what a move keeps ----------

  lemma MoveKeepsLocks(s: State, s': State, r: RequestId)
    requires LockInv(s) && r in s.requests && Kept(s, s', r)
    ensures LockInv(s')
  {
    hide PhaseInv, CallInv, LiveInv, Supported, EndpointsOf;
  }

  lemma MoveKeepsThreads(s: State, s': State, r: RequestId)
    requires ThreadInv(s) && r in s.requests && Kept(s, s', r)
    ensures ThreadInv(s')
  {
    hide PhaseInv, LiveInv, CallInv, Supported, EndpointsOf;
  }

  lemma MoveKeepsOwners(s: State, s': State, r: RequestId)
    requires OwnerInv(s) && r in s.requests && CallInv(s, r) && Kept(s, s', r)
    ensures OwnerInv(s')
  {
    hide PhaseInv, LiveInv, Handle, Supported, EndpointsOf;
  }

  lemma MoveKeepsSleepers(s: State, s': State, r: RequestId)
    requires SleepInv(s) && r in s.requests && Kept(s, s', r)
    ensures SleepInv(s')
  {
    hide PhaseInv, LiveInv, CallInv, Handle, Supported, EndpointsOf;
  }

  lemma OutsideIsFree(s: State, r: RequestId)
    requires r in s.requests && !Inside(s.requests[r].pc)
    ensures PhaseInv(s, r)
  {
  }

  lemma MoveKeepsOthers(s: State, s': State, r: RequestId, x: RequestId)
    requires LockInv(s) && LockInv(s') && r in s.requests && Kept(s, s', r)
    requires x in s.requests && x != r && CallInv(s, x)
    ensures x in s'.requests && PhaseInv(s', x) && CallInv(s', x)
  {
    hide LiveInv, PhaseInv, Local, Handle, Supported, EndpointsOf;
    assert !Inside(s'.requests[x].pc);
    OutsideIsFree(s', x);
  }

  lemma KeptAlive(s: State, s': State, r: RequestId)
    requires r in s.requests && Kept(s, s', r)
    ensures !s'.aborted && LiveInv(s') && r in s'.requests && PhaseInv(s', r) && CallInv(s', r)
    ensures s'.requests.Keys == s.requests.Keys
  {
    hide LiveInv, PhaseInv, CallInv, Handle, JoinMove, SpawnMove;
  }

  lemma ControlOf(s: State, r: RequestId)
    requires ControlInv(s) && r in s.requests
    ensures Local(s, r)
  {
    hide LiveInv, PhaseInv, CallInv, OwnerInv;
  }

  lemma RequestKeepsControl(s: State, s': State, r: RequestId)
    requires ControlInv(s) && RequestStep(s, s', r)
    ensures ControlInv(s')
  {
    hide LockInv, ThreadInv, LiveInv, SleepInv, OwnerInv, PhaseInv, CallInv, Local, Kept,
        TearDownStep, SetupStep, ReportStep;
    ControlOf(s, r);
    RequestKeeps(s, s', r);
    KeptAlive(s, s', r);
    MoveKeepsLocks(s, s', r);
    MoveKeepsThreads(s, s', r);
    MoveKeepsOwners(s, s', r);
    MoveKeepsSleepers(s, s', r);
    forall x | x in s'.requests ensures PhaseInv(s', x) && CallInv(s', x) {
      if x != r { MoveKeepsOthers(s, s', r, x); }
    }
  }

  lemma ArriveKeepsShared(s: State, s': State, r: RequestId, functions: Functions, hasCallback: bool)
    requires LockInv(s) && ThreadInv(s) && SleepInv(s) && OwnerInv(s) && Arrive(s, s', r, functions, hasCallback)
    ensures LockInv(s') && ThreadInv(s') && SleepInv(s') && OwnerInv(s')
  {
  }

  lemma ArriveKeepsLive(s: State, s': State, r: RequestId, functions: Functions, hasCallback: bool)
    requires LockInv(s) && LiveInv(s) && Arrive(s, s', r, functions, hasCallback)
    ensures LiveInv(s')
  {
  }

  lemma ArriveKeepsRequest(s: State, s': State, r: RequestId, functions: Functions, hasCallback: bool, x: RequestId)
    requires Arrive(s, s', r, functions, hasCallback) && x in s'.requests
    requires x in s.requests ==> PhaseInv(s, x) && CallInv(s, x)
    ensures PhaseInv(s', x) && CallInv(s', x)
  {
    hide EndpointsOf;
  }

  lemma ArriveKeepsControl(s: State, s': State, r: RequestId, functions: Functions, hasCallback: bool)
    requires ControlInv(s) && Arrive(s, s', r, functions, hasCallback)
    ensures ControlInv(s')
  {
    hide LockInv, ThreadInv, LiveInv, SleepInv, OwnerInv, PhaseInv, CallInv;
    ArriveKeepsShared(s, s', r, functions, hasCallback);
    ArriveKeepsLive(s, s', r, functions, hasCallback);
    forall x | x in s'.requests ensures PhaseInv(s', x) && CallInv(s', x) {
      ArriveKeepsRequest(s, s', r, functions, hasCallback, x);
    }
  }

  // ---------- steps of a monitor ----------

  ghost predicate LocalMonitor(s: State, m: MonitorId) {
    && !s.aborted && LiveInv(s)
    && m in s.monitors && s.thread == Some(m) && s.monitors[m].pc != Joined
    && (s.monitors[m].pc.Pullup? <==> s.lock == ByMonitor(m))
  }

  ghost predicate MonitorMove(s: State, s': State, m: MonitorId, mon: Monitor, mon': Monitor) {
    && s'.monitors == s.monitors[m := mon'] && mon'.pc != Joined
    && mon'.owner == mon.owner && mon'.endpoints == mon.endpoints && mon'.pulled == (mon.pulled || mon.pc.Pullup?)
    && s'.requests == s.requests && s'.requestLock == s.requestLock
    && s'.thread == s.thread && s'.monitorCreated == s.monitorCreated
    && s'.endpoints == s.endpoints && s'.fds == s.fds
    && s'.lock == (if mon'.pc.Pullup? then ByMonitor(m) else if mon.pc.Pullup? then Nobody else s.lock)
    && (mon'.pc.Pullup? && !mon.pc.Pullup? ==> s.lock == Nobody)
    && (if mon.pc.Pullup? then s'.gadgetPullup && mon'.pulled && s'.sleepers == {}
        else s'.gadgetPullup == s.gadgetPullup && s'.sleepers == s.sleepers)
    && (s'.flag == s.flag || (mon.pc.ReadFlag? && s'.flag == 0))
    && (mon.pc.ReadFlag? <==> mon'.pc.Returned?)
  }

  ghost predicate MonitorKept(s: State, s': State, m: MonitorId)
    requires m in s.monitors
  {
    LocalMonitor(s', m) && MonitorMove(s, s', m, s.monitors[m], s'.monitors[m])
  }

  lemma CheckKeeps(s: State, s': State, m: MonitorId)
    requires LocalMonitor(s, m) && s.monitors[m].pc.Check? && PullupStep(s, s', m)
    ensures MonitorKept(s, s', m)
  {
    var mon, mon' := s.monitors[m], s'.monitors[m];
    assert s' == Put(s, m, mon.(pc := mon'.pc, log := mon'.log));
    assert mon'.pc == EpollWait || mon'.pc == WriteUdc(false) ==> !mon.pc.inLoop;
    assert mon'.pc == EpollWait || mon'.pc == WriteUdc(false) || mon'.pc.Decide?
      || (mon'.pc.Check? && mon'.pc.inLoop == mon.pc.inLoop);
    hide PullupStep;
  }

  lemma WriteUdcKeeps(s: State, s': State, m: MonitorId)
    requires LocalMonitor(s, m) && s.monitors[m].pc.WriteUdc? && PullupStep(s, s', m)
    ensures MonitorKept(s, s', m)
  {
  }

  lemma LockForPullupKeeps(s: State, s': State, m: MonitorId)
    requires LocalMonitor(s, m) && s.monitors[m].pc.LockForPullup? && PullupStep(s, s', m)
    ensures MonitorKept(s, s', m)
  {
  }

  lemma PullupKeeps(s: State, s': State, m: MonitorId)
    requires LocalMonitor(s, m) && s.monitors[m].pc.Pullup? && PullupStep(s, s', m)
    ensures MonitorKept(s, s', m)
  {
  }

  lemma EpollWaitKeeps(s: State, s': State, m: MonitorId)
    requires LocalMonitor(s, m) && s.monitors[m].pc.EpollWait? && LoopStep(s, s', m)
    ensures MonitorKept(s, s', m)
  {
  }

  function TakeEvent(mon: Monitor): Monitor {
    if mon.events == [] then mon.(pc := EpollWait)
    else mon.(pc := if mon.events[0] == Inotify then ReadInotify else ReadFlag, events := mon.events[1..])
  }

  lemma TakeEventKeepsLive(s: State, mon: Monitor)
    requires mon.pc == NextEvent && Live(mon, s.endpoints, s.fds, s.flag)
    ensures Live(TakeEvent(mon), s.endpoints, s.fds, s.flag)
  {
    if mon.events != [] { assert mon.events == [mon.events[0]] + mon.events[1..]; }
  }

  lemma NextEventKeeps(s: State, s': State, m: MonitorId)
    requires LocalMonitor(s, m) && s.monitors[m].pc.NextEvent? && LoopStep(s, s', m)
    ensures MonitorKept(s, s', m)
  {
    hide Live, Batch;
    TakeEventKeepsLive(s, s.monitors[m]);
    assert s' == Put(s, m, TakeEvent(s.monitors[m]));
    hide LoopStep;
  }

  lemma ReadInotifyKeeps(s: State, s': State, m: MonitorId)
    requires LocalMonitor(s, m) && s.monitors[m].pc.ReadInotify? && LoopStep(s, s', m)
    ensures MonitorKept(s, s', m)
  {
  }

  lemma NextRecordKeeps(s: State, s': State, m: MonitorId)
    requires LocalMonitor(s, m) && s.monitors[m].pc.NextRecord? && LoopStep(s, s', m)
    ensures MonitorKept(s, s', m)
  {
  }

  lemma DecideKeeps(s: State, s': State, m: MonitorId)
    requires LocalMonitor(s, m) && s.monitors[m].pc.Decide? && LoopStep(s, s', m)
    ensures MonitorKept(s, s', m)
  {
  }

  lemma ReadFlagKeeps(s: State, s': State, m: MonitorId)
    requires LocalMonitor(s, m) && s.monitors[m].pc.ReadFlag? && LoopStep(s, s', m)
    ensures MonitorKept(s, s', m)
  {
  }

  lemma PullupStepKeeps(s: State, s': State, m: MonitorId)
    requires m in s.monitors && LocalMonitor(s, m) && PullupStep(s, s', m)
    ensures MonitorKept(s, s', m)
  {
    hide LocalMonitor, MonitorKept, Put, Batch;
    match s.monitors[m].pc
    case Check(_, _) => CheckKeeps(s, s', m);
    case WriteUdc(_) => WriteUdcKeeps(s, s', m);
    case LockForPullup(_) => LockForPullupKeeps(s, s', m);
    case Pullup(_) => PullupKeeps(s, s', m);
    case _ => assert false;
  }

  lemma LoopStepKeeps(s: State, s': State, m: MonitorId)
    requires m in s.monitors && LocalMonitor(s, m) && LoopStep(s, s', m)
    ensures MonitorKept(s, s', m)
  {
    hide LocalMonitor, MonitorKept, Put, Batch;
    match s.monitors[m].pc
    case EpollWait => EpollWaitKeeps(s, s', m);
    case NextEvent => NextEventKeeps(s, s', m);
    case ReadInotify => ReadInotifyKeeps(s, s', m);
    case NextRecord => NextRecordKeeps(s, s', m);
    case Decide(_) => DecideKeeps(s, s', m);
    case ReadFlag => ReadFlagKeeps(s, s', m);
    case _ => assert false;
  }

  lemma MonitorMoveKeepsRest(s: State, s': State, m: MonitorId)
    requires LockInv(s) && ThreadInv(s) && SleepInv(s) && OwnerInv(s) && m in s.monitors && s.thread == Some(m)
    requires MonitorKept(s, s', m)
    ensures LockInv(s') && ThreadInv(s') && SleepInv(s') && OwnerInv(s')
  {
    hide LiveInv;
  }

  lemma MonitorMoveKeepsRequests(s: State, s': State, m: MonitorId, r: RequestId)
    requires m in s.monitors && s.thread == Some(m) && MonitorKept(s, s', m)
    requires r in s.requests && PhaseInv(s, r) && CallInv(s, r) && LiveInv(s) && s.monitors[m].pc != Returned
    ensures r in s'.requests && PhaseInv(s', r) && CallInv(s', r)
  {
    hide EndpointsOf;
  }

  lemma MonitorControlOf(s: State, s': State, m: MonitorId)
    requires ControlInv(s) && MonitorStep(s, s', m)
    ensures LocalMonitor(s, m) && s.monitors[m].pc != Returned
  {
    hide LiveInv, PhaseInv, CallInv, OwnerInv, SleepInv;
  }

  lemma MonitorStepKeeps(s: State, s': State, m: MonitorId)
    requires LocalMonitor(s, m) && MonitorStep(s, s', m)
    ensures m in s.monitors && MonitorKept(s, s', m)
  {
    hide MonitorKept, PullupStep, LoopStep;
    if PullupStep(s, s', m) { PullupStepKeeps(s, s', m); } else { LoopStepKeeps(s, s', m); }
  }

  lemma MonitorKeptAlive(s: State, s': State, m: MonitorId)
    requires m in s.monitors && MonitorKept(s, s', m)
    ensures !s'.aborted && LiveInv(s') && s'.requests == s.requests
  {
    hide LiveInv;
  }

  lemma MonitorKeepsControl(s: State, s': State, m: MonitorId)
    requires ControlInv(s) && MonitorStep(s, s', m)
    ensures ControlInv(s')
  {
    hide LockInv, ThreadInv, LiveInv, SleepInv, PhaseInv, CallInv, OwnerInv, MonitorKept, MonitorStep;
    MonitorControlOf(s, s', m);
    MonitorStepKeeps(s, s', m);
    MonitorKeptAlive(s, s', m);
    MonitorMoveKeepsRest(s, s', m);
    forall r | r in s'.requests ensures PhaseInv(s', r) && CallInv(s', r) {
      MonitorMoveKeepsRequests(s, s', m, r);
    }
  }

  // ---------- every reachable state ----------

  lemma NextKeepsControl(s: State, s': State)
    requires ControlInv(s) && Next(s, s')
    ensures ControlInv(s')
  {
    hide ControlInv, Arrive, RequestStep, MonitorStep;
    if r, functions, hasCallback :| Arrive(s, s', r, functions, hasCallback) {
      ArriveKeepsControl(s, s', r, functions, hasCallback);
    } else if r :| RequestStep(s, s', r) {
      RequestKeepsControl(s, s', r);
    } else {
      var m :| MonitorStep(s, s', m);
      MonitorKeepsControl(s, s', m);
    }
  }

  lemma {:induction false} ControlAlways(states: seq<State>, i: nat)
    requires Run(states) && i < |states|
    ensures ControlInv(states[i])
  {
    if i > 0 {
      ControlAlways(states, i - 1);
      NextKeepsControl(states[i - 1], states[i]);
    }
  }
}
