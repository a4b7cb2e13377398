/** Nothing in the gadget service rules out what it is for: runs in which a request is told SUCCESS, and in
    which it is told that its time is up. */
module GadgetReachability {
  import opened Wrappers
  import opened GadgetFunctions
  import opened GadgetProtocol

  lemma Extend(states: seq<State>, s: State) returns (longer: seq<State>)
    requires Run(states) && Next(states[|states| - 1], s)
    ensures Run(longer) && longer[|longer| - 1] == s && states <= longer
  {
    hide Init, Next;
    longer := states + [s];
    forall i | 0 <= i < |longer| - 1 ensures Next(longer[i], longer[i + 1]) {
      assert longer[i] == states[i] && (i < |states| - 1 ==> longer[i + 1] == states[i + 1]);
    }
  }

  ghost predicate Moves(s: State, s': State) { !s.aborted && (RequestStep(s, s', 0) || MonitorStep(s, s', 0)) }

  lemma ByStep(states: seq<State>, s: State) returns (longer: seq<State>)
    requires Run(states) && Moves(states[|states| - 1], s)
    ensures Run(longer) && longer[|longer| - 1] == s
  {
    hide RequestStep, MonitorStep, Run;
    longer := Extend(states, s);
  }

  // ---------- one request, before there is a monitor ----------

  function Alone(f: Functions, pc: RequestPc, lock: Holder, endpoints: seq<string>, calls: seq<Status>): State {
    State(Some(0), lock, {}, false, None, false, endpoints, CLOSED, 0,
          map[0 := Request(f, true, pc, None, None, None, calls)], map[], false)
  }

  lemma Arrived(f: Functions) returns (states: seq<State>)
    ensures Run(states) && states[|states| - 1] == Alone(f, TearDownWrites, Nobody, [], [])
  {
    var start := State(None, Nobody, {}, false, None, false, [], CLOSED, 0, map[], map[], false);
    var entered := start.(requests := map[0 := Request(f, true, Enter, None, None, None, [])]);
    states := [start];
    assert Arrive(start, entered, 0, f, true);
    states := Extend(states, entered);
    assert TearDownStep(entered, Alone(f, TearDownWrites, Nobody, [], []), 0);
    states := ByStep(states, Alone(f, TearDownWrites, Nobody, [], []));
  }

  lemma TearDownMoves(f: Functions)
    ensures Moves(Alone(f, TearDownWrites, Nobody, [], []), Alone(f, CheckCreated, Nobody, [], []))
    ensures Moves(Alone(f, CheckCreated, Nobody, [], []), Alone(f, ClearShared, Nobody, [], []))
    ensures Moves(Alone(f, ClearShared, Nobody, [], []), Alone(f, Dispatch, Nobody, [], []))
    ensures f != NONE ==> Moves(Alone(f, Dispatch, Nobody, [], []), Alone(f, Validate, Nobody, [], []))
  {
    assert TearDownStep(Alone(f, TearDownWrites, Nobody, [], []), Alone(f, CheckCreated, Nobody, [], []), 0);
    assert TearDownStep(Alone(f, CheckCreated, Nobody, [], []), Alone(f, ClearShared, Nobody, [], []), 0);
    assert TearDownStep(Alone(f, ClearShared, Nobody, [], []), Alone(f, Dispatch, Nobody, [], []), 0);
  }

  lemma TornDown(f: Functions) returns (states: seq<State>)
    ensures Run(states) && states[|states| - 1] == Alone(f, Dispatch, Nobody, [], [])
  {
    hide Run, Moves, Alone;
    TearDownMoves(f);
    states := Arrived(f);
    states := ByStep(states, Alone(f, CheckCreated, Nobody, [], []));
    states := ByStep(states, Alone(f, ClearShared, Nobody, [], []));
    states := ByStep(states, Alone(f, Dispatch, Nobody, [], []));
  }

  lemma NoneMoves()
    ensures Moves(Alone(NONE, Dispatch, Nobody, [], []), Alone(NONE, Leave, Nobody, [], [SUCCESS]))
  {
    var a, b := Alone(NONE, Dispatch, Nobody, [], []), Alone(NONE, Leave, Nobody, [], [SUCCESS]);
    assert [] + [SUCCESS] == [SUCCESS];
    assert Goto(Deliver(a, 0, SUCCESS), 0, Leave).requests == b.requests;
    assert TearDownStep(a, b, 0);
  }

  /** NONE is told SUCCESS. */
  lemma NoneSucceeds() returns (states: seq<State>)
    ensures Run(states) && 0 in states[|states| - 1].requests
    ensures states[|states| - 1].requests[0].functions == NONE && states[|states| - 1].requests[0].calls == [SUCCESS]
  {
    hide Run, Moves;
    NoneMoves();
    states := TornDown(NONE);
    states := ByStep(states, Alone(NONE, Leave, Nobody, [], [SUCCESS]));
  }

  function AfterLinks(f: Functions): RequestPc { if f.UsesFfs() then OpenDescriptors else PullupNow }

  lemma LinkMoves(f: Functions)
    ensures Supported(f) ==> Moves(Alone(f, Validate, Nobody, [], []), Alone(f, LockForSetup, Nobody, [], []))
    ensures Moves(Alone(f, LockForSetup, Nobody, [], []), Alone(f, LinkAll, ByRequest(0), [], []))
    ensures Moves(Alone(f, LinkAll, ByRequest(0), [], []), Alone(f, AfterLinks(f), ByRequest(0), EndpointsOf(f), []))
  {
    hide Supported, EndpointsOf;
    if Supported(f) {
      assert SetupStep(Alone(f, Validate, Nobody, [], []), Alone(f, LockForSetup, Nobody, [], []), 0);
    }
    assert SetupStep(Alone(f, LockForSetup, Nobody, [], []), Alone(f, LinkAll, ByRequest(0), [], []), 0);
    assert [] + EndpointsOf(f) == EndpointsOf(f);
    assert SetupStep(Alone(f, LinkAll, ByRequest(0), [], []),
                     Alone(f, AfterLinks(f), ByRequest(0), EndpointsOf(f), []), 0);
  }

  lemma Linked(f: Functions) returns (states: seq<State>)
    requires Supported(f) && f != NONE
    ensures Run(states) && states[|states| - 1] == Alone(f, AfterLinks(f), ByRequest(0), EndpointsOf(f), [])
  {
    hide Run, Supported, EndpointsOf, Moves, Alone, AfterLinks;
    TearDownMoves(f);
    LinkMoves(f);
    states := TornDown(f);
    states := ByStep(states, Alone(f, Validate, Nobody, [], []));
    states := ByStep(states, Alone(f, LockForSetup, Nobody, [], []));
    states := ByStep(states, Alone(f, LinkAll, ByRequest(0), [], []));
    states := ByStep(states, Alone(f, AfterLinks(f), ByRequest(0), EndpointsOf(f), []));
  }

  lemma PlainMoves(f: Functions, endpoints: seq<string>)
    ensures Moves(Alone(f, PullupNow, ByRequest(0), endpoints, []), Alone(f, ReportNow, ByRequest(0), endpoints, []))
    ensures Moves(Alone(f, ReportNow, ByRequest(0), endpoints, []), Alone(f, Leave, Nobody, endpoints, [SUCCESS]))
  {
    var a, b := Alone(f, PullupNow, ByRequest(0), endpoints, []), Alone(f, ReportNow, ByRequest(0), endpoints, []);
    var c := Alone(f, Leave, Nobody, endpoints, [SUCCESS]);
    assert SetupStep(a, b, 0);
    assert [] + [SUCCESS] == [SUCCESS];
    assert Goto(Deliver(b, 0, SUCCESS), 0, Leave).requests == c.requests;
    assert SetupStep(b, c, 0);
  }

  /** Every mask with ids and without FunctionFS functions is told SUCCESS in some run. */
  lemma PlainRequestSucceeds(f: Functions) returns (states: seq<State>)
    requires Supported(f) && f != NONE && !f.UsesFfs()
    ensures Run(states) && 0 in states[|states| - 1].requests
    ensures states[|states| - 1].requests[0].functions == f && states[|states| - 1].requests[0].calls == [SUCCESS]
  {
    hide Run, Supported, EndpointsOf, Moves;
    PlainMoves(f, EndpointsOf(f));
    states := Linked(f);
    states := ByStep(states, Alone(f, ReportNow, ByRequest(0), EndpointsOf(f), []));
    states := ByStep(states, Alone(f, Leave, Nobody, EndpointsOf(f), [SUCCESS]));
  }

  // ---------- with its monitor ----------

  const FDS := Descriptors(Some(0), Some(1), Some(2))

  /** The request and its monitor; `timedOut` is how the last wait ended. */
  function Watched(f: Functions, pc: RequestPc, timedOut: Option<bool>, calls: seq<Status>, lock: Holder,
                   pulled: bool, mon: Monitor): State {
    State(Some(0), lock, if pc == Sleep && !pulled then {0} else {}, pc != SetCreated, Some(0), pulled, EndpointsOf(f),
          FDS, 0, map[0 := Request(f, true, pc, Some(0), None, timedOut, calls)], map[0 := mon], false)
  }

  lemma DescriptorMoves(f: Functions, endpoints: seq<string>)
    ensures Moves(Alone(f, OpenDescriptors, ByRequest(0), endpoints, []),
                  Alone(f, Publish(0, 1, 2), ByRequest(0), endpoints, []))
    ensures Moves(Alone(f, Publish(0, 1, 2), ByRequest(0), endpoints, []),
                  Alone(f, Spawn, ByRequest(0), endpoints, []).(fds := FDS))
  {
    var a, b := Alone(f, OpenDescriptors, ByRequest(0), endpoints, []),
      Alone(f, Publish(0, 1, 2), ByRequest(0), endpoints, []);
    assert SetupStep(a, b, 0);
    assert SetupStep(b, Alone(f, Spawn, ByRequest(0), endpoints, []).(fds := FDS), 0);
  }

  lemma SpawnMoves(f: Functions)
    ensures Moves(Alone(f, Spawn, ByRequest(0), EndpointsOf(f), []).(fds := FDS),
                  Watched(f, SetCreated, None, [], ByRequest(0), false, NewMonitor(0, EndpointsOf(f))))
  {
    hide EndpointsOf, NewMonitor;
    var a := Alone(f, Spawn, ByRequest(0), EndpointsOf(f), []).(fds := FDS);
    var b := Watched(f, SetCreated, None, [], ByRequest(0), false, NewMonitor(0, EndpointsOf(f)));
    assert b == SpawnMonitor(a, 0, 0);
    assert SetupStep(a, b, 0);
  }

  lemma SleepMoves(f: Functions, mon: Monitor)
    ensures Moves(Watched(f, SetCreated, None, [], ByRequest(0), false, mon),
                  Watched(f, TestPullup(false), None, [], ByRequest(0), false, mon))
    ensures Moves(Watched(f, TestPullup(false), None, [], ByRequest(0), false, mon),
                  Watched(f, Sleep, None, [], Nobody, false, mon))
  {
    hide EndpointsOf;
    var a, b := Watched(f, SetCreated, None, [], ByRequest(0), false, mon),
      Watched(f, TestPullup(false), None, [], ByRequest(0), false, mon);
    assert ReportStep(a, b, 0);
    assert ReportStep(b, Watched(f, Sleep, None, [], Nobody, false, mon), 0);
  }

  lemma Asleep(f: Functions) returns (states: seq<State>)
    requires Supported(f) && f.UsesFfs()
    ensures Run(states)
    ensures states[|states| - 1] == Watched(f, Sleep, None, [], Nobody, false, NewMonitor(0, EndpointsOf(f)))
  {
    hide Run, Supported, EndpointsOf, NewMonitor, Moves, Alone, Watched;
    var endpoints, mon := EndpointsOf(f), NewMonitor(0, EndpointsOf(f));
    DescriptorMoves(f, endpoints);
    SpawnMoves(f);
    SleepMoves(f, mon);
    states := Linked(f);
    states := ByStep(states, Alone(f, Publish(0, 1, 2), ByRequest(0), endpoints, []));
    states := ByStep(states, Alone(f, Spawn, ByRequest(0), endpoints, []).(fds := FDS));
    states := ByStep(states, Watched(f, SetCreated, None, [], ByRequest(0), false, mon));
    states := ByStep(states, Watched(f, TestPullup(false), None, [], ByRequest(0), false, mon));
    states := ByStep(states, Watched(f, Sleep, None, [], Nobody, false, mon));
  }

  lemma WakeMoves(f: Functions, mon: Monitor, pulled: bool, timedOut: bool)
    ensures Moves(Watched(f, Sleep, None, [], Nobody, pulled, mon),
                  Watched(f, Relock(timedOut), Some(timedOut), [], Nobody, pulled, mon))
  {
    hide EndpointsOf;
    var a, b := Watched(f, Sleep, None, [], Nobody, pulled, mon),
      Watched(f, Relock(timedOut), Some(timedOut), [], Nobody, pulled, mon);
    assert b == Wake(a, 0, timedOut);
    assert ReportStep(a, b, 0);
  }

  lemma RelockMoves(f: Functions, mon: Monitor, pulled: bool, timedOut: bool)
    ensures Moves(Watched(f, Relock(timedOut), Some(timedOut), [], Nobody, pulled, mon),
                  Watched(f, TestPullup(timedOut), Some(timedOut), [], ByRequest(0), pulled, mon))
  {
    hide EndpointsOf;
    var a, b := Watched(f, Relock(timedOut), Some(timedOut), [], Nobody, pulled, mon),
      Watched(f, TestPullup(timedOut), Some(timedOut), [], ByRequest(0), pulled, mon);
    assert ReportStep(a, b, 0);
  }

  lemma TestMoves(f: Functions, mon: Monitor, pulled: bool, timedOut: bool)
    requires pulled || timedOut
    ensures Moves(Watched(f, TestPullup(timedOut), Some(timedOut), [], ByRequest(0), pulled, mon),
                  Watched(f, Report, Some(timedOut), [], ByRequest(0), pulled, mon))
  {
    hide EndpointsOf;
    var a, b := Watched(f, TestPullup(timedOut), Some(timedOut), [], ByRequest(0), pulled, mon),
      Watched(f, Report, Some(timedOut), [], ByRequest(0), pulled, mon);
    assert ReportStep(a, b, 0);
  }

  lemma ReportMoves(f: Functions, mon: Monitor, pulled: bool, timedOut: bool)
    ensures Moves(Watched(f, Report, Some(timedOut), [], ByRequest(0), pulled, mon),
                  Watched(f, Leave, Some(timedOut), [if pulled then SUCCESS else ERROR], Nobody, pulled, mon))
  {
    hide EndpointsOf;
    var status := if pulled then SUCCESS else ERROR;
    var a, b := Watched(f, Report, Some(timedOut), [], ByRequest(0), pulled, mon),
      Watched(f, Leave, Some(timedOut), [status], Nobody, pulled, mon);
    assert [] + [status] == [status];
    assert Goto(Deliver(a, 0, status), 0, Leave).requests == b.requests;
    assert ReportStep(a, b, 0);
  }

  /** From its sleep to the end of its report. */
  lemma Reported(states: seq<State>, f: Functions, mon: Monitor, pulled: bool, timedOut: bool)
    returns (longer: seq<State>)
    requires Run(states) && states[|states| - 1] == Watched(f, Sleep, None, [], Nobody, pulled, mon)
    requires pulled || timedOut
    ensures Run(longer)
    ensures longer[|longer| - 1] ==
            Watched(f, Leave, Some(timedOut), [if pulled then SUCCESS else ERROR], Nobody, pulled, mon)
  {
    hide Run, EndpointsOf, Moves, Watched;
    WakeMoves(f, mon, pulled, timedOut);
    RelockMoves(f, mon, pulled, timedOut);
    TestMoves(f, mon, pulled, timedOut);
    ReportMoves(f, mon, pulled, timedOut);
    longer := ByStep(states, Watched(f, Relock(timedOut), Some(timedOut), [], Nobody, pulled, mon));
    longer := ByStep(longer, Watched(f, TestPullup(timedOut), Some(timedOut), [], ByRequest(0), pulled, mon));
    longer := ByStep(longer, Watched(f, Report, Some(timedOut), [], ByRequest(0), pulled, mon));
    var status := if pulled then SUCCESS else ERROR;
    longer := ByStep(longer, Watched(f, Leave, Some(timedOut), [status], Nobody, pulled, mon));
  }

  /** In some run a request for FunctionFS functions is told ERROR because its endpoints are late. */
  lemma LateEndpointsTimeOut(f: Functions) returns (states: seq<State>)
    requires Supported(f) && f.UsesFfs()
    ensures Run(states) && 0 in states[|states| - 1].requests
    ensures var q := states[|states| - 1].requests[0]; q.functions == f && q.calls == [ERROR] && q.refusal == None
  {
    hide Run, Supported, EndpointsOf, NewMonitor;
    states := Asleep(f);
    states := Reported(states, f, NewMonitor(0, EndpointsOf(f)), false, true);
  }

  /** The monitor after it has found j endpoints readable. */
  function Checked(endpoints: seq<string>, j: nat): Monitor
    requires j <= |endpoints|
  {
    var log := seq(j, k requires 0 <= k < j => Access(endpoints[k], true, false));
    NewMonitor(0, endpoints).(pc := Check(false, j), log := log)
  }

  lemma CheckMoves(f: Functions, j: nat)
    requires j < |EndpointsOf(f)|
    ensures Moves(Watched(f, Sleep, None, [], Nobody, false, Checked(EndpointsOf(f), j)),
                  Watched(f, Sleep, None, [], Nobody, false, Checked(EndpointsOf(f), j + 1)))
  {
    hide EndpointsOf;
    var endpoints := EndpointsOf(f);
    var before, after := Checked(endpoints, j), Checked(endpoints, j + 1);
    assert after.log == before.log + [Access(endpoints[j], true, false)];
    assert PullupStep(Watched(f, Sleep, None, [], Nobody, false, before),
                      Watched(f, Sleep, None, [], Nobody, false, after), 0);
  }

  lemma {:induction false} ChecksPass(f: Functions, j: nat) returns (states: seq<State>)
    requires Supported(f) && f.UsesFfs() && j <= |EndpointsOf(f)|
    ensures Run(states)
    ensures states[|states| - 1] == Watched(f, Sleep, None, [], Nobody, false, Checked(EndpointsOf(f), j))
  {
    hide Run, Supported, EndpointsOf, Moves, Watched;
    if j == 0 {
      states := Asleep(f);
      assert Checked(EndpointsOf(f), 0) == NewMonitor(0, EndpointsOf(f));
    } else {
      states := ChecksPass(f, j - 1);
      CheckMoves(f, j - 1);
      states := ByStep(states, Watched(f, Sleep, None, [], Nobody, false, Checked(EndpointsOf(f), j)));
    }
  }

  lemma PullupMoves(f: Functions, mon: Monitor)
    requires mon.pc == Check(false, |EndpointsOf(f)|)
    ensures var writing := mon.(pc := WriteUdc(false));
            var written := writing.(pc := LockForPullup(false), log := mon.log + [UdcWrite(true, false)]);
            var holding := written.(pc := Pullup(false));
            && Moves(Watched(f, Sleep, None, [], Nobody, false, mon),
                     Watched(f, Sleep, None, [], Nobody, false, writing))
            && Moves(Watched(f, Sleep, None, [], Nobody, false, writing),
                     Watched(f, Sleep, None, [], Nobody, false, written))
            && Moves(Watched(f, Sleep, None, [], Nobody, false, written),
                     Watched(f, Sleep, None, [], ByMonitor(0), false, holding))
            && Moves(Watched(f, Sleep, None, [], ByMonitor(0), false, holding),
                     Watched(f, Sleep, None, [], Nobody, true, holding.(pc := EpollWait, pulled := true)))
  {
    hide EndpointsOf;
    var writing := mon.(pc := WriteUdc(false));
    var written := writing.(pc := LockForPullup(false), log := mon.log + [UdcWrite(true, false)]);
    var holding := written.(pc := Pullup(false));
    var a, b := Watched(f, Sleep, None, [], Nobody, false, mon), Watched(f, Sleep, None, [], Nobody, false, writing);
    var c := Watched(f, Sleep, None, [], Nobody, false, written);
    var d := Watched(f, Sleep, None, [], ByMonitor(0), false, holding);
    var e := Watched(f, Sleep, None, [], Nobody, true, holding.(pc := EpollWait, pulled := true));
    assert PullupStep(a, b, 0);
    assert PullupStep(b, c, 0);
    assert PullupStep(c, d, 0);
    assert PullupStep(d, e, 0);
  }

  lemma PulledUp(f: Functions) returns (states: seq<State>, mon: Monitor)
    requires Supported(f) && f.UsesFfs()
    ensures Run(states) && states[|states| - 1] == Watched(f, Sleep, None, [], Nobody, true, mon)
  {
    hide Run, Supported, EndpointsOf, Moves, Watched;
    mon := Checked(EndpointsOf(f), |EndpointsOf(f)|);
    PullupMoves(f, mon);
    states := ChecksPass(f, |EndpointsOf(f)|);
    mon := mon.(pc := WriteUdc(false));
    states := ByStep(states, Watched(f, Sleep, None, [], Nobody, false, mon));
    mon := mon.(pc := LockForPullup(false), log := mon.log + [UdcWrite(true, false)]);
    states := ByStep(states, Watched(f, Sleep, None, [], Nobody, false, mon));
    mon := mon.(pc := Pullup(false));
    states := ByStep(states, Watched(f, Sleep, None, [], ByMonitor(0), false, mon));
    mon := mon.(pc := EpollWait, pulled := true);
    states := ByStep(states, Watched(f, Sleep, None, [], Nobody, true, mon));
  }

  /** Every mask with ids and with FunctionFS functions is told SUCCESS in some run, woken by its monitor. */
  lemma FfsRequestSucceeds(f: Functions) returns (states: seq<State>)
    requires Supported(f) && f.UsesFfs()
    ensures Run(states) && 0 in states[|states| - 1].requests
    ensures var q := states[|states| - 1].requests[0];
            q.functions == f && q.calls == [SUCCESS] && q.timedOut == Some(false)
  {
    hide Run, Supported, EndpointsOf;
    var mon;
    states, mon := PulledUp(f);
    states := Reported(states, f, mon, true, false);
  }
}
