/**
 The monitor thread, read as a sequential program: which question it must ask next after every answer it
 has got. Every history of every monitor in every interleaving follows it.
 */
module GadgetMonitorTrace {
  import opened Wrappers
  import opened GadgetFunctions
  import opened GadgetProtocol
  import opened GadgetInvariants
  import opened GadgetMonitorLog

  // ---------- the reference ----------

  /** What the thread asks next: whether endpoint j is readable, to write the UDC, for events, for inotify
      records, or for the value of the eventfd. */
  datatype Question = Endpoint(inLoop: bool, j: nat) | Udc(inLoop: bool) | Events | Inotifies | Eventfd | Stop

  /** `armed`: the loop will pull up when it finds everything readable; `left` records and `pending` events are
      still to handle. */
  datatype Thread = Thread(next: Question, armed: bool, left: nat, pending: seq<Ready>)

  const START := Thread(Endpoint(false, 0), true, 0, [])

  /** On to the next record, the next event, or the next answer of epoll_wait. */
  function Resume(armed: bool, left: nat, pending: seq<Ready>): Thread {
    if left > 0 then Thread(Endpoint(true, 0), armed, left - 1, pending)
    else if pending == [] then Thread(Events, armed, 0, [])
    else Thread(if pending[0] == Inotify then Inotifies else Eventfd, armed, 0, pending[1..])
  }

  /** The thread after one question and its answer; None if that was not the question to ask. */
  function Follow(t: Thread, a: Action, endpoints: seq<string>): Option<Thread> {
    match (t.next, a)
    case (Endpoint(inLoop, j), Access(path, readable, b)) =>
      if b != inLoop || j >= |endpoints| || path != endpoints[j] then None
      else if !readable then Some(Resume(t.armed || inLoop, t.left, t.pending))
      else if j + 1 < |endpoints| then Some(t.(next := Endpoint(inLoop, j + 1)))
      else if t.armed then Some(t.(next := Udc(inLoop)))
      else Some(Resume(false, t.left, t.pending))
    case (Udc(inLoop), UdcWrite(ok, b)) =>
      if b != inLoop then None else Some(Resume(t.armed && !(ok && inLoop), t.left, t.pending))
    case (Events, Answer(events)) => Some(Resume(t.armed, 0, events))
    case (Inotifies, Records(count)) => Some(Resume(t.armed, count, t.pending))
    case (Eventfd, Flag(value)) =>
      Some(if value == 100 then t.(next := Stop) else Resume(t.armed, 0, t.pending))
    case _ => None
  }

  function FollowAll(log: seq<Action>, endpoints: seq<string>): Option<Thread> {
    if log == [] then Some(START)
    else
      match FollowAll(log[..|log| - 1], endpoints)
      case None => None
      case Some(t) => Follow(t, log[|log| - 1], endpoints)
  }

  lemma FollowOneMore(log: seq<Action>, a: Action, endpoints: seq<string>, t: Thread)
    requires FollowAll(log, endpoints) == Some(t)
    ensures FollowAll(log + [a], endpoints) == Follow(t, a, endpoints)
  {
    assert (log + [a])[..|log|] == log;
  }

  lemma {:induction false} PrefixFollows(log: seq<Action>, n: nat, endpoints: seq<string>)
    requires n <= |log| && FollowAll(log, endpoints).Some?
    ensures FollowAll(log[..n], endpoints).Some?
  {
    if n == |log| {
      assert log[..n] == log;
    } else {
      PrefixFollows(log[..|log| - 1], n, endpoints);
      assert log[..|log| - 1][..n] == log[..n];
    }
  }

  // ---------- what it means ----------

  /** When a history leaves off at the last endpoint found readable, and the thread is armed, the next thing
      in any longer history is a write of the UDC. */
  lemma FullPassIsWritten(log: seq<Action>, k: nat, endpoints: seq<string>)
    requires FollowAll(log, endpoints).Some? && 0 < k < |log|
    requires var before := FollowAll(log[..k - 1], endpoints);
             && before.Some? && before.value.next.Endpoint? && before.value.next.j == |endpoints| - 1
             && before.value.armed && log[k - 1].Access? && log[k - 1].readable
    ensures log[k].UdcWrite? && log[k].inLoop == log[k - 1].inLoop
  {
    StepAt(log, k - 1, endpoints);
    StepAt(log, k, endpoints);
  }

  lemma StepAt(log: seq<Action>, k: nat, endpoints: seq<string>)
    requires k < |log| && FollowAll(log, endpoints).Some?
    ensures FollowAll(log[..k], endpoints).Some?
    ensures FollowAll(log[..k + 1], endpoints) == Follow(FollowAll(log[..k], endpoints).value, log[k], endpoints)
    ensures FollowAll(log[..k + 1], endpoints).Some?
  {
    PrefixFollows(log, k, endpoints);
    PrefixFollows(log, k + 1, endpoints);
    assert log[..k + 1][..k] == log[..k] && log[..k + 1][k] == log[k];
  }

  // ---------- every monitor follows it ----------

  /** Where the reference is when the monitor is here. Steps that ask nothing do not move it. */
  function View(mon: Monitor): Thread {
    var n := |mon.endpoints|;
    match mon.pc
    case Check(inLoop, j) =>
      if j < n then Thread(Endpoint(inLoop, j), mon.writeUdc, Left(mon, inLoop), Pending(mon, inLoop))
      else if mon.writeUdc then Thread(Udc(inLoop), true, Left(mon, inLoop), Pending(mon, inLoop))
      else Resume(false, Left(mon, inLoop), Pending(mon, inLoop))
    case Decide(present) =>
      if present && mon.writeUdc then Thread(Udc(true), true, mon.records, mon.events)
      else Resume(!present, mon.records, mon.events)
    case WriteUdc(inLoop) => Thread(Udc(inLoop), true, Left(mon, inLoop), Pending(mon, inLoop))
    case LockForPullup(inLoop) => Resume(mon.writeUdc && !inLoop, Left(mon, inLoop), Pending(mon, inLoop))
    case Pullup(inLoop) => Resume(mon.writeUdc && !inLoop, Left(mon, inLoop), Pending(mon, inLoop))
    case NextRecord => Resume(mon.writeUdc, mon.records, mon.events)
    case NextEvent => Resume(mon.writeUdc, 0, mon.events)
    case EpollWait => Thread(Events, mon.writeUdc, 0, [])
    case ReadInotify => Thread(Inotifies, mon.writeUdc, 0, mon.events)
    case ReadFlag => Thread(Eventfd, mon.writeUdc, 0, mon.events)
    case Returned => Thread(Stop, mon.writeUdc, 0, mon.events)
    case Joined => Thread(Stop, mon.writeUdc, 0, mon.events)
  }

  function Left(mon: Monitor, inLoop: bool): nat { if inLoop then mon.records else 0 }

  function Pending(mon: Monitor, inLoop: bool): seq<Ready> { if inLoop then mon.events else [] }

  /** The thread has written the UDC successfully. */
  predicate PullsUp(log: seq<Action>) { exists k :: 0 <= k < |log| && log[k].UdcWrite? && log[k].ok }

  predicate AboutToReport(pc: MonitorPc) { pc.LockForPullup? || pc.Pullup? }

  ghost predicate Follows(mon: Monitor) {
    && mon.endpoints != [] && FollowAll(mon.log, mon.endpoints) == Some(View(mon))
    && (mon.pc.Check? ==> mon.pc.j <= |mon.endpoints|)
    && (mon.pc.WriteUdc? || AboutToReport(mon.pc) || (mon.pc.Check? && !mon.pc.inLoop) ==> mon.writeUdc)
    && (PullsUp(mon.log) <==> mon.pulled || AboutToReport(mon.pc))
  }

  lemma PullsUpOneMore(log: seq<Action>, a: Action)
    ensures PullsUp(log + [a]) <==> PullsUp(log) || (a.UdcWrite? && a.ok)
  {
    assert (log + [a])[|log|] == a;
    if PullsUp(log) {
      var k :| 0 <= k < |log| && log[k].UdcWrite? && log[k].ok;
      assert (log + [a])[k] == log[k];
    }
  }

  ghost predicate Onward(s: State, s': State, m: MonitorId)
    requires m in s.monitors
  {
    && m in s'.monitors && Follows(s'.monitors[m])
    && s.monitors[m].log <= s'.monitors[m].log && s'.monitors[m].endpoints == s.monitors[m].endpoints
  }

  /** One question answered. */
  lemma AskedFollows(mon: Monitor, mon': Monitor, a: Action)
    requires Follows(mon) && mon'.log == mon.log + [a] && mon'.endpoints == mon.endpoints
    requires mon'.pulled == mon.pulled && Follow(View(mon), a, mon.endpoints) == Some(View(mon'))
    requires mon'.pc.Check? ==> mon'.pc.j <= |mon.endpoints|
    requires mon'.pc.WriteUdc? || AboutToReport(mon'.pc) || (mon'.pc.Check? && !mon'.pc.inLoop) ==> mon'.writeUdc
    requires !AboutToReport(mon.pc) && (AboutToReport(mon'.pc) <==> a.UdcWrite? && a.ok)
    ensures Follows(mon')
  {
    hide View, Follow, FollowAll, PullsUp;
    FollowOneMore(mon.log, a, mon.endpoints, View(mon));
    PullsUpOneMore(mon.log, a);
  }

  /** A step that asks nothing. */
  lemma SilentFollows(mon: Monitor, mon': Monitor)
    requires Follows(mon) && mon'.log == mon.log && mon'.endpoints == mon.endpoints && View(mon') == View(mon)
    requires mon'.pc.Check? ==> mon'.pc.j <= |mon.endpoints|
    requires mon'.pc.WriteUdc? || AboutToReport(mon'.pc) || (mon'.pc.Check? && !mon'.pc.inLoop) ==> mon'.writeUdc
    requires mon'.pulled || AboutToReport(mon'.pc) <==> mon.pulled || AboutToReport(mon.pc)
    ensures Follows(mon')
  {
    hide View, FollowAll, PullsUp;
  }

  lemma LastCheckFollows(mon: Monitor)
    requires Follows(mon) && mon.pc.Check? && mon.pc.j == |mon.endpoints|
    ensures Follows(mon.(pc := if mon.pc.inLoop then Decide(true) else WriteUdc(false)))
  {
    hide FollowAll, PullsUp;
    SilentFollows(mon, mon.(pc := if mon.pc.inLoop then Decide(true) else WriteUdc(false)));
  }

  lemma ReadableFollows(mon: Monitor)
    requires Follows(mon) && mon.pc.Check? && mon.pc.j < |mon.endpoints|
    ensures var a := Access(mon.endpoints[mon.pc.j], true, mon.pc.inLoop);
            Follows(mon.(log := mon.log + [a], pc := Check(mon.pc.inLoop, mon.pc.j + 1)))
  {
    hide FollowAll, PullsUp;
    var a := Access(mon.endpoints[mon.pc.j], true, mon.pc.inLoop);
    AskedFollows(mon, mon.(log := mon.log + [a], pc := Check(mon.pc.inLoop, mon.pc.j + 1)), a);
  }

  lemma AbsentFollows(mon: Monitor)
    requires Follows(mon) && mon.pc.Check? && mon.pc.j < |mon.endpoints|
    ensures var a := Access(mon.endpoints[mon.pc.j], false, mon.pc.inLoop);
            Follows(mon.(log := mon.log + [a], pc := if mon.pc.inLoop then Decide(false) else EpollWait))
  {
    hide FollowAll, PullsUp;
    var a := Access(mon.endpoints[mon.pc.j], false, mon.pc.inLoop);
    AskedFollows(mon, mon.(log := mon.log + [a], pc := if mon.pc.inLoop then Decide(false) else EpollWait), a);
  }

  lemma CheckFollows(s: State, s': State, m: MonitorId)
    requires LocalMonitor(s, m) && s.monitors[m].pc.Check? && PullupStep(s, s', m) && Follows(s.monitors[m])
    ensures Onward(s, s', m)
  {
    var mon := s.monitors[m];
    assert mon.endpoints == s.endpoints && mon.pc.j <= |s.endpoints|;
    hide Follows, LocalMonitor;
    if mon.pc.j == |s.endpoints| {
      LastCheckFollows(mon);
    } else {
      ReadableFollows(mon);
      AbsentFollows(mon);
    }
  }

  lemma WriteFollows(s: State, s': State, m: MonitorId)
    requires m in s.monitors && s.monitors[m].pc.WriteUdc? && PullupStep(s, s', m) && Follows(s.monitors[m])
    ensures Onward(s, s', m)
  {
    hide FollowAll, PullsUp;
    var mon, mon' := s.monitors[m], s'.monitors[m];
    AskedFollows(mon, mon', mon'.log[|mon.log|]);
  }

  lemma ReportFollows(s: State, s': State, m: MonitorId)
    requires m in s.monitors && AboutToReport(s.monitors[m].pc) && PullupStep(s, s', m) && Follows(s.monitors[m])
    ensures Onward(s, s', m)
  {
    hide FollowAll, PullsUp;
    SilentFollows(s.monitors[m], s'.monitors[m]);
  }

  lemma AnswerFollows(s: State, s': State, m: MonitorId)
    requires m in s.monitors && s.monitors[m].pc.EpollWait? && LoopStep(s, s', m) && Follows(s.monitors[m])
    ensures Onward(s, s', m)
  {
    hide FollowAll, PullsUp, Batch;
    if s' != s {
      var mon, mon' := s.monitors[m], s'.monitors[m];
      AskedFollows(mon, mon', Answer(mon'.events));
    }
  }

  lemma ReadFollows(s: State, s': State, m: MonitorId)
    requires m in s.monitors && (s.monitors[m].pc.ReadInotify? || s.monitors[m].pc.ReadFlag?)
    requires LoopStep(s, s', m) && Follows(s.monitors[m])
    ensures Onward(s, s', m)
  {
    hide FollowAll, PullsUp, Batch;
    var mon, mon' := s.monitors[m], s'.monitors[m];
    AskedFollows(mon, mon', if mon.pc.ReadFlag? then Flag(s.flag) else Records(mon'.records));
  }

  lemma DecidedFollows(mon: Monitor)
    requires Follows(mon) && mon.pc.Decide?
    ensures match DecideRecord(mon.pc.present, mon.writeUdc)
            case Rearm => Follows(mon.(writeUdc := true, pc := NextRecord))
            case TryPullup => Follows(mon.(pc := WriteUdc(true)))
            case Ignore => Follows(mon.(pc := NextRecord))
  {
    hide FollowAll, PullsUp;
    match DecideRecord(mon.pc.present, mon.writeUdc)
    case Rearm => SilentFollows(mon, mon.(writeUdc := true, pc := NextRecord));
    case TryPullup => SilentFollows(mon, mon.(pc := WriteUdc(true)));
    case Ignore => SilentFollows(mon, mon.(pc := NextRecord));
  }

  lemma DecideFollows(s: State, s': State, m: MonitorId)
    requires m in s.monitors && s.monitors[m].pc.Decide? && LoopStep(s, s', m) && Follows(s.monitors[m])
    ensures Onward(s, s', m)
  {
    hide Follows, Batch;
    DecidedFollows(s.monitors[m]);
  }

  lemma TakenFollows(mon: Monitor)
    requires Follows(mon) && mon.pc == NextEvent
    ensures Follows(TakeEvent(mon))
  {
    hide FollowAll, PullsUp;
    SilentFollows(mon, TakeEvent(mon));
  }

  lemma NextEventFollows(s: State, s': State, m: MonitorId)
    requires m in s.monitors && s.monitors[m].pc.NextEvent? && LoopStep(s, s', m) && Follows(s.monitors[m])
    ensures Onward(s, s', m)
  {
    hide Follows, Batch;
    TakenFollows(s.monitors[m]);
    assert s' == Put(s, m, TakeEvent(s.monitors[m]));
    hide LoopStep;
  }

  lemma NextRecordFollows(s: State, s': State, m: MonitorId)
    requires m in s.monitors && s.monitors[m].pc.NextRecord? && LoopStep(s, s', m) && Follows(s.monitors[m])
    ensures Onward(s, s', m)
  {
    hide FollowAll, PullsUp, Batch;
    SilentFollows(s.monitors[m], s'.monitors[m]);
  }

  lemma MonitorFollows(s: State, s': State, m: MonitorId)
    requires LocalMonitor(s, m) && MonitorStep(s, s', m) && Follows(s.monitors[m])
    ensures m in s.monitors && Onward(s, s', m)
  {
    hide Follows, Onward, LocalMonitor, Put, Batch;
    if PullupStep(s, s', m) {
      match s.monitors[m].pc
      case Check(_, _) => CheckFollows(s, s', m);
      case WriteUdc(_) => WriteFollows(s, s', m);
      case LockForPullup(_) => ReportFollows(s, s', m);
      case Pullup(_) => ReportFollows(s, s', m);
      case _ => assert false;
    } else {
      match s.monitors[m].pc
      case EpollWait => AnswerFollows(s, s', m);
      case NextEvent => NextEventFollows(s, s', m);
      case ReadInotify => ReadFollows(s, s', m);
      case ReadFlag => ReadFollows(s, s', m);
      case NextRecord => NextRecordFollows(s, s', m);
      case Decide(_) => DecideFollows(s, s', m);
      case _ => assert false;
    }
  }

  lemma NewMonitorFollows(owner: RequestId, endpoints: seq<string>)
    requires endpoints != []
    ensures Follows(NewMonitor(owner, endpoints))
  {
  }

  lemma JoinedFollows(mon: Monitor)
    requires Follows(mon) && mon.pc == Returned
    ensures Follows(mon.(pc := Joined))
  {
    hide FollowAll, PullsUp;
    SilentFollows(mon, mon.(pc := Joined));
  }

  ghost predicate AllFollow(s: State) { forall m :: m in s.monitors ==> Follows(s.monitors[m]) }

  lemma SpawnsWithEndpoints(s: State, r: RequestId)
    requires Local(s, r) && s.requests[r].pc.Spawn?
    ensures s.endpoints != []
  {
    EndpointsExist(s.requests[r].functions);
  }

  lemma RequestKeepsFollows(s: State, s': State, r: RequestId)
    requires ControlInv(s) && AllFollow(s) && RequestStep(s, s', r)
    ensures AllFollow(s')
  {
    assert r in s.requests;
    hide Follows, ControlInv, Local, NewMonitor, TearDownStep, SetupStep, ReportStep, LiveInv, PhaseInv, CallInv,
        Handle;
    ControlOf(s, r);
    RequestKeeps(s, s', r);
    assert Move(s, s', r, s.requests[r], s'.requests[r]);
    forall m | m in s'.monitors ensures Follows(s'.monitors[m]) {
      if m !in s.monitors {
        SpawnsWithEndpoints(s, r);
        NewMonitorFollows(r, s.endpoints);
      } else if s'.monitors[m] != s.monitors[m] {
        JoinedFollows(s.monitors[m]);
      }
    }
  }

  lemma NextKeepsFollows(s: State, s': State)
    requires ControlInv(s) && AllFollow(s) && Next(s, s')
    ensures AllFollow(s')
  {
    hide ControlInv, RequestStep, MonitorStep, Follows, LocalMonitor;
    if r :| RequestStep(s, s', r) {
      RequestKeepsFollows(s, s', r);
    } else if m :| MonitorStep(s, s', m) {
      MonitorControlOf(s, s', m);
      MonitorKeepsOtherMonitors(s, s', m);
      MonitorFollows(s, s', m);
    }
  }

  /** In every run, every monitor has asked what the reference asks, in that order, and nothing else. */
  lemma {:induction false} MonitorsFollow(states: seq<State>, i: nat)
    requires Run(states) && i < |states|
    ensures AllFollow(states[i])
  {
    hide ControlInv, Follows, Next;
    if i > 0 {
      MonitorsFollow(states, i - 1);
      ControlAlways(states, i - 1);
      NextKeepsFollows(states[i - 1], states[i]);
    }
  }

  // ---------- over a run ----------

  lemma {:induction false} HistoryGrows(states: seq<State>, i: nat, j: nat, m: MonitorId)
    requires Run(states) && i <= j < |states| && m in states[i].monitors
    ensures m in states[j].monitors && states[i].monitors[m].log <= states[j].monitors[m].log
    ensures states[j].monitors[m].endpoints == states[i].monitors[m].endpoints
  {
    hide Next, ControlInv, AllFollow;
    if i < j {
      HistoryGrows(states, i, j - 1, m);
      MonitorsFollow(states, j - 1);
      ControlAlways(states, j - 1);
      StepGrows(states[j - 1], states[j], m);
    }
  }

  lemma StepGrows(s: State, s': State, m: MonitorId)
    requires ControlInv(s) && AllFollow(s) && Next(s, s') && m in s.monitors
    ensures m in s'.monitors && s.monitors[m].log <= s'.monitors[m].log
    ensures s'.monitors[m].endpoints == s.monitors[m].endpoints
  {
    hide ControlInv, Arrive, RequestStep, MonitorStep, LocalMonitor, Local, Follows;
    if r :| RequestStep(s, s', r) {
      hide LiveInv, PhaseInv, CallInv, Handle;
      StepperExists(s, s', r);
      ControlOf(s, r);
      RequestKeeps(s, s', r);
    } else if n :| MonitorStep(s, s', n) {
      MonitorControlOf(s, s', n);
      MonitorKeepsOtherMonitors(s, s', n);
      MonitorFollows(s, s', n);
    } else {
      var r, functions, hasCallback :| Arrive(s, s', r, functions, hasCallback);
      ArriveKeepsMonitors(s, s', r, functions, hasCallback);
    }
  }

  lemma StepperExists(s: State, s': State, r: RequestId)
    requires RequestStep(s, s', r)
    ensures r in s.requests
  {
  }

  lemma ArriveKeepsMonitors(s: State, s': State, r: RequestId, functions: Functions, hasCallback: bool)
    requires Arrive(s, s', r, functions, hasCallback)
    ensures s'.monitors == s.monitors
  {
  }

  /** A monitor that has found every endpoint readable, and has not pulled up since it last saw one absent,
      writes the UDC: that is the next thing it does. */
  lemma ArmedPassIsWritten(states: seq<State>, i: nat, j: nat, m: MonitorId)
    requires Run(states) && i <= j < |states| && m in states[i].monitors
    requires var mon := states[i].monitors[m];
             && (mon.pc == Decide(true) || (mon.pc.Check? && mon.pc.j == |mon.endpoints|)) && Armed(mon.log)
    ensures m in states[j].monitors
    ensures var before, after := states[i].monitors[m], states[j].monitors[m];
            |after.log| > |before.log| ==>
              var a := after.log[|before.log|]; a.UdcWrite? && a.inLoop == (before.pc.Check? ==> before.pc.inLoop)
  {
    hide Next, FollowAll, EdgeTriggered, Witness, Armed;
    HistoryGrows(states, i, j, m);
    MonitorsFollow(states, i);
    MonitorsFollow(states, j);
    LogsAlways(states, i);
    var before, after := states[i].monitors[m], states[j].monitors[m];
    assert Follows(before) && Follows(after) && Good(before);
    assert before.writeUdc;
    if |after.log| > |before.log| {
      assert after.log[..|before.log|] == before.log;
      StepAt(after.log, |before.log|, after.endpoints);
    }
  }
}
