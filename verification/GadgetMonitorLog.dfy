/** What the log of a monitor thread shows: which checks precede a pull-up, and that the loop pulls
    up on edges only. */
module GadgetMonitorLog {
  import opened GadgetFunctions
  import opened GadgetProtocol
  import opened GadgetInvariants

  // ---------- a full check, then a write ----------

  /** The first `n` endpoints were found readable one after the other, starting at `from`. */
  predicate Pass(log: seq<Action>, endpoints: seq<string>, inLoop: bool, from: nat, n: nat) {
    && n <= |endpoints| && from + n <= |log|
    && forall k :: 0 <= k < n ==> log[from + k] == Access(endpoints[k], true, inLoop)
  }

  /** One pass found every endpoint readable, and the very next action wrote the UDC successfully. */
  ghost predicate Witness(log: seq<Action>, endpoints: seq<string>) {
    exists from: nat, inLoop ::
      && Pass(log, endpoints, inLoop, from, |endpoints|)
      && from + |endpoints| < |log| && log[from + |endpoints|] == UdcWrite(true, inLoop)
  }

  lemma WitnessGrows(log: seq<Action>, endpoints: seq<string>, a: Action)
    requires Witness(log, endpoints)
    ensures Witness(log + [a], endpoints)
  {
    var from: nat, inLoop :| Pass(log, endpoints, inLoop, from, |endpoints|)
      && from + |endpoints| < |log| && log[from + |endpoints|] == UdcWrite(true, inLoop);
    assert Pass(log + [a], endpoints, inLoop, from, |endpoints|);
  }

  // ---------- edges ----------

  predicate LoopPullup(a: Action) { a == UdcWrite(true, true) }

  predicate LoopAbsent(a: Action) { a.Access? && !a.readable && a.inLoop }

  /** The loop may write the UDC: it has not pulled up since it last saw an endpoint absent. */
  function Armed(log: seq<Action>): bool {
    if log == [] then true
    else
      var last := log[|log| - 1];
      if LoopPullup(last) then false
      else if LoopAbsent(last) then true
      else Armed(log[..|log| - 1])
  }

  predicate EdgeTriggered(log: seq<Action>) {
    forall k :: 0 <= k < |log| && log[k].UdcWrite? && log[k].inLoop ==> Armed(log[..k])
  }

  lemma EdgeAppend(log: seq<Action>, a: Action)
    requires EdgeTriggered(log)
    requires a.UdcWrite? && a.inLoop ==> Armed(log)
    ensures EdgeTriggered(log + [a])
    ensures Armed(log + [a]) == if LoopPullup(a) then false else if LoopAbsent(a) then true else Armed(log)
  {
    assert (log + [a])[..|log|] == log;
    forall k | 0 <= k < |log + [a]| && (log + [a])[k].UdcWrite? && (log + [a])[k].inLoop
      ensures Armed((log + [a])[..k])
    {
      if k < |log| {
        assert (log + [a])[..k] == log[..k];
      }
    }
  }

  /** In terms of positions: between a successful loop pull-up and any later loop write, some
      endpoint was found absent. */
  lemma EdgeBetween(log: seq<Action>, i: nat, k: nat)
    requires EdgeTriggered(log) && i < k < |log|
    requires LoopPullup(log[i]) && log[k].UdcWrite? && log[k].inLoop
    ensures exists j :: i < j < k && LoopAbsent(log[j])
  {
    assert log[..k][i] == log[i];
    ArmedSince(log[..k], i);
    var j :| i < j < |log[..k]| && LoopAbsent(log[..k][j]);
    assert log[..k][j] == log[j];
  }

  lemma {:induction false} ArmedSince(log: seq<Action>, i: nat)
    requires Armed(log) && i < |log| && LoopPullup(log[i])
    ensures exists j :: i < j < |log| && LoopAbsent(log[j])
  {
    var n := |log| - 1;
    if !LoopAbsent(log[n]) {
      assert i < n;
      ArmedSince(log[..n], i);
      var j :| i < j < |log[..n]| && LoopAbsent(log[..n][j]);
      assert log[..n][j] == log[j];
    }
  }

  function CountActions(log: seq<Action>, p: Action -> bool): nat {
    if log == [] then 0 else CountActions(log[..|log| - 1], p) + if p(log[|log| - 1]) then 1 else 0
  }

  /** The loop pulls up at most once more than it sees an endpoint absent. */
  lemma {:induction false} PullupsAreBounded(log: seq<Action>)
    requires EdgeTriggered(log)
    ensures CountActions(log, LoopPullup) + (if Armed(log) then 1 else 0) <= CountActions(log, LoopAbsent) + 1
  {
    if log != [] {
      var n := |log| - 1;
      assert forall k :: 0 <= k < n ==> log[..n][..k] == log[..k] && log[..n][k] == log[k];
      PullupsAreBounded(log[..n]);
    }
  }

  // ---------- the invariant ----------

  ghost predicate LogInv(mon: Monitor) {
    var log, n := mon.log, |mon.endpoints|;
    && EdgeTriggered(log)
    && (mon.pulled ==> Witness(log, mon.endpoints))
    && match mon.pc
       case Check(inLoop, j) => j <= n && j <= |log| && Pass(log, mon.endpoints, inLoop, |log| - j, j)
         && Armed(log) == mon.writeUdc
       case Decide(present) =>
         if present then n <= |log| && Pass(log, mon.endpoints, true, |log| - n, n) && Armed(log) == mon.writeUdc
         else Armed(log)
       case WriteUdc(inLoop) =>
         n <= |log| && Pass(log, mon.endpoints, inLoop, |log| - n, n) && Armed(log) && mon.writeUdc
       case LockForPullup(inLoop) => Witness(log, mon.endpoints) && Armed(log) == !inLoop && mon.writeUdc
       case Pullup(inLoop) => Witness(log, mon.endpoints) && Armed(log) == !inLoop && mon.writeUdc
       case _ => Armed(log) == mon.writeUdc
  }

  /** During the first check nothing has been pulled up in the loop. */
  predicate FirstCheck(mon: Monitor) {
    (mon.pc == WriteUdc(false) || mon.pc == LockForPullup(false) || mon.pc == Pullup(false)
     || (mon.pc.Check? && !mon.pc.inLoop)) ==> mon.writeUdc
  }

  ghost predicate Good(mon: Monitor) { LogInv(mon) && FirstCheck(mon) }

  lemma CheckDone(mon: Monitor)
    requires Good(mon) && mon.pc.Check? && mon.pc.j == |mon.endpoints|
    ensures Good(mon.(pc := if mon.pc.inLoop then Decide(true) else WriteUdc(false)))
    ensures mon.pc.inLoop || mon.writeUdc
  {
    hide EdgeTriggered, Witness, Armed;
  }

  lemma CheckReadable(mon: Monitor, a: Action)
    requires Good(mon) && mon.pc.Check? && mon.pc.j < |mon.endpoints|
    requires a == Access(mon.endpoints[mon.pc.j], true, mon.pc.inLoop)
    ensures Good(mon.(log := mon.log + [a], pc := Check(mon.pc.inLoop, mon.pc.j + 1)))
  {
    hide EdgeTriggered, Witness, Armed;
    EdgeAppend(mon.log, a);
    if mon.pulled { WitnessGrows(mon.log, mon.endpoints, a); }
    var j, log' := mon.pc.j, mon.log + [a];
    forall k | 0 <= k < j + 1
      ensures log'[|log'| - (j + 1) + k] == Access(mon.endpoints[k], true, mon.pc.inLoop)
    {
      assert k < j ==> log'[|mon.log| - j + k] == mon.log[|mon.log| - j + k];
    }
  }

  lemma CheckAbsent(mon: Monitor, a: Action)
    requires Good(mon) && mon.pc.Check? && mon.pc.j < |mon.endpoints|
    requires a == Access(mon.endpoints[mon.pc.j], false, mon.pc.inLoop)
    ensures Good(mon.(log := mon.log + [a], pc := if mon.pc.inLoop then Decide(false) else EpollWait))
  {
    hide EdgeTriggered, Witness, Armed;
    EdgeAppend(mon.log, a);
    if mon.pulled { WitnessGrows(mon.log, mon.endpoints, a); }
  }

  lemma CheckKeepsLog(s: State, s': State, m: MonitorId)
    requires LocalMonitor(s, m) && s.monitors[m].pc.Check? && PullupStep(s, s', m) && Good(s.monitors[m])
    ensures m in s'.monitors && Good(s'.monitors[m])
  {
    var mon := s.monitors[m];
    var j := mon.pc.j;
    assert mon.endpoints == s.endpoints;
    assert j <= |s.endpoints|;
    hide Good, LocalMonitor;
    if j == |s.endpoints| {
      CheckDone(mon);
    } else {
      CheckReadable(mon, Access(s.endpoints[j], true, mon.pc.inLoop));
      CheckAbsent(mon, Access(s.endpoints[j], false, mon.pc.inLoop));
    }
  }

  lemma WriteKeepsLog(s: State, s': State, m: MonitorId)
    requires LocalMonitor(s, m) && s.monitors[m].pc.WriteUdc? && PullupStep(s, s', m)
    requires Good(s.monitors[m])
    ensures m in s'.monitors && Good(s'.monitors[m])
  {
    var mon, mon' := s.monitors[m], s'.monitors[m];
    var inLoop := mon.pc.inLoop;
    var a := mon'.log[|mon.log|];
    assert mon'.log == mon.log + [a];
    EdgeAppend(mon.log, a);
    if mon.pulled { WitnessGrows(mon.log, mon.endpoints, a); }
    if a.ok {
      assert Pass(mon'.log, mon.endpoints, inLoop, |mon.log| - |mon.endpoints|, |mon.endpoints|);
      assert Witness(mon'.log, mon.endpoints);
    }
  }

  lemma LockKeepsLog(s: State, s': State, m: MonitorId)
    requires LocalMonitor(s, m) && (s.monitors[m].pc.LockForPullup? || s.monitors[m].pc.Pullup?) && PullupStep(s, s', m)
    requires Good(s.monitors[m])
    ensures m in s'.monitors && Good(s'.monitors[m])
  {
    hide EdgeTriggered, Witness;
  }

  predicate BetweenChecks(pc: MonitorPc) {
    pc.EpollWait? || pc.NextEvent? || pc.ReadInotify? || pc.ReadFlag? || pc.NextRecord? || pc.Returned?
  }

  /** Waiting and reading descriptors leave the checks and the writes as they are. */
  lemma ReadingIsGood(mon: Monitor, mon': Monitor, a: Action)
    requires Good(mon) && BetweenChecks(mon.pc) && BetweenChecks(mon'.pc)
    requires mon'.log == mon.log + [a] && !a.Access? && !a.UdcWrite?
    requires mon'.endpoints == mon.endpoints && mon'.pulled == mon.pulled && mon'.writeUdc == mon.writeUdc
    ensures Good(mon')
  {
    hide EdgeTriggered, Witness, Armed;
    EdgeAppend(mon.log, a);
    if mon.pulled { WitnessGrows(mon.log, mon.endpoints, a); }
  }

  lemma WaitKeepsLog(s: State, s': State, m: MonitorId)
    requires m in s.monitors && s.monitors[m].pc.EpollWait? && LoopStep(s, s', m) && Good(s.monitors[m])
    ensures m in s'.monitors && Good(s'.monitors[m])
  {
    hide Good, Batch;
    if s' != s {
      var mon, mon' := s.monitors[m], s'.monitors[m];
      ReadingIsGood(mon, mon', Answer(mon'.events));
    }
  }

  lemma NextEventKeepsLog(s: State, s': State, m: MonitorId)
    requires m in s.monitors && s.monitors[m].pc.NextEvent? && LoopStep(s, s', m) && Good(s.monitors[m])
    ensures m in s'.monitors && Good(s'.monitors[m])
  {
    hide EdgeTriggered, Witness, Armed;
  }

  lemma ReadKeepsLog(s: State, s': State, m: MonitorId)
    requires m in s.monitors && (s.monitors[m].pc.ReadInotify? || s.monitors[m].pc.ReadFlag?)
    requires LoopStep(s, s', m) && Good(s.monitors[m])
    ensures m in s'.monitors && Good(s'.monitors[m])
  {
    hide Good;
    var mon, mon' := s.monitors[m], s'.monitors[m];
    ReadingIsGood(mon, mon', if mon.pc.ReadFlag? then Flag(s.flag) else Records(mon'.records));
  }

  lemma RecordKeepsLog(s: State, s': State, m: MonitorId)
    requires m in s.monitors && s.monitors[m].pc.NextRecord? && LoopStep(s, s', m) && Good(s.monitors[m])
    ensures m in s'.monitors && Good(s'.monitors[m])
  {
    hide EdgeTriggered, Witness, Armed;
  }

  lemma DecideKeepsLog(s: State, s': State, m: MonitorId)
    requires m in s.monitors && s.monitors[m].pc.Decide? && LoopStep(s, s', m) && Good(s.monitors[m])
    ensures m in s'.monitors && Good(s'.monitors[m])
  {
    hide EdgeTriggered, Witness, Armed;
  }

  lemma MonitorKeepsLog(s: State, s': State, m: MonitorId)
    requires LocalMonitor(s, m) && MonitorStep(s, s', m) && Good(s.monitors[m])
    ensures m in s'.monitors && Good(s'.monitors[m])
  {
    hide Good, LocalMonitor, Put, Batch, Armed;
    if PullupStep(s, s', m) {
      match s.monitors[m].pc
      case Check(_, _) => CheckKeepsLog(s, s', m);
      case WriteUdc(_) => WriteKeepsLog(s, s', m);
      case LockForPullup(_) => LockKeepsLog(s, s', m);
      case Pullup(_) => LockKeepsLog(s, s', m);
      case _ => assert false;
    } else {
      match s.monitors[m].pc
      case EpollWait => WaitKeepsLog(s, s', m);
      case NextEvent => NextEventKeepsLog(s, s', m);
      case ReadInotify => ReadKeepsLog(s, s', m);
      case ReadFlag => ReadKeepsLog(s, s', m);
      case NextRecord => RecordKeepsLog(s, s', m);
      case Decide(_) => DecideKeepsLog(s, s', m);
      case _ => assert false;
    }
  }

  lemma NewMonitorIsGood(owner: RequestId, endpoints: seq<string>)
    ensures Good(NewMonitor(owner, endpoints))
  {
  }

  lemma JoinedIsGood(mon: Monitor)
    requires Good(mon) && mon.pc == Returned
    ensures Good(mon.(pc := Joined))
  {
    hide EdgeTriggered, Witness, Armed;
  }

  ghost predicate LogsInv(s: State) {
    forall m :: m in s.monitors ==> Good(s.monitors[m])
  }

  lemma RequestKeepsLogs(s: State, s': State, r: RequestId)
    requires ControlInv(s) && LogsInv(s) && RequestStep(s, s', r)
    ensures LogsInv(s')
  {
    hide Good, ControlInv, Local, NewMonitor, TearDownStep, SetupStep, ReportStep, LiveInv, PhaseInv, CallInv, Handle;
    ControlOf(s, r);
    RequestKeeps(s, s', r);
    assert Move(s, s', r, s.requests[r], s'.requests[r]);
    forall m | m in s'.monitors ensures Good(s'.monitors[m]) {
      if m !in s.monitors {
        NewMonitorIsGood(r, s.endpoints);
      } else if s'.monitors[m] != s.monitors[m] {
        JoinedIsGood(s.monitors[m]);
      }
    }
  }

  lemma NextKeepsLogs(s: State, s': State)
    requires ControlInv(s) && LogsInv(s) && Next(s, s')
    ensures LogsInv(s')
  {
    hide ControlInv, RequestStep, MonitorStep, Good, LocalMonitor;
    if r :| RequestStep(s, s', r) {
      RequestKeepsLogs(s, s', r);
    } else if m :| MonitorStep(s, s', m) {
      MonitorControlOf(s, s', m);
      MonitorKeepsOtherMonitors(s, s', m);
      MonitorKeepsLog(s, s', m);
    }
  }

  lemma MonitorKeepsOtherMonitors(s: State, s': State, m: MonitorId)
    requires LocalMonitor(s, m) && MonitorStep(s, s', m)
    ensures m in s.monitors && m in s'.monitors && s'.monitors == s.monitors[m := s'.monitors[m]]
  {
    hide LocalMonitor, MonitorStep, LiveInv;
    MonitorStepKeeps(s, s', m);
  }

  lemma {:induction false} LogsAlways(states: seq<State>, i: nat)
    requires Run(states) && i < |states|
    ensures LogsInv(states[i])
  {
    hide ControlInv, Good, Next;
    if i > 0 {
      LogsAlways(states, i - 1);
      ControlAlways(states, i - 1);
      NextKeepsLogs(states[i - 1], states[i]);
    }
  }
}
