/** What every step of the Type-C service keeps, and what follows for every run. */
module TypeCTheorems {
  import opened Wrappers
  import opened TypeCProtocol

  // ---------- steps of switchRole ----------

  /** What one call may assume. */
  ghost predicate Local(s: State, i: Id) {
    && i in s.calls && CallInv(s, i)
    && (HasRole(s.calls[i].pc) <==> s.roleLock == Some(Switch(i)))
    && (HasPartner(s.calls[i].pc) <==> s.partnerLock == Some(Switch(i)))
    && (HasCallback(s.calls[i].pc) <==> s.callbackLock == Some(Switch(i)))
  }

  predicate LockMove(before: Option<Who>, after: Option<Who>, who: Who, had: bool, has: bool) {
    && after == (if has then Some(who) else if had then None else before)
    && (has && !had ==> before == None)
  }

  /** A thread that held `was` for the callback holds `now`: it has looked, told, or neither. */
  predicate TellMove(s: State, s': State, was: seq<Told>, now: seq<Told>) {
    if was == now then s'.looked == s.looked && s'.told == s.told
    else if was == [] then s'.looked == s.looked + now && s'.told == s.told
    else now == [] && s'.looked == s.looked && s'.told == s.told + was
  }

  ghost predicate CallMove(s: State, s': State, i: Id, c: Call, c': Call) {
    && s'.calls == s.calls[i := c'] && c'.mode == c.mode
    && s'.visitors == s.visitors && s'.worker == s.worker && s'.registered == s.registered && s'.ups == s.ups
    && LockMove(s.roleLock, s'.roleLock, Switch(i), HasRole(c.pc), HasRole(c'.pc))
    && LockMove(s.partnerLock, s'.partnerLock, Switch(i), HasPartner(c.pc), HasPartner(c'.pc))
    && LockMove(s.callbackLock, s'.callbackLock, Switch(i), HasCallback(c.pc), HasCallback(c'.pc))
    && s'.waiters == (if c'.pc.Waiting? then s.waiters + {i} else s.waiters - {i})
    && (s'.partnerUp == s.partnerUp || (HasRole(c.pc) && HasPartner(c.pc) && !s'.partnerUp))
    && (s'.portWrites == s.portWrites
        || (HasRole(c.pc) && s'.portWrites == s.portWrites + [PortWrite(Switch(i), c.pc.Dual?, s.roleLock)]))
    && (c.pc.Dual? ==> c.mode && Decided(c'.pc) && !c'.pc.ok)
    && s'.vacant == s.vacant && TellMove(s, s', CallTelling(i, c.pc), CallTelling(i, c'.pc))
    && (Decided(c.pc) ==> Decided(c'.pc) && c'.pc.ok == c.pc.ok)
  }

  ghost predicate CallKept(s: State, s': State, i: Id)
    requires i in s.calls
  {
    Local(s', i) && CallMove(s, s', i, s.calls[i], s'.calls[i])
  }

  lemma OpenNodeKeeps(s: State, s': State, i: Id)
    requires Local(s, i) && s.calls[i].pc.OpenNode? && ModeStep(s, s', i)
    ensures CallKept(s, s', i)
  {
  }

  lemma LockPartnerKeeps(s: State, s': State, i: Id)
    requires Local(s, i) && s.calls[i].pc.LockPartner? && ModeStep(s, s', i)
    ensures CallKept(s, s', i)
  {
  }

  lemma ResetFlagKeeps(s: State, s': State, i: Id)
    requires Local(s, i) && s.calls[i].pc.ResetFlag? && ModeStep(s, s', i)
    ensures CallKept(s, s', i)
  {
  }

  lemma WritePortKeeps(s: State, s': State, i: Id)
    requires Local(s, i) && s.calls[i].pc.WritePort? && ModeStep(s, s', i)
    ensures CallKept(s, s', i)
  {
  }

  lemma StartWaitKeeps(s: State, s': State, i: Id)
    requires Local(s, i) && s.calls[i].pc.StartWait? && ModeStep(s, s', i)
    ensures CallKept(s, s', i)
  {
  }

  lemma WaitingKeeps(s: State, s': State, i: Id)
    requires Local(s, i) && s.calls[i].pc.Waiting? && ModeStep(s, s', i)
    ensures CallKept(s, s', i)
  {
  }

  lemma RelockKeeps(s: State, s': State, i: Id)
    requires Local(s, i) && s.calls[i].pc.Relock? && ModeStep(s, s', i)
    ensures CallKept(s, s', i)
  {
  }

  lemma TestFlagKeeps(s: State, s': State, i: Id)
    requires Local(s, i) && s.calls[i].pc.TestFlag? && ModeStep(s, s', i)
    ensures CallKept(s, s', i)
  {
  }

  lemma UnlockPartnerKeeps(s: State, s': State, i: Id)
    requires Local(s, i) && s.calls[i].pc.UnlockPartner? && ModeStep(s, s', i)
    ensures CallKept(s, s', i)
  {
  }

  lemma TriedMore(writes: seq<PortWrite>, w: PortWrite, i: Id)
    ensures TriedDual(writes + [w], i) <==> TriedDual(writes, i) || (w.who == Switch(i) && w.dual)
  {
    assert (writes + [w])[|writes|] == w;
    if n :| 0 <= n < |writes| && writes[n].who == Switch(i) && writes[n].dual {
      assert (writes + [w])[n] == writes[n];
    }
  }

  lemma DualKeeps(s: State, s': State, i: Id)
    requires Local(s, i) && s.calls[i].pc.Dual? && ModeStep(s, s', i)
    ensures CallKept(s, s', i)
  {
    hide TriedDual;
    TriedMore(s.portWrites, PortWrite(Switch(i), true, s.roleLock), i);
  }

  lemma ModeStepKeeps(s: State, s': State, i: Id)
    requires i in s.calls && Local(s, i) && ModeStep(s, s', i)
    ensures CallKept(s, s', i)
  {
    hide Local, CallKept, Put, LogWrite;
    match s.calls[i].pc
    case OpenNode => OpenNodeKeeps(s, s', i);
    case LockPartner => LockPartnerKeeps(s, s', i);
    case ResetFlag => ResetFlagKeeps(s, s', i);
    case WritePort => WritePortKeeps(s, s', i);
    case StartWait => StartWaitKeeps(s, s', i);
    case Waiting => WaitingKeeps(s, s', i);
    case Relock(_) => RelockKeeps(s, s', i);
    case TestFlag(_) => TestFlagKeeps(s, s', i);
    case UnlockPartner(_) => UnlockPartnerKeeps(s, s', i);
    case Dual => DualKeeps(s, s', i);
    case _ => assert false;
  }

  lemma LockRoleKeeps(s: State, s': State, i: Id)
    requires Local(s, i) && s.calls[i].pc.LockRole? && RoleStep(s, s', i)
    ensures CallKept(s, s', i)
  {
  }

  lemma WriteRoleKeeps(s: State, s': State, i: Id)
    requires Local(s, i) && s.calls[i].pc.WriteRole? && RoleStep(s, s', i)
    ensures CallKept(s, s', i)
  {
  }

  lemma LockCallbackKeeps(s: State, s': State, i: Id)
    requires Local(s, i) && s.calls[i].pc.LockCallback? && RoleStep(s, s', i)
    ensures CallKept(s, s', i)
  {
  }

  lemma TestCallbackKeeps(s: State, s': State, i: Id)
    requires Local(s, i) && s.calls[i].pc.TestCallback? && RoleStep(s, s', i)
    ensures CallKept(s, s', i)
  {
  }

  lemma NotifyKeeps(s: State, s': State, i: Id)
    requires Local(s, i) && s.calls[i].pc.Notify? && RoleStep(s, s', i)
    ensures CallKept(s, s', i)
  {
  }

  lemma UnlockCallbackKeeps(s: State, s': State, i: Id)
    requires Local(s, i) && s.calls[i].pc.UnlockCallback? && RoleStep(s, s', i)
    ensures CallKept(s, s', i)
  {
  }

  lemma UnlockRoleKeeps(s: State, s': State, i: Id)
    requires Local(s, i) && s.calls[i].pc.UnlockRole? && RoleStep(s, s', i)
    ensures CallKept(s, s', i)
  {
  }

  lemma RoleStepKeeps(s: State, s': State, i: Id)
    requires i in s.calls && Local(s, i) && RoleStep(s, s', i)
    ensures CallKept(s, s', i)
  {
    hide Local, CallKept, Put, LogWrite;
    match s.calls[i].pc
    case LockRole => LockRoleKeeps(s, s', i);
    case WriteRole => WriteRoleKeeps(s, s', i);
    case LockCallback(_) => LockCallbackKeeps(s, s', i);
    case TestCallback(_) => TestCallbackKeeps(s, s', i);
    case Notify(_) => NotifyKeeps(s, s', i);
    case UnlockCallback(_) => UnlockCallbackKeeps(s, s', i);
    case UnlockRole(_) => UnlockRoleKeeps(s, s', i);
    case _ => assert false;
  }

  lemma CallMoveKeepsLocks(s: State, s': State, i: Id)
    requires LockInv(s) && i in s.calls && CallKept(s, s', i)
    ensures LockInv(s')
  {
    hide CallInv, HasRole, HasPartner, HasCallback, VisitorHasCallback,
        WorkerHasRole, WorkerHasPartner, WorkerHasCallback;
  }

  lemma CallMoveKeepsRest(s: State, s': State, i: Id)
    requires OtherInv(s) && LockInv(s) && i in s.calls && CallKept(s, s', i)
    ensures OtherInv(s')
  {
    hide CallInv;
    assert HasRole(s.calls[i].pc) ==> s.roleLock == Some(Switch(i));
  }

  lemma OneMoreWrite(writes: seq<PortWrite>, w: PortWrite)
    ensures WorkerWrites(writes + [w]) == WorkerWrites(writes) + if w.who == Worker then 1 else 0
  {
    assert (writes + [w])[..|writes|] == writes;
  }

  lemma CallTells(s: State, s': State, i: Id)
    requires LockInv(s) && LockInv(s') && i in s.calls && CallKept(s, s', i)
    requires s.looked == s.told + Telling(s)
    ensures s'.looked == s'.told + Telling(s')
  {
    var pc, pc' := s.calls[i].pc, s'.calls[i].pc;
    assert s.callbackLock == Some(Switch(i)) <==> HasCallback(pc);
    assert s'.callbackLock == Some(Switch(i)) <==> HasCallback(pc');
    hide LockInv, CallInv, Local;
  }

  lemma CallMoveKeepsTells(s: State, s': State, i: Id)
    requires LockInv(s) && LockInv(s') && TellInv(s) && i in s.calls && CallKept(s, s', i)
    ensures TellInv(s')
  {
    CallTells(s, s', i);
    OneMoreWrite(s.portWrites, PortWrite(Switch(i), s.calls[i].pc.Dual?, s.roleLock));
    hide LockInv, CallInv, Local, Telling, WorkerWrites;
  }

  lemma CallMoveKeepsOthers(s: State, s': State, i: Id, x: Id)
    requires LockInv(s) && i in s.calls && CallKept(s, s', i) && x in s.calls && x != i && CallInv(s, x)
    ensures x in s'.calls && CallInv(s', x)
  {
    hide Local, TriedDual;
    TriedMore(s.portWrites, PortWrite(Switch(i), s.calls[i].pc.Dual?, s.roleLock), x);
    assert HasRole(s.calls[x].pc) ==> s.roleLock == Some(Switch(x));
    assert HasRole(s.calls[i].pc) ==> s.roleLock == Some(Switch(i));
  }

  lemma CallKeepsInv(s: State, s': State, i: Id)
    requires Inv(s) && CallStep(s, s', i)
    ensures Inv(s')
  {
    assert Local(s, i);
    hide LockInv, OtherInv, TellInv, CallInv, CallMove, ModeStep, RoleStep;
    if ModeStep(s, s', i) { ModeStepKeeps(s, s', i); } else { RoleStepKeeps(s, s', i); }
    CallMoveKeepsLocks(s, s', i);
    CallMoveKeepsRest(s, s', i);
    CallMoveKeepsTells(s, s', i);
    CallMoveKeys(s, s', i);
    forall x | x in s'.calls ensures CallInv(s', x) {
      if x != i { CallMoveKeepsOthers(s, s', i, x); }
    }
  }

  lemma CallMoveKeys(s: State, s': State, i: Id)
    requires i in s.calls && CallKept(s, s', i)
    ensures s'.calls.Keys == s.calls.Keys
  {
  }

  // ---------- the other steps ----------

  lemma ArriveKeepsLocks(s: State, s': State, i: Id, mode: bool)
    requires LockInv(s) && OtherInv(s) && Arrive(s, s', i, mode)
    ensures LockInv(s') && OtherInv(s')
  {
  }

  lemma ArriveKeepsTells(s: State, s': State, i: Id, mode: bool)
    requires LockInv(s) && TellInv(s) && Arrive(s, s', i, mode)
    ensures TellInv(s')
  {
    assert s.callbackLock != Some(Switch(i));
    hide LockInv, WorkerWrites;
  }

  lemma ArriveKeepsCall(s: State, s': State, i: Id, mode: bool, x: Id)
    requires OtherInv(s) && Arrive(s, s', i, mode) && x in s'.calls && (x in s.calls ==> CallInv(s, x))
    ensures CallInv(s', x)
  {
  }

  lemma ArriveKeepsInv(s: State, s': State, i: Id, mode: bool)
    requires Inv(s) && Arrive(s, s', i, mode)
    ensures Inv(s')
  {
    hide LockInv, OtherInv, TellInv, CallInv;
    ArriveKeepsLocks(s, s', i, mode);
    ArriveKeepsTells(s, s', i, mode);
    forall x | x in s'.calls ensures CallInv(s', x) { ArriveKeepsCall(s, s', i, mode, x); }
  }

  lemma ArriveVisitorKeepsInv(s: State, s': State, v: Id, visitor: Visitor)
    requires Inv(s) && ArriveVisitor(s, s', v, visitor)
    ensures Inv(s')
  {
    hide HasRole, HasPartner, HasCallback, CallInv, TellInv;
    ArriveVisitorKeepsTells(s, s', v, visitor);
    forall i | i in s'.calls ensures CallInv(s', i) { ArriveVisitorKeepsCall(s, s', v, visitor, i); }
  }

  lemma ArriveVisitorKeepsTells(s: State, s': State, v: Id, visitor: Visitor)
    requires LockInv(s) && TellInv(s) && ArriveVisitor(s, s', v, visitor)
    ensures TellInv(s')
  {
    assert s.callbackLock != Some(Visit(v));
    hide LockInv, WorkerWrites;
  }

  lemma ArriveVisitorKeepsCall(s: State, s': State, v: Id, visitor: Visitor, i: Id)
    requires ArriveVisitor(s, s', v, visitor) && i in s.calls && CallInv(s, i)
    ensures CallInv(s', i)
  {
  }

  ghost predicate VisitorMove(s: State, s': State, v: Id, x: Visitor, x': Visitor) {
    && s'.visitors == s.visitors[v := x']
    && s'.calls == s.calls && s'.worker == s.worker && s'.waiters == s.waiters
    && s'.roleLock == s.roleLock && s'.partnerLock == s.partnerLock
    && s'.partnerUp == s.partnerUp && s'.ups == s.ups && s'.portWrites == s.portWrites && s'.vacant == s.vacant
    && TellMove(s, s', VisitorTelling(v, x.pc), VisitorTelling(v, x'.pc))
    && LockMove(s.callbackLock, s'.callbackLock, Visit(v), VisitorHasCallback(x.pc), VisitorHasCallback(x'.pc))
    && (s'.registered == s.registered || (VisitorHasCallback(x.pc) && x'.pc == Leaving))
    && (x'.pc == Calling ==> s.registered)
  }

  lemma VisitorMoves(s: State, s': State, v: Id)
    requires VisitorStep(s, s', v)
    requires VisitorHasCallback(s.visitors[v].pc) <==> s.callbackLock == Some(Visit(v))
    ensures v in s.visitors && v in s'.visitors && VisitorMove(s, s', v, s.visitors[v], s'.visitors[v])
  {
  }

  lemma VisitorKeepsLocks(s: State, s': State, v: Id, x': Visitor)
    requires LockInv(s) && v in s.visitors && VisitorMove(s, s', v, s.visitors[v], x')
    ensures LockInv(s')
  {
  }

  /** Only the holder of mLock changes the callback, so nobody else is about to use it. */
  lemma VisitorKeepsRest(s: State, s': State, v: Id, x': Visitor)
    requires LockInv(s) && OtherInv(s) && v in s.visitors && VisitorMove(s, s', v, s.visitors[v], x')
    ensures OtherInv(s')
  {
  }

  lemma VisitorKeepsTells(s: State, s': State, v: Id, x': Visitor)
    requires LockInv(s) && LockInv(s') && TellInv(s) && v in s.visitors
    requires VisitorMove(s, s', v, s.visitors[v], x')
    ensures TellInv(s')
  {
    assert s.callbackLock == Some(Visit(v)) <==> VisitorHasCallback(s.visitors[v].pc);
    assert s'.callbackLock == Some(Visit(v)) <==> VisitorHasCallback(x'.pc);
    hide LockInv, WorkerWrites;
  }

  lemma VisitorKeepsCall(s: State, s': State, v: Id, x': Visitor, i: Id)
    requires LockInv(s) && v in s.visitors && VisitorMove(s, s', v, s.visitors[v], x')
    requires i in s.calls && CallInv(s, i)
    ensures CallInv(s', i)
  {
    assert HasCallback(s.calls[i].pc) ==> s.callbackLock == Some(Switch(i));
    assert VisitorHasCallback(s.visitors[v].pc) ==> s.callbackLock == Some(Visit(v));
    hide LockInv;
  }

  lemma VisitorKeepsInv(s: State, s': State, v: Id)
    requires Inv(s) && VisitorStep(s, s', v)
    ensures Inv(s')
  {
    assert v in s.visitors;
    assert VisitorHasCallback(s.visitors[v].pc) <==> s.callbackLock == Some(Visit(v));
    hide LockInv, OtherInv, TellInv, CallInv, VisitorStep;
    VisitorMoves(s, s', v);
    VisitorKeepsLocks(s, s', v, s'.visitors[v]);
    VisitorKeepsRest(s, s', v, s'.visitors[v]);
    VisitorKeepsTells(s, s', v, s'.visitors[v]);
    forall i | i in s'.calls ensures CallInv(s', i) { VisitorKeepsCall(s, s', v, s'.visitors[v], i); }
  }

  // ---------- steps of the worker ----------

  predicate WorkerLocks(s: State) {
    && (WorkerHasRole(s.worker) <==> s.roleLock == Some(Worker))
    && (WorkerHasPartner(s.worker) <==> s.partnerLock == Some(Worker))
    && (WorkerHasCallback(s.worker) <==> s.callbackLock == Some(Worker))
  }

  ghost predicate WorkerMove(s: State, s': State) {
    && s'.calls == s.calls && s'.visitors == s.visitors && s'.registered == s.registered
    && LockMove(s.roleLock, s'.roleLock, Worker, WorkerHasRole(s.worker), WorkerHasRole(s'.worker))
    && LockMove(s.partnerLock, s'.partnerLock, Worker, WorkerHasPartner(s.worker), WorkerHasPartner(s'.worker))
    && LockMove(s.callbackLock, s'.callbackLock, Worker, WorkerHasCallback(s.worker), WorkerHasCallback(s'.worker))
    && (if s.worker == SetUp then s'.partnerUp && s'.ups == s.ups + 1 && s'.worker == Signal
        else s'.partnerUp == s.partnerUp && s'.ups == s.ups && s'.worker != Signal)
    && (if s.worker == Signal then s'.waiters <= s.waiters && (s.waiters != {} ==> s'.waiters != s.waiters)
        else s'.waiters == s.waiters)
    && (if s'.portWrites == s.portWrites then s'.vacant == s.vacant
        else WorkerHasRole(s.worker) && s'.portWrites == s.portWrites + [PortWrite(Worker, true, s.roleLock)]
             && s'.vacant == s.vacant + 1)
    && TellMove(s, s', WorkerTelling(s.worker), WorkerTelling(s'.worker))
    && (s'.worker == Report ==> s.registered)
  }

  lemma WorkerPartnerMoves(s: State, s': State)
    requires (s.worker.Idle? || s.worker.WantPartner? || s.worker.SetUp? || s.worker.Signal? || s.worker.DropPartner?)
        && WorkerStep(s, s')
    requires WorkerLocks(s)
    ensures WorkerMove(s, s')
  {
  }

  lemma WorkerCallbackMoves(s: State, s': State)
    requires (s.worker.WantCallback? || s.worker.TestRegistered? || s.worker.Report? || s.worker.DropCallback?)
        && WorkerStep(s, s')
    requires WorkerLocks(s)
    ensures WorkerMove(s, s')
  {
  }

  lemma WorkerRoleMoves(s: State, s': State)
    requires (s.worker.TryRole? || s.worker.DropRole?) && WorkerStep(s, s')
    requires WorkerLocks(s)
    ensures WorkerMove(s, s')
  {
  }

  lemma WorkerPortMoves(s: State, s': State)
    requires s.worker.ResetPorts? && WorkerStep(s, s')
    requires WorkerLocks(s)
    ensures WorkerMove(s, s')
  {
  }

  lemma WorkerMoves(s: State, s': State)
    requires LockInv(s) && WorkerStep(s, s')
    ensures WorkerMove(s, s')
  {
    assert WorkerLocks(s);
    hide LockInv, WorkerStep, WorkerMove, WorkerLocks;
    match s.worker
    case Idle => WorkerPartnerMoves(s, s');
    case WantPartner => WorkerPartnerMoves(s, s');
    case SetUp => WorkerPartnerMoves(s, s');
    case Signal => WorkerPartnerMoves(s, s');
    case DropPartner => WorkerPartnerMoves(s, s');
    case WantCallback => WorkerCallbackMoves(s, s');
    case TestRegistered => WorkerCallbackMoves(s, s');
    case Report => WorkerCallbackMoves(s, s');
    case DropCallback(_) => WorkerCallbackMoves(s, s');
    case TryRole(_) => WorkerRoleMoves(s, s');
    case ResetPorts(_) => WorkerPortMoves(s, s');
    case DropRole => WorkerRoleMoves(s, s');
  }

  lemma WorkerMoveKeepsLocks(s: State, s': State)
    requires LockInv(s) && OtherInv(s) && WorkerMove(s, s')
    ensures LockInv(s') && OtherInv(s')
  {
  }

  lemma WorkerMoveKeepsTells(s: State, s': State)
    requires LockInv(s) && LockInv(s') && TellInv(s) && WorkerMove(s, s')
    ensures TellInv(s')
  {
    assert s.callbackLock == Some(Worker) <==> WorkerHasCallback(s.worker);
    assert s'.callbackLock == Some(Worker) <==> WorkerHasCallback(s'.worker);
    OneMoreWrite(s.portWrites, PortWrite(Worker, true, s.roleLock));
    hide LockInv, WorkerWrites;
  }

  /** All waiters hold mRoleSwitchLock, so there is at most one... */
  lemma OneWaiter(s: State, x: Id, y: Id)
    requires LockInv(s) && OtherInv(s) && (forall i :: i in s.calls ==> CallInv(s, i))
    requires x in s.waiters && y in s.waiters
    ensures x == y
  {
    assert CallInv(s, x) && HasRole(s.calls[x].pc);
    assert CallInv(s, y) && HasRole(s.calls[y].pc);
  }

  /** ...and a signal reaches it. */
  lemma SignalReachesWaiter(s: State, left: set<Id>)
    requires LockInv(s) && OtherInv(s) && (forall i :: i in s.calls ==> CallInv(s, i))
    requires left <= s.waiters && (s.waiters != {} ==> left != s.waiters)
    ensures left == {}
  {
    hide LockInv, OtherInv, CallInv;
    forall i | i in s.waiters ensures i !in left {
      assert s.waiters == left + (s.waiters - left);
      var y :| y in s.waiters - left;
      OneWaiter(s, i, y);
    }
  }

  lemma WorkerMoveKeepsCall(s: State, s': State, i: Id)
    requires LockInv(s) && WorkerMove(s, s') && i in s.calls && CallInv(s, i)
    requires s.worker == Signal ==> s'.waiters == {}
    ensures CallInv(s', i)
  {
    assert HasPartner(s.calls[i].pc) ==> s.partnerLock == Some(Switch(i));
    assert WorkerHasPartner(s.worker) ==> s.partnerLock == Some(Worker);
    TriedMore(s.portWrites, PortWrite(Worker, true, s.roleLock), i);
    hide LockInv, TriedDual;
  }

  lemma WorkerKeepsInv(s: State, s': State)
    requires Inv(s) && WorkerStep(s, s')
    ensures Inv(s')
  {
    hide LockInv, OtherInv, TellInv, CallInv, WorkerStep;
    WorkerMoves(s, s');
    WorkerMoveKeepsLocks(s, s');
    WorkerMoveKeepsTells(s, s');
    if s.worker == Signal { SignalReachesWaiter(s, s'.waiters); }
    assert s'.calls == s.calls;
    forall i | i in s'.calls ensures CallInv(s', i) { WorkerMoveKeepsCall(s, s', i); }
  }

  // ---------- every run ----------

  lemma NextKeepsInv(s: State, s': State)
    requires Inv(s) && Next(s, s')
    ensures Inv(s')
  {
    hide Inv, Arrive, CallStep, ArriveVisitor, VisitorStep, WorkerStep;
    if i, mode :| Arrive(s, s', i, mode) {
      ArriveKeepsInv(s, s', i, mode);
    } else if i :| CallStep(s, s', i) {
      CallKeepsInv(s, s', i);
    } else if v, visitor :| ArriveVisitor(s, s', v, visitor) {
      ArriveVisitorKeepsInv(s, s', v, visitor);
    } else if v :| VisitorStep(s, s', v) {
      VisitorKeepsInv(s, s', v);
    } else {
      WorkerKeepsInv(s, s');
    }
  }

  lemma {:induction false} InvAlways(states: seq<State>, k: nat)
    requires Run(states) && k < |states|
    ensures Inv(states[k])
  {
    if k > 0 {
      InvAlways(states, k - 1);
      NextKeepsInv(states[k - 1], states[k]);
    }
  }

  // ---------- the promises ----------

  /** A finished mode switch failed exactly when its node could not be opened or written, or its last wait
      timed out. Success means that the worker set mPartnerUp after this call reset it; the call has tried to
      write "dual" exactly if it failed. */
  lemma ModeSwitchResult(states: seq<State>, k: nat, i: Id)
    requires Run(states) && k < |states| && i in states[k].calls
    requires states[k].calls[i].mode && states[k].calls[i].pc.Done?
    ensures var c := states[k].calls[i];
            && (!c.pc.ok <==> c.nodeOpen == Some(false) || c.wrote == Some(false) || c.timedOut == Some(true))
            && (c.pc.ok ==> c.resetAt < states[k].ups)
            && (!c.pc.ok <==> TriedDual(states[k].portWrites, i))
  {
    hide Next, LockInv, TellInv;
    InvAlways(states, k);
    assert CallInv(states[k], i);
  }

  /** Any other role switch succeeds exactly if its node could be written and read back. */
  lemma RoleSwitchResult(states: seq<State>, k: nat, i: Id)
    requires Run(states) && k < |states| && i in states[k].calls
    requires !states[k].calls[i].mode && states[k].calls[i].pc.Done?
    ensures states[k].calls[i].pc.ok <==> states[k].calls[i].wrote == Some(true)
    ensures !TriedDual(states[k].portWrites, i)
  {
    hide Next, LockInv, TellInv;
    InvAlways(states, k);
    assert CallInv(states[k], i);
  }

  /** The call has been woken after the partner came up, or has succeeded by now. */
  predicate Winning(s: State, i: Id) {
    i in s.calls &&
    var c := s.calls[i];
    || ((c.pc == Relock(false) || c.pc == TestFlag(false)) && s.ups > c.resetAt)
    || c.pc == UnlockPartner(true) || (Decided(c.pc) && c.pc.ok)
  }

  lemma OwnStepKeepsWinning(s: State, s': State, i: Id)
    requires Local(s, i) && Winning(s, i) && CallStep(s, s', i)
    ensures Winning(s', i)
  {
    if Decided(s.calls[i].pc) { hide ModeStep; } else { hide RoleStep; }
  }

  lemma NextKeepsWinning(s: State, s': State, i: Id)
    requires Inv(s) && Winning(s, i) && Next(s, s')
    ensures Winning(s', i)
  {
    if x :| CallStep(s, s', x) {
      StepperExists(s, s', x);
      assert Local(s, x);
      hide LockInv, OtherInv, TellInv, CallInv;
      if x == i { OwnStepKeepsWinning(s, s', i); } else { CallStepOf(s, s', x); }
    } else if WorkerStep(s, s') {
      hide OtherInv, TellInv, CallInv, WorkerStep;
      WorkerMoves(s, s');
    } else {
      OthersLeaveCalls(s, s', i);
    }
  }

  lemma StepperExists(s: State, s': State, i: Id)
    requires CallStep(s, s', i)
    ensures i in s.calls
  {
  }

  lemma CallStepOf(s: State, s': State, i: Id)
    requires Local(s, i) && CallStep(s, s', i)
    ensures i in s.calls && CallKept(s, s', i)
  {
    hide CallKept, ModeStep, RoleStep, CallInv;
    if ModeStep(s, s', i) { ModeStepKeeps(s, s', i); } else { RoleStepKeeps(s, s', i); }
  }

  lemma OthersLeaveCalls(s: State, s': State, i: Id)
    requires i in s.calls && Next(s, s') && !WorkerStep(s, s') && forall x :: !CallStep(s, s', x)
    ensures i in s'.calls && s'.calls[i] == s.calls[i] && s'.ups == s.ups
  {
    hide CallStep, WorkerStep;
  }

  /** A partner event makes the switch succeed: a call that is woken before its time is out, and by then the
      worker has set mPartnerUp since the call's reset, ends with success. */
  lemma {:induction false} WokenSwitchSucceeds(states: seq<State>, k: nat, j: nat, i: Id)
    requires Run(states) && k <= j < |states| && i in states[k].calls
    requires states[k].calls[i].pc == Relock(false) && states[k].ups > states[k].calls[i].resetAt
    ensures Winning(states[j], i)
    ensures states[j].calls[i].pc.Done? ==> states[j].calls[i].pc.ok
  {
    hide Next, Inv;
    if k < j {
      WokenSwitchSucceeds(states, k, j - 1, i);
      InvAlways(states, j - 1);
      NextKeepsWinning(states[j - 1], states[j], i);
    }
  }

  /** Whoever finds a callback under mLock calls it before releasing mLock, in the same order and once each;
      and a role switch tells it the result that it ends with. */
  lemma FoundCallbacksAreCalled(states: seq<State>, k: nat)
    requires Run(states) && k < |states|
    ensures states[k].callbackLock == None ==> states[k].told == states[k].looked
    ensures states[k].told <= states[k].looked
    ensures forall n, i :: 0 <= n < |states[k].told| && states[k].told[n].who == Switch(i) ==>
              && i in states[k].calls
              && (states[k].calls[i].pc.Done? ==> states[k].told[n].ok == states[k].calls[i].pc.ok)
  {
    hide Next, LockInv, OtherInv, CallInv;
    InvAlways(states, k);
    var s := states[k];
    assert forall n :: 0 <= n < |s.told| ==> s.looked[n] == s.told[n];
  }

  /** The worker's trylock: it gets mRoleSwitchLock exactly if that is free, and then has all the reported
      ports to look at; otherwise it leaves every port alone. */
  lemma TrylockDecides(s: State, s': State)
    requires s.worker.TryRole? && WorkerStep(s, s')
    ensures s'.roleLock == (if s.roleLock == None then Some(Worker) else s.roleLock)
    ensures s'.worker == if s.roleLock == None then ResetPorts(s.worker.ports) else Idle
    ensures s'.portWrites == s.portWrites
  {
  }

  /** Only the holder of mLock changes the callback, to what it was called with; a first callback may be
      dropped again if no thread can be created for it. */
  lemma RegistrationChanges(states: seq<State>, k: nat, v: Id)
    requires Run(states) && k + 1 < |states| && VisitorStep(states[k], states[k + 1], v)
    requires states[k].visitors[v].pc == Inside && states[k].visitors[v].register.Some?
    ensures states[k].callbackLock == Some(Visit(v))
    ensures var b := states[k].visitors[v].register.value;
            states[k + 1].registered == b || (b && !states[k].registered && !states[k + 1].registered)
  {
    hide Next, OtherInv, TellInv, CallInv;
    InvAlways(states, k);
  }

  /** The worker resets exactly the ports it has found without a partner, and nobody else's. */
  lemma WorkerResetsVacantPorts(states: seq<State>, k: nat)
    requires Run(states) && k < |states|
    ensures WorkerWrites(states[k].portWrites) == states[k].vacant
  {
    hide Next, LockInv, OtherInv, CallInv;
    InvAlways(states, k);
  }

  /** No lost wake-up: a call is still blocked on mPartnerCV only if no partner event has been handled
      since its reset, or the worker is just about to signal it. */
  lemma NoLostWakeup(states: seq<State>, k: nat, i: Id)
    requires Run(states) && k < |states| && i in states[k].waiters
    ensures i in states[k].calls
    ensures states[k].ups == states[k].calls[i].resetAt || states[k].worker == Signal
    ensures forall x :: x in states[k].waiters ==> x == i
  {
    hide Next;
    InvAlways(states, k);
    var s := states[k];
    assert i in s.calls && CallInv(s, i) && HasRole(s.calls[i].pc);
    forall x | x in s.waiters ensures x == i {
      assert x in s.calls && CallInv(s, x) && HasRole(s.calls[x].pc);
    }
  }

  /** Every attempt to write a port_type node was made by the holder of mRoleSwitchLock... */
  lemma PortWritesAreLocked(states: seq<State>, k: nat, n: nat)
    requires Run(states) && k < |states| && n < |states[k].portWrites|
    ensures states[k].portWrites[n].holder == Some(states[k].portWrites[n].who)
  {
    hide Next, LockInv, CallInv;
    InvAlways(states, k);
  }

  /** ...so the worker never resets a port while a switchRole call is in progress. */
  lemma WorkerNeverDisturbsSwitch(states: seq<State>, k: nat, i: Id)
    requires Run(states) && k + 1 < |states| && i in states[k].calls && HasRole(states[k].calls[i].pc)
    ensures !(states[k].worker.ResetPorts?)
    ensures WorkerStep(states[k], states[k + 1]) ==> states[k + 1].portWrites == states[k].portWrites
  {
    hide Next, OtherInv, CallInv;
    InvAlways(states, k);
  }

  /** A callback found registered under mLock is still registered when it is called. */
  lemma CallbackIsRegistered(states: seq<State>, k: nat)
    requires Run(states) && k < |states|
    ensures var s := states[k];
            && (s.worker == Report ==> s.registered)
            && (forall i :: i in s.calls && s.calls[i].pc.Notify? ==> s.registered)
            && (forall v :: v in s.visitors && s.visitors[v].pc == Calling ==> s.registered)
  {
    hide Next, LockInv;
    InvAlways(states, k);
  }

  // ---------- deadlock ----------

  ghost predicate CanStep(s: State, who: Who) {
    match who
    case Worker => exists s' :: WorkerStep(s, s')
    case Switch(i) => exists s' :: CallStep(s, s', i)
    case Visit(v) => exists s' :: VisitorStep(s, s', v)
  }

  datatype Mutex = Role | Partner | Callback

  function Holder(s: State, m: Mutex): Option<Who> {
    match m case Role => s.roleLock case Partner => s.partnerLock case Callback => s.callbackLock
  }

  /** The mutex a thread blocks on, if it is at a blocking lock call. */
  function Wants(s: State, who: Who): Option<Mutex> {
    match who
    case Worker => if s.worker == WantPartner then Some(Partner)
      else if s.worker == WantCallback then Some(Callback) else None
    case Switch(i) =>
      if i !in s.calls then None
      else if s.calls[i].pc.LockRole? then Some(Role)
      else if s.calls[i].pc.LockPartner? || s.calls[i].pc.Relock? then Some(Partner)
      else if s.calls[i].pc.LockCallback? then Some(Callback)
      else None
    case Visit(v) => if v in s.visitors && s.visitors[v].pc == Want then Some(Callback) else None
  }

  predicate Alive(s: State, who: Who) {
    match who
    case Worker => true
    case Switch(i) => i in s.calls && !s.calls[i].pc.Done?
    case Visit(v) => v in s.visitors && s.visitors[v].pc != Gone
  }

  function AdvanceMode(s: State, i: Id): State
    requires i in s.calls
  {
    var c := s.calls[i];
    match c.pc
    case OpenNode => Put(s, i, c.(pc := LockPartner, nodeOpen := Some(true)))
    case LockPartner => Put(s, i, c.(pc := ResetFlag)).(partnerLock := Some(Switch(i)))
    case ResetFlag => Put(s, i, c.(pc := WritePort, resetAt := s.ups)).(partnerUp := false)
    case WritePort => LogWrite(Put(s, i, c.(pc := StartWait, wrote := Some(true))), Switch(i), false)
    case StartWait => Put(s, i, c.(pc := Waiting)).(partnerLock := None, waiters := s.waiters + {i})
    case Waiting => Put(s, i, c.(pc := Relock(true), timedOut := Some(true))).(waiters := s.waiters - {i})
    case Relock(timedOut) => Put(s, i, c.(pc := TestFlag(timedOut))).(partnerLock := Some(Switch(i)))
    case TestFlag(timedOut) =>
      Put(s, i, c.(pc := if timedOut then UnlockPartner(false)
                         else if !s.partnerUp then StartWait
                         else UnlockPartner(true)))
    case UnlockPartner(ok) => Put(s, i, c.(pc := if ok then LockCallback(true) else Dual)).(partnerLock := None)
    case Dual => LogWrite(Put(s, i, c.(pc := LockCallback(false))), Switch(i), true)
    case _ => s
  }

  function AdvanceRole(s: State, i: Id): State
    requires i in s.calls
  {
    var c := s.calls[i];
    match c.pc
    case LockRole => Put(s, i, c.(pc := if c.mode then OpenNode else WriteRole)).(roleLock := Some(Switch(i)))
    case WriteRole => Put(s, i, c.(pc := LockCallback(true), wrote := Some(true)))
    case LockCallback(ok) => Put(s, i, c.(pc := TestCallback(ok))).(callbackLock := Some(Switch(i)))
    case TestCallback(ok) =>
      if s.registered then Look(Put(s, i, c.(pc := Notify(ok))), Switch(i), ok)
      else Put(s, i, c.(pc := UnlockCallback(ok)))
    case Notify(ok) => Tell(Put(s, i, c.(pc := UnlockCallback(ok))), Switch(i), ok)
    case UnlockCallback(ok) => Put(s, i, c.(pc := UnlockRole(ok))).(callbackLock := None)
    case UnlockRole(ok) => Put(s, i, c.(pc := Done(ok))).(roleLock := None)
    case _ => s
  }

  function AdvanceWorker(s: State): State {
    match s.worker
    case Idle => s.(worker := WantPartner)
    case WantPartner => s.(worker := SetUp, partnerLock := Some(Worker))
    case SetUp => s.(worker := Signal, partnerUp := true, ups := s.ups + 1)
    case Signal => s.(worker := DropPartner, waiters := {})
    case DropPartner => s.(worker := Idle, partnerLock := None)
    case WantCallback => s.(worker := TestRegistered, callbackLock := Some(Worker))
    case TestRegistered =>
      if s.registered then Look(s.(worker := Report), Worker, true) else s.(worker := DropCallback(0))
    case Report => Tell(s.(worker := DropCallback(1)), Worker, true)
    case DropCallback(ports) => s.(worker := TryRole(ports), callbackLock := None)
    case TryRole(ports) =>
      if s.roleLock == None then s.(worker := ResetPorts(ports), roleLock := Some(Worker)) else s.(worker := Idle)
    case ResetPorts(ports) => if ports == 0 then s.(worker := DropRole) else s.(worker := ResetPorts(ports - 1))
    case DropRole => s.(worker := Idle, roleLock := None)
  }

  function AdvanceVisitor(s: State, v: Id): State
    requires v in s.visitors
  {
    var x := s.visitors[v];
    match x.pc
    case Want => s.(visitors := s.visitors[v := x.(pc := Inside)], callbackLock := Some(Visit(v)))
    case Inside =>
      (match x.register
       case Some(b) => s.(visitors := s.visitors[v := x.(pc := Leaving)], registered := b)
       case None =>
         if s.registered then Look(s.(visitors := s.visitors[v := x.(pc := Calling)]), Visit(v), true)
         else s.(visitors := s.visitors[v := x.(pc := Leaving)]))
    case Calling => Tell(s.(visitors := s.visitors[v := x.(pc := Leaving)]), Visit(v), true)
    case Leaving => s.(visitors := s.visitors[v := x.(pc := Gone)], callbackLock := None)
    case Gone => s
  }

  lemma CallProgress(s: State, i: Id)
    requires Alive(s, Switch(i)) && (Wants(s, Switch(i)).Some? ==> Holder(s, Wants(s, Switch(i)).value) == None)
    ensures CanStep(s, Switch(i))
  {
    if InMode(s.calls[i].pc) {
      var s' := AdvanceMode(s, i);
      assert ModeStep(s, s', i);
      assert CallStep(s, s', i);
    } else {
      var s' := AdvanceRole(s, i);
      assert RoleStep(s, s', i);
      assert CallStep(s, s', i);
    }
  }

  /** A thread that does not want a taken mutex can step. In particular the worker, which only tries
      mRoleSwitchLock, never blocks on it. */
  lemma Progress(s: State, who: Who)
    requires Alive(s, who) && (Wants(s, who).Some? ==> Holder(s, Wants(s, who).value) == None)
    ensures CanStep(s, who)
  {
    match who
    case Worker =>
      assert WorkerStep(s, AdvanceWorker(s));
    case Switch(i) =>
      CallProgress(s, i);
    case Visit(v) =>
      assert VisitorStep(s, AdvanceVisitor(s, v), v);
  }

  function Level(m: Mutex): nat { if m == Role then 0 else 1 }

  /** The lock order: whoever holds a mutex and wants another holds mRoleSwitchLock and wants one of
      the other two. So no cycle of threads can wait for each other. */
  lemma LockOrder(states: seq<State>, k: nat, who: Who, held: Mutex, wanted: Mutex)
    requires Run(states) && k < |states|
    requires Holder(states[k], held) == Some(who) && Wants(states[k], who) == Some(wanted)
    ensures Level(held) < Level(wanted)
    ensures who != Worker
  {
    hide Next, OtherInv, CallInv;
    InvAlways(states, k);
  }

  lemma HolderIsAlive(states: seq<State>, k: nat, m: Mutex)
    requires Run(states) && k < |states| && Holder(states[k], m).Some?
    ensures Alive(states[k], Holder(states[k], m).value)
  {
    hide Next, OtherInv, CallInv;
    InvAlways(states, k);
  }

  /** The thread that `who` waits for at a lock call. */
  function Blocker(s: State, who: Who): Option<Who> {
    match Wants(s, who)
    case None => None
    case Some(m) => Holder(s, m)
  }

  lemma BlockerOrder(states: seq<State>, k: nat, who: Who)
    requires Run(states) && k < |states| && Blocker(states[k], who).Some?
    ensures var s, h := states[k], Blocker(states[k], who).value;
            && Alive(s, h)
            && (Wants(s, h).Some? ==> Level(Wants(s, who).value) < Level(Wants(s, h).value))
  {
    hide Run, Alive, Wants, Holder, Level;
    var s := states[k];
    var m := Wants(s, who).value;
    HolderIsAlive(states, k, m);
    var h := Blocker(s, who).value;
    if Wants(s, h).Some? { LockOrder(states, k, h, m, Wants(s, h).value); }
  }

  /** No deadlock: behind every blocked thread, at most two holders away, is one that can step. */
  lemma NoDeadlock(states: seq<State>, k: nat, who: Who)
    requires Run(states) && k < |states| && Alive(states[k], who)
    ensures var s := states[k];
            match Blocker(s, who)
            case None => CanStep(s, who)
            case Some(h) =>
              match Blocker(s, h)
              case None => CanStep(s, h)
              case Some(g) => Blocker(s, g) == None && CanStep(s, g)
  {
    hide Run, CanStep, Alive, Wants, Holder;
    var s := states[k];
    if Blocker(s, who).None? {
      Progress(s, who);
    } else {
      var h := Blocker(s, who).value;
      BlockerOrder(states, k, who);
      if Blocker(s, h).None? {
        Progress(s, h);
      } else {
        BlockerOrder(states, k, h);
        Progress(s, Blocker(s, h).value);
      }
    }
  }
}
