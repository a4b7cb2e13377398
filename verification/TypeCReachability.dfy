/** Nothing in the Type-C service rules out what it is for: a mode switch that succeeds because the partner comes
    up, and one that fails because it does not. */
module TypeCReachability {
  import opened Wrappers
  import opened TypeCProtocol

  ghost predicate Moves(s: State, s': State) { CallStep(s, s', 0) || WorkerStep(s, s') }

  lemma ByStep(states: seq<State>, s: State) returns (longer: seq<State>)
    requires Run(states) && Moves(states[|states| - 1], s)
    ensures Run(longer) && longer[|longer| - 1] == s
  {
    hide Init, CallStep, WorkerStep;
    longer := states + [s];
    forall k | 0 <= k < |longer| - 1 ensures Next(longer[k], longer[k + 1]) {
      assert longer[k] == states[k] && (k < |states| - 1 ==> longer[k + 1] == states[k + 1]);
    }
  }

  /** One mode switch and the worker. `done` says how far the switch has got with the node, `ups` how often the
      partner has come up. */
  function With(pc: CallPc, nodeOpen: Option<bool>, wrote: Option<bool>, timedOut: Option<bool>, worker: WorkerPc,
                ups: nat, waiters: set<Id>): State {
    var writes := if wrote == None then [] else [PortWrite(Switch(0), false, Some(Switch(0)))];
    var dual := timedOut == Some(true) && Decided(pc);
    State(if HasRole(pc) then Some(Switch(0)) else None,
          if HasPartner(pc) then Some(Switch(0)) else if WorkerHasPartner(worker) then Some(Worker) else None,
          if HasCallback(pc) then Some(Switch(0)) else None,
          ups > 0, waiters, false,
          map[0 := Call(true, pc, 0, nodeOpen, wrote, timedOut)], map[], worker, ups,
          if dual then writes + [PortWrite(Switch(0), true, Some(Switch(0)))] else writes, 0, [], [])
  }

  const YES := Some(true)

  /** The same while the worker is idle. */
  function At(pc: CallPc, nodeOpen: Option<bool>, wrote: Option<bool>, timedOut: Option<bool>, ups: nat,
              waiters: set<Id>): State {
    With(pc, nodeOpen, wrote, timedOut, Idle, ups, waiters)
  }

  lemma Started() returns (states: seq<State>)
    ensures Run(states) && states[|states| - 1] == At(LockRole, None, None, None, 0, {})
  {
    var start := State(None, None, None, false, {}, false, map[], map[], Idle, 0, [], 0, [], []);
    var arrived := At(LockRole, None, None, None, 0, {});
    assert Arrive(start, arrived, 0, true);
    states := [start, arrived];
  }

  lemma RoleLocked()
    ensures Moves(At(LockRole, None, None, None, 0, {}), At(OpenNode, None, None, None, 0, {}))
  {
    hide WorkerStep, ModeStep;
    assert RoleStep(At(LockRole, None, None, None, 0, {}), At(OpenNode, None, None, None, 0, {}), 0);
  }

  lemma NodeOpened()
    ensures Moves(At(OpenNode, None, None, None, 0, {}), At(LockPartner, YES, None, None, 0, {}))
  {
    hide WorkerStep, RoleStep;
    assert ModeStep(At(OpenNode, None, None, None, 0, {}), At(LockPartner, YES, None, None, 0, {}), 0);
  }

  lemma PartnerLocked()
    ensures Moves(At(LockPartner, YES, None, None, 0, {}), At(ResetFlag, YES, None, None, 0, {}))
  {
    hide WorkerStep, RoleStep;
    assert ModeStep(At(LockPartner, YES, None, None, 0, {}), At(ResetFlag, YES, None, None, 0, {}), 0);
  }

  lemma FlagReset()
    ensures Moves(At(ResetFlag, YES, None, None, 0, {}), At(WritePort, YES, None, None, 0, {}))
  {
    hide WorkerStep, RoleStep;
    assert ModeStep(At(ResetFlag, YES, None, None, 0, {}), At(WritePort, YES, None, None, 0, {}), 0);
  }

  lemma PortWritten()
    ensures Moves(At(WritePort, YES, None, None, 0, {}), At(StartWait, YES, YES, None, 0, {}))
  {
    hide WorkerStep, RoleStep;
    assert ModeStep(At(WritePort, YES, None, None, 0, {}), At(StartWait, YES, YES, None, 0, {}), 0);
  }

  lemma WaitStarted()
    ensures Moves(At(StartWait, YES, YES, None, 0, {}), At(Waiting, YES, YES, None, 0, {0}))
  {
    hide WorkerStep, RoleStep;
    assert ModeStep(At(StartWait, YES, YES, None, 0, {}), At(Waiting, YES, YES, None, 0, {0}), 0);
  }

  lemma Blocked() returns (states: seq<State>)
    ensures Run(states) && states[|states| - 1] == At(Waiting, YES, YES, None, 0, {0})
  {
    states := Started();
    hide Run, Moves, At, YES;
    RoleLocked();
    NodeOpened();
    PartnerLocked();
    FlagReset();
    PortWritten();
    WaitStarted();
    states := ByStep(states, At(OpenNode, None, None, None, 0, {}));
    states := ByStep(states, At(LockPartner, YES, None, None, 0, {}));
    states := ByStep(states, At(ResetFlag, YES, None, None, 0, {}));
    states := ByStep(states, At(WritePort, YES, None, None, 0, {}));
    states := ByStep(states, At(StartWait, YES, YES, None, 0, {}));
    states := ByStep(states, At(Waiting, YES, YES, None, 0, {0}));
  }

  lemma PartnerMoves()
    ensures Moves(At(Waiting, YES, YES, None, 0, {0}), With(Waiting, YES, YES, None, WantPartner, 0, {0}))
    ensures Moves(With(Waiting, YES, YES, None, WantPartner, 0, {0}), With(Waiting, YES, YES, None, SetUp, 0, {0}))
    ensures Moves(With(Waiting, YES, YES, None, SetUp, 0, {0}), With(Waiting, YES, YES, None, Signal, 1, {0}))
    ensures Moves(With(Waiting, YES, YES, None, Signal, 1, {0}), With(Waiting, YES, YES, None, DropPartner, 1, {}))
    ensures Moves(With(Waiting, YES, YES, None, DropPartner, 1, {}), At(Waiting, YES, YES, None, 1, {}))
  {
    hide CallStep;
  }

  lemma Woken(timedOut: bool, ups: nat, waiters: set<Id>)
    requires waiters <= {0}
    ensures Moves(At(Waiting, YES, YES, None, ups, waiters), At(Relock(timedOut), YES, YES, Some(timedOut), ups, {}))
  {
    hide WorkerStep, RoleStep;
    var relocking := Call(true, Relock(timedOut), 0, YES, YES, Some(timedOut));
    assert waiters - {0} == {};
    assert At(Relock(timedOut), YES, YES, Some(timedOut), ups, {})
      == Put(At(Waiting, YES, YES, None, ups, waiters), 0, relocking).(waiters := {});
    assert ModeStep(At(Waiting, YES, YES, None, ups, waiters),
                    At(Relock(timedOut), YES, YES, Some(timedOut), ups, {}), 0);
  }

  lemma Relocked(timedOut: bool, ups: nat)
    ensures Moves(At(Relock(timedOut), YES, YES, Some(timedOut), ups, {}),
                  At(TestFlag(timedOut), YES, YES, Some(timedOut), ups, {}))
  {
    hide WorkerStep, RoleStep;
    assert ModeStep(At(Relock(timedOut), YES, YES, Some(timedOut), ups, {}),
                    At(TestFlag(timedOut), YES, YES, Some(timedOut), ups, {}), 0);
  }

  lemma Tested(timedOut: bool, ups: nat)
    requires timedOut <==> ups == 0
    ensures Moves(At(TestFlag(timedOut), YES, YES, Some(timedOut), ups, {}),
                  At(UnlockPartner(!timedOut), YES, YES, Some(timedOut), ups, {}))
  {
    hide WorkerStep, RoleStep;
    assert ModeStep(At(TestFlag(timedOut), YES, YES, Some(timedOut), ups, {}),
                    At(UnlockPartner(!timedOut), YES, YES, Some(timedOut), ups, {}), 0);
  }

  lemma SwitchedUp()
    ensures Moves(At(UnlockPartner(true), YES, YES, Some(false), 1, {}),
                  At(LockCallback(true), YES, YES, Some(false), 1, {}))
  {
    hide WorkerStep, RoleStep;
    assert ModeStep(At(UnlockPartner(true), YES, YES, Some(false), 1, {}),
                    At(LockCallback(true), YES, YES, Some(false), 1, {}), 0);
  }

  lemma GivenUp()
    ensures Moves(At(UnlockPartner(false), YES, YES, YES, 0, {}), At(Dual, YES, YES, YES, 0, {}))
  {
    hide WorkerStep, RoleStep;
    assert ModeStep(At(UnlockPartner(false), YES, YES, YES, 0, {}), At(Dual, YES, YES, YES, 0, {}), 0);
  }

  lemma DualTried()
    ensures Moves(At(Dual, YES, YES, YES, 0, {}), At(LockCallback(false), YES, YES, YES, 0, {}))
  {
    hide WorkerStep, RoleStep;
    assert ModeStep(At(Dual, YES, YES, YES, 0, {}), At(LockCallback(false), YES, YES, YES, 0, {}), 0);
  }

  lemma CallbackLocked(ok: bool, ups: nat)
    ensures Moves(At(LockCallback(ok), YES, YES, Some(!ok), ups, {}),
                  At(TestCallback(ok), YES, YES, Some(!ok), ups, {}))
  {
    hide WorkerStep, ModeStep;
    assert RoleStep(At(LockCallback(ok), YES, YES, Some(!ok), ups, {}),
                    At(TestCallback(ok), YES, YES, Some(!ok), ups, {}), 0);
  }

  lemma CallbackTested(ok: bool, ups: nat)
    ensures Moves(At(TestCallback(ok), YES, YES, Some(!ok), ups, {}),
                  At(UnlockCallback(ok), YES, YES, Some(!ok), ups, {}))
  {
    hide WorkerStep, ModeStep;
    assert RoleStep(At(TestCallback(ok), YES, YES, Some(!ok), ups, {}),
                    At(UnlockCallback(ok), YES, YES, Some(!ok), ups, {}), 0);
  }

  lemma CallbackUnlocked(ok: bool, ups: nat)
    ensures Moves(At(UnlockCallback(ok), YES, YES, Some(!ok), ups, {}),
                  At(UnlockRole(ok), YES, YES, Some(!ok), ups, {}))
  {
    hide WorkerStep, ModeStep;
    assert RoleStep(At(UnlockCallback(ok), YES, YES, Some(!ok), ups, {}),
                    At(UnlockRole(ok), YES, YES, Some(!ok), ups, {}), 0);
  }

  lemma RoleUnlocked(ok: bool, ups: nat)
    ensures Moves(At(UnlockRole(ok), YES, YES, Some(!ok), ups, {}), At(Done(ok), YES, YES, Some(!ok), ups, {}))
  {
    hide WorkerStep, ModeStep;
    assert RoleStep(At(UnlockRole(ok), YES, YES, Some(!ok), ups, {}), At(Done(ok), YES, YES, Some(!ok), ups, {}), 0);
  }

  lemma Ended(states: seq<State>, ok: bool, ups: nat) returns (longer: seq<State>)
    requires Run(states) && states[|states| - 1] == At(LockCallback(ok), YES, YES, Some(!ok), ups, {})
    ensures Run(longer) && longer[|longer| - 1] == At(Done(ok), YES, YES, Some(!ok), ups, {})
  {
    hide Run, Moves, At, YES;
    CallbackLocked(ok, ups);
    CallbackTested(ok, ups);
    CallbackUnlocked(ok, ups);
    RoleUnlocked(ok, ups);
    longer := ByStep(states, At(TestCallback(ok), YES, YES, Some(!ok), ups, {}));
    longer := ByStep(longer, At(UnlockCallback(ok), YES, YES, Some(!ok), ups, {}));
    longer := ByStep(longer, At(UnlockRole(ok), YES, YES, Some(!ok), ups, {}));
    longer := ByStep(longer, At(Done(ok), YES, YES, Some(!ok), ups, {}));
  }

  /** The partner comes up while the switch waits, and the switch succeeds. */
  lemma SwitchSucceeds() returns (states: seq<State>)
    ensures Run(states) && 0 in states[|states| - 1].calls
    ensures states[|states| - 1].calls[0].mode && states[|states| - 1].calls[0].pc == Done(true)
  {
    hide Run, Moves;
    PartnerMoves();
    Woken(false, 1, {});
    Relocked(false, 1);
    Tested(false, 1);
    SwitchedUp();
    states := Blocked();
    states := ByStep(states, With(Waiting, YES, YES, None, WantPartner, 0, {0}));
    states := ByStep(states, With(Waiting, YES, YES, None, SetUp, 0, {0}));
    states := ByStep(states, With(Waiting, YES, YES, None, Signal, 1, {0}));
    states := ByStep(states, With(Waiting, YES, YES, None, DropPartner, 1, {}));
    states := ByStep(states, At(Waiting, YES, YES, None, 1, {}));
    states := ByStep(states, At(Relock(false), YES, YES, Some(false), 1, {}));
    states := ByStep(states, At(TestFlag(false), YES, YES, Some(false), 1, {}));
    states := ByStep(states, At(UnlockPartner(true), YES, YES, Some(false), 1, {}));
    states := ByStep(states, At(LockCallback(true), YES, YES, Some(false), 1, {}));
    states := Ended(states, true, 1);
  }

  lemma TimedOutState()
    ensures var s := At(Done(false), YES, YES, YES, 0, {});
            0 in s.calls && s.calls[0].mode && s.calls[0].pc == Done(false) && s.calls[0].timedOut == Some(true)
            && TriedDual(s.portWrites, 0)
  {
    var s := At(Done(false), YES, YES, YES, 0, {});
    assert s.portWrites[1] == PortWrite(Switch(0), true, Some(Switch(0)));
  }

  /** No partner comes, the wait times out, and the switch fails after trying to write "dual". */
  lemma SwitchTimesOut() returns (states: seq<State>)
    ensures Run(states) && 0 in states[|states| - 1].calls
    ensures var c := states[|states| - 1].calls[0];
            c.mode && c.pc == Done(false) && c.timedOut == Some(true) && TriedDual(states[|states| - 1].portWrites, 0)
  {
    hide Run, Moves, With;
    TimedOutState();
    Woken(true, 0, {0});
    Relocked(true, 0);
    Tested(true, 0);
    GivenUp();
    DualTried();
    states := Blocked();
    states := ByStep(states, At(Relock(true), YES, YES, YES, 0, {}));
    states := ByStep(states, At(TestFlag(true), YES, YES, YES, 0, {}));
    states := ByStep(states, At(UnlockPartner(false), YES, YES, YES, 0, {}));
    states := ByStep(states, At(Dual, YES, YES, YES, 0, {}));
    states := ByStep(states, At(LockCallback(false), YES, YES, YES, 0, {}));
    states := Ended(states, false, 0);
  }

  // ---------- another role ----------

  /** A switch of the data or power role, alone. */
  function Other(pc: CallPc, wrote: Option<bool>): State {
    State(if HasRole(pc) then Some(Switch(0)) else None, None, if HasCallback(pc) then Some(Switch(0)) else None,
          false, {}, false, map[0 := Call(false, pc, 0, None, wrote, None)], map[], Idle, 0, [], 0, [], [])
  }

  lemma OtherMoves(pc: CallPc, wrote: Option<bool>, pc': CallPc, wrote': Option<bool>)
    requires RoleStep(Other(pc, wrote), Other(pc', wrote'), 0)
    ensures Moves(Other(pc, wrote), Other(pc', wrote'))
  {
    hide RoleStep, ModeStep;
  }

  lemma OtherWrites(ok: bool)
    ensures RoleStep(Other(LockRole, None), Other(WriteRole, None), 0)
    ensures RoleStep(Other(WriteRole, None), Other(LockCallback(ok), Some(ok)), 0)
  {
    var b := Other(LockCallback(ok), Some(ok));
    assert Put(Other(WriteRole, None), 0, Call(false, LockCallback(ok), 0, None, Some(ok), None)) == b;
  }

  lemma OtherCallbackLocked(ok: bool)
    ensures RoleStep(Other(LockCallback(ok), Some(ok)), Other(TestCallback(ok), Some(ok)), 0)
  {
  }

  lemma OtherCallbackTested(ok: bool)
    ensures RoleStep(Other(TestCallback(ok), Some(ok)), Other(UnlockCallback(ok), Some(ok)), 0)
  {
  }

  lemma OtherCallbackUnlocked(ok: bool)
    ensures RoleStep(Other(UnlockCallback(ok), Some(ok)), Other(UnlockRole(ok), Some(ok)), 0)
  {
  }

  lemma OtherRoleUnlocked(ok: bool)
    ensures RoleStep(Other(UnlockRole(ok), Some(ok)), Other(Done(ok), Some(ok)), 0)
  {
  }

  lemma OtherStarted() returns (states: seq<State>)
    ensures Run(states) && states[|states| - 1] == Other(LockRole, None)
  {
    var start := State(None, None, None, false, {}, false, map[], map[], Idle, 0, [], 0, [], []);
    assert Arrive(start, Other(LockRole, None), 0, false);
    states := [start, Other(LockRole, None)];
  }

  /** A data or power role can be switched, and the switch can fail. */
  lemma OtherSwitchEnds(ok: bool) returns (states: seq<State>)
    ensures Run(states) && 0 in states[|states| - 1].calls
    ensures !states[|states| - 1].calls[0].mode && states[|states| - 1].calls[0].pc == Done(ok)
  {
    hide Run, Moves, RoleStep;
    OtherWrites(ok);
    OtherCallbackLocked(ok);
    OtherCallbackTested(ok);
    OtherCallbackUnlocked(ok);
    OtherRoleUnlocked(ok);
    states := OtherStarted();
    OtherMoves(LockRole, None, WriteRole, None);
    states := ByStep(states, Other(WriteRole, None));
    OtherMoves(WriteRole, None, LockCallback(ok), Some(ok));
    states := ByStep(states, Other(LockCallback(ok), Some(ok)));
    OtherMoves(LockCallback(ok), Some(ok), TestCallback(ok), Some(ok));
    states := ByStep(states, Other(TestCallback(ok), Some(ok)));
    OtherMoves(TestCallback(ok), Some(ok), UnlockCallback(ok), Some(ok));
    states := ByStep(states, Other(UnlockCallback(ok), Some(ok)));
    OtherMoves(UnlockCallback(ok), Some(ok), UnlockRole(ok), Some(ok));
    states := ByStep(states, Other(UnlockRole(ok), Some(ok)));
    OtherMoves(UnlockRole(ok), Some(ok), Done(ok), Some(ok));
    states := ByStep(states, Other(Done(ok), Some(ok)));
  }
}
