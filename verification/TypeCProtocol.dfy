/**
 The locks of the USB Type-C service as a transition system: any number of switchRole calls, any
 number of queryPortStatus and setCallback calls, and the one uevent worker. Node operations,
 wake-ups and timeouts are nondeterministic. History, which no step reads: `Call.resetAt`,
 `State.ups`, `State.portWrites`, `State.looked`, `State.told`; and what the system answered, `Call.nodeOpen`,
 `Call.wrote`, `Call.timedOut` and `State.vacant`.
 */
module TypeCProtocol {
  import opened Wrappers

  type Id = nat

  datatype Who = Worker | Switch(i: Id) | Visit(v: Id)

  // ---------- switchRole ----------

  datatype CallPc =
    | LockRole
    | WriteRole                      // data or power role
    | OpenNode                       // switchMode from here
    | LockPartner
    | ResetFlag
    | WritePort
    | StartWait
    | Waiting
    | Relock(timedOut: bool)
    | TestFlag(timedOut: bool)
    | UnlockPartner(ok: bool)
    | Dual                           // switchToDrp
    | LockCallback(ok: bool)
    | TestCallback(ok: bool)
    | Notify(ok: bool)
    | UnlockCallback(ok: bool)
    | UnlockRole(ok: bool)
    | Done(ok: bool)

  datatype Call = Call(
    mode: bool,
    pc: CallPc,
    resetAt: nat,                    // State.ups at the last reset of the flag
    nodeOpen: Option<bool>,          // whether the node could be opened,
    wrote: Option<bool>,             // and written (and read back, for a data or power role),
    timedOut: Option<bool>)          // and whether the last wait timed out

  // ---------- the worker and the visitors of mLock ----------

  datatype WorkerPc =
    | Idle
    | WantPartner
    | SetUp
    | Signal
    | DropPartner
    | WantCallback
    | TestRegistered
    | Report
    | DropCallback(ports: nat)
    | TryRole(ports: nat)
    | ResetPorts(ports: nat)
    | DropRole

  datatype VisitorPc = Want | Inside | Calling | Leaving | Gone

  /** setCallback with a null or non-null argument, or queryPortStatus (None). */
  datatype Visitor = Visitor(register: Option<bool>, pc: VisitorPc)

  // ---------- shared state ----------

  /** An attempt to write a port_type node, whether it was to write "dual", and who held mRoleSwitchLock then. */
  datatype PortWrite = PortWrite(who: Who, dual: bool, holder: Option<Who>)

  /** A thread that found a callback, and the result it has for it. */
  datatype Told = Told(who: Who, ok: bool)

  datatype State = State(
    roleLock: Option<Who>,           // mRoleSwitchLock
    partnerLock: Option<Who>,        // mPartnerLock
    callbackLock: Option<Who>,       // mLock
    partnerUp: bool,
    waiters: set<Id>,                // blocked on mPartnerCV
    registered: bool,                // mCallback_1_0 != NULL
    calls: map<Id, Call>,
    visitors: map<Id, Visitor>,
    worker: WorkerPc,
    ups: nat,                        // how often the worker has set mPartnerUp
    portWrites: seq<PortWrite>,
    vacant: nat,                     // ports without a partner that the worker came across
    looked: seq<Told>,               // who found a callback, in order
    told: seq<Told>)                 // who called it, in order

  ghost predicate Init(s: State) {
    && s.roleLock == None && s.partnerLock == None && s.callbackLock == None
    && !s.partnerUp && s.waiters == {} && !s.registered
    && s.calls == map[] && s.visitors == map[] && s.worker == Idle
    && s.ups == 0 && s.portWrites == [] && s.vacant == 0 && s.looked == [] && s.told == []
  }

  // ---------- steps ----------

  function Put(s: State, i: Id, c: Call): State { s.(calls := s.calls[i := c]) }

  function LogWrite(s: State, who: Who, dual: bool): State {
    s.(portWrites := s.portWrites + [PortWrite(who, dual, s.roleLock)])
  }

  function Look(s: State, who: Who, ok: bool): State { s.(looked := s.looked + [Told(who, ok)]) }

  function Tell(s: State, who: Who, ok: bool): State { s.(told := s.told + [Told(who, ok)]) }

  ghost predicate Arrive(s: State, s': State, i: Id, mode: bool) {
    i !in s.calls && s' == Put(s, i, Call(mode, LockRole, 0, None, None, None))
  }

  /** switchMode */
  ghost predicate ModeStep(s: State, s': State, i: Id)
    requires i in s.calls
  {
    var c := s.calls[i];
    match c.pc
    case OpenNode =>
      || s' == Put(s, i, c.(pc := LockPartner, nodeOpen := Some(true)))
      || s' == Put(s, i, c.(pc := Dual, nodeOpen := Some(false)))
    case LockPartner =>
      s.partnerLock == None && s' == Put(s, i, c.(pc := ResetFlag)).(partnerLock := Some(Switch(i)))
    case ResetFlag =>
      s' == Put(s, i, c.(pc := WritePort, resetAt := s.ups)).(partnerUp := false)
    case WritePort =>
      || s' == LogWrite(Put(s, i, c.(pc := StartWait, wrote := Some(true))), Switch(i), false)
      || s' == LogWrite(Put(s, i, c.(pc := UnlockPartner(false), wrote := Some(false))), Switch(i), false)
    case StartWait =>
      // pthread_cond_timedwait releases mPartnerLock and blocks in one step
      s' == Put(s, i, c.(pc := Waiting)).(partnerLock := None, waiters := s.waiters + {i})
    case Waiting =>
      // signalled, woken spuriously, or timed out
      exists timedOut ::
        s' == Put(s, i, c.(pc := Relock(timedOut), timedOut := Some(timedOut))).(waiters := s.waiters - {i})
    case Relock(timedOut) =>
      s.partnerLock == None && s' == Put(s, i, c.(pc := TestFlag(timedOut))).(partnerLock := Some(Switch(i)))
    case TestFlag(timedOut) =>
      s' == Put(s, i, c.(pc := if timedOut then UnlockPartner(false)
                               else if !s.partnerUp then StartWait
                               else UnlockPartner(true)))
    case UnlockPartner(ok) =>
      s' == Put(s, i, c.(pc := if ok then LockCallback(true) else Dual)).(partnerLock := None)
    case Dual =>
      s' == LogWrite(Put(s, i, c.(pc := LockCallback(false))), Switch(i), true)
    case _ => false
  }

  /** switchRole around it */
  ghost predicate RoleStep(s: State, s': State, i: Id)
    requires i in s.calls
  {
    var c := s.calls[i];
    match c.pc
    case LockRole =>
      s.roleLock == None
      && s' == Put(s, i, c.(pc := if c.mode then OpenNode else WriteRole)).(roleLock := Some(Switch(i)))
    case WriteRole =>
      exists ok :: s' == Put(s, i, c.(pc := LockCallback(ok), wrote := Some(ok)))
    case LockCallback(ok) =>
      s.callbackLock == None && s' == Put(s, i, c.(pc := TestCallback(ok))).(callbackLock := Some(Switch(i)))
    case TestCallback(ok) =>
      s' == if s.registered then Look(Put(s, i, c.(pc := Notify(ok))), Switch(i), ok)
            else Put(s, i, c.(pc := UnlockCallback(ok)))
    case Notify(ok) =>
      s' == Tell(Put(s, i, c.(pc := UnlockCallback(ok))), Switch(i), ok)
    case UnlockCallback(ok) =>
      s' == Put(s, i, c.(pc := UnlockRole(ok))).(callbackLock := None)
    case UnlockRole(ok) =>
      s' == Put(s, i, c.(pc := Done(ok))).(roleLock := None)
    case _ => false
  }

  ghost predicate CallStep(s: State, s': State, i: Id) {
    i in s.calls && (ModeStep(s, s', i) || RoleStep(s, s', i))
  }

  ghost predicate WorkerStep(s: State, s': State) {
    match s.worker
    case Idle => s' == s.(worker := WantPartner) || s' == s.(worker := WantCallback)
    case WantPartner => s.partnerLock == None && s' == s.(worker := SetUp, partnerLock := Some(Worker))
    case SetUp => s' == s.(worker := Signal, partnerUp := true, ups := s.ups + 1)
    case Signal =>
      // pthread_cond_signal unblocks at least one waiter, if there is one
      exists left: set<Id> :: left <= s.waiters && (s.waiters != {} ==> left != s.waiters)
        && s' == s.(worker := DropPartner, waiters := left)
    case DropPartner => s' == s.(worker := Idle, partnerLock := None)
    case WantCallback => s.callbackLock == None && s' == s.(worker := TestRegistered, callbackLock := Some(Worker))
    case TestRegistered =>
      s' == if s.registered then Look(s.(worker := Report), Worker, true) else s.(worker := DropCallback(0))
    case Report => exists ports: nat :: s' == Tell(s.(worker := DropCallback(ports)), Worker, true)
    case DropCallback(ports) => s' == s.(worker := TryRole(ports), callbackLock := None)
    case TryRole(ports) =>
      s' == if s.roleLock == None then s.(worker := ResetPorts(ports), roleLock := Some(Worker)) else s.(worker := Idle)
    case ResetPorts(ports) =>
      if ports == 0 then s' == s.(worker := DropRole)
      else || s' == s.(worker := ResetPorts(ports - 1))                        // the partner is there
           || s' == LogWrite(s.(worker := ResetPorts(ports - 1), vacant := s.vacant + 1), Worker, true)   // switchToDrp
    case DropRole => s' == s.(worker := Idle, roleLock := None)
  }

  ghost predicate ArriveVisitor(s: State, s': State, v: Id, visitor: Visitor) {
    v !in s.visitors && visitor.pc == Want && s' == s.(visitors := s.visitors[v := visitor])
  }

  ghost predicate VisitorStep(s: State, s': State, v: Id) {
    v in s.visitors &&
    var x := s.visitors[v];
    match x.pc
    case Want =>
      s.callbackLock == None && s' == s.(visitors := s.visitors[v := x.(pc := Inside)], callbackLock := Some(Visit(v)))
    case Inside =>
      (match x.register
       case Some(b) =>
         // a first callback is dropped again if the worker thread cannot be created
         || s' == s.(visitors := s.visitors[v := x.(pc := Leaving)], registered := b)
         || (b && !s.registered && s' == s.(visitors := s.visitors[v := x.(pc := Leaving)]))
       case None =>
         s' == if s.registered then Look(s.(visitors := s.visitors[v := x.(pc := Calling)]), Visit(v), true)
               else s.(visitors := s.visitors[v := x.(pc := Leaving)]))
    case Calling => s' == Tell(s.(visitors := s.visitors[v := x.(pc := Leaving)]), Visit(v), true)
    case Leaving => s' == s.(visitors := s.visitors[v := x.(pc := Gone)], callbackLock := None)
    case Gone => false
  }

  ghost predicate Next(s: State, s': State) {
    || (exists i, mode :: Arrive(s, s', i, mode))
    || (exists i :: CallStep(s, s', i))
    || (exists v, visitor :: ArriveVisitor(s, s', v, visitor))
    || (exists v :: VisitorStep(s, s', v))
    || WorkerStep(s, s')
  }

  ghost predicate Run(states: seq<State>) {
    && states != [] && Init(states[0])
    && forall k :: 0 <= k < |states| - 1 ==> Next(states[k], states[k + 1])
  }

  // ---------- the invariant ----------

  predicate HasRole(pc: CallPc) { !pc.LockRole? && !pc.Done? }

  predicate HasPartner(pc: CallPc) {
    pc.ResetFlag? || pc.WritePort? || pc.StartWait? || pc.TestFlag? || pc.UnlockPartner?
  }

  predicate HasCallback(pc: CallPc) { pc.TestCallback? || pc.Notify? || pc.UnlockCallback? }

  predicate WorkerHasRole(pc: WorkerPc) { pc.ResetPorts? || pc.DropRole? }

  predicate WorkerHasPartner(pc: WorkerPc) { pc.SetUp? || pc.Signal? || pc.DropPartner? }

  predicate WorkerHasCallback(pc: WorkerPc) { pc.TestRegistered? || pc.Report? || pc.DropCallback? }

  predicate VisitorHasCallback(pc: VisitorPc) { pc == Inside || pc == Calling || pc == Leaving }

  ghost predicate LockInv(s: State) {
    && (forall i :: i in s.calls ==>
          var pc := s.calls[i].pc;
          && (HasRole(pc) <==> s.roleLock == Some(Switch(i)))
          && (HasPartner(pc) <==> s.partnerLock == Some(Switch(i)))
          && (HasCallback(pc) <==> s.callbackLock == Some(Switch(i))))
    && (forall v :: v in s.visitors ==> (VisitorHasCallback(s.visitors[v].pc) <==> s.callbackLock == Some(Visit(v))))
    && (WorkerHasRole(s.worker) <==> s.roleLock == Some(Worker))
    && (WorkerHasPartner(s.worker) <==> s.partnerLock == Some(Worker))
    && (WorkerHasCallback(s.worker) <==> s.callbackLock == Some(Worker))
    && HolderExists(s, s.roleLock) && HolderExists(s, s.partnerLock) && HolderExists(s, s.callbackLock)
    && !(s.roleLock.Some? && s.roleLock.value.Visit?) && !(s.partnerLock.Some? && s.partnerLock.value.Visit?)
  }

  predicate HolderExists(s: State, lock: Option<Who>) {
    match lock
    case Some(Switch(i)) => i in s.calls
    case Some(Visit(v)) => v in s.visitors
    case _ => true
  }

  /** Between the reset and the end of the wait. */
  predicate Watching(pc: CallPc) {
    pc.WritePort? || pc.StartWait? || pc.Waiting? || pc.Relock? || pc.TestFlag? || pc.UnlockPartner?
  }

  predicate Decided(pc: CallPc) {
    pc.LockCallback? || pc.TestCallback? || pc.Notify? || pc.UnlockCallback? || pc.UnlockRole? || pc.Done?
  }

  predicate InMode(pc: CallPc) { !pc.LockRole? && !pc.WriteRole? && !Decided(pc) }

  /** The system refused the node or its write, or the wait timed out. */
  predicate Failed(c: Call) { c.nodeOpen == Some(false) || c.wrote == Some(false) || c.timedOut == Some(true) }

  /** The answers so far fit the program point. */
  predicate Answered(c: Call) {
    && (c.pc.LockRole? || c.pc.WriteRole? || c.pc.OpenNode? ==> c.nodeOpen == c.wrote == c.timedOut == None)
    && (c.pc.LockPartner? || c.pc.ResetFlag? || c.pc.WritePort? ==>
          c.nodeOpen == Some(true) && c.wrote == c.timedOut == None)
    && (c.pc.StartWait? || c.pc.Waiting? ==> c.wrote == c.nodeOpen == Some(true) && c.timedOut != Some(true))
    && (c.pc.Relock? ==> c.wrote == c.nodeOpen == Some(true) && c.timedOut == Some(c.pc.timedOut))
    && (c.pc.TestFlag? ==> c.wrote == c.nodeOpen == Some(true) && c.timedOut == Some(c.pc.timedOut))
  }

  predicate TriedDual(writes: seq<PortWrite>, i: Id) {
    exists n :: 0 <= n < |writes| && writes[n].who == Switch(i) && writes[n].dual
  }

  ghost predicate CallInv(s: State, i: Id)
    requires i in s.calls
  {
    var c := s.calls[i];
    && (InMode(c.pc) ==> c.mode)
    && (c.pc.WriteRole? ==> !c.mode)
    && (Watching(c.pc) ==> c.resetAt <= s.ups && (s.partnerUp <==> s.ups > c.resetAt))
    && (c.pc.WritePort? || c.pc.StartWait? ==> !s.partnerUp)
    && Answered(c)
    && (i in s.waiters ==> c.pc.Waiting? && (s.partnerUp ==> s.worker == Signal))
    && (c.pc.UnlockPartner? ==> (c.pc.ok <==> !Failed(c)) && (c.pc.ok ==> s.ups > c.resetAt))
    && (c.pc.Dual? ==> Failed(c))
    && (c.mode && Decided(c.pc) ==>
          (c.pc.ok <==> !Failed(c)) && (c.pc.ok ==> s.ups > c.resetAt) && (!c.pc.ok ==> TriedDual(s.portWrites, i)))
    && (!c.mode && Decided(c.pc) ==> c.wrote == Some(c.pc.ok))
    && (c.pc.Notify? ==> s.registered)
  }

  /** What the holder of mLock has found and not yet told. */
  function Telling(s: State): seq<Told> {
    match s.callbackLock
    case Some(Switch(i)) => if i in s.calls then CallTelling(i, s.calls[i].pc) else []
    case Some(Visit(v)) => if v in s.visitors then VisitorTelling(v, s.visitors[v].pc) else []
    case Some(Worker) => WorkerTelling(s.worker)
    case None => []
  }

  function CallTelling(i: Id, pc: CallPc): seq<Told> { if pc.Notify? then [Told(Switch(i), pc.ok)] else [] }

  function VisitorTelling(v: Id, pc: VisitorPc): seq<Told> { if pc == Calling then [Told(Visit(v), true)] else [] }

  function WorkerTelling(pc: WorkerPc): seq<Told> { if pc == Report then [Told(Worker, true)] else [] }

  function WorkerWrites(writes: seq<PortWrite>): nat {
    if writes == [] then 0
    else WorkerWrites(writes[..|writes| - 1]) + if writes[|writes| - 1].who == Worker then 1 else 0
  }

  ghost predicate TellInv(s: State) {
    && s.looked == s.told + Telling(s)
    && (forall k :: 0 <= k < |s.looked| && s.looked[k].who.Switch? ==>
          var i := s.looked[k].who.i;
          i in s.calls && Decided(s.calls[i].pc) && s.calls[i].pc.ok == s.looked[k].ok)
    && WorkerWrites(s.portWrites) == s.vacant
  }

  ghost predicate OtherInv(s: State) {
    && (forall v :: v in s.visitors && s.visitors[v].pc == Calling ==> s.registered)
    && (s.worker == Report ==> s.registered)
    && (forall i :: i in s.waiters ==> i in s.calls)
    && (forall k :: 0 <= k < |s.portWrites| ==> s.portWrites[k].holder == Some(s.portWrites[k].who))
    && (forall k :: 0 <= k < |s.portWrites| && s.portWrites[k].dual && s.portWrites[k].who.Switch? ==>
          var i := s.portWrites[k].who.i;
          i in s.calls && s.calls[i].mode && Decided(s.calls[i].pc) && !s.calls[i].pc.ok)
  }

  ghost predicate Inv(s: State) {
    LockInv(s) && OtherInv(s) && TellInv(s) && forall i :: i in s.calls ==> CallInv(s, i)
  }
}
