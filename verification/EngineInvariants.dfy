/** What every operation keeps of one execution record. */
module EngineInvariants {
  import opened Types
  import opened StateMachine
  import opened EngineSpec

  // ------------------------------------------------------------------------------------------
  // The attempt history.
  // ------------------------------------------------------------------------------------------

  ghost predicate DistinctIds(ats: seq<Attempt>) {
    forall i, j :: 0 <= i < j < |ats| ==> ats[i].id != ats[j].id && ats[i].dispatchId != ats[j].dispatchId
  }

  /**
   Attempt i holds ownership and fence generation i + 2 up to saturation; in a strict history,
   one that no supersession has cut, its attempt generation is i + 1.
   */
  ghost predicate WellNumbered(ats: seq<Attempt>, strict: bool) {
    forall i :: 0 <= i < |ats| ==>
      && ats[i].id != NIL && ats[i].dispatchId != NIL
      && ats[i].generation >= 1 && ats[i].dispatchGeneration == 1
      && ats[i].ownership == ats[i].fence == Saturated(i + 2)
      && (strict ==> ats[i].generation == Saturated(i + 1))
  }

  ghost predicate History(ats: seq<Attempt>, strict: bool) {
    DistinctIds(ats) && WellNumbered(ats, strict)
  }

  function Last(ats: seq<Attempt>): Attempt
    requires ats != []
  {
    ats[|ats| - 1]
  }

  // ------------------------------------------------------------------------------------------
  // The head of the record.
  // ------------------------------------------------------------------------------------------

  /** A named current attempt is the last of the history, and the record repeats its authority. */
  ghost predicate NamesLast(rec: Record) {
    match rec.current
    case None => rec.currentGeneration.None? && rec.owner.None? && rec.ownerBoot.None?
    case Some(id) =>
      && rec.attempts != []
      && var at := Last(rec.attempts);
         && at.id == id
         && at.state != ASuperseded
         && rec.currentGeneration == Some(at.generation)
         && rec.owner == Some(at.worker)
         && rec.ownerBoot == Some(at.boot)
         && rec.ownership == at.ownership
         && rec.fence == at.fence
  }

  ghost predicate Counters(rec: Record) {
    && rec.generation >= 1
    && rec.ownership == rec.fence
    && (rec.state == CREATED ==> rec.attempts == [] && rec.ownership == 0)
    && (rec.state != CREATED && rec.state != CANCELLED ==> rec.ownership == Saturated(|rec.attempts| + 1))
  }

  /** A result is committed once, exactly in the committed state, and it is the current attempt's. */
  ghost predicate CommitFacts(rec: Record) {
    if rec.state == COMMITTED then
      && rec.commit == 1
      && rec.committedDigest.Some?
      && rec.current.Some? && rec.attempts != []
      && Last(rec.attempts).resultDigest == rec.committedDigest
    else
      rec.commit == 0 && rec.committedDigest.None?
  }

  function CurrentState(rec: Record): Option<AttemptState> {
    if rec.current.Some? && rec.attempts != [] then Some(Last(rec.attempts).state) else None
  }

  /** Which states of the current attempt an execution state admits. */
  predicate MayPair(s: ExecutionState, a: Option<AttemptState>) {
    match s
    case CREATED => a == None
    case READY => a == None || a == Some(ALost)
    case DISPATCHED => a == Some(ADispatched)
    case RUNNING => a == Some(ARunning) || a == Some(ACompleted)
    case CANCELLATION_REQUESTED =>
      a == None || a == Some(ALost) || a == Some(ADispatched) || a == Some(ARunning) || a == Some(ACompleted)
    case PREEMPTION_REQUESTED => a == Some(ADispatched) || a == Some(ARunning) || a == Some(ACompleted)
    case PREEMPTED => a == Some(ADispatched) || a == Some(APreempted) || a == Some(ALost) || a == Some(ACompleted)
    case RESUMABLE => a == Some(ADispatched) || a == Some(APreempted) || a == Some(ALost) || a == Some(ACompleted)
    case RESUMING => a == Some(ADispatched) || a == Some(ACompleted)
    case AMBIGUOUS => a == Some(ALost) || a == Some(ACompleted)
    case COMMITTED => a == Some(ACompleted) || a == Some(ALost)
    case CANCELLED => a == None || a == Some(ACancelled) || a == Some(ALost) || a == Some(ACompleted)
    case _ => false
  }

  /** Without supersession the execution state bounds the current attempt's, and a history has a current attempt. */
  ghost predicate Coupled(rec: Record) {
    && MayPair(rec.state, CurrentState(rec))
    && (rec.attempts != [] ==> rec.current.Some?)
  }

  ghost predicate Head(rec: Record, strict: bool) {
    NamesLast(rec) && Counters(rec) && CommitFacts(rec) && (strict ==> Coupled(rec))
  }

  /** The invariant of a record; strict when no supersession has touched it. */
  ghost predicate Good(rec: Record, strict: bool) {
    History(rec.attempts, strict) && Head(rec, strict)
  }

  // ------------------------------------------------------------------------------------------
  // Loops over the history change the current attempt alone.
  // ------------------------------------------------------------------------------------------

  /** The effect of either loop, once identities are distinct and the current attempt is last. */
  function Touched(ats: seq<Attempt>, id: Option<AttemptId>, g: Guard, ch: Change): (r: seq<Attempt>)
    ensures |r| == |ats|
  {
    if ats != [] && Hit(Last(ats), id, g) then ats[|ats| - 1 := Changed(Last(ats), ch)] else ats
  }

  ghost predicate OnlyLast(ats: seq<Attempt>, id: Option<AttemptId>) {
    forall i :: 0 <= i < |ats| - 1 ==> id != Some(ats[i].id)
  }

  lemma {:induction false} FirstHitIsLast(ats: seq<Attempt>, id: Option<AttemptId>, g: Guard, k: nat)
    requires OnlyLast(ats, id) && k <= |ats|
    ensures FirstHit(ats, id, g, k) == if k < |ats| && Hit(Last(ats), id, g) then |ats| - 1 else |ats|
    decreases |ats| - k
  {
    if k < |ats| && !Hit(ats[k], id, g) {
      FirstHitIsLast(ats, id, g, k + 1);
    }
  }

  /** Every loop over the history changes the current attempt alone. */
  lemma LoopTouchesCurrent(rec: Record, strict: bool, g: Guard, ch: Change)
    requires History(rec.attempts, strict) && NamesLast(rec)
    ensures ChangeFirst(rec.attempts, rec.current, g, ch) == Touched(rec.attempts, rec.current, g, ch)
    ensures ChangeAll(rec.attempts, rec.current, g, ch) == Touched(rec.attempts, rec.current, g, ch)
  {
    assert OnlyLast(rec.attempts, rec.current);
    FirstHitIsLast(rec.attempts, rec.current, g, 0);
  }

  /** It changes no identity and no number. */
  lemma TouchedKeepsHistory(ats: seq<Attempt>, strict: bool, id: Option<AttemptId>, g: Guard, ch: Change)
    requires History(ats, strict)
    ensures History(Touched(ats, id, g, ch), strict)
  {}

  ghost predicate SameAuthority(a: Record, b: Record) {
    && a.generation == b.generation && a.ownership == b.ownership && a.fence == b.fence
    && a.current == b.current && a.currentGeneration == b.currentGeneration
    && a.owner == b.owner && a.ownerBoot == b.ownerBoot
  }

  /** Touching the current attempt and moving the execution state keeps the shape of authority. */
  lemma TouchKeepsShape(rec: Record, strict: bool, g: Guard, ch: Change, after: Record)
    requires History(rec.attempts, strict) && NamesLast(rec) && Counters(rec)
    requires ch != To(ASuperseded) && SameAuthority(rec, after)
    requires after.attempts == Touched(rec.attempts, rec.current, g, ch)
    requires rec.state != CREATED && rec.state != CANCELLED && after.state != CREATED
    ensures History(after.attempts, strict) && NamesLast(after) && Counters(after)
  {
    TouchedKeepsHistory(rec.attempts, strict, rec.current, g, ch);
  }

  lemma InstallExtendsHistory(strict: bool, ats: seq<Attempt>, at: Attempt)
    requires History(ats, strict) && Unused(ats, at.id, at.dispatchId)
    requires at.dispatchGeneration == 1 && at.generation >= 1
    requires at.ownership == at.fence == Saturated(|ats| + 2)
    requires strict ==> at.generation == Saturated(|ats| + 1)
    ensures History(ats + [at], strict)
  {}

  /** Retiring the current attempt and installing a fresh one. */
  lemma InstallKeeps(rec: Record, strict: bool, g: Guard, at: Attempt, after: Record)
    requires Good(rec, strict) && Unused(rec.attempts, at.id, at.dispatchId)
    requires rec.state != CREATED && rec.state != CANCELLED && !Terminal(rec.state)
    requires at == NewAttempt(rec, at.worker, at.boot, at.id, at.dispatchId)
    requires var ats := Touched(rec.attempts, rec.current, g, To(ASuperseded));
             after == Install(rec.(attempts := ats, resumption := after.resumption), at).(state := after.state)
    requires after.state == DISPATCHED || after.state == RESUMING
    ensures Good(after, strict)
  {
    var ats := Touched(rec.attempts, rec.current, g, To(ASuperseded));
    TouchedKeepsHistory(rec.attempts, strict, rec.current, g, To(ASuperseded));
    assert Unused(ats, at.id, at.dispatchId);
    InstallExtendsHistory(strict, ats, at);
    assert after.attempts == ats + [at];
  }

  // ------------------------------------------------------------------------------------------
  // The operations that loop over the history, in the form that matters here.
  // ------------------------------------------------------------------------------------------

  predicate Dispatchable(s: ExecutionState) {
    s.READY? || s.DISPATCHED? || s.RUNNING? || s.AMBIGUOUS? || s.RESUMING?
  }

  lemma DispatchForm(engine: U64, rec: Record, worker: WorkerId, boot: BootId, epoch: U64, aid: AttemptId, did: DispatchId)
    ensures var after := DispatchRecord(engine, rec, worker, boot, epoch, aid, did).rec;
            var ats := ChangeFirst(rec.attempts, rec.current, Unfinished, To(ASuperseded));
            || after == rec
            || (Dispatchable(rec.state)
                && after == Install(rec.(attempts := ats), NewAttempt(rec, worker, boot, aid, did)).(
                             state := if rec.state == RESUMING then RESUMING else DISPATCHED))
  {}

  lemma StartForm(engine: U64, rec: Record, t: Authority)
    ensures var after := StartRecord(engine, rec, t).rec;
            || after == rec
            || ((rec.state == DISPATCHED || rec.state == RESUMING) && rec.current == Some(t.attemptId)
                && after == rec.(attempts := ChangeFirst(rec.attempts, rec.current, AnyState, To(ARunning)), state := RUNNING))
  {}

  lemma CompleteForm(engine: U64, rec: Record, t: CompletionTicket, now: Text)
    ensures var after := CompleteRecord(engine, rec, t, now).rec;
            var marked := rec.(attempts := ChangeFirst(rec.attempts, rec.current, AnyState, Deliver(t.resultDigest)));
            || after == rec
            || (rec.current == Some(t.auth.attemptId) && !Terminal(rec.state) && rec.state != PREEMPTED
                && if MayMove(rec.state, COMPLETED)
                   then after == marked.(state := COMMITTED, committedDigest := Some(t.resultDigest),
                                        commit := Next(rec.commit), committedAt := now)
                   else after == marked)
  {}

  lemma AcknowledgePreemptForm(engine: U64, rec: Record, epoch: U64)
    ensures var after := AcknowledgePreemptRecord(engine, rec, epoch).rec;
            || after == rec
            || (rec.state == PREEMPTION_REQUESTED
                && after == rec.(attempts := ChangeAll(rec.attempts, rec.current, Unfinished, To(APreempted)), state := PREEMPTED))
  {}

  lemma DispatchKeeps(engine: U64, rec: Record, strict: bool, worker: WorkerId, boot: BootId, epoch: U64,
                      aid: AttemptId, did: DispatchId)
    requires Good(rec, strict) && Unused(rec.attempts, aid, did)
    ensures Good(DispatchRecord(engine, rec, worker, boot, epoch, aid, did).rec, strict)
  {
    var after := DispatchRecord(engine, rec, worker, boot, epoch, aid, did).rec;
    DispatchForm(engine, rec, worker, boot, epoch, aid, did);
    LoopTouchesCurrent(rec, strict, Unfinished, To(ASuperseded));
    if after != rec {
      InstallKeeps(rec, strict, Unfinished, NewAttempt(rec, worker, boot, aid, did), after);
    }
  }

  lemma ResumeKeeps(engine: U64, rec: Record, strict: bool, worker: WorkerId, boot: BootId, epoch: U64, gen: U64,
                    aid: AttemptId, did: DispatchId)
    requires Good(rec, strict) && Unused(rec.attempts, aid, did)
    ensures Good(ResumeRecord(engine, rec, worker, boot, epoch, gen, aid, did).rec, strict)
  {
    var after := ResumeRecord(engine, rec, worker, boot, epoch, gen, aid, did).rec;
    LoopTouchesCurrent(rec, strict, OnlyPreempted, To(ASuperseded));
    if after != rec {
      InstallKeeps(rec, strict, OnlyPreempted, NewAttempt(rec, worker, boot, aid, did), after);
    }
  }

  lemma StartKeeps(engine: U64, rec: Record, strict: bool, t: Authority)
    requires Good(rec, strict)
    ensures Good(StartRecord(engine, rec, t).rec, strict)
  {
    var after := StartRecord(engine, rec, t).rec;
    StartForm(engine, rec, t);
    LoopTouchesCurrent(rec, strict, AnyState, To(ARunning));
    if after != rec {
      TouchKeepsShape(rec, strict, AnyState, To(ARunning), after);
    }
  }

  lemma CompleteKeeps(engine: U64, rec: Record, strict: bool, t: CompletionTicket, now: Text)
    requires Good(rec, strict)
    ensures Good(CompleteRecord(engine, rec, t, now).rec, strict)
  {
    var after := CompleteRecord(engine, rec, t, now).rec;
    CompleteForm(engine, rec, t, now);
    LoopTouchesCurrent(rec, strict, AnyState, Deliver(t.resultDigest));
    if after != rec {
      assert rec.state != CREATED;
      TouchKeepsShape(rec, strict, AnyState, Deliver(t.resultDigest), after);
    }
  }

  lemma FinalizeCancelKeeps(engine: U64, rec: Record, strict: bool, epoch: U64)
    requires Good(rec, strict)
    ensures Good(FinalizeCancelRecord(engine, rec, epoch).rec, strict)
  {
    var after := FinalizeCancelRecord(engine, rec, epoch).rec;
    LoopTouchesCurrent(rec, strict, Unfinished, To(ACancelled));
    if after != rec {
      TouchKeepsShape(rec, strict, Unfinished, To(ACancelled), after);
    }
  }

  lemma AcknowledgePreemptKeeps(engine: U64, rec: Record, strict: bool, epoch: U64)
    requires Good(rec, strict)
    ensures Good(AcknowledgePreemptRecord(engine, rec, epoch).rec, strict)
  {
    var after := AcknowledgePreemptRecord(engine, rec, epoch).rec;
    AcknowledgePreemptForm(engine, rec, epoch);
    LoopTouchesCurrent(rec, strict, Unfinished, To(APreempted));
    if after != rec {
      TouchKeepsShape(rec, strict, Unfinished, To(APreempted), after);
    }
  }

  /** Where the loss of its worker takes an execution. */
  function LostTo(s: ExecutionState): ExecutionState {
    match s
    case DISPATCHED => READY
    case RUNNING => AMBIGUOUS
    case CANCELLATION_REQUESTED => CANCELLED
    case _ => PREEMPTED
  }

  lemma WorkerLostForm(engine: U64, rec: Record, worker: WorkerId, boot: BootId, epoch: U64)
    ensures var after := WorkerLostRecord(engine, rec, worker, boot, epoch).rec;
            || after == rec
            || ((rec.state == DISPATCHED || rec.state == RUNNING || rec.state == CANCELLATION_REQUESTED
                 || rec.state == PREEMPTION_REQUESTED)
                && rec.owner.Some?
                && after == rec.(attempts := ChangeAll(rec.attempts, rec.current, AnyState, To(ALost)), state := LostTo(rec.state)))
  {}

  lemma WorkerLostKeeps(engine: U64, rec: Record, strict: bool, worker: WorkerId, boot: BootId, epoch: U64)
    requires Good(rec, strict)
    ensures Good(WorkerLostRecord(engine, rec, worker, boot, epoch).rec, strict)
  {
    var after := WorkerLostRecord(engine, rec, worker, boot, epoch).rec;
    WorkerLostForm(engine, rec, worker, boot, epoch);
    LoopTouchesCurrent(rec, strict, AnyState, To(ALost));
    if after != rec {
      TouchKeepsShape(rec, strict, AnyState, To(ALost), after);
    }
  }

  /** A supersession that runs past its guards, of an execution that is ready or has a history. */
  predicate Breaks(engine: U64, rec: Record, op: Op) {
    && op.Supersede? && !Differs(op.epoch, engine, rec) && !Terminal(rec.state)
    && (rec.attempts != [] || rec.state == READY)
  }

  lemma SupersedeKeeps(engine: U64, rec: Record, strict: bool, op: Op)
    requires Good(rec, strict) && op.Supersede? && (strict ==> !Breaks(engine, rec, op))
    ensures Good(OnRecord(engine, rec, op).rec, strict)
  {
    LoopTouchesCurrent(rec, strict, Unfinished, To(ASuperseded));
    TouchedKeepsHistory(rec.attempts, strict, rec.current, Unfinished, To(ASuperseded));
  }

  lemma CancelKeeps(engine: U64, rec: Record, strict: bool, req: ControlRequest)
    requires Good(rec, strict)
    ensures Good(CancelRecord(engine, rec, req).rec, strict)
  {}

  lemma PreemptKeeps(engine: U64, rec: Record, strict: bool, req: ControlRequest)
    requires Good(rec, strict)
    ensures Good(PreemptRecord(engine, rec, req).rec, strict)
  {}

  lemma OtherKeeps(engine: U64, rec: Record, strict: bool, op: Op)
    requires Good(rec, strict) && (op.Create? || op.Activate? || op.MarkResumable? || op.RaiseEpoch?)
    ensures Good(OnRecord(engine, rec, op).rec, strict)
  {}

  /** Every operation keeps the invariant, and every operation but a breaking supersession keeps it strict. */
  lemma GoodKept(engine: U64, rec: Record, strict: bool, op: Op)
    requires Good(rec, strict) && FreshFor(rec, op) && (strict ==> !Breaks(engine, rec, op))
    ensures Good(OnRecord(engine, rec, op).rec, strict)
  {
    match op
    case Dispatch(_, worker, boot, epoch, aid, did) => DispatchKeeps(engine, rec, strict, worker, boot, epoch, aid, did);
    case MarkRunning(t) => StartKeeps(engine, rec, strict, t.auth);
    case Complete(t, now) => CompleteKeeps(engine, rec, strict, t, now);
    case FinalizeCancel(_, epoch) => FinalizeCancelKeeps(engine, rec, strict, epoch);
    case AcknowledgePreempt(_, epoch) => AcknowledgePreemptKeeps(engine, rec, strict, epoch);
    case Resume(_, worker, boot, epoch, gen, aid, did) =>
      ResumeKeeps(engine, rec, strict, worker, boot, epoch, gen, aid, did);
    case WorkerLost(_, worker, boot, epoch) => WorkerLostKeeps(engine, rec, strict, worker, boot, epoch);
    case Supersede(_, _) => SupersedeKeeps(engine, rec, strict, op);
    case Cancel(req) => CancelKeeps(engine, rec, strict, req);
    case Preempt(req) => PreemptKeeps(engine, rec, strict, req);
    case _ => OtherKeeps(engine, rec, strict, op);
  }

  /** The strict invariant is lost exactly by a breaking supersession. */
  lemma StrictKeptExactly(engine: U64, rec: Record, op: Op)
    requires Good(rec, true) && FreshFor(rec, op)
    ensures Good(OnRecord(engine, rec, op).rec, true) <==> !Breaks(engine, rec, op)
  {
    if !Breaks(engine, rec, op) {
      GoodKept(engine, rec, true, op);
    } else {
      BrokenIsUncoupled(engine, rec, op);
    }
  }

  lemma BrokenIsUncoupled(engine: U64, rec: Record, op: Op)
    requires Good(rec, true) && Breaks(engine, rec, op)
    ensures !Coupled(OnRecord(engine, rec, op).rec)
  {}

  // ------------------------------------------------------------------------------------------
  // Numbering.
  // ------------------------------------------------------------------------------------------

  /** A history without a current attempt. */
  predicate Unnamed(rec: Record) {
    rec.attempts != [] && rec.current.None?
  }
}
