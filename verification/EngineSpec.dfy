/**
 The authority engine as a function: what each operation decides and what it makes of one
 execution record, the step of the whole engine, and runs of steps.
 */
module EngineSpec {
  import opened Types
  import opened StateMachine

  // ------------------------------------------------------------------------------------------
  // Attempt history.
  // ------------------------------------------------------------------------------------------

  /** Which attempts a loop over the history picks, besides the identity it looks for. */
  datatype Guard = AnyState | Unfinished | OnlyPreempted

  /** What it does to them. */
  datatype Change = To(state: AttemptState) | Deliver(digest: Digest)

  predicate Hit(at: Attempt, id: Option<AttemptId>, g: Guard) {
    && id == Some(at.id)
    && match g
       case AnyState => true
       case Unfinished => !AttemptTerminal(at.state)
       case OnlyPreempted => at.state == APreempted
  }

  function MoveAttempt(at: Attempt, to: AttemptState): Attempt {
    if AttemptMayMove(at.state, to) then at.(state := to) else at
  }

  function Changed(at: Attempt, ch: Change): Attempt {
    match ch
    case To(to) => MoveAttempt(at, to)
    case Deliver(d) => MoveAttempt(at, ACompleted).(resultDigest := Some(d))
  }

  /** The loop without break. */
  function ChangeAll(ats: seq<Attempt>, id: Option<AttemptId>, g: Guard, ch: Change): (r: seq<Attempt>)
    ensures |r| == |ats|
    ensures forall i :: 0 <= i < |ats| ==> r[i] == if Hit(ats[i], id, g) then Changed(ats[i], ch) else ats[i]
  {
    seq(|ats|, i requires 0 <= i < |ats| => if Hit(ats[i], id, g) then Changed(ats[i], ch) else ats[i])
  }

  /** The first attempt a loop picks from position k on, or the length of the history. */
  function FirstHit(ats: seq<Attempt>, id: Option<AttemptId>, g: Guard, k: nat): (i: nat)
    requires k <= |ats|
    ensures k <= i <= |ats|
    ensures i < |ats| ==> Hit(ats[i], id, g)
    ensures forall j :: k <= j < i ==> !Hit(ats[j], id, g)
    decreases |ats| - k
  {
    if k == |ats| || Hit(ats[k], id, g) then k else FirstHit(ats, id, g, k + 1)
  }

  /** The loop that breaks after the first attempt it picks. */
  function ChangeFirst(ats: seq<Attempt>, id: Option<AttemptId>, g: Guard, ch: Change): (r: seq<Attempt>)
    ensures |r| == |ats|
  {
    var i := FirstHit(ats, id, g, 0);
    if i == |ats| then ats else ats[i := Changed(ats[i], ch)]
  }

  // ------------------------------------------------------------------------------------------
  // One record.
  // ------------------------------------------------------------------------------------------

  datatype Outcome = Outcome(rec: Record, code: Code, ticket: Option<DispatchTicket>)

  function Keep(rec: Record, code: Code): Outcome {
    Outcome(rec, code, None)
  }

  /** A guarded move of the execution state. */
  function Move(rec: Record, to: ExecutionState): Outcome {
    if MayMove(rec.state, to) then Keep(rec.(state := to), ALLOW) else Keep(rec, REJECT_ALREADY_TERMINAL)
  }

  function NewRecord(id: ExecutionId, epoch: U64, now: Text): Record {
    Record(id, 1, CREATED, epoch, 0, 0, None, None, None, None, 0, 0, 0, 0, 0, None, [], now, [])
  }

  predicate Older(e: U64, engine: U64, rec: Record) {
    e < engine || e < rec.epoch
  }

  predicate Differs(e: U64, engine: U64, rec: Record) {
    e != engine || e != rec.epoch
  }

  function ActivateRecord(engine: U64, rec: Record, epoch: U64): Outcome {
    if Older(epoch, engine, rec) then Keep(rec, REJECT_STALE_EPOCH)
    else if rec.state != CREATED then Keep(rec, REJECT_ALREADY_TERMINAL)
    else Move(rec.(ownership := 1, fence := 1), READY)
  }

  function NewAttempt(rec: Record, worker: WorkerId, boot: BootId, aid: AttemptId, did: DispatchId): Attempt {
    Attempt(aid,
            if rec.currentGeneration.Some? then Next(rec.currentGeneration.value) else 1,
            worker, boot, did, 1, Next(rec.ownership), Next(rec.fence), rec.state, ADispatched,
            None, None, None)
  }

  /** Make a freshly built attempt the current authority. */
  function Install(rec: Record, at: Attempt): Record {
    rec.(current := Some(at.id), currentGeneration := Some(at.generation),
         owner := Some(at.worker), ownerBoot := Some(at.boot),
         ownership := at.ownership, fence := at.fence, attempts := rec.attempts + [at])
  }

  function TicketFor(rec: Record, at: Attempt, epoch: U64): DispatchTicket {
    DispatchTicket(Authority(rec.id, rec.generation, at.id, at.generation, at.worker, at.boot, epoch,
                             at.dispatchId, at.dispatchGeneration, at.ownership, at.fence))
  }

  /** Supersede the current attempt, install a new one, move to DISPATCHED and hand out the ticket. */
  function Assign(rec: Record, worker: WorkerId, boot: BootId, epoch: U64, aid: AttemptId, did: DispatchId): Outcome {
    var at := NewAttempt(rec, worker, boot, aid, did);
    var ats := ChangeFirst(rec.attempts, rec.current, Unfinished, To(ASuperseded));
    var moved := Move(Install(rec.(attempts := ats), at), DISPATCHED);
    if moved.code != ALLOW then moved
    else Outcome(moved.rec, ALLOW, Some(TicketFor(moved.rec, at, epoch)))
  }

  /** The states from which nothing is dispatched, each with its decision. */
  function DispatchRefusal(s: ExecutionState): Option<Code> {
    match s
    case COMMITTED => Some(REJECT_ALREADY_COMMITTED)
    case CANCELLED => Some(REJECT_CANCELLED)
    case FAILED => Some(REJECT_ALREADY_TERMINAL)
    case SUPERSEDED => Some(REJECT_ALREADY_TERMINAL)
    case TERMINAL => Some(REJECT_ALREADY_TERMINAL)
    case PREEMPTED => Some(REJECT_PREEMPTED)
    case RESUMABLE => Some(REJECT_PREEMPTED)
    case CANCELLATION_REQUESTED => Some(DEFER)
    case PREEMPTION_REQUESTED => Some(DEFER)
    case COMPLETED => Some(REJECT_ALREADY_COMMITTED)
    case CREATED => Some(REJECT_NOT_OWNER)
    case COMPLETION_PENDING => Some(REJECT_NOT_OWNER)
    case _ => None
  }

  /**
   READY, DISPATCHED, RUNNING, AMBIGUOUS and RESUMING are dispatched; the table refuses the last
   one, but only after the authority has been rewritten.
   */
  function DispatchRecord(engine: U64, rec: Record, worker: WorkerId, boot: BootId, epoch: U64,
                          aid: AttemptId, did: DispatchId): Outcome {
    if Older(epoch, engine, rec) then Keep(rec, REJECT_STALE_EPOCH)
    else if DispatchRefusal(rec.state).Some? then Keep(rec, DispatchRefusal(rec.state).value)
    else Assign(rec, worker, boot, epoch, aid, did)
  }

  function ValidateStart(engine: U64, rec: Record, t: Authority): Code {
    if t.epoch != engine then REJECT_STALE_EPOCH
    else if t.executionGeneration != rec.generation then REJECT_STALE_GENERATION
    else if rec.current.None? || rec.currentGeneration.None? then REJECT_NO_CURRENT_ATTEMPT
    else if Some(t.attemptId) != rec.current || Some(t.attemptGeneration) != rec.currentGeneration then
      REJECT_STALE_ATTEMPT
    else if Some(t.worker) != rec.owner || Some(t.boot) != rec.ownerBoot then REJECT_STALE_BOOT
    else if t.ownership != rec.ownership then REJECT_NOT_OWNER
    else if t.fence != rec.fence then REJECT_STALE_GENERATION
    else ALLOW
  }

  function StartRecord(engine: U64, rec: Record, t: Authority): Outcome {
    if rec.state != DISPATCHED && rec.state != RESUMING then Keep(rec, REJECT_ALREADY_TERMINAL)
    else if ValidateStart(engine, rec, t) != ALLOW then Keep(rec, ValidateStart(engine, rec, t))
    else
      Move(rec.(attempts := ChangeFirst(rec.attempts, Some(t.attemptId), AnyState, To(ARunning))), RUNNING)
  }

  function ValidateCompletion(engine: U64, rec: Record, t: Authority): Code {
    if t.executionId == NIL || t.attemptId == NIL || t.worker == NIL || t.boot == NIL || t.dispatchId == NIL then
      REJECT_INSUFFICIENT_AUTHORITY
    else if t.attemptGeneration == 0 || t.executionGeneration == 0 || t.ownership == 0 || t.fence == 0 then
      REJECT_INSUFFICIENT_AUTHORITY
    else if Differs(t.epoch, engine, rec) then REJECT_STALE_EPOCH
    else if t.executionGeneration != rec.generation then REJECT_STALE_GENERATION
    else if rec.current.None? || rec.currentGeneration.None? then REJECT_NO_CURRENT_ATTEMPT
    else if Some(t.attemptId) != rec.current || Some(t.attemptGeneration) != rec.currentGeneration then
      REJECT_STALE_ATTEMPT
    else if Some(t.worker) != rec.owner then REJECT_NOT_OWNER
    else if Some(t.boot) != rec.ownerBoot then REJECT_STALE_BOOT
    else if t.ownership != rec.ownership then REJECT_STALE_GENERATION
    else if t.fence != rec.fence then REJECT_STALE_GENERATION
    else if exists i :: 0 <= i < |rec.attempts| && rec.attempts[i].id == t.attemptId
                        && rec.attempts[i].dispatchId != t.dispatchId then REJECT_STALE_ATTEMPT
    else ALLOW
  }

  function CompleteRecord(engine: U64, rec: Record, t: CompletionTicket, now: Text): Outcome {
    var valid := ValidateCompletion(engine, rec, t.auth);
    if valid != ALLOW then Keep(rec, valid)
    else if rec.state == COMMITTED then
      Keep(rec, if t.hasResult && rec.committedDigest == Some(t.resultDigest) then REJECT_ALREADY_COMMITTED
                else REJECT_CONFLICTING_COMPLETION)
    else if rec.state == CANCELLED then Keep(rec, REJECT_CANCELLED)
    else if Terminal(rec.state) then Keep(rec, REJECT_ALREADY_TERMINAL)
    else if rec.state == PREEMPTED then Keep(rec, REJECT_PREEMPTED)
    else if !t.hasResult || t.resultDigest == NIL_DIGEST then Keep(rec, REJECT_INSUFFICIENT_AUTHORITY)
    else
      var marked := rec.(attempts := ChangeFirst(rec.attempts, Some(t.auth.attemptId), AnyState, Deliver(t.resultDigest)));
      var completed := Move(marked, COMPLETED);
      if completed.code != ALLOW then completed
      else Move(completed.rec.(committedDigest := Some(t.resultDigest),
                               commit := Next(completed.rec.commit),
                               committedAt := now), COMMITTED)
  }

  function CancelRecord(engine: U64, rec: Record, req: ControlRequest): Outcome {
    if Differs(req.epoch, engine, rec) then Keep(rec, REJECT_STALE_EPOCH)
    else if req.authority != rec.ownership then Keep(rec, REJECT_NOT_OWNER)
    else if Terminal(rec.state) then Keep(rec, REJECT_ALREADY_TERMINAL)
    else if rec.state == CANCELLATION_REQUESTED then Keep(rec, ALLOW)
    else
      var counted := rec.(cancellation := Next(rec.cancellation));
      if rec.state == CREATED then Move(counted, CANCELLED)
      else if rec.state == READY || rec.state == DISPATCHED || rec.state == RUNNING then
        Move(counted, CANCELLATION_REQUESTED)
      else Keep(counted, REJECT_NOT_OWNER)
  }

  function FinalizeCancelRecord(engine: U64, rec: Record, epoch: U64): Outcome {
    if Older(epoch, engine, rec) then Keep(rec, REJECT_STALE_EPOCH)
    else if rec.state == CANCELLED then Keep(rec, ALLOW)
    else if rec.state != CANCELLATION_REQUESTED then Keep(rec, REJECT_NOT_OWNER)
    else
      Move(rec.(attempts := ChangeAll(rec.attempts, rec.current, Unfinished, To(ACancelled))), CANCELLED)
  }

  function PreemptRecord(engine: U64, rec: Record, req: ControlRequest): Outcome {
    if Differs(req.epoch, engine, rec) then Keep(rec, REJECT_STALE_EPOCH)
    else if req.authority != rec.ownership then Keep(rec, REJECT_NOT_OWNER)
    else if Terminal(rec.state) then Keep(rec, REJECT_ALREADY_TERMINAL)
    else if rec.state == PREEMPTION_REQUESTED then Keep(rec, ALLOW)
    else if rec.state == DISPATCHED || rec.state == RUNNING then
      Move(rec.(preemption := Next(rec.preemption)), PREEMPTION_REQUESTED)
    else Keep(rec, REJECT_NOT_OWNER)
  }

  function AcknowledgePreemptRecord(engine: U64, rec: Record, epoch: U64): Outcome {
    if Older(epoch, engine, rec) then Keep(rec, REJECT_STALE_EPOCH)
    else if rec.state != PREEMPTION_REQUESTED then Keep(rec, REJECT_NOT_OWNER)
    else
      Move(rec.(attempts := ChangeAll(rec.attempts, rec.current, Unfinished, To(APreempted))), PREEMPTED)
  }

  function MarkResumableRecord(engine: U64, rec: Record, epoch: U64): Outcome {
    if Older(epoch, engine, rec) then Keep(rec, REJECT_STALE_EPOCH)
    else if rec.state != PREEMPTED then Keep(rec, REJECT_NOT_OWNER)
    else Move(rec, RESUMABLE)
  }

  function ResumeRecord(engine: U64, rec: Record, worker: WorkerId, boot: BootId, epoch: U64, gen: U64,
                        aid: AttemptId, did: DispatchId): Outcome {
    if Differs(epoch, engine, rec) then Keep(rec, REJECT_STALE_EPOCH)
    else if rec.state != RESUMABLE then Keep(rec, REJECT_PREEMPTED)
    else if gen != Next(rec.resumption) then Keep(rec, REJECT_STALE_GENERATION)
    else
      var at := NewAttempt(rec, worker, boot, aid, did);
      var ats := ChangeFirst(rec.attempts, rec.current, OnlyPreempted, To(ASuperseded));
      var moved := Move(Install(rec.(resumption := gen, attempts := ats), at), RESUMING);
      if moved.code != ALLOW then moved
      else Outcome(moved.rec, RESUME_ALLOWED, Some(TicketFor(moved.rec, at, engine)))
  }

  function WorkerLostRecord(engine: U64, rec: Record, worker: WorkerId, boot: BootId, epoch: U64): Outcome {
    if Older(epoch, engine, rec) then Keep(rec, REJECT_STALE_EPOCH)
    else if Terminal(rec.state) then Keep(rec, REJECT_ALREADY_TERMINAL)
    else if rec.owner != Some(worker) || rec.ownerBoot != Some(boot) then Keep(rec, REJECT_STALE_BOOT)
    else
      var lost := rec.(attempts := ChangeAll(rec.attempts, rec.current, AnyState, To(ALost)));
      match rec.state
      case DISPATCHED => Move(lost, READY)
      case RUNNING => Move(lost, AMBIGUOUS)
      case CANCELLATION_REQUESTED => Move(lost, CANCELLED)
      case PREEMPTION_REQUESTED => Move(lost, PREEMPTED)
      case _ => Keep(rec, DEFER)
  }

  function SupersedeRecord(engine: U64, rec: Record, epoch: U64): Outcome {
    if Differs(epoch, engine, rec) then Keep(rec, REJECT_STALE_EPOCH)
    else if Terminal(rec.state) then Keep(rec, REJECT_ALREADY_TERMINAL)
    else
      Move(rec.(attempts := ChangeAll(rec.attempts, rec.current, Unfinished, To(ASuperseded)),
                generation := Next(rec.generation),
                current := None, currentGeneration := None, owner := None, ownerBoot := None), SUPERSEDED)
  }

  // ------------------------------------------------------------------------------------------
  // The engine.
  // ------------------------------------------------------------------------------------------

  /** Random identities and clock readings are parameters of the operation. */
  datatype Op =
    | Create(id: ExecutionId, epoch: U64, now: Text)
    | Activate(id: ExecutionId, epoch: U64)
    | Dispatch(id: ExecutionId, worker: WorkerId, boot: BootId, epoch: U64, aid: AttemptId, did: DispatchId)
    | MarkRunning(start: StartTicket)
    | Complete(completion: CompletionTicket, now: Text)
    | Cancel(request: ControlRequest)
    | FinalizeCancel(id: ExecutionId, epoch: U64)
    | Preempt(request: ControlRequest)
    | AcknowledgePreempt(id: ExecutionId, epoch: U64)
    | MarkResumable(id: ExecutionId, epoch: U64)
    | Resume(id: ExecutionId, worker: WorkerId, boot: BootId, epoch: U64, gen: U64, aid: AttemptId, did: DispatchId)
    | WorkerLost(id: ExecutionId, worker: WorkerId, boot: BootId, epoch: U64)
    | Supersede(id: ExecutionId, epoch: U64)
    | RaiseEpoch(epoch: U64)

  datatype State = State(epoch: U64, records: map<ExecutionId, Record>)

  datatype Result = Result(state: State, code: Code, ticket: Option<DispatchTicket>)

  /** The execution an operation names. */
  function Target(op: Op): Option<ExecutionId> {
    match op
    case MarkRunning(t) => Some(t.auth.executionId)
    case Complete(t, _) => Some(t.auth.executionId)
    case Cancel(r) => Some(r.executionId)
    case Preempt(r) => Some(r.executionId)
    case RaiseEpoch(_) => None
    case _ => Some(op.id)
  }

  /** What an operation makes of an existing record under the engine epoch. */
  function OnRecord(engine: U64, rec: Record, op: Op): Outcome {
    match op
    case Create(_, epoch, _) => Keep(rec, if epoch < engine then REJECT_STALE_EPOCH else REJECT_EXISTS)
    case Activate(_, epoch) => ActivateRecord(engine, rec, epoch)
    case Dispatch(_, worker, boot, epoch, aid, did) => DispatchRecord(engine, rec, worker, boot, epoch, aid, did)
    case MarkRunning(t) => StartRecord(engine, rec, t.auth)
    case Complete(t, now) => CompleteRecord(engine, rec, t, now)
    case Cancel(r) => CancelRecord(engine, rec, r)
    case FinalizeCancel(_, epoch) => FinalizeCancelRecord(engine, rec, epoch)
    case Preempt(r) => PreemptRecord(engine, rec, r)
    case AcknowledgePreempt(_, epoch) => AcknowledgePreemptRecord(engine, rec, epoch)
    case MarkResumable(_, epoch) => MarkResumableRecord(engine, rec, epoch)
    case Resume(_, worker, boot, epoch, gen, aid, did) => ResumeRecord(engine, rec, worker, boot, epoch, gen, aid, did)
    case WorkerLost(_, worker, boot, epoch) => WorkerLostRecord(engine, rec, worker, boot, epoch)
    case Supersede(_, epoch) => SupersedeRecord(engine, rec, epoch)
    case RaiseEpoch(_) => Keep(rec, ALLOW)
  }

  function Max(a: U64, b: U64): U64 {
    if a < b then b else a
  }

  /** The epoch only rises: creation, activation and dispatch adopt a newer one they are given. */
  function EpochAfter(s: State, op: Op): U64 {
    match op
    case Create(_, epoch, _) => Max(s.epoch, epoch)
    case RaiseEpoch(epoch) => Max(s.epoch, epoch)
    case Activate(id, epoch) => if id in s.records && !Older(epoch, s.epoch, s.records[id]) then epoch else s.epoch
    case Dispatch(id, _, _, epoch, _, _) =>
      if id in s.records && !Older(epoch, s.epoch, s.records[id]) then epoch else s.epoch
    case _ => s.epoch
  }

  /**
   One call. Activating or dispatching an unknown execution throws in the program: nothing is
   changed and there is no decision, which is written UNKNOWN here.
   */
  function Step(s: State, op: Op): Result {
    var epoch := EpochAfter(s, op);
    if op.RaiseEpoch? then Result(s.(epoch := epoch), ALLOW, None)
    else
      var id := Target(op).value;
      if id in s.records then
        var out := OnRecord(s.epoch, s.records[id], op);
        Result(State(epoch, s.records[id := out.rec]), out.code, out.ticket)
      else if op.Create? then
        if op.epoch < s.epoch then Result(s, REJECT_STALE_EPOCH, None)
        else Result(State(epoch, s.records[id := NewRecord(id, epoch, op.now)]), ALLOW, None)
      else if op.Activate? || op.Dispatch? then Result(s, UNKNOWN, None)
      else Result(s, REJECT_UNKNOWN_EXECUTION, None)
  }

  function Run(s: State, ops: seq<Op>): State
    decreases |ops|
  {
    if ops == [] then s else Run(Step(s, ops[0]).state, ops[1..])
  }

  function Empty(epoch: U64): State {
    State(epoch, map[])
  }

  // ------------------------------------------------------------------------------------------
  // Randomly drawn identities are not nil and do not repeat within an execution's history.
  // ------------------------------------------------------------------------------------------

  ghost predicate Unused(ats: seq<Attempt>, aid: AttemptId, did: DispatchId) {
    && aid != NIL && did != NIL
    && forall i :: 0 <= i < |ats| ==> ats[i].id != aid && ats[i].dispatchId != did
  }

  ghost predicate FreshFor(rec: Record, op: Op) {
    op.Dispatch? || op.Resume? ==> Unused(rec.attempts, op.aid, op.did)
  }

  ghost predicate Fresh(s: State, op: Op) {
    Target(op).Some? && Target(op).value in s.records ==> FreshFor(s.records[Target(op).value], op)
  }

  ghost predicate FreshRun(s: State, ops: seq<Op>)
    decreases |ops|
  {
    ops == [] || (Fresh(s, ops[0]) && FreshRun(Step(s, ops[0]).state, ops[1..]))
  }
}
