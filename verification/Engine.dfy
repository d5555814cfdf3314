/** The authority engine as the object the coordinator drives, proved against its step function. */
module Engine {
  import opened Types
  import opened StateMachine
  import opened Listing
  import Spec = EngineSpec

  /** The loop over the history without break. */
  method ChangeEvery(ats: seq<Attempt>, id: Option<AttemptId>, g: Spec.Guard, ch: Spec.Change) returns (r: seq<Attempt>)
    ensures r == Spec.ChangeAll(ats, id, g, ch)
  {
    r := ats;
    for i := 0 to |ats|
      invariant |r| == |ats|
      invariant forall j :: 0 <= j < i ==> r[j] == if Spec.Hit(ats[j], id, g) then Spec.Changed(ats[j], ch) else ats[j]
      invariant forall j :: i <= j < |ats| ==> r[j] == ats[j]
    {
      if Spec.Hit(r[i], id, g) {
        r := r[i := Spec.Changed(r[i], ch)];
      }
    }
  }

  /** The loop that breaks after its first hit. */
  method ChangeOne(ats: seq<Attempt>, id: Option<AttemptId>, g: Spec.Guard, ch: Spec.Change) returns (r: seq<Attempt>)
    ensures r == Spec.ChangeFirst(ats, id, g, ch)
  {
    r := ats;
    for i := 0 to |ats|
      invariant r == ats
      invariant Spec.FirstHit(ats, id, g, 0) == Spec.FirstHit(ats, id, g, i)
    {
      if Spec.Hit(r[i], id, g) {
        r := r[i := Spec.Changed(r[i], ch)];
        break;
      }
    }
  }

  class ExecutionEngine {
    var epoch: U64
    var records: map<ExecutionId, Record>

    ghost function Snapshot(): Spec.State
      reads this
    {
      Spec.State(epoch, records)
    }

    constructor (initial: U64)
      ensures Snapshot() == Spec.Empty(initial)
    {
      epoch := initial;
      records := map[];
    }

    method AdoptEpoch(e: U64)
      modifies this`epoch
      ensures epoch == Spec.Max(old(epoch), e)
    {
      if e > epoch {
        epoch := e;
      }
    }

    method RaiseEpoch(e: U64)
      modifies this
      ensures Snapshot() == Spec.Step(old(Snapshot()), Spec.RaiseEpoch(e)).state
    {
      AdoptEpoch(e);
    }

    /** Install recovered records; of equal identities the first stays, and the epoch never goes backward. */
    method ReplaceRecords(recs: seq<Record>)
      modifies this
      ensures records == Emplaced(recs) && IsHighest(epoch, old(epoch), records)
      ensures DistinctRecords(recs) ==> epoch == Highest(old(epoch), recs)
    {
      records := map[];
      for i := 0 to |recs|
        invariant records == Emplaced(recs[..i])
        invariant epoch == old(epoch)
      {
        assert recs[..i + 1][..i] == recs[..i];
        if recs[i].id !in records {
          records := records[recs[i].id := recs[i]];
        }
      }
      assert recs[..|recs|] == recs;
      var left := records.Keys;
      while left != {}
        invariant left <= records.Keys && records == Emplaced(recs)
        invariant epoch >= old(epoch) && forall id :: id in records && id !in left ==> records[id].epoch <= epoch
        invariant epoch == old(epoch) || exists id :: id in records && records[id].epoch == epoch
      {
        var id :| id in left;
        if records[id].epoch > epoch {
          epoch := records[id].epoch;
        }
        left := left - {id};
      }
      if DistinctRecords(recs) {
        HighestIsHighest(old(epoch), recs);
      }
    }

    /** A copy of all records, ordered by identity. */
    method Records() returns (recs: seq<Record>)
      requires KeyedMap(records)
      ensures recs == ListingOf(records)
    {
      recs := [];
      ghost var done: Records := map[];
      var left := records.Keys;
      while left != {}
        invariant left <= records.Keys && done == records - left
        invariant Lists(recs, done)
      {
        var id :| id in left;
        InsertLists(recs, done, records[id]);
        recs := Insert(recs, records[id]);
        left := left - {id};
        done := done[id := records[id]];
      }
      assert done == records;
      ListingLists(records);
      ListingUnique(recs, ListingOf(records), records);
    }

    /** A guarded state move of a record held in a local. */
    static method Transition(rec: Record, to: ExecutionState) returns (after: Record, code: Code)
      ensures Spec.Keep(after, code) == Spec.Move(rec, to)
    {
      if !MayMove(rec.state, to) {
        return rec, REJECT_ALREADY_TERMINAL;
      }
      return rec.(state := to), ALLOW;
    }

    method Create(id: ExecutionId, e: U64, now: Text) returns (code: Code)
      modifies this
      ensures var r := Spec.Step(old(Snapshot()), Spec.Create(id, e, now));
              Snapshot() == r.state && code == r.code
    {
      if e < epoch {
        return REJECT_STALE_EPOCH;
      }
      AdoptEpoch(e);
      if id in records {
        assert records[id := records[id]] == records;
        return REJECT_EXISTS;
      }
      records := records[id := Spec.NewRecord(id, epoch, now)];
      return ALLOW;
    }

    method Activate(id: ExecutionId, e: U64) returns (code: Code)
      requires id in records
      modifies this
      ensures var r := Spec.Step(old(Snapshot()), Spec.Activate(id, e));
              Snapshot() == r.state && code == r.code
    {
      var rec := records[id];
      if e < epoch || e < rec.epoch {
        assert records[id := rec] == records;
        return REJECT_STALE_EPOCH;
      }
      AdoptEpoch(e);
      if rec.state != CREATED {
        assert records[id := rec] == records;
        return REJECT_ALREADY_TERMINAL;
      }
      rec := rec.(ownership := 1, fence := 1);
      rec, code := Transition(rec, READY);
      records := records[id := rec];
    }

    method Dispatch(id: ExecutionId, worker: WorkerId, boot: BootId, e: U64, aid: AttemptId, did: DispatchId)
      returns (code: Code, ticket: Option<DispatchTicket>)
      requires id in records
      modifies this
      ensures var r := Spec.Step(old(Snapshot()), Spec.Dispatch(id, worker, boot, e, aid, did));
              Snapshot() == r.state && code == r.code && ticket == r.ticket
    {
      var rec := records[id];
      ticket := None;
      assert records[id := rec] == records;
      if e < epoch || e < rec.epoch {
        code := REJECT_STALE_EPOCH;
        return;
      }
      AdoptEpoch(e);
      var refusal := RefuseDispatch(rec.state);
      if refusal.Some? {
        code := refusal.value;
        return;
      }
      rec, code, ticket := Assign(rec, worker, boot, epoch, aid, did);
      records := records[id := rec];
    }

    static method RefuseDispatch(state: ExecutionState) returns (code: Option<Code>)
      ensures code == Spec.DispatchRefusal(state)
    {
      if state == COMMITTED {
        return Some(REJECT_ALREADY_COMMITTED);
      }
      if state == CANCELLED {
        return Some(REJECT_CANCELLED);
      }
      if state == FAILED || state == SUPERSEDED || state == TERMINAL {
        return Some(REJECT_ALREADY_TERMINAL);
      }
      if state == PREEMPTED || state == RESUMABLE {
        return Some(REJECT_PREEMPTED);
      }
      if state == CANCELLATION_REQUESTED || state == PREEMPTION_REQUESTED {
        return Some(DEFER);
      }
      if state == COMPLETED {
        return Some(REJECT_ALREADY_COMMITTED);
      }
      if !(state == READY || state == DISPATCHED || state == RUNNING || state == AMBIGUOUS || state == RESUMING) {
        return Some(REJECT_NOT_OWNER);
      }
      return None;
    }

    static method Assign(r: Record, worker: WorkerId, boot: BootId, e: U64, aid: AttemptId, did: DispatchId)
      returns (rec: Record, code: Code, ticket: Option<DispatchTicket>)
      ensures Spec.Outcome(rec, code, ticket) == Spec.Assign(r, worker, boot, e, aid, did)
    {
      var at := Spec.NewAttempt(r, worker, boot, aid, did);
      var ats := ChangeOne(r.attempts, r.current, Spec.Unfinished, Spec.To(ASuperseded));
      rec := Spec.Install(r.(attempts := ats), at);
      rec, code := Transition(rec, DISPATCHED);
      ticket := if code == ALLOW then Some(Spec.TicketFor(rec, at, e)) else None;
    }

    method MarkRunning(t: StartTicket) returns (code: Code)
      modifies this
      ensures var r := Spec.Step(old(Snapshot()), Spec.MarkRunning(t));
              Snapshot() == r.state && code == r.code
    {
      var id := t.auth.executionId;
      if id !in records {
        return REJECT_UNKNOWN_EXECUTION;
      }
      var rec := records[id];
      assert records[id := rec] == records;
      if rec.state != DISPATCHED && rec.state != RESUMING {
        return REJECT_ALREADY_TERMINAL;
      }
      code := Spec.ValidateStart(epoch, rec, t.auth);
      if code != ALLOW {
        return;
      }
      var ats := ChangeOne(rec.attempts, Some(t.auth.attemptId), Spec.AnyState, Spec.To(ARunning));
      rec, code := Transition(rec.(attempts := ats), RUNNING);
      records := records[id := rec];
    }

    method Complete(t: CompletionTicket, now: Text) returns (code: Code)
      modifies this
      ensures var r := Spec.Step(old(Snapshot()), Spec.Complete(t, now));
              Snapshot() == r.state && code == r.code
    {
      var id := t.auth.executionId;
      if id !in records {
        return REJECT_UNKNOWN_EXECUTION;
      }
      var rec := records[id];
      assert records[id := rec] == records;
      code := Spec.ValidateCompletion(epoch, rec, t.auth);
      if code != ALLOW {
        return;
      }
      if rec.state == COMMITTED {
        code := REJECT_ALREADY_COMMITTED;
        if !(t.hasResult && rec.committedDigest == Some(t.resultDigest)) {
          code := REJECT_CONFLICTING_COMPLETION;
        }
        return;
      }
      if Terminal(rec.state) {
        code := if rec.state == CANCELLED then REJECT_CANCELLED else REJECT_ALREADY_TERMINAL;
        return;
      }
      if rec.state == PREEMPTED {
        return REJECT_PREEMPTED;
      }
      if !t.hasResult || t.resultDigest == NIL_DIGEST {
        return REJECT_INSUFFICIENT_AUTHORITY;
      }
      var ats := ChangeOne(rec.attempts, Some(t.auth.attemptId), Spec.AnyState, Spec.Deliver(t.resultDigest));
      rec, code := Transition(rec.(attempts := ats), COMPLETED);
      if code == ALLOW {
        rec := rec.(committedDigest := Some(t.resultDigest), commit := Next(rec.commit), committedAt := now);
        rec, code := Transition(rec, COMMITTED);
      }
      records := records[id := rec];
    }

    method Cancel(req: ControlRequest) returns (code: Code)
      modifies this
      ensures var r := Spec.Step(old(Snapshot()), Spec.Cancel(req));
              Snapshot() == r.state && code == r.code
    {
      var id := req.executionId;
      if id !in records {
        return REJECT_UNKNOWN_EXECUTION;
      }
      var rec := records[id];
      assert records[id := rec] == records;
      if req.epoch != epoch || req.epoch != rec.epoch {
        return REJECT_STALE_EPOCH;
      }
      if req.authority != rec.ownership {
        return REJECT_NOT_OWNER;
      }
      if Terminal(rec.state) {
        return REJECT_ALREADY_TERMINAL;
      }
      if rec.state == CANCELLATION_REQUESTED {
        return ALLOW;
      }
      rec := rec.(cancellation := Next(rec.cancellation));
      if rec.state == CREATED {
        rec, code := Transition(rec, CANCELLED);
      } else if rec.state == READY || rec.state == DISPATCHED || rec.state == RUNNING {
        rec, code := Transition(rec, CANCELLATION_REQUESTED);
      } else {
        code := REJECT_NOT_OWNER;
      }
      records := records[id := rec];
    }

    method FinalizeCancel(id: ExecutionId, e: U64) returns (code: Code)
      modifies this
      ensures var r := Spec.Step(old(Snapshot()), Spec.FinalizeCancel(id, e));
              Snapshot() == r.state && code == r.code
    {
      if id !in records {
        return REJECT_UNKNOWN_EXECUTION;
      }
      var rec := records[id];
      assert records[id := rec] == records;
      if e < epoch || e < rec.epoch {
        return REJECT_STALE_EPOCH;
      }
      if rec.state == CANCELLED {
        return ALLOW;
      }
      if rec.state != CANCELLATION_REQUESTED {
        return REJECT_NOT_OWNER;
      }
      var ats := ChangeEvery(rec.attempts, rec.current, Spec.Unfinished, Spec.To(ACancelled));
      rec, code := Transition(rec.(attempts := ats), CANCELLED);
      records := records[id := rec];
    }

    method Preempt(req: ControlRequest) returns (code: Code)
      modifies this
      ensures var r := Spec.Step(old(Snapshot()), Spec.Preempt(req));
              Snapshot() == r.state && code == r.code
    {
      var id := req.executionId;
      if id !in records {
        return REJECT_UNKNOWN_EXECUTION;
      }
      var rec := records[id];
      assert records[id := rec] == records;
      if req.epoch != epoch || req.epoch != rec.epoch {
        return REJECT_STALE_EPOCH;
      }
      if req.authority != rec.ownership {
        return REJECT_NOT_OWNER;
      }
      if Terminal(rec.state) {
        return REJECT_ALREADY_TERMINAL;
      }
      if rec.state == PREEMPTION_REQUESTED {
        return ALLOW;
      }
      if rec.state == DISPATCHED || rec.state == RUNNING {
        rec, code := Transition(rec.(preemption := Next(rec.preemption)), PREEMPTION_REQUESTED);
        records := records[id := rec];
        return;
      }
      return REJECT_NOT_OWNER;
    }

    method AcknowledgePreempt(id: ExecutionId, e: U64) returns (code: Code)
      modifies this
      ensures var r := Spec.Step(old(Snapshot()), Spec.AcknowledgePreempt(id, e));
              Snapshot() == r.state && code == r.code
    {
      if id !in records {
        return REJECT_UNKNOWN_EXECUTION;
      }
      var rec := records[id];
      assert records[id := rec] == records;
      if e < epoch || e < rec.epoch {
        return REJECT_STALE_EPOCH;
      }
      if rec.state != PREEMPTION_REQUESTED {
        return REJECT_NOT_OWNER;
      }
      var ats := ChangeEvery(rec.attempts, rec.current, Spec.Unfinished, Spec.To(APreempted));
      rec, code := Transition(rec.(attempts := ats), PREEMPTED);
      records := records[id := rec];
    }

    method MarkResumable(id: ExecutionId, e: U64) returns (code: Code)
      modifies this
      ensures var r := Spec.Step(old(Snapshot()), Spec.MarkResumable(id, e));
              Snapshot() == r.state && code == r.code
    {
      if id !in records {
        return REJECT_UNKNOWN_EXECUTION;
      }
      var rec := records[id];
      assert records[id := rec] == records;
      if e < epoch || e < rec.epoch {
        return REJECT_STALE_EPOCH;
      }
      if rec.state != PREEMPTED {
        return REJECT_NOT_OWNER;
      }
      rec, code := Transition(rec, RESUMABLE);
      records := records[id := rec];
    }

    method Resume(id: ExecutionId, worker: WorkerId, boot: BootId, e: U64, gen: U64, aid: AttemptId, did: DispatchId)
      returns (code: Code, ticket: Option<DispatchTicket>)
      modifies this
      ensures var r := Spec.Step(old(Snapshot()), Spec.Resume(id, worker, boot, e, gen, aid, did));
              Snapshot() == r.state && code == r.code && ticket == r.ticket
    {
      ticket := None;
      if id !in records {
        code := REJECT_UNKNOWN_EXECUTION;
        return;
      }
      var rec := records[id];
      assert records[id := rec] == records;
      if e != epoch || e != rec.epoch {
        code := REJECT_STALE_EPOCH;
        return;
      }
      if rec.state != RESUMABLE {
        code := REJECT_PREEMPTED;
        return;
      }
      if gen != Next(rec.resumption) {
        code := REJECT_STALE_GENERATION;
        return;
      }
      var at := Spec.NewAttempt(rec, worker, boot, aid, did);
      var ats := ChangeOne(rec.attempts, rec.current, Spec.OnlyPreempted, Spec.To(ASuperseded));
      rec := Spec.Install(rec.(resumption := gen, attempts := ats), at);
      rec, code := Transition(rec, RESUMING);
      records := records[id := rec];
      if code == ALLOW {
        ticket := Some(Spec.TicketFor(rec, at, epoch));
        code := RESUME_ALLOWED;
      }
    }

    method MarkWorkerLost(id: ExecutionId, worker: WorkerId, boot: BootId, e: U64) returns (code: Code)
      modifies this
      ensures var r := Spec.Step(old(Snapshot()), Spec.WorkerLost(id, worker, boot, e));
              Snapshot() == r.state && code == r.code
    {
      if id !in records {
        return REJECT_UNKNOWN_EXECUTION;
      }
      var rec := records[id];
      assert records[id := rec] == records;
      if e < epoch || e < rec.epoch {
        return REJECT_STALE_EPOCH;
      }
      if Terminal(rec.state) {
        return REJECT_ALREADY_TERMINAL;
      }
      if rec.owner != Some(worker) || rec.ownerBoot != Some(boot) {
        return REJECT_STALE_BOOT;
      }
      var to: ExecutionState;
      match rec.state {
        case DISPATCHED => to := READY;
        case RUNNING => to := AMBIGUOUS;
        case CANCELLATION_REQUESTED => to := CANCELLED;
        case PREEMPTION_REQUESTED => to := PREEMPTED;
        case _ => return DEFER;
      }
      var ats := ChangeEvery(rec.attempts, rec.current, Spec.AnyState, Spec.To(ALost));
      rec, code := Transition(rec.(attempts := ats), to);
      records := records[id := rec];
    }

    method Supersede(id: ExecutionId, e: U64) returns (code: Code)
      modifies this
      ensures var r := Spec.Step(old(Snapshot()), Spec.Supersede(id, e));
              Snapshot() == r.state && code == r.code
    {
      if id !in records {
        return REJECT_UNKNOWN_EXECUTION;
      }
      var rec := records[id];
      assert records[id := rec] == records;
      if e != epoch || e != rec.epoch {
        return REJECT_STALE_EPOCH;
      }
      if Terminal(rec.state) {
        return REJECT_ALREADY_TERMINAL;
      }
      var ats := ChangeEvery(rec.attempts, rec.current, Spec.Unfinished, Spec.To(ASuperseded));
      rec := rec.(attempts := ats, generation := Next(rec.generation),
                  current := None, currentGeneration := None, owner := None, ownerBoot := None);
      rec, code := Transition(rec, SUPERSEDED);
      records := records[id := rec];
    }
  }
}
