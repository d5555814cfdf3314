/** Executions do not interfere, and an execution changes state only so often. */
module EngineIndependence {
  import opened Types
  import opened StateMachine
  import opened EngineSpec
  import opened EngineInvariants
  import opened EngineRuns

  // ------------------------------------------------------------------------------------------
  // Under a fixed epoch an interleaved run is the product of the runs of its executions.
  // ------------------------------------------------------------------------------------------

  /** The operation brings no epoch above e. */
  predicate RaisesNothing(op: Op, e: U64) {
    op.Create? || op.Activate? || op.Dispatch? || op.RaiseEpoch? ==> op.epoch <= e
  }

  function Only(ops: seq<Op>, id: ExecutionId): seq<Op> {
    if ops == [] then []
    else (if Touches(ops[0], id) then [ops[0]] else []) + Only(ops[1..], id)
  }

  /** What the callers of an execution were told along a run. */
  function Answers(s: State, ops: seq<Op>, id: ExecutionId): seq<(Code, Option<DispatchTicket>)>
    decreases |ops|
  {
    if ops == [] then []
    else
      var r := Step(s, ops[0]);
      (if Touches(ops[0], id) then [(r.code, r.ticket)] else []) + Answers(r.state, ops[1..], id)
  }

  ghost predicate SameAt(a: State, b: State, id: ExecutionId) {
    && a.epoch == b.epoch
    && (id in a.records <==> id in b.records)
    && (id in a.records ==> a.records[id] == b.records[id])
  }

  lemma EpochFixed(s: State, op: Op)
    requires RaisesNothing(op, s.epoch)
    ensures Step(s, op).state.epoch == s.epoch
  {}

  lemma StepProjects(a: State, b: State, op: Op, id: ExecutionId)
    requires SameAt(a, b, id) && Touches(op, id)
    ensures SameAt(Step(a, op).state, Step(b, op).state, id)
    ensures Step(a, op).code == Step(b, op).code && Step(a, op).ticket == Step(b, op).ticket
  {}

  /** Record and answers of one execution after any interleaved run are those of its own operations alone. */
  lemma {:induction false} RunProjects(a: State, b: State, ops: seq<Op>, id: ExecutionId)
    requires SameAt(a, b, id) && forall op :: op in ops ==> RaisesNothing(op, a.epoch)
    ensures SameAt(Run(a, ops), Run(b, Only(ops, id)), id)
    ensures Answers(a, ops, id) == Answers(b, Only(ops, id), id)
    decreases |ops|
  {
    if ops != [] {
      var op := ops[0];
      var a1 := Step(a, op).state;
      EpochFixed(a, op);
      if Touches(op, id) {
        var b1 := Step(b, op).state;
        StepProjects(a, b, op, id);
        RunProjects(a1, b1, ops[1..], id);
        assert Only(ops, id)[0] == op && Only(ops, id)[1..] == Only(ops[1..], id);
      } else {
        StepIsLocal(a, op, id);
        RunProjects(a1, b, ops[1..], id);
        assert Only(ops, id) == Only(ops[1..], id);
      }
    }
  }

  lemma OtherFirst(s: State, x: Op, y: Op, k: ExecutionId)
    requires !Touches(x, k) && Touches(y, k) && RaisesNothing(x, s.epoch) && RaisesNothing(y, s.epoch)
    ensures Step(Step(s, x).state, y).code == Step(s, y).code && Step(Step(s, x).state, y).ticket == Step(s, y).ticket
    ensures SameAt(Step(Step(s, x).state, y).state, Step(Step(s, y).state, x).state, k)
  {
    var sx, sy := Step(s, x).state, Step(s, y).state;
    EpochFixed(s, x);
    EpochFixed(s, y);
    StepIsLocal(s, x, k);
    StepProjects(s, sx, y, k);
    EpochFixed(sy, x);
    StepIsLocal(sy, x, k);
  }

  lemma NeitherTouches(s: State, x: Op, y: Op, k: ExecutionId)
    requires !Touches(x, k) && !Touches(y, k)
    ensures var after := Step(Step(s, x).state, y).state;
            (k in after.records <==> k in s.records) && (k in s.records ==> after.records[k] == s.records[k])
  {
    StepIsLocal(s, x, k);
    StepIsLocal(Step(s, x).state, y, k);
  }

  /** Operations on distinct executions commute, with the same answers. */
  lemma DistinctCommute(s: State, x: Op, y: Op)
    requires Target(x).Some? && Target(y).Some? && Target(x) != Target(y)
    requires RaisesNothing(x, s.epoch) && RaisesNothing(y, s.epoch)
    ensures Step(Step(s, x).state, y).state == Step(Step(s, y).state, x).state
    ensures Step(Step(s, x).state, y).code == Step(s, y).code && Step(Step(s, y).state, x).code == Step(s, x).code
    ensures Step(Step(s, x).state, y).ticket == Step(s, y).ticket && Step(Step(s, y).state, x).ticket == Step(s, x).ticket
  {
    var a, b := Step(Step(s, x).state, y).state, Step(Step(s, y).state, x).state;
    OtherFirst(s, x, y, Target(y).value);
    OtherFirst(s, y, x, Target(x).value);
    forall k
      ensures SameAt(a, b, k)
    {
      if !Touches(x, k) && !Touches(y, k) {
        NeitherTouches(s, x, y, k);
        NeitherTouches(s, y, x, k);
      }
    }
    SameEverywhere(a, b);
  }

  lemma SameEverywhere(a: State, b: State)
    requires forall k :: SameAt(a, b, k)
    ensures a == b
  {
    assert SameAt(a, b, NIL);
    forall k
      ensures k in a.records <==> k in b.records
      ensures k in a.records ==> a.records[k] == b.records[k]
    {
      assert SameAt(a, b, k);
    }
    assert a.records == b.records;
  }

  // ------------------------------------------------------------------------------------------
  // State changes are bounded by the number of attempts.
  // ------------------------------------------------------------------------------------------

  /** How many more state changes are possible before another attempt has to be created. */
  function Rank(s: ExecutionState): nat {
    match s
    case DISPATCHED => 4
    case RESUMING => 4
    case CREATED => 3
    case RUNNING => 3
    case READY => 2
    case PREEMPTION_REQUESTED => 2
    case PREEMPTED => 1
    case CANCELLATION_REQUESTED => 1
    case AMBIGUOUS => 1
    case COMPLETION_PENDING => 1
    case _ => 0
  }

  ghost predicate Drops(rec: Record, after: Record) {
    |after.attempts| == |rec.attempts| && after.state != rec.state ==> Rank(after.state) < Rank(rec.state)
  }

  lemma IssueDrops(engine: U64, rec: Record, op: Op)
    requires op.Dispatch? || op.Resume?
    ensures Drops(rec, OnRecord(engine, rec, op).rec)
  {
    if op.Dispatch? {
      DispatchForm(engine, rec, op.worker, op.boot, op.epoch, op.aid, op.did);
    }
  }

  lemma ReportDrops(engine: U64, rec: Record, op: Op)
    requires op.MarkRunning? || op.Complete?
    ensures Drops(rec, OnRecord(engine, rec, op).rec)
  {
    if op.MarkRunning? {
      StartForm(engine, rec, op.start.auth);
    } else {
      CompleteForm(engine, rec, op.completion, op.now);
    }
  }

  lemma RankDrops(engine: U64, rec: Record, op: Op)
    ensures Drops(rec, OnRecord(engine, rec, op).rec)
  {
    match op
    case Dispatch(_, _, _, _, _, _) => IssueDrops(engine, rec, op);
    case Resume(_, _, _, _, _, _, _) => IssueDrops(engine, rec, op);
    case MarkRunning(_) => ReportDrops(engine, rec, op);
    case Complete(_, _) => ReportDrops(engine, rec, op);
    case _ =>
  }

  function StateAt(s: State, id: ExecutionId): Option<ExecutionState> {
    if id in s.records then Some(s.records[id].state) else None
  }

  function AttemptsAt(s: State, id: ExecutionId): nat {
    if id in s.records then |s.records[id].attempts| else 0
  }

  /** The operations of a run that change an execution's state, its creation included. */
  function StateChanges(s: State, ops: seq<Op>, id: ExecutionId): nat
    decreases |ops|
  {
    if ops == [] then 0
    else
      var after := Step(s, ops[0]).state;
      (if StateAt(after, id) != StateAt(s, id) then 1 else 0) + StateChanges(after, ops[1..], id)
  }

  function RankAt(s: State, id: ExecutionId): nat {
    if id in s.records then Rank(s.records[id].state) else 4
  }

  lemma StepSpendsRank(s: State, op: Op, id: ExecutionId)
    ensures var after := Step(s, op).state;
            && AttemptsAt(after, id) >= AttemptsAt(s, id)
            && (if StateAt(after, id) != StateAt(s, id) then 1 else 0) + RankAt(after, id)
                 <= RankAt(s, id) + 5 * (AttemptsAt(after, id) - AttemptsAt(s, id))
  {
    if !Touches(op, id) {
      StepIsLocal(s, op, id);
    } else if id in s.records {
      StepOnTarget(s, op, id);
      GrowsByOne(s.epoch, s.records[id], op);
      RankDrops(s.epoch, s.records[id], op);
    } else if id in Step(s, op).state.records {
      StepCreates(s, op, id);
    }
  }

  lemma {:induction false} ChangesSpendRank(s: State, ops: seq<Op>, id: ExecutionId)
    ensures AttemptsAt(Run(s, ops), id) >= AttemptsAt(s, id)
    ensures StateChanges(s, ops, id) + RankAt(Run(s, ops), id)
              <= RankAt(s, id) + 5 * (AttemptsAt(Run(s, ops), id) - AttemptsAt(s, id))
    decreases |ops|
  {
    if ops != [] {
      StepSpendsRank(s, ops[0], id);
      ChangesSpendRank(Step(s, ops[0]).state, ops[1..], id);
    }
  }

  /** In every run from an empty engine an execution changes state at most 5 times per attempt plus 4. */
  lemma StateChangesBounded(epoch: U64, ops: seq<Op>, id: ExecutionId)
    ensures StateChanges(Empty(epoch), ops, id) <= 5 * AttemptsAt(Run(Empty(epoch), ops), id) + 4
  {
    ChangesSpendRank(Empty(epoch), ops, id);
  }
}
