/** A run from an empty engine after which attempt generations have restarted at 1. */
module NumberingWitness {
  import opened Types
  import opened EngineSpec
  import opened EngineInvariants
  import opened EngineRuns
  import opened EngineIndependence

  /** An engine that knows one execution. */
  function Single(e: U64, rec: Record): State {
    State(e, map[rec.id := rec])
  }

  lemma OnlyStep(e: U64, rec: Record, op: Op, after: Record)
    requires Touches(op, rec.id) && !op.Create? && RaisesNothing(op, e)
    requires OnRecord(e, rec, op).rec == after
    ensures Step(Single(e, rec), op).state == Single(e, after)
    ensures Fresh(Single(e, rec), op) <==> FreshFor(rec, op)
  {
    StepOnTarget(Single(e, rec), op, rec.id);
    IdentityKept(e, rec, op);
    EpochFixed(Single(e, rec), op);
  }

  lemma RunCons(s: State, op: Op, rest: seq<Op>)
    ensures Run(s, [op] + rest) == Run(Step(s, op).state, rest)
    ensures FreshRun(s, [op] + rest) <==> Fresh(s, op) && FreshRun(Step(s, op).state, rest)
  {
    assert ([op] + rest)[0] == op && ([op] + rest)[1..] == rest;
  }

  // The eight operations, and the record after each of them.

  function AfterActivate(e: U64, id: ExecutionId): Record {
    NewRecord(id, e, []).(ownership := 1, fence := 1, state := READY)
  }

  function First(w: WorkerId, b: BootId): Attempt {
    Attempt(1, 1, w, b, 1, 1, 2, 2, READY, ADispatched, None, None, None)
  }

  function AfterDispatch(e: U64, id: ExecutionId, w: WorkerId, b: BootId): Record {
    AfterActivate(e, id).(current := Some(1), currentGeneration := Some(1), owner := Some(w), ownerBoot := Some(b),
                          ownership := 2, fence := 2, attempts := [First(w, b)], state := DISPATCHED)
  }

  function AfterPreempt(e: U64, id: ExecutionId, w: WorkerId, b: BootId): Record {
    AfterDispatch(e, id, w, b).(preemption := 1, state := PREEMPTION_REQUESTED)
  }

  /** The supersession is rejected, but the current attempt is gone. */
  function AfterSupersede(e: U64, id: ExecutionId, w: WorkerId, b: BootId): Record {
    AfterPreempt(e, id, w, b).(state := RESUMABLE, generation := 2, attempts := [First(w, b).(state := ASuperseded)],
                               current := None, currentGeneration := None, owner := None, ownerBoot := None)
  }

  function PreemptRequest(e: U64, id: ExecutionId): ControlRequest {
    ControlRequest(id, 0, e, 2, 0, 0, 0)
  }

  lemma Beginning(e: U64, id: ExecutionId, w: WorkerId, b: BootId)
    ensures OnRecord(e, NewRecord(id, e, []), Activate(id, e)).rec == AfterActivate(e, id)
    ensures OnRecord(e, AfterActivate(e, id), Dispatch(id, w, b, e, 1, 1)).rec == AfterDispatch(e, id, w, b)
    ensures OnRecord(e, AfterDispatch(e, id, w, b), Preempt(PreemptRequest(e, id))).rec == AfterPreempt(e, id, w, b)
  {}

  lemma Acknowledged(e: U64, id: ExecutionId, w: WorkerId, b: BootId)
    ensures var r := AfterPreempt(e, id, w, b);
            && OnRecord(e, r, AcknowledgePreempt(id, e)).rec == r.(state := PREEMPTED)
            && OnRecord(e, r.(state := PREEMPTED), MarkResumable(id, e)).rec == r.(state := RESUMABLE)
  {
    var r := AfterPreempt(e, id, w, b);
    assert ChangeAll(r.attempts, r.current, Unfinished, To(APreempted)) == r.attempts;
  }

  lemma Superseded(e: U64, id: ExecutionId, w: WorkerId, b: BootId)
    ensures var out := OnRecord(e, AfterPreempt(e, id, w, b).(state := RESUMABLE), Supersede(id, e));
            !Granted(out.code) && out.rec == AfterSupersede(e, id, w, b)
  {
    var r := AfterPreempt(e, id, w, b);
    assert ChangeAll(r.attempts, r.current, Unfinished, To(ASuperseded)) == [First(w, b).(state := ASuperseded)];
  }

  lemma End(e: U64, id: ExecutionId, w: WorkerId, b: BootId)
    ensures var after := OnRecord(e, AfterSupersede(e, id, w, b), Resume(id, w, b, e, 1, 2, 2)).rec;
            |after.attempts| == 2 && after.attempts[1].generation == 1 && after.attempts[1].ownership == 3
  {}

  function Late(e: U64, id: ExecutionId, w: WorkerId, b: BootId): seq<Op> {
    [AcknowledgePreempt(id, e)] + ([MarkResumable(id, e)] + ([Supersede(id, e)] + ([Resume(id, w, b, e, 1, 2, 2)] + [])))
  }

  function Early(e: U64, id: ExecutionId, w: WorkerId, b: BootId, late: seq<Op>): seq<Op> {
    [Create(id, e, [])] + ([Activate(id, e)] + ([Dispatch(id, w, b, e, 1, 1)] + ([Preempt(PreemptRequest(e, id))] + late)))
  }

  lemma EarlyRun(e: U64, id: ExecutionId, w: WorkerId, b: BootId, late: seq<Op>)
    ensures Run(Empty(e), Early(e, id, w, b, late)) == Run(Single(e, AfterPreempt(e, id, w, b)), late)
    ensures FreshRun(Empty(e), Early(e, id, w, b, late)) <==> FreshRun(Single(e, AfterPreempt(e, id, w, b)), late)
  {
    var preempt, dispatch := Preempt(PreemptRequest(e, id)), Dispatch(id, w, b, e, 1, 1);
    Beginning(e, id, w, b);
    OnlyStep(e, NewRecord(id, e, []), Activate(id, e), AfterActivate(e, id));
    OnlyStep(e, AfterActivate(e, id), dispatch, AfterDispatch(e, id, w, b));
    OnlyStep(e, AfterDispatch(e, id, w, b), preempt, AfterPreempt(e, id, w, b));
    RunCons(Single(e, AfterDispatch(e, id, w, b)), preempt, late);
    RunCons(Single(e, AfterActivate(e, id)), dispatch, [preempt] + late);
    RunCons(Single(e, NewRecord(id, e, [])), Activate(id, e), [dispatch] + ([preempt] + late));
    RunCons(Empty(e), Create(id, e, []), [Activate(id, e)] + ([dispatch] + ([preempt] + late)));
    Created(e, id);
  }

  lemma Created(e: U64, id: ExecutionId)
    ensures Step(Empty(e), Create(id, e, [])).state == Single(e, NewRecord(id, e, []))
  {}

  lemma LateRun(e: U64, id: ExecutionId, w: WorkerId, b: BootId)
    ensures var s := Single(e, AfterPreempt(e, id, w, b));
            && FreshRun(s, Late(e, id, w, b))
            && Run(s, Late(e, id, w, b)) == Single(e, OnRecord(e, AfterSupersede(e, id, w, b), Resume(id, w, b, e, 1, 2, 2)).rec)
  {
    var r, cut, resume := AfterPreempt(e, id, w, b), AfterSupersede(e, id, w, b), Resume(id, w, b, e, 1, 2, 2);
    Acknowledged(e, id, w, b);
    Superseded(e, id, w, b);
    OnlyStep(e, r, AcknowledgePreempt(id, e), r.(state := PREEMPTED));
    OnlyStep(e, r.(state := PREEMPTED), MarkResumable(id, e), r.(state := RESUMABLE));
    OnlyStep(e, r.(state := RESUMABLE), Supersede(id, e), cut);
    OnlyStep(e, cut, resume, OnRecord(e, cut, resume).rec);
    RunCons(Single(e, cut), resume, []);
    RunCons(Single(e, r.(state := RESUMABLE)), Supersede(id, e), [resume] + []);
    RunCons(Single(e, r.(state := PREEMPTED)), MarkResumable(id, e), [Supersede(id, e)] + ([resume] + []));
    RunCons(Single(e, r), AcknowledgePreempt(id, e), [MarkResumable(id, e)] + ([Supersede(id, e)] + ([resume] + [])));
  }

  /** Eight operations whose second attempt has generation 1: the numbering is lost. */
  lemma NumberingIsLost(e: U64, id: ExecutionId, w: WorkerId, b: BootId)
    ensures var ops := Early(e, id, w, b, Late(e, id, w, b));
            && FreshRun(Empty(e), ops) && id in Run(Empty(e), ops).records
            && var ats := Run(Empty(e), ops).records[id].attempts;
               |ats| == 2 && ats[1].generation == 1 && ats[1].ownership == 3 && !WellNumbered(ats, true)
  {
    EarlyRun(e, id, w, b, Late(e, id, w, b));
    LateRun(e, id, w, b);
    End(e, id, w, b);
    IdentityKept(e, AfterSupersede(e, id, w, b), Resume(id, w, b, e, 1, 2, 2));
  }
}
