/** Safety of the authority engine over whole runs. */
module EngineRuns {
  import opened Types
  import opened StateMachine
  import opened EngineSpec
  import opened EngineInvariants

  // ------------------------------------------------------------------------------------------
  // Steps, seen from one execution.
  // ------------------------------------------------------------------------------------------

  predicate Touches(op: Op, id: ExecutionId) {
    Target(op) == Some(id)
  }

  /** An operation leaves every other execution alone. */
  lemma StepIsLocal(s: State, op: Op, id: ExecutionId)
    requires !Touches(op, id)
    ensures var after := Step(s, op).state;
            (id in after.records <==> id in s.records) && (id in s.records ==> after.records[id] == s.records[id])
  {}

  lemma StepOnTarget(s: State, op: Op, id: ExecutionId)
    requires Touches(op, id) && id in s.records
    ensures var r := Step(s, op);
            var out := OnRecord(s.epoch, s.records[id], op);
            id in r.state.records && r.state.records[id] == out.rec && r.code == out.code && r.ticket == out.ticket
  {}

  lemma StepCreates(s: State, op: Op, id: ExecutionId)
    requires id !in s.records && id in Step(s, op).state.records
    ensures op.Create? && op.id == id && Step(s, op).state.records[id] == NewRecord(id, op.epoch, op.now)
  {}

  lemma EpochRises(s: State, op: Op)
    ensures Step(s, op).state.epoch >= s.epoch
  {}

  lemma {:induction false} RunConcat(s: State, a: seq<Op>, b: seq<Op>)
    ensures Run(s, a + b) == Run(Run(s, a), b)
    ensures FreshRun(s, a + b) <==> FreshRun(s, a) && FreshRun(Run(s, a), b)
    decreases |a|
  {
    if a == [] {
      assert a + b == b;
    } else {
      assert (a + b)[0] == a[0] && (a + b)[1..] == a[1..] + b;
      RunConcat(Step(s, a[0]).state, a[1..], b);
    }
  }

  // ------------------------------------------------------------------------------------------
  // The invariant in every run.
  // ------------------------------------------------------------------------------------------

  predicate Supersedes(op: Op, id: ExecutionId) {
    op.Supersede? && op.id == id
  }

  ghost predicate GoodAt(s: State, id: ExecutionId, strict: bool) {
    id in s.records ==> s.records[id].id == id && Good(s.records[id], strict)
  }

  lemma IdentityKept(engine: U64, rec: Record, op: Op)
    ensures OnRecord(engine, rec, op).rec.id == rec.id
    ensures OnRecord(engine, rec, op).rec.epoch == rec.epoch
  {}

  ghost predicate BreaksAt(s: State, op: Op, id: ExecutionId) {
    Supersedes(op, id) && id in s.records && Breaks(s.epoch, s.records[id], op)
  }

  ghost predicate NeverBreaks(s: State, ops: seq<Op>, id: ExecutionId)
    decreases |ops|
  {
    ops == [] || (!BreaksAt(s, ops[0], id) && NeverBreaks(Step(s, ops[0]).state, ops[1..], id))
  }

  lemma {:induction false} WithoutSupersession(s: State, ops: seq<Op>, id: ExecutionId)
    requires forall op :: op in ops ==> !Supersedes(op, id)
    ensures NeverBreaks(s, ops, id)
    decreases |ops|
  {
    if ops != [] {
      assert ops[0] in ops;
      WithoutSupersession(Step(s, ops[0]).state, ops[1..], id);
    }
  }

  lemma StepKeepsGood(s: State, op: Op, id: ExecutionId, strict: bool)
    requires GoodAt(s, id, strict) && Fresh(s, op) && (strict ==> !BreaksAt(s, op, id))
    ensures GoodAt(Step(s, op).state, id, strict)
  {
    if !Touches(op, id) {
      StepIsLocal(s, op, id);
    } else if id in s.records {
      StepOnTarget(s, op, id);
      IdentityKept(s.epoch, s.records[id], op);
      GoodKept(s.epoch, s.records[id], strict, op);
    } else if id in Step(s, op).state.records {
      StepCreates(s, op, id);
    }
  }

  lemma {:induction false} RunKeepsGood(s: State, ops: seq<Op>, id: ExecutionId, strict: bool)
    requires GoodAt(s, id, strict) && FreshRun(s, ops)
    requires strict ==> NeverBreaks(s, ops, id)
    ensures GoodAt(Run(s, ops), id, strict)
    decreases |ops|
  {
    if ops != [] {
      StepKeepsGood(s, ops[0], id, strict);
      RunKeepsGood(Step(s, ops[0]).state, ops[1..], id, strict);
    }
  }

  /** The shape of authority, in every run from an empty engine. */
  lemma AuthorityInEveryRun(epoch: U64, ops: seq<Op>, id: ExecutionId)
    requires FreshRun(Empty(epoch), ops)
    ensures var s := Run(Empty(epoch), ops);
            id in s.records ==>
              && DistinctIds(s.records[id].attempts) && WellNumbered(s.records[id].attempts, false)
              && NamesLast(s.records[id]) && Counters(s.records[id]) && CommitFacts(s.records[id])
  {
    RunKeepsGood(Empty(epoch), ops, id, false);
  }

  /**
   The coupling of execution and attempt state, in every run in which no supersession of the
   execution gets past its guards once it is ready.
   */
  lemma CouplingInEveryRun(epoch: U64, ops: seq<Op>, id: ExecutionId)
    requires FreshRun(Empty(epoch), ops) && NeverBreaks(Empty(epoch), ops, id)
    ensures var s := Run(Empty(epoch), ops);
            id in s.records ==> Coupled(s.records[id]) && WellNumbered(s.records[id].attempts, true)
  {
    RunKeepsGood(Empty(epoch), ops, id, true);
  }

  // ------------------------------------------------------------------------------------------
  // Terminal records are frozen.
  // ------------------------------------------------------------------------------------------

  lemma TerminalKept(engine: U64, rec: Record, op: Op)
    requires Terminal(rec.state)
    ensures OnRecord(engine, rec, op).rec == rec
  {}

  /** A terminal record is never changed in any field by any later sequence of operations. */
  lemma {:induction false} TerminalForever(s: State, ops: seq<Op>, id: ExecutionId)
    requires id in s.records && Terminal(s.records[id].state)
    ensures id in Run(s, ops).records && Run(s, ops).records[id] == s.records[id]
    decreases |ops|
  {
    if ops != [] {
      if Touches(ops[0], id) {
        StepOnTarget(s, ops[0], id);
        TerminalKept(s.epoch, s.records[id], ops[0]);
      } else {
        StepIsLocal(s, ops[0], id);
      }
      TerminalForever(Step(s, ops[0]).state, ops[1..], id);
    }
  }

  // ------------------------------------------------------------------------------------------
  // Rejections.
  // ------------------------------------------------------------------------------------------

  predicate Granted(c: Code) {
    c == ALLOW || c == RESUME_ALLOWED
  }

  /** The four rejecting paths that rewrite part of the record before they reject. */
  predicate RewritesAndRejects(engine: U64, rec: Record, op: Op) {
    match op
    case Dispatch(_, _, _, epoch, _, _) => !Older(epoch, engine, rec) && rec.state == RESUMING
    case Complete(t, _) =>
      && ValidateCompletion(engine, rec, t.auth) == ALLOW && t.hasResult && t.resultDigest != NIL_DIGEST
      && !Terminal(rec.state) && rec.state != PREEMPTED && !MayMove(rec.state, COMPLETED)
    case Cancel(r) =>
      && !Differs(r.epoch, engine, rec) && r.authority == rec.ownership && !Terminal(rec.state)
      && rec.state != CREATED && rec.state != READY && rec.state != DISPATCHED && rec.state != RUNNING
      && rec.state != CANCELLATION_REQUESTED
    case Supersede(_, epoch) =>
      !Differs(epoch, engine, rec) && !Terminal(rec.state) && !MayMove(rec.state, SUPERSEDED)
    case _ => false
  }

  ghost predicate Frame(engine: U64, rec: Record, op: Op, out: Outcome) {
    && out.ticket.None?
    && out.rec.state == rec.state && out.rec.epoch == rec.epoch
    && out.rec.committedDigest == rec.committedDigest && out.rec.commit == rec.commit
    && (out.rec != rec ==> RewritesAndRejects(engine, rec, op))
  }

  lemma RejectedDispatch(engine: U64, rec: Record, op: Op)
    requires op.Dispatch? && !Granted(OnRecord(engine, rec, op).code)
    ensures Frame(engine, rec, op, OnRecord(engine, rec, op))
  {}

  lemma RejectedComplete(engine: U64, rec: Record, op: Op)
    requires op.Complete? && !Granted(OnRecord(engine, rec, op).code)
    ensures Frame(engine, rec, op, OnRecord(engine, rec, op))
  {}

  /** A decision that grants nothing moves no state and no commit, and elsewhere rewrites only on those paths. */
  lemma RejectionFrame(engine: U64, rec: Record, op: Op)
    requires !Granted(OnRecord(engine, rec, op).code)
    ensures Frame(engine, rec, op, OnRecord(engine, rec, op))
  {
    match op
    case Dispatch(_, _, _, _, _, _) => RejectedDispatch(engine, rec, op);
    case Complete(_, _) => RejectedComplete(engine, rec, op);
    case _ =>
  }

  /** Those paths do reject, and this is what each leaves behind. */
  lemma RewritingRejections(engine: U64, rec: Record, op: Op)
    requires Good(rec, false) && RewritesAndRejects(engine, rec, op)
    ensures !Granted(OnRecord(engine, rec, op).code)
    ensures LeavesBehind(rec, op, OnRecord(engine, rec, op).rec)
  {
    match op
    case Dispatch(_, _, _, _, _, _) =>
    case Complete(_, _) => RejectedCompletionMarks(engine, rec, op);
    case Cancel(_) =>
    case Supersede(_, _) => RejectedSupersedeClears(engine, rec, op);
  }

  /** What a rejection has rewritten, and exactly when that differs from what was there. */
  ghost predicate LeavesBehind(rec: Record, op: Op, after: Record) {
    match op
    case Dispatch(_, _, _, _, aid, _) => after != rec && |after.attempts| == |rec.attempts| + 1 && after.current == Some(aid)
    case Complete(t, _) =>
      && rec.attempts != [] && Last(rec.attempts).id == t.auth.attemptId
      && after == rec.(attempts := rec.attempts[|rec.attempts| - 1 := Changed(Last(rec.attempts), Deliver(t.resultDigest))])
      && Last(after.attempts).resultDigest == Some(t.resultDigest)
      && (after != rec <==> AttemptMayMove(Last(rec.attempts).state, ACompleted)
                            || Last(rec.attempts).resultDigest != Some(t.resultDigest))
    case Cancel(_) =>
      after == rec.(cancellation := Next(rec.cancellation)) && (after != rec <==> rec.cancellation < U64_MAX)
    case Supersede(_, _) =>
      && after.generation == Next(rec.generation) && |after.attempts| == |rec.attempts|
      && after.current.None? && after.currentGeneration.None? && after.owner.None? && after.ownerBoot.None?
      && (after != rec <==> rec.current.Some? || rec.generation < U64_MAX)
    case _ => true
  }

  lemma RejectedCompletionMarks(engine: U64, rec: Record, op: Op)
    requires Good(rec, false) && op.Complete? && RewritesAndRejects(engine, rec, op)
    ensures !Granted(OnRecord(engine, rec, op).code) && LeavesBehind(rec, op, OnRecord(engine, rec, op).rec)
  {
    var ch := Deliver(op.completion.resultDigest);
    RejectedCompletionForm(engine, rec, op.completion, op.now);
    LoopTouchesCurrent(rec, false, AnyState, ch);
    MarkedLast(rec.attempts, op.completion.resultDigest);
  }

  lemma RejectedCompletionForm(engine: U64, rec: Record, t: CompletionTicket, now: Text)
    requires RewritesAndRejects(engine, rec, Complete(t, now))
    ensures var out := CompleteRecord(engine, rec, t, now);
            && !Granted(out.code) && rec.current == Some(t.auth.attemptId)
            && out.rec == rec.(attempts := ChangeFirst(rec.attempts, rec.current, AnyState, Deliver(t.resultDigest)))
  {}

  lemma MarkedLast(ats: seq<Attempt>, d: Digest)
    requires ats != []
    ensures var after := ats[|ats| - 1 := Changed(Last(ats), Deliver(d))];
            && Last(after).resultDigest == Some(d)
            && (after != ats <==> AttemptMayMove(Last(ats).state, ACompleted) || Last(ats).resultDigest != Some(d))
  {
    var after := ats[|ats| - 1 := Changed(Last(ats), Deliver(d))];
    if Changed(Last(ats), Deliver(d)) == Last(ats) {
      assert after == ats;
    } else {
      assert after[|ats| - 1] != ats[|ats| - 1];
    }
  }

  lemma RejectedSupersedeClears(engine: U64, rec: Record, op: Op)
    requires Good(rec, false) && op.Supersede? && RewritesAndRejects(engine, rec, op)
    ensures !Granted(OnRecord(engine, rec, op).code) && LeavesBehind(rec, op, OnRecord(engine, rec, op).rec)
  {
    LoopTouchesCurrent(rec, false, Unfinished, To(ASuperseded));
  }

  // ------------------------------------------------------------------------------------------
  // Fencing.
  // ------------------------------------------------------------------------------------------

  ghost predicate InHistory(rec: Record, aid: AttemptId) {
    exists i :: 0 <= i < |rec.attempts| && rec.attempts[i].id == aid
  }

  /** Authority that has been overtaken: the attempt is on record but no longer current, or its epoch is past. */
  ghost predicate Fenced(s: State, t: Authority) {
    && t.executionId in s.records
    && InHistory(s.records[t.executionId], t.attemptId)
    && (s.records[t.executionId].current != Some(t.attemptId) || s.epoch > t.epoch)
  }

  /** An attempt on record: only its state and its result change, and those only while it is current. */
  ghost predicate Keeps(a: Attempt, b: Attempt, current: Option<AttemptId>) {
    b == a.(state := b.state, resultDigest := b.resultDigest) && (current != Some(a.id) ==> b == a)
  }

  ghost predicate Extends(a: seq<Attempt>, b: seq<Attempt>, current: Option<AttemptId>) {
    |a| <= |b| && forall i :: 0 <= i < |a| ==> Keeps(a[i], b[i], current)
  }

  lemma LoopExtends(ats: seq<Attempt>, id: Option<AttemptId>, g: Guard, ch: Change)
    ensures Extends(ats, ChangeAll(ats, id, g, ch), id) && Extends(ats, ChangeFirst(ats, id, g, ch), id)
  {}

  /** The history grows by the attempt just drawn, which becomes current, or does not grow. */
  ghost predicate Grows(rec: Record, op: Op, after: Record) {
    && Extends(rec.attempts, after.attempts, rec.current) && |after.attempts| <= |rec.attempts| + 1
    && (|after.attempts| > |rec.attempts| ==>
          (op.Dispatch? || op.Resume?) && after.current == Some(op.aid) && after.ownership == Next(rec.ownership))
    && (|after.attempts| == |rec.attempts| ==> after.current == rec.current || after.current.None?)
  }

  lemma IssueGrows(engine: U64, rec: Record, op: Op)
    requires op.Dispatch? || op.Resume?
    ensures Grows(rec, op, OnRecord(engine, rec, op).rec)
  {
    match op
    case Dispatch(_, worker, boot, epoch, aid, did) =>
      DispatchForm(engine, rec, worker, boot, epoch, aid, did);
      LoopExtends(rec.attempts, rec.current, Unfinished, To(ASuperseded));
    case Resume(_, _, _, _, _, _, _) => LoopExtends(rec.attempts, rec.current, OnlyPreempted, To(ASuperseded));
  }

  lemma ReportGrows(engine: U64, rec: Record, op: Op)
    requires op.MarkRunning? || op.Complete?
    ensures Grows(rec, op, OnRecord(engine, rec, op).rec)
  {
    match op
    case MarkRunning(t) =>
      StartForm(engine, rec, t.auth);
      LoopExtends(rec.attempts, rec.current, AnyState, To(ARunning));
    case Complete(t, now) =>
      CompleteForm(engine, rec, t, now);
      LoopExtends(rec.attempts, rec.current, AnyState, Deliver(t.resultDigest));
  }

  lemma RetireGrows(engine: U64, rec: Record, op: Op)
    requires op.FinalizeCancel? || op.AcknowledgePreempt? || op.Supersede?
    ensures Grows(rec, op, OnRecord(engine, rec, op).rec)
  {
    match op
    case FinalizeCancel(_, _) => LoopExtends(rec.attempts, rec.current, Unfinished, To(ACancelled));
    case AcknowledgePreempt(_, _) => LoopExtends(rec.attempts, rec.current, Unfinished, To(APreempted));
    case Supersede(_, _) => LoopExtends(rec.attempts, rec.current, Unfinished, To(ASuperseded));
  }

  lemma LossGrows(engine: U64, rec: Record, op: Op)
    requires op.WorkerLost?
    ensures Grows(rec, op, OnRecord(engine, rec, op).rec)
  {
    LoopExtends(rec.attempts, rec.current, AnyState, To(ALost));
  }

  /** Histories are append-only: entries stay, but for the state and result of the current one. */
  lemma HistoryGrows(engine: U64, rec: Record, op: Op)
    ensures Grows(rec, op, OnRecord(engine, rec, op).rec)
  {
    match op
    case Dispatch(_, _, _, _, _, _) => IssueGrows(engine, rec, op);
    case Resume(_, _, _, _, _, _, _) => IssueGrows(engine, rec, op);
    case MarkRunning(_) => ReportGrows(engine, rec, op);
    case Complete(_, _) => ReportGrows(engine, rec, op);
    case FinalizeCancel(_, _) => RetireGrows(engine, rec, op);
    case AcknowledgePreempt(_, _) => RetireGrows(engine, rec, op);
    case WorkerLost(_, _, _, _) => LossGrows(engine, rec, op);
    case Supersede(_, _) => RetireGrows(engine, rec, op);
    case _ =>
  }

  lemma GrowsByOne(engine: U64, rec: Record, op: Op)
    ensures |rec.attempts| <= |OnRecord(engine, rec, op).rec.attempts| <= |rec.attempts| + 1
  {
    HistoryGrows(engine, rec, op);
  }

  // ------------------------------------------------------------------------------------------
  // When attempt i has generation i + 1.
  // ------------------------------------------------------------------------------------------

  /** The operation gets past the guards behind which dispatch and resume add an attempt. */
  predicate Adds(engine: U64, rec: Record, op: Op) {
    match op
    case Dispatch(_, _, _, epoch, _, _) => !Older(epoch, engine, rec) && Dispatchable(rec.state)
    case Resume(_, _, _, epoch, gen, _, _) =>
      !Differs(epoch, engine, rec) && rec.state == RESUMABLE && gen == Next(rec.resumption)
    case _ => false
  }

  /** Those guards decide whether the history grows. */
  lemma AddsExactly(engine: U64, rec: Record, op: Op)
    ensures |OnRecord(engine, rec, op).rec.attempts| > |rec.attempts| <==> Adds(engine, rec, op)
  {
    HistoryGrows(engine, rec, op);
    match op
    case Dispatch(_, _, _, _, _, _) => DispatchAdds(engine, rec, op);
    case Resume(_, _, _, _, _, _, _) => ResumeAdds(engine, rec, op);
    case _ =>
  }

  lemma DispatchAdds(engine: U64, rec: Record, op: Op)
    requires op.Dispatch?
    ensures |OnRecord(engine, rec, op).rec.attempts| > |rec.attempts| <==> Adds(engine, rec, op)
    ensures Adds(engine, rec, op) ==> Last(OnRecord(engine, rec, op).rec.attempts).generation == NextGeneration(rec)
  {}

  lemma ResumeAdds(engine: U64, rec: Record, op: Op)
    requires op.Resume?
    ensures |OnRecord(engine, rec, op).rec.attempts| > |rec.attempts| <==> Adds(engine, rec, op)
    ensures Adds(engine, rec, op) ==> Last(OnRecord(engine, rec, op).rec.attempts).generation == NextGeneration(rec)
  {}

  /** The generation a new attempt gets. */
  function NextGeneration(rec: Record): U64 {
    if rec.currentGeneration.Some? then Next(rec.currentGeneration.value) else 1
  }

  lemma NewGeneration(engine: U64, rec: Record, op: Op)
    requires Adds(engine, rec, op)
    ensures |OnRecord(engine, rec, op).rec.attempts| > |rec.attempts|
    ensures Last(OnRecord(engine, rec, op).rec.attempts).generation == NextGeneration(rec)
  {
    if op.Dispatch? {
      DispatchAdds(engine, rec, op);
    } else {
      ResumeAdds(engine, rec, op);
    }
  }

  /** The numbering is lost exactly by a dispatch or resume past its guards, in a history without a current attempt. */
  lemma NumberingExactly(engine: U64, rec: Record, op: Op)
    requires Good(rec, false) && WellNumbered(rec.attempts, true) && FreshFor(rec, op)
    ensures WellNumbered(OnRecord(engine, rec, op).rec.attempts, true) <==> !(Adds(engine, rec, op) && Unnamed(rec))
  {
    var after := OnRecord(engine, rec, op).rec;
    HistoryGrows(engine, rec, op);
    GoodKept(engine, rec, false, op);
    AddsExactly(engine, rec, op);
    if Adds(engine, rec, op) {
      NewGeneration(engine, rec, op);
      GenerationOfNew(rec, after);
    }
    KeptNumbers(rec, after);
  }

  lemma GenerationOfNew(rec: Record, after: Record)
    requires Good(rec, false) && WellNumbered(rec.attempts, true) && |after.attempts| == |rec.attempts| + 1
    requires Last(after.attempts).generation == NextGeneration(rec)
    ensures Last(after.attempts).generation == Saturated(|after.attempts|) <==> !Unnamed(rec)
  {
    if rec.current.Some? {
      assert rec.currentGeneration == Some(rec.attempts[|rec.attempts| - 1].generation);
    }
  }

  lemma KeptNumbers(rec: Record, after: Record)
    requires WellNumbered(rec.attempts, true) && WellNumbered(after.attempts, false)
    requires Extends(rec.attempts, after.attempts, rec.current) && |after.attempts| <= |rec.attempts| + 1
    ensures WellNumbered(after.attempts, true) <==>
            (|after.attempts| > |rec.attempts| ==> Last(after.attempts).generation == Saturated(|after.attempts|))
  {
    assert forall i :: 0 <= i < |rec.attempts| ==> Keeps(rec.attempts[i], after.attempts[i], rec.current);
  }

  lemma BrokenNumbersStay(rec: Record, after: Record)
    requires !WellNumbered(rec.attempts, true) && WellNumbered(rec.attempts, false)
    requires Extends(rec.attempts, after.attempts, rec.current)
    ensures !WellNumbered(after.attempts, true)
  {
    var i :| 0 <= i < |rec.attempts| && rec.attempts[i].generation != Saturated(i + 1);
    assert Keeps(rec.attempts[i], after.attempts[i], rec.current);
  }

  ghost predicate Numbered(s: State, id: ExecutionId) {
    id in s.records ==> WellNumbered(s.records[id].attempts, true)
  }

  /** A dispatch or resume of the execution gets past its guards while the history has no current attempt. */
  predicate RestartsAt(s: State, op: Op, id: ExecutionId) {
    Touches(op, id) && id in s.records && Unnamed(s.records[id]) && Adds(s.epoch, s.records[id], op)
  }

  ghost predicate NeverRestarts(s: State, ops: seq<Op>, id: ExecutionId)
    decreases |ops|
  {
    ops == [] || (!RestartsAt(s, ops[0], id) && NeverRestarts(Step(s, ops[0]).state, ops[1..], id))
  }

  lemma StepNumbers(s: State, op: Op, id: ExecutionId)
    requires GoodAt(s, id, false) && Fresh(s, op)
    ensures Numbered(Step(s, op).state, id) <==> Numbered(s, id) && !RestartsAt(s, op, id)
  {
    if !Touches(op, id) {
      StepIsLocal(s, op, id);
    } else if id in s.records {
      var rec := s.records[id];
      StepOnTarget(s, op, id);
      if Numbered(s, id) {
        NumberingExactly(s.epoch, rec, op);
      } else {
        HistoryGrows(s.epoch, rec, op);
        BrokenNumbersStay(rec, OnRecord(s.epoch, rec, op).rec);
      }
    } else if id in Step(s, op).state.records {
      StepCreates(s, op, id);
    }
  }

  lemma {:induction false} RunNumbers(s: State, ops: seq<Op>, id: ExecutionId)
    requires GoodAt(s, id, false) && FreshRun(s, ops)
    ensures Numbered(Run(s, ops), id) <==> Numbered(s, id) && NeverRestarts(s, ops, id)
    decreases |ops|
  {
    if ops != [] {
      StepNumbers(s, ops[0], id);
      StepKeepsGood(s, ops[0], id, false);
      RunNumbers(Step(s, ops[0]).state, ops[1..], id);
    }
  }

  /** In every run from an empty engine, attempt i has generation i + 1 if and only if no dispatch or resume
   got past its guards while the history had no current attempt. */
  lemma NumberingInEveryRun(epoch: U64, ops: seq<Op>, id: ExecutionId)
    requires FreshRun(Empty(epoch), ops)
    ensures Numbered(Run(Empty(epoch), ops), id) <==> NeverRestarts(Empty(epoch), ops, id)
  {
    RunNumbers(Empty(epoch), ops, id);
  }

  // ------------------------------------------------------------------------------------------
  // The engine sets no text in an attempt.
  // ------------------------------------------------------------------------------------------

  lemma NewIsWordless(engine: U64, rec: Record, op: Op)
    requires Adds(engine, rec, op)
    ensures |OnRecord(engine, rec, op).rec.attempts| > |rec.attempts|
    ensures var at := Last(OnRecord(engine, rec, op).rec.attempts); at.resultPayload.None? && at.failureReason.None?
  {}

  lemma WordlessKept(engine: U64, rec: Record, op: Op)
    requires Wordless(rec.attempts)
    ensures Wordless(OnRecord(engine, rec, op).rec.attempts)
  {
    var after := OnRecord(engine, rec, op).rec;
    HistoryGrows(engine, rec, op);
    AddsExactly(engine, rec, op);
    if Adds(engine, rec, op) {
      NewIsWordless(engine, rec, op);
    }
    forall i | 0 <= i < |after.attempts|
      ensures after.attempts[i].resultPayload.None? && after.attempts[i].failureReason.None?
    {
      if i < |rec.attempts| {
        assert Keeps(rec.attempts[i], after.attempts[i], rec.current);
      }
    }
  }

  ghost predicate WordlessAt(s: State, id: ExecutionId) {
    id in s.records ==> Wordless(s.records[id].attempts)
  }

  lemma {:induction false} RunKeepsWordless(s: State, ops: seq<Op>, id: ExecutionId)
    requires WordlessAt(s, id)
    ensures WordlessAt(Run(s, ops), id)
    decreases |ops|
  {
    if ops != [] {
      if !Touches(ops[0], id) {
        StepIsLocal(s, ops[0], id);
      } else if id in s.records {
        StepOnTarget(s, ops[0], id);
        WordlessKept(s.epoch, s.records[id], ops[0]);
      } else if id in Step(s, ops[0]).state.records {
        StepCreates(s, ops[0], id);
      }
      RunKeepsWordless(Step(s, ops[0]).state, ops[1..], id);
    }
  }

  ghost predicate Keyed(s: State) {
    forall id :: id in s.records ==> s.records[id].id == id
  }

  lemma {:induction false} RunKeyed(s: State, ops: seq<Op>)
    requires Keyed(s)
    ensures Keyed(Run(s, ops))
    decreases |ops|
  {
    if ops != [] {
      forall id | id in Step(s, ops[0]).state.records
        ensures Step(s, ops[0]).state.records[id].id == id
      {
        if !Touches(ops[0], id) {
          StepIsLocal(s, ops[0], id);
        } else if id in s.records {
          StepOnTarget(s, ops[0], id);
          IdentityKept(s.epoch, s.records[id], ops[0]);
        } else {
          StepCreates(s, ops[0], id);
        }
      }
      RunKeyed(Step(s, ops[0]).state, ops[1..]);
    }
  }

  /** The ticket a dispatch or a resume hands out is the authority the record now holds. */
  ghost predicate HoldsAuthority(rec: Record, t: Authority) {
    && t.executionId == rec.id && t.executionGeneration == rec.generation
    && rec.current == Some(t.attemptId) && rec.currentGeneration == Some(t.attemptGeneration)
    && rec.owner == Some(t.worker) && rec.ownerBoot == Some(t.boot)
    && rec.ownership == t.ownership && rec.fence == t.fence
    && rec.attempts != []
    && Last(rec.attempts).id == t.attemptId && Last(rec.attempts).dispatchId == t.dispatchId
    && Last(rec.attempts).state == ADispatched
    && (rec.state == DISPATCHED || rec.state == RESUMING)
  }

  ghost predicate IssuedTo(engine: U64, rec: Record, op: Op, out: Outcome)
    requires op.Dispatch? || op.Resume?
  {
    && out.ticket.Some?
    && HoldsAuthority(out.rec, out.ticket.value.auth)
    && out.ticket.value.auth.attemptId == op.aid && out.ticket.value.auth.dispatchId == op.did
    && out.ticket.value.auth.worker == op.worker && out.ticket.value.auth.boot == op.boot
    && out.ticket.value.auth.epoch == op.epoch >= engine && op.epoch >= rec.epoch
  }

  lemma AssignedIsHeld(engine: U64, rec: Record, op: Op)
    requires op.Dispatch? && op.epoch >= engine && op.epoch >= rec.epoch
    requires Assign(rec, op.worker, op.boot, op.epoch, op.aid, op.did).ticket.Some?
    ensures IssuedTo(engine, rec, op, Assign(rec, op.worker, op.boot, op.epoch, op.aid, op.did))
  {}

  lemma DispatchIssues(engine: U64, rec: Record, op: Op)
    requires op.Dispatch? && OnRecord(engine, rec, op).ticket.Some?
    ensures !Older(op.epoch, engine, rec) && OnRecord(engine, rec, op) == Assign(rec, op.worker, op.boot, op.epoch, op.aid, op.did)
  {}

  lemma ResumedIsHeld(engine: U64, rec: Record, op: Op)
    requires op.Resume? && OnRecord(engine, rec, op).ticket.Some?
    ensures IssuedTo(engine, rec, op, OnRecord(engine, rec, op))
  {}

  lemma OnlyTheseIssue(engine: U64, rec: Record, op: Op)
    requires OnRecord(engine, rec, op).ticket.Some?
    ensures op.Dispatch? || op.Resume?
  {}

  lemma IssuedIsHeld(engine: U64, rec: Record, op: Op)
    requires OnRecord(engine, rec, op).ticket.Some?
    ensures (op.Dispatch? || op.Resume?) && IssuedTo(engine, rec, op, OnRecord(engine, rec, op))
  {
    OnlyTheseIssue(engine, rec, op);
    if op.Dispatch? {
      DispatchIssues(engine, rec, op);
      AssignedIsHeld(engine, rec, op);
    } else {
      ResumedIsHeld(engine, rec, op);
    }
  }

  lemma IssuedTicketIsCurrent(s: State, op: Op)
    requires Keyed(s) && Step(s, op).ticket.Some?
    ensures var after := Step(s, op).state;
            var t := Step(s, op).ticket.value.auth;
            && t.executionId in after.records && Touches(op, t.executionId)
            && HoldsAuthority(after.records[t.executionId], t)
            && InHistory(after.records[t.executionId], t.attemptId)
            && t.epoch == after.epoch
  {
    var id := Target(op).value;
    assert id in s.records;
    StepOnTarget(s, op, id);
    IssuedIsHeld(s.epoch, s.records[id], op);
    IdentityKept(s.epoch, s.records[id], op);
    var after := Step(s, op).state.records[id];
    assert after.attempts[|after.attempts| - 1].id == Step(s, op).ticket.value.auth.attemptId;
  }

  lemma FencedKept(s: State, op: Op, t: Authority)
    requires Fenced(s, t) && Fresh(s, op)
    ensures Fenced(Step(s, op).state, t)
  {
    var id := t.executionId;
    var rec := s.records[id];
    EpochRises(s, op);
    if Touches(op, id) {
      StepOnTarget(s, op, id);
      HistoryGrows(s.epoch, rec, op);
      var i :| 0 <= i < |rec.attempts| && rec.attempts[i].id == t.attemptId;
      assert Step(s, op).state.records[id].attempts[i].id == t.attemptId;
    } else {
      StepIsLocal(s, op, id);
    }
  }

  lemma {:induction false} FencedForever(s: State, ops: seq<Op>, t: Authority)
    requires Fenced(s, t) && FreshRun(s, ops)
    ensures Fenced(Run(s, ops), t)
    decreases |ops|
  {
    if ops != [] {
      FencedKept(s, ops[0], t);
      FencedForever(Step(s, ops[0]).state, ops[1..], t);
    }
  }

  /** Presenting the authority of t: same execution, attempt and epoch, whatever the other fields say. */
  predicate Presents(p: Authority, t: Authority) {
    p.executionId == t.executionId && p.attemptId == t.attemptId && p.epoch == t.epoch
  }

  lemma FencedIsRefused(s: State, t: Authority, st: StartTicket, ct: CompletionTicket, now: Text)
    requires Fenced(s, t) && Presents(st.auth, t) && Presents(ct.auth, t)
    ensures Step(s, MarkRunning(st)).code != ALLOW
    ensures Step(s, Complete(ct, now)).code != ALLOW
  {
    StepOnTarget(s, MarkRunning(st), t.executionId);
    StepOnTarget(s, Complete(ct, now), t.executionId);
  }

  /** A later attempt is created, the epoch rises above the ticket's, or supersession runs past its guards. */
  ghost predicate Overtakes(s: State, op: Op, t: Authority) {
    var after := Step(s, op).state;
    && t.executionId in s.records && t.executionId in after.records
    && var rec := s.records[t.executionId];
       || |after.records[t.executionId].attempts| > |rec.attempts|
       || after.epoch > t.epoch
       || (Supersedes(op, t.executionId) && !Differs(op.epoch, s.epoch, rec) && !Terminal(rec.state))
  }

  lemma OvertakenIsFenced(s: State, op: Op, t: Authority)
    requires t.executionId in s.records && InHistory(s.records[t.executionId], t.attemptId)
    requires Fresh(s, op) && Overtakes(s, op, t)
    ensures Fenced(Step(s, op).state, t)
  {
    var id := t.executionId;
    var rec := s.records[id];
    var i :| 0 <= i < |rec.attempts| && rec.attempts[i].id == t.attemptId;
    if Touches(op, id) {
      StepOnTarget(s, op, id);
      HistoryGrows(s.epoch, rec, op);
    } else {
      StepIsLocal(s, op, id);
    }
    assert Step(s, op).state.records[id].attempts[i].id == t.attemptId;
  }

  lemma {:induction false} HistoryStays(s: State, ops: seq<Op>, id: ExecutionId, aid: AttemptId)
    requires id in s.records && InHistory(s.records[id], aid)
    ensures id in Run(s, ops).records && InHistory(Run(s, ops).records[id], aid)
    decreases |ops|
  {
    if ops != [] {
      var rec := s.records[id];
      if Touches(ops[0], id) {
        StepOnTarget(s, ops[0], id);
        HistoryGrows(s.epoch, rec, ops[0]);
        var i :| 0 <= i < |rec.attempts| && rec.attempts[i].id == aid;
        assert Step(s, ops[0]).state.records[id].attempts[i].id == aid;
      } else {
        StepIsLocal(s, ops[0], id);
      }
      HistoryStays(Step(s, ops[0]).state, ops[1..], id, aid);
    }
  }

  /**
   Fencing. A ticket is issued, anything happens, an operation overtakes it, anything happens:
   the ticket never again gets permission to start or to complete.
   */
  lemma OvertakenTicketNeverActs(s: State, issue: Op, between: seq<Op>, overtake: Op, later: seq<Op>,
                                 st: StartTicket, ct: CompletionTicket, now: Text)
    requires Keyed(s) && FreshRun(s, [issue] + between + [overtake] + later)
    requires Step(s, issue).ticket.Some?
    requires var t := Step(s, issue).ticket.value.auth;
             var s1 := Run(Step(s, issue).state, between);
             Presents(st.auth, t) && Presents(ct.auth, t) && Overtakes(s1, overtake, t)
    ensures var end := Run(s, [issue] + between + [overtake] + later);
            && Step(end, MarkRunning(st)).code != ALLOW
            && Step(end, Complete(ct, now)).code != ALLOW
  {
    var t := Step(s, issue).ticket.value.auth;
    var s0 := Step(s, issue).state;
    var s1 := Run(s0, between);
    IssuedTicketIsCurrent(s, issue);
    HistoryStays(s0, between, t.executionId, t.attemptId);
    RunFour(s, issue, between, overtake, later);
    OvertakenIsFenced(s1, overtake, t);
    FencedForever(Step(s1, overtake).state, later, t);
    FencedIsRefused(Run(s, [issue] + between + [overtake] + later), t, st, ct, now);
  }

  lemma RunFour(s: State, a: Op, b: seq<Op>, c: Op, d: seq<Op>)
    requires FreshRun(s, [a] + b + [c] + d)
    ensures var s1 := Run(Step(s, a).state, b);
            && Run(s, [a] + b + [c] + d) == Run(Step(s1, c).state, d)
            && Fresh(s1, c) && FreshRun(Step(s1, c).state, d)
  {
    RunConcat(s, [a] + b + [c], d);
    RunConcat(s, [a] + b, [c]);
    RunConcat(s, [a], b);
    RunOne(s, a);
    RunOne(Run(Step(s, a).state, b), c);
  }

  lemma RunOne(s: State, op: Op)
    ensures Run(s, [op]) == Step(s, op).state
    ensures FreshRun(s, [op]) <==> Fresh(s, op)
  {
    assert Run(s, [op]) == Run(Step(s, op).state, []);
  }

  // ------------------------------------------------------------------------------------------
  // Control requests are fenced by ownership.
  // ------------------------------------------------------------------------------------------

  lemma OwnershipRises(engine: U64, rec: Record, op: Op)
    requires Good(rec, false)
    ensures OnRecord(engine, rec, op).rec.ownership >= rec.ownership
  {
    match op
    case Dispatch(_, worker, boot, epoch, aid, did) => DispatchForm(engine, rec, worker, boot, epoch, aid, did);
    case MarkRunning(t) => StartForm(engine, rec, t.auth);
    case Complete(t, now) => CompleteForm(engine, rec, t, now);
    case _ =>
  }

  lemma {:induction false} OwnershipRisesInRun(s: State, ops: seq<Op>, id: ExecutionId)
    requires id in s.records && GoodAt(s, id, false) && FreshRun(s, ops)
    ensures id in Run(s, ops).records && Run(s, ops).records[id].ownership >= s.records[id].ownership
    decreases |ops|
  {
    if ops != [] {
      if Touches(ops[0], id) {
        StepOnTarget(s, ops[0], id);
        OwnershipRises(s.epoch, s.records[id], ops[0]);
      } else {
        StepIsLocal(s, ops[0], id);
      }
      StepKeepsGood(s, ops[0], id, false);
      OwnershipRisesInRun(Step(s, ops[0]).state, ops[1..], id);
    }
  }

  lemma OldOwnershipIsRefused(s: State, id: ExecutionId, req: ControlRequest)
    requires id in s.records && req.executionId == id && req.authority < s.records[id].ownership
    ensures Step(s, Cancel(req)).code != ALLOW && Step(s, Preempt(req)).code != ALLOW
  {
    StepOnTarget(s, Cancel(req), id);
    StepOnTarget(s, Preempt(req), id);
  }

  /**
   Below saturation, once a new attempt has been created, a control request with the ownership
   generation of before never again cancels or preempts.
   */
  lemma OvertakenControlNeverActs(epoch: U64, before: seq<Op>, issue: Op, later: seq<Op>, id: ExecutionId, req: ControlRequest)
    requires FreshRun(Empty(epoch), before + [issue] + later)
    requires var s := Run(Empty(epoch), before);
             && id in s.records && id in Step(s, issue).state.records
             && |Step(s, issue).state.records[id].attempts| > |s.records[id].attempts|
             && s.records[id].ownership < U64_MAX
             && req.executionId == id && req.authority <= s.records[id].ownership
    ensures var end := Run(Empty(epoch), before + [issue] + later);
            Step(end, Cancel(req)).code != ALLOW && Step(end, Preempt(req)).code != ALLOW
  {
    var s := Run(Empty(epoch), before);
    RunConcat(Empty(epoch), before + [issue], later);
    RunConcat(Empty(epoch), before, [issue]);
    RunOne(s, issue);
    RunKeepsGood(Empty(epoch), before, id, false);
    StepKeepsGood(s, issue, id, false);
    if Touches(issue, id) {
      StepOnTarget(s, issue, id);
      HistoryGrows(s.epoch, s.records[id], issue);
    } else {
      StepIsLocal(s, issue, id);
    }
    OwnershipRisesInRun(Step(s, issue).state, later, id);
    OldOwnershipIsRefused(Run(Empty(epoch), before + [issue] + later), id, req);
  }
}
