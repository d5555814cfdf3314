/**
 What each operation of the engine answers and what it makes of the record, said state by state and
 field by field for every record that can occur.
 */
module EngineDecisions {
  import opened Types
  import opened EngineSpec
  import opened EngineInvariants
  import opened EngineRuns
  import opened EndToEnd
  import opened EngineIndependence

  // ------------------------------------------------------------------------------------------
  // What becomes of the state of the current attempt.
  // ------------------------------------------------------------------------------------------

  function Retired(s: AttemptState): AttemptState {
    match s case ADispatched => ASuperseded case ARunning => ASuperseded case APreempted => ASuperseded case _ => s
  }

  function Replaced(s: AttemptState): AttemptState {
    match s case APreempted => ASuperseded case _ => s
  }

  function InProgress(s: AttemptState): AttemptState {
    match s case ADispatched => ARunning case _ => s
  }

  function Finished(s: AttemptState): AttemptState {
    match s case ADispatched => ACompleted case ARunning => ACompleted case ACompletePending => ACompleted case _ => s
  }

  function Gone(s: AttemptState): AttemptState {
    match s case ADispatched => ALost case ARunning => ALost case ACompletePending => ALost case _ => s
  }

  function Halted(s: AttemptState): AttemptState {
    match s case ARunning => APreempted case _ => s
  }

  function Abandoned(s: AttemptState): AttemptState {
    match s case ACreated => ACancelled case ADispatched => ACancelled case ARunning => ACancelled
            case APreempted => APreempted case _ => s
  }

  /** The history with the current attempt, the last one, in another state. */
  function WithCurrent(rec: Record, f: AttemptState -> AttemptState): seq<Attempt> {
    if rec.current.Some? && rec.attempts != []
    then rec.attempts[|rec.attempts| - 1 := Last(rec.attempts).(state := f(Last(rec.attempts).state))]
    else rec.attempts
  }

  /** A loop over the history that picks by g and moves to a state is that change. */
  lemma LoopIs(rec: Record, g: Guard, to: AttemptState, f: AttemptState -> AttemptState)
    requires Good(rec, false)
    requires rec.current.Some? ==>
               var at := Last(rec.attempts);
               f(at.state) == if Hit(at, rec.current, g) then MoveAttempt(at, to).state else at.state
    ensures ChangeFirst(rec.attempts, rec.current, g, To(to)) == WithCurrent(rec, f)
    ensures ChangeAll(rec.attempts, rec.current, g, To(to)) == WithCurrent(rec, f)
  {
    LoopTouchesCurrent(rec, false, g, To(to));
    assert Touched(rec.attempts, rec.current, g, To(to)) == WithCurrent(rec, f);
  }

  predicate Closed(s: ExecutionState) {
    s == COMMITTED || s == FAILED || s == CANCELLED || s == SUPERSEDED || s == TERMINAL
  }

  /** An epoch older than that of the engine or the record, and one that is not exactly both. */
  predicate Outdated(e: U64, engine: U64, rec: Record) {
    e < engine || e < rec.epoch
  }

  predicate Foreign(e: U64, engine: U64, rec: Record) {
    !(e == engine && e == rec.epoch)
  }

  // ------------------------------------------------------------------------------------------
  // Activation, cancellation, preemption.
  // ------------------------------------------------------------------------------------------

  lemma ActivateDecides(engine: U64, rec: Record, epoch: U64)
    ensures var out := ActivateRecord(engine, rec, epoch);
            if Outdated(epoch, engine, rec) then out == Keep(rec, REJECT_STALE_EPOCH)
            else if rec.state == CREATED then out == Keep(rec.(ownership := 1, fence := 1, state := READY), ALLOW)
            else out == Keep(rec, REJECT_ALREADY_TERMINAL)
  {}

  /** Cancel is granted to whoever holds the ownership, in four states, and repeated in a fifth. */
  lemma CancelDecides(engine: U64, rec: Record, r: ControlRequest)
    ensures var out := CancelRecord(engine, rec, r);
            var held := !Foreign(r.epoch, engine, rec) && r.authority == rec.ownership;
            && (out.code == ALLOW <==> held && rec.state in {CREATED, READY, DISPATCHED, RUNNING, CANCELLATION_REQUESTED})
            && (Foreign(r.epoch, engine, rec) ==> out == Keep(rec, REJECT_STALE_EPOCH))
            && (!Foreign(r.epoch, engine, rec) && r.authority != rec.ownership ==> out == Keep(rec, REJECT_NOT_OWNER))
            && (held && Closed(rec.state) ==> out == Keep(rec, REJECT_ALREADY_TERMINAL))
            && (held && rec.state == CANCELLATION_REQUESTED ==> out == Keep(rec, ALLOW))
            && (held && !Closed(rec.state) && rec.state != CANCELLATION_REQUESTED ==>
                  var counted := rec.(cancellation := Next(rec.cancellation));
                  && (rec.state == CREATED ==> out == Keep(counted.(state := CANCELLED), ALLOW))
                  && (rec.state in {READY, DISPATCHED, RUNNING} ==> out == Keep(counted.(state := CANCELLATION_REQUESTED), ALLOW))
                  && (rec.state !in {CREATED, READY, DISPATCHED, RUNNING} ==> out == Keep(counted, REJECT_NOT_OWNER)))
  {}

  lemma PreemptDecides(engine: U64, rec: Record, r: ControlRequest)
    ensures var out := PreemptRecord(engine, rec, r);
            var held := !Foreign(r.epoch, engine, rec) && r.authority == rec.ownership;
            && (out.code == ALLOW <==> held && rec.state in {DISPATCHED, RUNNING, PREEMPTION_REQUESTED})
            && (Foreign(r.epoch, engine, rec) ==> out == Keep(rec, REJECT_STALE_EPOCH))
            && (!Foreign(r.epoch, engine, rec) && r.authority != rec.ownership ==> out == Keep(rec, REJECT_NOT_OWNER))
            && (held && Closed(rec.state) ==> out == Keep(rec, REJECT_ALREADY_TERMINAL))
            && (held && rec.state == PREEMPTION_REQUESTED ==> out == Keep(rec, ALLOW))
            && (held && rec.state in {DISPATCHED, RUNNING} ==>
                  out == Keep(rec.(preemption := Next(rec.preemption), state := PREEMPTION_REQUESTED), ALLOW))
            && (held && !Closed(rec.state) && rec.state !in {DISPATCHED, RUNNING, PREEMPTION_REQUESTED} ==>
                  out == Keep(rec, REJECT_NOT_OWNER))
  {}

  lemma FinalizeCancelDecides(engine: U64, rec: Record, epoch: U64)
    requires Good(rec, false)
    ensures var out := FinalizeCancelRecord(engine, rec, epoch);
            if Outdated(epoch, engine, rec) then out == Keep(rec, REJECT_STALE_EPOCH)
            else if rec.state == CANCELLATION_REQUESTED
              then out == Keep(rec.(state := CANCELLED, attempts := WithCurrent(rec, Abandoned)), ALLOW)
            else out == Keep(rec, if rec.state == CANCELLED then ALLOW else REJECT_NOT_OWNER)
  {
    LoopIs(rec, Unfinished, ACancelled, Abandoned);
  }

  lemma AcknowledgePreemptDecides(engine: U64, rec: Record, epoch: U64)
    requires Good(rec, false)
    ensures var out := AcknowledgePreemptRecord(engine, rec, epoch);
            if Outdated(epoch, engine, rec) then out == Keep(rec, REJECT_STALE_EPOCH)
            else if rec.state == PREEMPTION_REQUESTED
              then out == Keep(rec.(state := PREEMPTED, attempts := WithCurrent(rec, Halted)), ALLOW)
            else out == Keep(rec, REJECT_NOT_OWNER)
  {
    LoopIs(rec, Unfinished, APreempted, Halted);
  }

  lemma MarkResumableDecides(engine: U64, rec: Record, epoch: U64)
    ensures var out := MarkResumableRecord(engine, rec, epoch);
            if Outdated(epoch, engine, rec) then out == Keep(rec, REJECT_STALE_EPOCH)
            else if rec.state == PREEMPTED then out == Keep(rec.(state := RESUMABLE), ALLOW)
            else out == Keep(rec, REJECT_NOT_OWNER)
  {}

  // ------------------------------------------------------------------------------------------
  // Loss and supersession.
  // ------------------------------------------------------------------------------------------

  /** A loss that takes effect: not outdated, of the owner in this boot, in one of four states. */
  predicate Loses(engine: U64, rec: Record, worker: WorkerId, boot: BootId, epoch: U64) {
    && !Outdated(epoch, engine, rec) && rec.owner == Some(worker) && rec.ownerBoot == Some(boot)
    && rec.state in {DISPATCHED, RUNNING, CANCELLATION_REQUESTED, PREEMPTION_REQUESTED}
  }

  /** The loss of the owner is granted exactly then; it moves the execution and marks the attempt. */
  lemma LossDecides(engine: U64, rec: Record, worker: WorkerId, boot: BootId, epoch: U64)
    requires Good(rec, false)
    ensures var out := WorkerLostRecord(engine, rec, worker, boot, epoch);
            && (out.code == ALLOW <==> Loses(engine, rec, worker, boot, epoch))
            && (Loses(engine, rec, worker, boot, epoch) ==>
                  && (rec.state == DISPATCHED ==> out.rec.state == READY)
                  && (rec.state == RUNNING ==> out.rec.state == AMBIGUOUS)
                  && (rec.state == CANCELLATION_REQUESTED ==> out.rec.state == CANCELLED)
                  && (rec.state == PREEMPTION_REQUESTED ==> out.rec.state == PREEMPTED)
                  && out.rec == rec.(state := out.rec.state, attempts := WithCurrent(rec, Gone)))
  {
    LoopIs(rec, AnyState, ALost, Gone);
  }

  lemma LossRefusals(engine: U64, rec: Record, worker: WorkerId, boot: BootId, epoch: U64)
    requires !Loses(engine, rec, worker, boot, epoch)
    ensures var out := WorkerLostRecord(engine, rec, worker, boot, epoch);
            && out.rec == rec
            && (Outdated(epoch, engine, rec) ==> out.code == REJECT_STALE_EPOCH)
            && (!Outdated(epoch, engine, rec) && Closed(rec.state) ==> out.code == REJECT_ALREADY_TERMINAL)
            && (!Outdated(epoch, engine, rec) && !Closed(rec.state) ==>
                  out.code == if rec.owner == Some(worker) && rec.ownerBoot == Some(boot) then DEFER else REJECT_STALE_BOOT)
  {}

  /** Past its guards supersession clears the authority in every state, and moves on from four of them. */
  lemma SupersedeDecides(engine: U64, rec: Record, epoch: U64)
    requires Good(rec, false)
    ensures var out := SupersedeRecord(engine, rec, epoch);
            if Foreign(epoch, engine, rec) then out == Keep(rec, REJECT_STALE_EPOCH)
            else if Closed(rec.state) then out == Keep(rec, REJECT_ALREADY_TERMINAL)
            else
              var cleared := rec.(generation := Next(rec.generation), attempts := WithCurrent(rec, Retired),
                                  current := None, currentGeneration := None, owner := None, ownerBoot := None);
              if rec.state in {READY, DISPATCHED, RUNNING, AMBIGUOUS} then out == Keep(cleared.(state := SUPERSEDED), ALLOW)
              else out == Keep(cleared, REJECT_ALREADY_TERMINAL)
  {
    LoopIs(rec, Unfinished, ASuperseded, Retired);
  }

  // ------------------------------------------------------------------------------------------
  // Dispatch and resume.
  // ------------------------------------------------------------------------------------------

  /** The attempt that a dispatch or a resume adds. */
  function Drawn(rec: Record, w: WorkerId, b: BootId, aid: AttemptId, did: DispatchId): Attempt {
    Attempt(id := aid, generation := NextGeneration(rec), worker := w, boot := b, dispatchId := did, dispatchGeneration := 1,
            ownership := Next(rec.ownership), fence := Next(rec.fence), stateAtDispatch := rec.state, state := ADispatched,
            resultDigest := None, resultPayload := None, failureReason := None)
  }

  /** The record with that attempt as its authority, and the old current one changed by f. */
  function Reassigned(rec: Record, w: WorkerId, b: BootId, aid: AttemptId, did: DispatchId, f: AttemptState -> AttemptState): Record {
    rec.(current := Some(aid), currentGeneration := Some(NextGeneration(rec)), owner := Some(w), ownerBoot := Some(b),
         ownership := Next(rec.ownership), fence := Next(rec.fence),
         attempts := WithCurrent(rec, f) + [Drawn(rec, w, b, aid, did)])
  }

  /** The ticket for it: who acts, and under which generations. */
  function TicketOf(rec: Record, w: WorkerId, b: BootId, e: U64, aid: AttemptId, did: DispatchId): DispatchTicket {
    DispatchTicket(Authority(executionId := rec.id, executionGeneration := rec.generation, attemptId := aid,
                             attemptGeneration := NextGeneration(rec), worker := w, boot := b, epoch := e,
                             dispatchId := did, dispatchGeneration := 1, ownership := Next(rec.ownership), fence := Next(rec.fence)))
  }

  /** In four states a dispatch is granted; in a fifth it reassigns the authority and is rejected all the same. */
  lemma DispatchDecides(engine: U64, rec: Record, w: WorkerId, b: BootId, e: U64, aid: AttemptId, did: DispatchId)
    requires Good(rec, false) && !Outdated(e, engine, rec)
    ensures var out := DispatchRecord(engine, rec, w, b, e, aid, did);
            var given := Reassigned(rec, w, b, aid, did, Retired);
            if rec.state in {READY, DISPATCHED, RUNNING, AMBIGUOUS}
            then out == Outcome(given.(state := DISPATCHED), ALLOW, Some(TicketOf(rec, w, b, e, aid, did)))
            else if rec.state == RESUMING then out == Keep(given, REJECT_ALREADY_TERMINAL)
            else out.rec == rec && out.ticket.None? && out.code != ALLOW
  {
    LoopIs(rec, Unfinished, ASuperseded, Retired);
  }

  lemma DispatchRefusals(engine: U64, rec: Record, w: WorkerId, b: BootId, e: U64, aid: AttemptId, did: DispatchId)
    ensures var out := DispatchRecord(engine, rec, w, b, e, aid, did);
            && (Outdated(e, engine, rec) ==> out == Keep(rec, REJECT_STALE_EPOCH))
            && (!Outdated(e, engine, rec) ==>
                  && (rec.state in {COMMITTED, COMPLETED} ==> out.code == REJECT_ALREADY_COMMITTED)
                  && (rec.state == CANCELLED ==> out.code == REJECT_CANCELLED)
                  && (rec.state in {FAILED, SUPERSEDED, TERMINAL} ==> out.code == REJECT_ALREADY_TERMINAL)
                  && (rec.state in {PREEMPTED, RESUMABLE} ==> out.code == REJECT_PREEMPTED)
                  && (rec.state in {CANCELLATION_REQUESTED, PREEMPTION_REQUESTED} ==> out.code == DEFER)
                  && (rec.state in {CREATED, COMPLETION_PENDING} ==> out.code == REJECT_NOT_OWNER))
  {}

  /** A resume is granted exactly to a resumable execution, for the next resumption, under its own epoch. */
  lemma ResumeDecides(engine: U64, rec: Record, w: WorkerId, b: BootId, e: U64, gen: U64, aid: AttemptId, did: DispatchId)
    requires Good(rec, false)
    ensures var out := ResumeRecord(engine, rec, w, b, e, gen, aid, did);
            if Foreign(e, engine, rec) then out == Keep(rec, REJECT_STALE_EPOCH)
            else if rec.state != RESUMABLE then out == Keep(rec, REJECT_PREEMPTED)
            else if gen != Next(rec.resumption) then out == Keep(rec, REJECT_STALE_GENERATION)
            else out == Outcome(Reassigned(rec, w, b, aid, did, Replaced).(resumption := gen, state := RESUMING), RESUME_ALLOWED,
                                Some(TicketOf(rec, w, b, e, aid, did)))
  {
    LoopIs(rec, OnlyPreempted, ASuperseded, Replaced);
  }

  // ------------------------------------------------------------------------------------------
  // Start.
  // ------------------------------------------------------------------------------------------

  /** The fields of a ticket that a start is checked for, in the order in which they are checked. */
  predicate SameGeneration(rec: Record, t: Authority) {
    t.executionGeneration == rec.generation
  }

  predicate SameAttempt(rec: Record, t: Authority) {
    rec.current == Some(t.attemptId) && rec.currentGeneration == Some(t.attemptGeneration)
  }

  /** A start is refused with the code of the first field that does not agree. */
  lemma StartRefusals(engine: U64, rec: Record, t: Authority)
    requires Good(rec, false) && rec.state in {DISPATCHED, RESUMING}
    ensures var code := StartRecord(engine, rec, t).code;
            && (t.epoch != engine ==> code == REJECT_STALE_EPOCH)
            && (t.epoch == engine && !SameGeneration(rec, t) ==> code == REJECT_STALE_GENERATION)
            && (t.epoch == engine && SameGeneration(rec, t) ==>
                  && (rec.current.None? ==> code == REJECT_NO_CURRENT_ATTEMPT)
                  && (rec.current.Some? && !SameAttempt(rec, t) ==> code == REJECT_STALE_ATTEMPT)
                  && (SameAttempt(rec, t) ==>
                        && (rec.owner != Some(t.worker) || rec.ownerBoot != Some(t.boot) ==> code == REJECT_STALE_BOOT)
                        && (rec.owner == Some(t.worker) && rec.ownerBoot == Some(t.boot) ==>
                              && (t.ownership != rec.ownership ==> code == REJECT_NOT_OWNER)
                              && (t.ownership == rec.ownership && t.fence != rec.fence ==> code == REJECT_STALE_GENERATION)
                              && (t.ownership == rec.ownership && t.fence == rec.fence ==> code == ALLOW))))
  {}

  /** A start is granted exactly to the current authority of a dispatched or resuming execution. */
  lemma StartDecides(engine: U64, rec: Record, t: Authority)
    requires Good(rec, false)
    ensures var out := StartRecord(engine, rec, t);
            && (out.code == ALLOW <==>
                  && rec.state in {DISPATCHED, RESUMING} && t.epoch == engine && SameGeneration(rec, t) && SameAttempt(rec, t)
                  && rec.owner == Some(t.worker) && rec.ownerBoot == Some(t.boot)
                  && t.ownership == rec.ownership && t.fence == rec.fence)
            && out.rec == (if out.code == ALLOW then rec.(state := RUNNING, attempts := WithCurrent(rec, InProgress)) else rec)
            && (rec.state !in {DISPATCHED, RESUMING} ==> out.code == REJECT_ALREADY_TERMINAL)
  {
    LoopIs(rec, AnyState, ARunning, InProgress);
  }

  // ------------------------------------------------------------------------------------------
  // Completion.
  // ------------------------------------------------------------------------------------------

  /** Nothing is missing from the ticket: no nil identity, no unset generation. */
  predicate FilledIn(t: Authority) {
    && t.executionId != NIL && t.attemptId != NIL && t.worker != NIL && t.boot != NIL && t.dispatchId != NIL
    && t.attemptGeneration != 0 && t.executionGeneration != 0 && t.ownership != 0 && t.fence != 0
  }

  /** A completion by anyone but the current authority is refused with the code of the first field that does not agree. */
  lemma ForeignCompletionRefusals(engine: U64, rec: Record, ct: CompletionTicket, now: Text)
    requires Good(rec, false)
    ensures var t := ct.auth;
            var out := CompleteRecord(engine, rec, ct, now);
            var lined := FilledIn(t) && !Foreign(t.epoch, engine, rec) && SameGeneration(rec, t);
            && (!FilledIn(t) ==> out == Keep(rec, REJECT_INSUFFICIENT_AUTHORITY))
            && (FilledIn(t) && Foreign(t.epoch, engine, rec) ==> out == Keep(rec, REJECT_STALE_EPOCH))
            && (FilledIn(t) && !Foreign(t.epoch, engine, rec) && !SameGeneration(rec, t) ==> out == Keep(rec, REJECT_STALE_GENERATION))
            && (lined && rec.current.None? ==> out == Keep(rec, REJECT_NO_CURRENT_ATTEMPT))
            && (lined && rec.current.Some? && !SameAttempt(rec, t) ==> out == Keep(rec, REJECT_STALE_ATTEMPT))
            && (lined && SameAttempt(rec, t) && rec.owner != Some(t.worker) ==> out == Keep(rec, REJECT_NOT_OWNER))
  {}

  lemma NearCompletionRefusals(engine: U64, rec: Record, ct: CompletionTicket, now: Text)
    requires Good(rec, false) && FilledIn(ct.auth) && !Foreign(ct.auth.epoch, engine, rec) && SameGeneration(rec, ct.auth)
    requires SameAttempt(rec, ct.auth) && rec.owner == Some(ct.auth.worker)
    ensures var t := ct.auth;
            var out := CompleteRecord(engine, rec, ct, now);
            && (rec.ownerBoot != Some(t.boot) ==> out == Keep(rec, REJECT_STALE_BOOT))
            && (rec.ownerBoot == Some(t.boot) ==>
                  && (t.ownership != rec.ownership || t.fence != rec.fence ==> out == Keep(rec, REJECT_STALE_GENERATION))
                  && (t.ownership == rec.ownership && t.fence == rec.fence && t.dispatchId != Last(rec.attempts).dispatchId ==>
                        out == Keep(rec, REJECT_STALE_ATTEMPT)))
  {
    var n := |rec.attempts|;
    assert rec.attempts[n - 1].id == ct.auth.attemptId;
  }

  predicate Completable(s: ExecutionState) {
    s in {DISPATCHED, RUNNING, CANCELLATION_REQUESTED, PREEMPTION_REQUESTED, COMPLETION_PENDING, AMBIGUOUS}
  }

  /** The ticket carries the current authority under the epoch of engine and record. */
  ghost predicate Carries(engine: U64, rec: Record, t: Authority) {
    Owned(rec, t) && NamesEveryone(t) && t.epoch == engine == rec.epoch
  }

  /** The current attempt with its result. */
  function WithResult(rec: Record, d: Digest): seq<Attempt> {
    if rec.attempts == [] then []
    else rec.attempts[|rec.attempts| - 1 := Last(rec.attempts).(state := Finished(Last(rec.attempts).state), resultDigest := Some(d))]
  }

  /** What the current authority is told when there is nothing left to complete. */
  lemma CompletionRefusals(engine: U64, rec: Record, ct: CompletionTicket, now: Text)
    requires Good(rec, false) && Carries(engine, rec, ct.auth)
    ensures var out := CompleteRecord(engine, rec, ct, now);
            && (rec.state == COMMITTED ==>
                  out == Keep(rec, if ct.hasResult && Last(rec.attempts).resultDigest == Some(ct.resultDigest)
                                   then REJECT_ALREADY_COMMITTED else REJECT_CONFLICTING_COMPLETION))
            && (rec.state == CANCELLED ==> out == Keep(rec, REJECT_CANCELLED))
            && (rec.state in {FAILED, SUPERSEDED, TERMINAL} ==> out == Keep(rec, REJECT_ALREADY_TERMINAL))
            && (rec.state == PREEMPTED ==> out == Keep(rec, REJECT_PREEMPTED))
            && (!Closed(rec.state) && rec.state != PREEMPTED && (!ct.hasResult || ct.resultDigest == NIL_DIGEST) ==>
                  out == Keep(rec, REJECT_INSUFFICIENT_AUTHORITY))
  {
    OwnedIsValid(engine, rec, ct.auth);
  }

  lemma DeliveryIs(rec: Record, d: Digest)
    requires Good(rec, false) && rec.current.Some?
    ensures ChangeFirst(rec.attempts, rec.current, AnyState, Deliver(d)) == WithResult(rec, d)
  {
    LoopTouchesCurrent(rec, false, AnyState, Deliver(d));
  }

  /** A result of the current authority is committed in six states, and only marked in the others. */
  lemma CompletionDecides(engine: U64, rec: Record, ct: CompletionTicket, now: Text)
    requires Good(rec, false) && Carries(engine, rec, ct.auth) && ct.hasResult && ct.resultDigest != NIL_DIGEST
    requires !Closed(rec.state) && rec.state != PREEMPTED
    ensures var out := CompleteRecord(engine, rec, ct, now);
            var marked := rec.(attempts := WithResult(rec, ct.resultDigest));
            out == if Completable(rec.state)
                   then Keep(marked.(state := COMMITTED, committedDigest := Some(ct.resultDigest), commit := 1, committedAt := now), ALLOW)
                   else Keep(marked, REJECT_ALREADY_TERMINAL)
  {
    OwnedIsValid(engine, rec, ct.auth);
    DeliveryIs(rec, ct.resultDigest);
  }

  // ------------------------------------------------------------------------------------------
  // A completion repeated.
  // ------------------------------------------------------------------------------------------

  lemma CommittedCarries(engine: U64, rec: Record, ct: CompletionTicket, now: Text)
    requires Good(rec, false) && CompleteRecord(engine, rec, ct, now).code == ALLOW
    ensures var after := CompleteRecord(engine, rec, ct, now).rec;
            && Good(after, false) && after.state == COMMITTED && Carries(engine, after, ct.auth)
            && Last(after.attempts).resultDigest == Some(ct.resultDigest)
  {
    GrantedExactly(engine, rec, ct, now);
    CompleteKeeps(engine, rec, false, ct, now);
    CompletionDecides(engine, rec, ct, now);
  }

  /**
   After a completion that was granted and anything else, the same ticket is told that it is a
   duplicate, with another digest or none that it conflicts, and under a risen epoch that it is stale.
   */
  lemma RepeatedCompletion(s: State, ct: CompletionTicket, now: Text, ops: seq<Op>, again: CompletionTicket, later: Text)
    requires GoodAt(s, ct.auth.executionId, false) && Step(s, Complete(ct, now)).code == ALLOW && again.auth == ct.auth
    ensures var end := Run(Step(s, Complete(ct, now)).state, ops);
            Step(end, Complete(again, later)).code ==
              if end.epoch != s.epoch then REJECT_STALE_EPOCH
              else if again.hasResult && again.resultDigest == ct.resultDigest then REJECT_ALREADY_COMMITTED
              else REJECT_CONFLICTING_COMPLETION
  {
    var id := ct.auth.executionId;
    KnownIfGranted(s, ct, now);
    var done := Step(s, Complete(ct, now)).state;
    StepOnTarget(s, Complete(ct, now), id);
    CommittedCarries(s.epoch, s.records[id], ct, now);
    TerminalForever(done, ops, id);
    var end := Run(done, ops);
    StepOnTarget(end, Complete(again, later), id);
    RepeatedOnRecord(s.epoch, end.epoch, end.records[id], ct, again, later);
  }

  lemma KnownIfGranted(s: State, ct: CompletionTicket, now: Text)
    requires Step(s, Complete(ct, now)).code == ALLOW
    ensures ct.auth.executionId in s.records && Step(s, Complete(ct, now)).state.epoch == s.epoch
  {}

  lemma RepeatedOnRecord(was: U64, engine: U64, rec: Record, ct: CompletionTicket, again: CompletionTicket, later: Text)
    requires Good(rec, false) && rec.state == COMMITTED && Carries(was, rec, ct.auth) && again.auth == ct.auth
    requires Last(rec.attempts).resultDigest == Some(ct.resultDigest)
    ensures CompleteRecord(engine, rec, again, later).code ==
              if engine != was then REJECT_STALE_EPOCH
              else if again.hasResult && again.resultDigest == ct.resultDigest then REJECT_ALREADY_COMMITTED
              else REJECT_CONFLICTING_COMPLETION
  {
    if engine == was {
      CompletionRefusals(engine, rec, again, later);
    } else {
      CarriesIsFilledIn(was, rec, ct.auth);
      ForeignCompletionRefusals(engine, rec, again, later);
    }
  }

  lemma CarriesIsFilledIn(engine: U64, rec: Record, t: Authority)
    requires Good(rec, false) && Carries(engine, rec, t)
    ensures FilledIn(t)
  {
    assert rec.attempts[|rec.attempts| - 1].id == t.attemptId;
  }

  // ------------------------------------------------------------------------------------------
  // The engine around the record.
  // ------------------------------------------------------------------------------------------

  /** Creation: refused if stale or known, and otherwise a record with nothing in it but its identity, epoch and time. */
  lemma CreateDecides(s: State, id: ExecutionId, e: U64, now: Text)
    ensures var r := Step(s, Create(id, e, now));
            && r.ticket.None?
            && (e < s.epoch ==> r.code == REJECT_STALE_EPOCH && r.state == s)
            && (e >= s.epoch && id in s.records ==> r.code == REJECT_EXISTS && r.state == s.(epoch := e))
            && (e >= s.epoch && id !in s.records ==>
                  && r.code == ALLOW && r.state.epoch == e
                  && r.state.records == s.records[id := Record(
                       id := id, generation := 1, state := CREATED, epoch := e, ownership := 0, fence := 0,
                       current := None, currentGeneration := None, owner := None, ownerBoot := None,
                       cancellation := 0, preemption := 0, resumption := 0, completion := 0, commit := 0,
                       committedDigest := None, attempts := [], createdAt := now, committedAt := [])])
  {
    if e >= s.epoch && id in s.records {
      assert s.records[id := s.records[id]] == s.records;
    }
  }

  /** An operation on an unknown execution changes nothing. */
  lemma UnknownDecides(s: State, op: Op)
    requires Target(op).Some? && Target(op).value !in s.records && !op.Create?
    ensures var r := Step(s, op);
            && r.state == s && r.ticket.None?
            && r.code == if op.Activate? || op.Dispatch? then UNKNOWN else REJECT_UNKNOWN_EXECUTION
  {}

  /** The engine adopts a newer epoch from a creation, activation or dispatch that it does not refuse as stale, and from nothing else. */
  lemma EpochDecides(s: State, op: Op)
    requires !op.RaiseEpoch?
    ensures var r := Step(s, op);
            r.state.epoch == if (op.Create? || op.Activate? || op.Dispatch?) && r.code != REJECT_STALE_EPOCH && r.code != UNKNOWN
                             then op.epoch else s.epoch
  {}

  lemma RaiseDecides(s: State, e: U64)
    ensures Step(s, RaiseEpoch(e)).state == s.(epoch := if e > s.epoch then e else s.epoch)
  {}
}
