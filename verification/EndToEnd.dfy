/** From an issued ticket over the wire and back: the worker's answers end in a commit of its result. */
module EndToEnd {
  import opened Types
  import opened StateMachine
  import opened EngineSpec
  import opened EngineInvariants
  import opened EngineRuns
  import opened EngineIndependence
  import opened Binary
  import M = Messages
  import P = Protocol
  import C = CoordinatorSpec
  import Worker
  import Sha256

  // ------------------------------------------------------------------------------------------
  // The engine accepts the worker's answers.
  // ------------------------------------------------------------------------------------------

  /** The record holds the authority of t, in whatever state. */
  ghost predicate Owned(rec: Record, t: Authority) {
    && t.executionGeneration == rec.generation
    && rec.current == Some(t.attemptId) && rec.currentGeneration == Some(t.attemptGeneration)
    && rec.owner == Some(t.worker) && rec.ownerBoot == Some(t.boot)
    && rec.ownership == t.ownership && rec.fence == t.fence
    && rec.attempts != [] && Last(rec.attempts).dispatchId == t.dispatchId
  }

  lemma StartAccepted(engine: U64, rec: Record, t: Authority)
    requires Good(rec, false) && HoldsAuthority(rec, t) && t.epoch == engine
    ensures var out := StartRecord(engine, rec, t);
            out.code == ALLOW && out.rec.state == RUNNING && Owned(out.rec, t) && out.rec.epoch == rec.epoch
  {
    LoopTouchesCurrent(rec, false, AnyState, To(ARunning));
  }

  ghost predicate NamesEveryone(t: Authority) {
    t.executionId != NIL && t.worker != NIL && t.boot != NIL
  }

  /** A ticket that passes validation carries exactly the authority of the record, dispatch identity included. */
  lemma ValidIsOwned(engine: U64, rec: Record, t: Authority)
    requires Good(rec, false) && ValidateCompletion(engine, rec, t) == ALLOW
    ensures Owned(rec, t) && NamesEveryone(t) && t.epoch == engine == rec.epoch
  {
    var n := |rec.attempts|;
    assert rec.attempts[n - 1].id == t.attemptId;
  }

  lemma OwnedIsValid(engine: U64, rec: Record, t: Authority)
    requires Good(rec, false) && Owned(rec, t) && NamesEveryone(t) && t.epoch == engine == rec.epoch
    ensures ValidateCompletion(engine, rec, t) == ALLOW
  {
    var n := |rec.attempts|;
    assert rec.attempts[n - 1].id == t.attemptId;
    assert t.attemptId != NIL && t.dispatchId != NIL;
    assert forall i :: 0 <= i < n && rec.attempts[i].id == t.attemptId ==> i == n - 1;
  }

  lemma ValidDecides(engine: U64, rec: Record, ct: CompletionTicket, now: Text)
    ensures CompleteRecord(engine, rec, ct, now).code == ALLOW <==>
            && ValidateCompletion(engine, rec, ct.auth) == ALLOW
            && ct.hasResult && ct.resultDigest != NIL_DIGEST && MayMove(rec.state, COMPLETED)
  {}

  /** Which completion becomes real: the one with the current authority, under the record's epoch, with a result, in a state that may complete. */
  lemma GrantedExactly(engine: U64, rec: Record, ct: CompletionTicket, now: Text)
    requires Good(rec, false)
    ensures CompleteRecord(engine, rec, ct, now).code == ALLOW <==>
            && Owned(rec, ct.auth) && NamesEveryone(ct.auth) && ct.auth.epoch == engine == rec.epoch
            && ct.hasResult && ct.resultDigest != NIL_DIGEST && MayMove(rec.state, COMPLETED)
  {
    ValidDecides(engine, rec, ct, now);
    if ValidateCompletion(engine, rec, ct.auth) == ALLOW {
      ValidIsOwned(engine, rec, ct.auth);
    } else if Owned(rec, ct.auth) && NamesEveryone(ct.auth) && ct.auth.epoch == engine == rec.epoch {
      OwnedIsValid(engine, rec, ct.auth);
    }
  }

  lemma CompletionDecided(engine: U64, rec: Record, ct: CompletionTicket, now: Text)
    requires Good(rec, false) && Owned(rec, ct.auth) && NamesEveryone(ct.auth) && ct.auth.epoch == engine
    requires rec.state == RUNNING && ct.hasResult && ct.resultDigest != NIL_DIGEST
    ensures var out := CompleteRecord(engine, rec, ct, now);
            if rec.epoch == engine
            then out.code == ALLOW && out.rec.state == COMMITTED && out.rec.committedDigest == Some(ct.resultDigest)
            else out.code == REJECT_STALE_EPOCH && out.rec == rec
  {
    GrantedExactly(engine, rec, ct, now);
  }

  // ------------------------------------------------------------------------------------------
  // Nothing else touches the execution in between.
  // ------------------------------------------------------------------------------------------

  ghost predicate Quiet(ops: seq<Op>, id: ExecutionId, e: U64) {
    forall op :: op in ops ==> !Touches(op, id) && RaisesNothing(op, e)
  }

  lemma {:induction false} QuietRun(s: State, ops: seq<Op>, id: ExecutionId)
    requires Quiet(ops, id, s.epoch) && id in s.records
    ensures Run(s, ops).epoch == s.epoch && id in Run(s, ops).records && Run(s, ops).records[id] == s.records[id]
    decreases |ops|
  {
    if ops != [] {
      EpochFixed(s, ops[0]);
      StepIsLocal(s, ops[0], id);
      QuietRun(Step(s, ops[0]).state, ops[1..], id);
    }
  }

  /** A start and a completion with the issued authority, anything quiet around them. */
  lemma AnswersCommit(s: State, t: Authority, a: seq<Op>, b: seq<Op>, ct: CompletionTicket, now: Text)
    requires var id := t.executionId;
             && id in s.records && Good(s.records[id], false) && HoldsAuthority(s.records[id], t)
             && t.epoch == s.epoch && Quiet(a, id, s.epoch) && Quiet(b, id, s.epoch)
    requires NamesEveryone(t) && ct.auth == t && ct.hasResult && ct.resultDigest != NIL_DIGEST
    ensures var id := t.executionId;
            var s1 := Run(s, a);
            var started := Step(s1, MarkRunning(StartTicket(t)));
            var s2 := Run(started.state, b);
            var done := Step(s2, Complete(ct, now));
            && started.code == ALLOW
            && id in done.state.records
            && if s.records[id].epoch == t.epoch
               then done.code == ALLOW && done.state.records[id].state == COMMITTED
                    && done.state.records[id].committedDigest == Some(ct.resultDigest)
               else done.code == REJECT_STALE_EPOCH && done.state.records[id].state == RUNNING
  {
    var id := t.executionId;
    QuietRun(s, a, id);
    var s1 := Run(s, a);
    var op := MarkRunning(StartTicket(t));
    var started := Step(s1, op);
    StepOnTarget(s1, op, id);
    StartAccepted(s1.epoch, s1.records[id], t);
    StartKeeps(s1.epoch, s1.records[id], false, t);
    QuietRun(started.state, b, id);
    var s2 := Run(started.state, b);
    StepOnTarget(s2, Complete(ct, now), id);
    CompletionDecided(s2.epoch, s2.records[id], ct, now);
  }

  // ------------------------------------------------------------------------------------------
  // The wire carries them.
  // ------------------------------------------------------------------------------------------

  /** A frame sent on a connection, as it comes out at the other end. */
  function Carried(f: P.Frame): Option<P.Frame> {
    var p := P.DecodeFrame(P.EncodeFrame(f));
    if p.Ok? && p.rest == [] then Some(p.value) else None
  }

  lemma FrameCarried(f: P.Frame)
    requires |f.payload| <= P.MAX_PAYLOAD
    ensures Carried(f) == Some(f)
  {
    P.FrameRoundTrip(f, []);
  }

  lemma WorkCarried(w: M.WorkerDispatch)
    requires w.workBytes < U32 && w.workSeed < U32
    ensures Carried(P.Frame(P.WORKER_DISPATCH, M.PackWorkerDispatch(w))) == Some(P.Frame(P.WORKER_DISPATCH, M.PackWorkerDispatch(w)))
    ensures M.UnpackWorkerDispatch(M.PackWorkerDispatch(w)) == Some(w)
  {
    M.WorkerDispatchSize(w);
    FrameCarried(P.Frame(P.WORKER_DISPATCH, M.PackWorkerDispatch(w)));
    M.WorkerDispatchRoundTrip(w);
  }

  lemma StartIsRead(b: seq<byte>)
    ensures C.Parsed(P.START, b) == C.ReadStart(b)
  {}

  lemma StartParsed(b: seq<byte>, t: StartTicket)
    requires M.UnpackStart(b) == Some(t)
    ensures C.Parsed(P.START, b) == C.Starts(t)
  {
    StartIsRead(b);
  }

  lemma CompleteIsRead(b: seq<byte>)
    ensures C.Parsed(P.COMPLETE, b) == C.ReadComplete(b)
  {}

  lemma ReadsCompletion(b: seq<byte>, p: M.Completion)
    requires M.UnpackComplete(b) == Some(p)
    ensures C.ReadComplete(b) == C.Completes(C.WithDigest(p))
  {}

  lemma CompletionParsed(b: seq<byte>, p: M.Completion)
    requires M.UnpackComplete(b) == Some(p)
    ensures C.Parsed(P.COMPLETE, b) == C.Completes(C.WithDigest(p))
  {
    CompleteIsRead(b);
    ReadsCompletion(b, p);
  }

  lemma StartCarried(t: StartTicket)
    ensures Carried(P.Frame(P.START, M.PackStart(t))) == Some(P.Frame(P.START, M.PackStart(t)))
    ensures C.Parsed(P.START, M.PackStart(t)) == C.Starts(t)
  {
    M.StartSize(t);
    FrameCarried(P.Frame(P.START, M.PackStart(t)));
    M.StartRoundTrip(t);
    StartParsed(M.PackStart(t), t);
  }

  lemma CompletionCarried(p: M.Completion)
    requires p.ticket.hasResult && p.ticket.resultDigest != NIL_DIGEST && |p.result| <= MAX_VECTOR
    ensures Carried(P.Frame(P.COMPLETE, M.PackComplete(p))) == Some(P.Frame(P.COMPLETE, M.PackComplete(p)))
    ensures C.Parsed(P.COMPLETE, M.PackComplete(p)) == C.Completes(p.ticket)
  {
    M.CompleteSize(p);
    FrameCarried(P.Frame(P.COMPLETE, M.PackComplete(p)));
    M.CompleteRoundTrip(p);
    CompletionParsed(M.PackComplete(p), p);
  }

  /** The frame comes out at the other end and is understood as the message. */
  ghost predicate Understood(f: P.Frame, msg: C.Message) {
    Carried(f) == Some(f) && C.Parsed(f.kind, f.payload) == msg
  }

  lemma StartUnderstood(w: M.WorkerDispatch)
    ensures Understood(Worker.StartFrame(w), C.Starts(StartTicket(w.ticket.auth)))
  {
    StartCarried(StartTicket(w.ticket.auth));
  }

  lemma CompletionUnderstood(w: M.WorkerDispatch, exec: Worker.Executor, p: M.Completion)
    requires p == M.Completion(Worker.CompletionFor(w.ticket, p.ticket.resultDigest), Worker.ResultOf(exec, w))
    requires p.ticket.resultDigest == Sha256.DigestOf(p.result) != NIL_DIGEST && |p.result| <= MAX_VECTOR
    ensures Understood(Worker.CompleteFrame(w, exec), C.Completes(p.ticket))
  {
    CompletionCarried(p);
  }

  /** The worker gets the work it is offered. */
  lemma WorkTravels(w: M.WorkerDispatch)
    requires w.workBytes < U32 && w.workSeed < U32
    ensures var f := P.Frame(P.WORKER_DISPATCH, M.PackWorkerDispatch(w));
            Carried(f) == Some(f) && M.UnpackWorkerDispatch(f.payload) == Some(w)
  {
    WorkCarried(w);
  }

  /** Both of its answers are understood with the ticket unchanged. */
  lemma AnswersTravel(w: M.WorkerDispatch, exec: Worker.Executor, digest: Digest)
    requires |Worker.ResultOf(exec, w)| <= MAX_VECTOR && digest == Sha256.DigestOf(Worker.ResultOf(exec, w)) != NIL_DIGEST
    ensures Understood(Worker.StartFrame(w), C.Starts(StartTicket(w.ticket.auth)))
    ensures Understood(Worker.CompleteFrame(w, exec), C.Completes(Worker.CompletionFor(w.ticket, digest)))
  {
    StartUnderstood(w);
    CompletionUnderstood(w, exec, M.Completion(Worker.CompletionFor(w.ticket, digest), Worker.ResultOf(exec, w)));
  }

  lemma IssuedCommits(s: State, issue: Op, a: seq<Op>, b: seq<Op>, digest: Digest, now: Text)
    requires Keyed(s) && Fresh(s, issue) && Step(s, issue).ticket.Some? && digest != NIL_DIGEST
    requires var t := Step(s, issue).ticket.value.auth;
             && GoodAt(s, t.executionId, false) && NamesEveryone(t)
             && Quiet(a, t.executionId, Step(s, issue).state.epoch) && Quiet(b, t.executionId, Step(s, issue).state.epoch)
    ensures CommitsUnder(Step(s, issue).state, Step(s, issue).ticket.value, a, b, digest, now)
  {
    var t := Step(s, issue).ticket.value;
    IssuedTicketIsCurrent(s, issue);
    StepKeepsGood(s, issue, t.auth.executionId, false);
    AnswersCommit(Step(s, issue).state, t.auth, a, b, Worker.CompletionFor(t, digest), now);
  }

  /**
   From the state in which the ticket was issued, its start is granted, and its completion commits
   the digest exactly if the execution was created under the epoch of the ticket.
   */
  ghost predicate CommitsUnder(s: State, t: DispatchTicket, a: seq<Op>, b: seq<Op>, digest: Digest, now: Text) {
    var id := t.auth.executionId;
    var started := Step(Run(s, a), MarkRunning(StartTicket(t.auth)));
    var done := Step(Run(started.state, b), Complete(Worker.CompletionFor(t, digest), now));
    && started.code == ALLOW
    && id in s.records && id in done.state.records
    && if s.records[id].epoch == t.auth.epoch
       then done.code == ALLOW && done.state.records[id].state == COMMITTED
            && done.state.records[id].committedDigest == Some(digest)
       else done.code == REJECT_STALE_EPOCH && done.state.records[id].state == RUNNING
  }

  /**
   End to end: a dispatch or a resume issues a ticket, the worker answers with two frames, and
   nothing else touches the execution. What arrives are a start and a completion with that ticket,
   and they commit the digest of the worker's result exactly under the ticket's own epoch.
   */
  lemma WorkerCommits(s: State, issue: Op, seed: nat, exec: Worker.Executor, w: M.WorkerDispatch, digest: Digest,
                      a: seq<Op>, b: seq<Op>, now: Text)
    requires Keyed(s) && Fresh(s, issue) && Step(s, issue).ticket.Some? && seed < U32
    requires w == M.WorkerDispatch(Step(s, issue).ticket.value, 4096, seed)
    requires |Worker.ResultOf(exec, w)| <= MAX_VECTOR && digest == Sha256.DigestOf(Worker.ResultOf(exec, w)) != NIL_DIGEST
    requires var t := w.ticket.auth;
             && GoodAt(s, t.executionId, false) && NamesEveryone(t)
             && Quiet(a, t.executionId, Step(s, issue).state.epoch) && Quiet(b, t.executionId, Step(s, issue).state.epoch)
    ensures var f := P.Frame(P.WORKER_DISPATCH, M.PackWorkerDispatch(w));
            Carried(f) == Some(f) && M.UnpackWorkerDispatch(f.payload) == Some(w)
    ensures Understood(Worker.StartFrame(w), C.Starts(StartTicket(w.ticket.auth)))
    ensures Understood(Worker.CompleteFrame(w, exec), C.Completes(Worker.CompletionFor(w.ticket, digest)))
    ensures CommitsUnder(Step(s, issue).state, w.ticket, a, b, digest, now)
  {
    WorkTravels(w);
    AnswersTravel(w, exec, digest);
    IssuedCommits(s, issue, a, b, digest, now);
  }
}
