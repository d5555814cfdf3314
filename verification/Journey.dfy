/** The way of one ticket through the coordinator: from the request to the acknowledged, stored commit. */
module Journey {
  import opened Types
  import opened Binary
  import opened Listing
  import opened EngineSpec
  import opened EngineInvariants
  import opened EngineRuns
  import opened EndToEnd
  import opened CoordinatorRuns
  import Recovery = CoordinatorRecovery
  import C = CoordinatorSpec
  import M = Messages
  import P = Protocol
  import Worker
  import Sha256

  // ------------------------------------------------------------------------------------------
  // What the coordinator is asked to keep while the worker is at work.
  // ------------------------------------------------------------------------------------------

  /** The coordinator is up and the execution's record and the epoch are these. */
  ghost predicate Waits(n: C.Node, id: ExecutionId, rec: Record, e: U64) {
    && n.up && KeyedMap(n.engine.records) && n.engine.epoch == e
    && id in n.engine.records && n.engine.records[id] == rec
  }

  /** A message about other executions that raises no epoch and does not bring the coordinator down. */
  ghost predicate Elsewhere(md: C.Medium, id: ExecutionId, n: C.Node, ev: C.Event) {
    && !ev.Restart? && C.NextBy(md, n, ev).node.up
    && (ev.Inbound? ==> Quiet(ActOps(n, ev.conn, C.Parsed(ev.kind, ev.payload), ev.env), id, n.engine.epoch))
  }

  lemma ElsewhereKeeps(md: C.Medium, n: C.Node, ev: C.Event, id: ExecutionId, rec: Record, e: U64)
    requires Waits(n, id, rec, e) && Elsewhere(md, id, n, ev)
    ensures Waits(C.NextBy(md, n, ev).node, id, rec, e)
  {
    if ev.Inbound? {
      var msg := C.Parsed(ev.kind, ev.payload);
      var ops := ActOps(n, ev.conn, msg, ev.env);
      ActFollows(md, n, ev.conn, msg, ev.env);
      QuietRun(n.engine, ops, id);
      KeyedForever(n.engine, ops);
    }
  }

  // ------------------------------------------------------------------------------------------
  // The three steps that concern the execution.
  // ------------------------------------------------------------------------------------------

  /** The operation that hands out a ticket, for the two messages that ask for one. */
  function IssueOp(msg: C.Message, env: C.Env): Option<Op> {
    match msg
    case Dispatches(p) => Some(Dispatch(p.id, p.worker, p.boot, p.epoch, env.aid, env.did))
    case Resumes(p) => Some(Resume(p.id, p.worker, p.boot, p.epoch, p.gen, env.aid, env.did))
    case _ => None
  }

  lemma OfferComesFrom(md: C.Medium, n: C.Node, conn: nat, w: nat, r: Result, work: M.WorkerDispatch)
    requires C.ToWorker(w, work) in C.AfterDispatch(md, n, conn, w, r).sent || C.ToWorker(w, work) in C.AfterResume(md, n, conn, w, r).sent
    ensures r.ticket == Some(work.ticket) && work.workBytes == 4096 && (work.workSeed == 0 || work.workSeed == 7)
  {}

  lemma OfferTo(md: C.Medium, n: C.Node, conn: nat, v: nat, r: Result, w: nat, work: M.WorkerDispatch)
    requires C.ToWorker(w, work) in C.AfterDispatch(md, n, conn, v, r).sent || C.ToWorker(w, work) in C.AfterResume(md, n, conn, v, r).sent
    ensures w == v
  {}

  lemma OnlyIssuesOffer(md: C.Medium, n: C.Node, conn: nat, msg: C.Message, env: C.Env, w: nat, work: M.WorkerDispatch)
    requires C.ToWorker(w, work) in C.Act(md, n, conn, msg, env).sent
    ensures msg.Dispatches? || msg.Resumes?
  {}

  /** Work is offered to a worker only with the ticket that the engine has just issued. */
  lemma OfferIsIssued(md: C.Medium, n: C.Node, conn: nat, msg: C.Message, env: C.Env, w: nat, work: M.WorkerDispatch)
    requires C.ToWorker(w, work) in C.Act(md, n, conn, msg, env).sent
    ensures IssueOp(msg, env).Some? && ActOps(n, conn, msg, env) == [IssueOp(msg, env).value]
    ensures Step(n.engine, IssueOp(msg, env).value).ticket == Some(work.ticket)
    ensures work.workBytes == 4096 && work.workSeed < U32
    ensures C.Act(md, n, conn, msg, env).node.up == n.up
  {
    OnlyIssuesOffer(md, n, conn, msg, env, w, work);
    var op := IssueOp(msg, env).value;
    var r := Step(n.engine, op);
    var v := C.WorkerConn(n.conns, op.worker, env.pick);
    OfferTo(md, n, conn, v, r, w, work);
    OfferComesFrom(md, n, conn, v, r, work);
  }

  lemma IssueStep(md: C.Medium, n: C.Node, conn: nat, msg: C.Message, env: C.Env, w: nat, work: M.WorkerDispatch, after: C.Node)
    requires C.ToWorker(w, work) in C.Act(md, n, conn, msg, env).sent && after == C.Act(md, n, conn, msg, env).node
    requires n.up && Base(n) && GoodAt(n.engine, work.ticket.auth.executionId, false)
    requires FreshRun(n.engine, ActOps(n, conn, msg, env))
    ensures var t := work.ticket.auth;
            && t.executionId in after.engine.records && t.epoch == after.engine.epoch
            && Waits(after, t.executionId, after.engine.records[t.executionId], t.epoch)
            && Good(after.engine.records[t.executionId], false) && HoldsAuthority(after.engine.records[t.executionId], t)
  {
    OfferIsIssued(md, n, conn, msg, env, w, work);
    ActFollows(md, n, conn, msg, env);
    var op := IssueOp(msg, env).value;
    RunOne(n.engine, op);
    KeyedForever(n.engine, [op]);
    IssuedTicketIsCurrent(n.engine, op);
    StepKeepsGood(n.engine, op, work.ticket.auth.executionId, false);
  }

  /** Started, with the authority of t. */
  ghost predicate Begun(rec: Record, t: Authority) {
    Good(rec, false) && rec.state == RUNNING && Owned(rec, t)
  }

  lemma StartResult(s: State, t: Authority, rec: Record) returns (after: Record)
    requires KeyedMap(s.records) && s.epoch == t.epoch && t.executionId in s.records && s.records[t.executionId] == rec
    requires Good(rec, false) && HoldsAuthority(rec, t)
    ensures var r := Step(s, MarkRunning(StartTicket(t)));
            && r.code == ALLOW && r.state.epoch == s.epoch && KeyedMap(r.state.records)
            && t.executionId in r.state.records && r.state.records[t.executionId] == after
            && Begun(after, t) && after.epoch == rec.epoch
  {
    var op := MarkRunning(StartTicket(t));
    StepOnTarget(s, op, t.executionId);
    StartAccepted(t.epoch, rec, t);
    StartKeeps(t.epoch, rec, false, t);
    after := StartRecord(t.epoch, rec, t).rec;
    RunOne(s, op);
    KeyedForever(s, [op]);
  }

  lemma StartStep(md: C.Medium, n: C.Node, c: nat, env: C.Env, t: Authority, rec: Record) returns (after: Record)
    requires Waits(n, t.executionId, rec, t.epoch) && Good(rec, false) && HoldsAuthority(rec, t)
    ensures var d := C.Act(md, n, c, C.Starts(StartTicket(t)), env);
            && d.sent == [C.Decided(c, P.COMPLETE_ACK, ALLOW)]
            && Waits(d.node, t.executionId, after, t.epoch) && Begun(after, t) && after.epoch == rec.epoch
  {
    after := StartResult(n.engine, t, rec);
    StartTaken(md, n, c, env, t, Step(n.engine, MarkRunning(StartTicket(t))));
  }

  lemma StartTaken(md: C.Medium, n: C.Node, c: nat, env: C.Env, t: Authority, r: Result)
    requires r == Step(n.engine, MarkRunning(StartTicket(t)))
    ensures C.Act(md, n, c, C.Starts(StartTicket(t)), env) ==
            C.Done(n.(engine := r.state), [C.Decided(c, P.COMPLETE_ACK, r.code)])
  {}

  /** The completion is acknowledged as a commit, and stored, exactly under the record's own epoch. */
  ghost predicate Concluded(md: C.Medium, d: C.Done, c: nat, id: ExecutionId, digest: Digest, current: bool) {
    if current then d.sent == [C.CompleteAck(c, id, ALLOW, Some(digest))] && Safe(md, d.node, id, digest)
    else d.sent == [C.CompleteAck(c, id, REJECT_STALE_EPOCH, None)]
  }

  lemma CompletionResult(s: State, ct: CompletionTicket, now: Text, rec: Record)
    requires KeyedMap(s.records) && s.epoch == ct.auth.epoch && ct.auth.executionId in s.records
    requires s.records[ct.auth.executionId] == rec && Begun(rec, ct.auth) && NamesEveryone(ct.auth)
    requires ct.hasResult && ct.resultDigest != NIL_DIGEST
    ensures var r := Step(s, Complete(ct, now));
            && KeyedMap(r.state.records)
            && if rec.epoch == ct.auth.epoch
               then r.code == ALLOW && Committed(r.state.records, ct.auth.executionId, ct.resultDigest)
               else r.code == REJECT_STALE_EPOCH
  {
    var op := Complete(ct, now);
    StepOnTarget(s, op, ct.auth.executionId);
    CompletionDecided(ct.auth.epoch, rec, ct, now);
    RunOne(s, op);
    KeyedForever(s, [op]);
  }

  lemma CompletionTaken(md: C.Medium, n: C.Node, c: nat, env: C.Env, ct: CompletionTicket, r: Result)
    requires r == Step(n.engine, Complete(ct, env.now))
    ensures C.Act(md, n, c, C.Completes(ct), env) == C.AfterComplete(md, n, c, ct.auth.executionId, r)
  {}

  lemma CompleteStep(md: C.Medium, n: C.Node, c: nat, env: C.Env, ct: CompletionTicket, rec: Record)
    requires Waits(n, ct.auth.executionId, rec, ct.auth.epoch) && Begun(rec, ct.auth) && NamesEveryone(ct.auth)
    requires ct.hasResult && ct.resultDigest != NIL_DIGEST
    requires md.fits(C.Act(md, n, c, C.Completes(ct), env).node.engine.records)
    ensures Concluded(md, C.Act(md, n, c, C.Completes(ct), env), c, ct.auth.executionId, ct.resultDigest, rec.epoch == ct.auth.epoch)
  {
    var r := Step(n.engine, Complete(ct, env.now));
    CompletionResult(n.engine, ct, env.now, rec);
    CompletionTaken(md, n, c, env, ct, r);
    Conclude(md, n, c, ct.auth.executionId, r, ct.resultDigest, rec.epoch == ct.auth.epoch);
  }

  lemma Conclude(md: C.Medium, n: C.Node, c: nat, id: ExecutionId, r: Result, digest: Digest, current: bool)
    requires KeyedMap(r.state.records) && md.fits(C.AfterComplete(md, n, c, id, r).node.engine.records)
    requires if current then r.code == ALLOW && Committed(r.state.records, id, digest) else r.code == REJECT_STALE_EPOCH
    ensures Concluded(md, C.AfterComplete(md, n, c, id, r), c, id, digest, current)
  {}

  // ------------------------------------------------------------------------------------------
  // The whole way, for a step function that is the coordinator's.
  // ------------------------------------------------------------------------------------------

  type Stepper = (C.Node, C.Event) -> C.Done
  type Watch = (C.Node, C.Event) -> bool

  /** next is the step over md and away says that it happens elsewhere; Visit names the places where that matters. */
  ghost predicate Machine(md: C.Medium, id: ExecutionId, next: Stepper, away: Watch) {
    forall n: C.Node, ev: C.Event {:trigger Visit(n, ev)} :: Visit(n, ev) ==>
      next(n, ev) == C.NextBy(md, n, ev) && away(n, ev) == Elsewhere(md, id, n, ev)
  }

  ghost predicate Visit(n: C.Node, ev: C.Event) {
    true
  }

  lemma AwayKeeps(md: C.Medium, id: ExecutionId, next: Stepper, away: Watch, n: C.Node, es: seq<C.Event>, rec: Record, e: U64)
    requires Machine(md, id, next, away) && Waits(n, id, rec, e) && C.AllOk(next, away, n, es)
    ensures Waits(C.RunBy(next, n, es), id, rec, e)
  {
    var base := (x: C.Node) => Waits(x, id, rec, e);
    forall x: C.Node, ev: C.Event | base(x) && away(x, ev)
      ensures base(next(x, ev).node)
    {
      assert Visit(x, ev);
      ElsewhereKeeps(md, x, ev, id, rec, e);
    }
    HoldsInRun(next, away, base, n, es);
  }

  /** An event that brings the coordinator this message. */
  ghost predicate Brings(ev: C.Event, msg: C.Message) {
    ev.Inbound? && C.Parsed(ev.kind, ev.payload) == msg
  }

  lemma BroughtIsDone(md: C.Medium, id: ExecutionId, next: Stepper, away: Watch, n: C.Node, ev: C.Event, msg: C.Message)
    requires Machine(md, id, next, away) && Brings(ev, msg) && n.up
    ensures next(n, ev) == C.Act(md, n, ev.conn, msg, ev.env)
  {
    assert Visit(n, ev);
  }

  /** From the issue of the ticket: elsewhere, the start, elsewhere, the completion. */
  lemma FromIssueToCommit(md: C.Medium, next: Stepper, away: Watch, n: C.Node, rec: Record, ct: CompletionTicket,
                          es: seq<C.Event>, start: C.Event, fs: seq<C.Event>, complete: C.Event)
    requires Machine(md, ct.auth.executionId, next, away)
    requires Waits(n, ct.auth.executionId, rec, ct.auth.epoch) && Good(rec, false) && HoldsAuthority(rec, ct.auth)
    requires NamesEveryone(ct.auth) && ct.hasResult && ct.resultDigest != NIL_DIGEST
    requires Brings(start, C.Starts(StartTicket(ct.auth))) && Brings(complete, C.Completes(ct))
    requires C.AllOk(next, away, n, es) && C.AllOk(next, away, next(C.RunBy(next, n, es), start).node, fs)
    requires var last := C.RunBy(next, next(C.RunBy(next, n, es), start).node, fs);
             md.fits(next(last, complete).node.engine.records)
    ensures var started := next(C.RunBy(next, n, es), start);
            && started.sent == [C.Decided(start.conn, P.COMPLETE_ACK, ALLOW)]
            && Concluded(md, next(C.RunBy(next, started.node, fs), complete), complete.conn, ct.auth.executionId,
                         ct.resultDigest, rec.epoch == ct.auth.epoch)
  {
    var id, e := ct.auth.executionId, ct.auth.epoch;
    AwayKeeps(md, id, next, away, n, es, rec, e);
    var n1 := C.RunBy(next, n, es);
    BroughtIsDone(md, id, next, away, n1, start, C.Starts(StartTicket(ct.auth)));
    var begun := StartStep(md, n1, start.conn, start.env, ct.auth, rec);
    AwayKeeps(md, id, next, away, next(n1, start).node, fs, begun, e);
    var n2 := C.RunBy(next, next(n1, start).node, fs);
    BroughtIsDone(md, id, next, away, n2, complete, C.Completes(ct));
    CompleteStep(md, n2, complete.conn, complete.env, ct, begun);
  }

  /** The same from the message that leads to the offer. */
  lemma FromOfferToCommit(md: C.Medium, next: Stepper, away: Watch, n: C.Node, conn: nat, msg: C.Message, env: C.Env,
                          w: nat, work: M.WorkerDispatch, offer: C.Done, ct: CompletionTicket,
                          es: seq<C.Event>, start: C.Event, fs: seq<C.Event>, complete: C.Event)
    requires Machine(md, ct.auth.executionId, next, away) && ct.auth == work.ticket.auth
    requires n.up && Base(n) && GoodAt(n.engine, ct.auth.executionId, false) && FreshRun(n.engine, ActOps(n, conn, msg, env))
    requires offer == C.Act(md, n, conn, msg, env) && C.ToWorker(w, work) in offer.sent
    requires NamesEveryone(ct.auth) && ct.hasResult && ct.resultDigest != NIL_DIGEST
    requires Brings(start, C.Starts(StartTicket(ct.auth))) && Brings(complete, C.Completes(ct))
    requires C.AllOk(next, away, offer.node, es) && C.AllOk(next, away, next(C.RunBy(next, offer.node, es), start).node, fs)
    requires var last := C.RunBy(next, next(C.RunBy(next, offer.node, es), start).node, fs);
             md.fits(next(last, complete).node.engine.records)
    ensures ct.auth.executionId in offer.node.engine.records
    ensures var started := next(C.RunBy(next, offer.node, es), start);
            && started.sent == [C.Decided(start.conn, P.COMPLETE_ACK, ALLOW)]
            && Concluded(md, next(C.RunBy(next, started.node, fs), complete), complete.conn, ct.auth.executionId,
                         ct.resultDigest, offer.node.engine.records[ct.auth.executionId].epoch == ct.auth.epoch)
  {
    IssueStep(md, n, conn, msg, env, w, work, offer.node);
    FromIssueToCommit(md, next, away, offer.node, offer.node.engine.records[ct.auth.executionId], ct, es, start, fs, complete);
  }

  // ------------------------------------------------------------------------------------------
  // Over the real file, with the worker's own frames.
  // ------------------------------------------------------------------------------------------

  ghost predicate ElsewhereOnDisk(id: ExecutionId, n: C.Node, ev: C.Event) {
    Elsewhere(C.Disk(), id, n, ev)
  }

  lemma DiskMachine(id: ExecutionId)
    ensures Machine(C.Disk(), id, C.NodeStep, (n: C.Node, ev: C.Event) => ElsewhereOnDisk(id, n, ev))
  {
    forall n: C.Node, ev: C.Event | Visit(n, ev)
      ensures C.NodeStep(n, ev) == C.NextBy(C.Disk(), n, ev)
    {}
  }

  /** The event by which a frame of the worker reaches the coordinator on a connection. */
  function Arrival(c: nat, f: P.Frame, env: C.Env): C.Event {
    C.Inbound(c, f.kind, f.payload, env)
  }

  lemma ArrivalBrings(c: nat, f: P.Frame, env: C.Env, msg: C.Message)
    requires Understood(f, msg)
    ensures Brings(Arrival(c, f, env), msg)
  {}

  /** Both answers of the worker arrive as the messages they are meant to be, with the ticket it was given. */
  lemma StartFrameBrings(work: M.WorkerDispatch, c: nat, env: C.Env)
    ensures Brings(Arrival(c, Worker.StartFrame(work), env), C.Starts(StartTicket(work.ticket.auth)))
  {
    StartUnderstood(work);
    ArrivalBrings(c, Worker.StartFrame(work), env, C.Starts(StartTicket(work.ticket.auth)));
  }

  lemma CompleteFrameBrings(work: M.WorkerDispatch, exec: Worker.Executor, ct: CompletionTicket, c: nat, env: C.Env)
    requires |Worker.ResultOf(exec, work)| <= MAX_VECTOR && ct == Worker.CompletionFor(work.ticket, ct.resultDigest)
    requires ct.resultDigest == Sha256.DigestOf(Worker.ResultOf(exec, work)) != NIL_DIGEST
    ensures Brings(Arrival(c, Worker.CompleteFrame(work, exec), env), C.Completes(ct))
  {
    CompletionUnderstood(work, exec, M.Completion(ct, Worker.ResultOf(exec, work)));
    ArrivalBrings(c, Worker.CompleteFrame(work, exec), env, C.Completes(ct));
  }

  lemma OfferedByDispatch(md: C.Medium, n: C.Node, conn: nat, v: nat, r: Result, w: nat, work: M.WorkerDispatch)
    requires C.ToWorker(w, work) in C.AfterDispatch(md, n, conn, v, r).sent
    ensures work.workSeed == 0
  {}

  lemma OfferedByResume(md: C.Medium, n: C.Node, conn: nat, v: nat, r: Result, w: nat, work: M.WorkerDispatch)
    requires C.ToWorker(w, work) in C.AfterResume(md, n, conn, v, r).sent
    ensures work.workSeed == 7
  {}

  /** The seed of the work that a message asks for. */
  function SeedFor(msg: C.Message): nat {
    if msg.Resumes? then 7 else 0
  }

  lemma OfferedSeed(md: C.Medium, n: C.Node, conn: nat, msg: C.Message, env: C.Env, w: nat, work: M.WorkerDispatch)
    requires C.ToWorker(w, work) in C.Act(md, n, conn, msg, env).sent
    ensures work.workBytes == 4096 && work.workSeed == SeedFor(msg)
  {
    OfferIsIssued(md, n, conn, msg, env, w, work);
    var op := IssueOp(msg, env).value;
    var r, v := Step(n.engine, op), C.WorkerConn(n.conns, op.worker, env.pick);
    if msg.Resumes? {
      OfferedByResume(md, n, conn, v, r, w, work);
    } else {
      OfferedByDispatch(md, n, conn, v, r, w, work);
    }
  }

  lemma DispatchOffers(md: C.Medium, n: C.Node, conn: nat, v: nat, r: Result, w: nat, work: M.WorkerDispatch)
    requires r.ticket.Some? ==> r.code == ALLOW
    ensures C.ToWorker(w, work) in C.AfterDispatch(md, n, conn, v, r).sent <==>
            v in n.conns && w == v && r.ticket == Some(work.ticket) && work.workBytes == 4096 && work.workSeed == 0
  {
    if v in n.conns && w == v && r.ticket == Some(work.ticket) && work.workBytes == 4096 && work.workSeed == 0 {
      assert C.AfterDispatch(md, n, conn, v, r).sent[0] == C.ToWorker(w, work);
    }
  }

  lemma ResumeOffers(md: C.Medium, n: C.Node, conn: nat, v: nat, r: Result, w: nat, work: M.WorkerDispatch)
    requires r.ticket.Some? ==> r.code == RESUME_ALLOWED
    ensures C.ToWorker(w, work) in C.AfterResume(md, n, conn, v, r).sent <==>
            v != 0 && w == v && r.ticket == Some(work.ticket) && work.workBytes == 4096 && work.workSeed == 7
  {
    if v != 0 && w == v && r.ticket == Some(work.ticket) && work.workBytes == 4096 && work.workSeed == 7 {
      assert C.AfterResume(md, n, conn, v, r).sent[0] == C.ToWorker(w, work);
    }
  }

  lemma TicketCode(s: State, op: Op)
    requires (op.Dispatch? || op.Resume?) && Step(s, op).ticket.Some?
    ensures Step(s, op).code == (if op.Dispatch? then ALLOW else RESUME_ALLOWED) && op.id in s.records
  {}

  /** Work is offered exactly when the engine has issued a ticket for the request and the worker is connected, on its connection. */
  lemma OffersExactly(md: C.Medium, n: C.Node, conn: nat, msg: C.Message, env: C.Env, w: nat, work: M.WorkerDispatch)
    ensures C.ToWorker(w, work) in C.Act(md, n, conn, msg, env).sent <==>
            && IssueOp(msg, env).Some?
            && w != 0 && w == C.WorkerConn(n.conns, IssueOp(msg, env).value.worker, env.pick)
            && Step(n.engine, IssueOp(msg, env).value).ticket == Some(work.ticket)
            && work.workBytes == 4096 && work.workSeed == SeedFor(msg)
  {
    if IssueOp(msg, env).None? {
      if C.ToWorker(w, work) in C.Act(md, n, conn, msg, env).sent {
        OnlyIssuesOffer(md, n, conn, msg, env, w, work);
      }
    } else {
      var op := IssueOp(msg, env).value;
      var r, v := Step(n.engine, op), C.WorkerConn(n.conns, op.worker, env.pick);
      if r.ticket.Some? {
        TicketCode(n.engine, op);
      }
      if msg.Resumes? {
        ResumeOffers(md, n, conn, v, r, w, work);
      } else {
        DispatchOffers(md, n, conn, v, r, w, work);
      }
    }
  }

  /** These bytes are what the executor makes of 4096 bytes and a seed, or without one the bytes that count up from the seed. */
  ghost predicate MadeFor(exec: Worker.Executor, seed: nat, result: seq<byte>) {
    if exec.Some? then result == exec.value(4096, seed)
    else |result| == 4096 && forall i :: 0 <= i < 4096 ==> result[i] == (seed + i) % 256
  }

  lemma ResultIsMade(exec: Worker.Executor, work: M.WorkerDispatch, result: seq<byte>)
    requires work.workBytes == 4096 && MadeFor(exec, work.workSeed, result)
    ensures Worker.ResultOf(exec, work) == result
  {}

  /** What a worker sends for an offer completes the offered ticket with the digest of what it made from the offer. */
  lemma OfferedResult(md: C.Medium, n: C.Node, conn: nat, msg: C.Message, env: C.Env, w: nat, work: M.WorkerDispatch,
                      exec: Worker.Executor, result: seq<byte>, c: nat, later: C.Env)
    requires C.ToWorker(w, work) in C.Act(md, n, conn, msg, env).sent
    requires MadeFor(exec, SeedFor(msg), result) && |result| <= MAX_VECTOR && Sha256.DigestOf(result) != NIL_DIGEST
    ensures Brings(Arrival(c, Worker.CompleteFrame(work, exec), later),
                   C.Completes(CompletionTicket(work.ticket.auth, 1, true, Sha256.DigestOf(result))))
  {
    OfferedSeed(md, n, conn, msg, env, w, work);
    ResultIsMade(exec, work, result);
    CompleteFrameBrings(work, exec, CompletionTicket(work.ticket.auth, 1, true, Sha256.DigestOf(result)), c, later);
  }

  /**
   The journey of a ticket. The coordinator offers work to a worker; the start and the completion
   with its ticket arrive on any connections, with any messages about other executions in between
   and no restart. The start is granted, and the completion is acknowledged as the commit of its
   digest, which is then in memory and in the file, exactly if the execution was created under the
   epoch of the ticket.
   */
  lemma OfferIsCommitted(n: C.Node, conn: nat, msg: C.Message, env: C.Env, w: nat, work: M.WorkerDispatch, offer: C.Done,
                         ct: CompletionTicket, es: seq<C.Event>, start: C.Event, fs: seq<C.Event>, complete: C.Event)
    requires n.up && Base(n) && GoodAt(n.engine, ct.auth.executionId, false) && FreshRun(n.engine, ActOps(n, conn, msg, env))
    requires offer == C.Act(C.Disk(), n, conn, msg, env) && C.ToWorker(w, work) in offer.sent && ct.auth == work.ticket.auth
    requires NamesEveryone(ct.auth) && ct.hasResult && ct.resultDigest != NIL_DIGEST
    requires Brings(start, C.Starts(StartTicket(ct.auth))) && Brings(complete, C.Completes(ct))
    requires var away := (x: C.Node, ev: C.Event) => ElsewhereOnDisk(ct.auth.executionId, x, ev);
             && C.AllOk(C.NodeStep, away, offer.node, es)
             && C.AllOk(C.NodeStep, away, C.NodeStep(C.RunAll(offer.node, es), start).node, fs)
    requires C.Storable(C.NodeStep(C.RunAll(C.NodeStep(C.RunAll(offer.node, es), start).node, fs), complete).node.engine.records)
    ensures ct.auth.executionId in offer.node.engine.records
    ensures var started := C.NodeStep(C.RunAll(offer.node, es), start);
            && started.sent == [C.Decided(start.conn, P.COMPLETE_ACK, ALLOW)]
            && Concluded(C.Disk(), C.NodeStep(C.RunAll(started.node, fs), complete), complete.conn, ct.auth.executionId,
                         ct.resultDigest, offer.node.engine.records[ct.auth.executionId].epoch == ct.auth.epoch)
  {
    DiskMachine(ct.auth.executionId);
    FromOfferToCommit(C.Disk(), C.NodeStep, (x: C.Node, ev: C.Event) => ElsewhereOnDisk(ct.auth.executionId, x, ev),
                      n, conn, msg, env, w, work, offer, ct, es, start, fs, complete);
  }

  /** In every run from an installed machine the record invariant that the journey starts from holds. */
  lemma InstalledRunsAreGood(epoch: U64, before: seq<C.Event>, id: ExecutionId)
    requires C.AllOk(C.NodeStep, Recovery.DrawnOnDisk, Recovery.Installed(epoch), before)
    ensures var n := C.RunAll(Recovery.Installed(epoch), before); Base(n) && GoodAt(n.engine, id, false)
  {
    Recovery.SaneInEveryRun(epoch, before);
    SaneIsGood(C.RunAll(Recovery.Installed(epoch), before), id);
  }

  lemma SaneIsGood(n: C.Node, id: ExecutionId)
    requires Recovery.AllGood(n.engine.records)
    ensures Base(n) && GoodAt(n.engine, id, false)
  {}

  /** So the journey holds for every offer made in such a run. */
  lemma OfferInEveryRun(epoch: U64, before: seq<C.Event>, n: C.Node, conn: nat, msg: C.Message, env: C.Env, w: nat,
                        work: M.WorkerDispatch, offer: C.Done, ct: CompletionTicket,
                        es: seq<C.Event>, start: C.Event, fs: seq<C.Event>, complete: C.Event)
    requires C.AllOk(C.NodeStep, Recovery.DrawnOnDisk, Recovery.Installed(epoch), before)
    requires n == C.RunAll(Recovery.Installed(epoch), before) && n.up && FreshRun(n.engine, ActOps(n, conn, msg, env))
    requires offer == C.Act(C.Disk(), n, conn, msg, env) && C.ToWorker(w, work) in offer.sent && ct.auth == work.ticket.auth
    requires NamesEveryone(ct.auth) && ct.hasResult && ct.resultDigest != NIL_DIGEST
    requires Brings(start, C.Starts(StartTicket(ct.auth))) && Brings(complete, C.Completes(ct))
    requires var away := (x: C.Node, ev: C.Event) => ElsewhereOnDisk(ct.auth.executionId, x, ev);
             && C.AllOk(C.NodeStep, away, offer.node, es)
             && C.AllOk(C.NodeStep, away, C.NodeStep(C.RunAll(offer.node, es), start).node, fs)
    requires C.Storable(C.NodeStep(C.RunAll(C.NodeStep(C.RunAll(offer.node, es), start).node, fs), complete).node.engine.records)
    ensures ct.auth.executionId in offer.node.engine.records
    ensures var started := C.NodeStep(C.RunAll(offer.node, es), start);
            && started.sent == [C.Decided(start.conn, P.COMPLETE_ACK, ALLOW)]
            && Concluded(C.Disk(), C.NodeStep(C.RunAll(started.node, fs), complete), complete.conn, ct.auth.executionId,
                         ct.resultDigest, offer.node.engine.records[ct.auth.executionId].epoch == ct.auth.epoch)
  {
    InstalledRunsAreGood(epoch, before, ct.auth.executionId);
    OfferIsCommitted(n, conn, msg, env, w, work, offer, ct, es, start, fs, complete);
  }
}
