/** Safety of commits over every interleaving of messages, crashes and restarts. */
module CoordinatorRuns {
  import opened Types
  import opened StateMachine
  import opened Binary
  import opened Listing
  import opened CoordinatorSpec
  import E = EngineSpec
  import R = EngineRuns
  import EngineInvariants
  import M = Messages
  import P = Protocol
  import Store

  // ------------------------------------------------------------------------------------------
  // Induction over runs, for any step function.
  // ------------------------------------------------------------------------------------------

  function Count(p: Sent -> bool, log: seq<Sent>): nat {
    if log == [] then 0 else (if p(log[0]) then 1 else 0) + Count(p, log[1..])
  }

  lemma {:induction false} CountConcat(p: Sent -> bool, a: seq<Sent>, b: seq<Sent>)
    ensures Count(p, a + b) == Count(p, a) + Count(p, b)
  {
    if a == [] {
      assert a + b == b;
    } else {
      assert (a + b)[0] == a[0] && (a + b)[1..] == a[1..] + b;
      CountConcat(p, a[1..], b);
    }
  }

  type Stepper = (Node, Event) -> Done

  ghost predicate Kept(next: Stepper, ok: (Node, Event) -> bool, base: Node -> bool) {
    forall n: Node, e: Event :: base(n) && ok(n, e) ==> base(next(n, e).node)
  }

  /** A step that sends what a recognises sends it once and makes s true, and from then on s stays and a is not sent. */
  ghost predicate Latches(next: Stepper, ok: (Node, Event) -> bool, base: Node -> bool, a: Sent -> bool, s: Node -> bool) {
    forall n: Node, e: Event :: base(n) && ok(n, e) ==>
      && Count(a, next(n, e).sent) <= 1
      && (Count(a, next(n, e).sent) == 1 || s(n) ==> s(next(n, e).node))
      && (s(n) ==> Count(a, next(n, e).sent) == 0)
  }

  lemma {:induction false} RunSnoc(next: Stepper, n: Node, es: seq<Event>, e: Event)
    ensures RunBy(next, n, es + [e]) == next(RunBy(next, n, es), e).node
    ensures LogBy(next, n, es + [e]) == LogBy(next, n, es) + next(RunBy(next, n, es), e).sent
    decreases |es|
  {
    if es == [] {
      assert es + [e] == [e] && [e][1..] == [];
      assert RunBy(next, next(n, e).node, []) == next(n, e).node && LogBy(next, next(n, e).node, []) == [];
    } else {
      assert (es + [e])[0] == es[0] && (es + [e])[1..] == es[1..] + [e];
      RunSnoc(next, next(n, es[0]).node, es[1..], e);
    }
  }

  /** A step leaves the file alone or writes the records it ends with. */
  ghost predicate Writes(next: Stepper, save: (Records, U64) -> seq<byte>) {
    forall n: Node, e: Event {:trigger next(n, e)} ::
      var after := next(n, e).node;
      after.file == n.file || after.file == Some(save(after.engine.records, after.epoch))
  }

  /** After k events the file is what was written for the records of that moment, and it has not changed since. */
  ghost predicate SavedLast(next: Stepper, save: (Records, U64) -> seq<byte>, n: Node, es: seq<Event>, k: nat) {
    && k <= |es|
    && (forall j :: k <= j <= |es| ==> RunBy(next, n, es[..j]).file == RunBy(next, n, es).file)
    && var past := RunBy(next, n, es[..k]); past.file == Some(save(past.engine.records, past.epoch))
  }

  lemma {:induction false} LastSave(next: Stepper, save: (Records, U64) -> seq<byte>, n: Node, es: seq<Event>) returns (k: nat)
    requires Writes(next, save) && n.file.None? && RunBy(next, n, es).file.Some?
    ensures SavedLast(next, save, n, es, k)
    decreases |es|
  {
    assert es[..|es|] == es;
    var front, e := es[..|es| - 1], es[|es| - 1];
    assert es == front + [e];
    var m, after := RunBy(next, n, front), RunBy(next, n, es);
    RunSnoc(next, n, front, e);
    if after.file == Some(save(after.engine.records, after.epoch)) {
      k := |es|;
    } else {
      k := LastSave(next, save, n, front);
      forall j | k <= j <= |es|
        ensures RunBy(next, n, es[..j]).file == after.file
      {
        if j < |es| {
          assert es[..j] == front[..j];
        }
      }
      assert es[..k] == front[..k];
    }
  }

  lemma {:induction false} HoldsInRun(next: Stepper, ok: (Node, Event) -> bool, base: Node -> bool, n: Node, es: seq<Event>)
    requires Kept(next, ok, base) && base(n) && AllOk(next, ok, n, es)
    ensures base(RunBy(next, n, es))
    decreases |es|
  {
    if es != [] {
      HoldsInRun(next, ok, base, next(n, es[0]).node, es[1..]);
    }
  }

  lemma {:induction false} LatchedInRun(next: Stepper, ok: (Node, Event) -> bool, base: Node -> bool, a: Sent -> bool,
                                        s: Node -> bool, n: Node, es: seq<Event>)
    requires Kept(next, ok, base) && Latches(next, ok, base, a, s) && base(n) && AllOk(next, ok, n, es)
    ensures Count(a, LogBy(next, n, es)) <= if s(n) then 0 else 1
    ensures Count(a, LogBy(next, n, es)) == 1 || s(n) ==> s(RunBy(next, n, es))
    decreases |es|
  {
    if es != [] {
      var d := next(n, es[0]);
      LatchedInRun(next, ok, base, a, s, d.node, es[1..]);
      CountConcat(a, d.sent, LogBy(next, d.node, es[1..]));
    }
  }

  // ------------------------------------------------------------------------------------------
  // What one handled message does to the engine and to the file.
  // ------------------------------------------------------------------------------------------

  /** The engine operations a message leads to. */
  function ActOps(n: Node, conn: nat, msg: Message, env: Env): seq<E.Op> {
    match msg
    case Closes =>
      if conn in n.conns && n.conns[conn].isWorker && n.conns[conn].activeExecution.Some?
      then [E.WorkerLost(n.conns[conn].activeExecution.value, n.conns[conn].worker, n.conns[conn].boot, n.epoch)]
      else []
    case Submits(p) =>
      if E.Step(n.engine, E.Create(p.id, p.epoch, env.now)).code == ALLOW
      then [E.Create(p.id, p.epoch, env.now), E.Activate(p.id, p.epoch)]
      else [E.Create(p.id, p.epoch, env.now)]
    case Dispatches(p) =>
      if WorkerConn(n.conns, p.worker, env.pick) != 0 && p.id in n.engine.records
      then [E.Dispatch(p.id, p.worker, p.boot, p.epoch, env.aid, env.did)]
      else []
    case Starts(t) => [E.MarkRunning(t)]
    case Completes(t) => [E.Complete(t, env.now)]
    case Cancels(r) => [E.Cancel(r)]
    case Preempts(r) => [E.Preempt(r)]
    case AcksPreempt(p) => [E.AcknowledgePreempt(p.id, p.epoch)]
    case MarksResumable(p) => [E.MarkResumable(p.id, p.epoch)]
    case Resumes(p) => [E.Resume(p.id, p.worker, p.boot, p.epoch, p.gen, env.aid, env.did)]
    case ReportsLoss(p) => [E.WorkerLost(p.id, p.worker, p.boot, p.epoch)]
    case _ => []
  }

  /** One operation as a run, without saying what it does. */
  lemma StepIsRun(s: E.State, op: E.Op, r: E.Result)
    requires r == E.Step(s, op)
    ensures E.Run(s, [op]) == r.state
  {
    R.RunOne(s, op);
  }

  lemma TwoStepsAreRun(s: E.State, a: E.Op, b: E.Op)
    ensures E.Run(s, [a, b]) == E.Step(E.Step(s, a).state, b).state
  {
    R.RunOne(s, a);
    R.RunOne(E.Step(s, a).state, b);
    R.RunConcat(s, [a], [b]);
    assert [a] + [b] == [a, b];
  }

  ghost predicate Follows(md: Medium, n: Node, after: Node, ops: seq<E.Op>) {
    && after.engine == E.Run(n.engine, ops)
    && after.epoch == n.epoch
    && (after.file == n.file || after.file == Some(md.save(after.engine.records, after.epoch)))
  }

  lemma ControlledFollows(md: Medium, n: Node, conn: nat, op: E.Op, kind: P.MsgType)
    ensures Follows(md, n, Controlled(md, n, conn, op, kind).node, [op])
  {
    StepIsRun(n.engine, op, E.Step(n.engine, op));
  }

  lemma SubmittedFollows(md: Medium, n: Node, conn: nat, p: M.EpochRequest, env: Env)
    ensures Follows(md, n, Submitted(md, n, conn, p, env).node, ActOps(n, conn, Submits(p), env))
  {
    var create, activate := E.Create(p.id, p.epoch, env.now), E.Activate(p.id, p.epoch);
    StepIsRun(n.engine, create, E.Step(n.engine, create));
    TwoStepsAreRun(n.engine, create, activate);
  }

  ghost predicate Takes(md: Medium, n: Node, after: Node, s: E.State) {
    && after.engine == s
    && after.epoch == n.epoch
    && (after.file == n.file || after.file == Some(md.save(after.engine.records, after.epoch)))
  }

  lemma AfterTakes(md: Medium, n: Node, conn: nat, w: nat, id: ExecutionId, r: E.Result)
    ensures Takes(md, n, AfterDispatch(md, n, conn, w, r).node, r.state)
    ensures Takes(md, n, AfterResume(md, n, conn, w, r).node, r.state)
    ensures Takes(md, n, AfterComplete(md, n, conn, id, r).node, r.state)
  {}

  lemma DispatchedFollows(md: Medium, n: Node, conn: nat, p: M.DispatchRequest, env: Env)
    ensures Follows(md, n, Dispatched(md, n, conn, p, env).node, ActOps(n, conn, Dispatches(p), env))
  {
    var op := E.Dispatch(p.id, p.worker, p.boot, p.epoch, env.aid, env.did);
    var r := E.Step(n.engine, op);
    StepIsRun(n.engine, op, r);
    AfterTakes(md, n, conn, WorkerConn(n.conns, p.worker, env.pick), p.id, r);
  }

  lemma ResumedFollows(md: Medium, n: Node, conn: nat, p: M.ResumeRequest, env: Env)
    ensures Follows(md, n, Resumed(md, n, conn, p, env).node, ActOps(n, conn, Resumes(p), env))
  {
    var op := E.Resume(p.id, p.worker, p.boot, p.epoch, p.gen, env.aid, env.did);
    var r := E.Step(n.engine, op);
    StepIsRun(n.engine, op, r);
    AfterTakes(md, n, conn, WorkerConn(n.conns, p.worker, env.pick), p.id, r);
  }

  lemma CompletedFollows(md: Medium, n: Node, conn: nat, t: CompletionTicket, env: Env)
    ensures Follows(md, n, Completed(md, n, conn, t, env).node, [E.Complete(t, env.now)])
  {
    var op := E.Complete(t, env.now);
    var r := E.Step(n.engine, op);
    StepIsRun(n.engine, op, r);
    AfterTakes(md, n, conn, 0, t.auth.executionId, r);
  }

  lemma ConnClosedFollows(md: Medium, n: Node, conn: nat, env: Env)
    ensures Follows(md, n, ConnClosed(md, n, conn).node, ActOps(n, conn, Closes, env))
  {
    if conn in n.conns && n.conns[conn].isWorker && n.conns[conn].activeExecution.Some? {
      var c := n.conns[conn];
      var op := E.WorkerLost(c.activeExecution.value, c.worker, c.boot, n.epoch);
      StepIsRun(n.engine, op, E.Step(n.engine, op));
    }
  }

  lemma ActFollows(md: Medium, n: Node, conn: nat, msg: Message, env: Env)
    ensures Follows(md, n, Act(md, n, conn, msg, env).node, ActOps(n, conn, msg, env))
  {
    match msg
    case Closes => ConnClosedFollows(md, n, conn, env);
    case Submits(p) => SubmittedFollows(md, n, conn, p, env);
    case Dispatches(p) => DispatchedFollows(md, n, conn, p, env);
    case Starts(t) => StepIsRun(n.engine, E.MarkRunning(t), E.Step(n.engine, E.MarkRunning(t)));
    case Completes(t) => CompletedFollows(md, n, conn, t, env);
    case Cancels(r) => ControlledFollows(md, n, conn, E.Cancel(r), P.CANCEL_ACK);
    case Preempts(r) => ControlledFollows(md, n, conn, E.Preempt(r), P.PREEMPT_ACK);
    case AcksPreempt(p) => ControlledFollows(md, n, conn, E.AcknowledgePreempt(p.id, p.epoch), P.PREEMPT_ACK);
    case MarksResumable(p) => ControlledFollows(md, n, conn, E.MarkResumable(p.id, p.epoch), P.PREEMPT_ACK);
    case Resumes(p) => ResumedFollows(md, n, conn, p, env);
    case ReportsLoss(p) => ControlledFollows(md, n, conn, E.WorkerLost(p.id, p.worker, p.boot, p.epoch), P.COMPLETE_ACK);
    case _ =>
  }

  /** Which messages are stored: what the engine granted to workers, and every control message whatever was decided. */
  predicate Saves(n: Node, conn: nat, msg: Message, env: Env) {
    match msg
    case Submits(_) => true
    case Cancels(_) => true
    case Preempts(_) => true
    case AcksPreempt(_) => true
    case MarksResumable(_) => true
    case ReportsLoss(_) => true
    case Closes => ActOps(n, conn, msg, env) != []
    case Dispatches(_) =>
      ActOps(n, conn, msg, env) != [] && E.Step(n.engine, ActOps(n, conn, msg, env)[0]).ticket.Some?
    case Completes(t) => E.Step(n.engine, E.Complete(t, env.now)).code == ALLOW
    case Resumes(p) =>
      WorkerConn(n.conns, p.worker, env.pick) != 0 && E.Step(n.engine, ActOps(n, conn, msg, env)[0]).ticket.Some?
    case _ => false
  }

  ghost predicate SavesAs(md: Medium, n: Node, after: Node, saves: bool) {
    after.file == if saves then Some(md.save(after.engine.records, after.epoch)) else n.file
  }

  /** The engine answers with a ticket exactly when it grants an issue. */
  lemma TicketIffGranted(s: E.State, op: E.Op)
    requires op.Dispatch? || op.Resume?
    ensures E.Step(s, op).ticket.Some? <==> E.Step(s, op).code == if op.Dispatch? then ALLOW else RESUME_ALLOWED
  {}

  lemma DispatchedSaves(md: Medium, n: Node, conn: nat, p: M.DispatchRequest, env: Env)
    ensures SavesAs(md, n, Dispatched(md, n, conn, p, env).node, Saves(n, conn, Dispatches(p), env))
  {
    var op := E.Dispatch(p.id, p.worker, p.boot, p.epoch, env.aid, env.did);
    TicketIffGranted(n.engine, op);
    AfterSaves(md, n, conn, WorkerConn(n.conns, p.worker, env.pick), p.id, E.Step(n.engine, op));
  }

  lemma ResumedSaves(md: Medium, n: Node, conn: nat, p: M.ResumeRequest, env: Env)
    ensures SavesAs(md, n, Resumed(md, n, conn, p, env).node, Saves(n, conn, Resumes(p), env))
  {
    var op := E.Resume(p.id, p.worker, p.boot, p.epoch, p.gen, env.aid, env.did);
    TicketIffGranted(n.engine, op);
    AfterSaves(md, n, conn, WorkerConn(n.conns, p.worker, env.pick), p.id, E.Step(n.engine, op));
  }

  lemma AfterSaves(md: Medium, n: Node, conn: nat, w: nat, id: ExecutionId, r: E.Result)
    ensures SavesAs(md, n, AfterDispatch(md, n, conn, w, r).node, r.code == ALLOW && r.ticket.Some? && w in n.conns)
    ensures SavesAs(md, n, AfterResume(md, n, conn, w, r).node, r.code == RESUME_ALLOWED && r.ticket.Some? && w != 0)
    ensures SavesAs(md, n, AfterComplete(md, n, conn, id, r).node, r.code == ALLOW && id in r.state.records)
  {}

  lemma CompletedSaves(md: Medium, n: Node, conn: nat, t: CompletionTicket, env: Env)
    ensures SavesAs(md, n, Completed(md, n, conn, t, env).node, Saves(n, conn, Completes(t), env))
  {
    var r := E.Step(n.engine, E.Complete(t, env.now));
    GrantKnows(n.engine, t, env.now);
    AfterSaves(md, n, conn, 0, t.auth.executionId, r);
  }

  lemma GrantKnows(s: E.State, t: CompletionTicket, now: Text)
    ensures E.Step(s, E.Complete(t, now)).code == ALLOW ==> t.auth.executionId in E.Step(s, E.Complete(t, now)).state.records
  {}

  /** The file afterwards is that of the new records exactly for those messages, and the old one otherwise. */
  lemma SavesExactly(md: Medium, n: Node, conn: nat, msg: Message, env: Env)
    ensures SavesAs(md, n, Act(md, n, conn, msg, env).node, Saves(n, conn, msg, env))
  {
    match msg
    case Dispatches(p) => DispatchedSaves(md, n, conn, p, env);
    case Resumes(p) => ResumedSaves(md, n, conn, p, env);
    case Completes(t) => CompletedSaves(md, n, conn, t, env);
    case _ =>
  }

  // ------------------------------------------------------------------------------------------
  // Commits are durable.
  // ------------------------------------------------------------------------------------------

  /** What was written in full loads, if it loads, as the records in order and the epoch. */
  ghost predicate Faithful(md: Medium) {
    forall m: Records, e: U64 {:trigger md.save(m, e)} ::
      KeyedMap(m) && md.fits(m) && md.load(md.save(m, e)).Some? ==> md.load(md.save(m, e)).value == (ListingOf(m), e)
  }

  predicate Committed(m: Records, id: ExecutionId, d: Digest) {
    id in m && m[id].state == COMMITTED && m[id].committedDigest == Some(d)
  }

  /** The file is what was written for records among which the execution is committed with this digest. */
  ghost predicate FileHolds(md: Medium, file: Option<seq<byte>>, id: ExecutionId, d: Digest) {
    exists m: Records, e: U64 {:trigger md.save(m, e)} ::
      file == Some(md.save(m, e)) && KeyedMap(m) && md.fits(m) && Committed(m, id, d)
  }

  ghost predicate Safe(md: Medium, n: Node, id: ExecutionId, d: Digest) {
    Committed(n.engine.records, id, d) && FileHolds(md, n.file, id, d)
  }

  ghost predicate Base(n: Node) {
    KeyedMap(n.engine.records)
  }

  /** Reloads succeed, and the records can be written in full. */
  ghost predicate Orderly(md: Medium, n: Node, e: Event) {
    && (e.Restart? && n.file.Some? ==> md.load(n.file.value).Some?)
    && md.fits(NextBy(md, n, e).node.engine.records)
  }

  lemma CommittedForever(s: E.State, ops: seq<E.Op>, id: ExecutionId, d: Digest)
    requires Committed(s.records, id, d)
    ensures Committed(E.Run(s, ops).records, id, d)
  {
    R.TerminalForever(s, ops, id);
  }

  lemma KeyedForever(s: E.State, ops: seq<E.Op>)
    requires KeyedMap(s.records)
    ensures KeyedMap(E.Run(s, ops).records)
  {
    assert R.Keyed(s);
    R.RunKeyed(s, ops);
  }

  lemma FollowsKeepsSafe(md: Medium, n: Node, after: Node, ops: seq<E.Op>, id: ExecutionId, d: Digest)
    requires Base(n) && Safe(md, n, id, d) && Follows(md, n, after, ops) && md.fits(after.engine.records)
    ensures Safe(md, after, id, d)
  {
    CommittedForever(n.engine, ops, id, d);
    KeyedForever(n.engine, ops);
  }

  /** A restart from a faithful store puts the saved records back. */
  lemma RestartRecovers(md: Medium, n: Node, epoch: U64, m: Records, e: U64)
    requires Faithful(md) && KeyedMap(m) && md.fits(m)
    requires n.file == Some(md.save(m, e)) && md.load(md.save(m, e)).Some?
    ensures Restarted(md, n, epoch).engine.records == m && Restarted(md, n, epoch).file == n.file
  {
    EmplacedOfListing(m);
  }

  lemma RestartKeepsSafe(md: Medium, n: Node, epoch: U64, id: ExecutionId, d: Digest)
    requires Faithful(md) && Safe(md, n, id, d) && md.load(n.file.value).Some?
    ensures Safe(md, Restarted(md, n, epoch), id, d)
  {
    var m: Records, e: U64 :| n.file == Some(md.save(m, e)) && KeyedMap(m) && md.fits(m) && Committed(m, id, d);
    RestartRecovers(md, n, epoch, m, e);
  }

  lemma RestartIsBase(md: Medium, n: Node, epoch: U64)
    ensures Base(Restarted(md, n, epoch))
  {
    if n.file.Some? && md.load(n.file.value).Some? {
      EmplacedFinds(md.load(n.file.value).value.0);
    }
  }

  lemma NextKeepsBase(md: Medium, n: Node, e: Event)
    requires Base(n)
    ensures Base(NextBy(md, n, e).node)
  {
    match e
    case Restart(epoch) => RestartIsBase(md, n, epoch);
    case Accept(_) =>
    case Inbound(conn, kind, payload, env) =>
      ActKeepsBase(md, n, conn, Parsed(kind, payload), env);
  }

  lemma ActKeepsBase(md: Medium, n: Node, conn: nat, msg: Message, env: Env)
    requires Base(n)
    ensures Base(Act(md, n, conn, msg, env).node)
  {
    ActFollows(md, n, conn, msg, env);
    KeyedForever(n.engine, ActOps(n, conn, msg, env));
  }

  lemma ActKeepsSafe(md: Medium, n: Node, conn: nat, msg: Message, env: Env, id: ExecutionId, d: Digest)
    requires Base(n) && Safe(md, n, id, d) && md.fits(Act(md, n, conn, msg, env).node.engine.records)
    ensures Safe(md, Act(md, n, conn, msg, env).node, id, d)
  {
    ActFollows(md, n, conn, msg, env);
    FollowsKeepsSafe(md, n, Act(md, n, conn, msg, env).node, ActOps(n, conn, msg, env), id, d);
  }

  lemma NextKeepsSafe(md: Medium, n: Node, e: Event, id: ExecutionId, d: Digest)
    requires Faithful(md) && Base(n) && Safe(md, n, id, d) && Orderly(md, n, e)
    ensures Safe(md, NextBy(md, n, e).node, id, d)
  {
    match e
    case Restart(epoch) => RestartKeepsSafe(md, n, epoch, id, d);
    case Accept(_) =>
    case Inbound(conn, kind, payload, env) =>
      if n.up {
        ActKeepsSafe(md, n, conn, Parsed(kind, payload), env, id, d);
      }
  }

  // ------------------------------------------------------------------------------------------
  // Acknowledgements.
  // ------------------------------------------------------------------------------------------

  predicate AckFor(o: Sent, id: ExecutionId) {
    o.CompleteAck? && o.id == id && o.code == ALLOW
  }

  predicate AckOf(o: Sent, id: ExecutionId, d: Digest) {
    AckFor(o, id) && o.digest == Some(d)
  }

  lemma IssuesAreNotAcks(md: Medium, n: Node, conn: nat, w: nat, r: E.Result, o: Sent)
    requires o in AfterDispatch(md, n, conn, w, r).sent || o in AfterResume(md, n, conn, w, r).sent
    ensures !o.CompleteAck?
  {}

  lemma OnlyCompletionsAck(md: Medium, n: Node, conn: nat, msg: Message, env: Env, o: Sent)
    requires o in Act(md, n, conn, msg, env).sent && o.CompleteAck?
    ensures msg.Completes? && Act(md, n, conn, msg, env).sent == [o]
  {
    match msg
    case Dispatches(p) =>
      var w := WorkerConn(n.conns, p.worker, env.pick);
      if w != 0 && p.id in n.engine.records {
        IssuesAreNotAcks(md, n, conn, w, E.Step(n.engine, E.Dispatch(p.id, p.worker, p.boot, p.epoch, env.aid, env.did)), o);
      }
    case Resumes(p) =>
      IssuesAreNotAcks(md, n, conn, WorkerConn(n.conns, p.worker, env.pick),
                       E.Step(n.engine, E.Resume(p.id, p.worker, p.boot, p.epoch, p.gen, env.aid, env.did)), o);
    case _ =>
  }

  /** The engine grants a completion once: before, the execution was not committed; after, it is. */
  lemma GrantCommits(s: E.State, t: CompletionTicket, now: Text, r: E.Result)
    requires r == E.Step(s, E.Complete(t, now)) && r.code == ALLOW
    ensures t.auth.executionId in s.records && s.records[t.auth.executionId].state != COMMITTED
    ensures Committed(r.state.records, t.auth.executionId, t.resultDigest)
  {
    R.StepOnTarget(s, E.Complete(t, now), t.auth.executionId);
  }

  lemma CompletionAcks(md: Medium, n: Node, conn: nat, t: CompletionTicket, env: Env, o: Sent)
    requires Base(n) && md.fits(Completed(md, n, conn, t, env).node.engine.records)
    requires Completed(md, n, conn, t, env).sent == [o] && o.code == ALLOW
    ensures o.CompleteAck? && o.id in n.engine.records && n.engine.records[o.id].state != COMMITTED
    ensures o.digest == Some(t.resultDigest) && Safe(md, Completed(md, n, conn, t, env).node, o.id, t.resultDigest)
  {
    var op := E.Complete(t, env.now);
    var r := E.Step(n.engine, op);
    AckIsResult(md, n, conn, t.auth.executionId, r, o);
    GrantCommits(n.engine, t, env.now, r);
    StepIsRun(n.engine, op, r);
    KeyedForever(n.engine, [op]);
    Stored(md, n, conn, t.auth.executionId, r, t.resultDigest);
  }

  lemma AckIsResult(md: Medium, n: Node, conn: nat, id: ExecutionId, r: E.Result, o: Sent)
    requires AfterComplete(md, n, conn, id, r).sent == [o]
    ensures o.CompleteAck? && o.id == id && o.code == r.code
    ensures r.code == ALLOW && id in r.state.records ==> o.digest == r.state.records[id].committedDigest
  {
    assert o == AfterComplete(md, n, conn, id, r).sent[0];
  }

  lemma Stored(md: Medium, n: Node, conn: nat, id: ExecutionId, r: E.Result, d: Digest)
    requires r.code == ALLOW && Committed(r.state.records, id, d) && KeyedMap(r.state.records) && md.fits(r.state.records)
    ensures Safe(md, AfterComplete(md, n, conn, id, r).node, id, d)
  {}

  /** An acknowledged commit was the first of its execution, and it is in memory and in the file when it is sent. */
  lemma AckIsFirstAndSafe(md: Medium, n: Node, e: Event, o: Sent)
    requires Base(n) && Orderly(md, n, e) && o in NextBy(md, n, e).sent && o.CompleteAck? && o.code == ALLOW
    ensures NextBy(md, n, e).sent == [o]
    ensures o.id in n.engine.records && n.engine.records[o.id].state != COMMITTED
    ensures o.digest.Some? && Safe(md, NextBy(md, n, e).node, o.id, o.digest.value)
  {
    ActAcks(md, n, e.conn, Parsed(e.kind, e.payload), e.env, o);
  }

  lemma ActAcks(md: Medium, n: Node, conn: nat, msg: Message, env: Env, o: Sent)
    requires Base(n) && md.fits(Act(md, n, conn, msg, env).node.engine.records)
    requires o in Act(md, n, conn, msg, env).sent && o.CompleteAck? && o.code == ALLOW
    ensures Act(md, n, conn, msg, env).sent == [o]
    ensures o.id in n.engine.records && n.engine.records[o.id].state != COMMITTED
    ensures o.digest.Some? && Safe(md, Act(md, n, conn, msg, env).node, o.id, o.digest.value)
  {
    OnlyCompletionsAck(md, n, conn, msg, env, o);
    CompletionAcks(md, n, conn, msg.completion, env, o);
  }

  lemma {:induction false} Counted(p: Sent -> bool, log: seq<Sent>) returns (o: Sent)
    requires Count(p, log) > 0
    ensures o in log && p(o)
  {
    if p(log[0]) {
      o := log[0];
    } else {
      o := Counted(p, log[1..]);
    }
  }

  lemma CountOne(p: Sent -> bool, o: Sent)
    ensures Count(p, [o]) <= 1
  {
    assert Count(p, [o]) == (if p(o) then 1 else 0) + Count(p, []);
  }

  ghost predicate AcksAreFirstAndSafe(md: Medium, n: Node, d: Done) {
    forall o :: o in d.sent && o.CompleteAck? && o.code == ALLOW ==>
      && d.sent == [o]
      && o.id in n.engine.records && n.engine.records[o.id].state != COMMITTED
      && o.digest.Some? && Safe(md, d.node, o.id, o.digest.value)
  }

  lemma NextAcks(md: Medium, n: Node, e: Event)
    requires Base(n) && Orderly(md, n, e)
    ensures AcksAreFirstAndSafe(md, n, NextBy(md, n, e))
  {
    forall o | o in NextBy(md, n, e).sent && o.CompleteAck? && o.code == ALLOW
      ensures NextBy(md, n, e).sent == [o]
      ensures o.id in n.engine.records && n.engine.records[o.id].state != COMMITTED
      ensures o.digest.Some? && Safe(md, NextBy(md, n, e).node, o.id, o.digest.value)
    {
      AckIsFirstAndSafe(md, n, e, o);
    }
  }

  /** Whatever picks out acknowledgements of commits of one execution latches with what makes them safe. */
  lemma AcksLatch(md: Medium, id: ExecutionId, p: Sent -> bool, s: Node -> bool, n: Node, d: Done)
    requires AcksAreFirstAndSafe(md, n, d)
    requires forall o :: p(o) ==> AckFor(o, id)
    requires forall x :: s(x) ==> exists g :: Safe(md, x, id, g)
    requires forall x, o, g :: p(o) && AckOf(o, id, g) && Safe(md, x, id, g) ==> s(x)
    requires s(n) ==> s(d.node)
    ensures Count(p, d.sent) <= 1
    ensures Count(p, d.sent) == 1 || s(n) ==> s(d.node)
    ensures s(n) ==> Count(p, d.sent) == 0
  {
    if Count(p, d.sent) > 0 {
      var o := Counted(p, d.sent);
      CountOne(p, o);
    }
  }

  ghost predicate SafeSomehow(md: Medium, n: Node, id: ExecutionId) {
    exists d :: Safe(md, n, id, d)
  }

  /** next and ok are the steps over the store and their side conditions; At names where that matters. */
  ghost predicate StepsOver(md: Medium, next: Stepper, ok: (Node, Event) -> bool) {
    forall n: Node, e: Event {:trigger At(n, e)} :: At(n, e) ==> next(n, e) == NextBy(md, n, e) && ok(n, e) == Orderly(md, n, e)
  }

  ghost predicate At(n: Node, e: Event) {
    true
  }

  lemma BaseKept(md: Medium, next: Stepper, ok: (Node, Event) -> bool)
    requires StepsOver(md, next, ok)
    ensures Kept(next, ok, Base)
  {
    forall n: Node, e: Event | Base(n) && ok(n, e)
      ensures Base(next(n, e).node)
    {
      assert At(n, e);
      NextKeepsBase(md, n, e);
    }
  }

  lemma AnyLatches(md: Medium, next: Stepper, ok: (Node, Event) -> bool, id: ExecutionId)
    requires Faithful(md) && StepsOver(md, next, ok)
    ensures Latches(next, ok, Base, (o: Sent) => AckFor(o, id), (n: Node) => SafeSomehow(md, n, id))
  {
    var p, s := (o: Sent) => AckFor(o, id), (n: Node) => SafeSomehow(md, n, id);
    forall n: Node, e: Event | Base(n) && ok(n, e)
      ensures Count(p, next(n, e).sent) <= 1
      ensures Count(p, next(n, e).sent) == 1 || s(n) ==> s(next(n, e).node)
      ensures s(n) ==> Count(p, next(n, e).sent) == 0
    {
      assert At(n, e);
      if s(n) {
        var d :| Safe(md, n, id, d);
        NextKeepsSafe(md, n, e, id, d);
      }
      NextAcks(md, n, e);
      AcksLatch(md, id, p, s, n, next(n, e));
    }
  }

  lemma OneLatches(md: Medium, next: Stepper, ok: (Node, Event) -> bool, id: ExecutionId, d: Digest)
    requires Faithful(md) && StepsOver(md, next, ok)
    ensures Latches(next, ok, Base, (o: Sent) => AckOf(o, id, d), (n: Node) => Safe(md, n, id, d))
  {
    var p, s := (o: Sent) => AckOf(o, id, d), (n: Node) => Safe(md, n, id, d);
    forall n: Node, e: Event | Base(n) && ok(n, e)
      ensures Count(p, next(n, e).sent) <= 1
      ensures Count(p, next(n, e).sent) == 1 || s(n) ==> s(next(n, e).node)
      ensures s(n) ==> Count(p, next(n, e).sent) == 0
    {
      assert At(n, e);
      if s(n) {
        NextKeepsSafe(md, n, e, id, d);
      }
      NextAcks(md, n, e);
      AcksLatch(md, id, p, s, n, next(n, e));
    }
  }

  lemma CommitSafetyOver(md: Medium, next: Stepper, ok: (Node, Event) -> bool, n: Node, es: seq<Event>, id: ExecutionId, d: Digest)
    requires Faithful(md) && StepsOver(md, next, ok) && Base(n) && AllOk(next, ok, n, es)
    ensures Count((o: Sent) => AckFor(o, id), LogBy(next, n, es)) <= 1
    ensures Count((o: Sent) => AckOf(o, id, d), LogBy(next, n, es)) > 0 ==> Safe(md, RunBy(next, n, es), id, d)
  {
    BaseKept(md, next, ok);
    AnyLatches(md, next, ok, id);
    OneLatches(md, next, ok, id, d);
    LatchedInRun(next, ok, Base, (o: Sent) => AckFor(o, id), (x: Node) => SafeSomehow(md, x, id), n, es);
    LatchedInRun(next, ok, Base, (o: Sent) => AckOf(o, id, d), (x: Node) => Safe(md, x, id, d), n, es);
  }

  // ------------------------------------------------------------------------------------------
  // The same over the real file.
  // ------------------------------------------------------------------------------------------

  /** The file of the records loads exactly when each of them is loadable and they are not too many. */
  lemma FileLoads(m: Records, e: U64)
    requires KeyedMap(m) && Storable(m)
    ensures var recs := ListingOf(m);
            FileContents(FileOf(m, e)) ==
            if |recs| <= MAX_COUNT && AllHold(Store.Loadable, recs) then Some((recs, e)) else None
  {
    EmplacedOfListing(m);
    Store.LoadOfSave(ListingOf(m), e);
  }

  lemma DiskIsFaithful()
    ensures Faithful(Disk())
  {
    forall m: Records, e: U64 | KeyedMap(m) && Storable(m) && FileContents(FileOf(m, e)).Some?
      ensures FileContents(FileOf(m, e)).value == (ListingOf(m), e)
    {
      FileLoads(m, e);
    }
  }

  ghost predicate Fine(n: Node, e: Event) {
    Orderly(Disk(), n, e)
  }

  lemma DiskSteps()
    ensures StepsOver(Disk(), NodeStep, Fine)
  {
    forall n: Node, e: Event | At(n, e)
      ensures NodeStep(n, e) == NextBy(Disk(), n, e) && Fine(n, e) == Orderly(Disk(), n, e)
    {}
  }

  lemma HeldIsLoaded(md: Medium, file: Option<seq<byte>>, id: ExecutionId, d: Digest)
    requires Faithful(md) && FileHolds(md, file, id, d) && md.load(file.value).Some?
    ensures Committed(Emplaced(md.load(file.value).value.0), id, d)
  {
    var m: Records, e: U64 :| file == Some(md.save(m, e)) && KeyedMap(m) && md.fits(m) && Committed(m, id, d);
    EmplacedOfListing(m);
  }

  lemma DiskWrites()
    ensures Writes(NodeStep, FileOf)
  {
    forall n: Node, e: Event
      ensures var after := NodeStep(n, e).node;
              after.file == n.file || after.file == Some(FileOf(after.engine.records, after.epoch))
    {
      NextWrites(Disk(), n, e);
    }
  }

  lemma NextWrites(md: Medium, n: Node, e: Event)
    ensures var after := NextBy(md, n, e).node;
            after.file == n.file || after.file == Some(md.save(after.engine.records, after.epoch))
  {
    if e.Inbound? {
      ActFollows(md, n, e.conn, Parsed(e.kind, e.payload), e.env);
    }
  }

  /**
   Commit safety. Over every interleaving of messages, crashes and restarts in which reloads
   succeed, each execution has at most one acknowledged commit, and an acknowledged commit is
   committed with the same digest in memory and in the file at the end.
   */
  lemma CommitSafety(n: Node, es: seq<Event>, id: ExecutionId, d: Digest)
    requires Base(n) && AllOk(NodeStep, Fine, n, es)
    ensures Count((o: Sent) => AckFor(o, id), Log(n, es)) <= 1
    ensures Count((o: Sent) => AckOf(o, id, d), Log(n, es)) > 0 ==>
              var end := RunAll(n, es);
              && Committed(end.engine.records, id, d)
              && FileHolds(Disk(), end.file, id, d)
              && (FileContents(end.file.value).Some? ==> Committed(Emplaced(FileContents(end.file.value).value.0), id, d))
  {
    DiskIsFaithful();
    DiskSteps();
    CommitSafetyOver(Disk(), NodeStep, Fine, n, es, id, d);
    if Count((o: Sent) => AckOf(o, id, d), Log(n, es)) > 0 && FileContents(RunAll(n, es).file.value).Some? {
      HeldIsLoaded(Disk(), RunAll(n, es).file, id, d);
    }
  }
}
