/** What clients are told, and what the coordinator remembers about their connections. */
module CoordinatorReplies {
  import opened Types
  import opened Listing
  import opened CoordinatorSpec
  import opened CoordinatorRuns
  import E = EngineSpec
  import R = EngineRuns
  import D = EngineDecisions
  import opened EngineInvariants
  import M = Messages
  import P = Protocol

  // ------------------------------------------------------------------------------------------
  // Decisions.
  // ------------------------------------------------------------------------------------------

  /** A decision as a client sees it: on which connection, in which acknowledgement, which code. */
  datatype Told = Told(conn: nat, kind: P.MsgType, code: Code)

  function ToldBy(o: Sent): seq<Told> {
    match o
    case Decided(c, k, code) => [Told(c, k, code)]
    case Issued(c, k, code, _) => [Told(c, k, code)]
    case CompleteAck(c, _, code, _) => [Told(c, P.COMPLETE_ACK, code)]
    case _ => []
  }

  function Decisions(sent: seq<Sent>): seq<Told> {
    if sent == [] then [] else ToldBy(sent[0]) + Decisions(sent[1..])
  }

  lemma {:induction false} DecisionsConcat(a: seq<Sent>, b: seq<Sent>)
    ensures Decisions(a + b) == Decisions(a) + Decisions(b)
  {
    if a == [] {
      assert a + b == b;
    } else {
      assert (a + b)[0] == a[0] && (a + b)[1..] == a[1..] + b;
      DecisionsConcat(a[1..], b);
    }
  }

  lemma DecisionsOne(o: Sent)
    ensures Decisions([o]) == ToldBy(o)
  {
    assert Decisions([o]) == ToldBy(o) + Decisions([]);
  }

  lemma DecisionsTwo(o: Sent, u: Sent)
    ensures Decisions([o, u]) == ToldBy(o) + ToldBy(u)
  {
    assert [o, u] == [o] + [u];
    DecisionsConcat([o], [u]);
    DecisionsOne(o);
    DecisionsOne(u);
  }

  /** The acknowledgement that belongs to a message. */
  function AckOfMessage(msg: Message): Option<P.MsgType> {
    match msg
    case Submits(_) => Some(P.SUBMIT_ACK)
    case Dispatches(_) => Some(P.DISPATCH_ACK)
    case Starts(_) => Some(P.COMPLETE_ACK)
    case Completes(_) => Some(P.COMPLETE_ACK)
    case Cancels(_) => Some(P.CANCEL_ACK)
    case Preempts(_) => Some(P.PREEMPT_ACK)
    case AcksPreempt(_) => Some(P.PREEMPT_ACK)
    case MarksResumable(_) => Some(P.PREEMPT_ACK)
    case Resumes(_) => Some(P.RESUME_ACK)
    case ReportsLoss(_) => Some(P.COMPLETE_ACK)
    case _ => None
  }

  /** What the engine answers to the last of several operations. */
  function LastCode(s: E.State, ops: seq<E.Op>): Code
    requires ops != []
    decreases |ops|
  {
    if |ops| == 1 then E.Step(s, ops[0]).code else LastCode(E.Step(s, ops[0]).state, ops[1..])
  }

  lemma LastOfOne(s: E.State, a: E.Op)
    ensures LastCode(s, [a]) == E.Step(s, a).code
  {}

  lemma LastOfTwo(s: E.State, a: E.Op, b: E.Op)
    ensures LastCode(s, [a, b]) == E.Step(E.Step(s, a).state, b).code
  {
    assert [a, b][1..] == [b];
    LastOfOne(E.Step(s, a).state, b);
  }

  /** What the engine decided about a message, or the coordinator in its place when no worker is connected. */
  function Verdict(n: Node, conn: nat, msg: Message, env: Env): seq<Told> {
    var ops := ActOps(n, conn, msg, env);
    if AckOfMessage(msg).None? then []
    else if ops != [] then [Told(conn, AckOfMessage(msg).value, LastCode(n.engine, ops))]
    else if msg.Dispatches? && WorkerConn(n.conns, msg.dispatch.worker, env.pick) == 0 then [Told(conn, P.DISPATCH_ACK, REJECT_NOT_OWNER)]
    else []
  }

  lemma SubmittedTells(md: Medium, n: Node, conn: nat, p: M.EpochRequest, env: Env)
    ensures Decisions(Submitted(md, n, conn, p, env).sent) == Verdict(n, conn, Submits(p), env)
  {
    var create, activate := E.Create(p.id, p.epoch, env.now), E.Activate(p.id, p.epoch);
    LastOfOne(n.engine, create);
    LastOfTwo(n.engine, create, activate);
    DecisionsOne(Submitted(md, n, conn, p, env).sent[0]);
  }

  lemma AfterTells(md: Medium, n: Node, conn: nat, w: nat, id: ExecutionId, r: E.Result)
    ensures Decisions(AfterDispatch(md, n, conn, w, r).sent) == [Told(conn, P.DISPATCH_ACK, r.code)]
    ensures Decisions(AfterResume(md, n, conn, w, r).sent) == [Told(conn, P.RESUME_ACK, r.code)]
    ensures Decisions(AfterComplete(md, n, conn, id, r).sent) == [Told(conn, P.COMPLETE_ACK, r.code)]
  {
    var a, b, c := AfterDispatch(md, n, conn, w, r).sent, AfterResume(md, n, conn, w, r).sent, AfterComplete(md, n, conn, id, r).sent;
    if |a| == 1 {
      DecisionsOne(a[0]);
    } else {
      DecisionsTwo(a[0], a[1]);
    }
    if |b| == 1 {
      DecisionsOne(b[0]);
    } else {
      DecisionsTwo(b[0], b[1]);
    }
    DecisionsOne(c[0]);
  }

  lemma ControlledTells(md: Medium, n: Node, conn: nat, op: E.Op, kind: P.MsgType)
    ensures Decisions(Controlled(md, n, conn, op, kind).sent) == [Told(conn, kind, E.Step(n.engine, op).code)]
  {
    DecisionsOne(Controlled(md, n, conn, op, kind).sent[0]);
  }

  /** The client is told exactly what was decided about its message, in the acknowledgement of that message. */
  lemma RepliesExactly(md: Medium, n: Node, conn: nat, msg: Message, env: Env)
    ensures Decisions(Act(md, n, conn, msg, env).sent) == Verdict(n, conn, msg, env)
  {
    match msg
    case Submits(p) => SubmittedTells(md, n, conn, p, env);
    case Dispatches(p) =>
      var w := WorkerConn(n.conns, p.worker, env.pick);
      AfterTells(md, n, conn, w, p.id, E.Step(n.engine, E.Dispatch(p.id, p.worker, p.boot, p.epoch, env.aid, env.did)));
      DecisionsOne(Issued(conn, P.DISPATCH_ACK, REJECT_NOT_OWNER, None));
    case Resumes(p) =>
      AfterTells(md, n, conn, WorkerConn(n.conns, p.worker, env.pick), p.id,
                 E.Step(n.engine, E.Resume(p.id, p.worker, p.boot, p.epoch, p.gen, env.aid, env.did)));
    case Completes(t) => AfterTells(md, n, conn, 0, t.auth.executionId, E.Step(n.engine, E.Complete(t, env.now)));
    case Starts(t) => DecisionsOne(Started(n, conn, t).sent[0]);
    case Cancels(r) => ControlledTells(md, n, conn, E.Cancel(r), P.CANCEL_ACK);
    case Preempts(r) => ControlledTells(md, n, conn, E.Preempt(r), P.PREEMPT_ACK);
    case AcksPreempt(p) => ControlledTells(md, n, conn, E.AcknowledgePreempt(p.id, p.epoch), P.PREEMPT_ACK);
    case MarksResumable(p) => ControlledTells(md, n, conn, E.MarkResumable(p.id, p.epoch), P.PREEMPT_ACK);
    case ReportsLoss(p) => ControlledTells(md, n, conn, E.WorkerLost(p.id, p.worker, p.boot, p.epoch), P.COMPLETE_ACK);
    case Greets(h) => DecisionsOne(Plain(conn, P.WELCOME));
    case Registers => DecisionsOne(Plain(conn, P.REGISTER_ACK));
    case Queries => DecisionsOne(Plain(conn, P.QUERY_RESPONSE));
    case Pings => DecisionsOne(Plain(conn, P.PONG));
    case _ =>
  }

  // ------------------------------------------------------------------------------------------
  // Over runs.
  // ------------------------------------------------------------------------------------------

  /** What is decided along a run, in order. */
  function VerdictsBy(next: Stepper, verdict: (Node, Event) -> seq<Told>, n: Node, es: seq<Event>): seq<Told>
    decreases |es|
  {
    if es == [] then [] else verdict(n, es[0]) + VerdictsBy(next, verdict, next(n, es[0]).node, es[1..])
  }

  lemma {:induction false} ToldInRun(next: Stepper, verdict: (Node, Event) -> seq<Told>, n: Node, es: seq<Event>)
    requires forall x: Node, e: Event {:trigger next(x, e)} :: Decisions(next(x, e).sent) == verdict(x, e)
    ensures Decisions(LogBy(next, n, es)) == VerdictsBy(next, verdict, n, es)
    decreases |es|
  {
    if es != [] {
      var d := next(n, es[0]);
      ToldInRun(next, verdict, d.node, es[1..]);
      DecisionsConcat(d.sent, LogBy(next, d.node, es[1..]));
    }
  }

  function VerdictOn(n: Node, e: Event): seq<Told> {
    if e.Inbound? && n.up then Verdict(n, e.conn, Parsed(e.kind, e.payload), e.env) else []
  }

  lemma NextTells(md: Medium, n: Node, e: Event)
    ensures Decisions(NextBy(md, n, e).sent) == VerdictOn(n, e)
  {
    if e.Inbound? && n.up {
      RepliesExactly(md, n, e.conn, Parsed(e.kind, e.payload), e.env);
    }
  }

  /** In every run, what clients are told is what was decided about their messages, one decision each, in order. */
  lemma RepliesInEveryRun(n: Node, es: seq<Event>)
    ensures Decisions(Log(n, es)) == VerdictsBy(NodeStep, VerdictOn, n, es)
  {
    forall x: Node, e: Event
      ensures Decisions(NodeStep(x, e).sent) == VerdictOn(x, e)
    {
      NextTells(Disk(), x, e);
    }
    ToldInRun(NodeStep, VerdictOn, n, es);
  }

  // ------------------------------------------------------------------------------------------
  // Connections.
  // ------------------------------------------------------------------------------------------

  /** A connection is that of a worker exactly if it said hello in that role, under the identity and boot it gave. */
  lemma HelloIsRemembered(md: Medium, n: Node, conn: nat, h: M.Hello, env: Env)
    ensures var after := Act(md, n, conn, Greets(h), env).node;
            && after.engine == n.engine && after.file == n.file && after.epoch == n.epoch && after.up == n.up
            && conn in after.conns && after.conns[conn].isWorker == (h.role == 1)
            && after.conns[conn].worker == h.worker && after.conns[conn].boot == h.boot
            && (conn in n.conns ==> after.conns[conn].activeExecution == n.conns[conn].activeExecution)
            && (conn !in n.conns ==> after.conns[conn].activeExecution.None?)
            && forall c :: c != conn ==> (c in after.conns <==> c in n.conns) && (c in n.conns ==> after.conns[c] == n.conns[c])
  {}

  /** A connection that work is dispatched to is a worker's, and remembers the execution and the attempt. */
  lemma OfferIsRemembered(md: Medium, n: Node, conn: nat, p: M.DispatchRequest, env: Env, w: nat, work: M.WorkerDispatch)
    requires ToWorker(w, work) in Act(md, n, conn, Dispatches(p), env).sent
    ensures var after := Act(md, n, conn, Dispatches(p), env).node;
            && IsWorkerAt(n.conns, w, p.worker) && w in after.conns
            && after.conns[w].isWorker && after.conns[w].worker == p.worker && after.conns[w].boot == n.conns[w].boot
            && after.conns[w].activeExecution == Some(work.ticket.auth.executionId)
            && after.conns[w].activeAttempt == Some(work.ticket.auth.attemptId)
  {
    var v := WorkerConn(n.conns, p.worker, env.pick);
    var r := E.Step(n.engine, E.Dispatch(p.id, p.worker, p.boot, p.epoch, env.aid, env.did));
    if v != 0 && p.id in n.engine.records {
      OfferMarks(md, n, conn, v, r, w, work);
    }
  }

  /** The process goes down on a dispatch of an unknown execution to a connected worker and on nothing else; its epoch is its own. */
  lemma DownExactly(md: Medium, n: Node, conn: nat, msg: Message, env: Env)
    requires n.up
    ensures var after := Act(md, n, conn, msg, env).node;
            && after.epoch == n.epoch
            && (!after.up <==> msg.Dispatches? && WorkerConn(n.conns, msg.dispatch.worker, env.pick) != 0
                               && msg.dispatch.id !in n.engine.records)
  {}

  /** Nothing but a greeting, a dispatch and a close changes what is known about connections: an offer by a resume is not remembered. */
  lemma ConnsKept(md: Medium, n: Node, conn: nat, msg: Message, env: Env)
    requires !msg.Greets? && !msg.Dispatches? && !msg.Closes?
    ensures Act(md, n, conn, msg, env).node.conns == n.conns
  {}

  lemma OfferMarks(md: Medium, n: Node, conn: nat, v: nat, r: E.Result, w: nat, work: M.WorkerDispatch)
    requires ToWorker(w, work) in AfterDispatch(md, n, conn, v, r).sent
    ensures var after := AfterDispatch(md, n, conn, v, r).node;
            && w == v && v in n.conns && r.ticket == Some(work.ticket)
            && after.conns == n.conns[v := n.conns[v].(activeExecution := Some(work.ticket.auth.executionId),
                                                       activeAttempt := Some(work.ticket.auth.attemptId))]
  {}

  /** Closing the connection of a worker with an active execution is the loss of that worker, stored; any other closing only forgets it. */
  lemma CloseDecides(md: Medium, n: Node, conn: nat, env: Env)
    ensures var d := Act(md, n, conn, Closes, env);
            && d.sent == [] && d.node.epoch == n.epoch && d.node.up == n.up
            && (conn !in n.conns ==> d.node == n)
            && (conn in n.conns ==>
                  var c := n.conns[conn];
                  && d.node.conns == n.conns - {conn}
                  && if c.isWorker && c.activeExecution.Some?
                     then var lost := E.Step(n.engine, E.WorkerLost(c.activeExecution.value, c.worker, c.boot, n.epoch)).state;
                          d.node.engine == lost && d.node.file == Some(md.save(lost.records, n.epoch))
                     else d.node.engine == n.engine && d.node.file == n.file)
  {}

  /** So it moves an execution that this worker owns in this boot, unless the coordinator's own epoch is outdated. */
  lemma CloseLoses(md: Medium, n: Node, conn: nat, env: Env, id: ExecutionId)
    requires conn in n.conns && n.conns[conn].isWorker && n.conns[conn].activeExecution == Some(id)
    requires id in n.engine.records && Good(n.engine.records[id], false)
    ensures var c, rec := n.conns[conn], n.engine.records[id];
            var after := Act(md, n, conn, Closes, env).node;
            && id in after.engine.records
            && if D.Loses(n.engine.epoch, rec, c.worker, c.boot, n.epoch)
               then
                 && (rec.state == DISPATCHED ==> after.engine.records[id].state == READY)
                 && (rec.state == RUNNING ==> after.engine.records[id].state == AMBIGUOUS)
                 && (rec.state == CANCELLATION_REQUESTED ==> after.engine.records[id].state == CANCELLED)
                 && (rec.state == PREEMPTION_REQUESTED ==> after.engine.records[id].state == PREEMPTED)
                 && after.engine.records[id].attempts == D.WithCurrent(rec, D.Gone)
               else after.engine.records[id] == rec
  {
    var c, rec := n.conns[conn], n.engine.records[id];
    CloseDecides(md, n, conn, env);
    R.StepOnTarget(n.engine, E.WorkerLost(id, c.worker, c.boot, n.epoch), id);
    D.LossDecides(n.engine.epoch, rec, c.worker, c.boot, n.epoch);
    if !D.Loses(n.engine.epoch, rec, c.worker, c.boot, n.epoch) {
      D.LossRefusals(n.engine.epoch, rec, c.worker, c.boot, n.epoch);
    }
  }

  // ------------------------------------------------------------------------------------------
  // Restart.
  // ------------------------------------------------------------------------------------------

  /** A restart forgets the connections, keeps the file, and takes the higher of the configured and the stored epoch. */
  lemma RestartDecides(md: Medium, n: Node, epoch: U64)
    ensures var after := Restarted(md, n, epoch);
            && after.up && after.conns == map[] && after.file == n.file && after.engine.epoch >= after.epoch
            && if n.file.Some? && md.load(n.file.value).Some?
               then var (recs, stored) := md.load(n.file.value).value;
                    && after.epoch == (if stored > epoch then stored else epoch)
                    && after.engine.records == Emplaced(recs)
               else after.epoch == epoch && after.engine == E.Empty(epoch)
  {}
}
