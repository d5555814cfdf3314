/** A worker that disconnects after an offer: exactly when the execution offered to it is given back. */
module Disconnection {
  import opened Types
  import opened Listing
  import opened EngineSpec
  import opened EngineInvariants
  import opened EngineRuns
  import opened CoordinatorRuns
  import opened Journey
  import D = EngineDecisions
  import Replies = CoordinatorReplies
  import C = CoordinatorSpec
  import M = Messages

  lemma DispatchedRecord(s: State, op: Op)
    requires KeyedMap(s.records) && op.Dispatch? && Step(s, op).ticket.Some? && GoodAt(s, op.id, false)
    ensures op.id in s.records && op.id in Step(s, op).state.records
    ensures var t, rec := Step(s, op).ticket.value.auth, Step(s, op).state.records[op.id];
            && t.executionId == op.id && t.epoch == op.epoch >= s.epoch && Step(s, op).state.epoch == op.epoch
            && rec.epoch <= op.epoch && rec.state == DISPATCHED && rec.owner == Some(op.worker) && rec.ownerBoot == Some(op.boot)
  {
    IssuedTicketIsCurrent(s, op);
    StepOnTarget(s, op, op.id);
    IssuedIsHeld(s.epoch, s.records[op.id], op);
    D.DispatchDecides(s.epoch, s.records[op.id], op.worker, op.boot, op.epoch, op.aid, op.did);
  }

  /** The execution that a worker was offered is lost when its connection closes. */
  ghost predicate GivenBack(before: Record, after: Record) {
    && before.state == DISPATCHED && after.state == READY
    && after.attempts == D.WithCurrent(before, D.Gone)
  }

  /**
   Work was offered on connection w, the execution and the connection are as the offer left them,
   and the connection closes. The execution is ready again and its attempt marked exactly if the
   worker greeted with the boot that the dispatch named and the coordinator's own epoch is not
   older than the ticket's; otherwise nothing is lost.
   */
  lemma OfferThenClose(md: C.Medium, n: C.Node, conn: nat, p: M.DispatchRequest, env: C.Env, w: nat, work: M.WorkerDispatch,
                       offered: C.Node, m: C.Node, later: C.Env)
    requires n.up && Base(n) && GoodAt(n.engine, p.id, false) && FreshRun(n.engine, ActOps(n, conn, C.Dispatches(p), env))
    requires offered == C.Act(md, n, conn, C.Dispatches(p), env).node
    requires C.ToWorker(w, work) in C.Act(md, n, conn, C.Dispatches(p), env).sent
    requires p.id in offered.engine.records && Waits(m, p.id, offered.engine.records[p.id], offered.engine.epoch)
    requires w in m.conns && w in offered.conns && m.conns[w] == offered.conns[w]
    ensures w in n.conns && p.id in C.Act(md, m, w, C.Closes, later).node.engine.records
    ensures var rec, after := offered.engine.records[p.id], C.Act(md, m, w, C.Closes, later).node.engine.records[p.id];
            if n.conns[w].boot == p.boot && work.ticket.auth.epoch <= m.epoch then GivenBack(rec, after) else after == rec
  {
    var msg, op := C.Dispatches(p), Dispatch(p.id, p.worker, p.boot, p.epoch, env.aid, env.did);
    OfferIsIssued(md, n, conn, msg, env, w, work);
    DispatchedRecord(n.engine, op);
    IssueStep(md, n, conn, msg, env, w, work, offered);
    Replies.OfferIsRemembered(md, n, conn, p, env, w, work);
    ActFollows(md, n, conn, msg, env);
    RunOne(n.engine, op);
    Replies.CloseLoses(md, m, w, later, p.id);
  }
}
