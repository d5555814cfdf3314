/** Overtaken tickets across crashes and restarts within one epoch. */
module CoordinatorFencing {
  import opened Types
  import opened Listing
  import opened CoordinatorSpec
  import opened CoordinatorRuns
  import opened EngineInvariants
  import E = EngineSpec
  import R = EngineRuns
  import M = Messages

  /** The attempt is on record and another one, or none, is current. */
  ghost predicate Overtaken(m: Records, t: Authority) {
    t.executionId in m && R.InHistory(m[t.executionId], t.attemptId) && m[t.executionId].current != Some(t.attemptId)
  }

  ghost predicate Current(m: Records, t: Authority) {
    t.executionId in m && R.InHistory(m[t.executionId], t.attemptId) && m[t.executionId].current == Some(t.attemptId)
  }

  /** The same authority in the last epoch there is: it is fenced only by being overtaken. */
  function Timeless(t: Authority): Authority {
    t.(epoch := U64_MAX)
  }

  lemma OvertakenIsFenced(s: E.State, t: Authority)
    ensures Overtaken(s.records, t) <==> R.Fenced(s, Timeless(t))
  {}

  lemma OvertakenForever(s: E.State, ops: seq<E.Op>, t: Authority)
    requires Overtaken(s.records, t) && E.FreshRun(s, ops)
    ensures Overtaken(E.Run(s, ops).records, t)
  {
    OvertakenIsFenced(s, t);
    R.FencedForever(s, ops, Timeless(t));
    OvertakenIsFenced(E.Run(s, ops), t);
  }

  lemma OvertakenIsRefused(s: E.State, t: Authority, st: StartTicket, ct: CompletionTicket, now: Text)
    requires Overtaken(s.records, t) && R.Presents(st.auth, t) && R.Presents(ct.auth, t)
    ensures E.Step(s, E.MarkRunning(st)).code != ALLOW && E.Step(s, E.Complete(ct, now)).code != ALLOW
  {
    R.FencedIsRefused(s, t, st, ct, now);
  }

  // ------------------------------------------------------------------------------------------
  // Overtaken in memory and in the file.
  // ------------------------------------------------------------------------------------------

  ghost predicate FileOvertaken(md: Medium, file: Option<seq<byte>>, t: Authority) {
    exists m: Records, e: U64 {:trigger md.save(m, e)} ::
      file == Some(md.save(m, e)) && KeyedMap(m) && md.fits(m) && Overtaken(m, t)
  }

  ghost predicate Gone(md: Medium, n: Node, t: Authority) {
    KeyedMap(n.engine.records) && Overtaken(n.engine.records, t) && FileOvertaken(md, n.file, t)
  }

  /** Reloads succeed, records can be written in full, and drawn identities are new to their execution. */
  ghost predicate Regular(md: Medium, n: Node, ev: Event) {
    && Orderly(md, n, ev)
    && (ev.Inbound? ==> E.FreshRun(n.engine, ActOps(n, ev.conn, Parsed(ev.kind, ev.payload), ev.env)))
  }

  lemma FollowsKeepsGone(md: Medium, n: Node, after: Node, ops: seq<E.Op>, t: Authority)
    requires Gone(md, n, t) && Follows(md, n, after, ops) && E.FreshRun(n.engine, ops) && md.fits(after.engine.records)
    ensures Gone(md, after, t)
  {
    OvertakenForever(n.engine, ops, t);
    KeyedForever(n.engine, ops);
  }

  lemma RestartKeepsGone(md: Medium, n: Node, epoch: U64, t: Authority)
    requires Faithful(md) && Gone(md, n, t) && md.load(n.file.value).Some?
    ensures Gone(md, Restarted(md, n, epoch), t)
  {
    var m: Records, e: U64 :| n.file == Some(md.save(m, e)) && KeyedMap(m) && md.fits(m) && Overtaken(m, t);
    RestartRecovers(md, n, epoch, m, e);
  }

  lemma NextKeepsGone(md: Medium, n: Node, ev: Event, t: Authority)
    requires Faithful(md) && Gone(md, n, t) && Regular(md, n, ev)
    ensures Gone(md, NextBy(md, n, ev).node, t)
  {
    match ev
    case Restart(epoch) => RestartKeepsGone(md, n, epoch, t);
    case Accept(_) =>
    case Inbound(conn, kind, payload, env) =>
      if n.up {
        var msg := Parsed(kind, payload);
        ActFollows(md, n, conn, msg, env);
        FollowsKeepsGone(md, n, Act(md, n, conn, msg, env).node, ActOps(n, conn, msg, env), t);
      }
  }

  ghost predicate RegularOnDisk(n: Node, ev: Event) {
    Regular(Disk(), n, ev)
  }

  /**
   Fencing across restarts. Once a ticket is overtaken in memory and in the file, it is never again
   allowed to start or to complete, over every interleaving of messages, crashes and restarts in
   which reloads succeed.
   */
  lemma OvertakenAcrossRestarts(n: Node, es: seq<Event>, t: Authority, st: StartTicket, ct: CompletionTicket, now: Text)
    requires Gone(Disk(), n, t) && AllOk(NodeStep, RegularOnDisk, n, es)
    requires R.Presents(st.auth, t) && R.Presents(ct.auth, t)
    ensures var s := RunAll(n, es).engine;
            E.Step(s, E.MarkRunning(st)).code != ALLOW && E.Step(s, E.Complete(ct, now)).code != ALLOW
  {
    var base := (x: Node) => Gone(Disk(), x, t);
    DiskIsFaithful();
    forall x: Node, ev: Event | base(x) && RegularOnDisk(x, ev)
      ensures base(NodeStep(x, ev).node)
    {
      NextKeepsGone(Disk(), x, ev, t);
    }
    HoldsInRun(NodeStep, RegularOnDisk, base, n, es);
    OvertakenIsRefused(RunAll(n, es).engine, t, st, ct, now);
  }

  // ------------------------------------------------------------------------------------------
  // Exactly when an overtaking survives the next restart.
  // ------------------------------------------------------------------------------------------

  /**
   A message overtakes a ticket that is current in memory and in the records m of the file. After a
   crash and a restart it is still overtaken if and only if the message was one that is stored;
   otherwise it is current again.
   */
  lemma OvertakingSurvivesExactly(md: Medium, n: Node, m: Records, e: U64, conn: nat, msg: Message, env: Env, t: Authority,
                                  again: U64, after: Node)
    requires Faithful(md) && KeyedMap(n.engine.records) && Current(n.engine.records, t)
    requires n.file == Some(md.save(m, e)) && KeyedMap(m) && md.fits(m) && Current(m, t)
    requires after == Act(md, n, conn, msg, env).node && Overtaken(after.engine.records, t) && md.fits(after.engine.records)
    requires after.file.Some? && md.load(after.file.value).Some?
    ensures var back := Restarted(md, after, again);
            if Saves(n, conn, msg, env) then Overtaken(back.engine.records, t) && Gone(md, back, t)
            else Current(back.engine.records, t) && back.engine.records == m
  {
    ActFollows(md, n, conn, msg, env);
    KeyedForever(n.engine, ActOps(n, conn, msg, env));
    SavesExactly(md, n, conn, msg, env);
    if Saves(n, conn, msg, env) {
      RestartRecovers(md, after, again, after.engine.records, after.epoch);
    } else {
      RestartRecovers(md, after, again, m, e);
    }
  }

  /** Such a message exists: the dispatch that a resuming execution rejects after rewriting its authority. */
  lemma RejectedDispatchIsNotStored(n: Node, conn: nat, p: M.DispatchRequest, env: Env, t: Authority)
    requires Current(n.engine.records, t) && t.executionId == p.id && Good(n.engine.records[p.id], false)
    requires n.engine.records[p.id].state == RESUMING && !E.Older(p.epoch, n.engine.epoch, n.engine.records[p.id])
    requires WorkerConn(n.conns, p.worker, env.pick) != 0 && E.Unused(n.engine.records[p.id].attempts, env.aid, env.did)
    ensures !Saves(n, conn, Dispatches(p), env)
    ensures var ops := ActOps(n, conn, Dispatches(p), env);
            E.FreshRun(n.engine, ops) && Overtaken(E.Run(n.engine, ops).records, t)
  {
    var op := E.Dispatch(p.id, p.worker, p.boot, p.epoch, env.aid, env.did);
    var rec := n.engine.records[p.id];
    R.RunOne(n.engine, op);
    R.StepOnTarget(n.engine, op, p.id);
    R.RejectedDispatch(n.engine.epoch, rec, op);
    RejectedDispatchOvertakes(n.engine.epoch, rec, op, t);
  }

  lemma RejectedDispatchOvertakes(engine: U64, rec: Record, op: E.Op, t: Authority)
    requires op.Dispatch? && Good(rec, false) && rec.state == RESUMING && !E.Older(op.epoch, engine, rec)
    requires R.InHistory(rec, t.attemptId) && E.Unused(rec.attempts, op.aid, op.did)
    ensures var out := E.OnRecord(engine, rec, op);
            !R.Granted(out.code) && R.InHistory(out.rec, t.attemptId) && out.rec.current != Some(t.attemptId)
  {
    var after := E.OnRecord(engine, rec, op).rec;
    R.RewritingRejections(engine, rec, op);
    R.HistoryGrows(engine, rec, op);
    var i :| 0 <= i < |rec.attempts| && rec.attempts[i].id == t.attemptId;
    assert R.Keeps(rec.attempts[i], after.attempts[i], rec.current);
    assert after.attempts[i].id == t.attemptId;
  }
}
