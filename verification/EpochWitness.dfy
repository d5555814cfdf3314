/** A run in which a ticket that a restart under a higher epoch has fenced is granted again. */
module EpochWitness {
  import opened Types
  import opened Binary
  import opened Listing
  import opened CoordinatorSpec
  import opened CoordinatorRuns
  import opened CoordinatorRecovery
  import opened CoordinatorEpochs
  import E = EngineSpec
  import opened EngineInvariants
  import R = EngineRuns
  import End = EndToEnd
  import W = NumberingWitness
  import M = Messages

  const WORKER_CONN: nat := 1

  function Hello(w: WorkerId, b: BootId): M.Hello {
    M.Hello(1, 1, w, b, [])
  }

  function Draw(): Env {
    Env(1, 1, [], WORKER_CONN)
  }

  // ------------------------------------------------------------------------------------------
  // A worker says hello, an execution is submitted and dispatched to it.
  // ------------------------------------------------------------------------------------------

  function Greeting(e: U64, w: WorkerId, b: BootId): Node {
    Greeted(Installed(e), WORKER_CONN, Hello(w, b)).node
  }

  function Submission(md: Medium, e: U64, id: ExecutionId, w: WorkerId, b: BootId): Node {
    Act(md, Greeting(e, w, b), WORKER_CONN, Submits(M.EpochRequest(id, e)), Draw()).node
  }

  function Dispatching(md: Medium, e: U64, id: ExecutionId, w: WorkerId, b: BootId): Done {
    Act(md, Submission(md, e, id, w, b), WORKER_CONN, Dispatches(M.DispatchRequest(id, e, w, b)), Draw())
  }

  /** The record and the ticket that come of it. */
  function Held(e: U64, id: ExecutionId, w: WorkerId, b: BootId): Record {
    W.AfterDispatch(e, id, w, b)
  }

  function Ticket(e: U64, id: ExecutionId, w: WorkerId, b: BootId): Authority {
    Authority(id, 1, 1, 1, w, b, e, 1, 1, 2, 2)
  }

  lemma Submitting(md: Medium, e: U64, id: ExecutionId, w: WorkerId, b: BootId)
    ensures var n := Submission(md, e, id, w, b);
            && n.engine == E.State(e, map[id := W.AfterActivate(e, id)]) && n.epoch == e
            && IsWorkerAt(n.conns, WORKER_CONN, w)
  {}

  lemma DispatchStep(e: U64, id: ExecutionId, w: WorkerId, b: BootId)
    ensures var r := E.Step(E.State(e, map[id := W.AfterActivate(e, id)]), E.Dispatch(id, w, b, e, 1, 1));
            && r.state == E.State(e, map[id := Held(e, id, w, b)])
            && r.code == ALLOW && r.ticket == Some(DispatchTicket(Ticket(e, id, w, b)))
  {
    W.Beginning(e, id, w, b);
    W.OnlyStep(e, W.AfterActivate(e, id), E.Dispatch(id, w, b, e, 1, 1), Held(e, id, w, b));
    R.StepOnTarget(W.Single(e, W.AfterActivate(e, id)), E.Dispatch(id, w, b, e, 1, 1), id);
  }

  lemma Offered(md: Medium, n: Node, r: E.Result, t: DispatchTicket, w: WorkerId)
    requires r.code == ALLOW && r.ticket == Some(t) && IsWorkerAt(n.conns, WORKER_CONN, w)
    ensures var d := AfterDispatch(md, n, WORKER_CONN, WORKER_CONN, r);
            && ToWorker(WORKER_CONN, M.WorkerDispatch(t, 4096, 0)) in d.sent
            && d.node.engine == r.state && d.node.file == Some(md.save(r.state.records, n.epoch))
  {}

  lemma DispatchedOnce(md: Medium, e: U64, id: ExecutionId, w: WorkerId, b: BootId)
    ensures var d := Dispatching(md, e, id, w, b);
            && ToWorker(WORKER_CONN, M.WorkerDispatch(DispatchTicket(Ticket(e, id, w, b)), 4096, 0)) in d.sent
            && d.node.file == Some(md.save(map[id := Held(e, id, w, b)], e))
  {
    var n := Submission(md, e, id, w, b);
    var r := E.Step(n.engine, E.Dispatch(id, w, b, e, 1, 1));
    Submitting(md, e, id, w, b);
    DispatchStep(e, id, w, b);
    Offered(md, n, r, DispatchTicket(Ticket(e, id, w, b)), w);
  }

  // ------------------------------------------------------------------------------------------
  // Restart under a higher epoch, then under the old one.
  // ------------------------------------------------------------------------------------------

  lemma HeldIsProper(e: U64, id: ExecutionId, w: WorkerId, b: BootId)
    ensures Proper(Held(e, id, w, b)) && R.HoldsAuthority(Held(e, id, w, b), Ticket(e, id, w, b))
  {}

  lemma HeldIsSmall(e: U64, id: ExecutionId, w: WorkerId, b: BootId)
    ensures Small(Held(e, id, w, b)) && Legible(Held(e, id, w, b)) && HasOwner(Held(e, id, w, b))
  {
    SmallSize(Held(e, id, w, b));
  }

  lemma HeldLoads(e: U64, id: ExecutionId, w: WorkerId, b: BootId, m: Records)
    requires m == map[id := Held(e, id, w, b)]
    ensures FileContents(FileOf(m, e)) == Some((ListingOf(m), e))
  {
    var r := Held(e, id, w, b);
    HeldIsProper(e, id, w, b);
    HeldIsSmall(e, id, w, b);
    OneIsStorable(r);
    OneListed(r, Legible);
    OneListed(r, HasOwner);
    assert |m| == 1;
    ReloadsExactly(m, e);
  }

  lemma NoneAbove(e: U64, m: Records)
    requires KeyedMap(m) && forall id :: id in m ==> m[id].epoch <= e
    ensures Highest(e, ListingOf(m)) == e
  {
    ListingLists(m);
    HighestAbove(e, ListingOf(m), e);
    assert forall i :: 0 <= i < |ListingOf(m)| ==> ListingOf(m)[i].id in m;
  }

  lemma RestartedFrom(md: Medium, n: Node, e: U64, recs: seq<Record>)
    requires n.file.Some? && md.load(n.file.value) == Some((recs, e))
    ensures Restarted(md, n, e).engine == E.State(Highest(e, recs), Emplaced(recs))
  {}

  lemma LowRestart(md: Medium, n: Node, e: U64, m: Records)
    requires KeyedMap(m) && forall id :: id in m ==> m[id].epoch <= e
    requires n.file.Some? && md.load(n.file.value) == Some((ListingOf(m), e))
    ensures Restarted(md, n, e).engine == E.State(e, m)
  {
    EmplacedOfListing(m);
    NoneAbove(e, m);
    RestartedFrom(md, n, e, ListingOf(m));
  }

  /** In the state before the crash the ticket starts and commits. */
  lemma HeldCommits(e: U64, id: ExecutionId, w: WorkerId, b: BootId, ct: CompletionTicket, now: Text)
    requires id != NIL && w != NIL && b != NIL && ct.auth == Ticket(e, id, w, b) && ct.hasResult && ct.resultDigest != NIL_DIGEST
    ensures var s := E.State(e, map[id := Held(e, id, w, b)]);
            var started := E.Step(s, E.MarkRunning(StartTicket(ct.auth)));
            var done := E.Step(started.state, E.Complete(ct, now));
            && started.code == ALLOW && done.code == ALLOW && Committed(done.state.records, id, ct.resultDigest)
  {
    var s := E.State(e, map[id := Held(e, id, w, b)]);
    HeldIsProper(e, id, w, b);
    ProperIsGood(Held(e, id, w, b));
    End.AnswersCommit(s, ct.auth, [], [], ct, now);
    assert E.Run(s, []) == s;
  }

  lemma ProperIsGood(r: Record)
    requires Proper(r)
    ensures Good(r, false)
  {}

  /** Fenced after the first restart, started and committed after the second. */
  ghost predicate Revives(md: Medium, n: Node, high: U64, low: U64, ct: CompletionTicket, now: Text) {
    var fenced := Restarted(md, n, high);
    var started := E.Step(Restarted(md, fenced, low).engine, E.MarkRunning(StartTicket(ct.auth)));
    var done := E.Step(started.state, E.Complete(ct, now));
    && E.Step(fenced.engine, E.MarkRunning(StartTicket(ct.auth))).code != ALLOW
    && E.Step(fenced.engine, E.Complete(ct, now)).code != ALLOW
    && started.code == ALLOW && done.code == ALLOW && Committed(done.state.records, ct.auth.executionId, ct.resultDigest)
  }

  lemma RevivesOver(md: Medium, n: Node, e: U64, high: U64, id: ExecutionId, w: WorkerId, b: BootId, ct: CompletionTicket, now: Text, m: Records)
    requires e < high && id != NIL && w != NIL && b != NIL
    requires ct.auth == Ticket(e, id, w, b) && ct.hasResult && ct.resultDigest != NIL_DIGEST
    requires m == map[id := Held(e, id, w, b)] && n.file.Some? && md.load(n.file.value) == Some((ListingOf(m), e))
    ensures Revives(md, n, high, e, ct, now)
  {
    FencedTicketRevived(md, n, high, e, StartTicket(ct.auth), ct, now);
    LowRestart(md, n, e, m);
    UnsavedEpochForgotten(md, n, high, e);
    HeldCommits(e, id, w, b, ct, now);
  }

  /**
   Hello, submit, dispatch, a restart under a higher epoch that fences the ticket, a crash before
   anything is saved, a restart under the old epoch: the ticket starts and commits after all.
   */
  lemma FencedTicketCommits(e: U64, high: U64, id: ExecutionId, w: WorkerId, b: BootId, ct: CompletionTicket, now: Text)
    requires e < high && id != NIL && w != NIL && b != NIL
    requires ct.auth == Ticket(e, id, w, b) && ct.hasResult && ct.resultDigest != NIL_DIGEST
    ensures ToWorker(WORKER_CONN, M.WorkerDispatch(DispatchTicket(ct.auth), 4096, 0)) in Dispatching(Disk(), e, id, w, b).sent
    ensures Revives(Disk(), Dispatching(Disk(), e, id, w, b).node, high, e, ct, now)
  {
    var m: Records := map[id := Held(e, id, w, b)];
    DispatchedOnce(Disk(), e, id, w, b);
    HeldLoads(e, id, w, b, m);
    RevivesOver(Disk(), Dispatching(Disk(), e, id, w, b).node, e, high, id, w, b, ct, now, m);
  }
}
