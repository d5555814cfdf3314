/** Tickets of an older epoch across crashes and restarts. */
module CoordinatorEpochs {
  import opened Types
  import opened Listing
  import opened CoordinatorSpec
  import opened CoordinatorRuns
  import E = EngineSpec
  import R = EngineRuns

  /** The configured epoch, the stored one or that of some stored record is above e. */
  ghost predicate Above(md: Medium, file: Option<seq<byte>>, epoch: U64, e: U64) {
    || epoch > e
    || (file.Some? && md.load(file.value).Some?
        && var (recs, stored) := md.load(file.value).value;
           stored > e || exists i :: 0 <= i < |recs| && recs[i].epoch > e)
  }

  lemma {:induction false} HighestAbove(epoch: U64, recs: seq<Record>, e: U64)
    ensures Highest(epoch, recs) > e <==> epoch > e || exists i :: 0 <= i < |recs| && recs[i].epoch > e
  {
    if recs != [] {
      var rest, last := recs[..|recs| - 1], recs[|recs| - 1];
      HighestAbove(epoch, rest, e);
      if exists i :: 0 <= i < |rest| && rest[i].epoch > e {
        var i :| 0 <= i < |rest| && rest[i].epoch > e;
        assert recs[i].epoch > e;
      }
      if exists i :: 0 <= i < |recs| && recs[i].epoch > e {
        var i :| 0 <= i < |recs| && recs[i].epoch > e;
        assert i < |rest| ==> rest[i].epoch > e;
      }
    }
  }

  /** A restart fences the epochs up to e exactly under that condition. */
  lemma RestartAbove(md: Medium, n: Node, epoch: U64, e: U64)
    ensures Restarted(md, n, epoch).engine.epoch > e <==> Above(md, n.file, epoch, e)
  {
    if n.file.Some? && md.load(n.file.value).Some? {
      HighestAbove(epoch, md.load(n.file.value).value.0, e);
    }
  }

  lemma {:induction false} EpochRisesInRun(s: E.State, ops: seq<E.Op>)
    ensures E.Run(s, ops).epoch >= s.epoch
    decreases |ops|
  {
    if ops != [] {
      R.EpochRises(s, ops[0]);
      EpochRisesInRun(E.Step(s, ops[0]).state, ops[1..]);
    }
  }

  ghost predicate Fences(n: Node, e: U64) {
    n.engine.epoch > e
  }

  ghost predicate StaysAbove(md: Medium, n: Node, ev: Event, e: U64) {
    ev.Restart? ==> Above(md, n.file, ev.epoch, e)
  }

  /** A step keeps the fence exactly if it is not a restart below it. */
  lemma FenceExactly(md: Medium, n: Node, ev: Event, e: U64)
    requires Fences(n, e)
    ensures Fences(NextBy(md, n, ev).node, e) <==> StaysAbove(md, n, ev, e)
  {
    match ev
    case Restart(epoch) => RestartAbove(md, n, epoch, e);
    case Accept(_) =>
    case Inbound(conn, kind, payload, env) =>
      var msg := Parsed(kind, payload);
      ActFollows(md, n, conn, msg, env);
      EpochRisesInRun(n.engine, ActOps(n, conn, msg, env));
  }

  lemma OldTicketRefused(s: E.State, e: U64, st: StartTicket, ct: CompletionTicket, now: Text)
    requires s.epoch > e && st.auth.epoch <= e && ct.auth.epoch <= e
    ensures E.Step(s, E.MarkRunning(st)).code != ALLOW && E.Step(s, E.Complete(ct, now)).code != ALLOW
  {}

  ghost predicate StaysAboveOnDisk(e: U64, n: Node, ev: Event) {
    StaysAbove(Disk(), n, ev, e)
  }

  /**
   Once the engine is above an epoch, for instance after a restart under a higher one, no start and
   no completion of that epoch is granted in any run of messages, crashes and restarts in which no
   restart falls back to it.
   */
  lemma OldEpochsNeverAct(n: Node, es: seq<Event>, e: U64, st: StartTicket, ct: CompletionTicket, now: Text)
    requires Fences(n, e) && AllOk(NodeStep, (x: Node, ev: Event) => StaysAboveOnDisk(e, x, ev), n, es)
    requires st.auth.epoch <= e && ct.auth.epoch <= e
    ensures var s := RunAll(n, es).engine;
            E.Step(s, E.MarkRunning(st)).code != ALLOW && E.Step(s, E.Complete(ct, now)).code != ALLOW
  {
    var ok, base := (x: Node, ev: Event) => StaysAboveOnDisk(e, x, ev), (x: Node) => Fences(x, e);
    forall x: Node, ev: Event | base(x) && ok(x, ev)
      ensures base(NodeStep(x, ev).node)
    {
      FenceExactly(Disk(), x, ev, e);
    }
    HoldsInRun(NodeStep, ok, base, n, es);
    OldTicketRefused(RunAll(n, es).engine, e, st, ct, now);
  }

  /** An epoch that was not saved is forgotten: a second restart below it is as if the first had not been. */
  lemma UnsavedEpochForgotten(md: Medium, n: Node, high: U64, low: U64)
    ensures Restarted(md, Restarted(md, n, high), low) == Restarted(md, n, low)
  {}

  /** One save makes it stick: every later restart that loads the file is above. */
  lemma SavedEpochSticks(md: Medium, n: Node, e: U64, low: U64)
    requires Faithful(md) && KeyedMap(n.engine.records) && md.fits(n.engine.records) && n.epoch > e
    requires n.file == Some(md.save(n.engine.records, n.epoch)) && md.load(n.file.value).Some?
    ensures Above(md, n.file, low, e)
  {}

  /** So a ticket that the first restart fenced is decided, by the second, as if it had never been fenced. */
  lemma FencedTicketRevived(md: Medium, n: Node, high: U64, low: U64, st: StartTicket, ct: CompletionTicket, now: Text)
    requires high > st.auth.epoch && high > ct.auth.epoch
    ensures var s := Restarted(md, n, high).engine;
            E.Step(s, E.MarkRunning(st)).code != ALLOW && E.Step(s, E.Complete(ct, now)).code != ALLOW
    ensures var twice, once := Restarted(md, Restarted(md, n, high), low).engine, Restarted(md, n, low).engine;
            && E.Step(twice, E.MarkRunning(st)) == E.Step(once, E.MarkRunning(st))
            && E.Step(twice, E.Complete(ct, now)) == E.Step(once, E.Complete(ct, now))
  {
    var e: U64 := high - 1;
    RestartAbove(md, n, high, e);
    OldTicketRefused(Restarted(md, n, high).engine, e, st, ct, now);
    UnsavedEpochForgotten(md, n, high, low);
  }
}
