/** When a restart finds its records again, and the one way to lose them all. */
module CoordinatorRecovery {
  import opened Types
  import opened Binary
  import opened Listing
  import opened CoordinatorSpec
  import opened CoordinatorRuns
  import E = EngineSpec
  import R = EngineRuns
  import opened EngineInvariants
  import opened Recovery
  import P = Protocol
  import M = Messages
  import RecordCodec
  import Store

  // ------------------------------------------------------------------------------------------
  // Every record in memory and in the file is well formed.
  // ------------------------------------------------------------------------------------------

  /** The strict invariant, and no text in any attempt. */
  ghost predicate Proper(rec: Record) {
    Good(rec, true) && Wordless(rec.attempts)
  }

  ghost predicate AllGood(m: Records) {
    forall id :: id in m ==> m[id].id == id && Proper(m[id])
  }

  ghost predicate FileGood(md: Medium, file: Option<seq<byte>>) {
    file.Some? ==> exists m: Records, e: U64 {:trigger md.save(m, e)} ::
      file == Some(md.save(m, e)) && AllGood(m) && md.fits(m)
  }

  ghost predicate Sane(md: Medium, n: Node) {
    AllGood(n.engine.records) && FileGood(md, n.file)
  }

  /** Identities drawn are new to the execution, and the records can be written in full. Reloads may fail. */
  ghost predicate Drawn(md: Medium, n: Node, e: Event) {
    && md.fits(NodeAfter(md, n, e).engine.records)
    && (e.Inbound? ==> E.FreshRun(n.engine, ActOps(n, e.conn, Parsed(e.kind, e.payload), e.env)))
  }

  ghost function NodeAfter(md: Medium, n: Node, e: Event): Node {
    NextBy(md, n, e).node
  }

  /** The coordinator never supersedes. */
  lemma NoSupersession(n: Node, conn: nat, msg: Message, env: Env, op: E.Op)
    requires op in ActOps(n, conn, msg, env)
    ensures !op.Supersede? && !op.FinalizeCancel?
  {}

  lemma OpsKeepGood(s: E.State, ops: seq<E.Op>)
    requires AllGood(s.records) && E.FreshRun(s, ops) && forall op :: op in ops ==> !op.Supersede?
    ensures AllGood(E.Run(s, ops).records)
  {
    forall id | id in E.Run(s, ops).records
      ensures R.GoodAt(E.Run(s, ops), id, true) && R.WordlessAt(E.Run(s, ops), id)
    {
      R.WithoutSupersession(s, ops, id);
      R.RunKeepsGood(s, ops, id, true);
      R.RunKeepsWordless(s, ops, id);
    }
  }

  lemma ActKeepsSane(md: Medium, n: Node, conn: nat, msg: Message, env: Env)
    requires Sane(md, n) && md.fits(Act(md, n, conn, msg, env).node.engine.records)
    requires E.FreshRun(n.engine, ActOps(n, conn, msg, env))
    ensures Sane(md, Act(md, n, conn, msg, env).node)
  {
    var ops := ActOps(n, conn, msg, env);
    ActFollows(md, n, conn, msg, env);
    forall op | op in ops
      ensures !op.Supersede?
    {
      NoSupersession(n, conn, msg, env, op);
    }
    OpsKeepGood(n.engine, ops);
  }

  lemma RestartKeepsSane(md: Medium, n: Node, epoch: U64)
    requires Faithful(md) && Sane(md, n)
    ensures Sane(md, Restarted(md, n, epoch))
  {
    if n.file.Some? && md.load(n.file.value).Some? {
      var m: Records, e: U64 :| n.file == Some(md.save(m, e)) && AllGood(m) && md.fits(m);
      RestartRecovers(md, n, epoch, m, e);
    }
  }

  lemma NextKeepsSane(md: Medium, n: Node, e: Event)
    requires Faithful(md) && Sane(md, n) && Drawn(md, n, e)
    ensures Sane(md, NextBy(md, n, e).node)
  {
    match e
    case Restart(epoch) => RestartKeepsSane(md, n, epoch);
    case Accept(_) =>
    case Inbound(conn, kind, payload, env) =>
      if n.up {
        ActKeepsSane(md, n, conn, Parsed(kind, payload), env);
      }
  }

  ghost predicate DrawnOnDisk(n: Node, e: Event) {
    Drawn(Disk(), n, e)
  }

  ghost predicate SaneOnDisk(n: Node) {
    Sane(Disk(), n)
  }

  lemma SanityKept()
    ensures Kept(NodeStep, DrawnOnDisk, SaneOnDisk)
  {
    DiskIsFaithful();
    forall n: Node, e: Event | SaneOnDisk(n) && DrawnOnDisk(n, e)
      ensures SaneOnDisk(NodeStep(n, e).node)
    {
      NextKeepsSane(Disk(), n, e);
    }
  }

  /** A machine on which nothing has run yet. */
  function Installed(epoch: U64): Node {
    Node(epoch, E.Empty(epoch), map[], None, true)
  }

  lemma SaneInEveryRun(epoch: U64, es: seq<Event>)
    requires AllOk(NodeStep, DrawnOnDisk, Installed(epoch), es)
    ensures SaneOnDisk(RunAll(Installed(epoch), es))
  {
    SanityKept();
    HoldsInRun(NodeStep, DrawnOnDisk, SaneOnDisk, Installed(epoch), es);
  }

  // ------------------------------------------------------------------------------------------
  // When a file of such records loads.
  // ------------------------------------------------------------------------------------------

  /**
   Within the limits of the reader. The length is a sum of counts: 101 bytes per attempt, 32 per
   delivered result, the two clock texts, and between 106 and 194 for the rest.
   */
  predicate Legible(r: Record) {
    |r.createdAt| <= MAX_STRING && |r.committedAt| <= MAX_STRING && RecordCodec.RecordBytes(r) <= Store.MAX_RECORD
  }

  lemma LegibleCounts(r: Record)
    requires Wordless(r.attempts)
    ensures RecordCodec.RecordBytes(r) == 101 * |r.attempts| + 32 * RecordCodec.Delivered(r.attempts)
              + |r.createdAt| + |r.committedAt| + Rest(r)
    ensures 106 <= Rest(r) <= 194
  {
    RecordCodec.WordlessBytes(r.attempts);
  }

  /** The part of the length that does not depend on the history and the texts. */
  function Rest(r: Record): nat {
    101 + RecordCodec.NamesBytes(RecordCodec.NamesOf(r)) + RecordCodec.OptionalBytes(r.committedDigest.Some?, 32)
  }

  lemma WordlessReads(ats: seq<Attempt>)
    requires Wordless(ats)
    ensures AllHold(RecordCodec.AttemptReads, ats) && AllHold(RecordCodec.AttemptFits, ats)
  {}

  /** The bound on the length implies the one on the number of attempts. */
  lemma LegibleReads(r: Record)
    requires Wordless(r.attempts) && RecordCodec.RecordBytes(r) <= Store.MAX_RECORD
    ensures RecordCodec.Reads(r) <==> |r.createdAt| <= MAX_STRING && |r.committedAt| <= MAX_STRING
  {
    LegibleCounts(r);
    WordlessReads(r.attempts);
  }

  lemma LegibleFrom(r: Record, n: nat)
    requires Wordless(r.attempts) && n == RecordCodec.RecordBytes(r)
    ensures RecordCodec.Reads(r) && n <= Store.MAX_RECORD <==> Legible(r)
  {
    if n <= Store.MAX_RECORD {
      LegibleReads(r);
    }
  }

  lemma LegibleExactly(r: Record)
    requires Wordless(r.attempts)
    ensures RecordCodec.Reads(r) && |RecordCodec.EncodeRecord(r)| <= Store.MAX_RECORD <==> Legible(r)
  {
    RecordCodec.EncodedSize(r);
    LegibleFrom(r, |RecordCodec.EncodeRecord(r)|);
  }

  predicate HasOwner(r: Record) {
    !Ownerless(r)
  }

  lemma LoadableExactly(r: Record)
    requires Proper(r)
    ensures Store.Loadable(r) <==> Legible(r) && HasOwner(r)
  {
    CheckedExactly(r);
    LegibleExactly(r);
  }

  lemma AllSplit(p: Record -> bool, q: Record -> bool, r: Record -> bool, recs: seq<Record>)
    requires forall x :: x in recs ==> (p(x) <==> q(x) && r(x))
    ensures AllHold(p, recs) <==> AllHold(q, recs) && AllHold(r, recs)
  {
    assert forall i :: 0 <= i < |recs| ==> recs[i] in recs;
  }

  lemma AllLoadable(recs: seq<Record>)
    requires forall i :: 0 <= i < |recs| ==> Proper(recs[i])
    ensures AllHold(Store.Loadable, recs) <==> AllHold(Legible, recs) && AllHold(HasOwner, recs)
  {
    forall x | x in recs
      ensures Store.Loadable(x) <==> Legible(x) && HasOwner(x)
    {
      LoadableExactly(x);
    }
    AllSplit(Store.Loadable, Legible, HasOwner, recs);
  }

  lemma ListedAreGood(m: Records)
    requires AllGood(m)
    ensures KeyedMap(m) && forall i :: 0 <= i < |ListingOf(m)| ==> Proper(ListingOf(m)[i])
  {
    ListingLists(m);
    forall i | 0 <= i < |ListingOf(m)|
      ensures Proper(ListingOf(m)[i])
    {
      assert ListingOf(m)[i].id in m;
    }
  }

  /** Not too many records, each within its bound and none a requested cancellation without attempts. */
  ghost predicate Reloadable(m: Records) {
    |ListingOf(m)| <= MAX_COUNT && AllHold(Legible, ListingOf(m)) && AllHold(HasOwner, ListingOf(m))
  }

  lemma ReloadsExactly(m: Records, e: U64)
    requires AllGood(m) && Storable(m)
    ensures FileContents(FileOf(m, e)) == if Reloadable(m) then Some((ListingOf(m), e)) else None
  {
    ListedAreGood(m);
    FileLoads(m, e);
    AllLoadable(ListingOf(m));
  }

  /**
   In every run from an installed machine, the file is the one written for the records that memory
   held after some k events, and it has not changed since; the next restart finds exactly those
   records or, if one of them is over a limit or a cancellation was requested for an execution
   without an attempt, nothing at all.
   */
  lemma RestartInEveryRun(epoch: U64, es: seq<Event>, again: U64) returns (k: nat)
    requires AllOk(NodeStep, DrawnOnDisk, Installed(epoch), es)
    requires RunAll(Installed(epoch), es).file.Some?
    ensures SavedLast(NodeStep, FileOf, Installed(epoch), es, k)
    ensures var m := RunAll(Installed(epoch), es[..k]).engine.records;
            Restarted(Disk(), RunAll(Installed(epoch), es), again).engine.records == if Reloadable(m) then m else map[]
  {
    DiskWrites();
    k := LastSave(NodeStep, FileOf, Installed(epoch), es);
    PrefixOk(NodeStep, DrawnOnDisk, Installed(epoch), es, k);
    SaneInEveryRun(epoch, es[..k]);
    StorableInEveryRun(epoch, es[..k]);
    var past := RunAll(Installed(epoch), es[..k]);
    RestartFrom(RunAll(Installed(epoch), es), again, past.engine.records, past.epoch);
  }

  lemma {:induction false} PrefixOk(next: Stepper, ok: (Node, Event) -> bool, n: Node, es: seq<Event>, k: nat)
    requires AllOk(next, ok, n, es) && k <= |es|
    ensures AllOk(next, ok, n, es[..k])
    decreases |es|
  {
    if k > 0 {
      PrefixOk(next, ok, next(n, es[0]).node, es[1..], k - 1);
      assert es[..k][0] == es[0] && es[..k][1..] == es[1..][..k - 1];
    }
  }

  ghost predicate StorableNode(n: Node) {
    Storable(n.engine.records)
  }

  lemma StorableInEveryRun(epoch: U64, es: seq<Event>)
    requires AllOk(NodeStep, DrawnOnDisk, Installed(epoch), es)
    ensures StorableNode(RunAll(Installed(epoch), es))
  {
    forall n: Node, e: Event | StorableNode(n) && DrawnOnDisk(n, e)
      ensures StorableNode(NodeStep(n, e).node)
    {
      assert Disk().fits(NextBy(Disk(), n, e).node.engine.records);
    }
    assert ListingOf(map[]) == [];
    HoldsInRun(NodeStep, DrawnOnDisk, StorableNode, Installed(epoch), es);
  }

  /** Right after a save, a restart has the records of memory if and only if they are all readable. */
  lemma RestartAfterSave(n: Node, again: U64)
    requires AllGood(n.engine.records) && Storable(n.engine.records)
    requires n.file == Some(FileOf(n.engine.records, n.epoch))
    ensures Restarted(Disk(), n, again).engine.records == n.engine.records <==> Reloadable(n.engine.records)
  {
    RestartFrom(n, again, n.engine.records, n.epoch);
    assert ListingOf(map[]) == [];
  }

  /** In particular after every message that is stored. */
  lemma RestartAfterMessage(n: Node, conn: nat, msg: Message, env: Env, again: U64)
    requires SaneOnDisk(n) && Saves(n, conn, msg, env) && E.FreshRun(n.engine, ActOps(n, conn, msg, env))
    requires Storable(Act(Disk(), n, conn, msg, env).node.engine.records)
    ensures var after := Act(Disk(), n, conn, msg, env).node;
            Restarted(Disk(), after, again).engine.records == after.engine.records <==> Reloadable(after.engine.records)
  {
    var after := Act(Disk(), n, conn, msg, env).node;
    SavesExactly(Disk(), n, conn, msg, env);
    ActKeepsSane(Disk(), n, conn, msg, env);
    RestartAfterSave(after, again);
  }

  lemma RestartFrom(n: Node, again: U64, m: Records, e: U64)
    requires n.file == Some(FileOf(m, e)) && AllGood(m) && Storable(m)
    ensures Restarted(Disk(), n, again).engine.records == if Reloadable(m) then m else map[]
  {
    ReloadsExactly(m, e);
    RestartOver(Disk(), n, again, m, e, Reloadable(m));
  }

  lemma RestartOver(md: Medium, n: Node, again: U64, m: Records, e: U64, loads: bool)
    requires KeyedMap(m) && n.file == Some(md.save(m, e))
    requires md.load(md.save(m, e)) == if loads then Some((ListingOf(m), e)) else None
    ensures Restarted(md, n, again).engine.records == if loads then m else map[]
  {
    EmplacedOfListing(m);
  }

  // ------------------------------------------------------------------------------------------
  // The lost store: a cancellation requested before the first dispatch.
  // ------------------------------------------------------------------------------------------

  lemma OwnerlessIsUnreadable(r: Record)
    requires Ownerless(r)
    ensures !Store.Loadable(r)
  {}

  lemma OneSpoilsAll(p: Record -> bool, recs: seq<Record>, r: Record)
    requires r in recs && !p(r)
    ensures !AllHold(p, recs)
  {}

  lemma OwnerlessSpoilsFile(m: Records, e: U64, id: ExecutionId)
    requires KeyedMap(m) && Storable(m) && id in m && Ownerless(m[id])
    ensures FileContents(FileOf(m, e)).None?
  {
    FileLoads(m, e);
    ListingLists(m);
    OwnerlessIsUnreadable(m[id]);
    OneSpoilsAll(Store.Loadable, ListingOf(m), m[id]);
  }

  lemma CancelMakesOwnerless(s: E.State, r: ControlRequest)
    requires r.executionId in s.records
    requires var rec := s.records[r.executionId];
             && rec.state == READY && rec.attempts == [] && !E.Differs(r.epoch, s.epoch, rec)
             && r.authority == rec.ownership
    ensures var after := E.Step(s, E.Cancel(r));
            after.code == ALLOW && r.executionId in after.state.records && Ownerless(after.state.records[r.executionId])
  {
    R.StepOnTarget(s, E.Cancel(r), r.executionId);
  }

  /**
   Durability needs its condition: cancelling one execution that is ready and was never
   dispatched is granted, and then a restart finds no execution at all, committed or not.
   */
  lemma CancelBeforeDispatchLosesAll(n: Node, conn: nat, r: ControlRequest, env: Env, epoch: U64)
    requires Base(n) && Storable(Act(Disk(), n, conn, Cancels(r), env).node.engine.records)
    requires r.executionId in n.engine.records
    requires var rec := n.engine.records[r.executionId];
             && rec.state == READY && rec.attempts == [] && !E.Differs(r.epoch, n.engine.epoch, rec)
             && r.authority == rec.ownership
    ensures var after := Act(Disk(), n, conn, Cancels(r), env);
            && after.sent == [Decided(conn, P.CANCEL_ACK, ALLOW)]
            && Restarted(Disk(), after.node, epoch).engine == E.Empty(epoch)
  {
    var op := E.Cancel(r);
    var s := E.Step(n.engine, op);
    CancelMakesOwnerless(n.engine, r);
    StepIsRun(n.engine, op, s);
    KeyedForever(n.engine, [op]);
    SavedIsSpoilt(n.(engine := s.state), r.executionId);
    SpoiltRestart(Disk(), n, conn, r, env, epoch, s);
  }

  function Ready(e: U64, id: ExecutionId, now: Text): Record {
    E.NewRecord(id, e, now).(ownership := 1, fence := 1, state := READY)
  }

  lemma SubmitMakesReady(md: Medium, e: U64, id: ExecutionId, conn: nat, env: Env)
    ensures Act(md, Installed(e), conn, Submits(M.EpochRequest(id, e)), env).node.engine ==
            E.State(e, map[id := Ready(e, id, env.now)])
  {}

  lemma OneListed(r: Record, p: Record -> bool)
    requires p(r)
    ensures AllHold(p, ListingOf(map[r.id := r]))
  {
    var m: Records := map[r.id := r];
    ListingLists(m);
    forall i | 0 <= i < |ListingOf(m)|
      ensures p(ListingOf(m)[i])
    {
      assert ListingOf(m)[i].id in m;
    }
  }

  predicate Small(r: Record) {
    && Wordless(r.attempts) && |r.attempts| <= 2
    && |r.createdAt| <= MAX_STRING && |r.committedAt| <= MAX_STRING
  }

  lemma SmallSize(r: Record)
    requires Small(r)
    ensures RecordCodec.RecordBytes(r) <= 460 + |r.createdAt| + |r.committedAt|
  {
    LegibleCounts(r);
    FewDelivered(r.attempts);
  }

  lemma {:induction false} FewDelivered(ats: seq<Attempt>)
    ensures RecordCodec.Delivered(ats) <= |ats|
  {
    if ats != [] {
      FewDelivered(ats[1..]);
    }
  }

  lemma SmallEncoding(r: Record)
    requires Small(r)
    ensures |RecordCodec.EncodeRecord(r)| < U32
  {
    SmallSize(r);
    RecordCodec.EncodedSize(r);
  }

  lemma SmallTexts(r: Record)
    requires Small(r)
    ensures RecordCodec.Fits(r)
  {
    WordlessReads(r.attempts);
  }

  lemma SmallFits(r: Record)
    requires Small(r)
    ensures Store.StoredFits(r)
  {
    SmallEncoding(r);
    SmallTexts(r);
  }

  lemma OneIsStorable(r: Record)
    requires Small(r)
    ensures Storable(map[r.id := r])
  {
    SmallFits(r);
    OneListed(r, Store.StoredFits);
  }

  lemma CancelOfReady(s: E.State, id: ExecutionId, e: U64, now: Text, r: ControlRequest)
    requires s == E.State(e, map[id := Ready(e, id, now)])
    requires r.executionId == id && r.epoch == e && r.authority == 1
    ensures E.Step(s, E.Cancel(r)).state.records ==
            map[id := Ready(e, id, now).(cancellation := 1, state := CANCELLATION_REQUESTED)]
  {}

  /** The shortest such run: submit one execution to an installed machine, cancel it, restart. */
  lemma SubmitThenCancelLosesAll(e: U64, id: ExecutionId, conn: nat, env: Env, again: U64, r: ControlRequest)
    requires |env.now| <= MAX_STRING && r.executionId == id && r.epoch == e && r.authority == 1
    ensures var n := Act(Disk(), Installed(e), conn, Submits(M.EpochRequest(id, e)), env).node;
            var after := Act(Disk(), n, conn, Cancels(r), env);
            && id in n.engine.records
            && after.sent == [Decided(conn, P.CANCEL_ACK, ALLOW)]
            && Restarted(Disk(), after.node, again).engine == E.Empty(again)
  {
    var n := Act(Disk(), Installed(e), conn, Submits(M.EpochRequest(id, e)), env).node;
    SubmitMakesReady(Disk(), e, id, conn, env);
    CancelOfReady(n.engine, id, e, env.now, r);
    OneIsStorable(Ready(e, id, env.now).(cancellation := 1, state := CANCELLATION_REQUESTED));
    CancelledRecords(Disk(), n, conn, r, env);
    CancelBeforeDispatchLosesAll(n, conn, r, env, again);
  }

  lemma CancelledRecords(md: Medium, n: Node, conn: nat, r: ControlRequest, env: Env)
    ensures Act(md, n, conn, Cancels(r), env).node.engine == E.Step(n.engine, E.Cancel(r)).state
  {}

  lemma SpoiltRestart(md: Medium, n: Node, conn: nat, r: ControlRequest, env: Env, epoch: U64, s: E.Result)
    requires s == E.Step(n.engine, E.Cancel(r)) && s.code == ALLOW && md.load(md.save(s.state.records, n.epoch)).None?
    ensures var after := Act(md, n, conn, Cancels(r), env);
            && after.sent == [Decided(conn, P.CANCEL_ACK, ALLOW)]
            && Restarted(md, after.node, epoch).engine == E.Empty(epoch)
  {}

  lemma {:induction false} OwnerlessInRun(s: E.State, ops: seq<E.Op>, id: ExecutionId)
    requires id in s.records && Good(s.records[id], true) && Ownerless(s.records[id])
    requires forall op :: op in ops ==> !op.Supersede? && !op.FinalizeCancel?
    ensures id in E.Run(s, ops).records && E.Run(s, ops).records[id] == s.records[id]
    decreases |ops|
  {
    if ops != [] {
      if R.Touches(ops[0], id) {
        R.StepOnTarget(s, ops[0], id);
        OwnerlessKept(s.epoch, s.records[id], ops[0]);
      } else {
        R.StepIsLocal(s, ops[0], id);
      }
      OwnerlessInRun(E.Step(s, ops[0]).state, ops[1..], id);
    }
  }

  /** Memory holds an ownerless record and the file does not load. */
  ghost predicate Spoilt(n: Node, id: ExecutionId) {
    && KeyedMap(n.engine.records)
    && id in n.engine.records && Good(n.engine.records[id], true) && Ownerless(n.engine.records[id])
    && n.file.Some? && FileContents(n.file.value).None?
  }

  ghost predicate Carries(n: Node, e: Event) {
    !e.Restart? && Storable(NodeAfter(Disk(), n, e).engine.records)
  }

  lemma FollowsKeepsSpoilt(n: Node, after: Node, ops: seq<E.Op>, id: ExecutionId)
    requires Spoilt(n, id) && Follows(Disk(), n, after, ops) && Storable(after.engine.records)
    requires forall op :: op in ops ==> !op.Supersede? && !op.FinalizeCancel?
    ensures Spoilt(after, id)
  {
    OwnerlessInRun(n.engine, ops, id);
    KeyedForever(n.engine, ops);
    SavedIsSpoilt(after, id);
  }

  lemma SavedIsSpoilt(n: Node, id: ExecutionId)
    requires KeyedMap(n.engine.records) && Storable(n.engine.records)
    requires id in n.engine.records && Ownerless(n.engine.records[id])
    ensures FileContents(Disk().save(n.engine.records, n.epoch)).None?
  {
    OwnerlessSpoilsFile(n.engine.records, n.epoch, id);
  }

  lemma NextKeepsSpoilt(n: Node, e: Event, id: ExecutionId)
    requires Spoilt(n, id) && Carries(n, e)
    ensures Spoilt(NodeAfter(Disk(), n, e), id)
  {
    if e.Inbound? && n.up {
      var msg := Parsed(e.kind, e.payload);
      ActFollows(Disk(), n, e.conn, msg, e.env);
      var ops := ActOps(n, e.conn, msg, e.env);
      forall op | op in ops
        ensures !op.Supersede? && !op.FinalizeCancel?
      {
        NoSupersession(n, e.conn, msg, e.env, op);
      }
      FollowsKeepsSpoilt(n, Act(Disk(), n, e.conn, msg, e.env).node, ops, id);
    }
  }

  /** No later message repairs the file: the coordinator never finalises such a cancellation. */
  lemma SpoiltForever(n: Node, es: seq<Event>, id: ExecutionId)
    requires Spoilt(n, id) && AllOk(NodeStep, Carries, n, es)
    ensures Spoilt(RunAll(n, es), id)
  {
    var base := (x: Node) => Spoilt(x, id);
    forall x: Node, e: Event | base(x) && Carries(x, e)
      ensures base(NodeStep(x, e).node)
    {
      NextKeepsSpoilt(x, e, id);
    }
    HoldsInRun(NodeStep, Carries, base, n, es);
  }

  /** A cancel request that is granted to an execution that is ready and was never dispatched. */
  predicate CancelsUndispatched(s: E.State, r: ControlRequest) {
    && r.executionId in s.records
    && var rec := s.records[r.executionId];
       && rec.state == READY && rec.attempts == [] && !E.Differs(r.epoch, s.epoch, rec) && r.authority == rec.ownership
  }

  lemma CancelTaken(md: Medium, n: Node, conn: nat, r: ControlRequest, env: Env, s: E.State)
    requires s == E.Step(n.engine, E.Cancel(r)).state
    ensures Act(md, n, conn, Cancels(r), env).node == n.(engine := s, file := Some(md.save(s.records, n.epoch)))
  {}

  lemma CancelledIsGood(s: E.State, r: ControlRequest)
    requires KeyedMap(s.records) && CancelsUndispatched(s, r) && Good(s.records[r.executionId], true)
    ensures var after := E.Step(s, E.Cancel(r)).state.records;
            && KeyedMap(after) && r.executionId in after
            && Good(after[r.executionId], true) && Ownerless(after[r.executionId])
  {
    CancelMakesOwnerless(s, r);
    R.StepOnTarget(s, E.Cancel(r), r.executionId);
    CancelKeeps(s.epoch, s.records[r.executionId], true, r);
    StepIsRun(s, E.Cancel(r), E.Step(s, E.Cancel(r)));
    KeyedForever(s, [E.Cancel(r)]);
  }

  lemma CancelSpoils(n: Node, conn: nat, r: ControlRequest, env: Env, after: Node)
    requires KeyedMap(n.engine.records) && CancelsUndispatched(n.engine, r) && Good(n.engine.records[r.executionId], true)
    requires after == Act(Disk(), n, conn, Cancels(r), env).node && Storable(after.engine.records)
    ensures Spoilt(after, r.executionId)
  {
    var s := E.Step(n.engine, E.Cancel(r)).state;
    CancelledIsGood(n.engine, r);
    CancelTaken(Disk(), n, conn, r, env, s);
    SavedIsSpoilt(n.(engine := s), r.executionId);
  }

  /** From that cancel on, whatever messages follow, a restart starts empty. */
  lemma CancelSpoilsForever(n: Node, conn: nat, r: ControlRequest, env: Env, after: Node, es: seq<Event>, epoch: U64)
    requires KeyedMap(n.engine.records) && CancelsUndispatched(n.engine, r) && Good(n.engine.records[r.executionId], true)
    requires after == Act(Disk(), n, conn, Cancels(r), env).node && Storable(after.engine.records)
    requires AllOk(NodeStep, Carries, after, es)
    ensures Spoilt(RunAll(after, es), r.executionId)
    ensures Restarted(Disk(), RunAll(after, es), epoch).engine == E.Empty(epoch)
  {
    CancelSpoils(n, conn, r, env, after);
    SpoiltForever(after, es, r.executionId);
    UnloadableRestart(Disk(), RunAll(after, es), epoch);
  }

  lemma UnloadableRestart(md: Medium, n: Node, epoch: U64)
    requires n.file.Some? && md.load(n.file.value).None?
    ensures Restarted(md, n, epoch).engine == E.Empty(epoch)
  {}
}
