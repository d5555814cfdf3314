/** Which records of the engine the durable store can read back. */
module Recovery {
  import opened Types
  import opened EngineSpec
  import opened EngineInvariants
  import opened EngineRuns
  import opened RecordCodec

  /** A cancellation requested before anything was dispatched: no attempt, no owner. */
  predicate Ownerless(rec: Record) {
    rec.state == CANCELLATION_REQUESTED && rec.attempts == []
  }

  lemma GoodIsChecked(rec: Record)
    requires Good(rec, true) && !Ownerless(rec)
    ensures CrossChecks(rec)
  {
    if rec.current.Some? {
      assert rec.attempts[|rec.attempts| - 1].id == rec.current.value;
    }
  }

  /** Of the records the engine can build without supersession, the reader refuses exactly the ownerless ones. */
  lemma CheckedExactly(rec: Record)
    requires Good(rec, true)
    ensures CrossChecks(rec) <==> !Ownerless(rec)
  {
    if !Ownerless(rec) {
      GoodIsChecked(rec);
    }
  }

  lemma CheckedInEveryRun(epoch: U64, ops: seq<Op>, id: ExecutionId)
    requires FreshRun(Empty(epoch), ops) && NeverBreaks(Empty(epoch), ops, id)
    requires id in Run(Empty(epoch), ops).records
    ensures var rec := Run(Empty(epoch), ops).records[id];
            CrossChecks(rec) <==> !Ownerless(rec)
  {
    RunKeepsGood(Empty(epoch), ops, id, true);
    CheckedExactly(Run(Empty(epoch), ops).records[id]);
  }

  /** An ownerless record is left by nothing but the finalisation of the cancellation and supersession. */
  lemma OwnerlessKept(engine: U64, rec: Record, op: Op)
    requires Good(rec, true) && Ownerless(rec) && !op.FinalizeCancel? && !op.Supersede?
    ensures OnRecord(engine, rec, op).rec == rec
  {}
}
