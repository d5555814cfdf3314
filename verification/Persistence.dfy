/** Saving and loading as the program does them: field by field into a writer, field by field off a reader. */
module Persistence {
  import opened Types
  import opened Binary
  import opened Streams
  import opened RecordCodec
  import opened Listing
  import Checksum
  import Store

  // ------------------------------------------------------------------------------------------
  // Writing a record.
  // ------------------------------------------------------------------------------------------

  method WriteKey(w: ByteWriter, a: Attempt)
    modifies w
    ensures forall k: seq<byte> {:trigger w.buf + k} :: w.buf + k == old(w.buf) + PutKey(KeyOf(a), k)
  {
    w.Uuid(a.id);
    w.Quad(a.generation);
    w.Uuid(a.worker);
    w.Uuid(a.boot);
    w.Uuid(a.dispatchId);
    w.Quad(a.dispatchGeneration);
    w.Quad(a.ownership);
    w.Quad(a.fence);
  }

  method WriteFate(w: ByteWriter, a: Attempt)
    modifies w
    ensures forall k: seq<byte> {:trigger w.buf + k} :: w.buf + k == old(w.buf) + PutFate(FateOf(a), k)
  {
    w.U8(StateByte(a.stateAtDispatch));
    w.U8(AttemptStateByte(a.state));
    w.OptDigest(a.resultDigest);
    w.OptText(a.resultPayload);
    w.OptText(a.failureReason);
  }

  method WriteAttempt(w: ByteWriter, a: Attempt)
    modifies w
    ensures Appends(PutAttempt, a, old(w.buf), w.buf)
  {
    WriteKey(w, a);
    WriteFate(w, a);
  }

  method WriteAttempts(w: ByteWriter, ats: seq<Attempt>)
    modifies w
    ensures forall k: seq<byte> {:trigger w.buf + k} :: w.buf + k == old(w.buf) + PutList(PutAttempt, ats, k)
  {
    w.Word(|ats|);
    ghost var start := w.buf;
    for i := 0 to |ats|
      invariant Midway(PutAttempt, ats, i, start, w.buf)
    {
      ghost var before := w.buf;
      WriteAttempt(w, ats[i]);
      OneWritten(PutAttempt, ats, i, start, before, w.buf);
    }
    forall k: seq<byte>
      ensures w.buf + k == start + PutMany(PutAttempt, ats, k)
    {
      NoneLeft(PutAttempt, ats, start, w.buf, k);
    }
  }

  method WriteFront(w: ByteWriter, rec: Record)
    modifies w
    ensures forall k: seq<byte> {:trigger w.buf + k} :: w.buf + k == old(w.buf) + PutFront(FrontOf(rec), k)
  {
    w.Uuid(rec.id);
    w.Quad(rec.generation);
    w.U8(StateByte(rec.state));
    w.Quad(rec.epoch);
    w.Quad(rec.ownership);
    w.Quad(rec.fence);
  }

  method WriteNames(w: ByteWriter, rec: Record)
    modifies w
    ensures forall k: seq<byte> {:trigger w.buf + k} :: w.buf + k == old(w.buf) + PutNames(NamesOf(rec), k)
  {
    w.OptUuid(rec.current);
    w.OptQuad(rec.currentGeneration);
    w.OptUuid(rec.owner);
    w.OptUuid(rec.ownerBoot);
  }

  method WriteCounts(w: ByteWriter, rec: Record)
    modifies w
    ensures forall k: seq<byte> {:trigger w.buf + k} :: w.buf + k == old(w.buf) + PutCounts(CountsOf(rec), k)
  {
    w.Quad(rec.cancellation);
    w.Quad(rec.preemption);
    w.Quad(rec.resumption);
    w.Quad(rec.completion);
    w.Quad(rec.commit);
    w.OptDigest(rec.committedDigest);
  }

  method EncodeRecord(rec: Record) returns (b: seq<byte>)
    ensures b == RecordCodec.EncodeRecord(rec)
  {
    var w := new ByteWriter();
    WriteFront(w, rec);
    WriteNames(w, rec);
    WriteCounts(w, rec);
    WriteAttempts(w, rec.attempts);
    w.Text(rec.createdAt);
    w.Text(rec.committedAt);
    assert w.buf + [] == RecordCodec.EncodeRecord(rec);
    return w.buf;
  }

  // ------------------------------------------------------------------------------------------
  // Reading a record.
  // ------------------------------------------------------------------------------------------

  method ReadState(r: ByteReader) returns (s: Option<ExecutionState>)
    requires Ready(r)
    modifies r
    ensures Took(GetState(old(r.Rest())), s, r)
  {
    var v :- r.U8();
    s := StateOf(v);
  }

  method ReadAttemptState(r: ByteReader) returns (s: Option<AttemptState>)
    requires Ready(r)
    modifies r
    ensures Took(GetAttemptState(old(r.Rest())), s, r)
  {
    var v :- r.U8();
    s := AttemptStateOf(v);
  }

  method ReadKey(r: ByteReader) returns (a: Option<Key>)
    requires Ready(r)
    modifies r
    ensures Took(GetKey(old(r.Rest())), a, r)
  {
    var id :- r.Uuid();
    var generation :- r.Quad();
    var worker :- r.Uuid();
    var boot :- r.Uuid();
    var dispatchId :- r.Uuid();
    var dispatchGeneration :- r.Quad();
    var ownership :- r.Quad();
    var fence :- r.Quad();
    return Some(Key(id, generation, worker, boot, dispatchId, dispatchGeneration, ownership, fence));
  }

  method ReadFate(r: ByteReader) returns (a: Option<Fate>)
    requires Ready(r)
    modifies r
    ensures Took(GetFate(old(r.Rest())), a, r)
  {
    var stateAtDispatch :- ReadState(r);
    var state :- ReadAttemptState(r);
    var resultDigest :- r.OptDigest();
    var resultPayload :- r.OptText();
    var failureReason :- r.OptText();
    return Some(Fate(stateAtDispatch, state, resultDigest, resultPayload, failureReason));
  }

  method ReadAttempt(r: ByteReader) returns (a: Option<Attempt>)
    requires Ready(r)
    modifies r
    ensures Took(GetAttempt(old(r.Rest())), a, r)
  {
    var w :- ReadKey(r);
    var f :- ReadFate(r);
    return Some(Attempt(w.id, w.generation, w.worker, w.boot, w.dispatchId, w.dispatchGeneration, w.ownership,
                        w.fence, f.stateAtDispatch, f.state, f.resultDigest, f.resultPayload, f.failureReason));
  }

  /** get is the reader of an attempt; At names the places where that matters. */
  ghost predicate ReadsAttempt(get: seq<byte> -> Parse<Attempt>) {
    forall b: seq<byte> {:trigger At(b)} :: At(b) ==> get(b) == GetAttempt(b)
  }

  ghost predicate At(b: seq<byte>) {
    true
  }

  method ReadAsAttempt(r: ByteReader, ghost get: seq<byte> -> Parse<Attempt>) returns (a: Option<Attempt>)
    requires Ready(r) && ReadsAttempt(get)
    modifies r
    ensures Took(get(old(r.Rest())), a, r)
  {
    assert At(r.Rest());
    a := ReadAttempt(r);
  }

  method ReadMany(r: ByteReader, n: nat, ghost get: seq<byte> -> Parse<Attempt>) returns (ats: Option<seq<Attempt>>)
    requires Ready(r) && ReadsAttempt(get)
    modifies r
    ensures Took(GetMany(get, n, old(r.Rest())), ats, r)
  {
    var xs := [];
    ghost var all := GetMany(get, n, r.Rest());
    OnwardEnds(get, n, r.Rest());
    for i := 0 to n
      invariant Ready(r)
      invariant all == Onward(get, xs, n - i, r.Rest())
    {
      OneRead(get, xs, n - i, r.Rest());
      var a :- ReadAsAttempt(r, get);
      xs := xs + [a];
    }
    OnwardDone(get, xs, r.Rest());
    return Some(xs);
  }

  method ReadAttempts(r: ByteReader) returns (ats: Option<seq<Attempt>>)
    requires Ready(r)
    modifies r
    ensures Took(GetList(GetAttempt, old(r.Rest())), ats, r)
  {
    var n :- r.Num(4);
    if n > MAX_COUNT {
      return None;
    }
    ats := ReadMany(r, n, GetAttempt);
  }

  method ReadFront(r: ByteReader) returns (f: Option<Front>)
    requires Ready(r)
    modifies r
    ensures Took(GetFront(old(r.Rest())), f, r)
  {
    var id :- r.Uuid();
    var generation :- r.Quad();
    var state :- ReadState(r);
    var epoch :- r.Quad();
    var ownership :- r.Quad();
    var fence :- r.Quad();
    return Some(Front(id, generation, state, epoch, ownership, fence));
  }

  method ReadNames(r: ByteReader) returns (n: Option<Names>)
    requires Ready(r)
    modifies r
    ensures Took(GetNames(old(r.Rest())), n, r)
  {
    var current :- r.OptUuid();
    var currentGeneration :- r.OptQuad();
    var owner :- r.OptUuid();
    var ownerBoot :- r.OptUuid();
    return Some(Names(current, currentGeneration, owner, ownerBoot));
  }

  method ReadCounts(r: ByteReader) returns (c: Option<Counts>)
    requires Ready(r)
    modifies r
    ensures Took(GetCounts(old(r.Rest())), c, r)
  {
    var cancellation :- r.Quad();
    var preemption :- r.Quad();
    var resumption :- r.Quad();
    var completion :- r.Quad();
    var commit :- r.Quad();
    var committedDigest :- r.OptDigest();
    return Some(Counts(cancellation, preemption, resumption, completion, commit, committedDigest));
  }

  method ReadTail(r: ByteReader) returns (t: Option<Tail>)
    requires Ready(r)
    modifies r
    ensures Took(GetTail(old(r.Rest())), t, r)
  {
    var attempts :- ReadAttempts(r);
    var createdAt :- r.Text();
    var committedAt :- r.Text();
    return Some(Tail(attempts, createdAt, committedAt));
  }

  method ReadRecord(r: ByteReader) returns (rec: Option<Record>)
    requires Ready(r)
    modifies r
    ensures Took(GetRecord(old(r.Rest())), rec, r)
  {
    var front :- ReadFront(r);
    var names :- ReadNames(r);
    var counts :- ReadCounts(r);
    var tail :- ReadTail(r);
    return Some(Assemble(front, names, counts, tail));
  }

  /** Identities are unique and generations set, as the two sets and the flags are kept. */
  method CheckHistory(ats: seq<Attempt>) returns (valid: bool)
    ensures valid == HistoryChecks(ats)
  {
    var ids: set<AttemptId>, dispatches: set<DispatchId> := {}, {};
    for i := 0 to |ats|
      invariant forall x :: x in ids <==> exists j :: 0 <= j < i && ats[j].id == x
      invariant forall x :: x in dispatches <==> exists j :: 0 <= j < i && ats[j].dispatchId == x
      invariant HistoryChecks(ats[..i])
    {
      ghost var before, after := ats[..i], ats[..i + 1];
      if ats[i].id in ids || ats[i].dispatchId in dispatches || ats[i].generation == 0 || ats[i].dispatchGeneration == 0 {
        return false;
      }
      ids := ids + {ats[i].id};
      dispatches := dispatches + {ats[i].dispatchId};
    }
    assert ats[..|ats|] == ats;
    return true;
  }

  /** A named current attempt is looked up in the history. */
  method CheckCurrent(rec: Record) returns (valid: bool)
    requires HistoryChecks(rec.attempts)
    ensures valid == CurrentChecks(rec)
  {
    if rec.current.None? {
      return true;
    }
    var found := false;
    for i := 0 to |rec.attempts|
      invariant found ==> exists j :: 0 <= j < i && rec.attempts[j].id == rec.current.value
                                      && (rec.currentGeneration.Some? ==> rec.attempts[j].generation == rec.currentGeneration.value)
      invariant !found ==> forall j :: 0 <= j < i ==> rec.attempts[j].id != rec.current.value
    {
      if rec.attempts[i].id == rec.current.value {
        if found {
          return false;
        }
        found := true;
        if rec.currentGeneration.Some? && rec.attempts[i].generation != rec.currentGeneration.value {
          return false;
        }
      }
    }
    return found && rec.currentGeneration.Some?;
  }

  method DecodeRecord(b: seq<byte>) returns (rec: Option<Record>)
    ensures rec == RecordCodec.DecodeRecord(b)
  {
    var r := new ByteReader(b);
    var x :- ReadRecord(r);
    if r.pos != |r.data| || x.generation == 0 {
      return None;
    }
    var history := CheckHistory(x.attempts);
    if !history {
      return None;
    }
    var current := CheckCurrent(x);
    if !current || !StateChecks(x) {
      return None;
    }
    return Some(x);
  }

  // ------------------------------------------------------------------------------------------
  // The file.
  // ------------------------------------------------------------------------------------------

  method WriteStored(w: ByteWriter, rec: Record)
    modifies w
    ensures Appends(Store.PutStored, rec, old(w.buf), w.buf)
  {
    var payload := EncodeRecord(rec);
    var crc := Checksum.CrcOf(payload);
    w.Word(|payload|);
    w.Quad(crc);
    w.Bytes(payload);
  }

  method WriteRecords(w: ByteWriter, recs: seq<Record>)
    modifies w
    ensures forall k: seq<byte> {:trigger w.buf + k} :: w.buf + k == old(w.buf) + PutList(Store.PutStored, recs, k)
  {
    w.Word(|recs|);
    ghost var start := w.buf;
    for i := 0 to |recs|
      invariant Midway(Store.PutStored, recs, i, start, w.buf)
    {
      ghost var before := w.buf;
      WriteStored(w, recs[i]);
      OneWritten(Store.PutStored, recs, i, start, before, w.buf);
    }
    forall k: seq<byte>
      ensures w.buf + k == start + PutMany(Store.PutStored, recs, k)
    {
      NoneLeft(Store.PutStored, recs, start, w.buf, k);
    }
  }

  method WriteBody(recs: seq<Record>, epoch: U64) returns (body: seq<byte>)
    ensures body == Store.SaveBody(recs, epoch)
  {
    var w := new ByteWriter();
    w.Bytes(Store.MAGIC);
    w.Word(Store.VERSION);
    w.Quad(epoch);
    WriteRecords(w, recs);
    assert w.buf + [] == Store.SaveBody(recs, epoch);
    return w.buf;
  }

  method WriteTrailer(w: ByteWriter, crc: U64)
    requires w.buf == []
    modifies w
    ensures w.buf == PutBytes(Store.TRAILER, PutU64(crc, []))
  {
    w.Bytes(Store.TRAILER);
    w.Quad(crc);
    assert w.buf + [] == PutBytes(Store.TRAILER, PutU64(crc, []));
  }

  method Seal(body: seq<byte>) returns (out: seq<byte>)
    ensures out == Store.Sealed(body)
  {
    var crc := Checksum.CrcOf(body);
    var w := new ByteWriter();
    WriteTrailer(w, crc);
    return body + w.buf;
  }

  /** The bytes that go to the file. */
  method Save(recs: seq<Record>, epoch: U64) returns (out: seq<byte>)
    ensures out == Store.Save(recs, epoch)
  {
    var body := WriteBody(recs, epoch);
    out := Seal(body);
  }

  method ReadStored(r: ByteReader) returns (rec: Option<Record>)
    requires Ready(r)
    modifies r
    ensures Took(Store.GetStored(old(r.Rest())), rec, r)
  {
    var n :- r.Num(4);
    if n == 0 || n > Store.MAX_RECORD || |r.data| - r.pos < n + 8 {
      return None;
    }
    var crc :- r.Quad();
    var payload :- r.Take(n);
    var computed := Checksum.CrcOf(payload);
    if computed != crc {
      return None;
    }
    rec := DecodeRecord(payload);
  }

  ghost function IdsOf(xs: seq<Record>): set<ExecutionId> {
    set i | 0 <= i < |xs| :: xs[i].id
  }

  ghost predicate Usable(p: Parse<seq<Record>>) {
    p.Ok? && DistinctRecords(p.value)
  }

  lemma OneMoreRecord(xs: seq<Record>, a: Record)
    requires DistinctRecords(xs)
    ensures IdsOf(xs + [a]) == IdsOf(xs) + {a.id}
    ensures a.id !in IdsOf(xs) <==> DistinctRecords(xs + [a])
  {
    var ys := xs + [a];
    forall x | x in IdsOf(xs) + {a.id}
      ensures x in IdsOf(ys)
    {
      if x == a.id {
        assert ys[|xs|].id == x;
      } else {
        var i :| 0 <= i < |xs| && xs[i].id == x;
        assert ys[i].id == x;
      }
    }
    if a.id in IdsOf(xs) {
      var i :| 0 <= i < |xs| && xs[i].id == a.id;
      assert ys[i].id == ys[|xs|].id;
    }
  }

  lemma RepeatStays(get: seq<byte> -> Parse<Record>, xs: seq<Record>, n: nat, b: seq<byte>)
    requires !DistinctRecords(xs)
    ensures !Usable(Onward(get, xs, n, b))
  {
    if Onward(get, xs, n, b).Ok? {
      OnwardKeeps(get, xs, n, b);
    }
  }

  /** get is the reader of a stored record. */
  ghost predicate ReadsStored(get: seq<byte> -> Parse<Record>) {
    forall b: seq<byte> {:trigger At(b)} :: At(b) ==> get(b) == Store.GetStored(b)
  }

  method ReadAsStored(r: ByteReader, ghost get: seq<byte> -> Parse<Record>) returns (rec: Option<Record>)
    requires Ready(r) && ReadsStored(get)
    modifies r
    ensures Took(get(old(r.Rest())), rec, r)
  {
    assert At(r.Rest());
    rec := ReadStored(r);
  }

  /** The records of the file, given up at the first one that repeats an identity. */
  method ReadRecords(r: ByteReader, n: nat, ghost get: seq<byte> -> Parse<Record>) returns (recs: Option<seq<Record>>)
    requires Ready(r) && ReadsStored(get)
    modifies r
    ensures r.Valid()
    ensures var p := GetMany(get, n, old(r.Rest()));
            if Usable(p) then recs == Some(p.value) && r.Rest() == p.rest else recs.None?
  {
    var xs := [];
    var ids: set<ExecutionId> := {};
    ghost var all := GetMany(get, n, r.Rest());
    OnwardEnds(get, n, r.Rest());
    for i := 0 to n
      invariant Ready(r) && DistinctRecords(xs) && ids == IdsOf(xs)
      invariant all == Onward(get, xs, n - i, r.Rest())
    {
      OneRead(get, xs, n - i, r.Rest());
      var a :- ReadAsStored(r, get);
      OneMoreRecord(xs, a);
      xs := xs + [a];
      if a.id in ids {
        RepeatStays(get, xs, n - i - 1, r.Rest());
        return None;
      }
      ids := ids + {a.id};
    }
    OnwardDone(get, xs, r.Rest());
    return Some(xs);
  }

  method CheckSeal(bytes: seq<byte>) returns (holds: bool)
    ensures holds == Store.SealHolds(bytes)
  {
    if |bytes| < Store.MIN_SIZE {
      return false;
    }
    var t := |bytes| - Store.TRAILER_SIZE;
    if bytes[t..t + 8] != Store.TRAILER {
      return false;
    }
    var r := new ByteReader(bytes[t + 8..]);
    var crc := r.Quad();
    var computed := Checksum.CrcOf(bytes[..t]);
    return crc == Some(computed);
  }

  method ReadBody(r: ByteReader) returns (p: Option<(seq<Record>, U64)>)
    requires Ready(r)
    modifies r
    ensures var body := Store.GetBody(old(r.Rest()));
            p == if body.Ok? && DistinctRecords(body.value.0) then Some(body.value) else None
  {
    var magic :- r.Take(8);
    if magic != Store.MAGIC {
      return None;
    }
    var version :- r.Num(4);
    if version != Store.VERSION {
      return None;
    }
    var epoch :- r.Quad();
    var n :- r.Num(4);
    if n > MAX_COUNT {
      return None;
    }
    var recs :- ReadRecords(r, n, Store.GetStored);
    if r.pos != |r.data| {
      return None;
    }
    return Some((recs, epoch));
  }

  method Load(bytes: seq<byte>) returns (p: Option<(seq<Record>, U64)>)
    ensures p == Store.Load(bytes)
  {
    var sealed := CheckSeal(bytes);
    if !sealed {
      return None;
    }
    var r := new ByteReader(bytes[..|bytes| - Store.TRAILER_SIZE]);
    p := ReadBody(r);
  }
}
