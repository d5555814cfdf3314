/** The stored and the transmitted bytes themselves: which value stands at which place, in which order of bytes. */
module Layout {
  import opened Types
  import opened Binary
  import Codec = RecordCodec
  import Store
  import P = Protocol
  import M = Messages
  import Checksum

  // ------------------------------------------------------------------------------------------
  // Numbers.
  // ------------------------------------------------------------------------------------------

  /** n bytes whose i-th is the digit of v at 256^i. */
  function Little(v: nat, n: nat): (s: seq<byte>)
    ensures |s| == n
  {
    seq(n, i requires 0 <= i => v / Pow256(i) % 256)
  }

  /** n bytes whose last is the digit of v at 256^0. */
  function Big(v: nat, n: nat): (s: seq<byte>)
    ensures |s| == n
  {
    seq(n, i requires 0 <= i < n => v / Pow256(n - 1 - i) % 256)
  }

  lemma AtLeastOnce(d: nat, x: nat)
    requires x >= 1
    ensures d * x >= d
  {
    assert d * x == d + d * (x - 1);
  }

  lemma NotBelow(d: nat, q: nat, s: nat, k: nat, r: nat)
    requires d * q + s == d * k + r && s < d && r < d
    ensures q >= k
  {
    if q < k {
      assert d * (k - q) == d * k - d * q;
      AtLeastOnce(d, k - q);
      assert false;
    }
  }

  lemma QuotientIs(v: nat, d: nat, k: nat, r: nat)
    requires d > 0 && v == d * k + r && r < d
    ensures v / d == k
  {
    var q, s := v / d, v % d;
    assert v == d * q + s;
    NotBelow(d, q, s, k, r);
    NotBelow(d, k, r, q, s);
  }

  lemma Regrouped(p: nat, k: nat)
    ensures 256 * p * k == 256 * (p * k)
  {}

  lemma DivideTwice(v: nat, p: nat)
    requires p > 0
    ensures v / (256 * p) == v / 256 / p
  {
    var q, s := v / 256, v % 256;
    var k, t := q / p, q % p;
    assert q == p * k + t;
    Regrouped(p, k);
    QuotientIs(v, 256 * p, k, 256 * t + s);
  }

  lemma {:induction false} LittleIsLE(v: nat, n: nat)
    ensures LE(v, n) == Little(v, n)
  {
    if n > 0 {
      LittleIsLE(v / 256, n - 1);
      forall i | 0 <= i < n
        ensures LE(v, n)[i] == Little(v, n)[i]
      {
        if i > 0 {
          DivideTwice(v, Pow256(i - 1));
          assert LE(v, n)[i] == LE(v / 256, n - 1)[i - 1];
        }
      }
    }
  }

  lemma {:induction false} BigIsBE(v: nat, n: nat)
    ensures BE(v, n) == Big(v, n)
  {
    if n > 0 {
      BigIsBE(v / 256, n - 1);
      forall i | 0 <= i < n
        ensures BE(v, n)[i] == Big(v, n)[i]
      {
        if i < n - 1 {
          DivideTwice(v, Pow256(n - 2 - i));
          assert Pow256(n - 1 - i) == 256 * Pow256(n - 2 - i);
          assert BE(v, n)[i] == BE(v / 256, n - 1)[i];
          assert Big(v / 256, n - 1)[i] == v / 256 / Pow256(n - 2 - i) % 256;
        } else {
          assert Pow256(n - 1 - i) == 1;
        }
      }
    }
  }

  /** The writers of fields, as the bytes in front of what follows. */
  lemma U64Is(v: U64, k: seq<byte>)
    ensures PutU64(v, k) == Little(v, 8) + k
  {
    LittleIsLE(v, 8);
  }

  lemma UuidIs(v: Uuid, k: seq<byte>)
    ensures PutUuid(v, k) == Big(v, 16) + k
  {
    BigIsBE(v, 16);
  }

  lemma WordIs(v: nat, k: seq<byte>)
    requires v < Pow256(4)
    ensures PutNum(4, v, k) == Little(v, 4) + k
  {
    LittleIsLE(v, 4);
  }

  function Optional(present: bool, value: seq<byte>, k: seq<byte>): seq<byte> {
    if present then [1] + (value + k) else [0] + k
  }

  function Counted(s: Text, k: seq<byte>): seq<byte> {
    Little(|s| % U32, 4) + (s + k)
  }

  lemma OptUuidIs(v: Option<Uuid>, k: seq<byte>)
    ensures PutOptUuid(v, k) == Optional(v.Some?, if v.Some? then Big(v.value, 16) else [], k)
  {
    if v.Some? {
      UuidIs(v.value, k);
    }
  }

  lemma OptU64Is(v: Option<U64>, k: seq<byte>)
    ensures PutOptU64(v, k) == Optional(v.Some?, if v.Some? then Little(v.value, 8) else [], k)
  {
    if v.Some? {
      U64Is(v.value, k);
    }
  }

  lemma OptDigestIs(v: Option<Digest>, k: seq<byte>)
    ensures PutOptDigest(v, k) == Optional(v.Some?, if v.Some? then Big(v.value, 32) else [], k)
  {
    if v.Some? {
      BigIsBE(v.value, 32);
    }
  }

  lemma TextIs(s: Text, k: seq<byte>)
    ensures PutText(s, k) == Counted(s, k)
  {
    Pow256Small();
    WordIs(|s| % U32, s + k);
  }

  function OptionalText(v: Option<Text>, k: seq<byte>): seq<byte> {
    if v.Some? then [1] + Counted(v.value, k) else [0] + k
  }

  lemma OptTextIs(v: Option<Text>, k: seq<byte>)
    ensures PutOptText(v, k) == OptionalText(v, k)
  {
    if v.Some? {
      TextIs(v.value, k);
    }
  }

  // ------------------------------------------------------------------------------------------
  // States and kinds: their places in the declared order.
  // ------------------------------------------------------------------------------------------

  const STATES: seq<ExecutionState> := [
    CREATED, READY, DISPATCHED, RUNNING, CANCELLATION_REQUESTED, PREEMPTION_REQUESTED, PREEMPTED, RESUMABLE, RESUMING,
    COMPLETION_PENDING, COMPLETED, COMMITTED, FAILED, CANCELLED, AMBIGUOUS, SUPERSEDED, TERMINAL]

  const ATTEMPT_STATES: seq<AttemptState> := [
    ACreated, ADispatched, ARunning, APreempted, ACompletePending, ACompleted, AFailed, ACancelled, ALost, ASuperseded, ATerminal]

  const KINDS: seq<P.MsgType> := [
    P.HELLO, P.WELCOME, P.REGISTER_WORKER, P.REGISTER_ACK, P.SUBMIT, P.SUBMIT_ACK, P.DISPATCH, P.DISPATCH_ACK,
    P.WORKER_DISPATCH, P.WORKER_DISPATCH_ACK, P.START, P.COMPLETE, P.COMPLETE_ACK, P.CANCEL, P.CANCEL_ACK, P.PREEMPT,
    P.PREEMPT_ACK, P.ACK_PREEMPT, P.MARK_RESUMABLE, P.RESUME, P.RESUME_ACK, P.WORKER_LOST, P.QUERY, P.QUERY_RESPONSE,
    P.PING, P.PONG, P.SHUTDOWN]

  /** The place of x in a list. */
  ghost predicate Place<T>(xs: seq<T>, x: T, i: nat) {
    i < |xs| && xs[i] == x
  }

  lemma StatePlace(s: ExecutionState)
    ensures Place(STATES, s, Codec.StateByte(s)) && forall i :: Place(STATES, s, i) ==> i == Codec.StateByte(s)
  {}

  lemma AttemptStatePlace(s: AttemptState)
    ensures Place(ATTEMPT_STATES, s, Codec.AttemptStateByte(s))
    ensures forall i :: Place(ATTEMPT_STATES, s, i) ==> i == Codec.AttemptStateByte(s)
  {}

  lemma KindAt(i: nat)
    requires i < |KINDS|
    ensures P.TypeByte(KINDS[i]) == i
  {}

  lemma KindPlace(t: P.MsgType)
    ensures Place(KINDS, t, P.TypeByte(t)) && forall i :: Place(KINDS, t, i) ==> i == P.TypeByte(t)
  {
    KindIsThere(t);
    forall i: nat | Place(KINDS, t, i)
      ensures i == P.TypeByte(t)
    {
      KindAt(i);
    }
  }

  lemma KindIsThere(t: P.MsgType)
    ensures Place(KINDS, t, P.TypeByte(t))
  {}

  ghost function StateCode(s: ExecutionState): (b: byte)
    ensures Place(STATES, s, b)
  {
    StatePlace(s);
    var b: byte :| Place(STATES, s, b);
    b
  }

  ghost function AttemptStateCode(s: AttemptState): (b: byte)
    ensures Place(ATTEMPT_STATES, s, b)
  {
    AttemptStatePlace(s);
    var b: byte :| Place(ATTEMPT_STATES, s, b);
    b
  }

  ghost function KindCode(t: P.MsgType): (b: byte)
    ensures Place(KINDS, t, b)
  {
    KindPlace(t);
    var b: byte :| Place(KINDS, t, b);
    b
  }

  lemma StateIs(s: ExecutionState, k: seq<byte>)
    ensures Codec.PutState(s, k) == [StateCode(s)] + k
  {
    StatePlace(s);
  }

  lemma AttemptStateIs(s: AttemptState, k: seq<byte>)
    ensures Codec.PutAttemptState(s, k) == [AttemptStateCode(s)] + k
  {
    AttemptStatePlace(s);
  }

  // ------------------------------------------------------------------------------------------
  // The stored record.
  // ------------------------------------------------------------------------------------------

  /** An attempt: eight numbers, two states, a digest and two texts. */
  ghost function KeyFormat(a: Attempt, k: seq<byte>): seq<byte> {
    Big(a.id, 16) + (Little(a.generation, 8) + (Big(a.worker, 16) + (Big(a.boot, 16) + (Big(a.dispatchId, 16) + (Little(a.dispatchGeneration, 8) + (Little(a.ownership, 8) + (Little(a.fence, 8) + k)))))))
  }

  lemma KeyIs(a: Attempt, k: seq<byte>)
    ensures Codec.PutKey(Codec.KeyOf(a), k) == KeyFormat(a, k)
  {
    U64Is(a.fence, k);
    var k7 := PutU64(a.fence, k);
    U64Is(a.ownership, k7);
    var k6 := PutU64(a.ownership, k7);
    U64Is(a.dispatchGeneration, k6);
    var k5 := PutU64(a.dispatchGeneration, k6);
    UuidIs(a.dispatchId, k5);
    var k4 := PutUuid(a.dispatchId, k5);
    UuidIs(a.boot, k4);
    var k3 := PutUuid(a.boot, k4);
    UuidIs(a.worker, k3);
    var k2 := PutUuid(a.worker, k3);
    U64Is(a.generation, k2);
    var k1 := PutU64(a.generation, k2);
    UuidIs(a.id, k1);
  }

  ghost function ResultFormat(a: Attempt, k: seq<byte>): seq<byte> {
    Optional(a.resultDigest.Some?, if a.resultDigest.Some? then Big(a.resultDigest.value, 32) else [],
             OptionalText(a.resultPayload, OptionalText(a.failureReason, k)))
  }

  ghost function FateFormat(a: Attempt, k: seq<byte>): seq<byte> {
    [StateCode(a.stateAtDispatch)] + ([AttemptStateCode(a.state)] + ResultFormat(a, k))
  }

  lemma FateIs(a: Attempt, k: seq<byte>)
    ensures Codec.PutFate(Codec.FateOf(a), k) == FateFormat(a, k)
  {
    var k2 := ResultFormat(a, k);
    ResultIs(a, k);
    AttemptStateIs(a.state, k2);
    StateIs(a.stateAtDispatch, Codec.PutAttemptState(a.state, k2));
  }

  lemma ResultIs(a: Attempt, k: seq<byte>)
    ensures PutOptDigest(a.resultDigest, PutOptText(a.resultPayload, PutOptText(a.failureReason, k))) == ResultFormat(a, k)
  {
    OptTextIs(a.failureReason, k);
    var k4 := PutOptText(a.failureReason, k);
    OptTextIs(a.resultPayload, k4);
    OptDigestIs(a.resultDigest, PutOptText(a.resultPayload, k4));
  }

  ghost function HistoryFormat(ats: seq<Attempt>, k: seq<byte>): seq<byte> {
    if ats == [] then k else KeyFormat(ats[0], FateFormat(ats[0], HistoryFormat(ats[1..], k)))
  }

  lemma {:induction false} HistoryIs(ats: seq<Attempt>, k: seq<byte>)
    ensures PutMany(Codec.PutAttempt, ats, k) == HistoryFormat(ats, k)
  {
    if ats != [] {
      HistoryIs(ats[1..], k);
      FateIs(ats[0], HistoryFormat(ats[1..], k));
      KeyIs(ats[0], FateFormat(ats[0], HistoryFormat(ats[1..], k)));
    }
  }

  /** A record: its head, the names of its authority, its counters, its history and two texts. */
  ghost function FrontFormat(r: Record, k: seq<byte>): seq<byte> {
    Big(r.id, 16) + (Little(r.generation, 8) + ([StateCode(r.state)] + (Little(r.epoch, 8) + (Little(r.ownership, 8) + (Little(r.fence, 8) + k)))))
  }

  lemma FrontIs(r: Record, k: seq<byte>)
    ensures Codec.PutFront(Codec.FrontOf(r), k) == FrontFormat(r, k)
  {
    U64Is(r.fence, k);
    var k5 := PutU64(r.fence, k);
    U64Is(r.ownership, k5);
    var k4 := PutU64(r.ownership, k5);
    U64Is(r.epoch, k4);
    var k3 := PutU64(r.epoch, k4);
    StateIs(r.state, k3);
    var k2 := Codec.PutState(r.state, k3);
    U64Is(r.generation, k2);
    var k1 := PutU64(r.generation, k2);
    UuidIs(r.id, k1);
  }

  ghost function NamesFormat(r: Record, k: seq<byte>): seq<byte> {
    Optional(r.current.Some?, if r.current.Some? then Big(r.current.value, 16) else [], Optional(r.currentGeneration.Some?, if r.currentGeneration.Some? then Little(r.currentGeneration.value, 8) else [], Optional(r.owner.Some?, if r.owner.Some? then Big(r.owner.value, 16) else [], Optional(r.ownerBoot.Some?, if r.ownerBoot.Some? then Big(r.ownerBoot.value, 16) else [], k))))
  }

  lemma NamesIs(r: Record, k: seq<byte>)
    ensures Codec.PutNames(Codec.NamesOf(r), k) == NamesFormat(r, k)
  {
    OptUuidIs(r.ownerBoot, k);
    var k3 := PutOptUuid(r.ownerBoot, k);
    OptUuidIs(r.owner, k3);
    var k2 := PutOptUuid(r.owner, k3);
    OptU64Is(r.currentGeneration, k2);
    var k1 := PutOptU64(r.currentGeneration, k2);
    OptUuidIs(r.current, k1);
  }

  ghost function CountsFormat(r: Record, k: seq<byte>): seq<byte> {
    Little(r.cancellation, 8) + (Little(r.preemption, 8) + (Little(r.resumption, 8) + (Little(r.completion, 8) + (Little(r.commit, 8) + (Optional(r.committedDigest.Some?, if r.committedDigest.Some? then Big(r.committedDigest.value, 32) else [], k))))))
  }

  lemma CountsIs(r: Record, k: seq<byte>)
    ensures Codec.PutCounts(Codec.CountsOf(r), k) == CountsFormat(r, k)
  {
    OptDigestIs(r.committedDigest, k);
    var k5 := PutOptDigest(r.committedDigest, k);
    U64Is(r.commit, k5);
    var k4 := PutU64(r.commit, k5);
    U64Is(r.completion, k4);
    var k3 := PutU64(r.completion, k4);
    U64Is(r.resumption, k3);
    var k2 := PutU64(r.resumption, k3);
    U64Is(r.preemption, k2);
    var k1 := PutU64(r.preemption, k2);
    U64Is(r.cancellation, k1);
  }

  ghost function TailFormat(r: Record, k: seq<byte>): seq<byte> {
    Little(|r.attempts| % U32, 4) + HistoryFormat(r.attempts, Counted(r.createdAt, Counted(r.committedAt, k)))
  }

  lemma TailIs(r: Record, k: seq<byte>)
    ensures Codec.PutTail(Codec.TailOf(r), k) == TailFormat(r, k)
  {
    Pow256Small();
    TextIs(r.committedAt, k);
    var k1 := PutText(r.committedAt, k);
    TextIs(r.createdAt, k1);
    var k2 := PutText(r.createdAt, k1);
    HistoryIs(r.attempts, k2);
    WordIs(|r.attempts| % U32, PutMany(Codec.PutAttempt, r.attempts, k2));
  }

  /** The layout of every stored record. */
  lemma RecordLayout(r: Record)
    ensures Codec.EncodeRecord(r) == FrontFormat(r, NamesFormat(r, CountsFormat(r, TailFormat(r, []))))
  {
    TailIs(r, []);
    var k3 := Codec.PutTail(Codec.TailOf(r), []);
    CountsIs(r, k3);
    var k2 := Codec.PutCounts(Codec.CountsOf(r), k3);
    NamesIs(r, k2);
    FrontIs(r, Codec.PutNames(Codec.NamesOf(r), k2));
  }

  /** In particular the places of its first fields. */
  lemma RecordPlaces(r: Record, b: seq<byte>)
    requires b == Codec.EncodeRecord(r)
    ensures |b| > 49 && b[..16] == Big(r.id, 16) && b[16..24] == Little(r.generation, 8)
    ensures Place(STATES, r.state, b[24])
    ensures b[25..33] == Little(r.epoch, 8) && b[33..41] == Little(r.ownership, 8) && b[41..49] == Little(r.fence, 8)
    ensures b[49] == if r.current.Some? then 1 else 0
  {
    RecordLayout(r);
    FrontPlaces(r, NamesFormat(r, CountsFormat(r, TailFormat(r, []))));
  }

  lemma FrontPlaces(r: Record, k: seq<byte>)
    ensures var b := FrontFormat(r, k);
            && |b| == 49 + |k| && b[..16] == Big(r.id, 16) && b[16..24] == Little(r.generation, 8)
            && b[24] == StateCode(r.state)
            && b[25..33] == Little(r.epoch, 8) && b[33..41] == Little(r.ownership, 8) && b[41..49] == Little(r.fence, 8)
            && b[49..] == k
  {
    var k5 := Little(r.fence, 8) + k;
    var k4 := Little(r.ownership, 8) + k5;
    var k3 := Little(r.epoch, 8) + k4;
    var k2 := [StateCode(r.state)] + k3;
    var k1 := Little(r.generation, 8) + k2;
    var b := Big(r.id, 16) + k1;
    assert b[16..] == k1 && k1[8..] == k2 && k2[1..] == k3 && k3[8..] == k4 && k4[8..] == k5 && k5[8..] == k;
    assert b[24..] == k2 && b[25..] == k3 && b[33..] == k4 && b[41..] == k5 && b[49..] == k;
  }

  // ------------------------------------------------------------------------------------------
  // The file.
  // ------------------------------------------------------------------------------------------

  /** Characters as the bytes they stand for. */
  function Ascii(s: string): seq<byte>
    requires forall i :: 0 <= i < |s| ==> s[i] as int < 256
  {
    seq(|s|, i requires 0 <= i < |s| => s[i] as int)
  }

  /** The limits of the readers, in units of a mebibyte. */
  lemma Limits()
    ensures MAX_STRING == MAX_COUNT == 1024 * 1024 && MAX_VECTOR == 16 * MAX_STRING
    ensures Store.MAX_RECORD == P.MAX_PAYLOAD == 64 * MAX_STRING
  {}

  lemma Magics()
    ensures Store.MAGIC == Ascii("EFABSTOR") && Store.TRAILER == Ascii("EFTRAILR") && Store.VERSION == 1
  {}

  /** The stored records: for each its length, its checksum, its bytes. */
  function FramedFormat(recs: seq<Record>): seq<byte> {
    if recs == [] then []
    else
      var payload := Codec.EncodeRecord(recs[0]);
      Little(|payload| % U32, 4) + (Little(Checksum.Compute(payload), 8) + (payload + FramedFormat(recs[1..])))
  }

  lemma {:induction false} FramedIs(recs: seq<Record>)
    ensures PutMany(Store.PutStored, recs, []) == FramedFormat(recs)
  {
    if recs != [] {
      FramedIs(recs[1..]);
      OneFramedIs(Codec.EncodeRecord(recs[0]), FramedFormat(recs[1..]));
    }
  }

  lemma OneFramedIs(payload: seq<byte>, k: seq<byte>)
    ensures Store.PutFramed(payload, k) == Little(|payload| % U32, 4) + (Little(Checksum.Compute(payload), 8) + (payload + k))
  {
    Pow256Small();
    U64Is(Checksum.Compute(payload), payload + k);
    WordIs(|payload| % U32, PutU64(Checksum.Compute(payload), payload + k));
  }

  function BodyFormat(recs: seq<Record>, epoch: U64): seq<byte> {
    Ascii("EFABSTOR") + (Little(1, 4) + (Little(epoch, 8) + (Little(|recs| % U32, 4) + FramedFormat(recs))))
  }

  lemma BodyIs(recs: seq<Record>, epoch: U64)
    ensures Store.SaveBody(recs, epoch) == BodyFormat(recs, epoch)
  {
    Pow256Small();
    Magics();
    FramedIs(recs);
    var k3 := PutMany(Store.PutStored, recs, []);
    WordIs(|recs| % U32, k3);
    var k2 := PutNum(4, |recs| % U32, k3);
    U64Is(epoch, k2);
    WordIs(Store.VERSION, PutU64(epoch, k2));
  }

  /** The layout of every file: header, records, trailer with the checksum of all before it. */
  lemma FileLayout(recs: seq<Record>, epoch: U64)
    ensures Store.Save(recs, epoch) ==
            BodyFormat(recs, epoch) + (Ascii("EFTRAILR") + Little(Checksum.Compute(BodyFormat(recs, epoch)), 8))
  {
    var body := BodyFormat(recs, epoch);
    BodyIs(recs, epoch);
    Magics();
    SealIs(body);
  }

  lemma SealIs(body: seq<byte>)
    ensures Store.Sealed(body) == body + (Store.TRAILER + Little(Checksum.Compute(body), 8))
  {
    U64Is(Checksum.Compute(body), []);
    assert Little(Checksum.Compute(body), 8) + [] == Little(Checksum.Compute(body), 8);
  }

  // ------------------------------------------------------------------------------------------
  // Frames.
  // ------------------------------------------------------------------------------------------

  /** The layout of every frame: four magic bytes, version 1, the kind, the length, the checksum, the payload. */
  lemma FrameLayout(f: P.Frame)
    ensures P.EncodeFrame(f) ==
            [0x45, 0x58, 0x46, 0x44] + ([1] + ([KindCode(f.kind)] + (Little(|f.payload| % U32, 4)
              + (Little(Checksum.Compute(f.payload), 8) + f.payload))))
  {
    Pow256Small();
    KindPlace(f.kind);
    assert f.payload + [] == f.payload;
    U64Is(Checksum.Compute(f.payload), f.payload);
    var k2 := PutU64(Checksum.Compute(f.payload), f.payload);
    WordIs(|f.payload| % U32, k2);
    FrameMagic();
    WordIs(P.FRAME_MAGIC, PutByte(P.FRAME_VERSION, PutByte(P.TypeByte(f.kind), PutNum(4, |f.payload| % U32, k2))));
  }

  lemma FrameMagic()
    ensures Little(P.FRAME_MAGIC, 4) == [0x45, 0x58, 0x46, 0x44]
  {
    LittleIsLE(P.FRAME_MAGIC, 4);
  }
}
