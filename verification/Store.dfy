/** The durable file: framed records under a whole-file checksum, and what loading one can and cannot accept. */
module Store {
  import opened Types
  import opened Binary
  import opened RecordCodec
  import opened Register
  import Checksum
  import opened Listing

  const MAGIC: seq<byte> := [0x45, 0x46, 0x41, 0x42, 0x53, 0x54, 0x4F, 0x52]
  const TRAILER: seq<byte> := [0x45, 0x46, 0x54, 0x52, 0x41, 0x49, 0x4C, 0x52]
  const VERSION: nat := 1
  const MIN_SIZE: nat := 40
  const TRAILER_SIZE: nat := 16
  const MAX_RECORD: nat := 0x400_0000

  // ------------------------------------------------------------------------------------------
  // One stored record: length, checksum, payload.
  // ------------------------------------------------------------------------------------------

  function PutFramed(payload: seq<byte>, k: seq<byte>): seq<byte> {
    Pow256Small();
    PutNum(4, |payload| % U32, PutU64(Checksum.Compute(payload), PutBytes(payload, k)))
  }

  /** Length, checksum and payload, before the checksum is compared. */
  function GetUnchecked(b: seq<byte>): Parse<(U64, seq<byte>)> {
    var (n, b) :- GetNum(4, b);
    if n == 0 || n > MAX_RECORD || |b| < n + 8 then Fail else
    var (crc, b) :- GetU64(b);
    var (payload, b) :- GetBytes(n, b);
    Ok((crc, payload), b)
  }

  function GetFramed(b: seq<byte>): Parse<seq<byte>> {
    var (frame, b) :- GetUnchecked(b);
    if Checksum.Compute(frame.1) != frame.0 then Fail else Ok(frame.1, b)
  }

  lemma UncheckedRoundTrip(payload: seq<byte>, crc: U64, k: seq<byte>)
    requires 0 < |payload| < U32 && |payload| % U32 < Pow256(4)
    ensures GetUnchecked(PutNum(4, |payload| % U32, PutU64(crc, PutBytes(payload, k)))) ==
            if |payload| <= MAX_RECORD then Ok((crc, payload), k) else Fail
  {
    var k2 := PutU64(crc, PutBytes(payload, k));
    assert |k2| == 8 + |payload| + |k|;
  }

  lemma FramedRoundTrip(payload: seq<byte>, k: seq<byte>)
    requires 0 < |payload| < U32
    ensures GetFramed(PutFramed(payload, k)) == if |payload| <= MAX_RECORD then Ok(payload, k) else Fail
  {
    Pow256Small();
    UncheckedRoundTrip(payload, Checksum.Compute(payload), k);
  }

  function PutStored(r: Record, k: seq<byte>): seq<byte> {
    PutFramed(EncodeRecord(r), k)
  }

  function GetStored(b: seq<byte>): Parse<Record> {
    var (payload, b) :- GetFramed(b);
    if DecodeRecord(payload).None? then Fail else Ok(DecodeRecord(payload).value, b)
  }

  /** No length of the stored record is truncated. */
  ghost predicate StoredFits(r: Record) {
    Fits(r) && |EncodeRecord(r)| < U32
  }

  /** What the loader demands of a record. */
  ghost predicate Loadable(r: Record) {
    Reads(r) && CrossChecks(r) && |EncodeRecord(r)| <= MAX_RECORD
  }

  lemma EncodingNotEmpty(r: Record)
    ensures EncodeRecord(r) != []
  {
    assert GetFront(EncodeRecord(r)).Ok?;
  }

  lemma StoredRoundTrip(r: Record, k: seq<byte>)
    requires StoredFits(r)
    ensures GetStored(PutStored(r, k)) == if Loadable(r) then Ok(r, k) else Fail
  {
    EncodingNotEmpty(r);
    DecodeOfEncode(r);
    FramedRoundTrip(EncodeRecord(r), k);
  }

  lemma StoredRecordsRoundTrip()
    ensures RoundTrips(GetStored, PutStored, StoredFits, Loadable)
  {
    forall r: Record, k: seq<byte> | StoredFits(r)
      ensures GetStored(PutStored(r, k)) == if Loadable(r) then Ok(r, k) else Fail
    {
      StoredRoundTrip(r, k);
    }
  }

  lemma StoredIsSound(b: seq<byte>)
    requires GetStored(b).Ok?
    ensures Reads(GetStored(b).value) && CrossChecks(GetStored(b).value)
  {
    EncodeOfDecode(GetFramed(b).value);
  }

  // ------------------------------------------------------------------------------------------
  // The file.
  // ------------------------------------------------------------------------------------------

  function SaveBody(recs: seq<Record>, epoch: U64): seq<byte> {
    Pow256Small();
    PutBytes(MAGIC, PutNum(4, VERSION, PutU64(epoch, PutList(PutStored, recs, []))))
  }

  function Sealed(body: seq<byte>): seq<byte> {
    body + PutBytes(TRAILER, PutU64(Checksum.Compute(body), []))
  }

  /** The bytes that save writes. */
  function Save(recs: seq<Record>, epoch: U64): seq<byte> {
    Sealed(SaveBody(recs, epoch))
  }

  /** The trailer carries the magic and the checksum of everything before it. */
  predicate SealHolds(bytes: seq<byte>) {
    && |bytes| >= MIN_SIZE
    && var t := |bytes| - TRAILER_SIZE;
       && bytes[t..t + 8] == TRAILER
       && GetU64(bytes[t + 8..]) == Ok(Checksum.Compute(bytes[..t]), [])
  }

  function GetBody(b: seq<byte>): Parse<(seq<Record>, U64)> {
    var (magic, b) :- GetBytes(8, b);
    if magic != MAGIC then Fail else
    var (version, b) :- GetNum(4, b);
    if version != VERSION then Fail else
    var (epoch, b) :- GetU64(b);
    var (recs, b) :- GetList(GetStored, b);
    if b != [] then Fail else Ok((recs, epoch), b)
  }

  ghost function Load(bytes: seq<byte>): Option<(seq<Record>, U64)> {
    if !SealHolds(bytes) then None
    else
      var p := GetBody(bytes[..|bytes| - TRAILER_SIZE]);
      if p.Ok? && DistinctRecords(p.value.0) then Some(p.value) else None
  }

  lemma SealOfSealed(body: seq<byte>)
    requires |body| >= MIN_SIZE - TRAILER_SIZE
    ensures SealHolds(Sealed(body)) && Sealed(body)[..|Sealed(body)| - TRAILER_SIZE] == body
  {
    var crc := PutU64(Checksum.Compute(body), []);
    var bytes := Sealed(body);
    assert GetU64(crc) == Ok(Checksum.Compute(body), []);
    assert |crc| == 8;
    assert bytes == body + TRAILER + crc;
    assert bytes[|body|..|body| + 8] == TRAILER && bytes[|body| + 8..] == crc && bytes[..|body|] == body;
  }

  lemma BodySize(recs: seq<Record>, epoch: U64)
    ensures |SaveBody(recs, epoch)| >= MIN_SIZE - TRAILER_SIZE
  {
    var k := PutMany(PutStored, recs, []);
    Pow256Small();
    var k1 := PutNum(4, |recs| % U32, k);
    var k2 := PutU64(epoch, k1);
    var k3 := PutNum(4, VERSION, k2);
    assert |k1| == 4 + |k| && |k2| == 8 + |k1| && |k3| == 4 + |k2|;
  }

  /** Loading what was saved: the same records in order and the same epoch, exactly when all of them are loadable. */
  lemma LoadOfSave(recs: seq<Record>, epoch: U64)
    requires AllHold(StoredFits, recs) && |recs| < U32
    ensures Load(Save(recs, epoch)) ==
            if |recs| <= MAX_COUNT && AllHold(Loadable, recs) && DistinctRecords(recs) then Some((recs, epoch))
            else None
  {
    BodySize(recs, epoch);
    SealOfSealed(SaveBody(recs, epoch));
    StoredRecordsRoundTrip();
    ListRoundTrip(GetStored, PutStored, StoredFits, Loadable, recs, []);
    BodyRoundTrip(recs, epoch, GetList(GetStored, PutList(PutStored, recs, [])));
  }

  lemma BodyRoundTrip(recs: seq<Record>, epoch: U64, list: Parse<seq<Record>>)
    requires list == GetList(GetStored, PutList(PutStored, recs, []))
    ensures GetBody(SaveBody(recs, epoch)) ==
            if list.Ok? && list.rest == [] then Ok((list.value, epoch), []) else Fail
  {
    Pow256Small();
  }

  ghost predicate Sound(r: Record) {
    Reads(r) && CrossChecks(r)
  }

  /** Whatever the bytes, a successful load returns distinct identities and only valid records. */
  lemma LoadIsSound(bytes: seq<byte>)
    requires Load(bytes).Some?
    ensures DistinctRecords(Load(bytes).value.0) && AllHold(Sound, Load(bytes).value.0)
  {
    var b := bytes[..|bytes| - TRAILER_SIZE];
    var b1 := GetBytes(8, b).rest;
    var b2 := GetNum(4, b1).rest;
    var b3 := GetU64(b2).rest;
    ListIsSound(b3);
  }

  lemma ListIsSound(b: seq<byte>)
    requires GetList(GetStored, b).Ok?
    ensures AllHold(Sound, GetList(GetStored, b).value)
  {
    forall c: seq<byte> | GetStored(c).Ok?
      ensures Sound(GetStored(c).value)
    {
      StoredIsSound(c);
    }
    ManyHold(GetStored, Sound, GetNum(4, b).value, GetNum(4, b).rest);
  }

  lemma BurstInBody(p: seq<byte>, q: seq<byte>, u: seq<byte>, lo: nat)
    requires p != q && DifferWithin8(p, q, lo)
    ensures GetU64(u) != Ok(Checksum.Compute(p), []) || GetU64(u) != Ok(Checksum.Compute(q), [])
  {
    Checksum.BurstDetected(p, q, lo);
  }

  lemma BurstInChecksum(crc: U64, u: seq<byte>, v: seq<byte>)
    requires u != v && GetU64(u) == Ok(crc, [])
    ensures GetU64(v) != Ok(crc, [])
  {
    U64Accepts(u);
    if GetU64(v).Ok? {
      U64Accepts(v);
    }
  }

  /** Where two byte strings that differ within eight bytes and agree on t..t+8 can differ. */
  lemma BurstPlace(a: seq<byte>, b: seq<byte>, t: nat, lo: nat)
    requires DifferWithin8(a, b, lo) && a != b && t + 8 <= |a| && a[t..t + 8] == b[t..t + 8]
    ensures DifferWithin8(a[..t], b[..t], lo)
    ensures a[..t] != b[..t] ==> a[t + 8..] == b[t + 8..]
    ensures a[..t] == b[..t] ==> a[t + 8..] != b[t + 8..]
  {
    if a[..t] == b[..t] {
      assert a == a[..t] + a[t..t + 8] + a[t + 8..];
      assert b == b[..t] + b[t..t + 8] + b[t + 8..];
    } else {
      var i :| 0 <= i < t && a[i] != b[i];
    }
  }

  lemma BurstBreaksSeal(bytes: seq<byte>, corrupt: seq<byte>, lo: nat)
    requires SealHolds(bytes) && corrupt != bytes && DifferWithin8(bytes, corrupt, lo)
    ensures !SealHolds(corrupt)
  {
    var t := |bytes| - TRAILER_SIZE;
    if corrupt[t..t + 8] == TRAILER {
      BurstPlace(bytes, corrupt, t, lo);
      if bytes[..t] != corrupt[..t] {
        BurstInBody(bytes[..t], corrupt[..t], corrupt[t + 8..], lo);
      } else {
        BurstInChecksum(Checksum.Compute(bytes[..t]), bytes[t + 8..], corrupt[t + 8..]);
      }
    }
  }

  /** Any change of a loadable file that keeps its length and stays within eight consecutive bytes is refused. */
  lemma BurstRefused(bytes: seq<byte>, corrupt: seq<byte>, lo: nat)
    requires Load(bytes).Some? && corrupt != bytes && DifferWithin8(bytes, corrupt, lo)
    ensures Load(corrupt).None?
  {
    BurstBreaksSeal(bytes, corrupt, lo);
  }

  // ------------------------------------------------------------------------------------------
  // Exactly which files load.
  // ------------------------------------------------------------------------------------------

  predicate Storable(payload: seq<byte>) {
    0 < |payload| <= MAX_RECORD
  }

  lemma UncheckedAccepts(b: seq<byte>, crc: U64, payload: seq<byte>, k: seq<byte>)
    requires GetUnchecked(b) == Ok((crc, payload), k)
    ensures Storable(payload) && |payload| % U32 < Pow256(4)
    ensures b == PutNum(4, |payload| % U32, PutU64(crc, PutBytes(payload, k)))
  {
    Pow256Small();
    NumAccepts(4, b);
    var b1 := GetNum(4, b).rest;
    U64Accepts(b1);
    var b2 := GetU64(b1).rest;
    assert b2 == b2[..|payload|] + b2[|payload|..];
  }

  lemma FramedAccepts(b: seq<byte>, payload: seq<byte>, k: seq<byte>)
    requires GetFramed(b) == Ok(payload, k)
    ensures Storable(payload) && b == PutFramed(payload, k)
  {
    UncheckedAccepts(b, GetUnchecked(b).value.0, payload, k);
  }

  /** The bytes of the first framed record. */
  function Payload(b: seq<byte>): seq<byte> {
    if GetFramed(b).Ok? then GetFramed(b).value else []
  }

  lemma StoredReadsPayloads()
    ensures ReadsWrapped(GetStored, PutFramed, DecodeRecord, Storable, Payload)
  {
    forall b: seq<byte> | GetStored(b).Ok?
      ensures Storable(Payload(b)) && DecodeRecord(Payload(b)) == Some(GetStored(b).value) && b == PutFramed(Payload(b), GetStored(b).rest)
    {
      FramedAccepts(b, Payload(b), GetStored(b).rest);
    }
    forall p: seq<byte>, k: seq<byte> | Storable(p) && DecodeRecord(p).Some?
      ensures GetStored(PutFramed(p, k)) == Ok(DecodeRecord(p).value, k)
    {
      FramedRoundTrip(p, k);
    }
  }

  function RawBody(ps: seq<seq<byte>>, epoch: U64): seq<byte> {
    Pow256Small();
    PutBytes(MAGIC, PutNum(4, VERSION, PutU64(epoch, PutList(PutFramed, ps, []))))
  }

  lemma ListAccepts(b: seq<byte>) returns (ps: seq<seq<byte>>)
    requires GetList(GetStored, b).Ok?
    ensures |ps| <= MAX_COUNT && Unwraps(DecodeRecord, Storable, ps, GetList(GetStored, b).value)
    ensures b == PutList(PutFramed, ps, GetList(GetStored, b).rest)
  {
    StoredReadsPayloads();
    ps := ListUnwraps(GetStored, PutFramed, DecodeRecord, Storable, Payload, b);
  }

  lemma ListReads(ps: seq<seq<byte>>, recs: seq<Record>)
    requires |ps| <= MAX_COUNT && Unwraps(DecodeRecord, Storable, ps, recs)
    ensures GetList(GetStored, PutList(PutFramed, ps, [])) == Ok(recs, [])
  {
    StoredReadsPayloads();
    ListOfWrapped(GetStored, PutFramed, DecodeRecord, Storable, Payload, ps, recs);
  }

  lemma BodyParts(b: seq<byte>, recs: seq<Record>, epoch: U64) returns (c: seq<byte>)
    requires GetBody(b) == Ok((recs, epoch), [])
    ensures GetList(GetStored, c) == Ok(recs, []) && |b| >= 24
    ensures VERSION < Pow256(4) && b == PutBytes(MAGIC, PutNum(4, VERSION, PutU64(epoch, c)))
  {
    Pow256Small();
    var b1 := GetBytes(8, b).rest;
    assert b == MAGIC + b1;
    NumAccepts(4, b1);
    var b2 := GetNum(4, b1).rest;
    U64Accepts(b2);
    c := GetU64(b2).rest;
    assert |c| >= 4;
  }

  lemma RawBodyReads(ps: seq<seq<byte>>, recs: seq<Record>, epoch: U64)
    requires |ps| <= MAX_COUNT && Unwraps(DecodeRecord, Storable, ps, recs)
    ensures GetBody(RawBody(ps, epoch)) == Ok((recs, epoch), [])
  {
    Pow256Small();
    ListReads(ps, recs);
    BodyReads(PutList(PutFramed, ps, []), recs, epoch);
  }

  lemma BodyReads(c: seq<byte>, recs: seq<Record>, epoch: U64)
    requires GetList(GetStored, c) == Ok(recs, []) && VERSION < Pow256(4)
    ensures GetBody(PutBytes(MAGIC, PutNum(4, VERSION, PutU64(epoch, c)))) == Ok((recs, epoch), [])
  {}

  lemma SealExactly(bytes: seq<byte>)
    requires |bytes| >= MIN_SIZE
    ensures SealHolds(bytes) <==> bytes == Sealed(bytes[..|bytes| - TRAILER_SIZE])
  {
    var t := |bytes| - TRAILER_SIZE;
    var body := bytes[..t];
    assert bytes == body + (bytes[t..t + 8] + bytes[t + 8..]);
    if SealHolds(bytes) {
      HeldSeal(bytes, body);
    } else if bytes == Sealed(body) {
      SealOfSealed(body);
    }
  }

  lemma HeldSeal(bytes: seq<byte>, body: seq<byte>)
    requires SealHolds(bytes) && body == bytes[..|bytes| - TRAILER_SIZE]
    ensures bytes == Sealed(body)
  {
    var t := |bytes| - TRAILER_SIZE;
    U64Accepts(bytes[t + 8..]);
    assert bytes == body + (bytes[t..t + 8] + bytes[t + 8..]);
  }

  /** The file of some payloads that decode to these records. */
  ghost predicate FileOfPayloads(bytes: seq<byte>, recs: seq<Record>, epoch: U64) {
    exists ps: seq<seq<byte>> :: |ps| <= MAX_COUNT && Unwraps(DecodeRecord, Storable, ps, recs) && bytes == Sealed(RawBody(ps, epoch))
  }

  lemma LoadedIsFile(bytes: seq<byte>, recs: seq<Record>, epoch: U64)
    requires Load(bytes) == Some((recs, epoch))
    ensures FileOfPayloads(bytes, recs, epoch)
  {
    var body := bytes[..|bytes| - TRAILER_SIZE];
    var c := BodyParts(body, recs, epoch);
    var ps := ListAccepts(c);
    SealExactly(bytes);
    assert body == RawBody(ps, epoch);
  }

  lemma RawBodySize(ps: seq<seq<byte>>, epoch: U64)
    ensures |RawBody(ps, epoch)| >= MIN_SIZE - TRAILER_SIZE
  {
    Pow256Small();
    var k := PutMany(PutFramed, ps, []);
    var k1 := PutNum(4, |ps| % U32, k);
    var k2 := PutU64(epoch, k1);
    var k3 := PutNum(4, VERSION, k2);
    assert |k1| == 4 + |k| && |k2| == 8 + |k1| && |k3| == 4 + |k2|;
  }

  lemma FileIsLoaded(bytes: seq<byte>, recs: seq<Record>, epoch: U64)
    requires FileOfPayloads(bytes, recs, epoch) && DistinctRecords(recs)
    ensures Load(bytes) == Some((recs, epoch))
  {
    var ps: seq<seq<byte>> :| |ps| <= MAX_COUNT && Unwraps(DecodeRecord, Storable, ps, recs) && bytes == Sealed(RawBody(ps, epoch));
    RawBodySize(ps, epoch);
    SealOfSealed(RawBody(ps, epoch));
    RawBodyReads(ps, recs, epoch);
  }

  /** A file loads as these records and this epoch if and only if it is the sealed file of payloads that decode to them, of distinct identities. */
  lemma LoadsExactly(bytes: seq<byte>, recs: seq<Record>, epoch: U64)
    ensures Load(bytes) == Some((recs, epoch)) <==> FileOfPayloads(bytes, recs, epoch) && DistinctRecords(recs)
  {
    if Load(bytes) == Some((recs, epoch)) {
      LoadedIsFile(bytes, recs, epoch);
    } else if FileOfPayloads(bytes, recs, epoch) && DistinctRecords(recs) {
      FileIsLoaded(bytes, recs, epoch);
    }
  }
}
