/** Exactly which payloads are accepted, and the layout of each. */
module MessageLayout {
  import opened Types
  import opened Binary
  import opened Messages
  import opened Layout

  // ------------------------------------------------------------------------------------------
  // Everything a payload reader accepts is what its printer prints.
  // ------------------------------------------------------------------------------------------

  lemma ByteAccepts(b: seq<byte>)
    requires GetByte(b).Ok?
    ensures b == PutByte(GetByte(b).value, GetByte(b).rest)
  {}

  lemma WhoAccepts(b: seq<byte>)
    requires GetWho(b).Ok?
    ensures b == PutWho(GetWho(b).value, GetWho(b).rest)
  {
    UuidAccepts(b);
    var b1 := GetUuid(b).rest;
    U64Accepts(b1);
    var b2 := GetU64(b1).rest;
    UuidAccepts(b2);
    var b3 := GetUuid(b2).rest;
    U64Accepts(b3);
    var b4 := GetU64(b3).rest;
    UuidAccepts(b4);
    var b5 := GetUuid(b4).rest;
    UuidAccepts(b5);
  }

  lemma UnderAccepts(b: seq<byte>)
    requires GetUnder(b).Ok?
    ensures b == PutUnder(GetUnder(b).value, GetUnder(b).rest)
  {
    U64Accepts(b);
    var b1 := GetU64(b).rest;
    UuidAccepts(b1);
    var b2 := GetUuid(b1).rest;
    U64Accepts(b2);
    var b3 := GetU64(b2).rest;
    U64Accepts(b3);
    var b4 := GetU64(b3).rest;
    U64Accepts(b4);
  }

  lemma AuthorityAccepts(b: seq<byte>)
    requires GetAuthority(b).Ok?
    ensures b == PutAuthority(GetAuthority(b).value, GetAuthority(b).rest)
  {
    WhoAccepts(b);
    UnderAccepts(GetWho(b).rest);
  }

  lemma EpochRequestAccepts(b: seq<byte>)
    requires GetEpochRequest(b).Ok?
    ensures b == PutUuid(GetEpochRequest(b).value.id, PutU64(GetEpochRequest(b).value.epoch, GetEpochRequest(b).rest))
  {
    UuidAccepts(b);
    var b1 := GetUuid(b).rest;
    U64Accepts(b1);
  }

  function PutDispatch(p: DispatchRequest, k: seq<byte>): seq<byte> {
    PutUuid(p.id, PutU64(p.epoch, PutUuid(p.worker, PutUuid(p.boot, k))))
  }

  lemma DispatchAccepts(b: seq<byte>)
    requires GetDispatch(b).Ok?
    ensures b == PutDispatch(GetDispatch(b).value, GetDispatch(b).rest)
  {
    UuidAccepts(b);
    var b1 := GetUuid(b).rest;
    U64Accepts(b1);
    var b2 := GetU64(b1).rest;
    UuidAccepts(b2);
    var b3 := GetUuid(b2).rest;
    UuidAccepts(b3);
  }

  function PutResume(p: ResumeRequest, k: seq<byte>): seq<byte> {
    PutUuid(p.id, PutU64(p.epoch, PutU64(p.gen, PutUuid(p.worker, PutUuid(p.boot, k)))))
  }

  lemma ResumeAccepts(b: seq<byte>)
    requires GetResume(b).Ok?
    ensures b == PutResume(GetResume(b).value, GetResume(b).rest)
  {
    UuidAccepts(b);
    var b1 := GetUuid(b).rest;
    U64Accepts(b1);
    var b2 := GetU64(b1).rest;
    U64Accepts(b2);
    var b3 := GetU64(b2).rest;
    UuidAccepts(b3);
    var b4 := GetUuid(b3).rest;
    UuidAccepts(b4);
  }

  function PutWorkerLost(p: LossReport, k: seq<byte>): seq<byte> {
    PutUuid(p.id, PutUuid(p.worker, PutUuid(p.boot, PutU64(p.epoch, k))))
  }

  lemma WorkerLostAccepts(b: seq<byte>)
    requires GetWorkerLost(b).Ok?
    ensures b == PutWorkerLost(GetWorkerLost(b).value, GetWorkerLost(b).rest)
  {
    UuidAccepts(b);
    var b1 := GetUuid(b).rest;
    UuidAccepts(b1);
    var b2 := GetUuid(b1).rest;
    UuidAccepts(b2);
    var b3 := GetUuid(b2).rest;
    U64Accepts(b3);
  }

  lemma ControlAccepts(b: seq<byte>)
    requires GetControl(b).Ok?
    ensures b == PutControl(GetControl(b).value, GetControl(b).rest)
  {
    UuidAccepts(b);
    var b1 := GetUuid(b).rest;
    U64Accepts(b1);
    var b2 := GetU64(b1).rest;
    U64Accepts(b2);
    var b3 := GetU64(b2).rest;
    U64Accepts(b3);
    var b4 := GetU64(b3).rest;
    U64Accepts(b4);
    var b5 := GetU64(b4).rest;
    U64Accepts(b5);
  }

  function PutHello(p: Hello, k: seq<byte>): seq<byte> {
    PutByte(p.role, PutByte(p.version, PutUuid(p.worker, PutUuid(p.boot, PutText(p.tag, k)))))
  }

  lemma HelloAccepts(b: seq<byte>)
    requires GetHello(b).Ok?
    ensures b == PutHello(GetHello(b).value, GetHello(b).rest)
  {
    ByteAccepts(b);
    var b1 := GetByte(b).rest;
    ByteAccepts(b1);
    var b2 := GetByte(b1).rest;
    UuidAccepts(b2);
    var b3 := GetUuid(b2).rest;
    UuidAccepts(b3);
    var b4 := GetUuid(b3).rest;
    TextAccepts(b4);
  }

  // ------------------------------------------------------------------------------------------
  // Payloads: accepted exactly if printed.
  // ------------------------------------------------------------------------------------------

  lemma EpochRequestExactly(b: seq<byte>, p: EpochRequest)
    ensures UnpackSubmit(b) == Some(p) <==> b == PackEpochRequest(p)
    ensures UnpackAckPreempt(b) == UnpackSubmit(b) && UnpackMarkResumable(b) == UnpackSubmit(b)
  {
    if UnpackSubmit(b) == Some(p) {
      EpochRequestAccepts(b);
    }
  }

  lemma DispatchExactly(b: seq<byte>, p: DispatchRequest)
    ensures UnpackDispatch(b) == Some(p) <==> b == PackDispatch(p)
  {
    if UnpackDispatch(b) == Some(p) {
      DispatchAccepts(b);
    }
  }

  lemma ResumeExactly(b: seq<byte>, p: ResumeRequest)
    ensures UnpackResume(b) == Some(p) <==> b == PackResume(p)
  {
    if UnpackResume(b) == Some(p) {
      ResumeAccepts(b);
    }
  }

  lemma WorkerLostExactly(b: seq<byte>, p: LossReport)
    ensures UnpackWorkerLost(b) == Some(p) <==> b == PackWorkerLost(p)
  {
    if UnpackWorkerLost(b) == Some(p) {
      WorkerLostAccepts(b);
    }
  }

  /** The execution generation of a request is not sent and is received as 0. */
  lemma ControlExactly(b: seq<byte>, r: ControlRequest)
    ensures UnpackControl(b) == Some(r) <==> b == PackControl(r) && r.executionGeneration == 0
  {
    if UnpackControl(b) == Some(r) {
      ControlAccepts(b);
    }
  }

  lemma QueryExactly(b: seq<byte>, id: ExecutionId)
    ensures UnpackQuery(b) == Some(id) <==> b == PackQuery(id)
  {
    if UnpackQuery(b) == Some(id) {
      UuidAccepts(b);
    }
  }

  lemma HelloExactly(b: seq<byte>, p: Hello)
    ensures UnpackHello(b) == Some(p) <==> b == PackHello(p) && |p.tag| <= MAX_STRING
  {
    if UnpackHello(b) == Some(p) {
      HelloAccepts(b);
      TextAccepts(GetUuid(GetUuid(GetByte(GetByte(b).rest).rest).rest).rest);
    }
  }

  lemma StartExactly(b: seq<byte>, t: StartTicket)
    ensures UnpackStart(b) == Some(t) <==> b == PackStart(t)
  {
    if UnpackStart(b) == Some(t) {
      AuthorityAccepts(b);
    } else if b == PackStart(t) {
      StartRoundTrip(t);
    }
  }

  lemma WorkerDispatchExactly(b: seq<byte>, p: WorkerDispatch)
    requires p.workBytes < U32 && p.workSeed < U32
    ensures UnpackWorkerDispatch(b) == Some(p) <==> b == PackWorkerDispatch(p)
  {
    if UnpackWorkerDispatch(b) == Some(p) {
      AuthorityAccepts(b);
      var b1 := GetAuthority(b).rest;
      NumAccepts(4, b1);
      NumAccepts(4, GetNum(4, b1).rest);
    } else if b == PackWorkerDispatch(p) {
      WorkerDispatchRoundTrip(p);
    }
  }

  /** The bytes of a completion with any byte in the place of its presence byte. */
  function CompletionBytes(p: Completion, present: byte): seq<byte> {
    PutAuthority(p.ticket.auth, PutU64(p.ticket.completionGeneration, PutByte(present,
    if present != 0 then PutDigest(p.ticket.resultDigest, PutResult(p.result, [])) else PutResult(p.result, []))))
  }

  lemma ResultAccepts(b: seq<byte>)
    requires GetResult(b).Ok?
    ensures |GetResult(b).value| <= MAX_VECTOR && b == PutResult(GetResult(b).value, GetResult(b).rest)
  {
    Pow256Small();
    var n := GetNum(4, b);
    NumAccepts(4, b);
    assert n.rest == n.rest[..n.value] + n.rest[n.value..];
  }

  lemma DigestOrNot(b: seq<byte>, present: byte, digest: Digest, c: seq<byte>)
    requires if present != 0 then GetDigest(b) == Ok(digest, c) else b == c
    ensures b == if present != 0 then PutDigest(digest, c) else c
  {
    if present != 0 {
      DigestAccepts(b);
    }
  }

  lemma CompletionAccepts(b: seq<byte>, t: CompletionTicket, c: seq<byte>) returns (present: byte)
    requires GetCompletion(b) == Ok(t, c)
    ensures b == PutAuthority(t.auth, PutU64(t.completionGeneration, PutByte(present, if present != 0 then PutDigest(t.resultDigest, c) else c)))
    ensures (present != 0) == t.hasResult && (t.hasResult || t.resultDigest == NIL_DIGEST)
  {
    AuthorityAccepts(b);
    var b1 := GetAuthority(b).rest;
    U64Accepts(b1);
    var b2 := GetU64(b1).rest;
    ByteAccepts(b2);
    present := b2[0];
    DigestOrNot(b2[1..], present, t.resultDigest, c);
  }

  lemma CompleteParts(b: seq<byte>, p: Completion) returns (c: seq<byte>)
    requires UnpackComplete(b) == Some(p)
    ensures GetCompletion(b) == Ok(p.ticket, c) && GetResult(c) == Ok(p.result, [])
  {
    c := GetCompletion(b).rest;
  }

  /** The printed form with some presence byte that says whether there is a result. */
  ghost predicate PrintedAs(b: seq<byte>, p: Completion) {
    exists present: byte :: b == CompletionBytes(p, present) && (present != 0) == p.ticket.hasResult
  }

  lemma CompleteAccepts(b: seq<byte>, p: Completion)
    requires UnpackComplete(b) == Some(p)
    ensures PrintedAs(b, p) && (p.ticket.hasResult || p.ticket.resultDigest == NIL_DIGEST) && |p.result| <= MAX_VECTOR
  {
    var c := CompleteParts(b, p);
    var present := CompletionAccepts(b, p.ticket, c);
    ResultAccepts(c);
    assert b == CompletionBytes(p, present);
  }

  lemma PrintedIsAccepted(b: seq<byte>, p: Completion)
    requires PrintedAs(b, p) && (p.ticket.hasResult || p.ticket.resultDigest == NIL_DIGEST) && |p.result| <= MAX_VECTOR
    ensures UnpackComplete(b) == Some(p)
  {
    var present: byte :| b == CompletionBytes(p, present) && (present != 0) == p.ticket.hasResult;
    CompletionReads(p, present);
  }

  /** A completion is accepted exactly in its printed form, up to the value of a nonzero presence byte, with a result of at most 16 MiB. */
  lemma CompleteExactly(b: seq<byte>, p: Completion)
    ensures UnpackComplete(b) == Some(p) <==>
            PrintedAs(b, p) && (p.ticket.hasResult || p.ticket.resultDigest == NIL_DIGEST) && |p.result| <= MAX_VECTOR
  {
    if UnpackComplete(b) == Some(p) {
      CompleteAccepts(b, p);
    } else if PrintedAs(b, p) && (p.ticket.hasResult || p.ticket.resultDigest == NIL_DIGEST) && |p.result| <= MAX_VECTOR {
      PrintedIsAccepted(b, p);
    }
  }

  lemma CompletionReads(p: Completion, present: byte)
    requires (present != 0) == p.ticket.hasResult
    requires (p.ticket.hasResult || p.ticket.resultDigest == NIL_DIGEST) && |p.result| <= MAX_VECTOR
    ensures UnpackComplete(CompletionBytes(p, present)) == Some(p)
  {
    ResultReads(p.result);
    TicketReads(p, present);
    CompleteReads(CompletionBytes(p, present), p, PutResult(p.result, []), true);
  }

  lemma TicketReads(p: Completion, present: byte)
    requires (present != 0) == p.ticket.hasResult && (p.ticket.hasResult || p.ticket.resultDigest == NIL_DIGEST)
    ensures GetCompletion(CompletionBytes(p, present)) == Ok(p.ticket, PutResult(p.result, []))
  {}

  // ------------------------------------------------------------------------------------------
  // The layout of the payloads.
  // ------------------------------------------------------------------------------------------

  /** The eleven fields of a ticket, in order. */
  function AuthorityFormat(a: Authority, k: seq<byte>): seq<byte> {
    Big(a.executionId, 16) + (Little(a.executionGeneration, 8) + (Big(a.attemptId, 16) + (Little(a.attemptGeneration, 8)
    + (Big(a.worker, 16) + (Big(a.boot, 16) + UnderFormat(a, k))))))
  }

  function UnderFormat(a: Authority, k: seq<byte>): seq<byte> {
    Little(a.epoch, 8) + (Big(a.dispatchId, 16) + (Little(a.dispatchGeneration, 8) + (Little(a.ownership, 8) + (Little(a.fence, 8) + k))))
  }

  lemma AuthorityLayout(a: Authority, k: seq<byte>)
    ensures PutAuthority(a, k) == AuthorityFormat(a, k)
  {
    UnderLayout(a, k);
    var k6 := UnderFormat(a, k);
    UuidIs(a.boot, k6);
    var k5 := PutUuid(a.boot, k6);
    UuidIs(a.worker, k5);
    var k4 := PutUuid(a.worker, k5);
    U64Is(a.attemptGeneration, k4);
    var k3 := PutU64(a.attemptGeneration, k4);
    UuidIs(a.attemptId, k3);
    var k2 := PutUuid(a.attemptId, k3);
    U64Is(a.executionGeneration, k2);
    UuidIs(a.executionId, PutU64(a.executionGeneration, k2));
  }

  lemma UnderLayout(a: Authority, k: seq<byte>)
    ensures PutUnder(UnderOf(a), k) == UnderFormat(a, k)
  {
    U64Is(a.fence, k);
    var k4 := PutU64(a.fence, k);
    U64Is(a.ownership, k4);
    var k3 := PutU64(a.ownership, k4);
    U64Is(a.dispatchGeneration, k3);
    var k2 := PutU64(a.dispatchGeneration, k3);
    UuidIs(a.dispatchId, k2);
    U64Is(a.epoch, PutUuid(a.dispatchId, k2));
  }

  /** Start, work and completion: the ticket, and what follows it. */
  lemma TicketPayloads(t: StartTicket, w: WorkerDispatch, p: Completion)
    requires w.workBytes < U32 && w.workSeed < U32
    ensures PackStart(t) == AuthorityFormat(t.auth, [])
    ensures PackWorkerDispatch(w) == AuthorityFormat(w.ticket.auth, Little(w.workBytes, 4) + (Little(w.workSeed, 4) + []))
    ensures PackComplete(p) == CompletionBytes(p, if p.ticket.hasResult then 1 else 0)
  {
    AuthorityLayout(t.auth, []);
    WorkLayout(w);
  }

  lemma WorkLayout(w: WorkerDispatch)
    requires w.workBytes < U32 && w.workSeed < U32
    ensures PackWorkerDispatch(w) == AuthorityFormat(w.ticket.auth, Little(w.workBytes, 4) + (Little(w.workSeed, 4) + []))
  {
    Pow256Small();
    WordIs(w.workSeed, []);
    WordIs(w.workBytes, PutNum(4, w.workSeed, []));
    AuthorityLayout(w.ticket.auth, PutNum(4, w.workBytes, PutNum(4, w.workSeed, [])));
  }

  /** After the ticket of a completion: its generation, whether there is a digest, the digest, the length of the result, the result. */
  lemma CompletionLayout(p: Completion, present: byte)
    ensures var result := Little(|p.result| % U32, 4) + (p.result + []);
            CompletionBytes(p, present) ==
            AuthorityFormat(p.ticket.auth, Little(p.ticket.completionGeneration, 8)
              + ([present] + (if present != 0 then Big(p.ticket.resultDigest, 32) + result else result)))
  {
    Pow256Small();
    WordIs(|p.result| % U32, p.result + []);
    var k2 := PutResult(p.result, []);
    BigIsBE(p.ticket.resultDigest, 32);
    var k1 := PutByte(present, if present != 0 then PutDigest(p.ticket.resultDigest, k2) else k2);
    U64Is(p.ticket.completionGeneration, k1);
    AuthorityLayout(p.ticket.auth, PutU64(p.ticket.completionGeneration, k1));
  }

  lemma RequestLayout(p: EpochRequest, d: DispatchRequest, q: ExecutionId)
    ensures PackEpochRequest(p) == Big(p.id, 16) + (Little(p.epoch, 8) + [])
    ensures PackDispatch(d) == Big(d.id, 16) + (Little(d.epoch, 8) + (Big(d.worker, 16) + (Big(d.boot, 16) + [])))
    ensures PackQuery(q) == Big(q, 16) + []
  {
    U64Is(p.epoch, []);
    UuidIs(p.id, PutU64(p.epoch, []));
    UuidIs(d.boot, []);
    UuidIs(d.worker, PutUuid(d.boot, []));
    U64Is(d.epoch, PutUuid(d.worker, PutUuid(d.boot, [])));
    UuidIs(d.id, PutU64(d.epoch, PutUuid(d.worker, PutUuid(d.boot, []))));
    UuidIs(q, []);
  }

  lemma ResumeLayout(p: ResumeRequest)
    ensures PackResume(p) == Big(p.id, 16) + (Little(p.epoch, 8) + (Little(p.gen, 8) + (Big(p.worker, 16) + (Big(p.boot, 16) + []))))
  {
    UuidIs(p.boot, []);
    var k3 := PutUuid(p.boot, []);
    UuidIs(p.worker, k3);
    var k2 := PutUuid(p.worker, k3);
    U64Is(p.gen, k2);
    var k1 := PutU64(p.gen, k2);
    U64Is(p.epoch, k1);
    UuidIs(p.id, PutU64(p.epoch, k1));
  }

  lemma WorkerLostLayout(p: LossReport)
    ensures PackWorkerLost(p) == Big(p.id, 16) + (Big(p.worker, 16) + (Big(p.boot, 16) + (Little(p.epoch, 8) + [])))
  {
    U64Is(p.epoch, []);
    var k2 := PutU64(p.epoch, []);
    UuidIs(p.boot, k2);
    var k1 := PutUuid(p.boot, k2);
    UuidIs(p.worker, k1);
    UuidIs(p.id, PutUuid(p.worker, k1));
  }

  lemma ControlLayout(r: ControlRequest)
    ensures PackControl(r) == Big(r.executionId, 16) + (Little(r.epoch, 8) + (Little(r.authority, 8) + (Little(r.cancellation, 8)
                              + (Little(r.preemption, 8) + (Little(r.resumption, 8) + [])))))
  {
    U64Is(r.resumption, []);
    var k4 := PutU64(r.resumption, []);
    U64Is(r.preemption, k4);
    var k3 := PutU64(r.preemption, k4);
    U64Is(r.cancellation, k3);
    var k2 := PutU64(r.cancellation, k3);
    U64Is(r.authority, k2);
    var k1 := PutU64(r.authority, k2);
    U64Is(r.epoch, k1);
    UuidIs(r.executionId, PutU64(r.epoch, k1));
  }

  lemma HelloLayout(p: Hello)
    ensures PackHello(p) == [p.role] + ([p.version] + (Big(p.worker, 16) + (Big(p.boot, 16) + Counted(p.tag, []))))
  {
    TextIs(p.tag, []);
    UuidIs(p.boot, Counted(p.tag, []));
    UuidIs(p.worker, PutUuid(p.boot, Counted(p.tag, [])));
  }
}
