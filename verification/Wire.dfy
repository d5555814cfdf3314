/** Frames and the payloads that carry authority, as the program writes and reads them. */
module Wire {
  import opened Types
  import opened Binary
  import opened Streams
  import opened Messages
  import P = Protocol
  import Checksum

  method EncodeFrame(kind: P.MsgType, payload: seq<byte>) returns (b: seq<byte>)
    ensures b == P.EncodeFrame(P.Frame(kind, payload))
  {
    var w := new ByteWriter();
    WriteHeader(w, kind, |payload|);
    var crc := Checksum.CrcOf(payload);
    w.Quad(crc);
    w.Bytes(payload);
    assert w.buf + [] == P.EncodeFrame(P.Frame(kind, payload));
    return w.buf;
  }

  method WriteHeader(w: ByteWriter, kind: P.MsgType, n: nat)
    modifies w
    ensures forall k: seq<byte> {:trigger w.buf + k} :: w.buf + k == old(w.buf) + P.PutHeader(P.Header(kind, n), k)
  {
    w.Word(P.FRAME_MAGIC);
    w.U8(P.FRAME_VERSION);
    w.U8(P.TypeByte(kind));
    w.Word(n);
  }

  method ReadHeader(r: ByteReader) returns (h: Option<P.Header>)
    requires Ready(r)
    modifies r
    ensures Took(P.GetHeader(old(r.Rest())), h, r)
  {
    var magic :- r.Num(4);
    if magic != P.FRAME_MAGIC {
      return None;
    }
    var version :- r.U8();
    if version != P.FRAME_VERSION {
      return None;
    }
    var v :- r.U8();
    var kind :- P.TypeOf(v);
    var length :- r.Num(4);
    if length > P.MAX_PAYLOAD {
      return None;
    }
    return Some(P.Header(kind, length));
  }

  /** One frame off the front of a buffer, and how many bytes it took. */
  method DecodeFrame(b: seq<byte>) returns (f: Option<P.Frame>, consumed: nat)
    ensures var p := P.DecodeFrame(b);
            if p.Ok? then f == Some(p.value) && consumed <= |b| && p.rest == b[consumed..] else f.None?
  {
    consumed := 0;
    var r := new ByteReader(b);
    var h := ReadHeader(r);
    if h.None? {
      return None, 0;
    }
    var crc := r.Quad();
    if crc.None? {
      return None, 0;
    }
    var payload := r.Take(h.value.length);
    if payload.None? {
      return None, 0;
    }
    var computed := Checksum.CrcOf(payload.value);
    if computed != crc.value {
      return None, 0;
    }
    return Some(P.Frame(h.value.kind, payload.value)), r.pos;
  }

  // ------------------------------------------------------------------------------------------
  // Tickets.
  // ------------------------------------------------------------------------------------------

  method WriteAuthority(w: ByteWriter, a: Authority)
    modifies w
    ensures forall k: seq<byte> {:trigger w.buf + k} :: w.buf + k == old(w.buf) + PutAuthority(a, k)
  {
    w.Uuid(a.executionId);
    w.Quad(a.executionGeneration);
    w.Uuid(a.attemptId);
    w.Quad(a.attemptGeneration);
    w.Uuid(a.worker);
    w.Uuid(a.boot);
    w.Quad(a.epoch);
    w.Uuid(a.dispatchId);
    w.Quad(a.dispatchGeneration);
    w.Quad(a.ownership);
    w.Quad(a.fence);
  }

  method WriteCompletion(w: ByteWriter, t: CompletionTicket)
    modifies w
    ensures forall k: seq<byte> {:trigger w.buf + k} :: w.buf + k == old(w.buf) + PutCompletion(t, k)
  {
    WriteAuthority(w, t.auth);
    w.Quad(t.completionGeneration);
    w.Flag(t.hasResult);
    if t.hasResult {
      w.Digest(t.resultDigest);
    }
  }

  method PackStart(t: StartTicket) returns (b: seq<byte>)
    ensures b == Messages.PackStart(t)
  {
    var w := new ByteWriter();
    WriteAuthority(w, t.auth);
    assert w.buf + [] == Messages.PackStart(t);
    return w.buf;
  }

  method WriteWork(w: ByteWriter, size: nat, seed: nat)
    requires size < U32 && seed < U32
    modifies w
    ensures size < Pow256(4) && seed < Pow256(4)
    ensures forall k: seq<byte> {:trigger w.buf + k} :: w.buf + k == old(w.buf) + PutNum(4, size, PutNum(4, seed, k))
  {
    Pow256Small();
    w.Word(size);
    w.Word(seed);
    assert size % U32 == size && seed % U32 == seed;
  }

  method PackWorkerDispatch(p: WorkerDispatch) returns (b: seq<byte>)
    requires p.workBytes < U32 && p.workSeed < U32
    ensures b == Messages.PackWorkerDispatch(p)
  {
    var w := new ByteWriter();
    WriteAuthority(w, p.ticket.auth);
    WriteWork(w, p.workBytes, p.workSeed);
    assert w.buf + [] == Messages.PackWorkerDispatch(p);
    return w.buf;
  }

  method PackComplete(p: Completion) returns (b: seq<byte>)
    ensures b == Messages.PackComplete(p)
  {
    var w := new ByteWriter();
    WriteCompletion(w, p.ticket);
    w.Word(|p.result|);
    w.Bytes(p.result);
    assert w.buf + [] == Messages.PackComplete(p);
    return w.buf;
  }

  method ReadWho(r: ByteReader) returns (a: Option<Who>)
    requires Ready(r)
    modifies r
    ensures Took(GetWho(old(r.Rest())), a, r)
  {
    var executionId :- r.Uuid();
    var executionGeneration :- r.Quad();
    var attemptId :- r.Uuid();
    var attemptGeneration :- r.Quad();
    var worker :- r.Uuid();
    var boot :- r.Uuid();
    return Some(Who(executionId, executionGeneration, attemptId, attemptGeneration, worker, boot));
  }

  method ReadUnder(r: ByteReader) returns (a: Option<Under>)
    requires Ready(r)
    modifies r
    ensures Took(GetUnder(old(r.Rest())), a, r)
  {
    var epoch :- r.Quad();
    var dispatchId :- r.Uuid();
    var dispatchGeneration :- r.Quad();
    var ownership :- r.Quad();
    var fence :- r.Quad();
    return Some(Under(epoch, dispatchId, dispatchGeneration, ownership, fence));
  }

  method ReadAuthority(r: ByteReader) returns (a: Option<Authority>)
    requires Ready(r)
    modifies r
    ensures Took(GetAuthority(old(r.Rest())), a, r)
  {
    var w :- ReadWho(r);
    var u :- ReadUnder(r);
    return Some(AuthorityOf(w, u));
  }

  method ReadCompletion(r: ByteReader) returns (t: Option<CompletionTicket>)
    requires Ready(r)
    modifies r
    ensures Took(GetCompletion(old(r.Rest())), t, r)
  {
    var auth :- ReadAuthority(r);
    var completionGeneration :- r.Quad();
    var hasResult :- r.Flag();
    if !hasResult {
      return Some(CompletionTicket(auth, completionGeneration, false, NIL_DIGEST));
    }
    var digest :- r.Digest();
    return Some(CompletionTicket(auth, completionGeneration, true, digest));
  }

  method UnpackStart(b: seq<byte>) returns (t: Option<StartTicket>)
    ensures t == Messages.UnpackStart(b)
  {
    var r := new ByteReader(b);
    var auth :- ReadAuthority(r);
    return if r.pos == |r.data| then Some(StartTicket(auth)) else None;
  }

  method ReadWorkerDispatch(r: ByteReader) returns (p: Option<WorkerDispatch>)
    requires Ready(r)
    modifies r
    ensures Took(GetWorkerDispatch(old(r.Rest())), p, r)
  {
    var auth :- ReadAuthority(r);
    var workBytes :- r.Num(4);
    var workSeed :- r.Num(4);
    return Some(WorkerDispatch(DispatchTicket(auth), workBytes, workSeed));
  }

  method UnpackWorkerDispatch(b: seq<byte>) returns (p: Option<WorkerDispatch>)
    ensures p == Messages.UnpackWorkerDispatch(b)
  {
    var r := new ByteReader(b);
    var x :- ReadWorkerDispatch(r);
    return if r.pos == |r.data| then Some(x) else None;
  }

  method ReadResult(r: ByteReader) returns (result: Option<seq<byte>>)
    requires Ready(r)
    modifies r
    ensures Took(GetResult(old(r.Rest())), result, r)
  {
    var n :- r.Num(4);
    if n > MAX_VECTOR {
      return None;
    }
    result := r.Take(n);
  }

  method ReadComplete(r: ByteReader) returns (p: Option<Completion>)
    requires Ready(r)
    modifies r
    ensures Took(GetComplete(old(r.Rest())), p, r)
  {
    var ticket :- ReadCompletion(r);
    var result :- ReadResult(r);
    return Some(Completion(ticket, result));
  }

  method UnpackComplete(b: seq<byte>) returns (p: Option<Completion>)
    ensures p == Messages.UnpackComplete(b)
  {
    var r := new ByteReader(b);
    var x :- ReadComplete(r);
    return if r.pos == |r.data| then Some(x) else None;
  }
}
