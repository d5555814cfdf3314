/** The payloads of the messages that carry or request authority. */
module Messages {
  import opened Types
  import opened Binary

  // ------------------------------------------------------------------------------------------
  // Tickets.
  // ------------------------------------------------------------------------------------------

  /** The two halves of the authority a ticket carries: who acts, and under which generations. */
  datatype Who = Who(executionId: ExecutionId, executionGeneration: U64, attemptId: AttemptId,
                     attemptGeneration: U64, worker: WorkerId, boot: BootId)
  datatype Under = Under(epoch: U64, dispatchId: DispatchId, dispatchGeneration: U64, ownership: U64, fence: U64)

  function WhoOf(a: Authority): Who {
    Who(a.executionId, a.executionGeneration, a.attemptId, a.attemptGeneration, a.worker, a.boot)
  }

  function UnderOf(a: Authority): Under {
    Under(a.epoch, a.dispatchId, a.dispatchGeneration, a.ownership, a.fence)
  }

  function AuthorityOf(w: Who, u: Under): Authority {
    Authority(w.executionId, w.executionGeneration, w.attemptId, w.attemptGeneration, w.worker, w.boot,
              u.epoch, u.dispatchId, u.dispatchGeneration, u.ownership, u.fence)
  }

  function PutWho(a: Who, k: seq<byte>): (b: seq<byte>)
    ensures GetWho(b) == Ok(a, k)
  {
    PutUuid(a.executionId, PutU64(a.executionGeneration, PutUuid(a.attemptId, PutU64(a.attemptGeneration,
    PutUuid(a.worker, PutUuid(a.boot, k))))))
  }

  function GetWho(b: seq<byte>): Parse<Who> {
    var (executionId, b) :- GetUuid(b);
    var (executionGeneration, b) :- GetU64(b);
    var (attemptId, b) :- GetUuid(b);
    var (attemptGeneration, b) :- GetU64(b);
    var (worker, b) :- GetUuid(b);
    var (boot, b) :- GetUuid(b);
    Ok(Who(executionId, executionGeneration, attemptId, attemptGeneration, worker, boot), b)
  }

  function PutUnder(a: Under, k: seq<byte>): (b: seq<byte>)
    ensures GetUnder(b) == Ok(a, k)
  {
    PutU64(a.epoch, PutUuid(a.dispatchId, PutU64(a.dispatchGeneration, PutU64(a.ownership, PutU64(a.fence, k)))))
  }

  function GetUnder(b: seq<byte>): Parse<Under> {
    var (epoch, b) :- GetU64(b);
    var (dispatchId, b) :- GetUuid(b);
    var (dispatchGeneration, b) :- GetU64(b);
    var (ownership, b) :- GetU64(b);
    var (fence, b) :- GetU64(b);
    Ok(Under(epoch, dispatchId, dispatchGeneration, ownership, fence), b)
  }

  function PutAuthority(a: Authority, k: seq<byte>): (b: seq<byte>)
    ensures GetAuthority(b) == Ok(a, k)
  {
    PutWho(WhoOf(a), PutUnder(UnderOf(a), k))
  }

  function GetAuthority(b: seq<byte>): Parse<Authority> {
    var (w, b) :- GetWho(b);
    var (u, b) :- GetUnder(b);
    Ok(AuthorityOf(w, u), b)
  }

  function PutCompletion(t: CompletionTicket, k: seq<byte>): (b: seq<byte>)
    ensures t.hasResult || t.resultDigest == NIL_DIGEST ==> GetCompletion(b) == Ok(t, k)
  {
    PutAuthority(t.auth, PutU64(t.completionGeneration,
    PutFlag(t.hasResult, if t.hasResult then PutDigest(t.resultDigest, k) else k)))
  }

  function GetCompletion(b: seq<byte>): Parse<CompletionTicket> {
    var (auth, b) :- GetAuthority(b);
    var (completionGeneration, b) :- GetU64(b);
    var (hasResult, b) :- GetFlag(b);
    if !hasResult then Ok(CompletionTicket(auth, completionGeneration, false, NIL_DIGEST), b) else
    var (digest, b) :- GetDigest(b);
    Ok(CompletionTicket(auth, completionGeneration, true, digest), b)
  }

  /** The execution generation of a control request is not sent. */
  function PutControl(r: ControlRequest, k: seq<byte>): (b: seq<byte>)
    ensures GetControl(b) == Ok(r.(executionGeneration := 0), k)
  {
    PutUuid(r.executionId, PutU64(r.epoch, PutU64(r.authority, PutU64(r.cancellation,
    PutU64(r.preemption, PutU64(r.resumption, k))))))
  }

  function GetControl(b: seq<byte>): Parse<ControlRequest> {
    var (executionId, b) :- GetUuid(b);
    var (epoch, b) :- GetU64(b);
    var (authority, b) :- GetU64(b);
    var (cancellation, b) :- GetU64(b);
    var (preemption, b) :- GetU64(b);
    var (resumption, b) :- GetU64(b);
    Ok(ControlRequest(executionId, 0, epoch, authority, cancellation, preemption, resumption), b)
  }

  // ------------------------------------------------------------------------------------------
  // Payloads. A payload is accepted only if it is consumed to the last byte.
  // ------------------------------------------------------------------------------------------

  function Whole<T>(p: Parse<T>): Option<T> {
    if p.Ok? && p.rest == [] then Some(p.value) else None
  }

  datatype WorkerDispatch = WorkerDispatch(ticket: DispatchTicket, workBytes: nat, workSeed: nat)
  datatype Completion = Completion(ticket: CompletionTicket, result: seq<byte>)
  datatype DispatchRequest = DispatchRequest(id: ExecutionId, epoch: U64, worker: WorkerId, boot: BootId)
  datatype ResumeRequest = ResumeRequest(id: ExecutionId, epoch: U64, gen: U64, worker: WorkerId, boot: BootId)
  datatype LossReport = LossReport(id: ExecutionId, worker: WorkerId, boot: BootId, epoch: U64)
  datatype EpochRequest = EpochRequest(id: ExecutionId, epoch: U64)
  datatype Hello = Hello(role: byte, version: byte, worker: WorkerId, boot: BootId, tag: Text)

  function PackWorkerDispatch(p: WorkerDispatch): seq<byte>
    requires p.workBytes < U32 && p.workSeed < U32
  {
    Pow256Small();
    PutAuthority(p.ticket.auth, PutNum(4, p.workBytes, PutNum(4, p.workSeed, [])))
  }

  function UnpackWorkerDispatch(b: seq<byte>): Option<WorkerDispatch> {
    Whole(GetWorkerDispatch(b))
  }

  function GetWorkerDispatch(b: seq<byte>): Parse<WorkerDispatch> {
    var (auth, b) :- GetAuthority(b);
    var (workBytes, b) :- GetNum(4, b);
    var (workSeed, b) :- GetNum(4, b);
    Ok(WorkerDispatch(DispatchTicket(auth), workBytes, workSeed), b)
  }

  lemma WorkerDispatchRoundTrip(p: WorkerDispatch)
    requires p.workBytes < U32 && p.workSeed < U32
    ensures UnpackWorkerDispatch(PackWorkerDispatch(p)) == Some(p)
  {
    Pow256Small();
  }

  function PackStart(t: StartTicket): seq<byte> {
    PutAuthority(t.auth, [])
  }

  function UnpackStart(b: seq<byte>): Option<StartTicket> {
    var p := GetAuthority(b);
    Whole(if p.Ok? then Ok(StartTicket(p.value), p.rest) else Fail)
  }

  lemma StartRoundTrip(t: StartTicket)
    ensures UnpackStart(PackStart(t)) == Some(t)
  {
    assert GetAuthority(PackStart(t)) == Ok(t.auth, []);
  }

  /** The result length is written modulo 2^32; the reader refuses results above 16 MiB. */
  function PutResult(r: seq<byte>, k: seq<byte>): (b: seq<byte>)
    ensures |r| < U32 ==> GetResult(b) == if |r| <= MAX_VECTOR then Ok(r, k) else Fail
  {
    Pow256Small();
    PutNum(4, |r| % U32, PutBytes(r, k))
  }

  function GetResult(b: seq<byte>): Parse<seq<byte>> {
    var (n, b) :- GetNum(4, b);
    if n > MAX_VECTOR then Fail else GetBytes(n, b)
  }

  function PackComplete(p: Completion): seq<byte> {
    PutCompletion(p.ticket, PutResult(p.result, []))
  }

  function GetComplete(b: seq<byte>): Parse<Completion> {
    var (ticket, b) :- GetCompletion(b);
    var (result, b) :- GetResult(b);
    Ok(Completion(ticket, result), b)
  }

  function UnpackComplete(b: seq<byte>): Option<Completion> {
    Whole(GetComplete(b))
  }

  lemma CompleteReads(b: seq<byte>, p: Completion, c: seq<byte>, ok: bool)
    requires GetCompletion(b) == Ok(p.ticket, c) && GetResult(c) == if ok then Ok(p.result, []) else Fail
    ensures UnpackComplete(b) == if ok then Some(p) else None
  {}

  lemma TicketComesFirst(p: Completion)
    requires p.ticket.hasResult || p.ticket.resultDigest == NIL_DIGEST
    ensures GetCompletion(PackComplete(p)) == Ok(p.ticket, PutResult(p.result, []))
  {}

  lemma ResultReads(r: seq<byte>)
    requires |r| < U32
    ensures GetResult(PutResult(r, [])) == if |r| <= MAX_VECTOR then Ok(r, []) else Fail
  {}

  lemma CompleteRoundTrip(p: Completion)
    requires p.ticket.hasResult || p.ticket.resultDigest == NIL_DIGEST
    requires |p.result| < U32
    ensures UnpackComplete(PackComplete(p)) == if |p.result| <= MAX_VECTOR then Some(p) else None
  {
    TicketComesFirst(p);
    ResultReads(p.result);
    CompleteReads(PackComplete(p), p, PutResult(p.result, []), |p.result| <= MAX_VECTOR);
  }

  // ------------------------------------------------------------------------------------------
  // Sizes.
  // ------------------------------------------------------------------------------------------

  const AUTHORITY_SIZE: nat := 128

  lemma AuthoritySize(a: Authority, k: seq<byte>)
    ensures |PutAuthority(a, k)| == AUTHORITY_SIZE + |k|
  {
    var u := PutUnder(UnderOf(a), k);
    assert |u| == 48 + |k|;
    WhoSize(WhoOf(a), u);
  }

  lemma WhoSize(a: Who, k: seq<byte>)
    ensures |PutWho(a, k)| == 80 + |k|
  {}

  lemma WorkerDispatchSize(p: WorkerDispatch)
    requires p.workBytes < U32 && p.workSeed < U32
    ensures |PackWorkerDispatch(p)| == AUTHORITY_SIZE + 8
  {
    Pow256Small();
    var k := PutNum(4, p.workBytes, PutNum(4, p.workSeed, []));
    AuthoritySize(p.ticket.auth, k);
    assert |k| == 8;
  }

  lemma StartSize(t: StartTicket)
    ensures |PackStart(t)| == AUTHORITY_SIZE
  {
    AuthoritySize(t.auth, []);
  }

  lemma CompletionSize(t: CompletionTicket, k: seq<byte>)
    ensures |PutCompletion(t, k)| <= AUTHORITY_SIZE + 41 + |k|
  {
    var d := if t.hasResult then PutDigest(t.resultDigest, k) else k;
    var c := PutU64(t.completionGeneration, PutFlag(t.hasResult, d));
    assert |d| <= 32 + |k| && |c| == 9 + |d|;
    AuthoritySize(t.auth, c);
  }

  lemma ResultSize(r: seq<byte>)
    ensures |PutResult(r, [])| == 4 + |r|
  {
    Pow256Small();
  }

  lemma CompleteSize(p: Completion)
    ensures |PackComplete(p)| <= AUTHORITY_SIZE + 45 + |p.result|
  {
    ResultSize(p.result);
    CompletionSize(p.ticket, PutResult(p.result, []));
  }

  // ------------------------------------------------------------------------------------------
  // Requests.
  // ------------------------------------------------------------------------------------------

  function UnpackSubmit(b: seq<byte>): Option<EpochRequest> {
    Whole(GetEpochRequest(b))
  }

  function UnpackAckPreempt(b: seq<byte>): Option<EpochRequest> {
    Whole(GetEpochRequest(b))
  }

  function UnpackMarkResumable(b: seq<byte>): Option<EpochRequest> {
    Whole(GetEpochRequest(b))
  }

  function GetEpochRequest(b: seq<byte>): Parse<EpochRequest> {
    var (id, b) :- GetUuid(b);
    var (epoch, b) :- GetU64(b);
    Ok(EpochRequest(id, epoch), b)
  }

  function PackEpochRequest(p: EpochRequest): (b: seq<byte>)
    ensures UnpackSubmit(b) == Some(p)
  {
    PutUuid(p.id, PutU64(p.epoch, []))
  }

  function UnpackDispatch(b: seq<byte>): Option<DispatchRequest> {
    Whole(GetDispatch(b))
  }

  function GetDispatch(b: seq<byte>): Parse<DispatchRequest> {
    var (id, b) :- GetUuid(b);
    var (epoch, b) :- GetU64(b);
    var (worker, b) :- GetUuid(b);
    var (boot, b) :- GetUuid(b);
    Ok(DispatchRequest(id, epoch, worker, boot), b)
  }

  function PackDispatch(p: DispatchRequest): (b: seq<byte>)
    ensures UnpackDispatch(b) == Some(p)
  {
    PutUuid(p.id, PutU64(p.epoch, PutUuid(p.worker, PutUuid(p.boot, []))))
  }

  function UnpackControl(b: seq<byte>): Option<ControlRequest> {
    Whole(GetControl(b))
  }

  function PackControl(r: ControlRequest): (b: seq<byte>)
    ensures UnpackControl(b) == Some(r.(executionGeneration := 0))
  {
    PutControl(r, [])
  }

  function UnpackResume(b: seq<byte>): Option<ResumeRequest> {
    Whole(GetResume(b))
  }

  function GetResume(b: seq<byte>): Parse<ResumeRequest> {
    var (id, b) :- GetUuid(b);
    var (epoch, b) :- GetU64(b);
    var (gen, b) :- GetU64(b);
    var (worker, b) :- GetUuid(b);
    var (boot, b) :- GetUuid(b);
    Ok(ResumeRequest(id, epoch, gen, worker, boot), b)
  }

  function PackResume(p: ResumeRequest): (b: seq<byte>)
    ensures UnpackResume(b) == Some(p)
  {
    PutUuid(p.id, PutU64(p.epoch, PutU64(p.gen, PutUuid(p.worker, PutUuid(p.boot, [])))))
  }

  function UnpackWorkerLost(b: seq<byte>): Option<LossReport> {
    Whole(GetWorkerLost(b))
  }

  function GetWorkerLost(b: seq<byte>): Parse<LossReport> {
    var (id, b) :- GetUuid(b);
    var (worker, b) :- GetUuid(b);
    var (boot, b) :- GetUuid(b);
    var (epoch, b) :- GetU64(b);
    Ok(LossReport(id, worker, boot, epoch), b)
  }

  function UnpackQuery(b: seq<byte>): Option<ExecutionId> {
    Whole(GetUuid(b))
  }

  function PackWorkerLost(p: LossReport): (b: seq<byte>)
    ensures UnpackWorkerLost(b) == Some(p)
  {
    PutUuid(p.id, PutUuid(p.worker, PutUuid(p.boot, PutU64(p.epoch, []))))
  }

  function PackQuery(id: ExecutionId): (b: seq<byte>)
    ensures UnpackQuery(b) == Some(id)
  {
    PutUuid(id, [])
  }

  function PackHello(p: Hello): (b: seq<byte>)
    ensures |p.tag| <= MAX_STRING ==> UnpackHello(b) == Some(p)
  {
    PutByte(p.role, PutByte(p.version, PutUuid(p.worker, PutUuid(p.boot, PutText(p.tag, [])))))
  }

  function UnpackHello(b: seq<byte>): Option<Hello> {
    Whole(GetHello(b))
  }

  function GetHello(b: seq<byte>): Parse<Hello> {
    var (role, b) :- GetByte(b);
    var (version, b) :- GetByte(b);
    var (worker, b) :- GetUuid(b);
    var (boot, b) :- GetUuid(b);
    var (tag, b) :- GetText(b);
    Ok(Hello(role, version, worker, boot, tag), b)
  }
}
