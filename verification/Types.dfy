/** The data model of the authority engine: identities, generations, states, records, tickets. */
module Types {

  datatype Option<+T> = None | Some(value: T) {
    predicate IsFailure() { None? }
    function PropagateFailure<U>(): Option<U>
      requires None?
    {
      None
    }
    function Extract(): T
      requires Some?
    {
      value
    }
  }

  type byte = x: int | 0 <= x < 256

  const U64_MAX: int := 0xFFFF_FFFF_FFFF_FFFF

  /** Every generation counter is an unsigned 64-bit integer; 0 means "not established". */
  type U64 = x: int | 0 <= x <= U64_MAX

  /** The successor of a generation saturates instead of wrapping. */
  function Next(g: U64): U64 {
    if g == U64_MAX then g else g + 1
  }

  /** The value of the counter that has been advanced n times from 0. */
  function Saturated(n: nat): U64 {
    if n <= U64_MAX then n else U64_MAX
  }

  /** Advancing a counter n times. */
  method Advance(start: U64, n: nat) returns (g: U64)
    ensures g == Saturated(start + n)
  {
    g := start;
    var left: nat := n;
    while left != 0
      invariant Saturated(g + left) == Saturated(start + n)
      decreases left
    {
      g := Next(g);
      left := left - 1;
    }
  }

  const U128: int := 0x1_0000_0000_0000_0000_0000_0000_0000_0000

  /**
   Sixteen opaque bytes, as the number they spell most significant byte first: equality and the
   lexicographic order of the bytes are those of the number, and the all-zero value is nil.
   */
  type Uuid = x: int | 0 <= x < U128
  const NIL: Uuid := 0

  type ExecutionId = Uuid
  type AttemptId = Uuid
  type WorkerId = Uuid
  type BootId = Uuid
  type DispatchId = Uuid

  const U256: int := U128 * U128

  /** Thirty-two bytes, in the same way. */
  type Digest = x: int | 0 <= x < U256
  const NIL_DIGEST: Digest := 0

  /** Diagnostic text, as the bytes that are stored. */
  type Text = seq<byte>

  datatype ExecutionState =
    | CREATED | READY | DISPATCHED | RUNNING
    | CANCELLATION_REQUESTED | PREEMPTION_REQUESTED
    | PREEMPTED | RESUMABLE | RESUMING
    | COMPLETION_PENDING | COMPLETED | COMMITTED
    | FAILED | CANCELLED | AMBIGUOUS | SUPERSEDED | TERMINAL

  datatype AttemptState =
    | ACreated | ADispatched | ARunning | APreempted | ACompletePending | ACompleted
    | AFailed | ACancelled | ALost | ASuperseded | ATerminal

  datatype Code =
    | ALLOW | REJECT_STALE_EPOCH | REJECT_STALE_BOOT | REJECT_STALE_ATTEMPT | REJECT_STALE_GENERATION
    | REJECT_NOT_OWNER | REJECT_ALREADY_TERMINAL | REJECT_CANCELLED | REJECT_PREEMPTED
    | REJECT_CONFLICTING_COMPLETION | REJECT_ALREADY_COMMITTED | REJECT_INSUFFICIENT_AUTHORITY
    | RETRY_ALLOWED | RESUME_ALLOWED | DEFER | UNKNOWN | REJECT_EXISTS | REJECT_UNKNOWN_EXECUTION
    | REJECT_NO_CURRENT_ATTEMPT | RETRY_REJECTED

  datatype Attempt = Attempt(
    id: AttemptId,
    generation: U64,
    worker: WorkerId,
    boot: BootId,
    dispatchId: DispatchId,
    dispatchGeneration: U64,
    ownership: U64,
    fence: U64,
    stateAtDispatch: ExecutionState,
    state: AttemptState,
    resultDigest: Option<Digest>,
    resultPayload: Option<Text>,
    failureReason: Option<Text>)

  /** Attempts with no payload text and no failure text. */
  predicate Wordless(ats: seq<Attempt>) {
    forall i :: 0 <= i < |ats| ==> ats[i].resultPayload.None? && ats[i].failureReason.None?
  }

  datatype Record = Record(
    id: ExecutionId,
    generation: U64,
    state: ExecutionState,
    epoch: U64,
    ownership: U64,
    fence: U64,
    current: Option<AttemptId>,
    currentGeneration: Option<U64>,
    owner: Option<WorkerId>,
    ownerBoot: Option<BootId>,
    cancellation: U64,
    preemption: U64,
    resumption: U64,
    completion: U64,
    commit: U64,
    committedDigest: Option<Digest>,
    attempts: seq<Attempt>,
    createdAt: Text,
    committedAt: Text)

  /** The fields a dispatch, a start and a completion ticket have in common. */
  datatype Authority = Authority(
    executionId: ExecutionId,
    executionGeneration: U64,
    attemptId: AttemptId,
    attemptGeneration: U64,
    worker: WorkerId,
    boot: BootId,
    epoch: U64,
    dispatchId: DispatchId,
    dispatchGeneration: U64,
    ownership: U64,
    fence: U64)

  datatype DispatchTicket = DispatchTicket(auth: Authority)
  datatype StartTicket = StartTicket(auth: Authority)
  datatype CompletionTicket = CompletionTicket(
    auth: Authority,
    completionGeneration: U64,
    hasResult: bool,
    resultDigest: Digest)

  datatype ControlRequest = ControlRequest(
    executionId: ExecutionId,
    executionGeneration: U64,
    epoch: U64,
    authority: U64,
    cancellation: U64,
    preemption: U64,
    resumption: U64)
}
