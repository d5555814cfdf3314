/** What a worker answers to a dispatch: the ticket copied into a start and into a completion. */
module Worker {
  import opened Types
  import opened Binary
  import opened Messages
  import P = Protocol
  import Sha256
  import Wire

  /** The executor is installed from outside; without one the worker makes up a buffer from the seed. */
  type Executor = Option<(nat, nat) -> seq<byte>>

  const FALLBACK_SIZE: nat := 4096

  function Synthetic(seed: nat): (b: seq<byte>)
    ensures |b| == 4096 && forall i :: 0 <= i < 4096 ==> b[i] == (seed + i) % 256
  {
    seq(FALLBACK_SIZE, i requires 0 <= i => (seed + i) % 256)
  }

  function ResultOf(exec: Executor, p: WorkerDispatch): seq<byte> {
    if exec.Some? then exec.value(p.workBytes, p.workSeed) else Synthetic(p.workSeed)
  }

  function StartFor(t: DispatchTicket): StartTicket {
    StartTicket(t.auth)
  }

  function CompletionFor(t: DispatchTicket, digest: Digest): CompletionTicket {
    CompletionTicket(t.auth, 1, true, digest)
  }

  /** The two frames a worker sends in answer to a dispatch. */
  function StartFrame(p: WorkerDispatch): P.Frame {
    P.Frame(P.START, PackStart(StartFor(p.ticket)))
  }

  function CompleteFrame(p: WorkerDispatch, exec: Executor): P.Frame {
    var result := ResultOf(exec, p);
    P.Frame(P.COMPLETE, PackComplete(Completion(CompletionFor(p.ticket, Sha256.DigestOf(result)), result)))
  }

  method Fallback(seed: nat) returns (b: seq<byte>)
    ensures b == Synthetic(seed)
  {
    var buf := new byte[FALLBACK_SIZE](i => seed % 256);
    for i := 0 to buf.Length
      invariant forall j :: 0 <= j < i ==> buf[j] == (seed + j) % 256
    {
      buf[i] := (seed + i) % 256;
    }
    return buf[..];
  }

  /** The ticket is copied field by field into both answers. */
  method OnWorkerDispatch(p: WorkerDispatch, exec: Executor) returns (start: P.Frame, complete: P.Frame)
    ensures start == StartFrame(p) && complete == CompleteFrame(p, exec)
  {
    var t := p.ticket.auth;
    var st := StartTicket(Authority(
      executionId := t.executionId,
      executionGeneration := t.executionGeneration,
      attemptId := t.attemptId,
      attemptGeneration := t.attemptGeneration,
      worker := t.worker,
      boot := t.boot,
      epoch := t.epoch,
      dispatchId := t.dispatchId,
      dispatchGeneration := t.dispatchGeneration,
      ownership := t.ownership,
      fence := t.fence));
    var payload := Wire.PackStart(st);
    start := P.Frame(P.START, payload);

    var result;
    if exec.Some? {
      result := exec.value(p.workBytes, p.workSeed);
    } else {
      result := Fallback(p.workSeed);
    }

    var digest := Sha256.DigestOfBuffer(result);
    var ct := CompletionTicket(
      auth := Authority(
        executionId := t.executionId,
        executionGeneration := t.executionGeneration,
        attemptId := t.attemptId,
        attemptGeneration := t.attemptGeneration,
        worker := t.worker,
        boot := t.boot,
        epoch := t.epoch,
        dispatchId := t.dispatchId,
        dispatchGeneration := t.dispatchGeneration,
        ownership := t.ownership,
        fence := t.fence),
      completionGeneration := 1,
      hasResult := true,
      resultDigest := digest);
    payload := Wire.PackComplete(Completion(ct, result));
    complete := P.Frame(P.COMPLETE, payload);
  }
}
