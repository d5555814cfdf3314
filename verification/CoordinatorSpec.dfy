/**
 The coordinator as a state machine: one step for every queued message, handled to its end, and
 one for a crash followed by a restart from the file.
 */
module CoordinatorSpec {
  import opened Types
  import opened Binary
  import E = EngineSpec
  import opened Listing
  import M = Messages
  import P = Protocol
  import Sha256
  import Store

  // ------------------------------------------------------------------------------------------
  // State.
  // ------------------------------------------------------------------------------------------

  datatype Conn = Conn(isWorker: bool, worker: WorkerId, boot: BootId,
                       activeExecution: Option<ExecutionId>, activeAttempt: Option<AttemptId>)

  const BLANK: Conn := Conn(false, NIL, NIL, None, None)

  type Conns = map<nat, Conn>

  /** Memory and disk of the coordinator; it is down after an operation on an unknown execution has thrown. */
  datatype Node = Node(epoch: U64, engine: E.State, conns: Conns, file: Option<seq<byte>>, up: bool)

  /** What a message means once its payload has been unpacked. */
  datatype Message =
    | Ignored
    | Closes
    | Greets(hello: M.Hello)
    | Registers
    | Submits(submit: M.EpochRequest)
    | Dispatches(dispatch: M.DispatchRequest)
    | Starts(start: StartTicket)
    | Completes(completion: CompletionTicket)
    | Cancels(request: ControlRequest)
    | Preempts(request: ControlRequest)
    | AcksPreempt(ack: M.EpochRequest)
    | MarksResumable(mark: M.EpochRequest)
    | Resumes(resume: M.ResumeRequest)
    | ReportsLoss(loss: M.LossReport)
    | Queries
    | Pings

  /** What is sent; a commit acknowledgement also records which execution it is about. */
  datatype Sent =
    | Plain(conn: nat, kind: P.MsgType)
    | Decided(conn: nat, kind: P.MsgType, code: Code)
    | Issued(conn: nat, kind: P.MsgType, code: Code, ticket: Option<DispatchTicket>)
    | ToWorker(conn: nat, work: M.WorkerDispatch)
    | CompleteAck(conn: nat, id: ExecutionId, code: Code, digest: Option<Digest>)

  /**
   What the surroundings contribute to a step: identities drawn at random, the clock, and the
   worker connection that the search over an unordered table comes upon, 0 if there is none.
   */
  datatype Env = Env(aid: AttemptId, did: DispatchId, now: Text, pick: nat)

  datatype Event =
    | Accept(conn: nat)
    | Inbound(conn: nat, kind: P.MsgType, payload: seq<byte>, env: Env)
    | Restart(epoch: U64)

  datatype Done = Done(node: Node, sent: seq<Sent>)

  // ------------------------------------------------------------------------------------------
  // Payloads.
  // ------------------------------------------------------------------------------------------

  const CLOSED_MARKER: seq<byte> := [0xFF, 0xFF, 0xFF, 0xFF]

  /** A missing digest is computed from the result that came along. */
  function WithDigest(p: M.Completion): CompletionTicket {
    if p.ticket.hasResult && p.ticket.resultDigest == NIL_DIGEST
    then p.ticket.(resultDigest := Sha256.DigestOf(p.result))
    else p.ticket
  }

  /** The reader of each kind; a payload that cannot be unpacked is ignored. */
  function ReadHello(b: seq<byte>): Message {
    var u := M.UnpackHello(b);
    if u.Some? then Greets(u.value) else Ignored
  }

  function ReadSubmit(b: seq<byte>): Message {
    var u := M.UnpackSubmit(b);
    if u.Some? then Submits(u.value) else Ignored
  }

  function ReadDispatch(b: seq<byte>): Message {
    var u := M.UnpackDispatch(b);
    if u.Some? then Dispatches(u.value) else Ignored
  }

  function ReadStart(b: seq<byte>): Message {
    var u := M.UnpackStart(b);
    if u.Some? then Starts(u.value) else Ignored
  }

  function ReadComplete(b: seq<byte>): Message {
    var u := M.UnpackComplete(b);
    if u.Some? then Completes(WithDigest(u.value)) else Ignored
  }

  function ReadCancel(b: seq<byte>): Message {
    var u := M.UnpackControl(b);
    if u.Some? then Cancels(u.value) else Ignored
  }

  function ReadPreempt(b: seq<byte>): Message {
    var u := M.UnpackControl(b);
    if u.Some? then Preempts(u.value) else Ignored
  }

  function ReadAckPreempt(b: seq<byte>): Message {
    var u := M.UnpackAckPreempt(b);
    if u.Some? then AcksPreempt(u.value) else Ignored
  }

  function ReadMarkResumable(b: seq<byte>): Message {
    var u := M.UnpackMarkResumable(b);
    if u.Some? then MarksResumable(u.value) else Ignored
  }

  function ReadResume(b: seq<byte>): Message {
    var u := M.UnpackResume(b);
    if u.Some? then Resumes(u.value) else Ignored
  }

  function ReadWorkerLost(b: seq<byte>): Message {
    var u := M.UnpackWorkerLost(b);
    if u.Some? then ReportsLoss(u.value) else Ignored
  }

  function ReadQuery(b: seq<byte>): Message {
    var u := M.UnpackQuery(b);
    if u.Some? then Queries else Ignored
  }

  function ReadShutdown(b: seq<byte>): Message {
    if b == CLOSED_MARKER then Closes else Ignored
  }

  function ReadRegister(b: seq<byte>): Message {
    Registers
  }

  function ReadPing(b: seq<byte>): Message {
    Pings
  }

  function ReadNothing(b: seq<byte>): Message {
    Ignored
  }

  function ReaderOf(kind: P.MsgType): seq<byte> -> Message {
    match kind
    case HELLO => ReadHello
    case SUBMIT => ReadSubmit
    case DISPATCH => ReadDispatch
    case START => ReadStart
    case COMPLETE => ReadComplete
    case CANCEL => ReadCancel
    case PREEMPT => ReadPreempt
    case ACK_PREEMPT => ReadAckPreempt
    case MARK_RESUMABLE => ReadMarkResumable
    case RESUME => ReadResume
    case WORKER_LOST => ReadWorkerLost
    case QUERY => ReadQuery
    case SHUTDOWN => ReadShutdown
    case REGISTER_WORKER => ReadRegister
    case PING => ReadPing
    case _ => ReadNothing
  }

  function Parsed(kind: P.MsgType, payload: seq<byte>): Message {
    ReaderOf(kind)(payload)
  }

  // ------------------------------------------------------------------------------------------
  // Handlers.
  // ------------------------------------------------------------------------------------------

  /** A store: the bytes it writes for the records and the epoch, what it makes of bytes, and what it can write in full. */
  datatype Medium = Medium(save: (Records, U64) -> seq<byte>, load: seq<byte> -> Option<(seq<Record>, U64)>,
                           fits: Records -> bool)

  function Persisted(md: Medium, n: Node): Node {
    n.(file := Some(md.save(n.engine.records, n.epoch)))
  }

  predicate IsWorkerAt(conns: Conns, c: nat, worker: WorkerId) {
    c in conns && conns[c].isWorker && conns[c].worker == worker
  }

  /** A pick that is not a connection of the worker counts as none. */
  function WorkerConn(conns: Conns, worker: WorkerId, pick: nat): nat {
    if IsWorkerAt(conns, pick, worker) then pick else 0
  }

  /** An engine operation whose outcome is stored and reported whatever it is. */
  function Controlled(md: Medium, n: Node, conn: nat, op: E.Op, kind: P.MsgType): Done {
    var r := E.Step(n.engine, op);
    Done(Persisted(md, n.(engine := r.state)), [Decided(conn, kind, r.code)])
  }

  function Greeted(n: Node, conn: nat, h: M.Hello): Done {
    var entry := if conn in n.conns then n.conns[conn] else BLANK;
    Done(n.(conns := n.conns[conn := entry.(isWorker := h.role == 1, worker := h.worker, boot := h.boot)]),
         [Plain(conn, P.WELCOME)])
  }

  function Submitted(md: Medium, n: Node, conn: nat, p: M.EpochRequest, env: Env): Done {
    var created := E.Step(n.engine, E.Create(p.id, p.epoch, env.now));
    var r := if created.code == ALLOW then E.Step(created.state, E.Activate(p.id, p.epoch)) else created;
    Done(Persisted(md, n.(engine := r.state)), [Decided(conn, P.SUBMIT_ACK, r.code)])
  }

  /** After a dispatch to the worker on connection w: the worker is told, and the engine stored, only on success. */
  function AfterDispatch(md: Medium, n: Node, conn: nat, w: nat, r: E.Result): Done {
    var ack := Issued(conn, P.DISPATCH_ACK, r.code, r.ticket);
    if r.code == ALLOW && r.ticket.Some? && w in n.conns then
      var t := r.ticket.value;
      var busy := n.conns[w].(activeExecution := Some(t.auth.executionId), activeAttempt := Some(t.auth.attemptId));
      Done(Persisted(md, n.(engine := r.state, conns := n.conns[w := busy])), [ToWorker(w, M.WorkerDispatch(t, 4096, 0)), ack])
    else
      Done(n.(engine := r.state), [ack])
  }

  function Dispatched(md: Medium, n: Node, conn: nat, p: M.DispatchRequest, env: Env): Done {
    var w := WorkerConn(n.conns, p.worker, env.pick);
    if w == 0 then Done(n, [Issued(conn, P.DISPATCH_ACK, REJECT_NOT_OWNER, None)])
    else if p.id !in n.engine.records then Done(n.(up := false), [])
    else AfterDispatch(md, n, conn, w, E.Step(n.engine, E.Dispatch(p.id, p.worker, p.boot, p.epoch, env.aid, env.did)))
  }

  /** A start is not stored. */
  function Started(n: Node, conn: nat, t: StartTicket): Done {
    var r := E.Step(n.engine, E.MarkRunning(t));
    Done(n.(engine := r.state), [Decided(conn, P.COMPLETE_ACK, r.code)])
  }

  /** A commit is stored before it is acknowledged. */
  function AfterComplete(md: Medium, n: Node, conn: nat, id: ExecutionId, r: E.Result): Done {
    if r.code == ALLOW && id in r.state.records then
      Done(Persisted(md, n.(engine := r.state)), [CompleteAck(conn, id, r.code, r.state.records[id].committedDigest)])
    else
      Done(n.(engine := r.state), [CompleteAck(conn, id, r.code, None)])
  }

  function Completed(md: Medium, n: Node, conn: nat, t: CompletionTicket, env: Env): Done {
    AfterComplete(md, n, conn, t.auth.executionId, E.Step(n.engine, E.Complete(t, env.now)))
  }

  function AfterResume(md: Medium, n: Node, conn: nat, w: nat, r: E.Result): Done {
    var ack := Issued(conn, P.RESUME_ACK, r.code, r.ticket);
    if r.code == RESUME_ALLOWED && r.ticket.Some? && w != 0 then
      Done(Persisted(md, n.(engine := r.state)), [ToWorker(w, M.WorkerDispatch(r.ticket.value, 4096, 7)), ack])
    else
      Done(n.(engine := r.state), [ack])
  }

  function Resumed(md: Medium, n: Node, conn: nat, p: M.ResumeRequest, env: Env): Done {
    AfterResume(md, n, conn, WorkerConn(n.conns, p.worker, env.pick),
                E.Step(n.engine, E.Resume(p.id, p.worker, p.boot, p.epoch, p.gen, env.aid, env.did)))
  }

  function ConnClosed(md: Medium, n: Node, conn: nat): Done {
    if conn !in n.conns then Done(n, [])
    else
      var c := n.conns[conn];
      var rest := n.(conns := n.conns - {conn});
      if c.isWorker && c.activeExecution.Some? then
        var r := E.Step(n.engine, E.WorkerLost(c.activeExecution.value, c.worker, c.boot, n.epoch));
        Done(Persisted(md, rest.(engine := r.state)), [])
      else Done(rest, [])
  }

  function Act(md: Medium, n: Node, conn: nat, msg: Message, env: Env): Done {
    match msg
    case Ignored => Done(n, [])
    case Closes => ConnClosed(md, n, conn)
    case Greets(h) => Greeted(n, conn, h)
    case Registers => Done(n, [Plain(conn, P.REGISTER_ACK)])
    case Submits(p) => Submitted(md, n, conn, p, env)
    case Dispatches(p) => Dispatched(md, n, conn, p, env)
    case Starts(t) => Started(n, conn, t)
    case Completes(t) => Completed(md, n, conn, t, env)
    case Cancels(r) => Controlled(md, n, conn, E.Cancel(r), P.CANCEL_ACK)
    case Preempts(r) => Controlled(md, n, conn, E.Preempt(r), P.PREEMPT_ACK)
    case AcksPreempt(p) => Controlled(md, n, conn, E.AcknowledgePreempt(p.id, p.epoch), P.PREEMPT_ACK)
    case MarksResumable(p) => Controlled(md, n, conn, E.MarkResumable(p.id, p.epoch), P.PREEMPT_ACK)
    case Resumes(p) => Resumed(md, n, conn, p, env)
    case ReportsLoss(p) => Controlled(md, n, conn, E.WorkerLost(p.id, p.worker, p.boot, p.epoch), P.COMPLETE_ACK)
    case Queries => Done(n, [Plain(conn, P.QUERY_RESPONSE)])
    case Pings => Done(n, [Plain(conn, P.PONG)])
  }

  /** A new process: what the file holds, if it loads, and otherwise nothing. */
  function Restarted(md: Medium, n: Node, epoch: U64): Node {
    var loaded := if n.file.Some? then md.load(n.file.value) else None;
    if loaded.None? then Node(epoch, E.Empty(epoch), map[], n.file, true)
    else
      var (recs, stored) := loaded.value;
      var recovered := E.State(Highest(epoch, recs), Emplaced(recs));
      if stored > epoch
      then Node(stored, E.Step(recovered, E.RaiseEpoch(stored)).state, map[], n.file, true)
      else Node(epoch, recovered, map[], n.file, true)
  }

  function NextBy(md: Medium, n: Node, e: Event): Done {
    match e
    case Restart(epoch) => Done(Restarted(md, n, epoch), [])
    case Accept(conn) => Done(if n.up then n.(conns := n.conns[conn := BLANK]) else n, [])
    case Inbound(conn, kind, payload, env) =>
      if n.up then Act(md, n, conn, Parsed(kind, payload), env) else Done(n, [])
  }

  // ------------------------------------------------------------------------------------------
  // Runs, for any step function.
  // ------------------------------------------------------------------------------------------

  function RunBy(next: (Node, Event) -> Done, n: Node, es: seq<Event>): Node
    decreases |es|
  {
    if es == [] then n else RunBy(next, next(n, es[0]).node, es[1..])
  }

  /** Everything sent along a run. */
  function LogBy(next: (Node, Event) -> Done, n: Node, es: seq<Event>): seq<Sent>
    decreases |es|
  {
    if es == [] then [] else next(n, es[0]).sent + LogBy(next, next(n, es[0]).node, es[1..])
  }

  /** Every step of the run is one that ok admits. */
  predicate AllOk(next: (Node, Event) -> Done, ok: (Node, Event) -> bool, n: Node, es: seq<Event>)
    decreases |es|
  {
    es == [] || (ok(n, es[0]) && AllOk(next, ok, next(n, es[0]).node, es[1..]))
  }

  // ------------------------------------------------------------------------------------------
  // The coordinator over the real file.
  // ------------------------------------------------------------------------------------------

  ghost function FileOf(m: Records, epoch: U64): seq<byte> {
    Store.Save(ListingOf(m), epoch)
  }

  ghost function FileContents(bytes: seq<byte>): Option<(seq<Record>, U64)> {
    Store.Load(bytes)
  }

  /** No length in the file is truncated. */
  ghost predicate Storable(m: Records) {
    |m| < U32 && AllHold(Store.StoredFits, ListingOf(m))
  }

  ghost function Disk(): Medium {
    Medium(FileOf, FileContents, Storable)
  }

  ghost function NodeStep(n: Node, e: Event): Done {
    NextBy(Disk(), n, e)
  }

  ghost function RunAll(n: Node, es: seq<Event>): Node {
    RunBy(NodeStep, n, es)
  }

  ghost function Log(n: Node, es: seq<Event>): seq<Sent> {
    LogBy(NodeStep, n, es)
  }
}
