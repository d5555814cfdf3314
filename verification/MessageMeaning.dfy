/** What each message of the protocol means to the coordinator: exactly which frames bring it. */
module MessageMeaning {
  import opened Types
  import opened Binary
  import opened MessageLayout
  import C = CoordinatorSpec
  import M = Messages
  import P = Protocol
  import Sha256

  // ------------------------------------------------------------------------------------------
  // The meaning of a frame, without its readers.
  // ------------------------------------------------------------------------------------------

  /** The ticket that a completion stands for: a missing digest is that of the result sent along. */
  ghost predicate StandsFor(p: M.Completion, ct: CompletionTicket) {
    && ct.auth == p.ticket.auth && ct.completionGeneration == p.ticket.completionGeneration
    && ct.hasResult == p.ticket.hasResult
    && ct.resultDigest == if p.ticket.hasResult && p.ticket.resultDigest == NIL_DIGEST then Sha256.DigestOf(p.result)
                          else p.ticket.resultDigest
  }

  /** The completion is one that can be sent, and these are bytes of it. */
  ghost predicate Sends(b: seq<byte>, p: M.Completion) {
    PrintedAs(b, p) && (p.ticket.hasResult || p.ticket.resultDigest == NIL_DIGEST) && |p.result| <= MAX_VECTOR
  }

  /** A frame of this kind with this payload says this message. */
  ghost predicate Means(kind: P.MsgType, b: seq<byte>, msg: C.Message)
    requires msg != C.Ignored
  {
    match msg
    case Closes => kind == P.SHUTDOWN && b == [0xFF, 0xFF, 0xFF, 0xFF]
    case Registers => kind == P.REGISTER_WORKER
    case Pings => kind == P.PING
    case Queries => kind == P.QUERY && exists id :: b == M.PackQuery(id)
    case Completes(ct) => kind == P.COMPLETE && exists p :: Sends(b, p) && StandsFor(p, ct)
    case Greets(h) => kind == P.HELLO && b == M.PackHello(h) && |h.tag| <= MAX_STRING
    case Submits(p) => kind == P.SUBMIT && b == M.PackEpochRequest(p)
    case Dispatches(p) => kind == P.DISPATCH && b == M.PackDispatch(p)
    case Starts(t) => kind == P.START && b == M.PackStart(t)
    case Cancels(r) => kind == P.CANCEL && b == M.PackControl(r) && r.executionGeneration == 0
    case Preempts(r) => kind == P.PREEMPT && b == M.PackControl(r) && r.executionGeneration == 0
    case AcksPreempt(p) => kind == P.ACK_PREEMPT && b == M.PackEpochRequest(p)
    case MarksResumable(p) => kind == P.MARK_RESUMABLE && b == M.PackEpochRequest(p)
    case Resumes(p) => kind == P.RESUME && b == M.PackResume(p)
    case ReportsLoss(p) => kind == P.WORKER_LOST && b == M.PackWorkerLost(p)
  }

  // ------------------------------------------------------------------------------------------
  // Each reader accepts exactly the packed form of its message.
  // ------------------------------------------------------------------------------------------

  lemma GreetsRead(b: seq<byte>, h: M.Hello)
    ensures C.ReadHello(b) == C.Greets(h) <==> b == M.PackHello(h) && |h.tag| <= MAX_STRING
  {
    HelloExactly(b, h);
  }

  lemma SubmitsRead(b: seq<byte>, p: M.EpochRequest)
    ensures C.ReadSubmit(b) == C.Submits(p) <==> b == M.PackEpochRequest(p)
  {
    EpochRequestExactly(b, p);
  }

  lemma DispatchesRead(b: seq<byte>, p: M.DispatchRequest)
    ensures C.ReadDispatch(b) == C.Dispatches(p) <==> b == M.PackDispatch(p)
  {
    DispatchExactly(b, p);
  }

  lemma StartsRead(b: seq<byte>, t: StartTicket)
    ensures C.ReadStart(b) == C.Starts(t) <==> b == M.PackStart(t)
  {
    StartExactly(b, t);
  }

  lemma CancelsRead(b: seq<byte>, r: ControlRequest)
    ensures C.ReadCancel(b) == C.Cancels(r) <==> b == M.PackControl(r) && r.executionGeneration == 0
  {
    ControlExactly(b, r);
  }

  lemma PreemptsRead(b: seq<byte>, r: ControlRequest)
    ensures C.ReadPreempt(b) == C.Preempts(r) <==> b == M.PackControl(r) && r.executionGeneration == 0
  {
    ControlExactly(b, r);
  }

  lemma AcksPreemptRead(b: seq<byte>, p: M.EpochRequest)
    ensures C.ReadAckPreempt(b) == C.AcksPreempt(p) <==> b == M.PackEpochRequest(p)
  {
    EpochRequestExactly(b, p);
  }

  lemma MarksResumableRead(b: seq<byte>, p: M.EpochRequest)
    ensures C.ReadMarkResumable(b) == C.MarksResumable(p) <==> b == M.PackEpochRequest(p)
  {
    EpochRequestExactly(b, p);
  }

  lemma ResumesRead(b: seq<byte>, p: M.ResumeRequest)
    ensures C.ReadResume(b) == C.Resumes(p) <==> b == M.PackResume(p)
  {
    ResumeExactly(b, p);
  }

  lemma ReportsLossRead(b: seq<byte>, p: M.LossReport)
    ensures C.ReadWorkerLost(b) == C.ReportsLoss(p) <==> b == M.PackWorkerLost(p)
  {
    WorkerLostExactly(b, p);
  }

  lemma QueriesRead(b: seq<byte>)
    ensures C.ReadQuery(b) == C.Queries <==> exists id :: b == M.PackQuery(id)
  {
    if C.ReadQuery(b) == C.Queries {
      QueryExactly(b, M.UnpackQuery(b).value);
    } else if id :| b == M.PackQuery(id) {
      QueryExactly(b, id);
    }
  }

  lemma Settles(p: M.Completion, ct: CompletionTicket)
    ensures C.WithDigest(p) == ct <==> StandsFor(p, ct)
  {}

  lemma CompletesRead(b: seq<byte>, ct: CompletionTicket)
    ensures C.ReadComplete(b) == C.Completes(ct) <==> exists p :: Sends(b, p) && StandsFor(p, ct)
  {
    if C.ReadComplete(b) == C.Completes(ct) {
      var p := M.UnpackComplete(b).value;
      CompleteExactly(b, p);
      Settles(p, ct);
      assert Sends(b, p) && StandsFor(p, ct);
    } else if p :| Sends(b, p) && StandsFor(p, ct) {
      CompleteExactly(b, p);
      Settles(p, ct);
    }
  }

  // ------------------------------------------------------------------------------------------
  // Each kind of frame goes to its reader.
  // ------------------------------------------------------------------------------------------

  type Reader = seq<byte> -> C.Message

  function KindOf(msg: C.Message): Option<P.MsgType> {
    match msg
    case Ignored => None
    case Greets(_) => Some(P.HELLO)
    case Submits(_) => Some(P.SUBMIT)
    case Dispatches(_) => Some(P.DISPATCH)
    case Starts(_) => Some(P.START)
    case Cancels(_) => Some(P.CANCEL)
    case Preempts(_) => Some(P.PREEMPT)
    case AcksPreempt(_) => Some(P.ACK_PREEMPT)
    case MarksResumable(_) => Some(P.MARK_RESUMABLE)
    case Resumes(_) => Some(P.RESUME)
    case ReportsLoss(_) => Some(P.WORKER_LOST)
    case Completes(_) => Some(P.COMPLETE)
    case Queries => Some(P.QUERY)
    case Closes => Some(P.SHUTDOWN)
    case Registers => Some(P.REGISTER_WORKER)
    case Pings => Some(P.PING)
  }

  /** The reader makes messages of this kind only. */
  ghost predicate Makes(f: Reader, k: P.MsgType) {
    forall b :: f(b) == C.Ignored || KindOf(f(b)) == Some(k)
  }

  lemma GreetsMade()
    ensures C.ReaderOf(P.HELLO) == C.ReadHello && Makes(C.ReadHello, P.HELLO)
  {}

  lemma SubmitsMade()
    ensures C.ReaderOf(P.SUBMIT) == C.ReadSubmit && Makes(C.ReadSubmit, P.SUBMIT)
  {}

  lemma DispatchesMade()
    ensures C.ReaderOf(P.DISPATCH) == C.ReadDispatch && Makes(C.ReadDispatch, P.DISPATCH)
  {}

  lemma StartsMade()
    ensures C.ReaderOf(P.START) == C.ReadStart && Makes(C.ReadStart, P.START)
  {}

  lemma CancelsMade()
    ensures C.ReaderOf(P.CANCEL) == C.ReadCancel && Makes(C.ReadCancel, P.CANCEL)
  {}

  lemma PreemptsMade()
    ensures C.ReaderOf(P.PREEMPT) == C.ReadPreempt && Makes(C.ReadPreempt, P.PREEMPT)
  {}

  lemma AcksPreemptMade()
    ensures C.ReaderOf(P.ACK_PREEMPT) == C.ReadAckPreempt && Makes(C.ReadAckPreempt, P.ACK_PREEMPT)
  {}

  lemma MarksResumableMade()
    ensures C.ReaderOf(P.MARK_RESUMABLE) == C.ReadMarkResumable && Makes(C.ReadMarkResumable, P.MARK_RESUMABLE)
  {}

  lemma ResumesMade()
    ensures C.ReaderOf(P.RESUME) == C.ReadResume && Makes(C.ReadResume, P.RESUME)
  {}

  lemma ReportsLossMade()
    ensures C.ReaderOf(P.WORKER_LOST) == C.ReadWorkerLost && Makes(C.ReadWorkerLost, P.WORKER_LOST)
  {}

  lemma CompletesMade()
    ensures C.ReaderOf(P.COMPLETE) == C.ReadComplete && Makes(C.ReadComplete, P.COMPLETE)
  {}

  lemma QueriesMade()
    ensures C.ReaderOf(P.QUERY) == C.ReadQuery && Makes(C.ReadQuery, P.QUERY)
  {}

  lemma ClosesMade()
    ensures C.ReaderOf(P.SHUTDOWN) == C.ReadShutdown && Makes(C.ReadShutdown, P.SHUTDOWN)
  {}

  lemma RegistersMade()
    ensures C.ReaderOf(P.REGISTER_WORKER) == C.ReadRegister && Makes(C.ReadRegister, P.REGISTER_WORKER)
  {}

  lemma PingsMade()
    ensures C.ReaderOf(P.PING) == C.ReadPing && Makes(C.ReadPing, P.PING)
  {}

  lemma EachMakes(kind: P.MsgType)
    ensures Makes(C.ReaderOf(kind), kind)
  {
    match kind
    case HELLO => GreetsMade();
    case SUBMIT => SubmitsMade();
    case DISPATCH => DispatchesMade();
    case START => StartsMade();
    case CANCEL => CancelsMade();
    case PREEMPT => PreemptsMade();
    case ACK_PREEMPT => AcksPreemptMade();
    case MARK_RESUMABLE => MarksResumableMade();
    case RESUME => ResumesMade();
    case WORKER_LOST => ReportsLossMade();
    case COMPLETE => CompletesMade();
    case QUERY => QueriesMade();
    case SHUTDOWN => ClosesMade();
    case REGISTER_WORKER => RegistersMade();
    case PING => PingsMade();
    case _ => assert C.ReaderOf(kind) == C.ReadNothing;
  }

  lemma MeansBy(readers: P.MsgType -> Reader, kind: P.MsgType, k: P.MsgType, f: Reader, b: seq<byte>, msg: C.Message)
    requires Makes(readers(kind), kind) && KindOf(msg) == Some(k) && readers(k) == f
    ensures readers(kind)(b) == msg <==> kind == k && f(b) == msg
  {}

  lemma ReadBy(kind: P.MsgType, k: P.MsgType, f: Reader, b: seq<byte>, msg: C.Message)
    requires KindOf(msg) == Some(k) && C.ReaderOf(k) == f
    ensures C.Parsed(kind, b) == msg <==> kind == k && f(b) == msg
  {
    EachMakes(kind);
    MeansBy(C.ReaderOf, kind, k, f, b, msg);
  }

  lemma GreetsMeans(kind: P.MsgType, b: seq<byte>, h: M.Hello)
    ensures Means(kind, b, C.Greets(h)) <==> kind == P.HELLO && C.ReadHello(b) == C.Greets(h)
  {
    GreetsRead(b, h);
  }

  lemma SubmitsMeans(kind: P.MsgType, b: seq<byte>, p: M.EpochRequest)
    ensures Means(kind, b, C.Submits(p)) <==> kind == P.SUBMIT && C.ReadSubmit(b) == C.Submits(p)
  {
    SubmitsRead(b, p);
  }

  lemma DispatchesMeans(kind: P.MsgType, b: seq<byte>, p: M.DispatchRequest)
    ensures Means(kind, b, C.Dispatches(p)) <==> kind == P.DISPATCH && C.ReadDispatch(b) == C.Dispatches(p)
  {
    DispatchesRead(b, p);
  }

  lemma StartsMeans(kind: P.MsgType, b: seq<byte>, t: StartTicket)
    ensures Means(kind, b, C.Starts(t)) <==> kind == P.START && C.ReadStart(b) == C.Starts(t)
  {
    StartsRead(b, t);
  }

  lemma CancelsMeans(kind: P.MsgType, b: seq<byte>, r: ControlRequest)
    ensures Means(kind, b, C.Cancels(r)) <==> kind == P.CANCEL && C.ReadCancel(b) == C.Cancels(r)
  {
    CancelsRead(b, r);
  }

  lemma PreemptsMeans(kind: P.MsgType, b: seq<byte>, r: ControlRequest)
    ensures Means(kind, b, C.Preempts(r)) <==> kind == P.PREEMPT && C.ReadPreempt(b) == C.Preempts(r)
  {
    PreemptsRead(b, r);
  }

  lemma AcksPreemptMeans(kind: P.MsgType, b: seq<byte>, p: M.EpochRequest)
    ensures Means(kind, b, C.AcksPreempt(p)) <==> kind == P.ACK_PREEMPT && C.ReadAckPreempt(b) == C.AcksPreempt(p)
  {
    AcksPreemptRead(b, p);
  }

  lemma MarksResumableMeans(kind: P.MsgType, b: seq<byte>, p: M.EpochRequest)
    ensures Means(kind, b, C.MarksResumable(p)) <==> kind == P.MARK_RESUMABLE && C.ReadMarkResumable(b) == C.MarksResumable(p)
  {
    MarksResumableRead(b, p);
  }

  lemma ResumesMeans(kind: P.MsgType, b: seq<byte>, p: M.ResumeRequest)
    ensures Means(kind, b, C.Resumes(p)) <==> kind == P.RESUME && C.ReadResume(b) == C.Resumes(p)
  {
    ResumesRead(b, p);
  }

  lemma ReportsLossMeans(kind: P.MsgType, b: seq<byte>, p: M.LossReport)
    ensures Means(kind, b, C.ReportsLoss(p)) <==> kind == P.WORKER_LOST && C.ReadWorkerLost(b) == C.ReportsLoss(p)
  {
    ReportsLossRead(b, p);
  }

  lemma CompletesMeans(kind: P.MsgType, b: seq<byte>, ct: CompletionTicket)
    ensures Means(kind, b, C.Completes(ct)) <==> kind == P.COMPLETE && C.ReadComplete(b) == C.Completes(ct)
  {
    CompletesRead(b, ct);
  }

  lemma QueriesMeans(kind: P.MsgType, b: seq<byte>)
    ensures Means(kind, b, C.Queries) <==> kind == P.QUERY && C.ReadQuery(b) == C.Queries
  {
    QueriesRead(b);
  }

  lemma ClosesMeans(kind: P.MsgType, b: seq<byte>)
    ensures Means(kind, b, C.Closes) <==> kind == P.SHUTDOWN && C.ReadShutdown(b) == C.Closes
  {}

  lemma RegistersMeans(kind: P.MsgType, b: seq<byte>)
    ensures Means(kind, b, C.Registers) <==> kind == P.REGISTER_WORKER && C.ReadRegister(b) == C.Registers
  {}

  lemma PingsMeans(kind: P.MsgType, b: seq<byte>)
    ensures Means(kind, b, C.Pings) <==> kind == P.PING && C.ReadPing(b) == C.Pings
  {}

  /** The reader of the kind of a message. */
  function ReaderFor(msg: C.Message): Reader
    requires msg != C.Ignored
  {
    match msg
    case Greets(_) => C.ReadHello
    case Submits(_) => C.ReadSubmit
    case Dispatches(_) => C.ReadDispatch
    case Starts(_) => C.ReadStart
    case Cancels(_) => C.ReadCancel
    case Preempts(_) => C.ReadPreempt
    case AcksPreempt(_) => C.ReadAckPreempt
    case MarksResumable(_) => C.ReadMarkResumable
    case Resumes(_) => C.ReadResume
    case ReportsLoss(_) => C.ReadWorkerLost
    case Completes(_) => C.ReadComplete
    case Queries => C.ReadQuery
    case Closes => C.ReadShutdown
    case Registers => C.ReadRegister
    case Pings => C.ReadPing
  }

  lemma ReaderForIs(msg: C.Message)
    requires msg != C.Ignored
    ensures C.ReaderOf(KindOf(msg).value) == ReaderFor(msg)
  {}

  lemma MeansIsRead(kind: P.MsgType, b: seq<byte>, msg: C.Message)
    requires msg != C.Ignored
    ensures Means(kind, b, msg) <==> kind == KindOf(msg).value && ReaderFor(msg)(b) == msg
  {
    match msg
    case Greets(h) => GreetsMeans(kind, b, h);
    case Submits(p) => SubmitsMeans(kind, b, p);
    case Dispatches(p) => DispatchesMeans(kind, b, p);
    case Starts(t) => StartsMeans(kind, b, t);
    case Cancels(r) => CancelsMeans(kind, b, r);
    case Preempts(r) => PreemptsMeans(kind, b, r);
    case AcksPreempt(p) => AcksPreemptMeans(kind, b, p);
    case MarksResumable(p) => MarksResumableMeans(kind, b, p);
    case Resumes(p) => ResumesMeans(kind, b, p);
    case ReportsLoss(p) => ReportsLossMeans(kind, b, p);
    case Completes(ct) => CompletesMeans(kind, b, ct);
    case Queries => QueriesMeans(kind, b);
    case Closes => ClosesMeans(kind, b);
    case Registers => RegistersMeans(kind, b);
    case Pings => PingsMeans(kind, b);
  }

  /** A frame brings a message exactly if it is the frame that says it. */
  lemma FrameMeans(kind: P.MsgType, b: seq<byte>, msg: C.Message)
    requires msg != C.Ignored
    ensures C.Parsed(kind, b) == msg <==> Means(kind, b, msg)
  {
    ReaderForIs(msg);
    ReadBy(kind, KindOf(msg).value, ReaderFor(msg), b, msg);
    MeansIsRead(kind, b, msg);
  }

  /** Every other frame is ignored. */
  lemma IgnoredExactly(kind: P.MsgType, b: seq<byte>)
    ensures C.Parsed(kind, b) == C.Ignored <==> forall msg :: msg != C.Ignored ==> !Means(kind, b, msg)
  {
    var m := C.Parsed(kind, b);
    if m == C.Ignored {
      forall msg | msg != C.Ignored
        ensures !Means(kind, b, msg)
      {
        FrameMeans(kind, b, msg);
      }
    } else {
      FrameMeans(kind, b, m);
    }
  }
}
