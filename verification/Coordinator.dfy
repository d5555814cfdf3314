/** The coordinator as the object that handles the queue, proved against its state machine. */
module Coordinator {
  import opened Types
  import opened Binary
  import opened Listing
  import opened CoordinatorSpec
  import Runs = CoordinatorRuns
  import E = EngineSpec
  import R = EngineRuns
  import opened Engine
  import M = Messages
  import P = Protocol
  import Persistence
  import Store

  /** md is the real file; Writing and Reading name the places where that matters. */
  ghost predicate OnDisk(md: Medium) {
    && (forall m: Records, e: U64 {:trigger Writing(m, e)} :: Writing(m, e) ==> md.save(m, e) == FileOf(m, e))
    && (forall b: seq<byte> {:trigger Reading(b)} :: Reading(b) ==> md.load(b) == FileContents(b))
  }

  ghost predicate Writing(m: Records, e: U64) {
    true
  }

  ghost predicate Reading(b: seq<byte>) {
    true
  }

  method LoadFile(b: seq<byte>, ghost md: Medium) returns (p: Option<(seq<Record>, U64)>)
    requires OnDisk(md)
    ensures p == md.load(b)
    ensures p.Some? ==> DistinctRecords(p.value.0)
  {
    assert Reading(b);
    p := Persistence.Load(b);
    if p.Some? {
      Store.LoadIsSound(b);
    }
  }

  lemma DiskIsDisk()
    ensures OnDisk(Disk())
  {}

  lemma StepKeyed(s: E.State, op: E.Op)
    requires KeyedMap(s.records)
    ensures KeyedMap(E.Step(s, op).state.records)
  {
    Runs.StepIsRun(s, op, E.Step(s, op));
    Runs.KeyedForever(s, [op]);
  }

  class Coordinator {
    var epoch: U64
    const engine: ExecutionEngine
    var conns: Conns
    var file: Option<seq<byte>>
    var up: bool
    var sent: seq<Sent>

    ghost function View(): Node
      reads this, engine
    {
      Node(epoch, engine.Snapshot(), conns, file, up)
    }

    ghost predicate Valid()
      reads this, engine
    {
      KeyedMap(engine.records)
    }

    /** A new process over what is on disk. */
    constructor (start: U64, disk: Option<seq<byte>>, ghost md: Medium)
      requires OnDisk(md)
      ensures Valid() && fresh(engine) && sent == []
      ensures forall n: Node {:trigger Restarted(md, n, start)} :: n.file == disk ==> View() == Restarted(md, n, start)
    {
      epoch := start;
      engine := new ExecutionEngine(start);
      conns := map[];
      file := disk;
      up := true;
      sent := [];
      new;
      if disk.Some? {
        var loaded := LoadFile(disk.value, md);
        if loaded.Some? {
          var (recs, stored) := loaded.value;
          engine.ReplaceRecords(recs);
          EmplacedFinds(recs);
          if stored > epoch {
            epoch := stored;
            engine.RaiseEpoch(stored);
          }
        }
      }
    }

    method Persist(ghost md: Medium)
      requires Valid() && OnDisk(md)
      modifies this`file
      ensures View() == Persisted(md, old(View()))
    {
      assert Writing(engine.records, epoch);
      var recs := engine.Records();
      var bytes := Persistence.Save(recs, epoch);
      file := Some(bytes);
    }

    /** The first connection of the worker in whatever order the table has; 0 if there is none. */
    method FindWorker(worker: WorkerId) returns (c: nat)
      ensures c != 0 ==> IsWorkerAt(conns, c, worker)
      ensures c == 0 ==> forall k :: k != 0 && IsWorkerAt(conns, k, worker) ==> IsWorkerAt(conns, 0, worker)
    {
      var left := conns.Keys;
      while left != {}
        invariant left <= conns.Keys
        invariant forall k :: IsWorkerAt(conns, k, worker) ==> k in left
      {
        c :| c in left;
        if IsWorkerAt(conns, c, worker) {
          return;
        }
        left := left - {c};
      }
      c := 0;
    }

    /** The message was handled as the state machine says. */
    ghost predicate Did(md: Medium, conn: nat, msg: Message, env: Env, was: Node, before: seq<Sent>)
      reads this, engine
    {
      DidTo(Act(md, was, conn, msg, env), before)
    }

    ghost predicate DidTo(d: Done, before: seq<Sent>)
      reads this, engine
    {
      View() == d.node && sent == before + d.sent
    }

    /** Store and report the decision of an operation that the engine has just taken. */
    method Decide(conn: nat, kind: P.MsgType, code: Code, ghost md: Medium, ghost was: Node, ghost op: E.Op)
      requires OnDisk(md) && KeyedMap(was.engine.records)
      requires View() == was.(engine := E.Step(was.engine, op).state) && code == E.Step(was.engine, op).code
      modifies this`file, this`sent
      ensures Valid() && DidTo(Controlled(md, was, conn, op, kind), old(sent))
    {
      StepKeyed(was.engine, op);
      Persist(md);
      sent := sent + [Decided(conn, kind, code)];
    }

    method OnRequest(conn: nat, msg: Message, env: Env, ghost md: Medium)
      requires Valid() && OnDisk(md) && (msg.Cancels? || msg.Preempts?)
      modifies this, engine
      ensures Valid() && Did(md, conn, msg, env, old(View()), old(sent))
    {
      ghost var was := View();
      if msg.Cancels? {
        var code := engine.Cancel(msg.request);
        Decide(conn, P.CANCEL_ACK, code, md, was, E.Cancel(msg.request));
      } else {
        var code := engine.Preempt(msg.request);
        Decide(conn, P.PREEMPT_ACK, code, md, was, E.Preempt(msg.request));
      }
    }

    method OnReport(conn: nat, msg: Message, env: Env, ghost md: Medium)
      requires Valid() && OnDisk(md) && (msg.AcksPreempt? || msg.MarksResumable? || msg.ReportsLoss?)
      modifies this, engine
      ensures Valid() && Did(md, conn, msg, env, old(View()), old(sent))
    {
      ghost var was := View();
      match msg {
        case AcksPreempt(p) =>
          var code := engine.AcknowledgePreempt(p.id, p.epoch);
          Decide(conn, P.PREEMPT_ACK, code, md, was, E.AcknowledgePreempt(p.id, p.epoch));
        case MarksResumable(p) =>
          var code := engine.MarkResumable(p.id, p.epoch);
          Decide(conn, P.PREEMPT_ACK, code, md, was, E.MarkResumable(p.id, p.epoch));
        case ReportsLoss(p) =>
          var code := engine.MarkWorkerLost(p.id, p.worker, p.boot, p.epoch);
          Decide(conn, P.COMPLETE_ACK, code, md, was, E.WorkerLost(p.id, p.worker, p.boot, p.epoch));
      }
    }

    method OnSubmit(conn: nat, p: M.EpochRequest, env: Env, ghost md: Medium)
      requires Valid() && OnDisk(md)
      modifies this, engine
      ensures Valid() && DidTo(Submitted(md, old(View()), conn, p, env), old(sent))
    {
      StepKeyed(engine.Snapshot(), E.Create(p.id, p.epoch, env.now));
      var code := engine.Create(p.id, p.epoch, env.now);
      if code == ALLOW {
        StepKeyed(engine.Snapshot(), E.Activate(p.id, p.epoch));
        code := engine.Activate(p.id, p.epoch);
      }
      Persist(md);
      sent := sent + [Decided(conn, P.SUBMIT_ACK, code)];
    }

    /** After the engine has dispatched: tell the worker and store, on success. */
    method Hand(conn: nat, w: nat, code: Code, ticket: Option<DispatchTicket>, ghost md: Medium, ghost was: Node, ghost r: E.Result)
      requires OnDisk(md) && KeyedMap(r.state.records) && w in conns
      requires View() == was.(engine := r.state) && code == r.code && ticket == r.ticket
      modifies this`file, this`sent, this`conns
      ensures Valid() && DidTo(AfterDispatch(md, was, conn, w, r), old(sent))
    {
      if code == ALLOW && ticket.Some? {
        var t := ticket.value.auth;
        conns := conns[w := conns[w].(activeExecution := Some(t.executionId), activeAttempt := Some(t.attemptId))];
        sent := sent + [ToWorker(w, M.WorkerDispatch(ticket.value, 4096, 0))];
        Persist(md);
      }
      sent := sent + [Issued(conn, P.DISPATCH_ACK, code, ticket)];
    }

    method OnDispatch(conn: nat, p: M.DispatchRequest, env: Env, ghost md: Medium) returns (pick: nat)
      requires Valid() && OnDisk(md)
      modifies this, engine
      ensures Valid() && DidTo(Dispatched(md, old(View()), conn, p, env.(pick := pick)), old(sent))
    {
      pick := FindWorker(p.worker);
      if pick == 0 {
        sent := sent + [Issued(conn, P.DISPATCH_ACK, REJECT_NOT_OWNER, None)];
      } else if p.id !in engine.records {
        up := false;
      } else {
        ghost var was := View();
        ghost var op := E.Dispatch(p.id, p.worker, p.boot, p.epoch, env.aid, env.did);
        StepKeyed(was.engine, op);
        var code, ticket := engine.Dispatch(p.id, p.worker, p.boot, p.epoch, env.aid, env.did);
        Hand(conn, pick, code, ticket, md, was, E.Step(was.engine, op));
      }
    }

    method Return(conn: nat, w: nat, code: Code, ticket: Option<DispatchTicket>, ghost md: Medium, ghost was: Node, ghost r: E.Result)
      requires OnDisk(md) && KeyedMap(r.state.records)
      requires View() == was.(engine := r.state) && code == r.code && ticket == r.ticket
      modifies this`file, this`sent
      ensures Valid() && DidTo(AfterResume(md, was, conn, w, r), old(sent))
    {
      if code == RESUME_ALLOWED && ticket.Some? && w != 0 {
        sent := sent + [ToWorker(w, M.WorkerDispatch(ticket.value, 4096, 7))];
        Persist(md);
      }
      sent := sent + [Issued(conn, P.RESUME_ACK, code, ticket)];
    }

    method OnResume(conn: nat, p: M.ResumeRequest, env: Env, ghost md: Medium) returns (pick: nat)
      requires Valid() && OnDisk(md)
      modifies this, engine
      ensures Valid() && DidTo(Resumed(md, old(View()), conn, p, env.(pick := pick)), old(sent))
    {
      pick := FindWorker(p.worker);
      ghost var was := View();
      ghost var op := E.Resume(p.id, p.worker, p.boot, p.epoch, p.gen, env.aid, env.did);
      StepKeyed(was.engine, op);
      var code, ticket := engine.Resume(p.id, p.worker, p.boot, p.epoch, p.gen, env.aid, env.did);
      Return(conn, pick, code, ticket, md, was, E.Step(was.engine, op));
    }

    method OnStart(conn: nat, t: StartTicket)
      requires Valid()
      modifies this`sent, engine
      ensures Valid() && DidTo(Started(old(View()), conn, t), old(sent))
    {
      StepKeyed(engine.Snapshot(), E.MarkRunning(t));
      var code := engine.MarkRunning(t);
      sent := sent + [Decided(conn, P.COMPLETE_ACK, code)];
    }

    method Acknowledge(conn: nat, id: ExecutionId, code: Code, ghost md: Medium, ghost was: Node, ghost r: E.Result)
      requires OnDisk(md) && KeyedMap(r.state.records)
      requires View() == was.(engine := r.state) && code == r.code
      modifies this`file, this`sent
      ensures Valid() && DidTo(AfterComplete(md, was, conn, id, r), old(sent))
    {
      var digest := None;
      if code == ALLOW && id in engine.records {
        digest := engine.records[id].committedDigest;
        Persist(md);
      }
      sent := sent + [CompleteAck(conn, id, code, digest)];
    }

    method OnComplete(conn: nat, t: CompletionTicket, env: Env, ghost md: Medium)
      requires Valid() && OnDisk(md)
      modifies this, engine
      ensures Valid() && DidTo(Completed(md, old(View()), conn, t, env), old(sent))
    {
      ghost var was := View();
      ghost var op := E.Complete(t, env.now);
      StepKeyed(was.engine, op);
      var code := engine.Complete(t, env.now);
      Acknowledge(conn, t.auth.executionId, code, md, was, E.Step(was.engine, op));
    }

    method OnConnClosed(conn: nat, ghost md: Medium)
      requires Valid() && OnDisk(md)
      modifies this, engine
      ensures Valid() && DidTo(ConnClosed(md, old(View()), conn), old(sent))
    {
      if conn !in conns {
        return;
      }
      var c := conns[conn];
      conns := conns - {conn};
      if c.isWorker && c.activeExecution.Some? {
        StepKeyed(engine.Snapshot(), E.WorkerLost(c.activeExecution.value, c.worker, c.boot, epoch));
        var code := engine.MarkWorkerLost(c.activeExecution.value, c.worker, c.boot, epoch);
        Persist(md);
      }
    }

    method OnHello(conn: nat, h: M.Hello)
      requires Valid()
      modifies this`conns, this`sent
      ensures Valid() && DidTo(Greeted(old(View()), conn, h), old(sent))
    {
      var entry := if conn in conns then conns[conn] else BLANK;
      conns := conns[conn := entry.(isWorker := h.role == 1, worker := h.worker, boot := h.boot)];
      sent := sent + [Plain(conn, P.WELCOME)];
    }

    /** One message, handled to its end. */
    method Handle(conn: nat, msg: Message, env: Env, ghost md: Medium) returns (pick: nat)
      requires Valid() && OnDisk(md)
      modifies this, engine
      ensures Valid() && Did(md, conn, msg, env.(pick := pick), old(View()), old(sent))
    {
      pick := env.pick;
      match msg {
        case Ignored =>
        case Closes => OnConnClosed(conn, md);
        case Greets(h) => OnHello(conn, h);
        case Registers => sent := sent + [Plain(conn, P.REGISTER_ACK)];
        case Submits(p) => OnSubmit(conn, p, env, md);
        case Dispatches(p) => pick := OnDispatch(conn, p, env, md);
        case Starts(t) => OnStart(conn, t);
        case Completes(t) => OnComplete(conn, t, env, md);
        case Resumes(p) => pick := OnResume(conn, p, env, md);
        case Queries => sent := sent + [Plain(conn, P.QUERY_RESPONSE)];
        case Pings => sent := sent + [Plain(conn, P.PONG)];
        case Cancels(_) => OnRequest(conn, msg, env, md);
        case Preempts(_) => OnRequest(conn, msg, env, md);
        case _ => OnReport(conn, msg, env, md);
      }
    }

    /** One element of the queue, for a step function that is the state machine's. */
    method TakeOne(e: Event, ghost md: Medium, ghost next: Runs.Stepper) returns (ghost took: Event)
      requires Valid() && OnDisk(md) && Machine(md, next) && e.Inbound?
      modifies this, engine
      ensures Valid() && SameButPick(e, took) && DidTo(next(old(View()), took), old(sent))
    {
      took := e;
      if up {
        var pick := Handle(e.conn, Parsed(e.kind, e.payload), e.env, md);
        took := e.(env := e.env.(pick := pick));
      }
      assert Taking(old(View()), took);
    }

    /** The queue from its front: the run of the state machine over it, with the connections the searches came upon. */
    method DecisionLoop(queue: seq<Event>, ghost md: Medium, ghost next: Runs.Stepper) returns (ghost es: seq<Event>)
      requires Valid() && OnDisk(md) && Machine(md, next) && forall e :: e in queue ==> e.Inbound?
      modifies this, engine
      ensures Valid() && |es| == |queue| && forall i :: 0 <= i < |es| ==> SameButPick(queue[i], es[i])
      ensures View() == RunBy(next, old(View()), es) && sent == old(sent) + LogBy(next, old(View()), es)
    {
      es := [];
      var q := queue;
      while q != []
        invariant Valid() && |es| <= |queue| && q == queue[|es|..]
        invariant forall i :: 0 <= i < |es| ==> SameButPick(queue[i], es[i])
        invariant Served(next, old(View()), old(sent), es)
      {
        var e := q[0];
        q := q[1..];
        ghost var before := sent;
        ghost var took := TakeOne(e, md, next);
        ServedMore(next, old(View()), old(sent), es, took, before, sent);
        es := es + [took];
      }
    }

    /** The state and what was sent are those of the run over es. */
    ghost predicate Served(next: Runs.Stepper, was: Node, before: seq<Sent>, es: seq<Event>)
      reads this, engine
    {
      View() == RunBy(next, was, es) && sent == before + LogBy(next, was, es)
    }
  }

  lemma ServedMore(next: Runs.Stepper, was: Node, before: seq<Sent>, es: seq<Event>, e: Event, mid: seq<Sent>, end: seq<Sent>)
    requires mid == before + LogBy(next, was, es)
    requires end == mid + next(RunBy(next, was, es), e).sent
    ensures RunBy(next, was, es + [e]) == next(RunBy(next, was, es), e).node
    ensures end == before + LogBy(next, was, es + [e])
  {
    Runs.RunSnoc(next, was, es, e);
  }

  predicate SameButPick(e: Event, f: Event) {
    e.Inbound? && f.Inbound? && f == e.(env := e.env.(pick := f.env.pick))
  }

  /** next is the step of the state machine over md; Taking names the places where that matters. */
  ghost predicate Machine(md: Medium, next: Runs.Stepper) {
    forall n: Node, e: Event {:trigger Taking(n, e)} :: Taking(n, e) ==> next(n, e) == NextBy(md, n, e)
  }

  ghost predicate Taking(n: Node, e: Event) {
    true
  }

  /** Serving a queue over the real file is a run of the state machine. */
  method Serve(c: Coordinator, queue: seq<Event>) returns (ghost es: seq<Event>)
    requires c.Valid() && forall e :: e in queue ==> e.Inbound?
    modifies c, c.engine
    ensures c.Valid() && |es| == |queue| && forall i :: 0 <= i < |es| ==> SameButPick(queue[i], es[i])
    ensures c.View() == RunAll(old(c.View()), es) && c.sent == old(c.sent) + Log(old(c.View()), es)
  {
    DiskIsDisk();
    es := c.DecisionLoop(queue, Disk(), NodeStep);
  }
}
