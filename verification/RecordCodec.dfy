/** The stored form of one execution record: printer, reader and cross-field validation. */
module RecordCodec {
  import opened Types
  import opened Binary

  // ------------------------------------------------------------------------------------------
  // States as bytes.
  // ------------------------------------------------------------------------------------------

  function StateByte(s: ExecutionState): byte {
    match s
    case CREATED => 0 case READY => 1 case DISPATCHED => 2 case RUNNING => 3
    case CANCELLATION_REQUESTED => 4 case PREEMPTION_REQUESTED => 5 case PREEMPTED => 6
    case RESUMABLE => 7 case RESUMING => 8 case COMPLETION_PENDING => 9 case COMPLETED => 10
    case COMMITTED => 11 case FAILED => 12 case CANCELLED => 13 case AMBIGUOUS => 14
    case SUPERSEDED => 15 case TERMINAL => 16
  }

  function StateOf(b: byte): Option<ExecutionState> {
    match b
    case 0 => Some(CREATED) case 1 => Some(READY) case 2 => Some(DISPATCHED) case 3 => Some(RUNNING)
    case 4 => Some(CANCELLATION_REQUESTED) case 5 => Some(PREEMPTION_REQUESTED) case 6 => Some(PREEMPTED)
    case 7 => Some(RESUMABLE) case 8 => Some(RESUMING) case 9 => Some(COMPLETION_PENDING)
    case 10 => Some(COMPLETED) case 11 => Some(COMMITTED) case 12 => Some(FAILED) case 13 => Some(CANCELLED)
    case 14 => Some(AMBIGUOUS) case 15 => Some(SUPERSEDED) case 16 => Some(TERMINAL)
    case _ => None
  }

  function AttemptStateByte(s: AttemptState): byte {
    match s
    case ACreated => 0 case ADispatched => 1 case ARunning => 2 case APreempted => 3
    case ACompletePending => 4 case ACompleted => 5 case AFailed => 6 case ACancelled => 7
    case ALost => 8 case ASuperseded => 9 case ATerminal => 10
  }

  function AttemptStateOf(b: byte): Option<AttemptState> {
    match b
    case 0 => Some(ACreated) case 1 => Some(ADispatched) case 2 => Some(ARunning) case 3 => Some(APreempted)
    case 4 => Some(ACompletePending) case 5 => Some(ACompleted) case 6 => Some(AFailed)
    case 7 => Some(ACancelled) case 8 => Some(ALost) case 9 => Some(ASuperseded) case 10 => Some(ATerminal)
    case _ => None
  }

  function GetState(b: seq<byte>): Parse<ExecutionState> {
    var (v, b) :- GetByte(b);
    if StateOf(v).None? then Fail else Ok(StateOf(v).value, b)
  }

  function PutState(s: ExecutionState, k: seq<byte>): (b: seq<byte>)
    ensures GetState(b) == Ok(s, k)
  {
    PutByte(StateByte(s), k)
  }

  function GetAttemptState(b: seq<byte>): Parse<AttemptState> {
    var (v, b) :- GetByte(b);
    if AttemptStateOf(v).None? then Fail else Ok(AttemptStateOf(v).value, b)
  }

  function PutAttemptState(s: AttemptState, k: seq<byte>): (b: seq<byte>)
    ensures GetAttemptState(b) == Ok(s, k)
  {
    PutByte(AttemptStateByte(s), k)
  }

  lemma NormState(b: seq<byte>, c: seq<byte>, m: Mask)
    requires GetState(b).Ok? && Normalised(GetState(b).rest, c, m)
    ensures Normalised(b, PutState(GetState(b).value, c), Plain(1, m))
  {
    NormByte(b, c, m);
  }

  lemma NormAttemptState(b: seq<byte>, c: seq<byte>, m: Mask)
    requires GetAttemptState(b).Ok? && Normalised(GetAttemptState(b).rest, c, m)
    ensures Normalised(b, PutAttemptState(GetAttemptState(b).value, c), Plain(1, m))
  {
    NormByte(b, c, m);
  }

  lemma StatesExtend()
    ensures forall b: seq<byte>, x: seq<byte> {:trigger GetState(b + x)} ::
              GetState(b).Ok? ==> GetState(b + x) == Extended(GetState(b), x)
    ensures forall b: seq<byte>, x: seq<byte> {:trigger GetAttemptState(b + x)} ::
              GetAttemptState(b).Ok? ==> GetAttemptState(b + x) == Extended(GetAttemptState(b), x)
  {
    FieldsExtend();
  }

  // ------------------------------------------------------------------------------------------
  // Attempts: the authority that identifies one, then what became of it.
  // ------------------------------------------------------------------------------------------

  datatype Key = Key(id: AttemptId, generation: U64, worker: WorkerId, boot: BootId, dispatchId: DispatchId,
                     dispatchGeneration: U64, ownership: U64, fence: U64)
  datatype Fate = Fate(stateAtDispatch: ExecutionState, state: AttemptState, resultDigest: Option<Digest>,
                       resultPayload: Option<Text>, failureReason: Option<Text>)

  function KeyOf(a: Attempt): Key {
    Key(a.id, a.generation, a.worker, a.boot, a.dispatchId, a.dispatchGeneration, a.ownership, a.fence)
  }

  function FateOf(a: Attempt): Fate {
    Fate(a.stateAtDispatch, a.state, a.resultDigest, a.resultPayload, a.failureReason)
  }

  function PutKey(a: Key, k: seq<byte>): (b: seq<byte>)
    ensures GetKey(b) == Ok(a, k)
  {
    PutUuid(a.id, PutU64(a.generation, PutUuid(a.worker, PutUuid(a.boot, PutUuid(a.dispatchId,
    PutU64(a.dispatchGeneration, PutU64(a.ownership, PutU64(a.fence, k))))))))
  }

  function GetKey(b: seq<byte>): Parse<Key> {
    var (id, b) :- GetUuid(b);
    var (generation, b) :- GetU64(b);
    var (worker, b) :- GetUuid(b);
    var (boot, b) :- GetUuid(b);
    var (dispatchId, b) :- GetUuid(b);
    var (dispatchGeneration, b) :- GetU64(b);
    var (ownership, b) :- GetU64(b);
    var (fence, b) :- GetU64(b);
    Ok(Key(id, generation, worker, boot, dispatchId, dispatchGeneration, ownership, fence), b)
  }

  function PutFate(a: Fate, k: seq<byte>): (b: seq<byte>)
    ensures TextFits(a.resultPayload) && TextFits(a.failureReason) ==>
              GetFate(b) == if TextReads(a.resultPayload) && TextReads(a.failureReason) then Ok(a, k) else Fail
  {
    PutState(a.stateAtDispatch, PutAttemptState(a.state,
    PutOptDigest(a.resultDigest, PutOptText(a.resultPayload, PutOptText(a.failureReason, k)))))
  }

  function GetFate(b: seq<byte>): Parse<Fate> {
    var (stateAtDispatch, b) :- GetState(b);
    var (state, b) :- GetAttemptState(b);
    var (resultDigest, b) :- GetOptDigest(b);
    var (resultPayload, b) :- GetOptText(b);
    var (failureReason, b) :- GetOptText(b);
    Ok(Fate(stateAtDispatch, state, resultDigest, resultPayload, failureReason), b)
  }

  function PutAttempt(a: Attempt, k: seq<byte>): seq<byte> {
    PutKey(KeyOf(a), PutFate(FateOf(a), k))
  }

  function GetAttempt(b: seq<byte>): Parse<Attempt> {
    var (w, b) :- GetKey(b);
    var (f, b) :- GetFate(b);
    Ok(Attempt(w.id, w.generation, w.worker, w.boot, w.dispatchId, w.dispatchGeneration, w.ownership, w.fence,
               f.stateAtDispatch, f.state, f.resultDigest, f.resultPayload, f.failureReason), b)
  }

  /** No length of the attempt is truncated when it is written. */
  predicate AttemptFits(a: Attempt) {
    TextFits(a.resultPayload) && TextFits(a.failureReason)
  }

  /** Its strings are short enough for the reader. */
  predicate AttemptReads(a: Attempt) {
    TextReads(a.resultPayload) && TextReads(a.failureReason)
  }

  lemma AttemptsRoundTrip()
    ensures RoundTrips(GetAttempt, PutAttempt, AttemptFits, AttemptReads)
  {}

  /** The presence bytes of an attempt: none in its key, three in its fate. */
  function MaskKey(m: Mask): Mask {
    Plain(16, Plain(8, Plain(16, Plain(16, Plain(16, Plain(8, Plain(8, Plain(8, m))))))))
  }

  function MaskFate(a: Fate, m: Mask): Mask {
    Plain(1, Plain(1, Optional(a.resultDigest.Some?, 32,
    Optional(a.resultPayload.Some?, TextSize(a.resultPayload),
    Optional(a.failureReason.Some?, TextSize(a.failureReason), m)))))
  }

  function MaskAttempt(a: Attempt, m: Mask): Mask {
    MaskKey(MaskFate(FateOf(a), m))
  }

  lemma NormKey(b: seq<byte>, c: seq<byte>, m: Mask)
    requires GetKey(b).Ok? && Normalised(GetKey(b).rest, c, m)
    ensures Normalised(b, PutKey(GetKey(b).value, c), MaskKey(m))
  {
    var b1 := GetUuid(b).rest;
    var b2 := GetU64(b1).rest;
    var b3 := GetUuid(b2).rest;
    var b4 := GetUuid(b3).rest;
    var b5 := GetUuid(b4).rest;
    var b6 := GetU64(b5).rest;
    var b7 := GetU64(b6).rest;
    var a := GetKey(b).value;
    NormU64(b7, c, m);
    var c7, m7 := PutU64(a.fence, c), Plain(8, m);
    NormU64(b6, c7, m7);
    var c6, m6 := PutU64(a.ownership, c7), Plain(8, m7);
    NormU64(b5, c6, m6);
    var c5, m5 := PutU64(a.dispatchGeneration, c6), Plain(8, m6);
    NormUuid(b4, c5, m5);
    var c4, m4 := PutUuid(a.dispatchId, c5), Plain(16, m5);
    NormUuid(b3, c4, m4);
    var c3, m3 := PutUuid(a.boot, c4), Plain(16, m4);
    NormUuid(b2, c3, m3);
    var c2, m2 := PutUuid(a.worker, c3), Plain(16, m3);
    NormU64(b1, c2, m2);
    NormUuid(b, PutU64(a.generation, c2), Plain(8, m2));
  }

  lemma NormFate(b: seq<byte>, c: seq<byte>, m: Mask)
    requires GetFate(b).Ok? && Normalised(GetFate(b).rest, c, m)
    ensures Normalised(b, PutFate(GetFate(b).value, c), MaskFate(GetFate(b).value, m))
    ensures TextReads(GetFate(b).value.resultPayload) && TextReads(GetFate(b).value.failureReason)
  {
    var b1 := GetState(b).rest;
    var b2 := GetAttemptState(b1).rest;
    var b3 := GetOptDigest(b2).rest;
    var b4 := GetOptText(b3).rest;
    var a := GetFate(b).value;
    NormOptText(b4, c, m);
    var c4, m4 := PutOptText(a.failureReason, c), Optional(a.failureReason.Some?, TextSize(a.failureReason), m);
    NormOptText(b3, c4, m4);
    var c3, m3 := PutOptText(a.resultPayload, c4), Optional(a.resultPayload.Some?, TextSize(a.resultPayload), m4);
    NormOptDigest(b2, c3, m3);
    var c2, m2 := PutOptDigest(a.resultDigest, c3), Optional(a.resultDigest.Some?, 32, m3);
    NormAttemptState(b1, c2, m2);
    NormState(b, PutAttemptState(a.state, c2), Plain(1, m2));
  }

  lemma AttemptsNormalise()
    ensures Normalises(GetAttempt, PutAttempt, MaskAttempt, AttemptReads)
  {
    forall b: seq<byte>, c: seq<byte>, m: Mask | GetAttempt(b).Ok? && Normalised(GetAttempt(b).rest, c, m)
      ensures Normalised(b, PutAttempt(GetAttempt(b).value, c), MaskAttempt(GetAttempt(b).value, m))
      ensures AttemptReads(GetAttempt(b).value)
    {
      NormAttempt(b, c, m);
    }
  }

  lemma NormAttempt(b: seq<byte>, c: seq<byte>, m: Mask)
    requires GetAttempt(b).Ok? && Normalised(GetAttempt(b).rest, c, m)
    ensures Normalised(b, PutAttempt(GetAttempt(b).value, c), MaskAttempt(GetAttempt(b).value, m))
    ensures AttemptReads(GetAttempt(b).value)
  {
    var p := GetKey(b);
    var f := GetFate(p.rest).value;
    NormFate(p.rest, c, m);
    NormKey(b, PutFate(f, c), MaskFate(f, m));
  }

  lemma KeyExtends(b: seq<byte>, x: seq<byte>)
    requires GetKey(b).Ok?
    ensures GetKey(b + x) == Extended(GetKey(b), x)
  {
    var b1 := GetUuid(b).rest;
    var b2 := GetU64(b1).rest;
    var b3 := GetUuid(b2).rest;
    var b4 := GetUuid(b3).rest;
    var b5 := GetUuid(b4).rest;
    var b6 := GetU64(b5).rest;
    var b7 := GetU64(b6).rest;
    UuidExtends(b, x);
    U64Extends(b1, x);
    UuidExtends(b2, x);
    UuidExtends(b3, x);
    UuidExtends(b4, x);
    U64Extends(b5, x);
    U64Extends(b6, x);
    U64Extends(b7, x);
  }

  lemma FateExtends(b: seq<byte>, x: seq<byte>)
    requires GetFate(b).Ok?
    ensures GetFate(b + x) == Extended(GetFate(b), x)
  {
    StatesExtend();
    OptionsExtend();
    OptTextExtends();
  }

  lemma AttemptsStopInTime()
    ensures StopsInTime(GetAttempt)
  {
    forall b: seq<byte>, x: seq<byte> | GetAttempt(b).Ok?
      ensures GetAttempt(b + x) == Extended(GetAttempt(b), x)
    {
      KeyExtends(b, x);
      FateExtends(GetKey(b).rest, x);
    }
  }

  // ------------------------------------------------------------------------------------------
  // Records, in four groups of fields.
  // ------------------------------------------------------------------------------------------

  datatype Front = Front(id: ExecutionId, generation: U64, state: ExecutionState, epoch: U64, ownership: U64, fence: U64)
  datatype Names = Names(current: Option<AttemptId>, currentGeneration: Option<U64>,
                         owner: Option<WorkerId>, ownerBoot: Option<BootId>)
  datatype Counts = Counts(cancellation: U64, preemption: U64, resumption: U64, completion: U64, commit: U64,
                           committedDigest: Option<Digest>)
  datatype Tail = Tail(attempts: seq<Attempt>, createdAt: Text, committedAt: Text)

  function FrontOf(r: Record): Front {
    Front(r.id, r.generation, r.state, r.epoch, r.ownership, r.fence)
  }

  function NamesOf(r: Record): Names {
    Names(r.current, r.currentGeneration, r.owner, r.ownerBoot)
  }

  function CountsOf(r: Record): Counts {
    Counts(r.cancellation, r.preemption, r.resumption, r.completion, r.commit, r.committedDigest)
  }

  function TailOf(r: Record): Tail {
    Tail(r.attempts, r.createdAt, r.committedAt)
  }

  function Assemble(f: Front, n: Names, c: Counts, t: Tail): Record {
    Record(f.id, f.generation, f.state, f.epoch, f.ownership, f.fence,
           n.current, n.currentGeneration, n.owner, n.ownerBoot,
           c.cancellation, c.preemption, c.resumption, c.completion, c.commit, c.committedDigest,
           t.attempts, t.createdAt, t.committedAt)
  }

  function PutFront(r: Front, k: seq<byte>): (b: seq<byte>)
    ensures GetFront(b) == Ok(r, k)
  {
    PutUuid(r.id, PutU64(r.generation, PutState(r.state, PutU64(r.epoch, PutU64(r.ownership, PutU64(r.fence, k))))))
  }

  function GetFront(b: seq<byte>): Parse<Front> {
    var (id, b) :- GetUuid(b);
    var (generation, b) :- GetU64(b);
    var (state, b) :- GetState(b);
    var (epoch, b) :- GetU64(b);
    var (ownership, b) :- GetU64(b);
    var (fence, b) :- GetU64(b);
    Ok(Front(id, generation, state, epoch, ownership, fence), b)
  }

  function PutNames(r: Names, k: seq<byte>): (b: seq<byte>)
    ensures GetNames(b) == Ok(r, k)
  {
    PutOptUuid(r.current, PutOptU64(r.currentGeneration, PutOptUuid(r.owner, PutOptUuid(r.ownerBoot, k))))
  }

  function GetNames(b: seq<byte>): Parse<Names> {
    var (current, b) :- GetOptUuid(b);
    var (currentGeneration, b) :- GetOptU64(b);
    var (owner, b) :- GetOptUuid(b);
    var (ownerBoot, b) :- GetOptUuid(b);
    Ok(Names(current, currentGeneration, owner, ownerBoot), b)
  }

  function PutCounts(r: Counts, k: seq<byte>): (b: seq<byte>)
    ensures GetCounts(b) == Ok(r, k)
  {
    PutU64(r.cancellation, PutU64(r.preemption, PutU64(r.resumption, PutU64(r.completion, PutU64(r.commit,
    PutOptDigest(r.committedDigest, k))))))
  }

  function GetCounts(b: seq<byte>): Parse<Counts> {
    var (cancellation, b) :- GetU64(b);
    var (preemption, b) :- GetU64(b);
    var (resumption, b) :- GetU64(b);
    var (completion, b) :- GetU64(b);
    var (commit, b) :- GetU64(b);
    var (committedDigest, b) :- GetOptDigest(b);
    Ok(Counts(cancellation, preemption, resumption, completion, commit, committedDigest), b)
  }

  function PutTail(r: Tail, k: seq<byte>): seq<byte> {
    PutList(PutAttempt, r.attempts, PutText(r.createdAt, PutText(r.committedAt, k)))
  }

  function GetTail(b: seq<byte>): Parse<Tail> {
    var (attempts, b) :- GetList(GetAttempt, b);
    var (createdAt, b) :- GetText(b);
    var (committedAt, b) :- GetText(b);
    Ok(Tail(attempts, createdAt, committedAt), b)
  }

  function PutRecord(r: Record, k: seq<byte>): seq<byte> {
    PutFront(FrontOf(r), PutNames(NamesOf(r), PutCounts(CountsOf(r), PutTail(TailOf(r), k))))
  }

  function EncodeRecord(r: Record): seq<byte> {
    PutRecord(r, [])
  }

  function GetRecord(b: seq<byte>): Parse<Record> {
    var (front, b) :- GetFront(b);
    var (names, b) :- GetNames(b);
    var (counts, b) :- GetCounts(b);
    var (tail, b) :- GetTail(b);
    Ok(Assemble(front, names, counts, tail), b)
  }

  predicate HistoryChecks(ats: seq<Attempt>) {
    && (forall i, j :: 0 <= i < j < |ats| ==> ats[i].id != ats[j].id && ats[i].dispatchId != ats[j].dispatchId)
    && (forall i :: 0 <= i < |ats| ==> ats[i].generation != 0 && ats[i].dispatchGeneration != 0)
  }

  predicate CurrentChecks(r: Record) {
    r.current.Some? ==>
      && r.currentGeneration.Some?
      && exists i :: 0 <= i < |r.attempts| && r.attempts[i].id == r.current.value
                     && r.attempts[i].generation == r.currentGeneration.value
  }

  predicate StateChecks(r: Record) {
    && (r.state == COMMITTED ==> r.committedDigest.Some? && r.commit != 0)
    && (r.state == RUNNING || r.state == DISPATCHED || r.state == RESUMING
        || r.state == CANCELLATION_REQUESTED || r.state == PREEMPTION_REQUESTED ==>
          r.current.Some? && r.owner.Some? && r.ownerBoot.Some?)
  }

  /** The impossible combinations that the reader rejects. */
  predicate CrossChecks(r: Record) {
    r.generation != 0 && HistoryChecks(r.attempts) && CurrentChecks(r) && StateChecks(r)
  }

  function DecodeRecord(b: seq<byte>): Option<Record> {
    var p := GetRecord(b);
    if p.Ok? && p.rest == [] && CrossChecks(p.value) then Some(p.value) else None
  }

  ghost predicate TailFits(r: Tail) {
    && |r.attempts| < U32 && |r.createdAt| < U32 && |r.committedAt| < U32
    && AllHold(AttemptFits, r.attempts)
  }

  ghost predicate TailReads(r: Tail) {
    && |r.attempts| <= MAX_COUNT && |r.createdAt| <= MAX_STRING && |r.committedAt| <= MAX_STRING
    && AllHold(AttemptReads, r.attempts)
  }

  /** No length of the record is truncated when it is written. */
  ghost predicate Fits(r: Record) {
    TailFits(TailOf(r))
  }

  /** Its counts and strings are within the limits of the reader. */
  ghost predicate Reads(r: Record) {
    TailReads(TailOf(r))
  }

  lemma TailRoundTrip(r: Tail, k: seq<byte>)
    requires TailFits(r)
    ensures GetTail(PutTail(r, k)) == if TailReads(r) then Ok(r, k) else Fail
  {
    AttemptsRoundTrip();
    ListRoundTrip(GetAttempt, PutAttempt, AttemptFits, AttemptReads, r.attempts,
                  PutText(r.createdAt, PutText(r.committedAt, k)));
  }

  /** Reading back any record that was written without truncation: itself, or a refusal. */
  lemma RecordRoundTrip(r: Record, k: seq<byte>)
    requires Fits(r)
    ensures GetRecord(PutRecord(r, k)) == if Reads(r) then Ok(r, k) else Fail
  {
    TailRoundTrip(TailOf(r), k);
  }

  /** decode(encode(r)) is r exactly for the records within the limits that pass the cross checks. */
  lemma DecodeOfEncode(r: Record)
    requires Fits(r)
    ensures DecodeRecord(EncodeRecord(r)) == if Reads(r) && CrossChecks(r) then Some(r) else None
  {
    RecordRoundTrip(r, []);
  }

  lemma DecodeOfGood(r: Record)
    requires Reads(r) && CrossChecks(r)
    ensures DecodeRecord(EncodeRecord(r)) == Some(r)
  {
    forall i | 0 <= i < |r.attempts|
      ensures AttemptFits(r.attempts[i])
    {
      assert AttemptReads(r.attempts[i]);
    }
    DecodeOfEncode(r);
  }

  /** The presence bytes of a record: four for the current authority, one for the digest, three per attempt. */
  function MaskFront(m: Mask): Mask {
    Plain(16, Plain(8, Plain(1, Plain(8, Plain(8, Plain(8, m))))))
  }

  function MaskNames(r: Names, m: Mask): Mask {
    Optional(r.current.Some?, 16, Optional(r.currentGeneration.Some?, 8,
    Optional(r.owner.Some?, 16, Optional(r.ownerBoot.Some?, 16, m))))
  }

  function MaskCounts(r: Counts, m: Mask): Mask {
    Plain(8, Plain(8, Plain(8, Plain(8, Plain(8, Optional(r.committedDigest.Some?, 32, m))))))
  }

  function MaskTail(r: Tail, m: Mask): Mask {
    MaskList(MaskAttempt, r.attempts, Plain(4 + |r.createdAt|, Plain(4 + |r.committedAt|, m)))
  }

  function MaskRecord(r: Record, m: Mask): Mask {
    MaskFront(MaskNames(NamesOf(r), MaskCounts(CountsOf(r), MaskTail(TailOf(r), m))))
  }

  lemma NormFront(b: seq<byte>, c: seq<byte>, m: Mask)
    requires GetFront(b).Ok? && Normalised(GetFront(b).rest, c, m)
    ensures Normalised(b, PutFront(GetFront(b).value, c), MaskFront(m))
  {
    var b1 := GetUuid(b).rest;
    var b2 := GetU64(b1).rest;
    var b3 := GetState(b2).rest;
    var b4 := GetU64(b3).rest;
    var b5 := GetU64(b4).rest;
    var r := GetFront(b).value;
    NormU64(b5, c, m);
    var c5, m5 := PutU64(r.fence, c), Plain(8, m);
    NormU64(b4, c5, m5);
    var c4, m4 := PutU64(r.ownership, c5), Plain(8, m5);
    NormU64(b3, c4, m4);
    var c3, m3 := PutU64(r.epoch, c4), Plain(8, m4);
    NormState(b2, c3, m3);
    var c2, m2 := PutState(r.state, c3), Plain(1, m3);
    NormU64(b1, c2, m2);
    NormUuid(b, PutU64(r.generation, c2), Plain(8, m2));
  }

  lemma NormNames(b: seq<byte>, c: seq<byte>, m: Mask)
    requires GetNames(b).Ok? && Normalised(GetNames(b).rest, c, m)
    ensures Normalised(b, PutNames(GetNames(b).value, c), MaskNames(GetNames(b).value, m))
  {
    var b1 := GetOptUuid(b).rest;
    var b2 := GetOptU64(b1).rest;
    var b3 := GetOptUuid(b2).rest;
    var r := GetNames(b).value;
    NormOptUuid(b3, c, m);
    var c3, m3 := PutOptUuid(r.ownerBoot, c), Optional(r.ownerBoot.Some?, 16, m);
    NormOptUuid(b2, c3, m3);
    var c2, m2 := PutOptUuid(r.owner, c3), Optional(r.owner.Some?, 16, m3);
    NormOptU64(b1, c2, m2);
    NormOptUuid(b, PutOptU64(r.currentGeneration, c2), Optional(r.currentGeneration.Some?, 8, m2));
  }

  lemma NormCounts(b: seq<byte>, c: seq<byte>, m: Mask)
    requires GetCounts(b).Ok? && Normalised(GetCounts(b).rest, c, m)
    ensures Normalised(b, PutCounts(GetCounts(b).value, c), MaskCounts(GetCounts(b).value, m))
  {
    var b1 := GetU64(b).rest;
    var b2 := GetU64(b1).rest;
    var b3 := GetU64(b2).rest;
    var b4 := GetU64(b3).rest;
    var b5 := GetU64(b4).rest;
    var r := GetCounts(b).value;
    NormOptDigest(b5, c, m);
    var c5, m5 := PutOptDigest(r.committedDigest, c), Optional(r.committedDigest.Some?, 32, m);
    NormU64(b4, c5, m5);
    var c4, m4 := PutU64(r.commit, c5), Plain(8, m5);
    NormU64(b3, c4, m4);
    var c3, m3 := PutU64(r.completion, c4), Plain(8, m4);
    NormU64(b2, c3, m3);
    var c2, m2 := PutU64(r.resumption, c3), Plain(8, m3);
    NormU64(b1, c2, m2);
    NormU64(b, PutU64(r.preemption, c2), Plain(8, m2));
  }

  lemma NormTail(b: seq<byte>, c: seq<byte>, m: Mask)
    requires GetTail(b).Ok? && Normalised(GetTail(b).rest, c, m)
    ensures Normalised(b, PutTail(GetTail(b).value, c), MaskTail(GetTail(b).value, m)) && TailReads(GetTail(b).value)
  {
    var r := GetTail(b).value;
    var ats := GetList(GetAttempt, b);
    var t1 := GetText(ats.rest);
    TextAccepts(ats.rest);
    TextAccepts(t1.rest);
    NormText(t1.rest, c, m);
    var c2, m2 := PutText(r.committedAt, c), Plain(4 + |r.committedAt|, m);
    NormText(ats.rest, c2, m2);
    var c1, m1 := PutText(r.createdAt, c2), Plain(4 + |r.createdAt|, m2);
    AttemptsNormalise();
    ListNormalises(GetAttempt, PutAttempt, MaskAttempt, AttemptReads, b, c1, m1);
  }

  lemma NormRecord(b: seq<byte>, c: seq<byte>, m: Mask)
    requires GetRecord(b).Ok? && Normalised(GetRecord(b).rest, c, m)
    ensures Normalised(b, PutRecord(GetRecord(b).value, c), MaskRecord(GetRecord(b).value, m)) && Reads(GetRecord(b).value)
  {
    var p1 := GetFront(b);
    var p2 := GetNames(p1.rest);
    var p3 := GetCounts(p2.rest);
    var p4 := GetTail(p3.rest);
    NormTail(p3.rest, c, m);
    var c3, m3 := PutTail(p4.value, c), MaskTail(p4.value, m);
    NormCounts(p2.rest, c3, m3);
    var c2, m2 := PutCounts(p3.value, c3), MaskCounts(p3.value, m3);
    NormNames(p1.rest, c2, m2);
    NormFront(b, PutNames(p2.value, c2), MaskNames(p2.value, m2));
  }

  /** Re-encoding what a byte string decodes to gives that string with its presence bytes, and no others, normalised. */
  lemma EncodeOfDecode(b: seq<byte>)
    requires DecodeRecord(b).Some?
    ensures var r := DecodeRecord(b).value;
            && Reads(r) && CrossChecks(r)
            && Normalised(b, EncodeRecord(r), MaskRecord(r, []))
            && DecodeRecord(EncodeRecord(r)) == Some(r)
  {
    NormRecord(b, [], []);
    DecodeOfGood(DecodeRecord(b).value);
  }

  // ------------------------------------------------------------------------------------------
  // Exactly which byte strings decode.
  // ------------------------------------------------------------------------------------------

  lemma BackState(s: ExecutionState, b: seq<byte>, c: seq<byte>, m: Mask)
    requires Normalised(b, PutState(s, c), Plain(1, m))
    ensures Back(GetState(b), s, c, m)
  {
    BackByte(StateByte(s), b, c, m);
  }

  lemma BackAttemptState(s: AttemptState, b: seq<byte>, c: seq<byte>, m: Mask)
    requires Normalised(b, PutAttemptState(s, c), Plain(1, m))
    ensures Back(GetAttemptState(b), s, c, m)
  {
    BackByte(AttemptStateByte(s), b, c, m);
  }

  lemma BackKey(a: Key, b: seq<byte>, c: seq<byte>, m: Mask)
    requires Normalised(b, PutKey(a, c), MaskKey(m))
    ensures Back(GetKey(b), a, c, m)
  {
    var c7, m7 := PutU64(a.fence, c), Plain(8, m);
    var c6, m6 := PutU64(a.ownership, c7), Plain(8, m7);
    var c5, m5 := PutU64(a.dispatchGeneration, c6), Plain(8, m6);
    var c4, m4 := PutUuid(a.dispatchId, c5), Plain(16, m5);
    var c3, m3 := PutUuid(a.boot, c4), Plain(16, m4);
    var c2, m2 := PutUuid(a.worker, c3), Plain(16, m3);
    var c1, m1 := PutU64(a.generation, c2), Plain(8, m2);
    BackUuid(a.id, b, c1, m1);
    var b1 := GetUuid(b).rest;
    BackU64(a.generation, b1, c2, m2);
    var b2 := GetU64(b1).rest;
    BackUuid(a.worker, b2, c3, m3);
    var b3 := GetUuid(b2).rest;
    BackUuid(a.boot, b3, c4, m4);
    var b4 := GetUuid(b3).rest;
    BackUuid(a.dispatchId, b4, c5, m5);
    var b5 := GetUuid(b4).rest;
    BackU64(a.dispatchGeneration, b5, c6, m6);
    var b6 := GetU64(b5).rest;
    BackU64(a.ownership, b6, c7, m7);
    var b7 := GetU64(b6).rest;
    BackU64(a.fence, b7, c, m);
  }

  lemma BackFate(a: Fate, b: seq<byte>, c: seq<byte>, m: Mask)
    requires TextReads(a.resultPayload) && TextReads(a.failureReason)
    requires Normalised(b, PutFate(a, c), MaskFate(a, m))
    ensures Back(GetFate(b), a, c, m)
  {
    var c4, m4 := PutOptText(a.failureReason, c), Optional(a.failureReason.Some?, TextSize(a.failureReason), m);
    var c3, m3 := PutOptText(a.resultPayload, c4), Optional(a.resultPayload.Some?, TextSize(a.resultPayload), m4);
    var c2, m2 := PutOptDigest(a.resultDigest, c3), Optional(a.resultDigest.Some?, 32, m3);
    var c1, m1 := PutAttemptState(a.state, c2), Plain(1, m2);
    BackState(a.stateAtDispatch, b, c1, m1);
    var b1 := GetState(b).rest;
    BackAttemptState(a.state, b1, c2, m2);
    var b2 := GetAttemptState(b1).rest;
    BackOptDigest(a.resultDigest, b2, c3, m3);
    var b3 := GetOptDigest(b2).rest;
    BackOptText(a.resultPayload, b3, c4, m4);
    var b4 := GetOptText(b3).rest;
    BackOptText(a.failureReason, b4, c, m);
  }

  lemma BackAttempt(a: Attempt, b: seq<byte>, c: seq<byte>, m: Mask)
    requires AttemptReads(a) && Normalised(b, PutAttempt(a, c), MaskAttempt(a, m))
    ensures Back(GetAttempt(b), a, c, m)
  {
    BackKey(KeyOf(a), b, PutFate(FateOf(a), c), MaskFate(FateOf(a), m));
    BackFate(FateOf(a), GetKey(b).rest, c, m);
  }

  lemma AttemptsReadBack()
    ensures ReadsBack(GetAttempt, PutAttempt, MaskAttempt, AttemptReads)
  {
    forall a: Attempt, b: seq<byte>, c: seq<byte>, m: Mask | AttemptReads(a) && Normalised(b, PutAttempt(a, c), MaskAttempt(a, m))
      ensures Back(GetAttempt(b), a, c, m)
    {
      BackAttempt(a, b, c, m);
    }
  }

  lemma BackFront(r: Front, b: seq<byte>, c: seq<byte>, m: Mask)
    requires Normalised(b, PutFront(r, c), MaskFront(m))
    ensures Back(GetFront(b), r, c, m)
  {
    var c5, m5 := PutU64(r.fence, c), Plain(8, m);
    var c4, m4 := PutU64(r.ownership, c5), Plain(8, m5);
    var c3, m3 := PutU64(r.epoch, c4), Plain(8, m4);
    var c2, m2 := PutState(r.state, c3), Plain(1, m3);
    var c1, m1 := PutU64(r.generation, c2), Plain(8, m2);
    BackUuid(r.id, b, c1, m1);
    var b1 := GetUuid(b).rest;
    BackU64(r.generation, b1, c2, m2);
    var b2 := GetU64(b1).rest;
    BackState(r.state, b2, c3, m3);
    var b3 := GetState(b2).rest;
    BackU64(r.epoch, b3, c4, m4);
    var b4 := GetU64(b3).rest;
    BackU64(r.ownership, b4, c5, m5);
    var b5 := GetU64(b4).rest;
    BackU64(r.fence, b5, c, m);
  }

  lemma BackNames(r: Names, b: seq<byte>, c: seq<byte>, m: Mask)
    requires Normalised(b, PutNames(r, c), MaskNames(r, m))
    ensures Back(GetNames(b), r, c, m)
  {
    var c3, m3 := PutOptUuid(r.ownerBoot, c), Optional(r.ownerBoot.Some?, 16, m);
    var c2, m2 := PutOptUuid(r.owner, c3), Optional(r.owner.Some?, 16, m3);
    var c1, m1 := PutOptU64(r.currentGeneration, c2), Optional(r.currentGeneration.Some?, 8, m2);
    BackOptUuid(r.current, b, c1, m1);
    var b1 := GetOptUuid(b).rest;
    BackOptU64(r.currentGeneration, b1, c2, m2);
    var b2 := GetOptU64(b1).rest;
    BackOptUuid(r.owner, b2, c3, m3);
    var b3 := GetOptUuid(b2).rest;
    BackOptUuid(r.ownerBoot, b3, c, m);
  }

  lemma BackCounts(r: Counts, b: seq<byte>, c: seq<byte>, m: Mask)
    requires Normalised(b, PutCounts(r, c), MaskCounts(r, m))
    ensures Back(GetCounts(b), r, c, m)
  {
    var c5, m5 := PutOptDigest(r.committedDigest, c), Optional(r.committedDigest.Some?, 32, m);
    var c4, m4 := PutU64(r.commit, c5), Plain(8, m5);
    var c3, m3 := PutU64(r.completion, c4), Plain(8, m4);
    var c2, m2 := PutU64(r.resumption, c3), Plain(8, m3);
    var c1, m1 := PutU64(r.preemption, c2), Plain(8, m2);
    BackU64(r.cancellation, b, c1, m1);
    var b1 := GetU64(b).rest;
    BackU64(r.preemption, b1, c2, m2);
    var b2 := GetU64(b1).rest;
    BackU64(r.resumption, b2, c3, m3);
    var b3 := GetU64(b2).rest;
    BackU64(r.completion, b3, c4, m4);
    var b4 := GetU64(b3).rest;
    BackU64(r.commit, b4, c5, m5);
    var b5 := GetU64(b4).rest;
    BackOptDigest(r.committedDigest, b5, c, m);
  }

  lemma BackAttempts(ats: seq<Attempt>, b: seq<byte>, c: seq<byte>, m: Mask)
    requires |ats| <= MAX_COUNT && AllHold(AttemptReads, ats)
    requires Normalised(b, PutList(PutAttempt, ats, c), MaskList(MaskAttempt, ats, m))
    ensures Back(GetList(GetAttempt, b), ats, c, m)
  {
    AttemptsReadBack();
    ListBack(GetAttempt, PutAttempt, MaskAttempt, AttemptReads, ats, b, c, m);
  }

  lemma TailOfParts(b: seq<byte>, r: Tail, b1: seq<byte>, b2: seq<byte>, b3: seq<byte>)
    requires GetList(GetAttempt, b) == Ok(r.attempts, b1) && GetText(b1) == Ok(r.createdAt, b2) && GetText(b2) == Ok(r.committedAt, b3)
    ensures GetTail(b) == Ok(r, b3)
  {}

  lemma BackTail(r: Tail, b: seq<byte>, c: seq<byte>, m: Mask)
    requires TailReads(r) && Normalised(b, PutTail(r, c), MaskTail(r, m))
    ensures Back(GetTail(b), r, c, m)
  {
    var c2, m2 := PutText(r.committedAt, c), Plain(4 + |r.committedAt|, m);
    var c1, m1 := PutText(r.createdAt, c2), Plain(4 + |r.createdAt|, m2);
    BackAttempts(r.attempts, b, c1, m1);
    var b1 := GetList(GetAttempt, b).rest;
    BackText(r.createdAt, b1, c2, m2);
    var b2 := GetText(b1).rest;
    BackText(r.committedAt, b2, c, m);
    TailOfParts(b, r, b1, b2, GetText(b2).rest);
  }

  lemma RecordOfParts(b: seq<byte>, r: Record, b1: seq<byte>, b2: seq<byte>, b3: seq<byte>, b4: seq<byte>)
    requires GetFront(b) == Ok(FrontOf(r), b1) && GetNames(b1) == Ok(NamesOf(r), b2)
    requires GetCounts(b2) == Ok(CountsOf(r), b3) && GetTail(b3) == Ok(TailOf(r), b4)
    ensures GetRecord(b) == Ok(r, b4)
  {}

  lemma BackRecord(r: Record, b: seq<byte>, c: seq<byte>, m: Mask)
    requires Reads(r) && Normalised(b, PutRecord(r, c), MaskRecord(r, m))
    ensures Back(GetRecord(b), r, c, m)
  {
    var c3, m3 := PutTail(TailOf(r), c), MaskTail(TailOf(r), m);
    var c2, m2 := PutCounts(CountsOf(r), c3), MaskCounts(CountsOf(r), m3);
    var c1, m1 := PutNames(NamesOf(r), c2), MaskNames(NamesOf(r), m2);
    BackFront(FrontOf(r), b, c1, m1);
    var b1 := GetFront(b).rest;
    BackNames(NamesOf(r), b1, c2, m2);
    var b2 := GetNames(b1).rest;
    BackCounts(CountsOf(r), b2, c3, m3);
    var b3 := GetCounts(b2).rest;
    BackTail(TailOf(r), b3, c, m);
    RecordOfParts(b, r, b1, b2, b3, GetTail(b3).rest);
  }

  /** A byte string decodes to a record if and only if it is the encoding of that valid record up to its presence bytes. */
  lemma DecodesExactly(b: seq<byte>, r: Record)
    ensures DecodeRecord(b) == Some(r) <==>
            Reads(r) && CrossChecks(r) && Normalised(b, EncodeRecord(r), MaskRecord(r, []))
  {
    if DecodeRecord(b) == Some(r) {
      EncodeOfDecode(b);
    }
    if Reads(r) && CrossChecks(r) && Normalised(b, EncodeRecord(r), MaskRecord(r, [])) {
      BackRecord(r, b, [], []);
    }
  }

  lemma FrontExtends(b: seq<byte>, x: seq<byte>)
    requires GetFront(b).Ok?
    ensures GetFront(b + x) == Extended(GetFront(b), x)
  {
    var b1 := GetUuid(b).rest;
    var b2 := GetU64(b1).rest;
    var b3 := GetState(b2).rest;
    var b4 := GetU64(b3).rest;
    var b5 := GetU64(b4).rest;
    UuidExtends(b, x);
    U64Extends(b1, x);
    StatesExtend();
    assert GetState(b2 + x) == Extended(GetState(b2), x);
    U64Extends(b3, x);
    U64Extends(b4, x);
    U64Extends(b5, x);
  }

  lemma NamesExtend(b: seq<byte>, x: seq<byte>)
    requires GetNames(b).Ok?
    ensures GetNames(b + x) == Extended(GetNames(b), x)
  {
    OptionsExtend();
  }

  lemma CountsExtend(b: seq<byte>, x: seq<byte>)
    requires GetCounts(b).Ok?
    ensures GetCounts(b + x) == Extended(GetCounts(b), x)
  {
    FieldsExtend();
    OptionsExtend();
  }

  lemma TailExtends(b: seq<byte>, x: seq<byte>)
    requires GetTail(b).Ok?
    ensures GetTail(b + x) == Extended(GetTail(b), x)
  {
    OptionsExtend();
    AttemptsStopInTime();
    ListExtends(GetAttempt, b, x);
  }

  lemma RecordExtends(b: seq<byte>, x: seq<byte>)
    requires GetRecord(b).Ok?
    ensures GetRecord(b + x) == Extended(GetRecord(b), x)
  {
    var b1 := GetFront(b).rest;
    var b2 := GetNames(b1).rest;
    var b3 := GetCounts(b2).rest;
    FrontExtends(b, x);
    NamesExtend(b1, x);
    CountsExtend(b2, x);
    TailExtends(b3, x);
  }

  /** Accepted encodings are prefix-free: no strict extension, hence no strict prefix, decodes too. */
  lemma PrefixFree(b: seq<byte>, x: seq<byte>)
    requires DecodeRecord(b).Some? && x != []
    ensures DecodeRecord(b + x).None?
  {
    RecordExtends(b, x);
  }

  // ------------------------------------------------------------------------------------------
  // Sizes.
  // ------------------------------------------------------------------------------------------

  /** A presence byte, and n bytes if the value is there. */
  function OptionalBytes(present: bool, n: nat): nat {
    if present then 1 + n else 1
  }

  function FateBytes(a: Fate): nat {
    2 + OptionalBytes(a.resultDigest.Some?, 32) + OptionalBytes(a.resultPayload.Some?, TextSize(a.resultPayload))
    + OptionalBytes(a.failureReason.Some?, TextSize(a.failureReason))
  }

  function AttemptBytes(a: Attempt): nat {
    96 + FateBytes(FateOf(a))
  }

  function HistoryBytes(ats: seq<Attempt>): nat {
    if ats == [] then 0 else AttemptBytes(ats[0]) + HistoryBytes(ats[1..])
  }

  function NamesBytes(r: Names): nat {
    OptionalBytes(r.current.Some?, 16) + OptionalBytes(r.currentGeneration.Some?, 8)
    + OptionalBytes(r.owner.Some?, 16) + OptionalBytes(r.ownerBoot.Some?, 16)
  }

  /** The length of the encoding, from the counts in the record alone. */
  function RecordBytes(r: Record): nat {
    49 + NamesBytes(NamesOf(r)) + 40 + OptionalBytes(r.committedDigest.Some?, 32)
    + 4 + HistoryBytes(r.attempts) + 8 + |r.createdAt| + |r.committedAt|
  }

  lemma FrontSize(r: Front, k: seq<byte>)
    ensures |PutFront(r, k)| == 49 + |k|
  {}

  lemma OptUuidBytes(v: Option<Uuid>, k: seq<byte>)
    ensures |PutOptUuid(v, k)| == OptionalBytes(v.Some?, 16) + |k|
  {}

  lemma OptU64Bytes(v: Option<U64>, k: seq<byte>)
    ensures |PutOptU64(v, k)| == OptionalBytes(v.Some?, 8) + |k|
  {}

  lemma NamesSize(r: Names, k: seq<byte>)
    ensures |PutNames(r, k)| == NamesBytes(r) + |k|
  {
    var k3 := PutOptUuid(r.ownerBoot, k);
    var k2 := PutOptUuid(r.owner, k3);
    var k1 := PutOptU64(r.currentGeneration, k2);
    OptUuidBytes(r.ownerBoot, k);
    OptUuidBytes(r.owner, k3);
    OptU64Bytes(r.currentGeneration, k2);
    OptUuidBytes(r.current, k1);
  }

  lemma CountsSize(r: Counts, k: seq<byte>)
    ensures |PutCounts(r, k)| == 40 + OptionalBytes(r.committedDigest.Some?, 32) + |k|
  {}

  lemma WrittenTextSize(s: Text, k: seq<byte>)
    ensures |PutText(s, k)| == 4 + |s| + |k|
  {
    Pow256Small();
  }

  lemma OptTextBytes(v: Option<Text>, k: seq<byte>)
    ensures |PutOptText(v, k)| == OptionalBytes(v.Some?, TextSize(v)) + |k|
  {
    if v.Some? {
      WrittenTextSize(v.value, k);
    }
  }

  lemma KeySize(a: Key, k: seq<byte>)
    ensures |PutKey(a, k)| == 96 + |k|
  {}

  lemma FateSize(a: Fate, k: seq<byte>)
    ensures |PutFate(a, k)| == FateBytes(a) + |k|
  {
    var k1 := PutOptText(a.failureReason, k);
    OptTextBytes(a.failureReason, k);
    OptTextBytes(a.resultPayload, k1);
  }

  lemma AttemptSize(a: Attempt, k: seq<byte>)
    ensures |PutAttempt(a, k)| == AttemptBytes(a) + |k|
  {
    FateSize(FateOf(a), k);
    KeySize(KeyOf(a), PutFate(FateOf(a), k));
  }

  lemma {:induction false} HistorySize(ats: seq<Attempt>, k: seq<byte>)
    ensures |PutMany(PutAttempt, ats, k)| == HistoryBytes(ats) + |k|
  {
    if ats != [] {
      HistorySize(ats[1..], k);
      AttemptSize(ats[0], PutMany(PutAttempt, ats[1..], k));
    }
  }

  lemma TailSize(r: Tail)
    ensures |PutTail(r, [])| == 4 + HistoryBytes(r.attempts) + 8 + |r.createdAt| + |r.committedAt|
  {
    Pow256Small();
    var c := PutText(r.committedAt, []);
    var k := PutText(r.createdAt, c);
    WrittenTextSize(r.committedAt, []);
    WrittenTextSize(r.createdAt, c);
    HistorySize(r.attempts, k);
    assert |PutNum(4, |r.attempts| % U32, PutMany(PutAttempt, r.attempts, k))| == 4 + |PutMany(PutAttempt, r.attempts, k)|;
  }

  /** The encoding of every record has exactly that length. */
  lemma EncodedSize(r: Record)
    ensures |EncodeRecord(r)| == RecordBytes(r)
  {
    var t := PutTail(TailOf(r), []);
    var c := PutCounts(CountsOf(r), t);
    var n := PutNames(NamesOf(r), c);
    TailSize(TailOf(r));
    CountsSize(CountsOf(r), t);
    NamesSize(NamesOf(r), c);
    FrontSize(FrontOf(r), n);
  }

  /** How many attempts have delivered a result. */
  function Delivered(ats: seq<Attempt>): nat {
    if ats == [] then 0 else (if ats[0].resultDigest.Some? then 1 else 0) + Delivered(ats[1..])
  }

  /** Attempts as the engine makes them take 101 bytes each, and 32 more with a result. */
  lemma {:induction false} WordlessBytes(ats: seq<Attempt>)
    requires Wordless(ats)
    ensures HistoryBytes(ats) == 101 * |ats| + 32 * Delivered(ats)
  {
    if ats != [] {
      WordlessBytes(ats[1..]);
    }
  }
}
