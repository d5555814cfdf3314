/** The two transition tables and their terminal states. */
module StateMachine {
  import opened Types

  predicate MayMove(from: ExecutionState, to: ExecutionState) {
    match from
    case CREATED => to.READY? || to.CANCELLED? || to.FAILED? || to.TERMINAL?
    case READY =>
      || to.DISPATCHED? || to.CANCELLATION_REQUESTED? || to.CANCELLED? || to.FAILED?
      || to.SUPERSEDED? || to.TERMINAL?
    case DISPATCHED =>
      || to.DISPATCHED? || to.READY? || to.RUNNING? || to.COMPLETED? || to.COMPLETION_PENDING?
      || to.CANCELLATION_REQUESTED? || to.PREEMPTION_REQUESTED? || to.CANCELLED? || to.FAILED?
      || to.AMBIGUOUS? || to.SUPERSEDED? || to.TERMINAL?
    case RUNNING =>
      || to.DISPATCHED? || to.COMPLETED? || to.COMPLETION_PENDING? || to.CANCELLATION_REQUESTED?
      || to.PREEMPTION_REQUESTED? || to.PREEMPTED? || to.FAILED? || to.CANCELLED?
      || to.AMBIGUOUS? || to.SUPERSEDED? || to.TERMINAL?
    case CANCELLATION_REQUESTED =>
      || to.CANCELLED? || to.COMPLETED? || to.COMPLETION_PENDING? || to.FAILED?
      || to.AMBIGUOUS? || to.TERMINAL?
    case PREEMPTION_REQUESTED =>
      || to.PREEMPTED? || to.COMPLETED? || to.FAILED? || to.CANCELLED? || to.AMBIGUOUS? || to.TERMINAL?
    case PREEMPTED => to.RESUMABLE? || to.FAILED? || to.CANCELLED? || to.TERMINAL?
    case RESUMABLE => to.RESUMING? || to.CANCELLED? || to.FAILED? || to.TERMINAL?
    case RESUMING => to.RUNNING? || to.FAILED? || to.CANCELLED? || to.AMBIGUOUS? || to.TERMINAL?
    case COMPLETION_PENDING => to.COMPLETED? || to.FAILED? || to.AMBIGUOUS? || to.TERMINAL?
    case COMPLETED => to.COMMITTED? || to.FAILED? || to.AMBIGUOUS? || to.TERMINAL?
    case AMBIGUOUS =>
      || to.COMPLETED? || to.DISPATCHED? || to.FAILED? || to.CANCELLED? || to.SUPERSEDED? || to.TERMINAL?
    case COMMITTED => false
    case FAILED => false
    case CANCELLED => false
    case SUPERSEDED => false
    case TERMINAL => false
  }

  predicate Terminal(s: ExecutionState) {
    s.COMMITTED? || s.FAILED? || s.CANCELLED? || s.SUPERSEDED? || s.TERMINAL?
  }

  predicate AttemptMayMove(from: AttemptState, to: AttemptState) {
    match from
    case ACreated => to.ADispatched? || to.ACancelled? || to.AFailed? || to.ATerminal?
    case ADispatched =>
      || to.ARunning? || to.ACompletePending? || to.ACompleted? || to.AFailed? || to.ACancelled?
      || to.ALost? || to.ASuperseded? || to.ATerminal?
    case ARunning =>
      || to.ACompletePending? || to.ACompleted? || to.AFailed? || to.ACancelled? || to.APreempted?
      || to.ALost? || to.ASuperseded? || to.ATerminal?
    case APreempted => to.ASuperseded? || to.ATerminal?
    case ACompletePending => to.ACompleted? || to.AFailed? || to.ALost? || to.ATerminal?
    case ACompleted => to.ATerminal?
    case AFailed => false
    case ACancelled => false
    case ALost => false
    case ASuperseded => false
    case ATerminal => false
  }

  predicate AttemptTerminal(s: AttemptState) {
    s.AFailed? || s.ACancelled? || s.ALost? || s.ASuperseded? || s.ATerminal?
  }

  // ------------------------------------------------------------------------------------------
  // The tables as sets of exits.
  // ------------------------------------------------------------------------------------------

  function Exits(s: ExecutionState): set<ExecutionState> {
    match s
    case CREATED => {READY, CANCELLED, FAILED, TERMINAL}
    case READY => {DISPATCHED, CANCELLATION_REQUESTED, CANCELLED, FAILED, SUPERSEDED, TERMINAL}
    case DISPATCHED => {READY, DISPATCHED, RUNNING, CANCELLATION_REQUESTED, PREEMPTION_REQUESTED, COMPLETION_PENDING,
                        COMPLETED, FAILED, CANCELLED, AMBIGUOUS, SUPERSEDED, TERMINAL}
    case RUNNING => {DISPATCHED, CANCELLATION_REQUESTED, PREEMPTION_REQUESTED, PREEMPTED, COMPLETION_PENDING, COMPLETED,
                     FAILED, CANCELLED, AMBIGUOUS, SUPERSEDED, TERMINAL}
    case CANCELLATION_REQUESTED => {COMPLETION_PENDING, COMPLETED, FAILED, CANCELLED, AMBIGUOUS, TERMINAL}
    case PREEMPTION_REQUESTED => {PREEMPTED, COMPLETED, FAILED, CANCELLED, AMBIGUOUS, TERMINAL}
    case PREEMPTED => {RESUMABLE, FAILED, CANCELLED, TERMINAL}
    case RESUMABLE => {RESUMING, FAILED, CANCELLED, TERMINAL}
    case RESUMING => {RUNNING, FAILED, CANCELLED, AMBIGUOUS, TERMINAL}
    case COMPLETION_PENDING => {COMPLETED, FAILED, AMBIGUOUS, TERMINAL}
    case COMPLETED => {COMMITTED, FAILED, AMBIGUOUS, TERMINAL}
    case AMBIGUOUS => {DISPATCHED, COMPLETED, FAILED, CANCELLED, SUPERSEDED, TERMINAL}
    case _ => {}
  }

  function AttemptExits(s: AttemptState): set<AttemptState> {
    match s
    case ACreated => {ADispatched, AFailed, ACancelled, ATerminal}
    case ADispatched => {ARunning, ACompletePending, ACompleted, AFailed, ACancelled, ALost, ASuperseded, ATerminal}
    case ARunning => {APreempted, ACompletePending, ACompleted, AFailed, ACancelled, ALost, ASuperseded, ATerminal}
    case APreempted => {ASuperseded, ATerminal}
    case ACompletePending => {ACompleted, AFailed, ALost, ATerminal}
    case ACompleted => {ATerminal}
    case _ => {}
  }

  /** The table admits exactly those moves. */
  lemma TableExactly(s: ExecutionState, t: ExecutionState)
    ensures MayMove(s, t) <==> t in Exits(s)
  {}

  /** The terminal states are exactly those without exits, and every other state may fail or be closed. */
  lemma TerminalExactly(s: ExecutionState)
    ensures Terminal(s) <==> forall t :: !MayMove(s, t)
    ensures !Terminal(s) ==> MayMove(s, FAILED) && MayMove(s, TERMINAL)
  {
    assert !Terminal(s) ==> MayMove(s, FAILED);
  }

  lemma AttemptTableExactly(s: AttemptState, t: AttemptState)
    ensures AttemptMayMove(s, t) <==> t in AttemptExits(s)
    ensures AttemptTerminal(s) <==> AttemptExits(s) == {}
  {
    if !AttemptTerminal(s) {
      assert ATerminal in AttemptExits(s);
    }
  }
}
