/** The lifecycle of an agent turn (agent/state_machine.py). */
module StateMachine {

  datatype Phase = IDLE | PROCESSING | PENDING_APPROVAL | EXECUTING_TOOL | ERROR

  predicate Allowed(source: Phase, target: Phase) {
    match source
    case IDLE => target in {PROCESSING}
    case PROCESSING => target in {EXECUTING_TOOL, PENDING_APPROVAL, IDLE, ERROR}
    case PENDING_APPROVAL => target in {EXECUTING_TOOL, PROCESSING, IDLE, ERROR}
    case EXECUTING_TOOL => target in {PROCESSING, ERROR}
    case ERROR => target in {IDLE}
  }

  /** From which phases a phase can be entered. */
  function Sources(target: Phase): set<Phase> {
    match target
    case IDLE => {PROCESSING, PENDING_APPROVAL, ERROR}
    case PROCESSING => {IDLE, PENDING_APPROVAL, EXECUTING_TOOL}
    case PENDING_APPROVAL => {PROCESSING}
    case EXECUTING_TOOL => {PROCESSING, PENDING_APPROVAL}
    case ERROR => {PROCESSING, PENDING_APPROVAL, EXECUTING_TOOL}
  }

  /** The table read by targets; no phase leads to itself. */
  lemma AllowedBySource(source: Phase, target: Phase)
    ensures Allowed(source, target) <==> source in Sources(target)
    ensures !Allowed(source, source)
  {
  }

  class AgentStateMachine {
    var current: Phase

    constructor ()
      ensures current == IDLE
    {
      current := IDLE;
    }

    /** Moves along an allowed edge; any other target is refused and nothing moves. */
    method TransitionTo(target: Phase) returns (raised: bool)
      modifies this
      ensures raised <==> !Allowed(old(current), target)
      ensures current == if raised then old(current) else target
    {
      raised := !Allowed(current, target);
      if !raised {
        current := target;
      }
    }

    method Reset()
      modifies this
      ensures current == IDLE
    {
      current := IDLE;
    }
  }
}
