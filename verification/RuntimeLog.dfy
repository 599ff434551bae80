/**
 * What the runtime does to the world, as a log, and a reference monitor that decides which logs are
 * lawful. The monitor knows nothing of the runtime's state.
 */
module RuntimeLog {
  import opened PyText
  import opened Chat
  import opened PlanModel
  import opened PlanValidator
  import PlanExecutor
  import Policy

  /** The settings that license effects; `decode` reads the JSON text of tool arguments. */
  datatype Rules = Rules(
    registry: Registry,
    riskOf: Policy.ArgumentRisk,
    decode: string -> map<string, Value>,
    maxToolRounds: int,
    maxPlanRepairs: int,
    autoApprove: bool)

  /**
   * Turns and approvals are numbered. `Approved` and `Rejected` are the user's decisions. `CallDispatched`
   * carries the approval it was dispatched under, if any; `Ended` covers turns that completed, failed or
   * were cancelled. The last five are mishaps: the start of a turn found an image of its prompt gone, or broke
   * off while the context was compacted; a tool raised; a call that needs approval could not be described; a
   * provider's stream ended without an answer.
   */
  datatype Effect =
    | Started(turn: nat)
    | TaskSubmitted(turn: nat)
    | CallRequested(turn: nat, id: nat, call: ToolCall)
    | CallDispatched(turn: nat, licence: Option<nat>, call: ToolCall)
    | PlanReviewed(turn: nat, id: nat, plan: Plan)
    | PlanRun(turn: nat, id: nat, automatic: bool, plan: Plan, summary: PlanExecutor.Summary)
    | Approved(turn: nat, id: nat)
    | Rejected(turn: nat, id: nat)
    | Ended(turn: nat)
    | MissedImage(turn: nat)
    | BrokeOff(turn: nat)
    | CallRaised(turn: nat, call: ToolCall)
    | CallUndescribed(turn: nat, call: ToolCall)
    | WentSilent(turn: nat)

  type Log = seq<Effect>

  predicate Gated(rules: Rules, call: ToolCall) {
    Policy.Evaluate(rules.registry, rules.riskOf, call.toolName, rules.decode(call.arguments)) ==
      Policy.REQUIRE_APPROVAL
  }

  /** The call can be described to the user who is to approve it. */
  predicate Describable(rules: Rules, call: ToolCall) {
    !Policy.DescriptionRaises(call.toolName, rules.decode(call.arguments))
  }

  predicate Open(h: Log, t: nat) {
    Started(t) in h && Ended(t) !in h
  }

  /** The approval that an effect asks for. */
  predicate Asks(e: Effect, id: nat) {
    (e.CallRequested? || e.PlanReviewed?) && e.id == id
  }

  /** The effect that uses an approval up. */
  predicate Settles(e: Effect, id: nat) {
    match e
    case CallDispatched(_, licence, _) => licence == Some(id)
    case PlanRun(_, i, _, _, _) => i == id
    case Rejected(_, i) => i == id
    case _ => false
  }

  predicate Asked(h: Log, id: nat) {
    exists e <- h :: Asks(e, id)
  }

  predicate Settled(h: Log, id: nat) {
    exists e <- h :: Settles(e, id)
  }

  /** Turn t asked for this approval. */
  predicate AskedBy(h: Log, t: nat, id: nat) {
    exists e <- h :: Asks(e, id) && e.turn == t
  }

  predicate Grants(e: Effect, id: nat) {
    e.Approved? && e.id == id
  }

  /** The user gave this approval. */
  predicate Granted(h: Log, id: nat) {
    exists e <- h :: Grants(e, id)
  }

  function Tasks(h: Log, t: nat): nat {
    if h == [] then 0
    else Tasks(h[..|h| - 1], t) + if h[|h| - 1] == TaskSubmitted(t) then 1 else 0
  }

  predicate FailedRun(e: Effect, t: nat) {
    e.PlanRun? && e.turn == t && !e.summary.completed
  }

  predicate PlanFailed(h: Log, t: nat) {
    exists e <- h :: FailedRun(e, t)
  }

  /** The reviews of turn t that follow a failed plan of that turn. */
  function Repairs(h: Log, t: nat): nat {
    if h == [] then 0
    else
      var front, last := h[..|h| - 1], h[|h| - 1];
      Repairs(front, t) + if last.PlanReviewed? && last.turn == t && PlanFailed(front, t) then 1 else 0
  }

  function AtLeastZero(n: int): nat {
    if n < 0 then 0 else n
  }

  /** The tools received the first steps of the plan in order, all of them if it completed. */
  predicate RanInOrder(plan: Plan, summary: PlanExecutor.Summary) {
    && summary.dispatched <= plan.steps
    && (summary.completed ==> summary.dispatched == plan.steps)
  }

  /** May `e` happen after `h`? */
  predicate Permits(rules: Rules, h: Log, e: Effect) {
    match e
    case Started(t) => Started(t) !in h && Ended(t) !in h
    case TaskSubmitted(t) => Open(h, t) && Tasks(h, t) <= AtLeastZero(rules.maxToolRounds)
    case CallRequested(t, id, call) =>
      Open(h, t) && !Asked(h, id) && Gated(rules, call) && Describable(rules, call) && call.toolName != PROPOSE_PLAN
    case CallDispatched(t, licence, call) =>
      && Open(h, t) && call.toolName != PROPOSE_PLAN
      && (match licence
          case None => !Gated(rules, call)
          case Some(id) => CallRequested(t, id, call) in h && Approved(t, id) in h && !Settled(h, id))
    case PlanReviewed(t, id, plan) =>
      && Open(h, t) && !Asked(h, id)
      && Canonical(rules.registry, plan)
      && (PlanFailed(h, t) ==> Repairs(h, t) < rules.maxPlanRepairs)
    case PlanRun(t, id, automatic, plan, summary) =>
      && Open(h, t)
      && PlanReviewed(t, id, plan) in h && !Settled(h, id)
      && RanInOrder(plan, summary)
      && (if automatic then rules.autoApprove && Policy.LowRisk(plan) && !Granted(h, id) else Approved(t, id) in h)
    case Approved(t, id) => Open(h, t) && AskedBy(h, t, id) && !Settled(h, id) && !Granted(h, id)
    case Rejected(t, id) => Open(h, t) && AskedBy(h, t, id) && !Settled(h, id) && !Granted(h, id)
    case Ended(t) => Open(h, t)
    case MissedImage(t) => Open(h, t) && Tasks(h, t) == 0
    case BrokeOff(t) => Open(h, t) && Tasks(h, t) == 0
    case CallRaised(t, call) =>
      Open(h, t) && h[|h| - 1].CallDispatched? && h[|h| - 1].turn == t && h[|h| - 1].call == call
    case CallUndescribed(t, call) =>
      Open(h, t) && Gated(rules, call) && !Describable(rules, call) && call.toolName != PROPOSE_PLAN
    case WentSilent(_) => true
  }

  /** Every effect was permitted when it happened. */
  predicate Lawful(rules: Rules, h: Log) {
    h == [] || (Lawful(rules, h[..|h| - 1]) && Permits(rules, h[..|h| - 1], h[|h| - 1]))
  }

  lemma LawfulAppend(rules: Rules, h: Log, e: Effect)
    ensures Lawful(rules, h + [e]) <==> Lawful(rules, h) && Permits(rules, h, e)
  {
    assert (h + [e])[..|h + [e]| - 1] == h;
  }

  lemma CountsAppend(h: Log, e: Effect, t: nat)
    ensures Tasks(h + [e], t) == Tasks(h, t) + if e == TaskSubmitted(t) then 1 else 0
    ensures Repairs(h + [e], t) == Repairs(h, t) + if e.PlanReviewed? && e.turn == t && PlanFailed(h, t) then 1 else 0
    ensures PlanFailed(h + [e], t) <==> PlanFailed(h, t) || FailedRun(e, t)
  {
    var all := h + [e];
    assert all[..|all| - 1] == h && all[|all| - 1] == e;
    assert e in all && forall x <- h :: x in all;
  }

  // ------------------------------------------------------------------------
  // What lawfulness means
  // ------------------------------------------------------------------------

  lemma {:induction false} LawfulAt(rules: Rules, h: Log, i: nat)
    requires Lawful(rules, h) && i < |h|
    ensures Lawful(rules, h[..i]) && Permits(rules, h[..i], h[i])
  {
    var n := |h| - 1;
    if i < n {
      LawfulAt(rules, h[..n], i);
      assert h[..n][..i] == h[..i];
    }
  }

  lemma Earlier(h: Log, i: nat, j: nat)
    requires i < |h| && j <= |h|
    ensures i < j ==> h[i] in h[..j]
  {
    if i < j {
      assert h[..j][i] == h[i];
    }
  }

  /** An approval is used at most once, by a dispatch, a plan run or a rejection; never by two of them. */
  lemma {:induction false} ApprovalUsedOnce(rules: Rules, h: Log, i: nat, j: nat, id: nat)
    requires Lawful(rules, h) && i < |h| && j < |h|
    requires Settles(h[i], id) && Settles(h[j], id)
    ensures i == j
  {
    LawfulAt(rules, h, i);
    LawfulAt(rules, h, j);
    Earlier(h, i, j);
    Earlier(h, j, i);
  }

  /** Nothing of a turn happens after its end. */
  lemma {:induction false} NothingAfterTheEnd(rules: Rules, h: Log, i: nat, j: nat)
    requires Lawful(rules, h) && i < |h| && j < |h|
    requires h[i].Ended? && h[j].turn == h[i].turn && !h[j].WentSilent?
    ensures j <= i
  {
    LawfulAt(rules, h, j);
    Earlier(h, i, j);
  }

  /** An approval is asked for once. */
  lemma AskedOnce(rules: Rules, h: Log, i: nat, j: nat, id: nat)
    requires Lawful(rules, h) && i < |h| && j < |h|
    requires Asks(h[i], id) && Asks(h[j], id)
    ensures i == j
  {
    LawfulAt(rules, h, i);
    LawfulAt(rules, h, j);
    Earlier(h, i, j);
    Earlier(h, j, i);
  }

  /** No approval is both given and refused. */
  lemma {:induction false} ApprovedOrRejected(rules: Rules, h: Log, i: nat, j: nat)
    requires Lawful(rules, h) && i < |h| && j < |h| && h[i].Approved? && h[j].Rejected?
    ensures h[i].id != h[j].id
  {
    LawfulAt(rules, h, i);
    LawfulAt(rules, h, j);
    Earlier(h, i, j);
    Earlier(h, j, i);
  }

  /** An approval follows the question it answers. */
  lemma ApprovalAnswers(rules: Rules, h: Log, i: nat, k: nat)
    requires Lawful(rules, h) && i < |h| && k < |h| && h[k].Approved? && Asks(h[i], h[k].id)
    ensures i < k && h[i].turn == h[k].turn
  {
    LawfulAt(rules, h, k);
    var e :| e in h[..k] && Asks(e, h[k].id) && e.turn == h[k].turn;
    var m :| 0 <= m < k && h[..k][m] == e;
    assert h[m] == e;
    AskedOnce(rules, h, i, m, h[k].id);
  }

  /** Turn t asked with effect `e`, and the user then approved, all before position j. */
  ghost predicate ApprovedBefore(h: Log, j: nat, e: Effect, id: nat)
    requires j <= |h|
  {
    exists i: nat, k: nat :: i < k < j && h[i] == e && h[k] == Approved(e.turn, id)
  }

  lemma ApprovalFound(rules: Rules, h: Log, j: nat, e: Effect, id: nat)
    requires Lawful(rules, h) && j <= |h| && Asks(e, id)
    requires e in h[..j] && Approved(e.turn, id) in h[..j]
    ensures ApprovedBefore(h, j, e, id)
  {
    var i :| 0 <= i < j && h[..j][i] == e;
    var k :| 0 <= k < j && h[..j][k] == Approved(e.turn, id);
    assert h[i] == e && h[k] == Approved(e.turn, id);
    ApprovalAnswers(rules, h, i, k);
  }

  lemma NeverRejected(rules: Rules, h: Log, j: nat, id: nat)
    requires Lawful(rules, h) && j < |h| && Settles(h[j], id) && !h[j].Rejected?
    ensures forall i :: 0 <= i < |h| && h[i].Rejected? ==> h[i].id != id
  {
    forall i | 0 <= i < |h| && h[i].Rejected?
      ensures h[i].id != id
    {
      if h[i].id == id {
        ApprovalUsedOnce(rules, h, i, j, id);
      }
    }
  }

  /**
   * Every dispatched call was passed by the policy, or is the very call that was asked about before in the
   * same turn, that the user then approved, and that was never rejected. The call that proposes a plan is
   * never dispatched itself.
   */
  lemma DispatchLicensed(rules: Rules, h: Log, j: nat)
    requires Lawful(rules, h) && j < |h| && h[j].CallDispatched?
    ensures h[j].call.toolName != PROPOSE_PLAN
    ensures match h[j].licence
            case None => !Gated(rules, h[j].call)
            case Some(id) =>
              && Gated(rules, h[j].call)
              && ApprovedBefore(h, j, CallRequested(h[j].turn, id, h[j].call), id)
              && (forall i :: 0 <= i < |h| && h[i].Rejected? ==> h[i].id != id)
  {
    LawfulAt(rules, h, j);
    if h[j].licence.Some? {
      var id := h[j].licence.value;
      var e := CallRequested(h[j].turn, id, h[j].call);
      ApprovalFound(rules, h, j, e, id);
      NeverRejected(rules, h, j, id);
      var i :| 0 <= i < j && h[i] == e;
      LawfulAt(rules, h, i);
    }
  }

  /**
   * Every plan that runs was reviewed before in the same turn, in this very form, was validated, and was
   * never rejected; the user approved it after that review, or it started unasked, which is allowed only by
   * the settings and for a plan of low risk; its tools see a prefix of its steps in order.
   */
  lemma PlanRunLicensed(rules: Rules, h: Log, j: nat)
    requires Lawful(rules, h) && j < |h| && h[j].PlanRun?
    ensures Canonical(rules.registry, h[j].plan) && RanInOrder(h[j].plan, h[j].summary)
    ensures exists i :: 0 <= i < j && h[i] == PlanReviewed(h[j].turn, h[j].id, h[j].plan)
    ensures if h[j].automatic then rules.autoApprove && Policy.LowRisk(h[j].plan)
            else ApprovedBefore(h, j, PlanReviewed(h[j].turn, h[j].id, h[j].plan), h[j].id)
    ensures forall k :: 0 <= k < |h| && h[k].Rejected? ==> h[k].id != h[j].id
  {
    hide Canonical, RanInOrder;
    LawfulAt(rules, h, j);
    var e := PlanReviewed(h[j].turn, h[j].id, h[j].plan);
    var i :| 0 <= i < j && h[..j][i] == e;
    assert h[i] == e;
    LawfulAt(rules, h, i);
    NeverRejected(rules, h, j, h[j].id);
    if !h[j].automatic {
      ApprovalFound(rules, h, j, e, h[j].id);
    }
  }

  /** No turn submits more than the allowed rounds plus one tasks, or repairs a failed plan too often. */
  lemma {:induction false} TurnsAreBounded(rules: Rules, h: Log, t: nat)
    requires Lawful(rules, h)
    ensures Tasks(h, t) <= AtLeastZero(rules.maxToolRounds) + 1
    ensures Repairs(h, t) <= AtLeastZero(rules.maxPlanRepairs)
  {
    if h != [] {
      TurnsAreBounded(rules, h[..|h| - 1], t);
    }
  }
}
