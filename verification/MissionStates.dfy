/** The mission state graph, and the route a failed mission takes through it. */
module MissionStates {
  import opened Common

  datatype MissionState =
    | Created | DiscoveringServices | CreditRequested | Funded | PaymentPreparation | PaymentAuthorized
    | ServicePaid | Running | Completed | RepaymentPending | Repaid | PolicyRejected | Recovery | Failed
    | Defaulted | Closed

  function AllowedTransitions(s: MissionState): set<MissionState>
  {
    match s
    case Created => {DiscoveringServices, Failed}
    case DiscoveringServices => {PaymentPreparation, CreditRequested, Failed}
    case CreditRequested => {Funded, Failed}
    case Funded => {PaymentPreparation, Failed}
    case PaymentPreparation => {PaymentAuthorized, PolicyRejected, Failed}
    case PaymentAuthorized => {ServicePaid, Failed}
    case ServicePaid => {Running, Failed}
    case Running => {Completed, Failed}
    case Completed => {RepaymentPending, Closed}
    case RepaymentPending => {Repaid, Defaulted}
    case Repaid => {Closed}
    case PolicyRejected => {Recovery}
    case Recovery => {RepaymentPending, Defaulted, Closed}
    case Failed => {Recovery, RepaymentPending, Defaulted, Closed}
    case Defaulted => {}
    case Closed => {}
  }

  /** The states a mission passes through, the first and the last included. */
  predicate IsPath(p: seq<MissionState>)
  {
    p != [] && forall i :: 0 < i < |p| ==> StepAllowed(p, i)
  }

  predicate StepAllowed(p: seq<MissionState>, i: nat)
    requires 0 < i < |p|
  {
    p[i] in AllowedTransitions(p[i - 1])
  }

  // The longest way left to an end state.
  function Rank(s: MissionState): nat
  {
    match s
    case Created => 12
    case DiscoveringServices => 11
    case CreditRequested => 10
    case Funded => 9
    case PaymentPreparation => 8
    case PaymentAuthorized => 7
    case ServicePaid => 6
    case Running => 5
    case Completed => 3
    case RepaymentPending => 2
    case Repaid => 1
    case PolicyRejected => 4
    case Recovery => 3
    case Failed => 4
    case Defaulted => 0
    case Closed => 0
  }

  lemma EachMoveDescends(s: MissionState, to: MissionState)
    requires to in AllowedTransitions(s)
    ensures Rank(to) < Rank(s)
  {
  }

  /** No path is longer than the rank of its start allows: the graph has no cycle. */
  lemma {:induction false} PathsAreShort(p: seq<MissionState>)
    requires IsPath(p)
    ensures |p| - 1 + Rank(p[|p| - 1]) <= Rank(p[0])
    decreases |p|
  {
    if |p| > 1 {
      var q := p[..|p| - 1];
      forall i | 0 < i < |q| ensures StepAllowed(q, i) { assert StepAllowed(p, i); }
      PathsAreShort(q);
      assert StepAllowed(p, |p| - 1);
      EachMoveDescends(p[|p| - 2], p[|p| - 1]);
    }
  }

  /** A path visits no state twice. */
  lemma NoStateTwice(p: seq<MissionState>, i: nat, j: nat)
    requires IsPath(p) && i < j < |p|
    ensures p[i] != p[j]
  {
    var q := p[i..j + 1];
    assert IsPath(q) by {
      forall k | 0 < k < |q| ensures StepAllowed(q, k) { assert StepAllowed(p, i + k); }
    }
    PathsAreShort(q);
  }

  /** Twelve moves are possible, so the bound is exact. */
  lemma TwelveMovesArePossible()
    ensures exists p: seq<MissionState> :: IsPath(p) && p[0] == Created && |p| == 13
  {
    var p := [Created, DiscoveringServices, CreditRequested, Funded, PaymentPreparation, PaymentAuthorized, ServicePaid,
              Running, Failed, Recovery, RepaymentPending, Repaid, Closed];
    assert IsPath(p) && |p| == 13;
  }

  // --- failure routing --------------------------------------------------------------------------------------

  // The states `run` itself can be in when it catches an error.
  predicate BeforeRunning(s: MissionState)
  {
    s == Created || s == DiscoveringServices || s == CreditRequested || s == Funded || s == PaymentPreparation
    || s == PaymentAuthorized || s == ServicePaid
  }

  datatype Refusal = NoRefusal | WorkflowRefusal | ConsumerRefusal

  datatype MoveKind = ProvidersRanked | PaymentRejected | MissionFailed

  datatype Move = Move(to: MissionState, kind: MoveKind, attributed: bool)

  /** `finishFailure` as the list of moves it makes when each of them succeeds. */
  method FinishFailure(initial: MissionState, hasLoan: bool, refusal: Refusal) returns (moves: seq<Move>)
    ensures moves == FailureRoute(initial, hasLoan, refusal)
  {
    var state := initial;
    var attributable := initial == PaymentAuthorized;
    moves := [];
    if refusal == ConsumerRefusal && state == DiscoveringServices {
      moves := moves + [Move(PaymentPreparation, ProvidersRanked, false)];
      state := PaymentPreparation;
    }
    if refusal != NoRefusal && state == PaymentPreparation {
      moves := moves + [Move(PolicyRejected, PaymentRejected, false)];
      state := PolicyRejected;
    } else if Failed in AllowedTransitions(state) {
      moves := moves + [Move(Failed, MissionFailed, attributable)];
      attributable := false;
      state := Failed;
    }
    if state == PolicyRejected || state == Failed {
      moves := moves + [Move(Recovery, MissionFailed, attributable)];
      attributable := false;
      state := Recovery;
    }
    if state != Recovery { return; }
    moves := moves + [Move(if hasLoan then Defaulted else Closed, MissionFailed, attributable)];
  }

  function FailureRoute(s: MissionState, hasLoan: bool, refusal: Refusal): seq<Move>
  {
    var ended := [Move(Recovery, MissionFailed, false), Move(if hasLoan then Defaulted else Closed, MissionFailed, false)];
    var refused := [Move(PolicyRejected, PaymentRejected, false)] + ended;
    if refusal == ConsumerRefusal && s == DiscoveringServices then [Move(PaymentPreparation, ProvidersRanked, false)] + refused
    else if refusal != NoRefusal && s == PaymentPreparation then refused
    else if Failed in AllowedTransitions(s) then [Move(Failed, MissionFailed, s == PaymentAuthorized)] + ended
    else if s == PolicyRejected || s == Failed then ended
    else if s == Recovery then ended[1..]
    else []
  }

  // Each move starts where the one before it ended, the first at s.
  predicate LegalFrom(s: MissionState, moves: seq<Move>)
  {
    forall i :: 0 <= i < |moves| ==> LegalAt(s, moves, i)
  }

  predicate LegalAt(s: MissionState, moves: seq<Move>, i: nat)
    requires i < |moves|
  {
    if i == 0 then moves[i].to in AllowedTransitions(s) else moves[i].to in AllowedTransitions(moves[i - 1].to)
  }

  // The states that stand for a fact recorded elsewhere: a loan, a payment, a report, a completion, a repayment.
  predicate IsMilestone(s: MissionState)
  {
    s == Funded || s == ServicePaid || s == Running || s == Completed || s == Repaid
  }

  // States the workflow itself moves a mission out of, and those its failure route ends in.
  predicate RunState(s: MissionState)
  {
    BeforeRunning(s) || s == PolicyRejected || s == Recovery || s == Failed || s == Defaulted || s == Closed
  }

  /**
   From every state the workflow can fail in, the route is legal, ends in `closed` without a loan
   and in `defaulted` with one, and blames the provider once exactly when payment was authorized.
   */
  lemma FailureRouteIsLegal(s: MissionState, hasLoan: bool, refusal: Refusal)
    requires BeforeRunning(s)
    ensures var route := FailureRoute(s, hasLoan, refusal);
            && LegalFrom(s, route) && |route| >= 3
            && route[|route| - 1].to == (if hasLoan then Defaulted else Closed)
            && (forall i :: 0 <= i < |route| ==> (route[i].attributed <==> i == 0 && s == PaymentAuthorized))
            && (forall i :: 0 <= i < |route| ==> !IsMilestone(route[i].to) && RunState(route[i].to))
  {
    var route := FailureRoute(s, hasLoan, refusal);
    forall i | 0 <= i < |route| ensures LegalAt(s, route, i) {
      if i > 0 {
        var from := route[i - 1].to;
        assert from == PaymentPreparation || from == PolicyRejected || from == Failed || from == Recovery;
      }
    }
  }
}
