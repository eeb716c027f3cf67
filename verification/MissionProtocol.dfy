/**
 Every run of the orchestrator over any number of missions: the mission workflow with whatever
 progress its consumer reports, the completion callback, and the repayment workflow, with a crash
 possible between any two steps. A step concerns one mission: its row, the local variables of the
 calls at work on it, and at most one event. `returned` is history: the transaction ids repayment
 answered with.
 */
module MissionProtocol {
  import opened Common
  import opened MissionStates

  type Id = nat

  datatype Kind = ReportReceived | MissionFailed | OtherKind

  // An audit event; `move` is there when it records a transition.
  datatype Entry = Entry(mission: Id, move: Option<(MissionState, MissionState)>, kind: Kind, provider: Option<Id>)

  datatype Loan = Loan(fundingTx: Id, repaymentTx: Option<Id>)

  datatype Completion = Completion(report: Id, settlementTx: Id)

  datatype Mission = Mission(
    id: Id, provider: Id, price: nat, cap: nat,
    state: MissionState, spent: nat, loan: Option<Loan>, completion: Option<Completion>)

  // The local variables of `MissionWorkflow.run`; `route` is what `finishFailure` still has to do.
  datatype Run =
    | Working(state: MissionState, hasLoan: bool)
    | Failing(state: MissionState, route: seq<Move>)

  // The local variables of `runLocked` at its two waits.
  datatype Repay = Asking | Closing(tx: Id)

  // One mission's row, its workflow and its repayment call.
  datatype Local = Local(row: Mission, run: Option<Run>, repay: Option<Repay>)

  datatype Outcome = Outcome(after: Local, entry: Option<Entry>, returned: Option<Id>)

  function Quiet(l: Local): Outcome { Outcome(l, None, None) }

  // --- steps of one mission ---------------------------------------------------------------------------------

  /** `transition`: nothing at all unless the persisted state is `from` and the move is allowed. */
  predicate CanMove(l: Local, from: MissionState, to: MissionState)
  {
    l.row.state == from && to in AllowedTransitions(from)
  }

  /** The move, the rows written with it, and its event: one transaction. */
  function Moved(l: Local, to: MissionState, kind: Kind, provider: Option<Id>): Outcome
  {
    Outcome(l.(row := l.row.(state := to)), Some(Entry(l.row.id, Some((l.row.state, to)), kind, provider)), None)
  }

  function Discover(l: Local): Outcome
  {
    if l.run == Some(Working(Created, false)) && CanMove(l, Created, DiscoveringServices)
    then Moved(l.(run := Some(Working(DiscoveringServices, false))), DiscoveringServices, OtherKind, None)
    else Quiet(l)
  }

  // The selected provider costs more than the mission may spend.
  function Overprice(l: Local): Outcome
  {
    if l.run == Some(Working(DiscoveringServices, false)) && l.row.price > l.row.cap && CanMove(l, DiscoveringServices, PaymentPreparation)
    then Moved(l.(run := Some(Failing(PaymentPreparation, FailureRoute(PaymentPreparation, false, WorkflowRefusal)))),
               PaymentPreparation, OtherKind, None)
    else Quiet(l)
  }

  datatype Progress = Credits | Funds(fundingTx: Id) | Prepares | Authorizes | Pays(amount: nat)

  // The consumer is at work: the mission is under way and its provider affordable.
  predicate Consuming(l: Local)
  {
    l.run.Some? && l.run.value.Working? && l.run.value.state != Created && l.row.price <= l.row.cap
  }

  // Where a progress report wants the mission to be, when the workflow accepts it at all.
  function Target(l: Local, p: Progress): Option<MissionState>
    requires Consuming(l)
  {
    match p
    case Credits => Some(CreditRequested)
    case Funds(_) => Some(Funded)
    case Prepares =>
      if l.run.value.state == DiscoveringServices || (l.run.value.state == Funded && l.run.value.hasLoan)
      then Some(PaymentPreparation) else None
    case Authorizes => Some(PaymentAuthorized)
    case Pays(amount) => if amount == l.row.price && amount > 0 then Some(ServicePaid) else None
  }

  // What the move writes besides the state and the event.
  function Recorded(row: Mission, p: Progress): Mission
  {
    match p
    case Funds(tx) => row.(loan := Some(Loan(tx, None)))
    case Pays(amount) => row.(spent := row.spent + amount)
    case _ => row
  }

  function Advance(l: Local, p: Progress): Outcome
  {
    if !Consuming(l) then Quiet(l)
    else
      var run := l.run.value;
      var to := Target(l, p);
      if to.None? || !CanMove(l, run.state, to.value) then Quiet(l)
      else Moved(l.(row := Recorded(l.row, p), run := Some(Working(to.value, run.hasLoan || p.Funds?))), to.value, OtherKind, None)
  }

  /** The consumer delivered a valid report for a paid service: the workflow's last move. */
  function Report(l: Local): Outcome
  {
    if Consuming(l) && l.run.value.state == ServicePaid && CanMove(l, ServicePaid, Running)
    then Moved(l.(run := None), Running, ReportReceived, Some(l.row.provider))
    else Quiet(l)
  }

  function Fail(l: Local, refusal: Refusal): Outcome
  {
    if l.run.Some? && l.run.value.Working?
    then Quiet(l.(run := Some(Failing(l.run.value.state, FailureRoute(l.run.value.state, l.run.value.hasLoan, refusal)))))
    else Quiet(l)
  }

  /** One move of `finishFailure`; if it throws, the workflow ends there. */
  function Route(l: Local): Outcome
  {
    if l.run.None? || l.run.value.Working? || l.run.value.route == [] then Quiet(l)
    else
      var run := l.run.value;
      var move := run.route[0];
      if !CanMove(l, run.state, move.to) then Quiet(l.(run := None))
      else
        Moved(l.(run := if |run.route| == 1 then None else Some(Failing(move.to, run.route[1..]))), move.to,
              if move.kind.MissionFailed? then Kind.MissionFailed else OtherKind,
              if move.attributed then Some(l.row.provider) else None)
  }

  predicate MayComplete(l: Local) { l.row.state == Running && l.row.completion.None? }

  function Complete(l: Local, c: Completion): Outcome
  {
    if MayComplete(l) && CanMove(l, Running, Completed)
    then Moved(l.(row := l.row.(completion := Some(c))), Completed, OtherKind, None)
    else Quiet(l)
  }

  /** `runLocked` up to its first wait. */
  function BeginRepayment(l: Local): Outcome
  {
    if l.row.loan.None? then
      if CanMove(l, Completed, Closed) then Moved(l, Closed, OtherKind, None) else Quiet(l)
    else
      var tx := l.row.loan.value.repaymentTx;
      if l.row.state == Closed then Outcome(l, None, tx)
      else if l.row.state == Completed then
        if CanMove(l, Completed, RepaymentPending) then Moved(l.(repay := Some(Asking)), RepaymentPending, OtherKind, None) else Quiet(l)
      else if l.row.state == RepaymentPending then Quiet(l.(repay := Some(Asking)))
      else if l.row.state == Repaid && tx.Some? then Quiet(l.(repay := Some(Closing(tx.value))))
      else Quiet(l)
  }

  /** The signer answered with `tx`: state and loan move together, or the call throws. */
  function Settle(l: Local, tx: Id): Outcome
  {
    if l.repay == Some(Asking) && CanMove(l, RepaymentPending, Repaid) && l.row.loan.Some? && l.row.loan.value.repaymentTx.None?
    then Moved(l.(row := l.row.(loan := Some(l.row.loan.value.(repaymentTx := Some(tx)))), repay := Some(Closing(tx))),
               Repaid, OtherKind, None)
    else Quiet(l.(repay := None))
  }

  function Close(l: Local): Outcome
  {
    if l.repay.Some? && l.repay.value.Closing? && CanMove(l, Repaid, Closed)
    then Moved(l.(repay := None), Closed, OtherKind, None).(returned := Some(l.repay.value.tx))
    else Quiet(l.(repay := None))
  }

  datatype Step =
    | Discovers | Overprices | Progresses(p: Progress) | Notes | Reports | Fails(refusal: Refusal) | Routes | Halts
    | Completes(c: Completion) | BeginsRepayment | Repays(tx: Id) | Closes | StopsRepayment

  function Act(l: Local, a: Step): Outcome
  {
    match a
    case Discovers => Discover(l)
    case Overprices => Overprice(l)
    case Progresses(p) => Advance(l, p)
    case Notes => Outcome(l, Some(Entry(l.row.id, None, OtherKind, None)), None)
    case Reports => Report(l)
    case Fails(refusal) => Fail(l, refusal)
    case Routes => Route(l)
    case Halts => Quiet(l.(run := None))
    case Completes(c) => Complete(l, c)
    case BeginsRepayment => if l.repay.None? then BeginRepayment(l) else Quiet(l)
    case Repays(tx) => Settle(l, tx)
    case Closes => Close(l)
    case StopsRepayment => Quiet(l.(repay := None))
  }

  // --- all missions -------------------------------------------------------------------------------------------

  datatype State = State(
    missions: map<Id, Local>,
    log: seq<Entry>,
    callbacks: map<Id, (Id, Completion)>,
    returned: set<(Id, Id)>)

  function Init(): State { State(map[], [], map[], {}) }

  datatype Event =
    | Begins(m: Id, provider: Id, price: nat, cap: nat)
    | Acts(m: Id, step: Step)
    | Receives(k: Id, m: Id, c: Completion)
    | Accepts(k: Id)
    | Drops(k: Id)

  predicate Enabled(s: State, e: Event)
  {
    match e
    case Begins(m, _, _, _) => m !in s.missions
    case Acts(m, step) => m in s.missions && !step.Completes?
    case Receives(k, m, _) => k !in s.callbacks && m in s.missions && MayComplete(s.missions[m])
    case Accepts(k) => k in s.callbacks && s.callbacks[k].0 in s.missions
    case Drops(k) => k in s.callbacks
  }

  function Apply(s: State, m: Id, o: Outcome): State
  {
    s.(missions := s.missions[m := o.after],
       log := if o.entry.Some? then s.log + [o.entry.value] else s.log,
       returned := if o.returned.Some? then s.returned + {(m, o.returned.value)} else s.returned)
  }

  /** The step an event takes; one that is not enabled changes nothing. */
  function Next(s: State, e: Event): State
  {
    if !Enabled(s, e) then s
    else
      match e
      case Begins(m, provider, price, cap) =>
        s.(missions := s.missions[m := Local(Mission(m, provider, price, cap, Created, 0, None, None), Some(Working(Created, false)), None)])
      case Acts(m, step) => Apply(s, m, Act(s.missions[m], step))
      case Receives(k, m, c) => s.(callbacks := s.callbacks[k := (m, c)])
      case Accepts(k) =>
        var m := s.callbacks[k].0;
        Apply(s, m, Act(s.missions[m], Completes(s.callbacks[k].1))).(callbacks := s.callbacks - {k})
      case Drops(k) => s.(callbacks := s.callbacks - {k})
  }

  ghost predicate ValidRun(s: State, es: seq<Event>)
    decreases |es|
  {
    es == [] || (Enabled(s, es[0]) && ValidRun(Next(s, es[0]), es[1..]))
  }

  ghost function After(s: State, es: seq<Event>): State
    decreases |es|
  {
    if es == [] then s else After(Next(s, es[0]), es[1..])
  }
}
