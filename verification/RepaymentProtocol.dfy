/**
 Every run of `RepaymentService.repay` calls, for any number of loans, with a crash possible at
 any statement and any ledger outcome. The service's mutex lets one call per loan run at a time
 (see KeyedMutex), so `calls` holds at most one; a crash forgets it. `answers` is history: the
 transaction ids returned to callers.
 */
module RepaymentProtocol {
  import opened Common
  import opened SignerTables
  import Ledger

  // The grace the service is deployed with.
  const GRACE_MS: nat := 600_000

  // `grace`: how long past its validity an attempt is kept; `lag`: how long the Mirror Node may hide an
  // executed transfer; `latency`: how long after its answer the clock is read.
  datatype Config = Config(grace: nat, lag: nat, latency: nat)

  datatype Transfer = Transfer(loan: Id, to: Id, amount: nat)

  datatype Attempt = Attempt(txId: Ledger.TxId, validUntil: int)

  datatype Call =
    | Confirming(p: Attempt)
    | Observed(p: Attempt, answer: Ledger.Answer, at: int)
    | Preparing
    | Prepared(p: Attempt)
    | Ready(p: Attempt)
    | Submitting(p: Attempt)
    | Outcome(p: Attempt, answer: Ledger.Answer)
    | Settling(p: Attempt)
    | Recorded(p: Attempt)

  datatype State = State(
    loans: map<Id, Loan>,
    completed: set<Id>,
    repayments: Repayments,
    calls: map<Id, Call>,
    answers: set<(Id, Ledger.TxId)>,
    ledger: Ledger.State<Transfer>)

  function Init(now: int): State
  {
    State(map[], {}, map[], map[], {}, Ledger.State(now, map[], []))
  }

  datatype Event =
    | Registers(l: Id, loan: Loan)
    | Completes(mission: Id)
    | Begins(l: Id, mission: Id)
    | Observes(l: Id, a: Ledger.Answer)
    | Decides(l: Id)
    | Prepares(l: Id, t: Ledger.TxId, validUntil: int)
    | Saves(l: Id)
    | Submits(l: Id)
    | Responds(l: Id, a: Ledger.Answer)
    | Concludes(l: Id)
    | Confirms(l: Id)
    | Settles(l: Id)
    | Stops(l: Id)
    | Env(e: Ledger.Event)

  function TransferFor(l: Id, loan: Loan): Transfer { Transfer(l, loan.lender, loan.principal + loan.fee) }

  function AttemptOf(r: Repayment): Attempt { Attempt(r.txId, r.validUntil) }

  /** Where a call stands after its opening checks; None when it already answered or failed. */
  function Opening(s: State, l: Id, mission: Id): Option<Call>
  {
    if l !in s.loans || s.loans[l].mission != mission || s.loans[l].state != Funded || mission !in s.completed then None
    else if l !in s.repayments || s.repayments[l].status == Failed then Some(Preparing)
    else if s.repayments[l].status == SignerTables.Confirmed then Some(Settling(AttemptOf(s.repayments[l])))
    else Some(Confirming(AttemptOf(s.repayments[l])))
  }

  predicate AlreadyRepaid(s: State, l: Id, mission: Id)
  {
    l in s.loans && s.loans[l].mission == mission && s.loans[l].state == Repaid && s.loans[l].repaymentTx.Some?
  }

  predicate Enabled(cfg: Config, s: State, e: Event)
  {
    match e
    case Registers(l, loan) => l !in s.loans && loan.state == Funded && loan.repaymentTx.None?
    case Completes(_) => true
    case Begins(l, _) => l !in s.calls
    case Observes(l, a) =>
      l in s.calls && s.calls[l].Confirming? && Ledger.MirrorMayAnswer(s.ledger, s.calls[l].p.txId, a, cfg.lag)
    case Decides(l) =>
      l in s.calls && s.calls[l].Observed? && s.ledger.now <= s.calls[l].at + cfg.latency
    case Prepares(l, t, _) =>
      l in s.calls && s.calls[l].Preparing? && l in s.loans && Ledger.Fresh(s.ledger, t)
    case Saves(l) => l in s.calls && s.calls[l].Prepared?
    case Submits(l) => l in s.calls && s.calls[l].Ready? && s.calls[l].p.txId in s.ledger.txs
    case Responds(l, a) =>
      l in s.calls && s.calls[l].Submitting? && Ledger.NodeMayAnswer(s.ledger, s.calls[l].p.txId, a)
    case Concludes(l) => l in s.calls && s.calls[l].Outcome?
    case Confirms(l) => l in s.calls && s.calls[l].Settling?
    case Settles(l) => l in s.calls && s.calls[l].Recorded?
    case Stops(l) => l in s.calls
    case Env(le) => Ledger.Enabled(s.ledger, le)
  }

  function At(s: State, l: Id, c: Call): State { s.(calls := s.calls[l := c]) }

  function Ended(s: State, l: Id): State { s.(calls := s.calls - {l}) }

  function Updated(s: State, l: Id, status: RepaymentStatus): State
  {
    s.(repayments := UpdateRepayment(s.repayments, l, status))
  }

  /** After the confirmation attempt: settle, give the transaction up, wait, or submit the same bytes again. */
  function Decide(cfg: Config, s: State, l: Id): State
    requires l in s.calls && s.calls[l].Observed?
  {
    var c := s.calls[l];
    match c.answer
    case Confirmed(_) => At(s, l, Settling(c.p))
    case Failed => Ended(s, l)
    case Uncertain =>
      if s.ledger.now >= c.p.validUntil + cfg.grace then At(Updated(s, l, SignerTables.Failed), l, Preparing)
      else if s.ledger.now >= c.p.validUntil then Ended(s, l)
      else At(s, l, Ready(c.p))
  }

  /** The step an event takes; one that is not enabled changes nothing. */
  function Next(cfg: Config, s: State, e: Event): State
  {
    if !Enabled(cfg, s, e) then s
    else
      match e
      case Registers(l, loan) => s.(loans := s.loans[l := loan])
      case Completes(m) => s.(completed := s.completed + {m})
      case Begins(l, m) =>
        if AlreadyRepaid(s, l, m) then s.(answers := s.answers + {(l, s.loans[l].repaymentTx.value)})
        else
          var c := Opening(s, l, m);
          if c.Some? then At(s, l, c.value) else s
      case Observes(l, a) => At(s, l, Observed(s.calls[l].p, a, s.ledger.now))
      case Decides(l) => Decide(cfg, s, l)
      case Prepares(l, t, validUntil) =>
        At(s.(ledger := Ledger.Register(s.ledger, t, TransferFor(l, s.loans[l]), validUntil)), l, Prepared(Attempt(t, validUntil)))
      case Saves(l) =>
        var saved := SaveRepayment(s.repayments, l, s.calls[l].p.txId, s.calls[l].p.validUntil);
        if saved.None? || l !in saved.value then Ended(s, l)
        else At(s.(repayments := saved.value), l, Ready(AttemptOf(saved.value[l])))
      case Submits(l) => At(s.(ledger := Ledger.Send(s.ledger, s.calls[l].p.txId)), l, Submitting(s.calls[l].p))
      case Responds(l, a) => At(s, l, Outcome(s.calls[l].p, a))
      case Concludes(l) =>
        (match s.calls[l].answer
         case Confirmed(_) => At(s, l, Settling(s.calls[l].p))
         case Failed => Ended(Updated(s, l, SignerTables.Failed), l)
         case Uncertain => Ended(Updated(s, l, Pending), l))
      case Confirms(l) => At(Updated(s, l, SignerTables.Confirmed), l, Recorded(s.calls[l].p))
      case Settles(l) =>
        var t := s.calls[l].p.txId;
        (match MarkRepaid(s.loans, l, t)
         case Err(_) => Ended(s, l)
         case Ok(loans) => Ended(s.(loans := loans, answers := s.answers + {(l, t)}), l))
      case Stops(l) => Ended(s, l)
      case Env(le) => s.(ledger := Ledger.Next(s.ledger, le))
  }

  ghost predicate ValidRun(cfg: Config, s: State, es: seq<Event>)
    decreases |es|
  {
    es == [] || (Enabled(cfg, s, es[0]) && ValidRun(cfg, Next(cfg, s, es[0]), es[1..]))
  }

  ghost function After(cfg: Config, s: State, es: seq<Event>): State
    decreases |es|
  {
    if es == [] then s else After(cfg, Next(cfg, s, es[0]), es[1..])
  }

  lemma {:induction false} RunExtends(cfg: Config, s: State, es: seq<Event>, e: Event)
    requires ValidRun(cfg, s, es) && Enabled(cfg, After(cfg, s, es), e)
    ensures ValidRun(cfg, s, es + [e]) && After(cfg, s, es + [e]) == Next(cfg, After(cfg, s, es), e)
    decreases |es|
  {
    if es == [] {
      assert [e][1..] == [] && ([] + [e]) == [e];
    } else {
      RunExtends(cfg, Next(cfg, s, es[0]), es[1..], e);
      assert (es + [e])[1..] == es[1..] + [e];
    }
  }
}
