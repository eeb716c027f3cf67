/**
 Every run of the signer's credit, loan, payment, completion and repayment commands. Commands that
 wait for the ledger or for a proof check first, and write after the wait: in between, any other
 command may run. `Stops` is an error or a crash during the wait. What hashing, signatures and the
 ledger confirm is in the `accepted` flags of the events.
 */
module EvidenceProtocol {
  import opened Common
  import opened SignerTables
  import Spending = SpendingSafety
  import Ledger

  type CallId = nat

  datatype Request = Request(mission: Id, principal: Tinybar)

  datatype Call =
    | Accepting(offer: Offer, acceptance: Acceptance)
    | Funding(id: Id, loan: Loan)
    | Confirming(mission: Id, completion: Completion, hash: Hash)
    | Repaying(id: Id)

  datatype State = State(
    spending: SignerTables.Spending,
    requests: map<Id, Request>,
    evidence: Evidence,
    calls: map<CallId, Call>)

  function Init(): State { State(Spending.Empty(), map[], Evidence(map[], map[], map[], map[]), map[]) }

  datatype Event =
    | Spends(e: Spending.Event)
    | RequestsCredit(id: Id, r: Request)
    | Offers(k: CallId, offer: Offer, accepted: bool)
    | Accepts(k: CallId)
    | Presents(k: CallId, id: Id, mission: Id, offer: Offer, lender: Id, fundingTx: Ledger.TxId, accepted: bool)
    | Funds(k: CallId)
    | Reports(k: CallId, mission: Id, completion: Completion, hash: Hash)
    | Completes(k: CallId)
    | BeginsRepayment(k: CallId, id: Id)
    | Repays(k: CallId, tx: Ledger.TxId)
    | Stops(k: CallId)

  predicate Enabled(s: State, e: Event)
  {
    match e
    case Spends(_) => true
    case RequestsCredit(_, _) => true
    case Offers(k, _, _) => k !in s.calls
    case Accepts(k) => k in s.calls && s.calls[k].Accepting?
    case Presents(k, _, _, _, _, _, _) => k !in s.calls
    case Funds(k) => k in s.calls && s.calls[k].Funding?
    case Reports(k, _, _, _) => k !in s.calls
    case Completes(k) => k in s.calls && s.calls[k].Confirming?
    case BeginsRepayment(k, _) => k !in s.calls
    case Repays(k, _) => k in s.calls && s.calls[k].Repaying?
    case Stops(k) => k in s.calls
  }

  function At(s: State, k: CallId, c: Call): State { s.(calls := s.calls[k := c]) }

  function Ended(s: State, k: CallId): State { s.(calls := s.calls - {k}) }

  function Wrote(s: State, k: CallId, r: Result<Evidence, EvidenceError>): State
  {
    Ended(if r.Ok? then s.(evidence := r.value) else s, k)
  }

  /** The checks of `signCreditRequest`; a known id keeps its first content. */
  function SignRequest(s: State, id: Id, r: Request): State
  {
    if id in s.requests || r.mission !in s.spending.policies then s
    else if r.principal == 0 || r.principal > s.spending.policies[r.mission].spendingCap then s
    else s.(requests := s.requests[id := r])
  }

  predicate OfferFits(s: State, offer: Offer)
  {
    && offer.request in s.requests && s.requests[offer.request].mission in s.spending.policies
    && s.requests[offer.request].principal <= offer.principal
    && offer.principal + offer.fee <= MAX_TINYBAR
    && offer.principal <= s.spending.policies[s.requests[offer.request].mission].spendingCap
  }

  // `registerLoan` takes its documents only as this signer stored and signed them.
  predicate DocumentsMatch(s: State, mission: Id, offer: Offer, lender: Id)
  {
    && mission in s.evidence.acceptances
    && s.evidence.acceptances[mission].offer == offer
    && s.evidence.acceptances[mission].acceptance.lender == lender && offer.lender == lender
  }

  /** `complete` up to the ledger lookup: the settlement must be one this signer authorized for the mission. */
  function Report(s: State, k: CallId, mission: Id, c: Completion, hash: Hash): State
  {
    if mission !in s.spending.policies || !AuthorizedFor(s.spending, mission, c.settlementTx) then s
    else
      match CompletionReplay(s.evidence, CallbackKey(mission, c.report), hash)
      case Err(_) => s
      case Ok(replay) => if replay then s else At(s, k, Confirming(mission, c, hash))
  }

  /** The step an event takes; one that is not enabled changes nothing. */
  function Next(s: State, e: Event): State
  {
    if !Enabled(s, e) then s
    else
      match e
      case Spends(se) => s.(spending := Spending.Next(s.spending, se))
      case RequestsCredit(id, r) => SignRequest(s, id, r)
      case Offers(k, offer, accepted) =>
        if accepted && OfferFits(s, offer)
        then At(s, k, Accepting(offer, Acceptance(s.requests[offer.request].mission, offer.request, offer.lender, offer.id)))
        else s
      case Accepts(k) => Wrote(s, k, SaveAcceptance(s.evidence, s.calls[k].offer, s.calls[k].acceptance))
      case Presents(k, id, mission, offer, lender, fundingTx, accepted) =>
        if accepted && DocumentsMatch(s, mission, offer, lender)
        then At(s, k, Funding(id, Loan(offer.id, mission, lender, offer.principal, offer.fee, Funded, fundingTx, None)))
        else s
      case Funds(k) => Wrote(s, k, RegisterLoan(s.evidence, s.calls[k].id, s.calls[k].loan))
      case Reports(k, mission, completion, hash) => Report(s, k, mission, completion, hash)
      case Completes(k) =>
        var c := s.calls[k];
        var r := RecordCompletion(s.evidence, c.mission, c.completion, c.hash);
        Wrote(s, k, if r.Ok? then Ok(r.value.0) else Err(r.error))
      case BeginsRepayment(k, id) =>
        if id in s.evidence.loans && s.evidence.loans[id].state == LoanState.Funded
           && s.evidence.loans[id].mission in s.evidence.completions
        then At(s, k, Repaying(id)) else s
      case Repays(k, tx) =>
        var r := MarkRepaid(s.evidence.loans, s.calls[k].id, tx);
        Wrote(s, k, if r.Ok? then Ok(s.evidence.(loans := r.value)) else Err(r.error))
      case Stops(k) => Ended(s, k)
  }

  ghost predicate ValidRun(s: State, es: seq<Event>)
    decreases |es|
  {
    es == [] || (Enabled(s, es[0]) && ValidRun(Next(s, es[0]), es[1..]))
  }

  ghost function After(s: State, es: seq<Event>): State
    decreases |es|
  {
    if es == [] then s else After(Next(s, es[0]), es[1..])
  }
}
