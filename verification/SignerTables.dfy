/**
 The restricted signer's private tables and the transactions `SignerStore` runs on them. Each
 function is one SQL transaction: it yields the new tables, or the error after which the old ones
 are still in place. Content hashes are compared as the contents they stand for.
 */
module SignerTables {
  import opened Common
  import Ledger

  type Id = nat
  type Hash = nat

  const MAX_TINYBAR: nat := 18_446_744_073_709_551_615

  type Tinybar = x: int | 0 <= x <= MAX_TINYBAR

  datatype Policy = Policy(spendingCap: Tinybar, session: Id, sessionCap: Tinybar, provider: Id, root: Hash, target: Hash)

  datatype MissionRow = MissionRow(cap: Tinybar, spent: Tinybar, session: Id)

  datatype SessionRow = SessionRow(cap: Tinybar, spent: Tinybar)

  datatype NonceRow = NonceRow(mission: Id, nonce: Hash, commitment: Hash, amount: Tinybar)

  datatype Authorization = Authorization(
    mission: Id, nonce: Hash, commitment: Hash, bytesHash: Hash, txId: Ledger.TxId, amount: Tinybar)

  datatype Offer = Offer(id: Id, request: Id, lender: Id, principal: Tinybar, fee: Tinybar)

  datatype Acceptance = Acceptance(mission: Id, request: Id, lender: Id, offer: Id)

  datatype StoredAcceptance = StoredAcceptance(acceptance: Acceptance, offer: Offer)

  datatype LoanState = Funded | Repaid

  datatype Loan = Loan(
    offer: Id, mission: Id, lender: Id, principal: Tinybar, fee: Tinybar,
    state: LoanState, fundingTx: Ledger.TxId, repaymentTx: Option<Ledger.TxId>)

  datatype Completion = Completion(report: Hash, settlementTx: Ledger.TxId)

  datatype CallbackKey = CallbackKey(mission: Id, report: Hash)

  datatype Result<+T, +E> = Ok(value: T) | Err(error: E)

  // --- spending: missions, sessions, consumed nonces, authorizations -------------------------------

  datatype Spending = Spending(
    policies: map<Id, Policy>,
    missions: map<Id, MissionRow>,
    sessions: map<Id, SessionRow>,
    nonces: seq<NonceRow>,
    authorizations: seq<Authorization>)

  datatype SpendingError =
    | PolicyMismatch | PolicyConflict
    | NonceUsed | CommitmentUsed | UnknownMission | UnknownSession
    | AmountNotPositive | CapExceeded | CumulativeBudgetExceeded | AuthorizationExists

  /** `registerMissionPolicy`; true when the mission is new, false when an identical policy is stored already. */
  function RegisterPolicy(t: Spending, m: Id, p: Policy, rootMatches: bool): Result<(Spending, bool), SpendingError>
  {
    if !rootMatches then Err(PolicyMismatch)
    else if m in t.policies then (if t.policies[m] == p then Ok((t, false)) else Err(PolicyConflict))
    else if p.session in t.sessions && p.sessionCap > t.sessions[p.session].cap then Err(PolicyConflict)
    else if m in t.missions then Err(PolicyConflict)
    else
      var sessions := if p.session in t.sessions then t.sessions else t.sessions[p.session := SessionRow(p.sessionCap, 0)];
      Ok((t.(policies := t.policies[m := p], sessions := sessions,
             missions := t.missions[m := MissionRow(p.spendingCap, 0, p.session)]), true))
  }

  predicate NonceExists(rows: seq<NonceRow>, mission: Id, nonce: Hash)
  {
    exists i :: 0 <= i < |rows| && rows[i].mission == mission && rows[i].nonce == nonce
  }

  predicate CommitmentExists(rows: seq<NonceRow>, commitment: Hash)
  {
    exists i :: 0 <= i < |rows| && rows[i].commitment == commitment
  }

  predicate AuthorizationClashes(rows: seq<Authorization>, a: Authorization)
  {
    exists i :: 0 <= i < |rows| &&
      ((rows[i].mission == a.mission && rows[i].nonce == a.nonce) || rows[i].commitment == a.commitment
       || rows[i].bytesHash == a.bytesHash || rows[i].txId == a.txId)
  }

  /** `reserveBudget`: the new spent total of one budget row. */
  function Reserved(spent: Tinybar, cap: Tinybar, amount: Tinybar): Result<Tinybar, SpendingError>
  {
    if amount == 0 then Err(AmountNotPositive)
    else if amount > cap then Err(CapExceeded)
    else if spent + amount > cap then Err(CumulativeBudgetExceeded)
    else Ok(spent + amount)
  }

  function Consume(t: Spending, a: Authorization): Result<Spending, SpendingError>
  {
    if NonceExists(t.nonces, a.mission, a.nonce) then Err(NonceUsed)
    else if CommitmentExists(t.nonces, a.commitment) then Err(CommitmentUsed)
    else if a.mission !in t.missions then Err(UnknownMission)
    else Ok(t.(nonces := t.nonces + [NonceRow(a.mission, a.nonce, a.commitment, a.amount)]))
  }

  function ReserveMission(t: Spending, m: Id, amount: Tinybar): Result<Spending, SpendingError>
    requires m in t.missions
  {
    match Reserved(t.missions[m].spent, t.missions[m].cap, amount)
    case Err(e) => Err(e)
    case Ok(spent) => Ok(t.(missions := t.missions[m := t.missions[m].(spent := spent)]))
  }

  function ReserveSession(t: Spending, s: Id, amount: Tinybar): Result<Spending, SpendingError>
  {
    if s !in t.sessions then Err(UnknownSession)
    else
      match Reserved(t.sessions[s].spent, t.sessions[s].cap, amount)
      case Err(e) => Err(e)
      case Ok(spent) => Ok(t.(sessions := t.sessions[s := t.sessions[s].(spent := spent)]))
  }

  function Authorize(t: Spending, a: Authorization): Result<Spending, SpendingError>
  {
    if AuthorizationClashes(t.authorizations, a) then Err(AuthorizationExists)
    else Ok(t.(authorizations := t.authorizations + [a]))
  }

  /** `reserveAuthorization`: nonce, mission budget, session budget and authorization, all or nothing. */
  function Reserve(t: Spending, a: Authorization): Result<Spending, SpendingError>
  {
    match Consume(t, a)
    case Err(e) => Err(e)
    case Ok(t1) =>
      match ReserveMission(t1, a.mission, a.amount)
      case Err(e) => Err(e)
      case Ok(t2) =>
        match ReserveSession(t2, t2.missions[a.mission].session, a.amount)
        case Err(e) => Err(e)
        case Ok(t3) => Authorize(t3, a)
  }

  predicate AuthorizedFor(t: Spending, m: Id, tx: Ledger.TxId)
  {
    exists i :: 0 <= i < |t.authorizations| && t.authorizations[i].txId == tx && t.authorizations[i].mission == m
  }

  // --- evidence: acceptances, loans, completions -----------------------------------------------------

  datatype Evidence = Evidence(
    acceptances: map<Id, StoredAcceptance>,
    loans: map<Id, Loan>,
    completions: map<Id, Completion>,
    callbacks: map<CallbackKey, Hash>)

  datatype EvidenceError = AcceptanceConflict | LoanConflict | IdempotencyConflict | Inconsistent | ConstraintViolated

  /** `saveAcceptance`: one immutable acceptance per mission, and per offer. */
  function SaveAcceptance(t: Evidence, offer: Offer, a: Acceptance): Result<Evidence, EvidenceError>
  {
    if a.mission in t.acceptances then
      if t.acceptances[a.mission].acceptance == a then Ok(t) else Err(AcceptanceConflict)
    else if exists m :: m in t.acceptances && t.acceptances[m].acceptance.offer == a.offer then Err(ConstraintViolated)
    else Ok(t.(acceptances := t.acceptances[a.mission := StoredAcceptance(a, offer)]))
  }

  predicate SameTerms(x: Loan, y: Loan)
  {
    x.offer == y.offer && x.mission == y.mission && x.lender == y.lender
    && x.principal == y.principal && x.fee == y.fee && x.fundingTx == y.fundingTx
  }

  /** `registerFundedLoan`: registers once; an identical retry succeeds whatever became of the loan since. */
  function RegisterLoan(t: Evidence, id: Id, loan: Loan): Result<Evidence, EvidenceError>
  {
    if id in t.loans then (if SameTerms(t.loans[id], loan) then Ok(t) else Err(LoanConflict))
    else if exists i :: i in t.loans && t.loans[i].fundingTx == loan.fundingTx then Err(LoanConflict)
    else if exists i :: i in t.loans && t.loans[i].mission == loan.mission then Err(LoanConflict)
    else Ok(t.(loans := t.loans[id := loan]))
  }

  /** `recordCompletion`; true when newly accepted, false for an identical replay of the callback key. */
  function RecordCompletion(t: Evidence, m: Id, c: Completion, requestHash: Hash): Result<(Evidence, bool), EvidenceError>
  {
    var key := CallbackKey(m, c.report);
    if key in t.callbacks then (if t.callbacks[key] == requestHash then Ok((t, false)) else Err(IdempotencyConflict))
    else if m in t.completions then Err(IdempotencyConflict)
    else if exists k :: k in t.completions && t.completions[k].settlementTx == c.settlementTx then Err(ConstraintViolated)
    else Ok((t.(completions := t.completions[m := c], callbacks := t.callbacks[key := requestHash]), true))
  }

  /** `completionReplay`: whether a callback is an identical replay, new, or in conflict. */
  function CompletionReplay(t: Evidence, key: CallbackKey, requestHash: Hash): Result<bool, EvidenceError>
  {
    if key in t.callbacks then (if t.callbacks[key] == requestHash then Ok(true) else Err(IdempotencyConflict))
    else if key.mission in t.completions && t.completions[key.mission].report != key.report then Err(IdempotencyConflict)
    else Ok(false)
  }

  /** `markLoanRepaid`: funded to repaid under one transaction id, idempotent for that id only. */
  function MarkRepaid(loans: map<Id, Loan>, id: Id, tx: Ledger.TxId): Result<map<Id, Loan>, EvidenceError>
  {
    if id !in loans then Err(Inconsistent)
    else
      var loan := loans[id];
      if loan.state == Funded && (loan.repaymentTx.None? || loan.repaymentTx == Some(tx))
      then Ok(loans[id := loan.(state := Repaid, repaymentTx := Some(tx))])
      else if loan.state == Repaid && loan.repaymentTx == Some(tx) then Ok(loans)
      else Err(Inconsistent)
  }

  // --- repayments --------------------------------------------------------------------------------------

  datatype RepaymentStatus = Pending | Confirmed | Failed

  datatype Repayment = Repayment(txId: Ledger.TxId, validUntil: int, status: RepaymentStatus, attempts: nat)

  type Repayments = map<Id, Repayment>

  predicate TxTaken(r: Repayments, l: Id, tx: Ledger.TxId)
  {
    exists k :: k in r && k != l && r[k].txId == tx
  }

  /** `saveRepayment`: inserts, or replaces a failed attempt; anything else is left as it is. */
  function SaveRepayment(r: Repayments, l: Id, tx: Ledger.TxId, validUntil: int): Option<Repayments>
  {
    if l in r && r[l].status != Failed then Some(r)
    else if TxTaken(r, l, tx) then None
    else Some(r[l := Repayment(tx, validUntil, Pending, 0)])
  }

  function UpdateRepayment(r: Repayments, l: Id, status: RepaymentStatus): Repayments
  {
    if l in r then r[l := r[l].(status := status, attempts := r[l].attempts + 1)] else r
  }
}
