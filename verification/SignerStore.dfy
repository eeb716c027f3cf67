/**
 `SignerStore` as the object it is: every method writes table by table, and a transaction that
 throws puts the tables back as it found them.
 */
module SignerStore {
  import opened Common
  import opened SignerTables
  import Balance = SpendingSafety
  import Ledger

  class Store {
    var spending: Spending
    var evidence: Evidence
    var repayments: Repayments

    constructor ()
      ensures spending == Balance.Empty() && Balance.Balanced(spending)
      ensures evidence == Evidence(map[], map[], map[], map[]) && repayments == map[]
    {
      spending, evidence, repayments := Balance.Empty(), Evidence(map[], map[], map[], map[]), map[];
      new;
      Balance.EmptyBalances();
    }

    method RegisterMissionPolicy(m: Id, p: Policy, rootMatches: bool) returns (r: Result<bool, SpendingError>)
      modifies this`spending
      ensures RegisterPolicy(old(spending), m, p, rootMatches)
           == if r.Ok? then Ok((spending, r.value)) else Err(r.error)
      ensures r.Err? || !r.value ==> spending == old(spending)
      ensures Balance.Balanced(old(spending)) ==> Balance.Balanced(spending)
    {
      ghost var before := spending;
      if !rootMatches { return Err(PolicyMismatch); }
      if m in spending.policies {
        if spending.policies[m] == p { return Ok(false); }
        return Err(PolicyConflict);
      }
      var saved := spending;
      if p.session !in spending.sessions {
        spending := spending.(sessions := spending.sessions[p.session := SessionRow(p.sessionCap, 0)]);
      } else if p.sessionCap > spending.sessions[p.session].cap {
        return Err(PolicyConflict);
      }
      if m in spending.missions {
        spending := saved;
        return Err(PolicyConflict);
      }
      spending := spending.(missions := spending.missions[m := MissionRow(p.spendingCap, 0, p.session)]);
      spending := spending.(policies := spending.policies[m := p]);
      if Balance.Balanced(before) { Balance.RegisterKeepsBalance(before, m, p, rootMatches); }
      return Ok(true);
    }

    /** `insertConsumedNonce`: the unique constraints say which identifier was used before. */
    method InsertConsumedNonce(a: Authorization) returns (error: Option<SpendingError>)
      modifies this`spending
      ensures Consume(old(spending), a) == if error.None? then Ok(spending) else Err(error.value)
      ensures error.Some? ==> spending == old(spending)
    {
      if NonceExists(spending.nonces, a.mission, a.nonce) { return Some(NonceUsed); }
      if CommitmentExists(spending.nonces, a.commitment) { return Some(CommitmentUsed); }
      if a.mission !in spending.missions { return Some(UnknownMission); }
      spending := spending.(nonces := spending.nonces + [NonceRow(a.mission, a.nonce, a.commitment, a.amount)]);
      return None;
    }

    /** `reserveSpending`, writing as it goes; its caller's transaction undoes a partial one. */
    method ReserveSpending(a: Authorization) returns (error: Option<SpendingError>)
      modifies this`spending
      ensures error.None? ==> Consume(old(spending), a).Ok?
                              && spending.authorizations == old(spending).authorizations
                              && Reserve(old(spending), a) == Authorize(spending, a)
      ensures error.Some? ==> Reserve(old(spending), a) == Err(error.value)
    {
      error := InsertConsumedNonce(a);
      if error.Some? { return; }
      var row := spending.missions[a.mission];
      var mission := Reserved(row.spent, row.cap, a.amount);
      if mission.Err? { return Some(mission.error); }
      spending := spending.(missions := spending.missions[a.mission := row.(spent := mission.value)]);
      if row.session !in spending.sessions { return Some(UnknownSession); }
      var budget := spending.sessions[row.session];
      var session := Reserved(budget.spent, budget.cap, a.amount);
      if session.Err? { return Some(session.error); }
      spending := spending.(sessions := spending.sessions[row.session := budget.(spent := session.value)]);
      return None;
    }

    /** One transaction: everything is reserved and stored, or nothing is consumed at all. */
    method ReserveAuthorization(a: Authorization) returns (error: Option<SpendingError>)
      modifies this`spending
      ensures Reserve(old(spending), a) == if error.None? then Ok(spending) else Err(error.value)
      ensures error.Some? ==> spending == old(spending)
      ensures Balance.Balanced(old(spending)) ==>
                Balance.Balanced(spending) && (error.None? <==> Balance.CanReserve(old(spending), a))
    {
      var saved := spending;
      error := ReserveSpending(a);
      if error.None? {
        if AuthorizationClashes(spending.authorizations, a) { error := Some(AuthorizationExists); }
        else { spending := spending.(authorizations := spending.authorizations + [a]); }
      }
      if error.Some? { spending := saved; }
      if Balance.Balanced(saved) {
        Balance.ReserveSucceedsIff(saved, a);
        if error.None? { Balance.ReserveKeepsBalance(saved, a); }
      }
    }

    method SaveCreditAcceptance(offer: Offer, a: Acceptance) returns (r: Result<StoredAcceptance, EvidenceError>)
      modifies this`evidence
      ensures SaveAcceptance(old(evidence), offer, a) == if r.Ok? then Ok(evidence) else Err(r.error)
      ensures r.Err? ==> evidence == old(evidence)
      ensures r.Ok? ==> r.value.acceptance == a && a.mission in evidence.acceptances && evidence.acceptances[a.mission] == r.value
    {
      if a.mission in evidence.acceptances {
        var existing := evidence.acceptances[a.mission];
        if existing.acceptance != a { return Err(AcceptanceConflict); }
        return Ok(existing);
      }
      if exists m :: m in evidence.acceptances && evidence.acceptances[m].acceptance.offer == a.offer {
        return Err(ConstraintViolated);
      }
      evidence := evidence.(acceptances := evidence.acceptances[a.mission := StoredAcceptance(a, offer)]);
      return Ok(StoredAcceptance(a, offer));
    }

    method RegisterFundedLoan(id: Id, loan: Loan) returns (r: Result<Loan, EvidenceError>)
      modifies this`evidence
      ensures RegisterLoan(old(evidence), id, loan) == if r.Ok? then Ok(evidence) else Err(r.error)
      ensures r.Err? ==> evidence == old(evidence)
      ensures r.Ok? ==> id in evidence.loans && evidence.loans[id] == r.value && SameTerms(r.value, loan)
    {
      if id in evidence.loans {
        if !SameTerms(evidence.loans[id], loan) { return Err(LoanConflict); }
        return Ok(evidence.loans[id]);
      }
      if exists i :: i in evidence.loans && evidence.loans[i].fundingTx == loan.fundingTx { return Err(LoanConflict); }
      if exists i :: i in evidence.loans && evidence.loans[i].mission == loan.mission { return Err(LoanConflict); }
      evidence := evidence.(loans := evidence.loans[id := loan]);
      return Ok(loan);
    }

    /** The completion and its callback key, together or not at all. */
    method RecordAcceptedCompletion(m: Id, c: Completion, requestHash: Hash) returns (r: Result<bool, EvidenceError>)
      modifies this`evidence
      ensures RecordCompletion(old(evidence), m, c, requestHash) == if r.Ok? then Ok((evidence, r.value)) else Err(r.error)
      ensures r.Err? || !r.value ==> evidence == old(evidence)
    {
      var key := CallbackKey(m, c.report);
      if key in evidence.callbacks {
        if evidence.callbacks[key] != requestHash { return Err(IdempotencyConflict); }
        return Ok(false);
      }
      if m in evidence.completions { return Err(IdempotencyConflict); }
      if exists k :: k in evidence.completions && evidence.completions[k].settlementTx == c.settlementTx {
        return Err(ConstraintViolated);
      }
      evidence := evidence.(completions := evidence.completions[m := c]);
      evidence := evidence.(callbacks := evidence.callbacks[key := requestHash]);
      return Ok(true);
    }

    /** `markLoanRepaid`: a guarded update, then a look at why it changed nothing. */
    method MarkLoanRepaid(id: Id, tx: Ledger.TxId) returns (error: Option<EvidenceError>)
      modifies this`evidence
      ensures MarkRepaid(old(evidence).loans, id, tx) == if error.None? then Ok(evidence.loans) else Err(error.value)
      ensures evidence == old(evidence).(loans := evidence.loans) && (error.Some? ==> evidence == old(evidence))
    {
      if id in evidence.loans && evidence.loans[id].state == Funded
         && (evidence.loans[id].repaymentTx.None? || evidence.loans[id].repaymentTx == Some(tx)) {
        evidence := evidence.(loans := evidence.loans[id := evidence.loans[id].(state := Repaid, repaymentTx := Some(tx))]);
        return None;
      }
      if id !in evidence.loans || evidence.loans[id].state != Repaid || evidence.loans[id].repaymentTx != Some(tx) {
        return Some(Inconsistent);
      }
      return None;
    }

    /** An upsert that only ever replaces a failed attempt. */
    method SaveRepaymentAttempt(l: Id, tx: Ledger.TxId, validUntil: int) returns (ok: bool)
      modifies this`repayments
      ensures ok == SaveRepayment(old(repayments), l, tx, validUntil).Some?
      ensures repayments == if ok then SaveRepayment(old(repayments), l, tx, validUntil).value else old(repayments)
      ensures l in old(repayments) && old(repayments)[l].status != Failed ==> repayments == old(repayments)
    {
      if l in repayments && repayments[l].status != Failed { return true; }
      if TxTaken(repayments, l, tx) { return false; }
      repayments := repayments[l := Repayment(tx, validUntil, Pending, 0)];
      return true;
    }

    method UpdateRepaymentStatus(l: Id, status: RepaymentStatus)
      modifies this`repayments
      ensures repayments == UpdateRepayment(old(repayments), l, status)
      ensures forall k :: k in old(repayments) && k != l ==> k in repayments && repayments[k] == old(repayments)[k]
    {
      if l in repayments {
        repayments := repayments[l := repayments[l].(status := status, attempts := repayments[l].attempts + 1)];
      }
    }
  }
}
