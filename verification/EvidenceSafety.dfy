/** A repaid loan can be traced back: to its offer, its completion, and a payment the signer authorized and counted. */
module EvidenceSafety {
  import opened Common
  import opened SignerTables
  import opened EvidenceProtocol
  import Spending = SpendingSafety
  import Ledger

  // --- invariant ------------------------------------------------------------------------------------------

  predicate AcceptanceOk(s: State, m: Id, x: StoredAcceptance)
  {
    var a := x.acceptance;
    && a == Acceptance(m, x.offer.request, x.offer.lender, x.offer.id)
    && x.offer.request in s.requests && s.requests[x.offer.request].mission == m
    && s.requests[x.offer.request].principal <= x.offer.principal
    && x.offer.principal + x.offer.fee <= MAX_TINYBAR
    && m in s.spending.policies && x.offer.principal <= s.spending.policies[m].spendingCap
  }

  predicate LoanOk(s: State, loan: Loan)
  {
    && loan.mission in s.evidence.acceptances
    && (var offer := s.evidence.acceptances[loan.mission].offer;
        loan.offer == offer.id && loan.lender == offer.lender && loan.principal == offer.principal && loan.fee == offer.fee)
    && (loan.state == Repaid ==> loan.repaymentTx.Some? && loan.mission in s.evidence.completions)
  }

  predicate CompletionOk(s: State, m: Id, c: Completion)
  {
    m in s.spending.policies && AuthorizedFor(s.spending, m, c.settlementTx)
  }

  // A callback key is stored only with the completion it belongs to.
  predicate KeyOk(s: State, key: CallbackKey)
  {
    key.mission in s.evidence.completions && s.evidence.completions[key.mission].report == key.report
  }

  predicate CallOk(s: State, c: Call)
  {
    match c
    case Accepting(offer, a) => AcceptanceOk(s, a.mission, StoredAcceptance(a, offer))
    case Funding(_, loan) => LoanOk(s, loan) && loan.state == LoanState.Funded
    case Confirming(m, completion, _) => CompletionOk(s, m, completion)
    case Repaying(id) => id in s.evidence.loans && s.evidence.loans[id].mission in s.evidence.completions
  }

  predicate AcceptanceAt(s: State, m: Id)
  {
    m in s.evidence.acceptances ==> AcceptanceOk(s, m, s.evidence.acceptances[m])
  }

  predicate LoanAt(s: State, l: Id) { l in s.evidence.loans ==> LoanOk(s, s.evidence.loans[l]) }

  predicate CompletionAt(s: State, m: Id)
  {
    m in s.evidence.completions ==> CompletionOk(s, m, s.evidence.completions[m])
  }

  predicate KeyAt(s: State, key: CallbackKey) { key in s.evidence.callbacks ==> KeyOk(s, key) }

  predicate CallAt(s: State, k: CallId) { k in s.calls ==> CallOk(s, s.calls[k]) }

  predicate OffersDiffer(t: Evidence, m: Id, n: Id)
  {
    m in t.acceptances && n in t.acceptances && m != n ==> t.acceptances[m].acceptance.offer != t.acceptances[n].acceptance.offer
  }

  predicate LoansDiffer(t: Evidence, l: Id, k: Id)
  {
    l in t.loans && k in t.loans && l != k ==>
      t.loans[l].fundingTx != t.loans[k].fundingTx && t.loans[l].mission != t.loans[k].mission
  }

  predicate SettlementsDiffer(t: Evidence, m: Id, n: Id)
  {
    m in t.completions && n in t.completions && m != n ==> t.completions[m].settlementTx != t.completions[n].settlementTx
  }

  ghost predicate Distinct(t: Evidence)
  {
    && (forall m, n :: OffersDiffer(t, m, n))
    && (forall l, k :: LoansDiffer(t, l, k))
    && (forall m, n :: SettlementsDiffer(t, m, n))
  }

  ghost predicate TablesOk(s: State)
  {
    && (forall m :: AcceptanceAt(s, m)) && (forall l :: LoanAt(s, l))
    && (forall m :: CompletionAt(s, m)) && (forall key :: KeyAt(s, key))
  }

  ghost predicate Inv(s: State)
  {
    Spending.Balanced(s.spending) && TablesOk(s) && Distinct(s.evidence) && (forall k :: CallAt(s, k))
  }

  lemma InitOk()
    ensures Inv(Init())
  {
    Spending.EmptyBalances();
  }

  // --- steps: every table only grows, and a loan changes only by being repaid --------------------------------

  predicate SameDeal(x: Loan, y: Loan)
  {
    SameTerms(x, y) && (x.state == Repaid ==> y == x)
  }

  predicate PolicyKept(s: State, s': State, m: Id)
  {
    m in s.spending.policies ==> m in s'.spending.policies && s'.spending.policies[m] == s.spending.policies[m]
  }

  predicate RequestKept(s: State, s': State, r: Id)
  {
    r in s.requests ==> r in s'.requests && s'.requests[r] == s.requests[r]
  }

  predicate AcceptanceKept(t: Evidence, t': Evidence, m: Id)
  {
    m in t.acceptances ==> m in t'.acceptances && t'.acceptances[m] == t.acceptances[m]
  }

  predicate LoanKept(t: Evidence, t': Evidence, l: Id)
  {
    l in t.loans ==> l in t'.loans && SameDeal(t.loans[l], t'.loans[l])
  }

  predicate CompletionKept(t: Evidence, t': Evidence, m: Id)
  {
    m in t.completions ==> m in t'.completions && t'.completions[m] == t.completions[m]
  }

  ghost predicate Grows(s: State, s': State)
  {
    && (forall m :: PolicyKept(s, s', m)) && s.spending.authorizations <= s'.spending.authorizations
    && (forall r :: RequestKept(s, s', r))
    && EvidenceGrows(s.evidence, s'.evidence)
  }

  ghost predicate EvidenceGrows(t: Evidence, t': Evidence)
  {
    && (forall m :: AcceptanceKept(t, t', m)) && (forall l :: LoanKept(t, t', l)) && (forall m :: CompletionKept(t, t', m))
  }

  lemma AuthorizationStays(s: State, s': State, m: Id, tx: Ledger.TxId)
    requires s.spending.authorizations <= s'.spending.authorizations && AuthorizedFor(s.spending, m, tx)
    ensures AuthorizedFor(s'.spending, m, tx)
  {
    var i :| 0 <= i < |s.spending.authorizations| && s.spending.authorizations[i].txId == tx && s.spending.authorizations[i].mission == m;
    assert s'.spending.authorizations[i] == s.spending.authorizations[i];
  }

  // What a call relies on, and what a stored row relies on, outlives the growth of the tables.

  lemma CallStays(s: State, s': State, c: Call)
    requires Grows(s, s') && CallOk(s, c)
    ensures CallOk(s', c)
  {
    match c
    case Accepting(offer, a) =>
      assert RequestKept(s, s', offer.request) && PolicyKept(s, s', a.mission);
    case Funding(_, loan) => LoanStays(s, s', loan);
    case Confirming(m, completion, _) => CompletionStays(s, s', m, completion);
    case Repaying(id) =>
      assert LoanKept(s.evidence, s'.evidence, id) && CompletionKept(s.evidence, s'.evidence, s.evidence.loans[id].mission);
  }

  lemma LoanStays(s: State, s': State, loan: Loan)
    requires Grows(s, s') && LoanOk(s, loan)
    ensures LoanOk(s', loan)
  {
    assert AcceptanceKept(s.evidence, s'.evidence, loan.mission) && CompletionKept(s.evidence, s'.evidence, loan.mission);
  }

  lemma CompletionStays(s: State, s': State, m: Id, c: Completion)
    requires Grows(s, s') && CompletionOk(s, m, c)
    ensures CompletionOk(s', m, c)
  {
    assert PolicyKept(s, s', m);
    AuthorizationStays(s, s', m, c.settlementTx);
  }

  // Rows that are new, or changed, after a step; the others are as they were.
  ghost predicate NewRowsOk(s: State, s': State)
  {
    && (forall m :: m !in s.evidence.acceptances ==> AcceptanceAt(s', m))
    && (forall l :: l !in s.evidence.loans || (l in s'.evidence.loans && s'.evidence.loans[l] != s.evidence.loans[l]) ==> LoanAt(s', l))
    && (forall m :: m !in s.evidence.completions ==> CompletionAt(s', m))
    && (forall key :: key !in s.evidence.callbacks ==> KeyAt(s', key))
  }

  lemma GrowthKeepsTables(s: State, s': State)
    requires TablesOk(s) && Grows(s, s') && NewRowsOk(s, s')
    ensures TablesOk(s')
  {
    forall m ensures AcceptanceAt(s', m) {
      if m in s.evidence.acceptances {
        assert AcceptanceAt(s, m) && AcceptanceKept(s.evidence, s'.evidence, m);
        var x := s.evidence.acceptances[m];
        assert RequestKept(s, s', x.offer.request) && PolicyKept(s, s', m);
      }
    }
    forall l ensures LoanAt(s', l) {
      if l in s.evidence.loans && l in s'.evidence.loans && s'.evidence.loans[l] == s.evidence.loans[l] {
        assert LoanAt(s, l);
        LoanStays(s, s', s.evidence.loans[l]);
      }
    }
    forall m ensures CompletionAt(s', m) {
      if m in s.evidence.completions {
        assert CompletionAt(s, m) && CompletionKept(s.evidence, s'.evidence, m);
        CompletionStays(s, s', m, s.evidence.completions[m]);
      }
    }
    forall key ensures KeyAt(s', key) {
      if key in s.evidence.callbacks {
        assert KeyAt(s, key) && CompletionKept(s.evidence, s'.evidence, key.mission);
      }
    }
  }

  lemma WriteKeepsInv(s: State, t: Evidence, k: CallId)
    requires Inv(s) && Write(s, t)
    ensures var s' := Ended(s.(evidence := t), k); Inv(s') && Grows(s, s')
  {
    var s' := Ended(s.(evidence := t), k);
    GrowthKeepsTables(s, s');
    forall j ensures CallAt(s', j) {
      assert CallAt(s, j);
      if j in s'.calls { CallStays(s, s', s.calls[j]); }
    }
  }

  ghost predicate Write(s: State, t: Evidence)
  {
    EvidenceGrows(s.evidence, t) && Distinct(t) && NewRowsOk(s, s.(evidence := t))
  }

  // Tables a write leaves alone stay distinct.
  lemma DistinctStays(t: Evidence, t': Evidence)
    requires Distinct(t)
    ensures t'.acceptances == t.acceptances ==> forall m, n :: OffersDiffer(t', m, n)
    ensures t'.loans == t.loans ==> forall l, k :: LoansDiffer(t', l, k)
    ensures t'.completions == t.completions ==> forall m, n :: SettlementsDiffer(t', m, n)
  {
    forall m, n | t'.acceptances == t.acceptances ensures OffersDiffer(t', m, n) { assert OffersDiffer(t, m, n); }
    forall l, k | t'.loans == t.loans ensures LoansDiffer(t', l, k) { assert LoansDiffer(t, l, k); }
    forall m, n | t'.completions == t.completions ensures SettlementsDiffer(t', m, n) { assert SettlementsDiffer(t, m, n); }
  }

  lemma AcceptWrites(s: State, offer: Offer, a: Acceptance)
    requires Distinct(s.evidence) && AcceptanceOk(s, a.mission, StoredAcceptance(a, offer))
    requires SaveAcceptance(s.evidence, offer, a).Ok?
    ensures Write(s, SaveAcceptance(s.evidence, offer, a).value)
  {
    var t' := SaveAcceptance(s.evidence, offer, a).value;
    DistinctStays(s.evidence, t');
    forall m, n ensures OffersDiffer(t', m, n) { assert OffersDiffer(s.evidence, m, n); }
  }

  lemma FundWrites(s: State, id: Id, loan: Loan)
    requires Distinct(s.evidence) && LoanOk(s, loan) && RegisterLoan(s.evidence, id, loan).Ok?
    ensures Write(s, RegisterLoan(s.evidence, id, loan).value)
  {
    var t' := RegisterLoan(s.evidence, id, loan).value;
    DistinctStays(s.evidence, t');
    forall l, k ensures LoansDiffer(t', l, k) { assert LoansDiffer(s.evidence, l, k); }
  }

  lemma CompleteWrites(s: State, m: Id, c: Completion, hash: Hash)
    requires Distinct(s.evidence) && CompletionOk(s, m, c) && RecordCompletion(s.evidence, m, c, hash).Ok?
    ensures Write(s, RecordCompletion(s.evidence, m, c, hash).value.0)
  {
    var t' := RecordCompletion(s.evidence, m, c, hash).value.0;
    DistinctStays(s.evidence, t');
    forall n, k ensures SettlementsDiffer(t', n, k) { assert SettlementsDiffer(s.evidence, n, k); }
  }

  lemma RepayWrites(s: State, id: Id, tx: Ledger.TxId)
    requires Distinct(s.evidence) && id in s.evidence.loans && LoanOk(s, s.evidence.loans[id])
    requires s.evidence.loans[id].mission in s.evidence.completions && MarkRepaid(s.evidence.loans, id, tx).Ok?
    ensures Write(s, s.evidence.(loans := MarkRepaid(s.evidence.loans, id, tx).value))
  {
    var t' := s.evidence.(loans := MarkRepaid(s.evidence.loans, id, tx).value);
    DistinctStays(s.evidence, t');
    forall l, k ensures LoansDiffer(t', l, k) { assert LoansDiffer(s.evidence, l, k); }
  }

  lemma IsAWrite(s: State, e: Event)
    requires Inv(s) && Enabled(s, e) && (e.Accepts? || e.Funds? || e.Completes? || e.Repays?)
    ensures Write(s, Next(s, e).evidence)
  {
    var c := s.calls[e.k];
    assert CallAt(s, e.k);
    match e
    case Accepts(k) =>
      if SaveAcceptance(s.evidence, c.offer, c.acceptance).Ok? { AcceptWrites(s, c.offer, c.acceptance); }
    case Funds(k) =>
      if RegisterLoan(s.evidence, c.id, c.loan).Ok? { FundWrites(s, c.id, c.loan); }
    case Completes(k) =>
      if RecordCompletion(s.evidence, c.mission, c.completion, c.hash).Ok? { CompleteWrites(s, c.mission, c.completion, c.hash); }
    case Repays(k, tx) =>
      assert LoanAt(s, c.id);
      if MarkRepaid(s.evidence.loans, c.id, tx).Ok? { RepayWrites(s, c.id, tx); }
  }

  lemma WritesKeepsInv(s: State, e: Event)
    requires Inv(s) && Enabled(s, e) && (e.Accepts? || e.Funds? || e.Completes? || e.Repays?)
    ensures Inv(Next(s, e)) && Grows(s, Next(s, e))
  {
    IsAWrite(s, e);
    WriteKeepsInv(s, Next(s, e).evidence, e.k);
    assert Next(s, e) == Ended(s.(evidence := Next(s, e).evidence), e.k);
  }

  // A step that opens or drops a call, records a request or spends leaves the evidence tables alone.
  lemma QuietStepKeepsInv(s: State, s': State)
    requires Inv(s) && Grows(s, s') && s'.evidence == s.evidence && Spending.Balanced(s'.spending)
    requires forall k :: k in s'.calls && (k !in s.calls || s'.calls[k] != s.calls[k]) ==> CallAt(s', k)
    ensures Inv(s')
  {
    GrowthKeepsTables(s, s');
    forall k ensures CallAt(s', k) {
      if k in s.calls && k in s'.calls && s'.calls[k] == s.calls[k] {
        assert CallAt(s, k);
        CallStays(s, s', s.calls[k]);
      }
    }
  }

  lemma OpensRightly(s: State, e: Event)
    requires Enabled(s, e) && (e.Offers? || e.Presents? || e.Reports? || e.BeginsRepayment?)
    requires e.Presents? ==> AcceptanceAt(s, e.mission)
    ensures Next(s, e) == s
            || (e.k in Next(s, e).calls && Next(s, e) == At(s, e.k, Next(s, e).calls[e.k]) && CallOk(s, Next(s, e).calls[e.k]))
  {
  }

  lemma OpensKeepsInv(s: State, e: Event)
    requires Inv(s) && Enabled(s, e) && (e.Offers? || e.Presents? || e.Reports? || e.BeginsRepayment?)
    ensures Inv(Next(s, e)) && Grows(s, Next(s, e))
  {
    if e.Presents? { assert AcceptanceAt(s, e.mission); }
    OpensRightly(s, e);
    if Next(s, e) != s {
      var c := Next(s, e).calls[e.k];
      CallStays(s, At(s, e.k, c), c);
      QuietStepKeepsInv(s, At(s, e.k, c));
    }
  }

  lemma QuietKeepsInv(s: State, e: Event)
    requires Inv(s) && Enabled(s, e) && (e.RequestsCredit? || e.Stops?)
    ensures Inv(Next(s, e)) && Grows(s, Next(s, e))
  {
    QuietStepKeepsInv(s, Next(s, e));
  }

  lemma SpendsKeepsInv(s: State, e: Spending.Event)
    requires Inv(s)
    ensures Inv(Next(s, Spends(e))) && Grows(s, Next(s, Spends(e)))
  {
    Spending.StepExtends(s.spending, e);
    QuietStepKeepsInv(s, s.(spending := Spending.Next(s.spending, e)));
  }

  lemma StepKeepsInv(s: State, e: Event)
    requires Inv(s) && Enabled(s, e)
    ensures Inv(Next(s, e)) && Grows(s, Next(s, e))
  {
    if e.RequestsCredit? || e.Stops? { QuietKeepsInv(s, e); }
    else if e.Spends? { SpendsKeepsInv(s, e.e); }
    else if e.Accepts? || e.Funds? || e.Completes? || e.Repays? { WritesKeepsInv(s, e); }
    else { OpensKeepsInv(s, e); }
  }

  lemma GrowsOn(a: State, b: State, c: State)
    requires Grows(a, b) && Grows(b, c)
    ensures Grows(a, c)
  {
    forall m ensures PolicyKept(a, c, m) { assert PolicyKept(a, b, m) && PolicyKept(b, c, m); }
    forall r ensures RequestKept(a, c, r) { assert RequestKept(a, b, r) && RequestKept(b, c, r); }
    var x, y, z := a.evidence, b.evidence, c.evidence;
    forall m ensures AcceptanceKept(x, z, m) { assert AcceptanceKept(x, y, m) && AcceptanceKept(y, z, m); }
    forall l ensures LoanKept(x, z, l) { assert LoanKept(x, y, l) && LoanKept(y, z, l); }
    forall m ensures CompletionKept(x, z, m) { assert CompletionKept(x, y, m) && CompletionKept(y, z, m); }
  }

  lemma {:induction false} RunKeepsInv(s: State, es: seq<Event>)
    requires Inv(s) && ValidRun(s, es)
    ensures Inv(After(s, es)) && Grows(s, After(s, es))
    decreases |es|
  {
    if es != [] {
      var s1 := Next(s, es[0]);
      StepKeepsInv(s, es[0]);
      RunKeepsInv(s1, es[1..]);
      GrowsOn(s, s1, After(s1, es[1..]));
    }
  }

  // --- what it means --------------------------------------------------------------------------------------

  /** Reservation i of this signer paid `tx` for mission m, and its amount is part of what the mission spent. */
  predicate PaidAndCounted(t: SignerTables.Spending, i: nat, m: Id, tx: Ledger.TxId)
  {
    && i < |t.authorizations| && i < |t.nonces| && t.authorizations[i].txId == tx && t.authorizations[i].mission == m
    && t.nonces[i] == NonceRow(m, t.authorizations[i].nonce, t.authorizations[i].commitment, t.authorizations[i].amount)
    && m in t.missions && 0 < t.authorizations[i].amount <= t.missions[m].spent <= t.missions[m].cap
  }

  lemma AuthorizedIsCounted(s: State, m: Id, tx: Ledger.TxId)
    requires Inv(s) && AuthorizedFor(s.spending, m, tx)
    ensures exists i: nat :: PaidAndCounted(s.spending, i, m, tx)
  {
    var t := s.spending;
    var i :| 0 <= i < |t.authorizations| && t.authorizations[i].txId == tx && t.authorizations[i].mission == m;
    assert Spending.Paired(t, i);
    assert Spending.MissionBalanced(t, m);
    Spending.EachIsCounted(t.nonces, i);
    assert PaidAndCounted(t, i, m, tx);
  }

  /**
   On every run, a repaid loan has the terms of the one offer accepted for its mission, and its
   mission has a completion whose settlement this signer authorized for it and counted.
   */
  lemma RepaidLoanIsBackedByEvidence(es: seq<Event>, l: Id)
    requires ValidRun(Init(), es)
    requires var s := After(Init(), es); l in s.evidence.loans && s.evidence.loans[l].state == Repaid
    ensures var s := After(Init(), es);
            var loan := s.evidence.loans[l];
            && loan.mission in s.evidence.acceptances && loan.mission in s.evidence.completions
            && (exists i: nat :: PaidAndCounted(s.spending, i, loan.mission, s.evidence.completions[loan.mission].settlementTx))
  {
    InitOk();
    RunKeepsInv(Init(), es);
    var s := After(Init(), es);
    var m := s.evidence.loans[l].mission;
    assert LoanAt(s, l) && CompletionAt(s, m);
    AuthorizedIsCounted(s, m, s.evidence.completions[m].settlementTx);
  }

  /** Every loan has its accepted offer's terms, which cover the request and fit the mission's cap. */
  lemma LoanTermsAreTheAcceptedOffers(es: seq<Event>, l: Id)
    requires ValidRun(Init(), es) && l in After(Init(), es).evidence.loans
    ensures var s := After(Init(), es);
            var loan := s.evidence.loans[l];
            loan.mission in s.evidence.acceptances && loan.mission in s.spending.policies &&
            var offer := s.evidence.acceptances[loan.mission].offer;
            && loan.offer == offer.id && loan.lender == offer.lender && loan.principal == offer.principal && loan.fee == offer.fee
            && offer.request in s.requests && s.requests[offer.request].mission == loan.mission
            && s.requests[offer.request].principal <= loan.principal <= s.spending.policies[loan.mission].spendingCap
            && loan.principal + loan.fee <= MAX_TINYBAR
  {
    InitOk();
    RunKeepsInv(Init(), es);
    var s := After(Init(), es);
    var m := s.evidence.loans[l].mission;
    assert LoanAt(s, l) && AcceptanceAt(s, m);
  }

  /** One loan per mission and per funding transaction; one settlement and one callback key per completion. */
  lemma EvidenceIsUnique(es: seq<Event>)
    requires ValidRun(Init(), es)
    ensures Distinct(After(Init(), es).evidence)
    ensures var keys := After(Init(), es).evidence.callbacks.Keys;
            forall a, b :: a in keys && b in keys && a.mission == b.mission ==> a == b
  {
    InitOk();
    RunKeepsInv(Init(), es);
    var s := After(Init(), es);
    forall a, b | a in s.evidence.callbacks && b in s.evidence.callbacks && a.mission == b.mission ensures a == b {
      assert KeyAt(s, a) && KeyAt(s, b);
    }
  }

  /** Acceptances and completions are final, and a loan's terms are; only its repayment is added. */
  lemma EvidenceIsFinal(es: seq<Event>, more: seq<Event>)
    requires ValidRun(Init(), es) && ValidRun(After(Init(), es), more)
    ensures Grows(After(Init(), es), After(After(Init(), es), more))
  {
    InitOk();
    RunKeepsInv(Init(), es);
    RunKeepsInv(After(Init(), es), more);
  }
}
