/** A loan is repaid by one transfer at most, of exactly what is owed, to its lender. */
module RepaymentSafety {
  import opened Common
  import opened SignerTables
  import opened RepaymentProtocol
  import Ledger

  /** By the time an attempt is given up, whatever it did is in view. */
  predicate GraceCovers(cfg: Config)
  {
    Max(cfg.lag, 1) + cfg.latency <= cfg.grace
  }

  // --- invariant --------------------------------------------------------------------------------------

  predicate IsCurrent(s: State, t: Ledger.TxId)
    requires t in s.ledger.txs
  {
    var l := s.ledger.txs[t].payload.loan;
    l in s.repayments && s.repayments[l].txId == t && s.repayments[l].status != SignerTables.Failed
  }

  /** A transfer of this id has not happened and will not: refused, expired, or never given to a node. */
  predicate Harmless(s: State, t: Ledger.TxId)
    requires t in s.ledger.txs
  {
    !s.ledger.txs[t].fate.Executed? && (s.ledger.txs[t].sends == 0 || Ledger.CannotExecute(s.ledger, t))
  }

  predicate TxOk(cfg: Config, s: State, t: Ledger.TxId)
    requires t in s.ledger.txs
  {
    var l := s.ledger.txs[t].payload.loan;
    && l in s.loans && s.ledger.txs[t].payload == TransferFor(l, s.loans[l])
    && (GraceCovers(cfg) ==> IsCurrent(s, t) || Harmless(s, t))
  }

  predicate Known(s: State, l: Id, p: Attempt)
  {
    p.txId in s.ledger.txs && s.ledger.txs[p.txId].payload.loan == l && s.ledger.txs[p.txId].validUntil == p.validUntil
  }

  predicate LoanOk(cfg: Config, s: State, l: Id)
    requires l in s.loans
  {
    && (l in s.repayments ==>
          && Known(s, l, AttemptOf(s.repayments[l]))
          && (s.repayments[l].status == SignerTables.Confirmed ==> s.ledger.txs[s.repayments[l].txId].fate.Executed?)
          && (GraceCovers(cfg) && s.repayments[l].status == SignerTables.Failed ==> Ledger.CannotExecute(s.ledger, s.repayments[l].txId)))
    && (s.loans[l].state == Funded ==> s.loans[l].repaymentTx.None?)
    && (s.loans[l].state == Repaid ==>
          && l in s.repayments && s.repayments[l].status == SignerTables.Confirmed
          && s.loans[l].repaymentTx == Some(s.repayments[l].txId))
  }

  // The call works on the stored attempt.
  predicate OnStored(s: State, l: Id, p: Attempt, status: RepaymentStatus)
  {
    Known(s, l, p) && l in s.repayments && AttemptOf(s.repayments[l]) == p && s.repayments[l].status == status
  }

  predicate NothingPending(s: State, l: Id)
  {
    l in s.repayments ==> s.repayments[l].status == SignerTables.Failed
  }

  predicate CallOk(cfg: Config, s: State, l: Id)
    requires l in s.calls
  {
    l in s.loans && s.loans[l].state == Funded &&
    match s.calls[l]
    case Preparing => NothingPending(s, l)
    case Prepared(p) =>
      NothingPending(s, l) && Known(s, l, p) && s.ledger.txs[p.txId].sends == 0
    case Confirming(p) => OnStored(s, l, p, Pending)
    case Observed(p, answer, at) =>
      && OnStored(s, l, p, Pending) && AnswerOk(s, p.txId, answer) && at <= s.ledger.now
      && (answer.Uncertain? && s.ledger.txs[p.txId].fate.Executed? ==> at < s.ledger.txs[p.txId].fate.at + Max(cfg.lag, 1))
    case Ready(p) => OnStored(s, l, p, Pending)
    case Submitting(p) => OnStored(s, l, p, Pending)
    case Outcome(p, answer) => OnStored(s, l, p, Pending) && AnswerOk(s, p.txId, answer)
    case Settling(p) =>
      Known(s, l, p) && l in s.repayments && AttemptOf(s.repayments[l]) == p && s.ledger.txs[p.txId].fate.Executed?
    case Recorded(p) => OnStored(s, l, p, SignerTables.Confirmed) && s.ledger.txs[p.txId].fate.Executed?
  }

  predicate AnswerOk(s: State, t: Ledger.TxId, a: Ledger.Answer)
  {
    t in s.ledger.txs && (a.Confirmed? ==> s.ledger.txs[t].fate.Executed?) && (a.Failed? ==> s.ledger.txs[t].fate.Dead?)
  }

  ghost predicate Inv(cfg: Config, s: State)
  {
    && Ledger.Inv(s.ledger)
    && s.repayments.Keys <= s.loans.Keys
    && (forall t :: t in s.ledger.txs ==> TxOk(cfg, s, t))
    && (forall l :: l in s.loans ==> LoanOk(cfg, s, l))
    && (forall l :: l in s.calls ==> CallOk(cfg, s, l))
    && (forall a :: a in s.answers ==> a.0 in s.loans && s.loans[a.0].state == Repaid && s.loans[a.0].repaymentTx == Some(a.1))
  }

  lemma InitOk(cfg: Config, now: int)
    ensures Inv(cfg, Init(now))
  {
  }

  // --- steps ------------------------------------------------------------------------------------------------

  // A step of loan l's call that leaves the ledger alone: only that loan's rows may change.
  ghost predicate LocalStep(cfg: Config, s: State, s': State, l: Id)
  {
    && s'.ledger == s.ledger && s'.completed == s.completed
    && l in s.loans && l in s'.loans && s'.loans == s.loans[l := s'.loans[l]]
    && TransferFor(l, s'.loans[l]) == TransferFor(l, s.loans[l])
    && (s'.repayments == s.repayments || (l in s'.repayments && s'.repayments == s.repayments[l := s'.repayments[l]]))
    && (s'.calls == s.calls - {l} || (l in s'.calls && s'.calls == s.calls[l := s'.calls[l]] && CallOk(cfg, s', l)))
    && LoanOk(cfg, s', l)
    && (GraceCovers(cfg) && l in s.repayments && s.repayments[l].txId in s.ledger.txs && IsCurrent(s, s.repayments[l].txId) ==>
          IsCurrent(s', s.repayments[l].txId) || Harmless(s', s.repayments[l].txId))
    && (s.loans[l].state == Repaid ==> s'.loans[l] == s.loans[l])
    && s.answers <= s'.answers
    && (forall a :: a in s'.answers - s.answers ==>
          a.0 == l && s'.loans[l].state == Repaid && s'.loans[l].repaymentTx == Some(a.1))
  }

  lemma LocalStepKeepsInv(cfg: Config, s: State, s': State, l: Id)
    requires Inv(cfg, s) && LocalStep(cfg, s, s', l)
    ensures Inv(cfg, s')
  {
    forall t | t in s'.ledger.txs ensures TxOk(cfg, s', t) { assert TxOk(cfg, s, t); }
    forall k | k in s'.loans ensures LoanOk(cfg, s', k) { if k != l { assert LoanOk(cfg, s, k); } }
    forall k | k in s'.calls ensures CallOk(cfg, s', k) { if k != l { assert CallOk(cfg, s, k); } }
    forall a | a in s'.answers
      ensures a.0 in s'.loans && s'.loans[a.0].state == Repaid && s'.loans[a.0].repaymentTx == Some(a.1)
    {
      if a !in s.answers { assert a in s'.answers - s.answers; }
    }
  }

  /** When the service gives an attempt up, that attempt can no longer move money. */
  lemma GivenUpIsDead(cfg: Config, s: State, l: Id)
    requires Inv(cfg, s) && GraceCovers(cfg) && Enabled(cfg, s, Decides(l)) && s.calls[l].answer.Uncertain?
    requires s.ledger.now >= s.calls[l].p.validUntil + cfg.grace
    ensures Ledger.CannotExecute(s.ledger, s.calls[l].p.txId)
  {
    assert CallOk(cfg, s, l);
  }

  lemma DecidesKeepsInv(cfg: Config, s: State, l: Id)
    requires Inv(cfg, s) && Enabled(cfg, s, Decides(l))
    ensures Inv(cfg, Next(cfg, s, Decides(l)))
  {
    assert CallOk(cfg, s, l) && LoanOk(cfg, s, l);
    if GraceCovers(cfg) && s.calls[l].answer.Uncertain? && s.ledger.now >= s.calls[l].p.validUntil + cfg.grace {
      GivenUpIsDead(cfg, s, l);
    }
    LocalStepKeepsInv(cfg, s, Next(cfg, s, Decides(l)), l);
  }

  lemma SavesKeepsInv(cfg: Config, s: State, l: Id)
    requires Inv(cfg, s) && Enabled(cfg, s, Saves(l))
    ensures Inv(cfg, Next(cfg, s, Saves(l)))
  {
    assert CallOk(cfg, s, l) && LoanOk(cfg, s, l);
    assert TxOk(cfg, s, s.calls[l].p.txId);
    LocalStepKeepsInv(cfg, s, Next(cfg, s, Saves(l)), l);
  }

  lemma ConcludesKeepsInv(cfg: Config, s: State, l: Id)
    requires Inv(cfg, s) && Enabled(cfg, s, Concludes(l))
    ensures Inv(cfg, Next(cfg, s, Concludes(l)))
  {
    assert CallOk(cfg, s, l) && LoanOk(cfg, s, l);
    LocalStepKeepsInv(cfg, s, Next(cfg, s, Concludes(l)), l);
  }

  lemma ConfirmsKeepsInv(cfg: Config, s: State, l: Id)
    requires Inv(cfg, s) && Enabled(cfg, s, Confirms(l))
    ensures Inv(cfg, Next(cfg, s, Confirms(l)))
  {
    assert CallOk(cfg, s, l) && LoanOk(cfg, s, l);
    LocalStepKeepsInv(cfg, s, Next(cfg, s, Confirms(l)), l);
  }

  lemma SettlesKeepsInv(cfg: Config, s: State, l: Id)
    requires Inv(cfg, s) && Enabled(cfg, s, Settles(l))
    ensures Inv(cfg, Next(cfg, s, Settles(l)))
  {
    assert CallOk(cfg, s, l) && LoanOk(cfg, s, l);
    LocalStepKeepsInv(cfg, s, Next(cfg, s, Settles(l)), l);
  }

  lemma StopsKeepsInv(cfg: Config, s: State, l: Id)
    requires Inv(cfg, s) && Enabled(cfg, s, Stops(l))
    ensures Inv(cfg, Next(cfg, s, Stops(l)))
  {
    assert CallOk(cfg, s, l) && LoanOk(cfg, s, l);
    LocalStepKeepsInv(cfg, s, Next(cfg, s, Stops(l)), l);
  }

  lemma HearsKeepsInv(cfg: Config, s: State, l: Id, e: Event)
    requires Inv(cfg, s) && Enabled(cfg, s, e) && (e.Observes? || e.Responds?) && e.l == l
    ensures Inv(cfg, Next(cfg, s, e))
  {
    assert CallOk(cfg, s, l) && LoanOk(cfg, s, l);
    LocalStepKeepsInv(cfg, s, Next(cfg, s, e), l);
  }

  lemma BeginsKeepsInv(cfg: Config, s: State, l: Id, m: Id)
    requires Inv(cfg, s) && Enabled(cfg, s, Begins(l, m))
    ensures Inv(cfg, Next(cfg, s, Begins(l, m)))
  {
    if l in s.loans {
      assert LoanOk(cfg, s, l);
      var c := Opening(s, l, m);
      if c.Some? { assert CallOk(cfg, At(s, l, c.value), l); }
      LocalStepKeepsInv(cfg, s, Next(cfg, s, Begins(l, m)), l);
    }
  }

  lemma ArrivesKeepsInv(cfg: Config, s: State, e: Event)
    requires Inv(cfg, s) && Enabled(cfg, s, e) && (e.Registers? || e.Completes?)
    ensures Inv(cfg, Next(cfg, s, e))
  {
    var s' := Next(cfg, s, e);
    forall t | t in s'.ledger.txs ensures TxOk(cfg, s', t) { assert TxOk(cfg, s, t); }
    forall k | k in s'.loans ensures LoanOk(cfg, s', k) { if k in s.loans { assert LoanOk(cfg, s, k); } }
    forall k | k in s'.calls ensures CallOk(cfg, s', k) { assert CallOk(cfg, s, k); }
  }

  // What is known about a loan, and about a call, survives everything that happens on the ledger meanwhile.

  lemma LoanStays(cfg: Config, s: State, s': State, l: Id)
    requires l in s.loans && LoanOk(cfg, s, l) && Ledger.Later(s.ledger, s'.ledger)
    requires s'.loans == s.loans && s'.repayments == s.repayments
    ensures LoanOk(cfg, s', l)
  {
    if l in s.repayments {
      var t := s.repayments[l].txId;
      assert t in s'.ledger.txs && Ledger.TxLater(s.ledger, s'.ledger, t);
    }
  }

  lemma CallStays(cfg: Config, s: State, s': State, l: Id)
    requires l in s.calls && CallOk(cfg, s, l) && Ledger.Later(s.ledger, s'.ledger)
    requires l in s'.calls && s'.calls[l] == s.calls[l] && s'.loans == s.loans && s'.repayments == s.repayments
    requires s.calls[l].Prepared? ==>
               var t := s.calls[l].p.txId; t in s.ledger.txs && t in s'.ledger.txs && s'.ledger.txs[t].sends == s.ledger.txs[t].sends
    ensures CallOk(cfg, s', l)
  {
    if !s.calls[l].Preparing? {
      var t := s.calls[l].p.txId;
      assert t in s'.ledger.txs && Ledger.TxLater(s.ledger, s'.ledger, t);
    }
  }

  lemma PreparesKeepsInv(cfg: Config, s: State, l: Id, t: Ledger.TxId, validUntil: int)
    requires Inv(cfg, s) && Enabled(cfg, s, Prepares(l, t, validUntil))
    ensures Inv(cfg, Next(cfg, s, Prepares(l, t, validUntil)))
  {
    var s' := Next(cfg, s, Prepares(l, t, validUntil));
    assert CallOk(cfg, s, l);
    Ledger.RegisterKeepsInv(s.ledger, t, TransferFor(l, s.loans[l]), validUntil);
    forall u | u in s'.ledger.txs ensures TxOk(cfg, s', u) { if u != t { assert TxOk(cfg, s, u); } }
    forall k | k in s'.loans ensures LoanOk(cfg, s', k) { LoanStays(cfg, s, s', k); }
    forall k | k in s'.calls && k != l ensures CallOk(cfg, s', k) { CallStays(cfg, s, s', k); }
  }

  lemma SubmitsKeepsInv(cfg: Config, s: State, l: Id)
    requires Inv(cfg, s) && Enabled(cfg, s, Submits(l))
    ensures Inv(cfg, Next(cfg, s, Submits(l)))
  {
    var s' := Next(cfg, s, Submits(l));
    assert CallOk(cfg, s, l);
    Ledger.SendKeepsInv(s.ledger, s.calls[l].p.txId);
    forall u | u in s'.ledger.txs ensures TxOk(cfg, s', u) { assert TxOk(cfg, s, u); }
    forall k | k in s'.loans ensures LoanOk(cfg, s', k) { LoanStays(cfg, s, s', k); }
    forall k | k in s'.calls && k != l ensures CallOk(cfg, s', k) {
      assert CallOk(cfg, s, k);
      CallStays(cfg, s, s', k);
    }
  }

  lemma EnvKeepsInv(cfg: Config, s: State, le: Ledger.Event)
    requires Inv(cfg, s) && Enabled(cfg, s, Env(le))
    ensures Inv(cfg, Next(cfg, s, Env(le)))
  {
    var s' := Next(cfg, s, Env(le));
    Ledger.NextKeepsInv(s.ledger, le);
    Ledger.NextIsLater(s.ledger, le);
    forall u | u in s'.ledger.txs ensures TxOk(cfg, s', u) { assert TxOk(cfg, s, u); }
    forall k | k in s'.loans ensures LoanOk(cfg, s', k) { LoanStays(cfg, s, s', k); }
    forall k | k in s'.calls ensures CallOk(cfg, s', k) {
      assert CallOk(cfg, s, k);
      CallStays(cfg, s, s', k);
    }
  }

  lemma StepKeepsInv(cfg: Config, s: State, e: Event)
    requires Inv(cfg, s) && Enabled(cfg, s, e)
    ensures Inv(cfg, Next(cfg, s, e))
  {
    match e
    case Registers(_, _) => ArrivesKeepsInv(cfg, s, e);
    case Completes(_) => ArrivesKeepsInv(cfg, s, e);
    case Begins(l, m) => BeginsKeepsInv(cfg, s, l, m);
    case Observes(l, _) => HearsKeepsInv(cfg, s, l, e);
    case Decides(l) => DecidesKeepsInv(cfg, s, l);
    case Prepares(l, t, v) => PreparesKeepsInv(cfg, s, l, t, v);
    case Saves(l) => SavesKeepsInv(cfg, s, l);
    case Submits(l) => SubmitsKeepsInv(cfg, s, l);
    case Responds(l, _) => HearsKeepsInv(cfg, s, l, e);
    case Concludes(l) => ConcludesKeepsInv(cfg, s, l);
    case Confirms(l) => ConfirmsKeepsInv(cfg, s, l);
    case Settles(l) => SettlesKeepsInv(cfg, s, l);
    case Stops(l) => StopsKeepsInv(cfg, s, l);
    case Env(le) => EnvKeepsInv(cfg, s, le);
  }

  lemma {:induction false} RunKeepsInv(cfg: Config, s: State, es: seq<Event>)
    requires Inv(cfg, s) && ValidRun(cfg, s, es)
    ensures Inv(cfg, After(cfg, s, es))
    decreases |es|
  {
    if es != [] {
      StepKeepsInv(cfg, s, es[0]);
      RunKeepsInv(cfg, Next(cfg, s, es[0]), es[1..]);
    }
  }

  // --- what it means --------------------------------------------------------------------------------------

  /** On every run, at most one transfer of a loan executes, and it pays exactly principal plus fee to the lender. */
  lemma PaidAtMostOnce(cfg: Config, start: int, es: seq<Event>, t: Ledger.TxId, u: Ledger.TxId)
    requires GraceCovers(cfg) && ValidRun(cfg, Init(start), es)
    requires var txs := After(cfg, Init(start), es).ledger.txs;
             t in txs && u in txs && txs[t].fate.Executed? && txs[u].fate.Executed?
             && txs[t].payload.loan == txs[u].payload.loan
    ensures t == u
    ensures var s := After(cfg, Init(start), es);
            var l := s.ledger.txs[t].payload.loan;
            l in s.loans && s.ledger.txs[t].payload == Transfer(l, s.loans[l].lender, s.loans[l].principal + s.loans[l].fee)
  {
    InitOk(cfg, start);
    RunKeepsInv(cfg, Init(start), es);
    var s := After(cfg, Init(start), es);
    assert TxOk(cfg, s, t) && TxOk(cfg, s, u);
  }

  /** Before a new attempt is built for a loan, every earlier one is past executing or never left the service. */
  lemma EarlierAttemptsAreDead(cfg: Config, start: int, es: seq<Event>, l: Id, next: Ledger.TxId, validUntil: int, t: Ledger.TxId)
    requires GraceCovers(cfg) && ValidRun(cfg, Init(start), es)
    requires var s := After(cfg, Init(start), es);
             Enabled(cfg, s, Prepares(l, next, validUntil)) && t in s.ledger.txs && s.ledger.txs[t].payload.loan == l
    ensures var s := After(cfg, Init(start), es);
            !s.ledger.txs[t].fate.Executed? && (s.ledger.txs[t].sends == 0 || Ledger.CannotExecute(s.ledger, t))
  {
    InitOk(cfg, start);
    RunKeepsInv(cfg, Init(start), es);
    var s := After(cfg, Init(start), es);
    assert TxOk(cfg, s, t) && CallOk(cfg, s, l);
  }

  /**
   A loan is marked repaid only with the id of a transfer that did execute; and every call that
   ever returned an id for the loan returned that one.
   */
  lemma RepaidNamesTheTransfer(cfg: Config, start: int, es: seq<Event>, l: Id, t: Ledger.TxId)
    requires ValidRun(cfg, Init(start), es)
    requires var s := After(cfg, Init(start), es);
             (l in s.loans && s.loans[l].state == Repaid && s.loans[l].repaymentTx == Some(t)) || (l, t) in s.answers
    ensures var s := After(cfg, Init(start), es);
            && l in s.loans && s.loans[l].state == Repaid && s.loans[l].repaymentTx == Some(t)
            && t in s.ledger.txs && s.ledger.txs[t].fate.Executed?
            && s.ledger.txs[t].payload == Transfer(l, s.loans[l].lender, s.loans[l].principal + s.loans[l].fee)
  {
    InitOk(cfg, start);
    RunKeepsInv(cfg, Init(start), es);
    var s := After(cfg, Init(start), es);
    assert (l, t) in s.answers ==> s.loans[l].repaymentTx == Some((l, t).1);
    assert LoanOk(cfg, s, l) && TxOk(cfg, s, t);
  }
}
