/** One settlement request per transaction, one report, one durable callback; nothing stored is ever revised. */
module ProviderSafety {
  import opened Common
  import opened ProviderTables
  import opened ProviderProtocol

  // The clock must have passed the grace for good: `latency` after an answer given while the transfer was hidden.
  predicate MirrorCovers(cfg: Config)
  {
    Max(cfg.lag, 1) + cfg.latency <= SETTLEMENT_FAILURE_GRACE_MS + 1
  }

  /** Neither a late answer of the Mirror Node nor a late refusal outlasts the grace. */
  predicate GraceCovers(cfg: Config)
  {
    MirrorCovers(cfg) && cfg.handling <= SETTLEMENT_FAILURE_GRACE_MS
  }

  // --- invariant -----------------------------------------------------------------------------------------

  predicate Names(j: Job, b: Body) { j.body == b }

  ghost predicate HasJob(js: Jobs, b: Body) { exists i :: 0 <= i < |js| && Names(js[i], b) }

  /** The shape every stored payment has, whatever happened to it. */
  predicate Shape(p: Payment, t: TxId)
  {
    && (p.attempted <==> p.leaseToken.None?) && (p.attempted ==> p.report.Some? && p.leaseUntil.None?)
    && (p.settlement.Some? <==> p.status == Settled || p.status == Completed)
    && (p.settlement.Some? ==> p.attempted && ValidEvidence(p, t, p.settlement.value))
    && (p.status == SettlementFailed ==> p.attempted)
    && (p.status == Claimed <==> p.report.None?)
  }

  ghost predicate PaymentOk(cfg: Config, s: State, t: TxId)
    requires t in s.payments
  {
    var p := s.payments[t];
    && Shape(p, t) && p.terms.validUntil == cfg.expiry(t)
    && (p.leaseToken.Some? ==> p.leaseToken.value in s.used)
    && (p.settlement.Some? ==> t in s.vouched || t in s.consensus)
    && (GraceCovers(cfg) && p.status == SettlementFailed ==> t !in s.consensus && s.now > cfg.expiry(t))
    && (p.status == Completed ==> t in s.consensus && HasJob(s.jobs, Body(p.report.value, t, s.consensus[t])))
  }

  // Settling is asked for at most once, and only by the call that recorded the attempt.
  predicate AskOk(s: State, t: TxId)
  {
    s.asks[t] <= 1 && (s.asks[t] > 0 ==> t in s.asker) && (t in s.asker ==> t in s.payments && s.payments[t].attempted)
  }

  predicate JobOk(s: State, i: nat)
    requires i < |s.jobs|
  {
    var j := s.jobs[i];
    && j.tx == j.body.tx && j.key == j.body.report && j.attempts <= MAX_CALLBACK_ATTEMPTS
    && (Waiting(j) ==> j.attempts < MAX_CALLBACK_ATTEMPTS)
    && (j.leaseToken.Some? <==> j.status == Processing) && (j.leaseToken.Some? ==> j.leaseToken.value in s.used)
    && j.tx in s.payments && s.payments[j.tx].settlement.Some? && s.payments[j.tx].report == Some(j.key)
    && j.tx in s.consensus && s.consensus[j.tx] == j.body.settledAt
  }

  predicate TicketOk(s: State, k: Token)
    requires k in s.tickets
  {
    var c := s.tickets[k];
    && k in s.used && c.token == k && c.index < |s.jobs| && c.attempts < MAX_CALLBACK_ATTEMPTS
    && (s.jobs[c.index].leaseToken == Some(k) ==> s.jobs[c.index].attempts == c.attempts)
  }

  predicate OnAttempted(s: State, t: TxId, row: Payment, purpose: Purpose)
  {
    && t in s.payments && s.payments[t].attempted && row.attempted && row.report.Some?
    && row.terms == s.payments[t].terms && row.report == s.payments[t].report
    && (row.settlement.Some? ==> row.settlement == s.payments[t].settlement)
    && (purpose.Release? ==> row.settlement.Some? && row.report == Some(purpose.report))
  }

  predicate CallOk(cfg: Config, s: State, k: Token)
    requires k in s.calls
  {
    k in s.used && s.calls[k].t in s.payments &&
    var p := s.payments[s.calls[k].t];
    match s.calls[k]
    case Verifying(t, seen) => seen.Some? ==> p.report == seen
    case Scanning(t) => true
    case Reported(t, report) => p.report == Some(report)
    case Asking(t, report) => p.report == Some(report) && p.attempted && t in s.asker && s.asker[t] == k && s.asks[t] == 0
    case Asked(t, report) => p.report == Some(report) && p.attempted
    case Reconciling(t, row, purpose) => OnAttempted(s, t, row, purpose)
    case Observed(t, row, purpose, sight, at) =>
      && OnAttempted(s, t, row, purpose) && at <= s.now
      && (sight.Seen? ==> t in s.consensus && s.consensus[t] == sight.settledAt)
      && (sight.Unseen? && t in s.consensus ==> at < s.consensus[t] + Max(cfg.lag, 1))
    case Evidencing(t, row, purpose, at) =>
      OnAttempted(s, t, row, purpose) && t in s.consensus && s.consensus[t] == at && row.settlement.None?
    case Completing(t, purpose, at) =>
      && p.settlement.Some? && t in s.consensus && s.consensus[t] == at
      && (purpose.Release? ==> p.report == Some(purpose.report))
  }

  predicate ResponseOk(s: State, r: (TxId, Content))
  {
    r.0 in s.payments && s.payments[r.0].report == Some(r.1) && s.payments[r.0].settlement.Some?
  }

  ghost predicate Inv(cfg: Config, s: State)
  {
    && (forall t :: t in s.payments ==> PaymentOk(cfg, s, t))
    && (forall t :: AskOk(s, t))
    && (forall i :: 0 <= i < |s.jobs| ==> JobOk(s, i))
    && (forall i, j :: 0 <= i < j < |s.jobs| ==> s.jobs[i].key != s.jobs[j].key)
    && (forall k :: k in s.tickets ==> TicketOk(s, k))
    && (forall k :: k in s.calls ==> CallOk(cfg, s, k))
    && (forall r :: r in s.responses ==> ResponseOk(s, r))
    && (forall t :: t in s.consensus ==> s.consensus[t] <= s.now && s.consensus[t] <= cfg.expiry(t))
  }

  lemma InitOk(cfg: Config, now: int)
    ensures Inv(cfg, Init(now))
  {
  }

  // --- steps of one call -----------------------------------------------------------------------------------

  // What one write may do to a row: nothing written is revised, and only the lease holder adds a report.
  predicate RowStep(p: Payment, q: Payment)
  {
    && q.terms == p.terms && (p.attempted ==> q.attempted)
    && (p.report.Some? ==> q.report == p.report) && (p.settlement.Some? ==> q.settlement == p.settlement)
  }

  predicate JobsStep(s: State, s': State, t: TxId)
  {
    s'.jobs == s.jobs
    || (|s'.jobs| == |s.jobs| + 1 && s'.jobs == s.jobs + [s'.jobs[|s.jobs|]] && JobOk(s', |s.jobs|)
        && FindKey(s.jobs, s'.jobs[|s.jobs|].key).None?)
  }

  // Step of call k on transaction t.
  ghost predicate LocalStep(cfg: Config, s: State, s': State, k: Token, t: TxId)
  {
    && s'.now == s.now && s'.consensus == s.consensus && s'.tickets == s.tickets && s'.used == s.used + {k}
    && s.vouched <= s'.vouched
    && (s'.payments == s.payments
        || (t in s'.payments && s'.payments == s.payments[t := s'.payments[t]] && PaymentOk(cfg, s', t)
            && (t in s.payments ==> RowStep(s.payments[t], s'.payments[t]))))
    && JobsStep(s, s', t)
    && (s'.calls == s.calls - {k} || (k in s'.calls && s'.calls == s.calls[k := s'.calls[k]] && CallOk(cfg, s', k)))
    && (s'.asker == s.asker || (t !in s.asker && s'.asker == s.asker[t := k]))
    && (s'.asks == s.asks || (s'.asks == s.asks + multiset{t} && t in s.asker && s.asker[t] == k))
    && AskOk(s', t)
    && (s'.responses == s.responses || exists c :: s'.responses == s.responses + {(t, c)} && ResponseOk(s', (t, c)))
  }

  lemma OtherCallStays(cfg: Config, s: State, s': State, k: Token, t: TxId, j: Token)
    requires LocalStep(cfg, s, s', k, t) && j != k && j in s.calls && j in s'.calls && s'.calls[j] == s.calls[j]
    requires CallOk(cfg, s, j)
    ensures CallOk(cfg, s', j)
  {
  }

  lemma OtherPaymentStays(cfg: Config, s: State, s': State, k: Token, t: TxId, u: TxId)
    requires LocalStep(cfg, s, s', k, t) && u in s.payments && PaymentOk(cfg, s, u)
    requires u != t || s'.payments == s.payments
    ensures u in s'.payments && PaymentOk(cfg, s', u)
  {
    var p := s.payments[u];
    if p.status == Completed {
      var i :| 0 <= i < |s.jobs| && Names(s.jobs[i], Body(p.report.value, u, s.consensus[u]));
      assert Names(s'.jobs[i], Body(p.report.value, u, s.consensus[u]));
    }
  }

  lemma OtherJobStays(cfg: Config, s: State, s': State, k: Token, t: TxId, i: nat)
    requires LocalStep(cfg, s, s', k, t) && i < |s.jobs| && JobOk(s, i)
    ensures i < |s'.jobs| && JobOk(s', i)
  {
  }

  lemma LocalStepKeepsInv(cfg: Config, s: State, s': State, k: Token, t: TxId)
    requires Inv(cfg, s) && LocalStep(cfg, s, s', k, t)
    ensures Inv(cfg, s')
  {
    forall u | u in s'.payments ensures PaymentOk(cfg, s', u) {
      if u != t || s'.payments == s.payments { OtherPaymentStays(cfg, s, s', k, t, u); }
    }
    forall u ensures AskOk(s', u) { assert AskOk(s, u); }
    forall i | 0 <= i < |s'.jobs| ensures JobOk(s', i) { if i < |s.jobs| { OtherJobStays(cfg, s, s', k, t, i); } }
    forall j | j in s'.tickets ensures TicketOk(s', j) { assert TicketOk(s, j); }
    forall j | j in s'.calls ensures CallOk(cfg, s', j) { if j != k { OtherCallStays(cfg, s, s', k, t, j); } }
    forall r | r in s'.responses ensures ResponseOk(s', r) { if r in s.responses { assert ResponseOk(s, r); } }
  }

  // What a call's step on transaction t relies on.
  ghost predicate Here(cfg: Config, s: State, k: Token, t: TxId)
  {
    && (t in s.payments ==> PaymentOk(cfg, s, t)) && AskOk(s, t)
    && (t in s.consensus ==> s.consensus[t] <= s.now && s.consensus[t] <= cfg.expiry(t))
    && (k in s.calls ==> CallOk(cfg, s, k) && s.calls[k].t == t)
  }

  // A step that would be local if the call ended there is local when the call goes on, or answers, instead.

  lemma GoesOn(cfg: Config, s: State, s0: State, k: Token, t: TxId, c: Call)
    requires LocalStep(cfg, s0, Ended(s, k), k, t) && s.calls == s0.calls && CallOk(cfg, At(s, k, c), k)
    ensures LocalStep(cfg, s0, At(s, k, c), k, t)
  {
  }

  lemma Answers(cfg: Config, s: State, s0: State, k: Token, t: TxId, report: Content)
    requires LocalStep(cfg, s0, Ended(s, k), k, t) && s.responses == s0.responses && ResponseOk(s, (t, report))
    ensures LocalStep(cfg, s0, Responded(s, k, t, report), k, t)
  {
    assert ResponseOk(Responded(s, k, t, report), (t, report));
  }

  lemma ReconcileIsLocal(cfg: Config, s: State, s0: State, k: Token, t: TxId, purpose: Purpose)
    requires t in s.payments && Shape(s.payments[t], t)
    requires purpose.Release? ==> s.payments[t].report == Some(purpose.report) && Reconcilable(s.payments[t])
                                  && s.payments[t].settlement.Some?
    requires LocalStep(cfg, s0, Ended(s, k), k, t) && s.calls == s0.calls && s.responses == s0.responses
    ensures LocalStep(cfg, s0, Reconcile(s, k, t, s.payments[t], purpose), k, t)
  {
    var p := s.payments[t];
    if Reconcilable(p) { GoesOn(cfg, s, s0, k, t, Reconciling(t, p, purpose)); }
    else if purpose.Retry? && p.status == Completed { Answers(cfg, s, s0, k, t, p.report.value); }
  }

  lemma ClaimIsLocal(cfg: Config, s: State, k: Token, t: TxId, terms: Terms)
    requires Here(cfg, s, k, t) && Enabled(cfg, s, Requests(k, t, terms, false))
    requires ClaimPayment(s.payments, t, terms, k, s.now).Ok?
    ensures LocalStep(cfg, s, Ended(s.(payments := ClaimPayment(s.payments, t, terms, k, s.now).value), k), k, t)
  {
  }

  lemma RequestIsLocal(cfg: Config, s: State, k: Token, t: TxId, terms: Terms, expired: bool)
    requires Here(cfg, s, k, t) && Enabled(cfg, s, Requests(k, t, terms, expired)) && k !in s.calls
    ensures LocalStep(cfg, s, Request(s, k, t, terms, expired), k, t)
  {
    var claim := ClaimPayment(s.payments, t, terms, k, s.now);
    if !(expired && !StillTracked(s, t, terms)) && claim.Ok? {
      ClaimIsLocal(cfg, s, k, t, terms);
      var s1 := s.(payments := claim.value);
      if Owns(claim.value, t, k) { GoesOn(cfg, s1, s, k, t, Verifying(t, claim.value[t].report)); }
      else { ReconcileIsLocal(cfg, s1, s, k, t, Retry); }
    }
  }

  lemma WorksIsLocal(cfg: Config, s: State, k: Token, t: TxId)
    requires Here(cfg, s, k, t) && Enabled(cfg, s, Works(k, t))
    ensures LocalStep(cfg, s, Next(cfg, s, Works(k, t)), k, t)
  {
  }

  lemma VerifiesIsLocal(cfg: Config, s: State, k: Token, t: TxId)
    requires Here(cfg, s, k, t) && k in s.calls && Enabled(cfg, s, Verifies(k))
    ensures LocalStep(cfg, s, Next(cfg, s, Verifies(k)), k, t)
  {
  }

  lemma ScansIsLocal(cfg: Config, s: State, k: Token, t: TxId, report: Content)
    requires Here(cfg, s, k, t) && k in s.calls && Enabled(cfg, s, Scans(k, report))
    ensures LocalStep(cfg, s, Next(cfg, s, Scans(k, report)), k, t)
  {
  }

  lemma StopsIsLocal(cfg: Config, s: State, k: Token, t: TxId)
    requires Here(cfg, s, k, t) && k in s.calls
    ensures LocalStep(cfg, s, Next(cfg, s, Stops(k)), k, t)
  {
  }

  lemma AskIsLocal(cfg: Config, s: State, k: Token, t: TxId, e: Event)
    requires Here(cfg, s, k, t) && k in s.calls && Enabled(cfg, s, e) && (e == Marks(k) || e == Asks(k))
    ensures LocalStep(cfg, s, Next(cfg, s, e), k, t)
  {
  }

  lemma ObservesIsLocal(cfg: Config, s: State, k: Token, t: TxId, sight: Sight)
    requires Here(cfg, s, k, t) && k in s.calls && Enabled(cfg, s, Observes(k, sight))
    ensures LocalStep(cfg, s, Next(cfg, s, Observes(k, sight)), k, t)
  {
  }

  lemma EvidencesIsLocal(cfg: Config, s: State, k: Token, t: TxId)
    requires Here(cfg, s, k, t) && k in s.calls && Enabled(cfg, s, Evidences(k))
    ensures LocalStep(cfg, s, Next(cfg, s, Evidences(k)), k, t)
  {
  }

  lemma VouchIsLocal(cfg: Config, s: State, k: Token, t: TxId, e: Settlement)
    requires Here(cfg, s, k, t) && k in s.calls && Enabled(cfg, s, Vouches(k, e))
    ensures LocalStep(cfg, s, Next(cfg, s, Vouches(k, e)), k, t)
  {
    var c := s.calls[k];
    var saved := SaveSettlement(s.payments, t, e);
    if ValidEvidence(s.payments[t], t, e) && saved.Ok? {
      ReconcileIsLocal(cfg, s.(payments := saved.value, vouched := s.vouched + {t}), s, k, t, Release(c.report));
    }
  }

  lemma RefuseIsLocal(cfg: Config, s: State, k: Token, t: TxId)
    requires Here(cfg, s, k, t) && k in s.calls && Enabled(cfg, s, Refuses(k))
    ensures LocalStep(cfg, s, Next(cfg, s, Refuses(k)), k, t)
  {
  }

  lemma AnswerIsLocal(cfg: Config, s: State, s0: State, k: Token, t: TxId, purpose: Purpose)
    requires LocalStep(cfg, s0, Ended(s, k), k, t) && s.responses == s0.responses
    requires purpose.Release? ==> ResponseOk(s, (t, purpose.report))
    ensures LocalStep(cfg, s0, Answer(s, k, t, purpose), k, t)
  {
    if Answer(s, k, t, purpose) != Ended(s, k) {
      Answers(cfg, s, s0, k, t, if purpose.Release? then purpose.report else s.payments[t].report.value);
    }
  }

  /** Giving a payment up because the ledger shows nothing: it never executes. */
  lemma GivenUpByReconcilerIsDead(cfg: Config, s: State, k: Token, t: TxId)
    requires Here(cfg, s, k, t) && MirrorCovers(cfg) && Enabled(cfg, s, Resolves(k)) && s.calls[k].sight.Unseen?
    requires s.now > cfg.expiry(t) + SETTLEMENT_FAILURE_GRACE_MS
    ensures t !in s.consensus
  {
  }

  lemma ResolveIsLocal(cfg: Config, s: State, k: Token, t: TxId)
    requires Here(cfg, s, k, t) && k in s.calls && Enabled(cfg, s, Resolves(k))
    ensures LocalStep(cfg, s, Next(cfg, s, Resolves(k)), k, t)
  {
    var c := s.calls[k];
    if !c.sight.Seen? {
      var ps := RecordUnconfirmed(s.payments, t, s.now, c.sight.Unseen?).value;
      if c.sight.Unseen? {
        if MirrorCovers(cfg) && s.now > cfg.expiry(t) + SETTLEMENT_FAILURE_GRACE_MS { GivenUpByReconcilerIsDead(cfg, s, k, t); }
        AnswerIsLocal(cfg, s.(payments := ps), s, k, t, c.purpose);
      }
    }
  }

  lemma FinaliseIsLocal(cfg: Config, s: State, k: Token, t: TxId)
    requires Here(cfg, s, k, t) && k in s.calls && Enabled(cfg, s, Completes(k))
    ensures LocalStep(cfg, s, Next(cfg, s, Completes(k)), k, t)
  {
    var c := s.calls[k];
    var p := s.payments[t];
    var body := Body(p.report.value, t, c.settledAt);
    var done := Complete(Tables(s.payments, s.jobs), t, body, s.now);
    if done.Ok? {
      var i := FindKey(s.jobs, body.report);
      assert Names(done.value.jobs[if i.Some? then i.value else |s.jobs|], body);
      AnswerIsLocal(cfg, s.(payments := done.value.payments, jobs := done.value.jobs), s, k, t, c.purpose);
    }
  }

  // --- steps of the callback dispatcher -----------------------------------------------------------------------

  // Only the delivery columns of job i change, and a job once delivered is left alone.
  predicate SameContract(j: Job, j': Job) { j'.key == j.key && j'.tx == j.tx && j'.body == j.body }

  ghost predicate DispatchStep(s: State, s': State, i: nat)
  {
    && s' == s.(jobs := s'.jobs, tickets := s'.tickets, used := s'.used)
    && s.used <= s'.used && i < |s.jobs| && |s'.jobs| == |s.jobs| && s'.jobs == s.jobs[i := s'.jobs[i]]
    && SameContract(s.jobs[i], s'.jobs[i]) && JobOk(s', i)
    && (forall k :: k in s'.tickets ==> if k in s.tickets && k in s.used then s'.tickets[k] == s.tickets[k] else TicketOk(s', k))
    && (s'.jobs[i].leaseToken.None? || s'.jobs[i].leaseToken.value !in s.used)
  }

  lemma DispatchStepKeepsInv(cfg: Config, s: State, s': State, i: nat)
    requires Inv(cfg, s) && DispatchStep(s, s', i)
    ensures Inv(cfg, s')
  {
    assert forall j :: 0 <= j < |s.jobs| ==> SameContract(s.jobs[j], s'.jobs[j]);
    forall t | t in s'.payments ensures PaymentOk(cfg, s', t) {
      assert PaymentOk(cfg, s, t);
      var p := s.payments[t];
      if p.status == Completed {
        var j :| 0 <= j < |s.jobs| && Names(s.jobs[j], Body(p.report.value, t, s.consensus[t]));
        assert Names(s'.jobs[j], Body(p.report.value, t, s.consensus[t]));
      }
    }
    forall t ensures AskOk(s', t) { assert AskOk(s, t); }
    forall j | 0 <= j < |s'.jobs| ensures JobOk(s', j) { assert JobOk(s, j); }
    forall k | k in s'.tickets ensures TicketOk(s', k) { if k in s.tickets { assert TicketOk(s, k); } }
    forall k | k in s'.calls ensures CallOk(cfg, s', k) { assert CallOk(cfg, s, k); }
    forall r | r in s'.responses ensures ResponseOk(s', r) { assert ResponseOk(s, r); }
  }

  lemma OnlyTicketsGoneKeepsInv(cfg: Config, s: State, s': State)
    requires Inv(cfg, s) && s' == s.(tickets := s'.tickets, used := s'.used) && s.used <= s'.used
    requires forall k :: k in s'.tickets ==> k in s.tickets && s'.tickets[k] == s.tickets[k]
    ensures Inv(cfg, s')
  {
    forall t | t in s'.payments ensures PaymentOk(cfg, s', t) { assert PaymentOk(cfg, s, t); }
    forall t ensures AskOk(s', t) { assert AskOk(s, t); }
    forall j | 0 <= j < |s'.jobs| ensures JobOk(s', j) { assert JobOk(s, j); }
    forall k | k in s'.tickets ensures TicketOk(s', k) { assert TicketOk(s, k); }
    forall k | k in s'.calls ensures CallOk(cfg, s', k) { assert CallOk(cfg, s, k); }
    forall r | r in s'.responses ensures ResponseOk(s', r) { assert ResponseOk(s, r); }
  }

  lemma TakesKeepsInv(cfg: Config, s: State, k: Token)
    requires Inv(cfg, s) && Enabled(cfg, s, TakesJob(k))
    ensures Inv(cfg, Next(cfg, s, TakesJob(k)))
  {
    var s' := Next(cfg, s, TakesJob(k));
    var due := NextDue(s.jobs, s.now);
    if due.None? { OnlyTicketsGoneKeepsInv(cfg, s, s'); }
    else {
      assert JobOk(s, due.value);
      assert forall j :: j in s.tickets ==> TicketOk(s, j);
      DispatchStepKeepsInv(cfg, s, s', due.value);
    }
  }

  lemma FinishKeepsInv(cfg: Config, s: State, k: Token, status: JobStatus, at: Option<int>)
    requires Inv(cfg, s) && k in s.tickets && status != Processing
    requires status == Pending ==> s.tickets[k].attempts + 1 < MAX_CALLBACK_ATTEMPTS
    ensures Inv(cfg, JobStep(s, k, Finish(s.jobs, s.tickets[k], status, at, s.tickets[k].attempts + 1)))
  {
    var c := s.tickets[k];
    var outcome := Finish(s.jobs, c, status, at, c.attempts + 1);
    var s' := JobStep(s, k, outcome);
    assert TicketOk(s, k);
    if outcome.Err? { OnlyTicketsGoneKeepsInv(cfg, s, s'); }
    else {
      assert JobOk(s, c.index);
      DispatchStepKeepsInv(cfg, s, s', c.index);
    }
  }

  lemma DeliversKeepsInv(cfg: Config, s: State, k: Token)
    requires Inv(cfg, s) && Enabled(cfg, s, Delivers(k))
    ensures Inv(cfg, Next(cfg, s, Delivers(k)))
  {
    FinishKeepsInv(cfg, s, k, Delivered, None);
  }

  lemma RepairsKeepsInv(cfg: Config, s: State, k: Token)
    requires Inv(cfg, s) && Enabled(cfg, s, Repairs(k))
    ensures Inv(cfg, Next(cfg, s, Repairs(k)))
  {
    FinishKeepsInv(cfg, s, k, Repair, None);
  }

  lemma PostponesKeepsInv(cfg: Config, s: State, k: Token, at: int)
    requires Inv(cfg, s) && Enabled(cfg, s, Postpones(k, at))
    ensures Inv(cfg, Next(cfg, s, Postpones(k, at)))
  {
    if s.tickets[k].attempts + 1 >= MAX_CALLBACK_ATTEMPTS { FinishKeepsInv(cfg, s, k, Failed, None); }
    else { FinishKeepsInv(cfg, s, k, Pending, Some(at)); }
  }

  lemma ReplaysKeepsInv(cfg: Config, s: State, key: Content)
    requires Inv(cfg, s)
    ensures Inv(cfg, Next(cfg, s, Replays(key)))
  {
    var i := FindKey(s.jobs, key);
    if i.Some? {
      assert JobOk(s, i.value);
      if s.jobs[i.value].status == Failed || s.jobs[i.value].status == Repair {
        assert forall k :: k in s.tickets ==> TicketOk(s, k);
        DispatchStepKeepsInv(cfg, s, Next(cfg, s, Replays(key)), i.value);
      }
    }
  }

  lemma DispatchKeepsInv(cfg: Config, s: State, e: Event)
    requires Inv(cfg, s) && Enabled(cfg, s, e)
    requires e.TakesJob? || e.Delivers? || e.Repairs? || e.Postpones? || e.Replays?
    ensures Inv(cfg, Next(cfg, s, e))
  {
    match e
    case TakesJob(k) => TakesKeepsInv(cfg, s, k);
    case Delivers(k) => DeliversKeepsInv(cfg, s, k);
    case Repairs(k) => RepairsKeepsInv(cfg, s, k);
    case Postpones(k, at) => PostponesKeepsInv(cfg, s, k, at);
    case Replays(key) => ReplaysKeepsInv(cfg, s, key);
  }

  // --- time and the ledger -------------------------------------------------------------------------------------

  lemma PaymentOutlives(cfg: Config, s: State, e: Event, t: TxId)
    requires (e.Executes? || e.Passes?) && Enabled(cfg, s, e) && t in s.payments && PaymentOk(cfg, s, t)
    ensures t in Next(cfg, s, e).payments && PaymentOk(cfg, Next(cfg, s, e), t)
  {
  }

  lemma CallOutlives(cfg: Config, s: State, e: Event, k: Token)
    requires (e.Executes? || e.Passes?) && Enabled(cfg, s, e) && k in s.calls && CallOk(cfg, s, k)
    ensures CallOk(cfg, Next(cfg, s, e), k)
  {
  }

  lemma OtherRowsOutlive(cfg: Config, s: State, e: Event)
    requires Inv(cfg, s) && (e.Executes? || e.Passes?) && Enabled(cfg, s, e)
    ensures var s' := Next(cfg, s, e);
            && (forall t :: AskOk(s', t)) && (forall j :: 0 <= j < |s'.jobs| ==> JobOk(s', j))
            && (forall k :: k in s'.tickets ==> TicketOk(s', k)) && (forall r :: r in s'.responses ==> ResponseOk(s', r))
  {
    var s' := Next(cfg, s, e);
    forall t ensures AskOk(s', t) { assert AskOk(s, t); }
    forall j | 0 <= j < |s'.jobs| ensures JobOk(s', j) { assert JobOk(s, j); }
    forall k | k in s'.tickets ensures TicketOk(s', k) { assert TicketOk(s, k); }
    forall r | r in s'.responses ensures ResponseOk(s', r) { assert ResponseOk(s, r); }
  }

  lemma WorldKeepsInv(cfg: Config, s: State, e: Event)
    requires Inv(cfg, s) && (e.Executes? || e.Passes?) && Enabled(cfg, s, e)
    ensures Inv(cfg, Next(cfg, s, e))
  {
    var s' := Next(cfg, s, e);
    forall t | t in s'.payments ensures PaymentOk(cfg, s', t) { PaymentOutlives(cfg, s, e, t); }
    forall k | k in s'.calls ensures CallOk(cfg, s', k) { CallOutlives(cfg, s, e, k); }
    OtherRowsOutlive(cfg, s, e);
  }

  // --- every run -------------------------------------------------------------------------------------------------

  predicate IsCallEvent(e: Event)
  {
    !e.TakesJob? && !e.Delivers? && !e.Repairs? && !e.Postpones? && !e.Replays? && !e.Executes? && !e.Passes?
  }

  // The transaction a call's event is about.
  function Subject(s: State, e: Event): TxId
    requires IsCallEvent(e)
    requires !e.Requests? && !e.Works? ==> e.k in s.calls
  {
    if e.Requests? || e.Works? then e.t else s.calls[e.k].t
  }

  lemma OpeningStepIsLocal(cfg: Config, s: State, e: Event, k: Token, t: TxId)
    requires Enabled(cfg, s, e) && Here(cfg, s, k, t) && (k in s.calls <==> !e.Requests? && !e.Works?)
    requires e.Requests? || e.Works? || e.Verifies? || e.Scans? || e.Marks? || e.Asks?
    requires e.k == k && (e.Requests? || e.Works? ==> e.t == t)
    ensures LocalStep(cfg, s, Next(cfg, s, e), k, t)
  {
    match e
    case Requests(_, _, terms, expired) => RequestIsLocal(cfg, s, k, t, terms, expired);
    case Works(_, _) => WorksIsLocal(cfg, s, k, t);
    case Verifies(_) => VerifiesIsLocal(cfg, s, k, t);
    case Scans(_, report) => ScansIsLocal(cfg, s, k, t, report);
    case Marks(_) => AskIsLocal(cfg, s, k, t, e);
    case Asks(_) => AskIsLocal(cfg, s, k, t, e);
  }

  lemma ClosingStepIsLocal(cfg: Config, s: State, e: Event, k: Token, t: TxId)
    requires Enabled(cfg, s, e) && Here(cfg, s, k, t) && k in s.calls
    requires e.Refuses? || e.Vouches? || e.Observes? || e.Resolves? || e.Evidences? || e.Completes? || e.Stops?
    requires e.k == k
    ensures LocalStep(cfg, s, Next(cfg, s, e), k, t)
  {
    match e
    case Refuses(_) => RefuseIsLocal(cfg, s, k, t);
    case Vouches(_, evidence) => VouchIsLocal(cfg, s, k, t, evidence);
    case Observes(_, sight) => ObservesIsLocal(cfg, s, k, t, sight);
    case Resolves(_) => ResolveIsLocal(cfg, s, k, t);
    case Evidences(_) => EvidencesIsLocal(cfg, s, k, t);
    case Completes(_) => FinaliseIsLocal(cfg, s, k, t);
    case Stops(_) => StopsIsLocal(cfg, s, k, t);
  }

  lemma CallStepKeepsInv(cfg: Config, s: State, e: Event)
    requires Inv(cfg, s) && Enabled(cfg, s, e) && IsCallEvent(e)
    ensures Inv(cfg, Next(cfg, s, e))
  {
    assert !e.Requests? && !e.Works? ==> e.k in s.calls;
    var k, t := e.k, Subject(s, e);
    assert k in s.calls ==> CallOk(cfg, s, k);
    assert AskOk(s, t);
    if e.Requests? || e.Works? || e.Verifies? || e.Scans? || e.Marks? || e.Asks? { OpeningStepIsLocal(cfg, s, e, k, t); }
    else { ClosingStepIsLocal(cfg, s, e, k, t); }
    LocalStepKeepsInv(cfg, s, Next(cfg, s, e), k, t);
  }

  lemma StepKeepsInv(cfg: Config, s: State, e: Event)
    requires Inv(cfg, s) && Enabled(cfg, s, e)
    ensures Inv(cfg, Next(cfg, s, e))
  {
    if IsCallEvent(e) { CallStepKeepsInv(cfg, s, e); }
    else if e.Executes? || e.Passes? { WorldKeepsInv(cfg, s, e); }
    else { DispatchKeepsInv(cfg, s, e); }
  }

  lemma {:induction false} RunKeepsInv(cfg: Config, s: State, es: seq<Event>)
    requires Inv(cfg, s) && ValidRun(cfg, s, es)
    ensures Inv(cfg, After(cfg, s, es))
    decreases |es|
  {
    if es != [] {
      StepKeepsInv(cfg, s, es[0]);
      RunKeepsInv(cfg, Next(cfg, s, es[0]), es[1..]);
    }
  }
}
