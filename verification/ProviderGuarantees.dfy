/** What the provider's invariant means for payers, for the facilitator and for the orchestrator. */
module ProviderGuarantees {
  import opened Common
  import opened ProviderTables
  import opened ProviderProtocol
  import opened ProviderSafety

  // --- over every run ----------------------------------------------------------------------------------------

  /** However many requests name a transaction, the facilitator is asked to settle it at most once. */
  lemma AskedAtMostOnce(cfg: Config, start: int, es: seq<Event>, t: TxId)
    requires ValidRun(cfg, Init(start), es)
    ensures After(cfg, Init(start), es).asks[t] <= 1
  {
    InitOk(cfg, start);
    RunKeepsInv(cfg, Init(start), es);
    assert AskOk(After(cfg, Init(start), es), t);
  }

  /**
   Every response for a transaction delivers the one stored report, and only after the
   facilitator vouched for the settlement or the ledger executed it.
   */
  lemma ResponsesAgree(cfg: Config, start: int, es: seq<Event>, t: TxId, a: Content, b: Content)
    requires ValidRun(cfg, Init(start), es)
    requires var s := After(cfg, Init(start), es); (t, a) in s.responses && (t, b) in s.responses
    ensures a == b
    ensures var s := After(cfg, Init(start), es);
            t in s.payments && s.payments[t].report == Some(a) && (t in s.vouched || t in s.consensus)
  {
    InitOk(cfg, start);
    RunKeepsInv(cfg, Init(start), es);
    var s := After(cfg, Init(start), es);
    assert ResponseOk(s, (t, a)) && ResponseOk(s, (t, b)) && PaymentOk(cfg, s, t);
  }

  /** An attempt implies a report and ends the lease; evidence is there exactly in `settled` and `completed`. */
  lemma EveryPaymentIsWellShaped(cfg: Config, start: int, es: seq<Event>, t: TxId)
    requires ValidRun(cfg, Init(start), es) && t in After(cfg, Init(start), es).payments
    ensures Shape(After(cfg, Init(start), es).payments[t], t)
  {
    InitOk(cfg, start);
    RunKeepsInv(cfg, Init(start), es);
    assert PaymentOk(cfg, After(cfg, Init(start), es), t);
  }

  /** A completed payment did execute, and its callback is durable, naming its report and its consensus time. */
  lemma CompletedHasItsJob(cfg: Config, start: int, es: seq<Event>, t: TxId)
    requires ValidRun(cfg, Init(start), es)
    requires var s := After(cfg, Init(start), es); t in s.payments && s.payments[t].status == Completed
    ensures var s := After(cfg, Init(start), es);
            t in s.consensus && s.payments[t].report.Some?
            && HasJob(s.jobs, Body(s.payments[t].report.value, t, s.consensus[t]))
  {
    InitOk(cfg, start);
    RunKeepsInv(cfg, Init(start), es);
    assert PaymentOk(cfg, After(cfg, Init(start), es), t);
  }

  /** Jobs have distinct keys, at most twenty attempts, and a settled, executed payment behind them. */
  lemma JobsAreJustified(cfg: Config, start: int, es: seq<Event>, i: nat, j: nat)
    requires ValidRun(cfg, Init(start), es)
    requires var s := After(cfg, Init(start), es); i < |s.jobs| && j < |s.jobs|
    ensures var s := After(cfg, Init(start), es);
            && (s.jobs[i].key == s.jobs[j].key ==> i == j) && s.jobs[i].attempts <= MAX_CALLBACK_ATTEMPTS
            && s.jobs[i].tx in s.payments && s.payments[s.jobs[i].tx].settlement.Some?
            && s.jobs[i].tx in s.consensus && s.payments[s.jobs[i].tx].report == Some(s.jobs[i].key)
            && s.jobs[i].body == Body(s.jobs[i].key, s.jobs[i].tx, s.consensus[s.jobs[i].tx])
  {
    InitOk(cfg, start);
    RunKeepsInv(cfg, Init(start), es);
    var s := After(cfg, Init(start), es);
    assert JobOk(s, i) && JobOk(s, j);
  }

  /**
   Completion can fail with a conflict only because another transaction already completed with the
   same report: the same transaction always rebuilds the same callback.
   */
  lemma ConflictNeedsAnotherTransaction(cfg: Config, start: int, es: seq<Event>, k: Token)
    requires ValidRun(cfg, Init(start), es)
    requires var s := After(cfg, Init(start), es); Enabled(cfg, s, Completes(k))
    ensures var s := After(cfg, Init(start), es);
            var c := s.calls[k];
            c.t in s.payments && s.payments[c.t].report.Some? &&
            var report := s.payments[c.t].report.value;
            Complete(Tables(s.payments, s.jobs), c.t, Body(report, c.t, c.settledAt), s.now).Err?
            <==> exists i :: 0 <= i < |s.jobs| && s.jobs[i].key == report && s.jobs[i].tx != c.t
  {
    InitOk(cfg, start);
    RunKeepsInv(cfg, Init(start), es);
    var s := After(cfg, Init(start), es);
    var c := s.calls[k];
    assert CallOk(cfg, s, k) && PaymentOk(cfg, s, c.t);
    var report := s.payments[c.t].report.value;
    var found := FindKey(s.jobs, report);
    forall i | 0 <= i < |s.jobs| && s.jobs[i].key == report ensures found == Some(i) && JobOk(s, i) {
      assert s.jobs[i].key == s.jobs[found.value].key;
    }
  }

  // --- what later steps cannot undo --------------------------------------------------------------------------

  // Stored reports and evidence are final, a job keeps its content, and a delivered job never changes again.
  ghost predicate Frozen(s: State, s': State)
  {
    && (forall t :: t in s.payments ==> t in s'.payments && RowStep(s.payments[t], s'.payments[t]))
    && |s.jobs| <= |s'.jobs|
    && (forall i :: 0 <= i < |s.jobs| ==>
          SameContract(s.jobs[i], s'.jobs[i]) && (s.jobs[i].status == Delivered ==> s'.jobs[i] == s.jobs[i]))
  }

  // One dispatcher event touches only the delivery columns of a job that is not delivered.
  lemma DispatchFreezes(cfg: Config, s: State, e: Event)
    requires Enabled(cfg, s, e) && !IsCallEvent(e)
    ensures Frozen(s, Next(cfg, s, e))
  {
  }

  lemma LocalStepFreezes(cfg: Config, s: State, s': State, k: Token, t: TxId)
    requires LocalStep(cfg, s, s', k, t)
    ensures Frozen(s, s')
  {
  }

  lemma CallFreezes(cfg: Config, s: State, e: Event)
    requires Inv(cfg, s) && Enabled(cfg, s, e) && IsCallEvent(e)
    ensures Frozen(s, Next(cfg, s, e))
  {
    CallStepIsLocalUnderInv(cfg, s, e);
    LocalStepFreezes(cfg, s, Next(cfg, s, e), e.k, Subject(s, e));
  }

  lemma StepFreezes(cfg: Config, s: State, e: Event)
    requires Inv(cfg, s) && Enabled(cfg, s, e)
    ensures Frozen(s, Next(cfg, s, e))
  {
    if IsCallEvent(e) { CallFreezes(cfg, s, e); } else { DispatchFreezes(cfg, s, e); }
  }

  lemma {:induction false} RunFreezes(cfg: Config, s: State, es: seq<Event>)
    requires Inv(cfg, s) && ValidRun(cfg, s, es)
    ensures Frozen(s, After(cfg, s, es))
    decreases |es|
  {
    if es != [] {
      var s1 := Next(cfg, s, es[0]);
      StepFreezes(cfg, s, es[0]);
      StepKeepsInv(cfg, s, es[0]);
      RunFreezes(cfg, s1, es[1..]);
    }
  }

  /** Whatever happens next, in any continuation of any run, nothing stored is revised. */
  lemma NothingStoredIsRevised(cfg: Config, start: int, es: seq<Event>, more: seq<Event>)
    requires ValidRun(cfg, Init(start), es) && ValidRun(cfg, After(cfg, Init(start), es), more)
    ensures Frozen(After(cfg, Init(start), es), After(cfg, After(cfg, Init(start), es), more))
  {
    InitOk(cfg, start);
    RunKeepsInv(cfg, Init(start), es);
    RunFreezes(cfg, After(cfg, Init(start), es), more);
  }

  lemma DispatchKeepsOthersLeases(cfg: Config, s: State, e: Event, i: nat)
    requires Enabled(cfg, s, e) && !IsCallEvent(e) && i < |s.jobs| && s.jobs[i].status == Processing
    requires i < |Next(cfg, s, e).jobs| && Next(cfg, s, e).jobs[i].status != Processing
    requires e.Delivers? || e.Repairs? || e.Postpones? ==> TicketOk(s, e.k)
    ensures (e.Delivers? || e.Repairs? || e.Postpones?) && s.jobs[i].leaseToken == Some(e.k)
    ensures Next(cfg, s, e).jobs[i].attempts == s.jobs[i].attempts + 1
  {
  }

  /** A job leaves `processing` only at the hand of the call whose token it currently carries. */
  lemma OnlyTheLeaseHolderFinishes(cfg: Config, s: State, e: Event, i: nat)
    requires Inv(cfg, s) && Enabled(cfg, s, e) && i < |s.jobs| && s.jobs[i].status == Processing
    requires i < |Next(cfg, s, e).jobs| && Next(cfg, s, e).jobs[i].status != Processing
    ensures (e.Delivers? || e.Repairs? || e.Postpones?) && s.jobs[i].leaseToken == Some(e.k)
    ensures Next(cfg, s, e).jobs[i].attempts == s.jobs[i].attempts + 1
  {
    if IsCallEvent(e) { CallStepIsLocalUnderInv(cfg, s, e); } else { DispatchKeepsOthersLeases(cfg, s, e, i); }
  }

  // --- completed and given up: what leaves them ------------------------------------------------------------

  // Evidence that `saveSettlement` takes for this payment.
  predicate Fits(p: Payment, t: TxId, e: Settlement)
  {
    ValidEvidence(p, t, e) && (p.settlement.Some? ==> p.settlement.value == e)
  }

  /** The event writes evidence that fits payment t: the facilitator's, or a reconciler's. */
  predicate StoresEvidence(s: State, e: Event, t: TxId)
  {
    t in s.payments &&
    match e
    case Vouches(k, evidence) => k in s.calls && s.calls[k].t == t && Fits(s.payments[t], t, evidence)
    case Evidences(k) =>
      k in s.calls && s.calls[k].Evidencing? && s.calls[k].t == t && Fits(s.payments[t], t, Synthetic(s.calls[k].row, t))
    case _ => false
  }

  predicate Terminal(p: Payment) { p.status == Completed || p.status == SettlementFailed }

  // The event ends an attempt on t without a confirmation: a refusal, or a look at the ledger that showed nothing.
  predicate ComesBackEmpty(s: State, e: Event, t: TxId)
  {
    match e
    case Refuses(k) => k in s.calls && s.calls[k].t == t
    case Resolves(k) => k in s.calls && s.calls[k].Observed? && s.calls[k].t == t && s.calls[k].sight.Unseen?
    case _ => false
  }

  // What the event does to the status of payment t, as far as giving up and terminal states go.
  predicate StatusMoves(cfg: Config, s: State, s': State, e: Event, t: TxId)
  {
    t in s.payments ==>
      var p := s.payments[t];
      t in s'.payments &&
      (Terminal(p) ==> (s'.payments[t].status != p.status <==> StoresEvidence(s, e, t))) &&
      (p.status != SettlementFailed ==>
         (s'.payments[t].status == SettlementFailed
          <==> ComesBackEmpty(s, e, t) && p.settlement.None? && s.now > cfg.expiry(t) + SETTLEMENT_FAILURE_GRACE_MS))
  }

  lemma OpeningMoves(cfg: Config, s: State, e: Event, k: Token, t: TxId)
    requires e.Requests? || e.Works? || e.Verifies? || e.Scans? || e.Marks? || e.Asks? || e.Observes? || e.Stops?
    requires Enabled(cfg, s, e) && Here(cfg, s, k, t) && e.k == k && (e.Requests? || e.Works? ==> e.t == t)
    requires k in s.calls <==> !e.Requests? && !e.Works?
    ensures StatusMoves(cfg, s, Next(cfg, s, e), e, t)
  {
  }

  lemma EvidenceMoves(cfg: Config, s: State, e: Event, k: Token, t: TxId)
    requires (e.Vouches? || e.Evidences?) && Enabled(cfg, s, e) && Here(cfg, s, k, t) && k in s.calls && e.k == k
    ensures StatusMoves(cfg, s, Next(cfg, s, e), e, t)
  {
  }

  lemma EmptyMoves(cfg: Config, s: State, e: Event, k: Token, t: TxId)
    requires (e.Refuses? || e.Resolves?) && Enabled(cfg, s, e) && Here(cfg, s, k, t) && k in s.calls && e.k == k
    ensures StatusMoves(cfg, s, Next(cfg, s, e), e, t)
  {
  }

  lemma CompletingMoves(cfg: Config, s: State, e: Event, k: Token, t: TxId)
    requires e.Completes? && Enabled(cfg, s, e) && Here(cfg, s, k, t) && k in s.calls && e.k == k
    ensures StatusMoves(cfg, s, Next(cfg, s, e), e, t)
  {
  }

  // A call's step leaves the payments of other transactions alone.
  lemma OtherRowStays(cfg: Config, s: State, s': State, e: Event, k: Token, u: TxId, t: TxId)
    requires LocalStep(cfg, s, s', k, u) && u != t && IsCallEvent(e) && e.k == k
    requires k in s.calls ==> s.calls[k].t == u
    requires k !in s.calls ==> e.Requests? || e.Works?
    ensures StatusMoves(cfg, s, s', e, t)
  {
  }

  lemma CallMoves(cfg: Config, s: State, e: Event, t: TxId)
    requires Inv(cfg, s) && Enabled(cfg, s, e) && IsCallEvent(e)
    ensures StatusMoves(cfg, s, Next(cfg, s, e), e, t)
  {
    CallStepIsLocalUnderInv(cfg, s, e);
    var k, u := e.k, Subject(s, e);
    assert k in s.calls ==> CallOk(cfg, s, k);
    assert AskOk(s, u);
    if u != t { OtherRowStays(cfg, s, Next(cfg, s, e), e, k, u, t); }
    else if e.Vouches? || e.Evidences? { EvidenceMoves(cfg, s, e, k, t); }
    else if e.Refuses? || e.Resolves? { EmptyMoves(cfg, s, e, k, t); }
    else if e.Completes? { CompletingMoves(cfg, s, e, k, t); }
    else { OpeningMoves(cfg, s, e, k, t); }
  }

  // Nor do the ledger, the clock and the callback worker.
  lemma OtherEventMoves(cfg: Config, s: State, e: Event, t: TxId)
    requires Enabled(cfg, s, e) && !IsCallEvent(e)
    ensures StatusMoves(cfg, s, Next(cfg, s, e), e, t)
  {
  }

  lemma EventMoves(cfg: Config, s: State, e: Event, t: TxId)
    requires Inv(cfg, s) && Enabled(cfg, s, e)
    ensures StatusMoves(cfg, s, Next(cfg, s, e), e, t)
  {
    if IsCallEvent(e) { CallMoves(cfg, s, e, t); } else { OtherEventMoves(cfg, s, e, t); }
  }

  /**
   Neither `completed` nor `settlement_failed` is final. Either is left exactly when evidence that
   fits is written: for a completed payment, the evidence it already has.
   */
  lemma TerminalIsLeftIff(cfg: Config, s: State, e: Event, t: TxId)
    requires Inv(cfg, s) && Enabled(cfg, s, e) && t in s.payments && Terminal(s.payments[t])
    ensures t in Next(cfg, s, e).payments
    ensures Next(cfg, s, e).payments[t].status != s.payments[t].status <==> StoresEvidence(s, e, t)
  {
    EventMoves(cfg, s, e, t);
  }

  // No event of the run writes fitting evidence for t at the moment it happens.
  ghost predicate NeverWritten(cfg: Config, s: State, es: seq<Event>, t: TxId)
    decreases |es|
  {
    es == [] || (!StoresEvidence(s, es[0], t) && NeverWritten(cfg, Next(cfg, s, es[0]), es[1..], t))
  }

  /** Until such a write, a completed payment stays completed and a failed one failed, whatever else happens. */
  lemma {:induction false} TerminalUntilWritten(cfg: Config, s: State, es: seq<Event>, t: TxId)
    requires Inv(cfg, s) && ValidRun(cfg, s, es) && t in s.payments && Terminal(s.payments[t]) && NeverWritten(cfg, s, es, t)
    ensures t in After(cfg, s, es).payments && After(cfg, s, es).payments[t].status == s.payments[t].status
    decreases |es|
  {
    if es != [] {
      StepKeepsInv(cfg, s, es[0]);
      TerminalIsLeftIff(cfg, s, es[0], t);
      TerminalUntilWritten(cfg, Next(cfg, s, es[0]), es[1..], t);
    }
  }

  /**
   A payment is given up exactly when an attempt comes back empty, no evidence is stored, and the
   clock is past validity and grace; a refusal counts although nobody has looked at the ledger.
   */
  lemma GivesUpIff(cfg: Config, s: State, e: Event, t: TxId)
    requires Inv(cfg, s) && Enabled(cfg, s, e) && t in s.payments && s.payments[t].status != SettlementFailed
    ensures t in Next(cfg, s, e).payments
    ensures Next(cfg, s, e).payments[t].status == SettlementFailed
            <==> ComesBackEmpty(s, e, t) && s.payments[t].settlement.None? && s.now > cfg.expiry(t) + SETTLEMENT_FAILURE_GRACE_MS
  {
    EventMoves(cfg, s, e, t);
  }

  // A payer's money moved, and the payment was given up.
  predicate GivenUpAndExecuted(s: State, t: TxId)
  {
    t in s.payments && s.payments[t].status == SettlementFailed && t in s.consensus
  }

  /** When answers and refusals are handled within the grace, a payment given up has not executed and never will. */
  lemma GivenUpNeverExecutes(cfg: Config, start: int, es: seq<Event>, t: TxId)
    requires GraceCovers(cfg) && ValidRun(cfg, Init(start), es)
    requires var s := After(cfg, Init(start), es); t in s.payments && s.payments[t].status == SettlementFailed
    ensures var s := After(cfg, Init(start), es); t !in s.consensus && s.now > cfg.expiry(t)
  {
    InitOk(cfg, start);
    RunKeepsInv(cfg, Init(start), es);
    assert PaymentOk(cfg, After(cfg, Init(start), es), t);
  }

  lemma CallStepIsLocalUnderInv(cfg: Config, s: State, e: Event)
    requires Inv(cfg, s) && Enabled(cfg, s, e) && IsCallEvent(e)
    ensures !e.Requests? && !e.Works? ==> e.k in s.calls
    ensures LocalStep(cfg, s, Next(cfg, s, e), e.k, Subject(s, e))
  {
    assert !e.Requests? && !e.Works? ==> e.k in s.calls;
    assert e.k in s.calls ==> CallOk(cfg, s, e.k);
    assert AskOk(s, Subject(s, e));
    if e.Requests? || e.Works? || e.Verifies? || e.Scans? || e.Marks? || e.Asks? {
      OpeningStepIsLocal(cfg, s, e, e.k, Subject(s, e));
    } else {
      ClosingStepIsLocal(cfg, s, e, e.k, Subject(s, e));
    }
  }

  // --- what can go wrong ---------------------------------------------------------------------------------------

  ghost predicate Reaches(cfg: Config, start: int, s: State)
  {
    exists es :: ValidRun(cfg, Init(start), es) && After(cfg, Init(start), es) == s
  }

  lemma Then(cfg: Config, start: int, s: State, e: Event, s': State)
    requires Reaches(cfg, start, s) && Enabled(cfg, s, e) && s' == Next(cfg, s, e)
    ensures Reaches(cfg, start, s')
  {
    var es :| ValidRun(cfg, Init(start), es) && After(cfg, Init(start), es) == s;
    RunExtends(cfg, Init(start), es, e);
    assert ValidRun(cfg, Init(start), es + [e]);
  }

  function SampleTerms(cfg: Config): Terms { Terms(7, 1, 5, cfg.expiry(0)) }

  function AttemptedRow(cfg: Config, status: Status, e: Option<Settlement>): Payment
  {
    Payment(SampleTerms(cfg), status, true, Some(9), e, None, None)
  }

  // Call 1 at work on transaction 0, alone.
  function Alone(start: int, row: Payment, c: Call, asker: map<TxId, Token>, asks: multiset<TxId>): State
  {
    State(start, map[0 := row], [], map[1 := c], map[], {1}, map[], asker, asks, {}, {})
  }

  function AtVerifying(cfg: Config, start: int): State
  {
    Alone(start, NewPayment(SampleTerms(cfg), 1, start), Verifying(0, None), map[], multiset{})
  }

  function AtReported(cfg: Config, start: int): State
  {
    Alone(start, Payment(SampleTerms(cfg), ReportReady, false, Some(9), None, Some(1), Some(start + VERIFIED_PAYMENT_LEASE_MS)),
          Reported(0, 9), map[], multiset{})
  }

  // The facilitator has been asked to settle transaction 0.
  function AtAsked(cfg: Config, start: int): State
  {
    Alone(start, AttemptedRow(cfg, ReportReady, None), Asked(0, 9), map[0 := 1], multiset{0})
  }

  lemma ReachesVerifying(cfg: Config, start: int)
    ensures Reaches(cfg, start, AtVerifying(cfg, start))
  {
    assert ValidRun(cfg, Init(start), []) && After(cfg, Init(start), []) == Init(start);
    Then(cfg, start, Init(start), Requests(1, 0, SampleTerms(cfg), false), AtVerifying(cfg, start));
  }

  lemma ReachesReported(cfg: Config, start: int)
    ensures Reaches(cfg, start, AtReported(cfg, start))
  {
    ReachesVerifying(cfg, start);
    var row := NewPayment(SampleTerms(cfg), 1, start).(leaseUntil := Some(start + VERIFIED_PAYMENT_LEASE_MS));
    var s := Alone(start, row, Scanning(0), map[], multiset{});
    Then(cfg, start, AtVerifying(cfg, start), Verifies(1), s);
    Then(cfg, start, s, Scans(1, 9), AtReported(cfg, start));
  }

  lemma ReachesAsked(cfg: Config, start: int)
    ensures Reaches(cfg, start, AtAsked(cfg, start))
  {
    ReachesReported(cfg, start);
    var s := Alone(start, AttemptedRow(cfg, ReportReady, None), Asking(0, 9), map[0 := 1], multiset{});
    Then(cfg, start, AtReported(cfg, start), Marks(1), s);
    Then(cfg, start, s, Asks(1), AtAsked(cfg, start));
  }

  // It executed at the last moment, and the answer is handled just past the cut-off.
  function AtCutOff(cfg: Config, start: int): State
  {
    AtAsked(cfg, start).(consensus := map[0 := start], now := start + SETTLEMENT_FAILURE_GRACE_MS + 1)
  }

  lemma ReachesCutOff(cfg: Config, start: int)
    requires start == cfg.expiry(0)
    ensures Reaches(cfg, start, AtCutOff(cfg, start))
  {
    ReachesAsked(cfg, start);
    var s := AtAsked(cfg, start).(consensus := map[0 := start]);
    Then(cfg, start, AtAsked(cfg, start), Executes(0), s);
    Then(cfg, start, s, Passes(SETTLEMENT_FAILURE_GRACE_MS + 1), AtCutOff(cfg, start));
  }

  /** With refusals handled later than the grace: the transaction executes, and a late refusal gives it up. */
  lemma LateRefusalGivesUpExecuted(cfg: Config, start: int)
    requires start == cfg.expiry(0) && cfg.handling > SETTLEMENT_FAILURE_GRACE_MS
    ensures exists s :: Reaches(cfg, start, s) && GivenUpAndExecuted(s, 0)
  {
    ReachesCutOff(cfg, start);
    var s := AtCutOff(cfg, start).(payments := map[0 := AttemptedRow(cfg, SettlementFailed, None)], calls := map[]);
    Then(cfg, start, AtCutOff(cfg, start), Refuses(1), s);
    assert GivenUpAndExecuted(s, 0);
  }

  // Call 2 is a reconciler; the transfer executed at the last moment and stays hidden for as long as it may.
  function AtHidden(cfg: Config, start: int, now: int, c: Call): State
  {
    AtAsked(cfg, start).(now := now, calls := map[2 := c], used := {1, 2}, consensus := map[0 := start])
  }

  function Blind(cfg: Config, at: int): Call { Observed(0, Unsettled(cfg), Background, Unseen, at) }

  function HiddenUntil(cfg: Config, start: int): int { start + Max(cfg.lag, 1) - 1 }

  lemma ReachesHidden(cfg: Config, start: int)
    requires start == cfg.expiry(0) && cfg.lag > 0
    ensures Reaches(cfg, start, AtHidden(cfg, start, HiddenUntil(cfg, start), Reading(cfg)))
  {
    ReachesAsked(cfg, start);
    var s0 := AtAsked(cfg, start).(calls := map[]);
    Then(cfg, start, AtAsked(cfg, start), Stops(1), s0);
    var s1 := s0.(calls := map[2 := Reading(cfg)], used := {1, 2});
    Then(cfg, start, s0, Works(2, 0), s1);
    Then(cfg, start, s1, Executes(0), AtHidden(cfg, start, start, Reading(cfg)));
    Then(cfg, start, AtHidden(cfg, start, start, Reading(cfg)), Passes(cfg.lag - 1),
         AtHidden(cfg, start, HiddenUntil(cfg, start), Reading(cfg)));
  }

  // Without any lag, the reconciler looks just before the transfer executes.
  lemma ReachesBlindWithoutLag(cfg: Config, start: int)
    requires start == cfg.expiry(0) && cfg.lag == 0
    ensures Reaches(cfg, start, AtHidden(cfg, start, start, Blind(cfg, start)))
  {
    ReachesAsked(cfg, start);
    var s0 := AtAsked(cfg, start).(calls := map[]);
    Then(cfg, start, AtAsked(cfg, start), Stops(1), s0);
    var s1 := s0.(calls := map[2 := Reading(cfg)], used := {1, 2});
    Then(cfg, start, s0, Works(2, 0), s1);
    var s2 := s1.(calls := map[2 := Blind(cfg, start)]);
    Then(cfg, start, s1, Observes(2, Unseen), s2);
    Then(cfg, start, s2, Executes(0), AtHidden(cfg, start, start, Blind(cfg, start)));
  }

  lemma ReachesBlind(cfg: Config, start: int)
    requires start == cfg.expiry(0)
    ensures Reaches(cfg, start, AtHidden(cfg, start, HiddenUntil(cfg, start), Blind(cfg, HiddenUntil(cfg, start))))
  {
    if cfg.lag == 0 {
      ReachesBlindWithoutLag(cfg, start);
    } else {
      ReachesHidden(cfg, start);
      var at := HiddenUntil(cfg, start);
      Then(cfg, start, AtHidden(cfg, start, at, Reading(cfg)), Observes(2, Unseen), AtHidden(cfg, start, at, Blind(cfg, at)));
    }
  }

  /** With lag and latency longer than the grace: the reconciler gives up a transfer it was not shown. */
  lemma LongLagGivesUpExecuted(cfg: Config, start: int)
    requires start == cfg.expiry(0) && !MirrorCovers(cfg)
    ensures exists s :: Reaches(cfg, start, s) && GivenUpAndExecuted(s, 0)
  {
    ReachesBlind(cfg, start);
    var at := HiddenUntil(cfg, start);
    var s0 := AtHidden(cfg, start, at, Blind(cfg, at));
    var s1 := AtHidden(cfg, start, at + cfg.latency, Blind(cfg, at));
    Then(cfg, start, s0, Passes(cfg.latency), s1);
    var s2 := s1.(payments := map[0 := AttemptedRow(cfg, SettlementFailed, None)], calls := map[]);
    Then(cfg, start, s1, Resolves(2), s2);
    assert GivenUpAndExecuted(s2, 0);
  }

  /** No run gives up a payment that executed, if and only if lag, latency and handling stay within the grace. */
  lemma NoExecutedPaymentIsGivenUpIff(cfg: Config)
    ensures GraceCovers(cfg) <==> forall start, s, t :: Reaches(cfg, start, s) ==> !GivenUpAndExecuted(s, t)
  {
    if GraceCovers(cfg) {
      forall start, s, t | Reaches(cfg, start, s) ensures !GivenUpAndExecuted(s, t) {
        var es :| ValidRun(cfg, Init(start), es) && After(cfg, Init(start), es) == s;
        if t in s.payments && s.payments[t].status == SettlementFailed { GivenUpNeverExecutes(cfg, start, es, t); }
      }
    } else if !MirrorCovers(cfg) {
      LongLagGivesUpExecuted(cfg, cfg.expiry(0));
    } else {
      LateRefusalGivesUpExecuted(cfg, cfg.expiry(0));
    }
  }

  const Evidence0 := Settlement(true, 0, 1, None, 0)

  // Calls 2 and 3 are reconcilers, started when the row held no evidence; the transfer did execute.
  function AtPair(cfg: Config, start: int, row: Payment, calls: map<Token, Call>): State
  {
    State(start, map[0 := row], [], calls, map[], {1, 2, 3}, map[0 := start], map[0 := 1], multiset{0}, {}, {})
  }

  function Unsettled(cfg: Config): Payment { AttemptedRow(cfg, ReportReady, None) }

  function Reading(cfg: Config): Call { Reconciling(0, Unsettled(cfg), Background) }

  function Sighted(cfg: Config, start: int): Call { Observed(0, Unsettled(cfg), Background, Seen(start), start) }

  function Writing(cfg: Config, start: int): Call { Evidencing(0, Unsettled(cfg), Background, start) }

  lemma ReachesPair(cfg: Config, start: int)
    requires start == cfg.expiry(0)
    ensures Reaches(cfg, start, AtPair(cfg, start, Unsettled(cfg), map[2 := Reading(cfg), 3 := Reading(cfg)]))
  {
    ReachesAsked(cfg, start);
    var s0 := AtAsked(cfg, start).(calls := map[]);
    Then(cfg, start, AtAsked(cfg, start), Stops(1), s0);
    var s1 := s0.(consensus := map[0 := start]);
    Then(cfg, start, s0, Executes(0), s1);
    var s2 := s1.(calls := map[2 := Reading(cfg)], used := {1, 2});
    Then(cfg, start, s1, Works(2, 0), s2);
    Then(cfg, start, s2, Works(3, 0), AtPair(cfg, start, Unsettled(cfg), map[2 := Reading(cfg), 3 := Reading(cfg)]));
  }

  lemma ReachesOneSighting(cfg: Config, start: int)
    requires start == cfg.expiry(0)
    ensures Reaches(cfg, start, AtPair(cfg, start, Unsettled(cfg), map[2 := Writing(cfg, start), 3 := Reading(cfg)]))
  {
    ReachesPair(cfg, start);
    var p := Unsettled(cfg);
    var r, o, w := Reading(cfg), Sighted(cfg, start), Writing(cfg, start);
    Then(cfg, start, AtPair(cfg, start, p, map[2 := r, 3 := r]), Observes(2, Seen(start)), AtPair(cfg, start, p, map[2 := o, 3 := r]));
    Then(cfg, start, AtPair(cfg, start, p, map[2 := o, 3 := r]), Resolves(2), AtPair(cfg, start, p, map[2 := w, 3 := r]));
  }

  lemma ReachesTwoSightings(cfg: Config, start: int)
    requires start == cfg.expiry(0)
    ensures Reaches(cfg, start, AtPair(cfg, start, Unsettled(cfg), map[2 := Writing(cfg, start), 3 := Writing(cfg, start)]))
  {
    ReachesOneSighting(cfg, start);
    var p := Unsettled(cfg);
    var r, o, w := Reading(cfg), Sighted(cfg, start), Writing(cfg, start);
    Then(cfg, start, AtPair(cfg, start, p, map[2 := w, 3 := r]), Observes(3, Seen(start)), AtPair(cfg, start, p, map[2 := w, 3 := o]));
    Then(cfg, start, AtPair(cfg, start, p, map[2 := w, 3 := o]), Resolves(3), AtPair(cfg, start, p, map[2 := w, 3 := w]));
  }

  function AtCompleted(cfg: Config, start: int): State
  {
    AtPair(cfg, start, AttemptedRow(cfg, Completed, Some(Evidence0)), map[3 := Writing(cfg, start)])
      .(jobs := [Job(9, 0, Body(9, 0, start), Pending, 0, start, None, None)])
  }

  lemma ReachesCompleted(cfg: Config, start: int)
    requires start == cfg.expiry(0)
    ensures Reaches(cfg, start, AtCompleted(cfg, start))
  {
    ReachesTwoSightings(cfg, start);
    var w := Writing(cfg, start);
    var s1 := AtPair(cfg, start, AttemptedRow(cfg, Settled, Some(Evidence0)), map[2 := Completing(0, Background, start), 3 := w]);
    Then(cfg, start, AtPair(cfg, start, Unsettled(cfg), map[2 := w, 3 := w]), Evidences(2), s1);
    Then(cfg, start, s1, Completes(2), AtCompleted(cfg, start));
  }

  /** The second reconciler's evidence write takes `completed` back to `settled`. */
  lemma CompletionCanBeUndone(cfg: Config, start: int)
    requires start == cfg.expiry(0)
    ensures exists s, e ::
              && Reaches(cfg, start, s) && Enabled(cfg, s, e) && 0 in s.payments && s.payments[0].status == Completed
              && 0 in Next(cfg, s, e).payments && Next(cfg, s, e).payments[0].status == Settled
  {
    ReachesCompleted(cfg, start);
    var s := AtCompleted(cfg, start);
    assert Enabled(cfg, s, Evidences(3)) && Next(cfg, s, Evidences(3)).payments[0].status == Settled;
  }
}
