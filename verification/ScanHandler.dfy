/**
 The `/scan` handler and its reconciler statement by statement, over the provider's store. What
 other requests, the facilitator, the ledger and the clock do during its waits is a list of
 protocol events it is given.
 */
module ScanHandler {
  import opened Common
  import opened ProviderTables
  import opened ProviderProtocol
  import opened ProviderSafety
  import opened ProviderGuarantees

  // How the world treats one request: its n-th wait, the scan, the facilitator and the Mirror Node.
  datatype Fortune = Fortune(
    others: nat -> seq<Event>,
    dies: nat -> bool,
    scan: Option<Content>,
    settlement: Option<Settlement>,
    sight: Option<Sight>)

  predicate About(e: Event, k: Token)
  {
    match e
    case Requests(j, _, _, _) => j == k
    case Works(j, _) => j == k
    case Verifies(j) => j == k
    case Scans(j, _) => j == k
    case Marks(j) => j == k
    case Asks(j) => j == k
    case Refuses(j) => j == k
    case Vouches(j, _) => j == k
    case Observes(j, _) => j == k
    case Resolves(j) => j == k
    case Evidences(j) => j == k
    case Completes(j) => j == k
    case Stops(j) => j == k
    case _ => false
  }

  predicate LeavesAlone(s: State, s': State, k: Token)
  {
    k in s'.used && (k in s.calls <==> k in s'.calls) && (k in s.calls ==> s'.calls[k] == s.calls[k])
    && s.responses <= s'.responses && s.now <= s'.now
  }

  lemma OthersLeaveCallAlone(cfg: Config, s: State, e: Event, k: Token)
    requires Enabled(cfg, s, e) && !About(e, k) && k in s.used
    ensures LeavesAlone(s, Next(cfg, s, e), k)
  {
    if e.Requests? { RequestLeavesAlone(s, e.k, e.t, e.terms, e.expired, k); }
    else if e.Vouches? { VouchLeavesAlone(s, e.k, e.evidence, k); }
    else if e.Refuses? { RefuseLeavesAlone(s, e.k, k); }
    else if e.Resolves? { ResolveLeavesAlone(s, e.k, k); }
    else if e.Completes? { FinaliseLeavesAlone(s, e.k, k); }
    else if IsCallEvent(e) { WriteLeavesAlone(cfg, s, e, k); }
  }

  lemma VouchLeavesAlone(s: State, j: Token, e: Settlement, k: Token)
    requires j in s.calls && s.calls[j].Asked? && j != k && k in s.used
    ensures LeavesAlone(s, Vouch(s, j, e), k)
  {
  }

  lemma RefuseLeavesAlone(s: State, j: Token, k: Token)
    requires j in s.calls && s.calls[j].Asked? && j != k && k in s.used
    ensures LeavesAlone(s, Refuse(s, j), k)
  {
  }

  lemma ResolveLeavesAlone(s: State, j: Token, k: Token)
    requires j in s.calls && s.calls[j].Observed? && j != k && k in s.used
    ensures LeavesAlone(s, Resolve(s, j), k)
  {
  }

  lemma FinaliseLeavesAlone(s: State, j: Token, k: Token)
    requires j in s.calls && s.calls[j].Completing? && j != k && k in s.used
    ensures LeavesAlone(s, Finalise(s, j), k)
  {
  }

  lemma WriteLeavesAlone(cfg: Config, s: State, e: Event, k: Token)
    requires Enabled(cfg, s, e) && IsCallEvent(e) && e.k != k && k in s.used
    requires !e.Requests? && !e.Vouches? && !e.Refuses? && !e.Resolves? && !e.Completes?
    ensures LeavesAlone(s, Next(cfg, s, e), k)
  {
  }

  lemma RequestLeavesAlone(s: State, j: Token, t: TxId, terms: Terms, expired: bool, k: Token)
    requires j != k && k in s.used
    ensures LeavesAlone(s, Request(s, j, t, terms, expired), k)
  {
    var claim := ClaimPayment(s.payments, t, terms, j, s.now);
    if claim.Ok? && t in claim.value { ReconcileLeavesAlone(s, claim.value, j, t, claim.value[t], k); }
  }

  lemma ReconcileLeavesAlone(s: State, ps: Payments, j: Token, t: TxId, p: Payment, k: Token)
    requires j != k && k in s.used
    ensures LeavesAlone(s, Reconcile(s.(payments := ps), j, t, p, Retry), k)
  {
  }

  // What the Mirror Node shows when it is expected to show `a`: never anything untrue.
  function Truthful(cfg: Config, s: State, t: TxId, a: Sight): (r: Sight)
    ensures MaySee(cfg, s, t, r)
    ensures MaySee(cfg, s, t, a) ==> r == a
  {
    if MaySee(cfg, s, t, a) then a else if t in s.consensus then Seen(s.consensus[t]) else Unseen
  }

  class Server {
    const cfg: Config
    const start: int
    const store: ProviderStore
    var now: int
    var calls: map<Token, Call>
    var tickets: map<Token, Ticket>
    var used: set<Token>
    var consensus: map<TxId, int>
    var asker: map<TxId, Token>
    var asks: multiset<TxId>
    var vouched: set<TxId>
    var responses: set<(TxId, Content)>
    ghost var trace: seq<Event>

    function View(): State
      reads this, store
    {
      State(now, store.payments, store.jobs, calls, tickets, used, consensus, asker, asks, vouched, responses)
    }

    ghost predicate ReachedBy(es: seq<Event>, s: State)
    {
      ValidRun(cfg, Init(start), es) && After(cfg, Init(start), es) == s
    }

    /** The world is where the protocol can take it. */
    ghost predicate Valid()
      reads this, store
    {
      ReachedBy(trace, View())
    }

    constructor (cfg: Config, start: int)
      ensures Valid() && this.cfg == cfg && this.start == start && View() == Init(start) && fresh(store)
    {
      this.cfg, this.start := cfg, start;
      var empty := new ProviderStore();
      store := empty;
      now, calls, tickets, used, consensus, asker := start, map[], map[], {}, map[], map[];
      asks, vouched, responses := multiset{}, {}, {};
      trace := [];
    }

    // The statements just executed were this protocol step.
    ghost method Did(e: Event, before: State)
      requires ReachedBy(trace, before) && Enabled(cfg, before, e) && View() == Next(cfg, before, e)
      modifies this`trace
      ensures trace == old(trace) + [e] && Valid()
    {
      RunExtends(cfg, Init(start), trace, e);
      trace := trace + [e];
    }

    // One thing that happens elsewhere meanwhile, if it is possible, not this call's, and not too late.
    method Elsewhere(k: Token, e: Event, until: Option<int>)
      requires Valid() && k in used && (until.Some? ==> now <= until.value)
      modifies this, store
      ensures Valid() && old(trace) <= trace && LeavesAlone(old(View()), View(), k)
      ensures until.Some? ==> now <= until.value
    {
      if Enabled(cfg, View(), e) && !About(e, k) {
        var s' := Next(cfg, View(), e);
        if until.None? || s'.now <= until.value {
          ghost var before := View();
          OthersLeaveCallAlone(cfg, before, e, k);
          Install(s');
          Did(e, before);
        }
      }
    }

    method Install(s: State)
      modifies this, store
      ensures View() == s && trace == old(trace)
    {
      store.payments, store.jobs := s.payments, s.jobs;
      now, calls, tickets, used, consensus, asker := s.now, s.calls, s.tickets, s.used, s.consensus, s.asker;
      asks, vouched, responses := s.asks, s.vouched, s.responses;
    }

    method Elapse(k: Token, others: seq<Event>, until: Option<int>)
      requires Valid() && k in used && (until.Some? ==> now <= until.value)
      modifies this, store
      ensures Valid() && old(trace) <= trace && LeavesAlone(old(View()), View(), k)
      ensures until.Some? ==> now <= until.value
    {
      for i := 0 to |others|
        invariant Valid() && old(trace) <= trace && LeavesAlone(old(View()), View(), k)
        invariant until.Some? ==> now <= until.value
      {
        Elsewhere(k, others[i], until);
      }
    }

    /** One `await`; the process may not come back from it. */
    method Wait(k: Token, x: Fortune, n: nat) returns (alive: bool)
      requires Valid() && k in used && k in calls
      modifies this, store
      ensures Valid() && old(trace) <= trace && k in used && old(responses) <= responses
      ensures if alive then LeavesAlone(old(View()), View(), k) else k !in calls
    {
      Elapse(k, x.others(n), None);
      alive := !x.dies(n);
      if !alive { Stop(k); }
    }

    method Stop(k: Token)
      requires Valid() && k in used && k in calls
      modifies this
      ensures Valid() && k !in calls && used == old(used) && old(trace) <= trace && responses == old(responses)
    {
      ghost var before := View();
      calls := calls - {k};
      assert used == used + {k};
      Did(Stops(k), before);
    }

    // What the caller of `reconcile` does with an early return.
    method BeginReconcile(k: Token, t: TxId, p: Payment, purpose: Purpose) returns (report: Option<Content>)
      modifies this`calls, this`used, this`responses
      ensures View() == Reconcile(old(View()), k, t, p, purpose)
      ensures report.Some? ==> (t, report.value) in responses && k !in calls
      ensures report.None? ==> responses == old(responses)
    {
      used := used + {k};
      if Reconcilable(p) {
        calls := calls[k := Reconciling(t, p, purpose)];
        return None;
      }
      calls := calls - {k};
      report := None;
      if purpose.Release? { report := Some(purpose.report); }
      else if purpose.Retry? && p.status == Completed && p.report.Some? && p.settlement.Some? { report := p.report; }
      if report.Some? { responses := responses + {(t, report.value)}; }
    }

    // A call's last words.
    method Respond(k: Token, t: TxId, purpose: Purpose) returns (report: Option<Content>)
      modifies this`calls, this`used, this`responses
      ensures View() == Answer(old(View()), k, t, purpose)
      ensures report.Some? ==> (t, report.value) in responses
      ensures k !in calls && old(responses) <= responses
    {
      used := used + {k};
      calls := calls - {k};
      report := None;
      if purpose.Release? { report := Some(purpose.report); }
      else if purpose.Retry? && t in store.payments && store.payments[t].status != SettlementFailed
              && store.payments[t].report.Some? && store.payments[t].settlement.Some? { report := store.payments[t].report; }
      if report.Some? { responses := responses + {(t, report.value)}; }
    }

    /** The claim decides: this request owns the payment, or it is a retry of one under way. */
    method Open(k: Token, t: TxId, terms: Terms, expired: bool) returns (report: Option<Content>)
      requires Valid() && k !in used && k !in calls && terms.validUntil == cfg.expiry(t)
      requires t in store.payments ==> store.payments[t].leaseToken != Some(k)
      modifies this, store
      ensures Valid() && old(trace) <= trace && old(responses) <= responses && k in used
      ensures report.Some? ==> (t, report.value) in responses && k !in calls
      ensures k in calls ==> calls[k].t == t && (calls[k].Verifying? || (calls[k].Reconciling? && calls[k].purpose == Retry))
    {
      ghost var before := View();
      if expired && !StillTracked(View(), t, terms) {
        used := used + {k};
        calls := calls - {k};
        report := None;
      } else {
        report := TakeOrJoin(k, t, terms);
      }
      Did(Requests(k, t, terms, expired), before);
    }

    // The claim: a new or stale payment is taken, another call's is joined as a retry.
    method TakeOrJoin(k: Token, t: TxId, terms: Terms) returns (report: Option<Content>)
      requires k !in used && k !in calls && (t in store.payments ==> store.payments[t].leaseToken != Some(k))
      modifies this`calls, this`used, this`responses, store
      ensures View() == Request(old(View()), k, t, terms, false) && k in used && old(responses) <= responses
      ensures report.Some? ==> (t, report.value) in responses && k !in calls
      ensures k in calls ==> calls[k].t == t && (calls[k].Verifying? || (calls[k].Reconciling? && calls[k].purpose == Retry))
    {
      report := None;
      var ok, owned := store.Claim(t, terms, k, now);
      if !ok {
        used := used + {k};
        calls := calls - {k};
      } else if owned {
        used := used + {k};
        calls := calls[k := Verifying(t, store.payments[t].report)];
      } else {
        report := BeginReconcile(k, t, store.payments[t], Retry);
      }
    }

    /** Verified by the facilitator: the lease is extended before the scan. */
    method Verify(k: Token, x: Fortune) returns (ok: bool)
      requires Valid() && k in used && k in calls && calls[k].Verifying?
      modifies this, store
      ensures Valid() && old(trace) <= trace && k in used && old(responses) <= responses
      ensures if ok then k in calls && calls[k].t == old(calls)[k].t && (calls[k].Scanning? || calls[k].Reported?) else k !in calls
    {
      ok := Wait(k, x, 0);
      if !ok { return; }
      var c := calls[k];
      ghost var before := View();
      ok := store.RenewVerifiedPaymentLease(c.t, k, now);
      calls := if !ok then calls - {k} else calls[k := if c.seen.Some? then Reported(c.t, c.seen.value) else Scanning(c.t)];
      assert used == used + {k};
      Did(Verifies(k), before);
    }

    /** The scan's report is stored under the lease. */
    method Scan(k: Token, x: Fortune) returns (ok: bool)
      requires Valid() && k in used && k in calls && calls[k].Scanning?
      modifies this, store
      ensures Valid() && old(trace) <= trace && k in used && old(responses) <= responses
      ensures if ok then k in calls && calls[k].t == old(calls)[k].t && calls[k].Reported? else k !in calls
    {
      ok := Wait(k, x, 1);
      if !ok { return; }
      if x.scan.None? {
        Stop(k);
        return false;
      }
      var t := calls[k].t;
      ghost var before := View();
      ok := store.StoreReport(t, k, x.scan.value);
      calls := if ok then calls[k := Reported(t, x.scan.value)] else calls - {k};
      assert used == used + {k};
      Did(Scans(k, x.scan.value), before);
    }

    /** The attempt is recorded, which ends the lease, and only then the facilitator is asked. */
    method Ask(k: Token) returns (ok: bool)
      requires Valid() && k in used && k in calls && calls[k].Reported?
      modifies this, store
      ensures Valid() && old(trace) <= trace && k in used && responses == old(responses)
      ensures if ok then k in calls && calls[k] == Asked(old(calls)[k].t, old(calls)[k].report) else k !in calls
    {
      var t, report := calls[k].t, calls[k].report;
      ghost var before := View();
      ok := store.MarkSettlementAttempted(t, k);
      calls := if ok then calls[k := Asking(t, report)] else calls - {k};
      asker := if ok then asker[t := k] else asker;
      assert used == used + {k};
      Did(Marks(k), before);
      if !ok { return; }
      before := View();
      asks := asks + multiset{t};
      calls := calls[k := Asked(t, report)];
      Did(Asks(k), before);
    }

    /** The facilitator's answer: evidence to store, or an outcome to wait for. */
    method Settle(k: Token, x: Fortune) returns (ok: bool)
      requires Valid() && k in used && k in calls && calls[k].Asked?
      modifies this, store
      ensures Valid() && old(trace) <= trace && k in used && old(responses) <= responses
      ensures if ok then k in calls && calls[k].t == old(calls)[k].t && calls[k].Reconciling? else k !in calls
    {
      ok := Wait(k, x, 2);
      if !ok { return; }
      if x.settlement.None? {
        // A refusal later than the configuration allows does not come.
        if now <= cfg.expiry(calls[k].t) + cfg.handling { RefuseSettlement(k); } else { Stop(k); }
        return false;
      }
      ok := Accept(k, x.settlement.value);
    }

    method RefuseSettlement(k: Token)
      requires Valid() && k in used && k in calls && calls[k].Asked? && now <= cfg.expiry(calls[k].t) + cfg.handling
      modifies this, store
      ensures Valid() && old(trace) <= trace && used == old(used) && responses == old(responses) && k !in calls
    {
      var t := calls[k].t;
      ghost var before := View();
      var ok := store.RecordUnconfirmedSettlement(t, now, true);
      calls := calls - {k};
      assert used == used + {k};
      Did(Refuses(k), before);
    }

    method Accept(k: Token, e: Settlement) returns (ok: bool)
      requires Valid() && k in used && k in calls && calls[k].Asked?
      modifies this, store
      ensures Valid() && old(trace) <= trace && k in used && old(responses) <= responses
      ensures if ok then k in calls && calls[k].t == old(calls)[k].t && calls[k].Reconciling? else k !in calls
    {
      var t, report := calls[k].t, calls[k].report;
      ghost var before := View();
      ok := t in store.payments && ValidEvidence(store.payments[t], t, e);
      if ok { ok := store.StoreSettlement(t, e); }
      if ok {
        vouched := vouched + {t};
        var early := BeginReconcile(k, t, store.payments[t], Release(report));
      } else {
        calls := calls - {k};
        used := used + {k};
      }
      Did(Vouches(k, e), before);
      ok := k in calls;
    }

    /** `reconcile` from its confirmation on, then the answer. */
    method Confirm(k: Token, x: Fortune) returns (report: Option<Content>)
      requires Valid() && k in used && k in calls && calls[k].Reconciling?
      modifies this, store
      ensures Valid() && old(trace) <= trace && k !in calls && old(responses) <= responses
      ensures report.Some? ==> (old(calls)[k].t, report.value) in responses
    {
      report := None;
      var alive := Wait(k, x, 3);
      if !alive { return; }
      if x.sight.None? {
        Stop(k);
        return;
      }
      var c := calls[k];
      var sight := Truthful(cfg, View(), c.t, x.sight.value);
      ghost var before := View();
      calls := calls[k := Observed(c.t, c.row, c.purpose, sight, now)];
      assert used == used + {k};
      Did(Observes(k, sight), before);
      Elapse(k, x.others(4), Some(calls[k].at + cfg.latency));
      if sight.Seen? { report := Finish(k); } else { report := GiveWay(k); }
    }

    /** Nothing confirmed: the attempt is recorded, and the caller answers with what is stored. */
    method GiveWay(k: Token) returns (report: Option<Content>)
      requires Valid() && k in used && k in calls && calls[k].Observed? && !calls[k].sight.Seen? && now <= calls[k].at + cfg.latency
      modifies this, store
      ensures Valid() && old(trace) <= trace && k !in calls && old(responses) <= responses
      ensures report.Some? ==> (old(calls)[k].t, report.value) in responses
    {
      var c := calls[k];
      ghost var before := View();
      report := None;
      var ok := store.RecordUnconfirmedSettlement(c.t, now, c.sight.Unseen?);
      if ok && c.sight.Unseen? {
        report := Respond(k, c.t, c.purpose);
      } else {
        used := used + {k};
        calls := calls - {k};
      }
      Did(Resolves(k), before);
    }

    /** Confirmed: evidence, completion and callback job, then the answer. */
    method Finish(k: Token) returns (report: Option<Content>)
      requires Valid() && k in used && k in calls && calls[k].Observed? && calls[k].sight.Seen? && now <= calls[k].at + cfg.latency
      modifies this, store
      ensures Valid() && old(trace) <= trace && k !in calls && old(responses) <= responses
      ensures report.Some? ==> (old(calls)[k].t, report.value) in responses
    {
      var c := calls[k];
      ghost var before := View();
      var settledAt := c.sight.settledAt;
      calls := calls[k := if c.row.settlement.None? then Evidencing(c.t, c.row, c.purpose, settledAt) else Completing(c.t, c.purpose, settledAt)];
      assert used == used + {k};
      Did(Resolves(k), before);
      report := None;
      if c.row.settlement.None? {
        var ok := StoreSynthetic(k);
        if !ok { return; }
      }
      report := CompleteCall(k);
    }

    method StoreSynthetic(k: Token) returns (ok: bool)
      requires Valid() && k in used && k in calls && calls[k].Evidencing?
      modifies this, store
      ensures Valid() && old(trace) <= trace && k in used && responses == old(responses)
      ensures if ok then k in calls && calls[k].Completing? && calls[k].t == old(calls)[k].t else k !in calls
    {
      var c := calls[k];
      ghost var before := View();
      ok := store.StoreSettlement(c.t, Synthetic(c.row, c.t));
      calls := if ok then calls[k := Completing(c.t, c.purpose, c.settledAt)] else calls - {k};
      assert used == used + {k};
      Did(Evidences(k), before);
    }

    method CompleteCall(k: Token) returns (report: Option<Content>)
      requires Valid() && k in used && k in calls && calls[k].Completing?
      modifies this, store
      ensures Valid() && old(trace) <= trace && k !in calls && old(responses) <= responses
      ensures report.Some? ==> (old(calls)[k].t, report.value) in responses
    {
      var c := calls[k];
      ghost var before := View();
      report := None;
      var ok := c.t in store.payments && store.payments[c.t].report.Some?;
      if ok { ok := store.CompleteAndEnqueue(c.t, Body(store.payments[c.t].report.value, c.t, c.settledAt), now); }
      if ok {
        report := Respond(k, c.t, c.purpose);
      } else {
        used := used + {k};
        calls := calls - {k};
      }
      Did(Completes(k), before);
    }

    /** The owner's way: verify, scan unless a report is stored, record the attempt, ask, store the evidence. */
    method ScanAndSettle(k: Token, x: Fortune)
      requires Valid() && k in used && k in calls && calls[k].Verifying?
      modifies this, store
      ensures Valid() && old(trace) <= trace && k in used && old(responses) <= responses
      ensures k in calls ==> calls[k].Reconciling? && calls[k].t == old(calls)[k].t
    {
      var ok := Verify(k, x);
      if ok && calls[k].Scanning? { ok := Scan(k, x); }
      if ok { ok := Ask(k); }
      if ok { ok := Settle(k, x); }
    }

    /**
     One `/scan` request from claim to answer: a report is delivered only when the facilitator or
     the ledger stands for the settlement, and it is the report every other response delivers.
     */
    method Handle(k: Token, t: TxId, terms: Terms, expired: bool, x: Fortune) returns (report: Option<Content>)
      requires Valid() && k !in used && k !in calls && terms.validUntil == cfg.expiry(t)
      requires t in store.payments ==> store.payments[t].leaseToken != Some(k)
      modifies this, store
      ensures Valid() && old(trace) <= trace && k !in calls
      ensures report.Some? ==> (t in vouched || t in consensus) && forall c :: (t, c) in responses ==> c == report.value
      ensures asks[t] <= 1
    {
      report := Open(k, t, terms, expired);
      if k in calls && calls[k].Verifying? { ScanAndSettle(k, x); }
      if k in calls { report := Confirm(k, x); }
      AskedAtMostOnce(cfg, start, trace, t);
      if report.Some? {
        ResponsesAgree(cfg, start, trace, t, report.value, report.value);
        forall c | (t, c) in responses ensures c == report.value { ResponsesAgree(cfg, start, trace, t, c, report.value); }
      }
    }
  }
}
