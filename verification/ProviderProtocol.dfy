/**
 Every run of the provider's `/scan` handler, its settlement reconciler and its callback
 dispatcher. A call is named by the random token it draws; between two of its events any other
 call may run, and `Stops` ends it anywhere (an error or a crash). History variables: `asker` (who
 recorded the attempt to settle), `asks` (settle requests made), `vouched` (settlements the
 facilitator confirmed) and `responses`.
 */
module ProviderProtocol {
  import opened Common
  import opened ProviderTables

  // `lag`: how long the Mirror Node may hide an executed transaction; `latency`: how long after its
  // answer the clock is read; `handling`: how long after a transaction's validity ended its refusal by
  // the facilitator may still be handled; `expiry`: the end of a signed transaction's validity.
  datatype Config = Config(lag: nat, latency: nat, handling: nat, expiry: TxId -> int)

  // What the reconciler is for: a first response, a retried request, or the background worker.
  datatype Purpose = Release(report: Content) | Retry | Background

  datatype Sight = Seen(settledAt: int) | Unseen | Mismatch

  datatype Call =
    | Verifying(t: TxId, seen: Option<Content>)
    | Scanning(t: TxId)
    | Reported(t: TxId, report: Content)
    | Asking(t: TxId, report: Content)
    | Asked(t: TxId, report: Content)
    | Reconciling(t: TxId, row: Payment, purpose: Purpose)
    | Observed(t: TxId, row: Payment, purpose: Purpose, sight: Sight, at: int)
    | Evidencing(t: TxId, row: Payment, purpose: Purpose, settledAt: int)
    | Completing(t: TxId, purpose: Purpose, settledAt: int)

  datatype State = State(
    now: int,
    payments: Payments,
    jobs: Jobs,
    calls: map<Token, Call>,
    tickets: map<Token, Ticket>,
    used: set<Token>,
    consensus: map<TxId, int>,
    asker: map<TxId, Token>,
    asks: multiset<TxId>,
    vouched: set<TxId>,
    responses: set<(TxId, Content)>)

  function Init(now: int): State
  {
    State(now, map[], [], map[], map[], {}, map[], map[], multiset{}, {}, {})
  }

  datatype Event =
    | Requests(k: Token, t: TxId, terms: Terms, expired: bool)
    | Works(k: Token, t: TxId)
    | Verifies(k: Token)
    | Scans(k: Token, report: Content)
    | Marks(k: Token)
    | Asks(k: Token)
    | Refuses(k: Token)
    | Vouches(k: Token, evidence: Settlement)
    | Observes(k: Token, sight: Sight)
    | Resolves(k: Token)
    | Evidences(k: Token)
    | Completes(k: Token)
    | Stops(k: Token)
    | TakesJob(k: Token)
    | Delivers(k: Token)
    | Repairs(k: Token)
    | Postpones(k: Token, at: int)
    | Replays(key: Content)
    | Executes(t: TxId)
    | Passes(ms: nat)

  predicate MaySee(cfg: Config, s: State, t: TxId, sight: Sight)
  {
    match sight
    case Seen(at) => t in s.consensus && s.consensus[t] == at
    case Unseen => t in s.consensus ==> s.now < s.consensus[t] + cfg.lag
    case Mismatch => true
  }

  predicate Reconcilable(p: Payment)
  {
    p.status != Completed && p.status != SettlementFailed && p.attempted && p.report.Some?
  }

  predicate Enabled(cfg: Config, s: State, e: Event)
  {
    match e
    case Requests(k, t, terms, _) => k !in s.used && terms.validUntil == cfg.expiry(t)
    case Works(k, t) => k !in s.used && t in s.payments && Reconcilable(s.payments[t])
    case Verifies(k) => k in s.calls && s.calls[k].Verifying?
    case Scans(k, _) => k in s.calls && s.calls[k].Scanning?
    case Marks(k) => k in s.calls && s.calls[k].Reported?
    case Asks(k) => k in s.calls && s.calls[k].Asking?
    case Refuses(k) => k in s.calls && s.calls[k].Asked? && s.now <= cfg.expiry(s.calls[k].t) + cfg.handling
    case Vouches(k, _) => k in s.calls && s.calls[k].Asked?
    case Observes(k, sight) => k in s.calls && s.calls[k].Reconciling? && MaySee(cfg, s, s.calls[k].t, sight)
    case Resolves(k) => k in s.calls && s.calls[k].Observed? && s.now <= s.calls[k].at + cfg.latency
    case Evidences(k) => k in s.calls && s.calls[k].Evidencing?
    case Completes(k) => k in s.calls && s.calls[k].Completing?
    case Stops(k) => k in s.calls
    case TakesJob(k) => k !in s.used
    case Delivers(k) => k in s.tickets
    case Repairs(k) => k in s.tickets
    case Postpones(k, _) => k in s.tickets
    case Replays(_) => true
    case Executes(t) => t !in s.consensus && s.now <= cfg.expiry(t)
    case Passes(_) => true
  }

  function At(s: State, k: Token, c: Call): State { s.(calls := s.calls[k := c], used := s.used + {k}) }

  function Ended(s: State, k: Token): State { s.(calls := s.calls - {k}, used := s.used + {k}) }

  function Responded(s: State, k: Token, t: TxId, report: Content): State
  {
    Ended(s, k).(responses := s.responses + {(t, report)})
  }

  // Installs a store write, after which the call stands at `c`; a write that throws ends the call.
  function Wrote(s: State, k: Token, outcome: Result<Payments>, c: Call): State
  {
    match outcome
    case Err(_) => Ended(s, k)
    case Ok(payments) => At(s.(payments := payments), k, c)
  }

  /** `reconcile` up to its confirmation, on the row as the caller read it, then what the caller does with an early return. */
  function Reconcile(s: State, k: Token, t: TxId, p: Payment, purpose: Purpose): State
  {
    if Reconcilable(p) then At(s, k, Reconciling(t, p, purpose))
    else if purpose.Release? then Responded(s, k, t, purpose.report)
    else if purpose.Retry? && p.status == Completed && p.report.Some? && p.settlement.Some?
    then Responded(s, k, t, p.report.value)
    else Ended(s, k)
  }

  // An expired authorization only reaches the claim when its payment was attempted and not given up.
  predicate StillTracked(s: State, t: TxId, terms: Terms)
  {
    t in s.payments && s.payments[t].terms.fingerprint == terms.fingerprint
    && s.payments[t].attempted && s.payments[t].status != SettlementFailed
  }

  function Request(s: State, k: Token, t: TxId, terms: Terms, expired: bool): State
  {
    if expired && !StillTracked(s, t, terms) then Ended(s, k)
    else
      match ClaimPayment(s.payments, t, terms, k, s.now)
      case Err(_) => Ended(s, k)
      case Ok(ps) =>
        if Owns(ps, t, k) then At(s.(payments := ps), k, Verifying(t, ps[t].report))
        else if t in ps then Reconcile(s.(payments := ps), k, t, ps[t], Retry)
        else Ended(s, k)
  }

  /** A call's last words: the stored report when there is evidence of settlement. */
  function Answer(s: State, k: Token, t: TxId, purpose: Purpose): State
  {
    if purpose.Release? then Responded(s, k, t, purpose.report)
    else if purpose.Retry? && t in s.payments && s.payments[t].status != SettlementFailed
            && s.payments[t].report.Some? && s.payments[t].settlement.Some?
    then Responded(s, k, t, s.payments[t].report.value)
    else Ended(s, k)
  }

  function Resolve(s: State, k: Token): State
    requires k in s.calls && s.calls[k].Observed?
  {
    var c := s.calls[k];
    match c.sight
    case Seen(at) =>
      At(s, k, if c.row.settlement.None? then Evidencing(c.t, c.row, c.purpose, at) else Completing(c.t, c.purpose, at))
    case Unseen =>
      (match RecordUnconfirmed(s.payments, c.t, s.now, true)
       case Err(_) => Ended(s, k)
       case Ok(ps) => Answer(s.(payments := ps), k, c.t, c.purpose))
    case Mismatch =>
      (match RecordUnconfirmed(s.payments, c.t, s.now, false)
       case Err(_) => Ended(s, k)
       case Ok(ps) => Ended(s.(payments := ps), k))
  }

  function Finalise(s: State, k: Token): State
    requires k in s.calls && s.calls[k].Completing?
  {
    var c := s.calls[k];
    if c.t !in s.payments || s.payments[c.t].report.None? then Ended(s, k)
    else
      match Complete(Tables(s.payments, s.jobs), c.t, Body(s.payments[c.t].report.value, c.t, c.settledAt), s.now)
      case Err(_) => Ended(s, k)
      case Ok(d) => Answer(s.(payments := d.payments, jobs := d.jobs), k, c.t, c.purpose)
  }

  // The facilitator did not confirm: recorded without looking at the ledger.
  function Refuse(s: State, k: Token): State
    requires k in s.calls && s.calls[k].Asked?
  {
    var t := s.calls[k].t;
    match RecordUnconfirmed(s.payments, t, s.now, true)
    case Err(_) => Ended(s, k)
    case Ok(ps) => Ended(s.(payments := ps), k)
  }

  function Vouch(s: State, k: Token, e: Settlement): State
    requires k in s.calls && s.calls[k].Asked?
  {
    var c := s.calls[k];
    if c.t !in s.payments || !ValidEvidence(s.payments[c.t], c.t, e) then Ended(s, k)
    else
      match SaveSettlement(s.payments, c.t, e)
      case Err(_) => Ended(s, k)
      case Ok(ps) => Reconcile(s.(payments := ps, vouched := s.vouched + {c.t}), k, c.t, ps[c.t], Release(c.report))
  }

  function JobStep(s: State, k: Token, outcome: Result<Jobs>): State
  {
    s.(jobs := if outcome.Ok? then outcome.value else s.jobs, tickets := s.tickets - {k})
  }

  /** The step an event takes; one that is not enabled changes nothing. */
  function Next(cfg: Config, s: State, e: Event): State
  {
    if !Enabled(cfg, s, e) then s
    else
      match e
      case Requests(k, t, terms, expired) => Request(s, k, t, terms, expired)
      case Works(k, t) => At(s, k, Reconciling(t, s.payments[t], Background))
      case Verifies(k) =>
        var c := s.calls[k];
        Wrote(s, k, RenewLease(s.payments, c.t, k, s.now), if c.seen.Some? then Reported(c.t, c.seen.value) else Scanning(c.t))
      case Scans(k, report) =>
        Wrote(s, k, SaveReport(s.payments, s.calls[k].t, k, report), Reported(s.calls[k].t, report))
      case Marks(k) =>
        var c := s.calls[k];
        (match MarkAttempted(s.payments, c.t, k)
         case Err(_) => Ended(s, k)
         case Ok(ps) => At(s.(payments := ps, asker := s.asker[c.t := k]), k, Asking(c.t, c.report)))
      case Asks(k) => At(s.(asks := s.asks + multiset{s.calls[k].t}), k, Asked(s.calls[k].t, s.calls[k].report))
      case Refuses(k) => Refuse(s, k)
      case Vouches(k, e) => Vouch(s, k, e)
      case Observes(k, sight) => At(s, k, Observed(s.calls[k].t, s.calls[k].row, s.calls[k].purpose, sight, s.now))
      case Resolves(k) => Resolve(s, k)
      case Evidences(k) =>
        var c := s.calls[k];
        Wrote(s, k, SaveSettlement(s.payments, c.t, Synthetic(c.row, c.t)), Completing(c.t, c.purpose, c.settledAt))
      case Completes(k) => Finalise(s, k)
      case Stops(k) => Ended(s, k)
      case TakesJob(k) =>
        var ticket := TicketOf(s.jobs, k, s.now);
        s.(jobs := ClaimedJobs(s.jobs, k, s.now), used := s.used + {k},
           tickets := if ticket.Some? then s.tickets[k := ticket.value] else s.tickets)
      case Delivers(k) => JobStep(s, k, Deliver(s.jobs, s.tickets[k]))
      case Repairs(k) => JobStep(s, k, MarkForRepair(s.jobs, s.tickets[k]))
      case Postpones(k, at) => JobStep(s, k, RetryJob(s.jobs, s.tickets[k], at))
      case Replays(key) => s.(jobs := ReplayJob(s.jobs, key, s.now))
      case Executes(t) => s.(consensus := s.consensus[t := s.now])
      case Passes(ms) => s.(now := s.now + ms)
  }

  ghost predicate ValidRun(cfg: Config, s: State, es: seq<Event>)
    decreases |es|
  {
    es == [] || (Enabled(cfg, s, es[0]) && ValidRun(cfg, Next(cfg, s, es[0]), es[1..]))
  }

  ghost function After(cfg: Config, s: State, es: seq<Event>): State
    decreases |es|
  {
    if es == [] then s else After(cfg, Next(cfg, s, es[0]), es[1..])
  }

  lemma {:induction false} RunExtends(cfg: Config, s: State, es: seq<Event>, e: Event)
    requires ValidRun(cfg, s, es) && Enabled(cfg, After(cfg, s, es), e)
    ensures ValidRun(cfg, s, es + [e]) && After(cfg, s, es + [e]) == Next(cfg, After(cfg, s, es), e)
    decreases |es|
  {
    if es == [] {
      assert [e][1..] == [] && ([] + [e]) == [e];
    } else {
      RunExtends(cfg, Next(cfg, s, es[0]), es[1..], e);
      assert (es + [e])[1..] == es[1..] + [e];
    }
  }
}
