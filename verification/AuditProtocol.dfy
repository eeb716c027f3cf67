/**
 Every interleaving of any number of `HcsAuditWriter` workers over one outbox and one HCS topic.

 A worker's `publish` call is cut at each statement that touches the database or the network, so
 another worker, the ledger, the clock or a crash can intervene between any two of them. A call
 is identified by the lease token it claimed with (a fresh UUID); `jobs` holds the calls in
 flight, and a crash simply forgets one. `armedBy` is history: which call recorded, for which
 transaction, that its bytes may have reached a node.
 */
module AuditProtocol {
  import opened Common
  import opened AuditOutbox
  import Ledger

  // `lag`: how long the Mirror Node may hide an executed transaction; `latency`: how long after the
  // Mirror Node's answer the worker may read its clock.
  datatype Config = Config(leaseMs: nat, grace: nat, lag: nat, latency: nat)

  datatype Local =
    | Claimed(job: Job)
    | GotPrepared(job: Job, p: Prepared)
    | Ready(job: Job, p: Prepared)
    | Marked(job: Job, p: Prepared)
    | Submitting(job: Job, p: Prepared)
    | Reconciling(job: Job, p: Prepared)
    | Heard(job: Job, p: Prepared, answer: Ledger.Answer, reconciled: bool, at: int)
    | Throwing(job: Job)

  // What a transaction carries: the envelope of an event. `builder` is history: the call that built it.
  datatype Message = Message(event: EventId, builder: Token)

  datatype State = State(
    rows: Table,
    jobs: map<Token, Local>,
    used: set<Token>,
    ledger: Ledger.State<Message>,
    armedBy: map<Ledger.TxId, Token>)

  function Init(now: int): State
  {
    State([], map[], {}, Ledger.State(now, map[], []), map[])
  }

  datatype Event =
    | Create(mission: nat, occurredAt: int)
    | Claim(token: Token)
    | Prepares(k: Token, t: Ledger.TxId, validUntil: int)
    | Saves(k: Token)
    | Marks(k: Token)
    | Submits(k: Token)
    | Answers(k: Token, a: Ledger.Answer)
    | Finishes(k: Token, delay: nat)
    | Rejects(k: Token)
    | Catches(k: Token, delay: nat)
    | Crash(k: Token)
    | Env(e: Ledger.Event)

  /** Where a call stands once the claim returned: stored bytes are reused, attempted ones reconciled. */
  function Start(job: Job): Local
  {
    if job.prepared.None? then Claimed(job) else AfterSave(job, job.prepared.value)
  }

  function AfterSave(job: Job, p: Prepared): Local
  {
    if job.submissionAttempted then Reconciling(job, p) else Ready(job, p)
  }

  function BackoffCap(attempts: nat): nat
  {
    Min(60_000, 1_000 * Pow2(Min(attempts, 16)))
  }

  function Pow2(n: nat): nat { if n == 0 then 1 else 2 * Pow2(n - 1) }

  /** max(1, floor(random * cap)) for a random number in [0, 1). */
  predicate MayDelay(attempts: nat, delay: nat)
  {
    1 <= delay && (delay < BackoffCap(attempts) || delay == 1)
  }

  // What the worker does with an answer, by its own clock.
  datatype Verdict = Publish(seqNo: nat) | Reschedule(resetPrepared: bool)

  function Judge(cfg: Config, l: Local, now: int): Verdict
    requires l.Heard?
  {
    match l.answer
    case Confirmed(n) => Publish(n)
    case Failed => Reschedule(true)
    case Uncertain => Reschedule(l.reconciled && now >= l.p.validUntil + cfg.grace)
  }

  predicate Enabled(cfg: Config, s: State, e: Event)
  {
    match e
    case Create(_, _) => true
    case Claim(k) => k !in s.used
    case Prepares(k, t, _) => k in s.jobs && s.jobs[k].Claimed? && Ledger.Fresh(s.ledger, t)
    case Saves(k) => k in s.jobs && s.jobs[k].GotPrepared?
    case Marks(k) => k in s.jobs && s.jobs[k].Ready?
    case Submits(k) => k in s.jobs && s.jobs[k].Marked? && s.jobs[k].p.txId in s.ledger.txs
    case Answers(k, a) =>
      k in s.jobs &&
      (match s.jobs[k]
       case Submitting(_, p) => Ledger.NodeMayAnswer(s.ledger, p.txId, a)
       case Reconciling(_, p) => Ledger.MirrorMayAnswer(s.ledger, p.txId, a, cfg.lag)
       case _ => false)
    case Finishes(k, delay) =>
      k in s.jobs && s.jobs[k].Heard? && MayDelay(s.jobs[k].job.attempts, delay)
      && (s.jobs[k].reconciled ==> s.ledger.now <= s.jobs[k].at + cfg.latency)
    case Rejects(k) => k in s.jobs && (s.jobs[k].Claimed? || s.jobs[k].Submitting? || s.jobs[k].Reconciling?)
    case Catches(k, delay) => k in s.jobs && s.jobs[k].Throwing? && MayDelay(s.jobs[k].job.attempts, delay)
    case Crash(k) => k in s.jobs
    case Env(le) => Ledger.Enabled(s.ledger, le)
  }

  function At(s: State, k: Token, l: Local): State { s.(jobs := s.jobs[k := l]) }

  function Gone(s: State, k: Token): State { s.(jobs := s.jobs - {k}) }

  /** A fenced write either lands and the call moves on, or throws. */
  function Write(s: State, k: Token, written: Option<Table>, next: State): State
    requires k in s.jobs
  {
    if written.Some? then next.(rows := written.value) else At(s, k, Throwing(s.jobs[k].job))
  }

  /** The step an event takes; one that is not enabled changes nothing. */
  function Next(cfg: Config, s: State, e: Event): State
  {
    if !Enabled(cfg, s, e) then s
    else
      match e
      case Create(m, at) => s.(rows := s.rows + [NewRow(m, at)])
      case Claim(k) =>
        var job := ClaimedJob(s.rows, s.ledger.now, k);
        var s1 := s.(used := s.used + {k}, rows := ClaimedTable(s.rows, s.ledger.now, cfg.leaseMs, k));
        if job.Some? then At(s1, k, Start(job.value)) else s1
      case Prepares(k, t, validUntil) =>
        var job := s.jobs[k].job;
        At(s.(ledger := Ledger.Register(s.ledger, t, Message(job.event, k), validUntil)), k, GotPrepared(job, Prepared(t, validUntil)))
      case Saves(k) =>
        var l := s.jobs[k];
        Write(s, k, WithPrepared(s.rows, l.job.event, k, l.p), At(s, k, AfterSave(l.job, l.p)))
      case Marks(k) =>
        var l := s.jobs[k];
        Write(s, k, WithAttempt(s.rows, l.job.event, k),
              At(s.(armedBy := s.armedBy[l.p.txId := k]), k, Marked(l.job, l.p)))
      case Submits(k) =>
        var l := s.jobs[k];
        At(s.(ledger := Ledger.Send(s.ledger, l.p.txId)), k, Submitting(l.job, l.p))
      case Answers(k, a) =>
        var l := s.jobs[k];
        At(s, k, Heard(l.job, l.p, a, l.Reconciling?, s.ledger.now))
      case Finishes(k, delay) =>
        var l := s.jobs[k];
        (match Judge(cfg, l, s.ledger.now)
         case Publish(n) => Write(s, k, WithPublication(s.rows, l.job.event, k, l.p.txId, n), Gone(s, k))
         case Reschedule(reset) =>
           Write(s, k, WithRetry(s.rows, l.job.event, k, s.ledger.now + delay, reset), Gone(s, k)))
      case Rejects(k) => At(s, k, Throwing(s.jobs[k].job))
      case Catches(k, delay) =>
        var written := WithRetry(s.rows, s.jobs[k].job.event, k, s.ledger.now + delay, false);
        Gone(if written.Some? then s.(rows := written.value) else s, k)
      case Crash(k) => Gone(s, k)
      case Env(le) => s.(ledger := Ledger.Next(s.ledger, le))
  }

  // --- runs --------------------------------------------------------------------------------------------

  ghost predicate ValidRun(cfg: Config, s: State, es: seq<Event>)
    decreases |es|
  {
    es == [] || (Enabled(cfg, s, es[0]) && ValidRun(cfg, Next(cfg, s, es[0]), es[1..]))
  }

  ghost function After(cfg: Config, s: State, es: seq<Event>): State
    decreases |es|
  {
    if es == [] then s else After(cfg, Next(cfg, s, es[0]), es[1..])
  }

  lemma {:induction false} RunExtends(cfg: Config, s: State, es: seq<Event>, e: Event)
    requires ValidRun(cfg, s, es) && Enabled(cfg, After(cfg, s, es), e)
    ensures ValidRun(cfg, s, es + [e])
    ensures After(cfg, s, es + [e]) == Next(cfg, After(cfg, s, es), e)
    decreases |es|
  {
    if es == [] {
      assert [e][1..] == [];
    } else {
      assert (es + [e])[1..] == es[1..] + [e];
      RunExtends(cfg, Next(cfg, s, es[0]), es[1..], e);
    }
  }
}
