/**
 `HcsAuditWriter` statement by statement. What other workers, the ledger and the clock do while
 this one waits is a list of protocol events it is given; whatever that list is, the statements
 below are steps of the protocol, so everything proved about its runs holds of this code.
 */
module AuditWriter {
  import opened Common
  import opened AuditOutbox
  import opened AuditProtocol
  import opened AuditSafety
  import Ledger

  // How the world treats one `publish` call: what happens during its n-th wait, whether the process
  // dies there, and what the publisher and the random generator return. None is a rejection.
  datatype Fortune = Fortune(
    others: nat -> seq<Event>,
    dies: nat -> bool,
    prepared: Option<Prepared>,
    answer: Option<Ledger.Answer>,
    jitter: nat)

  // The call an event belongs to.
  predicate About(e: Event, k: Token)
  {
    match e
    case Prepares(j, _, _) => j == k
    case Saves(j) => j == k
    case Marks(j) => j == k
    case Submits(j) => j == k
    case Answers(j, _) => j == k
    case Finishes(j, _) => j == k
    case Rejects(j) => j == k
    case Catches(j, _) => j == k
    case Crash(j) => j == k
    case _ => false
  }

  lemma OthersLeaveCallAlone(cfg: Config, s: State, e: Event, k: Token)
    requires Enabled(cfg, s, e) && !About(e, k) && k in s.used
    ensures var s' := Next(cfg, s, e);
            k in s'.used && (k in s.jobs <==> k in s'.jobs) && (k in s.jobs ==> s'.jobs[k] == s.jobs[k])
            && s.ledger.txs.Keys <= s'.ledger.txs.Keys
  {
  }

  // What the ledger or the node says when it is expected to say `a`: never anything untrue.
  function Truthful(l: Ledger.State<Message>, t: Ledger.TxId, a: Ledger.Answer, lag: nat): (r: Ledger.Answer)
    requires t in l.txs
    ensures Ledger.MirrorMayAnswer(l, t, r, lag)
    ensures Ledger.MirrorMayAnswer(l, t, a, lag) ==> r == a
  {
    if Ledger.MirrorMayAnswer(l, t, a, lag) then a
    else if l.txs[t].fate.Executed? then Ledger.Confirmed(l.txs[t].fate.seqNo)
    else Ledger.Uncertain
  }

  function TruthfulNode(l: Ledger.State<Message>, t: Ledger.TxId, a: Ledger.Answer): (r: Ledger.Answer)
    requires t in l.txs
    ensures Ledger.NodeMayAnswer(l, t, r)
    ensures Ledger.NodeMayAnswer(l, t, a) ==> r == a
  {
    if Ledger.NodeMayAnswer(l, t, a) then a else Ledger.Uncertain
  }

  lemma ClaimedBytesAreKnown(cfg: Config, start: int, es: seq<Event>, k: Token)
    requires ValidRun(cfg, Init(start), es)
    requires var s := After(cfg, Init(start), es);
             k in s.jobs && s.jobs[k] == Start(s.jobs[k].job) && HoldsLease(s.rows, s.jobs[k].job.event, k)
    ensures var s := After(cfg, Init(start), es);
            var job := s.jobs[k].job;
            job.token == k && (job.prepared.Some? ==> job.prepared.value.txId in s.ledger.txs)
  {
    InitOk(cfg, start);
    RunKeepsInv(cfg, Init(start), es);
    var s := After(cfg, Init(start), es);
    assert JobOk(cfg, s, k) && RowOk(s, s.jobs[k].job.event);
  }

  lemma CapIsPositive(attempts: nat)
    ensures BackoffCap(attempts) > 0
  {
    Pow2IsPositive(Min(attempts, 16));
  }

  lemma {:induction false} Pow2IsPositive(n: nat)
    ensures Pow2(n) > 0
  {
    if n > 0 { Pow2IsPositive(n - 1); }
  }

  lemma OneIsADelay(attempts: nat)
    ensures MayDelay(attempts, 1)
  {
  }

  // The a-th and the b-th message of the topic are of different events, and of one mission only in its order.
  predicate OnceAndInOrder(s: State, a: nat, b: nat)
    requires a < b < |s.ledger.log|
  {
    var t, u := s.ledger.log[a], s.ledger.log[b];
    t in s.ledger.txs && u in s.ledger.txs &&
    var x, y := s.ledger.txs[t].payload.event, s.ledger.txs[u].payload.event;
    x < |s.rows| && y < |s.rows| && x != y && (s.rows[x].mission == s.rows[y].mission ==> x < y)
  }

  class HcsAuditWriter {
    const cfg: Config
    const start: int
    const store: SqliteAuditOutbox
    var jobs: map<Token, Local>
    var used: set<Token>
    var ledger: Ledger.State<Message>
    var armedBy: map<Ledger.TxId, Token>
    ghost var trace: seq<Event>

    function View(): State
      reads this, store
    {
      State(store.rows, jobs, used, ledger, armedBy)
    }

    ghost predicate ReachedBy(es: seq<Event>, s: State)
    {
      ValidRun(cfg, Init(start), es) && After(cfg, Init(start), es) == s
    }

    /** The world is where the protocol can take it. */
    ghost predicate Valid()
      reads this, store
    {
      ReachedBy(trace, View()) && store.Mirrored()
    }

    constructor (cfg: Config, start: int)
      ensures Valid() && this.cfg == cfg && this.start == start && trace == [] && View() == Init(start)
      ensures fresh(store)
    {
      this.cfg, this.start := cfg, start;
      var outbox := new SqliteAuditOutbox();
      store := outbox;
      jobs, used, ledger, armedBy := map[], {}, Ledger.State(start, map[], []), map[];
      trace := [];
    }

    // The statements just executed were this protocol step.
    ghost method Did(e: Event, before: State)
      requires ReachedBy(trace, before) && Enabled(cfg, before, e) && View() == Next(cfg, before, e) && store.Mirrored()
      modifies this`trace
      ensures trace == old(trace) + [e] && Valid()
    {
      RunExtends(cfg, Init(start), trace, e);
      trace := trace + [e];
    }

    /** Others run: every event of the list that is possible then, and is not call k's, up to a point in time. */
    method Elapse(k: Token, others: seq<Event>, until: Option<int>)
      requires Valid() && k in used && (until.Some? ==> ledger.now <= until.value)
      modifies this, store
      ensures Valid() && k in used && old(trace) <= trace
      ensures (k in jobs <==> k in old(jobs)) && (k in jobs ==> jobs[k] == old(jobs)[k])
      ensures old(ledger).txs.Keys <= ledger.txs.Keys && (until.Some? ==> ledger.now <= until.value)
    {
      for i := 0 to |others|
        invariant Valid() && k in used && old(trace) <= trace
        invariant (k in jobs <==> k in old(jobs)) && (k in jobs ==> jobs[k] == old(jobs)[k])
        invariant old(ledger).txs.Keys <= ledger.txs.Keys && (until.Some? ==> ledger.now <= until.value)
      {
        var e := others[i];
        if Enabled(cfg, View(), e) && !About(e, k) {
          var s' := Next(cfg, View(), e);
          if until.None? || s'.ledger.now <= until.value {
            ghost var before := View();
            OthersLeaveCallAlone(cfg, before, e, k);
            store.rows, store.events := s'.rows, PublicationsOf(s'.rows);
            jobs, used, ledger, armedBy := s'.jobs, s'.used, s'.ledger, s'.armedBy;
            Did(e, before);
          }
        }
      }
    }

    /** One `await`: others run, and the process may not come back. */
    method Wait(k: Token, x: Fortune, n: nat) returns (alive: bool)
      requires Valid() && k in used && k in jobs
      modifies this, store
      ensures Valid() && k in used && old(trace) <= trace && old(ledger).txs.Keys <= ledger.txs.Keys
      ensures if alive then k in jobs && jobs[k] == old(jobs)[k] else k !in jobs
    {
      Elapse(k, x.others(n), None);
      alive := !x.dies(n);
      if !alive {
        ghost var before := View();
        jobs := jobs - {k};
        Did(Crash(k), before);
      }
    }

    /** `retry` with full jitter; false when the lease was lost. */
    method Retry(job: Job, jitter: nat, resetPrepared: bool) returns (ok: bool, delay: nat)
      modifies store
      ensures old(store.Mirrored()) ==> store.Mirrored()
      ensures MayDelay(job.attempts, delay)
      ensures ok == WithRetry(old(store.rows), job.event, job.token, ledger.now + delay, resetPrepared).Some?
      ensures store.rows == if ok then WithRetry(old(store.rows), job.event, job.token, ledger.now + delay, resetPrepared).value
                            else old(store.rows)
    {
      var cap := BackoffCap(job.attempts);
      CapIsPositive(job.attempts);
      delay := Max(1, jitter % cap);
      ok := store.Retry(job, ledger.now + delay, resetPrepared);
    }

    /** The `catch` block. */
    method Catch(k: Token, x: Fortune)
      requires Valid() && k in jobs && jobs[k].Throwing? && jobs[k].job.token == k
      modifies this, store
      ensures Valid() && old(trace) <= trace && k !in jobs && used == old(used)
    {
      ghost var before := View();
      var ok, delay := Retry(jobs[k].job, x.jitter, false);
      jobs := jobs - {k};
      Did(Catches(k, delay), before);
    }

    /** The publisher rejected: on to the `catch` block. */
    method Reject(k: Token, x: Fortune)
      requires Valid() && k in jobs && (jobs[k].Claimed? || jobs[k].Submitting? || jobs[k].Reconciling?) && jobs[k].job.token == k
      modifies this, store
      ensures Valid() && old(trace) <= trace && k !in jobs && used == old(used)
    {
      ghost var before := View();
      jobs := jobs[k := Throwing(jobs[k].job)];
      Did(Rejects(k), before);
      Catch(k, x);
    }

    // What a verdict writes, None when the lease was lost.
    function Written(rows: Table, c: Local, verdict: Verdict, at: int): Option<Table>
      requires c.Heard?
    {
      match verdict
      case Publish(n) => WithPublication(rows, c.job.event, c.job.token, c.p.txId, n)
      case Reschedule(reset) => WithRetry(rows, c.job.event, c.job.token, at, reset)
    }

    /** A confirmed message is published; one looked up in vain is kept within the grace and dropped after it. */
    method Decide(c: Local, x: Fortune) returns (ok: bool, delay: nat)
      requires c.Heard? && store.Mirrored()
      modifies store
      ensures store.Mirrored()
      ensures MayDelay(c.job.attempts, delay)
      ensures var written := Written(old(store.rows), c, Judge(cfg, c, ledger.now), ledger.now + delay);
              ok == written.Some? && store.rows == if ok then written.value else old(store.rows)
    {
      if c.answer.Confirmed? {
        OneIsADelay(c.job.attempts);
        ok := store.MarkPublished(c.job, c.p.txId, c.answer.seqNo);
        return ok, 1;
      }
      if c.reconciled && c.answer.Uncertain? && ledger.now < c.p.validUntil + cfg.grace {
        ok, delay := Retry(c.job, x.jitter, false);
        return;
      }
      if c.reconciled {
        ok, delay := Retry(c.job, x.jitter, true);
        return;
      }
      ok, delay := Retry(c.job, x.jitter, c.answer.Failed?);
    }

    /** The call acts on its answer and ends, by way of the `catch` block if its lease was lost. */
    method Conclude(k: Token, x: Fortune)
      requires Valid() && k in jobs && jobs[k].Heard? && jobs[k].job.token == k
      requires jobs[k].reconciled ==> ledger.now <= jobs[k].at + cfg.latency
      modifies this, store
      ensures Valid() && old(trace) <= trace && k !in jobs && used == old(used)
    {
      ghost var before := View();
      var c := jobs[k];
      var ok, delay := Decide(c, x);
      jobs := if ok then jobs - {k} else jobs[k := Throwing(c.job)];
      assert View() == Next(cfg, before, Finishes(k, delay));
      Did(Finishes(k, delay), before);
      if !ok { Catch(k, x); }
    }

    /** Attempted bytes are looked up, never sent again. */
    method Reconcile(k: Token, x: Fortune)
      requires Valid() && k in jobs && k in used && jobs[k].Reconciling? && jobs[k].job.token == k && jobs[k].p.txId in ledger.txs
      modifies this, store
      ensures Valid() && old(trace) <= trace && k !in jobs && k in used
    {
      var alive := Wait(k, x, 2);
      if !alive { return; }
      if x.answer.None? {
        Reject(k, x);
        return;
      }
      var a := Truthful(ledger, jobs[k].p.txId, x.answer.value, cfg.lag);
      ghost var before := View();
      jobs := jobs[k := Heard(jobs[k].job, jobs[k].p, a, true, ledger.now)];
      Did(Answers(k, a), before);
      Elapse(k, x.others(3), Some(jobs[k].at + cfg.latency));
      Conclude(k, x);
    }

    /** The attempt is recorded before the bytes leave; false when the lease was lost. */
    method MarkAttempted(k: Token) returns (ok: bool)
      requires Valid() && k in jobs && k in used && jobs[k].Ready? && jobs[k].job.token == k
      modifies this, store
      ensures Valid() && old(trace) <= trace && k in jobs && k in used && ledger == old(ledger)
      ensures jobs[k] == if ok then Marked(old(jobs)[k].job, old(jobs)[k].p) else Throwing(old(jobs)[k].job)
    {
      var c := jobs[k];
      ghost var before := View();
      ok := store.MarkSubmissionAttempted(c.job);
      jobs := jobs[k := if ok then Marked(c.job, c.p) else Throwing(c.job)];
      armedBy := if ok then armedBy[c.p.txId := k] else armedBy;
      Did(Marks(k), before);
    }

    method Send(k: Token)
      requires Valid() && k in jobs && k in used && jobs[k].Marked? && jobs[k].p.txId in ledger.txs
      modifies this
      ensures Valid() && old(trace) <= trace && k in jobs && k in used && old(jobs)[k].p.txId in ledger.txs
      ensures jobs[k] == Submitting(old(jobs)[k].job, old(jobs)[k].p)
    {
      var c := jobs[k];
      ghost var before := View();
      ledger := Ledger.Send(ledger, c.p.txId);
      jobs := jobs[k := Submitting(c.job, c.p)];
      Did(Submits(k), before);
    }

    /** Fresh bytes go out once. */
    method Submit(k: Token, x: Fortune)
      requires Valid() && k in jobs && k in used && jobs[k].Ready? && jobs[k].job.token == k && jobs[k].p.txId in ledger.txs
      modifies this, store
      ensures Valid() && old(trace) <= trace && k !in jobs && k in used
    {
      var c := jobs[k];
      var ok := MarkAttempted(k);
      if !ok {
        Catch(k, x);
        return;
      }
      Send(k);
      var alive := Wait(k, x, 4);
      if !alive { return; }
      if x.answer.None? {
        Reject(k, x);
        return;
      }
      var a := TruthfulNode(ledger, c.p.txId, x.answer.value);
      ghost var before := View();
      jobs := jobs[k := Heard(c.job, c.p, a, false, ledger.now)];
      Did(Answers(k, a), before);
      Elapse(k, x.others(5), None);
      Conclude(k, x);
    }

    /** `publish`: bytes are built and stored unless the row has some; then looked up or sent. */
    method PublishJob(job: Job, x: Fortune)
      requires Valid() && job.token in jobs && job.token in used && jobs[job.token] == Start(job)
      requires job.prepared.Some? ==> job.prepared.value.txId in ledger.txs
      modifies this, store
      ensures Valid() && old(trace) <= trace && job.token !in jobs && job.token in used
    {
      var k := job.token;
      if job.prepared.None? {
        var alive := Wait(k, x, 0);
        if !alive { return; }
        if x.prepared.None? || !Ledger.Fresh(ledger, x.prepared.value.txId) {
          Reject(k, x);
          return;
        }
        var p := x.prepared.value;
        ghost var before := View();
        ledger := Ledger.Register(ledger, p.txId, Message(job.event, k), p.validUntil);
        jobs := jobs[k := GotPrepared(job, p)];
        Did(Prepares(k, p.txId, p.validUntil), before);
        alive := Wait(k, x, 1);
        if !alive { return; }
        before := View();
        var ok := store.SavePrepared(job, p);
        jobs := jobs[k := if ok then AfterSave(job, p) else Throwing(job)];
        Did(Saves(k), before);
        if !ok {
          Catch(k, x);
          return;
        }
      }
      if job.submissionAttempted { Reconcile(k, x); } else { Submit(k, x); }
    }

    /**
     `drainDue`: claim and publish until nothing is due or the batch is full. Whatever the world
     does meanwhile, the topic shows no event twice and each mission's events in order.
     */
    method DrainDue(limit: nat, tokens: nat -> Token, fortunes: nat -> Fortune) returns (processed: nat)
      requires Valid()
      modifies this, store
      ensures Valid() && old(trace) <= trace && processed <= limit
      ensures GraceCovers(cfg) ==> forall a, b :: 0 <= a < b < |ledger.log| ==> OnceAndInOrder(View(), a, b)
    {
      processed := 0;
      while processed < limit
        invariant Valid() && old(trace) <= trace && processed <= limit
      {
        var k := tokens(processed);
        if k in used { break; }
        ghost var before := View();
        var job := store.ClaimDue(ledger.now, cfg.leaseMs, k);
        used := used + {k};
        jobs := if job.Some? then jobs[k := Start(job.value)] else jobs;
        Did(Claim(k), before);
        if job.None? { break; }
        ClaimedBytesAreKnown(cfg, start, trace, k);
        PublishJob(job.value, fortunes(processed));
        processed := processed + 1;
      }
      forall a, b | GraceCovers(cfg) && 0 <= a < b < |ledger.log| ensures OnceAndInOrder(View(), a, b) {
        TopicIsExactlyOnceAndOrdered(cfg, start, trace, a, b);
      }
    }
  }
}
