/** What every run of the audit workers keeps, and what follows for the HCS topic. */
module AuditSafety {
  import opened Common
  import opened AuditOutbox
  import opened AuditProtocol
  import Ledger

  /** The real-time bound the uncertainty grace has to cover. */
  predicate GraceCovers(cfg: Config)
  {
    Max(cfg.lag, 1) + cfg.latency <= cfg.grace
  }

  // --- invariant ------------------------------------------------------------------------------------------

  /** The bytes of t can no longer publish anything. */
  predicate Harmless(s: State, t: Ledger.TxId)
    requires t in s.ledger.txs
  {
    !s.ledger.txs[t].fate.Executed? && (t !in s.armedBy || Ledger.CannotExecute(s.ledger, t))
  }

  predicate IsCurrent(s: State, t: Ledger.TxId)
    requires t in s.ledger.txs
  {
    var e := s.ledger.txs[t].payload.event;
    e < |s.rows| && s.rows[e].prepared.Some? && s.rows[e].prepared.value.txId == t
  }

  predicate TxOk(cfg: Config, s: State, t: Ledger.TxId)
    requires t in s.ledger.txs
  {
    && s.ledger.txs[t].payload.event < |s.rows|
    && Unblocked(s.rows, s.ledger.txs[t].payload.event)
    && s.ledger.txs[t].sends <= (if t in s.armedBy then 1 else 0)
    && (GraceCovers(cfg) ==> IsCurrent(s, t) || Harmless(s, t))
  }

  /** p is known to the ledger as a message of event i. */
  predicate Known(s: State, i: EventId, p: Prepared)
  {
    p.txId in s.ledger.txs && s.ledger.txs[p.txId].payload.event == i && s.ledger.txs[p.txId].validUntil == p.validUntil
  }

  predicate RowOk(s: State, i: EventId)
    requires i < |s.rows|
  {
    var row := s.rows[i];
    && (row.status == Processing <==> row.leaseToken.Some?)
    && (row.status == Processing <==> row.leaseUntil.Some?)
    && (row.leaseToken.Some? ==> row.leaseToken.value in s.used)
    && (row.status == Processing ==> Unblocked(s.rows, i))
    && (row.submissionAttempted ==> row.prepared.Some?)
    && (row.prepared.Some? ==>
          && Known(s, i, row.prepared.value)
          && (row.submissionAttempted <==> row.prepared.value.txId in s.armedBy))
    && (row.status == Published ==>
          && row.prepared.Some? && s.ledger.txs[row.prepared.value.txId].fate.Executed?
          && row.seqNo == Some(s.ledger.txs[row.prepared.value.txId].fate.seqNo))
  }

  predicate AnswerOk(s: State, l: Local, lag: nat)
    requires l.Heard? && l.p.txId in s.ledger.txs
  {
    var x := s.ledger.txs[l.p.txId];
    && l.at <= s.ledger.now
    && (match l.answer
        case Confirmed(n) => x.fate.Executed? && x.fate.seqNo == n
        case Failed => x.fate.Dead?
        case Uncertain => l.reconciled && x.fate.Executed? ==> l.at < x.fate.at + Max(lag, 1))
  }

  predicate JobOk(cfg: Config, s: State, k: Token)
    requires k in s.jobs
  {
    var l := s.jobs[k];
    var i := l.job.event;
    && k in s.used && l.job.token == k
    && i < |s.rows| && Unblocked(s.rows, i)
    && (HoldsLease(s.rows, i, k) ==>
          (match l
           case Claimed(_) => s.rows[i].prepared.None? && !s.rows[i].submissionAttempted
           case GotPrepared(_, _) => s.rows[i].prepared.None? && !s.rows[i].submissionAttempted
           case Ready(_, p) => s.rows[i].prepared == Some(p) && !s.rows[i].submissionAttempted
           case Throwing(_) => true
           case _ => s.rows[i].prepared == Some(l.p)))
    && (match l
        case Claimed(job) => job.prepared.None? && !job.submissionAttempted
        case GotPrepared(job, p) =>
          && Known(s, i, p) && s.ledger.txs[p.txId].payload.builder == k
          && p.txId !in s.armedBy && !IsCurrent(s, p.txId) && !job.submissionAttempted
        case Marked(_, p) =>
          Known(s, i, p) && p.txId in s.armedBy && s.armedBy[p.txId] == k && s.ledger.txs[p.txId].sends == 0
        case Submitting(_, p) => Known(s, i, p) && p.txId in s.armedBy
        case Reconciling(_, p) => Known(s, i, p) && p.txId in s.armedBy
        case Heard(_, p, _, _, _) => Known(s, i, p) && p.txId in s.armedBy && AnswerOk(s, l, cfg.lag)
        case _ => true)
  }

  /** Two messages on the topic carry different events, and those of one mission come in event order. */
  predicate InOrder(s: State, a: nat, b: nat)
    requires b < |s.ledger.log| && a < b
    requires s.ledger.log[a] in s.ledger.txs && s.ledger.log[b] in s.ledger.txs
  {
    var x, y := s.ledger.txs[s.ledger.log[a]].payload.event, s.ledger.txs[s.ledger.log[b]].payload.event;
    x != y && (x < |s.rows| && y < |s.rows| && s.rows[x].mission == s.rows[y].mission ==> x < y)
  }

  ghost predicate TopicOk(cfg: Config, s: State)
    requires Ledger.Inv(s.ledger)
  {
    GraceCovers(cfg) ==> forall a: nat, b: nat :: a < b < |s.ledger.log| ==> InOrder(s, a, b)
  }

  ghost predicate Inv(cfg: Config, s: State)
  {
    && Ledger.Inv(s.ledger)
    && s.armedBy.Keys <= s.ledger.txs.Keys
    && (forall t :: t in s.ledger.txs ==> TxOk(cfg, s, t))
    && (forall i: EventId :: i < |s.rows| ==> RowOk(s, i))
    && (forall k :: k in s.jobs ==> JobOk(cfg, s, k))
    && TopicOk(cfg, s)
  }

  lemma InitOk(cfg: Config, now: int)
    ensures Inv(cfg, Init(now))
  {
  }

  // --- one step at a time ---------------------------------------------------------------------------------

  // Rows are only appended, and a published row is never touched again.
  ghost predicate Advances(rows: Table, rows': Table)
  {
    |rows| <= |rows'| &&
    forall i: EventId :: i < |rows| ==>
      rows'[i].mission == rows[i].mission && (rows[i].status == Published ==> rows'[i] == rows[i])
  }

  lemma UnblockedStays(rows: Table, rows': Table)
    requires Advances(rows, rows')
    ensures forall i: EventId :: i < |rows| && Unblocked(rows, i) ==> Unblocked(rows', i)
  {
    forall i: EventId | i < |rows| && Unblocked(rows, i) ensures Unblocked(rows', i) {
      forall k | 0 <= k < i && rows'[k].mission == rows'[i].mission ensures rows'[k].status == Published {
        assert rows[k].mission == rows[i].mission;
      }
    }
  }

  lemma TopicStays(cfg: Config, s: State, s': State)
    requires Ledger.Inv(s.ledger) && Ledger.Inv(s'.ledger) && TopicOk(cfg, s) && Advances(s.rows, s'.rows)
    requires forall t :: t in s.ledger.txs ==> TxOk(cfg, s, t)
    requires s'.ledger.log == s.ledger.log
    requires forall t :: t in s.ledger.txs ==> t in s'.ledger.txs && s'.ledger.txs[t].payload == s.ledger.txs[t].payload
    ensures TopicOk(cfg, s')
  {
    forall a: nat, b: nat | GraceCovers(cfg) && a < b < |s'.ledger.log| ensures InOrder(s', a, b) {
      assert InOrder(s, a, b) && TxOk(cfg, s, s.ledger.log[a]) && TxOk(cfg, s, s.ledger.log[b]);
    }
  }

  lemma CreateKeepsInv(cfg: Config, s: State, mission: nat, at: int)
    requires Inv(cfg, s)
    ensures Inv(cfg, Next(cfg, s, Create(mission, at)))
  {
    var s' := Next(cfg, s, Create(mission, at));
    UnblockedStays(s.rows, s'.rows);
    forall t | t in s'.ledger.txs ensures TxOk(cfg, s', t) { assert TxOk(cfg, s, t); }
    forall i: EventId | i < |s'.rows| ensures RowOk(s', i) { if i < |s.rows| { assert RowOk(s, i); } }
    forall k | k in s'.jobs ensures JobOk(cfg, s', k) { assert JobOk(cfg, s, k); }
    TopicStays(cfg, s, s');
  }

  lemma ClaimKeepsInv(cfg: Config, s: State, k: Token)
    requires Inv(cfg, s) && Enabled(cfg, s, Claim(k))
    ensures Inv(cfg, Next(cfg, s, Claim(k)))
  {
    var s' := Next(cfg, s, Claim(k));
    var job := ClaimedJob(s.rows, s.ledger.now, k);
    if job.Some? { assert RowOk(s, job.value.event); }
    UnblockedStays(s.rows, s'.rows);
    forall t | t in s'.ledger.txs ensures TxOk(cfg, s', t) { assert TxOk(cfg, s, t); }
    forall i: EventId | i < |s'.rows| ensures RowOk(s', i) { assert RowOk(s, i); }
    ClaimKeepsJobs(cfg, s, k);
    TopicStays(cfg, s, s');
  }

  lemma ClaimKeepsJob(cfg: Config, s: State, k: Token, j: Token)
    requires Enabled(cfg, s, Claim(k)) && j in s.jobs && JobOk(cfg, s, j)
    requires Unblocked(Next(cfg, s, Claim(k)).rows, s.jobs[j].job.event)
    ensures JobOk(cfg, Next(cfg, s, Claim(k)), j)
  {
    var s' := Next(cfg, s, Claim(k));
    var i := s.jobs[j].job.event;
    assert s'.jobs[j] == s.jobs[j];
    assert HoldsLease(s'.rows, i, j) ==> s'.rows[i] == s.rows[i];
    assert s'.rows[i].prepared == s.rows[i].prepared;
  }

  lemma ClaimKeepsJobs(cfg: Config, s: State, k: Token)
    requires Inv(cfg, s) && Enabled(cfg, s, Claim(k)) && Advances(s.rows, Next(cfg, s, Claim(k)).rows)
    ensures var s' := Next(cfg, s, Claim(k)); forall j :: j in s'.jobs ==> JobOk(cfg, s', j)
  {
    var s' := Next(cfg, s, Claim(k));
    UnblockedStays(s.rows, s'.rows);
    var claimed := ClaimedJob(s.rows, s.ledger.now, k);
    if claimed.Some? { assert RowOk(s, claimed.value.event); }
    forall j | j in s'.jobs && j != k ensures JobOk(cfg, s', j) {
      assert JobOk(cfg, s, j);
      ClaimKeepsJob(cfg, s, k, j);
    }
  }

  lemma PreparesKeepsInv(cfg: Config, s: State, k: Token, t: Ledger.TxId, validUntil: int)
    requires Inv(cfg, s) && Enabled(cfg, s, Prepares(k, t, validUntil))
    ensures Inv(cfg, Next(cfg, s, Prepares(k, t, validUntil)))
  {
    var s' := Next(cfg, s, Prepares(k, t, validUntil));
    assert JobOk(cfg, s, k) && RowOk(s, s.jobs[k].job.event);
    Ledger.RegisterKeepsInv(s.ledger, t, Message(s.jobs[k].job.event, k), validUntil);
    forall u | u in s'.ledger.txs ensures TxOk(cfg, s', u) { if u != t { assert TxOk(cfg, s, u); } }
    forall i: EventId | i < |s'.rows| ensures RowOk(s', i) { assert RowOk(s, i); }
    forall j | j in s'.jobs ensures JobOk(cfg, s', j) { assert JobOk(cfg, s, j); }
    TopicStays(cfg, s, s');
  }

  // What a write fenced by call k's lease on row i has to establish itself; the rest of the system is unaffected.
  ghost predicate FencedWrite(cfg: Config, s: State, s': State, k: Token)
  {
    k in s.jobs && HoldsLease(s.rows, s.jobs[k].job.event, k) &&
    var i := s.jobs[k].job.event;
    && s'.used == s.used && s'.ledger == s.ledger
    && |s'.rows| == |s.rows| && s'.rows == s.rows[i := s'.rows[i]]
    && s'.rows[i].mission == s.rows[i].mission
    && (s'.rows[i].leaseToken == Some(k) || s'.rows[i].leaseToken == None)
    && (s'.jobs == s.jobs - {k} || (k in s'.jobs && s'.jobs == s.jobs[k := s'.jobs[k]] && JobOk(cfg, s', k)))
    && (s'.armedBy == s.armedBy
        || (s.rows[i].prepared.Some? && s.rows[i].prepared.value.txId !in s.armedBy
            && s'.armedBy == s.armedBy[s.rows[i].prepared.value.txId := k]))
    && RowOk(s', i)
    && (s'.rows[i].prepared.Some? && s'.rows[i].prepared != s.rows[i].prepared ==>
          s.ledger.txs[s'.rows[i].prepared.value.txId].payload.builder == k)
    && (s.rows[i].prepared.Some? ==>
          var t := s.rows[i].prepared.value.txId;
          t in s.ledger.txs && (GraceCovers(cfg) ==> IsCurrent(s', t) || Harmless(s', t)))
  }

  lemma FencedTxs(cfg: Config, s: State, s': State, k: Token)
    requires Inv(cfg, s) && FencedWrite(cfg, s, s', k)
    ensures Advances(s.rows, s'.rows)
    ensures forall t :: t in s'.ledger.txs ==> TxOk(cfg, s', t)
  {
    var i := s.jobs[k].job.event;
    assert RowOk(s, i);
    UnblockedStays(s.rows, s'.rows);
    forall t | t in s'.ledger.txs ensures TxOk(cfg, s', t) { assert TxOk(cfg, s, t); }
  }

  lemma FencedRows(cfg: Config, s: State, s': State, k: Token)
    requires Inv(cfg, s) && FencedWrite(cfg, s, s', k) && Advances(s.rows, s'.rows)
    ensures forall j: EventId :: j < |s'.rows| ==> RowOk(s', j)
  {
    var i := s.jobs[k].job.event;
    assert RowOk(s, i);
    UnblockedStays(s.rows, s'.rows);
    forall j: EventId | j < |s'.rows| ensures RowOk(s', j) { assert RowOk(s, j); }
  }

  lemma FencedJob(cfg: Config, s: State, s': State, k: Token, j: Token)
    requires FencedWrite(cfg, s, s', k) && j in s'.jobs && j in s.jobs && j != k && JobOk(cfg, s, j)
    requires Unblocked(s'.rows, s.jobs[j].job.event) && RowOk(s, s.jobs[k].job.event)
    ensures JobOk(cfg, s', j)
  {
    var i, l := s.jobs[k].job.event, s.jobs[j];
    assert s'.jobs[j] == l;
    assert HoldsLease(s'.rows, l.job.event, j) ==> l.job.event != i;
    assert l.job.event != i ==> s'.rows[l.job.event] == s.rows[l.job.event];
  }

  lemma FencedJobs(cfg: Config, s: State, s': State, k: Token)
    requires Inv(cfg, s) && FencedWrite(cfg, s, s', k) && Advances(s.rows, s'.rows)
    ensures forall j :: j in s'.jobs ==> JobOk(cfg, s', j)
  {
    UnblockedStays(s.rows, s'.rows);
    assert RowOk(s, s.jobs[k].job.event);
    forall j | j in s'.jobs && j != k ensures JobOk(cfg, s', j) {
      assert JobOk(cfg, s, j);
      FencedJob(cfg, s, s', k, j);
    }
  }

  lemma FencedWriteKeepsInv(cfg: Config, s: State, s': State, k: Token)
    requires Inv(cfg, s) && FencedWrite(cfg, s, s', k)
    ensures Inv(cfg, s')
  {
    FencedTxs(cfg, s, s', k);
    FencedRows(cfg, s, s', k);
    FencedJobs(cfg, s, s', k);
    TopicStays(cfg, s, s');
    assert RowOk(s, s.jobs[k].job.event);
  }

  // A call that only moves on, or stops, without touching tables or ledger.
  ghost predicate OnlyMoves(cfg: Config, s: State, s': State, k: Token)
  {
    && k in s.jobs && s' == s.(jobs := s'.jobs)
    && (s'.jobs == s.jobs - {k} || (k in s'.jobs && s'.jobs == s.jobs[k := s'.jobs[k]] && JobOk(cfg, s', k)))
  }

  lemma MoveKeepsInv(cfg: Config, s: State, s': State, k: Token)
    requires Inv(cfg, s) && OnlyMoves(cfg, s, s', k)
    ensures Inv(cfg, s')
  {
    forall t | t in s'.ledger.txs ensures TxOk(cfg, s', t) { assert TxOk(cfg, s, t); }
    forall i: EventId | i < |s'.rows| ensures RowOk(s', i) { assert RowOk(s, i); }
    forall j | j in s'.jobs && j != k ensures JobOk(cfg, s', j) { assert JobOk(cfg, s, j); }
    TopicStays(cfg, s, s');
  }

  lemma SavesKeepsInv(cfg: Config, s: State, k: Token)
    requires Inv(cfg, s) && Enabled(cfg, s, Saves(k))
    ensures Inv(cfg, Next(cfg, s, Saves(k)))
  {
    var s' := Next(cfg, s, Saves(k));
    var l := s.jobs[k];
    assert JobOk(cfg, s, k) && RowOk(s, l.job.event);
    if WithPrepared(s.rows, l.job.event, k, l.p).Some? { FencedWriteKeepsInv(cfg, s, s', k); }
    else { MoveKeepsInv(cfg, s, s', k); }
  }

  lemma MarksKeepsInv(cfg: Config, s: State, k: Token)
    requires Inv(cfg, s) && Enabled(cfg, s, Marks(k))
    ensures Inv(cfg, Next(cfg, s, Marks(k)))
  {
    var s' := Next(cfg, s, Marks(k));
    var l := s.jobs[k];
    assert JobOk(cfg, s, k);
    if HoldsLease(s.rows, l.job.event, k) {
      assert RowOk(s, l.job.event) && TxOk(cfg, s, l.p.txId);
      FencedWriteKeepsInv(cfg, s, s', k);
    } else {
      MoveKeepsInv(cfg, s, s', k);
    }
  }

  lemma SubmitsKeepsJobs(cfg: Config, s: State, k: Token)
    requires Inv(cfg, s) && Enabled(cfg, s, Submits(k))
    ensures var s' := Next(cfg, s, Submits(k)); forall j :: j in s'.jobs ==> JobOk(cfg, s', j)
  {
    var s' := Next(cfg, s, Submits(k));
    assert JobOk(cfg, s, k);
    forall j | j in s'.jobs ensures JobOk(cfg, s', j) { assert JobOk(cfg, s, j); }
  }

  lemma SubmitsKeepsInv(cfg: Config, s: State, k: Token)
    requires Inv(cfg, s) && Enabled(cfg, s, Submits(k))
    ensures Inv(cfg, Next(cfg, s, Submits(k)))
  {
    var s' := Next(cfg, s, Submits(k));
    assert JobOk(cfg, s, k);
    Ledger.SendKeepsInv(s.ledger, s.jobs[k].p.txId);
    forall t | t in s'.ledger.txs ensures TxOk(cfg, s', t) { assert TxOk(cfg, s, t); }
    forall i: EventId | i < |s'.rows| ensures RowOk(s', i) { assert RowOk(s, i); }
    SubmitsKeepsJobs(cfg, s, k);
    TopicStays(cfg, s, s');
  }

  lemma AnswersKeepsInv(cfg: Config, s: State, k: Token, a: Ledger.Answer)
    requires Inv(cfg, s) && Enabled(cfg, s, Answers(k, a))
    ensures Inv(cfg, Next(cfg, s, Answers(k, a)))
  {
    assert JobOk(cfg, s, k);
    MoveKeepsInv(cfg, s, Next(cfg, s, Answers(k, a)), k);
  }

  /** The heart of exactly-once: when the worker gives a transaction up, it can no longer publish. */
  lemma GivenUpIsHarmless(cfg: Config, s: State, k: Token)
    requires Inv(cfg, s) && GraceCovers(cfg) && k in s.jobs && s.jobs[k].Heard?
    requires s.jobs[k].reconciled ==> s.ledger.now <= s.jobs[k].at + cfg.latency
    requires Judge(cfg, s.jobs[k], s.ledger.now) == Reschedule(true)
    ensures Ledger.CannotExecute(s.ledger, s.jobs[k].p.txId)
  {
    var l := s.jobs[k];
    assert JobOk(cfg, s, k);
  }

  lemma PublishIsLocal(cfg: Config, s: State, k: Token, delay: nat)
    requires Inv(cfg, s) && Enabled(cfg, s, Finishes(k, delay)) && Judge(cfg, s.jobs[k], s.ledger.now).Publish?
    ensures FencedWrite(cfg, s, Next(cfg, s, Finishes(k, delay)), k) || OnlyMoves(cfg, s, Next(cfg, s, Finishes(k, delay)), k)
  {
    assert JobOk(cfg, s, k) && RowOk(s, s.jobs[k].job.event);
  }

  // Rescheduling under the lease.
  lemma RetryIsFenced(cfg: Config, s: State, k: Token, delay: nat)
    requires Inv(cfg, s) && Enabled(cfg, s, Finishes(k, delay)) && Judge(cfg, s.jobs[k], s.ledger.now).Reschedule?
    requires HoldsLease(s.rows, s.jobs[k].job.event, k)
    ensures FencedWrite(cfg, s, Next(cfg, s, Finishes(k, delay)), k)
  {
    var s' := Next(cfg, s, Finishes(k, delay));
    var i := s.jobs[k].job.event;
    assert JobOk(cfg, s, k) && RowOk(s, i);
    assert s' == s.(rows := s'.rows, jobs := s.jobs - {k});
    assert RowOk(s', i);
    if GraceCovers(cfg) && Judge(cfg, s.jobs[k], s.ledger.now) == Reschedule(true) { GivenUpIsHarmless(cfg, s, k); }
  }

  lemma RetryIsLocal(cfg: Config, s: State, k: Token, delay: nat)
    requires Inv(cfg, s) && Enabled(cfg, s, Finishes(k, delay)) && Judge(cfg, s.jobs[k], s.ledger.now).Reschedule?
    ensures FencedWrite(cfg, s, Next(cfg, s, Finishes(k, delay)), k) || OnlyMoves(cfg, s, Next(cfg, s, Finishes(k, delay)), k)
  {
    if HoldsLease(s.rows, s.jobs[k].job.event, k) { RetryIsFenced(cfg, s, k, delay); }
  }

  lemma FinishIsLocal(cfg: Config, s: State, k: Token, delay: nat)
    requires Inv(cfg, s) && Enabled(cfg, s, Finishes(k, delay))
    ensures FencedWrite(cfg, s, Next(cfg, s, Finishes(k, delay)), k) || OnlyMoves(cfg, s, Next(cfg, s, Finishes(k, delay)), k)
  {
    if Judge(cfg, s.jobs[k], s.ledger.now).Publish? { PublishIsLocal(cfg, s, k, delay); }
    else { RetryIsLocal(cfg, s, k, delay); }
  }

  lemma FinishesKeepsInv(cfg: Config, s: State, k: Token, delay: nat)
    requires Inv(cfg, s) && Enabled(cfg, s, Finishes(k, delay))
    ensures Inv(cfg, Next(cfg, s, Finishes(k, delay)))
  {
    var s' := Next(cfg, s, Finishes(k, delay));
    FinishIsLocal(cfg, s, k, delay);
    if FencedWrite(cfg, s, s', k) { FencedWriteKeepsInv(cfg, s, s', k); } else { MoveKeepsInv(cfg, s, s', k); }
  }

  lemma CatchesKeepsInv(cfg: Config, s: State, k: Token, delay: nat)
    requires Inv(cfg, s) && Enabled(cfg, s, Catches(k, delay))
    ensures Inv(cfg, Next(cfg, s, Catches(k, delay)))
  {
    var s' := Next(cfg, s, Catches(k, delay));
    assert JobOk(cfg, s, k) && RowOk(s, s.jobs[k].job.event);
    if HoldsLease(s.rows, s.jobs[k].job.event, k) { FencedWriteKeepsInv(cfg, s, s', k); }
    else { MoveKeepsInv(cfg, s, s', k); }
  }

  lemma DropKeepsInv(cfg: Config, s: State, k: Token, e: Event)
    requires Inv(cfg, s) && Enabled(cfg, s, e) && (e == Crash(k) || e == Rejects(k))
    ensures Inv(cfg, Next(cfg, s, e))
  {
    assert JobOk(cfg, s, k);
    MoveKeepsInv(cfg, s, Next(cfg, s, e), k);
  }

  /** A message that reaches consensus is the first of its event, and later than all earlier events of its mission. */
  lemma SettlesKeepsTopic(cfg: Config, s: State, t: Ledger.TxId, a: nat)
    requires Inv(cfg, s) && GraceCovers(cfg) && Ledger.CanExecute(s.ledger, t) && a < |s.ledger.log|
    ensures var x, y := s.ledger.txs[s.ledger.log[a]].payload.event, s.ledger.txs[t].payload.event;
            x != y && (x < |s.rows| && y < |s.rows| && s.rows[x].mission == s.rows[y].mission ==> x < y)
  {
    var u := s.ledger.log[a];
    var x, y := s.ledger.txs[u].payload.event, s.ledger.txs[t].payload.event;
    assert TxOk(cfg, s, t) && TxOk(cfg, s, u);
    assert IsCurrent(s, t) && IsCurrent(s, u);
    assert RowOk(s, y);
  }

  lemma EnvKeepsJobs(cfg: Config, s: State, le: Ledger.Event)
    requires Inv(cfg, s) && Enabled(cfg, s, Env(le))
    ensures var s' := Next(cfg, s, Env(le)); forall j :: j in s'.jobs ==> JobOk(cfg, s', j)
  {
    var s' := Next(cfg, s, Env(le));
    forall j | j in s'.jobs ensures JobOk(cfg, s', j) { assert JobOk(cfg, s, j); }
  }

  lemma EnvKeepsInv(cfg: Config, s: State, le: Ledger.Event)
    requires Inv(cfg, s) && Enabled(cfg, s, Env(le))
    ensures Inv(cfg, Next(cfg, s, Env(le)))
  {
    var s' := Next(cfg, s, Env(le));
    Ledger.NextKeepsInv(s.ledger, le);
    forall t | t in s'.ledger.txs ensures TxOk(cfg, s', t) { assert TxOk(cfg, s, t); }
    forall i: EventId | i < |s'.rows| ensures RowOk(s', i) { assert RowOk(s, i); }
    EnvKeepsJobs(cfg, s, le);
    EnvKeepsTopic(cfg, s, le);
  }

  lemma SettleKeepsTopic(cfg: Config, s: State, t: Ledger.TxId)
    requires Inv(cfg, s) && Ledger.CanExecute(s.ledger, t) && Ledger.Inv(Ledger.Execute(s.ledger, t))
    ensures TopicOk(cfg, s.(ledger := Ledger.Execute(s.ledger, t)))
  {
    var s' := s.(ledger := Ledger.Execute(s.ledger, t));
    forall a: nat, b: nat | GraceCovers(cfg) && a < b < |s'.ledger.log| ensures InOrder(s', a, b) {
      if b < |s.ledger.log| { assert InOrder(s, a, b); }
      else { SettlesKeepsTopic(cfg, s, t, a); }
    }
  }

  lemma EnvKeepsTopic(cfg: Config, s: State, le: Ledger.Event)
    requires Inv(cfg, s) && Enabled(cfg, s, Env(le)) && Ledger.Inv(Ledger.Next(s.ledger, le))
    ensures TopicOk(cfg, Next(cfg, s, Env(le)))
  {
    if le.Settles? { SettleKeepsTopic(cfg, s, le.t); } else { TopicStays(cfg, s, Next(cfg, s, Env(le))); }
  }

  lemma StepKeepsInv(cfg: Config, s: State, e: Event)
    requires Inv(cfg, s) && Enabled(cfg, s, e)
    ensures Inv(cfg, Next(cfg, s, e))
  {
    match e
    case Create(m, at) => CreateKeepsInv(cfg, s, m, at);
    case Claim(k) => ClaimKeepsInv(cfg, s, k);
    case Prepares(k, t, v) => PreparesKeepsInv(cfg, s, k, t, v);
    case Saves(k) => SavesKeepsInv(cfg, s, k);
    case Marks(k) => MarksKeepsInv(cfg, s, k);
    case Submits(k) => SubmitsKeepsInv(cfg, s, k);
    case Answers(k, a) => AnswersKeepsInv(cfg, s, k, a);
    case Finishes(k, d) => FinishesKeepsInv(cfg, s, k, d);
    case Rejects(k) => DropKeepsInv(cfg, s, k, e);
    case Catches(k, d) => CatchesKeepsInv(cfg, s, k, d);
    case Crash(k) => DropKeepsInv(cfg, s, k, e);
    case Env(le) => EnvKeepsInv(cfg, s, le);
  }

  lemma {:induction false} RunKeepsInv(cfg: Config, s: State, es: seq<Event>)
    requires Inv(cfg, s) && ValidRun(cfg, s, es)
    ensures Inv(cfg, After(cfg, s, es))
    decreases |es|
  {
    if es != [] {
      StepKeepsInv(cfg, s, es[0]);
      RunKeepsInv(cfg, Next(cfg, s, es[0]), es[1..]);
    }
  }

  // --- what it means ------------------------------------------------------------------------------------

  /** Whatever happens, the topic never shows an event twice, and shows each mission's events in order. */
  lemma TopicIsExactlyOnceAndOrdered(cfg: Config, start: int, es: seq<Event>, a: nat, b: nat)
    requires GraceCovers(cfg) && ValidRun(cfg, Init(start), es)
    requires var s := After(cfg, Init(start), es); a < b < |s.ledger.log|
    ensures var s := After(cfg, Init(start), es);
            var t, u := s.ledger.log[a], s.ledger.log[b];
            && t in s.ledger.txs && u in s.ledger.txs
            && s.ledger.txs[t].fate.Executed? && s.ledger.txs[t].fate.seqNo == a + 1
            && var x, y := s.ledger.txs[t].payload.event, s.ledger.txs[u].payload.event;
               x < |s.rows| && y < |s.rows| && x != y
               && (s.rows[x].mission == s.rows[y].mission ==> x < y)
  {
    InitOk(cfg, start);
    RunKeepsInv(cfg, Init(start), es);
    var s := After(cfg, Init(start), es);
    assert InOrder(s, a, b) && TxOk(cfg, s, s.ledger.log[a]) && TxOk(cfg, s, s.ledger.log[b]);
  }

  /** No prepared transaction is submitted twice, by the same worker or by another. */
  lemma SubmittedAtMostOnce(cfg: Config, start: int, es: seq<Event>, t: Ledger.TxId)
    requires ValidRun(cfg, Init(start), es) && t in After(cfg, Init(start), es).ledger.txs
    ensures After(cfg, Init(start), es).ledger.txs[t].sends <= 1
  {
    InitOk(cfg, start);
    RunKeepsInv(cfg, Init(start), es);
    assert TxOk(cfg, After(cfg, Init(start), es), t);
  }

  /**
   The table tells the truth about the topic: published rows form a prefix of each mission, carry the sequence
   number under which their message stands on the topic, and only the first unpublished row of a mission is
   ever being processed.
   */
  lemma TableAgreesWithTopic(cfg: Config, start: int, es: seq<Event>, i: EventId)
    requires ValidRun(cfg, Init(start), es) && i < |After(cfg, Init(start), es).rows|
    ensures var s := After(cfg, Init(start), es);
            && LeasesWellFormed(s.rows)
            && (s.rows[i].status != Pending ==> Unblocked(s.rows, i))
            && (s.rows[i].status == Published ==>
                  && s.rows[i].seqNo.Some? && 0 < s.rows[i].seqNo.value <= |s.ledger.log|
                  && var t := s.ledger.log[s.rows[i].seqNo.value - 1];
                     t in s.ledger.txs && s.ledger.txs[t].payload.event == i
                     && s.rows[i].prepared.Some? && s.rows[i].prepared.value.txId == t)
  {
    InitOk(cfg, start);
    RunKeepsInv(cfg, Init(start), es);
    var s := After(cfg, Init(start), es);
    forall j | 0 <= j < |s.rows|
      ensures (s.rows[j].status == Processing <==> s.rows[j].leaseToken.Some?)
              && (s.rows[j].status == Processing <==> s.rows[j].leaseUntil.Some?)
    {
      assert RowOk(s, j);
    }
    assert RowOk(s, i);
    if s.rows[i].status == Published {
      var t := s.rows[i].prepared.value.txId;
      assert Ledger.Recorded(s.ledger, t) && TxOk(cfg, s, t);
    }
  }
}
