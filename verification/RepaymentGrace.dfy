/**
 The repayment grace is exactly as long as it must be: with a shorter one there is a run in which
 the service gives up a transfer that did execute, and pays the loan again.
 */
module RepaymentGrace {
  import opened Common
  import opened SignerTables
  import opened RepaymentProtocol
  import opened RepaymentSafety
  import Ledger

  ghost predicate Reaches(cfg: Config, s: State)
  {
    exists es :: ValidRun(cfg, Init(0), es) && After(cfg, Init(0), es) == s
  }

  lemma Then(cfg: Config, s: State, e: Event, s': State)
    requires Reaches(cfg, s) && Enabled(cfg, s, e) && s' == Next(cfg, s, e)
    ensures Reaches(cfg, s')
  {
    var es :| ValidRun(cfg, Init(0), es) && After(cfg, Init(0), es) == s;
    RunExtends(cfg, Init(0), es, e);
    assert ValidRun(cfg, Init(0), es + [e]);
  }

  predicate BothPay(s: State, t: Ledger.TxId, u: Ledger.TxId)
  {
    && t in s.ledger.txs && u in s.ledger.txs && t != u
    && s.ledger.txs[t].fate.Executed? && s.ledger.txs[u].fate.Executed?
    && s.ledger.txs[t].payload.loan == s.ledger.txs[u].payload.loan
  }

  // Some loan is repaid by two transfers.
  ghost predicate PaysTwice(s: State)
  {
    exists t, u :: BothPay(s, t, u)
  }

  // --- the run: one loan, whose first attempt is valid until time 0 ------------------------------------

  const Owed := Loan(0, 0, 1, 5, 1, Funded, 0, None)

  const First := Attempt(0, 0)

  function World(r: Repayments, calls: map<Id, Call>, ledger: Ledger.State<Transfer>): State
  {
    State(map[0 := Owed], {0}, r, calls, {}, ledger)
  }

  function Tx(validUntil: int, sends: nat, fate: Ledger.Fate): Ledger.Tx<Transfer>
  {
    Ledger.Tx(TransferFor(0, Owed), validUntil, sends, fate)
  }

  function Stored(status: RepaymentStatus, attempts: nat): Repayments
  {
    map[0 := Repayment(0, 0, status, attempts)]
  }

  // The first attempt was sent, and the service crashed; then the call asks what became of it.
  function AtAsking(cfg: Config, now: int, executed: bool, c: Call): State
  {
    World(Stored(Pending, 0), map[0 := c],
          Ledger.State(now, map[0 := Tx(0, 1, if executed then Ledger.Executed(0, 1) else Ledger.Open)],
                       if executed then [0] else []))
  }

  function HeardAt(cfg: Config): int { Max(cfg.lag, 1) - 1 }

  function Blind(cfg: Config): Call { Observed(First, Ledger.Uncertain, HeardAt(cfg)) }

  function GiveUpTime(cfg: Config): int { HeardAt(cfg) + cfg.latency }

  // Given up although it executed: the next attempt is due.
  function AtGivenUp(cfg: Config): State
  {
    World(Stored(SignerTables.Failed, 1), map[0 := Preparing],
          Ledger.State(GiveUpTime(cfg), map[0 := Tx(0, 1, Ledger.Executed(0, 1))], [0]))
  }

  function AtSecond(cfg: Config, r: Repayments, sends: nat, c: Call): State
  {
    World(r, map[0 := c],
          Ledger.State(GiveUpTime(cfg), map[0 := Tx(0, 1, Ledger.Executed(0, 1)), 1 := Tx(GiveUpTime(cfg), sends, Ledger.Open)], [0]))
  }

  lemma ReachesPreparing(cfg: Config)
    ensures Reaches(cfg, World(map[], map[0 := Preparing], Ledger.State(0, map[], [])))
  {
    assert ValidRun(cfg, Init(0), []) && After(cfg, Init(0), []) == Init(0);
    var s1 := Init(0).(loans := map[0 := Owed]);
    Then(cfg, Init(0), Registers(0, Owed), s1);
    var s2 := World(map[], map[], Ledger.State(0, map[], []));
    Then(cfg, s1, Completes(0), s2);
    Then(cfg, s2, Begins(0, 0), World(map[], map[0 := Preparing], Ledger.State(0, map[], [])));
  }

  lemma ReachesReady(cfg: Config)
    ensures Reaches(cfg, World(Stored(Pending, 0), map[0 := Ready(First)], Ledger.State(0, map[0 := Tx(0, 0, Ledger.Open)], [])))
  {
    ReachesPreparing(cfg);
    var s0 := World(map[], map[0 := Preparing], Ledger.State(0, map[], []));
    var l := Ledger.State(0, map[0 := Tx(0, 0, Ledger.Open)], []);
    Then(cfg, s0, Prepares(0, 0, 0), World(map[], map[0 := Prepared(First)], l));
    Then(cfg, World(map[], map[0 := Prepared(First)], l), Saves(0), World(Stored(Pending, 0), map[0 := Ready(First)], l));
  }

  lemma ReachesAsking(cfg: Config)
    ensures Reaches(cfg, AtAsking(cfg, 0, false, Confirming(First)))
  {
    ReachesReady(cfg);
    var s0 := World(Stored(Pending, 0), map[0 := Ready(First)], Ledger.State(0, map[0 := Tx(0, 0, Ledger.Open)], []));
    Then(cfg, s0, Submits(0), AtAsking(cfg, 0, false, Submitting(First)));
    var s1 := AtAsking(cfg, 0, false, Submitting(First)).(calls := map[]);
    Then(cfg, AtAsking(cfg, 0, false, Submitting(First)), Stops(0), s1);
    Then(cfg, s1, Begins(0, 0), AtAsking(cfg, 0, false, Confirming(First)));
  }

  // A lag lets the transfer be executed already; without any, it executes just after the answer.
  lemma ReachesBlind(cfg: Config)
    ensures Reaches(cfg, AtAsking(cfg, HeardAt(cfg), true, Blind(cfg)))
  {
    ReachesAsking(cfg);
    var s0 := AtAsking(cfg, 0, false, Confirming(First));
    if cfg.lag > 0 {
      var s1 := AtAsking(cfg, 0, true, Confirming(First));
      Then(cfg, s0, Env(Ledger.Settles(0)), s1);
      var s2 := AtAsking(cfg, HeardAt(cfg), true, Confirming(First));
      Then(cfg, s1, Env(Ledger.Pass(cfg.lag - 1)), s2);
      Then(cfg, s2, Observes(0, Ledger.Uncertain), AtAsking(cfg, HeardAt(cfg), true, Blind(cfg)));
    } else {
      var s1 := AtAsking(cfg, 0, false, Blind(cfg));
      Then(cfg, s0, Observes(0, Ledger.Uncertain), s1);
      Then(cfg, s1, Env(Ledger.Settles(0)), AtAsking(cfg, HeardAt(cfg), true, Blind(cfg)));
    }
  }

  lemma ReachesGivenUp(cfg: Config)
    requires !GraceCovers(cfg)
    ensures Reaches(cfg, AtGivenUp(cfg))
  {
    ReachesBlind(cfg);
    var s0 := AtAsking(cfg, HeardAt(cfg), true, Blind(cfg));
    var s1 := AtAsking(cfg, GiveUpTime(cfg), true, Blind(cfg));
    Then(cfg, s0, Env(Ledger.Pass(cfg.latency)), s1);
    Then(cfg, s1, Decides(0), AtGivenUp(cfg));
  }

  function Second(cfg: Config): Attempt { Attempt(1, GiveUpTime(cfg)) }

  function SecondStored(cfg: Config): Repayments { map[0 := Repayment(1, GiveUpTime(cfg), Pending, 0)] }

  lemma ReachesSecond(cfg: Config)
    requires !GraceCovers(cfg)
    ensures Reaches(cfg, AtSecond(cfg, SecondStored(cfg), 0, Ready(Second(cfg))))
  {
    ReachesGivenUp(cfg);
    var s0 := AtSecond(cfg, Stored(SignerTables.Failed, 1), 0, Prepared(Second(cfg)));
    Then(cfg, AtGivenUp(cfg), Prepares(0, 1, GiveUpTime(cfg)), s0);
    Then(cfg, s0, Saves(0), AtSecond(cfg, SecondStored(cfg), 0, Ready(Second(cfg))));
  }

  /** For every shorter grace, a run repays one loan twice. */
  lemma TooShortGracePaysTwice(cfg: Config)
    requires !GraceCovers(cfg)
    ensures exists s :: Reaches(cfg, s) && PaysTwice(s)
  {
    ReachesSecond(cfg);
    var s1 := AtSecond(cfg, SecondStored(cfg), 0, Ready(Second(cfg)));
    var s2 := AtSecond(cfg, SecondStored(cfg), 1, Submitting(Second(cfg)));
    Then(cfg, s1, Submits(0), s2);
    var s3 := s2.(ledger := Ledger.Execute(s2.ledger, 1));
    Then(cfg, s2, Env(Ledger.Settles(1)), s3);
    assert BothPay(s3, 0, 1);
  }

  /** No run repays a loan twice, if and only if the grace covers the Mirror Node's lag and latency. */
  lemma PaidOnceIff(cfg: Config)
    ensures GraceCovers(cfg) <==> forall s :: Reaches(cfg, s) ==> !PaysTwice(s)
  {
    if !GraceCovers(cfg) {
      TooShortGracePaysTwice(cfg);
    } else {
      forall s | Reaches(cfg, s) ensures !PaysTwice(s) {
        var es :| ValidRun(cfg, Init(0), es) && After(cfg, Init(0), es) == s;
        forall t, u ensures !BothPay(s, t, u) {
          if BothPay(s, t, u) { PaidAtMostOnce(cfg, 0, es, t, u); }
        }
      }
    }
  }
}
