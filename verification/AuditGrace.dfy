/**
 The uncertainty grace is exactly as long as it must be: with a shorter one there is a run in
 which the worker gives up a message that did reach the topic, and publishes the event again.
 */
module AuditGrace {
  import opened Common
  import opened AuditOutbox
  import opened AuditProtocol
  import opened AuditSafety
  import Ledger

  ghost predicate Reaches(cfg: Config, s: State)
  {
    exists es :: ValidRun(cfg, Init(0), es) && After(cfg, Init(0), es) == s
  }

  lemma Then(cfg: Config, s: State, e: Event, s': State)
    requires Reaches(cfg, s) && Enabled(cfg, s, e) && s' == Next(cfg, s, e)
    ensures Reaches(cfg, s')
  {
    var es :| ValidRun(cfg, Init(0), es) && After(cfg, Init(0), es) == s;
    RunExtends(cfg, Init(0), es, e);
    assert ValidRun(cfg, Init(0), es + [e]);
  }

  predicate SameEvent(s: State, a: nat, b: nat)
  {
    a < b < |s.ledger.log| && s.ledger.log[a] in s.ledger.txs && s.ledger.log[b] in s.ledger.txs
    && s.ledger.txs[s.ledger.log[a]].payload.event == s.ledger.txs[s.ledger.log[b]].payload.event
  }

  ghost predicate PublishesTwice(s: State)
  {
    exists a, b :: SameEvent(s, a, b)
  }

  function Taken(attempts: nat, next: int, k: Token, until: int, p: Option<Prepared>, attempted: bool): Row
  {
    Row(0, Processing, attempts, next, Some(k), Some(until), p, attempted, None)
  }

  const FirstJob := Job(0, 0, 0, None, false)

  // One event, claimed by call 0.
  function AtClaim(cfg: Config): State
  {
    State([Taken(0, 0, 0, cfg.leaseMs, None, false)], map[0 := Claimed(FirstJob)], {0}, Ledger.State(0, map[], []), map[])
  }

  // Its bytes are built, valid until the lease ends, and stored.
  function AtSave(cfg: Config): State
  {
    var p := Prepared(0, cfg.leaseMs);
    State([Taken(0, 0, 0, cfg.leaseMs, Some(p), false)], map[0 := Ready(FirstJob, p)], {0},
          Ledger.State(0, map[0 := Ledger.Tx(Message(0, 0), cfg.leaseMs, 0, Ledger.Open)], []), map[])
  }

  // Its bytes are sent, and the worker crashes.
  function AtCrash(cfg: Config): State
  {
    State([Taken(0, 0, 0, cfg.leaseMs, Some(Prepared(0, cfg.leaseMs)), true)], map[], {0},
          Ledger.State(0, map[0 := Ledger.Tx(Message(0, 0), cfg.leaseMs, 1, Ledger.Open)], []), map[0 := 0])
  }

  function Bytes(cfg: Config): Prepared { Prepared(0, cfg.leaseMs) }

  function TakenOver(cfg: Config, now: int, executed: bool, l: Local): State
  {
    State([Taken(0, 0, 1, 2 * cfg.leaseMs, Some(Bytes(cfg)), true)], map[1 := l], {0, 1},
          Ledger.State(now, map[0 := Ledger.Tx(Message(0, 0), cfg.leaseMs, 1,
                                               if executed then Ledger.Executed(cfg.leaseMs, 1) else Ledger.Open)],
                       if executed then [0] else []),
          map[0 := 0])
  }

  function Asking(cfg: Config): Local { Reconciling(SecondJob(cfg), Bytes(cfg)) }

  function SecondJob(cfg: Config): Job { Job(0, 1, 0, Some(Bytes(cfg)), true) }

  function HeardAt(cfg: Config): int { cfg.leaseMs + Max(cfg.lag, 1) - 1 }

  function GiveUpTime(cfg: Config): int { HeardAt(cfg) + cfg.latency }

  // Call 1 took the expired lease over and was told "unknown"; the message reached consensus at the last moment.
  function AtHeard(cfg: Config): State
  {
    TakenOver(cfg, HeardAt(cfg), true, Heard(SecondJob(cfg), Bytes(cfg), Ledger.Uncertain, true, HeardAt(cfg)))
  }

  // The Mirror Node still answered "unknown" and the worker gave up.
  function AtGiveUp(cfg: Config): State
  {
    State([NewRow(0, GiveUpTime(cfg) + 1).(attempts := 1)], map[], {0, 1},
          AtHeard(cfg).ledger.(now := GiveUpTime(cfg)), map[0 := 0])
  }

  // Call 2 claims the row afresh, builds and stores new bytes.
  function AtSecondSave(cfg: Config): State
  {
    var now := GiveUpTime(cfg) + 1;
    var p := Prepared(1, now);
    var l := AtHeard(cfg).ledger;
    State([Taken(1, now, 2, now + cfg.leaseMs, Some(p), false)],
          map[2 := Ready(Job(0, 2, 1, None, false), p)], {0, 1, 2},
          l.(now := now, txs := l.txs[1 := Ledger.Tx(Message(0, 2), now, 0, Ledger.Open)]), map[0 := 0])
  }

  lemma ReachesClaim(cfg: Config)
    ensures Reaches(cfg, AtClaim(cfg))
  {
    assert ValidRun(cfg, Init(0), []) && After(cfg, Init(0), []) == Init(0);
    var s1 := Next(cfg, Init(0), Create(0, 0));
    Then(cfg, Init(0), Create(0, 0), s1);
    assert s1.rows == [NewRow(0, 0)];
    assert Claimable(s1.rows, 0, 0);
    Then(cfg, s1, Claim(0), AtClaim(cfg));
  }

  lemma ReachesSave(cfg: Config)
    ensures Reaches(cfg, AtSave(cfg))
  {
    ReachesClaim(cfg);
    var e := Prepares(0, 0, cfg.leaseMs);
    var s1 := Next(cfg, AtClaim(cfg), e);
    Then(cfg, AtClaim(cfg), e, s1);
    Then(cfg, s1, Saves(0), AtSave(cfg));
  }

  lemma ReachesCrash(cfg: Config)
    ensures Reaches(cfg, AtCrash(cfg))
  {
    ReachesSave(cfg);
    var s1 := Next(cfg, AtSave(cfg), Marks(0));
    Then(cfg, AtSave(cfg), Marks(0), s1);
    var s2 := Next(cfg, s1, Submits(0));
    Then(cfg, s1, Submits(0), s2);
    assert s2.jobs - {0} == map[];
    Then(cfg, s2, Crash(0), AtCrash(cfg));
  }

  lemma ReachesTakeover(cfg: Config)
    ensures Reaches(cfg, TakenOver(cfg, cfg.leaseMs, false, Asking(cfg)))
  {
    ReachesCrash(cfg);
    var s1 := AtCrash(cfg).(ledger := AtCrash(cfg).ledger.(now := cfg.leaseMs));
    Then(cfg, AtCrash(cfg), Env(Ledger.Pass(cfg.leaseMs)), s1);
    assert Claimable(s1.rows, cfg.leaseMs, 0);
    Then(cfg, s1, Claim(1), TakenOver(cfg, cfg.leaseMs, false, Asking(cfg)));
  }

  // A lag lets the message be on the topic already; without any, it gets there just after the answer.
  lemma ReachesHeard(cfg: Config)
    ensures Reaches(cfg, AtHeard(cfg))
  {
    ReachesTakeover(cfg);
    var s0 := TakenOver(cfg, cfg.leaseMs, false, Asking(cfg));
    if cfg.lag > 0 {
      var s1 := TakenOver(cfg, cfg.leaseMs, true, Asking(cfg));
      Then(cfg, s0, Env(Ledger.Settles(0)), s1);
      var s2 := TakenOver(cfg, HeardAt(cfg), true, Asking(cfg));
      Then(cfg, s1, Env(Ledger.Pass(cfg.lag - 1)), s2);
      Then(cfg, s2, Answers(1, Ledger.Uncertain), AtHeard(cfg));
    } else {
      var s1 := TakenOver(cfg, cfg.leaseMs, false, AtHeard(cfg).jobs[1]);
      Then(cfg, s0, Answers(1, Ledger.Uncertain), s1);
      Then(cfg, s1, Env(Ledger.Settles(0)), AtHeard(cfg));
    }
  }

  lemma ReachesGiveUp(cfg: Config)
    requires !GraceCovers(cfg)
    ensures Reaches(cfg, AtGiveUp(cfg))
  {
    ReachesHeard(cfg);
    var s0 := AtHeard(cfg);
    var s1 := s0.(ledger := s0.ledger.(now := GiveUpTime(cfg)));
    Then(cfg, s0, Env(Ledger.Pass(cfg.latency)), s1);
    assert s1.jobs - {1} == map[];
    Then(cfg, s1, Finishes(1, 1), AtGiveUp(cfg));
  }

  lemma ReachesSecondSave(cfg: Config)
    requires Reaches(cfg, AtGiveUp(cfg))
    ensures Reaches(cfg, AtSecondSave(cfg))
  {
    var now := GiveUpTime(cfg) + 1;
    var s1 := AtGiveUp(cfg).(ledger := AtGiveUp(cfg).ledger.(now := now));
    Then(cfg, AtGiveUp(cfg), Env(Ledger.Pass(1)), s1);
    assert Claimable(s1.rows, now, 0);
    var s2 := Next(cfg, s1, Claim(2));
    Then(cfg, s1, Claim(2), s2);
    var s3 := Next(cfg, s2, Prepares(2, 1, now));
    Then(cfg, s2, Prepares(2, 1, now), s3);
    Then(cfg, s3, Saves(2), AtSecondSave(cfg));
  }

  lemma TooShortGracePublishesTwice(cfg: Config)
    requires !GraceCovers(cfg)
    ensures exists s :: Reaches(cfg, s) && PublishesTwice(s)
  {
    ReachesGiveUp(cfg);
    ReachesSecondSave(cfg);
    var s2 := AtSecondSave(cfg);
    var s3 := Next(cfg, s2, Marks(2));
    Then(cfg, s2, Marks(2), s3);
    var s4 := Next(cfg, s3, Submits(2));
    Then(cfg, s3, Submits(2), s4);
    var s5 := Next(cfg, s4, Env(Ledger.Settles(1)));
    Then(cfg, s4, Env(Ledger.Settles(1)), s5);
    assert SameEvent(s5, 0, 1);
  }

  /** Exactly-once publication holds on every run if and only if the grace covers the Mirror Node's lag and latency. */
  lemma ExactlyOnceIff(cfg: Config)
    ensures GraceCovers(cfg) <==> forall s :: Reaches(cfg, s) ==> !PublishesTwice(s)
  {
    if !GraceCovers(cfg) {
      TooShortGracePublishesTwice(cfg);
    } else {
      forall s | Reaches(cfg, s) ensures !PublishesTwice(s) {
        var es :| ValidRun(cfg, Init(0), es) && After(cfg, Init(0), es) == s;
        forall a: nat, b: nat | a < b < |s.ledger.log| ensures !SameEvent(s, a, b) {
          TopicIsExactlyOnceAndOrdered(cfg, 0, es, a, b);
        }
      }
    }
  }
}
