/** Provider reputation is a count over the event log; a mission moves it by at most one. */
module Reputation {
  import opened Common
  import opened MissionProtocol
  import MissionSafety

  datatype Counts = Counts(successes: nat, failures: nat)

  datatype Reputation = Reputation(successes: nat, failures: nat, score: real)

  /** The successes and failures the log holds for provider p. */
  function CountsOf(log: seq<Entry>, p: Id): Counts
  {
    if log == [] then Counts(0, 0)
    else
      var c, e := CountsOf(log[..|log| - 1], p), log[|log| - 1];
      if e.provider != Some(p) then c
      else if e.kind == ReportReceived then c.(successes := c.successes + 1)
      else if e.kind == MissionFailed then c.(failures := c.failures + 1)
      else c
  }

  function Score(c: Counts): real { (c.successes + 1) as real / (c.successes + c.failures + 2) as real }

  /** One pass over the log counts for every provider asked about, and for no other. */
  method GetProviderReputations(log: seq<Entry>, providers: set<Id>) returns (r: map<Id, Reputation>)
    ensures r.Keys == providers
    ensures forall p :: p in providers ==>
              r[p] == Reputation(CountsOf(log, p).successes, CountsOf(log, p).failures, Score(CountsOf(log, p)))
  {
    var counts: map<Id, Counts> := map p | p in providers :: Counts(0, 0);
    var i := 0;
    while i < |log|
      invariant 0 <= i <= |log| && counts.Keys == providers
      invariant forall p :: p in providers ==> counts[p] == CountsOf(log[..i], p)
    {
      var e := log[i];
      assert log[..i + 1][..i] == log[..i] && log[..i + 1][i] == e;
      if e.provider.Some? && e.provider.value in counts {
        var c := counts[e.provider.value];
        if e.kind == ReportReceived { counts := counts[e.provider.value := c.(successes := c.successes + 1)]; }
        else if e.kind == MissionFailed { counts := counts[e.provider.value := c.(failures := c.failures + 1)]; }
      }
      i := i + 1;
    }
    assert log[..|log|] == log;
    r := map p | p in counts :: Reputation(counts[p].successes, counts[p].failures, Score(counts[p]));
  }

  // The missions whose events judge p.
  function JudgedBy(log: seq<Entry>, p: Id): (ms: set<Id>)
    ensures forall m :: m in ms ==> exists i :: 0 <= i < |log| && log[i].mission == m && log[i].provider == Some(p)
  {
    if log == [] then {}
    else
      var front, e := log[..|log| - 1], log[|log| - 1];
      var ms := JudgedBy(front, p);
      assert forall i :: 0 <= i < |front| ==> log[i] == front[i];
      if e.provider == Some(p) && e.kind != OtherKind then ms + {e.mission} else ms
  }

  lemma {:induction false} JudgedIsCounted(log: seq<Entry>, p: Id, m: Id)
    requires m in JudgedBy(log, p)
    ensures MissionSafety.Judgements(log, m) >= 1
    decreases |log|
  {
    if m in JudgedBy(log[..|log| - 1], p) { JudgedIsCounted(log[..|log| - 1], p, m); }
  }

  lemma {:induction false} JudgementsGrow(log: seq<Entry>, n: nat, m: Id)
    requires n <= |log|
    ensures MissionSafety.Judgements(log[..n], m) <= MissionSafety.Judgements(log, m)
    decreases |log| - n
  {
    if n < |log| {
      JudgementsGrow(log, n + 1, m);
      assert log[..n + 1][..n] == log[..n];
    } else {
      assert log[..n] == log;
    }
  }

  predicate JudgedOnce(log: seq<Entry>, m: Id) { MissionSafety.Judgements(log, m) <= 1 }

  lemma {:induction false} CountsAreMissions(log: seq<Entry>, p: Id)
    requires forall m :: JudgedOnce(log, m)
    ensures CountsOf(log, p).successes + CountsOf(log, p).failures == |JudgedBy(log, p)|
    decreases |log|
  {
    if log != [] {
      var front, e := log[..|log| - 1], log[|log| - 1];
      forall m ensures JudgedOnce(front, m) {
        assert JudgedOnce(log, m);
        JudgementsGrow(log, |log| - 1, m);
      }
      CountsAreMissions(front, p);
      assert JudgedOnce(log, e.mission);
      if e.mission in JudgedBy(front, p) { JudgedIsCounted(front, p, e.mission); }
    }
  }

  // The missions that selected provider p.
  function Selecting(s: State, p: Id): set<Id> { set m | m in s.missions && s.missions[m].row.provider == p }

  /** On every run, a provider's successes and failures together never exceed the missions that selected it. */
  lemma CountedAtMostOncePerMission(es: seq<Event>, p: Id)
    requires ValidRun(Init(), es)
    ensures var s := After(Init(), es);
            var c := CountsOf(s.log, p);
            c.successes + c.failures <= |Selecting(s, p)|
  {
    var s := After(Init(), es);
    forall m ensures JudgedOnce(s.log, m) { MissionSafety.JudgedAtMostOnce(es, m); }
    CountsAreMissions(s.log, p);
    forall m | m in JudgedBy(s.log, p) ensures m in Selecting(s, p) { MissionSafety.JudgedAtMostOnce(es, m); }
    SubsetIsSmaller(JudgedBy(s.log, p), Selecting(s, p));
  }

  lemma {:induction false} SubsetIsSmaller(a: set<Id>, b: set<Id>)
    requires a <= b
    ensures |a| <= |b|
    decreases |a|
  {
    if x :| x in a { SubsetIsSmaller(a - {x}, b - {x}); }
  }
}
