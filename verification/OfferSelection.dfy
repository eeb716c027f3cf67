/** Deterministic selection of a credit offer: scores as reals, ties broken by the smallest id. */
module OfferSelection {
  import opened Common
  import opened JsonText

  // --- weighted criteria -------------------------------------------------------------------------------

  datatype Criterion<!T> = Criterion(key: Text, weight: real, score: T -> real)

  datatype Ranked<+T> = Ranked(candidate: T, score: real, breakdown: map<Text, real>)

  datatype Result<+T> = Ok(value: T) | Err

  /** The first n criteria's scores, weighted and added up. */
  function WeightedScore<T>(candidate: T, criteria: seq<Criterion<T>>, n: nat): real
    requires n <= |criteria|
  {
    if n == 0 then 0.0 else WeightedScore(candidate, criteria, n - 1) + Contribution(candidate, criteria[n - 1])
  }

  function Contribution<T>(candidate: T, c: Criterion<T>): real { c.score(candidate) * c.weight }

  predicate Sound<T>(candidate: T, c: Criterion<T>) { c.key != [] && c.weight >= 0.0 && 0.0 <= c.score(candidate) <= 1.0 }

  // The first n criteria are sound and have distinct keys.
  predicate Scorable<T>(candidate: T, criteria: seq<Criterion<T>>, n: nat)
    requires n <= |criteria|
  {
    && (forall i :: 0 <= i < n ==> Sound(candidate, criteria[i]))
    && (forall i, j :: 0 <= i < j < n ==> criteria[i].key != criteria[j].key)
  }

  predicate HasKey<T>(criteria: seq<Criterion<T>>, n: nat, k: Text)
    requires n <= |criteria|
  {
    exists i :: 0 <= i < n && criteria[i].key == k
  }

  // The contribution of each of the first n criteria under its key.
  predicate BreaksDown<T>(candidate: T, criteria: seq<Criterion<T>>, n: nat, m: map<Text, real>)
    requires n <= |criteria|
  {
    && (forall i :: 0 <= i < n ==> criteria[i].key in m && m[criteria[i].key] == Contribution(candidate, criteria[i]))
    && (forall k :: k in m ==> HasKey(criteria, n, k))
  }

  // Taking the next criterion in: its key must be new, and it must be sound.
  lemma OneMore<T>(candidate: T, criteria: seq<Criterion<T>>, n: nat, m: map<Text, real>)
    requires n < |criteria| && BreaksDown(candidate, criteria, n, m) && Scorable(candidate, criteria, n)
    ensures var c := criteria[n];
            && (c.key in m || !Sound(candidate, c) ==> !Scorable(candidate, criteria, |criteria|))
            && (c.key !in m && Sound(candidate, c) ==> Scorable(candidate, criteria, n + 1))
            && (c.key !in m ==> BreaksDown(candidate, criteria, n + 1, m[c.key := Contribution(candidate, c)]))
  {
    var c := criteria[n];
    if c.key in m {
      var i :| 0 <= i < n && criteria[i].key == c.key;
      assert criteria[i].key == criteria[n].key;
    } else {
      var after := m[c.key := Contribution(candidate, c)];
      forall k | k in after ensures HasKey(criteria, n + 1, k) {
        if k == c.key {
          assert criteria[n].key == k;
        } else {
          assert HasKey(criteria, n, k);
          var i :| 0 <= i < n && criteria[i].key == k;
          assert criteria[i].key == k;
        }
      }
    }
  }

  /** One pass over the criteria; refuses them exactly when a key, a weight or a score is not allowed. */
  method Evaluate<T>(candidate: T, criteria: seq<Criterion<T>>) returns (r: Result<Ranked<T>>)
    ensures r.Ok? <==> Scorable(candidate, criteria, |criteria|)
    ensures r.Ok? ==> r.value.candidate == candidate && r.value.score == WeightedScore(candidate, criteria, |criteria|)
                      && BreaksDown(candidate, criteria, |criteria|, r.value.breakdown)
  {
    var keys: set<Text>, entries: map<Text, real>, score := {}, map[], 0.0;
    for i := 0 to |criteria|
      invariant Scorable(candidate, criteria, i) && score == WeightedScore(candidate, criteria, i)
      invariant keys == entries.Keys && BreaksDown(candidate, criteria, i, entries)
    {
      var c := criteria[i];
      OneMore(candidate, criteria, i, entries);
      if c.key == [] || c.key in keys { return Err; }
      if c.weight < 0.0 { return Err; }
      var raw := c.score(candidate);
      if raw < 0.0 || raw > 1.0 { return Err; }
      var contribution := Contribution(candidate, c);
      keys := keys + {c.key};
      entries := entries[c.key := contribution];
      score := score + contribution;
    }
    return Ok(Ranked(candidate, score, entries));
  }

  // --- scores of one offer ---------------------------------------------------------------------------------

  datatype Offer = Offer(id: Text, principal: int, fee: int, expiresAt: int, signed: bool)

  const RATIO_SCALE: int := 1_000_000_000_000

  /** A fraction truncated to twelve decimals. */
  function Ratio(numerator: int, denominator: int): real
  {
    if denominator <= 0 then (if numerator <= 0 then 1.0 else 0.0)
    else if numerator <= 0 then 0.0
    else (numerator * RATIO_SCALE / denominator) as real / RATIO_SCALE as real
  }

  lemma FloorBounds(x: nat, d: nat)
    requires d > 0
    ensures (x / d) as real <= x as real / d as real < (x / d) as real + 1.0
  {
    var q, r, y := x / d, d as real, x as real / d as real;
    assert q * d <= x < q * d + d;
    assert (q as real) * r == (q * d) as real;
    assert y * r == x as real && (q as real + 1.0) * r == (q * d) as real + r;
    Cancels(q as real, y, r);
    Cancels(q as real + 1.0, y, r);
  }

  /** Truncation never overshoots, and loses less than one part in 10^12. */
  lemma RatioIsClose(n: int, d: int)
    requires 0 <= n <= d && d > 0
    ensures 0.0 <= Ratio(n, d) <= 1.0
    ensures Ratio(n, d) <= n as real / d as real < Ratio(n, d) + 1.0 / RATIO_SCALE as real
  {
    if n > 0 {
      var x := n * RATIO_SCALE;
      FloorBounds(x, d);
      var q := x / d;
      var s := RATIO_SCALE as real;
      assert x as real == n as real * s;
      var exact := n as real / d as real;
      assert x as real / d as real == exact * s by {
        assert exact * d as real == n as real;
        QuotientScales(n as real, d as real, s);
      }
      assert Ratio(n, d) == q as real / s;
      AtMostOne(n as real, d as real);
      ScaleDown(q as real, exact, s);
    }
  }

  lemma QuotientScales(n: real, d: real, s: real)
    requires d > 0.0
    ensures (n * s) / d == (n / d) * s
  {
    assert n / d * d == n;
    var y := (n / d) * s;
    assert y * d == n * s;
  }

  lemma AtMostOne(n: real, d: real)
    requires 0.0 <= n <= d && d > 0.0
    ensures 0.0 <= n / d <= 1.0
  {
    var y := n / d;
    assert y * d == n;
    Cancels(0.0, y, d);
    Cancels(y, 1.0, d);
  }

  lemma ScaleDown(q: real, exact: real, s: real)
    requires s > 0.0 && 0.0 <= q <= exact * s < q + 1.0 && exact <= 1.0
    ensures 0.0 <= q / s <= exact < q / s + 1.0 / s && q / s <= 1.0
  {
    var r, one := q / s, 1.0 / s;
    assert r * s == q && one * s == 1.0 && (r + one) * s == q + 1.0;
    Cancels(r, exact, s);
    Cancels(r + one, exact, s);
    Cancels(0.0, r, s);
  }

  /** A larger denominator never raises the ratio. */
  lemma RatioFalls(n: int, d: int, e: int)
    requires 0 <= n && 0 < d <= e
    ensures Ratio(n, e) <= Ratio(n, d)
  {
    if n > 0 {
      var x := n * RATIO_SCALE;
      FloorFalls(x, d, e);
      SameScale(x / e, x / d);
    }
  }

  lemma FloorFalls(x: int, d: int, e: int)
    requires 0 <= x && 0 < d <= e
    ensures x / e <= x / d
  {
    FloorIs(x, d);
    FloorIs(x, e);
    LargerFactor(e, d, x / e);
    SmallerFactor(x / e, x / d + 1, d);
  }

  lemma FloorIs(x: int, d: int)
    requires 0 <= x && 0 < d
    ensures 0 <= x / d && x / d * d <= x < (x / d + 1) * d
  {
    assert (x / d + 1) * d == x / d * d + d;
  }

  lemma LargerFactor(a: int, b: int, d: int)
    requires d >= 0 && a >= b
    ensures a * d >= b * d
  {
    assert (a - b) * d >= 0;
  }

  lemma SmallerFactor(a: int, b: int, d: int)
    requires d > 0 && a * d < b * d
    ensures a < b
  {
    if a >= b { LargerFactor(a, b, d); }
  }

  lemma SameScale(a: int, b: int)
    requires a <= b
    ensures a as real / RATIO_SCALE as real <= b as real / RATIO_SCALE as real
  {
  }

  // What the scores of one selection are relative to.
  datatype Context = Context(required: int, now: int, minimumRepayment: int, maximumRemaining: int)

  function Repayment(o: Offer): int { o.principal + o.fee }

  function RepaymentScore(x: Context, o: Offer): real
  {
    if Repayment(o) == 0 then 1.0 else Ratio(x.minimumRepayment, Repayment(o))
  }

  function HeadroomScore(principal: int, required: int): real
  {
    if required == 0 then (if principal == 0 then 1.0 else Ratio(1, 1 + principal))
    else
      var headroom := principal - required;
      var ideal := if required / 10 > 0 then required / 10 else 1;
      var distance := if headroom >= ideal then headroom - ideal else ideal - headroom;
      Ratio(ideal, ideal + distance)
  }

  function ExpiryScore(x: Context, o: Offer): real
  {
    if x.maximumRemaining == 0 then 0.0 else (o.expiresAt - x.now) as real / x.maximumRemaining as real
  }

  const REPAYMENT_KEY: Text := [0x72, 0x65, 0x70, 0x61, 0x79, 0x6D, 0x65, 0x6E, 0x74]
  const HEADROOM_KEY: Text := [0x68, 0x65, 0x61, 0x64, 0x72, 0x6F, 0x6F, 0x6D]
  const EXPIRY_KEY: Text := [0x65, 0x78, 0x70, 0x69, 0x72, 0x79]

  function Criteria(x: Context): seq<Criterion<Offer>>
  {
    [Criterion(REPAYMENT_KEY, 0.6, (o: Offer) => RepaymentScore(x, o)),
     Criterion(HEADROOM_KEY, 0.2, (o: Offer) => HeadroomScore(o.principal, x.required)),
     Criterion(EXPIRY_KEY, 0.2, (o: Offer) => ExpiryScore(x, o))]
  }

  function Score(x: Context, o: Offer): real { WeightedScore(o, Criteria(x), 3) }

  lemma ScoreIs(x: Context, o: Offer)
    ensures Score(x, o) == RepaymentScore(x, o) * 0.6 + HeadroomScore(o.principal, x.required) * 0.2 + ExpiryScore(x, o) * 0.2
  {
    var cs := Criteria(x);
    assert WeightedScore(o, cs, 1) == 0.0 + Contribution(o, cs[0]);
    assert WeightedScore(o, cs, 2) == WeightedScore(o, cs, 1) + Contribution(o, cs[1]);
    assert WeightedScore(o, cs, 3) == WeightedScore(o, cs, 2) + Contribution(o, cs[2]);
  }

  // --- eligibility ---------------------------------------------------------------------------------------------

  predicate Eligible(o: Offer, required: int, now: int)
  {
    o.principal >= required && o.principal >= 0 && o.fee >= 0 && o.expiresAt > now && o.signed
  }

  function Filtered(os: seq<Offer>, required: int, now: int): (r: seq<Offer>)
    ensures forall o :: multiset(r)[o] == if Eligible(o, required, now) then multiset(os)[o] else 0
    ensures forall i :: 0 <= i < |r| ==> Eligible(r[i], required, now)
  {
    if os == [] then []
    else
      assert os == os[..|os| - 1] + [os[|os| - 1]];
      var rest := Filtered(os[..|os| - 1], required, now);
      if Eligible(os[|os| - 1], required, now) then rest + [os[|os| - 1]] else rest
  }

  function MinRepayment(os: seq<Offer>): (m: int)
    requires os != []
    ensures (forall i :: 0 <= i < |os| ==> m <= Repayment(os[i])) && exists i :: 0 <= i < |os| && Repayment(os[i]) == m
  {
    if |os| == 1 then Repayment(os[0])
    else
      assert forall i :: 0 <= i < |os| - 1 ==> os[..|os| - 1][i] == os[i];
      Min(MinRepayment(os[..|os| - 1]), Repayment(os[|os| - 1]))
  }

  function MaxRemaining(os: seq<Offer>, now: int): (m: int)
    requires os != []
    ensures (forall i :: 0 <= i < |os| ==> os[i].expiresAt - now <= m) && exists i :: 0 <= i < |os| && os[i].expiresAt - now == m
  {
    if |os| == 1 then os[0].expiresAt - now
    else
      assert forall i :: 0 <= i < |os| - 1 ==> os[..|os| - 1][i] == os[i];
      Max(MaxRemaining(os[..|os| - 1], now), os[|os| - 1].expiresAt - now)
  }

  function ContextOf(os: seq<Offer>, required: int, now: int): Context
    requires os != []
  {
    Context(required, now, MinRepayment(os), MaxRemaining(os, now))
  }

  /** Within its own selection an offer's three scores are all between 0 and 1, so no criterion is refused. */
  lemma OffersAreScorable(os: seq<Offer>, required: int, now: int, o: Offer)
    requires o in os && required >= 0 && forall i :: 0 <= i < |os| ==> Eligible(os[i], required, now)
    ensures Scorable(o, Criteria(ContextOf(os, required, now)), 3)
  {
    var x := ContextOf(os, required, now);
    var i :| 0 <= i < |os| && os[i] == o;
    assert 0 <= x.minimumRepayment <= Repayment(o);
    if Repayment(o) > 0 { RatioIsClose(x.minimumRepayment, Repayment(o)); }
    HeadroomIsFraction(o.principal, required);
    assert 0 < o.expiresAt - now <= x.maximumRemaining;
    AtMostOne((o.expiresAt - now) as real, x.maximumRemaining as real);
    var cs := Criteria(x);
    assert Sound(o, cs[0]) && Sound(o, cs[1]) && Sound(o, cs[2]);
    assert REPAYMENT_KEY[0] != HEADROOM_KEY[0] && REPAYMENT_KEY[0] != EXPIRY_KEY[0] && HEADROOM_KEY[0] != EXPIRY_KEY[0];
  }

  lemma HeadroomIsFraction(principal: int, required: int)
    requires principal >= required >= 0
    ensures 0.0 <= HeadroomScore(principal, required) <= 1.0
  {
    if required == 0 {
      if principal != 0 { RatioIsClose(1, 1 + principal); }
    } else {
      var headroom := principal - required;
      var ideal := if required / 10 > 0 then required / 10 else 1;
      RatioIsClose(ideal, ideal + (if headroom >= ideal then headroom - ideal else ideal - headroom));
    }
  }

  // --- ranking ----------------------------------------------------------------------------------------------------

  /** `ranked.sort`: higher scores first, then smaller ids. */
  predicate Before(x: Context, a: Offer, b: Offer)
  {
    Score(x, a) > Score(x, b) || (Score(x, a) == Score(x, b) && Less(a.id, b.id))
  }

  function Insert(x: Context, o: Offer, os: seq<Offer>): (r: seq<Offer>)
    ensures multiset(r) == multiset(os) + multiset{o} && |r| == |os| + 1
  {
    if os == [] || !Before(x, os[0], o) then [o] + os
    else
      assert os == [os[0]] + os[1..];
      [os[0]] + Insert(x, o, os[1..])
  }

  function Ranking(x: Context, os: seq<Offer>): (r: seq<Offer>)
    ensures multiset(r) == multiset(os) && |r| == |os|
  {
    if os == [] then []
    else
      assert os == [os[0]] + os[1..];
      Insert(x, os[0], Ranking(x, os[1..]))
  }

  predicate DistinctIds(os: seq<Offer>) { forall i, j :: 0 <= i < j < |os| ==> os[i].id != os[j].id }

  predicate Descends(x: Context, os: seq<Offer>) { forall i, j :: 0 <= i < j < |os| ==> Before(x, os[i], os[j]) }

  lemma BeforeIsOrder(x: Context, a: Offer, b: Offer)
    requires a.id != b.id
    ensures Before(x, a, b) <==> !Before(x, b, a)
  {
    LessIsTotal(a.id, b.id);
  }

  lemma BeforeIsTransitive(x: Context, a: Offer, b: Offer, c: Offer)
    requires Before(x, a, b) && Before(x, b, c)
    ensures Before(x, a, c)
  {
    if Score(x, a) == Score(x, c) { LessIsTransitive(a.id, b.id, c.id); }
  }

  lemma {:induction false} InsertDescends(x: Context, o: Offer, os: seq<Offer>)
    requires Descends(x, os) && forall i :: 0 <= i < |os| ==> os[i].id != o.id
    ensures Descends(x, Insert(x, o, os))
  {
    if os != [] {
      BeforeIsOrder(x, os[0], o);
      if Before(x, os[0], o) {
        var rest := Insert(x, o, os[1..]);
        InsertDescends(x, o, os[1..]);
        forall j | 0 <= j < |rest| ensures Before(x, os[0], rest[j]) {
          assert rest[j] in multiset(rest);
          if rest[j] != o { assert rest[j] in os[1..]; }
        }
      } else {
        forall j | 0 <= j < |os| ensures Before(x, o, os[j]) { if j > 0 { BeforeIsTransitive(x, o, os[0], os[j]); } }
      }
    }
  }

  lemma {:induction false} RankingDescends(x: Context, os: seq<Offer>)
    requires DistinctIds(os)
    ensures Descends(x, Ranking(x, os))
  {
    if os != [] {
      RankingDescends(x, os[1..]);
      var rest := Ranking(x, os[1..]);
      forall i | 0 <= i < |rest| ensures rest[i].id != os[0].id {
        assert rest[i] in multiset(rest);
        var j :| 0 <= j < |os[1..]| && os[1..][j] == rest[i];
        assert os[j + 1] == rest[i];
      }
      InsertDescends(x, os[0], rest);
    }
  }

  /** A set of offers has one ranking. */
  lemma {:induction false} RankingIsUnique(x: Context, a: seq<Offer>, b: seq<Offer>)
    requires Descends(x, a) && Descends(x, b) && multiset(a) == multiset(b)
    ensures a == b
    decreases |a|
  {
    if a != [] {
      SameFirst(x, a, b);
      assert a == [a[0]] + a[1..] && b == [b[0]] + b[1..];
      assert multiset(a[1..]) == multiset(a) - multiset{a[0]} && multiset(b[1..]) == multiset(b) - multiset{b[0]};
      RankingIsUnique(x, a[1..], b[1..]);
    } else {
      assert |multiset(b)| == |b|;
    }
  }

  lemma SameFirst(x: Context, a: seq<Offer>, b: seq<Offer>)
    requires a != [] && Descends(x, a) && Descends(x, b) && multiset(a) == multiset(b)
    ensures b != [] && a[0] == b[0]
  {
    assert a[0] in multiset(a) && b != [];
    assert b[0] in multiset(b);
    var i :| 0 <= i < |b| && b[i] == a[0];
    var j :| 0 <= j < |a| && a[j] == b[0];
    if i > 0 && j > 0 { LessIsTotal(a[0].id, b[0].id); }
  }

  datatype Selection = Refused | NoWinner | Selected(ranked: seq<Offer>, context: Context)

  /** `selectCreditOffer`: the ranked eligible offers, the winner first. */
  function Select(os: seq<Offer>, required: int, now: int): Selection
  {
    if required < 0 || !DistinctIds(os) then Refused
    else
      var eligible := Filtered(os, required, now);
      if eligible == [] then NoWinner
      else
        var x := ContextOf(eligible, required, now);
        Selected(Ranking(x, eligible), x)
  }

  lemma EligibleIdsDiffer(os: seq<Offer>, required: int, now: int)
    requires DistinctIds(os)
    ensures DistinctIds(Filtered(os, required, now))
    decreases |os|
  {
    if os != [] {
      var front := os[..|os| - 1];
      var rest := Filtered(front, required, now);
      EligibleIdsDiffer(front, required, now);
      forall i | 0 <= i < |rest| ensures rest[i].id != os[|os| - 1].id {
        assert rest[i] in multiset(rest);
        assert rest[i] in multiset(front);
        var j :| 0 <= j < |front| && front[j] == rest[i];
        assert os[j] == rest[i];
      }
    }
  }

  lemma SameContext(a: seq<Offer>, b: seq<Offer>, required: int, now: int)
    requires a != [] && b != [] && multiset(a) == multiset(b)
    ensures ContextOf(a, required, now) == ContextOf(b, required, now)
  {
    forall o ensures o in a <==> o in b { assert o in multiset(a) <==> o in multiset(b); }
    var i :| 0 <= i < |a| && Repayment(a[i]) == MinRepayment(a);
    var j :| 0 <= j < |b| && Repayment(b[j]) == MinRepayment(b);
    assert a[i] in b && b[j] in a;
    var k :| 0 <= k < |a| && a[k].expiresAt - now == MaxRemaining(a, now);
    var l :| 0 <= l < |b| && b[l].expiresAt - now == MaxRemaining(b, now);
    assert a[k] in b && b[l] in a;
  }

  lemma DistinctIdsPermute(a: seq<Offer>, b: seq<Offer>)
    requires multiset(a) == multiset(b) && DistinctIds(a)
    ensures DistinctIds(b)
  {
    forall i, j | 0 <= i < j < |b| ensures b[i].id != b[j].id {
      assert b[i] in multiset(b) && b[j] in multiset(b);
      var k :| 0 <= k < |a| && a[k] == b[i];
      var l :| 0 <= l < |a| && a[l] == b[j];
      if b[i] == b[j] {
        Twice(b, i, j);
        Once(a, k);
      }
    }
  }

  lemma Twice(os: seq<Offer>, i: nat, j: nat)
    requires i < j < |os| && os[i] == os[j]
    ensures multiset(os)[os[i]] >= 2
  {
    assert os == os[..j] + os[j..] && os[i] in os[..j] && os[j] in os[j..];
    assert multiset(os) == multiset(os[..j]) + multiset(os[j..]);
  }

  lemma {:induction false} Once(os: seq<Offer>, k: nat)
    requires k < |os| && DistinctIds(os)
    ensures multiset(os)[os[k]] == 1
    decreases |os|
  {
    assert os == [os[0]] + os[1..];
    if k == 0 {
      assert os[0] !in os[1..];
      assert os[0] !in multiset(os[1..]);
    } else {
      Once(os[1..], k - 1);
      assert os[1..][k - 1] == os[k] && os[k] != os[0];
    }
  }

  /** The order in which offers arrive has no influence on the outcome. */
  lemma OrderOfOffersIsIrrelevant(a: seq<Offer>, b: seq<Offer>, required: int, now: int)
    requires multiset(a) == multiset(b)
    ensures Select(a, required, now) == Select(b, required, now)
  {
    if DistinctIds(a) { DistinctIdsPermute(a, b); }
    if DistinctIds(b) { DistinctIdsPermute(b, a); }
    if required >= 0 && DistinctIds(a) {
      var e, f := Filtered(a, required, now), Filtered(b, required, now);
      assert forall o :: multiset(e)[o] == multiset(f)[o];
      assert multiset(e) == multiset(f) && |multiset(e)| == |e| && |multiset(f)| == |f|;
      if e != [] {
        SameContext(e, f, required, now);
        var x := ContextOf(e, required, now);
        EligibleIdsDiffer(a, required, now);
        EligibleIdsDiffer(b, required, now);
        RankingDescends(x, e);
        RankingDescends(x, f);
        RankingIsUnique(x, Ranking(x, e), Ranking(x, f));
      }
    }
  }

  /** The ranking lists the eligible offers, and its first beats all others by score, or by id among equals. */
  lemma WinnerIsBest(os: seq<Offer>, required: int, now: int, o: Offer)
    requires Select(os, required, now).Selected?
    ensures var s := Select(os, required, now);
            && s.ranked != [] && (o in s.ranked <==> o in os && Eligible(o, required, now))
            && (o in s.ranked ==>
                  Score(s.context, o) <= Score(s.context, s.ranked[0])
                  && (Score(s.context, o) == Score(s.context, s.ranked[0]) ==> o == s.ranked[0] || Less(s.ranked[0].id, o.id)))
  {
    var s := Select(os, required, now);
    var e := Filtered(os, required, now);
    assert |s.ranked| == |e|;
    assert o in s.ranked <==> o in multiset(s.ranked);
    assert o in os <==> o in multiset(os);
    EligibleIdsDiffer(os, required, now);
    RankingDescends(s.context, e);
    if o in s.ranked {
      var i :| 0 <= i < |s.ranked| && s.ranked[i] == o;
      if i > 0 { assert Before(s.context, s.ranked[0], s.ranked[i]); }
    }
  }

  /** Of two eligible offers of equal principal, one no dearer and expiring no earlier never scores lower. */
  lemma BetterTermsScoreNoLower(os: seq<Offer>, required: int, now: int, a: Offer, b: Offer)
    requires Select(os, required, now).Selected?
    requires a in Select(os, required, now).ranked && b in Select(os, required, now).ranked
    requires a.principal == b.principal && a.fee <= b.fee && a.expiresAt >= b.expiresAt
    ensures var x := Select(os, required, now).context; Score(x, a) >= Score(x, b)
  {
    var e := Filtered(os, required, now);
    var x := ContextOf(e, required, now);
    assert a in multiset(Ranking(x, e)) && b in multiset(Ranking(x, e));
    BetterAmong(e, required, now, a, b);
  }

  lemma BetterAmong(e: seq<Offer>, required: int, now: int, a: Offer, b: Offer)
    requires required >= 0 && a in e && b in e && forall i :: 0 <= i < |e| ==> Eligible(e[i], required, now)
    requires a.principal == b.principal && a.fee <= b.fee && a.expiresAt >= b.expiresAt
    ensures Score(ContextOf(e, required, now), a) >= Score(ContextOf(e, required, now), b)
  {
    var x := ContextOf(e, required, now);
    var i :| 0 <= i < |e| && e[i] == a;
    var j :| 0 <= j < |e| && e[j] == b;
    assert 0 <= x.minimumRepayment <= Repayment(b) && b.expiresAt - now <= x.maximumRemaining;
    CheaperRepays(x, a, b);
    LaterExpiry((a.expiresAt - now) as real, (b.expiresAt - now) as real, x.maximumRemaining as real);
    ScoreIs(x, a);
    ScoreIs(x, b);
  }

  lemma CheaperRepays(x: Context, a: Offer, b: Offer)
    requires 0 <= Repayment(a) <= Repayment(b) && 0 <= x.minimumRepayment <= Repayment(b)
    ensures RepaymentScore(x, a) >= RepaymentScore(x, b)
  {
    if Repayment(b) > 0 { RatioIsClose(x.minimumRepayment, Repayment(b)); }
    if Repayment(a) > 0 { RatioFalls(x.minimumRepayment, Repayment(a), Repayment(b)); }
  }

  lemma LaterExpiry(a: real, b: real, m: real)
    requires a >= b && m > 0.0
    ensures a / m >= b / m
  {
    assert (a / m) * m == a && (b / m) * m == b;
    Cancels(b / m, a / m, m);
  }

  // --- carrying it out ---------------------------------------------------------------------------------------------

  predicate RankedBefore(a: Ranked<Offer>, b: Ranked<Offer>)
  {
    a.score > b.score || (a.score == b.score && Less(a.candidate.id, b.candidate.id))
  }

  function InsertRanked(e: Ranked<Offer>, es: seq<Ranked<Offer>>): seq<Ranked<Offer>>
  {
    if es == [] || !RankedBefore(es[0], e) then [e] + es else [es[0]] + InsertRanked(e, es[1..])
  }

  function SortRanked(es: seq<Ranked<Offer>>): seq<Ranked<Offer>>
  {
    if es == [] then [] else InsertRanked(es[0], SortRanked(es[1..]))
  }

  // The entry is the offer's evaluation: its score, and what each criterion contributed to it.
  predicate Evaluates(x: Context, e: Ranked<Offer>, o: Offer)
  {
    e.candidate == o && e.score == Score(x, o) && BreaksDown(o, Criteria(x), 3, e.breakdown)
  }

  // Each entry is the evaluation of the offer at its place.
  predicate Carries(x: Context, es: seq<Ranked<Offer>>, os: seq<Offer>)
  {
    |es| == |os| && forall i :: 0 <= i < |os| ==> Evaluates(x, es[i], os[i])
  }

  lemma CarriesOneMore(x: Context, e: Ranked<Offer>, es: seq<Ranked<Offer>>, o: Offer, os: seq<Offer>)
    requires Carries(x, es, os) && Evaluates(x, e, o)
    ensures Carries(x, [e] + es, [o] + os)
  {
  }

  lemma {:induction false} InsertsAlike(x: Context, e: Ranked<Offer>, es: seq<Ranked<Offer>>, o: Offer, os: seq<Offer>)
    requires Carries(x, es, os) && Evaluates(x, e, o)
    ensures Carries(x, InsertRanked(e, es), Insert(x, o, os))
  {
    if os != [] {
      assert Evaluates(x, es[0], os[0]);
      assert RankedBefore(es[0], e) == Before(x, os[0], o);
      if Before(x, os[0], o) {
        InsertsAlike(x, e, es[1..], o, os[1..]);
        CarriesOneMore(x, es[0], InsertRanked(e, es[1..]), os[0], Insert(x, o, os[1..]));
        return;
      }
    }
    CarriesOneMore(x, e, es, o, os);
  }

  /** Sorting the evaluated entries is ranking their offers. */
  lemma {:induction false} SortsAlike(x: Context, es: seq<Ranked<Offer>>, os: seq<Offer>)
    requires Carries(x, es, os)
    ensures Carries(x, SortRanked(es), Ranking(x, os))
  {
    if os != [] {
      SortsAlike(x, es[1..], os[1..]);
      InsertsAlike(x, es[0], SortRanked(es[1..]), os[0], Ranking(x, os[1..]));
    }
  }

  /** `selectBest`: every candidate evaluated, then sorted. */
  method SelectBest(x: Context, eligible: seq<Offer>) returns (ranked: seq<Ranked<Offer>>)
    requires forall i :: 0 <= i < |eligible| ==> Scorable(eligible[i], Criteria(x), 3)
    ensures Carries(x, ranked, Ranking(x, eligible))
  {
    var evaluated: seq<Ranked<Offer>> := [];
    for i := 0 to |eligible|
      invariant Carries(x, evaluated, eligible[..i])
    {
      var one := Evaluate(eligible[i], Criteria(x));
      evaluated := evaluated + [one.value];
    }
    assert eligible[..|eligible|] == eligible;
    SortsAlike(x, evaluated, eligible);
    return SortRanked(evaluated);
  }

  /** The whole selection: refused, without a winner, or the ranking that `Select` specifies. */
  method SelectCreditOffer(os: seq<Offer>, required: int, now: int) returns (r: Result<seq<Ranked<Offer>>>)
    ensures r.Err? <==> Select(os, required, now).Refused?
    ensures r.Ok? ==> (r.value == [] <==> Select(os, required, now).NoWinner?)
    ensures r.Ok? && r.value != [] ==>
              Carries(Select(os, required, now).context, r.value, Select(os, required, now).ranked)
  {
    if required < 0 { return Err; }
    if !DistinctIds(os) { return Err; }
    var eligible := Filtered(os, required, now);
    if |eligible| == 0 { return Ok([]); }
    var x := ContextOf(eligible, required, now);
    forall i | 0 <= i < |eligible| ensures Scorable(eligible[i], Criteria(x), 3) {
      OffersAreScorable(eligible, required, now, eligible[i]);
    }
    var ranked := SelectBest(x, eligible);
    return Ok(ranked);
  }
}
