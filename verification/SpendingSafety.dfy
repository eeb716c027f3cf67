/**
 The spending ledger balances: every budget's spent column is the sum of what was reserved under
 it, no cap is exceeded, and each reservation is one consumed nonce and one stored authorization.
 */
module SpendingSafety {
  import opened Common
  import opened SignerTables
  import Ledger

  // --- sums -----------------------------------------------------------------------------------------------

  /** What mission m's consumed nonces add up to. */
  function Consumed(rows: seq<NonceRow>, m: Id): int
  {
    if rows == [] then 0
    else Consumed(rows[..|rows| - 1], m) + (if rows[|rows| - 1].mission == m then rows[|rows| - 1].amount else 0)
  }

  lemma {:induction false} ConsumedAppend(rows: seq<NonceRow>, row: NonceRow, m: Id)
    ensures Consumed(rows + [row], m) == Consumed(rows, m) + (if row.mission == m then row.amount else 0)
  {
    assert (rows + [row])[..|rows|] == rows;
  }

  lemma {:induction false} EachIsCounted(rows: seq<NonceRow>, i: nat)
    requires i < |rows|
    ensures rows[i].amount <= Consumed(rows, rows[i].mission)
    decreases |rows|
  {
    var front := rows[..|rows| - 1];
    ConsumedIsNonNegative(front, rows[i].mission);
    if i < |front| {
      assert front[i] == rows[i];
      EachIsCounted(front, i);
    }
  }

  lemma {:induction false} ConsumedIsNonNegative(rows: seq<NonceRow>, m: Id)
    ensures 0 <= Consumed(rows, m)
    decreases |rows|
  {
    if rows != [] { ConsumedIsNonNegative(rows[..|rows| - 1], m); }
  }

  /** What the missions in `ids` that draw on session s have spent. */
  ghost function SpentBy(missions: map<Id, MissionRow>, ids: set<Id>, s: Id): int
    requires ids <= missions.Keys
  {
    if ids == {} then 0
    else
      var m :| m in ids;
      SpentBy(missions, ids - {m}, s) + (if missions[m].session == s then missions[m].spent else 0)
  }

  // The order in which missions are added up does not matter.
  lemma {:induction false} SpentByPicks(missions: map<Id, MissionRow>, ids: set<Id>, s: Id, m: Id)
    requires ids <= missions.Keys && m in ids
    ensures SpentBy(missions, ids, s)
         == SpentBy(missions, ids - {m}, s) + (if missions[m].session == s then missions[m].spent else 0)
    decreases |ids|
  {
    var n :| n in ids && SpentBy(missions, ids, s)
                      == SpentBy(missions, ids - {n}, s) + (if missions[n].session == s then missions[n].spent else 0);
    if n != m {
      SpentByPicks(missions, ids - {n}, s, m);
      SpentByPicks(missions, ids - {m}, s, n);
      assert ids - {n} - {m} == ids - {m} - {n};
    }
  }

  lemma {:induction false} SpentByAgrees(a: map<Id, MissionRow>, b: map<Id, MissionRow>, ids: set<Id>, s: Id)
    requires ids <= a.Keys && ids <= b.Keys && forall m :: m in ids ==> a[m] == b[m]
    ensures SpentBy(a, ids, s) == SpentBy(b, ids, s)
    decreases |ids|
  {
    if ids != {} {
      var m :| m in ids;
      SpentByPicks(a, ids, s, m);
      SpentByPicks(b, ids, s, m);
      SpentByAgrees(a, b, ids - {m}, s);
    }
  }

  lemma SpentByUpdate(missions: map<Id, MissionRow>, m: Id, row: MissionRow, s: Id)
    ensures SpentBy(missions[m := row], missions[m := row].Keys, s)
         == SpentBy(missions, missions.Keys - {m}, s) + (if row.session == s then row.spent else 0)
  {
    var after := missions[m := row];
    SpentByPicks(after, after.Keys, s, m);
    assert after.Keys - {m} == missions.Keys - {m};
    SpentByAgrees(after, missions, missions.Keys - {m}, s);
  }

  // --- invariant --------------------------------------------------------------------------------------------

  predicate MissionBalanced(t: Spending, m: Id)
    requires m in t.missions
  {
    var row := t.missions[m];
    && row.spent == Consumed(t.nonces, m) && row.spent <= row.cap
    && m in t.policies && row.cap == t.policies[m].spendingCap && row.session == t.policies[m].session
    && row.session in t.sessions && t.policies[m].sessionCap <= t.sessions[row.session].cap
  }

  ghost predicate SessionBalanced(t: Spending, s: Id)
    requires s in t.sessions
  {
    t.sessions[s].spent == SpentBy(t.missions, t.missions.Keys, s) && t.sessions[s].spent <= t.sessions[s].cap
  }

  // Reservation i: its consumed nonce and its stored authorization are two records of one fact.
  predicate Paired(t: Spending, i: nat)
    requires i < |t.nonces| && i < |t.authorizations|
  {
    var n, a := t.nonces[i], t.authorizations[i];
    n == NonceRow(a.mission, a.nonce, a.commitment, a.amount) && n.mission in t.missions && n.amount > 0
  }

  predicate Different(a: Authorization, b: Authorization)
  {
    (a.mission != b.mission || a.nonce != b.nonce) && a.commitment != b.commitment
    && a.bytesHash != b.bytesHash && a.txId != b.txId
  }

  ghost predicate Balanced(t: Spending)
  {
    && t.missions.Keys == t.policies.Keys
    && (forall m :: m in t.missions ==> MissionBalanced(t, m))
    && (forall s :: s in t.sessions ==> SessionBalanced(t, s))
    && |t.nonces| == |t.authorizations|
    && (forall i :: 0 <= i < |t.nonces| ==> Paired(t, i))
    && (forall i, j :: 0 <= i < j < |t.authorizations| ==> Different(t.authorizations[i], t.authorizations[j]))
  }

  function Empty(): Spending { Spending(map[], map[], map[], [], []) }

  lemma EmptyBalances()
    ensures Balanced(Empty())
  {
  }

  // --- registration ---------------------------------------------------------------------------------------

  lemma RegisterKeepsBalance(t: Spending, m: Id, p: Policy, rootMatches: bool)
    requires Balanced(t) && RegisterPolicy(t, m, p, rootMatches).Ok?
    ensures Balanced(RegisterPolicy(t, m, p, rootMatches).value.0)
  {
    if m !in t.policies {
      var t' := RegisterPolicy(t, m, p, rootMatches).value.0;
      NothingConsumedBefore(t, m);
      forall n | n in t'.missions ensures MissionBalanced(t', n) { if n != m { assert MissionBalanced(t, n); } }
      forall s | s in t'.sessions ensures SessionBalanced(t', s) {
        SpentByUpdate(t.missions, m, MissionRow(p.spendingCap, 0, p.session), s);
        assert t.missions.Keys - {m} == t.missions.Keys;
        if s in t.sessions { assert SessionBalanced(t, s); } else { NothingSpentBefore(t, t.missions.Keys, s); }
      }
      forall i | 0 <= i < |t'.nonces| ensures Paired(t', i) { assert Paired(t, i); }
    }
  }

  lemma NothingConsumedBefore(t: Spending, m: Id)
    requires Balanced(t) && m !in t.missions
    ensures Consumed(t.nonces, m) == 0
  {
    forall i | 0 <= i < |t.nonces| ensures t.nonces[i].mission != m { assert Paired(t, i); }
    ConsumedOfOthers(t.nonces, m);
  }

  lemma {:induction false} ConsumedOfOthers(rows: seq<NonceRow>, m: Id)
    requires forall i :: 0 <= i < |rows| ==> rows[i].mission != m
    ensures Consumed(rows, m) == 0
  {
    if rows != [] { ConsumedOfOthers(rows[..|rows| - 1], m); }
  }

  lemma {:induction false} NothingSpentBefore(t: Spending, ids: set<Id>, s: Id)
    requires Balanced(t) && s !in t.sessions && ids <= t.missions.Keys
    ensures SpentBy(t.missions, ids, s) == 0
    decreases |ids|
  {
    if ids != {} {
      var m :| m in ids;
      SpentByPicks(t.missions, ids, s, m);
      assert MissionBalanced(t, m);
      NothingSpentBefore(t, ids - {m}, s);
    }
  }

  // --- reservation ------------------------------------------------------------------------------------------

  /** What a caller can check beforehand: a reservation goes through exactly when all of this holds. */
  predicate CanReserve(t: Spending, a: Authorization)
  {
    && a.mission in t.missions && a.amount > 0
    && !NonceExists(t.nonces, a.mission, a.nonce) && !CommitmentExists(t.nonces, a.commitment)
    && t.missions[a.mission].spent + a.amount <= t.missions[a.mission].cap
    && t.missions[a.mission].session in t.sessions
    && t.sessions[t.missions[a.mission].session].spent + a.amount <= t.sessions[t.missions[a.mission].session].cap
    && (forall i :: 0 <= i < |t.authorizations| ==>
          t.authorizations[i].bytesHash != a.bytesHash && t.authorizations[i].txId != a.txId)
  }

  /** A reservation makes all four writes exactly when `CanReserve` holds; its session is never the one missing. */
  lemma ReserveSucceedsIff(t: Spending, a: Authorization)
    requires Balanced(t)
    ensures Reserve(t, a).Ok? <==> CanReserve(t, a)
    ensures Reserve(t, a) != Err(UnknownSession)
    ensures CanReserve(t, a) ==>
              var row := t.missions[a.mission];
              Reserve(t, a).value == Spending(
                t.policies,
                t.missions[a.mission := row.(spent := row.spent + a.amount)],
                t.sessions[row.session := t.sessions[row.session].(spent := t.sessions[row.session].spent + a.amount)],
                t.nonces + [NonceRow(a.mission, a.nonce, a.commitment, a.amount)],
                t.authorizations + [a])
  {
    forall i | 0 <= i < |t.authorizations|
      ensures t.authorizations[i].mission == a.mission && t.authorizations[i].nonce == a.nonce ==> NonceExists(t.nonces, a.mission, a.nonce)
      ensures t.authorizations[i].commitment == a.commitment ==> CommitmentExists(t.nonces, a.commitment)
    {
      assert Paired(t, i);
    }
    if a.mission in t.missions { assert MissionBalanced(t, a.mission); }
  }

  lemma ReserveKeepsBalance(t: Spending, a: Authorization)
    requires Balanced(t) && Reserve(t, a).Ok?
    ensures Balanced(Reserve(t, a).value)
  {
    ReserveSucceedsIff(t, a);
    var t' := Reserve(t, a).value;
    var row := t.missions[a.mission];
    forall m | m in t'.missions ensures MissionBalanced(t', m) {
      assert MissionBalanced(t, m);
      ConsumedAppend(t.nonces, NonceRow(a.mission, a.nonce, a.commitment, a.amount), m);
    }
    forall s | s in t'.sessions ensures SessionBalanced(t', s) {
      assert SessionBalanced(t, s);
      SpentByUpdate(t.missions, a.mission, t'.missions[a.mission], s);
      SpentByPicks(t.missions, t.missions.Keys, s, a.mission);
    }
    forall i | 0 <= i < |t'.nonces| ensures Paired(t', i) { if i < |t.nonces| { assert Paired(t, i); } }
    forall i | 0 <= i < |t.authorizations| ensures Different(t.authorizations[i], a) {
      assert Paired(t, i);
    }
  }

  // --- every run ----------------------------------------------------------------------------------------------

  datatype Event = Registers(m: Id, p: Policy, rootMatches: bool) | Reserves(a: Authorization)

  // A refused request leaves every table as it was.
  function Next(t: Spending, e: Event): Spending
  {
    match e
    case Registers(m, p, rootMatches) =>
      var r := RegisterPolicy(t, m, p, rootMatches);
      if r.Ok? then r.value.0 else t
    case Reserves(a) =>
      var r := Reserve(t, a);
      if r.Ok? then r.value else t
  }

  function After(t: Spending, es: seq<Event>): Spending
    decreases |es|
  {
    if es == [] then t else After(Next(t, es[0]), es[1..])
  }

  lemma {:induction false} RunKeepsBalance(t: Spending, es: seq<Event>)
    requires Balanced(t)
    ensures Balanced(After(t, es))
    decreases |es|
  {
    if es != [] {
      StepExtends(t, es[0]);
      RunKeepsBalance(Next(t, es[0]), es[1..]);
    }
  }

  /** Over every run of registrations and reservations: what a mission spent is its consumed nonces, within its cap. */
  lemma MissionsStayWithinCap(es: seq<Event>, m: Id)
    requires m in After(Empty(), es).missions
    ensures var t := After(Empty(), es);
            && t.missions[m].spent == Consumed(t.nonces, m) && t.missions[m].spent <= t.missions[m].cap
            && m in t.policies && t.missions[m].cap == t.policies[m].spendingCap
  {
    EmptyBalances();
    RunKeepsBalance(Empty(), es);
    assert MissionBalanced(After(Empty(), es), m);
  }

  /** What a session spent is what all its missions spent together, within the session's cap. */
  lemma SessionsStayWithinCap(es: seq<Event>, s: Id)
    requires s in After(Empty(), es).sessions
    ensures var t := After(Empty(), es);
            t.sessions[s].spent == SpentBy(t.missions, t.missions.Keys, s) && t.sessions[s].spent <= t.sessions[s].cap
  {
    EmptyBalances();
    RunKeepsBalance(Empty(), es);
    assert SessionBalanced(After(Empty(), es), s);
  }

  /** Consumed nonces and authorizations correspond one to one, and no two share a nonce, commitment, bytes or id. */
  lemma ReservationsAreOneToOne(es: seq<Event>, i: nat, j: nat)
    requires i < |After(Empty(), es).nonces| && j < |After(Empty(), es).nonces|
    ensures var t := After(Empty(), es);
            && |t.nonces| == |t.authorizations|
            && t.nonces[i] == NonceRow(t.authorizations[i].mission, t.authorizations[i].nonce,
                                       t.authorizations[i].commitment, t.authorizations[i].amount)
            && (i != j ==> Different(t.authorizations[i], t.authorizations[j]))
  {
    EmptyBalances();
    RunKeepsBalance(Empty(), es);
    var t := After(Empty(), es);
    assert Paired(t, i);
    if i < j { assert Different(t.authorizations[i], t.authorizations[j]); }
    if j < i { assert Different(t.authorizations[j], t.authorizations[i]); }
  }

  // Caps and stored policies are never revised, and nothing consumed or authorized is taken back.
  predicate Extends(t: Spending, t': Spending)
  {
    && (forall s :: s in t.sessions ==> s in t'.sessions && t'.sessions[s].cap == t.sessions[s].cap)
    && (forall m :: m in t.policies ==> m in t'.policies && t'.policies[m] == t.policies[m])
    && t.nonces <= t'.nonces && t.authorizations <= t'.authorizations
  }

  lemma StepExtends(t: Spending, e: Event)
    requires Balanced(t)
    ensures Balanced(Next(t, e)) && Extends(t, Next(t, e))
  {
    match e
    case Registers(m, p, rootMatches) =>
      if RegisterPolicy(t, m, p, rootMatches).Ok? { RegisterKeepsBalance(t, m, p, rootMatches); }
    case Reserves(a) =>
      if Reserve(t, a).Ok? {
        ReserveKeepsBalance(t, a);
        ReserveSucceedsIff(t, a);
      }
  }

  /** In every continuation, session caps and policies stay what they were and all records are kept. */
  lemma {:induction false} RunExtends(t: Spending, es: seq<Event>)
    requires Balanced(t)
    ensures Extends(t, After(t, es))
    decreases |es|
  {
    if es != [] {
      StepExtends(t, es[0]);
      RunExtends(Next(t, es[0]), es[1..]);
    }
  }
}
