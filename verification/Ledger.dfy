/**
 The unreliable ledger every payment component writes to. A transaction is built and signed
 first (`Register`), its bytes may then reach a node any number of times (`Send`), and at some
 later moment the network either executes it (`Execute`) or refuses it for good (`Kill`).

 What a component may assume about the ledger is stated here and nowhere else:
  - only bytes that reached a node can execute, at most once, and not after `validUntil`;
  - an answer "failed" is given only for a transaction that will never execute;
  - the Mirror Node shows an executed transaction `lag` milliseconds after consensus at the latest.
 */
module Ledger {

  type TxId = nat

  datatype Fate = Open | Executed(at: int, seqNo: nat) | Dead

  datatype Tx<P> = Tx(payload: P, validUntil: int, sends: nat, fate: Fate)

  // `log` lists the executed transactions in consensus order; the n-th has sequence number n (from 1).
  datatype State<P> = State(now: int, txs: map<TxId, Tx<P>>, log: seq<TxId>)

  ghost predicate Inv<P>(l: State<P>)
  {
    && (forall i :: 0 <= i < |l.log| ==> l.log[i] in l.txs && l.txs[l.log[i]].fate.Executed?
                                         && l.txs[l.log[i]].fate.seqNo == i + 1)
    && (forall t :: t in l.txs && l.txs[t].fate.Executed? ==> Recorded(l, t))
  }

  ghost predicate Recorded<P>(l: State<P>, t: TxId)
    requires t in l.txs && l.txs[t].fate.Executed?
  {
    var x := l.txs[t];
    && 0 < x.fate.seqNo <= |l.log| && l.log[x.fate.seqNo - 1] == t
    && x.sends > 0 && x.fate.at <= x.validUntil && x.fate.at <= l.now
  }

  // Steps a client takes.

  predicate Fresh<P>(l: State<P>, t: TxId) { t !in l.txs }

  function Register<P>(l: State<P>, t: TxId, payload: P, validUntil: int): State<P>
  {
    l.(txs := l.txs[t := Tx(payload, validUntil, 0, Open)])
  }

  function Send<P>(l: State<P>, t: TxId): State<P>
    requires t in l.txs
  {
    l.(txs := l.txs[t := l.txs[t].(sends := l.txs[t].sends + 1)])
  }

  // Steps the environment takes on its own.

  predicate CanExecute<P>(l: State<P>, t: TxId)
  {
    t in l.txs && l.txs[t].fate.Open? && l.txs[t].sends > 0 && l.now <= l.txs[t].validUntil
  }

  function Execute<P>(l: State<P>, t: TxId): State<P>
    requires t in l.txs
  {
    l.(txs := l.txs[t := l.txs[t].(fate := Executed(l.now, |l.log| + 1))], log := l.log + [t])
  }

  function Kill<P>(l: State<P>, t: TxId): State<P>
    requires t in l.txs
  {
    l.(txs := l.txs[t := l.txs[t].(fate := Dead)])
  }

  datatype Event = Pass(ms: nat) | Settles(t: TxId) | Rejected(t: TxId)

  predicate Enabled<P>(l: State<P>, e: Event)
  {
    match e
    case Pass(_) => true
    case Settles(t) => CanExecute(l, t)
    case Rejected(t) => t in l.txs && l.txs[t].fate.Open?
  }

  function Next<P>(l: State<P>, e: Event): State<P>
    requires Enabled(l, e)
  {
    match e
    case Pass(ms) => l.(now := l.now + ms)
    case Settles(t) => Execute(l, t)
    case Rejected(t) => Kill(l, t)
  }

  // What the ledger may answer about transaction t at this moment.

  datatype Answer = Confirmed(seqNo: nat) | Failed | Uncertain

  predicate NodeMayAnswer<P>(l: State<P>, t: TxId, a: Answer)
  {
    t in l.txs &&
    match a
    case Confirmed(n) => l.txs[t].fate.Executed? && l.txs[t].fate.seqNo == n
    case Failed => l.txs[t].fate.Dead?
    case Uncertain => true
  }

  predicate MirrorMayAnswer<P>(l: State<P>, t: TxId, a: Answer, lag: nat)
  {
    NodeMayAnswer(l, t, a) &&
    (a.Uncertain? && l.txs[t].fate.Executed? ==> l.now < l.txs[t].fate.at + lag)
  }

  lemma RegisterKeepsInv<P>(l: State<P>, t: TxId, payload: P, validUntil: int)
    requires Inv(l) && Fresh(l, t)
    ensures Inv(Register(l, t, payload, validUntil))
  {
    var l' := Register(l, t, payload, validUntil);
    forall u | u in l'.txs && l'.txs[u].fate.Executed? ensures Recorded(l', u) {
      assert u != t && Recorded(l, u);
    }
  }

  lemma SendKeepsInv<P>(l: State<P>, t: TxId)
    requires Inv(l) && t in l.txs
    ensures Inv(Send(l, t))
  {
    var l' := Send(l, t);
    forall u | u in l'.txs && l'.txs[u].fate.Executed? ensures Recorded(l', u) {
      assert Recorded(l, u);
    }
  }

  lemma NextKeepsInv<P>(l: State<P>, e: Event)
    requires Inv(l) && Enabled(l, e)
    ensures Inv(Next(l, e))
  {
    var l' := Next(l, e);
    forall u | u in l'.txs && l'.txs[u].fate.Executed? ensures Recorded(l', u) {
      if l.txs[u].fate.Executed? { assert Recorded(l, u); }
    }
  }

  /** Past its validity, or refused, a transaction that has not executed never will. */
  predicate CannotExecute<P>(l: State<P>, t: TxId)
  {
    t in l.txs && !l.txs[t].fate.Executed? && (l.txs[t].fate.Dead? || l.now > l.txs[t].validUntil)
  }

  // `l'` is a later ledger: time and knowledge only grow, and a decided fate stays.
  ghost predicate Later<P(!new)>(l: State<P>, l': State<P>)
  {
    && l.now <= l'.now
    && (forall t :: t in l.txs ==> t in l'.txs && TxLater(l, l', t))
    && |l.log| <= |l'.log| && l'.log[..|l.log|] == l.log
  }

  ghost predicate TxLater<P>(l: State<P>, l': State<P>, t: TxId)
    requires t in l.txs && t in l'.txs
  {
    var x, y := l.txs[t], l'.txs[t];
    && x.payload == y.payload && x.validUntil == y.validUntil && x.sends <= y.sends
    && (!x.fate.Open? ==> y.fate == x.fate)
    && (x.fate.Open? && y.fate.Executed? ==> l.now <= y.fate.at <= x.validUntil)
  }

  lemma NextIsLater<P(!new)>(l: State<P>, e: Event)
    requires Enabled(l, e)
    ensures Later(l, Next(l, e))
  {
  }
}
