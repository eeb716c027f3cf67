/**
 Every interleaving of any number of `FundingService.accept` calls, over any number of offers,
 with restarts anywhere and leases stolen at will.

 The gateway's contract: `transfer` reports the transaction id to its `onPrepared` hook before it
 submits anything; it moves money at most once, possibly under another id than the one prepared,
 and never when the hook threw. `passed` (calls whose hook returned), `moved` (what money each call
 moved), `acked` (registrations the signer acknowledged) and `answers` are history.
 */
module FundingProtocol {
  import opened Common
  import opened LenderStore

  datatype Local =
    | Reconciling(o: OfferId, t: TxId)
    | Reconciled(o: OfferId, t: TxId)
    | Claiming(o: OfferId)
    | Transferring(o: OfferId)
    | Submitted(o: OfferId, t: TxId)
    | Resolved(o: OfferId, t: TxId, r: TxId)
    | Stored(o: OfferId, r: TxId)
    | Catching(o: OfferId)
    | Enqueueing(o: OfferId, t: TxId)
    | Enqueued(o: OfferId, t: TxId)
    | Registering(o: OfferId, t: TxId, payload: Payload)
    | Acknowledged(o: OfferId, t: TxId)

  datatype State = State(
    now: int,
    fundings: Fundings,
    outbox: Outbox,
    used: set<Token>,
    calls: map<Token, Local>,
    passed: map<Token, OfferId>,
    moved: map<Token, TxId>,
    acked: set<(OfferId, Payload)>,
    answers: set<(OfferId, TxId)>)

  function Init(now: int): State
  {
    State(now, map[], map[], {}, map[], map[], map[], {}, {})
  }

  datatype Event =
    | Passes(ms: nat)
    | Accepts(k: Token, o: OfferId, acceptance: Hash)
    | Reconciles(k: Token)
    | Claims(k: Token)
    | Hook(k: Token, t: TxId)
    | Moves(k: Token, r: TxId)
    | Resolves(k: Token)
    | Stores(k: Token)
    | Confirms(k: Token)
    | Throws(k: Token)
    | Releases(k: Token)
    | Enqueues(k: Token)
    | Looks(k: Token)
    | Acks(k: Token)
    | Marks(k: Token)
    | Fails(k: Token)
    | Stops(k: Token)

  /** Money moved under id t for offer o: what a Mirror Node reconciliation can confirm. */
  predicate MovedFor(s: State, o: OfferId, t: TxId)
  {
    exists k :: k in s.moved && s.moved[k] == t && k in s.passed && s.passed[k] == o
  }

  predicate Enabled(leaseMs: nat, s: State, e: Event)
  {
    match e
    case Passes(_) => true
    case Accepts(k, _, _) => k !in s.used
    case Reconciles(k) => k in s.calls && s.calls[k].Reconciling? && MovedFor(s, s.calls[k].o, s.calls[k].t)
    case Claims(k) => k in s.calls && s.calls[k].Claiming?
    case Hook(k, _) => k in s.calls && s.calls[k].Transferring?
    case Moves(k, r) => k in s.passed && k !in s.moved
    case Resolves(k) => k in s.calls && s.calls[k].Submitted? && k in s.moved
    case Stores(k) => k in s.calls && s.calls[k].Resolved?
    case Confirms(k) => k in s.calls && (s.calls[k].Reconciled? || s.calls[k].Stored?)
    case Throws(k) => k in s.calls && (s.calls[k].Transferring? || s.calls[k].Submitted?)
    case Releases(k) => k in s.calls && s.calls[k].Catching?
    case Enqueues(k) => k in s.calls && s.calls[k].Enqueueing?
    case Looks(k) => k in s.calls && s.calls[k].Enqueued?
    case Acks(k) => k in s.calls && s.calls[k].Registering?
    case Marks(k) => k in s.calls && s.calls[k].Acknowledged?
    case Fails(k) => k in s.calls && (s.calls[k].Registering? || s.calls[k].Acknowledged?)
    case Stops(k) => k in s.calls
  }

  function At(s: State, k: Token, l: Local): State { s.(calls := s.calls[k := l]) }

  function Ended(s: State, k: Token): State { s.(calls := s.calls - {k}) }

  function Answered(s: State, k: Token, o: OfferId, t: TxId): State
  {
    Ended(s.(answers := s.answers + {(o, t)}), k)
  }

  /** How a call goes on from the row it read. */
  function Branch(s: State, k: Token, o: OfferId, row: Funding): State
  {
    if row.tx.None? then (if row.status == Registered then s else At(s, k, Claiming(o)))
    else if row.status == Registered then s.(answers := s.answers + {(o, row.tx.value)})
    else if row.status == Confirmed || row.status == Reserved then At(s, k, Enqueueing(o, row.tx.value))
    else At(s, k, Reconciling(o, row.tx.value))
  }

  /** The step an event takes; one that is not enabled changes nothing. */
  function Next(leaseMs: nat, s: State, e: Event): State
  {
    if !Enabled(leaseMs, s, e) then s
    else
      match e
      case Passes(ms) => s.(now := s.now + ms)
      case Accepts(k, o, acceptance) =>
        var fundings := ReserveFunding(s.fundings, o, acceptance, s.now);
        var s1 := s.(used := s.used + {k}, fundings := fundings);
        if fundings[o].acceptance == acceptance then Branch(s1, k, o, fundings[o]) else s1
      case Reconciles(k) => At(s, k, Reconciled(s.calls[k].o, s.calls[k].t))
      case Claims(k) =>
        var claimed := ClaimSubmission(s.fundings, s.calls[k].o, k, s.now, s.now - leaseMs);
        if claimed.Some? then At(s.(fundings := claimed.value), k, Transferring(s.calls[k].o)) else Ended(s, k)
      case Hook(k, t) =>
        var o := s.calls[k].o;
        var stored := SetTransaction(s.fundings, o, k, t, s.now);
        if stored.Some? then At(s.(fundings := stored.value, passed := s.passed[k := o]), k, Submitted(o, t))
        else At(s, k, Catching(o))
      case Moves(k, r) => s.(moved := s.moved[k := r])
      case Resolves(k) => At(s, k, Resolved(s.calls[k].o, s.calls[k].t, s.moved[k]))
      case Stores(k) =>
        var l := s.calls[k];
        var stored := if l.t != l.r then ReplaceTransaction(s.fundings, l.o, k, l.t, l.r, s.now)
                      else SetTransaction(s.fundings, l.o, k, l.r, s.now);
        if stored.Some? then At(s.(fundings := stored.value), k, Stored(l.o, l.r)) else At(s, k, Catching(l.o))
      case Confirms(k) =>
        var l := s.calls[k];
        var t := if l.Stored? then l.r else l.t;
        var confirmed := MarkConfirmed(s.fundings, l.o, t, s.now);
        if confirmed.Some? then At(s.(fundings := confirmed.value), k, Enqueueing(l.o, t))
        else if l.Stored? then At(s, k, Catching(l.o))
        else Ended(s, k)
      case Throws(k) => At(s, k, Catching(s.calls[k].o))
      case Releases(k) =>
        var released := ReleaseSubmission(s.fundings, s.calls[k].o, k, s.now);
        Ended(if released.Some? then s.(fundings := released.value) else s, k)
      case Enqueues(k) =>
        var l := s.calls[k];
        if l.o in s.fundings then
          At(s.(outbox := Enqueue(s.outbox, l.o, Payload(s.fundings[l.o].acceptance, l.t))), k, Enqueued(l.o, l.t))
        else Ended(s, k)
      case Looks(k) =>
        var l := s.calls[k];
        var p := PendingRegistration(s.outbox, l.o);
        if p.Some? then At(s, k, Registering(l.o, l.t, p.value)) else Answered(s, k, l.o, l.t)
      case Acks(k) => At(s.(acked := s.acked + {(s.calls[k].o, s.calls[k].payload)}), k, Acknowledged(s.calls[k].o, s.calls[k].t))
      case Marks(k) =>
        var l := s.calls[k];
        Answered(s.(outbox := Delivered(s.outbox, l.o), fundings := MarkRegistered(s.fundings, l.o, s.now)), k, l.o, l.t)
      case Fails(k) => Ended(s.(outbox := RecordFailure(s.outbox, s.calls[k].o)), k)
      case Stops(k) => Ended(s, k)
  }

  ghost predicate ValidRun(leaseMs: nat, s: State, es: seq<Event>)
    decreases |es|
  {
    es == [] || (Enabled(leaseMs, s, es[0]) && ValidRun(leaseMs, Next(leaseMs, s, es[0]), es[1..]))
  }

  ghost function After(leaseMs: nat, s: State, es: seq<Event>): State
    decreases |es|
  {
    if es == [] then s else After(leaseMs, Next(leaseMs, s, es[0]), es[1..])
  }

  lemma {:induction false} RunExtends(leaseMs: nat, s: State, es: seq<Event>, e: Event)
    requires ValidRun(leaseMs, s, es) && Enabled(leaseMs, After(leaseMs, s, es), e)
    ensures ValidRun(leaseMs, s, es + [e]) && After(leaseMs, s, es + [e]) == Next(leaseMs, After(leaseMs, s, es), e)
    decreases |es|
  {
    if es == [] {
      assert [e][1..] == [] && ([] + [e]) == [e];
    } else {
      RunExtends(leaseMs, Next(leaseMs, s, es[0]), es[1..], e);
      assert (es + [e])[1..] == es[1..] + [e];
    }
  }
}
