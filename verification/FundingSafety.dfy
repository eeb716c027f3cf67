/** A lender funds an offer at most once, whoever steals whose lease, and never loses track of the transfer. */
module FundingSafety {
  import opened Common
  import opened LenderStore
  import opened FundingProtocol

  predicate Settled(r: Funding) { r.status == Confirmed || r.status == Registered }

  // --- invariant ----------------------------------------------------------------------------------------

  predicate FundingOk(s: State, o: OfferId)
    requires o in s.fundings
  {
    var r := s.fundings[o];
    && (r.tx.None? <==> r.status == Reserved || r.status == Preparing)
    && (r.token.Some? ==> r.token.value in s.used)
    && (r.token.Some? && r.token.value in s.calls ==> s.calls[r.token.value].o == o)
    && (r.tx.Some? ==> r.token.Some? && r.token.value in s.passed && s.passed[r.token.value] == o)
    && (Settled(r) ==> r.token.value in s.moved && s.moved[r.token.value] == r.tx.value)
    && (o in s.outbox ==>
          && Settled(r) && s.outbox[o].payload == Payload(r.acceptance, r.tx.value)
          && (s.outbox[o].delivered ==> r.status == Registered && (o, s.outbox[o].payload) in s.acked))
    && (r.status == Registered ==> o in s.outbox && s.outbox[o].delivered)
  }

  /** A call whose hook returned is the one named by the row of its offer. */
  predicate PassOk(s: State, k: Token)
    requires k in s.passed
  {
    k in s.used && s.passed[k] in s.fundings && s.fundings[s.passed[k]].tx.Some? && s.fundings[s.passed[k]].token == Some(k)
  }

  predicate Frozen(s: State, o: OfferId, t: TxId)
  {
    o in s.fundings && Settled(s.fundings[o]) && s.fundings[o].tx == Some(t)
  }

  ghost predicate CallOk(s: State, k: Token)
    requires k in s.calls
  {
    k in s.used && s.calls[k].o in s.fundings &&
    match s.calls[k]
    case Reconciling(_, _) => true
    case Reconciled(o, t) => MovedFor(s, o, t)
    case Claiming(_) => k !in s.passed
    case Transferring(_) => k !in s.passed
    case Submitted(o, _) => k in s.passed && s.passed[k] == o
    case Resolved(o, _, r) => k in s.passed && s.passed[k] == o && k in s.moved && s.moved[k] == r
    case Stored(o, r) => k in s.passed && s.passed[k] == o && k in s.moved && s.moved[k] == r
    case Catching(_) => true
    case Enqueueing(o, t) => Frozen(s, o, t)
    case Enqueued(o, t) => Frozen(s, o, t) && o in s.outbox
    case Registering(o, t, p) => Frozen(s, o, t) && o in s.outbox && s.outbox[o].payload == p
    case Acknowledged(o, t) => Frozen(s, o, t) && o in s.outbox && (o, s.outbox[o].payload) in s.acked
  }

  predicate AnswerOk(s: State, a: (OfferId, TxId))
  {
    Frozen(s, a.0, a.1) && s.fundings[a.0].status == Registered
  }

  ghost predicate Inv(s: State)
  {
    && s.outbox.Keys <= s.fundings.Keys && s.moved.Keys <= s.passed.Keys
    && (forall o :: o in s.fundings ==> FundingOk(s, o))
    && (forall k :: k in s.passed ==> PassOk(s, k))
    && (forall k :: k in s.calls ==> CallOk(s, k))
    && (forall a :: a in s.answers ==> AnswerOk(s, a))
  }

  lemma InitOk(now: int)
    ensures Inv(Init(now))
  {
  }

  // --- steps -----------------------------------------------------------------------------------------------

  // A stored transaction id keeps its owner, and a settled one is final.
  predicate RowAdvances(r: Funding, r': Funding)
  {
    && r'.acceptance == r.acceptance
    && (r.tx.Some? ==> r'.tx.Some? && r'.token == r.token)
    && (Settled(r) ==> Settled(r') && r'.tx == r.tx && (r.status == Registered ==> r' .status == Registered))
  }

  // A step of call k about offer o, touching nothing else.
  ghost predicate LocalStep(s: State, s': State, k: Token, o: OfferId)
  {
    && s.used <= s'.used && k in s'.used && s'.used <= s.used + {k} && s'.moved == s.moved
    && (if k in s.used then k in s.calls && s.calls[k].o == o else k !in s.calls)
    && (k in s'.calls ==> s'.calls[k].o == o)
    && o in s'.fundings && s'.fundings == s.fundings[o := s'.fundings[o]]
    && (o in s.fundings ==> RowAdvances(s.fundings[o], s'.fundings[o]))
    && (s'.outbox == s.outbox || (o in s'.outbox && s'.outbox == s.outbox[o := s'.outbox[o]]
                                  && (o in s.outbox ==> s'.outbox[o].payload == s.outbox[o].payload)))
    && (s'.calls == s.calls - {k} || (k in s'.calls && s'.calls == s.calls[k := s'.calls[k]] && CallOk(s', k)))
    && (s'.passed == s.passed || (k !in s.passed && s'.passed == s.passed[k := o] && PassOk(s', k)
                                  && o in s.fundings && s.fundings[o].tx.None?))
    && s.acked <= s'.acked && s.answers <= s'.answers
    && (forall a :: a in s'.answers - s.answers ==> AnswerOk(s', a))
    && FundingOk(s', o)
    && (s'.fundings[o].token == None || s'.fundings[o].token == Some(k)
        || (o in s.fundings && s'.fundings[o].token == s.fundings[o].token))
  }

  lemma OtherCallStays(s: State, s': State, k: Token, o: OfferId, j: Token)
    requires LocalStep(s, s', k, o) && j in s.calls && j != k && CallOk(s, j)
    ensures CallOk(s', j)
  {
    assert s'.calls[j] == s.calls[j];
    if s.calls[j].Reconciled? {
      var i :| i in s.moved && s.moved[i] == s.calls[j].t && i in s.passed && s.passed[i] == s.calls[j].o;
      assert i in s'.passed && s'.passed[i] == s.calls[j].o;
    }
  }

  lemma LocalStepKeepsRows(s: State, s': State, k: Token, o: OfferId)
    requires Inv(s) && LocalStep(s, s', k, o)
    ensures forall p :: p in s'.fundings ==> FundingOk(s', p)
    ensures forall j :: j in s'.passed ==> PassOk(s', j)
  {
    forall p | p in s'.fundings ensures FundingOk(s', p) { if p != o { assert FundingOk(s, p); } }
    forall j | j in s'.passed ensures PassOk(s', j) { if j in s.passed { assert PassOk(s, j); } }
  }

  lemma LocalStepKeepsInv(s: State, s': State, k: Token, o: OfferId)
    requires Inv(s) && LocalStep(s, s', k, o)
    ensures Inv(s')
  {
    LocalStepKeepsRows(s, s', k, o);
    forall j | j in s'.calls ensures CallOk(s', j) { if j != k { OtherCallStays(s, s', k, o, j); } }
    forall a | a in s'.answers ensures AnswerOk(s', a) {
      if a in s.answers { assert AnswerOk(s, a); } else { assert a in s'.answers - s.answers; }
    }
  }

  // Each statement of a call is such a step. These need only what is known about the call and its row.

  // The row is reserved; the call has not started yet.
  lemma ReserveIsLocal(s: State, k: Token, o: OfferId, acceptance: Hash)
    requires k !in s.used && k !in s.passed && k !in s.calls
    requires o in s.fundings ==> FundingOk(s, o)
    requires o in s.outbox ==> o in s.fundings
    ensures LocalStep(s, s.(used := s.used + {k}, fundings := ReserveFunding(s.fundings, o, acceptance, s.now)), k, o)
  {
    assert s.calls - {k} == s.calls;
  }

  lemma BranchIsLocal(s: State, s1: State, k: Token, o: OfferId)
    requires LocalStep(s, s1, k, o) && s1.calls == s.calls && s1.answers == s.answers && k !in s.calls && k !in s1.passed
    ensures LocalStep(s, Branch(s1, k, o, s1.fundings[o]), k, o)
  {
  }

  lemma AcceptsIsLocal(leaseMs: nat, s: State, k: Token, o: OfferId, acceptance: Hash)
    requires Enabled(leaseMs, s, Accepts(k, o, acceptance)) && k !in s.passed && k !in s.calls
    requires o in s.fundings ==> FundingOk(s, o)
    requires o in s.outbox ==> o in s.fundings
    ensures LocalStep(s, Next(leaseMs, s, Accepts(k, o, acceptance)), k, o)
  {
    ReserveIsLocal(s, k, o, acceptance);
    BranchIsLocal(s, s.(used := s.used + {k}, fundings := ReserveFunding(s.fundings, o, acceptance, s.now)), k, o);
  }

  lemma ClaimsIsLocal(leaseMs: nat, s: State, k: Token)
    requires Enabled(leaseMs, s, Claims(k)) && CallOk(s, k) && FundingOk(s, s.calls[k].o)
    ensures LocalStep(s, Next(leaseMs, s, Claims(k)), k, s.calls[k].o)
  {
  }

  lemma HookIsLocal(leaseMs: nat, s: State, k: Token, t: TxId)
    requires Enabled(leaseMs, s, Hook(k, t)) && CallOk(s, k) && FundingOk(s, s.calls[k].o)
    ensures LocalStep(s, Next(leaseMs, s, Hook(k, t)), k, s.calls[k].o)
  {
  }

  lemma StoresIsLocal(leaseMs: nat, s: State, k: Token)
    requires Enabled(leaseMs, s, Stores(k)) && CallOk(s, k) && FundingOk(s, s.calls[k].o)
    ensures LocalStep(s, Next(leaseMs, s, Stores(k)), k, s.calls[k].o)
  {
  }

  /** Only the transfer that moved the money is ever confirmed: j, the call that moved it, is the row's own. */
  lemma ConfirmsIsLocal(leaseMs: nat, s: State, k: Token, j: Token)
    requires Enabled(leaseMs, s, Confirms(k)) && CallOk(s, k) && FundingOk(s, s.calls[k].o)
    requires j in s.passed && PassOk(s, j) && s.passed[j] == s.calls[k].o
    requires j in s.moved && s.moved[j] == (if s.calls[k].Stored? then s.calls[k].r else s.calls[k].t)
    ensures LocalStep(s, Next(leaseMs, s, Confirms(k)), k, s.calls[k].o)
  {
  }

  lemma OutboxStepIsLocal(leaseMs: nat, s: State, k: Token, e: Event)
    requires Enabled(leaseMs, s, e) && (e == Enqueues(k) || e == Looks(k))
    requires CallOk(s, k) && FundingOk(s, s.calls[k].o)
    ensures LocalStep(s, Next(leaseMs, s, e), k, s.calls[k].o)
  {
  }

  lemma SignerStepIsLocal(leaseMs: nat, s: State, k: Token, e: Event)
    requires Enabled(leaseMs, s, e) && (e == Acks(k) || e == Marks(k) || e == Fails(k))
    requires CallOk(s, k) && FundingOk(s, s.calls[k].o)
    ensures LocalStep(s, Next(leaseMs, s, e), k, s.calls[k].o)
  {
  }

  lemma CallMovesIsLocal(leaseMs: nat, s: State, k: Token, e: Event)
    requires Enabled(leaseMs, s, e) && e in {Reconciles(k), Resolves(k), Throws(k), Releases(k), Stops(k)}
    requires CallOk(s, k) && FundingOk(s, s.calls[k].o)
    ensures LocalStep(s, Next(leaseMs, s, e), k, s.calls[k].o)
  {
  }

  function OfferOf(s: State, e: Event): OfferId
    requires !e.Passes? && !e.Moves? && (e.Accepts? || e.k in s.calls)
  {
    if e.Accepts? then e.o else s.calls[e.k].o
  }

  lemma CallStepIsLocal(leaseMs: nat, s: State, e: Event)
    requires Inv(s) && Enabled(leaseMs, s, e) && !e.Passes? && !e.Moves?
    ensures LocalStep(s, Next(leaseMs, s, e), e.k, OfferOf(s, e))
  {
    var k, o := e.k, OfferOf(s, e);
    if k in s.calls { assert CallOk(s, k); }
    if k in s.passed { assert PassOk(s, k); }
    if o in s.fundings { assert FundingOk(s, o); }
    match e
    case Accepts(_, _, a) => AcceptsIsLocal(leaseMs, s, k, o, a);
    case Claims(_) => ClaimsIsLocal(leaseMs, s, k);
    case Hook(_, t) => HookIsLocal(leaseMs, s, k, t);
    case Stores(_) => StoresIsLocal(leaseMs, s, k);
    case Confirms(_) =>
      var l := s.calls[k];
      var j :| j in s.moved && s.moved[j] == (if l.Stored? then l.r else l.t) && j in s.passed && s.passed[j] == o;
      assert PassOk(s, j);
      ConfirmsIsLocal(leaseMs, s, k, j);
    case _ => OtherCallStepIsLocal(leaseMs, s, k, e);
  }

  lemma OtherCallStepIsLocal(leaseMs: nat, s: State, k: Token, e: Event)
    requires Enabled(leaseMs, s, e) && k in s.calls && CallOk(s, k) && s.calls[k].o in s.fundings && FundingOk(s, s.calls[k].o)
    requires e in {Reconciles(k), Resolves(k), Throws(k), Releases(k), Stops(k), Enqueues(k), Looks(k), Acks(k), Marks(k), Fails(k)}
    ensures LocalStep(s, Next(leaseMs, s, e), k, s.calls[k].o)
  {
    if e.Enqueues? || e.Looks? { OutboxStepIsLocal(leaseMs, s, k, e); }
    else if e.Acks? || e.Marks? || e.Fails? { SignerStepIsLocal(leaseMs, s, k, e); }
    else { CallMovesIsLocal(leaseMs, s, k, e); }
  }

  lemma MovesKeepsInv(leaseMs: nat, s: State, k: Token, r: TxId)
    requires Inv(s) && Enabled(leaseMs, s, Moves(k, r))
    ensures Inv(Next(leaseMs, s, Moves(k, r)))
  {
    var s' := Next(leaseMs, s, Moves(k, r));
    forall p | p in s'.fundings ensures FundingOk(s', p) { assert FundingOk(s, p); }
    forall j | j in s'.passed ensures PassOk(s', j) { assert PassOk(s, j); }
    forall j | j in s'.calls ensures CallOk(s', j) {
      assert CallOk(s, j);
      if s.calls[j].Reconciled? {
        var i :| i in s.moved && s.moved[i] == s.calls[j].t && i in s.passed && s.passed[i] == s.calls[j].o;
        assert i in s'.moved && s'.moved[i] == s.calls[j].t;
      }
    }
    forall a | a in s'.answers ensures AnswerOk(s', a) { assert AnswerOk(s, a); }
  }

  lemma PassesKeepsInv(leaseMs: nat, s: State, ms: nat)
    requires Inv(s)
    ensures Inv(Next(leaseMs, s, Passes(ms)))
  {
    var s' := Next(leaseMs, s, Passes(ms));
    forall p | p in s'.fundings ensures FundingOk(s', p) { assert FundingOk(s, p); }
    forall j | j in s'.passed ensures PassOk(s', j) { assert PassOk(s, j); }
    forall j | j in s'.calls ensures CallOk(s', j) {
      assert CallOk(s, j);
      assert forall o, t :: MovedFor(s, o, t) ==> MovedFor(s', o, t);
    }
    forall a | a in s'.answers ensures AnswerOk(s', a) { assert AnswerOk(s, a); }
  }

  lemma StepKeepsInv(leaseMs: nat, s: State, e: Event)
    requires Inv(s) && Enabled(leaseMs, s, e)
    ensures Inv(Next(leaseMs, s, e))
  {
    if e.Passes? { PassesKeepsInv(leaseMs, s, e.ms); }
    else if e.Moves? { MovesKeepsInv(leaseMs, s, e.k, e.r); }
    else {
      CallStepIsLocal(leaseMs, s, e);
      LocalStepKeepsInv(s, Next(leaseMs, s, e), e.k, OfferOf(s, e));
    }
  }

  lemma {:induction false} RunKeepsInv(leaseMs: nat, s: State, es: seq<Event>)
    requires Inv(s) && ValidRun(leaseMs, s, es)
    ensures Inv(After(leaseMs, s, es))
    decreases |es|
  {
    if es != [] {
      StepKeepsInv(leaseMs, s, es[0]);
      RunKeepsInv(leaseMs, Next(leaseMs, s, es[0]), es[1..]);
    }
  }

  // --- what it means -------------------------------------------------------------------------------------

  /** For each offer at most one transfer ever gets past its hook; money moves at most once, and only there. */
  lemma FundedAtMostOnce(leaseMs: nat, start: int, es: seq<Event>, j: Token, k: Token)
    requires ValidRun(leaseMs, Init(start), es)
    requires var s := After(leaseMs, Init(start), es);
             j in s.passed && k in s.passed && s.passed[j] == s.passed[k]
    ensures j == k
    ensures var s := After(leaseMs, Init(start), es); s.moved.Keys <= s.passed.Keys
  {
    InitOk(start);
    RunKeepsInv(leaseMs, Init(start), es);
    var s := After(leaseMs, Init(start), es);
    assert PassOk(s, j) && PassOk(s, k);
  }

  /**
   Two calls that return normally for one offer return the same id: that of the transfer that
   moved the money, queued for registration under that id and acknowledged by the signer.
   */
  lemma AnswersAgree(leaseMs: nat, start: int, es: seq<Event>, o: OfferId, t: TxId, u: TxId)
    requires ValidRun(leaseMs, Init(start), es)
    requires var s := After(leaseMs, Init(start), es); (o, t) in s.answers && (o, u) in s.answers
    ensures t == u
    ensures var s := After(leaseMs, Init(start), es);
            && MovedFor(s, o, t) && o in s.fundings && s.fundings[o].tx == Some(t)
            && o in s.outbox && s.outbox[o].payload == Payload(s.fundings[o].acceptance, t)
            && (o, s.outbox[o].payload) in s.acked
  {
    InitOk(start);
    RunKeepsInv(leaseMs, Init(start), es);
    var s := After(leaseMs, Init(start), es);
    assert AnswerOk(s, (o, t)) && AnswerOk(s, (o, u)) && FundingOk(s, o);
  }

  /** Once a funding is confirmed its transaction id is frozen, on every continuation. */
  lemma {:induction false} ConfirmedIdIsFrozen(leaseMs: nat, s: State, es: seq<Event>, o: OfferId, t: TxId)
    requires Inv(s) && ValidRun(leaseMs, s, es) && Frozen(s, o, t)
    ensures Frozen(After(leaseMs, s, es), o, t)
    decreases |es|
  {
    if es != [] {
      StepKeepsInv(leaseMs, s, es[0]);
      StepKeepsFrozen(leaseMs, s, es[0], o, t);
      ConfirmedIdIsFrozen(leaseMs, Next(leaseMs, s, es[0]), es[1..], o, t);
    }
  }

  lemma StepKeepsFrozen(leaseMs: nat, s: State, e: Event, o: OfferId, t: TxId)
    requires Inv(s) && Enabled(leaseMs, s, e) && Frozen(s, o, t)
    ensures Frozen(Next(leaseMs, s, e), o, t)
  {
    if !e.Passes? && !e.Moves? { CallStepIsLocal(leaseMs, s, e); }
  }

  // --- fencing --------------------------------------------------------------------------------------------

  /** A call between claim and hook whose claim is no longer the row's. */
  predicate Fenced(s: State, k: Token)
  {
    && k in s.used && k !in s.passed
    && (k in s.calls ==> (s.calls[k].Transferring? || s.calls[k].Catching?))
    && (forall o :: o in s.fundings ==> s.fundings[o].token != Some(k))
  }

  /** A worker whose claim was taken over can neither store a transaction id nor submit, now or later. */
  lemma {:induction false} FencedNeverPays(leaseMs: nat, s: State, es: seq<Event>, k: Token)
    requires Inv(s) && ValidRun(leaseMs, s, es) && Fenced(s, k)
    ensures Fenced(After(leaseMs, s, es), k) && k !in After(leaseMs, s, es).moved
    decreases |es|
  {
    if es != [] {
      StepKeepsInv(leaseMs, s, es[0]);
      StepKeepsFenced(leaseMs, s, es[0], k);
      FencedNeverPays(leaseMs, Next(leaseMs, s, es[0]), es[1..], k);
    }
  }

  lemma StepKeepsFenced(leaseMs: nat, s: State, e: Event, k: Token)
    requires Inv(s) && Enabled(leaseMs, s, e) && Fenced(s, k)
    ensures Fenced(Next(leaseMs, s, e), k)
  {
    if !e.Passes? && !e.Moves? {
      if e.k == k { OwnStepKeepsFenced(leaseMs, s, e, k); }
      else {
        CallStepIsLocal(leaseMs, s, e);
        OtherStepKeepsFenced(s, Next(leaseMs, s, e), e.k, OfferOf(s, e), k);
      }
    }
  }

  lemma OtherStepKeepsFenced(s: State, s': State, j: Token, o: OfferId, k: Token)
    requires LocalStep(s, s', j, o) && Fenced(s, k) && j != k
    ensures Fenced(s', k)
  {
  }

  lemma OwnStepKeepsFenced(leaseMs: nat, s: State, e: Event, k: Token)
    requires Enabled(leaseMs, s, e) && Fenced(s, k) && !e.Passes? && !e.Moves? && e.k == k
    ensures Fenced(Next(leaseMs, s, e), k)
  {
  }

  /** Another worker's takeover of a stale lease is what fences a call. */
  lemma TakeoverFences(leaseMs: nat, s: State, j: Token, k: Token)
    requires Inv(s) && Enabled(leaseMs, s, Claims(k)) && j in s.calls && s.calls[j].Transferring? && j != k
    requires s.calls[j].o == s.calls[k].o
    requires ClaimSubmission(s.fundings, s.calls[k].o, k, s.now, s.now - leaseMs).Some?
    ensures Fenced(Next(leaseMs, s, Claims(k)), j)
  {
    assert CallOk(s, j) && CallOk(s, k);
    forall o | o in s.fundings && s.fundings[o].token == Some(j) ensures o == s.calls[j].o { assert FundingOk(s, o); }
  }
}
