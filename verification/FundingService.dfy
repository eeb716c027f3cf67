/**
 `FundingService.accept` statement by statement, over the lender's store. What other calls, the
 gateway and the clock do during its waits is a list of protocol events it is given.
 */
module FundingService {
  import opened Common
  import opened LenderStore
  import opened FundingProtocol
  import opened FundingSafety

  // How the world treats one call: its n-th wait, what the gateway does, whether the signer answers.
  datatype Fortune = Fortune(
    others: nat -> seq<Event>,
    dies: nat -> bool,
    reconciles: bool,
    prepares: Option<TxId>,
    resolves: bool,
    registers: bool)

  // The statements of call k; that money moves for it is not one of them.
  predicate About(e: Event, k: Token)
  {
    match e
    case Reconciles(j) => j == k
    case Claims(j) => j == k
    case Hook(j, _) => j == k
    case Resolves(j) => j == k
    case Stores(j) => j == k
    case Confirms(j) => j == k
    case Throws(j) => j == k
    case Releases(j) => j == k
    case Enqueues(j) => j == k
    case Looks(j) => j == k
    case Acks(j) => j == k
    case Marks(j) => j == k
    case Fails(j) => j == k
    case Stops(j) => j == k
    case _ => false
  }

  lemma AcceptsLeavesOthersAlone(leaseMs: nat, s: State, j: Token, o: OfferId, acceptance: Hash, k: Token)
    requires Enabled(leaseMs, s, Accepts(j, o, acceptance)) && k in s.used
    ensures LeavesAlone(s, Next(leaseMs, s, Accepts(j, o, acceptance)), k)
  {
  }

  predicate LeavesAlone(s: State, s': State, k: Token)
  {
    k in s'.used && (k in s.calls <==> k in s'.calls) && (k in s.calls ==> s'.calls[k] == s.calls[k]) && s.answers <= s'.answers
  }

  lemma OthersLeaveCallAlone(leaseMs: nat, s: State, e: Event, k: Token)
    requires Enabled(leaseMs, s, e) && !About(e, k) && k in s.used
    ensures LeavesAlone(s, Next(leaseMs, s, e), k)
  {
    match e
    case Accepts(j, o, acceptance) => AcceptsLeavesOthersAlone(leaseMs, s, j, o, acceptance, k);
    case Claims(j) => assert j != k;
    case Hook(j, _) => assert j != k;
    case Stores(j) => assert j != k;
    case Confirms(j) => assert j != k;
    case _ =>
  }

  class Service {
    const leaseMs: nat
    const start: int
    const store: Store
    var now: int
    var used: set<Token>
    var calls: map<Token, Local>
    var passed: map<Token, OfferId>
    var moved: map<Token, TxId>
    var acked: set<(OfferId, Payload)>
    var answers: set<(OfferId, TxId)>
    ghost var trace: seq<Event>

    function View(): State
      reads this, store
    {
      State(now, store.fundings, store.outbox, used, calls, passed, moved, acked, answers)
    }

    ghost predicate ReachedBy(es: seq<Event>, s: State)
    {
      ValidRun(leaseMs, Init(start), es) && After(leaseMs, Init(start), es) == s
    }

    /** The world is where the protocol can take it. */
    ghost predicate Valid()
      reads this, store
    {
      ReachedBy(trace, View())
    }

    constructor (leaseMs: nat, start: int)
      ensures Valid() && this.leaseMs == leaseMs && this.start == start && View() == Init(start) && fresh(store)
    {
      this.leaseMs, this.start := leaseMs, start;
      var empty := new Store();
      store := empty;
      now, used, calls, passed, moved, acked, answers := start, {}, map[], map[], map[], {}, {};
      trace := [];
    }

    // The statements just executed were this protocol step.
    ghost method Did(e: Event, before: State)
      requires ReachedBy(trace, before) && Enabled(leaseMs, before, e) && View() == Next(leaseMs, before, e)
      modifies this`trace
      ensures trace == old(trace) + [e] && Valid()
    {
      RunExtends(leaseMs, Init(start), trace, e);
      trace := trace + [e];
    }

    // One thing that happens elsewhere meanwhile, if it is possible and not this call's.
    method Elsewhere(k: Token, e: Event)
      requires Valid() && k in used
      modifies this, store
      ensures Valid() && old(trace) <= trace && LeavesAlone(old(View()), View(), k)
    {
      if Enabled(leaseMs, View(), e) && !About(e, k) {
        ghost var before := View();
        OthersLeaveCallAlone(leaseMs, before, e, k);
        var s' := Next(leaseMs, View(), e);
        store.fundings, store.outbox := s'.fundings, s'.outbox;
        now, used, calls, passed, moved, acked, answers := s'.now, s'.used, s'.calls, s'.passed, s'.moved, s'.acked, s'.answers;
        Did(e, before);
      }
    }

    /** One `await`: everything on the list that is possible then, and is not this call's, happens; the process may die. */
    method Wait(k: Token, x: Fortune, n: nat) returns (alive: bool)
      requires Valid() && k in used && k in calls
      modifies this, store
      ensures Valid() && k in used && old(trace) <= trace && old(answers) <= answers
      ensures if alive then k in calls && calls[k] == old(calls)[k] else k !in calls
    {
      var others := x.others(n);
      for i := 0 to |others|
        invariant Valid() && old(trace) <= trace && LeavesAlone(old(View()), View(), k)
      {
        Elsewhere(k, others[i]);
      }
      alive := !x.dies(n);
      if !alive { Stop(k); }
    }

    /** An exception leaves the call. */
    method Stop(k: Token)
      requires Valid() && k in calls
      modifies this
      ensures Valid() && k !in calls && used == old(used) && old(trace) <= trace && answers == old(answers)
    {
      ghost var before := View();
      calls := calls - {k};
      Did(Stops(k), before);
    }

    /** The `catch` block: a claim that never got a transaction id is released, then the error is rethrown. */
    method Catch(k: Token)
      requires Valid() && k in calls && calls[k].Catching?
      modifies this, store
      ensures Valid() && k !in calls && used == old(used) && old(trace) <= trace && answers == old(answers)
    {
      ghost var before := View();
      store.ReleaseFundingSubmission(calls[k].o, k, now);
      calls := calls - {k};
      Did(Releases(k), before);
    }

    method Throw(k: Token)
      requires Valid() && k in calls && (calls[k].Transferring? || calls[k].Submitted?)
      modifies this, store
      ensures Valid() && k !in calls && used == old(used) && old(trace) <= trace && answers == old(answers)
    {
      ghost var before := View();
      calls := calls[k := Catching(calls[k].o)];
      Did(Throws(k), before);
      Catch(k);
    }

    /** A stored transaction is looked up; anything but a confirmation is an error. */
    method Reconcile(k: Token, x: Fortune) returns (ok: bool)
      requires Valid() && k in used && k in calls && calls[k].Reconciling?
      modifies this, store
      ensures Valid() && k in used && old(trace) <= trace && old(answers) <= answers
      ensures if ok then k in calls && calls[k] == Enqueueing(old(calls)[k].o, old(calls)[k].t) else k !in calls
    {
      var o, t := calls[k].o, calls[k].t;
      ok := Wait(k, x, 0);
      if !ok { return; }
      if !x.reconciles || !MovedFor(View(), o, t) {
        Stop(k);
        return false;
      }
      ghost var before := View();
      calls := calls[k := Reconciled(o, t)];
      Did(Reconciles(k), before);
      before := View();
      ok := store.MarkFundingConfirmed(o, t, now);
      calls := if ok then calls[k := Enqueueing(o, t)] else calls - {k};
      Did(Confirms(k), before);
    }

    /** The `onPrepared` hook: the id is stored under the claim's token, or the transfer must not go out. */
    method OnPrepared(k: Token, t: TxId) returns (ok: bool)
      requires Valid() && k in used && k in calls && calls[k].Transferring?
      modifies this, store
      ensures Valid() && k in used && k in calls && old(trace) <= trace && answers == old(answers)
      ensures calls[k] == if ok then Submitted(old(calls)[k].o, t) else Catching(old(calls)[k].o)
      ensures !ok ==> passed == old(passed)
      ensures ok <==> SetTransaction(old(store.fundings), old(calls)[k].o, k, t, old(now)).Some?
    {
      var o := calls[k].o;
      ghost var before := View();
      ok := store.SetFundingTransaction(o, k, t, now);
      if ok {
        calls := calls[k := Submitted(o, t)];
        passed := passed[k := o];
      } else {
        calls := calls[k := Catching(o)];
      }
      Did(Hook(k, t), before);
    }

    /** The final id is stored and the funding confirmed; false when either update found the row changed. */
    method StoreResult(k: Token) returns (ok: bool)
      requires Valid() && k in used && k in calls && calls[k].Resolved?
      modifies this, store
      ensures Valid() && k in used && old(trace) <= trace && answers == old(answers)
      ensures if ok then k in calls && calls[k] == Enqueueing(old(calls)[k].o, old(calls)[k].r) else k !in calls
    {
      var o, t, r := calls[k].o, calls[k].t, calls[k].r;
      ghost var before := View();
      if t != r { ok := store.ReplaceFundingTransaction(o, k, t, r, now); }
      else { ok := store.SetFundingTransaction(o, k, r, now); }
      calls := calls[k := if ok then FundingProtocol.Stored(o, r) else Catching(o)];
      Did(Stores(k), before);
      if !ok {
        Catch(k);
        return;
      }
      before := View();
      ok := store.MarkFundingConfirmed(o, r, now);
      calls := calls[k := if ok then Enqueueing(o, r) else Catching(o)];
      Did(Confirms(k), before);
      if !ok { Catch(k); }
    }

    /** Claim, transfer, store: true when the funding is confirmed and its registration is due. */
    method Submit(k: Token, x: Fortune) returns (ok: bool)
      requires Valid() && k in used && k in calls && calls[k].Claiming?
      modifies this, store
      ensures Valid() && k in used && old(trace) <= trace && old(answers) <= answers
      ensures if ok then k in calls && calls[k].Enqueueing? && calls[k].o == old(calls)[k].o else k !in calls
    {
      ok := Claim(k);
      if !ok { return; }
      ok := Wait(k, x, 1);
      if !ok { return; }
      if x.prepares.None? {
        Throw(k);
        return false;
      }
      ok := Transfer(k, x);
    }

    /** The transfer goes out behind its hook; money that moved is stored under the id it moved under. */
    method Transfer(k: Token, x: Fortune) returns (ok: bool)
      requires Valid() && k in used && k in calls && calls[k].Transferring? && x.prepares.Some?
      modifies this, store
      ensures Valid() && k in used && old(trace) <= trace && old(answers) <= answers
      ensures if ok then k in calls && calls[k].Enqueueing? && calls[k].o == old(calls)[k].o else k !in calls
    {
      ok := OnPrepared(k, x.prepares.value);
      if !ok {
        Catch(k);
        return;
      }
      ok := Wait(k, x, 2);
      if !ok { return; }
      if !x.resolves || k !in moved {
        Throw(k);
        return false;
      }
      Resolve(k);
      ok := StoreResult(k);
    }

    /** The submission is claimed, from a stale holder if need be; false when another call holds it. */
    method Claim(k: Token) returns (ok: bool)
      requires Valid() && k in used && k in calls && calls[k].Claiming?
      modifies this, store
      ensures Valid() && k in used && old(trace) <= trace && answers == old(answers)
      ensures if ok then k in calls && calls[k] == Transferring(old(calls)[k].o) else k !in calls
      ensures ok <==> ClaimSubmission(old(store.fundings), old(calls)[k].o, k, old(now), old(now) - leaseMs).Some?
    {
      var o := calls[k].o;
      ghost var before := View();
      ok := store.ClaimFundingSubmission(o, k, now, now - leaseMs);
      calls := if ok then calls[k := Transferring(o)] else calls - {k};
      Did(Claims(k), before);
    }

    /** The transfer returns the id under which money moved. */
    method Resolve(k: Token)
      requires Valid() && k in used && k in calls && calls[k].Submitted? && k in moved
      modifies this
      ensures Valid() && k in used && old(trace) <= trace && answers == old(answers)
      ensures k in calls && calls[k] == Resolved(old(calls)[k].o, old(calls)[k].t, old(moved)[k])
    {
      ghost var before := View();
      calls := calls[k := Resolved(calls[k].o, calls[k].t, moved[k])];
      Did(Resolves(k), before);
    }

    /** The registration is queued once, sent while it is pending, and answered for when the signer has it. */
    method Register(k: Token, x: Fortune) returns (r: Option<TxId>)
      requires Valid() && k in used && k in calls && calls[k].Enqueueing?
      modifies this, store
      ensures Valid() && old(trace) <= trace && old(answers) <= answers && k !in calls
      ensures r.Some? ==> r.value == old(calls)[k].t && (old(calls)[k].o, r.value) in answers
    {
      var o, t := calls[k].o, calls[k].t;
      ghost var before := View();
      if o !in store.fundings {
        calls := calls - {k};
        Did(Enqueues(k), before);
        return None;
      }
      store.EnqueueRegistration(o, Payload(store.fundings[o].acceptance, t));
      calls := calls[k := Enqueued(o, t)];
      Did(Enqueues(k), before);
      var due := LookUp(k);
      if !due { return Some(t); }
      var alive := Wait(k, x, 3);
      if !alive { return None; }
      if !x.registers {
        RecordFailure(k);
        return None;
      }
      MarkRegistered(k);
      return Some(t);
    }

    /** Whether the registration is still to be sent; if it is not, the call answers. */
    method LookUp(k: Token) returns (due: bool)
      requires Valid() && k in used && k in calls && calls[k].Enqueued?
      modifies this
      ensures Valid() && k in used && old(trace) <= trace && old(answers) <= answers
      ensures if due then k in calls && calls[k].Registering? && calls[k].o == old(calls)[k].o && calls[k].t == old(calls)[k].t
              else k !in calls && (old(calls)[k].o, old(calls)[k].t) in answers
    {
      var o, t := calls[k].o, calls[k].t;
      ghost var before := View();
      var pending := PendingRegistration(store.outbox, o);
      due := pending.Some?;
      if due { calls := calls[k := Registering(o, t, pending.value)]; }
      else {
        answers := answers + {(o, t)};
        calls := calls - {k};
      }
      Did(Looks(k), before);
    }

    method RecordFailure(k: Token)
      requires Valid() && k in calls && calls[k].Registering?
      modifies this, store
      ensures Valid() && old(trace) <= trace && answers == old(answers) && k !in calls
    {
      ghost var before := View();
      store.RecordRegistrationFailure(calls[k].o);
      calls := calls - {k};
      Did(Fails(k), before);
    }

    /** The signer acknowledged: delivery and registration are recorded together, and the call answers. */
    method MarkRegistered(k: Token)
      requires Valid() && k in calls && calls[k].Registering?
      modifies this, store
      ensures Valid() && old(trace) <= trace && k !in calls && answers == old(answers) + {(old(calls)[k].o, old(calls)[k].t)}
    {
      var o, t := calls[k].o, calls[k].t;
      ghost var before := View();
      acked := acked + {(o, calls[k].payload)};
      calls := calls[k := Acknowledged(o, t)];
      Did(Acks(k), before);
      before := View();
      store.MarkFundingRegistered(o, now);
      answers := answers + {(o, t)};
      calls := calls - {k};
      Did(Marks(k), before);
    }

    /** The row is reserved and the call goes where its status sends it. */
    method Open(k: Token, o: OfferId, acceptance: Hash) returns (answer: Option<TxId>)
      requires Valid() && k !in used && k !in calls
      modifies this, store
      ensures Valid() && k in used && old(trace) <= trace && old(answers) <= answers
      ensures answer.Some? ==> (o, answer.value) in answers && k !in calls
      ensures k in calls ==> calls[k].o == o && (calls[k].Claiming? || calls[k].Reconciling? || calls[k].Enqueueing?)
    {
      ghost var before := View();
      var row := store.Reserve(o, acceptance, now);
      used := used + {k};
      if row.Some? { answer := Dispatch(k, o, row.value); } else { answer := None; }
      Did(Accepts(k, o, acceptance), before);
    }

    /** Where a call goes from the row it read. */
    method Dispatch(k: Token, o: OfferId, funding: Funding) returns (answer: Option<TxId>)
      requires k !in calls
      modifies this`calls, this`answers
      ensures View() == Branch(old(View()), k, o, funding)
      ensures answer.Some? ==> (o, answer.value) in answers && k !in calls
      ensures k in calls ==> calls[k].o == o && (calls[k].Claiming? || calls[k].Reconciling? || calls[k].Enqueueing?)
      ensures old(answers) <= answers
    {
      if funding.status == Registered {
        answer := funding.tx;
        if funding.tx.Some? { answers := answers + {(o, funding.tx.value)}; }
        return;
      }
      if funding.tx.None? {
        calls := calls[k := Claiming(o)];
      } else if funding.status == Preparing || funding.status == Pending {
        calls := calls[k := FundingProtocol.Reconciling(o, funding.tx.value)];
      } else {
        calls := calls[k := Enqueueing(o, funding.tx.value)];
      }
      return None;
    }

    /**
     `accept`: returns the funding transaction only for a funding that is confirmed and registered,
     and never another id than any other call for the offer returned.
     */
    method Accept(k: Token, o: OfferId, acceptance: Hash, x: Fortune) returns (r: Option<TxId>)
      requires Valid() && k !in used && k !in calls
      modifies this, store
      ensures Valid() && old(trace) <= trace && k !in calls
      ensures r.Some? ==> forall t :: (o, t) in answers ==> t == r.value
    {
      r := Open(k, o, acceptance);
      if k in calls {
        var ok := true;
        if calls[k].Reconciling? { ok := Reconcile(k, x); }
        else if calls[k].Claiming? { ok := Submit(k, x); }
        if ok { r := Register(k, x); }
      }
      if r.Some? {
        forall t | (o, t) in answers ensures t == r.value { AnswersAgree(leaseMs, start, trace, o, t, r.value); }
      }
    }
  }
}
