/**
 `RepaymentService.repay` statement by statement, over the signer's store and under the lock of its
 loan. What other loans' calls, the ledger and the clock do during its waits is a list of protocol
 events it is given.
 */
module RepaymentService {
  import opened Common
  import opened SignerTables
  import opened RepaymentProtocol
  import opened RepaymentSafety
  import SignerStore
  import Ledger

  // How the world treats one call. None is an exception other than "unconfirmed".
  datatype Fortune = Fortune(
    others: nat -> seq<Event>,
    dies: nat -> bool,
    confirmation: Option<Ledger.Answer>,
    prepared: Option<Attempt>,
    outcome: Option<Ledger.Answer>)

  // The statements of the call at work on loan l.
  predicate About(e: Event, l: Id)
  {
    match e
    case Begins(k, _) => k == l
    case Observes(k, _) => k == l
    case Decides(k) => k == l
    case Prepares(k, _, _) => k == l
    case Saves(k) => k == l
    case Submits(k) => k == l
    case Responds(k, _) => k == l
    case Concludes(k) => k == l
    case Confirms(k) => k == l
    case Settles(k) => k == l
    case Stops(k) => k == l
    case _ => false
  }

  // What call l and its waits may count on.
  predicate LeavesAlone(s: State, s': State, l: Id)
  {
    && (l in s.calls <==> l in s'.calls) && (l in s.calls ==> s'.calls[l] == s.calls[l])
    && (l in s.loans ==> l in s'.loans) && s.ledger.txs.Keys <= s'.ledger.txs.Keys && s.answers <= s'.answers
    && s.ledger.now <= s'.ledger.now
  }

  lemma OthersLeaveCallAlone(cfg: Config, s: State, e: Event, l: Id)
    requires Enabled(cfg, s, e) && !About(e, l)
    ensures LeavesAlone(s, Next(cfg, s, e), l)
  {
  }

  // What the ledger says when it is expected to say `a`: never anything untrue.

  function FromMirror(s: State, t: Ledger.TxId, a: Ledger.Answer, lag: nat): (r: Ledger.Answer)
    requires t in s.ledger.txs
    ensures Ledger.MirrorMayAnswer(s.ledger, t, r, lag)
    ensures Ledger.MirrorMayAnswer(s.ledger, t, a, lag) ==> r == a
  {
    if Ledger.MirrorMayAnswer(s.ledger, t, a, lag) then a
    else if s.ledger.txs[t].fate.Executed? then Ledger.Confirmed(s.ledger.txs[t].fate.seqNo)
    else Ledger.Uncertain
  }

  function FromNode(s: State, t: Ledger.TxId, a: Ledger.Answer): (r: Ledger.Answer)
    requires t in s.ledger.txs
    ensures Ledger.NodeMayAnswer(s.ledger, t, r)
    ensures Ledger.NodeMayAnswer(s.ledger, t, a) ==> r == a
  {
    if Ledger.NodeMayAnswer(s.ledger, t, a) then a else Ledger.Uncertain
  }

  /** On any reachable state, the attempt a call works on is known to the ledger. */
  lemma AttemptIsKnown(cfg: Config, start: int, es: seq<Event>, l: Id)
    requires ValidRun(cfg, Init(start), es) && l in After(cfg, Init(start), es).calls
    ensures var s := After(cfg, Init(start), es);
            l in s.loans && (s.calls[l].Preparing? || s.calls[l].p.txId in s.ledger.txs)
  {
    InitOk(cfg, start);
    RunKeepsInv(cfg, Init(start), es);
    assert CallOk(cfg, After(cfg, Init(start), es), l);
  }

  class Service {
    const cfg: Config
    const start: int
    const store: SignerStore.Store
    var calls: map<Id, Call>
    var answers: set<(Id, Ledger.TxId)>
    var ledger: Ledger.State<Transfer>
    ghost var trace: seq<Event>

    function View(): State
      reads this, store
    {
      State(store.evidence.loans, store.evidence.completions.Keys, store.repayments, calls, answers, ledger)
    }

    ghost predicate ReachedBy(es: seq<Event>, s: State)
    {
      ValidRun(cfg, Init(start), es) && After(cfg, Init(start), es) == s
    }

    /** The world is where the protocol can take it. */
    ghost predicate Valid()
      reads this, store
    {
      ReachedBy(trace, View())
    }

    constructor (lag: nat, latency: nat, start: int)
      ensures Valid() && cfg == Config(GRACE_MS, lag, latency) && this.start == start && View() == Init(start) && fresh(store)
    {
      this.cfg, this.start := Config(GRACE_MS, lag, latency), start;
      var empty := new SignerStore.Store();
      store := empty;
      calls, answers, ledger := map[], {}, Ledger.State(start, map[], []);
      trace := [];
    }

    // The statements just executed were this protocol step.
    ghost method Did(e: Event, before: State)
      requires ReachedBy(trace, before) && Enabled(cfg, before, e) && View() == Next(cfg, before, e)
      modifies this`trace
      ensures trace == old(trace) + [e] && Valid()
    {
      RunExtends(cfg, Init(start), trace, e);
      trace := trace + [e];
    }

    // The world as others left it; which report completed a mission makes no difference here.
    method Install(s: State)
      modifies this`calls, this`answers, this`ledger, store
      ensures View() == s
    {
      var known := store.evidence.completions;
      var completions := map m | m in s.completed :: if m in known then known[m] else Completion(0, 0);
      store.evidence := store.evidence.(loans := s.loans, completions := completions);
      store.repayments := s.repayments;
      calls, answers, ledger := s.calls, s.answers, s.ledger;
      assert store.evidence.completions.Keys == s.completed;
    }

    // One thing that happens elsewhere meanwhile, if it is possible, not this call's, and not too late.
    method Elsewhere(l: Id, e: Event, until: Option<int>)
      requires Valid() && (until.Some? ==> ledger.now <= until.value)
      modifies this, store
      ensures Valid() && old(trace) <= trace && LeavesAlone(old(View()), View(), l)
      ensures until.Some? ==> ledger.now <= until.value
    {
      if Enabled(cfg, View(), e) && !About(e, l) {
        var s' := Next(cfg, View(), e);
        if until.None? || s'.ledger.now <= until.value {
          ghost var before := View();
          OthersLeaveCallAlone(cfg, before, e, l);
          Install(s');
          Did(e, before);
        }
      }
    }

    method Elapse(l: Id, others: seq<Event>, until: Option<int>)
      requires Valid() && (until.Some? ==> ledger.now <= until.value)
      modifies this, store
      ensures Valid() && old(trace) <= trace && LeavesAlone(old(View()), View(), l)
      ensures until.Some? ==> ledger.now <= until.value
    {
      for i := 0 to |others|
        invariant Valid() && old(trace) <= trace && LeavesAlone(old(View()), View(), l)
        invariant until.Some? ==> ledger.now <= until.value
      {
        Elsewhere(l, others[i], until);
      }
    }

    /** One `await`; the process may not come back from it. */
    method Wait(l: Id, x: Fortune, n: nat) returns (alive: bool)
      requires Valid() && l in calls
      modifies this, store
      ensures Valid() && old(trace) <= trace && old(answers) <= answers
      ensures if alive then LeavesAlone(old(View()), View(), l) else l !in calls
    {
      Elapse(l, x.others(n), None);
      alive := !x.dies(n);
      if !alive { Stop(l); }
    }

    /** An exception leaves the call. */
    method Stop(l: Id)
      requires Valid() && l in calls
      modifies this
      ensures Valid() && l !in calls && old(trace) <= trace && answers == old(answers)
    {
      ghost var before := View();
      calls := calls - {l};
      Did(Stops(l), before);
    }

    /** `settle`: the repayment row, then the loan, then the answer. */
    method Settle(l: Id) returns (r: Option<Ledger.TxId>)
      requires Valid() && l in calls && calls[l].Settling?
      modifies this, store
      ensures Valid() && l !in calls && old(trace) <= trace && old(answers) <= answers
      ensures r.Some? ==> (l, r.value) in answers
    {
      var t := calls[l].p.txId;
      ghost var before := View();
      store.UpdateRepaymentStatus(l, SignerTables.Confirmed);
      calls := calls[l := Recorded(calls[l].p)];
      Did(Confirms(l), before);
      before := View();
      var error := store.MarkLoanRepaid(l, t);
      calls := calls - {l};
      if error.None? { answers := answers + {(l, t)}; }
      Did(Settles(l), before);
      return if error.None? then Some(t) else None;
    }

    /** A stored attempt is looked up; "unconfirmed" and every other answer go on to `DecideAttempt`. */
    method Observe(l: Id, x: Fortune) returns (ok: bool)
      requires Valid() && l in calls && calls[l].Confirming?
      modifies this, store
      ensures Valid() && old(trace) <= trace && old(answers) <= answers
      ensures if ok then l in calls && calls[l].Observed? && ledger.now <= calls[l].at + cfg.latency else l !in calls
    {
      ok := Wait(l, x, 0);
      if !ok { return; }
      if x.confirmation.None? {
        Stop(l);
        return false;
      }
      AttemptIsKnown(cfg, start, trace, l);
      var p := calls[l].p;
      var a := FromMirror(View(), p.txId, x.confirmation.value, cfg.lag);
      ghost var before := View();
      calls := calls[l := Observed(p, a, ledger.now)];
      Did(Observes(l, a), before);
      Elapse(l, x.others(1), Some(calls[l].at + cfg.latency));
    }

    /** Settle it, give it up once nothing can come of it, wait, or send the same bytes again. */
    method DecideAttempt(l: Id)
      requires Valid() && l in calls && calls[l].Observed? && ledger.now <= calls[l].at + cfg.latency
      modifies this, store
      ensures Valid() && old(trace) <= trace && answers == old(answers)
      ensures l in calls ==> calls[l].Settling? || calls[l].Preparing? || calls[l].Ready?
    {
      var c := calls[l];
      ghost var before := View();
      if c.answer.Confirmed? {
        calls := calls[l := Settling(c.p)];
      } else if c.answer.Failed? {
        calls := calls - {l};
      } else if ledger.now >= c.p.validUntil + cfg.grace {
        store.UpdateRepaymentStatus(l, SignerTables.Failed);
        calls := calls[l := Preparing];
      } else if ledger.now >= c.p.validUntil {
        calls := calls - {l};
      } else {
        calls := calls[l := Ready(c.p)];
      }
      Did(Decides(l), before);
    }

    /** A new attempt is built and stored before anything is sent. */
    method Prepare(l: Id, x: Fortune) returns (ok: bool)
      requires Valid() && l in calls && calls[l].Preparing?
      modifies this, store
      ensures Valid() && old(trace) <= trace && old(answers) <= answers
      ensures if ok then l in calls && calls[l].Ready? else l !in calls
    {
      ok := Wait(l, x, 2);
      if !ok { return; }
      if x.prepared.None? || !Ledger.Fresh(ledger, x.prepared.value.txId) {
        Stop(l);
        return false;
      }
      AttemptIsKnown(cfg, start, trace, l);
      var p := x.prepared.value;
      ghost var before := View();
      ledger := Ledger.Register(ledger, p.txId, TransferFor(l, store.evidence.loans[l]), p.validUntil);
      calls := calls[l := Prepared(p)];
      Did(Prepares(l, p.txId, p.validUntil), before);
      ok := Wait(l, x, 3);
      if !ok { return; }
      ok := SavePrepared(l);
    }

    method SavePrepared(l: Id) returns (ok: bool)
      requires Valid() && l in calls && calls[l].Prepared?
      modifies this, store
      ensures Valid() && old(trace) <= trace && answers == old(answers)
      ensures if ok then l in calls && calls[l].Ready? else l !in calls
    {
      var p := calls[l].p;
      ghost var before := View();
      ok := store.SaveRepaymentAttempt(l, p.txId, p.validUntil);
      ok := ok && l in store.repayments;
      calls := if ok then calls[l := Ready(AttemptOf(store.repayments[l]))] else calls - {l};
      Did(Saves(l), before);
    }

    /** The stored bytes go to the ledger; its answer is final, or the attempt stays pending. */
    method Submit(l: Id, x: Fortune) returns (ok: bool)
      requires Valid() && l in calls && calls[l].Ready?
      modifies this, store
      ensures Valid() && old(trace) <= trace && old(answers) <= answers
      ensures if ok then l in calls && calls[l].Settling? else l !in calls
    {
      Send(l);
      ok := Wait(l, x, 4);
      if !ok { return; }
      if x.outcome.None? {
        Stop(l);
        return false;
      }
      AttemptIsKnown(cfg, start, trace, l);
      var p := calls[l].p;
      var a := FromNode(View(), p.txId, x.outcome.value);
      ghost var before := View();
      calls := calls[l := Outcome(p, a)];
      Did(Responds(l, a), before);
      ok := Conclude(l);
    }

    method Send(l: Id)
      requires Valid() && l in calls && calls[l].Ready?
      modifies this
      ensures Valid() && old(trace) <= trace && answers == old(answers)
      ensures l in calls && calls[l] == Submitting(old(calls)[l].p)
    {
      AttemptIsKnown(cfg, start, trace, l);
      ghost var before := View();
      ledger := Ledger.Send(ledger, calls[l].p.txId);
      calls := calls[l := Submitting(calls[l].p)];
      Did(Submits(l), before);
    }

    method Conclude(l: Id) returns (ok: bool)
      requires Valid() && l in calls && calls[l].Outcome?
      modifies this, store
      ensures Valid() && old(trace) <= trace && answers == old(answers)
      ensures ok == old(calls)[l].answer.Confirmed?
      ensures if ok then l in calls && calls[l].Settling? else l !in calls
    {
      var c := calls[l];
      ghost var before := View();
      ok := c.answer.Confirmed?;
      if ok {
        calls := calls[l := Settling(c.p)];
      } else {
        store.UpdateRepaymentStatus(l, if c.answer.Failed? then SignerTables.Failed else Pending);
        calls := calls - {l};
      }
      Did(Concludes(l), before);
    }

    /** A repaid loan is answered at once; otherwise loan, completion and stored attempt say where to begin. */
    method Open(l: Id, m: Id) returns (answer: Option<Ledger.TxId>)
      requires Valid() && l !in calls
      modifies this
      ensures Valid() && old(trace) <= trace && old(answers) <= answers
      ensures answer.Some? ==> (l, answer.value) in answers && l !in calls
      ensures l in calls ==> calls[l].Settling? || calls[l].Preparing? || calls[l].Confirming?
    {
      ghost var before := View();
      answer := None;
      if l in store.evidence.loans && store.evidence.loans[l].mission == m {
        var loan := store.evidence.loans[l];
        if loan.state == Repaid && loan.repaymentTx.Some? {
          answer := loan.repaymentTx;
          answers := answers + {(l, loan.repaymentTx.value)};
        } else if loan.state == Funded && m in store.evidence.completions {
          if l !in store.repayments || store.repayments[l].status == SignerTables.Failed { calls := calls[l := Preparing]; }
          else if store.repayments[l].status == SignerTables.Confirmed { calls := calls[l := Settling(AttemptOf(store.repayments[l]))]; }
          else { calls := calls[l := Confirming(AttemptOf(store.repayments[l]))]; }
        }
      }
      Did(Begins(l, m), before);
    }

    /**
     `repay`, once the lock of its loan is held: an id is returned only for a loan that is marked
     repaid with it, by a transfer that executed.
     */
    method Repay(l: Id, m: Id, x: Fortune) returns (r: Option<Ledger.TxId>)
      requires Valid() && l !in calls
      modifies this, store
      ensures Valid() && old(trace) <= trace && l !in calls
      ensures r.Some? ==> l in store.evidence.loans && store.evidence.loans[l].state == Repaid
                          && store.evidence.loans[l].repaymentTx == r
                          && r.value in ledger.txs && ledger.txs[r.value].fate.Executed?
    {
      r := Open(l, m);
      if l in calls {
        var ok := true;
        if calls[l].Confirming? {
          ok := Observe(l, x);
          if ok { DecideAttempt(l); }
        }
        if l in calls && calls[l].Preparing? { ok := Prepare(l, x); }
        if l in calls && calls[l].Ready? { ok := Submit(l, x); }
        if l in calls { r := Settle(l); }
      }
      if r.Some? { RepaidNamesTheTransfer(cfg, start, trace, l, r.value); }
    }
  }
}
