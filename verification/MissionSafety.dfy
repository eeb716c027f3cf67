/** What the event log says about a mission is what its rows say, and no run of it contradicts the state graph. */
module MissionSafety {
  import opened Common
  import opened MissionStates
  import opened MissionProtocol

  // --- reading the log ----------------------------------------------------------------------------------------

  predicate IsMove(e: Entry, m: Id) { e.mission == m && e.move.Some? }

  /** The states mission m passed through, according to its transition events. */
  function Visited(log: seq<Entry>, m: Id): (p: seq<MissionState>)
    ensures p != []
  {
    if log == [] then [Created]
    else
      var e := log[|log| - 1];
      Visited(log[..|log| - 1], m) + (if IsMove(e, m) then [e.move.value.1] else [])
  }

  function Last(p: seq<MissionState>): MissionState
    requires p != []
  {
    p[|p| - 1]
  }

  // Every transition event starts at the state the one before it reached.
  predicate Chained(log: seq<Entry>, m: Id)
  {
    log != [] ==>
      var front, e := log[..|log| - 1], log[|log| - 1];
      Chained(front, m) && (IsMove(e, m) ==> e.move.value.0 == Last(Visited(front, m)))
  }

  predicate Judges(e: Entry) { e.provider.Some? && e.kind != OtherKind }

  /** How many events of mission m count for or against a provider. */
  function Judgements(log: seq<Entry>, m: Id): nat
  {
    if log == [] then 0
    else Judgements(log[..|log| - 1], m) + (if log[|log| - 1].mission == m && Judges(log[|log| - 1]) then 1 else 0)
  }

  lemma LogGrows(log: seq<Entry>, e: Entry, m: Id)
    ensures Visited(log + [e], m) == (if IsMove(e, m) then Visited(log, m) + [e.move.value.1] else Visited(log, m))
    ensures Judgements(log + [e], m) == Judgements(log, m) + (if e.mission == m && Judges(e) then 1 else 0)
    ensures Chained(log + [e], m) <==> Chained(log, m) && (IsMove(e, m) ==> e.move.value.0 == Last(Visited(log, m)))
  {
    assert (log + [e])[..|log|] == log;
  }

  // --- one mission ------------------------------------------------------------------------------------------------

  // Of a mission's past, what its rows must agree with.
  predicate Was(path: seq<MissionState>, st: MissionState) { st in path }

  predicate PathOk(row: Mission, path: seq<MissionState>)
  {
    IsPath(path) && path[0] == Created && Last(path) == row.state
  }

  /** The rows beside the mission record exactly the milestones on its path. */
  predicate FactsAgree(row: Mission, path: seq<MissionState>)
  {
    && (row.loan.Some? <==> Was(path, Funded))
    && (row.spent == (if Was(path, ServicePaid) then row.price else 0))
    && (Was(path, ServicePaid) ==> 0 < row.price <= row.cap)
    && (row.completion.Some? <==> Was(path, Completed))
    && ((row.loan.Some? && row.loan.value.repaymentTx.Some?) <==> Was(path, Repaid))
    && (Was(path, Running) ==> Was(path, ServicePaid))
  }

  // What is left of a failure route: legal, clear of milestones, blaming nobody twice, ending as it must.
  predicate RouteOk(st: MissionState, route: seq<Move>, hasLoan: bool)
    decreases |route|
  {
    route != [] ==>
      && route[0].to in AllowedTransitions(st) && !IsMilestone(route[0].to) && RunState(route[0].to)
      && (if |route| == 1 then route[0].to == (if hasLoan then Defaulted else Closed) else !route[1].attributed)
      && RouteOk(route[0].to, route[1..], hasLoan)
  }

  lemma {:induction false} LegalRoutesAreOk(st: MissionState, route: seq<Move>, hasLoan: bool)
    requires LegalFrom(st, route) && (forall i :: 0 <= i < |route| ==> !IsMilestone(route[i].to) && RunState(route[i].to))
    requires forall i :: 0 < i < |route| ==> !route[i].attributed
    requires route != [] ==> route[|route| - 1].to == (if hasLoan then Defaulted else Closed)
    ensures RouteOk(st, route, hasLoan)
    decreases |route|
  {
    if route != [] {
      assert LegalAt(st, route, 0);
      var rest := route[1..];
      forall i | 0 <= i < |rest| ensures LegalAt(route[0].to, rest, i) { assert LegalAt(st, route, i + 1); }
      LegalRoutesAreOk(route[0].to, rest, hasLoan);
    }
  }

  lemma FailureRouteIsOk(st: MissionState, hasLoan: bool, refusal: Refusal)
    requires BeforeRunning(st)
    ensures RouteOk(st, FailureRoute(st, hasLoan, refusal), hasLoan)
    ensures FailureRoute(st, hasLoan, refusal) != []
  {
    FailureRouteIsLegal(st, hasLoan, refusal);
    LegalRoutesAreOk(st, FailureRoute(st, hasLoan, refusal), hasLoan);
  }

  /** A live workflow's own idea of the state is the persisted one, and it has blamed nobody while it works. */
  predicate RunOk(l: Local, judged: nat)
  {
    l.run.Some? ==>
      l.run.value.state == l.row.state && RunState(l.row.state) &&
      match l.run.value
      case Working(st, hasLoan) =>
        && BeforeRunning(st) && judged == 0 && (hasLoan <==> l.row.loan.Some?)
        && (st == Created || st == DiscoveringServices ==> !hasLoan)
      case Failing(st, route) =>
        route != [] && RouteOk(st, route, l.row.loan.Some?) && (route[0].attributed ==> judged == 0)
  }

  predicate RepayOk(l: Local)
  {
    l.repay.Some? ==>
      l.row.loan.Some? && (l.repay.value.Closing? ==> l.row.loan.value.repaymentTx == Some(l.repay.value.tx))
  }

  predicate Ok(l: Local, path: seq<MissionState>, judged: nat)
  {
    PathOk(l.row, path) && FactsAgree(l.row, path) && RunOk(l, judged) && RepayOk(l) && judged <= 1
  }

  function PathAfter(path: seq<MissionState>, o: Outcome): seq<MissionState>
  {
    if o.entry.Some? && o.entry.value.move.Some? then path + [o.entry.value.move.value.1] else path
  }

  function JudgedAfter(judged: nat, o: Outcome): nat
  {
    if o.entry.Some? && Judges(o.entry.value) then judged + 1 else judged
  }

  // An event belongs to its mission, starts where the mission stood, and judges no one but its provider.
  predicate EntryOk(l: Local, o: Outcome)
  {
    o.entry.Some? ==>
      && o.entry.value.mission == l.row.id
      && (o.entry.value.move.Some? ==> o.entry.value.move.value.0 == l.row.state)
      && (o.entry.value.provider.Some? ==> o.entry.value.provider.value == l.row.provider)
  }

  // A transaction id is returned only for a closed mission, and is its loan's.
  predicate ReturnOk(l: Local, tx: Id)
  {
    l.row.state == Closed && l.row.loan.Some? && l.row.loan.value.repaymentTx == Some(tx)
  }

  predicate Good(l: Local, path: seq<MissionState>, judged: nat, o: Outcome)
  {
    && Ok(o.after, PathAfter(path, o), JudgedAfter(judged, o)) && EntryOk(l, o)
    && (o.returned.Some? ==> ReturnOk(o.after, o.returned.value))
    && o.after.row.id == l.row.id && o.after.row.provider == l.row.provider
    && (l.row.state == Closed ==> o.after.row.state == Closed && o.after.row.loan == l.row.loan)
  }

  /** One more allowed move keeps the path a path, to a state not visited before. */
  lemma PathGrows(p: seq<MissionState>, to: MissionState)
    requires IsPath(p) && to in AllowedTransitions(Last(p))
    ensures IsPath(p + [to]) && !Was(p, to) && (p + [to])[0] == p[0] && Last(p + [to]) == to
    ensures forall st :: Was(p + [to], st) <==> Was(p, st) || st == to
  {
    var q := p + [to];
    forall i | 0 < i < |q| ensures StepAllowed(q, i) { if i < |p| { assert StepAllowed(p, i); } }
    if to in p {
      var i :| 0 <= i < |p| && p[i] == to;
      NoStateTwice(q, i, |p|);
    }
  }

  // --- steps of one mission ---------------------------------------------------------------------------------------

  // A move that writes nothing beside the state, to a state no row stands for.
  lemma PlainMove(l: Local, to: MissionState, kind: Kind, provider: Option<Id>, path: seq<MissionState>)
    requires PathOk(l.row, path) && FactsAgree(l.row, path) && CanMove(l, l.row.state, to) && !IsMilestone(to)
    ensures var o := Moved(l, to, kind, provider);
            PathOk(o.after.row, PathAfter(path, o)) && FactsAgree(o.after.row, PathAfter(path, o))
  {
    PathGrows(path, to);
  }

  lemma DiscoverIsGood(l: Local, path: seq<MissionState>, judged: nat)
    requires Ok(l, path, judged)
    ensures Good(l, path, judged, Discover(l))
  {
    if CanMove(l, Created, DiscoveringServices) { PlainMove(l, DiscoveringServices, OtherKind, None, path); }
  }

  lemma OverpriceIsGood(l: Local, path: seq<MissionState>, judged: nat)
    requires Ok(l, path, judged)
    ensures Good(l, path, judged, Overprice(l))
  {
    if CanMove(l, DiscoveringServices, PaymentPreparation) {
      PlainMove(l, PaymentPreparation, OtherKind, None, path);
      FailureRouteIsOk(PaymentPreparation, false, WorkflowRefusal);
    }
  }

  lemma AdvanceIsGood(l: Local, path: seq<MissionState>, judged: nat, p: Progress)
    requires Ok(l, path, judged)
    ensures Good(l, path, judged, Advance(l, p))
  {
    if Consuming(l) && Target(l, p).Some? && CanMove(l, l.run.value.state, Target(l, p).value) { PathGrows(path, Target(l, p).value); }
  }

  lemma ReportIsGood(l: Local, path: seq<MissionState>, judged: nat)
    requires Ok(l, path, judged)
    ensures Good(l, path, judged, Report(l))
  {
    if CanMove(l, ServicePaid, Running) { PathGrows(path, Running); }
  }

  lemma FailIsGood(l: Local, path: seq<MissionState>, judged: nat, refusal: Refusal)
    requires Ok(l, path, judged)
    ensures Good(l, path, judged, Fail(l, refusal))
  {
    if l.run.Some? && l.run.value.Working? { FailureRouteIsOk(l.run.value.state, l.run.value.hasLoan, refusal); }
  }

  lemma RouteIsGood(l: Local, path: seq<MissionState>, judged: nat)
    requires Ok(l, path, judged)
    ensures Good(l, path, judged, Route(l))
  {
    if l.run.Some? && l.run.value.Failing? {
      var move := l.run.value.route[0];
      PlainMove(l, move.to, if move.kind.MissionFailed? then Kind.MissionFailed else OtherKind,
                if move.attributed then Some(l.row.provider) else None, path);
    }
  }

  lemma CompleteIsGood(l: Local, path: seq<MissionState>, judged: nat, c: Completion)
    requires Ok(l, path, judged)
    ensures Good(l, path, judged, Complete(l, c))
  {
    if CanMove(l, Running, Completed) { PathGrows(path, Completed); }
  }

  lemma BeginRepaymentIsGood(l: Local, path: seq<MissionState>, judged: nat)
    requires Ok(l, path, judged) && l.repay.None?
    ensures Good(l, path, judged, BeginRepayment(l))
  {
    if l.row.state == Completed { PlainMove(l, if l.row.loan.None? then Closed else RepaymentPending, OtherKind, None, path); }
  }

  lemma SettleIsGood(l: Local, path: seq<MissionState>, judged: nat, tx: Id)
    requires Ok(l, path, judged)
    ensures Good(l, path, judged, Settle(l, tx))
  {
    if CanMove(l, RepaymentPending, Repaid) { PathGrows(path, Repaid); }
  }

  lemma CloseIsGood(l: Local, path: seq<MissionState>, judged: nat)
    requires Ok(l, path, judged)
    ensures Good(l, path, judged, Close(l))
  {
    if CanMove(l, Repaid, Closed) { PlainMove(l, Closed, OtherKind, None, path); }
  }

  lemma ActIsGood(l: Local, path: seq<MissionState>, judged: nat, a: Step)
    requires Ok(l, path, judged)
    ensures Good(l, path, judged, Act(l, a))
  {
    match a
    case Discovers => DiscoverIsGood(l, path, judged);
    case Overprices => OverpriceIsGood(l, path, judged);
    case Progresses(p) => AdvanceIsGood(l, path, judged, p);
    case Reports => ReportIsGood(l, path, judged);
    case Fails(refusal) => FailIsGood(l, path, judged, refusal);
    case Routes => RouteIsGood(l, path, judged);
    case Completes(c) => CompleteIsGood(l, path, judged, c);
    case BeginsRepayment => if l.repay.None? { BeginRepaymentIsGood(l, path, judged); }
    case Repays(tx) => SettleIsGood(l, path, judged, tx);
    case Closes => CloseIsGood(l, path, judged);
    case _ =>
  }

  // --- all missions ---------------------------------------------------------------------------------------------------

  predicate MissionOk(s: State, m: Id)
  {
    && Chained(s.log, m)
    && if m in s.missions then s.missions[m].row.id == m && Ok(s.missions[m], Visited(s.log, m), Judgements(s.log, m))
       else Visited(s.log, m) == [Created] && Judgements(s.log, m) == 0
  }

  predicate ReturnedOk(s: State, r: (Id, Id))
  {
    r in s.returned ==> r.0 in s.missions && ReturnOk(s.missions[r.0], r.1)
  }

  predicate JudgementOk(s: State, i: nat)
  {
    i < |s.log| && s.log[i].provider.Some? ==>
      s.log[i].mission in s.missions && s.log[i].provider.value == s.missions[s.log[i].mission].row.provider
  }

  ghost predicate Inv(s: State)
  {
    (forall m :: MissionOk(s, m)) && (forall r :: ReturnedOk(s, r)) && (forall i: nat :: JudgementOk(s, i))
    && (forall k :: k in s.callbacks ==> s.callbacks[k].0 in s.missions)
  }

  lemma InitOk()
    ensures Inv(Init())
  {
  }

  lemma ApplyKeepsMissions(s: State, m: Id, o: Outcome, n: Id)
    requires MissionOk(s, n) && MissionOk(s, m) && m in s.missions
    requires Good(s.missions[m], Visited(s.log, m), Judgements(s.log, m), o)
    ensures MissionOk(Apply(s, m, o), n)
  {
    if o.entry.Some? { LogGrows(s.log, o.entry.value, n); }
  }

  lemma ApplyKeepsInv(s: State, m: Id, a: Step)
    requires Inv(s) && m in s.missions
    ensures Inv(Apply(s, m, Act(s.missions[m], a)))
  {
    var o := Act(s.missions[m], a);
    var s' := Apply(s, m, o);
    assert MissionOk(s, m);
    ActIsGood(s.missions[m], Visited(s.log, m), Judgements(s.log, m), a);
    forall n ensures MissionOk(s', n) { assert MissionOk(s, n); ApplyKeepsMissions(s, m, o, n); }
    forall r ensures ReturnedOk(s', r) { assert ReturnedOk(s, r); }
    forall i: nat ensures JudgementOk(s', i) { assert JudgementOk(s, i); }
  }

  lemma StepKeepsInv(s: State, e: Event)
    requires Inv(s) && Enabled(s, e)
    ensures Inv(Next(s, e))
  {
    match e
    case Begins(m, _, _, _) =>
      var s' := Next(s, e);
      forall n ensures MissionOk(s', n) { assert MissionOk(s, n); }
      forall r ensures ReturnedOk(s', r) { assert ReturnedOk(s, r); }
      forall i: nat ensures JudgementOk(s', i) { assert JudgementOk(s, i); }
    case Acts(m, step) => ApplyKeepsInv(s, m, step);
    case Accepts(k) =>
      var m := s.callbacks[k].0;
      ApplyKeepsInv(s, m, Completes(s.callbacks[k].1));
      CallbacksAside(Apply(s, m, Act(s.missions[m], Completes(s.callbacks[k].1))), s.callbacks - {k});
    case Receives(k, m, c) => CallbacksAside(s, s.callbacks[k := (m, c)]);
    case Drops(k) => CallbacksAside(s, s.callbacks - {k});
  }

  lemma CallbacksAside(s: State, callbacks: map<Id, (Id, Completion)>)
    requires Inv(s) && forall k :: k in callbacks ==> callbacks[k].0 in s.missions
    ensures Inv(s.(callbacks := callbacks))
  {
    var s' := s.(callbacks := callbacks);
    forall n ensures MissionOk(s', n) { assert MissionOk(s, n); }
    forall r ensures ReturnedOk(s', r) { assert ReturnedOk(s, r); }
    forall i: nat ensures JudgementOk(s', i) { assert JudgementOk(s, i); }
  }

  lemma {:induction false} RunKeepsInv(s: State, es: seq<Event>)
    requires Inv(s) && ValidRun(s, es)
    ensures Inv(After(s, es))
    decreases |es|
  {
    if es != [] {
      StepKeepsInv(s, es[0]);
      RunKeepsInv(Next(s, es[0]), es[1..]);
    }
  }

  // --- what it means --------------------------------------------------------------------------------------------------

  /** A mission's transition events always form a path of the state graph from `created` to its persisted state. */
  lemma EventsFormAPath(es: seq<Event>, m: Id)
    requires ValidRun(Init(), es) && m in After(Init(), es).missions
    ensures var s := After(Init(), es);
            var path := Visited(s.log, m);
            IsPath(path) && path[0] == Created && Last(path) == s.missions[m].row.state && Chained(s.log, m) && |path| <= 13
  {
    InitOk();
    RunKeepsInv(Init(), es);
    var s := After(Init(), es);
    assert MissionOk(s, m);
    PathsAreShort(Visited(s.log, m));
  }

  /** A loan row, money spent, a completion and a repayment are there exactly when the path shows it. */
  lemma FactsFollowThePath(es: seq<Event>, m: Id)
    requires ValidRun(Init(), es) && m in After(Init(), es).missions
    ensures var s := After(Init(), es); FactsAgree(s.missions[m].row, Visited(s.log, m))
  {
    InitOk();
    RunKeepsInv(Init(), es);
    assert MissionOk(After(Init(), es), m);
  }

  /** A live workflow never works from a stale state: its moves cannot lose the compare-and-set. */
  lemma WorkflowStateIsPersisted(es: seq<Event>, m: Id)
    requires ValidRun(Init(), es) && m in After(Init(), es).missions && After(Init(), es).missions[m].run.Some?
    ensures var l := After(Init(), es).missions[m];
            l.run.value.state == l.row.state && (l.run.value.Failing? ==> Route(l).entry.Some?)
  {
    InitOk();
    RunKeepsInv(Init(), es);
    assert MissionOk(After(Init(), es), m);
  }

  // The rest of a failing workflow, when nothing interrupts it.
  function RunOut(l: Local): Local
    decreases if l.run.Some? && l.run.value.Failing? then |l.run.value.route| else 0
  {
    if l.run.Some? && l.run.value.Failing? && l.run.value.route != [] then RunOut(Route(l).after) else l
  }

  lemma {:induction false} FailingRunsOut(l: Local, path: seq<MissionState>, judged: nat)
    requires Ok(l, path, judged) && l.run.Some? && l.run.value.Failing?
    ensures RunOut(l).row.state == (if l.row.loan.Some? then Defaulted else Closed)
    ensures RunOut(l).row == l.row.(state := RunOut(l).row.state) && RunOut(l).run.None?
    decreases |l.run.value.route|
  {
    var o := Route(l);
    RouteIsGood(l, path, judged);
    if o.after.run.Some? { FailingRunsOut(o.after, PathAfter(path, o), JudgedAfter(judged, o)); }
    else { assert RunOut(o.after) == o.after; }
  }

  /**
   Whatever went wrong and wherever, a workflow that fails ends its mission in `closed` when no
   loan was persisted and in `defaulted` when one was, and changes nothing else about it.
   */
  lemma FailureEndsTheMission(es: seq<Event>, m: Id, refusal: Refusal)
    requires ValidRun(Init(), es) && m in After(Init(), es).missions
    requires var l := After(Init(), es).missions[m]; l.run.Some? && l.run.value.Working?
    ensures var l := After(Init(), es).missions[m];
            RunOut(Fail(l, refusal).after).row == l.row.(state := if l.row.loan.Some? then Defaulted else Closed)
  {
    InitOk();
    RunKeepsInv(Init(), es);
    var s := After(Init(), es);
    assert MissionOk(s, m);
    FailIsGood(s.missions[m], Visited(s.log, m), Judgements(s.log, m), refusal);
    FailingRunsOut(Fail(s.missions[m], refusal).after, Visited(s.log, m), Judgements(s.log, m));
  }

  /** In its whole life a mission counts at most once for or against a provider, and only its own. */
  lemma JudgedAtMostOnce(es: seq<Event>, m: Id)
    requires ValidRun(Init(), es)
    ensures var s := After(Init(), es);
            Judgements(s.log, m) <= 1
            && forall i :: 0 <= i < |s.log| && s.log[i].mission == m && s.log[i].provider.Some? ==>
                 m in s.missions && s.log[i].provider.value == s.missions[m].row.provider
  {
    InitOk();
    RunKeepsInv(Init(), es);
    var s := After(Init(), es);
    assert MissionOk(s, m);
    forall i | 0 <= i < |s.log| && s.log[i].mission == m && s.log[i].provider.Some?
      ensures m in s.missions && s.log[i].provider.value == s.missions[m].row.provider
    {
      assert JudgementOk(s, i);
    }
  }

  /** However often repayment is run, across restarts, it answers one id: the repaid loan's, of a closed mission. */
  lemma RepaymentAnswersAgree(es: seq<Event>, m: Id, a: Id, b: Id)
    requires ValidRun(Init(), es) && (m, a) in After(Init(), es).returned && (m, b) in After(Init(), es).returned
    ensures a == b
    ensures var s := After(Init(), es); m in s.missions && ReturnOk(s.missions[m], a)
  {
    InitOk();
    RunKeepsInv(Init(), es);
    var s := After(Init(), es);
    assert ReturnedOk(s, (m, a)) && ReturnedOk(s, (m, b));
  }
}
