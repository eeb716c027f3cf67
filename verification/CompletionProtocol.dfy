/**
 One provider callback, two services: the orchestrator checks it, has the signer record it, and
 only then records it itself. Requests to the signer outlive the call that sent them, answers can
 be lost, and either side may stop anywhere. `answers` and `accepted` are history.
 */
module CompletionProtocol {
  import opened Common
  import opened SignerTables
  import Ledger

  type CallId = nat

  // What a callback body says; the request hash determines the body.
  datatype Content = Content(mission: Id, completion: Completion)

  datatype Config = Config(parse: Hash -> Content)

  datatype Phase = Early | Running | Over

  datatype Call = Waiting(body: Hash) | Forwarded(body: Hash, request: CallId) | Acknowledged(body: Hash)

  datatype Request = Sent(body: Hash) | Checking(body: Hash) | Answered(body: Hash)

  datatype Answer = Accepted | Duplicate

  datatype State = State(
    phases: map<Id, Phase>,
    completions: map<Id, Completion>,
    keys: map<CallbackKey, Hash>,
    signer: Evidence,
    calls: map<CallId, Call>,
    requests: map<CallId, Request>,
    accepted: multiset<Id>,
    answers: set<(Hash, Answer)>)

  function Init(): State
  {
    State(map[], map[], map[], Evidence(map[], map[], map[], map[]), map[], map[], multiset{}, {})
  }

  function KeyOf(cfg: Config, b: Hash): CallbackKey { CallbackKey(cfg.parse(b).mission, cfg.parse(b).completion.report) }

  datatype Event =
    | Starts(m: Id)
    | Runs(m: Id)
    | Fails(m: Id)
    | Receives(k: CallId, body: Hash)
    | Forwards(k: CallId, r: CallId)
    | Checks(r: CallId)
    | Records(r: CallId)
    | Hears(k: CallId)
    | Commits(k: CallId)
    | Stops(k: CallId)
    | Loses(r: CallId)

  predicate Enabled(s: State, e: Event)
  {
    match e
    case Starts(m) => m !in s.phases
    case Runs(m) => m in s.phases && s.phases[m] == Early
    case Fails(m) => m in s.phases && s.phases[m] != Over
    case Receives(k, _) => k !in s.calls
    case Forwards(k, r) => k in s.calls && s.calls[k].Waiting? && r !in s.requests
    case Checks(r) => r in s.requests && s.requests[r].Sent?
    case Records(r) => r in s.requests && s.requests[r].Checking?
    case Hears(k) =>
      k in s.calls && s.calls[k].Forwarded? && s.calls[k].request in s.requests
      && s.requests[s.calls[k].request] == Answered(s.calls[k].body)
    case Commits(k) => k in s.calls && s.calls[k].Acknowledged?
    case Stops(k) => k in s.calls
    case Loses(r) => r in s.requests && !s.requests[r].Answered?
  }

  function At(s: State, k: CallId, c: Call): State { s.(calls := s.calls[k := c]) }

  function Ended(s: State, k: CallId): State { s.(calls := s.calls - {k}) }

  function Said(s: State, b: Hash, a: Answer): State { s.(answers := s.answers + {(b, a)}) }

  /** `receive` up to its first wait. */
  function Receive(cfg: Config, s: State, k: CallId, b: Hash): State
  {
    var m := cfg.parse(b).mission;
    if m !in s.phases then s
    else if KeyOf(cfg, b) in s.keys then (if s.keys[KeyOf(cfg, b)] == b then Said(s, b, Duplicate) else s)
    else if m in s.completions || s.phases[m] != Running then s
    else At(s, k, Waiting(b))
  }

  function Asked(s: State, r: CallId, q: Request): State { s.(requests := s.requests[r := q]) }

  function Lost(s: State, r: CallId): State { s.(requests := s.requests - {r}) }

  /** The signer's replay check; a new callback goes on to the ledger. */
  function Check(cfg: Config, s: State, r: CallId): State
    requires r in s.requests
  {
    var b := s.requests[r].body;
    match CompletionReplay(s.signer, KeyOf(cfg, b), b)
    case Err(_) => Lost(s, r)
    case Ok(replay) => Asked(s, r, if replay then Answered(b) else Checking(b))
  }

  function Record(cfg: Config, s: State, r: CallId): State
    requires r in s.requests
  {
    var b := s.requests[r].body;
    match RecordCompletion(s.signer, cfg.parse(b).mission, cfg.parse(b).completion, b)
    case Err(_) => Lost(s, r)
    case Ok(done) => Asked(s.(signer := done.0), r, Answered(b))
  }

  /** The transition with its completion and key, in one transaction; losing the race to the same body is a duplicate. */
  function Commit(cfg: Config, s: State, k: CallId): State
    requires k in s.calls
  {
    var b := s.calls[k].body;
    var m := cfg.parse(b).mission;
    if m in s.phases && s.phases[m] == Running && m !in s.completions && KeyOf(cfg, b) !in s.keys
    then
      Said(Ended(s, k), b, Accepted)
        .(phases := s.phases[m := Over], completions := s.completions[m := cfg.parse(b).completion],
          keys := s.keys[KeyOf(cfg, b) := b], accepted := s.accepted + multiset{m})
    else if KeyOf(cfg, b) in s.keys && s.keys[KeyOf(cfg, b)] == b then Said(Ended(s, k), b, Duplicate)
    else Ended(s, k)
  }

  /** The step an event takes; one that is not enabled changes nothing. */
  function Next(cfg: Config, s: State, e: Event): State
  {
    if !Enabled(s, e) then s
    else
      match e
      case Starts(m) => s.(phases := s.phases[m := Early])
      case Runs(m) => s.(phases := s.phases[m := Running])
      case Fails(m) => s.(phases := s.phases[m := Over])
      case Receives(k, b) => Receive(cfg, s, k, b)
      case Forwards(k, r) => Asked(At(s, k, Forwarded(s.calls[k].body, r)), r, Sent(s.calls[k].body))
      case Checks(r) => Check(cfg, s, r)
      case Records(r) => Record(cfg, s, r)
      case Hears(k) => At(s, k, Acknowledged(s.calls[k].body))
      case Commits(k) => Commit(cfg, s, k)
      case Stops(k) => Ended(s, k)
      case Loses(r) => Lost(s, r)
  }

  ghost predicate ValidRun(cfg: Config, s: State, es: seq<Event>)
    decreases |es|
  {
    es == [] || (Enabled(s, es[0]) && ValidRun(cfg, Next(cfg, s, es[0]), es[1..]))
  }

  ghost function After(cfg: Config, s: State, es: seq<Event>): State
    decreases |es|
  {
    if es == [] then s else After(cfg, Next(cfg, s, es[0]), es[1..])
  }

  // --- invariant ----------------------------------------------------------------------------------------------

  // The signer has recorded exactly this callback.
  predicate SignedFor(cfg: Config, s: State, b: Hash)
  {
    && KeyOf(cfg, b) in s.signer.callbacks && s.signer.callbacks[KeyOf(cfg, b)] == b
    && cfg.parse(b).mission in s.signer.completions && s.signer.completions[cfg.parse(b).mission] == cfg.parse(b).completion
  }

  predicate KeyOk(cfg: Config, s: State, key: CallbackKey)
  {
    key in s.signer.callbacks ==> key == KeyOf(cfg, s.signer.callbacks[key]) && SignedFor(cfg, s, s.signer.callbacks[key])
  }

  // The orchestrator has recorded exactly this callback, and so has the signer.
  predicate Settled(cfg: Config, s: State, b: Hash)
  {
    var m := cfg.parse(b).mission;
    && KeyOf(cfg, b) in s.keys && s.keys[KeyOf(cfg, b)] == b
    && m in s.completions && s.completions[m] == cfg.parse(b).completion && SignedFor(cfg, s, b)
  }

  predicate LocalKeyOk(cfg: Config, s: State, key: CallbackKey)
  {
    key in s.keys ==> key == KeyOf(cfg, s.keys[key]) && Settled(cfg, s, s.keys[key])
  }

  // A completion has its key, its mission is over, and it was answered "accepted" once.
  predicate MissionOk(cfg: Config, s: State, m: Id)
  {
    && s.accepted[m] == (if m in s.completions then 1 else 0)
    && (m in s.completions ==> m in s.phases && s.phases[m] == Over && CallbackKey(m, s.completions[m].report) in s.keys)
  }

  predicate CallOk(cfg: Config, s: State, k: CallId)
  {
    k in s.calls && s.calls[k].Acknowledged? ==> SignedFor(cfg, s, s.calls[k].body)
  }

  predicate RequestOk(cfg: Config, s: State, r: CallId)
  {
    r in s.requests && s.requests[r].Answered? ==> SignedFor(cfg, s, s.requests[r].body)
  }

  predicate AnswerOk(cfg: Config, s: State, a: (Hash, Answer)) { a in s.answers ==> Settled(cfg, s, a.0) }

  ghost predicate Inv(cfg: Config, s: State)
  {
    && (forall key :: KeyOk(cfg, s, key)) && (forall key :: LocalKeyOk(cfg, s, key)) && (forall m :: MissionOk(cfg, s, m))
    && (forall k :: CallOk(cfg, s, k)) && (forall r :: RequestOk(cfg, s, r)) && (forall a :: AnswerOk(cfg, s, a))
  }

  ghost predicate SubMap<K, V>(a: map<K, V>, b: map<K, V>) { forall k :: k in a ==> k in b && b[k] == a[k] }

  // Nothing recorded on either side is lost or revised.
  ghost predicate Extends(s: State, s': State)
  {
    SubMap(s.signer.callbacks, s'.signer.callbacks) && SubMap(s.signer.completions, s'.signer.completions)
    && SubMap(s.keys, s'.keys) && SubMap(s.completions, s'.completions)
  }

  lemma RecordsStay(cfg: Config, s: State, s': State, b: Hash)
    requires Extends(s, s')
    ensures SignedFor(cfg, s, b) ==> SignedFor(cfg, s', b)
    ensures Settled(cfg, s, b) ==> Settled(cfg, s', b)
  {
  }

  lemma KeysStay(cfg: Config, s: State, s': State, key: CallbackKey)
    requires Extends(s, s') && KeyOk(cfg, s, key) && LocalKeyOk(cfg, s, key)
    ensures key in s.signer.callbacks || s'.signer.callbacks == s.signer.callbacks ==> KeyOk(cfg, s', key)
    ensures key in s.keys || s'.keys == s.keys ==> LocalKeyOk(cfg, s', key)
  {
    if key in s.signer.callbacks { RecordsStay(cfg, s, s', s.signer.callbacks[key]); }
    if key in s.keys { RecordsStay(cfg, s, s', s.keys[key]); }
  }

  lemma CallsStay(cfg: Config, s: State, s': State, k: CallId, a: (Hash, Answer))
    requires Extends(s, s') && CallOk(cfg, s, k) && RequestOk(cfg, s, k) && AnswerOk(cfg, s, a)
    ensures k !in s'.calls || (k in s.calls && s'.calls[k] == s.calls[k]) ==> CallOk(cfg, s', k)
    ensures k !in s'.requests || (k in s.requests && s'.requests[k] == s.requests[k]) ==> RequestOk(cfg, s', k)
    ensures a in s.answers ==> AnswerOk(cfg, s', a)
  {
    if k in s.calls { RecordsStay(cfg, s, s', s.calls[k].body); }
    if k in s.requests { RecordsStay(cfg, s, s', s.requests[k].body); }
    RecordsStay(cfg, s, s', a.0);
  }

  lemma QuietStepKeepsInv(cfg: Config, s: State, e: Event)
    requires Inv(cfg, s) && Enabled(s, e) && (e.Starts? || e.Runs? || e.Fails? || e.Forwards? || e.Hears? || e.Stops? || e.Loses?)
    ensures Inv(cfg, Next(cfg, s, e))
  {
    var s' := Next(cfg, s, e);
    if e.Hears? { assert RequestOk(cfg, s, s.calls[e.k].request); }
    forall key ensures KeyOk(cfg, s', key) { assert KeyOk(cfg, s, key); }
    forall key ensures LocalKeyOk(cfg, s', key) { assert LocalKeyOk(cfg, s, key); }
    forall m ensures MissionOk(cfg, s', m) { assert MissionOk(cfg, s, m); }
    forall k ensures CallOk(cfg, s', k) { assert CallOk(cfg, s, k); }
    forall r ensures RequestOk(cfg, s', r) { assert RequestOk(cfg, s, r); }
    forall a ensures AnswerOk(cfg, s', a) { assert AnswerOk(cfg, s, a); }
  }

  lemma ReceiveKeepsInv(cfg: Config, s: State, k: CallId, b: Hash)
    requires Inv(cfg, s) && k !in s.calls
    ensures Inv(cfg, Receive(cfg, s, k, b))
  {
    var s' := Receive(cfg, s, k, b);
    forall key ensures KeyOk(cfg, s', key) { assert KeyOk(cfg, s, key); }
    forall key ensures LocalKeyOk(cfg, s', key) { assert LocalKeyOk(cfg, s, key); }
    forall m ensures MissionOk(cfg, s', m) { assert MissionOk(cfg, s, m); }
    forall j ensures CallOk(cfg, s', j) { assert CallOk(cfg, s, j); }
    forall r ensures RequestOk(cfg, s', r) { assert RequestOk(cfg, s, r); }
    forall a ensures AnswerOk(cfg, s', a) { assert AnswerOk(cfg, s, a) && LocalKeyOk(cfg, s, KeyOf(cfg, b)); }
  }

  lemma CheckKeepsInv(cfg: Config, s: State, r: CallId)
    requires Inv(cfg, s) && r in s.requests
    ensures Inv(cfg, Check(cfg, s, r))
  {
    var s' := Check(cfg, s, r);
    assert KeyOk(cfg, s, KeyOf(cfg, s.requests[r].body));
    forall key ensures KeyOk(cfg, s', key) { assert KeyOk(cfg, s, key); }
    forall key ensures LocalKeyOk(cfg, s', key) { assert LocalKeyOk(cfg, s, key); }
    forall m ensures MissionOk(cfg, s', m) { assert MissionOk(cfg, s, m); }
    forall k ensures CallOk(cfg, s', k) { assert CallOk(cfg, s, k); }
    forall q ensures RequestOk(cfg, s', q) { assert RequestOk(cfg, s, q); }
    forall a ensures AnswerOk(cfg, s', a) { assert AnswerOk(cfg, s, a); }
  }

  // What recording at the signer does to the records.
  lemma RecordExtends(cfg: Config, s: State, r: CallId)
    requires r in s.requests && KeyOk(cfg, s, KeyOf(cfg, s.requests[r].body))
    ensures Extends(s, Record(cfg, s, r))
    ensures var s' := Record(cfg, s, r);
            && (r in s'.requests ==> SignedFor(cfg, s', s.requests[r].body))
            && (s'.signer.callbacks == s.signer.callbacks
                || (s'.signer.callbacks == s.signer.callbacks[KeyOf(cfg, s.requests[r].body) := s.requests[r].body] && r in s'.requests))
  {
  }

  lemma RecordKeepsInv(cfg: Config, s: State, r: CallId)
    requires Inv(cfg, s) && r in s.requests
    ensures Inv(cfg, Record(cfg, s, r))
  {
    var s' := Record(cfg, s, r);
    var b := s.requests[r].body;
    assert KeyOk(cfg, s, KeyOf(cfg, b));
    RecordExtends(cfg, s, r);
    forall key ensures KeyOk(cfg, s', key) && LocalKeyOk(cfg, s', key) {
      assert KeyOk(cfg, s, key) && LocalKeyOk(cfg, s, key);
      KeysStay(cfg, s, s', key);
    }
    forall m ensures MissionOk(cfg, s', m) { assert MissionOk(cfg, s, m); }
    forall k ensures CallOk(cfg, s', k) && RequestOk(cfg, s', k) {
      assert CallOk(cfg, s, k) && RequestOk(cfg, s, k) && AnswerOk(cfg, s, (0, Accepted));
      CallsStay(cfg, s, s', k, (0, Accepted));
    }
    forall a ensures AnswerOk(cfg, s', a) {
      assert CallOk(cfg, s, r) && RequestOk(cfg, s, r) && AnswerOk(cfg, s, a);
      CallsStay(cfg, s, s', r, a);
    }
  }

  // What committing does to the records.
  lemma CommitExtends(cfg: Config, s: State, k: CallId)
    requires k in s.calls && SignedFor(cfg, s, s.calls[k].body) && LocalKeyOk(cfg, s, KeyOf(cfg, s.calls[k].body))
    ensures var s', b := Commit(cfg, s, k), s.calls[k].body;
            && Extends(s, s')
            && (s'.answers == s.answers || (Settled(cfg, s', b) && forall a :: a in s'.answers ==> a in s.answers || a.0 == b))
            && (s'.keys == s.keys || (s'.keys == s.keys[KeyOf(cfg, b) := b] && Settled(cfg, s', b)))
  {
  }

  lemma CommitKeepsMissions(cfg: Config, s: State, k: CallId, m: Id)
    requires k in s.calls && MissionOk(cfg, s, m)
    ensures MissionOk(cfg, Commit(cfg, s, k), m)
  {
  }

  lemma CommitKeepsInv(cfg: Config, s: State, k: CallId)
    requires Inv(cfg, s) && Enabled(s, Commits(k))
    ensures Inv(cfg, Commit(cfg, s, k))
  {
    var s' := Commit(cfg, s, k);
    assert CallOk(cfg, s, k) && LocalKeyOk(cfg, s, KeyOf(cfg, s.calls[k].body));
    CommitExtends(cfg, s, k);
    forall key ensures KeyOk(cfg, s', key) { assert KeyOk(cfg, s, key) && LocalKeyOk(cfg, s, key); KeysStay(cfg, s, s', key); }
    forall key ensures LocalKeyOk(cfg, s', key) { assert KeyOk(cfg, s, key) && LocalKeyOk(cfg, s, key); KeysStay(cfg, s, s', key); }
    forall m ensures MissionOk(cfg, s', m) { assert MissionOk(cfg, s, m); CommitKeepsMissions(cfg, s, k, m); }
    forall j ensures CallOk(cfg, s', j) && RequestOk(cfg, s', j) {
      assert CallOk(cfg, s, j) && RequestOk(cfg, s, j) && AnswerOk(cfg, s, (0, Accepted));
      CallsStay(cfg, s, s', j, (0, Accepted));
    }
    forall a ensures AnswerOk(cfg, s', a) {
      assert CallOk(cfg, s, k) && RequestOk(cfg, s, k) && AnswerOk(cfg, s, a);
      CallsStay(cfg, s, s', k, a);
    }
  }

  lemma StepKeepsInv(cfg: Config, s: State, e: Event)
    requires Inv(cfg, s) && Enabled(s, e)
    ensures Inv(cfg, Next(cfg, s, e))
  {
    match e
    case Receives(k, b) => ReceiveKeepsInv(cfg, s, k, b);
    case Checks(r) => CheckKeepsInv(cfg, s, r);
    case Records(r) => RecordKeepsInv(cfg, s, r);
    case Commits(k) => CommitKeepsInv(cfg, s, k);
    case _ => QuietStepKeepsInv(cfg, s, e);
  }

  lemma {:induction false} RunKeepsInv(cfg: Config, s: State, es: seq<Event>)
    requires Inv(cfg, s) && ValidRun(cfg, s, es)
    ensures Inv(cfg, After(cfg, s, es))
    decreases |es|
  {
    if es != [] {
      StepKeepsInv(cfg, s, es[0]);
      RunKeepsInv(cfg, Next(cfg, s, es[0]), es[1..]);
    }
  }

  // --- what it means --------------------------------------------------------------------------------------------

  /** A completion at the orchestrator is a completion at the signer: same mission, report and settlement. */
  lemma CompletionsAgree(cfg: Config, es: seq<Event>, m: Id)
    requires ValidRun(cfg, Init(), es) && m in After(cfg, Init(), es).completions
    ensures var s := After(cfg, Init(), es);
            m in s.signer.completions && s.signer.completions[m] == s.completions[m]
  {
    RunKeepsInv(cfg, Init(), es);
    var s := After(cfg, Init(), es);
    assert MissionOk(cfg, s, m) && LocalKeyOk(cfg, s, CallbackKey(m, s.completions[m].report));
  }

  /** "accepted" is answered at most once per mission, whatever is retried or runs at the same time. */
  lemma AcceptedAtMostOnce(cfg: Config, es: seq<Event>, m: Id)
    requires ValidRun(cfg, Init(), es)
    ensures After(cfg, Init(), es).accepted[m] <= 1
  {
    RunKeepsInv(cfg, Init(), es);
    assert MissionOk(cfg, After(cfg, Init(), es), m);
  }

  /** A body answered with success, first or duplicate, is the one both services recorded for its mission. */
  lemma AnswersAreSettled(cfg: Config, es: seq<Event>, b: Hash, a: Answer, c: Hash, d: Answer)
    requires ValidRun(cfg, Init(), es)
    requires (b, a) in After(cfg, Init(), es).answers && (c, d) in After(cfg, Init(), es).answers
    ensures Settled(cfg, After(cfg, Init(), es), b)
    ensures cfg.parse(b).mission == cfg.parse(c).mission ==> b == c
  {
    RunKeepsInv(cfg, Init(), es);
    var s := After(cfg, Init(), es);
    assert AnswerOk(cfg, s, (b, a)) && AnswerOk(cfg, s, (c, d));
  }
}
