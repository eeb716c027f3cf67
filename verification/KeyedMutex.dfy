/**
 The promise-chain lock of `KeyedMutex.run`. Each task waits on the tail it found under its key
 and leaves its own tail there; a tail resolves once its own task is released and the tail before
 it has resolved. Tasks are numbered in arrival order. `Ends` stands for both a return and a throw:
 the code that follows either is the same `finally` block.
 */
module KeyedMutex {
  import opened Common

  type Key = nat
  type TaskId = nat

  datatype Phase = Waiting | Running | Ended

  datatype Task = Task(key: Key, previous: Option<TaskId>, phase: Phase)

  datatype State = State(tasks: seq<Task>, tails: map<Key, TaskId>)

  datatype Event = Arrives(key: Key) | Starts(i: TaskId) | Ends(i: TaskId)

  function Empty(): State { State([], map[]) }

  /** Whether the tail task i left behind has resolved. */
  predicate Resolved(tasks: seq<Task>, i: TaskId)
  {
    i < |tasks| && tasks[i].phase == Ended &&
    match tasks[i].previous
    case None => true
    case Some(j) => j < i && Resolved(tasks, j)
  }

  predicate Enabled(s: State, e: Event)
  {
    match e
    case Arrives(_) => true
    case Starts(i) =>
      i < |s.tasks| && s.tasks[i].phase == Waiting
      && (s.tasks[i].previous.Some? ==> Resolved(s.tasks, s.tasks[i].previous.value))
    case Ends(i) => i < |s.tasks| && s.tasks[i].phase == Running
  }

  /** The step an event takes; one that is not enabled changes nothing. */
  function Next(s: State, e: Event): State
  {
    if !Enabled(s, e) then s
    else
      match e
      case Arrives(key) =>
        var previous := if key in s.tails then Some(s.tails[key]) else None;
        State(s.tasks + [Task(key, previous, Waiting)], s.tails[key := |s.tasks|])
      case Starts(i) => s.(tasks := s.tasks[i := s.tasks[i].(phase := Running)])
      case Ends(i) =>
        var key := s.tasks[i].key;
        State(s.tasks[i := s.tasks[i].(phase := Ended)],
              if key in s.tails && s.tails[key] == i then s.tails - {key} else s.tails)
  }

  ghost predicate ValidRun(s: State, es: seq<Event>)
    decreases |es|
  {
    es == [] || (Enabled(s, es[0]) && ValidRun(Next(s, es[0]), es[1..]))
  }

  ghost function After(s: State, es: seq<Event>): State
    decreases |es|
  {
    if es == [] then s else After(Next(s, es[0]), es[1..])
  }

  // --- invariant ------------------------------------------------------------------------------------------

  // Task h arrived before task i under the same key.
  predicate Ahead(tasks: seq<Task>, h: TaskId, i: TaskId)
  {
    h < i < |tasks| && tasks[h].key == tasks[i].key
  }

  ghost predicate FirstInLine(tasks: seq<Task>, i: TaskId)
  {
    forall h: TaskId :: Ahead(tasks, h, i) ==> tasks[h].phase == Ended
  }

  ghost predicate TaskOk(tasks: seq<Task>, i: TaskId)
    requires i < |tasks|
  {
    && (tasks[i].phase != Waiting ==> FirstInLine(tasks, i))
    && (match tasks[i].previous
        case None => FirstInLine(tasks, i)
        case Some(j) => Ahead(tasks, j, i) && forall h: TaskId :: Ahead(tasks, h, i) ==> h <= j)
  }

  // The tail under a key is the last arrival's, which has not ended; with no tail, all of them have.
  ghost predicate TailOk(s: State, key: Key)
  {
    if key in s.tails then
      && s.tails[key] < |s.tasks| && s.tasks[s.tails[key]].key == key && s.tasks[s.tails[key]].phase != Ended
      && (forall h :: 0 <= h < |s.tasks| && s.tasks[h].key == key ==> h <= s.tails[key])
    else
      forall h :: 0 <= h < |s.tasks| && s.tasks[h].key == key ==> s.tasks[h].phase == Ended
  }

  ghost predicate Inv(s: State)
  {
    (forall i :: 0 <= i < |s.tasks| ==> TaskOk(s.tasks, i)) && (forall key :: TailOk(s, key))
  }

  /** A tail resolves exactly when its task and every one ahead of it have ended. */
  lemma {:induction false} ResolvedIff(s: State, i: TaskId)
    requires Inv(s) && i < |s.tasks|
    ensures Resolved(s.tasks, i) <==> s.tasks[i].phase == Ended && FirstInLine(s.tasks, i)
  {
    assert TaskOk(s.tasks, i);
    if s.tasks[i].previous.Some? {
      var j := s.tasks[i].previous.value;
      ResolvedIff(s, j);
      assert forall h: TaskId :: Ahead(s.tasks, h, i) ==> h == j || Ahead(s.tasks, h, j);
      assert forall h: TaskId :: Ahead(s.tasks, h, j) ==> Ahead(s.tasks, h, i);
    }
  }

  /** A waiting task may start exactly when all earlier tasks of its own key have ended: other keys have no say. */
  lemma StartsIff(s: State, i: TaskId)
    requires Inv(s) && i < |s.tasks| && s.tasks[i].phase == Waiting
    ensures Enabled(s, Starts(i)) <==> FirstInLine(s.tasks, i)
  {
    assert TaskOk(s.tasks, i);
    if s.tasks[i].previous.Some? {
      var j := s.tasks[i].previous.value;
      ResolvedIff(s, j);
      assert forall h: TaskId :: Ahead(s.tasks, h, i) ==> h == j || Ahead(s.tasks, h, j);
      assert forall h: TaskId :: Ahead(s.tasks, h, j) ==> Ahead(s.tasks, h, i);
    }
  }

  // A task ahead of another stays ahead of it.
  lemma LineStays(s: State, e: Event, i: TaskId)
    requires Enabled(s, e) && i < |s.tasks|
    ensures forall h: TaskId :: Ahead(Next(s, e).tasks, h, i) <==> Ahead(s.tasks, h, i)
    ensures FirstInLine(s.tasks, i) ==> FirstInLine(Next(s, e).tasks, i)
  {
    forall h: TaskId | Ahead(Next(s, e).tasks, h, i) && FirstInLine(s.tasks, i) ensures Next(s, e).tasks[h].phase == Ended {
      assert Ahead(s.tasks, h, i);
    }
  }

  lemma ArrivesKeepsInv(s: State, key: Key)
    requires Inv(s)
    ensures Inv(Next(s, Arrives(key)))
  {
    var s' := Next(s, Arrives(key));
    assert TailOk(s, key);
    forall i | 0 <= i < |s'.tasks| ensures TaskOk(s'.tasks, i) {
      if i < |s.tasks| {
        assert TaskOk(s.tasks, i);
        LineStays(s, Arrives(key), i);
      } else if key !in s.tails {
        assert forall h: TaskId :: Ahead(s'.tasks, h, i) ==> s.tasks[h].key == key;
      }
    }
    forall k ensures TailOk(s', k) { assert TailOk(s, k); }
  }

  lemma MovesKeepsInv(s: State, e: Event)
    requires Inv(s) && Enabled(s, e) && !e.Arrives?
    ensures Inv(Next(s, e))
  {
    var s' := Next(s, e);
    assert TaskOk(s.tasks, e.i);
    if e.Starts? { StartsIff(s, e.i); }
    forall i | 0 <= i < |s'.tasks| ensures TaskOk(s'.tasks, i) {
      assert TaskOk(s.tasks, i);
      LineStays(s, e, i);
    }
    forall k ensures TailOk(s', k) {
      assert TailOk(s, k);
      if e.Ends? && k in s.tails && s.tails[k] == e.i {
        assert forall h :: 0 <= h < |s.tasks| && s.tasks[h].key == k && h != e.i ==> Ahead(s.tasks, h, e.i);
      }
    }
  }

  lemma {:induction false} RunKeepsInv(s: State, es: seq<Event>)
    requires Inv(s) && ValidRun(s, es)
    ensures Inv(After(s, es))
    decreases |es|
  {
    if es != [] {
      if es[0].Arrives? { ArrivesKeepsInv(s, es[0].key); } else { MovesKeepsInv(s, es[0]); }
      RunKeepsInv(Next(s, es[0]), es[1..]);
    }
  }

  // --- what it means ----------------------------------------------------------------------------------------

  /** In every schedule, a task runs only after every earlier task of its key has ended. */
  lemma FirstComeFirstServed(es: seq<Event>, h: TaskId, i: TaskId)
    requires ValidRun(Empty(), es) && Ahead(After(Empty(), es).tasks, h, i)
    requires After(Empty(), es).tasks[i].phase != Waiting
    ensures After(Empty(), es).tasks[h].phase == Ended
  {
    RunKeepsInv(Empty(), es);
    assert TaskOk(After(Empty(), es).tasks, i);
  }

  /** Two tasks of one key never run at the same time. */
  lemma MutualExclusion(es: seq<Event>, h: TaskId, i: TaskId)
    requires ValidRun(Empty(), es)
    requires var tasks := After(Empty(), es).tasks;
             h < |tasks| && i < |tasks| && tasks[h].key == tasks[i].key && tasks[h].phase == Running && tasks[i].phase == Running
    ensures h == i
  {
    if h < i { FirstComeFirstServed(es, h, i); }
    if i < h { FirstComeFirstServed(es, i, h); }
  }

  /** Whatever other keys do, a task may start as soon as its own key's earlier tasks have ended, and not before. */
  lemma OnlyItsOwnKeyBlocks(es: seq<Event>, i: TaskId)
    requires ValidRun(Empty(), es)
    requires i < |After(Empty(), es).tasks| && After(Empty(), es).tasks[i].phase == Waiting
    ensures Enabled(After(Empty(), es), Starts(i)) <==> FirstInLine(After(Empty(), es).tasks, i)
  {
    RunKeepsInv(Empty(), es);
    StartsIff(After(Empty(), es), i);
  }

  /** The map holds a key exactly while some task of that key holds the lock or waits for it. */
  lemma HoldsExactlyTheBusyKeys(es: seq<Event>, key: Key)
    requires ValidRun(Empty(), es)
    ensures var s := After(Empty(), es);
            key in s.tails <==> exists i :: 0 <= i < |s.tasks| && s.tasks[i].key == key && s.tasks[i].phase != Ended
  {
    RunKeepsInv(Empty(), es);
    assert TailOk(After(Empty(), es), key);
  }

  /** A busy key is never stuck: some task of it is running or can start. */
  lemma NeverStuck(es: seq<Event>, key: Key)
    requires ValidRun(Empty(), es) && key in After(Empty(), es).tails
    ensures var s := After(Empty(), es);
            exists i :: 0 <= i < |s.tasks| && s.tasks[i].key == key && (Enabled(s, Starts(i)) || Enabled(s, Ends(i)))
  {
    RunKeepsInv(Empty(), es);
    var s := After(Empty(), es);
    assert TailOk(s, key);
    var i := Foremost(s.tasks, s.tails[key]);
    if s.tasks[i].phase == Waiting { StartsIff(s, i); }
    assert Enabled(s, Starts(i)) || Enabled(s, Ends(i));
  }

  // The earliest unfinished task in front of i, or i itself.
  ghost function Foremost(tasks: seq<Task>, i: TaskId): (f: TaskId)
    requires i < |tasks| && tasks[i].phase != Ended
    ensures f < |tasks| && tasks[f].key == tasks[i].key && tasks[f].phase != Ended && FirstInLine(tasks, f)
  {
    if FirstInLine(tasks, i) then i
    else
      var h: TaskId :| Ahead(tasks, h, i) && tasks[h].phase != Ended;
      Foremost(tasks, h)
  }

  // --- the object -------------------------------------------------------------------------------------------

  /** `run`, cut where it waits: `Arrive` up to `await previous`, `Begin` after it, `Finish` for the `finally`. */
  class Mutex {
    var tails: map<Key, TaskId>
    var tasks: seq<Task>

    ghost function View(): State reads this { State(tasks, tails) }

    constructor ()
      ensures View() == Empty() && Inv(View())
    {
      tails, tasks := map[], [];
    }

    method Arrive(key: Key) returns (i: TaskId)
      requires Inv(View())
      modifies this
      ensures View() == Next(old(View()), Arrives(key)) && i == |old(tasks)| && Inv(View())
    {
      ArrivesKeepsInv(View(), key);
      var previous := if key in tails then Some(tails[key]) else None;
      i := |tasks|;
      tasks := tasks + [Task(key, previous, Waiting)];
      tails := tails[key := i];
    }

    method Begin(i: TaskId) returns (started: bool)
      requires Inv(View()) && i < |tasks| && tasks[i].phase == Waiting
      modifies this`tasks
      ensures started <==> FirstInLine(old(tasks), i)
      ensures started <==> Enabled(old(View()), Starts(i))
      ensures started ==> View() == Next(old(View()), Starts(i))
      ensures !started ==> tasks == old(tasks)
      ensures Inv(View())
    {
      StartsIff(View(), i);
      started := tasks[i].previous.None? || Resolved(tasks, tasks[i].previous.value);
      if started {
        MovesKeepsInv(View(), Starts(i));
        tasks := tasks[i := tasks[i].(phase := Running)];
      }
    }

    method Finish(i: TaskId)
      requires Inv(View()) && i < |tasks| && tasks[i].phase == Running
      modifies this
      ensures View() == Next(old(View()), Ends(i)) && Inv(View())
      ensures tasks[i].key in tails <==> exists j :: 0 <= j < |tasks| && tasks[j].key == tasks[i].key && tasks[j].phase != Ended
    {
      MovesKeepsInv(View(), Ends(i));
      var key := tasks[i].key;
      tasks := tasks[i := tasks[i].(phase := Ended)];
      if key in tails && tails[key] == i { tails := tails - {key}; }
      assert TailOk(View(), key);
    }
  }
}
