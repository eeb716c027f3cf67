/** Canonical text identifies a value up to the order of its members, and the four serializers write the same text. */
module CanonicalAgreement {
  import opened Common
  import opened JsonText
  import opened CanonicalJson

  // --- the members of an object, before and after sorting -------------------------------------------------

  // Member j contributes this field.
  ghost predicate Gives(r: Rules, v: Json, j: nat, f: Field)
    requires v.Obj? && Accepts(r, v)
  {
    j < |v.members| && !v.members[j].value.Undefined? && f == Field(v.members[j].key, Form(r, v.members[j].value))
  }

  // Entry e comes from member j.
  ghost predicate Comes(r: Rules, v: Json, j: nat, e: Entry)
    requires v.Obj? && Accepts(r, v)
  {
    Gives(r, v, j, e.field) && e.rank == RankOf(r, v.members[j])
  }

  lemma {:induction false} EntriesAreMembers(r: Rules, v: Json, i: nat, e: Entry)
    requires v.Obj? && Accepts(r, v) && i <= |v.members|
    ensures e in Entries(r, v, i) <==>
            exists j: nat :: i <= j && Comes(r, v, j, e)
    decreases |v.members| - i
  {
    if i < |v.members| {
      EntriesAreMembers(r, v, i + 1, e);
      if Comes(r, v, i, e) { assert e in Entries(r, v, i); }
    }
  }

  lemma {:induction false} IndicesAndOthers(fs: seq<Field>)
    ensures multiset(Indices(fs)) + multiset(Others(fs)) == multiset(fs)
  {
    if fs != [] {
      assert fs == [fs[0]] + fs[1..];
      IndicesAndOthers(fs[1..]);
    }
  }

  lemma ListedKeepsFields(r: Rules, fs: seq<Field>, f: Field)
    ensures f in Listed(r, fs) <==> f in fs
  {
    IndicesAndOthers(fs);
    assert f in Indices(fs) + Others(fs) <==> f in multiset(Indices(fs)) + multiset(Others(fs));
    assert f in fs <==> f in multiset(fs);
  }

  // The sorted fields of an object, and what they hold.
  ghost function Members(r: Rules, v: Json): seq<Field>
    requires v.Obj? && Accepts(r, v)
  {
    Fields(Sorted(Entries(r, v, 0)))
  }

  lemma MembersAre(r: Rules, v: Json, f: Field)
    requires v.Obj? && Accepts(r, v)
    ensures f in Members(r, v) <==> exists j: nat :: Gives(r, v, j, f)
    ensures f in Form(r, v).fields <==> f in Members(r, v)
  {
    var es := Sorted(Entries(r, v, 0));
    ListedKeepsFields(r, Fields(es), f);
    if f in Fields(es) {
      var i :| 0 <= i < |es| && es[i].field == f;
      assert es[i] in multiset(es);
      EntriesAreMembers(r, v, 0, es[i]);
    }
    if j: nat :| Gives(r, v, j, f) {
      var e := Entry(f, RankOf(r, v.members[j]));
      assert Comes(r, v, j, e);
      EntriesAreMembers(r, v, 0, e);
      assert e in multiset(es);
      var i :| 0 <= i < |es| && es[i] == e;
      assert Fields(es)[i] == f;
    }
  }

  // --- forms forget nothing but order ---------------------------------------------------------------------

  /** What a printed value means. */
  function Unordered(t: Tree): Meaning
    decreases t, 1, 0
  {
    match t
    case TNull => MNull
    case TBool(b) => MBool(b)
    case TString(s) => MString(s)
    case TNumber(text) => MNumber(text)
    case TArray(items) => MArray(seq(|items|, i requires 0 <= i < |items| => Unordered(items[i])))
    case TObject(fields) => MObject(UnorderedFields(t, 0))
  }

  function UnorderedFields(t: Tree, i: nat): map<Text, Meaning>
    requires t.TObject? && i <= |t.fields|
    decreases t, 0, |t.fields| - i
  {
    if i == |t.fields| then map[] else UnorderedFields(t, i + 1)[t.fields[i].key := Unordered(t.fields[i].value)]
  }

  predicate Functional(fs: seq<Field>)
  {
    forall i, j :: 0 <= i < |fs| && 0 <= j < |fs| && fs[i].key == fs[j].key ==> fs[i] == fs[j]
  }

  predicate Maps(m: map<Text, Meaning>, f: Field) { f.key in m && m[f.key] == Unordered(f.value) }

  lemma {:induction false} UnorderedLookup(t: Tree, i: nat)
    requires t.TObject? && Functional(t.fields) && i <= |t.fields|
    ensures forall j :: i <= j < |t.fields| ==> Maps(UnorderedFields(t, i), t.fields[j])
    ensures forall k :: k in UnorderedFields(t, i) ==> exists j :: i <= j < |t.fields| && t.fields[j].key == k
    decreases |t.fields| - i
  {
    if i < |t.fields| { UnorderedLookup(t, i + 1); }
  }

  // Member j of an object has meaning m under its key.
  predicate Means(v: Json, j: nat, ms: map<Text, Meaning>)
    requires v.Obj? && j < |v.members|
  {
    !v.members[j].value.Undefined? ==> v.members[j].key in ms && ms[v.members[j].key] == MeaningOf(v.members[j].value)
  }

  lemma {:induction false} MeaningLookup(v: Json, i: nat)
    requires v.Obj? && Valid(v) && i <= |v.members|
    ensures forall j :: i <= j < |v.members| ==> Means(v, j, MeaningOfMembers(v, i))
    ensures forall k :: k in MeaningOfMembers(v, i) ==>
              exists j :: i <= j < |v.members| && v.members[j].key == k && !v.members[j].value.Undefined?
    decreases |v.members| - i
  {
    if i < |v.members| {
      MeaningLookup(v, i + 1);
      var ms := MeaningOfMembers(v, i);
      forall j | i <= j < |v.members| ensures Means(v, j, ms) {
        if j > i { assert Means(v, j, MeaningOfMembers(v, i + 1)) && v.members[j].key != v.members[i].key; }
      }
    }
  }

  lemma OneFieldPerKey(r: Rules, v: Json, f: Field, g: Field)
    requires v.Obj? && Valid(v) && Accepts(r, v) && f in Members(r, v) && g in Members(r, v) && f.key == g.key
    ensures f == g
  {
    MembersAre(r, v, f);
    MembersAre(r, v, g);
    var i: nat :| Gives(r, v, i, f);
    var j: nat :| Gives(r, v, j, g);
    assert i == j;
  }

  lemma MembersAreFunctional(r: Rules, v: Json)
    requires v.Obj? && Valid(v) && Accepts(r, v)
    ensures Functional(Members(r, v)) && Functional(Form(r, v).fields)
  {
    forall f, g | f in Members(r, v) && g in Members(r, v) && f.key == g.key ensures f == g { OneFieldPerKey(r, v, f, g); }
    forall f | f in Form(r, v).fields ensures f in Members(r, v) { MembersAre(r, v, f); }
  }

  /** A form means what its value means. */
  lemma {:induction false} FormKeepsMeaning(r: Rules, v: Json)
    requires Accepts(r, v) && Valid(v)
    ensures Unordered(Form(r, v)) == MeaningOf(v)
    decreases v, 2
  {
    match v
    case Arr(items) =>
      var t := Form(r, v);
      forall i | 0 <= i < |items| ensures Unordered(t.items[i]) == MeaningOf(items[i]) {
        assert AcceptsItem(r, v, i) && t.items[i] == ItemForm(r, v, i);
        if !items[i].Undefined? { FormKeepsMeaning(r, items[i]); }
      }
    case Obj(members) => ObjectKeepsMeaning(r, v);
    case _ =>
  }

  // A printed key means what the object maps it to.
  lemma {:induction false} PrintedIsMeant(r: Rules, v: Json, k: Text)
    requires Accepts(r, v) && Valid(v) && v.Obj? && k in UnorderedFields(Form(r, v), 0)
    ensures k in MeaningOfMembers(v, 0) && MeaningOfMembers(v, 0)[k] == UnorderedFields(Form(r, v), 0)[k]
    decreases v, 0
  {
    var t := Form(r, v);
    MembersAreFunctional(r, v);
    UnorderedLookup(t, 0);
    var i :| 0 <= i < |t.fields| && t.fields[i].key == k;
    assert Maps(UnorderedFields(t, 0), t.fields[i]);
    var j := MemberOf(r, v, t.fields[i]);
    FormKeepsMeaning(r, v.members[j].value);
    MeaningLookup(v, 0);
    assert Means(v, j, MeaningOfMembers(v, 0));
  }

  // A key the object maps is printed.
  lemma MeantIsPrinted(r: Rules, v: Json, k: Text)
    requires Accepts(r, v) && Valid(v) && v.Obj? && k in MeaningOfMembers(v, 0)
    ensures k in UnorderedFields(Form(r, v), 0)
  {
    MeaningLookup(v, 0);
    var j :| 0 <= j < |v.members| && v.members[j].key == k && !v.members[j].value.Undefined?;
    var i := FieldOf(r, v, j);
    MembersAreFunctional(r, v);
    UnorderedLookup(Form(r, v), 0);
    assert Maps(UnorderedFields(Form(r, v), 0), Form(r, v).fields[i]);
  }

  lemma {:induction false} ObjectKeepsMeaning(r: Rules, v: Json)
    requires Accepts(r, v) && Valid(v) && v.Obj?
    ensures Unordered(Form(r, v)) == MeaningOf(v)
    decreases v, 1
  {
    var a, b := UnorderedFields(Form(r, v), 0), MeaningOfMembers(v, 0);
    forall k | k in a ensures k in b && b[k] == a[k] { PrintedIsMeant(r, v, k); }
    forall k | k in b ensures k in a { MeantIsPrinted(r, v, k); }
    assert a == b;
  }

  // The member a printed field comes from, and the field a member is printed as.

  ghost function MemberOf(r: Rules, v: Json, f: Field): (j: nat)
    requires v.Obj? && Accepts(r, v) && f in Form(r, v).fields
    ensures Gives(r, v, j, f)
  {
    MembersAre(r, v, f);
    var j: nat :| Gives(r, v, j, f);
    j
  }

  ghost function FieldOf(r: Rules, v: Json, j: nat): (i: nat)
    requires v.Obj? && Accepts(r, v) && j < |v.members| && !v.members[j].value.Undefined?
    ensures i < |Form(r, v).fields| && Gives(r, v, j, Form(r, v).fields[i])
  {
    var f := Field(v.members[j].key, Form(r, v.members[j].value));
    assert Gives(r, v, j, f);
    MembersAre(r, v, f);
    var i: nat :| i < |Form(r, v).fields| && Form(r, v).fields[i] == f;
    i
  }

  // --- order ---------------------------------------------------------------------------------------------------

  // What a comma-free key is compared by.
  function KeyRank(r: Rules, k: Text): Text { if r.byKey then k else k + [COMMA] }

  // The members' keys are safe to sort by these rules: the text after the comma has no say.
  predicate Sortable(r: Rules, v: Json) { r.byKey || AllKeys(CommaFree, v) }

  predicate RanksAscend(es: seq<Entry>) { forall i, j :: 0 <= i < j < |es| ==> !Less(es[j].rank, es[i].rank) }

  lemma {:induction false} InsertAscends(e: Entry, es: seq<Entry>)
    requires RanksAscend(es)
    ensures RanksAscend(Insert(e, es))
  {
    if es != [] {
      LessIsTotal(es[0].rank, e.rank);
      if Less(es[0].rank, e.rank) {
        var rest := Insert(e, es[1..]);
        InsertAscends(e, es[1..]);
        forall j | 0 <= j < |rest| ensures !Less(rest[j].rank, es[0].rank) {
          assert rest[j] in multiset(rest);
          if rest[j] != e { assert rest[j] in es[1..]; }
        }
      } else {
        forall j | 0 <= j < |es| ensures !Less(es[j].rank, e.rank) {
          if Less(es[j].rank, e.rank) {
            LessIsTotal(es[j].rank, es[0].rank);
            if j > 0 && es[j].rank != es[0].rank { LessIsTransitive(es[0].rank, es[j].rank, e.rank); }
          }
        }
      }
    }
  }

  lemma {:induction false} SortedAscends(es: seq<Entry>)
    ensures RanksAscend(Sorted(es))
  {
    if es != [] {
      SortedAscends(es[1..]);
      InsertAscends(es[0], Sorted(es[1..]));
    }
  }

  predicate Ascends(r: Rules, fs: seq<Field>)
  {
    forall i, j :: 0 <= i < j < |fs| ==> Less(KeyRank(r, fs[i].key), KeyRank(r, fs[j].key))
  }

  // Sorting by rank is sorting by key rank, because the keys are comma-free or the ranks are the keys.
  lemma RankIsKeyRank(r: Rules, a: Member, b: Member)
    requires r.byKey || (CommaFree(a.key) && CommaFree(b.key))
    requires a.key != b.key
    ensures Less(RankOf(r, a), RankOf(r, b)) <==> Less(KeyRank(r, a.key), KeyRank(r, b.key))
    ensures Less(KeyRank(r, a.key), KeyRank(r, b.key)) || Less(KeyRank(r, b.key), KeyRank(r, a.key))
  {
    LessIsTotal(KeyRank(r, a.key), KeyRank(r, b.key));
    if !r.byKey {
      JoinedOrder(a.key, Plain(a.value), b.key, Plain(b.value));
      assert (a.key + [COMMA])[..|a.key|] == a.key && (b.key + [COMMA])[..|b.key|] == b.key;
    }
  }

  // No member is listed twice.
  lemma {:induction false} EntriesAreDistinct(r: Rules, v: Json, i: nat)
    requires v.Obj? && Accepts(r, v) && Valid(v) && i <= |v.members|
    ensures forall e :: multiset(Entries(r, v, i))[e] <= 1
    decreases |v.members| - i
  {
    if i < |v.members| {
      EntriesAreDistinct(r, v, i + 1);
      var rest := Entries(r, v, i + 1);
      if !v.members[i].value.Undefined? {
        var e := Entries(r, v, i)[0];
        assert Entries(r, v, i) == [e] + rest;
        EntriesAreMembers(r, v, i + 1, e);
        assert e !in rest;
        assert e !in multiset(rest);
      }
    }
  }

  lemma NeighboursAscend(r: Rules, v: Json, d: Entry, e: Entry, a: nat, b: nat)
    requires v.Obj? && Accepts(r, v) && Valid(v) && Sortable(r, v) && !Less(e.rank, d.rank)
    requires Comes(r, v, a, d) && Comes(r, v, b, e) && a != b
    ensures Less(KeyRank(r, d.field.key), KeyRank(r, e.field.key))
  {
    assert v.members[a].key != v.members[b].key;
    RankIsKeyRank(r, v.members[a], v.members[b]);
    RankIsKeyRank(r, v.members[b], v.members[a]);
  }

  // The member an entry was made from.
  ghost function SourceOf(r: Rules, v: Json, e: Entry): (j: nat)
    requires v.Obj? && Accepts(r, v) && e in Entries(r, v, 0)
    ensures j < |v.members| && Comes(r, v, j, e)
  {
    EntriesAreMembers(r, v, 0, e);
    var j: nat :| Comes(r, v, j, e);
    j
  }

  lemma SourcesDiffer(r: Rules, v: Json, es: seq<Entry>, i: nat, j: nat)
    requires v.Obj? && Accepts(r, v) && Valid(v) && multiset(es) == multiset(Entries(r, v, 0)) && i < j < |es|
    ensures es[i] in Entries(r, v, 0) && es[j] in Entries(r, v, 0) && SourceOf(r, v, es[i]) != SourceOf(r, v, es[j])
  {
    assert es[i] in multiset(es) && es[j] in multiset(es);
    if es[i] == es[j] {
      TwiceIsTwo(es, i, j);
      EntriesAreDistinct(r, v, 0);
    }
  }

  lemma PairAscends(r: Rules, v: Json, es: seq<Entry>, i: nat, j: nat)
    requires v.Obj? && Accepts(r, v) && Valid(v) && Sortable(r, v) && multiset(es) == multiset(Entries(r, v, 0))
    requires i < j < |es| && !Less(es[j].rank, es[i].rank)
    ensures Less(KeyRank(r, es[i].field.key), KeyRank(r, es[j].field.key))
  {
    SourcesDiffer(r, v, es, i, j);
    NeighboursAscend(r, v, es[i], es[j], SourceOf(r, v, es[i]), SourceOf(r, v, es[j]));
  }

  lemma MembersAscend(r: Rules, v: Json)
    requires v.Obj? && Accepts(r, v) && Valid(v) && Sortable(r, v)
    ensures Ascends(r, Members(r, v))
  {
    var es := Sorted(Entries(r, v, 0));
    SortedAscends(Entries(r, v, 0));
    forall i, j | 0 <= i < j < |es| ensures Less(KeyRank(r, es[i].field.key), KeyRank(r, es[j].field.key)) {
      PairAscends(r, v, es, i, j);
    }
  }

  lemma TwiceIsTwo(es: seq<Entry>, i: nat, j: nat)
    requires i < j < |es| && es[i] == es[j]
    ensures multiset(es)[es[i]] >= 2
  {
    assert es == es[..j] + es[j..] && es[i] in es[..j] && es[j] in es[j..];
    assert multiset(es) == multiset(es[..j]) + multiset(es[j..]);
  }

  /** A set of members has one ascending listing. */
  lemma {:induction false} AscendingIsUnique(r: Rules, fs: seq<Field>, gs: seq<Field>)
    requires Ascends(r, fs) && Ascends(r, gs) && forall f :: f in fs <==> f in gs
    ensures fs == gs
    decreases |fs|
  {
    if gs != [] { assert gs[0] in fs; }
    if fs != [] {
      assert fs[0] in gs && gs[0] in fs;
      LessIsTotal(KeyRank(r, fs[0].key), KeyRank(r, gs[0].key));
      assert fs[0] == gs[0];
      forall f ensures f in fs[1..] <==> f in gs[1..] {
        LessIsTotal(KeyRank(r, f.key), KeyRank(r, f.key));
        assert f in fs <==> f == fs[0] || f in fs[1..];
        assert f in gs <==> f == gs[0] || f in gs[1..];
      }
      AscendingIsUnique(r, fs[1..], gs[1..]);
    }
  }

  // --- text and meaning -----------------------------------------------------------------------------------------

  // Equal meanings match an object's defined members one to one.
  lemma MeaningsMatch(v: Json, w: Json, i: nat)
    requires v.Obj? && w.Obj? && Valid(v) && Valid(w) && MeaningOf(v) == MeaningOf(w)
    requires i < |v.members| && !v.members[i].value.Undefined?
    ensures exists j: nat :: j < |w.members| && !w.members[j].value.Undefined? && w.members[j].key == v.members[i].key
                             && MeaningOf(w.members[j].value) == MeaningOf(v.members[i].value)
  {
    MeaningLookup(v, 0);
    MeaningLookup(w, 0);
    var ms := MeaningOfMembers(v, 0);
    assert ms == MeaningOfMembers(w, 0);
    assert Means(v, i, ms);
    var k := v.members[i].key;
    var j :| 0 <= j < |w.members| && w.members[j].key == k && !w.members[j].value.Undefined?;
    assert Means(w, j, ms);
  }

  /** Values that mean the same are given the same form. */
  lemma {:induction false} MeaningDeterminesForm(r: Rules, v: Json, w: Json)
    requires Accepts(r, v) && Accepts(r, w) && Valid(v) && Valid(w) && Sortable(r, v) && Sortable(r, w)
    requires MeaningOf(v) == MeaningOf(w)
    ensures Form(r, v) == Form(r, w)
    decreases v, 1
  {
    match v
    case Arr(items) =>
      assert |items| == |w.items|;
      forall i | 0 <= i < |items| ensures ItemForm(r, v, i) == ItemForm(r, w, i) {
        assert AcceptsItem(r, v, i) && AcceptsItem(r, w, i) && MeaningOf(items[i]) == MeaningOf(v).items[i];
        assert MeaningOf(w.items[i]) == MeaningOf(w).items[i];
        ItemMeansForm(r, v, w, i);
      }
    case Obj(members) =>
      forall f ensures f in Members(r, v) <==> f in Members(r, w) {
        MembersAre(r, v, f);
        MembersAre(r, w, f);
        if i: nat :| Gives(r, v, i, f) {
          MeaningsMatch(v, w, i);
          var j: nat :| j < |w.members| && !w.members[j].value.Undefined? && w.members[j].key == members[i].key
                        && MeaningOf(w.members[j].value) == MeaningOf(members[i].value);
          MeaningDeterminesForm(r, members[i].value, w.members[j].value);
          assert Gives(r, w, j, f);
        }
        if j: nat :| Gives(r, w, j, f) {
          MeaningsMatch(w, v, j);
          var i: nat :| i < |v.members| && !v.members[i].value.Undefined? && v.members[i].key == w.members[j].key
                        && MeaningOf(v.members[i].value) == MeaningOf(w.members[j].value);
          MeaningDeterminesForm(r, members[i].value, w.members[j].value);
          assert Gives(r, v, i, f);
        }
      }
      MembersAscend(r, v);
      MembersAscend(r, w);
      AscendingIsUnique(r, Members(r, v), Members(r, w));
    case _ =>
  }

  lemma {:induction false} ItemMeansForm(r: Rules, v: Json, w: Json, i: nat)
    requires v.Arr? && w.Arr? && Accepts(r, v) && Accepts(r, w) && Valid(v) && Valid(w) && Sortable(r, v) && Sortable(r, w)
    requires i < |v.items| && i < |w.items| && MeaningOf(v.items[i]) == MeaningOf(w.items[i])
    ensures ItemForm(r, v, i) == ItemForm(r, w, i)
    decreases v, 0
  {
    assert AcceptsItem(r, v, i) && AcceptsItem(r, w, i);
    if !v.items[i].Undefined? && !w.items[i].Undefined? { MeaningDeterminesForm(r, v.items[i], w.items[i]); }
    else if !v.items[i].Undefined? { FormKeepsMeaning(r, v.items[i]); }
    else if !w.items[i].Undefined? { FormKeepsMeaning(r, w.items[i]); }
  }

  lemma {:induction false} FormsAreWellFormed(r: Rules, v: Json)
    requires Accepts(r, v) && Valid(v)
    ensures WellFormed(Form(r, v))
    decreases v
  {
    var t := Form(r, v);
    match v
    case Arr(items) =>
      forall i | 0 <= i < |items| ensures WellFormed(t.items[i]) {
        assert AcceptsItem(r, v, i) && t.items[i] == ItemForm(r, v, i);
        if !items[i].Undefined? { FormsAreWellFormed(r, items[i]); }
      }
    case Obj(members) =>
      forall i | 0 <= i < |t.fields| ensures WellFormed(t.fields[i].value) {
        MembersAre(r, v, t.fields[i]);
        var j: nat :| Gives(r, v, j, t.fields[i]);
        FormsAreWellFormed(r, members[j].value);
      }
    case _ =>
  }

  /**
   Two accepted values have the same canonical text exactly when they mean the same: insertion
   order and undefined members do not matter, a bigint reads as its decimal string, and nothing
   else is confused.
   */
  lemma SameTextIffSameMeaning(r: Rules, v: Json, w: Json)
    requires Accepts(r, v) && Accepts(r, w) && Valid(v) && Valid(w) && Sortable(r, v) && Sortable(r, w)
    ensures Serialize(r, v) == Serialize(r, w) <==> MeaningOf(v) == MeaningOf(w)
  {
    if Serialize(r, v) == Serialize(r, w) {
      FormsAreWellFormed(r, v);
      FormsAreWellFormed(r, w);
      PrintIsInjective(Form(r, v), Form(r, w));
      FormKeepsMeaning(r, v);
      FormKeepsMeaning(r, w);
    } else if MeaningOf(v) == MeaningOf(w) {
      MeaningDeterminesForm(r, v, w);
    }
  }

  // --- the four serializers ------------------------------------------------------------------------------------

  /** A serializer that refuses more accepts less. */
  lemma {:induction false} StricterAcceptsLess(r: Rules, q: Rules, v: Json)
    requires Accepts(r, v)
    requires (q.strictNumbers ==> r.strictNumbers) && (q.finiteOnly ==> r.finiteOnly) && (q.strictArrays ==> r.strictArrays)
    requires r.bigints ==> q.bigints
    ensures Accepts(q, v)
    decreases v
  {
    match v
    case Arr(items) =>
      forall i | 0 <= i < |items| ensures AcceptsItem(q, v, i) {
        assert AcceptsItem(r, v, i);
        if !items[i].Undefined? { StricterAcceptsLess(r, q, items[i]); }
      }
    case Obj(members) =>
      forall i | 0 <= i < |members| ensures members[i].value.Undefined? || Accepts(q, members[i].value) {
        if !members[i].value.Undefined? { StricterAcceptsLess(r, q, members[i].value); }
      }
    case _ =>
  }

  // Keys that are neither array indices nor hold a comma.
  predicate OrdinaryKey(k: Text) { CommaFree(k) && !IsIndex(k) }

  predicate Ordinary(v: Json) { Valid(v) && AllKeys(OrdinaryKey, v) }

  lemma {:induction false} OrdinaryIsSortable(r: Rules, v: Json)
    requires AllKeys(OrdinaryKey, v)
    ensures AllKeys(CommaFree, v) && Sortable(r, v)
    decreases v
  {
    match v
    case Arr(items) => forall i | 0 <= i < |items| ensures AllKeys(CommaFree, items[i]) { OrdinaryIsSortable(r, items[i]); }
    case Obj(members) =>
      forall i | 0 <= i < |members| ensures CommaFree(members[i].key) && AllKeys(CommaFree, members[i].value) {
        OrdinaryIsSortable(r, members[i].value);
      }
    case _ =>
  }

  // Without index keys, rebuilding an object keeps the sorted order.
  lemma {:induction false} OrdinaryFieldsStay(r: Rules, fs: seq<Field>)
    requires forall i :: 0 <= i < |fs| ==> !IsIndex(fs[i].key)
    ensures Listed(r, fs) == fs && Indices(fs) == []
  {
    if fs != [] { OrdinaryFieldsStay(r, fs[1..]); }
  }

  lemma OrdinaryForm(r: Rules, v: Json)
    requires v.Obj? && Accepts(r, v) && Ordinary(v)
    ensures Form(r, v).fields == Members(r, v) && Ascends(r, Members(r, v))
  {
    var fs := Members(r, v);
    forall i | 0 <= i < |fs| ensures !IsIndex(fs[i].key) {
      MembersAre(r, v, fs[i]);
      var j: nat :| Gives(r, v, j, fs[i]);
      assert OrdinaryKey(v.members[j].key);
    }
    OrdinaryFieldsStay(r, fs);
    OrdinaryIsSortable(r, v);
    MembersAscend(r, v);
  }

  // No two keys of this object are ordered differently by the two sorts.
  predicate NoLowPair(v: Json)
    requires v.Obj?
  {
    forall i, j :: 0 <= i < |v.members| && 0 <= j < |v.members| && !v.members[i].value.Undefined? && !v.members[j].value.Undefined? ==>
      !ContinuesLow(v.members[i].key, v.members[j].key)
  }

  lemma OrdersAgree(r: Rules, q: Rules, v: Json)
    requires v.Obj? && Accepts(r, v) && Accepts(q, v) && Ordinary(v) && (r.byKey == q.byKey || NoLowPair(v))
    requires forall f :: f in Members(r, v) <==> f in Members(q, v)
    ensures Members(r, v) == Members(q, v)
  {
    OrdinaryForm(r, v);
    OrdinaryForm(q, v);
    var fs := Members(r, v);
    forall i, j | 0 <= i < j < |fs| ensures Less(KeyRank(q, fs[i].key), KeyRank(q, fs[j].key)) {
      MembersAre(r, v, fs[i]);
      MembersAre(r, v, fs[j]);
      var a: nat :| Gives(r, v, a, fs[i]);
      var b: nat :| Gives(r, v, b, fs[j]);
      assert OrdinaryKey(v.members[a].key) && OrdinaryKey(v.members[b].key);
      LessIsTotal(KeyRank(r, fs[i].key), KeyRank(r, fs[j].key));
      CommaChangesOrderIff(fs[i].key, fs[j].key);
    }
    AscendingIsUnique(q, fs, Members(q, v));
  }

  /** Two serializers give an ordinary value the same form when they sort alike, or no key continues another low. */
  lemma {:induction false} FormsAgree(r: Rules, q: Rules, v: Json)
    requires Accepts(r, v) && Accepts(q, v) && Ordinary(v) && (r.byKey == q.byKey || NoLowKeys(v))
    ensures Form(r, v) == Form(q, v)
    decreases v
  {
    match v
    case Arr(items) =>
      forall i | 0 <= i < |items| ensures ItemForm(r, v, i) == ItemForm(q, v, i) {
        assert AcceptsItem(r, v, i) && AcceptsItem(q, v, i);
        if !items[i].Undefined? { FormsAgree(r, q, items[i]); }
      }
    case Obj(members) =>
      forall f ensures f in Members(r, v) <==> f in Members(q, v) {
        MembersAre(r, v, f);
        MembersAre(q, v, f);
        if i: nat :| Gives(r, v, i, f) { FormsAgree(r, q, members[i].value); assert Gives(q, v, i, f); }
        if i: nat :| Gives(q, v, i, f) { FormsAgree(r, q, members[i].value); assert Gives(r, v, i, f); }
      }
      OrdersAgree(r, q, v);
      OrdinaryForm(r, v);
      OrdinaryForm(q, v);
    case _ =>
  }

  lemma EqualOrdersLeaveNoLowPair(r: Rules, q: Rules, v: Json, i: nat, j: nat)
    requires v.Obj? && Accepts(r, v) && Accepts(q, v) && Ordinary(v) && r.byKey != q.byKey && Form(r, v) == Form(q, v)
    requires i < |v.members| && j < |v.members| && !v.members[i].value.Undefined? && !v.members[j].value.Undefined?
    ensures !ContinuesLow(v.members[i].key, v.members[j].key)
  {
    OrdinaryForm(r, v);
    OrdinaryForm(q, v);
    var fs := Form(r, v).fields;
    var a, b := FieldOf(r, v, i), FieldOf(r, v, j);
    var k, l := v.members[i].key, v.members[j].key;
    assert OrdinaryKey(k) && OrdinaryKey(l) && fs[a].key == k && fs[b].key == l;
    if k != l {
      CommaChangesOrderIff(k, l);
      LessIsTotal(k, l);
      LessIsTotal(k + [COMMA], l + [COMMA]);
      assert a < b || b < a;
    }
  }

  /** Equal forms under different sorts mean that no key continues another low, at any depth. */
  lemma {:induction false} AgreementNeedsNoLowKeys(r: Rules, q: Rules, v: Json)
    requires Accepts(r, v) && Accepts(q, v) && Ordinary(v) && r.byKey != q.byKey && Form(r, v) == Form(q, v)
    ensures NoLowKeys(v)
    decreases v
  {
    match v
    case Arr(items) =>
      forall i | 0 <= i < |items| ensures NoLowKeys(items[i]) {
        assert AcceptsItem(r, v, i) && AcceptsItem(q, v, i);
        assert ItemForm(r, v, i) == Form(r, v).items[i] && ItemForm(q, v, i) == Form(q, v).items[i];
        if !items[i].Undefined? { AgreementNeedsNoLowKeys(r, q, items[i]); }
      }
    case Obj(members) =>
      forall i, j | 0 <= i < |members| && 0 <= j < |members| && !members[i].value.Undefined? && !members[j].value.Undefined?
        ensures !ContinuesLow(members[i].key, members[j].key)
      {
        EqualOrdersLeaveNoLowPair(r, q, v, i, j);
      }
      forall i | 0 <= i < |members| ensures NoLowKeys(members[i].value) {
        if !members[i].value.Undefined? {
          MemberFormsAgree(r, q, v, i);
          AgreementNeedsNoLowKeys(r, q, members[i].value);
        }
      }
    case _ =>
  }

  lemma MemberFormsAgree(r: Rules, q: Rules, v: Json, i: nat)
    requires v.Obj? && Accepts(r, v) && Accepts(q, v) && Valid(v) && Form(r, v) == Form(q, v)
    requires i < |v.members| && !v.members[i].value.Undefined?
    ensures Form(r, v.members[i].value) == Form(q, v.members[i].value)
  {
    MembersAreFunctional(r, v);
    var a, b := FieldOf(r, v, i), FieldOf(q, v, i);
    assert Form(r, v).fields[a] == Form(r, v).fields[b];
  }

  /**
   A serializer that sorts "key,value" texts and one that sorts keys write the same text for an
   ordinary value exactly when none of its keys continues another with a unit below the comma.
   */
  lemma TextsAgreeIff(r: Rules, q: Rules, v: Json)
    requires Accepts(r, v) && Accepts(q, v) && Ordinary(v) && r.byKey != q.byKey
    ensures Serialize(r, v) == Serialize(q, v) <==> NoLowKeys(v)
  {
    if NoLowKeys(v) { FormsAgree(r, q, v); }
    if Serialize(r, v) == Serialize(q, v) {
      FormsAreWellFormed(r, v);
      FormsAreWellFormed(q, v);
      PrintIsInjective(Form(r, v), Form(q, v));
      AgreementNeedsNoLowKeys(r, q, v);
    }
  }

  /** All four write the same text for a value all of them accept. */
  lemma FourSerializersAgree(v: Json)
    requires Accepts(CREDIT, v) && Accepts(REPORT, v) && Ordinary(v) && NoLowKeys(v)
    ensures Serialize(CREDIT, v).Some?
    ensures Serialize(CREDIT, v) == Serialize(SIGNER, v) == Serialize(ORCHESTRATOR, v) == Serialize(REPORT, v)
  {
    StricterAcceptsLess(CREDIT, SIGNER, v);
    StricterAcceptsLess(CREDIT, ORCHESTRATOR, v);
    FormsAgree(CREDIT, SIGNER, v);
    FormsAgree(CREDIT, ORCHESTRATOR, v);
    FormsAgree(CREDIT, REPORT, v);
  }

  // Letters, digits and the underscore all sort after the comma.
  predicate WordKey(k: Text)
  {
    forall i :: 0 <= i < |k| ==> 0x30 <= k[i] <= 0x39 || 0x41 <= k[i] <= 0x5A || k[i] == 0x5F || 0x61 <= k[i] <= 0x7A
  }

  /** Keys of letters, digits and underscores never continue one another low. */
  lemma {:induction false} WordKeysAreFine(v: Json)
    requires AllKeys(WordKey, v)
    ensures NoLowKeys(v) && AllKeys(CommaFree, v)
    decreases v
  {
    match v
    case Arr(items) =>
      forall i | 0 <= i < |items| ensures NoLowKeys(items[i]) && AllKeys(CommaFree, items[i]) { WordKeysAreFine(items[i]); }
    case Obj(members) =>
      forall i | 0 <= i < |members|
        ensures NoLowKeys(members[i].value) && AllKeys(CommaFree, members[i].value) && CommaFree(members[i].key)
      {
        WordKeysAreFine(members[i].value);
        assert WordKey(members[i].key);
      }
      forall i, j | 0 <= i < |members| && 0 <= j < |members| ensures !ContinuesLow(members[i].key, members[j].key) {
        assert WordKey(members[j].key);
      }
    case _ =>
  }

  /** The dollar sign is an identifier character below the comma: {k, k$} is written in two ways. */
  lemma DollarKeysDisagree(k: Text, x: Json, y: Json)
    requires var v := Obj([Member(k, x), Member(k + [0x24], y)]);
             Ordinary(v) && Accepts(CREDIT, v) && Accepts(SIGNER, v) && !x.Undefined? && !y.Undefined?
    ensures var v := Obj([Member(k, x), Member(k + [0x24], y)]); Serialize(CREDIT, v) != Serialize(SIGNER, v)
  {
    var v := Obj([Member(k, x), Member(k + [0x24], y)]);
    assert ContinuesLow(v.members[0].key, v.members[1].key);
    TextsAgreeIff(CREDIT, SIGNER, v);
  }

  // --- array-index keys ------------------------------------------------------------------------------------------

  // A key that sorts first but is listed last where JavaScript puts array indices first, by number.
  predicate Displaced(k: Text, l: Text)
  {
    Less(k, l) && IsIndex(l) && (!IsIndex(k) || ValueOf(l) < ValueOf(k))
  }

  // No two keys of this object change places when it is rebuilt.
  predicate NoDisplacedPair(v: Json)
    requires v.Obj?
  {
    forall i, j :: 0 <= i < |v.members| && 0 <= j < |v.members| && !v.members[i].value.Undefined? && !v.members[j].value.Undefined? ==>
      !Displaced(v.members[i].key, v.members[j].key)
  }

  // ... nor those of any object inside it.
  predicate NoDisplacedKeys(v: Json)
  {
    match v
    case Arr(items) => forall i :: 0 <= i < |items| ==> NoDisplacedKeys(items[i])
    case Obj(members) => NoDisplacedPair(v) && forall i :: 0 <= i < |members| ==> NoDisplacedKeys(members[i].value)
    case _ => true
  }

  predicate KeysStay(fs: seq<Field>)
  {
    forall i, j :: 0 <= i < j < |fs| ==> !Displaced(fs[i].key, fs[j].key)
  }

  predicate ValuesAscend(fs: seq<Field>)
  {
    forall i, j :: 0 <= i < j < |fs| ==> ValueOf(fs[i].key) <= ValueOf(fs[j].key)
  }

  lemma InsertedComesFrom(f: Field, fs: seq<Field>, j: nat)
    requires j < |InsertIndex(f, fs)|
    ensures InsertIndex(f, fs)[j] == f || InsertIndex(f, fs)[j] in fs
  {
    assert InsertIndex(f, fs)[j] in multiset(InsertIndex(f, fs));
  }

  lemma {:induction false} InsertIndexAscends(f: Field, fs: seq<Field>)
    requires ValuesAscend(fs)
    ensures ValuesAscend(InsertIndex(f, fs))
  {
    if fs != [] && ValueOf(fs[0].key) < ValueOf(f.key) {
      var rest := InsertIndex(f, fs[1..]);
      InsertIndexAscends(f, fs[1..]);
      forall j | 0 <= j < |rest| ensures ValueOf(fs[0].key) <= ValueOf(rest[j].key) { InsertedComesFrom(f, fs[1..], j); }
      assert InsertIndex(f, fs) == [fs[0]] + rest;
    }
  }

  // Rebuilding lists the indices by number, and after them the other keys.
  lemma {:induction false} ListingShape(fs: seq<Field>)
    ensures ValuesAscend(Indices(fs))
    ensures forall f :: f in Indices(fs) ==> f in fs && IsIndex(f.key)
    ensures forall f :: f in Others(fs) ==> !IsIndex(f.key)
    decreases |fs|
  {
    if fs != [] {
      ListingShape(fs[1..]);
      if IsIndex(fs[0].key) {
        InsertIndexAscends(fs[0], Indices(fs[1..]));
        forall f | f in Indices(fs) ensures f in fs && IsIndex(f.key) {
          assert f in multiset(Indices(fs));
          if f != fs[0] { assert f in Indices(fs[1..]); }
        }
      }
    }
  }

  /** Members in key order are listed as they are exactly when no two of them change places. */
  lemma ListedAsSortedIff(fs: seq<Field>)
    requires Ascends(SIGNER, fs)
    ensures Indices(fs) + Others(fs) == fs <==> KeysStay(fs)
  {
    if KeysStay(fs) { StayingKeysAreListed(fs); }
    if Indices(fs) + Others(fs) == fs {
      ListingShape(fs);
      var n := |Indices(fs)|;
      forall i, j | 0 <= i < j < |fs| ensures !Displaced(fs[i].key, fs[j].key) {
        if j < n { assert fs[i] == Indices(fs)[i] && fs[j] == Indices(fs)[j]; } else { assert fs[j] == Others(fs)[j - n]; }
      }
    }
  }

  // The first of the indices is one of the fields, and does not come before the field it stays behind.
  lemma FirstIndexIsLater(fs: seq<Field>)
    requires fs != [] && KeysStay(fs) && Indices(fs[1..]) != [] && Ascends(SIGNER, fs)
    ensures IsIndex(fs[0].key) && ValueOf(fs[0].key) <= ValueOf(Indices(fs[1..])[0].key)
  {
    ListingShape(fs[1..]);
    var first := Indices(fs[1..])[0];
    assert first in fs[1..];
    var j :| 0 <= j < |fs[1..]| && fs[1..][j] == first;
    assert fs[j + 1] == first && !Displaced(fs[0].key, fs[j + 1].key);
  }

  lemma InsertedFirst(f: Field, fs: seq<Field>)
    requires fs != [] ==> ValueOf(f.key) <= ValueOf(fs[0].key)
    ensures InsertIndex(f, fs) == [f] + fs
  {
  }

  lemma RestStays(fs: seq<Field>)
    requires fs != [] && Ascends(SIGNER, fs) && KeysStay(fs)
    ensures Ascends(SIGNER, fs[1..]) && KeysStay(fs[1..])
  {
    var rest := fs[1..];
    forall i, j | 0 <= i < j < |rest| ensures !Displaced(rest[i].key, rest[j].key) { assert rest[j] == fs[j + 1]; }
  }

  lemma {:induction false} StayingKeysAreListed(fs: seq<Field>)
    requires Ascends(SIGNER, fs) && KeysStay(fs)
    ensures Indices(fs) + Others(fs) == fs
    decreases |fs|
  {
    if fs != [] {
      var f, rest := fs[0], fs[1..];
      RestStays(fs);
      StayingKeysAreListed(rest);
      if Indices(rest) != [] { FirstIndexIsLater(fs); }
      assert fs == [f] + rest;
      if IsIndex(f.key) { InsertedFirst(f, Indices(rest)); }
    }
  }

  lemma MembersSorted(r: Rules, v: Json)
    requires r.byKey && v.Obj? && Accepts(r, v) && Valid(v)
    ensures Ascends(SIGNER, Members(r, v))
  {
    MembersAscend(r, v);
  }

  // Sorted members keep their places exactly when the object's keys do.
  lemma MembersStayIff(r: Rules, v: Json)
    requires r.byKey && v.Obj? && Accepts(r, v) && Valid(v)
    ensures KeysStay(Members(r, v)) <==> NoDisplacedPair(v)
  {
    var fs := Members(r, v);
    MembersSorted(r, v);
    if NoDisplacedPair(v) {
      forall i, j | 0 <= i < j < |fs| ensures !Displaced(fs[i].key, fs[j].key) {
        MembersAre(r, v, fs[i]);
        MembersAre(r, v, fs[j]);
        var a: nat :| Gives(r, v, a, fs[i]);
        var b: nat :| Gives(r, v, b, fs[j]);
        assert !Displaced(v.members[a].key, v.members[b].key);
      }
    }
    if KeysStay(fs) {
      forall i, j | 0 <= i < |v.members| && 0 <= j < |v.members| && !v.members[i].value.Undefined? && !v.members[j].value.Undefined?
        ensures !Displaced(v.members[i].key, v.members[j].key)
      {
        PlacesOf(r, v, i, j);
      }
    }
  }

  lemma PlacesOf(r: Rules, v: Json, i: nat, j: nat)
    requires r.byKey && v.Obj? && Accepts(r, v) && Valid(v) && KeysStay(Members(r, v))
    requires i < |v.members| && j < |v.members| && !v.members[i].value.Undefined? && !v.members[j].value.Undefined?
    ensures !Displaced(v.members[i].key, v.members[j].key)
  {
    var fs := Members(r, v);
    MembersSorted(r, v);
    var f, g := Field(v.members[i].key, Form(r, v.members[i].value)), Field(v.members[j].key, Form(r, v.members[j].value));
    assert Gives(r, v, i, f) && Gives(r, v, j, g);
    MembersAre(r, v, f);
    MembersAre(r, v, g);
    var a :| 0 <= a < |fs| && fs[a] == f;
    var b :| 0 <= b < |fs| && fs[b] == g;
    LessIsTotal(f.key, g.key);
    if b < a { assert Less(g.key, f.key); }
  }

  // One serializer rebuilds objects and the other does not; both sort by key.
  predicate DifferInRebuilding(r: Rules, q: Rules) { r.byKey && q.byKey && r.fromEntries && !q.fromEntries }

  lemma {:induction false} RebuildingIsHarmless(r: Rules, q: Rules, v: Json)
    requires DifferInRebuilding(r, q) && Accepts(r, v) && Accepts(q, v) && Valid(v) && NoDisplacedKeys(v)
    ensures Form(r, v) == Form(q, v)
    decreases v
  {
    match v
    case Arr(items) =>
      forall i | 0 <= i < |items| ensures ItemForm(r, v, i) == ItemForm(q, v, i) {
        assert AcceptsItem(r, v, i) && AcceptsItem(q, v, i);
        if !items[i].Undefined? { RebuildingIsHarmless(r, q, items[i]); }
      }
    case Obj(members) =>
      forall f ensures f in Members(r, v) <==> f in Members(q, v) {
        MembersAre(r, v, f);
        MembersAre(q, v, f);
        if i: nat :| Gives(r, v, i, f) { RebuildingIsHarmless(r, q, members[i].value); assert Gives(q, v, i, f); }
        if i: nat :| Gives(q, v, i, f) { RebuildingIsHarmless(r, q, members[i].value); assert Gives(r, v, i, f); }
      }
      SortedAlike(r, q, v);
      MembersStayIff(r, v);
      ListedAsSortedIff(Members(r, v));
    case _ =>
  }

  lemma SortedAlike(r: Rules, q: Rules, v: Json)
    requires r.byKey && q.byKey && v.Obj? && Accepts(r, v) && Accepts(q, v) && Valid(v)
    requires forall f :: f in Members(r, v) <==> f in Members(q, v)
    ensures Members(r, v) == Members(q, v) && Ascends(SIGNER, Members(r, v))
  {
    MembersSorted(r, v);
    MembersSorted(q, v);
    AscendingIsUnique(SIGNER, Members(r, v), Members(q, v));
  }

  lemma EqualFormsLeaveKeysInPlace(r: Rules, q: Rules, v: Json)
    requires DifferInRebuilding(r, q) && v.Obj? && Accepts(r, v) && Accepts(q, v) && Valid(v) && Form(r, v) == Form(q, v)
    ensures NoDisplacedPair(v)
  {
    forall f ensures f in Members(r, v) <==> f in Members(q, v) {
      MembersAre(r, v, f);
      MembersAre(q, v, f);
    }
    SortedAlike(r, q, v);
    ListedAsSortedIff(Members(r, v));
    MembersStayIff(r, v);
  }

  lemma {:induction false} HarmlessNeedsKeysInPlace(r: Rules, q: Rules, v: Json)
    requires DifferInRebuilding(r, q) && Accepts(r, v) && Accepts(q, v) && Valid(v) && Form(r, v) == Form(q, v)
    ensures NoDisplacedKeys(v)
    decreases v
  {
    match v
    case Arr(items) =>
      forall i | 0 <= i < |items| ensures NoDisplacedKeys(items[i]) {
        assert AcceptsItem(r, v, i) && AcceptsItem(q, v, i);
        assert ItemForm(r, v, i) == Form(r, v).items[i] && ItemForm(q, v, i) == Form(q, v).items[i];
        if !items[i].Undefined? { HarmlessNeedsKeysInPlace(r, q, items[i]); }
      }
    case Obj(members) =>
      EqualFormsLeaveKeysInPlace(r, q, v);
      forall i | 0 <= i < |members| ensures NoDisplacedKeys(members[i].value) {
        if !members[i].value.Undefined? {
          MemberFormsAgree(r, q, v, i);
          HarmlessNeedsKeysInPlace(r, q, members[i].value);
        }
      }
    case _ =>
  }

  /**
   A serializer that rebuilds the sorted object and one that does not write the same text exactly
   when, in every object, no other key sorts before an array index, and the array indices sort the
   same way by number as by text.
   */
  lemma RebuiltTextsAgreeIff(r: Rules, q: Rules, v: Json)
    requires DifferInRebuilding(r, q) && Accepts(r, v) && Accepts(q, v) && Valid(v)
    ensures Serialize(r, v) == Serialize(q, v) <==> NoDisplacedKeys(v)
  {
    if NoDisplacedKeys(v) { RebuildingIsHarmless(r, q, v); }
    if Serialize(r, v) == Serialize(q, v) {
      FormsAreWellFormed(r, v);
      FormsAreWellFormed(q, v);
      PrintIsInjective(Form(r, v), Form(q, v));
      HarmlessNeedsKeysInPlace(r, q, v);
    }
  }

  /** Two array indices that sort otherwise by text, such as 10 and 9, are written in two ways. */
  lemma IndexKeysDisagree(v: Json, i: nat, j: nat)
    requires Valid(v) && Accepts(SIGNER, v) && Accepts(REPORT, v) && v.Obj? && i < |v.members| && j < |v.members|
    requires !v.members[i].value.Undefined? && !v.members[j].value.Undefined?
    requires IsIndex(v.members[i].key) && IsIndex(v.members[j].key) && Less(v.members[i].key, v.members[j].key)
    requires ValueOf(v.members[j].key) < ValueOf(v.members[i].key)
    ensures Serialize(SIGNER, v) != Serialize(REPORT, v)
  {
    RebuiltTextsAgreeIff(SIGNER, REPORT, v);
    assert Displaced(v.members[i].key, v.members[j].key);
  }

  /** A domain, a newline and the text: with newline-free domains, equal bytes have equal parts. */
  lemma DomainsSeparate(a: Text, b: Text, x: Text, y: Text)
    requires 0x0A !in a && 0x0A !in b && a + [0x0A] + x == b + [0x0A] + y
    ensures a == b && x == y
  {
    var p, q := a + [0x0A] + x, b + [0x0A] + y;
    assert p[|a|] == 0x0A && q[|b|] == 0x0A;
    assert forall i :: 0 <= i < |a| ==> p[i] == a[i];
    assert forall i :: 0 <= i < |b| ==> q[i] == b[i];
    assert |a| == |b|;
    assert p[..|a|] == a && q[..|b|] == b && p[|a| + 1..] == x && q[|b| + 1..] == y;
  }
}
