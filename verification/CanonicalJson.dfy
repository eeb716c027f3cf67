/**
 The four canonical serializers. They differ in what they refuse, in how they sort the members of
 an object, and in whether the sorted members pass through `Object.fromEntries` (after which
 JavaScript lists array-index keys first); `Rules` says which serializer does what.
 */
module CanonicalJson {
  import opened Common
  import opened JsonText

  datatype Number = Safe(n: int) | Fraction(text: Text) | Unsafe(text: Text) | NonFinite(text: Text)

  // A JavaScript value; an object lists its own members in enumeration order.
  datatype Json =
    | Null
    | Undefined
    | Bool(b: bool)
    | Str(s: Text)
    | Num(number: Number)
    | Big(n: int)
    | Arr(items: seq<Json>)
    | Obj(members: seq<Member>)

  datatype Member = Member(key: Text, value: Json)

  datatype Rules = Rules(
    byKey: bool,            // sorts by key, not by the text "key,value"
    fromEntries: bool,      // rebuilds an object from the sorted members
    strictNumbers: bool,    // refuses unsafe integers
    finiteOnly: bool,       // refuses NaN and the infinities
    strictArrays: bool,     // refuses undefined array entries
    bigints: bool)          // writes a bigint as its decimal string

  const CREDIT := Rules(false, true, true, true, true, true)
  const SIGNER := Rules(true, true, true, true, true, true)
  const ORCHESTRATOR := Rules(false, true, false, false, false, true)
  const REPORT := Rules(true, false, false, true, true, false)

  // --- what is refused --------------------------------------------------------------------------------------

  predicate AcceptsNumber(r: Rules, n: Number)
  {
    match n
    case Unsafe(_) => !r.strictNumbers
    case NonFinite(_) => !r.finiteOnly
    case _ => true
  }

  predicate Accepts(r: Rules, v: Json)
    decreases v, 1
  {
    match v
    case Num(n) => AcceptsNumber(r, n)
    case Big(_) => r.bigints
    case Arr(items) => forall i :: 0 <= i < |items| ==> AcceptsItem(r, v, i)
    case Obj(members) => forall i :: 0 <= i < |members| ==> members[i].value.Undefined? || Accepts(r, members[i].value)
    case Undefined => false
    case _ => true
  }

  predicate AcceptsItem(r: Rules, v: Json, i: nat)
    requires v.Arr? && i < |v.items|
    decreases v, 0
  {
    if v.items[i].Undefined? then !r.strictArrays else Accepts(r, v.items[i])
  }

  // --- how members are ordered ---------------------------------------------------------------------------------

  function NumberText(n: Number): Text
  {
    match n
    case Safe(k) => Decimal(k)
    case Fraction(text) => text
    case Unsafe(text) => text
    case NonFinite(text) => text
  }

  const OBJECT_TEXT: Text := [0x5B, 0x6F, 0x62, 0x6A, 0x65, 0x63, 0x74, 0x20, 0x4F, 0x62, 0x6A, 0x65, 0x63, 0x74, 0x5D]

  /** `String(v)`, as the default sort applies it inside an entry. */
  function Plain(v: Json): Text
    decreases v, 1, 0
  {
    match v
    case Null => []
    case Undefined => []
    case Bool(b) => if b then TRUE_TEXT else FALSE_TEXT
    case Str(s) => s
    case Num(n) => NumberText(n)
    case Big(n) => Decimal(n)
    case Arr(items) => PlainItems(v, 0)
    case Obj(_) => OBJECT_TEXT
  }

  function PlainItems(v: Json, i: nat): Text
    requires v.Arr? && i <= |v.items|
    decreases v, 0, |v.items| - i
  {
    if i == |v.items| then [] else (if i == 0 then [] else [COMMA]) + Plain(v.items[i]) + PlainItems(v, i + 1)
  }

  // A member with the text it is sorted by.
  datatype Entry = Entry(field: Field, rank: Text)

  function RankOf(r: Rules, m: Member): Text
  {
    if r.byKey then m.key else m.key + [COMMA] + Plain(m.value)
  }

  function Insert(e: Entry, es: seq<Entry>): (s: seq<Entry>)
    ensures multiset(s) == multiset(es) + multiset{e}
  {
    if es == [] || !Less(es[0].rank, e.rank) then [e] + es
    else
      assert es == [es[0]] + es[1..];
      [es[0]] + Insert(e, es[1..])
  }

  /** A stable sort by rank. */
  function Sorted(es: seq<Entry>): (s: seq<Entry>)
    ensures multiset(s) == multiset(es)
  {
    if es == [] then []
    else
      assert es == [es[0]] + es[1..];
      Insert(es[0], Sorted(es[1..]))
  }

  function Fields(es: seq<Entry>): (fs: seq<Field>)
    ensures |fs| == |es| && forall i :: 0 <= i < |es| ==> fs[i] == es[i].field
  {
    seq(|es|, i requires 0 <= i < |es| => es[i].field)
  }

  predicate IsDigit(u: Unit) { 0x30 <= u <= 0x39 }

  function ValueOf(k: Text): nat
  {
    if k == [] then 0
    else
      var last: int := k[|k| - 1];
      10 * ValueOf(k[..|k| - 1]) + (if IsDigit(k[|k| - 1]) then last - 0x30 else 0)
  }

  /** A canonical array index: a decimal without leading zeros below 2^32 - 1. */
  predicate IsIndex(k: Text)
  {
    k != [] && (forall i :: 0 <= i < |k| ==> IsDigit(k[i])) && (k[0] == 0x30 ==> |k| == 1) && ValueOf(k) < 0xFFFF_FFFF
  }

  function InsertIndex(f: Field, fs: seq<Field>): (s: seq<Field>)
    ensures multiset(s) == multiset(fs) + multiset{f}
  {
    if fs == [] || ValueOf(f.key) <= ValueOf(fs[0].key) then [f] + fs
    else
      assert fs == [fs[0]] + fs[1..];
      [fs[0]] + InsertIndex(f, fs[1..])
  }

  // The members with array-index keys, ascending.
  function Indices(fs: seq<Field>): seq<Field>
  {
    if fs == [] then []
    else if IsIndex(fs[0].key) then InsertIndex(fs[0], Indices(fs[1..]))
    else Indices(fs[1..])
  }

  function Others(fs: seq<Field>): seq<Field>
  {
    if fs == [] then [] else (if IsIndex(fs[0].key) then [] else [fs[0]]) + Others(fs[1..])
  }

  /** The order in which JavaScript lists the members of an object built from these. */
  function Listed(r: Rules, fs: seq<Field>): seq<Field>
  {
    if r.fromEntries then Indices(fs) + Others(fs) else fs
  }

  // --- the serializers -------------------------------------------------------------------------------------------

  /** The value as it will be printed. */
  function Form(r: Rules, v: Json): Tree
    requires Accepts(r, v)
    decreases v, 1, 0
  {
    match v
    case Null => TNull
    case Bool(b) => TBool(b)
    case Str(s) => TString(s)
    case Num(n) => if n.NonFinite? then TNull else TNumber(NumberText(n))
    case Big(n) => TString(Decimal(n))
    case Arr(items) => TArray(seq(|items|, i requires 0 <= i < |items| => ItemForm(r, v, i)))
    case Obj(members) => TObject(Listed(r, Fields(Sorted(Entries(r, v, 0)))))
  }

  function ItemForm(r: Rules, v: Json, i: nat): Tree
    requires v.Arr? && i < |v.items| && Accepts(r, v)
    decreases v, 0, 0
  {
    assert AcceptsItem(r, v, i);
    if v.items[i].Undefined? then TNull else Form(r, v.items[i])
  }

  // The members that are not undefined, in order of enumeration, each with its rank and its form.
  function Entries(r: Rules, v: Json, i: nat): seq<Entry>
    requires v.Obj? && i <= |v.members| && Accepts(r, v)
    decreases v, 0, |v.members| - i
  {
    if i == |v.members| then []
    else if v.members[i].value.Undefined? then Entries(r, v, i + 1)
    else [Entry(Field(v.members[i].key, Form(r, v.members[i].value)), RankOf(r, v.members[i]))] + Entries(r, v, i + 1)
  }

  /** The canonical text, or None where the serializer throws. */
  function Serialize(r: Rules, v: Json): Option<Text>
  {
    if Accepts(r, v) then Some(Print(Form(r, v))) else None
  }

  // --- what a value means ------------------------------------------------------------------------------------------

  // A JSON value whose objects have no order.
  datatype Meaning =
    | MNull
    | MBool(b: bool)
    | MString(s: Text)
    | MNumber(text: Text)
    | MArray(items: seq<Meaning>)
    | MObject(members: map<Text, Meaning>)

  /** What a value stands for: a bigint is its decimal string, an undefined member is absent. */
  function MeaningOf(v: Json): Meaning
    decreases v, 1, 0
  {
    match v
    case Null => MNull
    case Undefined => MNull
    case Bool(b) => MBool(b)
    case Str(s) => MString(s)
    case Num(n) => if n.NonFinite? then MNull else MNumber(NumberText(n))
    case Big(n) => MString(Decimal(n))
    case Arr(items) => MArray(seq(|items|, i requires 0 <= i < |items| => MeaningOf(items[i])))
    case Obj(members) => MObject(MeaningOfMembers(v, 0))
  }

  function MeaningOfMembers(v: Json, i: nat): map<Text, Meaning>
    requires v.Obj? && i <= |v.members|
    decreases v, 0, |v.members| - i
  {
    if i == |v.members| then map[]
    else if v.members[i].value.Undefined? then MeaningOfMembers(v, i + 1)
    else MeaningOfMembers(v, i + 1)[v.members[i].key := MeaningOf(v.members[i].value)]
  }

  // A value JavaScript can hold: an object's keys are distinct, and a number prints as a number.
  predicate Valid(v: Json)
  {
    match v
    case Num(n) => n.Safe? || n.NonFinite? || IsNumberText(NumberText(n))
    case Arr(items) => forall i :: 0 <= i < |items| ==> Valid(items[i])
    case Obj(members) =>
      (forall i :: 0 <= i < |members| ==> Valid(members[i].value))
      && (forall i, j :: 0 <= i < j < |members| ==> members[i].key != members[j].key)
    case _ => true
  }

  // Every key of every object inside v satisfies p.
  predicate AllKeys(p: Text -> bool, v: Json)
  {
    match v
    case Arr(items) => forall i :: 0 <= i < |items| ==> AllKeys(p, items[i])
    case Obj(members) => forall i :: 0 <= i < |members| ==> p(members[i].key) && AllKeys(p, members[i].value)
    case _ => true
  }

  // No key of an object continues another one with a unit that sorts before the comma.
  predicate NoLowKeys(v: Json)
  {
    match v
    case Arr(items) => forall i :: 0 <= i < |items| ==> NoLowKeys(items[i])
    case Obj(members) =>
      (forall i :: 0 <= i < |members| ==> NoLowKeys(members[i].value))
      && (forall i, j :: 0 <= i < |members| && 0 <= j < |members| && !members[i].value.Undefined? && !members[j].value.Undefined? ==>
            !ContinuesLow(members[i].key, members[j].key))
    case _ => true
  }
}
