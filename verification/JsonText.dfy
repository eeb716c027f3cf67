/**
 JSON text as JavaScript writes it: UTF-16 code units, compact separators, object members in the
 order given. What is printed can be read back in one way only.
 */
module JsonText {
  import opened Common

  type Unit = u: int | 0 <= u < 0x1_0000

  type Text = seq<Unit>

  const QUOTE: Unit := 0x22
  const COMMA: Unit := 0x2C
  const COLON: Unit := 0x3A
  const BACKSLASH: Unit := 0x5C
  const OPEN_LIST: Unit := 0x5B
  const CLOSE_LIST: Unit := 0x5D
  const OPEN_OBJECT: Unit := 0x7B
  const CLOSE_OBJECT: Unit := 0x7D

  // --- order of strings --------------------------------------------------------------------------------

  /** `<` on JavaScript strings: the first differing code unit decides. */
  predicate Less(a: Text, b: Text)
  {
    b != [] && (a == [] || a[0] < b[0] || (a[0] == b[0] && Less(a[1..], b[1..])))
  }

  lemma {:induction false} LessIsTotal(a: Text, b: Text)
    ensures Less(a, b) || a == b || Less(b, a)
    ensures !(Less(a, b) && Less(b, a)) && !Less(a, a)
    decreases |a|
  {
    if a != [] {
      LessIsTotal(a[1..], a[1..]);
      if b != [] {
        LessIsTotal(a[1..], b[1..]);
        assert a == [a[0]] + a[1..] && b == [b[0]] + b[1..];
      }
    }
  }

  lemma {:induction false} LessIsTransitive(a: Text, b: Text, c: Text)
    requires Less(a, b) && Less(b, c)
    ensures Less(a, c)
    decreases |a|
  {
    if a != [] && a[0] == b[0] == c[0] { LessIsTransitive(a[1..], b[1..], c[1..]); }
  }

  predicate CommaFree(k: Text) { COMMA !in k }

  /** Joined with a comma and more text, comma-free keys compare as if only the comma had been added. */
  lemma {:induction false} JoinedOrder(a: Text, x: Text, b: Text, y: Text)
    requires CommaFree(a) && CommaFree(b) && a != b
    ensures Less(a + [COMMA] + x, b + [COMMA] + y) <==> Less(a + [COMMA], b + [COMMA])
    decreases |a|
  {
    var p, q := a + [COMMA] + x, b + [COMMA] + y;
    if a != [] && b != [] && a[0] == b[0] {
      assert a == [a[0]] + a[1..] && b == [b[0]] + b[1..];
      assert p[1..] == a[1..] + [COMMA] + x && q[1..] == b[1..] + [COMMA] + y;
      assert (a + [COMMA])[1..] == a[1..] + [COMMA] && (b + [COMMA])[1..] == b[1..] + [COMMA];
      JoinedOrder(a[1..], x, b[1..], y);
    } else if a == [] {
      assert b[0] in b && p[0] == COMMA && q[0] == b[0];
    } else {
      assert a[0] in a && p[0] == a[0] && q[0] == if b == [] then COMMA else b[0];
    }
  }

  // Key b goes on where key a ends, with a unit that sorts before the comma.
  predicate ContinuesLow(a: Text, b: Text)
  {
    |a| < |b| && b[..|a|] == a && b[|a|] < COMMA
  }

  /** Adding the comma changes the order of two comma-free keys exactly when one continues the other low. */
  lemma {:induction false} CommaChangesOrderIff(a: Text, b: Text)
    requires CommaFree(a) && CommaFree(b) && a != b
    ensures (Less(a + [COMMA], b + [COMMA]) <==> Less(a, b)) <==> !ContinuesLow(a, b) && !ContinuesLow(b, a)
    decreases |a|
  {
    if a != [] && b != [] && a[0] == b[0] {
      assert a == [a[0]] + a[1..] && b == [b[0]] + b[1..];
      assert (a + [COMMA])[1..] == a[1..] + [COMMA] && (b + [COMMA])[1..] == b[1..] + [COMMA];
      CommaChangesOrderIff(a[1..], b[1..]);
      ContinuesTail(a, b);
      ContinuesTail(b, a);
    } else if a == [] {
      assert b[0] in b && b[..0] == a && (b + [COMMA])[0] == b[0];
    } else if b == [] {
      assert a[0] in a && a[..0] == b && (a + [COMMA])[0] == a[0];
    } else {
      assert |a| < |b| ==> b[..|a|][0] == b[0];
      assert |b| < |a| ==> a[..|b|][0] == a[0];
    }
  }

  lemma ContinuesTail(a: Text, b: Text)
    requires a != [] && b != [] && a[0] == b[0]
    ensures ContinuesLow(a, b) <==> ContinuesLow(a[1..], b[1..])
  {
    if |a| < |b| {
      assert b[..|a|] == [b[0]] + b[1..][..|a| - 1] && a == [a[0]] + a[1..];
      assert b[..|a|] == a <==> b[1..][..|a| - 1] == a[1..];
    }
  }

  // --- numbers -----------------------------------------------------------------------------------------

  // Digits, signs, the point and the exponent mark.
  predicate IsNumberUnit(u: Unit) { 0x30 <= u <= 0x39 || u == 0x2D || u == 0x2B || u == 0x2E || u == 0x65 }

  predicate IsNumberText(t: Text) { t != [] && forall i :: 0 <= i < |t| ==> IsNumberUnit(t[i]) }

  function Digits(n: nat): (t: Text)
    ensures IsNumberText(t) && forall i :: 0 <= i < |t| ==> t[i] >= 0x30
  {
    if n < 10 then [0x30 + n] else Digits(n / 10) + [0x30 + n % 10]
  }

  /** An integer in decimal. */
  function Decimal(n: int): (t: Text)
    ensures IsNumberText(t)
  {
    if n < 0 then [0x2D] + Digits(-n) else Digits(n)
  }

  lemma {:induction false} DigitsAreUnique(m: nat, n: nat)
    requires Digits(m) == Digits(n)
    ensures m == n
    decreases m
  {
    if m >= 10 && n >= 10 {
      var x, y := Digits(m / 10), Digits(n / 10);
      assert Digits(m)[|x|] == 0x30 + m % 10 && Digits(n)[|y|] == 0x30 + n % 10;
      assert Digits(m)[..|x|] == x && Digits(n)[..|y|] == y;
      DigitsAreUnique(m / 10, n / 10);
    }
  }

  lemma DecimalShowsSign(n: int)
    ensures Decimal(n)[0] == 0x2D <==> n < 0
  {
  }

  lemma DecimalsAreUnique(m: int, n: int)
    requires Decimal(m) == Decimal(n)
    ensures m == n
  {
    DecimalShowsSign(m);
    DecimalShowsSign(n);
    if m < 0 && n < 0 {
      assert Decimal(m)[1..] == Digits(-m) && Decimal(n)[1..] == Digits(-n);
      DigitsAreUnique(-m, -n);
    } else if m >= 0 && n >= 0 {
      DigitsAreUnique(m, n);
    }
  }

  // --- strings ------------------------------------------------------------------------------------------

  predicate IsPair(lead: Unit, trail: Unit) { 0xD800 <= lead < 0xDC00 <= trail < 0xE000 }

  function HexDigit(d: nat): Unit
    requires d < 16
  {
    if d < 10 then 0x30 + d else 0x57 + d
  }

  function Hex(u: Unit): Text
  {
    [BACKSLASH, 0x75, HexDigit(u / 0x1000), HexDigit(u / 0x100 % 0x10), HexDigit(u / 0x10 % 0x10), HexDigit(u % 0x10)]
  }

  /** How one code unit that is not half of a surrogate pair appears inside quotes. */
  function EscapeUnit(u: Unit): (t: Text)
    ensures t != [] && t[0] != QUOTE && !(0xD800 <= t[0] < 0xE000)
  {
    if u == QUOTE || u == BACKSLASH then [BACKSLASH, u]
    else if u == 0x08 then [BACKSLASH, 0x62]
    else if u == 0x09 then [BACKSLASH, 0x74]
    else if u == 0x0A then [BACKSLASH, 0x6E]
    else if u == 0x0C then [BACKSLASH, 0x66]
    else if u == 0x0D then [BACKSLASH, 0x72]
    else if u < 0x20 || 0xD800 <= u < 0xE000 then Hex(u)
    else [u]
  }

  /** The escaped form of s, with x after it. */
  function Escaped(s: Text, x: Text): Text
  {
    if s == [] then x
    else if |s| > 1 && IsPair(s[0], s[1]) then s[..2] + Escaped(s[2..], x)
    else EscapeUnit(s[0]) + Escaped(s[1..], x)
  }

  function Quoted(s: Text, x: Text): Text { [QUOTE] + Escaped(s, [QUOTE] + x) }

  lemma HexIsUnique(u: Unit, v: Unit)
    requires Hex(u) == Hex(v)
    ensures u == v
  {
    assert Hex(u)[2] == Hex(v)[2] && Hex(u)[3] == Hex(v)[3] && Hex(u)[4] == Hex(v)[4] && Hex(u)[5] == Hex(v)[5];
    NibblesMakeUnit(u);
    NibblesMakeUnit(v);
  }

  lemma NibblesMakeUnit(u: Unit)
    ensures u == u / 0x1000 * 0x1000 + u / 0x100 % 0x10 * 0x100 + u / 0x10 % 0x10 * 0x10 + u % 0x10
    ensures u / 0x1000 < 16
  {
  }

  // No escape is the beginning of another.
  lemma EscapeUnitIsPrefixFree(u: Unit, v: Unit, x: Text, y: Text)
    requires EscapeUnit(u) + x == EscapeUnit(v) + y
    ensures u == v && x == y
  {
    var p, q := EscapeUnit(u), EscapeUnit(v);
    assert (p + x)[0] == p[0] && (q + y)[0] == q[0];
    if p[0] == BACKSLASH { assert (p + x)[1] == p[1] && (q + y)[1] == q[1]; }
    assert |p| == |q|;
    assert p == (p + x)[..|p|] && q == (q + y)[..|q|];
    assert x == (p + x)[|p|..] && y == (q + y)[|q|..];
    if |p| == 6 { HexIsUnique(u, v); }
  }

  // A unit written as itself is no quote, and half of a pair only together with its other half.
  lemma EscapeStarts(s: Text, x: Text)
    requires s != []
    ensures Escaped(s, x) != [] && Escaped(s, x)[0] != QUOTE
    ensures |s| > 1 && IsPair(s[0], s[1]) <==> 0xD800 <= Escaped(s, x)[0] < 0xE000
  {
    if !(|s| > 1 && IsPair(s[0], s[1])) { assert Escaped(s, x)[0] == EscapeUnit(s[0])[0]; }
  }

  /** Quoted text ends at its own closing quote and nowhere else. */
  lemma {:induction false} EscapedIsPrefixFree(s: Text, t: Text, x: Text, y: Text)
    requires Escaped(s, [QUOTE] + x) == Escaped(t, [QUOTE] + y)
    ensures s == t && x == y
    decreases |s|
  {
    var p, q := Escaped(s, [QUOTE] + x), Escaped(t, [QUOTE] + y);
    if s != [] { EscapeStarts(s, [QUOTE] + x); }
    if t != [] { EscapeStarts(t, [QUOTE] + y); }
    if s == [] {
      assert p[1..] == x && q[1..] == y;
    } else if |s| > 1 && IsPair(s[0], s[1]) {
      assert p[..2] == s[..2] && q[..2] == t[..2];
      assert p[2..] == Escaped(s[2..], [QUOTE] + x) && q[2..] == Escaped(t[2..], [QUOTE] + y);
      EscapedIsPrefixFree(s[2..], t[2..], x, y);
      assert s == s[..2] + s[2..] && t == t[..2] + t[2..];
    } else {
      EscapeUnitIsPrefixFree(s[0], t[0], Escaped(s[1..], [QUOTE] + x), Escaped(t[1..], [QUOTE] + y));
      EscapedIsPrefixFree(s[1..], t[1..], x, y);
      assert s == [s[0]] + s[1..] && t == [t[0]] + t[1..];
    }
  }

  // --- values -------------------------------------------------------------------------------------------

  // A value ready to print: numbers as their text, object members in printing order.
  datatype Tree =
    | TNull
    | TBool(b: bool)
    | TString(s: Text)
    | TNumber(text: Text)
    | TArray(items: seq<Tree>)
    | TObject(fields: seq<Field>)

  datatype Field = Field(key: Text, value: Tree)

  const NULL_TEXT: Text := [0x6E, 0x75, 0x6C, 0x6C]
  const TRUE_TEXT: Text := [0x74, 0x72, 0x75, 0x65]
  const FALSE_TEXT: Text := [0x66, 0x61, 0x6C, 0x73, 0x65]

  /** Compact JSON, as `JSON.stringify` writes it, with x after it. */
  function Printed(t: Tree, x: Text): Text
    decreases t, 1, 0
  {
    match t
    case TNull => NULL_TEXT + x
    case TBool(b) => (if b then TRUE_TEXT else FALSE_TEXT) + x
    case TString(s) => Quoted(s, x)
    case TNumber(text) => text + x
    case TArray(items) => [OPEN_LIST] + PrintedItems(t, 0, x)
    case TObject(fields) => [OPEN_OBJECT] + PrintedFields(t, 0, x)
  }

  function Separated(i: nat, x: Text): Text { if i == 0 then x else [COMMA] + x }

  function PrintedItems(t: Tree, i: nat, x: Text): Text
    requires t.TArray? && i <= |t.items|
    decreases t, 0, |t.items| - i
  {
    if i == |t.items| then [CLOSE_LIST] + x else Separated(i, Printed(t.items[i], PrintedItems(t, i + 1, x)))
  }

  function PrintedFields(t: Tree, i: nat, x: Text): Text
    requires t.TObject? && i <= |t.fields|
    decreases t, 0, |t.fields| - i
  {
    if i == |t.fields| then [CLOSE_OBJECT] + x
    else Separated(i, Quoted(t.fields[i].key, [COLON] + Printed(t.fields[i].value, PrintedFields(t, i + 1, x))))
  }

  function Print(t: Tree): Text { Printed(t, []) }

  predicate WellFormed(t: Tree)
  {
    match t
    case TNumber(text) => IsNumberText(text)
    case TArray(items) => forall i :: 0 <= i < |items| ==> WellFormed(items[i])
    case TObject(fields) => forall i :: 0 <= i < |fields| ==> WellFormed(fields[i].value)
    case _ => true
  }

  // What may follow a value: nothing, a comma or a closing bracket.
  predicate Ends(x: Text) { x == [] || x[0] == COMMA || x[0] == CLOSE_LIST || x[0] == CLOSE_OBJECT }

  lemma NumberTextEnds(a: Text, b: Text, x: Text, y: Text)
    requires IsNumberText(a) && IsNumberText(b) && Ends(x) && Ends(y) && a + x == b + y
    ensures a == b && x == y
  {
    var p, q := a + x, b + y;
    forall i | 0 <= i < |a| ensures IsNumberUnit(p[i]) { assert p[i] == a[i]; }
    forall i | 0 <= i < |b| ensures IsNumberUnit(q[i]) { assert q[i] == b[i]; }
    assert |a| < |p| ==> !IsNumberUnit(p[|a|]);
    assert |b| < |q| ==> !IsNumberUnit(q[|b|]);
    assert |a| == |b|;
    assert p[..|a|] == a && q[..|b|] == b && p[|a|..] == x && q[|b|..] == y;
  }

  // The first unit tells what kind of value follows.
  function Kind(t: Tree): nat
  {
    match t
    case TNull => 0
    case TBool(b) => if b then 1 else 2
    case TString(_) => 3
    case TNumber(_) => 4
    case TArray(_) => 5
    case TObject(_) => 6
  }

  predicate Begins(kind: nat, u: Unit)
  {
    match kind
    case 0 => u == 0x6E
    case 1 => u == 0x74
    case 2 => u == 0x66
    case 3 => u == QUOTE
    case 4 => IsNumberUnit(u)
    case 5 => u == OPEN_LIST
    case _ => u == OPEN_OBJECT
  }

  lemma PrintedStarts(t: Tree, x: Text)
    requires WellFormed(t)
    ensures Printed(t, x) != [] && Begins(Kind(t), Printed(t, x)[0])
  {
  }

  lemma SameTail(p: Text, x: Text, y: Text)
    requires p + x == p + y
    ensures x == y
  {
    assert (p + x)[|p|..] == x && (p + y)[|p|..] == y;
  }

  /** Printed values are uniquely readable: equal texts, with whatever follows them, are equal values. */
  lemma {:induction false} PrintedIsPrefixFree(t: Tree, u: Tree, x: Text, y: Text)
    requires WellFormed(t) && WellFormed(u) && Ends(x) && Ends(y) && Printed(t, x) == Printed(u, y)
    ensures t == u && x == y
    decreases t, 1, 0
  {
    PrintedStarts(t, x);
    PrintedStarts(u, y);
    assert Kind(t) == Kind(u);
    match t
    case TNull => SameTail(NULL_TEXT, x, y);
    case TBool(b) => SameTail(if b then TRUE_TEXT else FALSE_TEXT, x, y);
    case TString(s) =>
      SameTail([QUOTE], Escaped(s, [QUOTE] + x), Escaped(u.s, [QUOTE] + y));
      EscapedIsPrefixFree(s, u.s, x, y);
    case TNumber(text) => NumberTextEnds(text, u.text, x, y);
    case TArray(items) =>
      SameTail([OPEN_LIST], PrintedItems(t, 0, x), PrintedItems(u, 0, y));
      ItemsArePrefixFree(t, u, 0, x, y);
    case TObject(fields) =>
      SameTail([OPEN_OBJECT], PrintedFields(t, 0, x), PrintedFields(u, 0, y));
      FieldsArePrefixFree(t, u, 0, x, y);
  }

  lemma SeparatedTail(i: nat, x: Text, y: Text)
    requires Separated(i, x) == Separated(i, y)
    ensures x == y
  {
    if i > 0 { SameTail([COMMA], x, y); }
  }

  // Neither an item nor a member starts like the end of its list.
  lemma ItemStarts(t: Tree, i: nat, x: Text)
    requires t.TArray? && WellFormed(t) && i <= |t.items|
    ensures PrintedItems(t, i, x) != [] && (PrintedItems(t, i, x)[0] == CLOSE_LIST <==> i == |t.items|)
    ensures i > 0 ==> Ends(PrintedItems(t, i, x))
  {
    if i < |t.items| { PrintedStarts(t.items[i], PrintedItems(t, i + 1, x)); }
  }

  lemma FieldStarts(t: Tree, i: nat, x: Text)
    requires t.TObject? && i <= |t.fields|
    ensures PrintedFields(t, i, x) != [] && (PrintedFields(t, i, x)[0] == CLOSE_OBJECT <==> i == |t.fields|)
    ensures i > 0 ==> Ends(PrintedFields(t, i, x))
  {
  }

  lemma {:induction false} ItemsArePrefixFree(t: Tree, u: Tree, i: nat, x: Text, y: Text)
    requires t.TArray? && u.TArray? && WellFormed(t) && WellFormed(u) && i <= |t.items| && i <= |u.items|
    requires Ends(x) && Ends(y) && PrintedItems(t, i, x) == PrintedItems(u, i, y) && t.items[..i] == u.items[..i]
    ensures t == u && x == y
    decreases t, 0, |t.items| - i
  {
    ItemStarts(t, i, x);
    ItemStarts(u, i, y);
    if i < |t.items| {
      var restT, restU := PrintedItems(t, i + 1, x), PrintedItems(u, i + 1, y);
      SeparatedTail(i, Printed(t.items[i], restT), Printed(u.items[i], restU));
      ItemStarts(t, i + 1, x);
      ItemStarts(u, i + 1, y);
      PrintedIsPrefixFree(t.items[i], u.items[i], restT, restU);
      assert t.items[..i + 1] == t.items[..i] + [t.items[i]] && u.items[..i + 1] == u.items[..i] + [u.items[i]];
      ItemsArePrefixFree(t, u, i + 1, x, y);
    } else {
      SameTail([CLOSE_LIST], x, y);
      assert t.items == t.items[..i] && u.items == u.items[..i];
    }
  }

  lemma {:induction false} FieldsArePrefixFree(t: Tree, u: Tree, i: nat, x: Text, y: Text)
    requires t.TObject? && u.TObject? && WellFormed(t) && WellFormed(u) && i <= |t.fields| && i <= |u.fields|
    requires Ends(x) && Ends(y) && PrintedFields(t, i, x) == PrintedFields(u, i, y) && t.fields[..i] == u.fields[..i]
    ensures t == u && x == y
    decreases t, 0, |t.fields| - i
  {
    FieldStarts(t, i, x);
    FieldStarts(u, i, y);
    if i < |t.fields| {
      var restT, restU := PrintedFields(t, i + 1, x), PrintedFields(u, i + 1, y);
      var valueT, valueU := Printed(t.fields[i].value, restT), Printed(u.fields[i].value, restU);
      SeparatedTail(i, Quoted(t.fields[i].key, [COLON] + valueT), Quoted(u.fields[i].key, [COLON] + valueU));
      SameTail([QUOTE], Escaped(t.fields[i].key, [QUOTE] + ([COLON] + valueT)), Escaped(u.fields[i].key, [QUOTE] + ([COLON] + valueU)));
      EscapedIsPrefixFree(t.fields[i].key, u.fields[i].key, [COLON] + valueT, [COLON] + valueU);
      SameTail([COLON], valueT, valueU);
      FieldStarts(t, i + 1, x);
      FieldStarts(u, i + 1, y);
      PrintedIsPrefixFree(t.fields[i].value, u.fields[i].value, restT, restU);
      assert t.fields[..i + 1] == t.fields[..i] + [t.fields[i]] && u.fields[..i + 1] == u.fields[..i] + [u.fields[i]];
      FieldsArePrefixFree(t, u, i + 1, x, y);
    } else {
      SameTail([CLOSE_OBJECT], x, y);
      assert t.fields == t.fields[..i] && u.fields == u.fields[..i];
    }
  }

  /** Equal text, equal value. */
  lemma PrintIsInjective(t: Tree, u: Tree)
    requires WellFormed(t) && WellFormed(u) && Print(t) == Print(u)
    ensures t == u
  {
    PrintedIsPrefixFree(t, u, [], []);
  }
}
