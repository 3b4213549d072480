/** `requestHashOf`: the printed canonical form. Printing is injective, so with an injective digest two
    requests have one hash exactly when their bodies mean the same. */
module RequestHash {
  import opened CanonicalJson

  const QUOTE: CodeUnit := 0x22
  const BACKSLASH: CodeUnit := 0x5C
  const COMMA: CodeUnit := 0x2C
  const COLON: CodeUnit := 0x3A
  const OPEN_LIST: CodeUnit := 0x5B
  const CLOSE_LIST: CodeUnit := 0x5D
  const OPEN_OBJECT: CodeUnit := 0x7B
  const CLOSE_OBJECT: CodeUnit := 0x7D
  const NULL: Text := [0x6E, 0x75, 0x6C, 0x6C]
  const TRUE: Text := [0x74, 0x72, 0x75, 0x65]
  const FALSE: Text := [0x66, 0x61, 0x6C, 0x73, 0x65]

  /** Digits, sign, point and exponent: what a printed finite number is made of. */
  predicate NumberUnit(u: CodeUnit) {
    0x30 <= u <= 0x39 || u == 0x2B || u == 0x2D || u == 0x2E || u == 0x65
  }

  predicate NumberToken(token: Text) {
    token != [] && (0x30 <= token[0] <= 0x39 || token[0] == 0x2D) && forall i | 0 <= i < |token| :: NumberUnit(token[i])
  }

  predicate FiniteNumbers(j: Json) {
    match j
    case Num(token) => NumberToken(token)
    case Arr(items) => forall i | 0 <= i < |items| :: FiniteNumbers(items[i])
    case Obj(fields) => forall i | 0 <= i < |fields| :: FiniteNumbers(fields[i].value)
    case _ => true
  }

  // ---------------------------------------------------------------- strings

  predicate Lead(u: CodeUnit) { 0xD800 <= u < 0xDC00 }

  predicate Trail(u: CodeUnit) { 0xDC00 <= u < 0xE000 }

  function HexDigit(d: nat): CodeUnit
    requires d < 16
  {
    if d < 10 then 0x30 + d else 0x57 + d
  }

  function Hex(u: CodeUnit): Text {
    [HexDigit(u / 0x1000), HexDigit(u / 0x100 % 16), HexDigit(u / 0x10 % 16), HexDigit(u % 16)]
  }

  /** One code unit inside quotes: the short escapes, `\u` for the other controls and for a lone
      surrogate, itself otherwise. */
  function Escape(u: CodeUnit): Text {
    if u == QUOTE || u == BACKSLASH then [BACKSLASH, u]
    else if u == 0x08 then [BACKSLASH, 0x62]
    else if u == 0x09 then [BACKSLASH, 0x74]
    else if u == 0x0A then [BACKSLASH, 0x6E]
    else if u == 0x0C then [BACKSLASH, 0x66]
    else if u == 0x0D then [BACKSLASH, 0x72]
    else if u < 0x20 || Lead(u) || Trail(u) then [BACKSLASH, 0x75] + Hex(u)
    else [u]
  }

  predicate Paired(s: Text) { |s| > 1 && Lead(s[0]) && Trail(s[1]) }

  function QuoteTo(s: Text, rest: Text): Text
    decreases |s|
  {
    if s == [] then [QUOTE] + rest
    else if Paired(s) then [s[0], s[1]] + QuoteTo(s[2..], rest)
    else Escape(s[0]) + QuoteTo(s[1..], rest)
  }

  lemma HexDigits(u: CodeUnit)
    ensures u == 0x1000 * (u / 0x1000) + 0x100 * (u / 0x100 % 16) + 0x10 * (u / 0x10 % 16) + u % 16
  {
    var a, b := u / 0x10, u / 0x100;
    assert b == a / 16 && u / 0x1000 == b / 16;
  }

  lemma HexIsInjective(u: CodeUnit, v: CodeUnit)
    requires Hex(u) == Hex(v)
    ensures u == v
  {
    var a, b := Hex(u), Hex(v);
    SameDigit(u / 0x1000, v / 0x1000, a[0], b[0]);
    SameDigit(u / 0x100 % 16, v / 0x100 % 16, a[1], b[1]);
    SameDigit(u / 0x10 % 16, v / 0x10 % 16, a[2], b[2]);
    SameDigit(u % 16, v % 16, a[3], b[3]);
    HexDigits(u);
    HexDigits(v);
  }

  lemma SameDigit(d: nat, e: nat, a: CodeUnit, b: CodeUnit)
    requires d < 16 && e < 16 && HexDigit(d) == a && HexDigit(e) == b && a == b
    ensures d == e
  {
  }

  lemma DropPrefix(p: Text, x: Text, y: Text)
    requires p + x == p + y
    ensures x == y
  {
    assert (p + x)[|p|..] == x;
    assert (p + y)[|p|..] == y;
  }

  /** No escape is the beginning of another. */
  lemma EscapesArePrefixFree(u: CodeUnit, v: CodeUnit, x: Text, y: Text)
    requires Escape(u) + x == Escape(v) + y
    ensures u == v && x == y
  {
    var a, b := Escape(u) + x, Escape(v) + y;
    assert a[0] == Escape(u)[0] && b[0] == Escape(v)[0];
    if |Escape(u)| > 1 && |Escape(v)| > 1 {
      assert a[1] == Escape(u)[1] && b[1] == Escape(v)[1];
      if |Escape(u)| == 6 && |Escape(v)| == 6 {
        assert a[2..6] == Hex(u) && b[2..6] == Hex(v);
        HexIsInjective(u, v);
      }
    }
    DropPrefix(Escape(u), x, y);
  }

  /** The first unit tells how the text goes on: it is over, or a pair or an escape comes next. */
  lemma QuoteStarts(s: Text, rest: Text)
    ensures |QuoteTo(s, rest)| > 0
    ensures var first := QuoteTo(s, rest)[0]; (first == QUOTE <==> s == []) && (Lead(first) <==> Paired(s))
  {
    if s != [] && !Paired(s) {
      assert QuoteTo(s, rest)[0] == Escape(s[0])[0];
    }
  }

  lemma SamePair(s: Text, t: Text, x: Text, y: Text)
    requires Paired(s) && Paired(t) && QuoteTo(s, x) == QuoteTo(t, y)
    ensures s[0] == t[0] && s[1] == t[1] && QuoteTo(s[2..], x) == QuoteTo(t[2..], y)
  {
    var a, b := QuoteTo(s, x), QuoteTo(t, y);
    assert a[0] == s[0] && a[1] == s[1] && b[0] == t[0] && b[1] == t[1];
    DropPrefix([s[0], s[1]], QuoteTo(s[2..], x), QuoteTo(t[2..], y));
  }

  /** A quoted string ends where it ends: its text and what follows can both be read off. */
  lemma {:induction false} QuotingIsPrefixFree(s: Text, t: Text, x: Text, y: Text)
    requires QuoteTo(s, x) == QuoteTo(t, y)
    ensures s == t && x == y
    decreases |s|
  {
    QuoteStarts(s, x);
    QuoteStarts(t, y);
    if s == [] {
      DropPrefix([QUOTE], x, y);
    } else if Paired(s) {
      SamePair(s, t, x, y);
      QuotingIsPrefixFree(s[2..], t[2..], x, y);
      assert s == [s[0], s[1]] + s[2..] && t == [t[0], t[1]] + t[2..];
    } else {
      EscapesArePrefixFree(s[0], t[0], QuoteTo(s[1..], x), QuoteTo(t[1..], y));
      QuotingIsPrefixFree(s[1..], t[1..], x, y);
      assert s == [s[0]] + s[1..] && t == [t[0]] + t[1..];
    }
  }

  // ---------------------------------------------------------------- values

  /** `JSON.stringify`, followed by `rest`. */
  function PrintTo(j: Json, rest: Text): Text
    decreases j, 1
  {
    match j
    case Null => NULL + rest
    case Bool(b) => (if b then TRUE else FALSE) + rest
    case Num(token) => token + rest
    case Str(text) => [QUOTE] + QuoteTo(text, rest)
    case Arr(items) => [OPEN_LIST] + (if items == [] then [CLOSE_LIST] + rest else PrintTo(items[0], MoreItems(items[1..], rest)))
    case Obj(fields) => [OPEN_OBJECT] + (if fields == [] then [CLOSE_OBJECT] + rest else FieldTo(fields[0], MoreFields(fields[1..], rest)))
  }

  function MoreItems(items: seq<Json>, rest: Text): Text
    decreases items, 0
  {
    if items == [] then [CLOSE_LIST] + rest else [COMMA] + PrintTo(items[0], MoreItems(items[1..], rest))
  }

  function FieldTo(field: Field, rest: Text): Text
    decreases field, 2
  {
    [QUOTE] + QuoteTo(field.key, [COLON] + PrintTo(field.value, rest))
  }

  function MoreFields(fields: seq<Field>, rest: Text): Text
    decreases fields, 0
  {
    if fields == [] then [CLOSE_OBJECT] + rest else [COMMA] + FieldTo(fields[0], MoreFields(fields[1..], rest))
  }

  function Stringify(j: Json): Text { PrintTo(j, []) }

  // ---------------------------------------------------------------- printing is injective

  /** A number is over where the next unit cannot belong to it. */
  predicate Delimited(rest: Text) { rest == [] || !NumberUnit(rest[0]) }

  function First(j: Json): CodeUnit
    requires FiniteNumbers(j)
  {
    match j
    case Null => NULL[0]
    case Bool(b) => if b then TRUE[0] else FALSE[0]
    case Num(token) => token[0]
    case Str(_) => QUOTE
    case Arr(_) => OPEN_LIST
    case Obj(_) => OPEN_OBJECT
  }

  lemma PrintStarts(j: Json, rest: Text)
    requires FiniteNumbers(j)
    ensures |PrintTo(j, rest)| > 0 && PrintTo(j, rest)[0] == First(j)
  {
  }

  /** How many number units a text begins with. */
  function NumberLength(s: Text): nat
    decreases |s|
  {
    if s == [] || !NumberUnit(s[0]) then 0 else 1 + NumberLength(s[1..])
  }

  lemma {:induction false} NumberEnds(a: Text, x: Text)
    requires (forall i | 0 <= i < |a| :: NumberUnit(a[i])) && Delimited(x)
    ensures NumberLength(a + x) == |a|
    decreases |a|
  {
    if a == [] {
      assert a + x == x;
    } else {
      assert (a + x)[1..] == a[1..] + x;
      NumberEnds(a[1..], x);
    }
  }

  lemma SameNumber(a: Text, b: Text, x: Text, y: Text)
    requires NumberToken(a) && NumberToken(b) && Delimited(x) && Delimited(y) && a + x == b + y
    ensures a == b && x == y
  {
    NumberEnds(a, x);
    NumberEnds(b, y);
    assert a == (a + x)[..|a|] && b == (b + y)[..|b|];
    DropPrefix(a, x, y);
  }

  lemma SameScalar(a: Json, b: Json, x: Text, y: Text)
    requires FiniteNumbers(a) && FiniteNumbers(b) && Delimited(x) && Delimited(y)
    requires !a.Arr? && !a.Obj? && PrintTo(a, x) == PrintTo(b, y)
    ensures a == b && x == y
  {
    PrintStarts(a, x);
    PrintStarts(b, y);
    match a {
      case Null => DropPrefix(NULL, x, y);
      case Bool(t) => DropPrefix(if t then TRUE else FALSE, x, y);
      case Num(token) => SameNumber(token, b.token, x, y);
      case Str(text) =>
        DropPrefix([QUOTE], QuoteTo(text, x), QuoteTo(b.text, y));
        QuotingIsPrefixFree(text, b.text, x, y);
    }
  }

  /** Nothing printed is the beginning of anything else printed. */
  lemma {:induction false} PrintingIsPrefixFree(a: Json, b: Json, x: Text, y: Text)
    requires FiniteNumbers(a) && FiniteNumbers(b) && Delimited(x) && Delimited(y)
    requires PrintTo(a, x) == PrintTo(b, y)
    ensures a == b && x == y
    decreases a, 1
  {
    PrintStarts(a, x);
    PrintStarts(b, y);
    match a {
      case Arr(xs) => ListsArePrefixFree(xs, b.items, x, y);
      case Obj(xs) => ObjectsArePrefixFree(xs, b.fields, x, y);
      case _ => SameScalar(a, b, x, y);
    }
  }

  lemma {:induction false} ListsArePrefixFree(xs: seq<Json>, ys: seq<Json>, x: Text, y: Text)
    requires FiniteNumbers(Arr(xs)) && FiniteNumbers(Arr(ys)) && Delimited(x) && Delimited(y)
    requires PrintTo(Arr(xs), x) == PrintTo(Arr(ys), y)
    ensures xs == ys && x == y
    decreases xs, 1
  {
    var a, b := PrintTo(Arr(xs), x), PrintTo(Arr(ys), y);
    DropPrefix([OPEN_LIST], a[1..], b[1..]);
    if xs != [] { PrintStarts(xs[0], MoreItems(xs[1..], x)); }
    if ys != [] { PrintStarts(ys[0], MoreItems(ys[1..], y)); }
    if xs == [] || ys == [] {
      DropPrefix([CLOSE_LIST], x, y);
    } else {
      PrintingIsPrefixFree(xs[0], ys[0], MoreItems(xs[1..], x), MoreItems(ys[1..], y));
      ItemsArePrefixFree(xs[1..], ys[1..], x, y);
      assert xs == [xs[0]] + xs[1..] && ys == [ys[0]] + ys[1..];
    }
  }

  lemma {:induction false} ObjectsArePrefixFree(xs: seq<Field>, ys: seq<Field>, x: Text, y: Text)
    requires FiniteNumbers(Obj(xs)) && FiniteNumbers(Obj(ys)) && Delimited(x) && Delimited(y)
    requires PrintTo(Obj(xs), x) == PrintTo(Obj(ys), y)
    ensures xs == ys && x == y
    decreases xs, 1
  {
    var a, b := PrintTo(Obj(xs), x), PrintTo(Obj(ys), y);
    DropPrefix([OPEN_OBJECT], a[1..], b[1..]);
    if xs == [] || ys == [] {
      assert a[1] == b[1];
      DropPrefix([CLOSE_OBJECT], x, y);
    } else {
      FieldIsPrefixFree(xs[0], ys[0], MoreFields(xs[1..], x), MoreFields(ys[1..], y));
      FieldsArePrefixFree(xs[1..], ys[1..], x, y);
      assert xs == [xs[0]] + xs[1..] && ys == [ys[0]] + ys[1..];
    }
  }

  lemma {:induction false} ItemsArePrefixFree(xs: seq<Json>, ys: seq<Json>, x: Text, y: Text)
    requires (forall i | 0 <= i < |xs| :: FiniteNumbers(xs[i])) && (forall i | 0 <= i < |ys| :: FiniteNumbers(ys[i]))
    requires Delimited(x) && Delimited(y) && MoreItems(xs, x) == MoreItems(ys, y)
    ensures xs == ys && x == y
    decreases xs, 0
  {
    if xs == [] || ys == [] {
      assert MoreItems(xs, x)[0] == MoreItems(ys, y)[0];
      DropPrefix([CLOSE_LIST], x, y);
    } else {
      DropPrefix([COMMA], PrintTo(xs[0], MoreItems(xs[1..], x)), PrintTo(ys[0], MoreItems(ys[1..], y)));
      PrintingIsPrefixFree(xs[0], ys[0], MoreItems(xs[1..], x), MoreItems(ys[1..], y));
      ItemsArePrefixFree(xs[1..], ys[1..], x, y);
      assert xs == [xs[0]] + xs[1..] && ys == [ys[0]] + ys[1..];
    }
  }

  lemma {:induction false} FieldIsPrefixFree(f: Field, g: Field, x: Text, y: Text)
    requires FiniteNumbers(f.value) && FiniteNumbers(g.value) && Delimited(x) && Delimited(y)
    requires FieldTo(f, x) == FieldTo(g, y)
    ensures f == g && x == y
    decreases f, 2
  {
    var p, q := [COLON] + PrintTo(f.value, x), [COLON] + PrintTo(g.value, y);
    DropPrefix([QUOTE], QuoteTo(f.key, p), QuoteTo(g.key, q));
    QuotingIsPrefixFree(f.key, g.key, p, q);
    DropPrefix([COLON], PrintTo(f.value, x), PrintTo(g.value, y));
    PrintingIsPrefixFree(f.value, g.value, x, y);
  }

  lemma {:induction false} FieldsArePrefixFree(xs: seq<Field>, ys: seq<Field>, x: Text, y: Text)
    requires (forall i | 0 <= i < |xs| :: FiniteNumbers(xs[i].value)) && (forall i | 0 <= i < |ys| :: FiniteNumbers(ys[i].value))
    requires Delimited(x) && Delimited(y) && MoreFields(xs, x) == MoreFields(ys, y)
    ensures xs == ys && x == y
    decreases xs, 0
  {
    if xs == [] || ys == [] {
      assert MoreFields(xs, x)[0] == MoreFields(ys, y)[0];
      DropPrefix([CLOSE_OBJECT], x, y);
    } else {
      DropPrefix([COMMA], FieldTo(xs[0], MoreFields(xs[1..], x)), FieldTo(ys[0], MoreFields(ys[1..], y)));
      FieldIsPrefixFree(xs[0], ys[0], MoreFields(xs[1..], x), MoreFields(ys[1..], y));
      FieldsArePrefixFree(xs[1..], ys[1..], x, y);
      assert xs == [xs[0]] + xs[1..] && ys == [ys[0]] + ys[1..];
    }
  }

  // ---------------------------------------------------------------- the hash

  lemma {:induction false} CanonicalizeKeepsNumbers(j: Json)
    requires FiniteNumbers(j)
    ensures FiniteNumbers(Canonicalize(j))
    decreases j
  {
    match j {
      case Arr(items) =>
        forall i | 0 <= i < |items| ensures FiniteNumbers(Canonicalize(items[i])) { CanonicalizeKeepsNumbers(items[i]); }
      case Obj(fields) =>
        forall i | 0 <= i < |fields| ensures FiniteNumbers(Canonicalize(fields[i].value)) { CanonicalizeKeepsNumbers(fields[i].value); }
      case _ =>
    }
  }

  /** `requestHashOf`, over any digest. */
  function HashOf<H>(digest: Text -> H, body: Json): H { digest(Stringify(Canonicalize(body))) }

  /** With an injective digest, one hash means one logical body: key order at any depth does not
      matter, and everything else does. */
  lemma SameHashIffSameMeaning<H>(digest: Text -> H, a: Json, b: Json)
    requires forall x: Text, y: Text | digest(x) == digest(y) :: x == y
    requires WellFormed(a) && WellFormed(b) && FiniteNumbers(a) && FiniteNumbers(b)
    ensures HashOf(digest, a) == HashOf(digest, b) <==> Meaning(a) == Meaning(b)
  {
    SameFormIffSameMeaning(a, b);
    CanonicalizeKeepsNumbers(a);
    CanonicalizeKeepsNumbers(b);
    if Stringify(Canonicalize(a)) == Stringify(Canonicalize(b)) {
      PrintingIsPrefixFree(Canonicalize(a), Canonicalize(b), [], []);
    }
  }
}
