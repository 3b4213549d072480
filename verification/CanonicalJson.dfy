/** Request bodies and their canonical form. JavaScript strings are sequences of UTF-16 code units,
    objects are lists of distinct keys in insertion order, and a number is its printed form. */
module CanonicalJson {

  type CodeUnit = u: nat | u < 0x1_0000

  type Text = seq<CodeUnit>

  datatype Field = Field(key: Text, value: Json)

  datatype Json =
    | Null
    | Bool(b: bool)
    | Num(token: Text)
    | Str(text: Text)
    | Arr(items: seq<Json>)
    | Obj(fields: seq<Field>)

  function KeysOf(fields: seq<Field>): seq<Text> {
    seq(|fields|, i requires 0 <= i < |fields| => fields[i].key)
  }

  predicate Distinct(keys: seq<Text>) {
    forall i, j | 0 <= i < j < |keys| :: keys[i] != keys[j]
  }

  /** A value JavaScript can hold: no object has the same key twice. */
  predicate WellFormed(j: Json) {
    match j
    case Arr(items) => forall i | 0 <= i < |items| :: WellFormed(items[i])
    case Obj(fields) => Distinct(KeysOf(fields)) && forall i | 0 <= i < |fields| :: WellFormed(fields[i].value)
    case _ => true
  }

  /** What a value means: an object is an unordered collection of members (section 4 of RFC 8259). */
  datatype Value =
    | VNull
    | VBool(b: bool)
    | VNum(token: Text)
    | VStr(text: Text)
    | VArr(items: seq<Value>)
    | VObj(members: map<Text, Value>)

  function IndexOf(fields: seq<Field>, key: Text): (i: nat)
    requires key in KeysOf(fields)
    ensures i < |fields| && fields[i].key == key
    decreases |fields|
  {
    if fields[0].key == key then 0 else
      assert key in KeysOf(fields[1..]) by {
        var i :| 0 <= i < |fields| && KeysOf(fields)[i] == key;
        assert KeysOf(fields[1..])[i - 1] == key;
      }
      1 + IndexOf(fields[1..], key)
  }

  function Meaning(j: Json): Value {
    match j
    case Null => VNull
    case Bool(b) => VBool(b)
    case Num(token) => VNum(token)
    case Str(text) => VStr(text)
    case Arr(items) => VArr(seq(|items|, i requires 0 <= i < |items| => Meaning(items[i])))
    case Obj(fields) => VObj(map key | key in KeysOf(fields) :: Meaning(fields[IndexOf(fields, key)].value))
  }

  // ---------------------------------------------------------------- sorting keys

  /** The order of `Array.prototype.sort` on strings: by code units. */
  predicate LessEq(a: Text, b: Text)
    decreases |a|
  {
    a == [] || (b != [] && (a[0] < b[0] || (a[0] == b[0] && LessEq(a[1..], b[1..]))))
  }

  lemma {:induction false} LessEqTotal(a: Text, b: Text)
    ensures LessEq(a, b) || LessEq(b, a)
    ensures LessEq(a, b) && LessEq(b, a) ==> a == b
    decreases |a|
  {
    if a != [] && b != [] {
      LessEqTotal(a[1..], b[1..]);
      assert a == [a[0]] + a[1..] && b == [b[0]] + b[1..];
    }
  }

  lemma {:induction false} LessEqTransitive(a: Text, b: Text, c: Text)
    requires LessEq(a, b) && LessEq(b, c)
    ensures LessEq(a, c)
    decreases |a|
  {
    if a != [] && a[0] == b[0] == c[0] {
      LessEqTransitive(a[1..], b[1..], c[1..]);
    }
  }

  predicate Sorted(keys: seq<Text>) {
    forall i, j | 0 <= i < j < |keys| :: LessEq(keys[i], keys[j])
  }

  function Insert(key: Text, keys: seq<Text>): (r: seq<Text>)
    decreases |keys|
  {
    if keys == [] || LessEq(key, keys[0]) then [key] + keys else [keys[0]] + Insert(key, keys[1..])
  }

  function Sort(keys: seq<Text>): (r: seq<Text>)
    ensures multiset(r) == multiset(keys)
    decreases |keys|
  {
    if keys == [] then []
    else
      InsertAdds(keys[0], Sort(keys[1..]));
      assert keys == [keys[0]] + keys[1..];
      Insert(keys[0], Sort(keys[1..]))
  }

  lemma {:induction false} InsertAdds(key: Text, keys: seq<Text>)
    ensures multiset(Insert(key, keys)) == multiset(keys) + multiset{key}
    decreases |keys|
  {
    if !(keys == [] || LessEq(key, keys[0])) {
      InsertAdds(key, keys[1..]);
      assert keys == [keys[0]] + keys[1..];
    }
  }

  lemma {:induction false} InsertSorts(key: Text, keys: seq<Text>)
    requires Sorted(keys)
    ensures Sorted(Insert(key, keys))
    decreases |keys|
  {
    if keys == [] {
    } else if LessEq(key, keys[0]) {
      forall i, j | 0 <= i < j < |keys| + 1 ensures LessEq(([key] + keys)[i], ([key] + keys)[j]) {
        if i == 0 && j > 1 { LessEqTransitive(key, keys[0], keys[j - 1]); }
      }
    } else {
      var rest := Insert(key, keys[1..]);
      InsertSorts(key, keys[1..]);
      InsertAdds(key, keys[1..]);
      LessEqTotal(key, keys[0]);
      forall i | 0 <= i < |rest| ensures LessEq(keys[0], rest[i]) {
        assert rest[i] in multiset(rest);
        assert rest[i] == key || rest[i] in keys[1..];
      }
    }
  }

  lemma {:induction false} SortSorts(keys: seq<Text>)
    ensures Sorted(Sort(keys))
    decreases |keys|
  {
    if keys != [] {
      SortSorts(keys[1..]);
      InsertSorts(keys[0], Sort(keys[1..]));
    }
  }

  lemma SameFirst(a: seq<Text>, b: seq<Text>)
    requires Sorted(a) && Sorted(b) && multiset(a) == multiset(b) && a != [] && b != []
    ensures a[0] == b[0]
  {
    assert a[0] in multiset(b) && b[0] in multiset(a);
    var i :| 0 <= i < |b| && b[i] == a[0];
    var j :| 0 <= j < |a| && a[j] == b[0];
    LessEqTotal(a[0], b[0]);
  }

  /** A sorted list is determined by what it holds. */
  lemma {:induction false} SortedIsUnique(a: seq<Text>, b: seq<Text>)
    requires Sorted(a) && Sorted(b) && multiset(a) == multiset(b)
    ensures a == b
    decreases |a|
  {
    assert |multiset(a)| == |a| && |multiset(b)| == |b|;
    if a != [] {
      SameFirst(a, b);
      assert a == [a[0]] + a[1..] && b == [b[0]] + b[1..];
      assert multiset(a[1..]) == multiset(a) - multiset{a[0]};
      assert multiset(b[1..]) == multiset(b) - multiset{b[0]};
      SortedIsUnique(a[1..], b[1..]);
    }
  }

  lemma SameBag(a: seq<Text>, b: seq<Text>)
    requires Distinct(a) && Distinct(b) && (forall k :: k in a <==> k in b)
    ensures multiset(a) == multiset(b)
  {
    forall k ensures multiset(a)[k] == multiset(b)[k] {
      CountOnce(a, k);
      CountOnce(b, k);
    }
  }

  lemma {:induction false} CountOnce(a: seq<Text>, k: Text)
    requires Distinct(a)
    ensures multiset(a)[k] == if k in a then 1 else 0
    decreases |a|
  {
    if a != [] {
      assert a == [a[0]] + a[1..];
      CountOnce(a[1..], k);
    }
  }

  /** Sorting distinct keys: distinct, and a function of the set of keys. */
  lemma SortOfSet(a: seq<Text>, b: seq<Text>)
    requires Distinct(a) && Distinct(b) && (forall k :: k in a <==> k in b)
    ensures Sort(a) == Sort(b)
  {
    SameBag(a, b);
    SortSorts(a);
    SortSorts(b);
    SortedIsUnique(Sort(a), Sort(b));
  }

  lemma SortKeepsKeys(a: seq<Text>)
    requires Distinct(a)
    ensures Distinct(Sort(a)) && forall k :: k in Sort(a) <==> k in a
  {
    var r := Sort(a);
    forall k ensures k in r <==> k in a {
      assert k in r <==> k in multiset(r);
      assert k in a <==> k in multiset(a);
    }
    forall i, j | 0 <= i < j < |r| ensures r[i] != r[j] {
      CountOnce(a, r[i]);
      if r[i] == r[j] { CountTwice(r, i, j); }
    }
  }

  lemma CountTwice(a: seq<Text>, i: nat, j: nat)
    requires i < j < |a| && a[i] == a[j]
    ensures multiset(a)[a[i]] >= 2
  {
    assert a == a[..j] + [a[j]] + a[j + 1..];
    assert a[i] in a[..j];
  }

  // ---------------------------------------------------------------- the canonical form

  function SortedKeys(fields: seq<Field>): (r: seq<Text>)
    ensures |r| == |fields|
    ensures forall i | 0 <= i < |r| :: r[i] in KeysOf(fields)
  {
    var r := Sort(KeysOf(fields));
    assert |multiset(r)| == |r| && |multiset(KeysOf(fields))| == |KeysOf(fields)|;
    assert forall i | 0 <= i < |r| :: r[i] in multiset(r);
    r
  }

  /** `canonicalize`: keys sorted at every depth, arrays in order. */
  function Canonicalize(j: Json): Json {
    match j
    case Arr(items) => Arr(seq(|items|, i requires 0 <= i < |items| => Canonicalize(items[i])))
    case Obj(fields) =>
      var keys := SortedKeys(fields);
      Obj(seq(|keys|, i requires 0 <= i < |keys| => Field(keys[i], Canonicalize(fields[IndexOf(fields, keys[i])].value))))
    case _ => j
  }

  /** The code as it runs: an object is rebuilt by assigning its sorted keys one after another. */
  method CanonicalizeInOrder(j: Json) returns (r: Json)
    ensures r == Canonicalize(j)
    decreases j
  {
    match j {
      case Arr(items) =>
        var mapped: seq<Json> := [];
        for i := 0 to |items|
          invariant |mapped| == i && forall k | 0 <= k < i :: mapped[k] == Canonicalize(items[k])
        {
          var item := CanonicalizeInOrder(items[i]);
          mapped := mapped + [item];
        }
        return Arr(mapped);
      case Obj(fields) =>
        var keys := SortedKeys(fields);
        var sorted: seq<Field> := [];
        for i := 0 to |keys|
          invariant |sorted| == i
          invariant forall k | 0 <= k < i ::
            sorted[k] == Field(keys[k], Canonicalize(fields[IndexOf(fields, keys[k])].value))
        {
          var value := CanonicalizeInOrder(fields[IndexOf(fields, keys[i])].value);
          sorted := sorted + [Field(keys[i], value)];
        }
        return Obj(sorted);
      case _ =>
        return j;
    }
  }

  function CanonicalFields(fields: seq<Field>): seq<Field> { Canonicalize(Obj(fields)).fields }

  /** The sorted members are the members: same keys, and under each key its canonical value. */
  lemma CanonicalMembers(fields: seq<Field>)
    requires Distinct(KeysOf(fields))
    ensures var canon := CanonicalFields(fields);
            && Distinct(KeysOf(canon)) && KeysOf(canon) == SortedKeys(fields)
            && (forall key :: key in KeysOf(canon) <==> key in KeysOf(fields))
            && forall key | key in KeysOf(fields) ::
                 canon[IndexOf(canon, key)].value == Canonicalize(fields[IndexOf(fields, key)].value)
  {
    var canon := CanonicalFields(fields);
    SortKeepsKeys(KeysOf(fields));
    assert KeysOf(canon) == SortedKeys(fields);
    forall key | key in KeysOf(fields)
      ensures canon[IndexOf(canon, key)].value == Canonicalize(fields[IndexOf(fields, key)].value)
    {
      assert canon[IndexOf(canon, key)].key == SortedKeys(fields)[IndexOf(canon, key)];
    }
  }

  lemma MembersKeepMeaning(fields: seq<Field>)
    requires Distinct(KeysOf(fields))
    requires forall i | 0 <= i < |fields| :: Meaning(Canonicalize(fields[i].value)) == Meaning(fields[i].value)
    ensures Meaning(Obj(CanonicalFields(fields))) == Meaning(Obj(fields))
  {
    CanonicalMembers(fields);
  }

  lemma MembersStayWellFormed(fields: seq<Field>)
    requires Distinct(KeysOf(fields))
    requires forall i | 0 <= i < |fields| :: WellFormed(Canonicalize(fields[i].value))
    ensures WellFormed(Obj(CanonicalFields(fields)))
  {
    CanonicalMembers(fields);
  }

  /** Canonicalizing changes the order of keys and nothing a reader of the value can see. */
  lemma {:induction false} CanonicalizeKeepsMeaning(j: Json)
    requires WellFormed(j)
    ensures WellFormed(Canonicalize(j)) && Meaning(Canonicalize(j)) == Meaning(j)
    decreases j
  {
    match j {
      case Arr(items) =>
        forall i | 0 <= i < |items| ensures WellFormed(Canonicalize(items[i])) && Meaning(Canonicalize(items[i])) == Meaning(items[i]) {
          CanonicalizeKeepsMeaning(items[i]);
        }
      case Obj(fields) =>
        forall i | 0 <= i < |fields|
          ensures WellFormed(Canonicalize(fields[i].value)) && Meaning(Canonicalize(fields[i].value)) == Meaning(fields[i].value)
        {
          CanonicalizeKeepsMeaning(fields[i].value);
        }
        MembersKeepMeaning(fields);
        MembersStayWellFormed(fields);
        assert Canonicalize(j) == Obj(CanonicalFields(fields));
      case _ =>
    }
  }

  function CanonicalAt(fields: seq<Field>, key: Text): Json
    requires key in KeysOf(fields)
  {
    Canonicalize(fields[IndexOf(fields, key)].value)
  }

  lemma CanonicalFieldsAre(fields: seq<Field>)
    ensures |CanonicalFields(fields)| == |SortedKeys(fields)|
    ensures forall i | 0 <= i < |SortedKeys(fields)| ::
              CanonicalFields(fields)[i] == Field(SortedKeys(fields)[i], CanonicalAt(fields, SortedKeys(fields)[i]))
  {
  }

  /** Objects with the same keys and, under each key, values of one canonical form. */
  lemma SameMembersSameForm(xs: seq<Field>, ys: seq<Field>)
    requires Distinct(KeysOf(xs)) && Distinct(KeysOf(ys)) && (forall k :: k in KeysOf(xs) <==> k in KeysOf(ys))
    requires forall k | k in KeysOf(xs) :: CanonicalAt(xs, k) == CanonicalAt(ys, k)
    ensures CanonicalFields(xs) == CanonicalFields(ys)
  {
    SortOfSet(KeysOf(xs), KeysOf(ys));
    CanonicalFieldsAre(xs);
    CanonicalFieldsAre(ys);
    var keys := SortedKeys(xs);
    assert SortedKeys(ys) == keys;
    assert forall i | 0 <= i < |keys| :: keys[i] in KeysOf(xs);
  }

  /** Values that mean the same have the same canonical form. */
  lemma {:induction false} SameMeaningSameForm(a: Json, b: Json)
    requires WellFormed(a) && WellFormed(b) && Meaning(a) == Meaning(b)
    ensures Canonicalize(a) == Canonicalize(b)
    decreases a
  {
    match (a, b) {
      case (Arr(xs), Arr(ys)) =>
        assert |xs| == |Meaning(a).items| == |Meaning(b).items| == |ys|;
        forall i | 0 <= i < |xs| ensures Canonicalize(xs[i]) == Canonicalize(ys[i]) {
          assert Meaning(a).items[i] == Meaning(b).items[i];
          SameMeaningSameForm(xs[i], ys[i]);
        }
      case (Obj(xs), Obj(ys)) =>
        forall k ensures k in KeysOf(xs) <==> k in KeysOf(ys) {
          assert k in Meaning(a).members <==> k in Meaning(b).members;
        }
        forall k | k in KeysOf(xs) ensures CanonicalAt(xs, k) == CanonicalAt(ys, k) {
          assert Meaning(a).members[k] == Meaning(b).members[k];
          SameMeaningSameForm(xs[IndexOf(xs, k)].value, ys[IndexOf(ys, k)].value);
        }
        SameMembersSameForm(xs, ys);
        assert Canonicalize(a) == Obj(CanonicalFields(xs)) && Canonicalize(b) == Obj(CanonicalFields(ys));
      case _ =>
    }
  }

  /** Two bodies have one canonical form exactly when they differ by key order only, at any depth. */
  lemma SameFormIffSameMeaning(a: Json, b: Json)
    requires WellFormed(a) && WellFormed(b)
    ensures Canonicalize(a) == Canonicalize(b) <==> Meaning(a) == Meaning(b)
  {
    CanonicalizeKeepsMeaning(a);
    CanonicalizeKeepsMeaning(b);
    if Meaning(a) == Meaning(b) { SameMeaningSameForm(a, b); }
  }

  lemma CanonicalizeTwice(j: Json)
    requires WellFormed(j)
    ensures Canonicalize(Canonicalize(j)) == Canonicalize(j)
  {
    CanonicalizeKeepsMeaning(j);
    SameMeaningSameForm(Canonicalize(j), j);
  }
}
