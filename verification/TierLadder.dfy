/** Progressive tiers. Quantities are thousandths; a tier holds the quantities from its start up to,
    not including, its end, and an open tier all from its start. */
module TierLadder {
  import opened Outcomes

  type ServiceId = nat
  type Currency = string

  datatype Line = Line(service: ServiceId, price: int, currency: Currency, tierFrom: Option<int>, tierTo: Option<int>,
                       freeUnits: int, notes: Option<string>)

  predicate IsFlat(line: Line) { line.tierFrom == None && line.tierTo == None }

  predicate Inverted(line: Line)
    requires line.tierFrom.Some?
  {
    line.tierTo.Some? && line.tierTo.value <= line.tierFrom.value
  }

  predicate AllTiered(group: seq<Line>) { forall i | 0 <= i < |group| :: group[i].tierFrom.Some? }

  predicate DuplicateStart(group: seq<Line>) { exists i, j | 0 <= i < j < |group| :: group[i].tierFrom == group[j].tierFrom }

  // ---------------------------------------------------------------- the check

  function InsertByStart(line: Line, sorted: seq<Line>): (r: seq<Line>)
    requires line.tierFrom.Some? && AllTiered(sorted)
    ensures AllTiered(r) && multiset(r) == multiset(sorted) + multiset{line}
    decreases |sorted|
  {
    if sorted == [] || line.tierFrom.value <= sorted[0].tierFrom.value then [line] + sorted
    else
      assert sorted == [sorted[0]] + sorted[1..];
      [sorted[0]] + InsertByStart(line, sorted[1..])
  }

  /** `sort` by `tierFrom`. */
  function SortByStart(group: seq<Line>): (r: seq<Line>)
    requires AllTiered(group)
    ensures AllTiered(r) && multiset(r) == multiset(group)
    decreases |group|
  {
    if group == [] then []
    else
      assert group == [group[0]] + group[1..];
      InsertByStart(group[0], SortByStart(group[1..]))
  }

  /** The first tier starts at 0 and every tier but the last ends where the next one starts. */
  predicate Chained(sorted: seq<Line>)
    requires AllTiered(sorted)
  {
    && sorted != [] && sorted[0].tierFrom.value == 0
    && forall i | 0 <= i < |sorted| - 1 :: sorted[i].tierTo == Some(sorted[i + 1].tierFrom.value)
  }

  /** `validateGroup`: one flat line alone, or a ladder. */
  predicate GroupOk(group: seq<Line>) {
    if |group| == 1 && IsFlat(group[0]) then true
    else if exists i | 0 <= i < |group| :: IsFlat(group[i]) then false
    else if !AllTiered(group) then false
    else if DuplicateStart(group) then false
    else if exists i | 0 <= i < |group| :: Inverted(group[i]) then false
    else Chained(SortByStart(group))
  }

  function Group(lines: seq<Line>, service: ServiceId): seq<Line>
    decreases |lines|
  {
    if lines == [] then []
    else if lines[0].service == service then [lines[0]] + Group(lines[1..], service)
    else Group(lines[1..], service)
  }

  /** `validateTierLadder`: free units first, then each service's own lines. */
  predicate LadderOk(lines: seq<Line>) {
    && (forall i | 0 <= i < |lines| :: lines[i].freeUnits >= 0)
    && forall i | 0 <= i < |lines| :: GroupOk(Group(lines, lines[i].service))
  }

  // ---------------------------------------------------------------- what the check means

  predicate Holds(line: Line, quantity: int) {
    line.tierFrom.Some? && line.tierFrom.value <= quantity && (line.tierTo.Some? ==> quantity < line.tierTo.value)
  }

  predicate Priced(group: seq<Line>, quantity: int) { exists i | 0 <= i < |group| :: Holds(group[i], quantity) }

  predicate Below(limit: Option<int>, quantity: int) { 0 <= quantity && (limit.Some? ==> quantity < limit.value) }

  /** Exactly the quantities from 0 to the limit are priced … */
  ghost predicate Covers(group: seq<Line>, limit: Option<int>) {
    forall quantity: int :: Priced(group, quantity) <==> Below(limit, quantity)
  }

  /** … each by one tier only. */
  ghost predicate Disjoint(group: seq<Line>) {
    forall i, j, quantity: int | 0 <= i < j < |group| :: !(Holds(group[i], quantity) && Holds(group[j], quantity))
  }

  predicate ProperTiers(group: seq<Line>) {
    AllTiered(group) && forall i | 0 <= i < |group| :: !Inverted(group[i])
  }

  ghost predicate Partition(group: seq<Line>) {
    group != [] && ProperTiers(group) && Disjoint(group) && exists limit :: Covers(group, limit)
  }

  predicate Ascending(sorted: seq<Line>)
    requires AllTiered(sorted)
  {
    forall i, j | 0 <= i < j < |sorted| :: sorted[i].tierFrom.value <= sorted[j].tierFrom.value
  }

  lemma {:induction false} InsertAscends(line: Line, sorted: seq<Line>)
    requires line.tierFrom.Some? && AllTiered(sorted) && Ascending(sorted)
    ensures Ascending(InsertByStart(line, sorted))
    decreases |sorted|
  {
    if sorted != [] && line.tierFrom.value > sorted[0].tierFrom.value {
      var rest := InsertByStart(line, sorted[1..]);
      InsertAscends(line, sorted[1..]);
      forall i | 0 <= i < |rest| ensures sorted[0].tierFrom.value <= rest[i].tierFrom.value {
        assert rest[i] in multiset(rest);
        assert rest[i] == line || rest[i] in sorted[1..];
      }
    }
  }

  lemma {:induction false} SortAscends(group: seq<Line>)
    requires AllTiered(group)
    ensures Ascending(SortByStart(group))
    decreases |group|
  {
    if group != [] {
      SortAscends(group[1..]);
      InsertAscends(group[0], SortByStart(group[1..]));
    }
  }

  lemma SameElements(a: seq<Line>, b: seq<Line>)
    requires multiset(a) == multiset(b)
    ensures forall x :: x in a <==> x in b
  {
    forall x ensures x in a <==> x in b {
      assert x in a <==> x in multiset(a);
      assert x in b <==> x in multiset(b);
    }
  }

  lemma {:induction false} TwoOf(a: seq<Line>, x: Line)
    requires multiset(a)[x] >= 2
    ensures exists i, j :: 0 <= i < j < |a| && a[i] == x && a[j] == x
    decreases |a|
  {
    assert a == [a[0]] + a[1..];
    if a[0] == x {
      assert x in multiset(a[1..]);
      var j :| 0 <= j < |a[1..]| && a[1..][j] == x;
      assert a[0] == x && a[j + 1] == x;
    } else {
      TwoOf(a[1..], x);
      var i, j :| 0 <= i < j < |a[1..]| && a[1..][i] == x && a[1..][j] == x;
      assert a[i + 1] == x && a[j + 1] == x;
    }
  }

  lemma CountOf(a: seq<Line>, i: nat, j: nat)
    requires i < j < |a| && a[i] == a[j]
    ensures multiset(a)[a[i]] >= 2
  {
    assert a == a[..j] + [a[j]] + a[j + 1..];
    assert a[i] in a[..j];
  }

  lemma DisjointAt(group: seq<Line>, i: nat, j: nat, quantity: int)
    requires Disjoint(group) && i < |group| && j < |group| && i != j
    ensures !(Holds(group[i], quantity) && Holds(group[j], quantity))
  {
  }

  /** Being a partition does not depend on the order of the lines. */
  lemma DisjointPermutes(a: seq<Line>, b: seq<Line>)
    requires multiset(a) == multiset(b) && Disjoint(a)
    ensures Disjoint(b)
  {
    SameElements(a, b);
    forall i, j, quantity: int | 0 <= i < j < |b| ensures !(Holds(b[i], quantity) && Holds(b[j], quantity)) {
      assert b[i] in a && b[j] in a;
      var k, l: nat;
      if b[i] == b[j] {
        CountOf(b, i, j);
        TwoOf(a, b[i]);
        k, l :| 0 <= k < l < |a| && a[k] == b[i] && a[l] == b[i];
      } else {
        k :| 0 <= k < |a| && a[k] == b[i];
        l :| 0 <= l < |a| && a[l] == b[j];
      }
      DisjointAt(a, k, l, quantity);
    }
  }

  lemma PricedPermutes(a: seq<Line>, b: seq<Line>, quantity: int)
    requires multiset(a) == multiset(b) && Priced(a, quantity)
    ensures Priced(b, quantity)
  {
    SameElements(a, b);
    var i :| 0 <= i < |a| && Holds(a[i], quantity);
    assert a[i] in b;
  }

  lemma PartitionPermutes(a: seq<Line>, b: seq<Line>)
    requires multiset(a) == multiset(b) && Partition(a)
    ensures Partition(b)
  {
    SameElements(a, b);
    DisjointPermutes(a, b);
    assert |multiset(a)| == |a| && |multiset(b)| == |b|;
    forall i | 0 <= i < |b| ensures b[i].tierFrom.Some? && !Inverted(b[i]) {
      assert b[i] in a;
    }
    var limit :| Covers(a, limit);
    forall quantity: int ensures Priced(b, quantity) <==> Below(limit, quantity) {
      if Priced(a, quantity) { PricedPermutes(a, b, quantity); }
      if Priced(b, quantity) { PricedPermutes(b, a, quantity); }
    }
    assert Covers(b, limit);
  }

  /** The end of the chain after its first n tiers. */
  function EndOf(sorted: seq<Line>, n: nat): Option<int>
    requires 0 < n <= |sorted|
  {
    sorted[n - 1].tierTo
  }

  lemma {:induction false} ChainCovers(sorted: seq<Line>, n: nat)
    requires ProperTiers(sorted) && Chained(sorted) && 0 < n <= |sorted|
    ensures Covers(sorted[..n], EndOf(sorted, n))
    decreases n
  {
    if n == 1 {
      forall quantity: int ensures Priced(sorted[..1], quantity) <==> Below(EndOf(sorted, 1), quantity) {
        assert sorted[..1][0] == sorted[0];
      }
    } else {
      ChainCovers(sorted, n - 1);
      var last := sorted[n - 1];
      assert sorted[n - 2].tierTo == Some(last.tierFrom.value);
      forall quantity: int ensures Priced(sorted[..n], quantity) <==> Below(EndOf(sorted, n), quantity) {
        assert sorted[..n][n - 1] == last;
        assert Priced(sorted[..n], quantity) <==> Priced(sorted[..n - 1], quantity) || Holds(last, quantity) by {
          assert forall i | 0 <= i < n - 1 :: sorted[..n][i] == sorted[..n - 1][i];
        }
        ChainReaches(sorted, n - 1);
      }
    }
  }

  /** The chain never goes below where it started. */
  lemma {:induction false} ChainReaches(sorted: seq<Line>, n: nat)
    requires ProperTiers(sorted) && Chained(sorted) && n < |sorted|
    ensures sorted[n].tierFrom.value >= 0
    decreases n
  {
    if n > 0 {
      ChainReaches(sorted, n - 1);
      assert sorted[n - 1].tierTo == Some(sorted[n].tierFrom.value);
    }
  }

  lemma ChainIsDisjoint(sorted: seq<Line>)
    requires ProperTiers(sorted) && Chained(sorted) && Ascending(sorted)
    ensures Disjoint(sorted)
  {
    forall i, j, quantity: int | 0 <= i < j < |sorted| ensures !(Holds(sorted[i], quantity) && Holds(sorted[j], quantity)) {
      assert sorted[i].tierTo == Some(sorted[i + 1].tierFrom.value);
      assert sorted[i + 1].tierFrom.value <= sorted[j].tierFrom.value;
    }
  }

  lemma LadderPartitions(group: seq<Line>)
    requires AllTiered(group) && GroupOk(group)
    ensures Partition(group)
  {
    var sorted := SortByStart(group);
    SortAscends(group);
    SameElements(group, sorted);
    forall i | 0 <= i < |sorted| ensures !Inverted(sorted[i]) {
      assert sorted[i] in group;
    }
    ChainIsDisjoint(sorted);
    ChainCovers(sorted, |sorted|);
    assert sorted[..|sorted|] == sorted;
    PartitionPermutes(sorted, group);
  }

  lemma PartitionStartsApart(group: seq<Line>)
    requires Partition(group)
    ensures !DuplicateStart(group)
  {
    forall i, j | 0 <= i < j < |group| ensures group[i].tierFrom != group[j].tierFrom {
      DisjointAt(group, i, j, group[i].tierFrom.value);
      assert Holds(group[i], group[i].tierFrom.value);
    }
  }

  lemma FirstStartsAtZero(sorted: seq<Line>)
    requires Partition(sorted) && Ascending(sorted)
    ensures sorted[0].tierFrom.value == 0
  {
    var limit :| Covers(sorted, limit);
    var start := sorted[0].tierFrom.value;
    assert Holds(sorted[0], start) && Priced(sorted, start) && Below(limit, start);
    assert Below(limit, 0) && Priced(sorted, 0);
    var i :| 0 <= i < |sorted| && Holds(sorted[i], 0);
    assert start <= sorted[i].tierFrom.value;
  }

  /** Between the starts of two neighbours, only the first of them can hold a quantity … */
  lemma OnlyHolder(sorted: seq<Line>, i: nat, k: nat, quantity: int)
    requires Partition(sorted) && Ascending(sorted) && i + 1 < |sorted| && k < |sorted| && k != i
    requires sorted[i].tierFrom.value <= quantity < sorted[i + 1].tierFrom.value
    ensures !Holds(sorted[k], quantity)
  {
    if k < i {
      DisjointAt(sorted, k, i, sorted[i].tierFrom.value);
      assert Holds(sorted[i], sorted[i].tierFrom.value);
    }
  }

  /** … and does. */
  lemma NoGap(sorted: seq<Line>, i: nat, quantity: int)
    requires Partition(sorted) && Ascending(sorted) && i + 1 < |sorted|
    requires sorted[i].tierFrom.value <= quantity < sorted[i + 1].tierFrom.value
    ensures Holds(sorted[i], quantity)
  {
    var limit :| Covers(sorted, limit);
    var first, next := sorted[i].tierFrom.value, sorted[i + 1].tierFrom.value;
    assert Holds(sorted[i], first) && Priced(sorted, first) && Below(limit, first);
    assert Holds(sorted[i + 1], next) && Priced(sorted, next) && Below(limit, next);
    assert Below(limit, quantity) && Priced(sorted, quantity);
    forall k: nat | k < |sorted| && k != i ensures !Holds(sorted[k], quantity) {
      OnlyHolder(sorted, i, k, quantity);
    }
  }

  lemma NextStartsAtEnd(sorted: seq<Line>, i: nat)
    requires Partition(sorted) && Ascending(sorted) && i + 1 < |sorted|
    ensures sorted[i].tierTo == Some(sorted[i + 1].tierFrom.value)
  {
    var start := sorted[i + 1].tierFrom.value;
    DisjointAt(sorted, i, i + 1, start);
    assert Holds(sorted[i + 1], start) && !Holds(sorted[i], start);
    NoGap(sorted, i, start - 1);
  }

  lemma PartitionIsLadder(group: seq<Line>)
    requires Partition(group)
    ensures GroupOk(group)
  {
    var sorted := SortByStart(group);
    SortAscends(group);
    PartitionPermutes(group, sorted);
    PartitionStartsApart(group);
    FirstStartsAtZero(sorted);
    forall i | 0 <= i < |sorted| - 1 ensures sorted[i].tierTo == Some(sorted[i + 1].tierFrom.value) {
      NextStartsAtEnd(sorted, i);
    }
  }

  /** A group of tiers passes the check exactly when it prices every quantity from 0 up to some limit,
      or every quantity, by one tier and no other quantity at all. */
  lemma LadderIsPartition(group: seq<Line>)
    ensures GroupOk(group) <==> (|group| == 1 && IsFlat(group[0])) || Partition(group)
  {
    if Partition(group) { PartitionIsLadder(group); }
    if GroupOk(group) && AllTiered(group) { LadderPartitions(group); }
  }

  /** And so the order of the lines does not matter. */
  lemma GroupOkPermutes(a: seq<Line>, b: seq<Line>)
    requires multiset(a) == multiset(b) && GroupOk(a)
    ensures GroupOk(b)
  {
    LadderIsPartition(a);
    LadderIsPartition(b);
    if |a| == 1 && IsFlat(a[0]) {
      SameElements(a, b);
      assert |multiset(b)| == |b|;
      assert b[0] in a;
    } else {
      PartitionPermutes(a, b);
    }
  }
}
