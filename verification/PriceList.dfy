/** Price lists: the two commands that write lines, over a list whose row is locked for the whole of a
    command, so that runs are sequences of commands. Services are what a command reads of them; their
    floors may change between commands. */
module PriceList {
  import opened Outcomes
  import opened TierLadder

  type Code = string

  /** An active service. */
  datatype Service = Service(id: ServiceId, minPrice: Option<int>)

  datatype Status = Draft | Active | Expired

  datatype Row = Row(code: Code, price: int, currency: Currency, tierFrom: Option<int>, tierTo: Option<int>,
                     freeUnits: Option<int>, notes: Option<string>)

  /** A line together with the floor it was checked against. */
  datatype Written = Written(line: Line, floor: int)

  datatype List = List(status: Status, version: nat, lines: seq<Line>, written: seq<Written>)

  datatype Error =
    | StaleVersion | RoleRequired | PriceListLocked | EmptyPriceList | IllegalTransition
    | ServiceNotFound(row: nat) | ServiceNotPriceable(row: nat) | PriceBelowFloor(row: nat) | CurrencyMismatch(row: nat)
    | TierLadderBroken

  const DEFAULT_FREE_UNITS: int := 0

  predicate SameTier(a: Line, b: Line) { a.service == b.service && a.tierFrom == b.tierFrom }

  // ---------------------------------------------------------------- rows

  function LineOf(service: ServiceId, row: Row): Line {
    Line(service, row.price, row.currency, row.tierFrom, row.tierTo,
         if row.freeUnits.Some? then row.freeUnits.value else DEFAULT_FREE_UNITS, row.notes)
  }

  /** One row against the services and the currency settled so far. */
  function ResolveRow(services: map<Code, Service>, row: Row, currency: Option<Currency>, index: nat): Result<Written, Error> {
    if row.code !in services then Err(ServiceNotFound(index))
    else match services[row.code].minPrice
      case None => Err(ServiceNotPriceable(index))
      case Some(floor) =>
        if row.price < floor then Err(PriceBelowFloor(index))
        else if currency.Some? && currency.value != row.currency then Err(CurrencyMismatch(index))
        else Ok(Written(LineOf(services[row.code].id, row), floor))
  }

  /** The first n rows, each against the currency its predecessors settled. */
  function ResolveRows(services: map<Code, Service>, rows: seq<Row>, currency: Option<Currency>, n: nat): (r: Result<seq<Written>, Error>)
    requires n <= |rows|
    ensures r.Ok? ==> |r.value| == n
    decreases n
  {
    if n == 0 then Ok([])
    else match ResolveRows(services, rows, currency, n - 1)
      case Err(e) => Err(e)
      case Ok(before) =>
        match ResolveRow(services, rows[n - 1], Settled(before, currency), n - 1)
        case Err(e) => Err(e)
        case Ok(next) => Ok(before + [next])
  }

  function Settled(resolved: seq<Written>, currency: Option<Currency>): Option<Currency> {
    if currency.Some? || resolved == [] then currency else Some(resolved[0].line.currency)
  }

  function LinesOf(written: seq<Written>): seq<Line> {
    seq(|written|, i requires 0 <= i < |written| => written[i].line)
  }

  /** `getAnyLineCurrency`. */
  function AnyCurrency(lines: seq<Line>): Option<Currency> { if lines == [] then None else Some(lines[0].currency) }

  // ---------------------------------------------------------------- lines

  predicate Replaced(line: Line, news: seq<Line>) { exists i | 0 <= i < |news| :: SameTier(line, news[i]) }

  function Kept(lines: seq<Line>, news: seq<Line>): seq<Line>
    decreases |lines|
  {
    if lines == [] then []
    else if Replaced(lines[0], news) then Kept(lines[1..], news)
    else [lines[0]] + Kept(lines[1..], news)
  }

  predicate HasTier(lines: seq<Line>, line: Line) { exists i | 0 <= i < |lines| :: SameTier(lines[i], line) }

  /** `upsertLine`: the line of that service and tier start replaced where it stands, or a new one. */
  function Put(lines: seq<Line>, line: Line): seq<Line> {
    if HasTier(lines, line) then seq(|lines|, i requires 0 <= i < |lines| => if SameTier(lines[i], line) then line else lines[i])
    else lines + [line]
  }

  function PutAll(lines: seq<Line>, news: seq<Line>): seq<Line>
    decreases |news|
  {
    if news == [] then lines else Put(PutAll(lines, news[..|news| - 1]), news[|news| - 1])
  }

  // ---------------------------------------------------------------- commands

  /** What an upsert checks: the service's other lines and the new one. */
  function Checked(lines: seq<Line>, line: Line): seq<Line> { Kept(Group(lines, line.service), [line]) + [line] }

  function Writable(list: List, expectedVersion: int, hasRole: bool): Option<Error> {
    if list.version != expectedVersion then Some(StaleVersion)
    else if !hasRole then Some(RoleRequired)
    else if !list.status.Draft? then Some(PriceListLocked)
    else None
  }

  /** `importPriceListLines`. */
  function Import(list: List, rows: seq<Row>, expectedVersion: int, hasRole: bool, services: map<Code, Service>): Result<List, Error> {
    match Writable(list, expectedVersion, hasRole)
    case Some(e) => Err(e)
    case None =>
      match ResolveRows(services, rows, AnyCurrency(list.lines), |rows|)
      case Err(e) => Err(e)
      case Ok(resolved) =>
        var news := LinesOf(resolved);
        if !LadderOk(Kept(list.lines, news) + news) then Err(TierLadderBroken)
        else Ok(List(list.status, list.version + 1, PutAll(list.lines, news), list.written + resolved))
  }

  /** `upsertPriceListLine`, whose ladder check looks at the touched service only. */
  function Upsert(list: List, row: Row, expectedVersion: int, hasRole: bool, services: map<Code, Service>): Result<List, Error> {
    match Writable(list, expectedVersion, hasRole)
    case Some(e) => Err(e)
    case None =>
      match ResolveRow(services, row, AnyCurrency(list.lines), 0)
      case Err(e) => Err(e)
      case Ok(resolved) =>
        var line := resolved.line;
        if !LadderOk(Checked(list.lines, line)) then Err(TierLadderBroken)
        else Ok(List(list.status, list.version + 1, Put(list.lines, line), list.written + [resolved]))
  }

  /** `activatePriceList`. */
  function Activate(list: List, expectedVersion: int, hasRole: bool): Result<List, Error> {
    if list.version != expectedVersion then Err(StaleVersion)
    else if !hasRole then Err(RoleRequired)
    else if list.lines == [] then Err(EmptyPriceList)
    else if !LadderOk(list.lines) then Err(TierLadderBroken)
    else if !list.status.Draft? then Err(IllegalTransition)
    else Ok(list.(status := Active, version := list.version + 1))
  }

  datatype Command =
    | ImportLines(rows: seq<Row>, expectedVersion: int, hasRole: bool, services: map<Code, Service>)
    | UpsertLine(row: Row, expectedVersion: int, hasRole: bool, services: map<Code, Service>)
    | ActivateList(expectedVersion: int, hasRole: bool)

  function Apply(list: List, command: Command): Result<List, Error> {
    match command
    case ImportLines(rows, v, hasRole, services) => Import(list, rows, v, hasRole, services)
    case UpsertLine(row, v, hasRole, services) => Upsert(list, row, v, hasRole, services)
    case ActivateList(v, hasRole) => Activate(list, v, hasRole)
  }

  /** A refused command writes nothing. */
  function Run(list: List, commands: seq<Command>): List
    decreases |commands|
  {
    if commands == [] then list
    else Run(match Apply(list, commands[0]) case Ok(next) => next case Err(_) => list, commands[1..])
  }

  const EMPTY: List := List(Draft, 1, [], [])

  // ---------------------------------------------------------------- tiers are distinct in a valid list

  predicate DistinctTiers(lines: seq<Line>) { forall i, j | 0 <= i < j < |lines| :: !SameTier(lines[i], lines[j]) }

  lemma {:induction false} GroupMembers(lines: seq<Line>, service: ServiceId)
    ensures forall x :: x in Group(lines, service) <==> x in lines && x.service == service
    ensures multiset(Group(lines, service)) <= multiset(lines)
    decreases |lines|
  {
    if lines != [] {
      GroupMembers(lines[1..], service);
      assert lines == [lines[0]] + lines[1..];
    }
  }

  lemma {:induction false} GroupCounts(lines: seq<Line>, service: ServiceId, x: Line)
    ensures multiset(Group(lines, service))[x] == if x.service == service then multiset(lines)[x] else 0
    decreases |lines|
  {
    if lines != [] {
      GroupCounts(lines[1..], service, x);
      assert lines == [lines[0]] + lines[1..];
    }
  }

  lemma GroupPermutes(a: seq<Line>, b: seq<Line>, service: ServiceId)
    requires multiset(a) == multiset(b)
    ensures multiset(Group(a, service)) == multiset(Group(b, service))
  {
    forall x ensures multiset(Group(a, service))[x] == multiset(Group(b, service))[x] {
      GroupCounts(a, service, x);
      GroupCounts(b, service, x);
    }
  }

  /** The whole check does not depend on the order of the lines. */
  lemma LadderOkPermutes(a: seq<Line>, b: seq<Line>)
    requires multiset(a) == multiset(b) && LadderOk(a)
    ensures LadderOk(b)
  {
    SameElements(a, b);
    forall i | 0 <= i < |b| ensures b[i].freeUnits >= 0 && GroupOk(Group(b, b[i].service)) {
      assert b[i] in a;
      var k :| 0 <= k < |a| && a[k] == b[i];
      GroupPermutes(a, b, b[i].service);
      GroupOkPermutes(Group(a, a[k].service), Group(b, b[i].service));
    }
  }

  predicate InOrder(group: seq<Line>, x: Line, y: Line) {
    exists k, l :: 0 <= k < l < |group| && group[k] == x && group[l] == y
  }

  lemma {:induction false} PairInGroup(lines: seq<Line>, i: nat, j: nat)
    requires i < j < |lines| && lines[i].service == lines[j].service
    ensures InOrder(Group(lines, lines[i].service), lines[i], lines[j])
    decreases |lines|
  {
    var service, rest := lines[i].service, lines[1..];
    var group, sub := Group(lines, service), Group(rest, service);
    if i > 0 {
      PairInGroup(rest, i - 1, j - 1);
      var k, l :| 0 <= k < l < |sub| && sub[k] == lines[i] && sub[l] == lines[j];
      if lines[0].service == service {
        assert group[k + 1] == sub[k] && group[l + 1] == sub[l];
      }
    } else {
      GroupMembers(rest, service);
      assert rest[j - 1] == lines[j];
      var l :| 0 <= l < |sub| && sub[l] == lines[j];
      assert group[0] == lines[0] && group[l + 1] == lines[j];
    }
  }

  lemma ValidGroupIsDistinct(group: seq<Line>, k: nat, l: nat)
    requires GroupOk(group) && k < l < |group|
    ensures group[k].tierFrom != group[l].tierFrom
  {
  }

  /** No two lines of a valid list share a service and a tier start: the check itself rejects
      duplicates. */
  lemma ValidIsDistinct(lines: seq<Line>)
    requires LadderOk(lines)
    ensures DistinctTiers(lines)
  {
    forall i, j | 0 <= i < j < |lines| ensures !SameTier(lines[i], lines[j]) {
      if lines[i].service == lines[j].service {
        PairInGroup(lines, i, j);
        var group := Group(lines, lines[i].service);
        var k, l :| 0 <= k < l < |group| && group[k] == lines[i] && group[l] == lines[j];
        ValidGroupIsDistinct(group, k, l);
      }
    }
  }

  // ---------------------------------------------------------------- the write loop stores what was validated

  lemma {:induction false} KeptCounts(lines: seq<Line>, news: seq<Line>, x: Line)
    ensures multiset(Kept(lines, news))[x] == if Replaced(x, news) then 0 else multiset(lines)[x]
    decreases |lines|
  {
    if lines != [] {
      KeptCounts(lines[1..], news, x);
      assert lines == [lines[0]] + lines[1..];
    }
  }

  /** Of a tier that a list with distinct tiers has, it has that one line. */
  lemma TierCount(lines: seq<Line>, i: nat, x: Line)
    requires DistinctTiers(lines) && i < |lines| && SameTier(lines[i], x)
    ensures multiset(lines)[x] == if x == lines[i] then 1 else 0
  {
    if x in lines {
      var j :| 0 <= j < |lines| && lines[j] == x;
      assert j == i;
    }
    if multiset(lines)[x] >= 2 {
      TwoOf(lines, x);
    }
  }

  lemma PutCounts(lines: seq<Line>, line: Line, x: Line)
    requires DistinctTiers(lines)
    ensures multiset(Put(lines, line))[x] == (if SameTier(x, line) then 0 else multiset(lines)[x]) + (if x == line then 1 else 0)
  {
    if HasTier(lines, line) {
      var i :| 0 <= i < |lines| && SameTier(lines[i], line);
      assert Put(lines, line) == lines[i := line];
      if SameTier(x, line) { TierCount(lines, i, x); }
    } else {
      assert forall k | 0 <= k < |lines| :: !SameTier(lines[k], line);
      assert SameTier(x, line) ==> x !in lines;
    }
  }

  lemma PutKeepsDistinct(lines: seq<Line>, line: Line)
    requires DistinctTiers(lines)
    ensures DistinctTiers(Put(lines, line))
  {
  }

  lemma {:induction false} PutAllCounts(lines: seq<Line>, news: seq<Line>, x: Line)
    requires DistinctTiers(lines) && DistinctTiers(news)
    ensures DistinctTiers(PutAll(lines, news))
    ensures multiset(PutAll(lines, news))[x] == multiset(Kept(lines, news))[x] + multiset(news)[x]
    decreases |news|
  {
    KeptCounts(lines, news, x);
    if news != [] {
      var init, last := news[..|news| - 1], news[|news| - 1];
      assert news == init + [last];
      PutAllCounts(lines, init, x);
      PutCounts(PutAll(lines, init), last, x);
      PutKeepsDistinct(PutAll(lines, init), last);
      KeptCounts(lines, init, x);
      if SameTier(x, last) {
        TierCount(news, |news| - 1, x);
        assert Replaced(x, news);
      } else {
        ReplacedByInit(x, init, last);
      }
    }
  }

  lemma ReplacedByInit(x: Line, init: seq<Line>, last: Line)
    requires !SameTier(x, last)
    ensures Replaced(x, init + [last]) == Replaced(x, init)
  {
    var news := init + [last];
    assert forall i | 0 <= i < |init| :: news[i] == init[i];
  }

  lemma SuffixIsDistinct(a: seq<Line>, b: seq<Line>)
    requires DistinctTiers(a + b)
    ensures DistinctTiers(b)
  {
    forall i, j | 0 <= i < j < |b| ensures !SameTier(b[i], b[j]) {
      assert (a + b)[|a| + i] == b[i] && (a + b)[|a| + j] == b[j];
    }
  }

  /** After a successful import the stored lines are exactly the set that was validated: the old lines
      it did not replace and every row it carried, and the whole list is valid. */
  lemma ImportStoresWhatItValidated(list: List, rows: seq<Row>, expectedVersion: int, hasRole: bool, services: map<Code, Service>)
    requires LadderOk(list.lines) && Import(list, rows, expectedVersion, hasRole, services).Ok?
    ensures var next := Import(list, rows, expectedVersion, hasRole, services).value;
            var news := LinesOf(ResolveRows(services, rows, AnyCurrency(list.lines), |rows|).value);
            multiset(next.lines) == multiset(Kept(list.lines, news)) + multiset(news) && LadderOk(next.lines)
  {
    var next := Import(list, rows, expectedVersion, hasRole, services).value;
    var news := LinesOf(ResolveRows(services, rows, AnyCurrency(list.lines), |rows|).value);
    PutAllStores(list.lines, news);
  }

  lemma PutAllStores(lines: seq<Line>, news: seq<Line>)
    requires LadderOk(lines) && LadderOk(Kept(lines, news) + news)
    ensures multiset(PutAll(lines, news)) == multiset(Kept(lines, news)) + multiset(news)
    ensures LadderOk(PutAll(lines, news))
  {
    var combined := Kept(lines, news) + news;
    ValidIsDistinct(lines);
    ValidIsDistinct(combined);
    SuffixIsDistinct(Kept(lines, news), news);
    forall x ensures multiset(PutAll(lines, news))[x] == multiset(combined)[x] {
      PutAllCounts(lines, news, x);
    }
    LadderOkPermutes(combined, PutAll(lines, news));
  }

  lemma PutGroup(lines: seq<Line>, line: Line, service: ServiceId)
    requires DistinctTiers(lines)
    ensures multiset(Group(Put(lines, line), service)) ==
              multiset(if service == line.service then Checked(lines, line) else Group(lines, service))
  {
    var after := Put(lines, line);
    forall x ensures multiset(Group(after, service))[x] ==
                       multiset(if service == line.service then Checked(lines, line) else Group(lines, service))[x]
    {
      GroupCounts(after, service, x);
      PutCounts(lines, line, x);
      KeptCounts(Group(lines, service), [line], x);
      GroupCounts(lines, service, x);
      OneReplaces(x, line);
    }
  }

  lemma CheckedIsOneGroup(lines: seq<Line>, line: Line)
    ensures Group(Checked(lines, line), line.service) == Checked(lines, line)
  {
    var group, checked := Group(lines, line.service), Checked(lines, line);
    GroupMembers(lines, line.service);
    forall i | 0 <= i < |checked| ensures checked[i].service == line.service {
      if i < |checked| - 1 { KeptMembers(group, [line], i); }
    }
    SameGroupOfOne(checked, line.service);
  }

  lemma {:induction false} KeptMembers(lines: seq<Line>, news: seq<Line>, i: nat)
    requires i < |Kept(lines, news)|
    ensures Kept(lines, news)[i] in lines
    decreases |lines|
  {
    if Replaced(lines[0], news) {
      KeptMembers(lines[1..], news, i);
    } else if i > 0 {
      KeptMembers(lines[1..], news, i - 1);
    }
  }

  lemma PutLineIsValid(lines: seq<Line>, line: Line, i: nat)
    requires LadderOk(lines) && DistinctTiers(lines) && LadderOk(Checked(lines, line)) && i < |Put(lines, line)|
    ensures var after := Put(lines, line); after[i].freeUnits >= 0 && GroupOk(Group(after, after[i].service))
  {
    var after, checked := Put(lines, line), Checked(lines, line);
    var x := after[i];
    PutGroup(lines, line, x.service);
    if x.service == line.service {
      CheckedIsOneGroup(lines, line);
      assert checked[|checked| - 1] == line && GroupOk(checked);
      GroupOkPermutes(checked, Group(after, x.service));
      GroupMembers(after, x.service);
      SameElements(checked, Group(after, x.service));
      assert x in checked;
    } else {
      assert x in lines;
      var k :| 0 <= k < |lines| && lines[k] == x;
      GroupOkPermutes(Group(lines, lines[k].service), Group(after, x.service));
    }
  }

  /** An upsert checks one service's lines; the other services' lines are not its business, and the
      whole list stays valid. */
  lemma PutStores(lines: seq<Line>, line: Line)
    requires LadderOk(lines) && LadderOk(Checked(lines, line))
    ensures multiset(Put(lines, line)) == multiset(Kept(lines, [line])) + multiset{line}
    ensures LadderOk(Put(lines, line))
  {
    var after := Put(lines, line);
    ValidIsDistinct(lines);
    forall x ensures multiset(after)[x] == (multiset(Kept(lines, [line])) + multiset{line})[x] {
      PutCounts(lines, line, x);
      KeptCounts(lines, [line], x);
      OneReplaces(x, line);
    }
    forall i | 0 <= i < |after| ensures after[i].freeUnits >= 0 && GroupOk(Group(after, after[i].service)) {
      PutLineIsValid(lines, line, i);
    }
  }

  lemma OneReplaces(x: Line, line: Line)
    ensures Replaced(x, [line]) == SameTier(x, line)
  {
    assert [line][0] == line;
  }

  /** All of `checked` is of one service. */
  lemma {:induction false} SameGroupOfOne(checked: seq<Line>, service: ServiceId)
    requires forall i | 0 <= i < |checked| :: checked[i].service == service
    ensures Group(checked, service) == checked
    decreases |checked|
  {
    if checked != [] { SameGroupOfOne(checked[1..], service); }
  }

  // ---------------------------------------------------------------- over any run

  predicate OneCurrency(lines: seq<Line>) { forall i, j | 0 <= i < |lines| && 0 <= j < |lines| :: lines[i].currency == lines[j].currency }

  /** Every stored line was written, and every line ever written met its service's floor then. */
  predicate FloorsMet(list: List) {
    && (forall i | 0 <= i < |list.written| :: list.written[i].line.price >= list.written[i].floor)
    && forall i | 0 <= i < |list.lines| :: WasWritten(list.lines[i], list.written)
  }

  predicate WasWritten(line: Line, written: seq<Written>) { exists k | 0 <= k < |written| :: written[k].line == line }

  predicate Inv(list: List) { LadderOk(list.lines) && OneCurrency(list.lines) && FloorsMet(list) }

  /** Rows that resolve: all in the settled currency, all at or above their floors. */
  lemma {:induction false} ResolvedRows(services: map<Code, Service>, rows: seq<Row>, currency: Option<Currency>, n: nat)
    requires n <= |rows| && ResolveRows(services, rows, currency, n).Ok?
    ensures var resolved := ResolveRows(services, rows, currency, n).value;
            && |resolved| == n
            && (forall i | 0 <= i < n :: resolved[i].line.price >= resolved[i].floor)
            && (forall i | 0 <= i < n :: Some(resolved[i].line.currency) == Settled(resolved, currency))
    decreases n
  {
    if n > 0 { ResolvedRows(services, rows, currency, n - 1); }
  }

  /** A row is acceptable on its own, and prices in the given currency. */
  predicate RowOk(services: map<Code, Service>, row: Row, currency: Currency) {
    && row.code in services && services[row.code].minPrice.Some?
    && row.price >= services[row.code].minPrice.value && row.currency == currency
  }

  function FirstCurrency(rows: seq<Row>, currency: Option<Currency>): Currency
    requires rows != []
  {
    if currency.Some? then currency.value else rows[0].currency
  }

  /** The validating loop accepts exactly the rows that are each of an active priceable service, at or
      above its floor, and all in one currency: the list's, or the first row's. */
  lemma {:induction false} RowsAcceptedIff(services: map<Code, Service>, rows: seq<Row>, currency: Option<Currency>, n: nat)
    requires n <= |rows|
    ensures ResolveRows(services, rows, currency, n).Ok? <==>
              forall i | 0 <= i < n :: RowOk(services, rows[i], FirstCurrency(rows, currency))
    ensures ResolveRows(services, rows, currency, n).Ok? && n > 0 ==>
              Settled(ResolveRows(services, rows, currency, n).value, currency) == Some(FirstCurrency(rows, currency))
    decreases n
  {
    if n > 0 { RowsAcceptedIff(services, rows, currency, n - 1); }
  }

  lemma PutMembers(lines: seq<Line>, line: Line)
    ensures forall i | 0 <= i < |Put(lines, line)| :: Put(lines, line)[i] in lines || Put(lines, line)[i] == line
  {
  }

  lemma {:induction false} PutAllMembers(lines: seq<Line>, news: seq<Line>)
    ensures forall i | 0 <= i < |PutAll(lines, news)| :: PutAll(lines, news)[i] in lines || PutAll(lines, news)[i] in news
    decreases |news|
  {
    if news != [] {
      var init, last := news[..|news| - 1], news[|news| - 1];
      PutAllMembers(lines, init);
      PutMembers(PutAll(lines, init), last);
    }
  }

  /** Writing lines of the settled currency and of met floors keeps both. */
  lemma WritingKeeps(list: List, resolved: seq<Written>, after: seq<Line>)
    requires OneCurrency(list.lines) && FloorsMet(list)
    requires forall i | 0 <= i < |resolved| :: resolved[i].line.price >= resolved[i].floor
    requires forall i | 0 <= i < |resolved| :: Some(resolved[i].line.currency) == Settled(resolved, AnyCurrency(list.lines))
    requires forall i | 0 <= i < |after| :: after[i] in list.lines || after[i] in LinesOf(resolved)
    ensures OneCurrency(after)
    ensures forall i | 0 <= i < |list.written + resolved| :: (list.written + resolved)[i].line.price >= (list.written + resolved)[i].floor
    ensures forall i | 0 <= i < |after| :: WasWritten(after[i], list.written + resolved)
  {
    var written := list.written + resolved;
    forall i | 0 <= i < |after| ensures WasWritten(after[i], written) && Some(after[i].currency) == Settled(resolved, AnyCurrency(list.lines)) {
      if after[i] in list.lines {
        var k :| 0 <= k < |list.lines| && list.lines[k] == after[i];
        assert WasWritten(list.lines[k], list.written);
        var w :| 0 <= w < |list.written| && list.written[w].line == after[i];
        assert written[w].line == after[i];
      } else {
        var k :| 0 <= k < |resolved| && LinesOf(resolved)[k] == after[i];
        assert written[|list.written| + k].line == after[i];
      }
    }
  }

  lemma ImportKeeps(list: List, rows: seq<Row>, expectedVersion: int, hasRole: bool, services: map<Code, Service>)
    requires Inv(list) && Import(list, rows, expectedVersion, hasRole, services).Ok?
    ensures Inv(Import(list, rows, expectedVersion, hasRole, services).value)
  {
    var resolved := ResolveRows(services, rows, AnyCurrency(list.lines), |rows|).value;
    var news := LinesOf(resolved);
    ResolvedRows(services, rows, AnyCurrency(list.lines), |rows|);
    PutAllStores(list.lines, news);
    PutAllMembers(list.lines, news);
    WritingKeeps(list, resolved, PutAll(list.lines, news));
  }

  lemma UpsertKeeps(list: List, row: Row, expectedVersion: int, hasRole: bool, services: map<Code, Service>)
    requires Inv(list) && Upsert(list, row, expectedVersion, hasRole, services).Ok?
    ensures Inv(Upsert(list, row, expectedVersion, hasRole, services).value)
  {
    var resolved := ResolveRow(services, row, AnyCurrency(list.lines), 0).value;
    PutStores(list.lines, resolved.line);
    PutMembers(list.lines, resolved.line);
    assert LinesOf([resolved])[0] == resolved.line;
    WritingKeeps(list, [resolved], Put(list.lines, resolved.line));
  }

  lemma ApplyKeeps(list: List, command: Command)
    requires Inv(list) && Apply(list, command).Ok?
    ensures Inv(Apply(list, command).value)
  {
    match command {
      case ImportLines(rows, v, hasRole, services) => ImportKeeps(list, rows, v, hasRole, services);
      case UpsertLine(row, v, hasRole, services) => UpsertKeeps(list, row, v, hasRole, services);
      case ActivateList(_, _) =>
    }
  }

  /** Over any run: one currency, every ladder of the whole list valid although an upsert checks one
      service only, every stored line at or above the floor it was checked against. */
  lemma {:induction false} RunKeeps(list: List, commands: seq<Command>)
    requires Inv(list)
    ensures Inv(Run(list, commands))
    decreases |commands|
  {
    if commands != [] {
      if Apply(list, commands[0]).Ok? { ApplyKeeps(list, commands[0]); }
      RunKeeps(match Apply(list, commands[0]) case Ok(next) => next case Err(_) => list, commands[1..]);
    }
  }

  /** So the ladder check of an activation never refuses, and a service of an active list prices every
      quantity up to its limit by exactly one line. */
  lemma ActivationFindsValidLadders(commands: seq<Command>, expectedVersion: int, hasRole: bool, i: nat)
    requires i < |Run(EMPTY, commands).lines|
    ensures var list := Run(EMPTY, commands);
            var group := Group(list.lines, list.lines[i].service);
            && Activate(list, expectedVersion, hasRole) != Err(TierLadderBroken)
            && ((|group| == 1 && IsFlat(group[0])) || Partition(group))
  {
    RunKeeps(EMPTY, commands);
    var list := Run(EMPTY, commands);
    LadderIsPartition(Group(list.lines, list.lines[i].service));
  }

  /** Once active, a list never changes. */
  lemma {:induction false} ActiveIsFrozen(list: List, commands: seq<Command>)
    requires !list.status.Draft?
    ensures Run(list, commands) == list
    decreases |commands|
  {
    if commands != [] { ActiveIsFrozen(list, commands[1..]); }
  }
}
