/** The commands as they run: validate every row, check the combined ladder, then write. */
module PriceListStore {
  import opened Outcomes
  import opened TierLadder
  import opened PriceList

  /** The first offending row decides the error of the whole import. */
  lemma {:induction false} FirstErrorStands(services: map<Code, Service>, rows: seq<Row>, currency: Option<Currency>, i: nat, n: nat)
    requires i <= n <= |rows| && ResolveRows(services, rows, currency, i).Err?
    ensures ResolveRows(services, rows, currency, n) == ResolveRows(services, rows, currency, i)
    decreases n - i
  {
    if i < n { FirstErrorStands(services, rows, currency, i, n - 1); }
  }

  class Store {
    var status: Status
    var version: nat
    var lines: seq<Line>
    var written: seq<Written>

    function Model(): List
      reads this
    {
      List(status, version, lines, written)
    }

    constructor ()
      ensures Model() == EMPTY
    {
      status, version, lines, written := Draft, 1, [], [];
    }

    /** `upsertLine`: an update of the rows of that service and tier start, an insert when there are
        none. */
    method PutLine(line: Line)
      modifies this`lines
      ensures lines == Put(old(lines), line)
    {
      var updated := 0;
      var rows: seq<Line> := [];
      for i := 0 to |lines|
        invariant |rows| == i && lines == old(lines)
        invariant forall k | 0 <= k < i :: rows[k] == if SameTier(lines[k], line) then line else lines[k]
        invariant updated > 0 <==> exists k | 0 <= k < i :: SameTier(lines[k], line)
      {
        if SameTier(lines[i], line) {
          rows := rows + [line];
          updated := updated + 1;
        } else {
          rows := rows + [lines[i]];
        }
      }
      if updated == 0 {
        assert !HasTier(lines, line);
        lines := lines + [line];
      } else {
        lines := rows;
      }
    }

    /** The writing loop. */
    method PutEach(news: seq<Line>)
      modifies this`lines
      ensures lines == PutAll(old(lines), news)
    {
      for i := 0 to |news|
        invariant lines == PutAll(old(lines), news[..i])
      {
        assert news[..i + 1][..i] == news[..i];
        PutLine(news[i]);
      }
      assert news[..|news|] == news;
    }

    /** The validating loop. */
    method ResolveEach(rows: seq<Row>, services: map<Code, Service>) returns (r: Result<seq<Written>, Error>)
      ensures r == ResolveRows(services, rows, AnyCurrency(lines), |rows|)
    {
      var canonicalCurrency := AnyCurrency(lines);
      var resolved: seq<Written> := [];
      for i := 0 to |rows|
        invariant ResolveRows(services, rows, AnyCurrency(lines), i) == Ok(resolved)
        invariant canonicalCurrency == Settled(resolved, AnyCurrency(lines))
      {
        var row := rows[i];
        if row.code !in services {
          FirstErrorStands(services, rows, AnyCurrency(lines), i + 1, |rows|);
          return Err(ServiceNotFound(i));
        }
        var service := services[row.code];
        if service.minPrice == None {
          FirstErrorStands(services, rows, AnyCurrency(lines), i + 1, |rows|);
          return Err(ServiceNotPriceable(i));
        }
        if row.price < service.minPrice.value {
          FirstErrorStands(services, rows, AnyCurrency(lines), i + 1, |rows|);
          return Err(PriceBelowFloor(i));
        }
        if canonicalCurrency == None {
          canonicalCurrency := Some(row.currency);
        } else if canonicalCurrency.value != row.currency {
          FirstErrorStands(services, rows, AnyCurrency(lines), i + 1, |rows|);
          return Err(CurrencyMismatch(i));
        }
        resolved := resolved + [Written(LineOf(service.id, row), service.minPrice.value)];
      }
      return Ok(resolved);
    }

    /** `importPriceListLines`: all rows or none. */
    method ImportPriceListLines(rows: seq<Row>, expectedVersion: int, hasRole: bool, services: map<Code, Service>)
      returns (r: Result<(nat, nat), Error>)
      modifies this`lines, this`written, this`version
      ensures match Import(old(Model()), rows, expectedVersion, hasRole, services)
              case Err(e) => r == Err(e) && Model() == old(Model())
              case Ok(next) => r == Ok((old(version) + 1, |rows|)) && Model() == next
      ensures r.Ok? && LadderOk(old(lines)) ==>
                var resolved := ResolveRows(services, rows, AnyCurrency(old(lines)), |rows|);
                && resolved.Ok? && LadderOk(lines)
                && multiset(lines) == multiset(Kept(old(lines), LinesOf(resolved.value))) + multiset(LinesOf(resolved.value))
    {
      if LadderOk(lines) && Import(Model(), rows, expectedVersion, hasRole, services).Ok? {
        ImportStoresWhatItValidated(Model(), rows, expectedVersion, hasRole, services);
      }
      var refusal := Writable(Model(), expectedVersion, hasRole);
      if refusal.Some? {
        return Err(refusal.value);
      }
      var resolving := ResolveEach(rows, services);
      if resolving.Err? {
        return Err(resolving.error);
      }
      var news := LinesOf(resolving.value);
      if !LadderOk(Kept(lines, news) + news) {
        return Err(TierLadderBroken);
      }
      PutEach(news);
      written := written + resolving.value;
      version := version + 1;
      return Ok((version, |news|));
    }

    /** `upsertPriceListLine`. */
    method UpsertPriceListLine(row: Row, expectedVersion: int, hasRole: bool, services: map<Code, Service>)
      returns (r: Result<nat, Error>)
      modifies this`lines, this`written, this`version
      ensures match Upsert(old(Model()), row, expectedVersion, hasRole, services)
              case Err(e) => r == Err(e) && Model() == old(Model())
              case Ok(next) => r == Ok(old(version) + 1) && Model() == next
      ensures r.Ok? && LadderOk(old(lines)) ==>
                && row.code in services && LadderOk(lines)
                && multiset(lines) == multiset(Kept(old(lines), [LineOf(services[row.code].id, row)]))
                                      + multiset{LineOf(services[row.code].id, row)}
    {
      if LadderOk(lines) && Upsert(Model(), row, expectedVersion, hasRole, services).Ok? {
        PutStores(lines, LineOf(services[row.code].id, row));
      }
      var refusal := Writable(Model(), expectedVersion, hasRole);
      if refusal.Some? {
        return Err(refusal.value);
      }
      var resolving := ResolveRow(services, row, AnyCurrency(lines), 0);
      if resolving.Err? {
        return Err(resolving.error);
      }
      var line := resolving.value.line;
      if !LadderOk(Checked(lines, line)) {
        return Err(TierLadderBroken);
      }
      PutLine(line);
      written := written + [resolving.value];
      version := version + 1;
      return Ok(version);
    }
  }
}
