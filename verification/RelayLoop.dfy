/** The relay call and the worker's loop as they run, and how fast the loop drains. */
module RelayLoop {
  import opened Outcomes
  import opened Relay
  import opened RelaySafety

  // ---------------------------------------------------------------- a call is a run of the steps

  lemma {:induction false} RunAppend(s: State, a: seq<Action>, b: seq<Action>)
    ensures Run(s, a + b) == Run(Run(s, a), b)
    decreases |a|
  {
    if a == [] {
      assert a + b == b;
    } else {
      assert (a + b)[1..] == a[1..] + b;
      RunAppend(Step(s, a[0]), a[1..], b);
    }
  }

  lemma RunOne(s: State, a: Action)
    ensures Run(s, [a]) == Step(s, a)
  {
  }

  function Handles(n: nat): seq<Action> { seq(n, _ => Handle(None)) }

  /** One row: its subscribers in registration order until one fails, then its update. */
  function RowScript(id: EventId, subs: seq<Name>, fails: Fails): seq<Action> {
    var n := FirstFailure(subs, id, fails, 0);
    Handles(n) + (if n < |subs| then [Handle(fails(n, id)), Update] else [Update])
  }

  function RowsScript(batch: seq<Row>, subs: seq<Name>, fails: Fails): seq<Action>
    decreases |batch|
  {
    if batch == [] then []
    else RowsScript(batch[..|batch| - 1], subs, fails) + RowScript(batch[|batch| - 1].id, subs, fails)
  }

  lemma {:induction false} HandlesRun(s: State, n: nat)
    requires s.call.Some? && s.call.value.remaining != [] && s.call.value.failure == None && s.call.value.done == 0
    requires n <= |s.call.value.subs|
    ensures Run(s, Handles(n)) ==
              s.(delivered := s.delivered + DeliveriesOf(n, s.call.value.remaining[0].id), call := Some(s.call.value.(done := n)))
    decreases n
  {
    var id := s.call.value.remaining[0].id;
    if n == 0 {
      assert s.delivered + DeliveriesOf(0, id) == s.delivered;
    } else {
      HandlesRun(s, n - 1);
      assert Handles(n) == Handles(n - 1) + [Handle(None)];
      RunAppend(s, Handles(n - 1), [Handle(None)]);
      RunOne(Run(s, Handles(n - 1)), Handle(None));
      assert s.delivered + DeliveriesOf(n, id) == s.delivered + DeliveriesOf(n - 1, id) + [Delivery(n - 1, id)];
    }
  }

  /** The state between two rows of a call. */
  function Between(s: State, rows: seq<Row>, delivered: seq<Delivery>, publications: seq<Publication>, remaining: seq<Row>, subs: seq<Name>): State {
    State(rows, s.registry, delivered, publications, Some(Call(remaining, subs, 0, None)))
  }

  lemma RowRuns(s: State, fails: Fails)
    requires s.call.Some? && s.call.value.remaining != [] && s.call.value.failure == None && s.call.value.done == 0
    ensures var c := s.call.value;
            var id, n := c.remaining[0].id, FirstFailure(c.subs, c.remaining[0].id, fails, 0);
            Run(s, RowScript(id, c.subs, fails)) ==
              Between(s, UpdateWhere(s.rows, id, Marking(Verdict(c.subs, id, fails))), s.delivered + DeliveriesOf(n, id),
                      s.publications + PublicationOf(id, c.subs, fails),
                      c.remaining[1..], c.subs)
  {
    var c := s.call.value;
    var id, n := c.remaining[0].id, FirstFailure(c.subs, c.remaining[0].id, fails, 0);
    var handled := s.(delivered := s.delivered + DeliveriesOf(n, id), call := Some(c.(done := n)));
    HandlesRun(s, n);
    if n < |c.subs| {
      RunAppend(s, Handles(n), [Handle(fails(n, id)), Update]);
      assert [Handle(fails(n, id)), Update][1..] == [Update];
      RunOne(Step(handled, Handle(fails(n, id))), Update);
      assert s.publications + [] == s.publications;
    } else {
      RunAppend(s, Handles(n), [Update]);
      RunOne(handled, Update);
    }
  }

  /** What a call leaves after the first i rows of its batch. */
  function After(s: State, batch: seq<Row>, i: nat, eventType: Option<EventType>, fails: Fails): State
    requires i <= |batch|
  {
    Between(s, Processed(s.rows, eventType, i, s.registry, fails), s.delivered + CallDeliveries(batch[..i], s.registry, fails),
            s.publications + CallPublications(batch[..i], s.registry, fails), batch[i..], s.registry)
  }

  lemma NothingProcessed(s: State, batch: seq<Row>, eventType: Option<EventType>, fails: Fails)
    ensures After(s, batch, 0, eventType, fails) == s.(call := Some(Call(batch, s.registry, 0, None)))
  {
  }

  lemma OneMoreRow(s: State, batch: seq<Row>, i: nat, eventType: Option<EventType>, limit: nat, fails: Fails)
    requires Sorted(s.rows) && batch == Batch(s.rows, eventType, limit) && i < |batch|
    ensures Run(After(s, batch, i, eventType, fails), RowScript(batch[i].id, s.registry, fails)) == After(s, batch, i + 1, eventType, fails)
  {
    RowRuns(After(s, batch, i, eventType, fails), fails);
    ProcessOneMore(s.rows, eventType, limit, s.registry, fails, i);
    ListsGrow(batch, i, s.registry, fails);
    Regroup(s.delivered, CallDeliveries(batch[..i], s.registry, fails),
            DeliveriesOf(FirstFailure(s.registry, batch[i].id, fails, 0), batch[i].id));
    Regroup(s.publications, CallPublications(batch[..i], s.registry, fails), PublicationOf(batch[i].id, s.registry, fails));
    assert batch[i..][1..] == batch[i + 1..];
  }

  lemma ScriptGrows(batch: seq<Row>, i: nat, subs: seq<Name>, fails: Fails)
    requires i < |batch|
    ensures RowsScript(batch[..i + 1], subs, fails) == RowsScript(batch[..i], subs, fails) + RowScript(batch[i].id, subs, fails)
  {
    assert batch[..i + 1][..i] == batch[..i] && batch[..i + 1][i] == batch[i];
  }

  lemma {:induction false} RowsRun(s: State, batch: seq<Row>, i: nat, eventType: Option<EventType>, limit: nat, fails: Fails)
    requires Sorted(s.rows) && batch == Batch(s.rows, eventType, limit) && i <= |batch|
    ensures Run(s.(call := Some(Call(batch, s.registry, 0, None))), RowsScript(batch[..i], s.registry, fails)) ==
              After(s, batch, i, eventType, fails)
    decreases i
  {
    if i == 0 {
      NothingProcessed(s, batch, eventType, fails);
    } else {
      RowsRun(s, batch, i - 1, eventType, limit, fails);
      ScriptGrows(batch, i - 1, s.registry, fails);
      RunAppend(s.(call := Some(Call(batch, s.registry, 0, None))), RowsScript(batch[..i - 1], s.registry, fails),
                RowScript(batch[i - 1].id, s.registry, fails));
      OneMoreRow(s, batch, i - 1, eventType, limit, fails);
    }
  }

  /** The steps of a call from its select to its last update; a crash cuts it anywhere. */
  function CallScript(batch: seq<Row>, limit: nat, eventType: Option<EventType>, subs: seq<Name>, fails: Fails): seq<Action> {
    [Begin(limit, eventType)] + RowsScript(batch, subs, fails) + [End]
  }

  /** What a call that runs to its end leaves. */
  function Relayed(s: State, limit: nat, eventType: Option<EventType>, fails: Fails): State {
    var batch := Batch(s.rows, eventType, limit);
    s.(rows := Processed(s.rows, eventType, |batch|, s.registry, fails),
       delivered := s.delivered + CallDeliveries(batch, s.registry, fails),
       publications := s.publications + CallPublications(batch, s.registry, fails))
  }

  lemma CallRuns(s: State, limit: nat, eventType: Option<EventType>, fails: Fails)
    requires Sorted(s.rows) && s.call == None && s.registry != []
    ensures Run(s, CallScript(Batch(s.rows, eventType, limit), limit, eventType, s.registry, fails)) == Relayed(s, limit, eventType, fails)
  {
    var batch := Batch(s.rows, eventType, limit);
    var rows := RowsScript(batch, s.registry, fails);
    RunAppend(s, [Begin(limit, eventType)] + rows, [End]);
    RunAppend(s, [Begin(limit, eventType)], rows);
    RunOne(s, Begin(limit, eventType));
    assert batch[..|batch|] == batch;
    RowsRun(s, batch, |batch|, eventType, limit, fails);
    RunOne(After(s, batch, |batch|, eventType, fails), End);
  }

  // ---------------------------------------------------------------- the call as it runs

  datatype RelayResult = RelayResult(processed: nat, published: nat, failed: nat)

  function CountPublished(batch: seq<Row>, subs: seq<Name>, fails: Fails): nat
    decreases |batch|
  {
    if batch == [] then 0
    else
      CountPublished(batch[..|batch| - 1], subs, fails)
      + if Verdict(subs, batch[|batch| - 1].id, fails) == None then 1 else 0
  }

  class Outbox {
    var rows: seq<Row>
    var registry: seq<Name>
    var delivered: seq<Delivery>
    var publications: seq<Publication>

    function Model(): State
      reads this
    {
      State(rows, registry, delivered, publications, None)
    }

    /** `registerSubscriber`. */
    method RegisterSubscriber(name: Name)
      modifies this`registry
      ensures Model() == Step(old(Model()), Register(name))
    {
      registry := registry + [name];
    }

    /** The subscribers of one row, in order, up to the first that fails. */
    method Deliver(subs: seq<Name>, id: EventId, fails: Fails) returns (failure: Option<Failure>)
      modifies this`delivered
      ensures failure == Verdict(subs, id, fails)
      ensures delivered == old(delivered) + DeliveriesOf(FirstFailure(subs, id, fails, 0), id)
    {
      for k := 0 to |subs|
        invariant delivered == old(delivered) + DeliveriesOf(k, id)
        invariant FirstFailure(subs, id, fails, 0) == FirstFailure(subs, id, fails, k)
      {
        var thrown := fails(k, id);
        if thrown.Some? {
          return Some(Failure(subs[k], thrown.value));
        }
        delivered := delivered + [Delivery(k, id)];
        assert DeliveriesOf(k + 1, id) == DeliveriesOf(k, id) + [Delivery(k, id)];
      }
      return None;
    }

    /** One selected row: delivered, then marked. */
    method RelayRow(subs: seq<Name>, id: EventId, fails: Fails) returns (failure: Option<Failure>)
      modifies this`rows, this`delivered, this`publications
      ensures failure == Verdict(subs, id, fails)
      ensures rows == UpdateWhere(old(rows), id, Marking(failure))
      ensures delivered == old(delivered) + DeliveriesOf(FirstFailure(subs, id, fails, 0), id)
      ensures publications == old(publications) + PublicationOf(id, subs, fails)
    {
      failure := Deliver(subs, id, fails);
      rows := UpdateWhere(rows, id, Marking(failure));
      if failure == None {
        publications := publications + [Publication(id, |subs|)];
      }
    }

    /** The first `upTo` rows of a batch, one after another. */
    method RelayRows(selected: seq<Row>, upTo: nat, limit: nat, eventType: Option<EventType>, fails: Fails)
      returns (published: nat, failed: nat)
      requires Sorted(rows) && selected == Batch(rows, eventType, limit) && upTo <= |selected|
      modifies this`rows, this`delivered, this`publications
      ensures rows == Processed(old(rows), eventType, upTo, registry, fails)
      ensures delivered == old(delivered) + CallDeliveries(selected[..upTo], registry, fails)
      ensures publications == old(publications) + CallPublications(selected[..upTo], registry, fails)
      ensures published == CountPublished(selected[..upTo], registry, fails) && published + failed == upTo
    {
      published, failed := 0, 0;
      for i := 0 to upTo
        invariant rows == Processed(old(rows), eventType, i, registry, fails)
        invariant delivered == old(delivered) + CallDeliveries(selected[..i], registry, fails)
        invariant publications == old(publications) + CallPublications(selected[..i], registry, fails)
        invariant published == CountPublished(selected[..i], registry, fails) && published + failed == i
      {
        var id := selected[i].id;
        ProcessOneMore(old(rows), eventType, limit, registry, fails, i);
        ListsGrow(selected, i, registry, fails);
        Regroup(old(delivered), CallDeliveries(selected[..i], registry, fails), DeliveriesOf(FirstFailure(registry, id, fails, 0), id));
        Regroup(old(publications), CallPublications(selected[..i], registry, fails), PublicationOf(id, registry, fails));
        var failure := RelayRow(registry, id, fails);
        if failure == None {
          published := published + 1;
        } else {
          failed := failed + 1;
        }
      }
    }

    /** `relayOnce`, when nothing crashes it. */
    method RelayOnce(limit: nat, eventType: Option<EventType>, fails: Fails) returns (r: RelayResult)
      requires Sorted(rows)
      modifies this`rows, this`delivered, this`publications
      ensures registry == [] ==> r == RelayResult(0, 0, 0) && Model() == old(Model())
      ensures registry != [] ==>
                var batch := Batch(old(rows), eventType, limit);
                && Model() == Run(old(Model()), CallScript(batch, limit, eventType, registry, fails))
                && Model() == Relayed(old(Model()), limit, eventType, fails)
                && r.processed == |batch| && r.published == CountPublished(batch, registry, fails)
      ensures r.processed == r.published + r.failed
    {
      if |registry| == 0 {
        return RelayResult(0, 0, 0);
      }
      CallRuns(Model(), limit, eventType, fails);
      var selected := Batch(rows, eventType, limit);
      assert selected[..|selected|] == selected;
      var published, failed := RelayRows(selected, |selected|, limit, eventType, fails);
      return RelayResult(|selected|, published, failed);
    }

    /** `relayOnce` cut short by an error outside its handlers: some rows are done, and of the next row
        some handlers have completed without its update. */
    method RelayCutShort(limit: nat, eventType: Option<EventType>, fails: Fails, done: nat, handled: nat)
      requires Sorted(rows)
      modifies this`rows, this`delivered, this`publications
      ensures rows == if registry == [] then old(rows) else Processed(old(rows), eventType, if done < limit then done else limit, registry, fails)
      ensures old(delivered) <= delivered
    {
      if |registry| == 0 {
        return;
      }
      var selected := Batch(rows, eventType, limit);
      var upTo := if done < |selected| then done else |selected|;
      ProcessedUpTo(rows, eventType, limit, registry, fails, done);
      var published, failed := RelayRows(selected, upTo, limit, eventType, fails);
      if upTo < |selected| {
        var n := FirstFailure(registry, selected[upTo].id, fails, 0);
        delivered := delivered + DeliveriesOf(if handled < n then handled else n, selected[upTo].id);
      }
    }

    /** `runRelayLoop`: one tick after another until the signal, here the end of the list. A tick that
        throws is logged and the next one still runs; an idle relay is warned about once. */
    method RunRelayLoop(ticks: seq<Tick>, limit: nat, eventType: Option<EventType>) returns (warnings: nat)
      requires Sorted(rows)
      modifies this`rows, this`delivered, this`publications
      ensures rows == RunTicks(old(rows), ticks, limit, eventType, registry)
      ensures warnings == if registry == [] && Completed(ticks) > 0 then 1 else 0
    {
      var idleWarned := false;
      warnings := 0;
      assert ticks[0..] == ticks;
      for i := 0 to |ticks|
        invariant Sorted(rows)
        invariant RunTicks(rows, ticks[i..], limit, eventType, registry) == RunTicks(old(rows), ticks, limit, eventType, registry)
        invariant Completed(ticks[i..]) <= Completed(ticks)
        invariant idleWarned <==> registry == [] && Completed(ticks[i..]) < Completed(ticks)
        invariant warnings == if idleWarned then 1 else 0
      {
        var tick := ticks[i];
        assert ticks[i..][1..] == ticks[i + 1..];
        TickSorts(rows, tick, limit, eventType, registry);
        ArrivalsSort(rows, tick.arrivals);
        rows := Arrived(rows, tick.arrivals);
        match tick.cut {
          case None =>
            ProcessedAll(rows, eventType, limit, registry, tick.fails);
            var result := RelayOnce(limit, eventType, tick.fails);
            var queried := |registry| > 0;
            if !idleWarned && result.processed == 0 && !queried {
              idleWarned := true;
              warnings := warnings + 1;
            }
          case Some((done, handled)) =>
            RelayCutShort(limit, eventType, tick.fails, done, handled);
        }
      }
    }
  }

  /** One tick of the loop: the rows that arrived before it, how its subscribers answer, and where an
      error cut it short, if one did. */
  datatype Tick = Tick(arrivals: seq<Row>, fails: Fails, cut: Option<(nat, nat)>)

  function Arrived(rows: seq<Row>, arrivals: seq<Row>): seq<Row>
    decreases |arrivals|
  {
    if arrivals == [] then rows
    else Arrived(if Fresh(rows, arrivals[0]) then InsertById(rows, arrivals[0]) else rows, arrivals[1..])
  }

  function TickRows(rows: seq<Row>, tick: Tick, limit: nat, eventType: Option<EventType>, subs: seq<Name>): seq<Row> {
    var arrived := Arrived(rows, tick.arrivals);
    if subs == [] then arrived
    else match tick.cut
      case None => Processed(arrived, eventType, limit, subs, tick.fails)
      case Some((done, _)) => Processed(arrived, eventType, if done < limit then done else limit, subs, tick.fails)
  }

  function RunTicks(rows: seq<Row>, ticks: seq<Tick>, limit: nat, eventType: Option<EventType>, subs: seq<Name>): seq<Row>
    decreases |ticks|
  {
    if ticks == [] then rows else RunTicks(TickRows(rows, ticks[0], limit, eventType, subs), ticks[1..], limit, eventType, subs)
  }

  /** The ticks that ran to their end. */
  function Completed(ticks: seq<Tick>): nat
    decreases |ticks|
  {
    if ticks == [] then 0 else Completed(ticks[1..]) + if ticks[0].cut == None then 1 else 0
  }

  lemma {:induction false} ArrivalsSort(rows: seq<Row>, arrivals: seq<Row>)
    requires Sorted(rows)
    ensures Sorted(Arrived(rows, arrivals))
    decreases |arrivals|
  {
    if arrivals != [] {
      if Fresh(rows, arrivals[0]) { InsertKeeps(rows, arrivals[0]); }
      ArrivalsSort(if Fresh(rows, arrivals[0]) then InsertById(rows, arrivals[0]) else rows, arrivals[1..]);
    }
  }

  lemma TickSorts(rows: seq<Row>, tick: Tick, limit: nat, eventType: Option<EventType>, subs: seq<Name>)
    requires Sorted(rows)
    ensures Sorted(TickRows(rows, tick, limit, eventType, subs))
  {
    ArrivalsSort(rows, tick.arrivals);
    var upTo := match tick.cut case None => limit case Some((done, _)) => if done < limit then done else limit;
    ProcessedKeepsIds(Arrived(rows, tick.arrivals), eventType, upTo, subs, tick.fails);
  }

  /** Cutting a call short processes as many rows as were done, or all it would have. */
  lemma {:induction false} ProcessedUpTo(rows: seq<Row>, eventType: Option<EventType>, limit: nat, subs: seq<Name>, fails: Fails, done: nat)
    ensures var n := |Batch(rows, eventType, limit)|;
            Processed(rows, eventType, if done < n then done else n, subs, fails) ==
            Processed(rows, eventType, if done < limit then done else limit, subs, fails)
  {
    ProcessedAll(rows, eventType, limit, subs, fails);
    if done >= |Batch(rows, eventType, limit)| && done < limit {
      BatchIsShort(rows, eventType, done, limit);
      ProcessedAll(rows, eventType, done, subs, fails);
    }
  }

  lemma {:induction false} BatchIsShort(rows: seq<Row>, eventType: Option<EventType>, less: nat, limit: nat)
    requires |Batch(rows, eventType, limit)| <= less <= limit
    ensures Batch(rows, eventType, less) == Batch(rows, eventType, limit)
    decreases |rows|
  {
    if rows != [] && limit != 0 {
      if Selected(rows[0], eventType) {
        BatchIsShort(rows[1..], eventType, less - 1, limit - 1);
      } else if less > 0 {
        BatchIsShort(rows[1..], eventType, less, limit);
      }
    }
  }

  lemma Regroup<T>(a: seq<T>, b: seq<T>, c: seq<T>)
    ensures a + b + c == a + (b + c)
  {
  }

  lemma ListsGrow(batch: seq<Row>, i: nat, subs: seq<Name>, fails: Fails)
    requires i < |batch|
    ensures CallDeliveries(batch[..i + 1], subs, fails) ==
              CallDeliveries(batch[..i], subs, fails) + DeliveriesOf(FirstFailure(subs, batch[i].id, fails, 0), batch[i].id)
    ensures CallPublications(batch[..i + 1], subs, fails) == CallPublications(batch[..i], subs, fails) + PublicationOf(batch[i].id, subs, fails)
    ensures CountPublished(batch[..i + 1], subs, fails) ==
              CountPublished(batch[..i], subs, fails) + if Verdict(subs, batch[i].id, fails) == None then 1 else 0
  {
    assert batch[..i + 1][..i] == batch[..i] && batch[..i + 1][i] == batch[i];
  }

  // ---------------------------------------------------------------- draining

  /** An unpublished event that can be delivered, up to a given id: what a drain is about. Most later
      arrivals have larger ids; one that has not is late. */
  predicate IsGood(row: Row, eventType: Option<EventType>, bad: set<EventId>, cut: EventId) {
    Selected(row, eventType) && row.id !in bad && row.id <= cut
  }

  function Good(rows: seq<Row>, eventType: Option<EventType>, bad: set<EventId>, cut: EventId): nat
    decreases |rows|
  {
    if rows == [] then 0
    else
      Good(rows[1..], eventType, bad, cut) + if IsGood(rows[0], eventType, bad, cut) then 1 else 0
  }

  function Bad(batch: seq<Row>, bad: set<EventId>): nat
    decreases |batch|
  {
    if batch == [] then 0 else Bad(batch[1..], bad) + if batch[0].id in bad then 1 else 0
  }

  /** Only the events in `bad` can fail. */
  predicate OnlyBadFail(fails: Fails, subs: seq<Name>, ids: set<EventId>, bad: set<EventId>) {
    forall id | id in ids && id !in bad :: Verdict(subs, id, fails) == None
  }

  lemma {:induction false} NoGoodBeyond(rows: seq<Row>, eventType: Option<EventType>, bad: set<EventId>, cut: EventId)
    requires forall i | 0 <= i < |rows| :: rows[i].id > cut
    ensures Good(rows, eventType, bad, cut) == 0
    decreases |rows|
  {
    if rows != [] { NoGoodBeyond(rows[1..], eventType, bad, cut); }
  }

  lemma {:induction false} FewBad(batch: seq<Row>, bad: set<EventId>)
    requires Sorted(batch)
    ensures Bad(batch, bad) <= |bad|
    decreases |batch|
  {
    if batch != [] {
      var less := bad - {batch[0].id};
      FewBad(batch[1..], less);
      SameBad(batch[1..], bad, batch[0].id);
    }
  }

  lemma {:induction false} SameBad(batch: seq<Row>, bad: set<EventId>, id: EventId)
    requires forall i | 0 <= i < |batch| :: batch[i].id != id
    ensures Bad(batch, bad - {id}) == Bad(batch, bad)
    decreases |batch|
  {
    if batch != [] { SameBad(batch[1..], bad, id); }
  }

  /** Processing everything selected is processing as many rows as were selected. */
  lemma {:induction false} ProcessedAll(rows: seq<Row>, eventType: Option<EventType>, limit: nat, subs: seq<Name>, fails: Fails)
    ensures Processed(rows, eventType, |Batch(rows, eventType, limit)|, subs, fails) == Processed(rows, eventType, limit, subs, fails)
    ensures |Batch(rows, eventType, limit)| <= limit
    decreases |rows|
  {
    if rows != [] && limit != 0 {
      if Selected(rows[0], eventType) {
        ProcessedAll(rows[1..], eventType, limit - 1, subs, fails);
      } else {
        ProcessedAll(rows[1..], eventType, limit, subs, fails);
        if |Batch(rows, eventType, limit)| == 0 { assert rows == [rows[0]] + rows[1..]; }
      }
    }
  }

  lemma GoodOfProcessed(rows: seq<Row>, eventType: Option<EventType>, limit: nat, subs: seq<Name>, fails: Fails, bad: set<EventId>, cut: EventId)
    requires rows != [] && limit > 0 && (Selected(rows[0], eventType) && rows[0].id !in bad ==> Verdict(subs, rows[0].id, fails) == None)
    ensures Good(Processed(rows, eventType, limit, subs, fails), eventType, bad, cut) ==
              Good(Processed(rows[1..], eventType, Left(rows[0], eventType, limit), subs, fails), eventType, bad, cut)
  {
  }

  /** Nothing good is left when the batch has gone beyond the cut. */
  lemma BeyondTheCut(rows: seq<Row>, eventType: Option<EventType>, limit: nat, subs: seq<Name>, fails: Fails, bad: set<EventId>, cut: EventId)
    requires Sorted(rows) && rows != [] && rows[0].id > cut
    ensures Good(Processed(rows[1..], eventType, limit, subs, fails), eventType, bad, cut) == 0
  {
    ProcessedKeepsIds(rows[1..], eventType, limit, subs, fails);
    NoGoodBeyond(Processed(rows[1..], eventType, limit, subs, fails), eventType, bad, cut);
  }

  /** What one call leaves of the good events: none, or fewer by the limit less the bad ones of its
      batch. */
  lemma {:induction false} CallDrains(rows: seq<Row>, eventType: Option<EventType>, limit: nat, subs: seq<Name>, fails: Fails,
                                      bad: set<EventId>, cut: EventId)
    requires Sorted(rows) && OnlyBadFail(fails, subs, Ids(rows), bad)
    ensures var left := Good(Processed(rows, eventType, limit, subs, fails), eventType, bad, cut);
            left == 0 || left + limit <= Good(rows, eventType, bad, cut) + Bad(Batch(rows, eventType, limit), bad)
    decreases |rows|
  {
    if rows != [] && limit != 0 {
      assert rows[0].id in Ids(rows);
      GoodOfProcessed(rows, eventType, limit, subs, fails, bad, cut);
      if Selected(rows[0], eventType) && rows[0].id !in bad && rows[0].id > cut {
        BeyondTheCut(rows, eventType, limit - 1, subs, fails, bad, cut);
      } else {
        Prepended(rows[0], rows[1..]);
        assert rows == [rows[0]] + rows[1..];
        CallDrains(rows[1..], eventType, Left(rows[0], eventType, limit), subs, fails, bad, cut);
      }
    }
  }

  /** A call, complete or cut, never adds a good event. */
  lemma {:induction false} NeverMore(rows: seq<Row>, eventType: Option<EventType>, limit: nat, subs: seq<Name>, fails: Fails,
                                     bad: set<EventId>, cut: EventId)
    ensures Good(Processed(rows, eventType, limit, subs, fails), eventType, bad, cut) <= Good(rows, eventType, bad, cut)
    decreases |rows|
  {
    if rows != [] && limit != 0 {
      NeverMore(rows[1..], eventType, if Selected(rows[0], eventType) then limit - 1 else limit, subs, fails, bad, cut);
    }
  }

  lemma {:induction false} InsertedAdds(rows: seq<Row>, row: Row, eventType: Option<EventType>, bad: set<EventId>, cut: EventId)
    ensures Good(InsertById(rows, row), eventType, bad, cut) ==
              Good(rows, eventType, bad, cut) + if IsGood(row, eventType, bad, cut) then 1 else 0
    decreases |rows|
  {
    if rows == [] || row.id < rows[0].id {
      assert ([row] + rows)[1..] == rows;
    } else {
      InsertedAdds(rows[1..], row, eventType, bad, cut);
      assert ([rows[0]] + InsertById(rows[1..], row))[1..] == InsertById(rows[1..], row);
    }
  }

  /** Arrivals add at most the good events among them. */
  lemma {:induction false} ArrivedAdd(rows: seq<Row>, arrivals: seq<Row>, eventType: Option<EventType>, bad: set<EventId>, cut: EventId)
    ensures Good(Arrived(rows, arrivals), eventType, bad, cut) <= Good(rows, eventType, bad, cut) + Good(arrivals, eventType, bad, cut)
    decreases |arrivals|
  {
    if arrivals != [] {
      InsertedAdds(rows, arrivals[0], eventType, bad, cut);
      ArrivedAdd(if Fresh(rows, arrivals[0]) then InsertById(rows, arrivals[0]) else rows, arrivals[1..], eventType, bad, cut);
    }
  }

  /** Whatever fails is in `bad`. */
  ghost predicate TickOk(tick: Tick, subs: seq<Name>, bad: set<EventId>) {
    forall id: EventId | id !in bad :: Verdict(subs, id, tick.fails) == None
  }

  /** Of n good events, and late more that arrive before it with ids up to the cut, a completed call
      publishes at least min(limit - |bad|, n + late); a thrown one loses none. */
  lemma TickDrains(rows: seq<Row>, tick: Tick, limit: nat, eventType: Option<EventType>, subs: seq<Name>, bad: set<EventId>, cut: EventId)
    requires Sorted(rows) && subs != [] && TickOk(tick, subs, bad)
    ensures var left, n := Good(TickRows(rows, tick, limit, eventType, subs), eventType, bad, cut), Good(rows, eventType, bad, cut);
            var late := Good(tick.arrivals, eventType, bad, cut);
            left <= n + late && (tick.cut == None ==> left == 0 || left + limit <= n + late + |bad|)
  {
    var arrived := Arrived(rows, tick.arrivals);
    ArrivalsSort(rows, tick.arrivals);
    ArrivedAdd(rows, tick.arrivals, eventType, bad, cut);
    match tick.cut {
      case None =>
        NeverMore(arrived, eventType, limit, subs, tick.fails, bad, cut);
        CallDrains(arrived, eventType, limit, subs, tick.fails, bad, cut);
        BatchIsPending(arrived, eventType, limit);
        FewBad(Batch(arrived, eventType, limit), bad);
      case Some((done, _)) =>
        NeverMore(arrived, eventType, if done < limit then done else limit, subs, tick.fails, bad, cut);
    }
  }

  /** The good events that arrive late, over all ticks. */
  function Late(ticks: seq<Tick>, eventType: Option<EventType>, bad: set<EventId>, cut: EventId): nat
    decreases |ticks|
  {
    if ticks == [] then 0 else Late(ticks[1..], eventType, bad, cut) + Good(ticks[0].arrivals, eventType, bad, cut)
  }

  /** The completed ticks that end with a good event still unpublished. */
  function Busy(rows: seq<Row>, ticks: seq<Tick>, limit: nat, eventType: Option<EventType>, subs: seq<Name>,
                bad: set<EventId>, cut: EventId): nat
    decreases |ticks|
  {
    if ticks == [] then 0
    else
      var next := TickRows(rows, ticks[0], limit, eventType, subs);
      Busy(next, ticks[1..], limit, eventType, subs, bad, cut)
      + if ticks[0].cut == None && Good(next, eventType, bad, cut) != 0 then 1 else 0
  }

  /** Every busy tick takes L - F off what was there and what arrived. */
  lemma {:induction false} TicksDrain(rows: seq<Row>, ticks: seq<Tick>, limit: nat, eventType: Option<EventType>, subs: seq<Name>,
                                      bad: set<EventId>, cut: EventId)
    requires Sorted(rows) && subs != [] && |bad| < limit
    requires forall i | 0 <= i < |ticks| :: TickOk(ticks[i], subs, bad)
    ensures var left, n := Good(RunTicks(rows, ticks, limit, eventType, subs), eventType, bad, cut), Good(rows, eventType, bad, cut);
            left + Busy(rows, ticks, limit, eventType, subs, bad, cut) * (limit - |bad|) <= n + Late(ticks, eventType, bad, cut)
    decreases |ticks|
  {
    if ticks != [] {
      var next := TickRows(rows, ticks[0], limit, eventType, subs);
      TickDrains(rows, ticks[0], limit, eventType, subs, bad, cut);
      TickSorts(rows, ticks[0], limit, eventType, subs);
      TicksDrain(next, ticks[1..], limit, eventType, subs, bad, cut);
      OneMore(Busy(next, ticks[1..], limit, eventType, subs, bad, cut), limit - |bad|);
    }
  }

  lemma OneMore(k: nat, unit: nat)
    ensures (k + 1) * unit == k * unit + unit
  {
  }

  /** No good event is left after the first i ticks. */
  predicate DrainedBy(rows: seq<Row>, ticks: seq<Tick>, i: nat, limit: nat, eventType: Option<EventType>, subs: seq<Name>,
                      bad: set<EventId>, cut: EventId)
    requires i <= |ticks|
  {
    Good(RunTicks(rows, ticks[..i], limit, eventType, subs), eventType, bad, cut) == 0
  }

  lemma OneTickOn(rows: seq<Row>, ticks: seq<Tick>, i: nat, limit: nat, eventType: Option<EventType>, subs: seq<Name>,
                  bad: set<EventId>, cut: EventId)
    requires i < |ticks|
    ensures DrainedBy(rows, ticks, i + 1, limit, eventType, subs, bad, cut) ==
            DrainedBy(TickRows(rows, ticks[0], limit, eventType, subs), ticks[1..], i, limit, eventType, subs, bad, cut)
  {
    assert ticks[..i + 1][1..] == ticks[1..][..i];
  }

  /** A loop that is never drained is busy in every completed tick. */
  lemma {:induction false} AlwaysBusy(rows: seq<Row>, ticks: seq<Tick>, limit: nat, eventType: Option<EventType>, subs: seq<Name>,
                                      bad: set<EventId>, cut: EventId)
    requires forall i: nat | i <= |ticks| :: !DrainedBy(rows, ticks, i, limit, eventType, subs, bad, cut)
    ensures Busy(rows, ticks, limit, eventType, subs, bad, cut) == Completed(ticks)
    decreases |ticks|
  {
    if ticks != [] {
      var next := TickRows(rows, ticks[0], limit, eventType, subs);
      forall i: nat | i <= |ticks[1..]| ensures !DrainedBy(next, ticks[1..], i, limit, eventType, subs, bad, cut) {
        OneTickOn(rows, ticks, i, limit, eventType, subs, bad, cut);
        assert !DrainedBy(rows, ticks, i + 1, limit, eventType, subs, bad, cut);
      }
      assert ticks[1..][..0] == [];
      assert !DrainedBy(next, ticks[1..], 0, limit, eventType, subs, bad, cut);
      AlwaysBusy(next, ticks[1..], limit, eventType, subs, bad, cut);
    }
  }

  /** With a limit L and F < L events that can fail, n good events, and m more that arrive late with
      smaller ids than some of them, are all published at some moment of the first ceil((n + m) / (L - F))
      completed ticks, however many thrown ticks lie between them. */
  lemma LoopDrains(rows: seq<Row>, ticks: seq<Tick>, limit: nat, eventType: Option<EventType>, subs: seq<Name>,
                   bad: set<EventId>, cut: EventId)
    requires Sorted(rows) && subs != [] && |bad| < limit
    requires forall i | 0 <= i < |ticks| :: TickOk(ticks[i], subs, bad)
    requires var toDrain := Good(rows, eventType, bad, cut) + Late(ticks, eventType, bad, cut);
             Completed(ticks) >= (toDrain + (limit - |bad|) - 1) / (limit - |bad|)
    ensures exists i: nat :: i <= |ticks| && DrainedBy(rows, ticks, i, limit, eventType, subs, bad, cut)
  {
    if forall i: nat | i <= |ticks| :: !DrainedBy(rows, ticks, i, limit, eventType, subs, bad, cut) {
      AlwaysBusy(rows, ticks, limit, eventType, subs, bad, cut);
      TicksDrain(rows, ticks, limit, eventType, subs, bad, cut);
      CeilingCovers(Good(rows, eventType, bad, cut) + Late(ticks, eventType, bad, cut), limit - |bad|, Completed(ticks));
      assert ticks[..|ticks|] == ticks;
      assert DrainedBy(rows, ticks, |ticks|, limit, eventType, subs, bad, cut);
    }
  }

  /** Once drained, the loop stays drained as long as nothing more arrives late: without late arrivals
      the events are published at the end too. */
  lemma {:induction false} StaysDrained(rows: seq<Row>, ticks: seq<Tick>, i: nat, limit: nat, eventType: Option<EventType>, subs: seq<Name>,
                                        bad: set<EventId>, cut: EventId)
    requires Sorted(rows) && subs != [] && i <= |ticks| && DrainedBy(rows, ticks, i, limit, eventType, subs, bad, cut)
    requires forall k | 0 <= k < |ticks| :: TickOk(ticks[k], subs, bad)
    requires forall k | i <= k < |ticks| :: Good(ticks[k].arrivals, eventType, bad, cut) == 0
    ensures Good(RunTicks(rows, ticks, limit, eventType, subs), eventType, bad, cut) == 0
    decreases |ticks|
  {
    if ticks == [] {
      assert ticks[..i] == [];
    } else {
      var next := TickRows(rows, ticks[0], limit, eventType, subs);
      TickSorts(rows, ticks[0], limit, eventType, subs);
      if i == 0 {
        assert ticks[..0] == [] && ticks[1..][..0] == [];
        TickDrains(rows, ticks[0], limit, eventType, subs, bad, cut);
        StaysDrained(next, ticks[1..], 0, limit, eventType, subs, bad, cut);
      } else {
        OneTickOn(rows, ticks, i - 1, limit, eventType, subs, bad, cut);
        StaysDrained(next, ticks[1..], i - 1, limit, eventType, subs, bad, cut);
      }
    }
  }

  lemma CeilingCovers(n: nat, unit: nat, k: nat)
    requires unit > 0 && k >= (n + unit - 1) / unit
    ensures k * unit >= n
  {
  }
}
