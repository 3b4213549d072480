/** What the relay guarantees over every run, with crashes anywhere. */
module RelaySafety {
  import opened Outcomes
  import opened Relay

  /** A published row was handled by every subscriber registered when its call began, and by at least
      one; and exactly one call published it. */
  lemma PublishedWasHandled(actions: seq<Action>, i: nat)
    requires i < |Run(EMPTY, actions).rows| && Run(EMPTY, actions).rows[i].published
    ensures var s := Run(EMPTY, actions);
            exists p :: && 0 <= p < |s.publications| && s.publications[p].event == s.rows[i].id
                        && s.publications[p].subscribers > 0
                        && Handled(s.delivered, s.publications[p].subscribers, s.rows[i].id)
                        && forall q | 0 <= q < |s.publications| && q != p :: s.publications[q].event != s.rows[i].id
  {
    RunKeeps(EMPTY, actions);
    var s := Run(EMPTY, actions);
    var p :| 0 <= p < |s.publications| && s.publications[p].event == s.rows[i].id;
    forall q | 0 <= q < |s.publications| && q != p ensures s.publications[q].event != s.rows[i].id {
      var low, high := if p < q then p else q, if p < q then q else p;
      assert s.publications[low].event != s.publications[high].event;
    }
  }

  // ---------------------------------------------------------------- nothing is lost

  /** A row keeps what it says, is never unpublished, and never forgets an attempt. */
  predicate RowKept(before: Row, after: Row) {
    && after.id == before.id && after.eventType == before.eventType && after.payload == before.payload
    && (before.published ==> after.published) && before.attempts <= after.attempts
  }

  predicate HasRow(rows: seq<Row>, row: Row) { exists i :: 0 <= i < |rows| && RowKept(row, rows[i]) }

  lemma {:induction false} InsertKeepsRow(rows: seq<Row>, row: Row, x: Row)
    requires x in rows
    ensures x in InsertById(rows, row)
    decreases |rows|
  {
    if rows != [] && row.id >= rows[0].id && x != rows[0] {
      InsertKeepsRow(rows[1..], row, x);
    }
  }

  lemma StepKeepsRow(s: State, a: Action, i: nat)
    requires i < |s.rows|
    ensures HasRow(Step(s, a).rows, s.rows[i])
  {
    var after := Step(s, a).rows;
    if a.Arrive? && Fresh(s.rows, a.row) {
      InsertKeepsRow(s.rows, a.row, s.rows[i]);
      var j :| 0 <= j < |after| && after[j] == s.rows[i];
      assert RowKept(s.rows[i], after[j]);
    } else {
      assert RowKept(s.rows[i], after[i]);
    }
  }

  /** No row is ever lost, whatever crashes. */
  lemma {:induction false} NothingIsLost(s: State, actions: seq<Action>, i: nat)
    requires i < |s.rows|
    ensures HasRow(Run(s, actions).rows, s.rows[i])
    decreases |actions|
  {
    if actions == [] {
      assert RowKept(s.rows[i], s.rows[i]);
    } else {
      var next := Step(s, actions[0]);
      StepKeepsRow(s, actions[0], i);
      var j :| 0 <= j < |next.rows| && RowKept(s.rows[i], next.rows[j]);
      NothingIsLost(next, actions[1..], j);
      var k :| 0 <= k < |Run(s, actions).rows| && RowKept(next.rows[j], Run(s, actions).rows[k]);
      assert RowKept(s.rows[i], Run(s, actions).rows[k]);
    }
  }

  // ---------------------------------------------------------------- deduplicating subscribers

  /** What subscriber k has applied, if it ignores an event id it has already applied. */
  function Applied(delivered: seq<Delivery>, k: nat): seq<EventId>
    decreases |delivered|
  {
    if delivered == [] then []
    else
      var before, last := Applied(delivered[..|delivered| - 1], k), delivered[|delivered| - 1];
      if last.subscriber != k || last.event in before then before else before + [last.event]
  }

  lemma {:induction false} AppliedOnce(delivered: seq<Delivery>, k: nat)
    ensures forall i, j | 0 <= i < j < |Applied(delivered, k)| :: Applied(delivered, k)[i] != Applied(delivered, k)[j]
    ensures forall id :: id in Applied(delivered, k) <==> Delivery(k, id) in delivered
    decreases |delivered|
  {
    if delivered != [] {
      var init, last := delivered[..|delivered| - 1], delivered[|delivered| - 1];
      AppliedOnce(init, k);
      assert delivered == init + [last];
    }
  }

  predicate OccursOnce(ids: seq<EventId>, id: EventId) {
    exists i :: 0 <= i < |ids| && ids[i] == id && forall j | 0 <= j < |ids| && j != i :: ids[j] != id
  }

  lemma DistinctOccurOnce(ids: seq<EventId>, id: EventId)
    requires (forall i, j | 0 <= i < j < |ids| :: ids[i] != ids[j]) && id in ids
    ensures OccursOnce(ids, id)
  {
  }

  /** However often crashes made the relay deliver an event again, a deduplicating subscriber has
      applied each published event exactly once. */
  lemma EachPublishedEventAppliedOnce(actions: seq<Action>, p: nat, k: nat)
    requires p < |Run(EMPTY, actions).publications| && k < Run(EMPTY, actions).publications[p].subscribers
    ensures OccursOnce(Applied(Run(EMPTY, actions).delivered, k), Run(EMPTY, actions).publications[p].event)
  {
    RunKeeps(EMPTY, actions);
    var s := Run(EMPTY, actions);
    AppliedOnce(s.delivered, k);
    assert Delivery(k, s.publications[p].event) in s.delivered;
    DistinctOccurOnce(Applied(s.delivered, k), s.publications[p].event);
  }

  // ---------------------------------------------------------------- one call, uninterrupted

  /** How each subscriber answers each event during a call: `None` when its handler completes. */
  type Fails = (nat, EventId) -> Option<Message>

  /** The first subscriber from `k` on that fails, or their number. */
  function FirstFailure(subs: seq<Name>, id: EventId, fails: Fails, k: nat): (n: nat)
    requires k <= |subs|
    ensures k <= n <= |subs|
    ensures forall j | k <= j < n :: fails(j, id) == None
    ensures n < |subs| ==> fails(n, id).Some?
    decreases |subs| - k
  {
    if k == |subs| || fails(k, id).Some? then k else FirstFailure(subs, id, fails, k + 1)
  }

  function Verdict(subs: seq<Name>, id: EventId, fails: Fails): Option<Failure> {
    var n := FirstFailure(subs, id, fails, 0);
    if n == |subs| then None else Some(Failure(subs[n], fails(n, id).value))
  }

  function DeliveriesOf(n: nat, id: EventId): seq<Delivery> { seq(n, k requires 0 <= k < n => Delivery(k, id)) }

  function CallDeliveries(batch: seq<Row>, subs: seq<Name>, fails: Fails): seq<Delivery>
    decreases |batch|
  {
    if batch == [] then []
    else
      CallDeliveries(batch[..|batch| - 1], subs, fails)
      + DeliveriesOf(FirstFailure(subs, batch[|batch| - 1].id, fails, 0), batch[|batch| - 1].id)
  }

  function PublicationOf(id: EventId, subs: seq<Name>, fails: Fails): seq<Publication> {
    if Verdict(subs, id, fails) == None then [Publication(id, |subs|)] else []
  }

  function CallPublications(batch: seq<Row>, subs: seq<Name>, fails: Fails): seq<Publication>
    decreases |batch|
  {
    if batch == [] then []
    else CallPublications(batch[..|batch| - 1], subs, fails) + PublicationOf(batch[|batch| - 1].id, subs, fails)
  }

  /** The table after a call that processed its first `limit` selected rows: each published or failed,
      every other row untouched. */
  function Processed(rows: seq<Row>, eventType: Option<EventType>, limit: nat, subs: seq<Name>, fails: Fails): seq<Row>
    decreases |rows|
  {
    if rows == [] || limit == 0 then rows
    else if Selected(rows[0], eventType) then
      [Marking(Verdict(subs, rows[0].id, fails))(rows[0])] + Processed(rows[1..], eventType, limit - 1, subs, fails)
    else [rows[0]] + Processed(rows[1..], eventType, limit, subs, fails)
  }

  lemma {:induction false} ProcessedKeepsIds(rows: seq<Row>, eventType: Option<EventType>, limit: nat, subs: seq<Name>, fails: Fails)
    ensures |Processed(rows, eventType, limit, subs, fails)| == |rows|
    ensures forall i | 0 <= i < |rows| :: Processed(rows, eventType, limit, subs, fails)[i].id == rows[i].id
    decreases |rows|
  {
    if rows != [] && limit != 0 {
      ProcessedKeepsIds(rows[1..], eventType, if Selected(rows[0], eventType) then limit - 1 else limit, subs, fails);
    }
  }

  lemma UpdatePrepended(x: Row, rest: seq<Row>, id: EventId, f: Row -> Row)
    ensures UpdateWhere([x] + rest, id, f) == [if x.id == id then f(x) else x] + UpdateWhere(rest, id, f)
  {
  }

  lemma UpdateElsewhere(rows: seq<Row>, id: EventId, f: Row -> Row)
    requires forall i | 0 <= i < |rows| :: rows[i].id != id
    ensures UpdateWhere(rows, id, f) == rows
  {
  }

  /** `Processed` with the head of the table taken off. */
  function Head(row: Row, eventType: Option<EventType>, limit: nat, subs: seq<Name>, fails: Fails): Row {
    if limit > 0 && Selected(row, eventType) then Marking(Verdict(subs, row.id, fails))(row) else row
  }

  function Left(row: Row, eventType: Option<EventType>, limit: nat): nat {
    if limit > 0 && Selected(row, eventType) then limit - 1 else limit
  }

  lemma ProcessedUnfolds(rows: seq<Row>, eventType: Option<EventType>, limit: nat, subs: seq<Name>, fails: Fails)
    requires rows != []
    ensures Processed(rows, eventType, limit, subs, fails) ==
              [Head(rows[0], eventType, limit, subs, fails)] + Processed(rows[1..], eventType, Left(rows[0], eventType, limit), subs, fails)
  {
  }

  /** One more row of the batch updated is one more row processed. */
  lemma {:induction false} ProcessOneMore(rows: seq<Row>, eventType: Option<EventType>, limit: nat, subs: seq<Name>, fails: Fails, i: nat)
    requires Sorted(rows) && i < |Batch(rows, eventType, limit)|
    ensures var id := Batch(rows, eventType, limit)[i].id;
            UpdateWhere(Processed(rows, eventType, i, subs, fails), id, Marking(Verdict(subs, id, fails))) ==
              Processed(rows, eventType, i + 1, subs, fails)
    decreases |rows|
  {
    var id := Batch(rows, eventType, limit)[i].id;
    var rest := rows[1..];
    var f := Marking(Verdict(subs, id, fails));
    ProcessedUnfolds(rows, eventType, i, subs, fails);
    ProcessedUnfolds(rows, eventType, i + 1, subs, fails);
    UpdatePrepended(Head(rows[0], eventType, i, subs, fails), Processed(rest, eventType, Left(rows[0], eventType, i), subs, fails), id, f);
    if Selected(rows[0], eventType) && i == 0 {
      UpdateElsewhere(rest, id, f);
    } else {
      BatchAfter(rows, eventType, limit, i);
      ProcessOneMore(rest, eventType, Left(rows[0], eventType, limit), subs, fails, Left(rows[0], eventType, i));
    }
  }

  /** Past the head of the table, the batch has larger ids. */
  lemma BatchAfter(rows: seq<Row>, eventType: Option<EventType>, limit: nat, i: nat)
    requires Sorted(rows) && i < |Batch(rows, eventType, limit)| && (i > 0 || !Selected(rows[0], eventType))
    ensures Batch(rows, eventType, limit)[i].id > rows[0].id
  {
    var rest := Batch(rows[1..], eventType, if Selected(rows[0], eventType) then limit - 1 else limit);
    BatchIsPending(rows[1..], eventType, if Selected(rows[0], eventType) then limit - 1 else limit);
    var x := Batch(rows, eventType, limit)[i];
    assert x in rest;
    assert x in rows[1..];
  }
}
