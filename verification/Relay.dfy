/** The outbox relay: a table of events in id order, a registry of subscribers, and a relay call that
    delivers one step at a time and may crash between any two of them. A subscriber is its place in
    the registry. One relay call runs at a time, as the source assumes of itself. */
module Relay {
  import opened Outcomes

  type EventId = nat
  type EventType = nat
  type Name = string
  type Message = string

  datatype Failure = Failure(subscriber: Name, message: Message)

  datatype Row = Row(id: EventId, eventType: EventType, payload: int, published: bool, attempts: nat, lastError: Option<Failure>)

  /** A handler that completed, and an update that marked a row published after a whole list of them. */
  datatype Delivery = Delivery(subscriber: nat, event: EventId)

  datatype Publication = Publication(event: EventId, subscribers: nat)

  /** What is left of a relay call: its rows, the subscribers it read once, how many of them have
      handled the row at the head, and the failure that stopped them. */
  datatype Call = Call(remaining: seq<Row>, subs: seq<Name>, done: nat, failure: Option<Failure>)

  datatype State = State(rows: seq<Row>, registry: seq<Name>, delivered: seq<Delivery>,
                         publications: seq<Publication>, call: Option<Call>)

  datatype Action =
    | Arrive(row: Row)
    | Register(name: Name)
    | Begin(limit: nat, eventType: Option<EventType>)
    | Handle(failure: Option<Message>)
    | Update
    | End
    | Crash

  predicate Sorted(rows: seq<Row>) { forall i, j | 0 <= i < j < |rows| :: rows[i].id < rows[j].id }

  // ---------------------------------------------------------------- the table

  predicate Selected(row: Row, eventType: Option<EventType>) {
    !row.published && (eventType.Some? ==> row.eventType == eventType.value)
  }

  /** `where published_at is null [and event_type = …] order by id limit …`. */
  function Batch(rows: seq<Row>, eventType: Option<EventType>, limit: nat): seq<Row>
    decreases |rows|
  {
    if rows == [] || limit == 0 then []
    else if Selected(rows[0], eventType) then [rows[0]] + Batch(rows[1..], eventType, limit - 1)
    else Batch(rows[1..], eventType, limit)
  }

  function UpdateWhere(rows: seq<Row>, id: EventId, f: Row -> Row): seq<Row> {
    seq(|rows|, i requires 0 <= i < |rows| => if rows[i].id == id then f(rows[i]) else rows[i])
  }

  function MarkPublished(row: Row): Row { row.(published := true) }

  function MarkFailed(row: Row, failure: Failure): Row {
    row.(attempts := row.attempts + 1, lastError := Some(failure))
  }

  /** `f` applied to whichever row the update finds. */
  function Marking(failure: Option<Failure>): Row -> Row {
    (row: Row) => match failure case None => MarkPublished(row) case Some(e) => MarkFailed(row, e)
  }

  /** Ids come from a sequence, but rows appear when their transactions commit: in any order. */
  function InsertById(rows: seq<Row>, row: Row): seq<Row>
    decreases |rows|
  {
    if rows == [] || row.id < rows[0].id then [row] + rows else [rows[0]] + InsertById(rows[1..], row)
  }

  predicate Fresh(rows: seq<Row>, row: Row) {
    !row.published && row.attempts == 0 && forall i | 0 <= i < |rows| :: rows[i].id != row.id
  }

  // ---------------------------------------------------------------- steps

  function Step(s: State, a: Action): State {
    match a
    case Arrive(row) => if Fresh(s.rows, row) then s.(rows := InsertById(s.rows, row)) else s
    case Register(name) => s.(registry := s.registry + [name])
    case Begin(limit, eventType) =>
      if s.call.Some? || s.registry == [] then s
      else s.(call := Some(Call(Batch(s.rows, eventType, limit), s.registry, 0, None)))
    case Handle(failure) => StepHandle(s, failure)
    case Update => StepUpdate(s)
    case End => if s.call.Some? && s.call.value.remaining == [] then s.(call := None) else s
    case Crash => s.(call := None)
  }

  /** The next subscriber is invoked with the event at the head. */
  function StepHandle(s: State, failure: Option<Message>): State {
    match s.call
    case None => s
    case Some(c) =>
      if c.remaining == [] || c.failure.Some? || c.done >= |c.subs| then s
      else match failure
        case Some(message) => s.(call := Some(c.(failure := Some(Failure(c.subs[c.done], message)))))
        case None => s.(delivered := s.delivered + [Delivery(c.done, c.remaining[0].id)], call := Some(c.(done := c.done + 1)))
  }

  /** The row is marked, published when every subscriber of the call has handled it. */
  function StepUpdate(s: State): State {
    match s.call
    case None => s
    case Some(c) =>
      if c.remaining == [] || (c.failure == None && c.done < |c.subs|) then s
      else
        var id := c.remaining[0].id;
        s.(rows := UpdateWhere(s.rows, id, Marking(c.failure)),
           publications := if c.failure == None then s.publications + [Publication(id, |c.subs|)] else s.publications,
           call := Some(Call(c.remaining[1..], c.subs, 0, None)))
  }

  function Run(s: State, actions: seq<Action>): State
    decreases |actions|
  {
    if actions == [] then s else Run(Step(s, actions[0]), actions[1..])
  }

  const EMPTY: State := State([], [], [], [], None)

  // ---------------------------------------------------------------- the invariant

  predicate Handled(delivered: seq<Delivery>, subscribers: nat, event: EventId) {
    forall k | 0 <= k < subscribers :: Delivery(k, event) in delivered
  }

  predicate PublicationsOk(publications: seq<Publication>, delivered: seq<Delivery>) {
    && (forall i | 0 <= i < |publications| ::
          publications[i].subscribers > 0 && Handled(delivered, publications[i].subscribers, publications[i].event))
    && forall i, j | 0 <= i < j < |publications| :: publications[i].event != publications[j].event
  }

  function Events(publications: seq<Publication>): set<EventId> {
    set i | 0 <= i < |publications| :: publications[i].event
  }

  function Ids(rows: seq<Row>): set<EventId> { set i | 0 <= i < |rows| :: rows[i].id }

  function Pending(rows: seq<Row>): set<EventId> { set i | 0 <= i < |rows| && !rows[i].published :: rows[i].id }

  /** A row is published exactly when some call has marked it so. */
  predicate MarksOk(rows: seq<Row>, publications: seq<Publication>) {
    && (forall i | 0 <= i < |rows| :: rows[i].published <==> rows[i].id in Events(publications))
    && Events(publications) <= Ids(rows)
  }

  predicate CallOk(rows: seq<Row>, delivered: seq<Delivery>, call: Call) {
    && call.subs != [] && call.done <= |call.subs| && Sorted(call.remaining) && Ids(call.remaining) <= Pending(rows)
    && (call.remaining != [] ==> Handled(delivered, call.done, call.remaining[0].id))
    && (call.failure.Some? ==> call.done < |call.subs|)
  }

  predicate Inv(s: State) {
    && Sorted(s.rows) && PublicationsOk(s.publications, s.delivered) && MarksOk(s.rows, s.publications)
    && (s.call.Some? ==> CallOk(s.rows, s.delivered, s.call.value))
  }

  lemma Prepended(x: Row, rest: seq<Row>)
    ensures Ids([x] + rest) == Ids(rest) + {x.id}
    ensures Pending([x] + rest) == Pending(rest) + (if x.published then {} else {x.id})
  {
    var longer := [x] + rest;
    assert longer[0] == x && forall i | 0 <= i < |rest| :: longer[i + 1] == rest[i];
  }

  lemma {:induction false} InsertAdds(rows: seq<Row>, row: Row)
    requires !row.published
    ensures Ids(InsertById(rows, row)) == Ids(rows) + {row.id}
    ensures Pending(InsertById(rows, row)) == Pending(rows) + {row.id}
    decreases |rows|
  {
    if rows == [] || row.id < rows[0].id {
      Prepended(row, rows);
    } else {
      assert rows == [rows[0]] + rows[1..];
      InsertAdds(rows[1..], row);
      Prepended(rows[0], InsertById(rows[1..], row));
      Prepended(rows[0], rows[1..]);
    }
  }

  lemma {:induction false} InsertKeeps(rows: seq<Row>, row: Row)
    requires Sorted(rows) && Fresh(rows, row)
    ensures Sorted(InsertById(rows, row))
    ensures forall x | x in InsertById(rows, row) :: x in rows || x == row
    decreases |rows|
  {
    if rows != [] && row.id > rows[0].id {
      var rest := InsertById(rows[1..], row);
      InsertKeeps(rows[1..], row);
      forall i | 0 <= i < |rest| ensures rows[0].id < rest[i].id {
        assert rest[i] in rest;
      }
    }
  }

  lemma {:induction false} BatchIsPending(rows: seq<Row>, eventType: Option<EventType>, limit: nat)
    requires Sorted(rows)
    ensures Sorted(Batch(rows, eventType, limit))
    ensures forall x | x in Batch(rows, eventType, limit) :: x in rows && Selected(x, eventType)
    decreases |rows|
  {
    if rows != [] && limit != 0 {
      var rest := Batch(rows[1..], eventType, if Selected(rows[0], eventType) then limit - 1 else limit);
      BatchIsPending(rows[1..], eventType, if Selected(rows[0], eventType) then limit - 1 else limit);
      forall i | 0 <= i < |rest| ensures rows[0].id < rest[i].id {
        assert rest[i] in rest;
      }
    }
  }

  lemma ArriveKeeps(s: State, row: Row)
    requires Inv(s) && Fresh(s.rows, row)
    ensures Inv(Step(s, Arrive(row)))
  {
    var rows := InsertById(s.rows, row);
    InsertKeeps(s.rows, row);
    InsertAdds(s.rows, row);
    assert row.id !in Ids(s.rows);
    forall i | 0 <= i < |rows| ensures rows[i].published <==> rows[i].id in Events(s.publications) {
      assert rows[i] in rows;
    }
  }

  lemma BeginKeeps(s: State, limit: nat, eventType: Option<EventType>)
    requires Inv(s) && s.call == None && s.registry != []
    ensures Inv(Step(s, Begin(limit, eventType)))
  {
    var batch := Batch(s.rows, eventType, limit);
    BatchIsPending(s.rows, eventType, limit);
    forall id | id in Ids(batch) ensures id in Pending(s.rows) {
      var i :| 0 <= i < |batch| && batch[i].id == id;
      assert batch[i] in batch;
    }
  }

  lemma HandleKeeps(s: State, failure: Option<Message>)
    requires Inv(s)
    ensures Inv(StepHandle(s, failure))
  {
  }

  /** Marking one row: its id leaves the pending ones only when it is published. */
  lemma MarkOne(rows: seq<Row>, id: EventId, failure: Option<Failure>)
    requires Sorted(rows)
    ensures var after := UpdateWhere(rows, id, Marking(failure));
            && Sorted(after) && Ids(after) == Ids(rows)
            && Pending(after) == (if failure == None then Pending(rows) - {id} else Pending(rows))
            && forall i | 0 <= i < |after| :: after[i].published <==> rows[i].published || (rows[i].id == id && failure == None)
  {
    var after := UpdateWhere(rows, id, Marking(failure));
    assert forall i | 0 <= i < |after| :: after[i].id == rows[i].id;
  }

  lemma OneMoreEvent(publications: seq<Publication>, p: Publication)
    ensures Events(publications + [p]) == Events(publications) + {p.event}
  {
    var longer := publications + [p];
    assert longer[|publications|] == p && forall i | 0 <= i < |publications| :: longer[i] == publications[i];
  }

  lemma PendingIsUnmarked(rows: seq<Row>, publications: seq<Publication>, id: EventId)
    requires Sorted(rows) && MarksOk(rows, publications) && id in Pending(rows)
    ensures id in Ids(rows) && id !in Events(publications)
  {
  }

  lemma UpdateKeepsMarks(rows: seq<Row>, publications: seq<Publication>, id: EventId, failure: Option<Failure>, subscribers: nat)
    requires Sorted(rows) && MarksOk(rows, publications) && id in Pending(rows)
    ensures MarksOk(UpdateWhere(rows, id, Marking(failure)),
                    if failure == None then publications + [Publication(id, subscribers)] else publications)
  {
    MarkOne(rows, id, failure);
    OneMoreEvent(publications, Publication(id, subscribers));
    PendingIsUnmarked(rows, publications, id);
  }

  lemma UpdateKeepsPublications(publications: seq<Publication>, delivered: seq<Delivery>, p: Publication)
    requires PublicationsOk(publications, delivered) && p.event !in Events(publications)
    requires p.subscribers > 0 && Handled(delivered, p.subscribers, p.event)
    ensures PublicationsOk(publications + [p], delivered)
  {
  }

  lemma RestOfCall(rows: seq<Row>, remaining: seq<Row>)
    requires remaining != [] && Sorted(remaining) && Ids(remaining) <= Pending(rows)
    ensures Sorted(remaining[1..]) && Ids(remaining[1..]) <= Pending(rows) - {remaining[0].id} && remaining[0].id in Pending(rows)
  {
  }

  lemma UpdateKeeps(s: State)
    requires Inv(s)
    ensures Inv(StepUpdate(s))
  {
    if StepUpdate(s) != s {
      var c := s.call.value;
      var id := c.remaining[0].id;
      RestOfCall(s.rows, c.remaining);
      MarkOne(s.rows, id, c.failure);
      UpdateKeepsMarks(s.rows, s.publications, id, c.failure, |c.subs|);
      PendingIsUnmarked(s.rows, s.publications, id);
      if c.failure == None {
        UpdateKeepsPublications(s.publications, s.delivered, Publication(id, |c.subs|));
      }
    }
  }

  /** Every step keeps it, and a crash is a step like any other. */
  lemma StepKeeps(s: State, a: Action)
    requires Inv(s)
    ensures Inv(Step(s, a))
  {
    match a {
      case Arrive(row) => if Fresh(s.rows, row) { ArriveKeeps(s, row); }
      case Begin(limit, eventType) => if s.call == None && s.registry != [] { BeginKeeps(s, limit, eventType); }
      case Handle(failure) => HandleKeeps(s, failure);
      case Update => UpdateKeeps(s);
      case _ =>
    }
  }

  lemma {:induction false} RunKeeps(s: State, actions: seq<Action>)
    requires Inv(s)
    ensures Inv(Run(s, actions))
    decreases |actions|
  {
    if actions != [] {
      StepKeeps(s, actions[0]);
      RunKeeps(Step(s, actions[0]), actions[1..]);
    }
  }
}
