/** Accounting periods: the three-state machine and the pure posting rule. Dates are day numbers
    (the source compares ISO strings, whose order is the order of the days). */
module Periods {
  import opened Outcomes

  type Id = nat

  datatype PeriodStatus = Open | Closed | Locked

  datatype PeriodEvent = Close | Lock | Reopen

  datatype Period = Period(entity: Id, first: int, last: int, status: PeriodStatus, version: nat)

  datatype PeriodError =
    | PeriodNotFound | StaleVersion | RoleRequired | IllegalTransition | SelfApproval
    | PeriodOverlap | OutsideFiscalYear | DatabaseRefusal

  // ---------------------------------------------------------------- the machine

  /** The chart's edge from `status` on `event`. */
  function Edge(status: PeriodStatus, event: PeriodEvent): Option<PeriodStatus> {
    match (status, event)
    case (Open, Close) => Some(Closed)
    case (Closed, Lock) => Some(Locked)
    case (Closed, Reopen) => Some(Open)
    case _ => None
  }

  /** The status after a list of events; `None` as soon as one is illegal. */
  function Advance(status: PeriodStatus, events: seq<PeriodEvent>): Option<PeriodStatus>
    decreases |events|
  {
    if events == [] then Some(status)
    else match Edge(status, events[0])
      case None => None
      case Some(next) => Advance(next, events[1..])
  }

  lemma {:induction false} AdvanceAppend(status: PeriodStatus, a: seq<PeriodEvent>, b: seq<PeriodEvent>)
    ensures Advance(status, a + b) == match Advance(status, a) case None => None case Some(mid) => Advance(mid, b)
    decreases |a|
  {
    if a == [] {
      assert a + b == b;
    } else {
      assert (a + b)[1..] == a[1..] + b;
      if Edge(status, a[0]).Some? { AdvanceAppend(Edge(status, a[0]).value, a[1..], b); }
    }
  }

  /** `advancePeriodStatus`: one actor, every event in order, the first illegal one refused. */
  method AdvancePeriodStatus(current: PeriodStatus, events: seq<PeriodEvent>) returns (r: Result<PeriodStatus, PeriodError>)
    ensures r == match Advance(current, events) case Some(status) => Ok(status) case None => Err(IllegalTransition)
  {
    var status := current;
    for i := 0 to |events|
      invariant Advance(current, events) == Advance(status, events[i..])
    {
      match Edge(status, events[i]) {
        case None => return Err(IllegalTransition);
        case Some(next) =>
          assert events[i..][1..] == events[i + 1..];
          status := next;
      }
    }
    return Ok(status);
  }

  /** Each legal event flips whether the period is closed, so a run of events that starts at
      version v and ends at status s ends closed exactly when the parity says so. */
  lemma {:induction false} ClosedByParity(status: PeriodStatus, events: seq<PeriodEvent>)
    requires Advance(status, events).Some?
    ensures (Advance(status, events).value == Closed) == ((status == Closed) == (|events| % 2 == 0))
    decreases |events|
  {
    if events != [] {
      ClosedByParity(Edge(status, events[0]).value, events[1..]);
    }
  }

  // ---------------------------------------------------------------- the posting rule

  predicate Covers(p: Period, entity: Id, date: int) {
    p.entity == entity && p.first <= date <= p.last
  }

  /** No two periods of one entity share a day (the table's exclusion constraint). */
  predicate Overlap(p: Period, q: Period) {
    p.entity == q.entity && p.first <= q.last && q.first <= p.last
  }

  datatype Named = Named(id: Id, period: Period)

  /** `findCoveringPeriod`: the first match of the list. */
  function FindCoveringPeriod(periods: seq<Named>, entity: Id, date: int): Option<Named> {
    if periods == [] then None
    else if Covers(periods[0].period, entity, date) then Some(periods[0])
    else FindCoveringPeriod(periods[1..], entity, date)
  }

  /** `isPostingAccepted`. */
  predicate IsPostingAccepted(periods: seq<Named>, entity: Id, date: int, periodId: Option<Id>) {
    match FindCoveringPeriod(periods, entity, date)
    case None => periodId == None
    case Some(covering) => (periodId == None || periodId == Some(covering.id)) && covering.period.status == Open
  }

  /** `getPeriod`. */
  function GetPeriod(periods: seq<Named>, id: Id): Option<Period> {
    if periods == [] then None
    else if periods[0].id == id then Some(periods[0].period)
    else GetPeriod(periods[1..], id)
  }

  /** `assertOpenPeriod` on the named period alone. */
  predicate AssertOpenPeriod(found: Option<Period>, entity: Id, date: int) {
    found.Some? && Covers(found.value, entity, date) && found.value.status == Open
  }

  /** Ids are unique and the exclusion constraint holds. */
  predicate WellFormed(periods: seq<Named>) {
    forall i, j | 0 <= i < j < |periods| ::
      periods[i].id != periods[j].id && !Overlap(periods[i].period, periods[j].period)
  }

  lemma {:induction false} CoveringIsUnique(periods: seq<Named>, entity: Id, date: int, k: nat)
    requires WellFormed(periods) && k < |periods| && Covers(periods[k].period, entity, date)
    ensures FindCoveringPeriod(periods, entity, date) == Some(periods[k])
  {
    if k > 0 {
      assert !Overlap(periods[0].period, periods[k].period);
      CoveringIsUnique(periods[1..], entity, date, k - 1);
    }
  }

  lemma {:induction false} CoveringIsMember(periods: seq<Named>, entity: Id, date: int)
    ensures var r := FindCoveringPeriod(periods, entity, date);
            if r.Some? then r.value in periods && Covers(r.value.period, entity, date)
            else forall k | 0 <= k < |periods| :: !Covers(periods[k].period, entity, date)
  {
    if periods != [] {
      CoveringIsMember(periods[1..], entity, date);
      assert forall k | 1 <= k < |periods| :: periods[k] == periods[1..][k - 1];
    }
  }

  lemma {:induction false} GetPeriodFinds(periods: seq<Named>, k: nat)
    requires WellFormed(periods) && k < |periods|
    ensures GetPeriod(periods, periods[k].id) == Some(periods[k].period)
  {
    if k > 0 {
      GetPeriodFinds(periods[1..], k - 1);
    }
  }

  lemma {:induction false} GetPeriodIsMember(periods: seq<Named>, id: Id)
    ensures GetPeriod(periods, id).Some? ==> Named(id, GetPeriod(periods, id).value) in periods
  {
    if periods != [] && periods[0].id != id {
      GetPeriodIsMember(periods[1..], id);
    }
  }

  /** The application's check of one named period accepts exactly when the pure posting rule over the
      whole calendar does. */
  lemma OpenPeriodIsPostingRule(periods: seq<Named>, entity: Id, date: int, id: Id)
    requires WellFormed(periods)
    ensures AssertOpenPeriod(GetPeriod(periods, id), entity, date) <==> IsPostingAccepted(periods, entity, date, Some(id))
  {
    var found := GetPeriod(periods, id);
    var covering := FindCoveringPeriod(periods, entity, date);
    GetPeriodIsMember(periods, id);
    CoveringIsMember(periods, entity, date);
    if AssertOpenPeriod(found, entity, date) {
      var k :| 0 <= k < |periods| && periods[k] == Named(id, found.value);
      CoveringIsUnique(periods, entity, date, k);
    }
    if covering.Some? {
      var k :| 0 <= k < |periods| && periods[k] == covering.value;
      GetPeriodFinds(periods, k);
    }
  }

  lemma FoundInAnyOrder(a: seq<Named>, b: seq<Named>, entity: Id, date: int)
    requires WellFormed(b) && (forall p | p in a :: p in b)
    ensures var r := FindCoveringPeriod(a, entity, date);
            r.Some? ==> FindCoveringPeriod(b, entity, date) == r
  {
    CoveringIsMember(a, entity, date);
    var r := FindCoveringPeriod(a, entity, date);
    if r.Some? {
      var k :| 0 <= k < |b| && b[k] == r.value;
      CoveringIsUnique(b, entity, date, k);
    }
  }

  /** The answer does not depend on the order of the list. */
  lemma PostingRuleIgnoresOrder(a: seq<Named>, b: seq<Named>, entity: Id, date: int, periodId: Option<Id>)
    requires WellFormed(a) && WellFormed(b) && (forall p :: p in a <==> p in b)
    ensures IsPostingAccepted(a, entity, date, periodId) == IsPostingAccepted(b, entity, date, periodId)
  {
    FoundInAnyOrder(a, b, entity, date);
    FoundInAnyOrder(b, a, entity, date);
  }
}
