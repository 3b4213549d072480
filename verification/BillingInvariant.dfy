/** The invariant of the ledger system, and its preservation by every statement of every session. */
module BillingInvariant {
  import opened Outcomes
  import opened Journal
  import P = Periods
  import opened Billing

  // ---------------------------------------------------------------- committed rows

  predicate PeriodOk(p: P.Period) {
    p.first <= p.last && p.version >= 1 && (p.status == P.Closed <==> p.version % 2 == 0)
  }

  predicate PeriodsOk(periods: map<Id, P.Period>, nextId: Id) {
    && (forall p | p in periods :: p < nextId && PeriodOk(periods[p]))
    && (forall p, q | p in periods && q in periods && p != q :: !P.Overlap(periods[p], periods[q]))
  }

  /** A stored entry: lines one-sided and balanced, dated inside a period of its own entity, and at
      version 1 until it is reversed, 2 afterwards. */
  predicate EntryOk(db: Db, e: Entry) {
    && StorableRows(e.rows) && BalancedRows(e.rows)
    && e.period in db.periods && P.Covers(db.periods[e.period], e.entity, e.date)
    && e.version == (if e.reversedBy.Some? then 2 else 1)
  }

  /** r reverses e: a later reversing entry of the same entity with mirrored lines. */
  predicate ReversalOf(db: Db, e: Id, r: Id)
    requires e in db.entries
  {
    && e < r && r in db.entries
    && db.entries[r].kind == Reversing && db.entries[r].entity == db.entries[e].entity
    && Mirrors(db.entries[e].rows, db.entries[r].rows)
  }

  predicate EntriesOk(db: Db, nextId: Id) {
    && (forall e | e in db.entries :: e < nextId && EntryOk(db, db.entries[e]))
    && (forall e | e in db.entries && db.entries[e].reversedBy.Some? :: ReversalOf(db, e, db.entries[e].reversedBy.value))
    && (forall e, f | e in db.entries && f in db.entries && e != f && db.entries[e].reversedBy.Some? ::
          db.entries[e].reversedBy != db.entries[f].reversedBy)
  }

  /** A decision is filed for a closed period of its entity, and closed means an even version. */
  predicate FiledOk(periods: map<Id, P.Period>, d: Decision) {
    d.period in periods && d.entity == periods[d.period].entity && d.periodVersion % 2 == 0
  }

  predicate DecisionsOk(db: Db, nextId: Id) {
    forall d | d in db.decisions :: d < nextId && FiledOk(db.periods, db.decisions[d])
  }

  /** A reopening published by a decision spent that decision: the period has moved past its version. */
  predicate SpentOk(db: Db, e: Event) {
    e.PeriodReopened? ==>
      && e.period in db.periods && e.decision in db.decisions
      && db.decisions[e.decision].period == e.period
      && db.decisions[e.decision].periodVersion < db.periods[e.period].version
  }

  predicate OutboxOk(db: Db) {
    && (forall i | 0 <= i < |db.outbox| :: SpentOk(db, db.outbox[i]))
    && (forall i, j | 0 <= i < j < |db.outbox| && db.outbox[i].PeriodReopened? && db.outbox[j].PeriodReopened? ::
          db.outbox[i].decision != db.outbox[j].decision)
  }

  /** The outbox tells the reversal graph: an entry is marked exactly when one event says so. */
  predicate GraphOk(db: Db) {
    && (forall i | 0 <= i < |db.outbox| && db.outbox[i].EntryReversed? ::
          && db.outbox[i].original in db.entries
          && db.entries[db.outbox[i].original].reversedBy == Some(db.outbox[i].reversing))
    && (forall e | e in db.entries && db.entries[e].reversedBy.Some? ::
          EntryReversed(e, db.entries[e].reversedBy.value, db.entries[e].version) in db.outbox)
    && (forall i, j | 0 <= i < j < |db.outbox| && db.outbox[i].EntryReversed? && db.outbox[j].EntryReversed? ::
          db.outbox[i].original != db.outbox[j].original)
  }

  predicate DbOk(db: Db, nextId: Id) {
    PeriodsOk(db.periods, nextId) && EntriesOk(db, nextId) && DecisionsOk(db, nextId) && OutboxOk(db) && GraphOk(db)
  }

  // ---------------------------------------------------------------- open transactions

  /** An inserted, uncommitted entry: fresh, storable, balanced, and dated in a period that is open
      now and stays open as long as the share lock is held. */
  predicate InsertedOk(db: Db, nextId: Id, id: Id, e: Entry) {
    && id < nextId && id !in db.entries
    && e.reversedBy == None && EntryOk(db, e) && db.periods[e.period].status == P.Open
  }

  /** A reverser that read its original without a lock still knows what never changes of it. */
  predicate SeenOk(db: Db, rev: ReverseInput, seen: Entry) {
    rev.entry in db.entries && db.entries[rev.entry].entity == seen.entity && db.entries[rev.entry].rows == seen.rows
  }

  predicate MirrorOk(db: Db, rev: ReverseInput, id: Id, e: Entry) {
    && rev.entry in db.entries && rev.entry < id
    && e.kind == Reversing && e.entity == db.entries[rev.entry].entity
    && Mirrors(db.entries[rev.entry].rows, e.rows)
  }

  /** The row under the period lock is the one the command judged, and the buffered row is its
      machine successor at the next version. */
  predicate HeldOk(db: Db, id: Id, next: P.Period, event: Event) {
    && id in db.periods
    && next == db.periods[id].(status := next.status, version := db.periods[id].version + 1)
    && match event
       case PeriodClosed(p) => p == id && P.Edge(db.periods[id].status, P.Close) == Some(next.status)
       case PeriodLocked(p) => p == id && P.Edge(db.periods[id].status, P.Lock) == Some(next.status)
       case PeriodReopened(p, d) =>
         && p == id && P.Edge(db.periods[id].status, P.Reopen) == Some(next.status)
         && d in db.decisions && db.decisions[d].period == id
         && db.decisions[d].periodVersion == db.periods[id].version
       case _ => false
  }

  predicate TxOk(db: Db, nextId: Id, tx: Tx) {
    match tx
    case PostChecked(post) => AssertBalanced(post.lines).Ok?
    case PostWritten(post, id, entry) => InsertedOk(db, nextId, id, entry)
    case ReverseRead(rev, seen) => SeenOk(db, rev, seen)
    case ReverseGuarded(rev, seen) => SeenOk(db, rev, seen)
    case ReversePeriodOpen(rev, seen) => SeenOk(db, rev, seen)
    case ReverseMirrored(rev, seen, read) => SeenOk(db, rev, seen) && multiset(read) == multiset(seen.rows)
    case ReverseWritten(rev, id, entry) => InsertedOk(db, nextId, id, entry) && MirrorOk(db, rev, id, entry)
    case ReverseMarked(rev, id, entry, original) =>
      && InsertedOk(db, nextId, id, entry) && MirrorOk(db, rev, id, entry)
      && db.entries[rev.entry].reversedBy == None
      && original == db.entries[rev.entry].(reversedBy := Some(id), version := db.entries[rev.entry].version + 1)
    case PeriodHeld(id, next, event) => HeldOk(db, id, next, event)
    case ReopenChecked(d, seen, actor) =>
      && d in db.decisions && db.decisions[d].period == seen.period
      && db.decisions[d].periodVersion == seen.periodVersion
    case DecisionFiled(id, filed) =>
      id < nextId && id !in db.decisions && FiledOk(db.periods, filed)
    case PeriodInserted(id, inserted) =>
      && id < nextId && id !in db.periods && PeriodOk(inserted) && inserted.status == P.Open
      && (forall q | q in db.periods :: !P.Overlap(db.periods[q], inserted))
  }

  /** The id a transaction drew, if it drew one. */
  function Drawn(tx: Tx): Option<Id> {
    match tx
    case PostWritten(_, id, _) => Some(id)
    case ReverseWritten(_, id, _) => Some(id)
    case ReverseMarked(_, id, _, _) => Some(id)
    case DecisionFiled(id, _) => Some(id)
    case PeriodInserted(id, _) => Some(id)
    case _ => None
  }

  /** Two open transactions hold compatible locks and different ids. */
  predicate Compatible(a: Tx, b: Tx) {
    && (Drawn(a).Some? ==> Drawn(a) != Drawn(b))
    && (a.PeriodHeld? ==> !HoldsShare(b, a.period) && !HoldsUpdate(b, a.period))
    && (a.DecisionFiled? ==> !HoldsShare(b, a.filed.period) && !HoldsUpdate(b, a.filed.period))
    && (a.ReverseMarked? ==> !HoldsEntry(b, a.rev.entry))
    && (a.PeriodInserted? && b.PeriodInserted? ==> !P.Overlap(b.inserted, a.inserted))
  }

  predicate TxsOk(s: State) {
    && (forall t | t in s.txs :: TxOk(s.db, s.nextId, s.txs[t]))
    && (forall t, u | t in s.txs && u in s.txs && t != u :: Compatible(s.txs[t], s.txs[u]))
  }

  predicate Inv(s: State) { DbOk(s.db, s.nextId) && TxsOk(s) }

  lemma InvInitially()
    ensures Inv(EMPTY)
  {
  }

  // ---------------------------------------------------------------- frame lemmas

  lemma DropTx(s: State, t: TxId)
    requires Inv(s)
    ensures Inv(s.(txs := s.txs - {t}))
  {
  }

  /** The id generator only grows. */
  lemma MoreIds(db: Db, n: Id, m: Id, tx: Tx)
    requires n <= m && TxOk(db, n, tx)
    ensures TxOk(db, m, tx)
  {
  }

  /** A statement that only moves its own transaction keeps the invariant when the new phase is
      sound and compatible with every other open transaction. */
  lemma PutTx(s: State, t: TxId, tx: Tx, n: Id)
    requires Inv(s) && s.nextId <= n && TxOk(s.db, n, tx)
    requires forall u | u in s.txs && u != t :: Compatible(tx, s.txs[u]) && Compatible(s.txs[u], tx)
    ensures Inv(s.(nextId := n, txs := s.txs[t := tx]))
  {
    var s' := s.(nextId := n, txs := s.txs[t := tx]);
    forall u | u in s'.txs ensures TxOk(s'.db, s'.nextId, s'.txs[u]) {
      if u != t { MoreIds(s.db, s.nextId, n, s.txs[u]); }
    }
  }

  /** A transaction without locks or a drawn id is compatible with any other. */
  lemma LocklessCompatible(a: Tx, b: Tx)
    requires a.PostChecked? || a.ReverseRead? || a.ReverseGuarded? || a.ReversePeriodOpen? || a.ReverseMirrored? || a.ReopenChecked?
    ensures Compatible(a, b) && Compatible(b, a)
  {
  }

  lemma PutLockless(s: State, t: TxId, tx: Tx)
    requires Inv(s) && TxOk(s.db, s.nextId, tx)
    requires tx.PostChecked? || tx.ReverseRead? || tx.ReverseGuarded? || tx.ReversePeriodOpen? || tx.ReverseMirrored? || tx.ReopenChecked?
    ensures Inv(s.(txs := s.txs[t := tx]))
  {
    forall u | u in s.txs && u != t ensures Compatible(tx, s.txs[u]) && Compatible(s.txs[u], tx) {
      LocklessCompatible(tx, s.txs[u]);
    }
    PutTx(s, t, tx, s.nextId);
    assert s.(nextId := s.nextId, txs := s.txs[t := tx]) == s.(txs := s.txs[t := tx]);
  }

  /** An id drawn now differs from every id an open transaction drew. */
  lemma DrawnBelow(s: State, u: TxId)
    requires Inv(s) && u in s.txs
    ensures Drawn(s.txs[u]) != Some(s.nextId)
  {
  }

  // ---------------------------------------------------------------- posting and reversing

  lemma BeginPostKeeps(s: State, a: Action)
    requires Inv(s) && a.BeginPost? && DoBeginPost(s, a).Moves?
    ensures Inv(DoBeginPost(s, a).next)
  {
    PutLockless(s, a.t, PostChecked(a.post));
  }

  /** The entry an insert buffers is sound; its lines are the texts' own columns. */
  lemma InsertedEntryOk(s: State, t: TxId, entity: Id, date: int, period: Id, kind: EntryType, lines: seq<Line>, accepted: bool)
    requires EntriesOk(s.db, s.nextId)
    requires var r := InsertEntry(s, t, entity, date, period, kind, lines, accepted); r.Ok? && r.value.Some?
    requires RowsOf(lines).Some? && BalancedRows(RowsOf(lines).value)
    ensures var e := InsertEntry(s, t, entity, date, period, kind, lines, accepted).value.value;
            && InsertedOk(s.db, s.nextId + 1, s.nextId, e)
            && e.rows == RowsOf(lines).value && e.kind == kind && e.entity == entity && e.period == period
            && FreeForShare(s, t, period)
  {
  }

  /** A share lock taken while no update lock is held fits every other transaction. */
  lemma ShareCompatible(s: State, t: TxId, tx: Tx, u: TxId)
    requires Inv(s) && u in s.txs && u != t
    requires (tx.PostWritten? || tx.ReverseWritten?) && Drawn(tx) == Some(s.nextId)
    requires FreeForShare(s, t, tx.entry.period)
    ensures Compatible(tx, s.txs[u]) && Compatible(s.txs[u], tx)
  {
    DrawnBelow(s, u);
    assert !HoldsUpdate(s.txs[u], tx.entry.period);
  }

  lemma PutShare(s: State, t: TxId, tx: Tx)
    requires Inv(s) && TxOk(s.db, s.nextId + 1, tx)
    requires (tx.PostWritten? || tx.ReverseWritten?) && Drawn(tx) == Some(s.nextId)
    requires FreeForShare(s, t, tx.entry.period)
    ensures Inv(s.(nextId := s.nextId + 1, txs := s.txs[t := tx]))
  {
    forall u | u in s.txs && u != t ensures Compatible(tx, s.txs[u]) && Compatible(s.txs[u], tx) {
      ShareCompatible(s, t, tx, u);
    }
    PutTx(s, t, tx, s.nextId + 1);
  }

  lemma WritePostKeeps(s: State, a: Action)
    requires Inv(s) && a.WritePost? && DoWritePost(s, a).Moves?
    ensures Inv(DoWritePost(s, a).next)
  {
    var post := s.txs[a.t].post;
    assert TxOk(s.db, s.nextId, s.txs[a.t]);
    AssertBalancedIsCommitCheck(post.lines);
    InsertedEntryOk(s, a.t, post.entity, post.date, post.period, post.kind, post.lines, a.accepted);
    var e := InsertEntry(s, a.t, post.entity, post.date, post.period, post.kind, post.lines, a.accepted).value.value;
    PutShare(s, a.t, PostWritten(post, s.nextId, e));
  }

  lemma ReadReverseKeeps(s: State, a: Action)
    requires Inv(s) && (a.BeginReverse? || a.GuardReverse? || a.RecheckReverse? || a.MirrorReverse?) && Attempt(s, a).Moves?
    ensures Inv(Attempt(s, a).next)
  {
    if a.t in s.txs { assert TxOk(s.db, s.nextId, s.txs[a.t]); }
    PutLockless(s, a.t, Attempt(s, a).next.txs[a.t]);
  }

  /** The lines a reverser is about to store mirror the original's rows, and they balance although no
      balance check was made. */
  lemma MirroredRowsBalance(db: Db, nextId: Id, tx: Tx)
    requires EntriesOk(db, nextId) && tx.ReverseMirrored? && TxOk(db, nextId, tx)
    ensures RowsOf(MirrorLines(ReadLines(tx.read))) == Some(MirrorRows(tx.read))
    ensures StorableRows(MirrorRows(tx.read)) && BalancedRows(MirrorRows(tx.read))
    ensures Mirrors(db.entries[tx.rev.entry].rows, MirrorRows(tx.read))
  {
    var original := db.entries[tx.rev.entry];
    assert EntryOk(db, original);
    MirroredReadBack(original.rows, tx.read);
    MirrorsEffect(original.rows, MirrorRows(tx.read), 0);
  }

  lemma MirrorsAsBagsHolds(original: seq<Row>, reversing: seq<Row>)
    requires Mirrors(original, reversing)
    ensures MirrorsAsBags(original, reversing)
  {
    EachPermutes(SwappedSide, reversing, MirrorRows(original));
    var sides, swapped := Each(Side, original), Each(SwappedSide, MirrorRows(original));
    assert forall i | 0 <= i < |original| :: sides[i] == Side(original[i]) && swapped[i] == SwappedSide(MirrorRow(original[i]));
    assert sides == swapped;
  }

  lemma WrittenReverseOk(s: State, a: Action)
    requires EntriesOk(s.db, s.nextId) && a.WriteReverse? && DoWriteReverse(s, a).Moves? && TxOk(s.db, s.nextId, s.txs[a.t])
    ensures var tx := DoWriteReverse(s, a).next.txs[a.t];
            && tx.ReverseWritten? && tx.id == s.nextId && TxOk(s.db, s.nextId + 1, tx)
            && FreeForShare(s, a.t, tx.entry.period)
            && DoWriteReverse(s, a).next == s.(nextId := s.nextId + 1, txs := s.txs[a.t := tx])
  {
    var tx := s.txs[a.t];
    MirroredRowsBalance(s.db, s.nextId, tx);
    InsertedEntryOk(s, a.t, tx.seen.entity, tx.rev.date, tx.rev.period, Reversing, MirrorLines(ReadLines(tx.read)), a.accepted);
  }

  lemma WriteReverseKeeps(s: State, a: Action)
    requires Inv(s) && a.WriteReverse? && DoWriteReverse(s, a).Moves?
    ensures Inv(DoWriteReverse(s, a).next)
  {
    WrittenReverseOk(s, a);
    PutShare(s, a.t, DoWriteReverse(s, a).next.txs[a.t]);
  }

  lemma MarkedIsOk(s: State, a: Action)
    requires a.MarkReverse? && DoMarkReverse(s, a).Moves? && TxOk(s.db, s.nextId, s.txs[a.t])
    ensures TxOk(s.db, s.nextId, DoMarkReverse(s, a).next.txs[a.t])
  {
  }

  lemma MarkReverseKeeps(s: State, a: Action)
    requires Inv(s) && a.MarkReverse? && DoMarkReverse(s, a).Moves?
    ensures Inv(DoMarkReverse(s, a).next)
  {
    var tx, marked := s.txs[a.t], DoMarkReverse(s, a).next.txs[a.t];
    assert TxOk(s.db, s.nextId, tx);
    MarkedIsOk(s, a);
    forall u | u in s.txs && u != a.t ensures Compatible(marked, s.txs[u]) && Compatible(s.txs[u], marked) {
      assert Compatible(tx, s.txs[u]) && Compatible(s.txs[u], tx);
      assert !HoldsEntry(s.txs[u], tx.rev.entry);
    }
    PutTx(s, a.t, marked, s.nextId);
  }

  // ---------------------------------------------------------------- periods and decisions

  lemma UpdateCompatible(s: State, t: TxId, tx: Tx, u: TxId, period: Id)
    requires Inv(s) && u in s.txs && u != t && FreeForUpdate(s, t, period)
    requires (tx.PeriodHeld? && tx.period == period) || (tx.DecisionFiled? && tx.filed.period == period && tx.id == s.nextId)
    ensures Compatible(tx, s.txs[u]) && Compatible(s.txs[u], tx)
  {
    DrawnBelow(s, u);
    assert !HoldsUpdate(s.txs[u], period) && !HoldsShare(s.txs[u], period);
  }

  lemma PutUpdate(s: State, t: TxId, tx: Tx, n: Id, period: Id)
    requires Inv(s) && s.nextId <= n && TxOk(s.db, n, tx) && FreeForUpdate(s, t, period)
    requires (tx.PeriodHeld? && tx.period == period) || (tx.DecisionFiled? && tx.filed.period == period && tx.id == s.nextId)
    ensures Inv(s.(nextId := n, txs := s.txs[t := tx]))
  {
    forall u | u in s.txs && u != t ensures Compatible(tx, s.txs[u]) && Compatible(s.txs[u], tx) {
      UpdateCompatible(s, t, tx, u, period);
    }
    PutTx(s, t, tx, n);
  }

  lemma OneEvent(status: P.PeriodStatus, event: P.PeriodEvent)
    ensures P.Advance(status, [event]) == P.Edge(status, event)
  {
  }

  lemma BeginPeriodKeeps(s: State, a: Action)
    requires Inv(s) && a.BeginPeriod? && DoBeginPeriod(s, a).Moves?
    ensures Inv(DoBeginPeriod(s, a).next)
  {
    var id := a.command.period;
    var p := s.db.periods[id];
    OneEvent(p.status, EventOf(a.command));
    assert PeriodOk(p);
    var next := DoBeginPeriod(s, a).next;
    PutUpdate(s, a.t, next.txs[a.t], next.nextId, id);
  }

  lemma BeginApplyKeeps(s: State, a: Action)
    requires Inv(s) && a.BeginApply? && DoBeginApply(s, a).Moves?
    ensures Inv(DoBeginApply(s, a).next)
  {
    PutLockless(s, a.t, DoBeginApply(s, a).next.txs[a.t]);
  }

  lemma HoldReopenKeeps(s: State, a: Action)
    requires Inv(s) && a.HoldReopen? && DoHoldReopen(s, a).Moves?
    ensures Inv(DoHoldReopen(s, a).next)
  {
    var tx := s.txs[a.t];
    assert TxOk(s.db, s.nextId, tx);
    var p := s.db.periods[tx.decided.period];
    OneEvent(p.status, P.Reopen);
    var next := DoHoldReopen(s, a).next;
    PutUpdate(s, a.t, next.txs[a.t], s.nextId, tx.decided.period);
  }

  lemma OpenPeriodKeeps(s: State, a: Action)
    requires Inv(s) && a.OpenPeriod? && DoOpenPeriod(s, a).Moves?
    ensures Inv(DoOpenPeriod(s, a).next)
  {
    var next := DoOpenPeriod(s, a).next;
    var tx := next.txs[a.t];
    forall u | u in s.txs && u != a.t ensures Compatible(tx, s.txs[u]) && Compatible(s.txs[u], tx) {
      DrawnBelow(s, u);
    }
    PutTx(s, a.t, tx, s.nextId + 1);
  }

  // ---------------------------------------------------------------- commit

  /** Publishing t's buffer leaves a sound database in which every other transaction is sound. */
  predicate CommitSound(s: State, t: TxId)
    requires t in s.txs && Published(s.db, s.txs[t]).Some?
  {
    var db := Published(s.db, s.txs[t]).value;
    && DbOk(db, s.nextId)
    && forall u | u in s.txs && u != t :: TxOk(db, s.nextId, s.txs[u])
  }

  /** Entries may gain an entry and a mark: what an open transaction knows of the others stays true. */
  lemma EntriesMove(before: Db, after: Db, nextId: Id, tx: Tx, added: Id)
    requires TxOk(before, nextId, tx)
    requires after.periods == before.periods && after.decisions == before.decisions
    requires after.entries.Keys == before.entries.Keys + {added}
    requires forall e | e in before.entries ::
      after.entries[e].entity == before.entries[e].entity && after.entries[e].rows == before.entries[e].rows
    requires Drawn(tx) != Some(added)
    requires tx.ReverseMarked? ==> after.entries[tx.rev.entry] == before.entries[tx.rev.entry]
    ensures TxOk(after, nextId, tx)
  {
  }

  lemma PostKeepsEntries(s: State, t: TxId)
    requires Inv(s) && t in s.txs && s.txs[t].PostWritten?
    ensures EntriesOk(Published(s.db, s.txs[t]).value, s.nextId)
  {
    var tx := s.txs[t];
    assert TxOk(s.db, s.nextId, tx);
    var db := Published(s.db, tx).value;
    forall e | e in db.entries && db.entries[e].reversedBy.Some? ensures ReversalOf(db, e, db.entries[e].reversedBy.value) {
      assert ReversalOf(s.db, e, s.db.entries[e].reversedBy.value);
    }
  }

  lemma PostFrame(db: Db, nextId: Id, tx: Tx, other: Tx)
    requires tx.PostWritten? && TxOk(db, nextId, tx) && TxOk(db, nextId, other) && Compatible(tx, other)
    ensures TxOk(Published(db, tx).value, nextId, other)
  {
    EntriesMove(db, Published(db, tx).value, nextId, other, tx.id);
  }

  lemma CommitPostKeeps(s: State, t: TxId)
    requires Inv(s) && t in s.txs && s.txs[t].PostWritten?
    ensures CommitSound(s, t)
  {
    var tx := s.txs[t];
    var db := Published(s.db, tx).value;
    PostKeepsEntries(s, t);
    assert tx.id !in s.db.entries && tx.entry.reversedBy == None by { assert TxOk(s.db, s.nextId, tx); }
    var event := if tx.post.adjusting then EntryAdjusted(tx.id) else EntryPosted(tx.id);
    OutboxGrows(s.db, db, event);
    GraphGrows(s.db, db, event);
    forall u | u in s.txs && u != t ensures TxOk(db, s.nextId, s.txs[u]) {
      PostFrame(s.db, s.nextId, tx, s.txs[u]);
    }
  }

  /** One more outbox row, which reopens nothing. */
  lemma OutboxGrows(before: Db, after: Db, event: Event)
    requires OutboxOk(before) && after.outbox == before.outbox + [event] && !event.PeriodReopened?
    requires before.decisions == after.decisions
    requires forall p | p in before.periods :: p in after.periods && before.periods[p].version <= after.periods[p].version
    ensures OutboxOk(after)
  {
  }

  /** One more outbox row, which reverses nothing, and possibly more unreversed entries. */
  lemma GraphGrows(before: Db, after: Db, event: Event)
    requires GraphOk(before) && after.outbox == before.outbox + [event] && !event.EntryReversed?
    requires forall e | e in before.entries :: e in after.entries && after.entries[e] == before.entries[e]
    requires forall e | e in after.entries && e !in before.entries :: after.entries[e].reversedBy == None
    ensures GraphOk(after)
  {
  }

  lemma CommitReverseEntries(s: State, t: TxId)
    requires Inv(s) && t in s.txs && s.txs[t].ReverseMarked?
    ensures EntriesOk(Published(s.db, s.txs[t]).value, s.nextId)
  {
    assert TxOk(s.db, s.nextId, s.txs[t]);
    MarkedEntries(s.db, s.nextId, s.txs[t]);
  }

  lemma MarkedEntries(before: Db, nextId: Id, tx: Tx)
    requires EntriesOk(before, nextId) && tx.ReverseMarked? && TxOk(before, nextId, tx)
    ensures EntriesOk(Published(before, tx).value, nextId)
  {
    var db := Published(before, tx).value;
    MarkedOnce(before, nextId, tx);
    forall e | e in db.entries && db.entries[e].reversedBy.Some? ensures ReversalOf(db, e, db.entries[e].reversedBy.value) {
      if e != tx.rev.entry { assert ReversalOf(before, e, before.entries[e].reversedBy.value); }
    }
  }

  /** No other entry was reversed by the new one, whose id is fresh. */
  lemma MarkedOnce(before: Db, nextId: Id, tx: Tx)
    requires EntriesOk(before, nextId) && tx.ReverseMarked? && TxOk(before, nextId, tx)
    ensures var db := Published(before, tx).value;
            forall e, f | e in db.entries && f in db.entries && e != f && db.entries[e].reversedBy.Some? ::
              db.entries[e].reversedBy != db.entries[f].reversedBy
  {
    forall e | e in before.entries && before.entries[e].reversedBy.Some? ensures before.entries[e].reversedBy != Some(tx.id) {
      assert ReversalOf(before, e, before.entries[e].reversedBy.value);
    }
  }

  lemma MarkedOutbox(before: Db, tx: Tx)
    requires OutboxOk(before) && tx.ReverseMarked?
    ensures OutboxOk(Published(before, tx).value)
  {
  }

  lemma CommitReverseGraph(s: State, t: TxId)
    requires Inv(s) && t in s.txs && s.txs[t].ReverseMarked?
    ensures GraphOk(Published(s.db, s.txs[t]).value)
  {
    var tx := s.txs[t];
    assert TxOk(s.db, s.nextId, tx);
    MarkedGraph(s.db, Published(s.db, tx).value, tx);
  }

  lemma MarkedGraph(before: Db, after: Db, tx: Tx)
    requires GraphOk(before) && tx.ReverseMarked? && Published(before, tx) == Some(after)
    requires tx.rev.entry in before.entries && before.entries[tx.rev.entry].reversedBy == None
    requires tx.original.reversedBy == Some(tx.id) && tx.id !in before.entries && tx.entry.reversedBy == None
    ensures GraphOk(after)
  {
    var o, n := tx.rev.entry, |before.outbox|;
    assert after.outbox[n] == EntryReversed(o, tx.id, tx.original.version);
    assert forall i | 0 <= i < n :: after.outbox[i] == before.outbox[i];
    forall e | e in after.entries && after.entries[e].reversedBy.Some?
      ensures EntryReversed(e, after.entries[e].reversedBy.value, after.entries[e].version) in after.outbox
    {
      if e != o {
        assert EntryReversed(e, before.entries[e].reversedBy.value, before.entries[e].version) in before.outbox;
      }
    }
  }

  lemma ReverseFrame(db: Db, nextId: Id, tx: Tx, other: Tx)
    requires tx.ReverseMarked? && TxOk(db, nextId, tx) && TxOk(db, nextId, other) && Compatible(tx, other)
    ensures TxOk(Published(db, tx).value, nextId, other)
  {
    EntriesMove(db, Published(db, tx).value, nextId, other, tx.id);
  }

  lemma CommitReverseKeeps(s: State, t: TxId)
    requires Inv(s) && t in s.txs && s.txs[t].ReverseMarked?
    ensures CommitSound(s, t)
  {
    var db := Published(s.db, s.txs[t]).value;
    CommitReverseEntries(s, t);
    MarkedOutbox(s.db, s.txs[t]);
    CommitReverseGraph(s, t);
    forall u | u in s.txs && u != t ensures TxOk(db, s.nextId, s.txs[u]) {
      ReverseFrame(s.db, s.nextId, s.txs[t], s.txs[u]);
    }
  }

  lemma HeldPeriods(before: Db, nextId: Id, id: Id, next: P.Period, event: Event)
    requires PeriodsOk(before.periods, nextId) && HeldOk(before, id, next, event)
    ensures PeriodsOk(before.periods[id := next], nextId)
  {
  }

  predicate SameRange(p: P.Period, q: P.Period) { q.entity == p.entity && q.first == p.first && q.last == p.last }

  /** Entries mention a period's range and entity, never its status or version. */
  lemma EntriesFrame(before: Db, after: Db, nextId: Id)
    requires EntriesOk(before, nextId) && after.entries == before.entries
    requires forall p | p in before.periods :: p in after.periods && SameRange(before.periods[p], after.periods[p])
    ensures EntriesOk(after, nextId)
  {
  }

  lemma HeldOutbox(before: Db, id: Id, next: P.Period, event: Event)
    requires OutboxOk(before) && GraphOk(before) && HeldOk(before, id, next, event)
    ensures var after := before.(periods := before.periods[id := next], outbox := before.outbox + [event]);
            OutboxOk(after) && GraphOk(after)
  {
    var after := before.(periods := before.periods[id := next], outbox := before.outbox + [event]);
    GraphGrows(before, after, event);
    if event.PeriodReopened? {
      var n := |before.outbox|;
      assert forall i | 0 <= i < n :: after.outbox[i] == before.outbox[i];
      forall i | 0 <= i < |after.outbox| ensures SpentOk(after, after.outbox[i]) {
        if i < n { assert SpentOk(before, before.outbox[i]); }
      }
      forall i | 0 <= i < n && before.outbox[i].PeriodReopened? ensures before.outbox[i].decision != event.decision {
        assert SpentOk(before, before.outbox[i]);
      }
    } else {
      OutboxGrows(before, after, event);
    }
  }

  /** A period moved under its update lock: no other transaction holds a lock on it, so none of them
      depends on its status or version. */
  lemma HeldFrame(db: Db, nextId: Id, tx: Tx, other: Tx)
    requires tx.PeriodHeld? && TxOk(db, nextId, tx) && TxOk(db, nextId, other) && Compatible(tx, other)
    ensures TxOk(Published(db, tx).value, nextId, other)
  {
  }

  lemma HeldKeepsDb(db: Db, nextId: Id, tx: Tx)
    requires DbOk(db, nextId) && tx.PeriodHeld? && TxOk(db, nextId, tx)
    ensures DbOk(Published(db, tx).value, nextId)
  {
    HeldPeriods(db, nextId, tx.period, tx.next, tx.event);
    EntriesFrame(db, Published(db, tx).value, nextId);
    HeldOutbox(db, tx.period, tx.next, tx.event);
  }

  lemma CommitHeldKeeps(s: State, t: TxId)
    requires Inv(s) && t in s.txs && s.txs[t].PeriodHeld?
    ensures CommitSound(s, t)
  {
    var tx := s.txs[t];
    assert TxOk(s.db, s.nextId, tx);
    HeldKeepsDb(s.db, s.nextId, tx);
    forall u | u in s.txs && u != t ensures TxOk(Published(s.db, tx).value, s.nextId, s.txs[u]) {
      HeldFrame(s.db, s.nextId, tx, s.txs[u]);
    }
  }

  /** Decisions may gain a row, or a row may get another verdict. */
  predicate DecisionsMove(before: Db, after: Db) {
    && after == before.(decisions := after.decisions)
    && forall d | d in before.decisions ::
         && d in after.decisions && after.decisions[d].period == before.decisions[d].period
         && after.decisions[d].periodVersion == before.decisions[d].periodVersion
  }

  lemma DecisionsFrame(s: State, db: Db)
    requires Inv(s) && DecisionsMove(s.db, db) && DecisionsOk(db, s.nextId)
    ensures DbOk(db, s.nextId)
    ensures forall u | u in s.txs && !s.txs[u].DecisionFiled? :: TxOk(db, s.nextId, s.txs[u])
  {
    EntriesFrame(s.db, db, s.nextId);
    forall i | 0 <= i < |db.outbox| ensures SpentOk(db, db.outbox[i]) {
      assert SpentOk(s.db, s.db.outbox[i]);
    }
    forall u | u in s.txs && !s.txs[u].DecisionFiled? ensures TxOk(db, s.nextId, s.txs[u]) {
      assert TxOk(s.db, s.nextId, s.txs[u]);
    }
  }

  lemma CommitFiledKeeps(s: State, t: TxId)
    requires Inv(s) && t in s.txs && s.txs[t].DecisionFiled?
    ensures CommitSound(s, t)
  {
    var tx := s.txs[t];
    assert TxOk(s.db, s.nextId, tx);
    var db := Published(s.db, tx).value;
    DecisionsFrame(s, db);
    forall u | u in s.txs && u != t ensures TxOk(db, s.nextId, s.txs[u]) {
      assert Compatible(tx, s.txs[u]);
      assert TxOk(s.db, s.nextId, s.txs[u]);
    }
  }

  lemma InsertedKeepsDb(db: Db, nextId: Id, tx: Tx)
    requires DbOk(db, nextId) && tx.PeriodInserted? && TxOk(db, nextId, tx)
    ensures DbOk(Published(db, tx).value, nextId)
  {
    var after := Published(db, tx).value;
    EntriesFrame(db, after, nextId);
    OutboxGrows(db, after, PeriodOpened(tx.id));
    GraphGrows(db, after, PeriodOpened(tx.id));
  }

  lemma InsertedFrame(db: Db, nextId: Id, tx: Tx, other: Tx)
    requires tx.PeriodInserted? && TxOk(db, nextId, tx) && TxOk(db, nextId, other) && Compatible(tx, other)
    ensures TxOk(Published(db, tx).value, nextId, other)
  {
  }

  lemma CommitInsertedKeeps(s: State, t: TxId)
    requires Inv(s) && t in s.txs && s.txs[t].PeriodInserted?
    ensures CommitSound(s, t)
  {
    var tx := s.txs[t];
    assert TxOk(s.db, s.nextId, tx);
    InsertedKeepsDb(s.db, s.nextId, tx);
    forall u | u in s.txs && u != t ensures TxOk(Published(s.db, tx).value, s.nextId, s.txs[u]) {
      InsertedFrame(s.db, s.nextId, tx, s.txs[u]);
    }
  }

  lemma CommitKeeps(s: State, a: Action)
    requires Inv(s) && a.Commit? && DoCommit(s, a).Moves?
    ensures Inv(DoCommit(s, a).next)
  {
    match s.txs[a.t] {
      case PostWritten(_, _, _) => CommitPostKeeps(s, a.t);
      case ReverseMarked(_, _, _, _) => CommitReverseKeeps(s, a.t);
      case PeriodHeld(_, _, _) => CommitHeldKeeps(s, a.t);
      case DecisionFiled(_, _) => CommitFiledKeeps(s, a.t);
      case PeriodInserted(_, _) => CommitInsertedKeeps(s, a.t);
      case _ =>
    }
  }

  lemma DecideKeeps(s: State, a: Action)
    requires Inv(s) && a.Decide? && DoDecide(s, a).Moves?
    ensures Inv(DoDecide(s, a).next)
  {
    var next := DoDecide(s, a).next;
    DecisionsFrame(s, next.db);
    forall u | u in s.txs ensures TxOk(next.db, s.nextId, s.txs[u]) {
      assert TxOk(s.db, s.nextId, s.txs[u]);
    }
  }

  // ---------------------------------------------------------------- every statement, every run

  predicate OfJournal(a: Action) {
    a.BeginPost? || a.WritePost? || a.BeginReverse? || a.GuardReverse? || a.RecheckReverse? || a.MirrorReverse?
    || a.WriteReverse? || a.MarkReverse?
  }

  lemma JournalMoveKeeps(s: State, a: Action)
    requires Inv(s) && OfJournal(a) && Attempt(s, a).Moves?
    ensures Inv(Attempt(s, a).next)
  {
    match a {
      case BeginPost(_, _, _, _, _) => BeginPostKeeps(s, a);
      case WritePost(_, _) => WritePostKeeps(s, a);
      case WriteReverse(_, _) => WriteReverseKeeps(s, a);
      case MarkReverse(_, _) => MarkReverseKeeps(s, a);
      case _ => ReadReverseKeeps(s, a);
    }
  }

  lemma OtherMoveKeeps(s: State, a: Action)
    requires Inv(s) && !OfJournal(a) && Attempt(s, a).Moves?
    ensures Inv(Attempt(s, a).next)
  {
    match a {
      case BeginPeriod(_, _, _, _) => BeginPeriodKeeps(s, a);
      case BeginApply(_, _, _, _, _) => BeginApplyKeeps(s, a);
      case HoldReopen(_, _, _) => HoldReopenKeeps(s, a);
      case OpenPeriod(_, _, _, _, _) => OpenPeriodKeeps(s, a);
      case Commit(_) => CommitKeeps(s, a);
      case Abort(t) => DropTx(s, t);
      case Decide(_, _, _, _) => DecideKeeps(s, a);
      case _ =>
    }
  }

  /** Every statement of every session keeps the invariant, whether it moves, waits or is refused. */
  lemma StepKeeps(s: State, a: Action)
    requires Inv(s)
    ensures Inv(Step(s, a))
  {
    match Attempt(s, a) {
      case Waits =>
      case Refused(_) => if !a.Decide? { DropTx(s, a.t); }
      case Moves(_) => if OfJournal(a) { JournalMoveKeeps(s, a); } else { OtherMoveKeeps(s, a); }
    }
  }

  /** … and so does every interleaving. */
  lemma {:induction false} RunKeeps(s: State, actions: seq<Action>)
    requires Inv(s)
    ensures Inv(Run(s, actions))
    decreases |actions|
  {
    if actions != [] {
      StepKeeps(s, actions[0]);
      RunKeeps(Step(s, actions[0]), actions[1..]);
    }
  }
}
