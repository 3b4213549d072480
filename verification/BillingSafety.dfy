/** What the ledger system guarantees over every interleaving. */
module BillingSafety {
  import opened Outcomes
  import opened Journal
  import P = Periods
  import opened Billing
  import opened BillingInvariant

  // ---------------------------------------------------------------- reversals

  /** The entry reached by following `reversed_by` k times. */
  function Follow(db: Db, e: Id, k: nat): Option<Id>
    decreases k
  {
    if e !in db.entries then None
    else if k == 0 then Some(e)
    else match db.entries[e].reversedBy case None => None case Some(r) => Follow(db, r, k - 1)
  }

  lemma {:induction false} FollowAscends(db: Db, nextId: Id, e: Id, k: nat)
    requires EntriesOk(db, nextId) && Follow(db, e, k).Some?
    ensures Follow(db, e, k).value >= e + k
    decreases k
  {
    if k > 0 {
      var r := db.entries[e].reversedBy.value;
      assert ReversalOf(db, e, r);
      FollowAscends(db, nextId, r, k - 1);
    }
  }

  /** In every interleaving: an entry is reversed by at most one committed entry and reverses at most
      one; a reversing entry carries its original's lines, mirrored; and following `reversed_by`
      never comes back. */
  lemma ReversalsAreSound(actions: seq<Action>, e: Id)
    requires e in Run(EMPTY, actions).db.entries
    ensures var db := Run(EMPTY, actions).db;
            && (db.entries[e].reversedBy.Some? ==>
                 var r := db.entries[e].reversedBy.value;
                 && r in db.entries && db.entries[r].kind == Reversing
                 && db.entries[r].entity == db.entries[e].entity
                 && multiset(db.entries[r].rows) == multiset(MirrorRows(db.entries[e].rows))
                 && forall f | f in db.entries && db.entries[f].reversedBy == Some(r) :: f == e)
            && (forall k: nat | k >= 1 :: Follow(db, e, k) != Some(e))
            && BalancedRows(db.entries[e].rows)
  {
    InvInitially();
    RunKeeps(EMPTY, actions);
    var s := Run(EMPTY, actions);
    assert EntryOk(s.db, s.db.entries[e]);
    if s.db.entries[e].reversedBy.Some? {
      assert ReversalOf(s.db, e, s.db.entries[e].reversedBy.value);
    }
    forall k: nat | k >= 1 ensures Follow(s.db, e, k) != Some(e) {
      if Follow(s.db, e, k).Some? { FollowAscends(s.db, s.nextId, e, k); }
    }
  }

  /** The outbox tells exactly the committed reversals: one event for each, carrying the original's
      final version, and no event for anything else. */
  lemma OutboxTellsReversals(actions: seq<Action>, original: Id, reversing: Id)
    ensures var db := Run(EMPTY, actions).db;
            && ((exists v :: EntryReversed(original, reversing, v) in db.outbox)
                <==> original in db.entries && db.entries[original].reversedBy == Some(reversing))
            && (forall i, j | 0 <= i < j < |db.outbox| && db.outbox[i].EntryReversed? && db.outbox[j].EntryReversed? ::
                  db.outbox[i].original != db.outbox[j].original)
  {
    InvInitially();
    RunKeeps(EMPTY, actions);
    var db := Run(EMPTY, actions).db;
    if original in db.entries && db.entries[original].reversedBy == Some(reversing) {
      assert EntryReversed(original, reversing, db.entries[original].version) in db.outbox;
    }
  }

  /** The refusals of the mark that no repository maps to a typed error cannot occur: the reversing
      entry is never the original, is of the right kind and entity, and mirrors it. What is left is
      the scope check and the two races, each with its own error. */
  lemma MarkIsRefusedOnlyTyped(s: State, a: Action)
    requires Inv(s) && a.MarkReverse?
    ensures Attempt(s, a).Refused? ==>
              && a.t in s.txs && s.txs[a.t].ReverseWritten? && s.txs[a.t].rev.entry in s.db.entries
              && Attempt(s, a).error == JournalFailure(
                   if !a.inScope then EntryNotFound
                   else if s.db.entries[s.txs[a.t].rev.entry].reversedBy.Some? then AlreadyReversed
                   else StaleVersion)
    ensures Attempt(s, a).Moves? <==>
              && a.t in s.txs && s.txs[a.t].ReverseWritten? && s.txs[a.t].rev.entry in s.db.entries
              && FreeEntry(s, a.t, s.txs[a.t].rev.entry) && a.inScope
              && s.db.entries[s.txs[a.t].rev.entry].reversedBy == None && s.txs[a.t].rev.expectedVersion == 1
  {
    if a.t in s.txs && s.txs[a.t].ReverseWritten? {
      var tx := s.txs[a.t];
      assert TxOk(s.db, s.nextId, tx);
      assert EntryOk(s.db, s.db.entries[tx.rev.entry]);
      MirrorsAsBagsHolds(s.db.entries[tx.rev.entry].rows, tx.entry.rows);
    }
  }

  /** The deferred balance trigger never fires: COMMIT of a finished command always succeeds. */
  lemma CommitIsNeverRefused(s: State, a: Action)
    requires Inv(s) && a.Commit?
    ensures !Attempt(s, a).Refused?
  {
    if a.t in s.txs {
      assert TxOk(s.db, s.nextId, s.txs[a.t]);
    }
  }

  /** The mirrored lines of a reverser always store. */
  lemma MirroredLinesStore(db: Db, nextId: Id, tx: Tx)
    requires EntriesOk(db, nextId) && tx.ReverseMirrored? && TxOk(db, nextId, tx)
    ensures RowsOf(MirrorLines(ReadLines(tx.read))).Some? && StorableRows(RowsOf(MirrorLines(ReadLines(tx.read))).value)
  {
    MirroredRowsBalance(db, nextId, tx);
  }

  /** A reverser's insert meets an unmapped database refusal exactly when its period is not open for
      that date any more, or the account trigger now refuses a line: the mirrored amounts always fit. */
  lemma ReverseInsertRefusedIff(s: State, a: Action)
    requires Inv(s) && a.WriteReverse? && a.t in s.txs && s.txs[a.t].ReverseMirrored?
    requires FreeForShare(s, a.t, s.txs[a.t].rev.period)
    ensures var tx := s.txs[a.t];
            && !Attempt(s, a).Waits?
            && (Attempt(s, a).Refused? <==>
                 !a.accepted || !PostingPeriodAccepts(s.db, tx.seen.entity, tx.rev.date, tx.rev.period))
  {
    assert TxOk(s.db, s.nextId, s.txs[a.t]);
    MirroredLinesStore(s.db, s.nextId, s.txs[a.t]);
  }

  // ---------------------------------------------------------------- posted entries are immutable

  /** Entries are only added, and of an entry only the reversal mark is ever written, once. */
  predicate EntryKept(before: Entry, after: Entry) {
    after == before || (before.reversedBy == None && after.reversedBy.Some?
                        && after == before.(reversedBy := after.reversedBy, version := before.version + 1))
  }

  predicate LedgerGrows(before: Db, after: Db) {
    forall e | e in before.entries :: e in after.entries && EntryKept(before.entries[e], after.entries[e])
  }

  /** Committed rows change by a commit, which publishes the transaction's buffer, or by a verdict on
      a decision; no other statement writes anything another session can see. */
  lemma OnlyCommitsPublish(s: State, a: Action)
    ensures var after := Step(s, a).db;
            || after == s.db
            || (a.Decide? && after == s.db.(decisions := after.decisions))
            || (a.Commit? && a.t in s.txs && Published(s.db, s.txs[a.t]) == Some(after))
  {
  }

  lemma PublishedGrows(db: Db, nextId: Id, tx: Tx)
    requires TxOk(db, nextId, tx) && Published(db, tx).Some?
    ensures LedgerGrows(db, Published(db, tx).value)
  {
  }

  lemma StepGrowsLedger(s: State, a: Action)
    requires Inv(s)
    ensures LedgerGrows(s.db, Step(s, a).db)
  {
    OnlyCommitsPublish(s, a);
    if a.Commit? && a.t in s.txs && Published(s.db, s.txs[a.t]) == Some(Step(s, a).db) {
      PublishedGrows(s.db, s.nextId, s.txs[a.t]);
    }
  }

  lemma {:induction false} PostedEntriesAreImmutable(s: State, actions: seq<Action>)
    requires Inv(s)
    ensures LedgerGrows(s.db, Run(s, actions).db)
    decreases |actions|
  {
    if actions != [] {
      StepGrowsLedger(s, actions[0]);
      StepKeeps(s, actions[0]);
      PostedEntriesAreImmutable(Step(s, actions[0]), actions[1..]);
    }
  }

  // ---------------------------------------------------------------- no orphans

  /** A posting or an adjustment announced the entry. */
  predicate Announced(outbox: seq<Event>, e: Id) { EntryPosted(e) in outbox || EntryAdjusted(e) in outbox }

  predicate Reverses(db: Db, e: Id) { exists o | o in db.entries :: db.entries[o].reversedBy == Some(e) }

  /** Every committed entry was either announced or reverses another, and never both. */
  ghost predicate OriginsOk(db: Db) {
    && (forall e | e in db.entries :: Announced(db.outbox, e) <==> !Reverses(db, e))
    && (forall e: Id | Announced(db.outbox, e) :: e in db.entries)
  }

  lemma ReversersAreEntries(db: Db, nextId: Id, e: Id)
    requires EntriesOk(db, nextId) && Reverses(db, e)
    ensures e in db.entries
  {
    var o :| o in db.entries && db.entries[o].reversedBy == Some(e);
    assert ReversalOf(db, o, e);
  }

  lemma PostKeepsOrigins(before: Db, after: Db, id: Id, event: Event)
    requires OriginsOk(before) && !Reverses(before, id) && id !in before.entries
    requires after.outbox == before.outbox + [event] && (event == EntryPosted(id) || event == EntryAdjusted(id))
    requires id in after.entries && after.entries == before.entries[id := after.entries[id]] && after.entries[id].reversedBy == None
    ensures OriginsOk(after)
  {
    assert event in after.outbox;
    forall e: Id ensures Announced(after.outbox, e) <==> Announced(before.outbox, e) || e == id {
    }
    forall e: Id ensures Reverses(after, e) <==> Reverses(before, e) {
      if o :| o in before.entries && before.entries[o].reversedBy == Some(e) { assert after.entries[o].reversedBy == Some(e); }
    }
  }

  lemma ReverseKeepsOrigins(db: Db, original: Id, marked: Entry, id: Id, entry: Entry)
    requires OriginsOk(db) && id !in db.entries && original in db.entries && db.entries[original].reversedBy == None
    requires entry.reversedBy == None && marked.reversedBy == Some(id)
    ensures OriginsOk(db.(entries := db.entries[id := entry][original := marked],
                          outbox := db.outbox + [EntryReversed(original, id, marked.version)]))
  {
    var after := db.(entries := db.entries[id := entry][original := marked],
                     outbox := db.outbox + [EntryReversed(original, id, marked.version)]);
    forall e: Id ensures Announced(after.outbox, e) <==> Announced(db.outbox, e) {
    }
    assert after.entries[original].reversedBy == Some(id);
    forall e: Id | e != id ensures Reverses(after, e) <==> Reverses(db, e) {
      if o :| o in db.entries && db.entries[o].reversedBy == Some(e) { assert after.entries[o].reversedBy == Some(e); }
    }
  }

  lemma OthersKeepOrigins(before: Db, after: Db)
    requires OriginsOk(before) && after.entries == before.entries
    requires forall e: Id :: Announced(after.outbox, e) <==> Announced(before.outbox, e)
    ensures OriginsOk(after)
  {
    assert forall e: Id :: Reverses(after, e) == Reverses(before, e);
  }

  lemma PublishedKeepsOrigins(db: Db, nextId: Id, tx: Tx)
    requires EntriesOk(db, nextId) && TxOk(db, nextId, tx) && OriginsOk(db) && Published(db, tx).Some?
    ensures OriginsOk(Published(db, tx).value)
  {
    var after := Published(db, tx).value;
    if tx.PostWritten? {
      if Reverses(db, tx.id) { ReversersAreEntries(db, nextId, tx.id); }
      PostKeepsOrigins(db, after, tx.id, if tx.post.adjusting then EntryAdjusted(tx.id) else EntryPosted(tx.id));
    } else if tx.ReverseMarked? {
      ReverseKeepsOrigins(db, tx.rev.entry, tx.original, tx.id, tx.entry);
    } else {
      OthersKeepOrigins(db, after);
    }
  }

  lemma StepKeepsOrigins(s: State, a: Action)
    requires Inv(s) && OriginsOk(s.db)
    ensures OriginsOk(Step(s, a).db)
  {
    OnlyCommitsPublish(s, a);
    if a.Commit? && a.t in s.txs && Published(s.db, s.txs[a.t]) == Some(Step(s, a).db) {
      PublishedKeepsOrigins(s.db, s.nextId, s.txs[a.t]);
    } else {
      OthersKeepOrigins(s.db, Step(s, a).db);
    }
  }

  lemma {:induction false} RunKeepsOrigins(s: State, actions: seq<Action>)
    requires Inv(s) && OriginsOk(s.db)
    ensures OriginsOk(Run(s, actions).db)
    decreases |actions|
  {
    if actions != [] {
      StepKeepsOrigins(s, actions[0]);
      StepKeeps(s, actions[0]);
      RunKeepsOrigins(Step(s, actions[0]), actions[1..]);
    }
  }

  /** A reverser that loses its race leaves no orphan: in every interleaving a committed entry that no
      posting and no adjustment announced is the one reverser of exactly one entry, and an announced
      entry reverses none. */
  lemma NoOrphans(actions: seq<Action>, e: Id)
    requires e in Run(EMPTY, actions).db.entries
    ensures var db := Run(EMPTY, actions).db;
            && (Announced(db.outbox, e) <==> !Reverses(db, e))
            && (!Announced(db.outbox, e) ==>
                 exists o :: && o in db.entries && db.entries[o].reversedBy == Some(e)
                             && forall f | f in db.entries && db.entries[f].reversedBy == Some(e) :: f == o)
  {
    InvInitially();
    RunKeeps(EMPTY, actions);
    RunKeepsOrigins(EMPTY, actions);
    var s := Run(EMPTY, actions);
    if !Announced(s.db.outbox, e) { OneReversed(s.db, s.nextId, e); }
  }

  lemma OneReversed(db: Db, nextId: Id, e: Id)
    requires EntriesOk(db, nextId) && Reverses(db, e)
    ensures exists o :: && o in db.entries && db.entries[o].reversedBy == Some(e)
                        && forall f | f in db.entries && db.entries[f].reversedBy == Some(e) :: f == o
  {
    var o :| o in db.entries && db.entries[o].reversedBy == Some(e);
    forall f | f in db.entries && db.entries[f].reversedBy == Some(e) ensures f == o {
    }
  }

  // ---------------------------------------------------------------- closed means closed

  /** The entries dated inside a period's range, in its entity. */
  function EntriesIn(db: Db, p: P.Period): set<Id> {
    set e | e in db.entries && P.Covers(p, db.entries[e].entity, db.entries[e].date)
  }

  /** A period row only moves forward: same range, a version that never falls, and the same version
      means the same row. */
  predicate PeriodMoves(before: P.Period, after: P.Period) {
    && SameRange(before, after) && before.version <= after.version
    && (before.version == after.version ==> before == after)
    && (before.status == P.Locked ==> before == after)
  }

  lemma PublishedMovesPeriod(db: Db, nextId: Id, tx: Tx, p: Id)
    requires TxOk(db, nextId, tx) && Published(db, tx).Some? && p in db.periods
    ensures p in Published(db, tx).value.periods && PeriodMoves(db.periods[p], Published(db, tx).value.periods[p])
  {
  }

  lemma StepMovesPeriod(s: State, a: Action, p: Id)
    requires Inv(s) && p in s.db.periods
    ensures p in Step(s, a).db.periods && PeriodMoves(s.db.periods[p], Step(s, a).db.periods[p])
  {
    OnlyCommitsPublish(s, a);
    if a.Commit? && a.t in s.txs && Published(s.db, s.txs[a.t]) == Some(Step(s, a).db) {
      PublishedMovesPeriod(s.db, s.nextId, s.txs[a.t], p);
    }
  }

  /** A date inside a period's range is covered by no other period. */
  lemma OnlyCovering(periods: map<Id, P.Period>, nextId: Id, p: Id, entity: Id, date: int)
    requires PeriodsOk(periods, nextId) && p in periods && P.Covers(periods[p], entity, date)
    ensures forall q | q in periods && P.Covers(periods[q], entity, date) :: q == p
  {
  }

  lemma PublishedPosting(db: Db, nextId: Id, tx: Tx, e: Id)
    requires TxOk(db, nextId, tx) && Published(db, tx).Some?
    requires e !in db.entries && e in Published(db, tx).value.entries
    ensures var x := Published(db, tx).value.entries[e];
            && x.period in db.periods && db.periods[x.period].status == P.Open
            && P.Covers(db.periods[x.period], x.entity, x.date)
            && Published(db, tx).value.periods == db.periods
  {
  }

  /** At the commit of every posting, its period is open and is the only period covering its date. */
  lemma PostingCommitsIntoOpenPeriod(s: State, a: Action, e: Id)
    requires Inv(s) && e !in s.db.entries
    ensures e in Step(s, a).db.entries ==>
              var x := Step(s, a).db.entries[e];
              && x.period in s.db.periods && s.db.periods[x.period].status == P.Open
              && P.Covers(s.db.periods[x.period], x.entity, x.date)
              && (forall q | q in s.db.periods && P.Covers(s.db.periods[q], x.entity, x.date) :: q == x.period)
              && Step(s, a).db.periods == s.db.periods
  {
    if e in Step(s, a).db.entries {
      OnlyCommitsPublish(s, a);
      PublishedPosting(s.db, s.nextId, s.txs[a.t], e);
      var x := Step(s, a).db.entries[e];
      OnlyCovering(s.db.periods, s.nextId, x.period, x.entity, x.date);
    }
  }

  lemma StepKeepsClosedRange(s: State, a: Action, p: Id)
    requires Inv(s) && p in s.db.periods && s.db.periods[p].status != P.Open
    ensures EntriesIn(Step(s, a).db, s.db.periods[p]) == EntriesIn(s.db, s.db.periods[p])
  {
    var before, after := s.db, Step(s, a).db;
    StepGrowsLedger(s, a);
    forall e | e in after.entries && e !in before.entries
      ensures !P.Covers(before.periods[p], after.entries[e].entity, after.entries[e].date)
    {
      PostingCommitsIntoOpenPeriod(s, a, e);
    }
    SameEntriesIn(before, after, before.periods[p]);
  }

  lemma SameEntriesIn(before: Db, after: Db, p: P.Period)
    requires LedgerGrows(before, after)
    requires forall e | e in after.entries && e !in before.entries :: !P.Covers(p, after.entries[e].entity, after.entries[e].date)
    ensures EntriesIn(after, p) == EntriesIn(before, p)
  {
  }

  /** Once closed, a date range gains no entry until its period is reopened: over any stretch of any
      run in which the period's version has not moved, the entries of its range are the same. */
  lemma {:induction false} ClosedRangeGainsNothing(s: State, actions: seq<Action>, p: Id)
    requires Inv(s) && p in s.db.periods && s.db.periods[p].status != P.Open
    ensures p in Run(s, actions).db.periods
    ensures PeriodMoves(s.db.periods[p], Run(s, actions).db.periods[p])
    ensures Run(s, actions).db.periods[p].version == s.db.periods[p].version ==>
              EntriesIn(Run(s, actions).db, s.db.periods[p]) == EntriesIn(s.db, s.db.periods[p])
    decreases |actions|
  {
    if actions != [] {
      var next := Step(s, actions[0]);
      StepKeeps(s, actions[0]);
      StepMovesPeriod(s, actions[0], p);
      StepKeepsClosedRange(s, actions[0], p);
      if next.db.periods[p].status == P.Open {
        RunMovesPeriod(next, actions[1..], p);
      } else {
        ClosedRangeGainsNothing(next, actions[1..], p);
      }
    }
  }

  lemma {:induction false} RunMovesPeriod(s: State, actions: seq<Action>, p: Id)
    requires Inv(s) && p in s.db.periods
    ensures p in Run(s, actions).db.periods && PeriodMoves(s.db.periods[p], Run(s, actions).db.periods[p])
    decreases |actions|
  {
    if actions != [] {
      StepKeeps(s, actions[0]);
      StepMovesPeriod(s, actions[0], p);
      RunMovesPeriod(Step(s, actions[0]), actions[1..], p);
    }
  }

  /** A locked period is never unlocked, and its range never gains another entry. */
  lemma LockedRangeIsFinal(s: State, actions: seq<Action>, p: Id)
    requires Inv(s) && p in s.db.periods && s.db.periods[p].status == P.Locked
    ensures var db := Run(s, actions).db;
            && p in db.periods && db.periods[p] == s.db.periods[p]
            && EntriesIn(db, s.db.periods[p]) == EntriesIn(s.db, s.db.periods[p])
  {
    ClosedRangeGainsNothing(s, actions, p);
  }

  // ---------------------------------------------------------------- reopen decisions

  /** Without any idempotency key, a decision reopens at most once in any run, and only the period it
      was filed for, which by then has left the version it was filed at. */
  lemma DecisionIsSpentOnce(actions: seq<Action>, i: nat, j: nat)
    requires var box := Run(EMPTY, actions).db.outbox;
             i < |box| && j < |box| && box[i].PeriodReopened? && box[j].PeriodReopened? && box[i].decision == box[j].decision
    ensures i == j
    ensures var db := Run(EMPTY, actions).db;
            var d := db.outbox[i].decision;
            && d in db.decisions && db.decisions[d].period == db.outbox[i].period
            && db.outbox[i].period in db.periods
            && db.decisions[d].periodVersion < db.periods[db.outbox[i].period].version
  {
    InvInitially();
    RunKeeps(EMPTY, actions);
    var db := Run(EMPTY, actions).db;
    assert SpentOk(db, db.outbox[i]);
  }

  lemma ReopenFits(periods: map<Id, P.Period>, nextId: Id, p: Id, filed: nat)
    requires PeriodsOk(periods, nextId) && p in periods && periods[p].version == filed && filed % 2 == 0
    ensures P.Advance(periods[p].status, [P.Reopen]) == Some(P.Open)
  {
    assert PeriodOk(periods[p]);
    OneEvent(periods[p].status, P.Reopen);
  }

  /** A period is closed exactly when its version is even; so a decision whose version check passes
      always finds the REOPEN edge legal, and the machine refuses no reopening. */
  lemma ReopenEdgeIsAlwaysLegal(s: State, a: Action)
    requires Inv(s) && a.HoldReopen?
    ensures forall p | p in s.db.periods :: s.db.periods[p].status == P.Closed <==> s.db.periods[p].version % 2 == 0
    ensures Attempt(s, a) != Refused(PeriodFailure(P.IllegalTransition))
  {
    assert forall p | p in s.db.periods :: PeriodOk(s.db.periods[p]);
    if a.t in s.txs && s.txs[a.t].ReopenChecked? {
      var tx := s.txs[a.t];
      assert TxOk(s.db, s.nextId, tx);
      var p := tx.decided.period;
      if p in s.db.periods && s.db.periods[p].version == tx.decided.periodVersion {
        ReopenFits(s.db.periods, s.nextId, p, tx.decided.periodVersion);
      }
    }
  }
}
