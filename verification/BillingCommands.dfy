/** The commands as they run: one session working statement by statement on the tables it shares with
    the other open transactions. A statement makes its checks and its writes on the tables and is
    proved to be the machine's statement; a command is its statements in order, up to the first that
    fails or waits for a lock, and says outright when it goes through and what it then commits. */
module BillingCommands {
  import opened Outcomes
  import opened Journal
  import P = Periods
  import opened Billing
  import opened BillingInvariant

  datatype Reversal = Reversal(reversing: Id, originalVersion: nat)

  datatype PeriodResult = PeriodResult(version: nat, status: P.PeriodStatus)

  // ---------------------------------------------------------------- a command is a run

  /** Wherever a command stops, its session has run some of its statements: so whatever holds of every
      interleaving holds of commands. */
  lemma {:induction false} CallIsRun(s: State, script: seq<Action>)
    ensures exists n: nat :: n <= |script| && Call(s, script).0 == Run(s, script[..n])
    decreases |script|
  {
    if script == [] {
      assert script[..0] == [];
    } else {
      var next := Step(s, script[0]);
      assert script[..1][1..] == [];
      assert Run(s, script[..1]) == Run(next, []);
      if Attempt(s, script[0]).Moves? {
        CallIsRun(next, script[1..]);
        var n: nat :| n <= |script[1..]| && Call(next, script[1..]).0 == Run(next, script[1..][..n]);
        assert script[..n + 1][1..] == script[1..][..n];
      } else {
        assert Call(s, script).0 == next;
      }
    }
  }

  lemma CallOne(s: State, a: Action)
    ensures Call(s, [a]) == match Attempt(s, a)
                            case Waits => (s, Waiting)
                            case Refused(e) => (Step(s, a), Failed(e))
                            case Moves(next) => (next, Done(()))
  {
  }

  function Then(sofar: (State, Progress<(), BillingError>), a: Action): (State, Progress<(), BillingError>) {
    if sofar.1.Done? then Call(sofar.0, [a]) else sofar
  }

  lemma CallTwo(s: State, a: Action, b: Action)
    ensures Call(s, [a, b]) == Then(Call(s, [a]), b)
  {
    CallOne(s, a);
    assert [a, b][1..] == [b];
  }

  lemma {:induction false} CallAppend(s: State, a: seq<Action>, b: seq<Action>)
    ensures var (next, ending) := Call(s, a);
            Call(s, a + b) == if ending.Done? then Call(next, b) else (next, ending)
    decreases |a|
  {
    if a == [] {
      assert a + b == b;
    } else {
      assert (a + b)[1..] == a[1..] + b;
      if Attempt(s, a[0]).Moves? { CallAppend(Attempt(s, a[0]).next, a[1..], b); }
    }
  }

  lemma PutAndDrop(s: State, t: TxId, tx: Tx)
    requires t !in s.txs
    ensures s.txs - {t} == s.txs && s.txs[t := tx] - {t} == s.txs
  {
  }

  /** A session's own phase does not stand in its way. */
  lemma FreeAfterPut(s: State, n: Id, t: TxId, tx: Tx, id: Id)
    ensures var next := s.(nextId := n, txs := s.txs[t := tx]);
            && FreeForShare(next, t, id) == FreeForShare(s, t, id)
            && FreeForUpdate(next, t, id) == FreeForUpdate(s, t, id)
            && FreeEntry(next, t, id) == FreeEntry(s, t, id)
  {
    var txs := s.txs[t := tx];
    assert forall u | u in s.txs && u != t :: u in txs && txs[u] == s.txs[u];
    assert forall u | u in txs && u != t :: u in s.txs;
  }

  // ---------------------------------------------------------------- posting

  function PrepareScript(t: TxId, post: PostInput, inScope: bool, hasRole: bool, accounts: map<Id, AccountFacts>, accepted: bool): seq<Action> {
    [BeginPost(t, post, inScope, hasRole, accounts), WritePost(t, accepted)]
  }

  function PostScript(t: TxId, post: PostInput, inScope: bool, hasRole: bool, accounts: map<Id, AccountFacts>, accepted: bool): seq<Action> {
    PrepareScript(t, post, inScope, hasRole, accounts, accepted) + [Commit(t)]
  }

  /** What a new entry needs before anything is written. */
  predicate Postable(db: Db, post: PostInput, inScope: bool, hasRole: bool, accounts: map<Id, AccountFacts>) {
    && inScope && hasRole && post.kind != Manual
    && PostingPeriodAccepts(db, post.entity, post.date, post.period)
    && (forall i | 0 <= i < |post.lines| ::
          ValidAmounts(post.lines[i]) && AccountUsable(post.entity, post.lines[i].account, accounts))
    && BalancedRows(ToRows(post.lines))
  }

  /** What the insert needs besides: the verdict of the account trigger, and rows the table can hold. */
  predicate Insertable(lines: seq<Line>, accepted: bool) {
    accepted && (forall i | 0 <= i < |lines| :: ValidAmounts(lines[i])) && StorableRows(ToRows(lines))
  }

  /** The checks before any write pass exactly when the entry is postable. */
  lemma PostableIff(db: Db, post: PostInput, inScope: bool, hasRole: bool, accounts: map<Id, AccountFacts>)
    ensures AssertPostable(db, post, inScope, hasRole, accounts).Ok? <==> Postable(db, post, inScope, hasRole, accounts)
  {
    LineAccountsAccepted(post.entity, post.lines, accounts);
    AssertBalancedIsCommitCheck(post.lines);
  }

  /** The entry that posting commits. */
  function PostedEntry(post: PostInput): Entry
    requires forall i | 0 <= i < |post.lines| :: ValidAmounts(post.lines[i])
  {
    Entry(post.entity, post.date, post.period, post.kind, ToRows(post.lines), None, 1)
  }

  // ---------------------------------------------------------------- reversing

  /** What the statements of a reversal happened to read: of roles, scopes and accounts, and the order
      in which the original's rows came. */
  datatype ReverseFacts = ReverseFacts(visible: bool, hasRole: bool, periodVisible: bool, read: seq<Row>,
                                       accounts: map<Id, AccountFacts>, accepted: bool, inScope: bool)

  /** The statements of a reversal that only read, and those that write. */
  function ReadScript(t: TxId, rev: ReverseInput, f: ReverseFacts): seq<Action> {
    [BeginReverse(t, rev, f.visible), GuardReverse(t, f.hasRole, f.periodVisible)]
    + [RecheckReverse(t), MirrorReverse(t, f.read, f.accounts)]
  }

  function ReverseScript(t: TxId, rev: ReverseInput, f: ReverseFacts): seq<Action> {
    ReadScript(t, rev, f) + ([WriteReverse(t, f.accepted), MarkReverse(t, f.inScope)] + [Commit(t)])
  }

  /** What a reversal needs of what it reads. */
  predicate Reversible(db: Db, rev: ReverseInput, f: ReverseFacts) {
    && f.visible && f.hasRole && f.periodVisible
    && rev.entry in db.entries
    && var original := db.entries[rev.entry];
       && original.reversedBy == None && original.version == rev.expectedVersion
       && PostingPeriodAccepts(db, original.entity, rev.date, rev.period)
       && RowsUsable(original.entity, original.rows, f.accounts)
  }

  predicate RowsUsable(entity: Id, rows: seq<Row>, accounts: map<Id, AccountFacts>) {
    forall i | 0 <= i < |rows| :: AccountUsable(entity, rows[i].account, accounts)
  }

  /** The account check on the mirrored lines is a check of the original's rows, in whatever order. */
  lemma MirroredAccounts(entity: Id, rows: seq<Row>, read: seq<Row>, accounts: map<Id, AccountFacts>)
    requires multiset(read) == multiset(rows)
    ensures AssertLineAccounts(entity, MirrorLines(ReadLines(read)), accounts).Ok? <==> RowsUsable(entity, rows, accounts)
  {
    var lines := MirrorLines(ReadLines(read));
    LineAccountsAccepted(entity, lines, accounts);
    if RowsUsable(entity, read, accounts) {
      forall i | 0 <= i < |rows| ensures AccountUsable(entity, rows[i].account, accounts) {
        assert rows[i] in multiset(read);
      }
    }
    if RowsUsable(entity, rows, accounts) {
      forall i | 0 <= i < |read| ensures AccountUsable(entity, read[i].account, accounts) {
        assert read[i] in multiset(rows);
      }
    }
    assert forall i | 0 <= i < |lines| :: lines[i].account == read[i].account;
  }

  /** The mirror image of the rows read passes every check of the insert, the mark and the commit. */
  lemma MirrorFits(rows: seq<Row>, read: seq<Row>)
    requires StorableRows(rows) && BalancedRows(rows) && multiset(read) == multiset(rows)
    ensures StorableRows(read) && MirrorsAsBags(rows, MirrorRows(read)) && BalancedRows(MirrorRows(read))
  {
    StorableInAnyOrder(rows, read);
    MirroredInAnyOrder(rows, read);
    MirrorsAsBagsHolds(rows, MirrorRows(read));
    MirrorsEffect(rows, MirrorRows(read), 0);
  }

  /** The entry a reversal commits, from the rows in the order they were read. */
  function ReversingEntry(original: Entry, rev: ReverseInput, read: seq<Row>): Entry {
    Entry(original.entity, rev.date, rev.period, Reversing, MirrorRows(read), None, 1)
  }

  function MarkedEntry(original: Entry, id: Id): Entry {
    original.(reversedBy := Some(id), version := original.version + 1)
  }

  // ---------------------------------------------------------------- periods

  function MovedPeriod(p: P.Period, event: P.PeriodEvent): P.Period
    requires P.Edge(p.status, event).Some?
  {
    p.(status := P.Edge(p.status, event).value, version := p.version + 1)
  }

  /** What the statement that holds a period buffers: its next row, or a decision about it. */
  function HeldPhase(p: P.Period, command: PeriodCommand, nextId: Id): Tx
    requires P.Edge(p.status, EventOf(command)).Some?
  {
    match command
    case ClosePeriod(id, _) => PeriodHeld(id, MovedPeriod(p, P.Close), PeriodClosed(id))
    case LockPeriod(id, _) => PeriodHeld(id, MovedPeriod(p, P.Lock), PeriodLocked(id))
    case RequestReopen(id, _, actor) => DecisionFiled(nextId, Decision(id, p.entity, p.version, actor, false, false, None))
  }

  /** What closing, locking or requesting to reopen a period needs. */
  predicate PeriodMovable(db: Db, command: PeriodCommand, visible: bool, hasRole: bool) {
    && visible && command.period in db.periods && db.periods[command.period].version == Expected(command)
    && (hasRole || command.RequestReopen?)
    && P.Edge(db.periods[command.period].status, EventOf(command)).Some?
  }

  /** A decision that its decider may carry out: another than its requester. */
  predicate Admitted(db: Db, decision: Id, actor: Id, visible: bool, approver: bool) {
    && visible && approver && decision in db.decisions
    && db.decisions[decision].decided && db.decisions[decision].approved
    && db.decisions[decision].decidedBy == Some(actor) && db.decisions[decision].requestedBy != actor
  }

  // ---------------------------------------------------------------- the tables

  class Database {
    var periods: map<Id, P.Period>
    var entries: map<Id, Entry>
    var decisions: map<Id, Decision>
    var outbox: seq<Event>
    var nextId: Id
    var txs: map<TxId, Tx>

    function Model(): State
      reads this
    {
      State(Db(periods, entries, decisions, outbox), nextId, txs)
    }

    constructor ()
      ensures Model() == EMPTY
    {
      periods, entries, decisions, outbox, nextId, txs := map[], map[], map[], [], 0, map[];
    }

    /** A thrown error rolls the transaction back. */
    method RollBack<T>(t: TxId, error: BillingError) returns (r: Progress<T, BillingError>)
      modifies this`txs
      ensures r == Failed(error) && txs == old(txs) - {t}
    {
      txs := txs - {t};
      return Failed(error);
    }

    /** COMMIT of a finished command: the deferred balance trigger, then its buffer is published. */
    method CommitTransaction(t: TxId) returns (r: Progress<(), BillingError>)
      requires t in txs && Published(Model().db, txs[t]).Some?
      modifies this
      ensures Call(old(Model()), [Commit(t)]) == (Model(), r)
      ensures r.Done? <==> CommitBalanced(old(txs)[t])
      ensures r.Done? ==> Published(old(Model().db), old(txs)[t]) == Some(Model().db)
      ensures !r.Done? ==> Model().db == old(Model().db)
      ensures nextId == old(nextId) && txs == old(txs) - {t} && !r.Waiting?
    {
      CallOne(Model(), Commit(t));
      var tx := txs[t];
      txs := txs - {t};
      match tx {
        case PostWritten(post, id, entry) =>
          if !BalancedRows(entry.rows) {
            return Failed(JournalFailure(DatabaseRefusal));
          }
          entries := entries[id := entry];
          outbox := outbox + [if post.adjusting then EntryAdjusted(id) else EntryPosted(id)];
        case ReverseMarked(rev, id, entry, original) =>
          if !BalancedRows(entry.rows) {
            return Failed(JournalFailure(DatabaseRefusal));
          }
          entries := entries[id := entry][rev.entry := original];
          outbox := outbox + [EntryReversed(rev.entry, id, original.version)];
        case PeriodHeld(id, next, event) =>
          periods := periods[id := next];
          outbox := outbox + [event];
        case DecisionFiled(id, filed) =>
          decisions := decisions[id := filed];
        case PeriodInserted(id, inserted) =>
          periods := periods[id := inserted];
          outbox := outbox + [PeriodOpened(id)];
        case _ => assert false;
      }
      return Done(());
    }

    /** `appendLines`: one row per line, in order; `None` is the failing numeric cast. */
    static method AppendLines(lines: seq<Line>) returns (rows: Option<seq<Row>>)
      ensures rows == RowsOf(lines)
    {
      var stored: seq<Row> := [];
      for i := 0 to |lines|
        invariant |stored| == i
        invariant forall k | 0 <= k < i :: ValidAmounts(lines[k]) && stored[k] == ToRow(lines[k])
      {
        if !ValidAmounts(lines[i]) {
          return None;
        }
        stored := stored + [ToRow(lines[i])];
      }
      assert stored == ToRows(lines);
      return Some(stored);
    }

    /** `insertPostedEntry`: the entry row, whose trigger wants the share lock on an open period that
        covers the date, and its lines. */
    method InsertPostedEntry(t: TxId, entity: Id, date: int, period: Id, kind: EntryType, lines: seq<Line>, accepted: bool)
      returns (r: Progress<Entry, BillingError>)
      ensures r.Waiting? <==>
                period in periods && P.Covers(periods[period], entity, date) && !FreeForShare(Model(), t, period)
      ensures r.Done? <==>
                FreeForShare(Model(), t, period) && PostingPeriodAccepts(Model().db, entity, date, period) && Insertable(lines, accepted)
      ensures r.Done? ==> r.result == Entry(entity, date, period, kind, ToRows(lines), None, 1)
      ensures r.Failed? ==> r.error == JournalFailure(DatabaseRefusal)
    {
      if period !in periods || !P.Covers(periods[period], entity, date) {
        return Failed(JournalFailure(DatabaseRefusal));
      }
      if !FreeForShare(Model(), t, period) {
        return Waiting;
      }
      if periods[period].status != P.Open {
        return Failed(JournalFailure(DatabaseRefusal));
      }
      var rows := AppendLines(lines);
      if rows == None || !accepted || !StorableRows(rows.value) {
        return Failed(JournalFailure(DatabaseRefusal));
      }
      return Done(Entry(entity, date, period, kind, rows.value, None, 1));
    }

    /** `assertPostable`. */
    method CheckPosting(t: TxId, post: PostInput, inScope: bool, hasRole: bool, accounts: map<Id, AccountFacts>)
      returns (r: Progress<(), BillingError>)
      requires t !in txs
      modifies this`txs
      ensures Call(old(Model()), [BeginPost(t, post, inScope, hasRole, accounts)]) == (Model(), r)
      ensures r.Done? <==> Postable(Model().db, post, inScope, hasRole, accounts)
      ensures txs == if r.Done? then old(txs)[t := PostChecked(post)] else old(txs)
      ensures !r.Waiting?
    {
      CallOne(Model(), BeginPost(t, post, inScope, hasRole, accounts));
      PostableIff(Model().db, post, inScope, hasRole, accounts);
      PutAndDrop(Model(), t, PostChecked(post));
      if !inScope {
        return Failed(JournalFailure(EntityNotInScope));
      }
      if !hasRole {
        return Failed(JournalFailure(RoleRequired));
      }
      var found := if post.period in periods then Some(periods[post.period]) else None;
      if !P.AssertOpenPeriod(found, post.entity, post.date) {
        return Failed(JournalFailure(PeriodNotOpen));
      }
      var balanced := AssertBalanced(post.lines);
      if balanced.Err? {
        return Failed(JournalFailure(balanced.error));
      }
      var usable := AssertLineAccounts(post.entity, post.lines, accounts);
      if usable.Err? {
        return Failed(JournalFailure(usable.error));
      }
      var postable := AssertEntryTypePostable(post.kind, post.lines, accounts);
      if postable.Err? {
        return Failed(JournalFailure(postable.error));
      }
      txs := txs[t := PostChecked(post)];
      return Done(());
    }

    method WritePosting(t: TxId, accepted: bool) returns (r: Progress<Id, BillingError>)
      requires t in txs && txs[t].PostChecked?
      modifies this`txs, this`nextId
      ensures Call(old(Model()), [WritePost(t, accepted)]) == (Model(), r.Ending())
      ensures var post := old(txs)[t].post;
              && (r.Waiting? <==> post.period in periods && P.Covers(periods[post.period], post.entity, post.date)
                                  && !FreeForShare(old(Model()), t, post.period))
              && (r.Done? <==> FreeForShare(old(Model()), t, post.period)
                               && PostingPeriodAccepts(Model().db, post.entity, post.date, post.period) && Insertable(post.lines, accepted))
              && (r.Done? ==> r.result == old(nextId) && nextId == r.result + 1
                              && txs == old(txs)[t := PostWritten(post, r.result, PostedEntry(post))])
      ensures r.Failed? ==> nextId == old(nextId) && txs == old(txs) - {t}
      ensures r.Waiting? ==> nextId == old(nextId) && txs == old(txs)
    {
      CallOne(Model(), WritePost(t, accepted));
      var post := txs[t].post;
      var inserted := InsertPostedEntry(t, post.entity, post.date, post.period, post.kind, post.lines, accepted);
      if inserted.Failed? {
        r := RollBack(t, inserted.error);
        return;
      }
      var entry :- inserted;
      var id := nextId;
      nextId := nextId + 1;
      txs := txs[t := PostWritten(post, id, entry)];
      return Done(id);
    }

    /** The checks and the insert of a posting, before its commit. */
    method PreparePosting(t: TxId, post: PostInput, inScope: bool, hasRole: bool, accounts: map<Id, AccountFacts>, accepted: bool)
      returns (r: Progress<Id, BillingError>)
      requires t !in txs
      modifies this`txs, this`nextId
      ensures Call(old(Model()), PrepareScript(t, post, inScope, hasRole, accounts, accepted)) == (Model(), r.Ending())
      ensures var postable, free := Postable(Model().db, post, inScope, hasRole, accounts), FreeForShare(old(Model()), t, post.period);
              && (r.Done? <==> postable && Insertable(post.lines, accepted) && free)
              && (r.Waiting? <==> postable && !free)
      ensures r.Done? ==> r.result == old(nextId) && nextId == r.result + 1 && txs == old(txs)[t := PostWritten(post, r.result, PostedEntry(post))]
      ensures r.Failed? ==> Model() == old(Model())
    {
      CallTwo(Model(), BeginPost(t, post, inScope, hasRole, accounts), WritePost(t, accepted));
      PutAndDrop(Model(), t, PostChecked(post));
      FreeAfterPut(Model(), nextId, t, PostChecked(post), post.period);
      var _ :- CheckPosting(t, post, inScope, hasRole, accounts);
      r := WritePosting(t, accepted);
    }

    /** `postNewEntry`, shared by PostJournal and AdjustJournal. */
    method PostNewEntry(t: TxId, post: PostInput, inScope: bool, hasRole: bool, accounts: map<Id, AccountFacts>, accepted: bool)
      returns (r: Progress<Id, BillingError>)
      requires t !in txs
      modifies this
      ensures Call(old(Model()), PostScript(t, post, inScope, hasRole, accounts, accepted)) == (Model(), r.Ending())
      ensures var postable, free := Postable(old(Model().db), post, inScope, hasRole, accounts), FreeForShare(old(Model()), t, post.period);
              && (r.Done? <==> postable && Insertable(post.lines, accepted) && free)
              && (r.Waiting? <==> postable && !free)
      ensures r.Done? ==>
                && r.result == old(nextId) && nextId == old(nextId) + 1 && txs == old(txs)
                && periods == old(periods) && decisions == old(decisions)
                && entries == old(entries)[r.result := PostedEntry(post)]
                && outbox == old(outbox) + [if post.adjusting then EntryAdjusted(r.result) else EntryPosted(r.result)]
      ensures r.Failed? ==> Model() == old(Model())
      ensures r.Waiting? ==> Model().db == old(Model().db)
    {
      CallAppend(Model(), PrepareScript(t, post, inScope, hasRole, accounts, accepted), [Commit(t)]);
      var id :- PreparePosting(t, post, inScope, hasRole, accounts, accepted);
      PutAndDrop(old(Model()), t, PostWritten(post, id, PostedEntry(post)));
      var _ := CommitTransaction(t);
      return Done(id);
    }

    /** `postJournal`. */
    method PostJournal(t: TxId, post: PostInput, inScope: bool, hasRole: bool, accounts: map<Id, AccountFacts>, accepted: bool)
      returns (r: Progress<Id, BillingError>)
      requires t !in txs
      modifies this
      ensures Call(old(Model()), PostScript(t, post.(adjusting := false), inScope, hasRole, accounts, accepted)) == (Model(), r.Ending())
      ensures r.Done? <==>
                && Postable(old(Model().db), post, inScope, hasRole, accounts) && Insertable(post.lines, accepted)
                && FreeForShare(old(Model()), t, post.period)
      ensures r.Done? ==>
                && entries == old(entries)[r.result := PostedEntry(post)]
                && outbox == old(outbox) + [EntryPosted(r.result)]
      ensures r.Failed? ==> Model() == old(Model())
    {
      r := PostNewEntry(t, post.(adjusting := false), inScope, hasRole, accounts, accepted);
    }

    /** `adjustJournal`: the caller's entry type is replaced by `adjustment`, so none is refused. */
    method AdjustJournal(t: TxId, post: PostInput, inScope: bool, hasRole: bool, accounts: map<Id, AccountFacts>, accepted: bool)
      returns (r: Progress<Id, BillingError>)
      requires t !in txs
      modifies this
      ensures Call(old(Model()), PostScript(t, post.(kind := Adjustment, adjusting := true), inScope, hasRole, accounts, accepted))
           == (Model(), r.Ending())
      ensures r.Done? <==>
                && Postable(old(Model().db), post.(kind := Adjustment), inScope, hasRole, accounts) && Insertable(post.lines, accepted)
                && FreeForShare(old(Model()), t, post.period)
      ensures r.Done? ==>
                && entries == old(entries)[r.result := PostedEntry(post.(kind := Adjustment))]
                && outbox == old(outbox) + [EntryAdjusted(r.result)]
      ensures r.Failed? ==> Model() == old(Model())
    {
      r := PostNewEntry(t, post.(kind := Adjustment, adjusting := true), inScope, hasRole, accounts, accepted);
    }

    // -------------------------------------------------------------- reversing

    /** The original as read without a lock. */
    method ReadOriginal(t: TxId, rev: ReverseInput, visible: bool) returns (r: Progress<Entry, BillingError>)
      requires t !in txs
      modifies this`txs
      ensures Call(old(Model()), [BeginReverse(t, rev, visible)]) == (Model(), r.Ending())
      ensures r.Done? <==> visible && rev.entry in entries
      ensures r.Done? ==> r.result == entries[rev.entry] && txs == old(txs)[t := ReverseRead(rev, r.result)]
      ensures !r.Done? ==> r.Failed? && txs == old(txs)
    {
      CallOne(Model(), BeginReverse(t, rev, visible));
      if !visible || rev.entry !in entries {
        PutAndDrop(Model(), t, ReopenChecked(0, Decision(0, 0, 0, 0, false, false, None), 0));
        return Failed(JournalFailure(EntryNotFound));
      }
      var original := entries[rev.entry];
      txs := txs[t := ReverseRead(rev, original)];
      return Done(original);
    }

    /** The role, and the reversal machine with the period's entity as the event's. */
    method GuardReversal(t: TxId, hasRole: bool, visible: bool) returns (r: Progress<(), BillingError>)
      requires t in txs && txs[t].ReverseRead?
      modifies this`txs
      ensures Call(old(Model()), [GuardReverse(t, hasRole, visible)]) == (Model(), r)
      ensures var tx := old(txs)[t];
              && (r.Done? <==> && hasRole && visible && tx.rev.period in periods && periods[tx.rev.period].entity == tx.seen.entity
                               && tx.seen.reversedBy == None && tx.seen.version == tx.rev.expectedVersion)
              && txs == if r.Done? then old(txs)[t := ReverseGuarded(tx.rev, tx.seen)] else old(txs) - {t}
      ensures !r.Waiting?
    {
      CallOne(Model(), GuardReverse(t, hasRole, visible));
      var rev, original := txs[t].rev, txs[t].seen;
      if !hasRole {
        r := RollBack(t, JournalFailure(RoleRequired));
        return;
      }
      if !visible || rev.period !in periods {
        r := RollBack(t, JournalFailure(PeriodNotOpen));
        return;
      }
      var advanced := AdvanceJournalStatus(JournalStatusOf(original.reversedBy), original.entity, original.version,
                                           ReverseEvent, periods[rev.period].entity, rev.expectedVersion);
      if advanced.Err? {
        r := RollBack(t, JournalFailure(advanced.error));
        return;
      }
      txs := txs[t := ReverseGuarded(rev, original)];
      return Done(());
    }

    /** The period once more, by the check that posting makes. */
    method RecheckPeriod(t: TxId) returns (r: Progress<(), BillingError>)
      requires t in txs && txs[t].ReverseGuarded?
      modifies this`txs
      ensures Call(old(Model()), [RecheckReverse(t)]) == (Model(), r)
      ensures var tx := old(txs)[t];
              && (r.Done? <==> PostingPeriodAccepts(Model().db, tx.seen.entity, tx.rev.date, tx.rev.period))
              && txs == if r.Done? then old(txs)[t := ReversePeriodOpen(tx.rev, tx.seen)] else old(txs) - {t}
      ensures !r.Waiting?
    {
      CallOne(Model(), RecheckReverse(t));
      var rev, original := txs[t].rev, txs[t].seen;
      var found := if rev.period in periods then Some(periods[rev.period]) else None;
      if !P.AssertOpenPeriod(found, original.entity, rev.date) {
        r := RollBack(t, JournalFailure(PeriodNotOpen));
        return;
      }
      txs := txs[t := ReversePeriodOpen(rev, original)];
      return Done(());
    }

    /** The original's lines read, and the accounts of their mirror image checked. */
    method ReadAndMirror(t: TxId, read: seq<Row>, accounts: map<Id, AccountFacts>) returns (r: Progress<seq<Line>, BillingError>)
      requires t in txs && txs[t].ReversePeriodOpen? && txs[t].rev.entry in entries
      requires multiset(read) == multiset(entries[txs[t].rev.entry].rows)
      modifies this`txs
      ensures Call(old(Model()), [MirrorReverse(t, read, accounts)]) == (Model(), r.Ending())
      ensures var tx := old(txs)[t];
              && (r.Done? <==> RowsUsable(tx.seen.entity, entries[tx.rev.entry].rows, accounts))
              && (r.Done? ==> r.result == MirrorLines(ReadLines(read)))
              && txs == if r.Done? then old(txs)[t := ReverseMirrored(tx.rev, tx.seen, read)] else old(txs) - {t}
      ensures !r.Waiting?
    {
      CallOne(Model(), MirrorReverse(t, read, accounts));
      var rev, original := txs[t].rev, txs[t].seen;
      MirroredAccounts(original.entity, entries[rev.entry].rows, read, accounts);
      var lines := MirrorLines(ReadLines(read));
      var usable := AssertLineAccounts(original.entity, lines, accounts);
      if usable.Err? {
        r := RollBack(t, JournalFailure(usable.error));
        return;
      }
      txs := txs[t := ReverseMirrored(rev, original, read)];
      return Done(lines);
    }

    /** The mirrored lines inserted as a reversing entry: they always fit the table. */
    method WriteReversal(t: TxId, lines: seq<Line>, accepted: bool) returns (r: Progress<Id, BillingError>)
      requires t in txs && txs[t].ReverseMirrored? && lines == MirrorLines(ReadLines(txs[t].read)) && StorableRows(txs[t].read)
      modifies this`txs, this`nextId
      ensures Call(old(Model()), [WriteReverse(t, accepted)]) == (Model(), r.Ending())
      ensures var tx := old(txs)[t];
              && (r.Done? <==> FreeForShare(old(Model()), t, tx.rev.period) && accepted
                               && PostingPeriodAccepts(Model().db, tx.seen.entity, tx.rev.date, tx.rev.period))
              && (r.Waiting? ==> !FreeForShare(old(Model()), t, tx.rev.period))
              && (r.Done? ==> r.result == old(nextId) && nextId == r.result + 1
                              && txs == old(txs)[t := ReverseWritten(tx.rev, r.result, ReversingEntry(tx.seen, tx.rev, tx.read))])
      ensures r.Failed? ==> nextId == old(nextId) && txs == old(txs) - {t}
      ensures r.Waiting? ==> nextId == old(nextId) && txs == old(txs)
    {
      CallOne(Model(), WriteReverse(t, accepted));
      var rev, original := txs[t].rev, txs[t].seen;
      MirroredReadBack(txs[t].read, txs[t].read);
      var inserted := InsertPostedEntry(t, original.entity, rev.date, rev.period, Reversing, lines, accepted);
      if inserted.Failed? {
        r := RollBack(t, inserted.error);
        return;
      }
      var entry :- inserted;
      var id := nextId;
      nextId := nextId + 1;
      txs := txs[t := ReverseWritten(rev, id, entry)];
      return Done(id);
    }

    /** `billing.mark_journal_reversed`: under the original's row lock, every condition once more. */
    method MarkReversed(t: TxId, inScope: bool) returns (r: Progress<nat, BillingError>)
      requires t in txs && txs[t].ReverseWritten?
      modifies this`txs
      ensures Call(old(Model()), [MarkReverse(t, inScope)]) == (Model(), r.Ending())
      ensures var tx := old(txs)[t];
              && (r.Waiting? <==> !FreeEntry(old(Model()), t, tx.rev.entry))
              && (r.Done? <==>
                   && FreeEntry(old(Model()), t, tx.rev.entry) && inScope && tx.rev.entry in entries && tx.id != tx.rev.entry
                   && var original := entries[tx.rev.entry];
                      && tx.entry.kind == Reversing && tx.entry.entity == original.entity && MirrorsAsBags(original.rows, tx.entry.rows)
                      && original.reversedBy == None && original.version == tx.rev.expectedVersion)
              && (r.Done? ==>
                   var marked := MarkedEntry(entries[tx.rev.entry], tx.id);
                   r.result == marked.version && txs == old(txs)[t := ReverseMarked(tx.rev, tx.id, tx.entry, marked)])
      ensures r.Failed? ==> txs == old(txs) - {t}
      ensures r.Waiting? ==> txs == old(txs)
    {
      CallOne(Model(), MarkReverse(t, inScope));
      var tx := txs[t];
      if !FreeEntry(Model(), t, tx.rev.entry) {
        return Waiting;
      }
      if tx.rev.entry !in entries || !inScope {
        r := RollBack(t, JournalFailure(EntryNotFound));
        return;
      }
      var original := entries[tx.rev.entry];
      if tx.id == tx.rev.entry {
        r := RollBack(t, JournalFailure(DatabaseRefusal));
        return;
      }
      if tx.entry.kind != Reversing || tx.entry.entity != original.entity {
        r := RollBack(t, JournalFailure(DatabaseRefusal));
        return;
      }
      if !MirrorsAsBags(original.rows, tx.entry.rows) {
        r := RollBack(t, JournalFailure(DatabaseRefusal));
        return;
      }
      if original.reversedBy.Some? {
        r := RollBack(t, JournalFailure(AlreadyReversed));
        return;
      }
      if original.version != tx.rev.expectedVersion {
        r := RollBack(t, JournalFailure(StaleVersion));
        return;
      }
      txs := txs[t := ReverseMarked(tx.rev, tx.id, tx.entry, MarkedEntry(original, tx.id))];
      return Done(original.version + 1);
    }

    /** The guards of a reversal, in the source's order; the lines it will store. */
    method ReadForReversal(t: TxId, rev: ReverseInput, f: ReverseFacts) returns (r: Progress<seq<Line>, BillingError>)
      requires t !in txs && (rev.entry in entries ==> multiset(f.read) == multiset(entries[rev.entry].rows))
      modifies this`txs
      ensures Call(old(Model()), ReadScript(t, rev, f)) == (Model(), r.Ending())
      ensures r.Done? <==> Reversible(Model().db, rev, f)
      ensures r.Done? ==>
                && r.result == MirrorLines(ReadLines(f.read))
                && txs == old(txs)[t := ReverseMirrored(rev, entries[rev.entry], f.read)]
      ensures !r.Done? ==> r.Failed? && txs == old(txs)
    {
      CallAppend(Model(), [BeginReverse(t, rev, f.visible), GuardReverse(t, f.hasRole, f.periodVisible)],
                 [RecheckReverse(t), MirrorReverse(t, f.read, f.accounts)]);
      CallTwo(Model(), BeginReverse(t, rev, f.visible), GuardReverse(t, f.hasRole, f.periodVisible));
      var original :- ReadOriginal(t, rev, f.visible);
      PutAndDrop(old(Model()), t, ReverseRead(rev, original));
      var _ :- GuardReversal(t, f.hasRole, f.periodVisible);
      CallTwo(Model(), RecheckReverse(t), MirrorReverse(t, f.read, f.accounts));
      PutAndDrop(old(Model()), t, ReverseGuarded(rev, original));
      var _ :- RecheckPeriod(t);
      PutAndDrop(old(Model()), t, ReversePeriodOpen(rev, original));
      r := ReadAndMirror(t, f.read, f.accounts);
    }

    /** The reads of a reversal have passed, and nothing has moved since. */
    predicate ReadsHold(t: TxId, lines: seq<Line>)
      reads this
    {
      && t in txs && txs[t].ReverseMirrored? && lines == MirrorLines(ReadLines(txs[t].read))
      && var rev, seen := txs[t].rev, txs[t].seen;
         && rev.entry in entries && seen == entries[rev.entry] && rev.entry != nextId
         && StorableRows(seen.rows) && BalancedRows(seen.rows) && multiset(txs[t].read) == multiset(seen.rows)
         && seen.reversedBy == None && seen.version == rev.expectedVersion
         && PostingPeriodAccepts(Model().db, seen.entity, rev.date, rev.period)
    }

    /** The insert and the mark of a reversal whose reads have passed. */
    method InsertAndMark(t: TxId, lines: seq<Line>, accepted: bool, inScope: bool) returns (r: Progress<Reversal, BillingError>)
      requires ReadsHold(t, lines)
      modifies this`txs, this`nextId
      ensures Call(old(Model()), [WriteReverse(t, accepted), MarkReverse(t, inScope)]) == (Model(), r.Ending())
      ensures var tx := old(txs)[t];
              && (r.Done? <==> accepted && inScope && FreeForShare(old(Model()), t, tx.rev.period) && FreeEntry(old(Model()), t, tx.rev.entry))
              && (r.Waiting? ==> !FreeForShare(old(Model()), t, tx.rev.period) || !FreeEntry(old(Model()), t, tx.rev.entry))
              && (r.Done? ==>
                   && r.result.originalVersion == tx.seen.version + 1
                   && txs == old(txs)[t := ReverseMarked(tx.rev, r.result.reversing, ReversingEntry(tx.seen, tx.rev, tx.read),
                                                         MarkedEntry(tx.seen, r.result.reversing))]
                   && BalancedRows(MirrorRows(tx.read)))
      ensures r.Failed? ==> txs == old(txs) - {t}
    {
      CallTwo(Model(), WriteReverse(t, accepted), MarkReverse(t, inScope));
      ghost var tx := txs[t];
      MirrorFits(tx.seen.rows, tx.read);
      FreeAfterPut(Model(), nextId + 1, t, ReverseWritten(tx.rev, nextId, ReversingEntry(tx.seen, tx.rev, tx.read)), tx.rev.entry);
      var id :- WriteReversal(t, lines, accepted);
      var version :- MarkReversed(t, inScope);
      return Done(Reversal(id, version));
    }

    /** Its commit publishes the entry, the mark and the event. */
    method CommitReversal(t: TxId)
      requires t in txs && txs[t].ReverseMarked? && BalancedRows(txs[t].entry.rows)
      modifies this
      ensures Call(old(Model()), [Commit(t)]) == (Model(), Done(()))
      ensures var tx := old(txs)[t];
              && entries == old(entries)[tx.id := tx.entry][tx.rev.entry := tx.original]
              && outbox == old(outbox) + [EntryReversed(tx.rev.entry, tx.id, tx.original.version)]
      ensures periods == old(periods) && decisions == old(decisions) && txs == old(txs) - {t}
    {
      var _ := CommitTransaction(t);
    }

    /** The same with its commit. */
    method WriteAndMark(t: TxId, lines: seq<Line>, accepted: bool, inScope: bool) returns (r: Progress<Reversal, BillingError>)
      requires ReadsHold(t, lines)
      modifies this
      ensures Call(old(Model()), [WriteReverse(t, accepted), MarkReverse(t, inScope)] + [Commit(t)]) == (Model(), r.Ending())
      ensures var tx := old(txs)[t];
              && (r.Done? <==> accepted && inScope && FreeForShare(old(Model()), t, tx.rev.period) && FreeEntry(old(Model()), t, tx.rev.entry))
              && (r.Waiting? ==> !FreeForShare(old(Model()), t, tx.rev.period) || !FreeEntry(old(Model()), t, tx.rev.entry))
              && (r.Done? ==>
                   && r.result.originalVersion == tx.seen.version + 1
                   && entries == old(entries)[r.result.reversing := ReversingEntry(tx.seen, tx.rev, tx.read)]
                                             [tx.rev.entry := MarkedEntry(tx.seen, r.result.reversing)]
                   && outbox == old(outbox) + [EntryReversed(tx.rev.entry, r.result.reversing, r.result.originalVersion)]
                   && periods == old(periods) && decisions == old(decisions))
      ensures !r.Waiting? ==> txs == old(txs) - {t}
      ensures !r.Done? ==> Model().db == old(Model().db)
    {
      CallAppend(Model(), [WriteReverse(t, accepted), MarkReverse(t, inScope)], [Commit(t)]);
      var reversal :- InsertAndMark(t, lines, accepted, inScope);
      CommitReversal(t);
      return Done(reversal);
    }

    /** `reverseJournal`: it commits the mirrored entry, the mark and the event together, exactly when
        the original is reversible and no other session holds its period or the original itself;
        otherwise it leaves no row behind. */
    method ReverseJournal(t: TxId, rev: ReverseInput, f: ReverseFacts) returns (r: Progress<Reversal, BillingError>)
      requires EntriesOk(Model().db, nextId) && t !in txs
      requires rev.entry in entries ==> multiset(f.read) == multiset(entries[rev.entry].rows)
      modifies this
      ensures Call(old(Model()), ReverseScript(t, rev, f)) == (Model(), r.Ending())
      ensures r.Done? <==>
                && Reversible(old(Model().db), rev, f) && f.accepted && f.inScope
                && FreeForShare(old(Model()), t, rev.period) && FreeEntry(old(Model()), t, rev.entry)
      ensures r.Waiting? ==> !FreeForShare(old(Model()), t, rev.period) || !FreeEntry(old(Model()), t, rev.entry)
      ensures r.Done? ==>
                && rev.entry in old(entries)
                && var original := old(entries)[rev.entry];
                   && r.result.originalVersion == original.version + 1
                   && entries == old(entries)[r.result.reversing := ReversingEntry(original, rev, f.read)]
                                             [rev.entry := MarkedEntry(original, r.result.reversing)]
                   && outbox == old(outbox) + [EntryReversed(rev.entry, r.result.reversing, r.result.originalVersion)]
                   && periods == old(periods) && decisions == old(decisions)
      ensures !r.Waiting? ==> txs == old(txs)
      ensures !r.Done? ==> Model().db == old(Model().db)
    {
      CallAppend(Model(), ReadScript(t, rev, f), [WriteReverse(t, f.accepted), MarkReverse(t, f.inScope)] + [Commit(t)]);
      var lines :- ReadForReversal(t, rev, f);
      assert EntryOk(Model().db, entries[rev.entry]);
      FreeAfterPut(old(Model()), nextId, t, txs[t], rev.period);
      FreeAfterPut(old(Model()), nextId, t, txs[t], rev.entry);
      PutAndDrop(old(Model()), t, txs[t]);
      r := WriteAndMark(t, lines, f.accepted, f.inScope);
    }

    // -------------------------------------------------------------- periods

    /** `closePeriod`, `lockPeriod` and `requestReopenPeriod` up to their last write: the row lock, the
        version, the role (a request needs none), the machine. */
    method HoldPeriod(t: TxId, command: PeriodCommand, visible: bool, hasRole: bool) returns (r: Progress<(), BillingError>)
      requires t !in txs
      modifies this`txs, this`nextId
      ensures Call(old(Model()), [BeginPeriod(t, command, visible, hasRole)]) == (Model(), r)
      ensures r.Done? <==> PeriodMovable(Model().db, command, visible, hasRole) && FreeForUpdate(old(Model()), t, command.period)
      ensures r.Waiting? <==> visible && command.period in periods && !FreeForUpdate(old(Model()), t, command.period)
      ensures r.Done? ==>
                && nextId == (if command.RequestReopen? then old(nextId) + 1 else old(nextId))
                && txs == old(txs)[t := HeldPhase(periods[command.period], command, old(nextId))]
      ensures !r.Done? ==> Model() == old(Model())
    {
      CallOne(Model(), BeginPeriod(t, command, visible, hasRole));
      PutAndDrop(Model(), t, PostChecked(PostInput(0, 0, 0, Manual, [], false)));
      if !visible || command.period !in periods {
        return Failed(PeriodFailure(P.PeriodNotFound));
      }
      if !FreeForUpdate(Model(), t, command.period) {
        return Waiting;
      }
      var p := periods[command.period];
      if p.version != command.expectedVersion {
        return Failed(PeriodFailure(P.StaleVersion));
      }
      if !command.RequestReopen? && !hasRole {
        return Failed(PeriodFailure(P.RoleRequired));
      }
      OneEvent(p.status, EventOf(command));
      var status := P.AdvancePeriodStatus(p.status, [EventOf(command)]);
      if status.Err? {
        return Failed(PeriodFailure(status.error));
      }
      match command {
        case ClosePeriod(id, _) =>
          txs := txs[t := PeriodHeld(id, p.(status := status.value, version := p.version + 1), PeriodClosed(id))];
        case LockPeriod(id, _) =>
          txs := txs[t := PeriodHeld(id, p.(status := status.value, version := p.version + 1), PeriodLocked(id))];
        case RequestReopen(id, _, actor) =>
          txs := txs[t := DecisionFiled(nextId, Decision(id, p.entity, p.version, actor, false, false, None))];
          nextId := nextId + 1;
      }
      return Done(());
    }

    /** `closePeriod` and `lockPeriod`: the new status with its version bump, and the outbox row. */
    method MovePeriod(t: TxId, command: PeriodCommand, visible: bool, hasRole: bool) returns (r: Progress<PeriodResult, BillingError>)
      requires t !in txs && !command.RequestReopen?
      modifies this
      ensures Call(old(Model()), [BeginPeriod(t, command, visible, hasRole), Commit(t)]) == (Model(), r.Ending())
      ensures r.Done? <==>
                PeriodMovable(old(Model().db), command, visible, hasRole) && FreeForUpdate(old(Model()), t, command.period)
      ensures r.Waiting? <==> visible && command.period in periods && !FreeForUpdate(old(Model()), t, command.period)
      ensures r.Done? ==>
                var moved := MovedPeriod(old(periods)[command.period], EventOf(command));
                && r.result == PeriodResult(moved.version, moved.status)
                && periods == old(periods)[command.period := moved]
                && outbox == old(outbox) + [if command.ClosePeriod? then PeriodClosed(command.period) else PeriodLocked(command.period)]
                && entries == old(entries) && decisions == old(decisions) && txs == old(txs) && nextId == old(nextId)
      ensures !r.Done? ==> Model() == old(Model())
    {
      CallTwo(Model(), BeginPeriod(t, command, visible, hasRole), Commit(t));
      var _ :- HoldPeriod(t, command, visible, hasRole);
      var next := txs[t].next;
      PutAndDrop(old(Model()), t, txs[t]);
      var _ := CommitTransaction(t);
      return Done(PeriodResult(next.version, next.status));
    }

    /** `requestReopenPeriod`: files a decision for the current version of a closed period, and leaves
        the period itself alone. */
    method RequestReopenPeriod(t: TxId, period: Id, expectedVersion: int, actor: Id, visible: bool) returns (r: Progress<Id, BillingError>)
      requires t !in txs
      modifies this
      ensures Call(old(Model()), [BeginPeriod(t, RequestReopen(period, expectedVersion, actor), visible, false), Commit(t)])
           == (Model(), r.Ending())
      ensures r.Done? <==>
                && visible && period in periods && periods[period].version == expectedVersion && periods[period].status == P.Closed
                && FreeForUpdate(old(Model()), t, period)
      ensures r.Waiting? <==> visible && period in periods && !FreeForUpdate(old(Model()), t, period)
      ensures r.Done? ==>
                && r.result == old(nextId) && nextId == old(nextId) + 1 && txs == old(txs)
                && decisions == old(decisions)[r.result :=
                     Decision(period, periods[period].entity, periods[period].version, actor, false, false, None)]
      ensures !r.Done? ==> Model() == old(Model())
      ensures periods == old(periods) && entries == old(entries) && outbox == old(outbox)
    {
      var command := RequestReopen(period, expectedVersion, actor);
      CallTwo(Model(), BeginPeriod(t, command, visible, false), Commit(t));
      var _ :- HoldPeriod(t, command, visible, false);
      var id := txs[t].id;
      PutAndDrop(old(Model()), t, txs[t]);
      var _ := CommitTransaction(t);
      return Done(id);
    }

    /** The first half of `applyPeriodReopenDecision`: the decision, read and judged without a lock. */
    method JudgeDecision(t: TxId, decision: Id, actor: Id, visible: bool, approver: bool) returns (r: Progress<Decision, BillingError>)
      requires t !in txs
      modifies this`txs
      ensures Call(old(Model()), [BeginApply(t, decision, actor, visible, approver)]) == (Model(), r.Ending())
      ensures r.Done? <==> Admitted(Model().db, decision, actor, visible, approver)
      ensures r.Done? ==> r.result == decisions[decision] && txs == old(txs)[t := ReopenChecked(decision, r.result, actor)]
      ensures !r.Done? ==> r.Failed? && txs == old(txs)
    {
      CallOne(Model(), BeginApply(t, decision, actor, visible, approver));
      PutAndDrop(Model(), t, PostChecked(PostInput(0, 0, 0, Manual, [], false)));
      if !visible || decision !in decisions || !decisions[decision].decided || !decisions[decision].approved {
        return Failed(PeriodFailure(P.IllegalTransition));
      }
      var d := decisions[decision];
      if d.decidedBy == Some(d.requestedBy) {
        return Failed(PeriodFailure(P.SelfApproval));
      }
      if d.decidedBy != Some(actor) || !approver {
        return Failed(PeriodFailure(P.RoleRequired));
      }
      txs := txs[t := ReopenChecked(decision, d, actor)];
      return Done(d);
    }

    /** Its second half: the row lock, the version the decision was filed for, the machine, and the row
        trigger. The trigger finds the decision that was judged. */
    method HoldReopening(t: TxId, visible: bool, approver: bool) returns (r: Progress<P.Period, BillingError>)
      requires t in txs && txs[t].ReopenChecked? && DecisionsOk(Model().db, nextId)
      requires var tx := txs[t];
               Admitted(Model().db, tx.decision, tx.actor, true, approver) && tx.decided == decisions[tx.decision]
      modifies this`txs
      ensures Call(old(Model()), [HoldReopen(t, visible, approver)]) == (Model(), r.Ending())
      ensures var tx := old(txs)[t]; var id := tx.decided.period;
              && (r.Waiting? <==> visible && id in periods && !FreeForUpdate(old(Model()), t, id))
              && (r.Done? <==> && visible && id in periods && FreeForUpdate(old(Model()), t, id)
                               && periods[id].version == tx.decided.periodVersion && periods[id].status == P.Closed)
              && (r.Done? ==> r.result == MovedPeriod(periods[id], P.Reopen)
                              && txs == old(txs)[t := PeriodHeld(id, r.result, PeriodReopened(id, tx.decision))])
      ensures r.Failed? ==> txs == old(txs) - {t}
      ensures r.Waiting? ==> txs == old(txs)
    {
      CallOne(Model(), HoldReopen(t, visible, approver));
      var decision, d, actor := txs[t].decision, txs[t].decided, txs[t].actor;
      if !visible || d.period !in periods {
        r := RollBack(t, PeriodFailure(P.PeriodNotFound));
        return;
      }
      if !FreeForUpdate(Model(), t, d.period) {
        return Waiting;
      }
      var p := periods[d.period];
      if d.periodVersion != p.version {
        r := RollBack(t, PeriodFailure(P.StaleVersion));
        return;
      }
      OneEvent(p.status, P.Reopen);
      var status := P.AdvancePeriodStatus(p.status, [P.Reopen]);
      if status.Err? {
        r := RollBack(t, PeriodFailure(status.error));
        return;
      }
      assert FiledOk(periods, decisions[decision]) && ReopenGuard(Model().db, d.period, p, actor, approver);
      var next := p.(status := status.value, version := p.version + 1);
      txs := txs[t := PeriodHeld(d.period, next, PeriodReopened(d.period, decision))];
      return Done(next);
    }

    /** `applyPeriodReopenDecision`: the period is open again, exactly when a decision that its decider
        may carry out was filed for the period's current version. */
    method ApplyPeriodReopenDecision(t: TxId, decision: Id, actor: Id, visible: bool, approver: bool, periodVisible: bool)
      returns (r: Progress<PeriodResult, BillingError>)
      requires t !in txs && DecisionsOk(Model().db, nextId)
      modifies this
      ensures Call(old(Model()), [BeginApply(t, decision, actor, visible, approver), HoldReopen(t, periodVisible, approver)] + [Commit(t)])
           == (Model(), r.Ending())
      ensures r.Done? <==>
                && Admitted(old(Model().db), decision, actor, visible, approver) && periodVisible
                && var d := old(decisions)[decision];
                   && d.period in old(periods) && old(periods)[d.period].version == d.periodVersion
                   && old(periods)[d.period].status == P.Closed && FreeForUpdate(old(Model()), t, d.period)
      ensures r.Done? ==>
                var id := old(decisions)[decision].period;
                && r.result == PeriodResult(old(periods)[id].version + 1, P.Open)
                && periods == old(periods)[id := old(periods)[id].(status := P.Open, version := r.result.version)]
                && outbox == old(outbox) + [PeriodReopened(id, decision)]
                && entries == old(entries) && decisions == old(decisions) && txs == old(txs)
      ensures r.Failed? ==> Model() == old(Model())
      ensures r.Waiting? ==> Model().db == old(Model().db)
    {
      CallAppend(Model(), [BeginApply(t, decision, actor, visible, approver), HoldReopen(t, periodVisible, approver)], [Commit(t)]);
      CallTwo(Model(), BeginApply(t, decision, actor, visible, approver), HoldReopen(t, periodVisible, approver));
      var d :- JudgeDecision(t, decision, actor, visible, approver);
      FreeAfterPut(old(Model()), nextId, t, txs[t], d.period);
      PutAndDrop(old(Model()), t, txs[t]);
      var next :- HoldReopening(t, periodVisible, approver);
      PutAndDrop(old(Model()), t, txs[t]);
      var _ := CommitTransaction(t);
      return Done(PeriodResult(next.version, next.status));
    }

    /** `openPeriod`: the insert, under the range and exclusion constraints. */
    method InsertPeriod(t: TxId, entity: Id, first: int, last: int, inFiscalYear: bool) returns (r: Progress<Id, BillingError>)
      requires t !in txs
      modifies this`txs, this`nextId
      ensures Call(old(Model()), [OpenPeriod(t, entity, first, last, inFiscalYear)]) == (Model(), r.Ending())
      ensures var p := P.Period(entity, first, last, P.Open, 1);
              var fits := inFiscalYear && first <= last && forall q | q in periods :: !P.Overlap(periods[q], p);
              && (r.Done? <==> fits && FreeRange(old(Model()), t, p))
              && (r.Waiting? <==> fits && !FreeRange(old(Model()), t, p))
              && (r.Done? ==> r.result == old(nextId) && nextId == r.result + 1 && txs == old(txs)[t := PeriodInserted(r.result, p)])
      ensures !r.Done? ==> Model() == old(Model())
    {
      var p := P.Period(entity, first, last, P.Open, 1);
      CallOne(Model(), OpenPeriod(t, entity, first, last, inFiscalYear));
      PutAndDrop(Model(), t, PeriodInserted(nextId, p));
      if !inFiscalYear {
        return Failed(PeriodFailure(P.OutsideFiscalYear));
      }
      if first > last {
        return Failed(PeriodFailure(P.DatabaseRefusal));
      }
      if exists q | q in periods :: P.Overlap(periods[q], p) {
        return Failed(PeriodFailure(P.PeriodOverlap));
      }
      if !FreeRange(Model(), t, p) {
        return Waiting;
      }
      var id := nextId;
      nextId := nextId + 1;
      txs := txs[t := PeriodInserted(id, p)];
      return Done(id);
    }

    method OpenNewPeriod(t: TxId, entity: Id, first: int, last: int, inFiscalYear: bool) returns (r: Progress<Id, BillingError>)
      requires t !in txs
      modifies this
      ensures Call(old(Model()), [OpenPeriod(t, entity, first, last, inFiscalYear), Commit(t)]) == (Model(), r.Ending())
      ensures var p := P.Period(entity, first, last, P.Open, 1);
              var fits := inFiscalYear && first <= last && forall q | q in old(periods) :: !P.Overlap(old(periods)[q], p);
              && (r.Done? <==> fits && FreeRange(old(Model()), t, p))
              && (r.Waiting? <==> fits && !FreeRange(old(Model()), t, p))
      ensures r.Done? ==>
                && r.result == old(nextId) && txs == old(txs)
                && periods == old(periods)[r.result := P.Period(entity, first, last, P.Open, 1)]
                && outbox == old(outbox) + [PeriodOpened(r.result)]
                && entries == old(entries) && decisions == old(decisions)
      ensures !r.Done? ==> Model() == old(Model())
    {
      CallTwo(Model(), OpenPeriod(t, entity, first, last, inFiscalYear), Commit(t));
      var id :- InsertPeriod(t, entity, first, last, inFiscalYear);
      PutAndDrop(old(Model()), t, txs[t]);
      var _ := CommitTransaction(t);
      return Done(id);
    }
  }
}
