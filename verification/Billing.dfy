/** The ledger and its periods as one concurrent system: a committed database, and open
    transactions that each hold a private write buffer and row locks. Every action is one statement
    of one session (or one decision made in the inbox), so a sequence of actions is an interleaving.
    A read sees the committed rows of that instant (READ COMMITTED); roles, scopes, visibility and
    account facts are what the statement happened to read, and are parameters. */
module Billing {
  import opened Outcomes
  import opened Journal
  import P = Periods

  type TxId = nat

  /** A posted entry. Only `reversedBy` and `version` ever change. */
  datatype Entry = Entry(entity: Id, date: int, period: Id, kind: EntryType, rows: seq<Row>,
                         reversedBy: Option<Id>, version: nat)

  /** A reopen decision of the inbox. `period`, `entity`, `periodVersion` and `requestedBy` never
      change after it is filed. */
  datatype Decision = Decision(period: Id, entity: Id, periodVersion: nat, requestedBy: Id,
                               decided: bool, approved: bool, decidedBy: Option<Id>)

  /** Outbox rows, with the payload fields that identify what happened. */
  datatype Event =
    | EntryPosted(entry: Id)
    | EntryAdjusted(entry: Id)
    | EntryReversed(original: Id, reversing: Id, version: nat)
    | PeriodOpened(period: Id)
    | PeriodClosed(period: Id)
    | PeriodLocked(period: Id)
    | PeriodReopened(period: Id, decision: Id)

  datatype Db = Db(periods: map<Id, P.Period>, entries: map<Id, Entry>,
                   decisions: map<Id, Decision>, outbox: seq<Event>)

  datatype PostInput = PostInput(entity: Id, period: Id, date: int, kind: EntryType, lines: seq<Line>, adjusting: bool)

  datatype ReverseInput = ReverseInput(entry: Id, expectedVersion: int, period: Id, date: int)

  datatype PeriodCommand =
    | ClosePeriod(period: Id, expectedVersion: int)
    | LockPeriod(period: Id, expectedVersion: int)
    | RequestReopen(period: Id, expectedVersion: int, actor: Id)

  /** An open transaction: how far its command has got, and what it has buffered. */
  datatype Tx =
    | PostChecked(post: PostInput)
    | PostWritten(post: PostInput, id: Id, entry: Entry)
    | ReverseRead(rev: ReverseInput, seen: Entry)
    | ReverseGuarded(rev: ReverseInput, seen: Entry)
    | ReversePeriodOpen(rev: ReverseInput, seen: Entry)
    | ReverseMirrored(rev: ReverseInput, seen: Entry, read: seq<Row>)
    | ReverseWritten(rev: ReverseInput, id: Id, entry: Entry)
    | ReverseMarked(rev: ReverseInput, id: Id, entry: Entry, original: Entry)
    | PeriodHeld(period: Id, next: P.Period, event: Event)
    | ReopenChecked(decision: Id, decided: Decision, actor: Id)
    | DecisionFiled(id: Id, filed: Decision)
    | PeriodInserted(id: Id, inserted: P.Period)

  /** `nextId` stands for the generator of fresh ids: an id drawn by a statement is never drawn
      again, whether its transaction commits or rolls back. */
  datatype State = State(db: Db, nextId: Id, txs: map<TxId, Tx>)

  datatype Action =
    | BeginPost(t: TxId, post: PostInput, inScope: bool, hasRole: bool, accounts: map<Id, AccountFacts>)
    | WritePost(t: TxId, accepted: bool)
    | BeginReverse(t: TxId, rev: ReverseInput, visible: bool)
    | GuardReverse(t: TxId, hasRole: bool, visible: bool)
    | RecheckReverse(t: TxId)
    | MirrorReverse(t: TxId, read: seq<Row>, accounts: map<Id, AccountFacts>)
    | WriteReverse(t: TxId, accepted: bool)
    | MarkReverse(t: TxId, inScope: bool)
    | BeginPeriod(t: TxId, command: PeriodCommand, visible: bool, hasRole: bool)
    | BeginApply(t: TxId, decision: Id, actor: Id, visible: bool, approver: bool)
    | HoldReopen(t: TxId, visible: bool, approver: bool)
    | OpenPeriod(t: TxId, entity: Id, first: int, last: int, inFiscalYear: bool)
    | Commit(t: TxId)
    | Abort(t: TxId)
    | Decide(decision: Id, decided: bool, approved: bool, decidedBy: Option<Id>)

  datatype BillingError = JournalFailure(journal: JournalError) | PeriodFailure(period: P.PeriodError)

  /** What one statement does: wait for a lock (or not be the next statement of its session), be
      refused and roll its transaction back, or move the system on. */
  datatype Outcome = Waits | Refused(error: BillingError) | Moves(next: State)

  // ---------------------------------------------------------------- locks

  /** `select … for share` on a period, taken by a posting's period check. */
  predicate HoldsShare(tx: Tx, period: Id) {
    (tx.PostWritten? || tx.ReverseWritten? || tx.ReverseMarked?) && tx.entry.period == period
  }

  /** `select … for update` on a period. */
  predicate HoldsUpdate(tx: Tx, period: Id) {
    (tx.PeriodHeld? && tx.period == period) || (tx.DecisionFiled? && tx.filed.period == period)
  }

  /** `select … for update` on an entry, taken by the reversal mark. */
  predicate HoldsEntry(tx: Tx, entry: Id) { tx.ReverseMarked? && tx.rev.entry == entry }

  predicate FreeForShare(s: State, t: TxId, period: Id) {
    forall u | u in s.txs && u != t :: !HoldsUpdate(s.txs[u], period)
  }

  predicate FreeForUpdate(s: State, t: TxId, period: Id) {
    forall u | u in s.txs && u != t :: !HoldsUpdate(s.txs[u], period) && !HoldsShare(s.txs[u], period)
  }

  predicate FreeEntry(s: State, t: TxId, entry: Id) {
    forall u | u in s.txs && u != t :: !HoldsEntry(s.txs[u], entry)
  }

  /** The exclusion constraint makes a second insert of an overlapping period wait for the first. */
  predicate FreeRange(s: State, t: TxId, p: P.Period) {
    forall u | u in s.txs && u != t :: !(s.txs[u].PeriodInserted? && P.Overlap(s.txs[u].inserted, p))
  }

  // ---------------------------------------------------------------- posting

  function PeriodOf(db: Db, period: Id, visible: bool): Option<P.Period> {
    if visible && period in db.periods then Some(db.periods[period]) else None
  }

  /** `assertPostable`: every refusal of a new entry before any write, in the settled order. */
  function AssertPostable(db: Db, post: PostInput, inScope: bool, hasRole: bool, accounts: map<Id, AccountFacts>): Result<(), JournalError> {
    if !inScope then Err(EntityNotInScope)
    else if !hasRole then Err(RoleRequired)
    else if !P.AssertOpenPeriod(PeriodOf(db, post.period, true), post.entity, post.date) then Err(PeriodNotOpen)
    else match AssertBalanced(post.lines)
      case Err(e) => Err(e)
      case Ok(_) =>
        match AssertLineAccounts(post.entity, post.lines, accounts)
        case Err(e) => Err(e)
        case Ok(_) => AssertEntryTypePostable(post.kind, post.lines, accounts)
  }

  /** `assert_posting_period`, with the covering period already share-locked: the named period must
      be a period that covers the date, and be open. The exclusion constraint leaves at most one
      covering period, so naming a covering one is naming the covering one. */
  predicate PostingPeriodAccepts(db: Db, entity: Id, date: int, period: Id) {
    period in db.periods && P.Covers(db.periods[period], entity, date) && db.periods[period].status == P.Open
  }

  function RowsOf(lines: seq<Line>): Option<seq<Row>> {
    if forall i | 0 <= i < |lines| :: ValidAmounts(lines[i]) then Some(ToRows(lines)) else None
  }

  /** `insertPostedEntry`: the entry row (whose trigger checks the period under the share lock) and
      its lines (whose constraint wants one positive side each). `accepted` is the verdict of the
      account trigger. */
  function InsertEntry(s: State, t: TxId, entity: Id, date: int, period: Id, kind: EntryType, lines: seq<Line>, accepted: bool): Result<Option<Entry>, JournalError> {
    if period in s.db.periods && P.Covers(s.db.periods[period], entity, date) && !FreeForShare(s, t, period) then Ok(None)
    else if !PostingPeriodAccepts(s.db, entity, date, period) then Err(DatabaseRefusal)
    else match RowsOf(lines)
      case None => Err(DatabaseRefusal)
      case Some(rows) =>
        if !accepted || !StorableRows(rows) then Err(DatabaseRefusal)
        else Ok(Some(Entry(entity, date, period, kind, rows, None, 1)))
  }

  function DoBeginPost(s: State, a: Action): Outcome
    requires a.BeginPost?
  {
    if a.t in s.txs then Waits
    else match AssertPostable(s.db, a.post, a.inScope, a.hasRole, a.accounts)
      case Err(e) => Refused(JournalFailure(e))
      case Ok(_) => Moves(s.(txs := s.txs[a.t := PostChecked(a.post)]))
  }

  function DoWritePost(s: State, a: Action): Outcome
    requires a.WritePost?
  {
    if a.t !in s.txs || !s.txs[a.t].PostChecked? then Waits
    else
      var post := s.txs[a.t].post;
      match InsertEntry(s, a.t, post.entity, post.date, post.period, post.kind, post.lines, a.accepted)
      case Err(e) => Refused(JournalFailure(e))
      case Ok(None) => Waits
      case Ok(Some(entry)) =>
        Moves(s.(nextId := s.nextId + 1, txs := s.txs[a.t := PostWritten(post, s.nextId, entry)]))
  }

  // ---------------------------------------------------------------- reversing

  function DoBeginReverse(s: State, a: Action): Outcome
    requires a.BeginReverse?
  {
    if a.t in s.txs then Waits
    else if !a.visible || a.rev.entry !in s.db.entries then Refused(JournalFailure(EntryNotFound))
    else Moves(s.(txs := s.txs[a.t := ReverseRead(a.rev, s.db.entries[a.rev.entry])]))
  }

  function DoGuardReverse(s: State, a: Action): Outcome
    requires a.GuardReverse?
  {
    if a.t !in s.txs || !s.txs[a.t].ReverseRead? then Waits
    else
      var tx := s.txs[a.t];
      if !a.hasRole then Refused(JournalFailure(RoleRequired))
      else match PeriodOf(s.db, tx.rev.period, a.visible)
        case None => Refused(JournalFailure(PeriodNotOpen))
        case Some(p) =>
          match AdvanceJournalStatus(JournalStatusOf(tx.seen.reversedBy), tx.seen.entity, tx.seen.version,
                                     ReverseEvent, p.entity, tx.rev.expectedVersion)
          case Err(e) => Refused(JournalFailure(e))
          case Ok(_) => Moves(s.(txs := s.txs[a.t := ReverseGuarded(tx.rev, tx.seen)]))
  }

  function DoRecheckReverse(s: State, a: Action): Outcome
    requires a.RecheckReverse?
  {
    if a.t !in s.txs || !s.txs[a.t].ReverseGuarded? then Waits
    else
      var tx := s.txs[a.t];
      if !P.AssertOpenPeriod(PeriodOf(s.db, tx.rev.period, true), tx.seen.entity, tx.rev.date)
      then Refused(JournalFailure(PeriodNotOpen))
      else Moves(s.(txs := s.txs[a.t := ReversePeriodOpen(tx.rev, tx.seen)]))
  }

  /** `mirrorLines(readLines(original))` and the account check on the mirrored lines. `read` is the
      original's rows as the query returned them: ordered by row id, which is in no relation to the
      order of their insertion. */
  function DoMirrorReverse(s: State, a: Action): Outcome
    requires a.MirrorReverse?
  {
    if a.t !in s.txs || !s.txs[a.t].ReversePeriodOpen? then Waits
    else
      var tx := s.txs[a.t];
      var stored := if tx.rev.entry in s.db.entries then s.db.entries[tx.rev.entry].rows else [];
      if multiset(a.read) != multiset(stored) then Waits
      else match AssertLineAccounts(tx.seen.entity, MirrorLines(ReadLines(a.read)), a.accounts)
        case Err(e) => Refused(JournalFailure(e))
        case Ok(_) => Moves(s.(txs := s.txs[a.t := ReverseMirrored(tx.rev, tx.seen, a.read)]))
  }

  function DoWriteReverse(s: State, a: Action): Outcome
    requires a.WriteReverse?
  {
    if a.t !in s.txs || !s.txs[a.t].ReverseMirrored? then Waits
    else
      var tx := s.txs[a.t];
      var lines := MirrorLines(ReadLines(tx.read));
      match InsertEntry(s, a.t, tx.seen.entity, tx.rev.date, tx.rev.period, Reversing, lines, a.accepted)
      case Err(e) => Refused(JournalFailure(e))
      case Ok(None) => Waits
      case Ok(Some(entry)) =>
        Moves(s.(nextId := s.nextId + 1, txs := s.txs[a.t := ReverseWritten(tx.rev, s.nextId, entry)]))
  }

  function Side(row: Row): (Id, nat, nat) { (row.account, row.debit, row.credit) }

  function SwappedSide(row: Row): (Id, nat, nat) { (row.account, row.credit, row.debit) }

  /** `except all` empty in both directions: equal as bags. */
  predicate MirrorsAsBags(original: seq<Row>, reversing: seq<Row>) {
    multiset(Each(Side, original)) == multiset(Each(SwappedSide, reversing))
  }

  /** `billing.mark_journal_reversed`, refusals in its order, with the errors the repository maps. */
  function MarkRefusal(db: Db, entry: Id, reversingId: Id, reversing: Entry, expectedVersion: int, inScope: bool): Option<JournalError> {
    if entry !in db.entries || !inScope then Some(EntryNotFound)
    else
      var original := db.entries[entry];
      if reversingId == entry then Some(DatabaseRefusal)
      else if reversing.kind != Reversing || reversing.entity != original.entity then Some(DatabaseRefusal)
      else if !MirrorsAsBags(original.rows, reversing.rows) then Some(DatabaseRefusal)
      else if original.reversedBy.Some? then Some(AlreadyReversed)
      else if original.version != expectedVersion then Some(StaleVersion)
      else None
  }

  function DoMarkReverse(s: State, a: Action): Outcome
    requires a.MarkReverse?
  {
    if a.t !in s.txs || !s.txs[a.t].ReverseWritten? then Waits
    else
      var tx := s.txs[a.t];
      if !FreeEntry(s, a.t, tx.rev.entry) then Waits
      else match MarkRefusal(s.db, tx.rev.entry, tx.id, tx.entry, tx.rev.expectedVersion, a.inScope)
        case Some(e) => Refused(JournalFailure(e))
        case None =>
          var current := s.db.entries[tx.rev.entry];
          var marked := current.(reversedBy := Some(tx.id), version := current.version + 1);
          Moves(s.(txs := s.txs[a.t := ReverseMarked(tx.rev, tx.id, tx.entry, marked)]))
  }

  // ---------------------------------------------------------------- periods

  function Expected(command: PeriodCommand): int { command.expectedVersion }

  function EventOf(command: PeriodCommand): P.PeriodEvent {
    match command case ClosePeriod(_, _) => P.Close case LockPeriod(_, _) => P.Lock case RequestReopen(_, _, _) => P.Reopen
  }

  /** `closePeriod`, `lockPeriod` and `requestReopenPeriod` up to their last write: lock the period
      row, compare the version, check the role (a request needs none), ask the machine. */
  function DoBeginPeriod(s: State, a: Action): Outcome
    requires a.BeginPeriod?
  {
    var id := a.command.period;
    if a.t in s.txs then Waits
    else match PeriodOf(s.db, id, a.visible)
      case None => Refused(PeriodFailure(P.PeriodNotFound))
      case Some(p) =>
        if !FreeForUpdate(s, a.t, id) then Waits
        else if p.version != Expected(a.command) then Refused(PeriodFailure(P.StaleVersion))
        else if !a.command.RequestReopen? && !a.hasRole then Refused(PeriodFailure(P.RoleRequired))
        else match P.Advance(p.status, [EventOf(a.command)])
          case None => Refused(PeriodFailure(P.IllegalTransition))
          case Some(status) =>
            var next := p.(status := status, version := p.version + 1);
            match a.command
            case ClosePeriod(_, _) => Moves(s.(txs := s.txs[a.t := PeriodHeld(id, next, PeriodClosed(id))]))
            case LockPeriod(_, _) => Moves(s.(txs := s.txs[a.t := PeriodHeld(id, next, PeriodLocked(id))]))
            case RequestReopen(_, _, actor) =>
              var filed := Decision(id, p.entity, p.version, actor, false, false, None);
              Moves(s.(nextId := s.nextId + 1, txs := s.txs[a.t := DecisionFiled(s.nextId, filed)]))
  }

  /** `applyPeriodReopenDecision`: the decision is read and judged without a lock … */
  function DoBeginApply(s: State, a: Action): Outcome
    requires a.BeginApply?
  {
    if a.t in s.txs then Waits
    else if !a.visible || a.decision !in s.db.decisions then Refused(PeriodFailure(P.IllegalTransition))
    else
      var d := s.db.decisions[a.decision];
      if !d.decided || !d.approved then Refused(PeriodFailure(P.IllegalTransition))
      else if d.decidedBy == Some(d.requestedBy) then Refused(PeriodFailure(P.SelfApproval))
      else if d.decidedBy != Some(a.actor) || !a.approver then Refused(PeriodFailure(P.RoleRequired))
      else Moves(s.(txs := s.txs[a.t := ReopenChecked(a.decision, d, a.actor)]))
  }

  /** The `closed -> open` clause of `guard_accounting_period`. */
  predicate ReopenGuard(db: Db, period: Id, p: P.Period, actor: Id, approver: bool) {
    && approver
    && exists d | d in db.decisions ::
         var x := db.decisions[d];
         x.period == period && x.entity == p.entity && x.decided && x.approved
         && x.decidedBy == Some(actor) && x.requestedBy != actor && x.periodVersion == p.version
  }

  /** … then the period row is locked, the version the decision was filed for is compared, and the
      REOPEN edge is written, which the row trigger judges once more. */
  function DoHoldReopen(s: State, a: Action): Outcome
    requires a.HoldReopen?
  {
    if a.t !in s.txs || !s.txs[a.t].ReopenChecked? then Waits
    else
      var tx := s.txs[a.t];
      var id := tx.decided.period;
      match PeriodOf(s.db, id, a.visible)
      case None => Refused(PeriodFailure(P.PeriodNotFound))
      case Some(p) =>
        if !FreeForUpdate(s, a.t, id) then Waits
        else if tx.decided.periodVersion != p.version then Refused(PeriodFailure(P.StaleVersion))
        else match P.Advance(p.status, [P.Reopen])
          case None => Refused(PeriodFailure(P.IllegalTransition))
          case Some(status) =>
            if !ReopenGuard(s.db, id, p, tx.actor, a.approver) then Refused(PeriodFailure(P.DatabaseRefusal))
            else
              var next := p.(status := status, version := p.version + 1);
              Moves(s.(txs := s.txs[a.t := PeriodHeld(id, next, PeriodReopened(id, tx.decision))]))
  }

  /** `openPeriod`: the insert, under the range and exclusion constraints. */
  function DoOpenPeriod(s: State, a: Action): Outcome
    requires a.OpenPeriod?
  {
    var p := P.Period(a.entity, a.first, a.last, P.Open, 1);
    if a.t in s.txs then Waits
    else if !a.inFiscalYear then Refused(PeriodFailure(P.OutsideFiscalYear))
    else if a.first > a.last then Refused(PeriodFailure(P.DatabaseRefusal))
    else if exists q | q in s.db.periods :: P.Overlap(s.db.periods[q], p) then Refused(PeriodFailure(P.PeriodOverlap))
    else if !FreeRange(s, a.t, p) then Waits
    else Moves(s.(nextId := s.nextId + 1, txs := s.txs[a.t := PeriodInserted(s.nextId, p)]))
  }

  // ---------------------------------------------------------------- commit

  /** What COMMIT publishes; `None` for a transaction that is still in the middle of its command. */
  function Published(db: Db, tx: Tx): Option<Db> {
    match tx
    case PostWritten(post, id, entry) =>
      Some(db.(entries := db.entries[id := entry],
               outbox := db.outbox + [if post.adjusting then EntryAdjusted(id) else EntryPosted(id)]))
    case ReverseMarked(rev, id, entry, original) =>
      Some(db.(entries := db.entries[id := entry][rev.entry := original],
               outbox := db.outbox + [EntryReversed(rev.entry, id, original.version)]))
    case PeriodHeld(id, next, event) =>
      Some(db.(periods := db.periods[id := next], outbox := db.outbox + [event]))
    case DecisionFiled(id, filed) =>
      Some(db.(decisions := db.decisions[id := filed]))
    case PeriodInserted(id, inserted) =>
      Some(db.(periods := db.periods[id := inserted], outbox := db.outbox + [PeriodOpened(id)]))
    case _ => None
  }

  /** The deferred balance trigger of the entry a transaction inserted. */
  predicate CommitBalanced(tx: Tx) {
    (tx.PostWritten? || tx.ReverseMarked?) ==> BalancedRows(tx.entry.rows)
  }

  function DoCommit(s: State, a: Action): Outcome
    requires a.Commit?
  {
    if a.t !in s.txs then Waits
    else match Published(s.db, s.txs[a.t])
      case None => Waits
      case Some(db) =>
        if !CommitBalanced(s.txs[a.t]) then Refused(JournalFailure(DatabaseRefusal))
        else Moves(s.(db := db, txs := s.txs - {a.t}))
  }

  /** The inbox (or anyone with DML on decisions) records a verdict; nothing else of the row moves. */
  function DoDecide(s: State, a: Action): Outcome
    requires a.Decide?
  {
    if a.decision !in s.db.decisions then Waits
    else
      var d := s.db.decisions[a.decision].(decided := a.decided, approved := a.approved, decidedBy := a.decidedBy);
      Moves(s.(db := s.db.(decisions := s.db.decisions[a.decision := d])))
  }

  function Attempt(s: State, a: Action): Outcome {
    match a
    case BeginPost(_, _, _, _, _) => DoBeginPost(s, a)
    case WritePost(_, _) => DoWritePost(s, a)
    case BeginReverse(_, _, _) => DoBeginReverse(s, a)
    case GuardReverse(_, _, _) => DoGuardReverse(s, a)
    case RecheckReverse(_) => DoRecheckReverse(s, a)
    case MirrorReverse(_, _, _) => DoMirrorReverse(s, a)
    case WriteReverse(_, _) => DoWriteReverse(s, a)
    case MarkReverse(_, _) => DoMarkReverse(s, a)
    case BeginPeriod(_, _, _, _) => DoBeginPeriod(s, a)
    case BeginApply(_, _, _, _, _) => DoBeginApply(s, a)
    case HoldReopen(_, _, _) => DoHoldReopen(s, a)
    case OpenPeriod(_, _, _, _, _) => DoOpenPeriod(s, a)
    case Commit(_) => DoCommit(s, a)
    case Abort(t) => Moves(s.(txs := s.txs - {t}))
    case Decide(_, _, _, _) => DoDecide(s, a)
  }

  /** A refusal rolls the transaction back: its buffer and its locks are gone. */
  function Step(s: State, a: Action): State {
    match Attempt(s, a)
    case Waits => s
    case Refused(_) => if a.Decide? then s else s.(txs := s.txs - {a.t})
    case Moves(next) => next
  }

  function Run(s: State, actions: seq<Action>): State
    decreases |actions|
  {
    if actions == [] then s else Run(Step(s, actions[0]), actions[1..])
  }

  /** One session takes the statements of a command in order, up to the first that waits or is refused. */
  function Call(s: State, script: seq<Action>): (State, Progress<(), BillingError>)
    decreases |script|
  {
    if script == [] then (s, Done(()))
    else match Attempt(s, script[0])
      case Waits => (s, Waiting)
      case Refused(e) => (Step(s, script[0]), Failed(e))
      case Moves(next) => Call(next, script[1..])
  }

  const EMPTY: State := State(Db(map[], map[], map[], []), 0, map[])
}
