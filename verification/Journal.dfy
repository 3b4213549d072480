/** The pure rules of a journal entry: exact totals, the balance check, mirroring, account and entry
    type checks, the reversal machine, and the write/read pair that stores lines as numeric(14,3)
    columns and reads them back as decimal strings. */
module Journal {
  import opened Outcomes
  import opened Decimal

  type Id = nat

  datatype EntryType = Manual | Recurring | Reversing | Adjustment | Accrual | Prepayment | Closing

  /** Every typed refusal of a journal command; `DatabaseRefusal` is a database error that no
      repository maps to a typed one. */
  datatype JournalError =
    | RoleRequired | EntityNotInScope | PeriodNotOpen
    | InsufficientLines | InvalidAmount | Unbalanced
    | AccountNotInEntity | AccountNotPostable
    | ManualRevenueRefused | ManualApprovalRequired
    | EntryNotFound | IllegalTransition | AlreadyReversed | StaleVersion
    | DatabaseRefusal

  /** One line as the commands carry it; an omitted side is `None`, and `dimensions` with no element
      is the omitted list. */
  datatype Line = Line(account: Id, debit: Option<string>, credit: Option<string>,
                       description: Option<string>, dimensions: set<(Id, Id)>)

  /** One line as stored: both sides in thousandths, an omitted side being zero. */
  datatype Row = Row(account: Id, debit: nat, credit: nat,
                     description: Option<string>, dimensions: set<(Id, Id)>)

  datatype AccountFacts = AccountFacts(entity: Id, postable: bool, revenue: bool)

  // ---------------------------------------------------------------- totals and balance

  /** `sideMilli`: `None` is InvalidAmountError. */
  function SideMilli(side: Option<string>): Option<nat> {
    match side case None => Some(0) case Some(text) => ToMilli(text)
  }

  predicate ValidAmounts(line: Line) { SideMilli(line.debit).Some? && SideMilli(line.credit).Some? }

  datatype Totals = Totals(debit: nat, credit: nat)

  /** `totals`, accumulating from the first line on; `None` when some amount is malformed. */
  function TotalsOf(lines: seq<Line>): Option<Totals> {
    if lines == [] then Some(Totals(0, 0))
    else
      var last := lines[|lines| - 1];
      match TotalsOf(lines[..|lines| - 1])
      case None => None
      case Some(t) =>
        if !ValidAmounts(last) then None
        else Some(Totals(t.debit + SideMilli(last.debit).value, t.credit + SideMilli(last.credit).value))
  }

  const MIN_LINES: nat := 2

  /** `assertBalanced`. */
  function AssertBalanced(lines: seq<Line>): Result<(), JournalError> {
    if |lines| < MIN_LINES then Err(InsufficientLines)
    else match TotalsOf(lines)
      case None => Err(InvalidAmount)
      case Some(t) => if t.debit != t.credit then Err(Unbalanced) else Ok(())
  }

  /** Debits minus credits of the rows of one account. */
  function Signed(rows: seq<Row>, account: Id): int {
    if rows == [] then 0
    else
      Signed(rows[..|rows| - 1], account)
      + (var last := rows[|rows| - 1];
         if last.account == account then last.debit as int - last.credit as int else 0)
  }

  function DebitSum(rows: seq<Row>): nat {
    if rows == [] then 0 else DebitSum(rows[..|rows| - 1]) + rows[|rows| - 1].debit
  }

  function CreditSum(rows: seq<Row>): nat {
    if rows == [] then 0 else CreditSum(rows[..|rows| - 1]) + rows[|rows| - 1].credit
  }

  /** What the deferred constraint trigger requires of an entry at COMMIT. */
  predicate BalancedRows(rows: seq<Row>) { |rows| >= MIN_LINES && DebitSum(rows) == CreditSum(rows) }

  // ---------------------------------------------------------------- mirroring

  function MirrorLine(line: Line): Line { line.(debit := line.credit, credit := line.debit) }

  /** `mirrorLines`: same order, same other fields, sides swapped. */
  function MirrorLines(lines: seq<Line>): seq<Line> { seq(|lines|, i requires 0 <= i < |lines| => MirrorLine(lines[i])) }

  function MirrorRow(row: Row): Row { row.(debit := row.credit, credit := row.debit) }

  function MirrorRows(rows: seq<Row>): seq<Row> { seq(|rows|, i requires 0 <= i < |rows| => MirrorRow(rows[i])) }

  lemma MirrorTwice(lines: seq<Line>, rows: seq<Row>)
    ensures MirrorLines(MirrorLines(lines)) == lines
    ensures MirrorRows(MirrorRows(rows)) == rows
  {
  }

  lemma MirrorRowsInit(rows: seq<Row>)
    requires rows != []
    ensures MirrorRows(rows)[..|rows| - 1] == MirrorRows(rows[..|rows| - 1])
  {
  }

  /** Mirroring swaps the two totals, so it keeps balance, and it negates every account's amount. */
  lemma {:induction false} MirrorEffect(rows: seq<Row>, account: Id)
    ensures DebitSum(MirrorRows(rows)) == CreditSum(rows)
    ensures CreditSum(MirrorRows(rows)) == DebitSum(rows)
    ensures Signed(MirrorRows(rows), account) == -Signed(rows, account)
    ensures BalancedRows(rows) ==> BalancedRows(MirrorRows(rows))
  {
    if rows != [] {
      MirrorRowsInit(rows);
      MirrorEffect(rows[..|rows| - 1], account);
    }
  }

  // ---------------------------------------------------------------- rows in another order

  lemma {:induction false} SumsWithout(rows: seq<Row>, i: nat, account: Id)
    requires i < |rows|
    ensures var rest := rows[..i] + rows[i + 1..];
            && DebitSum(rows) == DebitSum(rest) + rows[i].debit && CreditSum(rows) == CreditSum(rest) + rows[i].credit
            && Signed(rows, account) == Signed(rest, account) + Signed([rows[i]], account)
    decreases |rows|
  {
    var init, rest := rows[..|rows| - 1], rows[..i] + rows[i + 1..];
    if i == |rows| - 1 {
      assert rest == init;
    } else {
      SumsWithout(init, i, account);
      assert rest[..|rest| - 1] == init[..i] + init[i + 1..];
      assert rest[|rest| - 1] == rows[|rows| - 1];
    }
    assert [rows[i]][..0] == [];
  }

  lemma Without<T>(b: seq<T>, i: nat)
    requires i < |b|
    ensures multiset(b[..i] + b[i + 1..]) == multiset(b) - multiset{b[i]}
  {
    assert b == b[..i] + [b[i]] + b[i + 1..];
  }

  /** The place of a's last element in a permutation of a. */
  lemma LastIn<T>(a: seq<T>, b: seq<T>) returns (i: nat)
    requires multiset(a) == multiset(b) && a != []
    ensures i < |b| && b[i] == a[|a| - 1]
    ensures multiset(a[..|a| - 1]) == multiset(b[..i] + b[i + 1..])
  {
    var x := a[|a| - 1];
    assert x in multiset(b);
    i :| 0 <= i < |b| && b[i] == x;
    Without(a, |a| - 1);
    Without(b, i);
    assert a[..|a| - 1] + a[|a|..] == a[..|a| - 1];
  }

  /** Sums do not depend on the order of the rows. */
  lemma {:induction false} SumsPermute(a: seq<Row>, b: seq<Row>, account: Id)
    requires multiset(a) == multiset(b)
    ensures |a| == |b| && DebitSum(a) == DebitSum(b) && CreditSum(a) == CreditSum(b) && Signed(a, account) == Signed(b, account)
    decreases |a|
  {
    assert |multiset(a)| == |a| && |multiset(b)| == |b|;
    if a != [] {
      var n := |a| - 1;
      var i := LastIn(a, b);
      SumsPermute(a[..n], b[..i] + b[i + 1..], account);
      SumsWithout(a, n, account);
      assert a[..n] + a[n + 1..] == a[..n];
      SumsWithout(b, i, account);
    }
  }

  function Each<T, U>(f: T -> U, s: seq<T>): seq<U> { seq(|s|, i requires 0 <= i < |s| => f(s[i])) }

  lemma EachOfParts<T, U>(f: T -> U, a: seq<T>, x: T, b: seq<T>)
    ensures multiset(Each(f, a + [x] + b)) == multiset(Each(f, a + b)) + multiset{f(x)}
  {
    assert Each(f, a + [x] + b) == Each(f, a) + [f(x)] + Each(f, b);
    assert Each(f, a + b) == Each(f, a) + Each(f, b);
  }

  /** The images of permuted elements are permuted. */
  lemma {:induction false} EachPermutes<T, U>(f: T -> U, a: seq<T>, b: seq<T>)
    requires multiset(a) == multiset(b)
    ensures multiset(Each(f, a)) == multiset(Each(f, b))
    decreases |a|
  {
    assert |multiset(a)| == |a| && |multiset(b)| == |b|;
    if a == [] {
      assert b == [];
    } else {
      var n, x := |a| - 1, a[|a| - 1];
      var i := LastIn(a, b);
      assert a == a[..n] + [x] + [] && b == b[..i] + [x] + b[i + 1..];
      assert a[..n] + [] == a[..n];
      EachPermutes(f, a[..n], b[..i] + b[i + 1..]);
      EachOfParts(f, a[..n], x, []);
      EachOfParts(f, b[..i], x, b[i + 1..]);
    }
  }

  /** Row for row the mirror image, in any order. */
  predicate Mirrors(original: seq<Row>, reversing: seq<Row>) { multiset(reversing) == multiset(MirrorRows(original)) }

  /** Whatever order the rows are read in, their mirror image mirrors them. */
  lemma MirroredInAnyOrder(rows: seq<Row>, read: seq<Row>)
    requires multiset(read) == multiset(rows)
    ensures Mirrors(rows, MirrorRows(read))
  {
    EachPermutes(MirrorRow, read, rows);
    assert MirrorRows(read) == Each(MirrorRow, read) && MirrorRows(rows) == Each(MirrorRow, rows);
  }

  /** An entry that mirrors another balances as that does, and negates its effect on every account. */
  lemma MirrorsEffect(original: seq<Row>, reversing: seq<Row>, account: Id)
    requires Mirrors(original, reversing)
    ensures Signed(reversing, account) == -Signed(original, account)
    ensures BalancedRows(original) ==> BalancedRows(reversing)
  {
    SumsPermute(reversing, MirrorRows(original), account);
    MirrorEffect(original, account);
  }

  // ---------------------------------------------------------------- storing and reading lines

  /** The column constraint `one_side_only`. */
  predicate OneSideOnly(row: Row) {
    (row.debit > 0 && row.credit == 0) || (row.credit > 0 && row.debit == 0)
  }

  /** A row the table can hold: one side only, within numeric(14,3). */
  predicate StorableRow(row: Row) {
    OneSideOnly(row) && row.debit <= MAX_MAGNITUDE && row.credit <= MAX_MAGNITUDE
  }

  predicate StorableRows(rows: seq<Row>) { forall i | 0 <= i < |rows| :: StorableRow(rows[i]) }

  /** `isOneSideOnly` of the contract. */
  predicate ContractOneSideOnly(line: Line) {
    (line.debit.Some? && MatchesPositiveAmount(line.debit.value))
    != (line.credit.Some? && MatchesPositiveAmount(line.credit.value))
  }

  /** One inserted row: an omitted side is stored as zero. */
  function ToRow(line: Line): Row
    requires ValidAmounts(line)
  {
    Row(line.account, SideMilli(line.debit).value, SideMilli(line.credit).value, line.description, line.dimensions)
  }

  function ToRows(lines: seq<Line>): seq<Row>
    requires forall i | 0 <= i < |lines| :: ValidAmounts(lines[i])
  {
    seq(|lines|, i requires 0 <= i < |lines| => ToRow(lines[i]))
  }

  /** `nullif(side, 0)::text`, the null side omitted. */
  function SideText(side: nat): Option<string> {
    if side == 0 then None else Some(FormatAmount(side))
  }

  function FromRow(row: Row): Line {
    Line(row.account, SideText(row.debit), SideText(row.credit), row.description, row.dimensions)
  }

  /** `readLines`. */
  function ReadLines(rows: seq<Row>): seq<Line> {
    seq(|rows|, i requires 0 <= i < |rows| => FromRow(rows[i]))
  }

  /** A side in canonical form: three decimals, a zero side omitted. */
  function CanonicalSide(side: Option<string>): Option<string>
    requires SideMilli(side).Some?
  {
    SideText(SideMilli(side).value)
  }

  function CanonicalLine(line: Line): Line
    requires ValidAmounts(line)
  {
    line.(debit := CanonicalSide(line.debit), credit := CanonicalSide(line.credit))
  }

  lemma SideTextParses(side: nat)
    requires side <= MAX_MAGNITUDE
    ensures SideMilli(SideText(side)) == Some(side)
  {
    if side != 0 { ToMilliPrinted(side); }
  }

  /** The contract's one-side-only check on the texts is the table's constraint on the columns. */
  lemma ContractIsConstraint(line: Line)
    requires ValidAmounts(line)
    ensures ContractOneSideOnly(line) <==> OneSideOnly(ToRow(line))
    ensures ToRow(line).debit <= MAX_MAGNITUDE && ToRow(line).credit <= MAX_MAGNITUDE
  {
    if line.debit.Some? {
      PositivePatternIsPositive(line.debit.value);
      ToMilliIsQuantity(line.debit.value);
    }
    if line.credit.Some? {
      PositivePatternIsPositive(line.credit.value);
      ToMilliIsQuantity(line.credit.value);
    }
  }

  /** Reading back what was appended gives the same line in canonical form, which the contract
      accepts when it accepted the line, and which stores to the very same columns again. */
  lemma ReadBackIsCanonical(line: Line)
    requires ValidAmounts(line)
    ensures FromRow(ToRow(line)) == CanonicalLine(line)
    ensures ValidAmounts(CanonicalLine(line)) && ToRow(CanonicalLine(line)) == ToRow(line)
    ensures ContractOneSideOnly(line) ==> ContractOneSideOnly(CanonicalLine(line))
  {
    ContractIsConstraint(line);
    SideTextParses(ToRow(line).debit);
    SideTextParses(ToRow(line).credit);
    ContractIsConstraint(CanonicalLine(line));
  }

  lemma StorableInAnyOrder(rows: seq<Row>, read: seq<Row>)
    requires StorableRows(rows) && multiset(read) == multiset(rows)
    ensures StorableRows(read)
  {
    forall i | 0 <= i < |read| ensures StorableRow(read[i]) {
      assert read[i] in multiset(rows);
    }
  }

  /** The lines a reversal writes: stored rows read back as text in whatever order the database gives
      them, mirrored, and stored again, are the stored rows with the two columns swapped. */
  lemma MirroredReadBack(rows: seq<Row>, read: seq<Row>)
    requires StorableRows(rows) && multiset(read) == multiset(rows)
    ensures var lines := MirrorLines(ReadLines(read));
            && (forall i | 0 <= i < |lines| :: ValidAmounts(lines[i]))
            && ToRows(lines) == MirrorRows(read)
            && Mirrors(rows, ToRows(lines)) && StorableRows(ToRows(lines))
  {
    StorableInAnyOrder(rows, read);
    MirroredInAnyOrder(rows, read);
    forall i | 0 <= i < |read|
      ensures var line := MirrorLine(FromRow(read[i])); ValidAmounts(line) && ToRow(line) == MirrorRow(read[i])
    {
      SideTextParses(read[i].debit);
      SideTextParses(read[i].credit);
    }
  }

  // ---------------------------------------------------------------- what the balance check means

  /** The totals of the texts are the sums of the stored columns. */
  lemma {:induction false} TotalsAreColumnSums(lines: seq<Line>)
    ensures TotalsOf(lines).Some? <==> (forall i | 0 <= i < |lines| :: ValidAmounts(lines[i]))
    ensures TotalsOf(lines).Some? ==> TotalsOf(lines).value == Totals(DebitSum(ToRows(lines)), CreditSum(ToRows(lines)))
  {
    if lines != [] {
      var init, last := lines[..|lines| - 1], lines[|lines| - 1];
      TotalsAreColumnSums(init);
      assert lines == init + [last];
      assert (forall i | 0 <= i < |lines| :: ValidAmounts(lines[i]))
        <==> (forall i | 0 <= i < |init| :: ValidAmounts(init[i])) && ValidAmounts(last);
      if TotalsOf(lines).Some? {
        assert ToRows(lines)[..|lines| - 1] == ToRows(init);
        assert ToRows(lines)[|lines| - 1] == ToRow(last);
      }
    }
  }

  /** Lines pass `assertBalanced` exactly when every amount is well-formed and the rows they store
      pass the database's own check at COMMIT. */
  lemma AssertBalancedIsCommitCheck(lines: seq<Line>)
    ensures AssertBalanced(lines).Ok?
       <==> (forall i | 0 <= i < |lines| :: ValidAmounts(lines[i])) && BalancedRows(ToRows(lines))
  {
    TotalsAreColumnSums(lines);
  }

  // ---------------------------------------------------------------- accounts and entry types

  /** `assertLineAccounts`: the first offending line decides. */
  function AssertLineAccounts(entity: Id, lines: seq<Line>, accounts: map<Id, AccountFacts>): Result<(), JournalError> {
    if lines == [] then Ok(())
    else
      var a := lines[0].account;
      if a !in accounts || accounts[a].entity != entity then Err(AccountNotInEntity)
      else if !accounts[a].postable then Err(AccountNotPostable)
      else AssertLineAccounts(entity, lines[1..], accounts)
  }

  predicate AccountUsable(entity: Id, account: Id, accounts: map<Id, AccountFacts>) {
    account in accounts && accounts[account].entity == entity && accounts[account].postable
  }

  lemma {:induction false} LineAccountsAccepted(entity: Id, lines: seq<Line>, accounts: map<Id, AccountFacts>)
    ensures AssertLineAccounts(entity, lines, accounts).Ok?
       <==> forall i | 0 <= i < |lines| :: AccountUsable(entity, lines[i].account, accounts)
  {
    if lines != [] {
      LineAccountsAccepted(entity, lines[1..], accounts);
      assert forall i | 1 <= i < |lines| :: lines[i] == lines[1..][i - 1];
      if AccountUsable(entity, lines[0].account, accounts)
         && forall i | 0 <= i < |lines[1..]| :: AccountUsable(entity, lines[1..][i].account, accounts) {
        forall i | 0 <= i < |lines| ensures AccountUsable(entity, lines[i].account, accounts) {
          if i > 0 { assert lines[i] == lines[1..][i - 1]; }
        }
      }
    }
  }

  /** `assertEntryTypePostable`: every manual journal is refused. */
  function AssertEntryTypePostable(kind: EntryType, lines: seq<Line>, accounts: map<Id, AccountFacts>): Result<(), JournalError> {
    if kind != Manual then Ok(())
    else if exists i | 0 <= i < |lines| :: lines[i].account in accounts && accounts[lines[i].account].revenue
    then Err(ManualRevenueRefused)
    else Err(ManualApprovalRequired)
  }

  // ---------------------------------------------------------------- the reversal machine

  datatype JournalStatus = Posted | Reversed

  datatype JournalEvent = ReverseEvent | OtherEvent

  function JournalStatusOf(reversedBy: Option<Id>): JournalStatus {
    if reversedBy == None then Posted else Reversed
  }

  predicate CanTransitionJournal(status: JournalStatus, event: JournalEvent) {
    status == Posted && event == ReverseEvent
  }

  /** `advanceJournalStatus`, refusals in the source's order. */
  function AdvanceJournalStatus(status: JournalStatus, entity: Id, version: nat,
                                event: JournalEvent, eventEntity: Id, expectedVersion: int): Result<JournalStatus, JournalError>
  {
    if event != ReverseEvent then Err(IllegalTransition)
    else if eventEntity != entity then Err(EntityNotInScope)
    else if !CanTransitionJournal(status, event) then Err(AlreadyReversed)
    else if expectedVersion != version then Err(StaleVersion)
    else Ok(Reversed)
  }
}
