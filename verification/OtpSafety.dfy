/** What the codes guarantee over every interleaving, under every clock. */
module OtpSafety {
  import opened Outcomes
  import opened Otp
  import opened OtpInvariant

  // ---------------------------------------------------------------- issue limits

  /** Two issues for one email, in commit order: the later is at least its own resend interval after
      the earlier, less what the expiry read by the later exceeds the earlier's. */
  lemma IssuesAreSpaced(lockOf: LockOf, actions: seq<Action>, i: nat, j: nat)
    requires var issued := Run(lockOf, EMPTY, actions).db.issued;
             i < j < |issued| && issued[i].email == issued[j].email
    ensures var issued := Run(lockOf, EMPTY, actions).db.issued;
            && issued[j].at >= issued[i].at + (issued[i].limits.expiry - issued[j].limits.expiry) + issued[j].limits.resend
            && (issued[j].limits.expiry <= issued[i].limits.expiry ==> issued[j].at >= issued[i].at + issued[j].limits.resend)
  {
    ReachableIsOk(lockOf, actions);
    var issued := Run(lockOf, EMPTY, actions).db.issued;
    assert Spaced(issued[i], issued[j]);
  }

  /** The expiry was only ever lowered between issues for this email (in particular, never changed). */
  predicate ExpiryOnlyLowered(issued: seq<Issued>, email: Email) {
    forall i, j | 0 <= i < j < |issued| && issued[i].email == email && issued[j].email == email ::
      issued[j].limits.expiry <= issued[i].limits.expiry
  }

  /** The issues for an email whose instants fall in the hour that ends with `end`. */
  function InHour(issued: seq<Issued>, email: Email, end: int): set<nat> {
    set i: nat | i < |issued| && issued[i].email == email && end - HOUR < issued[i].at <= end
  }

  lemma {:induction false} Latest(indices: set<nat>)
    requires indices != {}
    ensures exists j :: j in indices && forall i | i in indices :: i <= j
    decreases |indices|
  {
    var x :| x in indices;
    var rest := indices - {x};
    if rest == {} {
      assert indices == {x};
    } else {
      Latest(rest);
      var y :| y in rest && forall i | i in rest :: i <= y;
      var m := if x < y then y else x;
      forall i | i in indices ensures i <= m {
        assert i == x || i in rest;
      }
      assert m in indices;
    }
  }

  /** Of the issues in a window, all but the last were counted by the last. */
  lemma OthersWereCounted(issued: seq<Issued>, email: Email, end: int, j: nat)
    requires ExpiryOnlyLowered(issued, email) && j in InHour(issued, email, end)
    requires forall i | i in InHour(issued, email, end) :: i <= j
    ensures InHour(issued, email, end) - {j} <= Earlier(issued, j)
  {
  }

  /** Every issue for the email was accepted under a cap of at most `cap`. */
  predicate CapAtMost(issued: seq<Issued>, email: Email, cap: nat) {
    forall j | 0 <= j < |issued| && issued[j].email == email :: issued[j].limits.perHour <= cap * 1000
  }

  lemma WindowUnderCap(issued: seq<Issued>, email: Email, end: int, cap: nat)
    requires HourlyOk(issued) && ExpiryOnlyLowered(issued, email) && CapAtMost(issued, email, cap)
    ensures |InHour(issued, email, end)| <= cap
  {
    var window := InHour(issued, email, end);
    if window != {} {
      Latest(window);
      var j :| j in window && forall i | i in window :: i <= j;
      OthersWereCounted(issued, email, end, j);
      NoLarger(window - {j}, Earlier(issued, j));
    }
  }

  /** No hour, wherever it is placed, holds more issues for an email than the cap. */
  lemma HourlyCapHolds(lockOf: LockOf, actions: seq<Action>, email: Email, end: int, cap: nat)
    requires ExpiryOnlyLowered(Run(lockOf, EMPTY, actions).db.issued, email)
    requires CapAtMost(Run(lockOf, EMPTY, actions).db.issued, email, cap)
    ensures |InHour(Run(lockOf, EMPTY, actions).db.issued, email, end)| <= cap
  {
    ReachableIsOk(lockOf, actions);
    WindowUnderCap(Run(lockOf, EMPTY, actions).db.issued, email, end, cap);
  }

  lemma {:induction false} NoLarger(a: set<nat>, b: set<nat>)
    requires a <= b
    ensures |a| <= |b|
    decreases |a|
  {
    if a != {} {
      var x :| x in a;
      NoLarger(a - {x}, b - {x});
    }
  }

  // ---------------------------------------------------------------- exactly when the limits hold

  /** Every code there is was issued. */
  predicate AllIssued(codes: map<OtpId, Code>, issued: seq<Issued>) {
    forall id | id in codes :: WasIssued(issued, id)
  }

  predicate WasIssued(issued: seq<Issued>, id: OtpId) { exists i :: 0 <= i < |issued| && issued[i].id == id }

  lemma AllIssuedKept(before: map<OtpId, Code>, after: map<OtpId, Code>, issued: seq<Issued>, issue: Issued)
    requires AllIssued(before, issued) && after.Keys == before.Keys + {issue.id}
    ensures AllIssued(after, issued + [issue])
  {
    var longer := issued + [issue];
    assert longer[|issued|].id == issue.id;
    forall id | id in after ensures WasIssued(longer, id) {
      if id != issue.id {
        var i :| 0 <= i < |issued| && issued[i].id == id;
        assert longer[i].id == id;
      }
    }
  }

  lemma StepKeepsAllIssued(lockOf: LockOf, s: State, a: Action)
    requires AllIssued(s.db.codes, s.db.issued)
    ensures AllIssued(Step(lockOf, s, a).db.codes, Step(lockOf, s, a).db.issued)
  {
    if a.Commit? && a.t in s.txs && s.txs[a.t].GenIssued? {
      var tx := s.txs[a.t];
      AllIssuedKept(s.db.codes, Step(lockOf, s, a).db.codes, s.db.issued, Issued(tx.email, tx.id, tx.at, tx.limits));
    }
  }

  lemma {:induction false} RunKeepsAllIssued(lockOf: LockOf, s: State, actions: seq<Action>)
    requires AllIssued(s.db.codes, s.db.issued)
    ensures AllIssued(Run(lockOf, s, actions).db.codes, Run(lockOf, s, actions).db.issued)
    decreases |actions|
  {
    if actions != [] {
      StepKeepsAllIssued(lockOf, s, actions[0]);
      RunKeepsAllIssued(lockOf, Step(lockOf, s, actions[0]), actions[1..]);
    }
  }

  predicate SpacedFromAll(issued: seq<Issued>, email: Email, at: int, resend: int) {
    forall k | 0 <= k < |issued| && issued[k].email == email :: at >= issued[k].at + resend
  }

  /** Some earlier issue, with the expiry it was given, outlasts issue k by the expiry now in force. */
  predicate Outlasted(issued: seq<Issued>, email: Email, k: nat, expiry: int)
    requires k < |issued|
  {
    exists i :: 0 <= i < |issued| && issued[i].email == email && issued[i].at + issued[i].limits.expiry >= issued[k].at + expiry
  }

  predicate NoneTooSoon(issued: seq<Issued>, email: Email, at: int, limits: Limits) {
    forall i | 0 <= i < |issued| && issued[i].email == email ::
      issued[i].at + issued[i].limits.expiry - limits.expiry <= at - limits.resend
  }

  /** The query over the codes is a query over the issues. */
  lemma TooSoonOfIssues(codes: map<OtpId, Code>, issued: seq<Issued>, email: Email, at: int, limits: Limits)
    requires IssuedOk(codes, issued) && AllIssued(codes, issued)
    ensures TooSoon(codes, email, at, limits) <==> !NoneTooSoon(issued, email, at, limits)
  {
    if TooSoon(codes, email, at, limits) {
      var id :| id in codes && codes[id].email == email && DerivedIssue(codes[id], limits) > at - limits.resend;
      assert WasIssued(issued, id);
      var i :| 0 <= i < |issued| && issued[i].id == id;
    }
    if !NoneTooSoon(issued, email, at, limits) {
      var i :| 0 <= i < |issued| && issued[i].email == email && issued[i].at + issued[i].limits.expiry - limits.expiry > at - limits.resend;
      assert DerivedIssue(codes[issued[i].id], limits) > at - limits.resend;
    }
  }

  /** The resend rule lets nothing through early, at any instant, exactly when every earlier issue is
      outlasted, counted with the expiry now in force. Without an edit that raised the expiry it is. */
  lemma ResendHoldsIff(lockOf: LockOf, actions: seq<Action>, email: Email, limits: Limits)
    ensures var db := Run(lockOf, EMPTY, actions).db;
            (forall at: int :: !TooSoon(db.codes, email, at, limits) ==> SpacedFromAll(db.issued, email, at, limits.resend))
            <==> (forall k | 0 <= k < |db.issued| && db.issued[k].email == email :: Outlasted(db.issued, email, k, limits.expiry))
  {
    ReachableIsOk(lockOf, actions);
    RunKeepsAllIssued(lockOf, EMPTY, actions);
    ResendRuleHoldsIff(Run(lockOf, EMPTY, actions).db.codes, Run(lockOf, EMPTY, actions).db.issued, email, limits);
  }

  lemma ResendRuleHoldsIff(codes: map<OtpId, Code>, issued: seq<Issued>, email: Email, limits: Limits)
    requires IssuedOk(codes, issued) && AllIssued(codes, issued)
    ensures (forall at: int :: !TooSoon(codes, email, at, limits) ==> SpacedFromAll(issued, email, at, limits.resend))
       <==> (forall k | 0 <= k < |issued| && issued[k].email == email :: Outlasted(issued, email, k, limits.expiry))
  {
    if k :| 0 <= k < |issued| && issued[k].email == email && !Outlasted(issued, email, k, limits.expiry) {
      var at := issued[k].at + limits.resend - 1;
      assert NoneTooSoon(issued, email, at, limits);
      TooSoonOfIssues(codes, issued, email, at, limits);
      assert !SpacedFromAll(issued, email, at, limits.resend);
    } else {
      forall at: int | !TooSoon(codes, email, at, limits) ensures SpacedFromAll(issued, email, at, limits.resend) {
        TooSoonOfIssues(codes, issued, email, at, limits);
        forall k | 0 <= k < |issued| && issued[k].email == email ensures at >= issued[k].at + limits.resend {
          assert Outlasted(issued, email, k, limits.expiry);
        }
      }
    }
  }

  /** The issues for an email from an instant on, by their own instants … */
  function IssuesSince(issued: seq<Issued>, email: Email, from: int): set<nat> {
    set i: nat | i < |issued| && issued[i].email == email && issued[i].at >= from
  }

  /** … and by the instants the query derives for them from the expiry now in force. */
  function DerivedSince(issued: seq<Issued>, email: Email, from: int, expiry: int): set<nat> {
    set i: nat | i < |issued| && issued[i].email == email && issued[i].at + issued[i].limits.expiry - expiry >= from
  }

  lemma {:induction false} NoMoreCodesThanIssues(issued: seq<Issued>, ids: set<OtpId>, issues: set<nat>)
    requires forall i | i in issues :: i < |issued|
    requires forall id | id in ids :: exists i :: i in issues && issued[i].id == id
    ensures |ids| <= |issues|
    decreases |ids|
  {
    if ids != {} {
      var id :| id in ids;
      var i :| i in issues && issued[i].id == id;
      NoMoreCodesThanIssues(issued, ids - {id}, issues - {i});
    }
  }

  /** The hourly query over the codes counts issues. */
  lemma OverCapOfIssues(codes: map<OtpId, Code>, issued: seq<Issued>, email: Email, at: int, limits: Limits)
    requires IssuedOk(codes, issued) && AllIssued(codes, issued)
    ensures OverCap(codes, email, at, limits) <==> |DerivedSince(issued, email, at - HOUR + 1, limits.expiry)| * 1000 >= limits.perHour
  {
    var ids, issues := IssuedInHour(codes, email, at, limits), DerivedSince(issued, email, at - HOUR + 1, limits.expiry);
    forall id | id in ids ensures exists i :: i in issues && issued[i].id == id {
      assert WasIssued(issued, id);
      var i: nat :| i < |issued| && issued[i].id == id;
      assert i in issues;
    }
    NoMoreCodesThanIssues(issued, ids, issues);
    NoMoreIssuesThanCodes(issued, issues, ids);
  }

  lemma {:induction false} Earliest(issued: seq<Issued>, indices: set<nat>)
    requires indices != {} && forall i | i in indices :: i < |issued|
    ensures exists k :: k in indices && forall i | i in indices :: issued[k].at <= issued[i].at
    decreases |indices|
  {
    var x :| x in indices;
    var rest := indices - {x};
    if rest == {} {
      assert indices == {x};
    } else {
      Earliest(issued, rest);
      var y :| y in rest && forall i | i in rest :: issued[y].at <= issued[i].at;
      var m := if issued[x].at < issued[y].at then x else y;
      forall i | i in indices ensures issued[m].at <= issued[i].at {
        assert i == x || i in rest;
      }
      assert m in indices;
    }
  }

  /** From issue k on the cap is used up by the issues' own instants only if it is by derived ones. */
  predicate CapSeen(issued: seq<Issued>, email: Email, k: nat, limits: Limits)
    requires k < |issued|
  {
    |IssuesSince(issued, email, issued[k].at)| * 1000 >= limits.perHour ==>
      |DerivedSince(issued, email, issued[k].at, limits.expiry)| * 1000 >= limits.perHour
  }

  predicate HourUnderCap(issued: seq<Issued>, email: Email, at: int, limits: Limits) {
    |IssuesSince(issued, email, at - HOUR + 1)| * 1000 < limits.perHour
  }

  /** An hour that is full of issues is seen to be full, if it is so from its earliest issue on. */
  lemma FullHourIsSeen(issued: seq<Issued>, email: Email, from: int, limits: Limits)
    requires forall k | 0 <= k < |issued| && issued[k].email == email :: CapSeen(issued, email, k, limits)
    requires |IssuesSince(issued, email, from)| * 1000 >= limits.perHour
    ensures |DerivedSince(issued, email, from, limits.expiry)| * 1000 >= limits.perHour
  {
    var recent := IssuesSince(issued, email, from);
    if recent != {} {
      Earliest(issued, recent);
      var k :| k in recent && forall i | i in recent :: issued[k].at <= issued[i].at;
      assert IssuesSince(issued, email, issued[k].at) == recent;
      assert CapSeen(issued, email, k, limits);
      NoLarger(DerivedSince(issued, email, issued[k].at, limits.expiry), DerivedSince(issued, email, from, limits.expiry));
    }
  }

  lemma HourlyRuleHoldsIff(codes: map<OtpId, Code>, issued: seq<Issued>, email: Email, limits: Limits)
    requires IssuedOk(codes, issued) && AllIssued(codes, issued)
    ensures (forall at: int :: !OverCap(codes, email, at, limits) ==> HourUnderCap(issued, email, at, limits))
       <==> (forall k | 0 <= k < |issued| && issued[k].email == email :: CapSeen(issued, email, k, limits))
  {
    if k :| 0 <= k < |issued| && issued[k].email == email && !CapSeen(issued, email, k, limits) {
      var at := issued[k].at + HOUR - 1;
      OverCapOfIssues(codes, issued, email, at, limits);
      assert !OverCap(codes, email, at, limits) && !HourUnderCap(issued, email, at, limits);
    } else {
      forall at: int | !OverCap(codes, email, at, limits) ensures HourUnderCap(issued, email, at, limits) {
        OverCapOfIssues(codes, issued, email, at, limits);
        if !HourUnderCap(issued, email, at, limits) { FullHourIsSeen(issued, email, at - HOUR + 1, limits); }
      }
    }
  }

  /** The hourly query lets nothing through above the cap, at any instant, exactly when for every issue
      the following holds: if from it on the cap is used up, then it is also used up by the instants
      that the query derives from the expiry now in force. */
  lemma HourlyCapHoldsIff(lockOf: LockOf, actions: seq<Action>, email: Email, limits: Limits)
    ensures var db := Run(lockOf, EMPTY, actions).db;
            (forall at: int :: !OverCap(db.codes, email, at, limits) ==> HourUnderCap(db.issued, email, at, limits))
            <==> (forall k | 0 <= k < |db.issued| && db.issued[k].email == email :: CapSeen(db.issued, email, k, limits))
  {
    ReachableIsOk(lockOf, actions);
    RunKeepsAllIssued(lockOf, EMPTY, actions);
    HourlyRuleHoldsIff(Run(lockOf, EMPTY, actions).db.codes, Run(lockOf, EMPTY, actions).db.issued, email, limits);
  }

  // ---------------------------------------------------------------- one live code

  /** At most one code of an email is unconsumed, and it is the last one issued for it. */
  lemma OneLiveCode(lockOf: LockOf, actions: seq<Action>, a: OtpId, b: OtpId)
    requires var codes := Run(lockOf, EMPTY, actions).db.codes;
             a in codes && b in codes && codes[a].email == codes[b].email && codes[a].consumedAt == None
    ensures var db := Run(lockOf, EMPTY, actions).db;
            && (db.codes[b].consumedAt == None ==> a == b)
            && exists i :: 0 <= i < |db.issued| && db.issued[i].id == a && IsLatest(db.issued, i)
  {
    ReachableIsOk(lockOf, actions);
    var db := Run(lockOf, EMPTY, actions).db;
    if db.codes[b].consumedAt == None { LiveIsUnique(db, a, b); }
  }

  lemma LiveIsUnique(db: Db, a: OtpId, b: OtpId)
    requires LatestOk(db.codes, db.issued) && IssuedOk(db.codes, db.issued)
    requires a in db.codes && b in db.codes && db.codes[a].email == db.codes[b].email
    requires db.codes[a].consumedAt == None && db.codes[b].consumedAt == None
    ensures a == b
  {
    var i: nat :| i < |db.issued| && db.issued[i].id == a && IsLatest(db.issued, i);
    var j: nat :| j < |db.issued| && db.issued[j].id == b && IsLatest(db.issued, j);
    assert db.issued[i].email == db.issued[j].email;
  }

  /** The last code issued for an email. */
  ghost predicate IsLastIssued(issued: seq<Issued>, email: Email, id: OtpId) {
    exists i :: 0 <= i < |issued| && issued[i].id == id && issued[i].email == email && IsLatest(issued, i)
  }

  /** So the scan over every live row is the check of the last code issued: whatever subset of the
      candidates a statement saw, the judgement is that of this one code. */
  lemma ScanIsLastIssued(db: Db, attempt: Attempt, live: set<OtpId>, last: OtpId)
    requires DbOk(db) && live <= Candidates(db.codes, attempt) && IsLastIssued(db.issued, attempt.email, last)
    ensures live == {} || live == {last}
    ensures last in db.codes
    ensures Judged(db, attempt, live) ==
              if last !in live || !ActiveEmail(db.users, attempt.email) then VerRefused(attempt, live)
              else if db.codes[last].hash == attempt.hash then VerMatched(attempt, {last}, last, db.users[attempt.email].id)
              else VerFailed(attempt, {last})
  {
    var n :| 0 <= n < |db.issued| && db.issued[n].id == last && db.issued[n].email == attempt.email && IsLatest(db.issued, n);
    forall id | id in live ensures id == last {
      var i :| 0 <= i < |db.issued| && db.issued[i].id == id && IsLatest(db.issued, i);
      assert db.issued[i].email == attempt.email;
    }
    if last in live {
      assert live == {last};
      assert Matching(db.codes, live, attempt.hash) == if db.codes[last].hash == attempt.hash then {last} else {};
    } else {
      assert live == {};
    }
  }

  // ---------------------------------------------------------------- guesses

  /** The most attempts a code can absorb under a threshold in thousandths. */
  function Ceiling(maxAttempts: int): nat { if maxAttempts <= 0 then 0 else (maxAttempts + 999) / 1000 }

  /** Every threshold read by a verification was at most `most`. */
  predicate ReadsAtMost(actions: seq<Action>, most: int) {
    forall i | 0 <= i < |actions| && actions[i].BeginVerify? :: actions[i].attempt.maxAttempts <= most
  }

  predicate Verifying(tx: Tx) { tx.VerSeen? || tx.VerRefused? || tx.VerFailed? || tx.VerMatched? || tx.VerLoggedIn? }

  predicate AttemptsOk(s: State, most: int) {
    && AttemptsWithin(s.db.codes, most)
    && forall t | t in s.txs && Verifying(s.txs[t]) :: s.txs[t].attempt.maxAttempts <= most
  }

  lemma StepKeepsAttempts(lockOf: LockOf, s: State, a: Action, most: int)
    requires Inv(lockOf, s) && AttemptsOk(s, most) && (a.BeginVerify? ==> a.attempt.maxAttempts <= most)
    ensures AttemptsOk(Step(lockOf, s, a), most)
  {
    if a.Commit? && a.t in s.txs {
      assert TxOk(s.db, s.txs[a.t]);
    }
  }

  /** No code ever absorbs more wrong guesses than the largest maximum in force. */
  lemma {:induction false} AttemptsAreBounded(lockOf: LockOf, s: State, actions: seq<Action>, most: int)
    requires Inv(lockOf, s) && AttemptsOk(s, most) && ReadsAtMost(actions, most)
    ensures AttemptsOk(Run(lockOf, s, actions), most)
    decreases |actions|
  {
    if actions != [] {
      StepKeepsAttempts(lockOf, s, actions[0], most);
      StepKeeps(lockOf, s, actions[0]);
      AttemptsAreBounded(lockOf, Step(lockOf, s, actions[0]), actions[1..], most);
    }
  }

  function Failures(failures: seq<Email>, email: Email): nat
    decreases |failures|
  {
    if failures == [] then 0
    else Failures(failures[..|failures| - 1], email) + if failures[|failures| - 1] == email then 1 else 0
  }

  function Issues(issued: seq<Issued>, email: Email): nat
    decreases |issued|
  {
    if issued == [] then 0
    else Issues(issued[..|issued| - 1], email) + if issued[|issued| - 1].email == email then 1 else 0
  }

  /** The guesses the live code of an email can still absorb. */
  ghost function Slack(codes: map<OtpId, Code>, email: Email, most: int): int {
    if Unconsumed(codes, email) == {} then 0
    else
      var id :| id in Unconsumed(codes, email);
      Ceiling(most) - codes[id].attempts
  }

  predicate OneLive(codes: map<OtpId, Code>) {
    forall a, b | a in codes && b in codes && codes[a].email == codes[b].email
                  && codes[a].consumedAt == None && codes[b].consumedAt == None :: a == b
  }

  lemma OneLiveHolds(db: Db)
    requires DbOk(db)
    ensures OneLive(db.codes)
  {
    forall a, b | a in db.codes && b in db.codes && db.codes[a].email == db.codes[b].email
                  && db.codes[a].consumedAt == None && db.codes[b].consumedAt == None
      ensures a == b
    {
      LiveIsUnique(db, a, b);
    }
  }

  lemma SlackIsNatural(codes: map<OtpId, Code>, email: Email, most: int)
    requires AttemptsWithin(codes, most)
    ensures 0 <= Slack(codes, email, most) <= Ceiling(most)
  {
  }

  predicate AttemptsWithin(codes: map<OtpId, Code>, most: int) {
    forall id | id in codes :: codes[id].attempts <= Ceiling(most)
  }

  /** A commit between two databases that each have one live code per email. */
  ghost predicate Commits(db: Db, tx: Tx) {
    && TxOk(db, tx) && Published(db, tx).Some?
    && OneLive(db.codes) && OneLive(Published(db, tx).value.codes)
  }

  /** What stands against an email: guesses recorded, guesses its live code can still absorb, codes
      issued. */
  datatype Account = Account(failures: int, slack: int, issues: int)

  ghost function AccountOf(db: Db, email: Email, most: int): Account {
    Account(Failures(db.failures, email), Slack(db.codes, email, most), Issues(db.issued, email))
  }

  /** What was failed or is left to fail never exceeds what was before, plus one maximum if a code was
      issued. */
  predicate PaysTo(before: Account, after: Account, unit: nat) {
    var spent := after.failures + after.slack - before.failures - before.slack;
    (after.issues == before.issues && spent <= 0) || (after.issues == before.issues + 1 && spent <= unit)
  }

  ghost predicate Pays(before: Db, after: Db, email: Email, most: int) {
    PaysTo(AccountOf(before, email, most), AccountOf(after, email, most), Ceiling(most))
  }

  lemma IssuePays(db: Db, tx: Tx, email: Email, most: int)
    requires Commits(db, tx) && tx.GenIssued? && AttemptsWithin(db.codes, most)
    ensures Pays(db, Published(db, tx).value, email, most)
  {
  }

  lemma FailurePays(db: Db, tx: Tx, email: Email, most: int)
    requires Commits(db, tx) && tx.VerFailed?
    ensures Pays(db, Published(db, tx).value, email, most)
  {
  }

  lemma MatchPays(db: Db, tx: Tx, email: Email, most: int)
    requires Commits(db, tx) && AttemptsWithin(db.codes, most) && (tx.VerMatched? || tx.VerLoggedIn?)
    ensures Pays(db, Published(db, tx).value, email, most)
  {
  }

  lemma CommitPays(db: Db, tx: Tx, email: Email, most: int)
    requires Commits(db, tx) && AttemptsWithin(db.codes, most)
    ensures Pays(db, Published(db, tx).value, email, most)
  {
    match tx {
      case GenIssued(_, _, _, _, _, _) => IssuePays(db, tx, email, most);
      case VerFailed(_, _) => FailurePays(db, tx, email, most);
      case VerMatched(_, _, _, _) => MatchPays(db, tx, email, most);
      case VerLoggedIn(_, _, _, _, _) => MatchPays(db, tx, email, most);
      case _ =>
    }
  }

  lemma OnlyCommitsPublish(lockOf: LockOf, s: State, a: Action)
    ensures var next := Step(lockOf, s, a).db;
            || next == s.db.(users := next.users)
            || (a.Commit? && a.t in s.txs && Published(s.db, s.txs[a.t]) == Some(next))
  {
  }

  lemma StepPays(lockOf: LockOf, s: State, a: Action, email: Email, most: int)
    requires Inv(lockOf, s) && AttemptsOk(s, most)
    ensures Pays(s.db, Step(lockOf, s, a).db, email, most)
  {
    OnlyCommitsPublish(lockOf, s, a);
    StepKeeps(lockOf, s, a);
    OneLiveHolds(s.db);
    OneLiveHolds(Step(lockOf, s, a).db);
    if a.Commit? && a.t in s.txs && Published(s.db, s.txs[a.t]) == Some(Step(lockOf, s, a).db) {
      CommitPays(s.db, s.txs[a.t], email, most);
    }
  }

  /** The same over a stretch in which k codes are issued. */
  predicate PaysOver(before: Account, after: Account, unit: nat) {
    && after.issues >= before.issues
    && after.failures + after.slack <= before.failures + before.slack + (after.issues - before.issues) * unit
  }

  lemma PaysOn(a: Account, b: Account, c: Account, unit: nat)
    requires PaysTo(a, b, unit) && PaysOver(b, c, unit)
    ensures PaysOver(a, c, unit)
  {
  }

  lemma {:induction false} RunPays(lockOf: LockOf, s: State, actions: seq<Action>, email: Email, most: int)
    requires Inv(lockOf, s) && AttemptsOk(s, most) && ReadsAtMost(actions, most)
    ensures PaysOver(AccountOf(s.db, email, most), AccountOf(Run(lockOf, s, actions).db, email, most), Ceiling(most))
    decreases |actions|
  {
    if actions != [] {
      var next := Step(lockOf, s, actions[0]);
      StepPays(lockOf, s, actions[0], email, most);
      StepKeepsAttempts(lockOf, s, actions[0], most);
      StepKeeps(lockOf, s, actions[0]);
      RunPays(lockOf, next, actions[1..], email, most);
      PaysOn(AccountOf(s.db, email, most), AccountOf(next.db, email, most), AccountOf(Run(lockOf, s, actions).db, email, most), Ceiling(most));
    }
  }

  lemma AtMostOneMore(a: Account, b: Account, unit: nat)
    requires PaysOver(a, b, unit) && a.slack <= unit && b.slack >= 0
    ensures b.failures - a.failures <= (b.issues - a.issues + 1) * unit
  {
  }

  lemma StretchPays(lockOf: LockOf, s: State, actions: seq<Action>, email: Email, most: int)
    requires Inv(lockOf, s) && AttemptsOk(s, most) && ReadsAtMost(actions, most)
    ensures var before, after := AccountOf(s.db, email, most), AccountOf(Run(lockOf, s, actions).db, email, most);
            PaysOver(before, after, Ceiling(most)) && before.slack <= Ceiling(most) && after.slack >= 0
  {
    RunPays(lockOf, s, actions, email, most);
    AttemptsAreBounded(lockOf, s, actions, most);
    SlackIsNatural(s.db.codes, email, most);
    SlackIsNatural(Run(lockOf, s, actions).db.codes, email, most);
  }

  /** Over any stretch of any run in which k codes are issued for an email, at most (k + 1) times the
      maximum wrong guesses are recorded against it. */
  lemma GuessesAreBounded(lockOf: LockOf, s: State, actions: seq<Action>, email: Email, most: int)
    requires Inv(lockOf, s) && AttemptsOk(s, most) && ReadsAtMost(actions, most)
    ensures var final := Run(lockOf, s, actions);
            var k := Issues(final.db.issued, email) - Issues(s.db.issued, email);
            Failures(final.db.failures, email) - Failures(s.db.failures, email) <= (k + 1) * Ceiling(most)
  {
    StretchPays(lockOf, s, actions, email, most);
    AtMostOneMore(AccountOf(s.db, email, most), AccountOf(Run(lockOf, s, actions).db, email, most), Ceiling(most));
  }

  // ---------------------------------------------------------------- sessions

  /** Sessions and the codes that earned them correspond one to one: every session has its login, no
      two logins share a session or a code, and the code of a login is consumed. */
  lemma OneSessionPerCode(lockOf: LockOf, actions: seq<Action>, x: SessionId)
    requires x in Run(lockOf, EMPTY, actions).db.sessions
    ensures var db := Run(lockOf, EMPTY, actions).db;
            exists i :: && 0 <= i < |db.logins| && db.logins[i].session == x
                        && db.logins[i].otp in db.codes && db.codes[db.logins[i].otp].consumedAt.Some?
                        && db.logins[i].user == db.sessions[x].user
                        && forall j | 0 <= j < |db.logins| && j != i ::
                             db.logins[j].session != x && db.logins[j].otp != db.logins[i].otp
  {
    ReachableIsOk(lockOf, actions);
    var db := Run(lockOf, EMPTY, actions).db;
    var i :| 0 <= i < |db.logins| && db.logins[i].session == x;
    forall j | 0 <= j < |db.logins| && j != i ensures db.logins[j].session != x && db.logins[j].otp != db.logins[i].otp {
      var low, high := if i < j then i else j, if i < j then j else i;
      assert db.logins[low].otp != db.logins[high].otp && db.logins[low].session != db.logins[high].session;
    }
  }

  /** A session appears only in the commit that consumes a code: one presented with its own hash, for
      its own email, unconsumed, not past its expiry and not exhausted. Nothing else changes. */
  lemma SessionConsumesItsCode(lockOf: LockOf, s: State, a: Action, x: SessionId)
    requires Inv(lockOf, s) && x !in s.db.sessions && x in Step(lockOf, s, a).db.sessions
    ensures a.Commit? && a.t in s.txs && s.txs[a.t].VerLoggedIn? && s.txs[a.t].sessionId == x
    ensures var attempt, matched, next := s.txs[a.t].attempt, s.txs[a.t].matched, Step(lockOf, s, a).db;
            && matched in s.db.codes
            && var code := s.db.codes[matched];
            && code.hash == attempt.hash && code.email == attempt.email && code.consumedAt == None
            && attempt.at <= code.expiresAt && code.attempts * 1000 < attempt.maxAttempts
            && next == s.db.(codes := s.db.codes[matched := code.(consumedAt := Some(attempt.at))],
                             sessions := s.db.sessions[x := s.txs[a.t].session],
                             logins := s.db.logins + [Login(matched, x, s.txs[a.t].session.user)])
  {
    assert TxOk(s.db, s.txs[a.t]);
  }
}
