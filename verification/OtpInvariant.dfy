/** What holds of the codes, the histories and every open session after any statement. */
module OtpInvariant {
  import opened Outcomes
  import opened Otp

  /** At most one code of an email is unconsumed, and it is the last issued for that email. */
  ghost predicate LatestOk(codes: map<OtpId, Code>, issued: seq<Issued>) {
    forall id | id in codes && codes[id].consumedAt == None ::
      exists i :: 0 <= i < |issued| && issued[i].id == id && IsLatest(issued, i)
  }

  predicate IsLatest(issued: seq<Issued>, i: nat)
    requires i < |issued|
  {
    forall k | i < k < |issued| :: issued[k].email != issued[i].email
  }

  predicate IssuedOk(codes: map<OtpId, Code>, issued: seq<Issued>) {
    && (forall i | 0 <= i < |issued| ::
          && issued[i].id in codes && codes[issued[i].id].email == issued[i].email
          && codes[issued[i].id].expiresAt == issued[i].at + issued[i].limits.expiry)
    && forall i, j | 0 <= i < j < |issued| :: issued[i].id != issued[j].id
  }

  /** Issues of one email, by the instants and limits each of them used. */
  predicate Spaced(a: Issued, b: Issued) { b.at >= a.at + (a.limits.expiry - b.limits.expiry) + b.limits.resend }

  predicate SpacedOk(issued: seq<Issued>) {
    forall i, j | 0 <= i < j < |issued| && issued[i].email == issued[j].email :: Spaced(issued[i], issued[j])
  }

  /** The earlier issues that issue j counted in its hour. */
  function Earlier(issued: seq<Issued>, j: nat): set<nat>
    requires j < |issued|
  {
    set i: nat | i < j && issued[i].email == issued[j].email
                 && issued[i].at + issued[i].limits.expiry - issued[j].limits.expiry > issued[j].at - HOUR
  }

  predicate HourlyOk(issued: seq<Issued>) {
    forall j | 0 <= j < |issued| :: |Earlier(issued, j)| * 1000 < issued[j].limits.perHour
  }

  predicate LoginRowsOk(codes: map<OtpId, Code>, sessions: map<SessionId, Session>, logins: seq<Login>) {
    forall i | 0 <= i < |logins| ::
      && logins[i].otp in codes && codes[logins[i].otp].consumedAt.Some?
      && logins[i].session in sessions && sessions[logins[i].session].user == logins[i].user
  }

  predicate LoginsDistinct(logins: seq<Login>) {
    forall i, j | 0 <= i < j < |logins| :: logins[i].otp != logins[j].otp && logins[i].session != logins[j].session
  }

  predicate SessionsLoggedIn(sessions: map<SessionId, Session>, logins: seq<Login>) {
    forall x | x in sessions :: exists i :: 0 <= i < |logins| && logins[i].session == x
  }

  /** Every login consumed its own code and made its own session, and no session came otherwise. */
  predicate LoginsOk(db: Db) {
    LoginRowsOk(db.codes, db.sessions, db.logins) && LoginsDistinct(db.logins) && SessionsLoggedIn(db.sessions, db.logins)
  }

  ghost predicate DbOk(db: Db) {
    && LatestOk(db.codes, db.issued) && IssuedOk(db.codes, db.issued)
    && SpacedOk(db.issued) && HourlyOk(db.issued) && LoginsOk(db)
  }

  predicate CountedOk(db: Db, email: Email, at: int, limits: Limits) {
    !TooSoon(db.codes, email, at, limits) && !OverCap(db.codes, email, at, limits)
  }

  predicate LockedOk(db: Db, attempt: Attempt, candidates: set<OtpId>) {
    forall id | id in candidates :: id in db.codes && IsCandidate(db.codes[id], attempt)
  }

  predicate MatchOk(db: Db, attempt: Attempt, candidates: set<OtpId>, matched: OtpId) {
    LockedOk(db, attempt, candidates) && matched in candidates && db.codes[matched].hash == attempt.hash
  }

  predicate TxOk(db: Db, tx: Tx) {
    match tx
    case GenCounted(email, at, limits) => CountedOk(db, email, at, limits)
    case GenIssued(email, at, limits, spent, id, code) =>
      && CountedOk(db, email, at, limits) && spent == Unconsumed(db.codes, email)
      && id !in db.codes && code.email == email && code.expiresAt == at + limits.expiry
      && code.consumedAt == None && code.attempts == 0
    case VerRefused(attempt, candidates) => LockedOk(db, attempt, candidates)
    case VerFailed(attempt, candidates) => LockedOk(db, attempt, candidates) && candidates != {}
    case VerMatched(attempt, candidates, matched, _) => MatchOk(db, attempt, candidates, matched)
    case VerLoggedIn(attempt, candidates, matched, sessionId, _) =>
      MatchOk(db, attempt, candidates, matched) && attempt.login && sessionId !in db.sessions
    case _ => true
  }

  /** What two open transactions cannot both hold. */
  predicate Compatible(lockOf: LockOf, a: Tx, b: Tx) {
    && (HoldsEmail(a) && HoldsEmail(b) ==> lockOf(a.email) != lockOf(b.email))
    && (forall id | id in Held(a) :: id !in Held(b))
    && (a.GenIssued? && b.GenIssued? ==> a.id != b.id)
    && (a.VerLoggedIn? && b.VerLoggedIn? ==> a.sessionId != b.sessionId)
  }

  function Held(tx: Tx): (ids: set<OtpId>)
    ensures forall id :: id in ids <==> HoldsCode(tx, id)
  {
    if tx.GenIssued? then tx.spent
    else if tx.VerRefused? || tx.VerFailed? || tx.VerMatched? || tx.VerLoggedIn? then tx.candidates
    else {}
  }

  ghost predicate Inv(lockOf: LockOf, s: State) {
    && DbOk(s.db)
    && (forall t | t in s.txs :: TxOk(s.db, s.txs[t]))
    && forall t, u | t in s.txs && u in s.txs && t != u :: Compatible(lockOf, s.txs[t], s.txs[u])
  }

  // ---------------------------------------------------------------- statements that publish nothing

  ghost predicate Fits(lockOf: LockOf, s: State, t: TxId, tx: Tx) {
    forall u | u in s.txs && u != t :: Compatible(lockOf, tx, s.txs[u]) && Compatible(lockOf, s.txs[u], tx)
  }

  lemma PutKeeps(lockOf: LockOf, s: State, t: TxId, tx: Tx)
    requires Inv(lockOf, s) && TxOk(s.db, tx) && Fits(lockOf, s, t, tx)
    ensures Inv(lockOf, s.(txs := s.txs[t := tx]))
  {
  }

  /** A step that takes no new lock and draws no new id leaves its session compatible with the rest. */
  lemma SameHolds(lockOf: LockOf, s: State, t: TxId, tx: Tx)
    requires Inv(lockOf, s) && TxOk(s.db, tx) && Held(tx) == {} && !tx.GenIssued? && !tx.VerLoggedIn?
    requires HoldsEmail(tx) ==> EmailFree(lockOf, s, t, tx.email)
    ensures Inv(lockOf, s.(txs := s.txs[t := tx]))
  {
  }

  lemma HeldIsFree(lockOf: LockOf, s: State, t: TxId)
    requires Inv(lockOf, s) && t in s.txs
    ensures HoldsEmail(s.txs[t]) ==> EmailFree(lockOf, s, t, s.txs[t].email)
    ensures CodesFree(s, t, Held(s.txs[t]))
  {
  }

  lemma GenerateKeeps(lockOf: LockOf, s: State, a: Action)
    requires Inv(lockOf, s) && (a.BeginGenerate? || a.LockEmail? || a.CountIssues? || a.BeginVerify?) && Try(lockOf, s, a).Moves?
    ensures Inv(lockOf, Try(lockOf, s, a).next)
  {
    if a.CountIssues? { HeldIsFree(lockOf, s, a.t); }
    SameHolds(lockOf, s, a.t, Try(lockOf, s, a).next.txs[a.t]);
  }

  /** A session that holds free codes, its email if it holds one, and an id of its own. */
  lemma FitsWhenFree(lockOf: LockOf, s: State, t: TxId, tx: Tx)
    requires CodesFree(s, t, Held(tx))
    requires HoldsEmail(tx) ==> EmailFree(lockOf, s, t, tx.email)
    requires tx.GenIssued? ==> FreshCode(s, t, tx.id)
    requires tx.VerLoggedIn? ==> FreshSession(s, t, tx.sessionId)
    ensures Fits(lockOf, s, t, tx)
  {
  }

  lemma IssueCodeKeeps(lockOf: LockOf, s: State, a: Action)
    requires Inv(lockOf, s) && a.IssueCode? && Try(lockOf, s, a).Moves?
    ensures Inv(lockOf, Try(lockOf, s, a).next)
  {
    var tx := Try(lockOf, s, a).next.txs[a.t];
    assert TxOk(s.db, s.txs[a.t]);
    HeldIsFree(lockOf, s, a.t);
    FitsWhenFree(lockOf, s, a.t, tx);
    PutKeeps(lockOf, s, a.t, tx);
  }

  lemma LockCandidatesKeeps(lockOf: LockOf, s: State, a: Action)
    requires Inv(lockOf, s) && a.LockCandidates? && Try(lockOf, s, a).Moves?
    ensures Inv(lockOf, Try(lockOf, s, a).next)
  {
    var tx := Try(lockOf, s, a).next.txs[a.t];
    FitsWhenFree(lockOf, s, a.t, tx);
    PutKeeps(lockOf, s, a.t, tx);
  }

  lemma IssueSessionKeeps(lockOf: LockOf, s: State, a: Action)
    requires Inv(lockOf, s) && a.IssueSession? && Try(lockOf, s, a).Moves?
    ensures Inv(lockOf, Try(lockOf, s, a).next)
  {
    var tx := Try(lockOf, s, a).next.txs[a.t];
    assert TxOk(s.db, s.txs[a.t]);
    HeldIsFree(lockOf, s, a.t);
    FitsWhenFree(lockOf, s, a.t, tx);
    PutKeeps(lockOf, s, a.t, tx);
  }

  lemma DropKeeps(lockOf: LockOf, s: State, t: TxId)
    requires Inv(lockOf, s)
    ensures Inv(lockOf, s.(txs := s.txs - {t}))
  {
  }

  // ---------------------------------------------------------------- commits

  /** The codes a commit leaves differ from those before by consumption or by counted attempts. */
  predicate SameCode(before: Code, after: Code) {
    && after.email == before.email && after.hash == before.hash && after.expiresAt == before.expiresAt
    && (before.consumedAt.Some? ==> after.consumedAt.Some?)
  }

  predicate CodesKept(before: map<OtpId, Code>, after: map<OtpId, Code>) {
    forall id | id in before :: id in after && SameCode(before[id], after[id])
  }

  lemma IssuedKept(before: map<OtpId, Code>, after: map<OtpId, Code>, issued: seq<Issued>)
    requires IssuedOk(before, issued) && CodesKept(before, after)
    ensures IssuedOk(after, issued)
  {
  }

  lemma LoginsKept(before: Db, after: Db)
    requires LoginsOk(before) && CodesKept(before.codes, after.codes)
    requires after.logins == before.logins && after.sessions == before.sessions
    ensures LoginsOk(after)
  {
  }

  lemma LatestKept(before: map<OtpId, Code>, after: map<OtpId, Code>, issued: seq<Issued>)
    requires LatestOk(before, issued) && CodesKept(before, after) && after.Keys == before.Keys
    ensures LatestOk(after, issued)
  {
  }

  /** Distinct issues have distinct codes, so a set of issues is no larger than the set of their codes. */
  lemma {:induction false} NoMoreIssuesThanCodes(issued: seq<Issued>, issues: set<nat>, ids: set<OtpId>)
    requires forall i, j | 0 <= i < j < |issued| :: issued[i].id != issued[j].id
    requires forall i | i in issues :: i < |issued| && issued[i].id in ids
    ensures |issues| <= |ids|
    decreases |issues|
  {
    if issues != {} {
      var x :| x in issues;
      NoMoreIssuesThanCodes(issued, issues - {x}, ids - {issued[x].id});
    }
  }

  lemma IssueIsSpaced(db: Db, tx: Tx)
    requires DbOk(db) && tx.GenIssued? && TxOk(db, tx)
    ensures SpacedOk(Published(db, tx).value.issued)
  {
  }

  /** What the new issue finds in its hour was counted, code by code. */
  lemma NewIssueWasCounted(db: Db, tx: Tx)
    requires IssuedOk(db.codes, db.issued) && tx.GenIssued? && TxOk(db, tx)
    ensures |Earlier(Published(db, tx).value.issued, |db.issued|)| * 1000 < tx.limits.perHour
  {
    var n, after := |db.issued|, Published(db, tx).value.issued;
    var counted := IssuedInHour(db.codes, tx.email, tx.at, tx.limits);
    forall i | i in Earlier(after, n) ensures i < n && db.issued[i].id in counted {
      assert after[i] == db.issued[i];
    }
    NoMoreIssuesThanCodes(db.issued, Earlier(after, n), counted);
  }

  lemma IssueIsUnderCap(db: Db, tx: Tx)
    requires DbOk(db) && tx.GenIssued? && TxOk(db, tx)
    ensures HourlyOk(Published(db, tx).value.issued)
  {
    var n, after := |db.issued|, Published(db, tx).value.issued;
    NewIssueWasCounted(db, tx);
    forall j | 0 <= j < n ensures |Earlier(after, j)| * 1000 < after[j].limits.perHour {
      assert Earlier(after, j) == Earlier(db.issued, j);
    }
  }

  lemma IssueIsLatest(db: Db, tx: Tx)
    requires DbOk(db) && tx.GenIssued? && TxOk(db, tx)
    ensures LatestOk(Published(db, tx).value.codes, Published(db, tx).value.issued)
  {
    var n, db' := |db.issued|, Published(db, tx).value;
    forall id | id in db'.codes && db'.codes[id].consumedAt == None
      ensures exists i :: 0 <= i < |db'.issued| && db'.issued[i].id == id && IsLatest(db'.issued, i)
    {
      if id == tx.id {
        assert db'.issued[n].id == id && IsLatest(db'.issued, n);
      } else {
        assert db.codes[id].consumedAt == None && id !in tx.spent;
        var i :| 0 <= i < n && db.issued[i].id == id && IsLatest(db.issued, i);
        assert db'.issued[i].id == id && IsLatest(db'.issued, i);
      }
    }
  }

  lemma IssueIsRecorded(before: map<OtpId, Code>, after: map<OtpId, Code>, issued: seq<Issued>, issue: Issued)
    requires IssuedOk(before, issued) && CodesKept(before, after) && issue.id !in before && issue.id in after
    requires after[issue.id].email == issue.email && after[issue.id].expiresAt == issue.at + issue.limits.expiry
    ensures IssuedOk(after, issued + [issue])
  {
  }

  lemma IssueKeepsDb(db: Db, tx: Tx)
    requires DbOk(db) && tx.GenIssued? && TxOk(db, tx)
    ensures DbOk(Published(db, tx).value)
  {
    var after := Published(db, tx).value;
    IssueIsLatest(db, tx);
    IssueIsSpaced(db, tx);
    IssueIsUnderCap(db, tx);
    IssueIsRecorded(db.codes, after.codes, db.issued, Issued(tx.email, tx.id, tx.at, tx.limits));
    LoginsKept(db, after);
  }

  lemma VerifyKeepsDb(db: Db, tx: Tx)
    requires DbOk(db) && TxOk(db, tx) && (tx.VerRefused? || tx.VerFailed? || (tx.VerMatched? && !tx.attempt.login))
    ensures DbOk(Published(db, tx).value)
  {
    var after := Published(db, tx).value;
    LatestKept(db.codes, after.codes, db.issued);
    IssuedKept(db.codes, after.codes, db.issued);
    LoginsKept(db, after);
  }

  lemma LoginKeepsDb(db: Db, tx: Tx)
    requires DbOk(db) && tx.VerLoggedIn? && TxOk(db, tx)
    ensures DbOk(Published(db, tx).value)
  {
    LoginIsRecorded(db, tx);
    var after := Published(db, tx).value;
    LatestKept(db.codes, after.codes, db.issued);
    IssuedKept(db.codes, after.codes, db.issued);
  }

  lemma LoginIsRecorded(db: Db, tx: Tx)
    requires LoginsOk(db) && tx.VerLoggedIn? && TxOk(db, tx)
    ensures LoginsOk(Published(db, tx).value)
  {
    var login := Login(tx.matched, tx.sessionId, tx.session.user);
    RecordKeepsRows(db.codes, Published(db, tx).value.codes, db.sessions, db.logins, login, tx.session);
    RecordKeepsDistinct(db.codes, db.sessions, db.logins, login);
    RecordKeepsSessions(db.sessions, db.logins, login, tx.session);
  }

  lemma RecordKeepsRows(before: map<OtpId, Code>, after: map<OtpId, Code>, sessions: map<SessionId, Session>, logins: seq<Login>,
                        login: Login, session: Session)
    requires LoginRowsOk(before, sessions, logins) && CodesKept(before, after) && session.user == login.user
    requires login.otp in after && after[login.otp].consumedAt.Some? && login.session !in sessions
    ensures LoginRowsOk(after, sessions[login.session := session], logins + [login])
  {
  }

  lemma RecordKeepsDistinct(codes: map<OtpId, Code>, sessions: map<SessionId, Session>, logins: seq<Login>, login: Login)
    requires LoginRowsOk(codes, sessions, logins) && LoginsDistinct(logins) && login.session !in sessions
    requires login.otp in codes && codes[login.otp].consumedAt == None
    ensures LoginsDistinct(logins + [login])
  {
  }

  lemma RecordKeepsSessions(sessions: map<SessionId, Session>, logins: seq<Login>, login: Login, session: Session)
    requires SessionsLoggedIn(sessions, logins)
    ensures SessionsLoggedIn(sessions[login.session := session], logins + [login])
  {
    var after := logins + [login];
    assert after[|logins|] == login;
    forall x | x in sessions ensures exists i :: 0 <= i < |after| && after[i].session == x {
      var i :| 0 <= i < |logins| && logins[i].session == x;
      assert after[i].session == x;
    }
  }

  /** A commit writes the rows its session holds, and adds the code it issued. */
  lemma OnlyHeldCodes(db: Db, tx: Tx)
    requires TxOk(db, tx) && Published(db, tx).Some?
    ensures var after := Published(db, tx).value.codes;
            && (forall id | id in db.codes :: id in after && SameCode(db.codes[id], after[id]))
            && (forall id | id in db.codes && id !in Held(tx) :: after[id] == db.codes[id])
            && (forall id | id in after && id !in db.codes :: tx.GenIssued? && id == tx.id)
  {
  }

  /** The same rows of an email, as far as counting goes. */
  predicate SameIssues(before: map<OtpId, Code>, after: map<OtpId, Code>, email: Email) {
    && (forall id | id in before && before[id].email == email :: id in after && SameCode(before[id], after[id]))
    && (forall id | id in after && after[id].email == email :: id in before && SameCode(before[id], after[id]))
  }

  lemma CountedFrame(before: Db, after: Db, email: Email, at: int, limits: Limits)
    requires CountedOk(before, email, at, limits) && SameIssues(before.codes, after.codes, email)
    ensures CountedOk(after, email, at, limits)
  {
    assert IssuedInHour(after.codes, email, at, limits) == IssuedInHour(before.codes, email, at, limits);
    forall id | id in after.codes && after.codes[id].email == email
      ensures DerivedIssue(after.codes[id], limits) <= at - limits.resend
    {
      assert DerivedIssue(before.codes[id], limits) <= at - limits.resend;
    }
  }

  lemma LockedFrame(before: Db, after: Db, attempt: Attempt, candidates: set<OtpId>)
    requires LockedOk(before, attempt, candidates)
    requires forall id | id in before.codes && id in candidates :: id in after.codes && after.codes[id] == before.codes[id]
    ensures LockedOk(after, attempt, candidates)
  {
  }

  /** All unconsumed codes of the email are held by `other`, so nobody else consumed one. */
  lemma UnconsumedFrame(before: Db, after: Db, email: Email)
    requires SameIssues(before.codes, after.codes, email)
    requires forall id | id in Unconsumed(before.codes, email) :: id in after.codes && after.codes[id] == before.codes[id]
    ensures Unconsumed(after.codes, email) == Unconsumed(before.codes, email)
  {
  }

  /** What an open session knows is about rows that nobody else may write. */
  lemma CommitFrame(db: Db, tx: Tx, other: Tx)
    requires TxOk(db, tx) && Published(db, tx).Some? && TxOk(db, other)
    requires forall id | id in Held(other) :: id !in Held(tx)
    requires HoldsEmail(tx) && HoldsEmail(other) ==> other.email != tx.email
    requires other.GenIssued? && tx.GenIssued? ==> other.id != tx.id
    requires other.VerLoggedIn? && tx.VerLoggedIn? ==> other.sessionId != tx.sessionId
    ensures TxOk(Published(db, tx).value, other)
  {
    var after := Published(db, tx).value;
    OnlyHeldCodes(db, tx);
    match other {
      case GenCounted(email, at, limits) =>
        CountedFrame(db, after, email, at, limits);
      case GenIssued(email, at, limits, _, _, _) =>
        CountedFrame(db, after, email, at, limits);
        UnconsumedFrame(db, after, email);
      case VerRefused(attempt, candidates) => LockedFrame(db, after, attempt, candidates);
      case VerFailed(attempt, candidates) => LockedFrame(db, after, attempt, candidates);
      case VerMatched(attempt, candidates, _, _) => LockedFrame(db, after, attempt, candidates);
      case VerLoggedIn(attempt, candidates, _, _, _) => LockedFrame(db, after, attempt, candidates);
      case _ =>
    }
  }

  lemma CommitKeeps(lockOf: LockOf, s: State, t: TxId)
    requires Inv(lockOf, s) && DoCommit(s, t).Moves?
    ensures Inv(lockOf, DoCommit(s, t).next)
  {
    var tx := s.txs[t];
    var db := Published(s.db, tx).value;
    assert TxOk(s.db, tx);
    if tx.GenIssued? {
      IssueKeepsDb(s.db, tx);
    } else if tx.VerLoggedIn? {
      LoginKeepsDb(s.db, tx);
    } else {
      VerifyKeepsDb(s.db, tx);
    }
    forall u | u in s.txs && u != t ensures TxOk(db, s.txs[u]) {
      assert Compatible(lockOf, s.txs[u], tx) && TxOk(s.db, s.txs[u]);
      CommitFrame(s.db, tx, s.txs[u]);
    }
  }

  lemma SetUserKeeps(lockOf: LockOf, s: State, a: Action)
    requires Inv(lockOf, s) && a.SetUser?
    ensures Inv(lockOf, Step(lockOf, s, a))
  {
    forall t | t in s.txs ensures TxOk(Step(lockOf, s, a).db, s.txs[t]) {
      assert TxOk(s.db, s.txs[t]);
    }
  }

  /** Every statement of every session keeps the invariant … */
  lemma StepKeeps(lockOf: LockOf, s: State, a: Action)
    requires Inv(lockOf, s)
    ensures Inv(lockOf, Step(lockOf, s, a))
  {
    match Try(lockOf, s, a) {
      case Waits =>
      case Refused(_) => if !a.SetUser? { DropKeeps(lockOf, s, a.t); }
      case Moves(_) =>
        match a {
          case IssueCode(_, _, _) => IssueCodeKeeps(lockOf, s, a);
          case LockCandidates(_) => LockCandidatesKeeps(lockOf, s, a);
          case IssueSession(_, _, _, _) => IssueSessionKeeps(lockOf, s, a);
          case Commit(t) => CommitKeeps(lockOf, s, t);
          case Abort(t) => DropKeeps(lockOf, s, t);
          case SetUser(_, _) => SetUserKeeps(lockOf, s, a);
          case _ => GenerateKeeps(lockOf, s, a);
        }
    }
  }

  /** … and so does every interleaving, under every clock. */
  lemma {:induction false} RunKeeps(lockOf: LockOf, s: State, actions: seq<Action>)
    requires Inv(lockOf, s)
    ensures Inv(lockOf, Run(lockOf, s, actions))
    decreases |actions|
  {
    if actions != [] {
      StepKeeps(lockOf, s, actions[0]);
      RunKeeps(lockOf, Step(lockOf, s, actions[0]), actions[1..]);
    }
  }

  lemma ReachableIsOk(lockOf: LockOf, actions: seq<Action>)
    ensures Inv(lockOf, Run(lockOf, EMPTY, actions))
  {
    RunKeeps(lockOf, EMPTY, actions);
  }
}
