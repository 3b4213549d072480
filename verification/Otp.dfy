/** One-time codes as a protocol between concurrent sessions: issuing under a per-email advisory lock,
    and verifying under row locks. Instants are milliseconds; every instant a session uses is injected
    and arbitrary, so a clock may stand still or go back. Limits are what the session happened to
    read: intervals in milliseconds, counts in thousandths (the column is numeric(14,3)). */
module Otp {
  import opened Outcomes

  type TxId = nat
  type Email = nat
  type UserId = nat
  type OtpId = nat
  type SessionId = nat
  type CodeHash = nat

  const HOUR: int := 3_600_000

  datatype User = User(id: UserId, active: bool)

  datatype Code = Code(email: Email, hash: CodeHash, expiresAt: int, consumedAt: Option<int>, attempts: nat)

  datatype Session = Session(user: UserId, issuedAt: int, expiresAt: int)

  datatype Limits = Limits(expiry: int, resend: int, perHour: int)

  /** Histories, in commit order: codes issued, wrong guesses recorded, logins completed. */
  datatype Issued = Issued(email: Email, id: OtpId, at: int, limits: Limits)

  datatype Login = Login(otp: OtpId, session: SessionId, user: UserId)

  datatype Db = Db(users: map<Email, User>, codes: map<OtpId, Code>, sessions: map<SessionId, Session>,
                   issued: seq<Issued>, failures: seq<Email>, logins: seq<Login>)

  /** What one call of `verifyOtpInTx` was given. `login` says a session follows a match. */
  datatype Attempt = Attempt(email: Email, hash: CodeHash, at: int, maxAttempts: int, login: bool)

  datatype Tx =
    | GenActive(email: Email)
    | GenLocked(email: Email)
    | GenCounted(email: Email, at: int, limits: Limits)
    | GenIssued(email: Email, at: int, limits: Limits, spent: set<OtpId>, id: OtpId, code: Code)
    | VerSeen(attempt: Attempt, seen: set<OtpId>)
    | VerRefused(attempt: Attempt, candidates: set<OtpId>)
    | VerFailed(attempt: Attempt, candidates: set<OtpId>)
    | VerMatched(attempt: Attempt, candidates: set<OtpId>, matched: OtpId, user: UserId)
    | VerLoggedIn(attempt: Attempt, candidates: set<OtpId>, matched: OtpId, sessionId: SessionId, session: Session)

  datatype State = State(db: Db, txs: map<TxId, Tx>)

  datatype Refusal = UnknownOrInactiveUser | WithinResend | OverHourlyCap

  datatype Action =
    | BeginGenerate(t: TxId, email: Email)
    | LockEmail(t: TxId)
    | CountIssues(t: TxId, at: int, limits: Limits)
    | IssueCode(t: TxId, id: OtpId, hash: CodeHash)
    | BeginVerify(t: TxId, attempt: Attempt)
    | LockCandidates(t: TxId)
    | IssueSession(t: TxId, sessionId: SessionId, at: int, lifetime: int)
    | Commit(t: TxId)
    | Abort(t: TxId)
    | SetUser(email: Email, user: User)

  datatype Outcome = Waits | Refused(refusal: Refusal) | Moves(next: State)

  /** The hash from an email to its advisory lock; two emails may share one. */
  type LockOf = Email -> int

  // ---------------------------------------------------------------- locks

  predicate HoldsEmail(tx: Tx) { tx.GenLocked? || tx.GenCounted? || tx.GenIssued? }

  predicate HoldsCode(tx: Tx, id: OtpId) {
    (tx.GenIssued? && id in tx.spent) ||
    ((tx.VerRefused? || tx.VerFailed? || tx.VerMatched? || tx.VerLoggedIn?) && id in tx.candidates)
  }

  predicate EmailFree(lockOf: LockOf, s: State, t: TxId, email: Email) {
    forall u | u in s.txs && u != t && HoldsEmail(s.txs[u]) :: lockOf(s.txs[u].email) != lockOf(email)
  }

  predicate CodesFree(s: State, t: TxId, ids: set<OtpId>) {
    forall u, id | u in s.txs && u != t && id in ids :: !HoldsCode(s.txs[u], id)
  }

  predicate FreshCode(s: State, t: TxId, id: OtpId) {
    id !in s.db.codes && forall u | u in s.txs && u != t && s.txs[u].GenIssued? :: s.txs[u].id != id
  }

  predicate FreshSession(s: State, t: TxId, id: SessionId) {
    id !in s.db.sessions && forall u | u in s.txs && u != t && s.txs[u].VerLoggedIn? :: s.txs[u].sessionId != id
  }

  // ---------------------------------------------------------------- issuing

  predicate ActiveEmail(users: map<Email, User>, email: Email) { email in users && users[email].active }

  predicate ActiveUser(users: map<Email, User>, user: UserId) {
    exists email | email in users :: users[email].id == user && users[email].active
  }

  /** The issue instant a session derives from a row: `expires_at` less the expiry it read. */
  function DerivedIssue(code: Code, limits: Limits): int { code.expiresAt - limits.expiry }

  predicate TooSoon(codes: map<OtpId, Code>, email: Email, at: int, limits: Limits) {
    exists id | id in codes && codes[id].email == email :: DerivedIssue(codes[id], limits) > at - limits.resend
  }

  function IssuedInHour(codes: map<OtpId, Code>, email: Email, at: int, limits: Limits): set<OtpId> {
    set id | id in codes && codes[id].email == email && DerivedIssue(codes[id], limits) > at - HOUR
  }

  predicate OverCap(codes: map<OtpId, Code>, email: Email, at: int, limits: Limits) {
    |IssuedInHour(codes, email, at, limits)| * 1000 >= limits.perHour
  }

  function Unconsumed(codes: map<OtpId, Code>, email: Email): set<OtpId> {
    set id | id in codes && codes[id].email == email && codes[id].consumedAt == None
  }

  function DoCountIssues(s: State, a: Action): Outcome
    requires a.CountIssues?
  {
    if a.t !in s.txs || !s.txs[a.t].GenLocked? then Waits
    else
      var email := s.txs[a.t].email;
      if TooSoon(s.db.codes, email, a.at, a.limits) then Refused(WithinResend)
      else if OverCap(s.db.codes, email, a.at, a.limits) then Refused(OverHourlyCap)
      else Moves(s.(txs := s.txs[a.t := GenCounted(email, a.at, a.limits)]))
  }

  /** `otp_issue`: consume every unconsumed code of the email, insert the new one. */
  function DoIssueCode(s: State, a: Action): Outcome
    requires a.IssueCode?
  {
    if a.t !in s.txs || !s.txs[a.t].GenCounted? then Waits
    else
      var tx := s.txs[a.t];
      var spent := Unconsumed(s.db.codes, tx.email);
      if !CodesFree(s, a.t, spent) || !FreshCode(s, a.t, a.id) then Waits
      else
        var code := Code(tx.email, a.hash, tx.at + tx.limits.expiry, None, 0);
        Moves(s.(txs := s.txs[a.t := GenIssued(tx.email, tx.at, tx.limits, spent, a.id, code)]))
  }

  // ---------------------------------------------------------------- verifying

  predicate IsCandidate(code: Code, attempt: Attempt) {
    && code.email == attempt.email && code.consumedAt == None
    && code.expiresAt >= attempt.at && code.attempts * 1000 < attempt.maxAttempts
  }

  function Candidates(codes: map<OtpId, Code>, attempt: Attempt): set<OtpId> {
    set id | id in codes && IsCandidate(codes[id], attempt)
  }

  function Matching(codes: map<OtpId, Code>, ids: set<OtpId>, hash: CodeHash): set<OtpId> {
    set id | id in ids && id in codes && codes[id].hash == hash
  }

  predicate IsLeast(ids: set<OtpId>, id: OtpId) { id in ids && forall other | other in ids :: id <= other }

  /** The first in id order. */
  function Least(ids: set<OtpId>): (id: OtpId)
    requires ids != {}
    ensures IsLeast(ids, id)
  {
    LeastExists(ids);
    var id :| id in ids && IsLeast(ids, id);
    id
  }

  lemma {:induction false} LeastExists(ids: set<OtpId>)
    requires ids != {}
    ensures exists id :: IsLeast(ids, id)
    decreases |ids|
  {
    var x :| x in ids;
    var rest := ids - {x};
    if rest == {} {
      assert ids == {x};
      assert IsLeast(ids, x);
    } else {
      LeastExists(rest);
      var y :| IsLeast(rest, y);
      forall other | other in ids ensures (if x < y then x else y) <= other {
        assert other == x || other in rest;
      }
      assert IsLeast(ids, if x < y then x else y);
    }
  }

  /** The candidate rows a statement saw are locked, and judged as they are once the locks are had. */
  function DoLockCandidates(s: State, a: Action): Outcome
    requires a.LockCandidates?
  {
    if a.t !in s.txs || !s.txs[a.t].VerSeen? || !CodesFree(s, a.t, s.txs[a.t].seen) then Waits
    else
      var attempt := s.txs[a.t].attempt;
      var live := s.txs[a.t].seen * Candidates(s.db.codes, attempt);
      Moves(s.(txs := s.txs[a.t := Judged(s.db, attempt, live)]))
  }

  /** `verifyOtpInTx` on its locked candidates: no candidate or an inactive owner refuses without a
      trace; no match counts an attempt on every candidate; otherwise the first match is consumed. */
  function Judged(db: Db, attempt: Attempt, live: set<OtpId>): Tx {
    if live == {} || attempt.email !in db.users || !db.users[attempt.email].active then VerRefused(attempt, live)
    else if Matching(db.codes, live, attempt.hash) == {} then VerFailed(attempt, live)
    else VerMatched(attempt, live, Least(Matching(db.codes, live, attempt.hash)), db.users[attempt.email].id)
  }

  function DoIssueSession(s: State, a: Action): Outcome
    requires a.IssueSession?
  {
    if a.t !in s.txs || !s.txs[a.t].VerMatched? || !s.txs[a.t].attempt.login then Waits
    else
      var tx := s.txs[a.t];
      if !ActiveUser(s.db.users, tx.user) then Refused(UnknownOrInactiveUser)
      else if !FreshSession(s, a.t, a.sessionId) then Waits
      else
        Moves(s.(txs := s.txs[a.t := VerLoggedIn(tx.attempt, tx.candidates, tx.matched, a.sessionId,
                                                 Session(tx.user, a.at, a.at + a.lifetime))]))
  }

  // ---------------------------------------------------------------- commit

  function Consume(codes: map<OtpId, Code>, ids: set<OtpId>, at: int): map<OtpId, Code> {
    map id | id in codes :: if id in ids then codes[id].(consumedAt := Some(at)) else codes[id]
  }

  function RecordFailure(codes: map<OtpId, Code>, ids: set<OtpId>): map<OtpId, Code> {
    map id | id in codes :: if id in ids then codes[id].(attempts := codes[id].attempts + 1) else codes[id]
  }

  function Published(db: Db, tx: Tx): Option<Db> {
    match tx
    case GenIssued(email, at, limits, spent, id, code) =>
      Some(db.(codes := Consume(db.codes, spent, at)[id := code], issued := db.issued + [Issued(email, id, at, limits)]))
    case VerRefused(_, _) => Some(db)
    case VerFailed(attempt, candidates) =>
      Some(db.(codes := RecordFailure(db.codes, candidates), failures := db.failures + [attempt.email]))
    case VerMatched(attempt, _, matched, _) =>
      if attempt.login then None else Some(db.(codes := Consume(db.codes, {matched}, attempt.at)))
    case VerLoggedIn(attempt, _, matched, sessionId, session) =>
      Some(db.(codes := Consume(db.codes, {matched}, attempt.at), sessions := db.sessions[sessionId := session],
               logins := db.logins + [Login(matched, sessionId, session.user)]))
    case _ => None
  }

  function DoCommit(s: State, t: TxId): Outcome {
    if t !in s.txs then Waits
    else match Published(s.db, s.txs[t])
      case None => Waits
      case Some(db) => Moves(s.(db := db, txs := s.txs - {t}))
  }

  function Try(lockOf: LockOf, s: State, a: Action): Outcome {
    match a
    case BeginGenerate(t, email) =>
      if t in s.txs then Waits
      else if !ActiveEmail(s.db.users, email) then Refused(UnknownOrInactiveUser)
      else Moves(s.(txs := s.txs[t := GenActive(email)]))
    case LockEmail(t) =>
      if t !in s.txs || !s.txs[t].GenActive? || !EmailFree(lockOf, s, t, s.txs[t].email) then Waits
      else Moves(s.(txs := s.txs[t := GenLocked(s.txs[t].email)]))
    case CountIssues(_, _, _) => DoCountIssues(s, a)
    case IssueCode(_, _, _) => DoIssueCode(s, a)
    case BeginVerify(t, attempt) =>
      if t in s.txs then Waits else Moves(s.(txs := s.txs[t := VerSeen(attempt, Candidates(s.db.codes, attempt))]))
    case LockCandidates(_) => DoLockCandidates(s, a)
    case IssueSession(_, _, _, _) => DoIssueSession(s, a)
    case Commit(t) => DoCommit(s, t)
    case Abort(t) => Moves(s.(txs := s.txs - {t}))
    case SetUser(email, user) => Moves(s.(db := s.db.(users := s.db.users[email := user])))
  }

  function Step(lockOf: LockOf, s: State, a: Action): State {
    match Try(lockOf, s, a)
    case Waits => s
    case Refused(_) => if a.SetUser? then s else s.(txs := s.txs - {a.t})
    case Moves(next) => next
  }

  function Run(lockOf: LockOf, s: State, actions: seq<Action>): State
    decreases |actions|
  {
    if actions == [] then s else Run(lockOf, Step(lockOf, s, actions[0]), actions[1..])
  }

  /** One session takes statements in order, up to the first that waits or is refused. */
  function Call(lockOf: LockOf, s: State, script: seq<Action>): (State, Progress<(), Refusal>)
    decreases |script|
  {
    if script == [] then (s, Done(()))
    else match Try(lockOf, s, script[0])
      case Waits => (s, Waiting)
      case Refused(e) => (Step(lockOf, s, script[0]), Failed(e))
      case Moves(next) => Call(lockOf, next, script[1..])
  }

  const EMPTY: State := State(Db(map[], map[], map[], [], [], []), map[])
}
