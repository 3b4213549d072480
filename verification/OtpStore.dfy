/** The two operations as one session runs them, statement by statement on the tables it shares. */
module OtpStore {
  import opened Outcomes
  import opened Otp
  import OtpSafety

  // ---------------------------------------------------------------- a call is a run

  /** Wherever a call stops, its session has run some of its statements. */
  lemma {:induction false} CallIsRun(lockOf: LockOf, s: State, script: seq<Action>)
    ensures exists n: nat :: n <= |script| && Call(lockOf, s, script).0 == Run(lockOf, s, script[..n])
    ensures Call(lockOf, s, script).1.Done? ==> Call(lockOf, s, script).0 == Run(lockOf, s, script)
    decreases |script|
  {
    if script == [] {
      assert script[..0] == [];
    } else {
      var next := Step(lockOf, s, script[0]);
      assert script[..1][1..] == [];
      assert Run(lockOf, s, script[..1]) == Run(lockOf, next, []);
      if Try(lockOf, s, script[0]).Moves? {
        CallIsRun(lockOf, next, script[1..]);
        var n: nat :| n <= |script[1..]| && Call(lockOf, next, script[1..]).0 == Run(lockOf, next, script[1..][..n]);
        assert script[..n + 1][1..] == script[1..][..n];
      } else {
        assert Call(lockOf, s, script).0 == next;
      }
    }
  }

  lemma CallOne(lockOf: LockOf, s: State, a: Action)
    ensures Call(lockOf, s, [a]) == match Try(lockOf, s, a)
                                    case Waits => (s, Waiting)
                                    case Refused(e) => (Step(lockOf, s, a), Failed(e))
                                    case Moves(next) => (next, Done(()))
  {
  }

  lemma {:induction false} CallAppend(lockOf: LockOf, s: State, a: seq<Action>, b: seq<Action>)
    ensures var (next, ending) := Call(lockOf, s, a);
            Call(lockOf, s, a + b) == if ending.Done? then Call(lockOf, next, b) else (next, ending)
    decreases |a|
  {
    if a == [] {
      assert a + b == b;
    } else {
      assert (a + b)[1..] == a[1..] + b;
      if Try(lockOf, s, a[0]).Moves? { CallAppend(lockOf, Try(lockOf, s, a[0]).next, a[1..], b); }
    }
  }

  function LimitScript(t: TxId, email: Email, at: int, limits: Limits): seq<Action> {
    [BeginGenerate(t, email), LockEmail(t)] + [CountIssues(t, at, limits)]
  }

  function GenerateScript(t: TxId, email: Email, at: int, limits: Limits, id: OtpId, hash: CodeHash): seq<Action> {
    LimitScript(t, email, at, limits) + ([IssueCode(t, id, hash)] + [Commit(t)])
  }

  function VerifyScript(t: TxId, attempt: Attempt): seq<Action> { [BeginVerify(t, attempt)] + [LockCandidates(t)] }

  /** A login issues a session after a match. */
  function LoginScript(t: TxId, matched: bool, sessionId: SessionId, at: int, lifetime: int): seq<Action> {
    (if matched then [IssueSession(t, sessionId, at, lifetime)] else []) + [Commit(t)]
  }

  function NewCode(email: Email, at: int, limits: Limits, hash: CodeHash): Code {
    Code(email, hash, at + limits.expiry, None, 0)
  }

  lemma PutAndDrop(s: State, t: TxId, tx: Tx)
    requires t !in s.txs
    ensures s.txs[t := tx] - {t} == s.txs && s.txs - {t} == s.txs
  {
  }

  /** A session's own phase does not stand in its way. */
  lemma FreeAfterPut(lockOf: LockOf, s: State, t: TxId, tx: Tx, email: Email, ids: set<OtpId>, id: nat)
    ensures var next := s.(txs := s.txs[t := tx]);
            && EmailFree(lockOf, next, t, email) == EmailFree(lockOf, s, t, email)
            && CodesFree(next, t, ids) == CodesFree(s, t, ids)
            && FreshCode(next, t, id) == FreshCode(s, t, id)
            && FreshSession(next, t, id) == FreshSession(s, t, id)
  {
    var txs := s.txs[t := tx];
    assert forall u | u in s.txs && u != t :: u in txs && txs[u] == s.txs[u];
    assert forall u | u in txs && u != t :: u in s.txs;
  }

  // ---------------------------------------------------------------- the store

  /** `order by o.id`. */
  function InOrder(ids: set<OtpId>): seq<OtpId>
    decreases |ids|
  {
    if ids == {} then [] else [Least(ids)] + InOrder(ids - {Least(ids)})
  }

  lemma {:induction false} InOrderHolds(ids: set<OtpId>, id: OtpId)
    ensures id in InOrder(ids) <==> id in ids
    decreases |ids|
  {
    if ids != {} {
      InOrderHolds(ids - {Least(ids)}, id);
    }
  }

  lemma {:induction false} InOrderAscends(ids: set<OtpId>, i: nat, j: nat)
    requires i < j < |InOrder(ids)|
    ensures InOrder(ids)[i] < InOrder(ids)[j]
    decreases |ids|
  {
    var least, rest := Least(ids), ids - {Least(ids)};
    if i == 0 {
      InOrderHolds(rest, InOrder(rest)[j - 1]);
    } else {
      InOrderAscends(rest, i - 1, j - 1);
    }
  }

  /** An active owner's first live code with the hash, or nothing where there is none. */
  predicate IsJudgement(users: map<Email, User>, codes: map<OtpId, Code>, attempt: Attempt, live: set<OtpId>, judged: Option<(OtpId, UserId)>) {
    var matching := Matching(codes, live, attempt.hash);
    if judged == None then matching == {} || !ActiveEmail(users, attempt.email)
    else
      && ActiveEmail(users, attempt.email) && judged.value.1 == users[attempt.email].id
      && IsLeast(matching, judged.value.0)
  }

  /** A live code of an active owner has the hash presented. */
  predicate Matched(users: map<Email, User>, codes: map<OtpId, Code>, attempt: Attempt) {
    ActiveEmail(users, attempt.email) && Matching(codes, Candidates(codes, attempt), attempt.hash) != {}
  }

  /** A verification without a match: every live code of an active owner counts one attempt more. */
  predicate GuessedWrong(before: Db, after: Db, attempt: Attempt) {
    var guessedAt := if ActiveEmail(before.users, attempt.email) then Candidates(before.codes, attempt) else {};
    after == before.(codes := RecordFailure(before.codes, guessedAt),
                     failures := before.failures + if guessedAt == {} then [] else [attempt.email])
  }

  /** A login: the first live code with the hash is consumed, and a session of its owner created. */
  predicate LoggedInWith(before: Db, after: Db, attempt: Attempt, id: OtpId, sessionId: SessionId, session: Session) {
    && attempt.email in before.users && session.user == before.users[attempt.email].id
    && IsLeast(Matching(before.codes, Candidates(before.codes, attempt), attempt.hash), id)
    && after == before.(codes := Consume(before.codes, {id}, attempt.at), sessions := before.sessions[sessionId := session],
                        logins := before.logins + [Login(id, sessionId, session.user)])
  }

  /** What the transaction will commit for a judgement. */
  function PhaseOf(users: map<Email, User>, attempt: Attempt, live: set<OtpId>, judged: Option<(OtpId, UserId)>): Tx {
    match judged
    case Some((id, user)) => VerMatched(attempt, live, id, user)
    case None => if live == {} || !ActiveEmail(users, attempt.email) then VerRefused(attempt, live) else VerFailed(attempt, live)
  }

  class Store {
    var users: map<Email, User>
    var codes: map<OtpId, Code>
    var sessions: map<SessionId, Session>
    var issued: seq<Issued>
    var failures: seq<Email>
    var logins: seq<Login>
    var txs: map<TxId, Tx>

    function Model(): State
      reads this
    {
      State(Db(users, codes, sessions, issued, failures, logins), txs)
    }

    /** A thrown error rolls the transaction back. */
    method RollBack<T>(t: TxId, error: Refusal) returns (r: Progress<T, Refusal>)
      modifies this`txs
      ensures r == Failed(error) && txs == old(txs) - {t}
    {
      txs := txs - {t};
      return Failed(error);
    }

    /** COMMIT: what the transaction wrote is published. */
    method CommitTransaction(lockOf: LockOf, t: TxId)
      requires t in txs && Published(Model().db, txs[t]).Some?
      modifies this
      ensures Call(lockOf, old(Model()), [Commit(t)]) == (Model(), Done(()))
      ensures Published(old(Model().db), old(txs)[t]) == Some(Model().db) && txs == old(txs) - {t}
    {
      CallOne(lockOf, Model(), Commit(t));
      var tx := txs[t];
      txs := txs - {t};
      match tx {
        case GenIssued(email, at, limits, spent, id, code) =>
          codes := Consume(codes, spent, at)[id := code];
          issued := issued + [Issued(email, id, at, limits)];
        case VerRefused(_, _) =>
        case VerFailed(attempt, candidates) =>
          codes := RecordFailure(codes, candidates);
          failures := failures + [attempt.email];
        case VerMatched(attempt, _, matched, _) =>
          codes := Consume(codes, {matched}, attempt.at);
        case VerLoggedIn(attempt, _, matched, sessionId, session) =>
          codes := Consume(codes, {matched}, attempt.at);
          sessions := sessions[sessionId := session];
          logins := logins + [Login(matched, sessionId, session.user)];
        case _ => assert false;
      }
    }

    // -------------------------------------------------------------- issuing

    /** The owner must be active; then the email's advisory lock. */
    method FindOwnerAndLock(lockOf: LockOf, t: TxId, email: Email) returns (r: Progress<(), Refusal>)
      requires t !in txs
      modifies this`txs
      ensures Call(lockOf, old(Model()), [BeginGenerate(t, email), LockEmail(t)]) == (Model(), r)
      ensures r == if !ActiveEmail(users, email) then Failed(UnknownOrInactiveUser)
                   else if EmailFree(lockOf, old(Model()), t, email) then Done(()) else Waiting
      ensures r.Done? ==> txs == old(txs)[t := GenLocked(email)]
      ensures r.Failed? ==> txs == old(txs)
    {
      assert [BeginGenerate(t, email), LockEmail(t)] == [BeginGenerate(t, email)] + [LockEmail(t)];
      CallAppend(lockOf, Model(), [BeginGenerate(t, email)], [LockEmail(t)]);
      CallOne(lockOf, Model(), BeginGenerate(t, email));
      PutAndDrop(Model(), t, GenActive(email));
      FreeAfterPut(lockOf, Model(), t, GenActive(email), email, {}, 0);
      if !ActiveEmail(users, email) {
        return Failed(UnknownOrInactiveUser);
      }
      txs := txs[t := GenActive(email)];
      CallOne(lockOf, Model(), LockEmail(t));
      if !EmailFree(lockOf, Model(), t, email) {
        return Waiting;
      }
      txs := txs[t := GenLocked(email)];
      return Done(());
    }

    /** The one query of the limits, read twice. */
    method CheckLimits(lockOf: LockOf, t: TxId, at: int, limits: Limits) returns (r: Progress<(), Refusal>)
      requires t in txs && txs[t].GenLocked?
      modifies this`txs
      ensures Call(lockOf, old(Model()), [CountIssues(t, at, limits)]) == (Model(), r)
      ensures var email := old(txs)[t].email;
              && (r == Failed(WithinResend) <==> TooSoon(codes, email, at, limits))
              && (r == Failed(OverHourlyCap) <==> !TooSoon(codes, email, at, limits) && OverCap(codes, email, at, limits))
              && (r.Done? <==> !TooSoon(codes, email, at, limits) && !OverCap(codes, email, at, limits))
              && txs == if r.Done? then old(txs)[t := GenCounted(email, at, limits)] else old(txs) - {t}
    {
      CallOne(lockOf, Model(), CountIssues(t, at, limits));
      var email := txs[t].email;
      var withinResend := TooSoon(codes, email, at, limits);
      var issuedInHour := |IssuedInHour(codes, email, at, limits)|;
      if withinResend {
        r := RollBack(t, WithinResend);
        return;
      }
      if issuedInHour * 1000 >= limits.perHour {
        r := RollBack(t, OverHourlyCap);
        return;
      }
      txs := txs[t := GenCounted(email, at, limits)];
      return Done(());
    }

    /** Owner, lock and limits. */
    method Admit(lockOf: LockOf, t: TxId, email: Email, at: int, limits: Limits) returns (r: Progress<(), Refusal>)
      requires t !in txs
      modifies this`txs
      ensures Call(lockOf, old(Model()), LimitScript(t, email, at, limits)) == (Model(), r)
      ensures var active, free, soon := ActiveEmail(users, email), EmailFree(lockOf, old(Model()), t, email), TooSoon(codes, email, at, limits);
              && (r == Failed(UnknownOrInactiveUser) <==> !active)
              && (r.Waiting? <==> active && !free)
              && (r == Failed(WithinResend) <==> active && free && soon)
              && (r == Failed(OverHourlyCap) <==> active && free && !soon && OverCap(codes, email, at, limits))
              && (r.Done? <==> active && free && !soon && !OverCap(codes, email, at, limits))
      ensures r.Done? ==> txs == old(txs)[t := GenCounted(email, at, limits)]
      ensures r.Failed? ==> txs == old(txs)
    {
      CallAppend(lockOf, Model(), [BeginGenerate(t, email), LockEmail(t)], [CountIssues(t, at, limits)]);
      PutAndDrop(Model(), t, GenLocked(email));
      var _ :- FindOwnerAndLock(lockOf, t, email);
      r := CheckLimits(lockOf, t, at, limits);
    }

    /** `otp_issue`: earlier live codes are consumed, the new one is inserted. */
    method Issue(lockOf: LockOf, t: TxId, id: OtpId, hash: CodeHash) returns (r: Progress<(), Refusal>)
      requires t in txs && txs[t].GenCounted? && FreshCode(Model(), t, id)
      modifies this`txs
      ensures Call(lockOf, old(Model()), [IssueCode(t, id, hash)]) == (Model(), r)
      ensures var tx := old(txs)[t];
              && r == (if CodesFree(old(Model()), t, Unconsumed(codes, tx.email)) then Done(()) else Waiting)
              && (r.Done? ==> txs == old(txs)[t := GenIssued(tx.email, tx.at, tx.limits, Unconsumed(codes, tx.email), id,
                                                             NewCode(tx.email, tx.at, tx.limits, hash))])
      ensures r.Waiting? ==> txs == old(txs)
    {
      CallOne(lockOf, Model(), IssueCode(t, id, hash));
      var tx := txs[t];
      var spent := Unconsumed(codes, tx.email);
      if !CodesFree(Model(), t, spent) {
        return Waiting;
      }
      txs := txs[t := GenIssued(tx.email, tx.at, tx.limits, spent, id, NewCode(tx.email, tx.at, tx.limits, hash))];
      return Done(());
    }

    /** A code replaces the earlier live codes of its email, as of its own instant. */
    ghost predicate Replaces(before: map<OtpId, Code>, id: OtpId, code: Code, at: int)
      reads this
    {
      && codes.Keys == before.Keys + {id} && codes[id] == code
      && (forall k | k in before && before[k].email == code.email && before[k].consumedAt == None ::
            codes[k] == before[k].(consumedAt := Some(at)))
      && (forall k | k in before && (before[k].email != code.email || before[k].consumedAt.Some?) :: codes[k] == before[k])
    }

    /** The new code and its commit. */
    method StoreCode(lockOf: LockOf, t: TxId, id: OtpId, hash: CodeHash) returns (r: Progress<OtpId, Refusal>)
      requires t in txs && txs[t].GenCounted? && FreshCode(Model(), t, id)
      modifies this
      ensures Call(lockOf, old(Model()), [IssueCode(t, id, hash)] + [Commit(t)]) == (Model(), r.Ending())
      ensures var tx := old(txs)[t];
              && r == (if CodesFree(old(Model()), t, Unconsumed(old(codes), tx.email)) then Done(id) else Waiting)
              && (r.Done? ==> txs == old(txs) - {t} && issued == old(issued) + [Issued(tx.email, id, tx.at, tx.limits)]
                              && Replaces(old(codes), id, NewCode(tx.email, tx.at, tx.limits, hash), tx.at))
      ensures r.Waiting? ==> codes == old(codes) && issued == old(issued)
      ensures users == old(users) && failures == old(failures) && sessions == old(sessions) && logins == old(logins)
    {
      CallAppend(lockOf, Model(), [IssueCode(t, id, hash)], [Commit(t)]);
      var _ :- Issue(lockOf, t, id, hash);
      CommitTransaction(lockOf, t);
      return Done(id);
    }

    /** `generateOtpInTx` and its commit: refused in the source's order, without a trace; otherwise every
        earlier live code of the email is consumed and the new one stored. */
    method GenerateOtp(lockOf: LockOf, t: TxId, email: Email, at: int, limits: Limits, id: OtpId, hash: CodeHash)
      returns (r: Progress<OtpId, Refusal>)
      requires t !in txs && FreshCode(Model(), t, id)
      modifies this
      ensures Call(lockOf, old(Model()), GenerateScript(t, email, at, limits, id, hash)) == (Model(), r.Ending())
      ensures var active, free, soon := ActiveEmail(users, email), EmailFree(lockOf, old(Model()), t, email), TooSoon(old(codes), email, at, limits);
              && (r == Failed(UnknownOrInactiveUser) <==> !active)
              && (r == Failed(WithinResend) <==> active && free && soon)
              && (r == Failed(OverHourlyCap) <==> active && free && !soon && OverCap(old(codes), email, at, limits))
              && (r.Done? <==> && active && free && !soon && !OverCap(old(codes), email, at, limits)
                               && CodesFree(old(Model()), t, Unconsumed(old(codes), email)))
      ensures r.Failed? ==> txs == old(txs)
      ensures !r.Done? ==> codes == old(codes) && issued == old(issued)
      ensures r.Done? ==>
                && r.result == id && txs == old(txs) && issued == old(issued) + [Issued(email, id, at, limits)]
                && Replaces(old(codes), id, Code(email, hash, at + limits.expiry, None, 0), at)
      ensures users == old(users) && failures == old(failures) && sessions == old(sessions) && logins == old(logins)
    {
      CallAppend(lockOf, Model(), LimitScript(t, email, at, limits), [IssueCode(t, id, hash)] + [Commit(t)]);
      FreeAfterPut(lockOf, Model(), t, GenCounted(email, at, limits), email, Unconsumed(codes, email), id);
      PutAndDrop(Model(), t, GenCounted(email, at, limits));
      var _ :- Admit(lockOf, t, email, at, limits);
      r := StoreCode(lockOf, t, id, hash);
    }

    // -------------------------------------------------------------- verifying

    lemma FirstMatchIsLeast(live: set<OtpId>, hash: CodeHash, i: nat)
      requires live <= codes.Keys && i < |InOrder(live)| && InOrder(live)[i] in codes && codes[InOrder(live)[i]].hash == hash
      requires forall k | 0 <= k < i && InOrder(live)[k] in codes :: codes[InOrder(live)[k]].hash != hash
      ensures Matching(codes, live, hash) != {} && Least(Matching(codes, live, hash)) == InOrder(live)[i]
    {
      var rows, matching := InOrder(live), Matching(codes, live, hash);
      InOrderHolds(live, rows[i]);
      assert rows[i] in matching;
      var least := Least(matching);
      InOrderHolds(live, least);
      var k :| 0 <= k < |rows| && rows[k] == least;
      if i < k { InOrderAscends(live, i, k); }
    }

    /** The code's row among the locked candidates, scanned in id order. */
    method FindMatch(live: set<OtpId>, hash: CodeHash) returns (found: Option<OtpId>)
      requires live <= codes.Keys
      ensures found == if Matching(codes, live, hash) == {} then None else Some(Least(Matching(codes, live, hash)))
    {
      var rows := InOrder(live);
      forall i | 0 <= i < |rows| ensures rows[i] in live {
        InOrderHolds(live, rows[i]);
      }
      for i := 0 to |rows|
        invariant forall k | 0 <= k < i :: codes[rows[k]].hash != hash
      {
        if codes[rows[i]].hash == hash {
          FirstMatchIsLeast(live, hash, i);
          return Some(rows[i]);
        }
      }
      forall id | id in live ensures id in rows {
        InOrderHolds(live, id);
      }
      return None;
    }

    /** The rows a statement saw are locked and judged as they are once the locks are had: no candidate
        or an inactive owner refuses, no match counts an attempt, otherwise the first match is taken. */
    method JudgeCandidates(lockOf: LockOf, t: TxId) returns (r: Progress<Option<(OtpId, UserId)>, Refusal>)
      requires t in txs && txs[t].VerSeen?
      modifies this`txs
      ensures Call(lockOf, old(Model()), [LockCandidates(t)]) == (Model(), r.Ending())
      ensures r.Waiting? <==> !CodesFree(old(Model()), t, old(txs)[t].seen)
      ensures r.Waiting? ==> txs == old(txs)
      ensures var attempt, live := old(txs)[t].attempt, old(txs)[t].seen * Candidates(codes, old(txs)[t].attempt);
              r.Done? ==> IsJudgement(users, codes, attempt, live, r.result) && txs == old(txs)[t := PhaseOf(users, attempt, live, r.result)]
      ensures !r.Failed?
    {
      CallOne(lockOf, Model(), LockCandidates(t));
      if !CodesFree(Model(), t, txs[t].seen) {
        return Waiting;
      }
      var attempt := txs[t].attempt;
      var live := txs[t].seen * Candidates(codes, attempt);
      if live == {} || !ActiveEmail(users, attempt.email) {
        txs := txs[t := VerRefused(attempt, live)];
        return Done(None);
      }
      var matched := FindMatch(live, attempt.hash);
      if matched == None {
        txs := txs[t := VerFailed(attempt, live)];
        return Done(None);
      }
      txs := txs[t := VerMatched(attempt, live, matched.value, users[attempt.email].id)];
      return Done(Some((matched.value, users[attempt.email].id)));
    }

    /** `verifyOtpInTx`. */
    method VerifyOtpInTx(lockOf: LockOf, t: TxId, attempt: Attempt) returns (r: Progress<Option<(OtpId, UserId)>, Refusal>)
      requires t !in txs
      modifies this`txs
      ensures Call(lockOf, old(Model()), VerifyScript(t, attempt)) == (Model(), r.Ending())
      ensures r.Waiting? <==> !CodesFree(old(Model()), t, Candidates(codes, attempt))
      ensures r.Done? ==>
                && IsJudgement(users, codes, attempt, Candidates(codes, attempt), r.result)
                && txs == old(txs)[t := PhaseOf(users, attempt, Candidates(codes, attempt), r.result)]
      ensures !r.Failed?
    {
      var seen := Candidates(codes, attempt);
      assert seen * seen == seen;
      CallAppend(lockOf, Model(), [BeginVerify(t, attempt)], [LockCandidates(t)]);
      CallOne(lockOf, Model(), BeginVerify(t, attempt));
      FreeAfterPut(lockOf, Model(), t, VerSeen(attempt, seen), 0, seen, 0);
      txs := txs[t := VerSeen(attempt, seen)];
      r := JudgeCandidates(lockOf, t);
    }

    /** `verifyOtp`: exactly when a live code of an active owner has the hash, the first of them is
        consumed; otherwise every live code of an active owner counts an attempt. */
    method VerifyOtp(lockOf: LockOf, t: TxId, attempt: Attempt) returns (r: Progress<Option<(OtpId, UserId)>, Refusal>)
      requires t !in txs && !attempt.login
      modifies this
      ensures Call(lockOf, old(Model()), VerifyScript(t, attempt) + [Commit(t)]) == (Model(), r.Ending())
      ensures r.Waiting? <==> !CodesFree(old(Model()), t, Candidates(old(codes), attempt))
      ensures r.Waiting? ==> Model().db == old(Model().db)
      ensures r.Done? ==> IsJudgement(users, old(codes), attempt, Candidates(old(codes), attempt), r.result) && txs == old(txs)
      ensures r.Done? && r.result.Some? ==>
                var id := r.result.value.0;
                && id in old(codes) && codes == old(codes)[id := old(codes)[id].(consumedAt := Some(attempt.at))]
                && failures == old(failures)
      ensures r == Done(None) ==> GuessedWrong(old(Model().db), Model().db, attempt)
      ensures users == old(users) && sessions == old(sessions) && issued == old(issued) && logins == old(logins) && !r.Failed?
    {
      CallAppend(lockOf, Model(), VerifyScript(t, attempt), [Commit(t)]);
      var judged :- VerifyOtpInTx(lockOf, t, attempt);
      PutAndDrop(old(Model()), t, txs[t]);
      CommitTransaction(lockOf, t);
      return Done(judged);
    }

    /** `issueSessionInTx`, for the user of a match: a session exactly for an active user. */
    method IssueSessionInTx(lockOf: LockOf, t: TxId, sessionId: SessionId, at: int, lifetime: int) returns (r: Progress<SessionId, Refusal>)
      requires t in txs && txs[t].VerMatched? && txs[t].attempt.login && FreshSession(Model(), t, sessionId)
      modifies this`txs
      ensures Call(lockOf, old(Model()), [IssueSession(t, sessionId, at, lifetime)]) == (Model(), r.Ending())
      ensures var tx := old(txs)[t];
              && (r == Done(sessionId) <==> ActiveUser(users, tx.user))
              && (r.Done? ==> txs == old(txs)[t := VerLoggedIn(tx.attempt, tx.candidates, tx.matched, sessionId,
                                                               Session(tx.user, at, at + lifetime))])
              && (!r.Done? ==> r == Failed(UnknownOrInactiveUser) && txs == old(txs) - {t})
    {
      CallOne(lockOf, Model(), IssueSession(t, sessionId, at, lifetime));
      var tx := txs[t];
      if !ActiveUser(users, tx.user) {
        r := RollBack(t, UnknownOrInactiveUser);
        return;
      }
      txs := txs[t := VerLoggedIn(tx.attempt, tx.candidates, tx.matched, sessionId, Session(tx.user, at, at + lifetime))];
      return Done(sessionId);
    }

    /** The session of a match and the commit of both, or the commit of a judgement without a match. */
    method FinishLogin(lockOf: LockOf, t: TxId, sessionId: SessionId, at: int, lifetime: int) returns (session: Option<SessionId>)
      requires t in txs && (txs[t].VerMatched? || txs[t].VerRefused? || txs[t].VerFailed?) && txs[t].attempt.login
      requires txs[t].VerMatched? ==> FreshSession(Model(), t, sessionId) && ActiveUser(users, txs[t].user)
      modifies this
      ensures Call(lockOf, old(Model()), LoginScript(t, old(txs)[t].VerMatched?, sessionId, at, lifetime)) == (Model(), Done(()))
      ensures txs == old(txs) - {t} && users == old(users) && issued == old(issued)
      ensures session == if old(txs)[t].VerMatched? then Some(sessionId) else None
      ensures var tx := old(txs)[t];
              && (session.Some? ==>
                   && codes == Consume(old(codes), {tx.matched}, tx.attempt.at) && failures == old(failures)
                   && sessions == old(sessions)[sessionId := Session(tx.user, at, at + lifetime)]
                   && logins == old(logins) + [Login(tx.matched, sessionId, tx.user)])
              && (session == None ==>
                   && codes == RecordFailure(old(codes), if tx.VerFailed? then tx.candidates else {})
                   && failures == old(failures) + (if tx.VerFailed? then [tx.attempt.email] else [])
                   && sessions == old(sessions) && logins == old(logins))
    {
      if txs[t].VerMatched? {
        CallAppend(lockOf, Model(), [IssueSession(t, sessionId, at, lifetime)], [Commit(t)]);
        var _ := IssueSessionInTx(lockOf, t, sessionId, at, lifetime);
        CommitTransaction(lockOf, t);
        return Some(sessionId);
      }
      assert [] + [Commit(t)] == [Commit(t)];
      CommitTransaction(lockOf, t);
      return None;
    }

    /** The command of a login: verify, and after a match issue a session, in one transaction. */
    method VerifyAndIssue(lockOf: LockOf, t: TxId, attempt: Attempt, sessionId: SessionId, at: int, lifetime: int)
      returns (r: Progress<Option<SessionId>, Refusal>)
      requires t !in txs && attempt.login && FreshSession(Model(), t, sessionId)
      modifies this
      ensures var matched := Matched(users, old(codes), attempt);
              && Call(lockOf, old(Model()), VerifyScript(t, attempt) + LoginScript(t, matched, sessionId, at, lifetime)) == (Model(), r.Ending())
              && (r.Done? ==> r.result == if matched then Some(sessionId) else None)
      ensures r.Waiting? <==> !CodesFree(old(Model()), t, Candidates(old(codes), attempt))
      ensures r.Waiting? ==> Model().db == old(Model().db)
      ensures r.Done? && r.result.Some? ==>
                && |logins| == |old(logins)| + 1
                && LoggedInWith(old(Model().db), Model().db, attempt, logins[|old(logins)|].otp, sessionId,
                                Session(users[attempt.email].id, at, at + lifetime))
      ensures r == Done(None) ==> GuessedWrong(old(Model().db), Model().db, attempt)
      ensures r.Done? ==> txs == old(txs)
      ensures users == old(users) && issued == old(issued) && !r.Failed?
    {
      ghost var matched := Matched(users, codes, attempt);
      CallAppend(lockOf, Model(), VerifyScript(t, attempt), LoginScript(t, matched, sessionId, at, lifetime));
      var judged :- VerifyOtpInTx(lockOf, t, attempt);
      FreeAfterPut(lockOf, old(Model()), t, txs[t], 0, {}, sessionId);
      PutAndDrop(old(Model()), t, txs[t]);
      var session := FinishLogin(lockOf, t, sessionId, at, lifetime);
      return Done(session);
    }
  }

  // ---------------------------------------------------------------- raising the expiry

  lemma LimitsPass(lockOf: LockOf, s: State, t: TxId, email: Email, at: int, limits: Limits)
    requires t !in s.txs && ActiveEmail(s.db.users, email) && EmailFree(lockOf, s, t, email)
    requires !TooSoon(s.db.codes, email, at, limits) && !OverCap(s.db.codes, email, at, limits)
    ensures Call(lockOf, s, LimitScript(t, email, at, limits)) == (s.(txs := s.txs[t := GenCounted(email, at, limits)]), Done(()))
  {
    var active, locked := s.(txs := s.txs[t := GenActive(email)]), s.(txs := s.txs[t := GenLocked(email)]);
    CallAppend(lockOf, s, [BeginGenerate(t, email), LockEmail(t)], [CountIssues(t, at, limits)]);
    assert [BeginGenerate(t, email), LockEmail(t)] == [BeginGenerate(t, email)] + [LockEmail(t)];
    CallAppend(lockOf, s, [BeginGenerate(t, email)], [LockEmail(t)]);
    CallOne(lockOf, s, BeginGenerate(t, email));
    FreeAfterPut(lockOf, s, t, GenActive(email), email, {}, 0);
    CallOne(lockOf, active, LockEmail(t));
    assert active.txs[t := GenLocked(email)] == locked.txs;
    CallOne(lockOf, locked, CountIssues(t, at, limits));
    assert locked.txs[t := GenCounted(email, at, limits)] == s.txs[t := GenCounted(email, at, limits)];
  }

  function WithCode(db: Db, email: Email, at: int, limits: Limits, id: OtpId, hash: CodeHash): Db {
    db.(codes := Consume(db.codes, Unconsumed(db.codes, email), at)[id := NewCode(email, at, limits, hash)],
        issued := db.issued + [Issued(email, id, at, limits)])
  }

  lemma CodeIsStored(lockOf: LockOf, s: State, t: TxId, email: Email, at: int, limits: Limits, id: OtpId, hash: CodeHash)
    requires t !in s.txs && CodesFree(s, t, Unconsumed(s.db.codes, email)) && FreshCode(s, t, id)
    ensures Call(lockOf, s.(txs := s.txs[t := GenCounted(email, at, limits)]), [IssueCode(t, id, hash)] + [Commit(t)])
         == (s.(db := WithCode(s.db, email, at, limits, id, hash)), Done(()))
  {
    var spent, counted := Unconsumed(s.db.codes, email), s.(txs := s.txs[t := GenCounted(email, at, limits)]);
    var tx := GenIssued(email, at, limits, spent, id, NewCode(email, at, limits, hash));
    CallAppend(lockOf, counted, [IssueCode(t, id, hash)], [Commit(t)]);
    FreeAfterPut(lockOf, s, t, GenCounted(email, at, limits), email, spent, id);
    CallOne(lockOf, counted, IssueCode(t, id, hash));
    assert counted.txs[t := tx] == s.txs[t := tx];
    PutAndDrop(s, t, tx);
    CallOne(lockOf, s.(txs := s.txs[t := tx]), Commit(t));
  }

  /** An admitted request that nobody interrupts is a run of the machine that commits its code. */
  lemma GenerateRuns(lockOf: LockOf, s: State, t: TxId, email: Email, at: int, limits: Limits, id: OtpId, hash: CodeHash)
    requires t !in s.txs && ActiveEmail(s.db.users, email) && EmailFree(lockOf, s, t, email)
    requires !TooSoon(s.db.codes, email, at, limits) && !OverCap(s.db.codes, email, at, limits)
    requires CodesFree(s, t, Unconsumed(s.db.codes, email)) && FreshCode(s, t, id)
    ensures Run(lockOf, s, GenerateScript(t, email, at, limits, id, hash)) == s.(db := WithCode(s.db, email, at, limits, id, hash))
  {
    CallIsRun(lockOf, s, GenerateScript(t, email, at, limits, id, hash));
    CallAppend(lockOf, s, LimitScript(t, email, at, limits), [IssueCode(t, id, hash)] + [Commit(t)]);
    LimitsPass(lockOf, s, t, email, at, limits);
    CodeIsStored(lockOf, s, t, email, at, limits, id, hash);
  }

  const MINUTE: int := 60_000

  const LOW: Limits := Limits(MINUTE, MINUTE, 1000)

  const RAISED: Limits := Limits(HOUR + 2 * MINUTE, MINUTE, 1000)

  lemma {:induction false} RunAppend(lockOf: LockOf, s: State, a: seq<Action>, b: seq<Action>)
    ensures Run(lockOf, s, a + b) == Run(lockOf, Run(lockOf, s, a), b)
    decreases |a|
  {
    if a == [] {
      assert a + b == b;
    } else {
      assert (a + b)[1..] == a[1..] + b;
      RunAppend(lockOf, Step(lockOf, s, a[0]), a[1..], b);
    }
  }

  /** A user, and two requests for a code with an edit of the expiry in between. */
  function RaisedActions(): seq<Action> {
    [SetUser(0, User(0, true))] + (GenerateScript(0, 0, 0, LOW, 0, 0) + GenerateScript(0, 0, 1, RAISED, 1, 0))
  }

  const OWNED: State := State(Db(map[0 := User(0, true)], map[], map[], [], [], []), map[])

  lemma FirstRequest(lockOf: LockOf)
    ensures Run(lockOf, OWNED, GenerateScript(0, 0, 0, LOW, 0, 0)) ==
              OWNED.(db := OWNED.db.(codes := map[0 := NewCode(0, 0, LOW, 0)], issued := [Issued(0, 0, 0, LOW)]))
  {
    assert IssuedInHour(OWNED.db.codes, 0, 0, LOW) == {} && Unconsumed(OWNED.db.codes, 0) == {};
    GenerateRuns(lockOf, OWNED, 0, 0, 0, LOW, 0, 0);
    assert Consume(OWNED.db.codes, {}, 0)[0 := NewCode(0, 0, LOW, 0)] == map[0 := NewCode(0, 0, LOW, 0)];
  }

  lemma RaisedRunIssues(lockOf: LockOf)
    ensures Run(lockOf, EMPTY, RaisedActions()).db.issued == [Issued(0, 0, 0, LOW), Issued(0, 1, 1, RAISED)]
  {
    var first, second := GenerateScript(0, 0, 0, LOW, 0, 0), GenerateScript(0, 0, 1, RAISED, 1, 0);
    RunAppend(lockOf, EMPTY, [SetUser(0, User(0, true))], first + second);
    assert Run(lockOf, EMPTY, [SetUser(0, User(0, true))]) == OWNED;
    RunAppend(lockOf, OWNED, first, second);
    FirstRequest(lockOf);
    var next := Run(lockOf, OWNED, first);
    assert IssuedInHour(next.db.codes, 0, 1, RAISED) == {};
    GenerateRuns(lockOf, next, 0, 0, 1, RAISED, 1, 0);
  }

  /** The documented skew is real: raise the expiry by an hour and more between two requests and the
      second is accepted at once. Here the resend interval is a minute and the cap one an hour both
      times, and the issues are a millisecond apart. */
  lemma RaisingTheExpiryBreaksBothLimits(lockOf: LockOf)
    ensures var issued := Run(lockOf, EMPTY, RaisedActions()).db.issued;
            && |issued| == 2 && issued[0].email == issued[1].email
            && issued[1].at < issued[0].at + issued[1].limits.resend
            && OtpSafety.CapAtMost(issued, 0, 1) && OtpSafety.InHour(issued, 0, 1) == {0, 1}
  {
    RaisedRunIssues(lockOf);
  }
}
