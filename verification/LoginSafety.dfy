/** What the login flows guarantee over every interleaving, and the flows as one session runs them. */
module LoginSafety {
  import opened Outcomes
  import opened Login
  import I = Idempotency
  import IS = IdempotencySafety
  import O = Otp
  import OtpSafety
  import OtpStore

  lemma ReachableIsOk(locks: Locks, clock: int, actions: seq<Action>)
    ensures Inv(locks, Run(locks, Empty(clock), actions))
  {
    IS.EmptyIsOk(locks.slot, clock);
    RunKeeps(locks, Empty(clock), actions);
  }

  lemma ReachableIsRecorded(locks: Locks, clock: int, actions: seq<Action>)
    ensures var s := Run(locks, Empty(clock), actions);
            EffectsRecorded(s.keys.effects, s.otp.db) && SecretsRecorded(s.keys.replies, s.secrets, s.otp.db)
  {
    ReachableIsOk(locks, clock, actions);
  }

  // ---------------------------------------------------------------- sessions

  /** Every session is the result of exactly one committed run of a verification … */
  lemma SessionsAreRuns(locks: Locks, clock: int, actions: seq<Action>, x: O.SessionId)
    requires x in Run(locks, Empty(clock), actions).otp.db.sessions
    ensures var effects := Run(locks, Empty(clock), actions).keys.effects;
            exists k :: && 0 <= k < |effects| && effects[k].result == Encode(Valid(x))
                        && forall j | 0 <= j < |effects| && j != k :: effects[j].result != Encode(Valid(x))
  {
    var s := Run(locks, Empty(clock), actions);
    ReachableIsRecorded(locks, clock, actions);
    OneRun(s.keys.effects, s.otp.db, x);
  }

  /** … and of exactly one consumed code; so a code earns at most one session and a run at most one. */
  lemma SessionsAreCodes(locks: Locks, clock: int, actions: seq<Action>, x: O.SessionId)
    requires x in Run(locks, Empty(clock), actions).otp.db.sessions
    ensures var db := Run(locks, Empty(clock), actions).otp.db;
            exists i :: && 0 <= i < |db.logins| && db.logins[i].session == x
                        && db.logins[i].otp in db.codes && db.codes[db.logins[i].otp].consumedAt.Some?
                        && forall j | 0 <= j < |db.logins| && j != i ::
                             db.logins[j].session != x && db.logins[j].otp != db.logins[i].otp
  {
    RunsAreRuns(locks, Empty(clock), actions);
    OtpSafety.OneSessionPerCode(locks.email, OtpTrace(locks, Empty(clock), actions), x);
  }

  lemma OneRun(effects: seq<I.Effect>, db: O.Db, x: O.SessionId)
    requires EffectsRecorded(effects, db) && x in db.sessions
    ensures exists k :: && 0 <= k < |effects| && effects[k].result == x
                        && forall j | 0 <= j < |effects| && j != k :: effects[j].result != x
  {
    assert HasRun(effects, x);
    var k :| 0 <= k < |effects| && effects[k].result == x;
    forall j | 0 <= j < |effects| && j != k ensures effects[j].result != x {
      if j < k { assert effects[j].result >= 0 ==> effects[j].result != effects[k].result; }
    }
  }

  /** And the other way: a run that answered `valid` did create its session. */
  lemma ValidRunsHaveSessions(locks: Locks, clock: int, actions: seq<Action>, k: nat)
    requires k < |Run(locks, Empty(clock), actions).keys.effects|
    requires Run(locks, Empty(clock), actions).keys.effects[k].result >= 0
    ensures Run(locks, Empty(clock), actions).keys.effects[k].result in Run(locks, Empty(clock), actions).otp.db.sessions
  {
    ReachableIsRecorded(locks, clock, actions);
  }

  // ---------------------------------------------------------------- replays

  /** Until its claim is granted, and when it replays, a session changes nothing: no code, no attempts
      counter, no session; and a committed replay hands out no secret. */
  lemma ReplayTouchesNothing(locks: Locks, s: State, a: Action, t: TxId)
    requires Coupled(s) && t in s.keys.txs
    requires var phase := s.keys.txs[t].phase; phase.Started? || phase.LockHeld? || phase.Existing? || phase.Replaying?
    requires match a
             case Wrapper(k) => !k.Tick? && !k.Purge? && k.t == t
             case Command(o) => OfSession(o) && o.t == t
             case Outside(o) => OfSession(o) && o.t == t
             case _ => a.t == t
    ensures var next := Step(locks, s, a);
            && next.otp.db == s.otp.db && next.keys.rows == s.keys.rows && next.keys.effects == s.keys.effects
            && (next.secrets == s.secrets || next.secrets == s.secrets + [None])
  {
    assert SessionCoupled(s.keys.txs[t].phase, Lookup(s.otp.txs, t), s.otp.db);
    assert s.secrets + [] == s.secrets;
  }

  /** While a key is live, whatever happens meanwhile: every call that completes under it is answered
      with the stored result, and is handed no secret. A retry with another code changes nothing of
      this, because the request hash leaves the code out. */
  lemma LiveKeyHandsNothing(locks: Locks, s: State, actions: seq<Action>, slot: I.Slot, i: nat)
    requires Inv(locks, s) && IS.Live(s.keys, slot, Run(locks, s, actions).keys.latest)
    requires |s.keys.replies| <= i < |Run(locks, s, actions).keys.replies|
    requires Run(locks, s, actions).keys.replies[i].request.slot == slot
    ensures var final := Run(locks, s, actions);
            && |final.secrets| == |final.keys.replies|
            && IS.IsReplayOf(final.keys.replies[i], s.keys.rows[slot]) && final.secrets[i] == None
  {
    var final := Run(locks, s, actions);
    RunsAreRuns(locks, s, actions);
    IS.LiveKeyReplays(locks.slot, s.keys, KeyTrace(locks, s, actions), slot, i);
    RunKeeps(locks, s, actions);
    ReplaysHandNothing(final.keys.replies, final.secrets, final.otp.db, i);
  }

  lemma ReplaysHandNothing(replies: seq<I.Reply>, secrets: seq<Option<Secret>>, db: O.Db, i: nat)
    requires SecretsRecorded(replies, secrets, db) && i < |replies| && replies[i].replayed
    ensures secrets[i] == None
  {
  }

  /** No code and no token is ever handed out twice, and what is handed out belongs to the answer it
      goes with. */
  lemma SecretsAreHandedOnce(locks: Locks, clock: int, actions: seq<Action>, i: nat, j: nat)
    requires var s := Run(locks, Empty(clock), actions); i < j < |s.secrets| && s.secrets[i].Some?
    ensures var s := Run(locks, Empty(clock), actions);
            && s.secrets[i] != s.secrets[j]
            && i < |s.keys.replies| && SecretFits(s.keys.replies[i], s.secrets[i].value, s.otp.db)
  {
    ReachableIsRecorded(locks, clock, actions);
  }

  // ---------------------------------------------------------------- the limits hold inside the flows

  /** The hourly cap, for codes issued through the flows and outside them together. */
  lemma HourlyCapHoldsInFlows(locks: Locks, clock: int, actions: seq<Action>, email: O.Email, end: int, cap: nat)
    requires var issued := Run(locks, Empty(clock), actions).otp.db.issued;
             OtpSafety.ExpiryOnlyLowered(issued, email) && OtpSafety.CapAtMost(issued, email, cap)
    ensures |OtpSafety.InHour(Run(locks, Empty(clock), actions).otp.db.issued, email, end)| <= cap
  {
    RunsAreRuns(locks, Empty(clock), actions);
    OtpSafety.HourlyCapHolds(locks.email, OtpTrace(locks, Empty(clock), actions), email, end, cap);
  }

  // ---------------------------------------------------------------- the flows as one session runs them

  /** What `verifyLoginOtp` answers. Every refusal is the same one. */
  datatype LoginAnswer = NotValid | LoggedIn(session: O.SessionId, token: Option<O.SessionId>)

  /** The request that a flow makes of the wrapper: keyed by the account its lookup found. */
  function RequestOf(users: map<O.Email, O.User>, email: O.Email, key: nat, endpoint: nat, hash: I.Hash): I.Request
    requires email in users
  {
    I.Request(I.Slot(users[email].id, key), endpoint, hash)
  }

  /** An active account is behind the email, and no call with its key is in flight. */
  predicate Admitted(locks: Locks, keys: I.State, users: map<O.Email, O.User>, t: TxId, email: O.Email, key: nat) {
    O.ActiveEmail(users, email) && I.LockFree(locks.slot, keys, t, I.Slot(users[email].id, key))
  }

  /** Its key has a live row. */
  ghost predicate KeyLive(keys: I.State, users: map<O.Email, O.User>, email: O.Email, key: nat)
    requires email in users
  {
    IS.Live(keys, I.Slot(users[email].id, key), keys.clock)
  }

  function StoredUnder(keys: I.State, users: map<O.Email, O.User>, email: O.Email, key: nat): I.KeyRow
    requires email in users && I.Slot(users[email].id, key) in keys.rows
  {
    keys.rows[I.Slot(users[email].id, key)]
  }

  /** The live row is that of this very request. */
  ghost predicate KeyAnswers(keys: I.State, users: map<O.Email, O.User>, email: O.Email, key: nat, endpoint: nat, hash: I.Hash)
    requires email in users
  {
    && KeyLive(keys, users, email, key)
    && IS.SameRequest(StoredUnder(keys, users, email, key), RequestOf(users, email, key, endpoint, hash))
  }

  /** What a verification committed: the code and its session together, or an attempt counted. */
  predicate Verified(before: O.Db, after: O.Db, attempt: O.Attempt, matched: bool, sessionId: O.SessionId, at: int, lifetime: int) {
    if matched then
      && attempt.email in before.users && |after.logins| == |before.logins| + 1
      && OtpStore.LoggedInWith(before, after, attempt, after.logins[|before.logins|].otp, sessionId,
                               O.Session(before.users[attempt.email].id, at, at + lifetime))
    else OtpStore.GuessedWrong(before, after, attempt)
  }

  /** What the lookup and the claim come to. */
  datatype Entry = Absorbed | Replayed(stored: I.Response) | Claimed

  class Flows {
    const keys: IS.KeyTable
    const store: OtpStore.Store

    constructor (keys: IS.KeyTable, store: OtpStore.Store)
      ensures this.keys == keys && this.store == store
    {
      this.keys, this.store := keys, store;
    }

    /** One more run under a key, with the row it left: stored at the wrapper's instant. */
    predicate Ran(request: I.Request, ttl: int, result: Persisted, rows: map<I.Slot, I.KeyRow>, effects: seq<I.Effect>)
      reads keys
    {
      var effect := I.Effect(request.slot, request.endpoint, request.hash, Encode(result), keys.latest, keys.clock + ttl);
      keys.effects == effects + [effect] && keys.rows == rows[request.slot := I.RowOf(effect)]
    }

    /** The lookup and the claim: absorbed without a trace, answered by a replay, or leave to run. */
    method Enter(locks: Locks, t: TxId, email: O.Email, key: nat, endpoint: nat, hash: I.Hash, ttl: int) returns (entry: Entry)
      requires I.Inv(locks.slot, keys.Model()) && t !in keys.txs
      modifies keys
      ensures var before := old(keys.Model());
              var admitted := Admitted(locks, before, store.users, t, email, key);
              && (entry.Claimed? <==> admitted && !KeyLive(before, store.users, email, key))
              && (entry.Replayed? <==> admitted && KeyAnswers(before, store.users, email, key, endpoint, hash))
              && (entry.Replayed? ==> StoredUnder(before, store.users, email, key).response == Some(entry.stored))
              && (entry.Claimed? ==>
                   keys.txs == before.txs[t := I.Tx(RequestOf(store.users, email, key, endpoint, hash), keys.clock,
                                                    I.Claimed(keys.latest, keys.clock + ttl))])
              && (!entry.Claimed? ==> keys.txs == before.txs)
              && (entry.Absorbed? ==> keys.replies == before.replies)
      ensures keys.rows == old(keys.rows) && keys.effects == old(keys.effects) && keys.clock == old(keys.clock) && keys.latest == old(keys.latest)
    {
      if !O.ActiveEmail(store.users, email) {
        return Absorbed;
      }
      var request := RequestOf(store.users, email, key, endpoint, hash);
      IS.PutAndDrop(keys.Model(), t, I.Tx(request, keys.clock, I.Started));
      var claim := keys.ClaimOrReplay(locks.slot, t, request, ttl);
      if claim.Failed? {
        return Absorbed;
      }
      if claim.result == None {
        return Claimed;
      }
      IS.PutAndDrop(old(keys.Model()), t, keys.txs[t]);
      keys.CommitTransaction(locks.slot, t);
      return Replayed(claim.result.value);
    }

    /** The session holds a fresh claim. */
    predicate Holds(t: TxId, request: I.Request, ttl: int)
      reads keys
    {
      t in keys.txs && keys.txs[t] == I.Tx(request, keys.clock, I.Claimed(keys.latest, keys.clock + ttl))
    }

    /** The command's response, stored and committed. */
    method Respond(locks: Locks, t: TxId, request: I.Request, ttl: int, response: Persisted)
      requires Holds(t, request, ttl)
      modifies keys
      ensures Ran(request, ttl, response, old(keys.rows), old(keys.effects)) && keys.txs == old(keys.txs) - {t}
    {
      var _ := keys.RunCommand(locks.slot, t, Some(Encode(response)));
    }

    /** The command threw: the claim is rolled back. */
    method GiveUp(locks: Locks, t: TxId, request: I.Request, ttl: int)
      requires Holds(t, request, ttl)
      modifies keys
      ensures keys.rows == old(keys.rows) && keys.effects == old(keys.effects) && keys.txs == old(keys.txs) - {t}
    {
      var _ := keys.RunCommand(locks.slot, t, None);
    }

    /** A code issued under a claim, with its response; a limit rolls the claim back. */
    method IssueUnderClaim(locks: Locks, t: TxId, request: I.Request, ttl: int, email: O.Email, at: int, limits: O.Limits,
                           id: O.OtpId, codeHash: O.CodeHash)
      returns (r: Progress<Option<O.OtpId>, ()>)
      requires Holds(t, request, ttl) && t !in store.txs && O.FreshCode(store.Model(), t, id) && O.ActiveEmail(store.users, email)
      modifies keys, store
      ensures var codes, otp := old(store.codes), old(store.Model());
              var unlocked := O.EmailFree(locks.email, otp, t, email) && O.CodesFree(otp, t, O.Unconsumed(codes, email));
              && (r.Waiting? ==> !unlocked)
              && (r.Done? && r.result.Some? <==> unlocked && !O.TooSoon(codes, email, at, limits) && !O.OverCap(codes, email, at, limits))
      ensures r.Done? && r.result.Some? ==>
                && r.result == Some(id) && store.Replaces(old(store.codes), id, O.Code(email, codeHash, at + limits.expiry, None, 0), at)
                && store.issued == old(store.issued) + [O.Issued(email, id, at, limits)]
                && Ran(request, ttl, Issued, old(keys.rows), old(keys.effects))
      ensures !(r.Done? && r.result.Some?) ==>
                && store.Model().db == old(store.Model().db) && keys.rows == old(keys.rows) && keys.effects == old(keys.effects)
      ensures !r.Failed? && (r.Done? ==> keys.txs == old(keys.txs) - {t} && store.txs == old(store.txs))
    {
      var otp := store.GenerateOtp(locks.email, t, email, at, limits, id, codeHash);
      if otp.Waiting? {
        return Waiting;
      }
      if otp.Failed? {
        GiveUp(locks, t, request, ttl);
        return Done(None);
      }
      Respond(locks, t, request, ttl, Issued);
      return Done(Some(otp.result));
    }

    /** A verification under a claim: the session of a match, and the response either way. */
    method VerifyUnderClaim(locks: Locks, t: TxId, request: I.Request, ttl: int, attempt: O.Attempt,
                            sessionId: O.SessionId, sessionAt: int, lifetime: int)
      returns (r: Progress<Option<O.SessionId>, ()>)
      requires Holds(t, request, ttl) && t !in store.txs && attempt.login && O.FreshSession(store.Model(), t, sessionId)
      modifies keys, store
      ensures r.Waiting? <==> !O.CodesFree(old(store.Model()), t, O.Candidates(old(store.codes), attempt))
      ensures r.Done? ==>
                var matched := OtpStore.Matched(old(store.users), old(store.codes), attempt);
                && r.result == (if matched then Some(sessionId) else None)
                && Ran(request, ttl, if matched then Valid(sessionId) else Invalid, old(keys.rows), old(keys.effects))
                && Verified(old(store.Model().db), store.Model().db, attempt, matched, sessionId, sessionAt, lifetime)
      ensures r.Waiting? ==> store.Model().db == old(store.Model().db) && keys.rows == old(keys.rows) && keys.effects == old(keys.effects)
      ensures !r.Failed? && (r.Done? ==> keys.txs == old(keys.txs) - {t} && store.txs == old(store.txs))
    {
      var session := store.VerifyAndIssue(locks.email, t, attempt, sessionId, sessionAt, lifetime);
      if session.Waiting? {
        return Waiting;
      }
      Respond(locks, t, request, ttl, if session.result.Some? then Valid(session.result.value) else Invalid);
      return Done(session.result);
    }

    /** `requestLoginOtp`: a code to deliver exactly when the account is active, the key is neither in
        flight nor live, and no limit binds; otherwise nothing is written and the answer does not tell
        why. */
    method RequestLoginOtp(locks: Locks, t: TxId, key: nat, endpoint: nat, requestHash: I.Hash, ttl: int, email: O.Email, at: int,
                           limits: O.Limits, id: O.OtpId, codeHash: O.CodeHash)
      returns (r: Progress<Option<O.OtpId>, ()>)
      requires I.Inv(locks.slot, keys.Model()) && t !in keys.txs && t !in store.txs && O.FreshCode(store.Model(), t, id)
      modifies keys, store
      ensures var users, codes, otp := old(store.users), old(store.codes), old(store.Model());
              var claimed := Admitted(locks, old(keys.Model()), users, t, email, key) && !KeyLive(old(keys.Model()), users, email, key);
              var unlocked := O.EmailFree(locks.email, otp, t, email) && O.CodesFree(otp, t, O.Unconsumed(codes, email));
              && (r.Waiting? ==> claimed && !unlocked)
              && (r.Done? && r.result.Some? <==>
                    claimed && unlocked && !O.TooSoon(codes, email, at, limits) && !O.OverCap(codes, email, at, limits))
      ensures r.Done? && r.result.Some? ==>
                && r.result == Some(id) && store.Replaces(old(store.codes), id, O.Code(email, codeHash, at + limits.expiry, None, 0), at)
                && store.issued == old(store.issued) + [O.Issued(email, id, at, limits)]
                && Ran(RequestOf(old(store.users), email, key, endpoint, requestHash), ttl, Issued, old(keys.rows), old(keys.effects))
      ensures !(r.Done? && r.result.Some?) ==>
                && store.Model().db == old(store.Model().db) && keys.rows == old(keys.rows) && keys.effects == old(keys.effects)
      ensures !r.Failed? && (r.Done? ==> keys.txs == old(keys.txs) && store.txs == old(store.txs))
    {
      var entry := Enter(locks, t, email, key, endpoint, requestHash, ttl);
      if !entry.Claimed? {
        return Done(None);
      }
      IS.PutAndDrop(old(keys.Model()), t, keys.txs[t]);
      r := IssueUnderClaim(locks, t, RequestOf(store.users, email, key, endpoint, requestHash), ttl, email, at, limits, id, codeHash);
    }

    /** `verifyLoginOtp`: refused like an unknown email, answered by a replay of the stored response
        without its token, or verified in one transaction that stores code, session and response. */
    method VerifyLoginOtp(locks: Locks, t: TxId, key: nat, endpoint: nat, requestHash: I.Hash, ttl: int, attempt: O.Attempt,
                          sessionId: O.SessionId, sessionAt: int, lifetime: int)
      returns (r: Progress<LoginAnswer, ()>)
      requires I.Inv(locks.slot, keys.Model()) && t !in keys.txs && t !in store.txs
      requires attempt.login && O.FreshSession(store.Model(), t, sessionId)
      modifies keys, store
      ensures var keyTable, users, email := old(keys.Model()), old(store.users), attempt.email;
              var admitted := Admitted(locks, keyTable, users, t, email, key);
              if admitted && !KeyLive(keyTable, users, email, key) then
                var request, matched := RequestOf(users, email, key, endpoint, requestHash), OtpStore.Matched(users, old(store.codes), attempt);
                && (r.Waiting? <==> !O.CodesFree(old(store.Model()), t, O.Candidates(old(store.codes), attempt)))
                && (r.Done? ==>
                     && r.result == (if matched then LoggedIn(sessionId, Some(sessionId)) else NotValid)
                     && Ran(request, ttl, if matched then Valid(sessionId) else Invalid, old(keys.rows), old(keys.effects))
                     && Verified(old(store.Model().db), store.Model().db, attempt, matched, sessionId, sessionAt, lifetime))
              else
                && r.Done? && store.Model() == old(store.Model()) && keys.rows == old(keys.rows) && keys.effects == old(keys.effects)
                && if admitted && KeyAnswers(keyTable, users, email, key, endpoint, requestHash)
                   then forall x, token :: r.result == LoggedIn(x, token) <==>
                          token == None && StoredUnder(keyTable, users, email, key).response == Some(Encode(Valid(x)))
                   else r.result == NotValid && keys.Model() == keyTable
      ensures r.Waiting? ==> store.Model().db == old(store.Model().db) && keys.rows == old(keys.rows) && keys.effects == old(keys.effects)
      ensures !r.Failed? && (r.Done? ==> keys.txs == old(keys.txs) && store.txs == old(store.txs))
    {
      var entry := Enter(locks, t, attempt.email, key, endpoint, requestHash, ttl);
      if entry.Absorbed? {
        return Done(NotValid);
      }
      if entry.Replayed? {
        return Done(if entry.stored >= 0 then LoggedIn(entry.stored, None) else NotValid);
      }
      IS.PutAndDrop(old(keys.Model()), t, keys.txs[t]);
      var request := RequestOf(store.users, attempt.email, key, endpoint, requestHash);
      var session :- VerifyUnderClaim(locks, t, request, ttl, attempt, sessionId, sessionAt, lifetime);
      return Done(if session.Some? then LoggedIn(session.value, session) else NotValid);
    }
  }
}
