/** The login flows: one-time codes inside the idempotent wrapper. A state pairs the two protocols; a
    session's transaction runs in both, and its commit is one commit of both. */
module Login {
  import opened Outcomes
  import I = Idempotency
  import O = Otp
  import OI = OtpInvariant

  type TxId = nat

  /** What a flow persists as its response: nothing secret. */
  datatype Persisted = Issued | Invalid | Valid(session: O.SessionId)

  /** What the executing call, and only it, hands to its caller. */
  datatype Secret = CodeOf(otp: O.OtpId) | TokenOf(session: O.SessionId)

  datatype State = State(keys: I.State, otp: O.State, secrets: seq<Option<Secret>>)

  datatype Locks = Locks(slot: I.LockOf, email: O.LockOf)

  datatype Action =
    | Wrapper(wrapping: I.Action)
    | Command(wrapped: O.Action)
    | Return(t: TxId)
    | Commit(t: TxId)
    | Abort(t: TxId)
    | Outside(outside: O.Action)

  /** The stored JSON of a response, as the wrapper carries it. */
  function Encode(p: Persisted): I.Response {
    match p case Issued => -2 case Invalid => -1 case Valid(session) => session
  }

  function ResultOf(tx: O.Tx): Persisted {
    if tx.GenIssued? then Issued else if tx.VerLoggedIn? then Valid(tx.sessionId) else Invalid
  }

  function SecretOf(tx: O.Tx): Option<Secret> {
    if tx.GenIssued? then Some(CodeOf(tx.id)) else if tx.VerLoggedIn? then Some(TokenOf(tx.sessionId)) else None
  }

  /** The wrapped command has nothing left to do but return. */
  predicate Finished(db: O.Db, tx: O.Tx) { O.Published(db, tx).Some? }

  predicate Runs(s: State, t: TxId) { t in s.keys.txs && s.keys.txs[t].phase.Claimed? }

  predicate OfSession(a: O.Action) { !a.SetUser? }

  /** The wrapper's own statements; it starts a session that runs nothing yet. */
  predicate WrapperMay(s: State, a: I.Action) {
    && !a.Execute? && !a.Commit? && !a.Abort?
    && (a.Begin? ==> a.t !in s.otp.txs)
  }

  /** The command's statements, while its session holds the claim. */
  predicate CommandMay(s: State, a: O.Action) {
    && OfSession(a) && !a.Commit? && !a.Abort? && Runs(s, a.t)
    && (a.BeginVerify? ==> a.attempt.login)
  }

  /** Codes issued and verified outside the login flows, and changes to users. */
  predicate OutsideMay(s: State, a: O.Action) {
    a.SetUser? || (a.t !in s.keys.txs && (a.BeginVerify? ==> !a.attempt.login))
  }

  predicate Completes(s: State, t: TxId) {
    t in s.keys.txs && s.keys.txs[t].phase.Stored? && t in s.otp.txs && Finished(s.otp.db, s.otp.txs[t])
  }

  predicate Replays(s: State, t: TxId) { t in s.keys.txs && s.keys.txs[t].phase.Replaying? }

  /** What an action does to the key table; a command that throws rolls the wrapper back. */
  function KeyAction(locks: Locks, s: State, a: Action): Option<I.Action> {
    match a
    case Wrapper(k) => if WrapperMay(s, k) then Some(k) else None
    case Command(o) => if CommandMay(s, o) && O.Try(locks.email, s.otp, o).Refused? then Some(I.Abort(o.t)) else None
    case Return(t) =>
      if Runs(s, t) && t in s.otp.txs && Finished(s.otp.db, s.otp.txs[t])
      then Some(I.Execute(t, Some(Encode(ResultOf(s.otp.txs[t])))))
      else None
    case Commit(t) => if Completes(s, t) || Replays(s, t) then Some(I.Commit(t)) else None
    case Abort(t) => Some(I.Abort(t))
    case Outside(_) => None
  }

  /** What it does to the codes and sessions. */
  function OtpAction(s: State, a: Action): Option<O.Action> {
    match a
    case Command(o) => if CommandMay(s, o) then Some(o) else None
    case Commit(t) => if Completes(s, t) then Some(O.Commit(t)) else None
    case Abort(t) => if t in s.keys.txs then Some(O.Abort(t)) else None
    case Outside(o) => if OutsideMay(s, o) then Some(o) else None
    case _ => None
  }

  /** What its caller is handed, one entry per answer. */
  function Handed(s: State, a: Action): seq<Option<Secret>> {
    if a.Commit? && Completes(s, a.t) then [SecretOf(s.otp.txs[a.t])]
    else if a.Commit? && Replays(s, a.t) then [None]
    else []
  }

  function Step(locks: Locks, s: State, a: Action): State {
    State(match KeyAction(locks, s, a) case None => s.keys case Some(k) => I.Step(locks.slot, s.keys, k),
          match OtpAction(s, a) case None => s.otp case Some(o) => O.Step(locks.email, s.otp, o),
          s.secrets + Handed(s, a))
  }

  function Run(locks: Locks, s: State, actions: seq<Action>): State
    decreases |actions|
  {
    if actions == [] then s else Run(locks, Step(locks, s, actions[0]), actions[1..])
  }

  function Empty(clock: int): State { State(I.Empty(clock), O.EMPTY, []) }

  // ---------------------------------------------------------------- each protocol is still itself

  function Listed<T>(o: Option<T>): seq<T> { match o case None => [] case Some(x) => [x] }

  function KeyTrace(locks: Locks, s: State, actions: seq<Action>): seq<I.Action>
    decreases |actions|
  {
    if actions == [] then []
    else Listed(KeyAction(locks, s, actions[0])) + KeyTrace(locks, Step(locks, s, actions[0]), actions[1..])
  }

  function OtpTrace(locks: Locks, s: State, actions: seq<Action>): seq<O.Action>
    decreases |actions|
  {
    if actions == [] then []
    else Listed(OtpAction(s, actions[0])) + OtpTrace(locks, Step(locks, s, actions[0]), actions[1..])
  }

  /** A run of the flows is, seen from either side, a run of that side alone: so everything proved of
      the key table and of the codes holds here. */
  lemma {:induction false} RunsAreRuns(locks: Locks, s: State, actions: seq<Action>)
    ensures Run(locks, s, actions).keys == I.Run(locks.slot, s.keys, KeyTrace(locks, s, actions))
    ensures Run(locks, s, actions).otp == O.Run(locks.email, s.otp, OtpTrace(locks, s, actions))
    decreases |actions|
  {
    if actions != [] {
      var a, rest, next := actions[0], actions[1..], Step(locks, s, actions[0]);
      RunsAreRuns(locks, next, rest);
      match KeyAction(locks, s, a) {
        case None => assert [] + KeyTrace(locks, next, rest) == KeyTrace(locks, next, rest);
        case Some(k) => assert ([k] + KeyTrace(locks, next, rest))[1..] == KeyTrace(locks, next, rest);
      }
      match OtpAction(s, a) {
        case None => assert [] + OtpTrace(locks, next, rest) == OtpTrace(locks, next, rest);
        case Some(o) => assert ([o] + OtpTrace(locks, next, rest))[1..] == OtpTrace(locks, next, rest);
      }
    }
  }

  // ---------------------------------------------------------------- the coupling

  predicate IsVerifying(tx: O.Tx) { tx.VerSeen? || tx.VerRefused? || tx.VerFailed? || tx.VerMatched? || tx.VerLoggedIn? }

  predicate ForLogin(tx: O.Tx, login: bool) { IsVerifying(tx) ==> tx.attempt.login == login }

  /** A session that only replays, or has not claimed yet, has touched no code; one whose response is
      known has finished the command that gave it. */
  predicate SessionCoupled(phase: I.Phase, command: Option<O.Tx>, db: O.Db) {
    match phase
    case Claimed(_, _) => command.Some? ==> ForLogin(command.value, true)
    case Executed(_, _, result) => command.Some? && Answered(command.value, db, result)
    case Stored(_, _, result) => command.Some? && Answered(command.value, db, result)
    case _ => command == None
  }

  predicate Answered(tx: O.Tx, db: O.Db, result: I.Response) {
    ForLogin(tx, true) && Finished(db, tx) && result == Encode(ResultOf(tx))
  }

  function Lookup(txs: map<TxId, O.Tx>, t: TxId): Option<O.Tx> { if t in txs then Some(txs[t]) else None }

  predicate Coupled(s: State) {
    && (forall t | t in s.keys.txs :: SessionCoupled(s.keys.txs[t].phase, Lookup(s.otp.txs, t), s.otp.db))
    && (forall t | t in s.otp.txs && t !in s.keys.txs :: ForLogin(s.otp.txs[t], false))
  }

  /** The other sessions are where they were. */
  ghost predicate OthersStay(before: State, after: State, t: TxId) {
    && (forall u | u != t :: u in after.keys.txs <==> u in before.keys.txs)
    && (forall u | u != t :: u in after.otp.txs <==> u in before.otp.txs)
    && (forall u | u != t && u in before.keys.txs :: after.keys.txs[u] == before.keys.txs[u])
    && (forall u | u != t && u in before.otp.txs :: after.otp.txs[u] == before.otp.txs[u])
  }

  lemma FinishedIsAboutTheSession(before: O.Db, after: O.Db, tx: O.Tx)
    ensures Finished(before, tx) == Finished(after, tx)
  {
  }

  lemma CoupledFrame(before: State, after: State, t: TxId)
    requires Coupled(before) && OthersStay(before, after, t)
    requires t in after.keys.txs ==> SessionCoupled(after.keys.txs[t].phase, Lookup(after.otp.txs, t), after.otp.db)
    requires t in after.otp.txs && t !in after.keys.txs ==> ForLogin(after.otp.txs[t], false)
    ensures Coupled(after)
  {
    forall u | u in after.keys.txs ensures SessionCoupled(after.keys.txs[u].phase, Lookup(after.otp.txs, u), after.otp.db) {
      if u != t && u in after.otp.txs { FinishedIsAboutTheSession(before.otp.db, after.otp.db, after.otp.txs[u]); }
    }
  }

  lemma WrapperKeepsCoupled(locks: Locks, s: State, k: I.Action)
    requires Coupled(s) && WrapperMay(s, k)
    ensures Coupled(Step(locks, s, Wrapper(k)))
  {
    var next := Step(locks, s, Wrapper(k));
    if k.Tick? || k.Purge? {
      assert next.keys.txs == s.keys.txs;
    } else {
      CoupledFrame(s, next, k.t);
    }
  }

  /** A statement of a command leaves its session verifying for what it was verifying for. */
  lemma CommandKeepsPurpose(locks: Locks, s: O.State, a: O.Action, login: bool)
    requires OfSession(a) && (a.t in s.txs ==> ForLogin(s.txs[a.t], login)) && (a.BeginVerify? ==> a.attempt.login == login)
    ensures var next := O.Step(locks.email, s, a);
            a.t in next.txs ==> ForLogin(next.txs[a.t], login)
    ensures forall u | u != a.t :: u in O.Step(locks.email, s, a).txs <==> u in s.txs
    ensures forall u | u != a.t && u in s.txs :: O.Step(locks.email, s, a).txs[u] == s.txs[u]
    ensures O.Try(locks.email, s, a).Refused? ==> a.t !in O.Step(locks.email, s, a).txs
  {
  }

  lemma CommandKeepsCoupled(locks: Locks, s: State, o: O.Action)
    requires Coupled(s) && CommandMay(s, o)
    ensures Coupled(Step(locks, s, Command(o)))
  {
    CommandKeepsPurpose(locks, s.otp, o, true);
    if O.Try(locks.email, s.otp, o).Refused? {
      ThrownCommand(locks, s, o);
    } else {
      RunningCommand(locks, s, o);
    }
    CoupledFrame(s, Step(locks, s, Command(o)), o.t);
  }

  /** A command that throws ends its session on both sides. */
  lemma ThrownCommand(locks: Locks, s: State, o: O.Action)
    requires CommandMay(s, o) && O.Try(locks.email, s.otp, o).Refused?
    ensures var next := Step(locks, s, Command(o));
            next.keys.txs == s.keys.txs - {o.t} && next.otp.txs == s.otp.txs - {o.t} && next.otp.db == s.otp.db
  {
  }

  lemma RunningCommand(locks: Locks, s: State, o: O.Action)
    requires CommandMay(s, o) && !O.Try(locks.email, s.otp, o).Refused?
    ensures Step(locks, s, Command(o)).keys == s.keys && Step(locks, s, Command(o)).otp == O.Step(locks.email, s.otp, o)
  {
  }

  lemma OutsideKeepsCoupled(locks: Locks, s: State, o: O.Action)
    requires Coupled(s) && OutsideMay(s, o)
    ensures Coupled(Step(locks, s, Outside(o)))
  {
    var next := Step(locks, s, Outside(o));
    if o.SetUser? {
      forall t | t in next.keys.txs ensures SessionCoupled(next.keys.txs[t].phase, Lookup(next.otp.txs, t), next.otp.db) {
        if t in s.otp.txs { FinishedIsAboutTheSession(s.otp.db, next.otp.db, s.otp.txs[t]); }
      }
    } else {
      CommandKeepsPurpose(locks, s.otp, o, false);
      CoupledFrame(s, next, o.t);
    }
  }

  lemma ReturnKeepsCoupled(locks: Locks, s: State, t: TxId)
    requires Coupled(s)
    ensures Coupled(Step(locks, s, Return(t)))
  {
    CoupledFrame(s, Step(locks, s, Return(t)), t);
  }

  lemma EndKeepsCoupled(locks: Locks, s: State, a: Action)
    requires Coupled(s) && (a.Commit? || a.Abort?)
    ensures Coupled(Step(locks, s, a))
  {
    CoupledFrame(s, Step(locks, s, a), a.t);
  }

  lemma StepKeepsCoupled(locks: Locks, s: State, a: Action)
    requires Coupled(s)
    ensures Coupled(Step(locks, s, a))
  {
    match a {
      case Wrapper(k) => if WrapperMay(s, k) { WrapperKeepsCoupled(locks, s, k); }
      case Command(o) => if CommandMay(s, o) { CommandKeepsCoupled(locks, s, o); }
      case Outside(o) => if OutsideMay(s, o) { OutsideKeepsCoupled(locks, s, o); }
      case Return(t) => ReturnKeepsCoupled(locks, s, t);
      case _ => EndKeepsCoupled(locks, s, a);
    }
  }

  // ---------------------------------------------------------------- what the histories say

  /** The runs under a key that answered with a session are exactly the logins, each once. */
  predicate EffectsRecorded(effects: seq<I.Effect>, db: O.Db) {
    && (forall x {:trigger HasRun(effects, x)} | x in db.sessions :: HasRun(effects, x))
    && (forall k | 0 <= k < |effects| && effects[k].result >= 0 :: effects[k].result in db.sessions)
    && (forall j, k | 0 <= j < k < |effects| && effects[j].result >= 0 :: effects[j].result != effects[k].result)
  }

  predicate HasRun(effects: seq<I.Effect>, x: I.Response) { exists k :: 0 <= k < |effects| && effects[k].result == x }

  /** A secret is handed out with the answer of the run that made it, and no secret twice. */
  predicate SecretsRecorded(replies: seq<I.Reply>, secrets: seq<Option<Secret>>, db: O.Db) {
    && |secrets| == |replies|
    && (forall i | 0 <= i < |secrets| && secrets[i].Some? :: SecretFits(replies[i], secrets[i].value, db))
    && (forall i, j | 0 <= i < j < |secrets| && secrets[i].Some? :: secrets[i] != secrets[j])
  }

  predicate SecretFits(reply: I.Reply, secret: Secret, db: O.Db) {
    && !reply.replayed
    && match secret
       case CodeOf(id) => id in db.codes && reply.result == Encode(Issued)
       case TokenOf(x) => x in db.sessions && reply.result == Encode(Valid(x))
  }

  ghost predicate Inv(locks: Locks, s: State) {
    && I.Inv(locks.slot, s.keys) && OI.Inv(locks.email, s.otp) && Coupled(s)
    && EffectsRecorded(s.keys.effects, s.otp.db) && SecretsRecorded(s.keys.replies, s.secrets, s.otp.db)
  }

  predicate Grows(before: O.Db, after: O.Db) {
    && before.codes.Keys <= after.codes.Keys && before.sessions.Keys <= after.sessions.Keys
  }

  lemma NoNewSession(effects: seq<I.Effect>, effect: I.Effect, before: O.Db, after: O.Db)
    requires EffectsRecorded(effects, before) && after.sessions.Keys == before.sessions.Keys && effect.result < 0
    ensures EffectsRecorded(effects + [effect], after) && EffectsRecorded(effects, after)
  {
    forall x | x in after.sessions ensures HasRun(effects, x) && HasRun(effects + [effect], x) {
      assert HasRun(effects, x);
      var k :| 0 <= k < |effects| && effects[k].result == x;
      assert (effects + [effect])[k].result == x;
    }
  }

  lemma NewSession(effects: seq<I.Effect>, effect: I.Effect, before: O.Db, after: O.Db, x: O.SessionId)
    requires EffectsRecorded(effects, before) && x !in before.sessions && effect.result == x
    requires after.sessions.Keys == before.sessions.Keys + {x}
    ensures EffectsRecorded(effects + [effect], after)
  {
    var longer := effects + [effect];
    assert longer[|effects|].result == x;
    forall y | y in after.sessions ensures HasRun(longer, y) {
      if y != x {
        assert HasRun(effects, y);
        var k :| 0 <= k < |effects| && effects[k].result == y;
        assert longer[k].result == y;
      }
    }
  }

  lemma OneMoreAnswer(replies: seq<I.Reply>, reply: I.Reply, secrets: seq<Option<Secret>>, secret: Option<Secret>, before: O.Db, after: O.Db)
    requires SecretsRecorded(replies, secrets, before) && Grows(before, after)
    requires secret.Some? ==> SecretFits(reply, secret.value, after) && !Known(secret.value, before)
    ensures SecretsRecorded(replies + [reply], secrets + [secret], after)
  {
  }

  predicate Known(secret: Secret, db: O.Db) {
    match secret case CodeOf(id) => id in db.codes case TokenOf(x) => x in db.sessions
  }

  lemma SecretsStay(replies: seq<I.Reply>, secrets: seq<Option<Secret>>, before: O.Db, after: O.Db)
    requires SecretsRecorded(replies, secrets, before) && Grows(before, after)
    ensures SecretsRecorded(replies, secrets, after)
  {
  }

  /** What a finished login command publishes, its result and its secret go together. */
  lemma FinishedCommand(db: O.Db, tx: O.Tx)
    requires OI.TxOk(db, tx) && ForLogin(tx, true) && Finished(db, tx)
    ensures var after, result := O.Published(db, tx).value, ResultOf(tx);
            && Grows(db, after)
            && (match result
                case Valid(x) => x !in db.sessions && after.sessions.Keys == db.sessions.Keys + {x}
                case _ => after.sessions.Keys == db.sessions.Keys)
            && match SecretOf(tx)
               case Some(CodeOf(id)) => result == Issued && id !in db.codes && id in after.codes
               case Some(TokenOf(x)) => result == Valid(x)
               case None => result == Invalid
  {
  }

  /** What an operation outside the flows publishes: no session. */
  lemma OutsideCommand(db: O.Db, tx: O.Tx)
    requires OI.TxOk(db, tx) && ForLogin(tx, false) && Finished(db, tx)
    ensures Grows(db, O.Published(db, tx).value) && O.Published(db, tx).value.sessions == db.sessions
  {
  }

  function ReplyOf(keys: I.State, t: TxId): I.Reply
    requires t in keys.txs && (keys.txs[t].phase.Stored? || keys.txs[t].phase.Replaying?)
  {
    var tx := keys.txs[t];
    I.Reply(tx.request, tx.began, tx.phase.result, tx.phase.Replaying?)
  }

  lemma CompletionPublishes(locks: Locks, s: State, t: TxId)
    requires Completes(s, t)
    ensures var next := Step(locks, s, Commit(t));
            && next.keys.effects == s.keys.effects + [I.EffectOf(s.keys.txs[t])]
            && next.keys.replies == s.keys.replies + [ReplyOf(s.keys, t)]
            && next.otp.db == O.Published(s.otp.db, s.otp.txs[t]).value
            && next.secrets == s.secrets + [SecretOf(s.otp.txs[t])]
  {
  }

  lemma ReplayPublishes(locks: Locks, s: State, t: TxId)
    requires Replays(s, t)
    ensures var next := Step(locks, s, Commit(t));
            && next.keys.effects == s.keys.effects && next.keys.rows == s.keys.rows && next.otp == s.otp
            && next.keys.replies == s.keys.replies + [ReplyOf(s.keys, t)] && next.secrets == s.secrets + [None]
  {
  }

  /** A completed command, as data: its effect, its answer and its secret. */
  lemma CompletionRecorded(effects: seq<I.Effect>, effect: I.Effect, replies: seq<I.Reply>, reply: I.Reply,
                           secrets: seq<Option<Secret>>, db: O.Db, tx: O.Tx)
    requires EffectsRecorded(effects, db) && SecretsRecorded(replies, secrets, db)
    requires OI.TxOk(db, tx) && ForLogin(tx, true) && Finished(db, tx)
    requires effect.result == Encode(ResultOf(tx)) && reply.result == effect.result && !reply.replayed
    ensures EffectsRecorded(effects + [effect], O.Published(db, tx).value)
    ensures SecretsRecorded(replies + [reply], secrets + [SecretOf(tx)], O.Published(db, tx).value)
  {
    var after := O.Published(db, tx).value;
    FinishedCommand(db, tx);
    match ResultOf(tx) {
      case Valid(x) => NewSession(effects, effect, db, after, x);
      case _ => NoNewSession(effects, effect, db, after);
    }
    OneMoreAnswer(replies, reply, secrets, SecretOf(tx), db, after);
  }

  lemma CompletionKeeps(locks: Locks, s: State, t: TxId)
    requires Inv(locks, s) && Completes(s, t)
    ensures var next := Step(locks, s, Commit(t));
            EffectsRecorded(next.keys.effects, next.otp.db) && SecretsRecorded(next.keys.replies, next.secrets, next.otp.db)
  {
    var tx := s.otp.txs[t];
    assert OI.TxOk(s.otp.db, tx);
    CompletionPublishes(locks, s, t);
    CompletionRecorded(s.keys.effects, I.EffectOf(s.keys.txs[t]), s.keys.replies, ReplyOf(s.keys, t), s.secrets, s.otp.db, tx);
  }

  lemma ReplayKeeps(locks: Locks, s: State, t: TxId)
    requires Inv(locks, s) && Replays(s, t)
    ensures var next := Step(locks, s, Commit(t));
            EffectsRecorded(next.keys.effects, next.otp.db) && SecretsRecorded(next.keys.replies, next.secrets, next.otp.db)
  {
    ReplayPublishes(locks, s, t);
    OneMoreAnswer(s.keys.replies, ReplyOf(s.keys, t), s.secrets, None, s.otp.db, s.otp.db);
  }

  /** An operation outside the flows adds codes at most. */
  lemma OutsidePublishes(locks: Locks, s: State, o: O.Action)
    requires OI.Inv(locks.email, s.otp) && Coupled(s) && OutsideMay(s, o)
    ensures var next := Step(locks, s, Outside(o));
            && next.keys == s.keys && next.secrets == s.secrets
            && Grows(s.otp.db, next.otp.db) && next.otp.db.sessions == s.otp.db.sessions
  {
    assert s.secrets + [] == s.secrets;
    if o.Commit? && o.t in s.otp.txs && Finished(s.otp.db, s.otp.txs[o.t]) {
      assert OI.TxOk(s.otp.db, s.otp.txs[o.t]);
      OutsideCommand(s.otp.db, s.otp.txs[o.t]);
    }
  }

  lemma OutsideKeeps(locks: Locks, s: State, o: O.Action)
    requires Inv(locks, s) && OutsideMay(s, o)
    ensures var next := Step(locks, s, Outside(o));
            EffectsRecorded(next.keys.effects, next.otp.db) && SecretsRecorded(next.keys.replies, next.secrets, next.otp.db)
  {
    OutsidePublishes(locks, s, o);
    SecretsStay(s.keys.replies, s.secrets, s.otp.db, Step(locks, s, Outside(o)).otp.db);
  }

  /** Nothing else publishes anything. */
  lemma QuietStep(locks: Locks, s: State, a: Action)
    requires !a.Outside? && !(a.Commit? && (Completes(s, a.t) || Replays(s, a.t)))
    ensures var next := Step(locks, s, a);
            && next.keys.effects == s.keys.effects && next.keys.replies == s.keys.replies
            && next.secrets == s.secrets && next.otp.db == s.otp.db
  {
    assert s.secrets + [] == s.secrets;
  }

  lemma StepKeeps(locks: Locks, s: State, a: Action)
    requires Inv(locks, s)
    ensures Inv(locks, Step(locks, s, a))
  {
    StepKeepsCoupled(locks, s, a);
    match KeyAction(locks, s, a) { case None => case Some(k) => I.StepKeeps(locks.slot, s.keys, k); }
    match OtpAction(s, a) { case None => case Some(o) => OI.StepKeeps(locks.email, s.otp, o); }
    if a.Outside? {
      if OutsideMay(s, a.outside) { OutsideKeeps(locks, s, a.outside); }
    } else if a.Commit? && Completes(s, a.t) {
      CompletionKeeps(locks, s, a.t);
    } else if a.Commit? && Replays(s, a.t) {
      ReplayKeeps(locks, s, a.t);
    } else {
      QuietStep(locks, s, a);
    }
  }

  lemma {:induction false} RunKeeps(locks: Locks, s: State, actions: seq<Action>)
    requires Inv(locks, s)
    ensures Inv(locks, Run(locks, s, actions))
    decreases |actions|
  {
    if actions != [] {
      StepKeeps(locks, s, actions[0]);
      RunKeeps(locks, Step(locks, s, actions[0]), actions[1..]);
    }
  }
}
