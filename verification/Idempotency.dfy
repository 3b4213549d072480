/** The idempotent transaction wrapper as a protocol between concurrent sessions over one table of
    keys: try the advisory lock, claim the key row, replay or refuse, else run the command and store
    its response, all in one transaction. `now()` is the instant the transaction began, read from a
    clock that moves either way; `latest` is the latest instant it has shown. */
module Idempotency {
  import opened Outcomes

  type TxId = nat
  type Hash = nat
  type Response = int

  /** The primary key of the table. */
  datatype Slot = Slot(user: nat, key: nat)

  datatype Request = Request(slot: Slot, endpoint: nat, hash: Hash)

  datatype KeyRow = KeyRow(endpoint: nat, hash: Hash, response: Option<Response>, expiresAt: int)

  /** One committed run of a wrapped command. `claimedAt` is the latest instant the clock had shown when
      the key was claimed. */
  datatype Effect = Effect(slot: Slot, endpoint: nat, hash: Hash, result: Response, claimedAt: int, expiresAt: int)

  /** One committed answer to a caller. */
  datatype Reply = Reply(request: Request, began: int, result: Response, replayed: bool)

  datatype Phase =
    | Started
    | LockHeld
    | Claimed(claimedAt: int, expiresAt: int)
    | Existing
    | Executed(claimedAt: int, expiresAt: int, result: Response)
    | Stored(claimedAt: int, expiresAt: int, result: Response)
    | Replaying(result: Response)

  datatype Tx = Tx(request: Request, began: int, phase: Phase)

  datatype State = State(rows: map<Slot, KeyRow>, effects: seq<Effect>, replies: seq<Reply>, clock: int, latest: int,
                         txs: map<TxId, Tx>)

  /** Why a call ended without an answer: every branch of the wrapper that throws, kept apart. */
  datatype Refusal = LockTaken | NoRow | OtherRequest | NoResponseYet | CommandFailed

  /** The two reasons the wrapper reports to its caller. */
  datatype Conflict = Mismatch | InFlight

  function ConflictOf(refusal: Refusal): Option<Conflict> {
    match refusal
    case LockTaken => Some(InFlight)
    case NoRow => Some(Mismatch)
    case OtherRequest => Some(Mismatch)
    case NoResponseYet => Some(InFlight)
    case CommandFailed => None
  }

  datatype Action =
    | Begin(t: TxId, request: Request)
    | TryLock(t: TxId)
    | Claim(t: TxId, ttl: int)
    | Look(t: TxId)
    | Execute(t: TxId, outcome: Option<Response>)
    | Store(t: TxId)
    | Commit(t: TxId)
    | Abort(t: TxId)
    | Tick(now: int)
    | Purge(began: int)

  datatype Outcome = Waits | Refused(refusal: Refusal) | Moves(next: State)

  /** The hash from a slot to its advisory lock; two slots may share one. */
  type LockOf = Slot -> int

  predicate HoldsLock(tx: Tx) { !tx.phase.Started? }

  /** `on conflict do update` locks the conflicting row even when its `where` is false. */
  predicate HoldsRow(tx: Tx) { !tx.phase.Started? && !tx.phase.LockHeld? }

  predicate LockFree(lockOf: LockOf, s: State, t: TxId, slot: Slot) {
    forall u | u in s.txs && u != t && HoldsLock(s.txs[u]) :: lockOf(s.txs[u].request.slot) != lockOf(slot)
  }

  predicate RowFree(s: State, t: TxId, slot: Slot) {
    forall u | u in s.txs && u != t && HoldsRow(s.txs[u]) :: s.txs[u].request.slot != slot
  }

  function Put(s: State, t: TxId, phase: Phase): State
    requires t in s.txs
  {
    s.(txs := s.txs[t := s.txs[t].(phase := phase)])
  }

  function DoTryLock(lockOf: LockOf, s: State, t: TxId): Outcome {
    if t !in s.txs || !s.txs[t].phase.Started? then Waits
    else if !LockFree(lockOf, s, t, s.txs[t].request.slot) then Refused(LockTaken)
    else Moves(Put(s, t, LockHeld))
  }

  /** A fresh key is inserted, an expired one reclaimed in place, a live one left alone. */
  function DoClaim(s: State, t: TxId, ttl: int): Outcome {
    if t !in s.txs || !s.txs[t].phase.LockHeld? then Waits
    else
      var tx := s.txs[t];
      if !RowFree(s, t, tx.request.slot) then Waits
      else if tx.request.slot in s.rows && s.rows[tx.request.slot].expiresAt > tx.began then Moves(Put(s, t, Existing))
      else Moves(Put(s, t, Claimed(s.latest, tx.began + ttl)))
  }

  function DoLook(s: State, t: TxId): Outcome {
    if t !in s.txs || !s.txs[t].phase.Existing? then Waits
    else
      var request := s.txs[t].request;
      if request.slot !in s.rows then Refused(NoRow)
      else
        var row := s.rows[request.slot];
        if row.endpoint != request.endpoint || row.hash != request.hash then Refused(OtherRequest)
        else match row.response
          case None => Refused(NoResponseYet)
          case Some(result) => Moves(Put(s, t, Replaying(result)))
  }

  function DoExecute(s: State, t: TxId, outcome: Option<Response>): Outcome {
    if t !in s.txs || !s.txs[t].phase.Claimed? then Waits
    else
      var phase := s.txs[t].phase;
      match outcome
      case None => Refused(CommandFailed)
      case Some(result) => Moves(Put(s, t, Executed(phase.claimedAt, phase.expiresAt, result)))
  }

  function DoStore(s: State, t: TxId): Outcome {
    if t !in s.txs || !s.txs[t].phase.Executed? then Waits
    else
      var phase := s.txs[t].phase;
      Moves(Put(s, t, Stored(phase.claimedAt, phase.expiresAt, phase.result)))
  }

  function EffectOf(tx: Tx): Effect
    requires tx.phase.Stored?
  {
    Effect(tx.request.slot, tx.request.endpoint, tx.request.hash, tx.phase.result, tx.phase.claimedAt, tx.phase.expiresAt)
  }

  function RowOf(effect: Effect): KeyRow {
    KeyRow(effect.endpoint, effect.hash, Some(effect.result), effect.expiresAt)
  }

  /** COMMIT publishes the key row, the command's own writes and the answer together. */
  function DoCommit(s: State, t: TxId): Outcome {
    if t !in s.txs then Waits
    else
      var tx := s.txs[t];
      match tx.phase
      case Stored(_, _, result) =>
        Moves(s.(rows := s.rows[tx.request.slot := RowOf(EffectOf(tx))], effects := s.effects + [EffectOf(tx)],
                 replies := s.replies + [Reply(tx.request, tx.began, result, false)], txs := s.txs - {t}))
      case Replaying(result) =>
        Moves(s.(replies := s.replies + [Reply(tx.request, tx.began, result, true)], txs := s.txs - {t}))
      case _ => Waits
  }

  function Expired(rows: map<Slot, KeyRow>, at: int): set<Slot> {
    set slot | slot in rows && rows[slot].expiresAt <= at
  }

  /** `purge_idempotency_keys`, in a transaction that began at `began`; it waits for locked rows. */
  function DoPurge(s: State, began: int): Outcome {
    var expired := Expired(s.rows, began);
    if began > s.latest || exists u | u in s.txs && HoldsRow(s.txs[u]) :: s.txs[u].request.slot in expired then Waits
    else Moves(s.(rows := s.rows - expired))
  }

  function Attempt(lockOf: LockOf, s: State, a: Action): Outcome {
    match a
    case Begin(t, request) => if t in s.txs then Waits else Moves(s.(txs := s.txs[t := Tx(request, s.clock, Started)]))
    case TryLock(t) => DoTryLock(lockOf, s, t)
    case Claim(t, ttl) => DoClaim(s, t, ttl)
    case Look(t) => DoLook(s, t)
    case Execute(t, outcome) => DoExecute(s, t, outcome)
    case Store(t) => DoStore(s, t)
    case Commit(t) => DoCommit(s, t)
    case Abort(t) => Moves(s.(txs := s.txs - {t}))
    case Tick(now) => Moves(s.(clock := now, latest := if now > s.latest then now else s.latest))
    case Purge(began) => DoPurge(s, began)
  }

  predicate OfSession(a: Action) { !a.Tick? && !a.Purge? }

  /** A thrown error rolls the transaction back: its claim, its command's writes and its locks go. */
  function Step(lockOf: LockOf, s: State, a: Action): State {
    match Attempt(lockOf, s, a)
    case Waits => s
    case Refused(_) => if OfSession(a) then s.(txs := s.txs - {a.t}) else s
    case Moves(next) => next
  }

  function Run(lockOf: LockOf, s: State, actions: seq<Action>): State
    decreases |actions|
  {
    if actions == [] then s else Run(lockOf, Step(lockOf, s, actions[0]), actions[1..])
  }

  /** One session takes statements in order, up to the first that waits or is refused. */
  function Call(lockOf: LockOf, s: State, script: seq<Action>): (State, Progress<(), Refusal>)
    decreases |script|
  {
    if script == [] then (s, Done(()))
    else match Attempt(lockOf, s, script[0])
      case Waits => (s, Waiting)
      case Refused(e) => (Step(lockOf, s, script[0]), Failed(e))
      case Moves(next) => Call(lockOf, next, script[1..])
  }

  function Empty(clock: int): State { State(map[], [], [], clock, clock, map[]) }

  // ---------------------------------------------------------------- the invariant

  /** Every committed run under this key had expired by `instant`. */
  ghost predicate Spent(effects: seq<Effect>, slot: Slot, instant: int) {
    forall i | 0 <= i < |effects| && effects[i].slot == slot :: effects[i].expiresAt <= instant
  }

  /** The row of a slot is what its latest run stored. */
  ghost predicate Backed(effects: seq<Effect>, slot: Slot, row: KeyRow, k: nat) {
    && k < |effects| && effects[k].slot == slot && row == RowOf(effects[k])
    && forall i | 0 <= i < |effects| && effects[i].slot == slot && i != k ::
         i < k && effects[i].expiresAt <= effects[k].claimedAt
  }

  ghost predicate EffectsOk(effects: seq<Effect>, latest: int) {
    && (forall i | 0 <= i < |effects| :: effects[i].claimedAt <= latest)
    && forall i, j | 0 <= i < j < |effects| && effects[i].slot == effects[j].slot ::
         effects[i].expiresAt <= effects[j].claimedAt
  }

  ghost predicate RowsOk(rows: map<Slot, KeyRow>, effects: seq<Effect>, latest: int) {
    && (forall slot | slot in rows :: exists k: nat :: Backed(effects, slot, rows[slot], k))
    && forall slot | slot !in rows :: Spent(effects, slot, latest)
  }

  ghost predicate Answers(reply: Reply, effect: Effect) {
    && effect.slot == reply.request.slot && effect.endpoint == reply.request.endpoint
    && effect.hash == reply.request.hash && effect.result == reply.result
    && (reply.replayed ==> reply.began < effect.expiresAt)
  }

  ghost predicate Answered(reply: Reply, effects: seq<Effect>) { exists k | 0 <= k < |effects| :: Answers(reply, effects[k]) }

  ghost predicate TxOk(rows: map<Slot, KeyRow>, effects: seq<Effect>, latest: int, tx: Tx) {
    && tx.began <= latest
    && match tx.phase
       case Started => true
       case LockHeld => true
       case Existing => tx.request.slot in rows && rows[tx.request.slot].expiresAt > tx.began
       case Replaying(result) =>
         && tx.request.slot in rows && rows[tx.request.slot].expiresAt > tx.began
         && rows[tx.request.slot] == KeyRow(tx.request.endpoint, tx.request.hash, Some(result), rows[tx.request.slot].expiresAt)
       case _ => tx.phase.claimedAt <= latest && Spent(effects, tx.request.slot, tx.phase.claimedAt)
  }

  ghost predicate LocksOk(lockOf: LockOf, txs: map<TxId, Tx>) {
    forall t, u | t in txs && u in txs && t != u && HoldsLock(txs[t]) && HoldsLock(txs[u]) ::
      lockOf(txs[t].request.slot) != lockOf(txs[u].request.slot)
  }

  ghost predicate Inv(lockOf: LockOf, s: State) {
    && s.clock <= s.latest && EffectsOk(s.effects, s.latest) && RowsOk(s.rows, s.effects, s.latest)
    && (forall i | 0 <= i < |s.replies| :: Answered(s.replies[i], s.effects))
    && (forall t | t in s.txs :: TxOk(s.rows, s.effects, s.latest, s.txs[t]))
    && LocksOk(lockOf, s.txs)
  }

  // ---------------------------------------------------------------- every step keeps it

  /** A session moved on without publishing anything. */
  lemma PutKeeps(lockOf: LockOf, s: State, t: TxId, tx: Tx)
    requires Inv(lockOf, s) && TxOk(s.rows, s.effects, s.latest, tx)
    requires HoldsLock(tx) ==> LockFree(lockOf, s, t, tx.request.slot)
    ensures Inv(lockOf, s.(txs := s.txs[t := tx]))
  {
  }

  lemma DropKeeps(lockOf: LockOf, s: State, t: TxId)
    requires Inv(lockOf, s)
    ensures Inv(lockOf, s.(txs := s.txs - {t}))
  {
  }

  lemma LockedIsFree(lockOf: LockOf, s: State, t: TxId)
    requires LocksOk(lockOf, s.txs) && t in s.txs && HoldsLock(s.txs[t])
    ensures LockFree(lockOf, s, t, s.txs[t].request.slot)
  {
  }

  /** A claim is granted only when every earlier run under the key has expired. */
  lemma ClaimIsSpent(s: State, t: TxId)
    requires EffectsOk(s.effects, s.latest) && RowsOk(s.rows, s.effects, s.latest) && t in s.txs && s.txs[t].began <= s.latest
    requires var slot := s.txs[t].request.slot; slot in s.rows ==> s.rows[slot].expiresAt <= s.txs[t].began
    ensures Spent(s.effects, s.txs[t].request.slot, s.latest)
  {
  }

  lemma SessionKeeps(lockOf: LockOf, s: State, a: Action)
    requires Inv(lockOf, s) && OfSession(a) && !a.Commit? && !a.Abort? && Attempt(lockOf, s, a).Moves?
    ensures Inv(lockOf, Attempt(lockOf, s, a).next)
  {
    if a.Begin? {
      PutKeeps(lockOf, s, a.t, Tx(a.request, s.clock, Started));
    } else {
      var tx := Attempt(lockOf, s, a).next.txs[a.t];
      assert TxOk(s.rows, s.effects, s.latest, s.txs[a.t]);
      if a.TryLock? {
      } else {
        LockedIsFree(lockOf, s, a.t);
        if a.Claim? && tx.phase.Claimed? { ClaimIsSpent(s, a.t); }
      }
      PutKeeps(lockOf, s, a.t, tx);
    }
  }

  /** Appending a run under a spent key keeps the log and the rows in step. */
  lemma PublishKeepsRows(rows: map<Slot, KeyRow>, effects: seq<Effect>, latest: int, effect: Effect)
    requires EffectsOk(effects, latest) && RowsOk(rows, effects, latest)
    requires effect.claimedAt <= latest && Spent(effects, effect.slot, effect.claimedAt)
    ensures EffectsOk(effects + [effect], latest) && RowsOk(rows[effect.slot := RowOf(effect)], effects + [effect], latest)
  {
    var after, rows' := effects + [effect], rows[effect.slot := RowOf(effect)];
    forall slot | slot in rows' ensures exists k: nat :: Backed(after, slot, rows'[slot], k) {
      if slot == effect.slot {
        assert Backed(after, slot, rows'[slot], |effects|);
      } else {
        var k: nat :| Backed(effects, slot, rows[slot], k);
        assert Backed(after, slot, rows'[slot], k);
      }
    }
  }

  /** The advisory lock keeps every other session off the key that is being published. */
  lemma PublishKeepsOthers(rows: map<Slot, KeyRow>, effects: seq<Effect>, latest: int, effect: Effect, other: Tx)
    requires TxOk(rows, effects, latest, other) && (HoldsLock(other) ==> other.request.slot != effect.slot)
    ensures TxOk(rows[effect.slot := RowOf(effect)], effects + [effect], latest, other)
  {
  }

  lemma AnswersStay(replies: seq<Reply>, effects: seq<Effect>, effect: Effect)
    requires forall i | 0 <= i < |replies| :: Answered(replies[i], effects)
    ensures forall i | 0 <= i < |replies| :: Answered(replies[i], effects + [effect])
  {
    forall i | 0 <= i < |replies| ensures Answered(replies[i], effects + [effect]) {
      var k :| 0 <= k < |effects| && Answers(replies[i], effects[k]);
      assert Answers(replies[i], (effects + [effect])[k]);
    }
  }

  lemma CommitStoredKeeps(lockOf: LockOf, s: State, t: TxId)
    requires Inv(lockOf, s) && t in s.txs && s.txs[t].phase.Stored?
    ensures Inv(lockOf, DoCommit(s, t).next)
  {
    var tx, effect, next := s.txs[t], EffectOf(s.txs[t]), DoCommit(s, t).next;
    assert TxOk(s.rows, s.effects, s.latest, tx);
    PublishKeepsRows(s.rows, s.effects, s.latest, effect);
    AnswersStay(s.replies, s.effects, effect);
    assert Answers(next.replies[|s.replies|], next.effects[|s.effects|]);
    forall u | u in next.txs ensures TxOk(next.rows, next.effects, next.latest, next.txs[u]) {
      PublishKeepsOthers(s.rows, s.effects, s.latest, effect, s.txs[u]);
    }
  }

  lemma CommitReplayKeeps(lockOf: LockOf, s: State, t: TxId)
    requires Inv(lockOf, s) && t in s.txs && s.txs[t].phase.Replaying?
    ensures Inv(lockOf, DoCommit(s, t).next)
  {
  }

  lemma PurgeKeeps(lockOf: LockOf, s: State, began: int)
    requires Inv(lockOf, s) && DoPurge(s, began).Moves?
    ensures Inv(lockOf, DoPurge(s, began).next)
  {
    var next := DoPurge(s, began).next;
    forall slot | slot !in next.rows ensures Spent(next.effects, slot, next.latest) {
      if slot in s.rows {
        var k: nat :| Backed(s.effects, slot, s.rows[slot], k);
        assert s.effects[k].claimedAt <= s.latest;
      }
    }
    forall t | t in next.txs ensures TxOk(next.rows, next.effects, next.latest, next.txs[t]) {
      assert TxOk(s.rows, s.effects, s.latest, s.txs[t]);
    }
  }

  lemma TickKeeps(lockOf: LockOf, s: State, now: int)
    requires Inv(lockOf, s)
    ensures Inv(lockOf, Step(lockOf, s, Tick(now)))
  {
  }

  lemma StepKeeps(lockOf: LockOf, s: State, a: Action)
    requires Inv(lockOf, s)
    ensures Inv(lockOf, Step(lockOf, s, a))
  {
    match Attempt(lockOf, s, a) {
      case Waits =>
      case Refused(_) => if OfSession(a) { DropKeeps(lockOf, s, a.t); }
      case Moves(_) =>
        match a {
          case Commit(t) => if s.txs[t].phase.Stored? { CommitStoredKeeps(lockOf, s, t); } else { CommitReplayKeeps(lockOf, s, t); }
          case Abort(t) => DropKeeps(lockOf, s, t);
          case Tick(now) => TickKeeps(lockOf, s, now);
          case Purge(began) => PurgeKeeps(lockOf, s, began);
          case _ => SessionKeeps(lockOf, s, a);
        }
    }
  }

  lemma {:induction false} RunKeeps(lockOf: LockOf, s: State, actions: seq<Action>)
    requires Inv(lockOf, s)
    ensures Inv(lockOf, Run(lockOf, s, actions))
    decreases |actions|
  {
    if actions != [] {
      StepKeeps(lockOf, s, actions[0]);
      RunKeeps(lockOf, Step(lockOf, s, actions[0]), actions[1..]);
    }
  }
}
