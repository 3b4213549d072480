/** What the wrapper guarantees over every interleaving, and the wrapper as one session runs it. */
module IdempotencySafety {
  import opened Outcomes
  import opened Idempotency
  import CanonicalJson
  import RequestHash

  lemma EmptyIsOk(lockOf: LockOf, clock: int)
    ensures Inv(lockOf, Empty(clock))
  {
  }

  lemma ReachableIsOk(lockOf: LockOf, clock: int, actions: seq<Action>)
    ensures Inv(lockOf, Run(lockOf, Empty(clock), actions))
  {
    EmptyIsOk(lockOf, clock);
    RunKeeps(lockOf, Empty(clock), actions);
  }

  // ---------------------------------------------------------------- at most once

  /** A second run under the same key claims it only after the clock has shown an instant at which the
      first had expired, whichever way the clock moves otherwise. */
  lemma AtMostOncePerLiveKey(lockOf: LockOf, clock: int, actions: seq<Action>, i: nat, j: nat)
    requires var effects := Run(lockOf, Empty(clock), actions).effects;
             i < j < |effects| && effects[i].slot == effects[j].slot
    ensures var effects := Run(lockOf, Empty(clock), actions).effects;
            effects[i].expiresAt <= effects[j].claimedAt
  {
    ReachableIsOk(lockOf, clock, actions);
  }

  /** No committed row lacks its response, and each is the response of one committed run. */
  lemma RowsCarryTheirRun(lockOf: LockOf, clock: int, actions: seq<Action>, slot: Slot)
    requires slot in Run(lockOf, Empty(clock), actions).rows
    ensures var s := Run(lockOf, Empty(clock), actions);
            && s.rows[slot].response.Some?
            && exists k: nat :: k < |s.effects| && s.effects[k].slot == slot && s.rows[slot] == RowOf(s.effects[k])
  {
    ReachableIsOk(lockOf, clock, actions);
    var s := Run(lockOf, Empty(clock), actions);
    var k: nat :| Backed(s.effects, slot, s.rows[slot], k);
  }

  /** The branches for a missing row and for a null response are unreachable, and a claim never meets
      a row another claim holds: an in-flight refusal is always the advisory lock. */
  lemma InFlightIsTheLock(lockOf: LockOf, s: State, a: Action)
    requires Inv(lockOf, s) && Attempt(lockOf, s, a).Refused?
    ensures Attempt(lockOf, s, a).refusal != NoRow && Attempt(lockOf, s, a).refusal != NoResponseYet
    ensures ConflictOf(Attempt(lockOf, s, a).refusal) == Some(InFlight) <==> a.TryLock?
  {
  }

  lemma ClaimNeverWaits(lockOf: LockOf, s: State, a: Action)
    requires Inv(lockOf, s) && a.Claim? && a.t in s.txs && s.txs[a.t].phase.LockHeld?
    ensures Attempt(lockOf, s, a).Moves?
  {
  }

  /** Rows, runs and answers change at a commit or a purge, never before: a rolled-back call leaves
      nothing. */
  lemma OnlyCommitsPublish(lockOf: LockOf, s: State, a: Action)
    requires !a.Commit?
    ensures var next := Step(lockOf, s, a);
            && next.effects == s.effects && next.replies == s.replies
            && (!a.Purge? ==> next.rows == s.rows)
  {
  }

  // ---------------------------------------------------------------- replay

  /** Every committed answer is the result of a committed run of that very request, and a replayed one
      was still live when its caller began. */
  lemma RepliesAreSound(lockOf: LockOf, clock: int, actions: seq<Action>, i: nat)
    requires i < |Run(lockOf, Empty(clock), actions).replies|
    ensures var s := Run(lockOf, Empty(clock), actions);
            exists k :: 0 <= k < |s.effects| && Answers(s.replies[i], s.effects[k])
  {
    ReachableIsOk(lockOf, clock, actions);
    var s := Run(lockOf, Empty(clock), actions);
    assert Answered(s.replies[i], s.effects);
  }

  ghost predicate Live(s: State, slot: Slot, instant: int) { slot in s.rows && s.rows[slot].expiresAt > instant }

  /** Any answer to this key is the stored one, replayed. */
  predicate IsReplayOf(reply: Reply, row: KeyRow) {
    && reply.replayed && row.response == Some(reply.result)
    && reply.request.endpoint == row.endpoint && reply.request.hash == row.hash
  }

  lemma StepKeepsLiveRow(lockOf: LockOf, s: State, a: Action, slot: Slot)
    requires Inv(lockOf, s) && Live(s, slot, s.latest)
    ensures var next := Step(lockOf, s, a);
            && slot in next.rows && next.rows[slot] == s.rows[slot] && next.latest >= s.latest
            && (next.replies == s.replies ||
                (exists reply :: next.replies == s.replies + [reply] && (reply.request.slot == slot ==> IsReplayOf(reply, s.rows[slot]))))
  {
    if a.Commit? && a.t in s.txs {
      var tx := s.txs[a.t];
      assert TxOk(s.rows, s.effects, s.latest, tx);
      var k: nat :| Backed(s.effects, slot, s.rows[slot], k);
      assert tx.phase.Stored? ==> tx.request.slot != slot;
    }
  }

  /** As long as a key is live its row stays as stored, whatever else happens meanwhile … */
  lemma {:induction false} LiveRowStays(lockOf: LockOf, s: State, actions: seq<Action>, slot: Slot)
    requires Inv(lockOf, s) && Live(s, slot, Run(lockOf, s, actions).latest)
    ensures slot in Run(lockOf, s, actions).rows && Run(lockOf, s, actions).rows[slot] == s.rows[slot]
    decreases |actions|
  {
    LatestGrows(lockOf, s, actions);
    if actions != [] {
      StepKeepsLiveRow(lockOf, s, actions[0], slot);
      StepKeeps(lockOf, s, actions[0]);
      LiveRowStays(lockOf, Step(lockOf, s, actions[0]), actions[1..], slot);
    }
  }

  lemma {:induction false} RepliesGrow(lockOf: LockOf, s: State, actions: seq<Action>)
    ensures s.replies <= Run(lockOf, s, actions).replies
    decreases |actions|
  {
    if actions != [] {
      assert s.replies <= Step(lockOf, s, actions[0]).replies;
      RepliesGrow(lockOf, Step(lockOf, s, actions[0]), actions[1..]);
    }
  }

  /** … and every call that completes under it is answered with the stored result, running nothing. */
  lemma {:induction false} LiveKeyReplays(lockOf: LockOf, s: State, actions: seq<Action>, slot: Slot, i: nat)
    requires Inv(lockOf, s) && Live(s, slot, Run(lockOf, s, actions).latest)
    requires |s.replies| <= i < |Run(lockOf, s, actions).replies| && Run(lockOf, s, actions).replies[i].request.slot == slot
    ensures IsReplayOf(Run(lockOf, s, actions).replies[i], s.rows[slot])
    decreases |actions|
  {
    LatestGrows(lockOf, s, actions);
    var next := Step(lockOf, s, actions[0]);
    StepKeepsLiveRow(lockOf, s, actions[0], slot);
    if i < |next.replies| {
      RepliesGrow(lockOf, next, actions[1..]);
      assert Run(lockOf, s, actions).replies[i] == next.replies[i];
    } else {
      StepKeeps(lockOf, s, actions[0]);
      LatestGrows(lockOf, next, actions[1..]);
      LiveKeyReplays(lockOf, next, actions[1..], slot, i);
    }
  }

  lemma {:induction false} LatestGrows(lockOf: LockOf, s: State, actions: seq<Action>)
    ensures s.latest <= Run(lockOf, s, actions).latest
    decreases |actions|
  {
    if actions != [] { LatestGrows(lockOf, Step(lockOf, s, actions[0]), actions[1..]); }
  }

  /** And no run is added under a key while it is live. */
  lemma LiveKeyRunsNothing(lockOf: LockOf, s: State, actions: seq<Action>, slot: Slot, i: nat)
    requires Inv(lockOf, s) && Live(s, slot, Run(lockOf, s, actions).latest)
    requires |s.effects| <= i < |Run(lockOf, s, actions).effects|
    ensures Run(lockOf, s, actions).effects[i].slot != slot
  {
    RunKeeps(lockOf, s, actions);
    var final := Run(lockOf, s, actions);
    LiveRowStays(lockOf, s, actions, slot);
    LatestGrows(lockOf, s, actions);
    EffectsGrow(lockOf, s, actions);
    var k: nat :| Backed(s.effects, slot, s.rows[slot], k);
    assert final.effects[k] == s.effects[k];
  }

  lemma {:induction false} EffectsGrow(lockOf: LockOf, s: State, actions: seq<Action>)
    ensures s.effects <= Run(lockOf, s, actions).effects
    decreases |actions|
  {
    if actions != [] {
      assert s.effects <= Step(lockOf, s, actions[0]).effects;
      EffectsGrow(lockOf, Step(lockOf, s, actions[0]), actions[1..]);
    }
  }

  // ---------------------------------------------------------------- one call, from end to end

  /** Wherever a call stops, its session has run some of its statements. */
  lemma {:induction false} CallIsRun(lockOf: LockOf, s: State, script: seq<Action>)
    ensures exists n: nat :: n <= |script| && Call(lockOf, s, script).0 == Run(lockOf, s, script[..n])
    decreases |script|
  {
    if script == [] {
      assert script[..0] == [];
    } else {
      var next := Step(lockOf, s, script[0]);
      assert script[..1][1..] == [];
      assert Run(lockOf, s, script[..1]) == Run(lockOf, next, []);
      if Attempt(lockOf, s, script[0]).Moves? {
        CallIsRun(lockOf, next, script[1..]);
        var n: nat :| n <= |script[1..]| && Call(lockOf, next, script[1..]).0 == Run(lockOf, next, script[1..][..n]);
        assert script[..n + 1][1..] == script[1..][..n];
      } else {
        assert Call(lockOf, s, script).0 == next;
      }
    }
  }

  lemma CallOne(lockOf: LockOf, s: State, a: Action)
    ensures Call(lockOf, s, [a]) == match Attempt(lockOf, s, a)
                                    case Waits => (s, Waiting)
                                    case Refused(e) => (Step(lockOf, s, a), Failed(e))
                                    case Moves(next) => (next, Done(()))
  {
  }

  lemma {:induction false} CallAppend(lockOf: LockOf, s: State, a: seq<Action>, b: seq<Action>)
    ensures var (next, ending) := Call(lockOf, s, a);
            Call(lockOf, s, a + b) == if ending.Done? then Call(lockOf, next, b) else (next, ending)
    decreases |a|
  {
    if a == [] {
      assert a + b == b;
    } else {
      assert (a + b)[1..] == a[1..] + b;
      if Attempt(lockOf, s, a[0]).Moves? { CallAppend(lockOf, Attempt(lockOf, s, a[0]).next, a[1..], b); }
    }
  }

  function ClaimScript(t: TxId, request: Request, ttl: int): seq<Action> { [Begin(t, request), TryLock(t)] + [Claim(t, ttl)] }

  /** Under a live key the claim is followed by a look at its row. */
  function LookScript(t: TxId, live: bool): seq<Action> { if live then [Look(t)] else [] }

  function StoreScript(t: TxId, outcome: Option<Response>): seq<Action> { [Execute(t, outcome), Store(t)] }

  /** The statements of a whole call. */
  function CallScript(t: TxId, request: Request, ttl: int, outcome: Option<Response>, live: bool): seq<Action> {
    ClaimScript(t, request, ttl) + LookScript(t, live) + ((if live then [] else StoreScript(t, outcome)) + [Commit(t)])
  }

  predicate SameRequest(row: KeyRow, request: Request) { row.endpoint == request.endpoint && row.hash == request.hash }

  lemma PutAndDrop(s: State, t: TxId, tx: Tx)
    requires t !in s.txs
    ensures s.txs[t := tx] - {t} == s.txs && s.txs - {t} == s.txs
  {
  }

  /** A session's own phase does not stand in its way, and under a free lock nobody holds the row. */
  lemma FreeAfterPut(lockOf: LockOf, s: State, t: TxId, tx: Tx, slot: Slot)
    ensures var next := s.(txs := s.txs[t := tx]);
            && LockFree(lockOf, next, t, slot) == LockFree(lockOf, s, t, slot)
            && (LockFree(lockOf, s, t, slot) ==> RowFree(next, t, slot))
  {
    var txs := s.txs[t := tx];
    assert forall u | u in s.txs && u != t :: u in txs && txs[u] == s.txs[u];
    assert forall u | u in txs && u != t :: u in s.txs;
  }

  /** The table of keys as one session works on it, statement by statement. */
  class KeyTable {
    var rows: map<Slot, KeyRow>
    var effects: seq<Effect>
    var replies: seq<Reply>
    var clock: int
    var latest: int
    var txs: map<TxId, Tx>

    function Model(): State
      reads this
    {
      State(rows, effects, replies, clock, latest, txs)
    }

    /** A thrown error rolls the transaction back. */
    method RollBack<T>(t: TxId, error: Refusal) returns (r: Progress<T, Refusal>)
      modifies this`txs
      ensures r == Failed(error) && txs == old(txs) - {t}
    {
      txs := txs - {t};
      return Failed(error);
    }

    /** BEGIN, and `pg_try_advisory_xact_lock`, which never waits. */
    method TakeLock(lockOf: LockOf, t: TxId, request: Request) returns (r: Progress<(), Refusal>)
      requires t !in txs
      modifies this`txs
      ensures Call(lockOf, old(Model()), [Begin(t, request), TryLock(t)]) == (Model(), r)
      ensures r == if LockFree(lockOf, old(Model()), t, request.slot) then Done(()) else Failed(LockTaken)
      ensures txs == if r.Done? then old(txs)[t := Tx(request, clock, LockHeld)] else old(txs)
    {
      CallAppend(lockOf, Model(), [Begin(t, request)], [TryLock(t)]);
      CallOne(lockOf, Model(), Begin(t, request));
      PutAndDrop(Model(), t, Tx(request, clock, Started));
      FreeAfterPut(lockOf, Model(), t, Tx(request, clock, Started), request.slot);
      txs := txs[t := Tx(request, clock, Started)];
      CallOne(lockOf, Model(), TryLock(t));
      if !LockFree(lockOf, Model(), t, request.slot) {
        r := RollBack(t, LockTaken);
        return;
      }
      txs := txs[t := txs[t].(phase := LockHeld)];
      return Done(());
    }

    /** The upsert: a fresh key is inserted, an expired one reclaimed in place, a live one left alone. */
    method ClaimKey(lockOf: LockOf, t: TxId, ttl: int) returns (claimed: bool)
      requires t in txs && txs[t].phase.LockHeld? && RowFree(Model(), t, txs[t].request.slot)
      modifies this`txs
      ensures Call(lockOf, old(Model()), [Claim(t, ttl)]) == (Model(), Done(()))
      ensures var tx := old(txs)[t];
              && (claimed <==> !Live(old(Model()), tx.request.slot, tx.began))
              && txs == old(txs)[t := tx.(phase := if claimed then Claimed(latest, tx.began + ttl) else Existing)]
    {
      CallOne(lockOf, Model(), Claim(t, ttl));
      var tx := txs[t];
      if tx.request.slot in rows && rows[tx.request.slot].expiresAt > tx.began {
        txs := txs[t := tx.(phase := Existing)];
        return false;
      }
      txs := txs[t := tx.(phase := Claimed(latest, tx.began + ttl))];
      return true;
    }

    /** The look at the row of a live key. */
    method LookUp(lockOf: LockOf, t: TxId) returns (r: Progress<Response, Refusal>)
      requires RowsOk(rows, effects, latest) && t in txs && txs[t].phase.Existing? && txs[t].request.slot in rows
      modifies this`txs
      ensures Call(lockOf, old(Model()), [Look(t)]) == (Model(), r.Ending())
      ensures var tx, row := old(txs)[t], rows[old(txs)[t].request.slot];
              && (r.Done? ==> SameRequest(row, tx.request) && row.response == Some(r.result)
                              && txs == old(txs)[t := tx.(phase := Replaying(r.result))])
              && (!r.Done? ==> !SameRequest(row, tx.request) && r == Failed(OtherRequest) && txs == old(txs) - {t})
    {
      CallOne(lockOf, Model(), Look(t));
      var tx := txs[t];
      var row := rows[tx.request.slot];
      if !SameRequest(row, tx.request) {
        r := RollBack(t, OtherRequest);
        return;
      }
      ghost var k: nat :| Backed(effects, tx.request.slot, row, k);
      var stored := row.response.value;
      txs := txs[t := tx.(phase := Replaying(stored))];
      return Done(stored);
    }

    /** The lock and the claim. */
    method LockAndClaim(lockOf: LockOf, t: TxId, request: Request, ttl: int) returns (r: Progress<bool, Refusal>)
      requires t !in txs
      modifies this`txs
      ensures Call(lockOf, old(Model()), ClaimScript(t, request, ttl)) == (Model(), r.Ending())
      ensures var live := Live(old(Model()), request.slot, clock);
              && r == (if LockFree(lockOf, old(Model()), t, request.slot) then Done(!live) else Failed(LockTaken))
              && (r.Done? ==> txs == old(txs)[t := Tx(request, clock, if live then Existing else Claimed(latest, clock + ttl))])
      ensures r.Failed? ==> Model() == old(Model())
    {
      CallAppend(lockOf, Model(), [Begin(t, request), TryLock(t)], [Claim(t, ttl)]);
      FreeAfterPut(lockOf, Model(), t, Tx(request, clock, LockHeld), request.slot);
      var _ :- TakeLock(lockOf, t, request);
      var claimed := ClaimKey(lockOf, t, ttl);
      return Done(claimed);
    }

    /** The lock, the claim, and the look at an existing row: refused as in flight exactly when the lock
        is taken and as a mismatch exactly when the key is live for another request, with no trace; a
        stored response exactly when the key is live for this request; and leave to run otherwise. */
    method ClaimOrReplay(lockOf: LockOf, t: TxId, request: Request, ttl: int) returns (r: Progress<Option<Response>, Refusal>)
      requires Inv(lockOf, Model()) && t !in txs
      modifies this`txs
      ensures var free, live := LockFree(lockOf, old(Model()), t, request.slot), Live(old(Model()), request.slot, clock);
              && Call(lockOf, old(Model()), ClaimScript(t, request, ttl) + LookScript(t, live)) == (Model(), r.Ending())
              && (r == Failed(LockTaken) <==> !free)
              && (r == Failed(OtherRequest) <==> free && live && !SameRequest(rows[request.slot], request))
              && (r.Done? && r.result.Some? <==> free && live && SameRequest(rows[request.slot], request))
              && (r.Done? && r.result.Some? ==> rows[request.slot].response == r.result)
              && (r == Done(None) <==> free && !live)
      ensures r.Done? ==>
                txs == old(txs)[t := Tx(request, clock, if r.result == None then Claimed(latest, clock + ttl) else Replaying(r.result.value))]
      ensures !r.Done? ==> r.Failed? && Model() == old(Model())
    {
      CallAppend(lockOf, Model(), ClaimScript(t, request, ttl), LookScript(t, Live(Model(), request.slot, clock)));
      PutAndDrop(Model(), t, Tx(request, clock, Existing));
      var claimed :- LockAndClaim(lockOf, t, request, ttl);
      if claimed {
        return Done(None);
      }
      var stored :- LookUp(lockOf, t);
      return Done(Some(stored));
    }

    /** The command has run: its response is written to the key's row. */
    method StoreResponse(lockOf: LockOf, t: TxId, result: Response)
      requires t in txs && txs[t].phase.Claimed?
      modifies this`txs
      ensures Call(lockOf, old(Model()), StoreScript(t, Some(result))) == (Model(), Done(()))
      ensures var tx := old(txs)[t]; txs == old(txs)[t := tx.(phase := Stored(tx.phase.claimedAt, tx.phase.expiresAt, result))]
    {
      assert StoreScript(t, Some(result)) == [Execute(t, Some(result))] + [Store(t)];
      CallAppend(lockOf, Model(), [Execute(t, Some(result))], [Store(t)]);
      CallOne(lockOf, Model(), Execute(t, Some(result)));
      var phase := txs[t].phase;
      txs := txs[t := txs[t].(phase := Executed(phase.claimedAt, phase.expiresAt, result))];
      CallOne(lockOf, Model(), Store(t));
      txs := txs[t := txs[t].(phase := Stored(phase.claimedAt, phase.expiresAt, result))];
    }

    /** The command threw. */
    method GiveUp(lockOf: LockOf, t: TxId)
      requires t in txs && txs[t].phase.Claimed?
      modifies this`txs
      ensures Call(lockOf, old(Model()), StoreScript(t, None)) == (Model(), Failed(CommandFailed))
      ensures txs == old(txs) - {t}
    {
      assert StoreScript(t, None) == [Execute(t, None)] + [Store(t)];
      CallAppend(lockOf, Model(), [Execute(t, None)], [Store(t)]);
      CallOne(lockOf, Model(), Execute(t, None));
      txs := txs - {t};
    }

    /** COMMIT: a run is published with its row and its answer, a replay with its answer only. */
    method CommitTransaction(lockOf: LockOf, t: TxId)
      requires t in txs && (txs[t].phase.Stored? || txs[t].phase.Replaying?)
      modifies this
      ensures Call(lockOf, old(Model()), [Commit(t)]) == (Model(), Done(()))
      ensures var tx := old(txs)[t];
              && replies == old(replies) + [Reply(tx.request, tx.began, tx.phase.result, tx.phase.Replaying?)]
              && effects == old(effects) + (if tx.phase.Stored? then [EffectOf(tx)] else [])
              && rows == if tx.phase.Stored? then old(rows)[tx.request.slot := RowOf(EffectOf(tx))] else old(rows)
      ensures txs == old(txs) - {t} && clock == old(clock) && latest == old(latest)
    {
      CallOne(lockOf, Model(), Commit(t));
      var tx := txs[t];
      txs := txs - {t};
      replies := replies + [Reply(tx.request, tx.began, tx.phase.result, tx.phase.Replaying?)];
      if tx.phase.Stored? {
        var effect := Effect(tx.request.slot, tx.request.endpoint, tx.request.hash, tx.phase.result, tx.phase.claimedAt, tx.phase.expiresAt);
        effects := effects + [effect];
        rows := rows[tx.request.slot := KeyRow(effect.endpoint, effect.hash, Some(effect.result), effect.expiresAt)];
      }
    }

    /** The command, its response and the commit; or what the command threw. */
    method RunCommand(lockOf: LockOf, t: TxId, outcome: Option<Response>) returns (r: Progress<Response, Refusal>)
      requires t in txs && txs[t].phase.Claimed?
      modifies this
      ensures Call(lockOf, old(Model()), StoreScript(t, outcome) + [Commit(t)]) == (Model(), r.Ending())
      ensures r == match outcome case None => Failed(CommandFailed) case Some(result) => Done(result)
      ensures r.Done? ==>
                var tx := old(txs)[t];
                var effect := Effect(tx.request.slot, tx.request.endpoint, tx.request.hash, r.result, tx.phase.claimedAt, tx.phase.expiresAt);
                && rows == old(rows)[tx.request.slot := RowOf(effect)] && effects == old(effects) + [effect]
                && replies == old(replies) + [Reply(tx.request, tx.began, r.result, false)]
      ensures r.Failed? ==> rows == old(rows) && effects == old(effects) && replies == old(replies)
      ensures txs == old(txs) - {t} && clock == old(clock) && latest == old(latest)
    {
      CallAppend(lockOf, Model(), StoreScript(t, outcome), [Commit(t)]);
      if outcome == None {
        GiveUp(lockOf, t);
        return Failed(CommandFailed);
      }
      StoreResponse(lockOf, t, outcome.value);
      CommitTransaction(lockOf, t);
      return Done(outcome.value);
    }

    /** `withIdempotentContext`, given a key; `outcome` is what the command does if it is run. A taken
        lock, another request's live key and a command that throws are refused without a trace; a live
        key of this request gives its stored response again; otherwise the run, its row and its answer
        are committed together. */
    method WithIdempotentContext(lockOf: LockOf, t: TxId, request: Request, ttl: int, outcome: Option<Response>)
      returns (r: Progress<Response, Refusal>)
      requires Inv(lockOf, Model()) && t !in txs
      modifies this
      ensures var free, live := LockFree(lockOf, old(Model()), t, request.slot), Live(old(Model()), request.slot, old(clock));
              && Call(lockOf, old(Model()), CallScript(t, request, ttl, outcome, live)) == (Model(), r.Ending())
              && (r == Failed(LockTaken) <==> !free)
              && (r == Failed(OtherRequest) <==> free && live && !SameRequest(old(rows)[request.slot], request))
              && (r == Failed(CommandFailed) <==> free && !live && outcome == None)
              && (r.Done? && live ==> rows == old(rows) && effects == old(effects) && old(rows)[request.slot].response == Some(r.result))
              && (r.Done? && !live ==>
                   var effect := Effect(request.slot, request.endpoint, request.hash, r.result, old(latest), old(clock) + ttl);
                   outcome == Some(r.result) && rows == old(rows)[request.slot := RowOf(effect)] && effects == old(effects) + [effect])
              && (r.Done? ==> replies == old(replies) + [Reply(request, old(clock), r.result, live)] && txs == old(txs))
      ensures !r.Done? ==> Model() == old(Model()) && r.Failed? && r.error in {LockTaken, OtherRequest, CommandFailed}
    {
      ghost var live := Live(Model(), request.slot, clock);
      CallAppend(lockOf, Model(), ClaimScript(t, request, ttl) + LookScript(t, live), (if live then [] else StoreScript(t, outcome)) + [Commit(t)]);
      PutAndDrop(Model(), t, Tx(request, clock, Started));
      var claim :- ClaimOrReplay(lockOf, t, request, ttl);
      PutAndDrop(old(Model()), t, txs[t]);
      if claim.Some? {
        assert [] + [Commit(t)] == [Commit(t)];
        CommitTransaction(lockOf, t);
        return Done(claim.value);
      }
      r := RunCommand(lockOf, t, outcome);
    }
  }

  // ---------------------------------------------------------------- replay is decided by the logical body

  /** `buildIdem` over an injective digest. */
  function RequestFor(digest: CanonicalJson.Text -> Hash, slot: Slot, endpoint: nat, body: CanonicalJson.Json): Request {
    Request(slot, endpoint, RequestHash.HashOf(digest, body))
  }

  /** A live key answers a second call exactly when its endpoint is the same and its body means the
      same; otherwise the call is a mismatch. Key order in the body plays no part. */
  lemma ReplayIsDecidedByMeaning(digest: CanonicalJson.Text -> Hash, lockOf: LockOf, s: State, t: TxId,
                                 slot: Slot, endpoint: nat, body: CanonicalJson.Json, first: nat, original: CanonicalJson.Json)
    requires forall x: CanonicalJson.Text, y: CanonicalJson.Text | digest(x) == digest(y) :: x == y
    requires CanonicalJson.WellFormed(body) && CanonicalJson.WellFormed(original)
    requires RequestHash.FiniteNumbers(body) && RequestHash.FiniteNumbers(original)
    requires Inv(lockOf, s) && t in s.txs && s.txs[t].phase.Existing? && s.txs[t].request == RequestFor(digest, slot, endpoint, body)
    requires slot in s.rows && s.rows[slot].endpoint == first && s.rows[slot].hash == RequestHash.HashOf(digest, original)
    ensures var looked := Attempt(lockOf, s, Look(t));
            && (looked.Moves? <==> endpoint == first && CanonicalJson.Meaning(body) == CanonicalJson.Meaning(original))
            && (looked.Moves? ==> s.rows[slot].response.Some?
                                  && looked.next == Put(s, t, Replaying(s.rows[slot].response.value)))
            && (!looked.Moves? ==> looked == Refused(OtherRequest))
  {
    RequestHash.SameHashIffSameMeaning(digest, body, original);
    var k: nat :| Backed(s.effects, slot, s.rows[slot], k);
  }
}
