/** Conservation: what the accounts hold, in terms of reversal chains. */
module BillingBalance {
  import opened Outcomes
  import opened Journal
  import opened Billing
  import opened BillingInvariant

  // ---------------------------------------------------------------- sums over sets of entries

  ghost function Sum(s: set<Id>, g: map<Id, int>): int
    requires s <= g.Keys
  {
    if s == {} then 0
    else
      var x :| x in s;
      g[x] + Sum(s - {x}, g)
  }

  lemma {:induction false} SumTake(s: set<Id>, g: map<Id, int>, x: Id)
    requires s <= g.Keys && x in s
    ensures Sum(s, g) == g[x] + Sum(s - {x}, g)
    decreases |s|
  {
    var y :| y in s && Sum(s, g) == g[y] + Sum(s - {y}, g);
    if y != x {
      SumTake(s - {y}, g, x);
      SumTake(s - {x}, g, y);
      assert s - {y} - {x} == s - {x} - {y};
    }
  }

  lemma {:induction false} SumUnion(a: set<Id>, b: set<Id>, g: map<Id, int>)
    requires a !! b && a + b <= g.Keys
    ensures Sum(a + b, g) == Sum(a, g) + Sum(b, g)
    decreases |a|
  {
    if a == {} {
      assert a + b == b;
    } else {
      var x :| x in a;
      SumTake(a, g, x);
      SumTake(a + b, g, x);
      assert a + b - {x} == (a - {x}) + b;
      SumUnion(a - {x}, b, g);
    }
  }

  lemma {:induction false} SumCongruent(s: set<Id>, g: map<Id, int>, h: map<Id, int>)
    requires s <= g.Keys && s <= h.Keys && forall x | x in s :: g[x] == h[x]
    ensures Sum(s, g) == Sum(s, h)
    decreases |s|
  {
    if s != {} {
      var x :| x in s;
      SumTake(s, g, x);
      SumTake(s, h, x);
      SumCongruent(s - {x}, g, h);
    }
  }

  /** Sum of a difference, where `less` is only defined on part of the set. */
  lemma {:induction false} SumDifference(s: set<Id>, part: set<Id>, g: map<Id, int>, whole: map<Id, int>, less: map<Id, int>)
    requires s <= g.Keys && s <= whole.Keys && part <= less.Keys
    requires forall x | x in s :: g[x] == whole[x] - (if x in part then less[x] else 0)
    ensures Sum(s, g) == Sum(s, whole) - Sum(s * part, less)
    decreases |s|
  {
    if s == {} {
      assert s * part == {};
    } else {
      var x :| x in s;
      SumTake(s, g, x);
      SumTake(s, whole, x);
      SumDifference(s - {x}, part, g, whole, less);
      if x in part {
        SumTake(s * part, less, x);
        assert s * part - {x} == (s - {x}) * part;
      } else {
        assert s * part == (s - {x}) * part;
      }
    }
  }

  function Image(s: set<Id>, f: map<Id, Id>): set<Id>
    requires s <= f.Keys
  {
    set x | x in s :: f[x]
  }

  /** Summing g after a one-to-one f is summing g over the image of f. */
  lemma {:induction false} SumReindex(s: set<Id>, f: map<Id, Id>, g: map<Id, int>, gf: map<Id, int>)
    requires s <= f.Keys && s <= gf.Keys
    requires forall x | x in s :: f[x] in g && gf[x] == g[f[x]]
    requires forall x, y | x in s && y in s && x != y :: f[x] != f[y]
    ensures Image(s, f) <= g.Keys && Sum(s, gf) == Sum(Image(s, f), g)
    decreases |s|
  {
    if s == {} {
      assert Image(s, f) == {};
    } else {
      var x :| x in s;
      SumTake(s, gf, x);
      SumReindex(s - {x}, f, g, gf);
      assert Image(s, f) - {f[x]} == Image(s - {x}, f);
      SumTake(Image(s, f), g, f[x]);
    }
  }

  /** If each node's own value is its chain's value less its successor's, the values of all nodes
      sum to the chain values of the nodes that succeed none. */
  lemma SumByHeads(all: set<Id>, heads: set<Id>, next: map<Id, Id>, own: map<Id, int>, chain: map<Id, int>)
    requires own.Keys == all == chain.Keys && next.Keys <= all
    requires heads !! Image(next.Keys, next) && heads + Image(next.Keys, next) == all
    requires forall x, y | x in next && y in next && x != y :: next[x] != next[y]
    requires forall x | x in all ::
      (x in next ==> next[x] in all) && own[x] == chain[x] - (if x in next then chain[next[x]] else 0)
    ensures Sum(all, own) == Sum(heads, chain)
  {
    var rest := map x | x in next :: chain[next[x]];
    SumDifference(all, next.Keys, own, chain, rest);
    assert all * next.Keys == next.Keys;
    SumReindex(next.Keys, next, chain, rest);
    SumUnion(heads, Image(next.Keys, next), chain);
  }

  // ---------------------------------------------------------------- balances

  function SignedMap(db: Db, account: Id): map<Id, int> {
    map e | e in db.entries :: Signed(db.entries[e].rows, account)
  }

  /** Debits minus credits of an account over every posted entry. */
  ghost function AccountBalance(db: Db, account: Id): int {
    Sum(db.entries.Keys, SignedMap(db, account))
  }

  function DebitMap(db: Db): map<Id, int> { map e | e in db.entries :: DebitSum(db.entries[e].rows) as int }

  function CreditMap(db: Db): map<Id, int> { map e | e in db.entries :: CreditSum(db.entries[e].rows) as int }

  /** After every commit of every interleaving, total debit equals total credit. */
  lemma TrialBalance(actions: seq<Action>)
    ensures var db := Run(EMPTY, actions).db;
            Sum(db.entries.Keys, DebitMap(db)) == Sum(db.entries.Keys, CreditMap(db))
  {
    InvInitially();
    RunKeeps(EMPTY, actions);
    var db := Run(EMPTY, actions).db;
    assert forall e | e in db.entries :: EntryOk(db, db.entries[e]);
    SumCongruent(db.entries.Keys, DebitMap(db), CreditMap(db));
  }

  // ---------------------------------------------------------------- chains

  /** Entries on the chain from e along `reversed_by`, e included. */
  function ChainLength(db: Db, nextId: Id, e: Id): (n: nat)
    requires EntriesOk(db, nextId) && e in db.entries
    ensures n >= 1
    decreases nextId - e
  {
    match db.entries[e].reversedBy
    case None => 1
    case Some(r) => assert ReversalOf(db, e, r); 1 + ChainLength(db, nextId, r)
  }

  /** What the whole chain from e contributes to an account. */
  function ChainSum(db: Db, nextId: Id, e: Id, account: Id): int
    requires EntriesOk(db, nextId) && e in db.entries
    decreases nextId - e
  {
    Signed(db.entries[e].rows, account) +
    match db.entries[e].reversedBy
    case None => 0
    case Some(r) => assert ReversalOf(db, e, r); ChainSum(db, nextId, r, account)
  }

  /** A chain of odd length is worth its first entry, one of even length nothing. */
  function ChainWorth(db: Db, nextId: Id, e: Id, account: Id): int
    requires EntriesOk(db, nextId) && e in db.entries
  {
    if ChainLength(db, nextId, e) % 2 == 1 then Signed(db.entries[e].rows, account) else 0
  }

  lemma {:induction false} ChainAlternates(db: Db, nextId: Id, e: Id, account: Id)
    requires EntriesOk(db, nextId) && e in db.entries
    ensures ChainSum(db, nextId, e, account) == ChainWorth(db, nextId, e, account)
    decreases nextId - e
  {
    if db.entries[e].reversedBy.Some? {
      var r := db.entries[e].reversedBy.value;
      assert ReversalOf(db, e, r);
      ChainAlternates(db, nextId, r, account);
      MirrorsEffect(db.entries[e].rows, db.entries[r].rows, account);
    }
  }

  function ReversedIds(db: Db): set<Id> { set e | e in db.entries && db.entries[e].reversedBy.Some? }

  /** The first entries of the chains: those that reverse nothing. */
  function ChainHeads(db: Db): set<Id> {
    set h | h in db.entries && forall e | e in db.entries :: db.entries[e].reversedBy != Some(h)
  }

  function ChainMap(db: Db, nextId: Id, account: Id): map<Id, int>
    requires EntriesOk(db, nextId)
  {
    map e | e in db.entries :: ChainSum(db, nextId, e, account)
  }

  /** The map e -> the entry that reverses it. */
  function ReverserMap(db: Db): map<Id, Id> { map e | e in ReversedIds(db) :: db.entries[e].reversedBy.value }

  function WorthMap(db: Db, nextId: Id, account: Id): map<Id, int>
    requires EntriesOk(db, nextId)
  {
    map e | e in db.entries :: ChainWorth(db, nextId, e, account)
  }

  /** Every entry either starts a chain or reverses exactly one other. */
  lemma ChainPartition(db: Db, nextId: Id)
    requires EntriesOk(db, nextId)
    ensures Image(ReverserMap(db).Keys, ReverserMap(db)) !! ChainHeads(db)
    ensures ChainHeads(db) + Image(ReverserMap(db).Keys, ReverserMap(db)) == db.entries.Keys
    ensures forall e, f | e in ReverserMap(db) && f in ReverserMap(db) && e != f :: ReverserMap(db)[e] != ReverserMap(db)[f]
  {
    forall e | e in ReversedIds(db) ensures ReverserMap(db)[e] in db.entries {
      assert ReversalOf(db, e, db.entries[e].reversedBy.value);
    }
    forall h | h in db.entries && h !in ChainHeads(db) ensures h in Image(ReverserMap(db).Keys, ReverserMap(db)) {
      var e :| e in db.entries && db.entries[e].reversedBy == Some(h);
      assert ReverserMap(db)[e] == h;
    }
  }

  /** An entry's own amount is what its chain contributes less what the rest of the chain does. */
  lemma SignedIsChainLessRest(db: Db, nextId: Id, account: Id, e: Id)
    requires EntriesOk(db, nextId) && e in db.entries
    ensures e in ReversedIds(db) ==> ReverserMap(db)[e] in db.entries
    ensures Signed(db.entries[e].rows, account)
         == ChainSum(db, nextId, e, account)
            - (if e in ReversedIds(db) then ChainSum(db, nextId, ReverserMap(db)[e], account) else 0)
  {
  }

  /** The balance is the sum of what whole chains contribute. */
  lemma BalanceByChainSums(db: Db, nextId: Id, account: Id)
    requires EntriesOk(db, nextId)
    ensures AccountBalance(db, account) == Sum(ChainHeads(db), ChainMap(db, nextId, account))
  {
    forall e | e in db.entries
      ensures e in ReverserMap(db) ==> ReverserMap(db)[e] in db.entries
      ensures SignedMap(db, account)[e]
           == ChainMap(db, nextId, account)[e]
              - (if e in ReverserMap(db) then ChainMap(db, nextId, account)[ReverserMap(db)[e]] else 0)
    {
      SignedIsChainLessRest(db, nextId, account, e);
    }
    ChainPartition(db, nextId);
    SumByHeads(db.entries.Keys, ChainHeads(db), ReverserMap(db), SignedMap(db, account), ChainMap(db, nextId, account));
  }

  /** Every account's balance is the sum, over the chains, of the first entry's amount where the
      chain has odd length and of nothing where it has even length. */
  lemma BalanceByChains(db: Db, nextId: Id, account: Id)
    requires EntriesOk(db, nextId)
    ensures AccountBalance(db, account) == Sum(ChainHeads(db), WorthMap(db, nextId, account))
  {
    BalanceByChainSums(db, nextId, account);
    forall e | e in ChainHeads(db) ensures ChainMap(db, nextId, account)[e] == WorthMap(db, nextId, account)[e] {
      ChainAlternates(db, nextId, e, account);
    }
    SumCongruent(ChainHeads(db), ChainMap(db, nextId, account), WorthMap(db, nextId, account));
  }

  /** … in every state of every interleaving. */
  lemma BalanceByChainsAlways(actions: seq<Action>, account: Id)
    ensures var s := Run(EMPTY, actions);
            EntriesOk(s.db, s.nextId)
            && AccountBalance(s.db, account) == Sum(ChainHeads(s.db), WorthMap(s.db, s.nextId, account))
  {
    InvInitially();
    RunKeeps(EMPTY, actions);
    var s := Run(EMPTY, actions);
    BalanceByChains(s.db, s.nextId, account);
  }

  /** The commit of a reversal takes exactly the original's amount off every account. */
  lemma ReversalUndoes(db: Db, nextId: Id, tx: Tx, account: Id)
    requires tx.ReverseMarked? && TxOk(db, nextId, tx)
    ensures AccountBalance(Published(db, tx).value, account)
         == AccountBalance(db, account) - Signed(db.entries[tx.rev.entry].rows, account)
  {
    var after := Published(db, tx).value;
    MirrorsEffect(db.entries[tx.rev.entry].rows, tx.entry.rows, account);
    var before := db.entries.Keys;
    SumTake(after.entries.Keys, SignedMap(after, account), tx.id);
    assert after.entries.Keys - {tx.id} == before;
    SumCongruent(before, SignedMap(after, account), SignedMap(db, account));
  }
}
