/** The trader address and its token sweep: instructions/pump_trader.rs. */
module PumpTrader {
  import opened Runtime
  import opened State
  import opened Bank
  import opened TokenLedger

  function TraderInitialized(w: World, caller: Signer): Result<World> {
    var _ :- Require(caller == w.root, UnauthorizedRoot);
    var _ :- Require(w.Balance(w.Trader()) == 0 && w.Trader() !in w.tokens, PumpTraderAlreadyExists);
    var lamports :- Moved(w.lamports, Move(w.root, w.Trader(), TRADER_RENT));
    Ok(w.(lamports := lamports))
  }

  function TraderFunded(w: World, caller: Signer, lamports: u64): Result<World> {
    var _ :- Require(caller == w.root, UnauthorizedRoot);
    var _ :- Require(w.vaultOpen, AccountNotInitialized);
    var _ :- Require(lamports > 0, ZeroAmount);
    var _ :- TraderReady(w);
    VaultDebited(w, w.Trader(), lamports)
  }

  /** One pair: everything the trader's account holds goes to the root's account. */
  function PairSwept(f: Funds, from: Key, to: Key, trader: Key, root: Key): Result<Funds> {
    var _ :- PairChecked(f.tokens, from, to, trader, root);
    if f.tokens[from].amount == 0 then Ok(f) else
    FundsMoved(f, f.tokens[from].program, from, to, f.tokens[from].amount)
  }

  function PairChecked(tokens: Tokens, from: Key, to: Key, trader: Key, root: Key): (r: Result<()>)
    ensures r.Ok? ==> from in tokens && to in tokens
  {
    if from !in tokens || to !in tokens || OwnAccount(root, from) || OwnAccount(root, to)
    then Err(InvalidTokenProgram) else
    var src, dst := tokens[from], tokens[to];
    var _ :- Require(src.program == dst.program && IsTokenProgram(src.program), InvalidTokenProgram);
    var _ :- Require(src.owner == trader, WithdrawTokenOwnerNotTrader);
    var _ :- Require(dst.owner == root, WithdrawTokenDestOwnerNotRoot);
    Require(src.mint == dst.mint, WithdrawTokenMintMismatch)
  }

  function Source(list: seq<Key>, i: nat): Key
    requires 2 * i + 1 < |list|
  {
    list[2 * i]
  }

  function Target(list: seq<Key>, i: nat): Key
    requires 2 * i + 1 < |list|
  {
    list[2 * i + 1]
  }

  /** The first `n` pairs of the list, in order. */
  function PairsSwept(f: Funds, list: seq<Key>, n: nat, trader: Key, root: Key): Result<Funds>
    requires 2 * n <= |list|
    decreases 2 * n
  {
    if n == 0 then Ok(f) else NthSwept(f, list, n - 1, trader, root)
  }

  /** Pair `i`, after all before it. */
  function NthSwept(f: Funds, list: seq<Key>, i: nat, trader: Key, root: Key): Result<Funds>
    requires 2 * i + 1 < |list|
    decreases 2 * i + 1
  {
    var earlier :- PairsSwept(f, list, i, trader, root);
    PairSwept(earlier, Source(list, i), Target(list, i), trader, root)
  }

  lemma NextPair(f: Funds, list: seq<Key>, i: nat, trader: Key, root: Key, mid: Funds)
    requires 2 * i + 1 < |list| && PairsSwept(f, list, i, trader, root) == Ok(mid)
    ensures PairsSwept(f, list, i + 1, trader, root)
         == PairSwept(mid, Source(list, i), Target(list, i), trader, root)
  {
    assert NthSwept(f, list, i, trader, root) == PairSwept(mid, Source(list, i), Target(list, i), trader, root);
  }

  function LamportsWithdrawn(w: World, lamports: u64): Result<World> {
    if lamports == 0 then Ok(w) else
    var _ :- Require(w.Balance(w.Trader()) >= lamports, InsufficientPumpTrader);
    var _ :- Require(w.Balance(w.Trader()) - lamports >= TRADER_RENT, InsufficientPumpTrader);
    var after :- Moved(w.lamports, Move(w.Trader(), w.root, lamports));
    Ok(w.(lamports := after))
  }

  function TraderWithdrawn(w: World, caller: Signer, lamports: u64, list: seq<Key>): Result<World> {
    var _ :- Require(caller == w.root, UnauthorizedRoot);
    var _ :- Require(|list| % 2 == 0, WithdrawRemainingAccountsOdd);
    var _ :- TraderReady(w);
    var w1 :- LamportsWithdrawn(w, lamports);
    var f :- PairsSwept(w1.AllFunds(), list, |list| / 2, w.Trader(), w.root);
    Ok(w1.(lamports := f.lamports, tokens := f.tokens))
  }

  method InitPumpTrader(a: Accounts, caller: Signer) returns (r: Result<()>)
    modifies a
    ensures Atomic(TraderInitialized(old(a.Snap()), caller), old(a.Snap()), a.Snap(), r)
  {
    var trader := PumpTraderPda(GrokAccountPda(a.root));
    if caller != a.root { return Err(UnauthorizedRoot); }
    if BalanceOf(a.lamports, trader) != 0 || trader in a.tokens { return Err(PumpTraderAlreadyExists); }
    r := MoveLamports(a, a.root, trader, TRADER_RENT);
  }

  method FundPumpTrader(a: Accounts, caller: Signer, lamports: u64) returns (r: Result<()>)
    modifies a
    ensures Atomic(TraderFunded(old(a.Snap()), caller, lamports), old(a.Snap()), a.Snap(), r)
  {
    var trader := PumpTraderPda(GrokAccountPda(a.root));
    if caller != a.root { return Err(UnauthorizedRoot); }
    if !a.vaultOpen { return Err(AccountNotInitialized); }
    if lamports == 0 { return Err(ZeroAmount); }
    r := TraderReady(a.Snap());
    if r.Err? { return; }
    r := DebitSpendVault(a, trader, lamports);
  }

  method SweepTokenPair(a: Accounts, from: Key, to: Key, trader: Key, root: Key) returns (r: Result<()>)
    modifies a`tokens, a`lamports
    ensures Atomic(PairSwept(old(a.AllFunds()), from, to, trader, root), old(a.AllFunds()), a.AllFunds(), r)
  {
    r := PairChecked(a.tokens, from, to, trader, root);
    if r.Err? || a.tokens[from].amount == 0 { return; }
    r := MoveTokens(a, a.tokens[from].program, from, to, a.tokens[from].amount);
  }

  /** Pair `i` of the list, when those before it have taken the funds from `start` to here. */
  method SweepNthPair(a: Accounts, list: seq<Key>, i: nat, trader: Key, root: Key, ghost start: Funds)
    returns (r: Result<()>)
    requires 2 * i + 1 < |list| && PairsSwept(start, list, i, trader, root) == Ok(a.AllFunds())
    modifies a`tokens, a`lamports
    ensures PairsSwept(start, list, i + 1, trader, root) == Outcome(r, a.AllFunds())
  {
    NextPair(start, list, i, trader, root, a.AllFunds());
    r := SweepTokenPair(a, Source(list, i), Target(list, i), trader, root);
  }

  method SweepPairs(a: Accounts, list: seq<Key>, n: nat, trader: Key, root: Key) returns (r: Result<()>)
    requires 2 * n <= |list|
    modifies a`tokens, a`lamports
    ensures PairsSwept(old(a.AllFunds()), list, n, trader, root) == Outcome(r, a.AllFunds())
  {
    ghost var start := a.AllFunds();
    NoPairs(start, list, trader, root);
    for i := 0 to n
      invariant PairsSwept(start, list, i, trader, root) == Ok(a.AllFunds())
    {
      r := SweepNthPair(a, list, i, trader, root, start);
      if r.Err? {
        SweepStops(start, list, i + 1, n, trader, root);
        return;
      }
    }
    r := Ok(());
  }

  lemma {:induction false} SweepStops(f: Funds, list: seq<Key>, i: nat, n: nat, trader: Key, root: Key)
    requires i <= n && 2 * n <= |list| && PairsSwept(f, list, i, trader, root).Err?
    ensures PairsSwept(f, list, n, trader, root) == PairsSwept(f, list, i, trader, root)
  {
    if i < n {
      SweepStops(f, list, i, n - 1, trader, root);
    }
  }

  method WithdrawLamports(a: Accounts, lamports: u64) returns (r: Result<()>)
    modifies a
    ensures Atomic(LamportsWithdrawn(old(a.Snap()), lamports), old(a.Snap()), a.Snap(), r)
  {
    var trader := PumpTraderPda(GrokAccountPda(a.root));
    if lamports == 0 { return Ok(()); }
    if BalanceOf(a.lamports, trader) < lamports { return Err(InsufficientPumpTrader); }
    if BalanceOf(a.lamports, trader) - lamports < TRADER_RENT { return Err(InsufficientPumpTrader); }
    r := MoveLamports(a, trader, a.root, lamports);
  }

  method WithdrawPumpTrader(a: Accounts, caller: Signer, lamports: u64, list: seq<Key>) returns (r: Result<()>)
    modifies a
    ensures Atomic(TraderWithdrawn(old(a.Snap()), caller, lamports, list), old(a.Snap()), a.Snap(), r)
  {
    var before := a.Snap();
    if caller != a.root { return Err(UnauthorizedRoot); }
    if |list| % 2 != 0 { return Err(WithdrawRemainingAccountsOdd); }
    r := TraderReady(before);
    if r.Err? { return; }
    r := WithdrawLamports(a, lamports);
    if r.Ok? { r := SweepPairs(a, list, |list| / 2, before.Trader(), a.root); }
    if r.Err? { a.Rollback(before); }
  }

  // ----- What a sweep does, all pairs together -----

  /** `k` is the source of one of the first `n` pairs. */
  predicate SweptSource(list: seq<Key>, n: nat, k: Key)
    requires 2 * n <= |list|
  {
    exists i: nat | i < n :: Source(list, i) == k
  }

  /** What the first `n` pairs bring to `k`: for each source, however often it is listed, its
      initial holding goes to the destination it is first paired with. */
  function Received(tokens: Tokens, list: seq<Key>, n: nat, k: Key): int
    requires 2 * n <= |list|
    decreases 2 * n
  {
    if n == 0 then 0 else
    var from, to := Source(list, n - 1), Target(list, n - 1);
    Received(tokens, list, n - 1, k)
    + if to == k && from in tokens && !SweptSource(list, n - 1, from) then tokens[from].amount else 0
  }

  /** What the first `n` pairs do to one account. */
  ghost predicate SweptTo(before: Tokens, after: Tokens, list: seq<Key>, n: nat, k: Key)
    requires 2 * n <= |list| && k in before && k in after
  {
    && OnlyAmountDiffers(after[k], before[k])
    && after[k].amount == if SweptSource(list, n, k) then 0 else before[k].amount + Received(before, list, n, k)
  }

  ghost predicate SweepEffect(before: Tokens, after: Tokens, list: seq<Key>, n: nat)
    requires 2 * n <= |list|
  {
    && after.Keys == before.Keys
    && forall k {:trigger SweptTo(before, after, list, n, k)} :: k in before ==> SweptTo(before, after, list, n, k)
  }

  /** The owners the program checks on the first `n` pairs. */
  ghost predicate PairsOwned(tokens: Tokens, list: seq<Key>, n: nat, trader: Key, root: Key)
    requires 2 * n <= |list|
  {
    forall i: nat | i < n ::
      && Source(list, i) in tokens && tokens[Source(list, i)].owner == trader
      && Target(list, i) in tokens && tokens[Target(list, i)].owner == root
  }

  /** Nothing is received by an account that is no destination. */
  lemma {:induction false} NotPairedNotPaid(tokens: Tokens, list: seq<Key>, n: nat, trader: Key, root: Key, k: Key)
    requires 2 * n <= |list| && PairsOwned(tokens, list, n, trader, root)
    requires k in tokens && tokens[k].owner != root
    ensures Received(tokens, list, n, k) == 0
  {
    if n > 0 {
      assert Source(list, n - 1) in tokens;
      assert Target(list, n - 1) != k;
      NotPairedNotPaid(tokens, list, n - 1, trader, root, k);
    }
  }

  lemma {:induction false} NothingReceived(tokens: Tokens, list: seq<Key>, n: nat, k: Key)
    requires 2 * n <= |list| && k !in list
    ensures Received(tokens, list, n, k) == 0
  {
    if n > 0 {
      assert Target(list, n - 1) in list;
      NothingReceived(tokens, list, n - 1, k);
    }
  }

  /** One pair: two different accounts, the first emptied into the second. */
  ghost predicate Emptied(mid: Tokens, after: Tokens, from: Key, to: Key) {
    && from in mid && to in mid && from != to && after.Keys == mid.Keys
    && forall k <- mid :: OnlyAmountDiffers(after[k], mid[k]) && after[k].amount
         == if k == from then 0 else mid[k].amount + if k == to then mid[from].amount else 0
  }

  /** What one pair leaves of the tokens. */
  lemma PairTokens(mid: Funds, after: Funds, from: Key, to: Key, trader: Key, root: Key)
    requires PairSwept(mid, from, to, trader, root) == Ok(after)
    ensures from in mid.tokens && to in mid.tokens
    ensures mid.tokens[from].owner == trader && mid.tokens[to].owner == root
    ensures if mid.tokens[from].amount == 0 then after == mid else
            TokensMoved(mid.tokens, mid.tokens[from].program, from, to, mid.tokens[from].amount) == Ok(after.tokens)
  {}

  lemma AllMovedEmpties(mid: Tokens, after: Tokens, from: Key, to: Key)
    requires from in mid && to in mid && from != to
    requires TokensMoved(mid, mid[from].program, from, to, mid[from].amount) == Ok(after)
    ensures Emptied(mid, after, from, to)
  {}

  lemma PairEmptied(mid: Funds, after: Funds, from: Key, to: Key, trader: Key, root: Key)
    requires trader != root && PairSwept(mid, from, to, trader, root) == Ok(after)
    ensures Emptied(mid.tokens, after.tokens, from, to)
    ensures mid.tokens[from].owner == trader && mid.tokens[to].owner == root
  {
    PairTokens(mid, after, from, to, trader, root);
    if mid.tokens[from].amount > 0 { AllMovedEmpties(mid.tokens, after.tokens, from, to); }
  }

  lemma SweptOneMore(list: seq<Key>, n: nat, k: Key)
    requires 2 * n + 2 <= |list|
    ensures SweptSource(list, n + 1, k) <==> SweptSource(list, n, k) || k == Source(list, n)
  {
    assert SweptSource(list, n, k) ==> SweptSource(list, n + 1, k);
  }

  lemma NotSource(tokens: Tokens, list: seq<Key>, n: nat, trader: Key, root: Key, k: Key)
    requires 2 * n <= |list| && PairsOwned(tokens, list, n, trader, root)
    requires k in tokens && tokens[k].owner != trader
    ensures !SweptSource(list, n, k)
  {}

  /** What one more pair does to one account. */
  lemma SweepOneMore(before: Tokens, mid: Tokens, after: Tokens, list: seq<Key>, n: nat, trader: Key, root: Key, k: Key)
    requires trader != root && 2 * n + 2 <= |list| && k in before && mid.Keys == before.Keys
    requires Emptied(mid, after, Source(list, n), Target(list, n))
    requires SweptTo(before, mid, list, n, k)
    requires SweptTo(before, mid, list, n, Source(list, n))
    requires Received(before, list, n, Source(list, n)) == 0
    requires !SweptSource(list, n, Target(list, n))
    ensures SweptTo(before, after, list, n + 1, k)
  {
    SweptOneMore(list, n, k);
    assert Received(before, list, n + 1, k) == Received(before, list, n, k)
      + if Target(list, n) == k && !SweptSource(list, n, Source(list, n)) then before[Source(list, n)].amount else 0;
  }

  lemma OwnedOneMore(tokens: Tokens, list: seq<Key>, n: nat, trader: Key, root: Key)
    requires 2 * n + 2 <= |list| && PairsOwned(tokens, list, n, trader, root)
    requires Source(list, n) in tokens && tokens[Source(list, n)].owner == trader
    requires Target(list, n) in tokens && tokens[Target(list, n)].owner == root
    ensures PairsOwned(tokens, list, n + 1, trader, root)
  {
    forall i: nat | i < n + 1
      ensures Source(list, i) in tokens && tokens[Source(list, i)].owner == trader
      ensures Target(list, i) in tokens && tokens[Target(list, i)].owner == root
    {}
  }

  lemma SweepStep(before: Tokens, mid: Tokens, after: Tokens, list: seq<Key>, n: nat, trader: Key, root: Key)
    requires trader != root && 2 * n + 2 <= |list|
    requires SweepEffect(before, mid, list, n) && PairsOwned(before, list, n, trader, root)
    requires Emptied(mid, after, Source(list, n), Target(list, n))
    requires mid[Source(list, n)].owner == trader && mid[Target(list, n)].owner == root
    ensures SweepEffect(before, after, list, n + 1) && PairsOwned(before, list, n + 1, trader, root)
  {
    var from, to := Source(list, n), Target(list, n);
    assert SweptTo(before, mid, list, n, from) && SweptTo(before, mid, list, n, to);
    OwnedOneMore(before, list, n, trader, root);
    NotPairedNotPaid(before, list, n, trader, root, from);
    NotSource(before, list, n, trader, root, to);
    forall k | k in before ensures SweptTo(before, after, list, n + 1, k) {
      assert SweptTo(before, mid, list, n, k);
      SweepOneMore(before, mid, after, list, n, trader, root, k);
    }
  }

  lemma SweepNothing(tokens: Tokens, list: seq<Key>, trader: Key, root: Key)
    ensures SweepEffect(tokens, tokens, list, 0) && PairsOwned(tokens, list, 0, trader, root)
  {
    forall k | k in tokens ensures SweptTo(tokens, tokens, list, 0, k) {}
  }

  lemma NoPairs(f: Funds, list: seq<Key>, trader: Key, root: Key)
    ensures PairsSwept(f, list, 0, trader, root) == Ok(f)
  {}

  lemma BeforeLast(f: Funds, list: seq<Key>, n: nat, trader: Key, root: Key, after: Funds) returns (mid: Funds)
    requires 2 * n + 2 <= |list| && PairsSwept(f, list, n + 1, trader, root) == Ok(after)
    ensures PairsSwept(f, list, n, trader, root) == Ok(mid)
  {
    mid := LastPair(f, list, n, trader, root, after);
  }

  lemma SweptOnePair(f: Funds, list: seq<Key>, n: nat, trader: Key, root: Key, mid: Funds, after: Funds)
    requires trader != root && 2 * n + 2 <= |list|
    requires PairsSwept(f, list, n, trader, root) == Ok(mid) && PairsSwept(f, list, n + 1, trader, root) == Ok(after)
    requires SweepEffect(f.tokens, mid.tokens, list, n) && PairsOwned(f.tokens, list, n, trader, root)
    ensures SweepEffect(f.tokens, after.tokens, list, n + 1) && PairsOwned(f.tokens, list, n + 1, trader, root)
  {
    LastEmptied(f, list, n, trader, root, mid, after);
    SweepStep(f.tokens, mid.tokens, after.tokens, list, n, trader, root);
  }

  lemma SweptNothing(f: Funds, list: seq<Key>, n: nat, trader: Key, root: Key, after: Funds)
    requires n == 0 && PairsSwept(f, list, n, trader, root) == Ok(after)
    ensures SweepEffect(f.tokens, after.tokens, list, n) && PairsOwned(f.tokens, list, n, trader, root)
  {
    NoPairs(f, list, trader, root);
    SweepNothing(f.tokens, list, trader, root);
  }

  /** The sweep, for any list of pairs with any repeats: every listed source ends at zero,
      every destination gains exactly the initial holdings of the distinct sources first
      paired with it, and no other account and no other field changes. */
  lemma {:induction false} SweepExactly(f: Funds, list: seq<Key>, n: nat, trader: Key, root: Key, after: Funds)
    requires trader != root && 2 * n <= |list|
    requires PairsSwept(f, list, n, trader, root) == Ok(after)
    ensures SweepEffect(f.tokens, after.tokens, list, n)
    ensures PairsOwned(f.tokens, list, n, trader, root)
  {
    if n == 0 {
      SweptNothing(f, list, n, trader, root, after);
    } else {
      var mid := BeforeLast(f, list, n - 1, trader, root, after);
      SweepExactly(f, list, n - 1, trader, root, mid);
      SweptOnePair(f, list, n - 1, trader, root, mid, after);
    }
  }

  lemma LastPair(f: Funds, list: seq<Key>, n: nat, trader: Key, root: Key, after: Funds) returns (mid: Funds)
    requires 2 * n + 2 <= |list| && PairsSwept(f, list, n + 1, trader, root) == Ok(after)
    ensures PairsSwept(f, list, n, trader, root) == Ok(mid)
    ensures PairSwept(mid, Source(list, n), Target(list, n), trader, root) == Ok(after)
  {
    assert NthSwept(f, list, n, trader, root) == Ok(after);
    mid := PairsSwept(f, list, n, trader, root).value;
  }

  /** What the last pair does, free of how it is checked. */
  lemma LastEmptied(f: Funds, list: seq<Key>, n: nat, trader: Key, root: Key, mid: Funds, after: Funds)
    requires trader != root && 2 * n + 2 <= |list|
    requires PairsSwept(f, list, n, trader, root) == Ok(mid) && PairsSwept(f, list, n + 1, trader, root) == Ok(after)
    ensures var from, to := Source(list, n), Target(list, n);
      Emptied(mid.tokens, after.tokens, from, to) && mid.tokens[from].owner == trader && mid.tokens[to].owner == root
  {
    NextPair(f, list, n, trader, root, mid);
    PairEmptied(mid, after, Source(list, n), Target(list, n), trader, root);
  }

  lemma PairKeepsSupply(mid: Funds, after: Funds, from: Key, to: Key, trader: Key, root: Key, mint: Key)
    requires PairSwept(mid, from, to, trader, root) == Ok(after)
    ensures MintTotal(after.tokens, mint) == MintTotal(mid.tokens, mint)
  {
    PairTokens(mid, after, from, to, trader, root);
    if mid.tokens[from].amount > 0 {
      TransferKeepsSupply(mid.tokens, mid.tokens[from].program, from, to, mid.tokens[from].amount, mint);
    }
  }

  lemma {:induction false} SweepKeepsSupply(f: Funds, list: seq<Key>, n: nat, trader: Key, root: Key, after: Funds,
                                            mint: Key)
    requires 2 * n <= |list| && PairsSwept(f, list, n, trader, root) == Ok(after)
    ensures MintTotal(after.tokens, mint) == MintTotal(f.tokens, mint)
    decreases n
  {
    if n > 0 {
      var mid := LastPair(f, list, n - 1, trader, root, after);
      SweepKeepsSupply(f, list, n - 1, trader, root, mid, mint);
      PairKeepsSupply(mid, after, Source(list, n - 1), Target(list, n - 1), trader, root, mint);
    }
  }

  // ----- The lamports wrapped SOL takes along -----

  function PairMoves(f: Funds, from: Key, to: Key): seq<Move> {
    if from in f.tokens then NativeMoves(f.tokens, from, to, f.tokens[from].amount) else []
  }

  /** The lamport transfers of the first `n` pairs. */
  function SweepMoves(f: Funds, list: seq<Key>, n: nat, trader: Key, root: Key): seq<Move>
    requires 2 * n <= |list|
    decreases 2 * n
  {
    if n == 0 then [] else
    SweepMoves(f, list, n - 1, trader, root)
    + match PairsSwept(f, list, n - 1, trader, root)
      case Ok(mid) => PairMoves(mid, Source(list, n - 1), Target(list, n - 1))
      case Err(_) => []
  }

  lemma {:induction false} SweepMoved(f: Funds, list: seq<Key>, n: nat, trader: Key, root: Key, after: Funds)
    requires 2 * n <= |list| && PairsSwept(f, list, n, trader, root) == Ok(after)
    ensures MovedAll(f.lamports, SweepMoves(f, list, n, trader, root)) == Ok(after.lamports)
    decreases n
  {
    if n > 0 {
      var mid := LastPair(f, list, n - 1, trader, root, after);
      SweepMoved(f, list, n - 1, trader, root, mid);
      PairMoved(mid, after, Source(list, n - 1), Target(list, n - 1), trader, root);
      MovedConcat(f.lamports, SweepMoves(f, list, n - 1, trader, root),
                  PairMoves(mid, Source(list, n - 1), Target(list, n - 1)));
    }
  }

  lemma PairMoved(mid: Funds, after: Funds, from: Key, to: Key, trader: Key, root: Key)
    requires PairSwept(mid, from, to, trader, root) == Ok(after)
    ensures MovedAll(mid.lamports, PairMoves(mid, from, to)) == Ok(after.lamports)
  {
    if mid.tokens[from].amount > 0 {
      FundsMovedMoves(mid, mid.tokens[from].program, from, to, mid.tokens[from].amount, after);
    }
  }

  /** They run between token accounts, none of them this program's own. */
  predicate BetweenTokenAccounts(moves: seq<Move>, tokens: Tokens, root: Key) {
    forall m <- moves :: m.from in tokens && m.to in tokens && !OwnAccount(root, m.from) && !OwnAccount(root, m.to)
  }

  lemma {:induction false} SweepMovesApart(f: Funds, list: seq<Key>, n: nat, trader: Key, root: Key, after: Funds)
    requires 2 * n <= |list| && PairsSwept(f, list, n, trader, root) == Ok(after)
    ensures after.tokens.Keys == f.tokens.Keys
    ensures BetweenTokenAccounts(SweepMoves(f, list, n, trader, root), f.tokens, root)
    decreases n
  {
    if n > 0 {
      var mid := LastPair(f, list, n - 1, trader, root, after);
      SweepMovesApart(f, list, n - 1, trader, root, mid);
      PairApart(mid, after, Source(list, n - 1), Target(list, n - 1), trader, root);
    }
  }

  lemma PairApart(mid: Funds, after: Funds, from: Key, to: Key, trader: Key, root: Key)
    requires PairSwept(mid, from, to, trader, root) == Ok(after)
    ensures after.tokens.Keys == mid.tokens.Keys
    ensures BetweenTokenAccounts(PairMoves(mid, from, to), mid.tokens, root)
  {}

  // ----- A withdrawal, whole -----

  /** What the root asked for, then what the sweep takes along. */
  function WithdrawMoves(w: World, lamports: u64, list: seq<Key>): seq<Move> {
    (if lamports == 0 then [] else [Move(w.Trader(), w.root, lamports)])
    + match LamportsWithdrawn(w, lamports)
      case Ok(w1) => SweepMoves(w1.AllFunds(), list, |list| / 2, w.Trader(), w.root)
      case Err(_) => []
  }

  lemma WithdrawParts(w: World, caller: Signer, lamports: u64, list: seq<Key>, w': World) returns (w1: World)
    requires TraderWithdrawn(w, caller, lamports, list) == Ok(w')
    ensures caller == w.root && |list| % 2 == 0 && w.Trader() !in w.tokens
    ensures LamportsWithdrawn(w, lamports) == Ok(w1) && w1.tokens == w.tokens && w1.root == w.root
    ensures PairsSwept(w1.AllFunds(), list, |list| / 2, w.Trader(), w.root) == Ok(w'.AllFunds())
    ensures w' == w.(lamports := w'.lamports, tokens := w'.tokens)
    ensures w.Balance(w.Trader()) >= TRADER_RENT
  {
    w1 := LamportsWithdrawn(w, lamports).value;
  }

  lemma LamportsPaid(w: World, lamports: u64, w1: World)
    requires LamportsWithdrawn(w, lamports) == Ok(w1) && w.Balance(w.Trader()) >= TRADER_RENT
    ensures w1.Balance(w.Trader()) == w.Balance(w.Trader()) - lamports >= TRADER_RENT
    ensures w1.Balance(w.root) == w.Balance(w.root) + lamports
    ensures MovedAll(w.lamports, if lamports == 0 then [] else [Move(w.Trader(), w.root, lamports)]) == Ok(w1.lamports)
  {
    if lamports > 0 { OneMove(w.lamports, Move(w.Trader(), w.root, lamports)); }
  }

  lemma WithdrawMoved(w: World, caller: Signer, lamports: u64, list: seq<Key>, w': World)
    requires TraderWithdrawn(w, caller, lamports, list) == Ok(w')
    ensures MovedAll(w.lamports, WithdrawMoves(w, lamports, list)) == Ok(w'.lamports)
  {
    var w1 := WithdrawParts(w, caller, lamports, list, w');
    LamportsPaid(w, lamports, w1);
    SweepMoved(w1.AllFunds(), list, |list| / 2, w.Trader(), w.root, w'.AllFunds());
    MovedConcat(w.lamports, if lamports == 0 then [] else [Move(w.Trader(), w.root, lamports)],
                SweepMoves(w1.AllFunds(), list, |list| / 2, w.Trader(), w.root));
  }

  /** A successful withdrawal, whole: the lamports asked for leave the trader, which keeps its
      rent, and reach the root; the token pairs are swept as above, with every mint's supply
      preserved; and no lamports move beyond those of the wrapped SOL swept. */
  lemma WithdrawExactly(w: World, caller: Signer, lamports: u64, list: seq<Key>, w': World)
    requires TraderWithdrawn(w, caller, lamports, list) == Ok(w')
    ensures caller == w.root && |list| % 2 == 0
    ensures SweepEffect(w.tokens, w'.tokens, list, |list| / 2)
    ensures forall mint :: MintTotal(w'.tokens, mint) == MintTotal(w.tokens, mint)
    ensures w'.Balance(w.Trader()) == w.Balance(w.Trader()) - lamports >= TRADER_RENT
    ensures w.root !in w.tokens ==> w'.Balance(w.root) == w.Balance(w.root) + lamports
    ensures MovedAll(w.lamports, WithdrawMoves(w, lamports, list)) == Ok(w'.lamports)
  {
    var w1 := WithdrawParts(w, caller, lamports, list, w');
    var f, n := w1.AllFunds(), |list| / 2;
    LamportsPaid(w, lamports, w1);
    SweepExactly(f, list, n, w.Trader(), w.root, w'.AllFunds());
    forall mint ensures MintTotal(w'.tokens, mint) == MintTotal(w.tokens, mint) {
      SweepKeepsSupply(f, list, n, w.Trader(), w.root, w'.AllFunds(), mint);
    }
    SweepSpares(f, list, n, w.Trader(), w.root, w'.AllFunds(), w.Trader());
    SweepSpares(f, list, n, w.Trader(), w.root, w'.AllFunds(), w.root);
    WithdrawMoved(w, caller, lamports, list, w');
  }

  /** An account that holds no tokens keeps its lamports through a sweep. */
  lemma SweepSpares(f: Funds, list: seq<Key>, n: nat, trader: Key, root: Key, after: Funds, k: Key)
    requires 2 * n <= |list| && PairsSwept(f, list, n, trader, root) == Ok(after)
    ensures k !in f.tokens || OwnAccount(root, k) ==> BalanceOf(after.lamports, k) == BalanceOf(f.lamports, k)
  {
    SweepMoved(f, list, n, trader, root, after);
    SweepMovesApart(f, list, n, trader, root, after);
    var moves := SweepMoves(f, list, n, trader, root);
    MovesAddUp(f.lamports, moves);
    if k !in f.tokens || OwnAccount(root, k) { Untouched(moves, k); }
  }
}
