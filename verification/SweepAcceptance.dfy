/** Exactly when a token sweep, and the withdrawal around it, is accepted: a condition on the balances
    before the first pair, for any list of pairs with any repeats. */
module SweepAcceptance {
  import opened Runtime
  import opened State
  import opened Bank
  import opened TokenLedger
  import opened PumpTrader

  // ----- One pair -----

  /** The trader's account and the root's, of one mint and one token program. */
  predicate PairFits(tokens: Tokens, from: Key, to: Key, trader: Key, root: Key) {
    && from in tokens && to in tokens && !OwnAccount(root, from) && !OwnAccount(root, to)
    && tokens[from].owner == trader && tokens[to].owner == root
    && tokens[from].mint == tokens[to].mint
    && tokens[from].program == tokens[to].program && IsTokenProgram(tokens[from].program)
  }

  lemma PairCheckedIff(tokens: Tokens, from: Key, to: Key, trader: Key, root: Key)
    ensures PairChecked(tokens, from, to, trader, root).Ok? <==> PairFits(tokens, from, to, trader, root)
  {}

  /** The lamports of wrapped SOL cover its amount. */
  predicate Covered(f: Funds, k: Key) {
    k in f.tokens && (IsNative(f.tokens[k]) ==> BalanceOf(f.lamports, k) >= f.tokens[k].amount)
  }

  /** `k` can take in `amount`, with its lamports if it is wrapped SOL. */
  predicate RoomFor(f: Funds, k: Key, amount: int) {
    && k in f.tokens && f.tokens[k].amount + amount <= U64_MAX
    && (IsNative(f.tokens[k]) ==> BalanceOf(f.lamports, k) + amount <= U64_MAX)
  }

  /** The pair fits and its destination has room for all the source holds. */
  predicate FitsNow(f: Funds, from: Key, to: Key, trader: Key, root: Key) {
    PairFits(f.tokens, from, to, trader, root) && Covered(f, from) && RoomFor(f, to, f.tokens[from].amount)
  }

  lemma PairSweptIff(f: Funds, from: Key, to: Key, trader: Key, root: Key)
    requires trader != root
    ensures PairSwept(f, from, to, trader, root).Ok? <==> FitsNow(f, from, to, trader, root)
  {
    PairCheckedIff(f.tokens, from, to, trader, root);
    if PairFits(f.tokens, from, to, trader, root) && f.tokens[from].amount > 0 {
      MoveIff(f, from, to, f.tokens[from].amount);
    }
  }

  lemma MoveIff(f: Funds, from: Key, to: Key, amount: u64)
    requires from in f.tokens && to in f.tokens && from != to && 0 < amount == f.tokens[from].amount
    requires f.tokens[from].mint == f.tokens[to].mint && f.tokens[from].program == f.tokens[to].program
    ensures FundsMoved(f, f.tokens[from].program, from, to, amount).Ok? <==> Covered(f, from) && RoomFor(f, to, amount)
  {}

  // ----- A list of pairs -----

  /** The pair fits, with room for `received` at its destination. */
  predicate FitsFor(f: Funds, from: Key, to: Key, received: int, trader: Key, root: Key) {
    PairFits(f.tokens, from, to, trader, root) && Covered(f, from) && RoomFor(f, to, received)
  }

  lemma FitsForLess(f: Funds, from: Key, to: Key, received: int, less: int, trader: Key, root: Key)
    requires less <= received && FitsFor(f, from, to, received, trader, root)
    ensures FitsFor(f, from, to, less, trader, root)
  {}

  /** Pair `i` fits as things stand before the first pair, and its destination has room for all it
      receives in the first `n`. */
  ghost predicate FitsAmong(f: Funds, list: seq<Key>, n: nat, i: nat, trader: Key, root: Key)
    requires 2 * n <= |list| && 2 * i + 1 < |list|
  {
    FitsFor(f, Source(list, i), Target(list, i), Received(f.tokens, list, n, Target(list, i)), trader, root)
  }

  ghost predicate SweepFits(f: Funds, list: seq<Key>, n: nat, trader: Key, root: Key)
    requires 2 * n <= |list|
  {
    forall i: nat | i < n :: FitsAmong(f, list, n, i, trader, root)
  }

  lemma ReceivedOneMore(tokens: Tokens, list: seq<Key>, n: nat, k: Key)
    requires 2 * n + 2 <= |list|
    ensures Received(tokens, list, n, k) <= Received(tokens, list, n + 1, k)
    ensures k != Target(list, n) ==> Received(tokens, list, n, k) == Received(tokens, list, n + 1, k)
  {}

  lemma FitsShorter(f: Funds, list: seq<Key>, n: nat, i: nat, trader: Key, root: Key)
    requires 2 * n + 2 <= |list| && i < n && FitsAmong(f, list, n + 1, i, trader, root)
    ensures FitsAmong(f, list, n, i, trader, root)
  {
    var to := Target(list, i);
    ReceivedOneMore(f.tokens, list, n, to);
    FitsForLess(f, Source(list, i), to, Received(f.tokens, list, n + 1, to), Received(f.tokens, list, n, to),
                trader, root);
  }

  lemma FitsLonger(f: Funds, list: seq<Key>, n: nat, i: nat, trader: Key, root: Key)
    requires 2 * n + 2 <= |list| && i < n && FitsAmong(f, list, n, i, trader, root)
    requires FitsAmong(f, list, n + 1, n, trader, root)
    ensures FitsAmong(f, list, n + 1, i, trader, root)
  {
    ReceivedOneMore(f.tokens, list, n, Target(list, i));
  }

  lemma SweepFitsShorter(f: Funds, list: seq<Key>, n: nat, trader: Key, root: Key)
    requires 2 * n + 2 <= |list| && SweepFits(f, list, n + 1, trader, root)
    ensures SweepFits(f, list, n, trader, root) && FitsAmong(f, list, n + 1, n, trader, root)
  {
    forall i: nat | i < n ensures FitsAmong(f, list, n, i, trader, root) {
      FitsShorter(f, list, n, i, trader, root);
    }
    assert FitsAmong(f, list, n + 1, n, trader, root);
  }

  lemma SweepFitsLonger(f: Funds, list: seq<Key>, n: nat, trader: Key, root: Key)
    requires 2 * n + 2 <= |list| && SweepFits(f, list, n, trader, root)
    requires FitsAmong(f, list, n + 1, n, trader, root)
    ensures SweepFits(f, list, n + 1, trader, root)
  {
    var m := n + 1;
    forall i: nat | i < m ensures FitsAmong(f, list, m, i, trader, root) {
      if i < n { FitsLonger(f, list, n, i, trader, root); }
    }
  }

  // ----- What the pairs before it leave for a pair -----

  lemma PairKeepsSurplus(mid: Funds, after: Funds, from: Key, to: Key, trader: Key, root: Key, k: Key)
    requires PairSwept(mid, from, to, trader, root) == Ok(after)
    requires k in mid.tokens && IsNative(mid.tokens[k])
    ensures k in after.tokens && IsNative(after.tokens[k]) && Surplus(after, k) == Surplus(mid, k)
  {
    if mid.tokens[from].amount > 0 {
      TransferKeepsSurplus(mid, mid.tokens[from].program, from, to, mid.tokens[from].amount, k);
    }
  }

  lemma {:induction false} SweepKeepsSurplus(f: Funds, list: seq<Key>, n: nat, trader: Key, root: Key, after: Funds,
                                             k: Key)
    requires 2 * n <= |list| && PairsSwept(f, list, n, trader, root) == Ok(after)
    requires k in f.tokens && IsNative(f.tokens[k])
    ensures k in after.tokens && IsNative(after.tokens[k]) && Surplus(after, k) == Surplus(f, k)
    decreases n
  {
    if n == 0 {
      NoPairs(f, list, trader, root);
    } else {
      var mid := LastPair(f, list, n - 1, trader, root, after);
      SweepKeepsSurplus(f, list, n - 1, trader, root, mid, k);
      PairKeepsSurplus(mid, after, Source(list, n - 1), Target(list, n - 1), trader, root, k);
    }
  }

  /** One account after the first `n` pairs. */
  ghost predicate Left(f: Funds, mid: Funds, list: seq<Key>, n: nat, k: Key)
    requires 2 * n <= |list| && k in f.tokens
  {
    && k in mid.tokens && SweptTo(f.tokens, mid.tokens, list, n, k)
    && (IsNative(f.tokens[k]) ==> Surplus(mid, k) == Surplus(f, k))
  }

  lemma SweepLeaves(f: Funds, list: seq<Key>, n: nat, trader: Key, root: Key, mid: Funds, k: Key)
    requires trader != root && 2 * n <= |list| && PairsSwept(f, list, n, trader, root) == Ok(mid) && k in f.tokens
    ensures Left(f, mid, list, n, k)
  {
    SweepExactly(f, list, n, trader, root, mid);
    assert SweptTo(f.tokens, mid.tokens, list, n, k);
    if IsNative(f.tokens[k]) { SweepKeepsSurplus(f, list, n, trader, root, mid, k); }
  }

  /** The next pair fits as the first `n` leave it exactly when it fits as things stood before them,
      and its destination has room for all it receives up to then. */
  lemma NextFitsIff(f: Funds, list: seq<Key>, n: nat, trader: Key, root: Key, mid: Funds)
    requires trader != root && 2 * n + 2 <= |list|
    requires PairsSwept(f, list, n, trader, root) == Ok(mid) && SweepFits(f, list, n, trader, root)
    ensures FitsNow(mid, Source(list, n), Target(list, n), trader, root) <==> FitsAmong(f, list, n + 1, n, trader, root)
  {
    StillFits(f, list, n, trader, root, mid);
    if PairFits(f.tokens, Source(list, n), Target(list, n), trader, root) {
      LeftForNext(f, list, n, trader, root, mid);
      LeftFitsIff(f, mid, list, n, trader, root);
    } else {
      FitsNeither(f, mid, list, n, trader, root);
    }
  }

  lemma FitsNeither(f: Funds, mid: Funds, list: seq<Key>, n: nat, trader: Key, root: Key)
    requires 2 * n + 2 <= |list|
    requires !PairFits(mid.tokens, Source(list, n), Target(list, n), trader, root)
    requires !PairFits(f.tokens, Source(list, n), Target(list, n), trader, root)
    ensures !FitsNow(mid, Source(list, n), Target(list, n), trader, root)
    ensures !FitsAmong(f, list, n + 1, n, trader, root)
  {}

  lemma StillFits(f: Funds, list: seq<Key>, n: nat, trader: Key, root: Key, mid: Funds)
    requires trader != root && 2 * n + 2 <= |list| && PairsSwept(f, list, n, trader, root) == Ok(mid)
    ensures PairFits(mid.tokens, Source(list, n), Target(list, n), trader, root)
       <==> PairFits(f.tokens, Source(list, n), Target(list, n), trader, root)
  {
    SweepSameAccount(f, list, n, trader, root, mid, Source(list, n));
    SweepSameAccount(f, list, n, trader, root, mid, Target(list, n));
    FitsSame(f.tokens, mid.tokens, Source(list, n), Target(list, n), trader, root);
  }

  lemma SweepSameAccount(f: Funds, list: seq<Key>, n: nat, trader: Key, root: Key, mid: Funds, k: Key)
    requires trader != root && 2 * n <= |list| && PairsSwept(f, list, n, trader, root) == Ok(mid)
    ensures k in mid.tokens <==> k in f.tokens
    ensures k in f.tokens ==> OnlyAmountDiffers(mid.tokens[k], f.tokens[k])
  {
    SweepExactly(f, list, n, trader, root, mid);
    if k in f.tokens { assert SweptTo(f.tokens, mid.tokens, list, n, k); }
  }

  lemma FitsSame(before: Tokens, after: Tokens, from: Key, to: Key, trader: Key, root: Key)
    requires forall k <- {from, to} :: k in after <==> k in before
    requires forall k <- {from, to} :: k in before ==> OnlyAmountDiffers(after[k], before[k])
    ensures PairFits(after, from, to, trader, root) <==> PairFits(before, from, to, trader, root)
  {
    assert from in {from, to} && to in {from, to};
  }

  lemma LeftForNext(f: Funds, list: seq<Key>, n: nat, trader: Key, root: Key, mid: Funds)
    requires trader != root && 2 * n + 2 <= |list| && PairsSwept(f, list, n, trader, root) == Ok(mid)
    requires PairFits(f.tokens, Source(list, n), Target(list, n), trader, root)
    ensures Left(f, mid, list, n, Source(list, n)) && Left(f, mid, list, n, Target(list, n))
    ensures Received(f.tokens, list, n, Source(list, n)) == 0 && !SweptSource(list, n, Target(list, n))
  {
    var from, to := Source(list, n), Target(list, n);
    SweepLeaves(f, list, n, trader, root, mid, from);
    SweepLeaves(f, list, n, trader, root, mid, to);
    SweepExactly(f, list, n, trader, root, mid);
    NotPairedNotPaid(f.tokens, list, n, trader, root, from);
    NotSource(f.tokens, list, n, trader, root, to);
  }

  lemma LeftFitsIff(f: Funds, mid: Funds, list: seq<Key>, n: nat, trader: Key, root: Key)
    requires 2 * n + 2 <= |list| && SweepFits(f, list, n, trader, root)
    requires PairFits(f.tokens, Source(list, n), Target(list, n), trader, root)
    requires PairFits(mid.tokens, Source(list, n), Target(list, n), trader, root)
    requires Left(f, mid, list, n, Source(list, n)) && Left(f, mid, list, n, Target(list, n))
    requires Received(f.tokens, list, n, Source(list, n)) == 0 && !SweptSource(list, n, Target(list, n))
    ensures FitsNow(mid, Source(list, n), Target(list, n), trader, root) <==> FitsAmong(f, list, n + 1, n, trader, root)
  {
    var from, to := Source(list, n), Target(list, n);
    assert Received(f.tokens, list, n + 1, to) == Received(f.tokens, list, n, to) + mid.tokens[from].amount;
    if SweptSource(list, n, from) {
      var i: nat :| i < n && Source(list, i) == from;
      assert FitsAmong(f, list, n, i, trader, root);
    }
  }

  /** The sweep is accepted exactly when every pair fits on the accounts as they are, every native
      source holds the lamports of its amount, and no destination overflows with all it receives. */
  lemma {:induction false} SweepAcceptedIff(f: Funds, list: seq<Key>, n: nat, trader: Key, root: Key)
    requires trader != root && 2 * n <= |list|
    ensures PairsSwept(f, list, n, trader, root).Ok? <==> SweepFits(f, list, n, trader, root)
  {
    if n == 0 {
      NoPairs(f, list, trader, root);
    } else {
      SweepAcceptedIff(f, list, n - 1, trader, root);
      if SweepFits(f, list, n, trader, root) { SweepFitsShorter(f, list, n - 1, trader, root); }
      if PairsSwept(f, list, n - 1, trader, root).Ok? {
        OneMoreAcceptedIff(f, list, n - 1, trader, root, PairsSwept(f, list, n - 1, trader, root).value);
      } else {
        SweepStops(f, list, n - 1, n, trader, root);
      }
    }
  }

  lemma OneMoreAcceptedIff(f: Funds, list: seq<Key>, n: nat, trader: Key, root: Key, mid: Funds)
    requires trader != root && 2 * n + 2 <= |list|
    requires PairsSwept(f, list, n, trader, root) == Ok(mid) && SweepFits(f, list, n, trader, root)
    ensures PairsSwept(f, list, n + 1, trader, root).Ok? <==> SweepFits(f, list, n + 1, trader, root)
  {
    NextPair(f, list, n, trader, root, mid);
    PairSweptIff(mid, Source(list, n), Target(list, n), trader, root);
    NextFitsIff(f, list, n, trader, root, mid);
    if SweepFits(f, list, n + 1, trader, root) {
      SweepFitsShorter(f, list, n, trader, root);
    } else if FitsAmong(f, list, n + 1, n, trader, root) {
      SweepFitsLonger(f, list, n, trader, root);
    }
  }

  // ----- A withdrawal -----

  /** The lamports once the root has been paid what it asked for. */
  function PaidOut(w: World, lamports: u64): Lamports
    requires w.Balance(w.Trader()) >= lamports && w.Balance(w.root) + lamports <= U64_MAX
  {
    if lamports == 0 then w.lamports else
    w.lamports[w.Trader() := w.Balance(w.Trader()) - lamports][w.root := w.Balance(w.root) + lamports]
  }

  lemma WithdrawAcceptedIff(w: World, caller: Signer, lamports: u64, list: seq<Key>)
    ensures TraderWithdrawn(w, caller, lamports, list).Ok? <==>
      && caller == w.root && |list| % 2 == 0
      && w.Trader() !in w.tokens && w.Balance(w.Trader()) >= lamports + TRADER_RENT
      && w.Balance(w.root) + lamports <= U64_MAX
      && SweepFits(Books(PaidOut(w, lamports), w.tokens), list, |list| / 2, w.Trader(), w.root)
  {
    if w.Balance(w.Trader()) >= lamports + TRADER_RENT && w.Balance(w.root) + lamports <= U64_MAX && |list| % 2 == 0 {
      LamportsOut(w, lamports);
      SweepAcceptedIff(Books(PaidOut(w, lamports), w.tokens), list, |list| / 2, w.Trader(), w.root);
    }
  }

  lemma LamportsOut(w: World, lamports: u64)
    requires w.Balance(w.Trader()) >= lamports + TRADER_RENT && w.Balance(w.root) + lamports <= U64_MAX
    ensures LamportsWithdrawn(w, lamports) == Ok(w.(lamports := PaidOut(w, lamports)))
  {}
}
