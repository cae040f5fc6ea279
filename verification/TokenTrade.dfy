/** Jupiter trades: instructions/token.rs. The route is foreign; the trade is bounded only by
    measuring the trader's own balances before and after it. */
module TokenTrade {
  import opened Runtime
  import opened State
  import opened Bank
  import opened Bytes
  import opened TokenLedger

  datatype TradeArgs = TradeArgs(
    inAmount: u64, minOut: u64, inputMint: Key, outputMint: Key, wrapSol: bool, jupiterData: seq<u8>)

  /** `policy::token_check_grant_amount`: only SOL and WSOL input is metered. */
  function GrantAmount(args: TradeArgs): u64 {
    if args.wrapSol || args.inputMint == WsolMint then args.inAmount else 0
  }

  predicate NamesAmount(data: seq<u8>, amount: u64)
    requires |data| >= 8
  {
    exists i | 8 <= i <= |data| - 8 :: Window(data, i) == LittleEndian(amount, 8)
  }

  function Window(data: seq<u8>, i: nat): seq<u8>
    requires i + 8 <= |data|
  {
    data[i..i + 8]
  }

  /** The checks on the arguments alone, in order. */
  function ArgsChecked(args: TradeArgs, sp: Sponsorship): Result<()> {
    var _ :- Require(args.inAmount > 0, ZeroAmount);
    var _ :- Require(args.inputMint != args.outputMint, ZeroAmount);
    var _ :- Require(args.wrapSol ==> args.inputMint == WsolMint, TokenWrapMintMustBeWsol);
    var _ :- SponsorPrechecked(sp);
    var _ :- Require(|args.jupiterData| >= 8, JupiterEmptyDataForbidden);
    Require(NamesAmount(args.jupiterData, args.inAmount), JupiterInAmountMismatch)
  }

  // ----- Finding the measured accounts -----

  predicate Matches(tokens: Tokens, k: Key, owner: Key, mint: Key) {
    k in tokens && IsTokenProgram(tokens[k].program) && tokens[k].mint == mint && tokens[k].owner == owner
  }

  function FirstMatch(tokens: Tokens, remaining: seq<Key>, owner: Key, mint: Key): (found: Option<Key>)
    ensures found.Some? ==> found.value in remaining && Matches(tokens, found.value, owner, mint)
  {
    if remaining == [] then None else
    var earlier := FirstMatch(tokens, remaining[..|remaining| - 1], owner, mint);
    if earlier.Some? then earlier else
    var last := remaining[|remaining| - 1];
    if Matches(tokens, last, owner, mint) then Some(last) else None
  }

  method FindTraderTokenAccount(tokens: Tokens, remaining: seq<Key>, owner: Key, mint: Key) returns (found: Option<Key>)
    ensures found == FirstMatch(tokens, remaining, owner, mint)
  {
    for i := 0 to |remaining|
      invariant FirstMatch(tokens, remaining[..i], owner, mint) == None
    {
      FirstMatchNext(tokens, remaining, i, owner, mint);
      if Matches(tokens, remaining[i], owner, mint) {
        FirstMatchStays(tokens, remaining, i + 1, owner, mint);
        return Some(remaining[i]);
      }
    }
    assert remaining[..|remaining|] == remaining;
    return None;
  }

  lemma FirstMatchNext(tokens: Tokens, remaining: seq<Key>, i: nat, owner: Key, mint: Key)
    requires i < |remaining| && FirstMatch(tokens, remaining[..i], owner, mint) == None
    ensures FirstMatch(tokens, remaining[..i + 1], owner, mint)
         == if Matches(tokens, remaining[i], owner, mint) then Some(remaining[i]) else None
  {
    assert remaining[..i + 1][..i] == remaining[..i];
  }

  lemma {:induction false} FirstMatchStays(tokens: Tokens, remaining: seq<Key>, n: nat, owner: Key, mint: Key)
    requires n <= |remaining| && FirstMatch(tokens, remaining[..n], owner, mint).Some?
    ensures FirstMatch(tokens, remaining, owner, mint) == FirstMatch(tokens, remaining[..n], owner, mint)
    decreases |remaining|
  {
    if n == |remaining| {
      assert remaining[..n] == remaining;
    } else {
      assert remaining[..|remaining| - 1][..n] == remaining[..n];
      FirstMatchStays(tokens, remaining[..|remaining| - 1], n, owner, mint);
    }
  }

  // ----- The trade -----

  /** The source account's tokens before the route, and everything else as it stands then. */
  datatype Bracket = Bracket(source: Key, dest: Key, world: World)

  function Wrapped(w: World, source: Key, amount: u64, remaining: seq<Key>): (r: Result<World>)
    requires source in w.tokens
    ensures r.Ok? ==> SameExceptFunds(w, r.value) && r.value.grants == w.grants
  {
    var need := amount + TRADER_RENT;
    var _ :- Require(need <= U64_MAX, LamportOverflow);
    var _ :- Require(w.Balance(w.Trader()) >= need, PumpTraderUnderfunded);
    var _ :- Require(SystemProgram in remaining, PumpPdaMismatch);
    var _ :- Require(w.tokens[source].program == TokenProgram, InvalidTokenProgram);
    var lamports :- Moved(w.lamports, Move(w.Trader(), source, amount));
    var account :- Synced(w.tokens[source], BalanceOf(lamports, source));
    Ok(w.(lamports := lamports, tokens := w.tokens[source := account]))
  }

  /** `SyncNative`: a wrapped account's amount becomes its lamports above its rent. */
  function Synced(account: TokenAccount, lamports: u64): Result<TokenAccount> {
    if lamports < TOKEN_ACCOUNT_RENT then Err(ArithmeticOverflow) else
    var _ :- Require(account.amount <= lamports - TOKEN_ACCOUNT_RENT, InvalidState);
    Ok(account.(amount := lamports - TOKEN_ACCOUNT_RENT))
  }

  /** The accounts of the instruction itself. */
  function TradeAccounts(w: World, agent: Signer, sp: Sponsorship): Result<()> {
    var _ :- IntentAccounts(w, agent, sp);
    Require(sp.feePayer != Some(agent), AgentCannotFeePay)
  }

  /** Everything before the route runs. */
  function TradeOpened(w: World, agent: Signer, args: TradeArgs, sp: Sponsorship,
                       remaining: seq<Key>): (r: Result<Bracket>)
    ensures r.Ok? ==> r.value.source in r.value.world.tokens && r.value.dest in r.value.world.tokens
    ensures r.Ok? ==> SameExceptFunds(w, r.value.world) && MeteredOnce(w, r.value.world, agent, GrantAmount(args))
    ensures r.Ok? ==> w.Vault() !in remaining && r.value.source in remaining && r.value.dest in remaining
    ensures r.Ok? ==> agent in w.grants && (sp.paymaster ==> w.paymaster.Some?)
  {
    var _ :- TradeAccounts(w, agent, sp);
    var _ :- ArgsChecked(args, sp);
    var _ :- Require(w.Trader() in remaining, PumpUserMustBeTrader);
    var _ :- TraderReady(w);
    var passed := if sp.paymaster then Some(w.PaymasterKey()) else None;
    var _ :- Require(NoneProtected(remaining, w.Vault(), passed), ProtectedAccountInRemaining);
    var source := FirstMatch(w.tokens, remaining, w.Trader(), args.inputMint);
    if source.None? then Err(JupiterSourceOwnerNotTrader) else
    var dest := FirstMatch(w.tokens, remaining, w.Trader(), args.outputMint);
    if dest.None? then Err(JupiterDestOwnerNotTrader) else
    var w1 :- GrantChecked(w, agent, GrantAmount(args));
    var w2 :- if args.wrapSol then Wrapped(w1, source.value, args.inAmount, remaining) else Ok(w1);
    Ok(Bracket(source.value, dest.value, w2))
  }

  /** The route has run: measure what it did and hold it to the bounds. */
  function TradeClosed(b: Bracket, after: World, args: TradeArgs): Result<()>
    requires b.source in b.world.tokens && b.dest in b.world.tokens
  {
    if b.source !in after.tokens || b.dest !in after.tokens then Err(JupiterSourceOwnerNotTrader) else
    var spent := SaturatingSub(b.world.tokens[b.source].amount, after.tokens[b.source].amount);
    var received := SaturatingSub(after.tokens[b.dest].amount, b.world.tokens[b.dest].amount);
    var _ :- Require(spent <= args.inAmount, JupiterOverspent);
    Require(received >= args.minOut, JupiterMinOutNotMet)
  }

  /** From the route on: run it, measure it, and reimburse the sponsor. */
  function RouteFinished(b: Bracket, agent: Signer, args: TradeArgs, sp: Sponsorship, remaining: seq<Key>,
                         route: Inner): (r: Result<World>)
    requires b.source in b.world.tokens && b.dest in b.world.tokens
    requires agent in b.world.grants && (sp.paymaster ==> b.world.paymaster.Some?)
    ensures r.Ok? ==> SameExceptFunds(b.world, r.value) && r.value.grants == b.world.grants
  {
    var w1 :- Invoked(b.world, remaining, route, true);
    var _ :- TradeClosed(b, w1, args);
    SponsorReimbursed(w1, agent, sp)
  }

  function Traded(w: World, agent: Signer, args: TradeArgs, sp: Sponsorship, remaining: seq<Key>,
                  route: Inner): (r: Result<World>)
    ensures r.Ok? ==> SameExceptFunds(w, r.value) && MeteredOnce(w, r.value, agent, GrantAmount(args))
  {
    var b :- TradeOpened(w, agent, args, sp, remaining);
    RouteFinished(b, agent, args, sp, remaining, route)
  }

  method WrapSolToWsol(a: Accounts, source: Key, amount: u64, remaining: seq<Key>) returns (r: Result<()>)
    requires source in a.tokens
    modifies a
    ensures match Wrapped(old(a.Snap()), source, amount, remaining)
            case Ok(w) => r == Ok(()) && a.Snap() == w
            case Err(e) => r == Err(e)
  {
    var trader := PumpTraderPda(GrokAccountPda(a.root));
    var need := amount + TRADER_RENT;
    if need > U64_MAX { return Err(LamportOverflow); }
    if BalanceOf(a.lamports, trader) < need { return Err(PumpTraderUnderfunded); }
    if SystemProgram !in remaining { return Err(PumpPdaMismatch); }
    if a.tokens[source].program != TokenProgram { return Err(InvalidTokenProgram); }
    r := MoveLamports(a, trader, source, amount);
    if r.Err? { return; }
    r := SyncNative(a, source);
  }

  method SyncNative(a: Accounts, source: Key) returns (r: Result<()>)
    requires source in a.tokens
    modifies a`tokens
    ensures match Synced(old(a.tokens)[source], BalanceOf(a.lamports, source))
            case Ok(account) => r == Ok(()) && a.tokens == old(a.tokens)[source := account]
            case Err(e) => r == Err(e) && a.tokens == old(a.tokens)
  {
    var lamports := BalanceOf(a.lamports, source);
    if lamports < TOKEN_ACCOUNT_RENT { return Err(ArithmeticOverflow); }
    if a.tokens[source].amount > lamports - TOKEN_ACCOUNT_RENT { return Err(InvalidState); }
    a.tokens := a.tokens[source := a.tokens[source].(amount := lamports - TOKEN_ACCOUNT_RENT)];
    return Ok(());
  }

  /** The instruction up to the route. A failure may leave writes for the runtime to discard. */
  method OpenTrade(a: Accounts, agent: Signer, args: TradeArgs, sp: Sponsorship, remaining: seq<Key>)
    returns (r: Result<Bracket>)
    modifies a
    ensures match TradeOpened(old(a.Snap()), agent, args, sp, remaining)
            case Ok(b) => r == Ok(b) && a.Snap() == b.world
            case Err(e) => r == Err(e)
  {
    var before := a.Snap();
    var ok := TradeAccounts(before, agent, sp);
    if ok.Err? { return Err(ok.error); }
    ok := ArgsChecked(args, sp);
    if ok.Err? { return Err(ok.error); }
    if before.Trader() !in remaining { return Err(PumpUserMustBeTrader); }
    ok := TraderReady(before);
    if ok.Err? { return Err(ok.error); }
    var passed := if sp.paymaster then Some(before.PaymasterKey()) else None;
    ok := RejectProtectedRemaining(remaining, before.Vault(), passed);
    if ok.Err? { return Err(ok.error); }
    var source := FindTraderTokenAccount(a.tokens, remaining, before.Trader(), args.inputMint);
    if source.None? { return Err(JupiterSourceOwnerNotTrader); }
    var dest := FindTraderTokenAccount(a.tokens, remaining, before.Trader(), args.outputMint);
    if dest.None? { return Err(JupiterDestOwnerNotTrader); }
    ok := CheckGrant(a, agent, GrantAmount(args));
    if ok.Err? { return Err(ok.error); }
    if args.wrapSol {
      ok := WrapSolToWsol(a, source.value, args.inAmount, remaining);
      if ok.Err? { return Err(ok.error); }
    }
    return Ok(Bracket(source.value, dest.value, a.Snap()));
  }

  /** The snapshots are taken after any wrap and again after the route. */
  method Trade(a: Accounts, agent: Signer, args: TradeArgs, sp: Sponsorship, remaining: seq<Key>, route: Inner)
    returns (r: Result<()>)
    modifies a
    ensures Atomic(Traded(old(a.Snap()), agent, args, sp, remaining, route), old(a.Snap()), a.Snap(), r)
  {
    var before := a.Snap();
    var bracket := OpenTrade(a, agent, args, sp, remaining);
    if bracket.Err? {
      r := Err(bracket.error);
    } else {
      r := Invoke(a, remaining, route, true);
      if r.Ok? {
        r := TradeClosed(bracket.value, a.Snap(), args);
        if r.Ok? {
          r := ReimburseSponsor(a, agent, sp);
        }
      }
    }
    if r.Err? { a.Rollback(before); }
  }
}
