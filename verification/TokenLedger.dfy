/** Token movement and `pay_token` (instructions/pay_token.rs). */
module TokenLedger {
  import opened Runtime
  import opened State
  import opened Bank

  predicate IsTokenProgram(key: Key) {
    key == TokenProgram || key == Token2022Program
  }

  /** `Transfer` and `TransferChecked` as the token programs perform them, without fees. */
  function TokensMoved(tokens: Tokens, program: Key, from: Key, to: Key, amount: u64): Result<Tokens> {
    if from !in tokens || to !in tokens then Err(AccountNotInitialized) else
    var _ :- Require(tokens[from].program == program && tokens[to].program == program, InvalidTokenProgram);
    var _ :- Require(tokens[from].mint == tokens[to].mint, PayTokenMintMismatch);
    if tokens[from].amount < amount then Err(InsufficientFunds) else
    if from == to then Ok(tokens) else
    if tokens[to].amount + amount > U64_MAX then Err(ArithmeticOverflow) else
    Ok(tokens[from := tokens[from].(amount := tokens[from].amount - amount)]
             [to := tokens[to].(amount := tokens[to].amount + amount)])
  }

  /** Wrapped SOL, whose lamports move with it. */
  predicate IsNative(account: TokenAccount) {
    account.program == TokenProgram && account.mint == WsolMint
  }

  /** The transfer takes its lamports along. */
  predicate TakesLamports(tokens: Tokens, from: Key, to: Key, amount: u64) {
    from in tokens && from != to && amount > 0 && IsNative(tokens[from])
  }

  /** The lamports a token transfer moves. */
  function NativeMoves(tokens: Tokens, from: Key, to: Key, amount: u64): seq<Move> {
    if TakesLamports(tokens, from, to, amount) then [Move(from, to, amount)] else []
  }

  /** The whole of a token transfer. */
  function FundsMoved(f: Funds, program: Key, from: Key, to: Key, amount: u64): Result<Funds> {
    var tokens :- TokensMoved(f.tokens, program, from, to, amount);
    if !TakesLamports(f.tokens, from, to, amount) then Ok(Books(f.lamports, tokens)) else
    var lamports :- Moved(f.lamports, Move(from, to, amount));
    Ok(Books(lamports, tokens))
  }

  lemma FundsMovedMoves(f: Funds, program: Key, from: Key, to: Key, amount: u64, after: Funds)
    requires FundsMoved(f, program, from, to, amount) == Ok(after)
    ensures MovedAll(f.lamports, NativeMoves(f.tokens, from, to, amount)) == Ok(after.lamports)
    ensures TokensMoved(f.tokens, program, from, to, amount) == Ok(after.tokens)
  {
    if TakesLamports(f.tokens, from, to, amount) { OneMove(f.lamports, Move(from, to, amount)); }
  }

  method MoveTokens(a: Accounts, program: Key, from: Key, to: Key, amount: u64) returns (r: Result<()>)
    modifies a`tokens, a`lamports
    ensures Atomic(FundsMoved(old(a.AllFunds()), program, from, to, amount), old(a.AllFunds()), a.AllFunds(), r)
  {
    var before := a.tokens;
    r := MoveAmounts(a, program, from, to, amount);
    if r.Ok? && from != to && amount > 0 && IsNative(before[from]) {
      r := MoveLamports(a, from, to, amount);
      if r.Err? { a.tokens := before; }
    }
  }

  method MoveAmounts(a: Accounts, program: Key, from: Key, to: Key, amount: u64) returns (r: Result<()>)
    modifies a`tokens
    ensures Atomic(TokensMoved(old(a.tokens), program, from, to, amount), old(a.tokens), a.tokens, r)
  {
    if from !in a.tokens || to !in a.tokens { return Err(AccountNotInitialized); }
    if a.tokens[from].program != program || a.tokens[to].program != program { return Err(InvalidTokenProgram); }
    if a.tokens[from].mint != a.tokens[to].mint { return Err(PayTokenMintMismatch); }
    if a.tokens[from].amount < amount { return Err(InsufficientFunds); }
    if from == to { return Ok(()); }
    if a.tokens[to].amount + amount > U64_MAX { return Err(ArithmeticOverflow); }
    a.tokens := a.tokens[from := a.tokens[from].(amount := a.tokens[from].amount - amount)];
    a.tokens := a.tokens[to := a.tokens[to].(amount := a.tokens[to].amount + amount)];
    return Ok(());
  }

  /** The token accounts named by a payment. */
  datatype TokenRoute = TokenRoute(source: Key, destination: Key, mint: Key, tokenProgram: Key)

  /** The source is the trader's own account for the mint and holds the amount. */
  function SourceChecked(w: World, source: Key, mint: Key, amount: u64): Result<()> {
    if source !in w.tokens || OwnAccount(w.root, source) || !IsTokenProgram(w.tokens[source].program)
    then Err(InvalidTokenProgram) else
    var src := w.tokens[source];
    var _ :- Require(src.mint == mint, PayTokenMintMismatch);
    var _ :- Require(src.owner == w.Trader(), PayTokenSourceOwnerNotTrader);
    Require(src.amount >= amount, PayTokenInsufficient)
  }

  /** The destination holds the mint and its owner is one of `payees`. */
  function DestinationChecked(w: World, destination: Key, mint: Key, payees: seq<Key>): Result<()> {
    if destination !in w.tokens || OwnAccount(w.root, destination) || !IsTokenProgram(w.tokens[destination].program)
    then Err(InvalidTokenProgram) else
    var dst := w.tokens[destination];
    var _ :- Require(dst.mint == mint, PayTokenMintMismatch);
    Require(dst.owner in payees, PayTokenPayeeNotAllowed)
  }

  /** Both token accounts belong to the program that is invoked. */
  function RouteChecked(w: World, route: TokenRoute): Result<()> {
    Require(IsTokenProgram(route.tokenProgram)
            && route.source in w.tokens && w.tokens[route.source].program == route.tokenProgram
            && route.destination in w.tokens && w.tokens[route.destination].program == route.tokenProgram,
            InvalidTokenProgram)
  }

  /** The transfer that ends every token payment. */
  function RouteTransferred(w: World, route: TokenRoute, amount: u64): Result<World> {
    var _ :- RouteChecked(w, route);
    var f :- FundsMoved(w.AllFunds(), route.tokenProgram, route.source, route.destination, amount);
    Ok(w.(lamports := f.lamports, tokens := f.tokens))
  }

  function TokenPaid(w: World, agent: Signer, route: TokenRoute, amount: u64, decimals: u8,
                     sp: Sponsorship): (r: Result<World>)
    ensures r.Ok? ==> SameExceptFunds(w, r.value) && MeteredOnce(w, r.value, agent, amount)
  {
    var _ :- IntentAccounts(w, agent, sp);
    if w.registry.None? then Err(AccountNotInitialized) else
    var reg := w.registry.value;
    var _ :- Require(amount > 0, ZeroAmount);
    var _ :- SponsorPrechecked(sp);
    var _ :- Require(reg.mint == route.mint, PayTokenMintNotRegistered);
    var _ :- SourceChecked(w, route.source, route.mint, amount);
    var _ :- DestinationChecked(w, route.destination, route.mint, reg.merchants);
    if route.mint !in w.mints then Err(InvalidTokenProgram) else
    var _ :- Require(decimals == w.mints[route.mint], PayTokenDecimalsMismatch);
    var w1 :- GrantChecked(w, agent, amount);
    var w2 :- RouteTransferred(w1, route, amount);
    SponsorReimbursed(w2, agent, sp)
  }

  method TransferRoute(a: Accounts, route: TokenRoute, amount: u64) returns (r: Result<()>)
    modifies a
    ensures Atomic(RouteTransferred(old(a.Snap()), route, amount), old(a.Snap()), a.Snap(), r)
  {
    r := RouteChecked(a.Snap(), route);
    if r.Err? { return; }
    r := MoveTokens(a, route.tokenProgram, route.source, route.destination, amount);
  }

  method PayToken(a: Accounts, agent: Signer, route: TokenRoute, amount: u64, decimals: u8, sp: Sponsorship)
    returns (r: Result<()>)
    modifies a
    ensures Atomic(TokenPaid(old(a.Snap()), agent, route, amount, decimals, sp), old(a.Snap()), a.Snap(), r)
  {
    var before := a.Snap();
    r := IntentAccounts(before, agent, sp);
    if r.Err? { return; }
    if a.registry.None? { return Err(AccountNotInitialized); }
    var reg := a.registry.value;
    if amount == 0 { return Err(ZeroAmount); }
    r := SponsorPrechecked(sp);
    if r.Err? { return; }
    if reg.mint != route.mint { return Err(PayTokenMintNotRegistered); }
    r := SourceChecked(before, route.source, route.mint, amount);
    if r.Err? { return; }
    r := DestinationChecked(before, route.destination, route.mint, reg.merchants);
    if r.Err? { return; }
    if route.mint !in a.mints { return Err(InvalidTokenProgram); }
    if decimals != a.mints[route.mint] { return Err(PayTokenDecimalsMismatch); }
    r := CheckGrant(a, agent, amount);
    if r.Err? { return; }
    r := TransferRoute(a, route, amount);
    if r.Err? { a.Rollback(before); return; }
    r := ReimburseSponsor(a, agent, sp);
    if r.Err? { a.Rollback(before); return; }
  }

  // ----- What a payment does -----

  /** What account `k` holds, whoever owns it. */
  function HeldBy(w: World, k: Key): u64 {
    if k in w.tokens then w.tokens[k].amount else 0
  }

  /** `amount` went from the trader's account `from` to the other account `to`, both of one mint;
      nothing else in the token ledger changed. */
  ghost predicate Delivered(w: World, after: Tokens, from: Key, to: Key, mint: Key, amount: u64) {
    && from in w.tokens && to in w.tokens && from != to
    && w.tokens[from].owner == w.Trader() && w.tokens[from].mint == w.tokens[to].mint == mint
    && after.Keys == w.tokens.Keys
    && (forall k <- w.tokens :: k != from && k != to ==> after[k] == w.tokens[k])
    && amount <= w.tokens[from].amount
    && after[from] == w.tokens[from].(amount := w.tokens[from].amount - amount)
    && w.tokens[to].amount + amount <= U64_MAX
    && after[to] == w.tokens[to].(amount := w.tokens[to].amount + amount)
  }

  lemma TransferDelivers(w: World, route: TokenRoute, mint: Key, payees: seq<Key>, amount: u64)
    requires SourceChecked(w, route.source, mint, amount).Ok?
    requires DestinationChecked(w, route.destination, mint, payees).Ok?
    requires TokensMoved(w.tokens, route.tokenProgram, route.source, route.destination, amount).Ok?
    ensures var after := TokensMoved(w.tokens, route.tokenProgram, route.source, route.destination, amount).value;
      if route.source == route.destination then after == w.tokens
      else Delivered(w, after, route.source, route.destination, mint, amount)
    ensures w.tokens[route.source].owner == w.Trader()
    ensures w.tokens[route.destination].owner in payees
  {}

  /** An accepted `pay_token` names an owner on the allowlist, in the registry's own mint, and
      meters the grant by exactly the amount. Between two accounts it delivers exactly that;
      naming one account twice it moves nothing, which takes a list with the trader on it. */
  lemma PayTokenDelivers(w: World, agent: Signer, route: TokenRoute, amount: u64, decimals: u8, sp: Sponsorship)
    requires TokenPaid(w, agent, route, amount, decimals, sp).Ok?
    ensures var w' := TokenPaid(w, agent, route, amount, decimals, sp).value;
      && w.registry.Some? && amount > 0 && MeteredOnce(w, w', agent, amount)
      && route.destination in w.tokens && w.tokens[route.destination].owner in w.registry.value.merchants
      && (if route.source == route.destination then w'.tokens == w.tokens
          else Delivered(w, w'.tokens, route.source, route.destination, w.registry.value.mint, amount))
      && (route.source == route.destination ==> w.Trader() in w.registry.value.merchants)
  {
    TransferDelivers(w, route, route.mint, w.registry.value.merchants, amount);
  }

  /** `amount` reaches `to` whenever the payment sent there, on any sponsorship, is accepted. */
  ghost predicate Arrives(w: World, agent: Signer, route: TokenRoute, amount: u64, decimals: u8) {
    forall to: Key, sp: Sponsorship :: TokenPaid(w, agent, route.(destination := to), amount, decimals, sp).Ok? ==>
      HeldBy(TokenPaid(w, agent, route.(destination := to), amount, decimals, sp).value, to) == HeldBy(w, to) + amount
  }

  /** A payment the program accepts reaches whatever destination it accepts exactly when the
      trader is not itself on the allowlist. */
  lemma PayTokenDeliversIff(w: World, agent: Signer, route: TokenRoute, amount: u64, decimals: u8, sp: Sponsorship)
    requires TokenPaid(w, agent, route, amount, decimals, sp).Ok?
    ensures w.registry.Some?
    ensures Arrives(w, agent, route, amount, decimals) <==> w.Trader() !in w.registry.value.merchants
  {
    if w.Trader() in w.registry.value.merchants {
      SelfPaymentAccepted(w, agent, route, amount, decimals, sp);
    } else {
      forall to: Key, sp': Sponsorship | TokenPaid(w, agent, route.(destination := to), amount, decimals, sp').Ok?
        ensures HeldBy(TokenPaid(w, agent, route.(destination := to), amount, decimals, sp').value, to)
             == HeldBy(w, to) + amount
      {
        PayTokenDelivers(w, agent, route.(destination := to), amount, decimals, sp');
      }
    }
  }

  /** With the trader on the list its own account can be paid from itself. */
  lemma SelfPaymentAccepted(w: World, agent: Signer, route: TokenRoute, amount: u64, decimals: u8, sp: Sponsorship)
    requires TokenPaid(w, agent, route, amount, decimals, sp).Ok? && w.registry.Some?
    requires w.Trader() in w.registry.value.merchants
    ensures var own := TokenPaid(w, agent, route.(destination := route.source), amount, decimals, sp.(lamports := 0));
      own.Ok? && own.value.tokens == w.tokens && amount > 0
  {
    var w1 := GrantChecked(w, agent, amount).value;
    SelfTransfer(w1, route.(destination := route.source), amount);
  }

  /** A transfer to the account itself changes nothing, lamports included. */
  lemma SelfTransfer(w: World, route: TokenRoute, amount: u64)
    requires route.source == route.destination && RouteChecked(w, route).Ok?
    requires route.source in w.tokens && amount <= w.tokens[route.source].amount
    ensures RouteTransferred(w, route, amount) == Ok(w)
  {
    assert TokensMoved(w.tokens, route.tokenProgram, route.source, route.source, amount) == Ok(w.tokens);
    assert FundsMoved(w.AllFunds(), route.tokenProgram, route.source, route.source, amount) == Ok(w.AllFunds());
  }

  // ----- Supply -----

  /** The tokens of `mint` held across all accounts. */
  ghost function MintTotal(tokens: Tokens, mint: Key): int {
    SumOf(Holdings(tokens, mint))
  }

  ghost function Holdings(tokens: Tokens, mint: Key): map<Key, int> {
    map k | k in tokens && tokens[k].mint == mint :: tokens[k].amount
  }

  lemma AmountChange(tokens: Tokens, k: Key, amount: u64, mint: Key)
    requires k in tokens
    ensures MintTotal(tokens[k := tokens[k].(amount := amount)], mint)
         == MintTotal(tokens, mint) + if tokens[k].mint == mint then amount - tokens[k].amount else 0
  {
    var held, after := Holdings(tokens, mint), Holdings(tokens[k := tokens[k].(amount := amount)], mint);
    if tokens[k].mint == mint {
      assert after == held[k := amount];
      SumUpdate(held, k, amount);
    } else {
      assert after == held;
    }
  }

  /** A transfer creates and destroys no tokens of any mint. */
  lemma TransferKeepsSupply(tokens: Tokens, program: Key, from: Key, to: Key, amount: u64, mint: Key)
    requires TokensMoved(tokens, program, from, to, amount).Ok?
    ensures MintTotal(TokensMoved(tokens, program, from, to, amount).value, mint) == MintTotal(tokens, mint)
  {
    if from != to {
      var debited := tokens[from := tokens[from].(amount := tokens[from].amount - amount)];
      AmountChange(tokens, from, tokens[from].amount - amount, mint);
      AmountChange(debited, to, tokens[to].amount + amount, mint);
    }
  }

  // ----- Wrapped SOL -----

  const TOKEN_ACCOUNT_RENT: u64 := MinimumBalance(TOKEN_ACCOUNT_SPACE)

  /** The lamports an account holds beyond its rent and its amount: what `SyncNative` would add. */
  function Surplus(f: Funds, k: Key): int
    requires k in f.tokens
  {
    BalanceOf(f.lamports, k) - TOKEN_ACCOUNT_RENT - f.tokens[k].amount
  }

  /** A transfer of wrapped SOL carries its lamports along: no account's surplus changes. */
  lemma TransferKeepsSurplus(f: Funds, program: Key, from: Key, to: Key, amount: u64, k: Key)
    requires FundsMoved(f, program, from, to, amount).Ok?
    requires k in f.tokens && IsNative(f.tokens[k])
    ensures var after := FundsMoved(f, program, from, to, amount).value;
      k in after.tokens && Surplus(after, k) == Surplus(f, k)
  {}
}
