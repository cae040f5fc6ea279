/** What the bracket around a foreign Jupiter route holds and does not hold: the exact most any
    route can take, judged by what the trader still owns when it has run. */
module TradeBracket {
  import opened Runtime
  import opened State
  import opened Bank
  import opened Bytes
  import opened TokenLedger
  import opened TokenTrade

  // ----- The bracket around a foreign route -----

  /** What the trader has of `mint` at `k`: nothing, once the account has gone to another owner. */
  function TraderHolds(w: World, k: Key, mint: Key): u64 {
    if Matches(w.tokens, k, w.Trader(), mint) then w.tokens[k].amount else 0
  }

  /** The accounts the trade measures, and how they stand when the route starts. A wrap leaves the
      source with all its lamports above its rent. */
  ghost predicate Opened(w: World, args: TradeArgs, remaining: seq<Key>, b: Bracket) {
    && Matches(w.tokens, b.source, w.Trader(), args.inputMint)
    && Matches(w.tokens, b.dest, w.Trader(), args.outputMint)
    && b.source != b.dest && b.source in remaining && b.dest in remaining && args.inAmount > 0
    && b.world.Trader() == w.Trader() && w.Trader() !in w.tokens
    && b.world.tokens.Keys == w.tokens.Keys
    && (forall k <- w.tokens :: k != b.source ==> b.world.tokens[k] == w.tokens[k])
    && OnlyAmountDiffers(b.world.tokens[b.source], w.tokens[b.source])
    && HeldBy(w, b.source) <= HeldBy(b.world, b.source)
    && HeldBy(b.world, b.source) == if args.wrapSol then w.Balance(b.source) + args.inAmount - TOKEN_ACCOUNT_RENT
                                    else HeldBy(w, b.source)
  }

  lemma OpenedEffect(w: World, agent: Signer, args: TradeArgs, sp: Sponsorship, remaining: seq<Key>, b: Bracket)
    requires TradeOpened(w, agent, args, sp, remaining) == Ok(b)
    ensures Opened(w, args, remaining, b)
  {}

  /** The bounds the program checks on the amounts. */
  predicate InBounds(b: Bracket, after: World, args: TradeArgs) {
    && b.source in after.tokens && b.dest in after.tokens
    && HeldBy(after, b.source) + args.inAmount >= HeldBy(b.world, b.source)
    && (args.minOut > 0 ==> HeldBy(after, b.dest) >= HeldBy(b.world, b.dest) + args.minOut)
  }

  lemma ClosedMeans(b: Bracket, after: World, args: TradeArgs)
    requires b.source in b.world.tokens && b.dest in b.world.tokens
    ensures TradeClosed(b, after, args).Ok? <==> InBounds(b, after, args)
  {}

  lemma FinishedParts(b: Bracket, agent: Signer, args: TradeArgs, sp: Sponsorship, remaining: seq<Key>, route: Inner,
                      w': World) returns (ran: World)
    requires b.source in b.world.tokens && b.dest in b.world.tokens
    requires agent in b.world.grants && (sp.paymaster ==> b.world.paymaster.Some?)
    requires RouteFinished(b, agent, args, sp, remaining, route) == Ok(w')
    ensures Invoked(b.world, remaining, route, true) == Ok(ran)
    ensures TradeClosed(b, ran, args).Ok? && w'.tokens == ran.tokens && w'.Trader() == ran.Trader()
  {
    ran := Invoked(b.world, remaining, route, true).value;
  }

  /** The route of an accepted trade ran as the token programs allow and met the bounds. */
  lemma TradeRan(w: World, agent: Signer, args: TradeArgs, sp: Sponsorship, remaining: seq<Key>, route: Inner,
                 b: Bracket, w': World)
    requires TradeOpened(w, agent, args, sp, remaining) == Ok(b)
    requires Traded(w, agent, args, sp, remaining, route) == Ok(w')
    ensures TokensAllowed(b.world, route.tokens, true) && forall k <- route.tokens :: k in remaining
    ensures w'.tokens == TokensAfter(b.world.tokens, route.tokens) && w'.Trader() == b.world.Trader()
    ensures InBounds(b, w', args)
  {
    var ran := FinishedParts(b, agent, args, sp, remaining, route, w');
    RanAllowed(b, remaining, route, ran);
    ClosedMeans(b, ran, args);
  }

  lemma RanAllowed(b: Bracket, remaining: seq<Key>, route: Inner, ran: World)
    requires Invoked(b.world, remaining, route, true) == Ok(ran)
    ensures TokensAllowed(b.world, route.tokens, true) && forall k <- route.tokens :: k in remaining
    ensures ran.tokens == TokensAfter(b.world.tokens, route.tokens) && ran.Trader() == b.world.Trader()
  {
    assert RuntimeAllows(b.world, remaining, route, true);
  }

  lemma FixedStays(w: World, route: Inner, k: Key)
    requires TokensAllowed(w, route.tokens, true) && k in w.tokens && OwnerFixed(w.tokens[k])
    requires k in TokensAfter(w.tokens, route.tokens)
    ensures SameAccount(TokensAfter(w.tokens, route.tokens)[k], w.tokens[k])
  {}

  /** Where an accepted trade left the two accounts it measured. */
  ghost predicate Bracketed(w: World, args: TradeArgs, b: Bracket, w': World) {
    && Matches(w.tokens, b.source, w.Trader(), args.inputMint)
    && Matches(w.tokens, b.dest, w.Trader(), args.outputMint)
    && b.source != b.dest && b.source in w'.tokens && b.dest in w'.tokens
    && HeldBy(w', b.source) + args.inAmount >= HeldBy(b.world, b.source)
    && (args.wrapSol ==> HeldBy(w', b.source) + TOKEN_ACCOUNT_RENT >= w.Balance(b.source))
    && (args.minOut > 0 ==> HeldBy(w', b.dest) >= HeldBy(w, b.dest) + args.minOut)
    && (OwnerFixed(w.tokens[b.source]) ==> TraderHolds(w', b.source, args.inputMint) == HeldBy(w', b.source))
    && (OwnerFixed(w.tokens[b.dest]) ==> TraderHolds(w', b.dest, args.outputMint) == HeldBy(w', b.dest))
  }

  /** Whatever the route did, an accepted trade left the source at most `inAmount` lower, and with
      wrapping at no less than the lamports it had to spare before the wrap; and for a positive
      floor the destination at least that much higher. Source and destination differ. The
      amounts are the trader's own after the route if the account's owner is fixed. */
  lemma BracketHolds(w: World, agent: Signer, args: TradeArgs, sp: Sponsorship, remaining: seq<Key>, route: Inner,
                     b: Bracket, w': World)
    requires TradeOpened(w, agent, args, sp, remaining) == Ok(b)
    requires Traded(w, agent, args, sp, remaining, route) == Ok(w')
    ensures Bracketed(w, args, b, w')
  {
    OpenedEffect(w, agent, args, sp, remaining, b);
    TradeRan(w, agent, args, sp, remaining, route, b, w');
    RanIsBracketed(w, args, remaining, b, route, w');
  }

  lemma RanIsBracketed(w: World, args: TradeArgs, remaining: seq<Key>, b: Bracket, route: Inner, w': World)
    requires Opened(w, args, remaining, b) && InBounds(b, w', args)
    requires TokensAllowed(b.world, route.tokens, true) && w'.Trader() == b.world.Trader()
    requires w'.tokens == TokensAfter(b.world.tokens, route.tokens)
    ensures Bracketed(w, args, b, w')
  {
    if OwnerFixed(w.tokens[b.source]) { FixedStays(b.world, route, b.source); }
    if OwnerFixed(w.tokens[b.dest]) { FixedStays(b.world, route, b.dest); }
  }

  // ----- What a route can take -----

  /** Some route is accepted: the trade gets as far as its route with `b`, the floor can be met,
      and its sponsorship can be paid as things stand. */
  ghost predicate Completable(w: World, agent: Signer, args: TradeArgs, sp: Sponsorship, remaining: seq<Key>,
                              b: Bracket) {
    && TradeOpened(w, agent, args, sp, remaining) == Ok(b)
    && SponsorReimbursed(b.world, agent, sp).Ok?
    && HeldBy(b.world, b.dest) + args.minOut <= U64_MAX
  }

  /** The route that leaves the two accounts as `src` and `dst`, and touches nothing else. */
  function RouteTo(b: Bracket, src: TokenAccount, dst: TokenAccount): Inner {
    Inner([], map[b.source := Some(src), b.dest := Some(dst)])
  }

  /** The token programs let the trader's signature make `after` of `before`. */
  predicate Reachable(before: TokenAccount, after: TokenAccount) {
    OwnerFixed(before) ==> SameAccount(after, before)
  }

  lemma RouteRuns(b: Bracket, remaining: seq<Key>, src: TokenAccount, dst: TokenAccount)
    requires b.source in b.world.tokens && b.dest in b.world.tokens && b.source != b.dest
    requires b.source in remaining && b.dest in remaining
    requires Reachable(b.world.tokens[b.source], src) && Reachable(b.world.tokens[b.dest], dst)
    ensures Invoked(b.world, remaining, RouteTo(b, src, dst), true)
         == Ok(b.world.(tokens := b.world.tokens[b.source := src][b.dest := dst]))
  {
    var route := RouteTo(b, src, dst);
    assert RuntimeAllows(b.world, remaining, route, true);
    assert TokensAfter(b.world.tokens, route.tokens) == b.world.tokens[b.source := src][b.dest := dst];
  }

  lemma SponsorIgnoresTokens(w: World, agent: Key, sp: Sponsorship, tokens: Tokens)
    requires agent in w.grants && (sp.paymaster ==> w.paymaster.Some?) && SponsorReimbursed(w, agent, sp).Ok?
    ensures SponsorReimbursed(w.(tokens := tokens), agent, sp)
         == Ok(SponsorReimbursed(w, agent, sp).value.(tokens := tokens))
  {}

  /** Any pair of accounts within the bounds on their amounts can be left by some route. */
  lemma RouteAccepted(w: World, agent: Signer, args: TradeArgs, sp: Sponsorship, remaining: seq<Key>, b: Bracket,
                      src: TokenAccount, dst: TokenAccount) returns (w': World)
    requires Completable(w, agent, args, sp, remaining, b)
    requires Reachable(b.world.tokens[b.source], src) && Reachable(b.world.tokens[b.dest], dst)
    requires src.amount + args.inAmount >= HeldBy(b.world, b.source)
    requires args.minOut > 0 ==> dst.amount >= HeldBy(b.world, b.dest) + args.minOut
    ensures Traded(w, agent, args, sp, remaining, RouteTo(b, src, dst)) == Ok(w')
    ensures w'.Trader() == w.Trader() && w'.tokens == b.world.tokens[b.source := src][b.dest := dst]
  {
    OpenedEffect(w, agent, args, sp, remaining, b);
    RouteRuns(b, remaining, src, dst);
    var after := b.world.(tokens := b.world.tokens[b.source := src][b.dest := dst]);
    ClosedMeans(b, after, args);
    assert InBounds(b, after, args);
    SponsorIgnoresTokens(b.world, agent, sp, after.tokens);
    w' := SponsorReimbursed(after, agent, sp).value;
    assert RouteFinished(b, agent, args, sp, remaining, RouteTo(b, src, dst)) == Ok(w');
  }

  /** What the route of an accepted trade took from the trader at the source. */
  function SourceLoss(b: Bracket, after: World, args: TradeArgs): int {
    HeldBy(b.world, b.source) - TraderHolds(after, b.source, args.inputMint)
  }

  /** And at the destination, where a negative loss is what it brought. */
  function DestLoss(b: Bracket, after: World, args: TradeArgs): int {
    HeldBy(b.world, b.dest) - TraderHolds(after, b.dest, args.outputMint)
  }

  /** The most any route can take from the source: everything, unless the account cannot be given
      away; then the amount the program checks. */
  function SourceExposure(b: Bracket, args: TradeArgs): int
    requires b.source in b.world.tokens
  {
    var src := b.world.tokens[b.source];
    if OwnerFixed(src) && args.inAmount < src.amount then args.inAmount else src.amount
  }

  /** And from the destination: everything, unless it cannot be given away and has a floor, which
      it must then bring. */
  function DestExposure(b: Bracket, args: TradeArgs): int
    requires b.dest in b.world.tokens
  {
    var dst := b.world.tokens[b.dest];
    if OwnerFixed(dst) && args.minOut > 0 then -(args.minOut as int) else dst.amount
  }

  /** No accepted route takes more than the exposures. */
  lemma RouteTakesAtMost(w: World, agent: Signer, args: TradeArgs, sp: Sponsorship, remaining: seq<Key>, route: Inner,
                         b: Bracket, w': World)
    requires TradeOpened(w, agent, args, sp, remaining) == Ok(b)
    requires Traded(w, agent, args, sp, remaining, route) == Ok(w')
    ensures SourceLoss(b, w', args) <= SourceExposure(b, args) && DestLoss(b, w', args) <= DestExposure(b, args)
  {
    OpenedEffect(w, agent, args, sp, remaining, b);
    BracketHolds(w, agent, args, sp, remaining, route, b, w');
    BracketedLoss(w, args, remaining, b, w');
  }

  lemma BracketedLoss(w: World, args: TradeArgs, remaining: seq<Key>, b: Bracket, w': World)
    requires Opened(w, args, remaining, b) && Bracketed(w, args, b, w')
    ensures SourceLoss(b, w', args) <= SourceExposure(b, args) && DestLoss(b, w', args) <= DestExposure(b, args)
  {}

  /** `account` as a route leaves it that gives it to `stranger` if it can. */
  function GivenTo(account: TokenAccount, stranger: Key, amount: u64): TokenAccount {
    if OwnerFixed(account) then account.(amount := amount) else account.(owner := stranger, amount := amount)
  }

  /** And one takes exactly that much, from both accounts at once. */
  lemma WorstRoute(w: World, agent: Signer, args: TradeArgs, sp: Sponsorship, remaining: seq<Key>, b: Bracket,
                   stranger: Key)
    returns (route: Inner, w': World)
    requires Completable(w, agent, args, sp, remaining, b) && stranger != w.Trader()
    ensures Traded(w, agent, args, sp, remaining, route) == Ok(w')
    ensures SourceLoss(b, w', args) == SourceExposure(b, args) && DestLoss(b, w', args) == DestExposure(b, args)
  {
    OpenedEffect(w, agent, args, sp, remaining, b);
    var src, dst := WorstLeft(b, args, stranger);
    route := RouteTo(b, src, dst);
    w' := RouteAccepted(w, agent, args, sp, remaining, b, src, dst);
  }

  /** The two accounts as the worst route leaves them. */
  lemma WorstLeft(b: Bracket, args: TradeArgs, stranger: Key) returns (src: TokenAccount, dst: TokenAccount)
    requires Matches(b.world.tokens, b.source, b.world.Trader(), args.inputMint)
    requires Matches(b.world.tokens, b.dest, b.world.Trader(), args.outputMint)
    requires HeldBy(b.world, b.dest) + args.minOut <= U64_MAX && b.source != b.dest && stranger != b.world.Trader()
    ensures Reachable(b.world.tokens[b.source], src) && Reachable(b.world.tokens[b.dest], dst)
    ensures src.amount + args.inAmount >= HeldBy(b.world, b.source)
    ensures args.minOut > 0 ==> dst.amount >= HeldBy(b.world, b.dest) + args.minOut
    ensures forall w': World |
      w'.Trader() == b.world.Trader() && w'.tokens == b.world.tokens[b.source := src][b.dest := dst] ::
      SourceLoss(b, w', args) == SourceExposure(b, args) && DestLoss(b, w', args) == DestExposure(b, args)
  {
    src, dst := WorstSource(b, args, stranger), WorstDest(b, args, stranger);
    assert SourceExposure(b, args)
        == HeldBy(b.world, b.source) - if src.owner == b.world.Trader() then src.amount else 0;
    assert DestExposure(b, args)
        == HeldBy(b.world, b.dest) - if dst.owner == b.world.Trader() then dst.amount else 0;
  }

  function WorstSource(b: Bracket, args: TradeArgs, stranger: Key): TokenAccount
    requires b.source in b.world.tokens
  {
    var before := b.world.tokens[b.source];
    GivenTo(before, stranger, if OwnerFixed(before) then before.amount - SourceExposure(b, args) else before.amount)
  }

  function WorstDest(b: Bracket, args: TradeArgs, stranger: Key): TokenAccount
    requires b.dest in b.world.tokens && HeldBy(b.world, b.dest) + args.minOut <= U64_MAX
  {
    var before := b.world.tokens[b.dest];
    GivenTo(before, stranger, if OwnerFixed(before) && args.minOut == 0 then 0 else before.amount + args.minOut)
  }

  /** `policy.rs` holds that checking balances makes a route's contents irrelevant. Every trade that
      can complete, between accounts that can be given away, has an accepted route that gives
      both to a stranger: the program measures nothing spent and the floor received, and the
      trader has nothing left in either. */
  lemma RouteTakesAll(w: World, agent: Signer, args: TradeArgs, sp: Sponsorship, remaining: seq<Key>, b: Bracket,
                      stranger: Key)
    returns (route: Inner, w': World)
    requires Completable(w, agent, args, sp, remaining, b) && stranger != w.Trader()
    requires b.source in w.tokens && !OwnerFixed(w.tokens[b.source])
    requires b.dest in w.tokens && !OwnerFixed(w.tokens[b.dest])
    ensures Traded(w, agent, args, sp, remaining, route) == Ok(w')
    ensures HeldBy(w', b.source) == HeldBy(b.world, b.source) && HeldBy(w', b.dest) == HeldBy(w, b.dest) + args.minOut
    ensures b.source in w'.tokens && b.dest in w'.tokens
    ensures w'.tokens[b.source].owner == w'.tokens[b.dest].owner == stranger
    ensures TraderHolds(w', b.source, args.inputMint) == 0 && TraderHolds(w', b.dest, args.outputMint) == 0
    ensures MeteredOnce(w, w', agent, GrantAmount(args))
  {
    OpenedEffect(w, agent, args, sp, remaining, b);
    var src, dst := b.world.tokens[b.source], b.world.tokens[b.dest];
    var dstLeft: u64 := dst.amount + args.minOut;
    var src', dst' := GivenTo(src, stranger, src.amount), GivenTo(dst, stranger, dstLeft);
    route := RouteTo(b, src', dst');
    w' := RouteAccepted(w, agent, args, sp, remaining, b, src', dst');
  }

  /** The floor: every accepted route leaves the trader at least `minOut` more at the destination
      if and only if the floor is positive and the account cannot be given away. (With no floor
      and nothing there it holds trivially.) */
  lemma DestinationProtectedIff(w: World, agent: Signer, args: TradeArgs, sp: Sponsorship, remaining: seq<Key>,
                                b: Bracket)
    requires Completable(w, agent, args, sp, remaining, b)
    ensures b.dest in w.tokens
    ensures (forall route, w' :: Traded(w, agent, args, sp, remaining, route) == Ok(w') ==>
               TraderHolds(w', b.dest, args.outputMint) >= HeldBy(w, b.dest) + args.minOut)
       <==> if args.minOut > 0 then OwnerFixed(w.tokens[b.dest]) else HeldBy(w, b.dest) == 0
  {
    OpenedEffect(w, agent, args, sp, remaining, b);
    if args.minOut > 0 && OwnerFixed(w.tokens[b.dest]) {
      forall route, w' | Traded(w, agent, args, sp, remaining, route) == Ok(w')
        ensures TraderHolds(w', b.dest, args.outputMint) >= HeldBy(w, b.dest) + args.minOut
      {
        BracketHolds(w, agent, args, sp, remaining, route, b, w');
      }
    } else {
      var worst, w' := WorstRoute(w, agent, args, sp, remaining, b, Default);
    }
  }

  /** The input of a trade is SOL, so the grant meters it. */
  predicate SolInput(args: TradeArgs) {
    args.wrapSol || args.inputMint == WsolMint
  }

  /** The source cannot be given away and its use is metered, or it holds no more than is metered. */
  predicate SourceGuarded(b: Bracket, args: TradeArgs)
    requires b.source in b.world.tokens
  {
    || (SolInput(args) && OwnerFixed(b.world.tokens[b.source]))
    || HeldBy(b.world, b.source) <= GrantAmount(args)
  }

  lemma GuardedExposure(b: Bracket, args: TradeArgs)
    requires b.source in b.world.tokens && args.inAmount > 0
    ensures SourceExposure(b, args) <= GrantAmount(args) <==> SourceGuarded(b, args)
  {}

  /** The metering of a trade covers what every accepted route takes from the source if and only if
      the source is guarded. */
  lemma TradeCoveredIff(w: World, agent: Signer, args: TradeArgs, sp: Sponsorship, remaining: seq<Key>, b: Bracket)
    requires Completable(w, agent, args, sp, remaining, b)
    ensures (forall route, w' :: Traded(w, agent, args, sp, remaining, route) == Ok(w') ==>
               SourceLoss(b, w', args) <= GrantAmount(args))
       <==> SourceGuarded(b, args)
  {
    OpenedEffect(w, agent, args, sp, remaining, b);
    GuardedExposure(b, args);
    if SourceGuarded(b, args) {
      forall route, w' | Traded(w, agent, args, sp, remaining, route) == Ok(w')
        ensures SourceLoss(b, w', args) <= GrantAmount(args)
      {
        RouteTakesAtMost(w, agent, args, sp, remaining, route, b, w');
      }
    } else {
      var worst, w' := WorstRoute(w, agent, args, sp, remaining, b, Default);
    }
  }

  /** For SOL input the same condition read off the outcome: what an accepted route took is within
      the metered amount if and only if the source is still the trader's, or held no more. */
  lemma SolTradeCoveredIff(w: World, agent: Signer, args: TradeArgs, sp: Sponsorship, remaining: seq<Key>, route: Inner,
                           b: Bracket, w': World)
    requires TradeOpened(w, agent, args, sp, remaining) == Ok(b)
    requires Traded(w, agent, args, sp, remaining, route) == Ok(w') && SolInput(args)
    ensures SourceLoss(b, w', args) <= GrantAmount(args)
       <==> Matches(w'.tokens, b.source, w'.Trader(), args.inputMint) || HeldBy(b.world, b.source) <= GrantAmount(args)
  {
    BracketHolds(w, agent, args, sp, remaining, route, b, w');
  }

  /** What the program itself measures, which is within the metered amount for SOL input whatever
      the route did and whoever has the account now. */
  lemma MeasuredWithinMetered(w: World, agent: Signer, args: TradeArgs, sp: Sponsorship, remaining: seq<Key>,
                              route: Inner, b: Bracket, w': World)
    requires TradeOpened(w, agent, args, sp, remaining) == Ok(b)
    requires Traded(w, agent, args, sp, remaining, route) == Ok(w') && SolInput(args)
    ensures HeldBy(b.world, b.source) - HeldBy(w', b.source) <= GrantAmount(args)
  {
    BracketHolds(w, agent, args, sp, remaining, route, b, w');
  }

  // ----- An input on which everything is taken -----

  /** A trader with 1000 of wrapped SOL and an empty account for another mint. */
  function ExampleWorld(): World {
    var trader := PumpTraderPda(GrokAccountPda(External(0)));
    var rent := TOKEN_ACCOUNT_RENT;
    World(External(0), 0, map[trader := 10_000_000, External(10) := rent + 1000, External(11) := rent],
          map[External(10) := TokenAccount(TokenProgram, WsolMint, trader, 1000, false, false),
              External(11) := TokenAccount(TokenProgram, External(20), trader, 0, false, false)],
          map[], map[External(1) := Grant(100, 0, 100, false, false)], true, None, None, map[])
  }

  const NO_SPONSOR := Sponsorship(0, false, None)

  /** At most 10 of it for at least 3 of the other. */
  function ExampleArgs(): TradeArgs {
    TradeArgs(10, 3, WsolMint, External(20), false, [0, 0, 0, 0, 0, 0, 0, 0, 10, 0, 0, 0, 0, 0, 0, 0])
  }

  lemma ExampleArgsAccepted()
    ensures ArgsChecked(ExampleArgs(), NO_SPONSOR).Ok?
  {
    var data := ExampleArgs().jupiterData;
    EightBytesOfTen();
    assert Window(data, 8) == [10, 0, 0, 0, 0, 0, 0, 0];
    assert Window(data, 8) == LittleEndian(10, 8);
  }

  lemma EightBytesOfTen()
    ensures LittleEndian(10, 8) == [10, 0, 0, 0, 0, 0, 0, 0]
  {
    assert LittleEndian(0, 1) == [0] && LittleEndian(0, 2) == [0] + LittleEndian(0, 1);
    assert LittleEndian(0, 3) == [0] + LittleEndian(0, 2) && LittleEndian(0, 4) == [0] + LittleEndian(0, 3);
    assert LittleEndian(0, 5) == [0] + LittleEndian(0, 4) && LittleEndian(0, 6) == [0] + LittleEndian(0, 5);
    assert LittleEndian(0, 7) == [0] + LittleEndian(0, 6) && LittleEndian(10, 8) == [10] + LittleEndian(0, 7);
  }

  function ExampleRemaining(): seq<Key> {
    [PumpTraderPda(GrokAccountPda(External(0))), External(10), External(11)]
  }

  lemma ExampleFound()
    ensures var w := ExampleWorld();
      && FirstMatch(w.tokens, ExampleRemaining(), w.Trader(), WsolMint) == Some(External(10))
      && FirstMatch(w.tokens, ExampleRemaining(), w.Trader(), External(20)) == Some(External(11))
  {
    var w, all := ExampleWorld(), ExampleRemaining();
    assert all[..2] == [w.Trader(), External(10)] && all[..2][..1] == [w.Trader()] && [w.Trader()][..0] == [];
    assert FirstMatch(w.tokens, all[..2][..1], w.Trader(), WsolMint) == None;
    assert FirstMatch(w.tokens, all[..2][..1], w.Trader(), External(20)) == None;
    assert FirstMatch(w.tokens, all[..2], w.Trader(), WsolMint) == Some(External(10));
    assert FirstMatch(w.tokens, all[..2], w.Trader(), External(20)) == None;
  }

  lemma ExampleCompletable() returns (b: Bracket)
    ensures Completable(ExampleWorld(), External(1), ExampleArgs(), NO_SPONSOR, ExampleRemaining(), b)
    ensures b.source == External(10) && b.dest == External(11) && b.world.tokens == ExampleWorld().tokens
  {
    var w := ExampleWorld();
    ExampleArgsAccepted();
    ExampleFound();
    var w1 := GrantChecked(w, External(1), 10).value;
    b := Bracket(External(10), External(11), w1);
    assert TradeAccounts(w, External(1), NO_SPONSOR).Ok? && TraderReady(w).Ok?;
    assert NoneProtected(ExampleRemaining(), w.Vault(), None);
    assert TradeOpened(w, External(1), ExampleArgs(), NO_SPONSOR, ExampleRemaining()) == Ok(b);
  }

  /** There a trade authorised for 10 is accepted on a route after which the trader has none of its
      1000, and nothing of the 3 the program counts as received. */
  lemma AllTakenExample() returns (route: Inner, w': World)
    ensures Traded(ExampleWorld(), External(1), ExampleArgs(), NO_SPONSOR, ExampleRemaining(), route) == Ok(w')
    ensures TraderHolds(ExampleWorld(), External(10), WsolMint) == 1000 && TraderHolds(w', External(10), WsolMint) == 0
    ensures HeldBy(w', External(11)) == 3 && TraderHolds(w', External(11), External(20)) == 0
    ensures w'.grants[External(1)].spent == 10
  {
    var b := ExampleCompletable();
    route, w' := RouteTakesAll(ExampleWorld(), External(1), ExampleArgs(), NO_SPONSOR, ExampleRemaining(), b,
                               External(9));
  }
}
