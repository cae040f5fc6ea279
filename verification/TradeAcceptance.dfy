/** Exactly when a trade gets as far as its route, with and without wrapping, what it has written by
    then, and exactly which routes are then accepted. */
module TradeAcceptance {
  import opened Runtime
  import opened State
  import opened Bank
  import opened Bytes
  import opened Machine
  import opened MoneyRuns
  import opened TokenLedger
  import opened TokenTrade
  import opened TradeBracket
  import opened Acceptance
  import I = Intents

  // ----- The measured accounts -----

  /** Entry `i` is the first of the list that matches. */
  predicate FirstAt(tokens: Tokens, remaining: seq<Key>, owner: Key, mint: Key, i: nat) {
    i < |remaining| && Matches(tokens, remaining[i], owner, mint) && NoneMatches(tokens, remaining[..i], owner, mint)
  }

  predicate NoneMatches(tokens: Tokens, remaining: seq<Key>, owner: Key, mint: Key) {
    forall k <- remaining :: !Matches(tokens, k, owner, mint)
  }

  lemma {:induction false} NoMatchIff(tokens: Tokens, remaining: seq<Key>, owner: Key, mint: Key)
    ensures FirstMatch(tokens, remaining, owner, mint).None? <==> NoneMatches(tokens, remaining, owner, mint)
  {
    if remaining != [] {
      var n := |remaining| - 1;
      NoMatchIff(tokens, remaining[..n], owner, mint);
      assert remaining == remaining[..n] + [remaining[n]];
    }
  }

  /** The account found is the first of the list that matches, and one is found if any does. */
  lemma {:induction false} FirstMatchIff(tokens: Tokens, remaining: seq<Key>, owner: Key, mint: Key, k: Key)
    ensures FirstMatch(tokens, remaining, owner, mint) == Some(k)
       <==> exists i: nat :: FirstAt(tokens, remaining, owner, mint, i) && remaining[i] == k
  {
    if i: nat :| FirstAt(tokens, remaining, owner, mint, i) && remaining[i] == k {
      FirstIsFound(tokens, remaining, owner, mint, i);
    } else if FirstMatch(tokens, remaining, owner, mint) == Some(k) {
      var i := FoundIsFirst(tokens, remaining, owner, mint);
    }
  }

  lemma FirstIsFound(tokens: Tokens, remaining: seq<Key>, owner: Key, mint: Key, i: nat)
    requires FirstAt(tokens, remaining, owner, mint, i)
    ensures FirstMatch(tokens, remaining, owner, mint) == Some(remaining[i])
  {
    NoMatchIff(tokens, remaining[..i], owner, mint);
    FirstMatchNext(tokens, remaining, i, owner, mint);
    FirstMatchStays(tokens, remaining, i + 1, owner, mint);
  }

  lemma {:induction false} FoundIsFirst(tokens: Tokens, remaining: seq<Key>, owner: Key, mint: Key) returns (i: nat)
    requires FirstMatch(tokens, remaining, owner, mint).Some?
    ensures FirstAt(tokens, remaining, owner, mint, i)
    ensures FirstMatch(tokens, remaining, owner, mint) == Some(remaining[i])
  {
    var n := |remaining| - 1;
    if FirstMatch(tokens, remaining[..n], owner, mint).Some? {
      i := FoundIsFirst(tokens, remaining[..n], owner, mint);
      assert remaining[..n][..i] == remaining[..i];
    } else {
      i := n;
      NoMatchIff(tokens, remaining[..n], owner, mint);
    }
  }

  // ----- The wrap -----

  /** The trader can put `amount` into its wrapped account and keep its own rent. */
  predicate WrapFits(w: World, source: Key, amount: u64, remaining: seq<Key>) {
    && w.Balance(w.Trader()) >= amount + TRADER_RENT
    && SystemProgram in remaining
    && source in w.tokens && w.tokens[source].program == TokenProgram
    && TOKEN_ACCOUNT_RENT + w.tokens[source].amount <= w.Balance(source) + amount <= U64_MAX
  }

  /** A wrap moves `amount` from the trader to the account, which then holds its lamports above its
      rent, and does nothing else. */
  ghost predicate WrappedInto(w: World, w': World, source: Key, amount: u64)
    requires source in w.tokens
  {
    && w' == w.(lamports := w'.lamports, tokens := w'.tokens)
    && w'.Balance(w.Trader()) == w.Balance(w.Trader()) - amount >= TRADER_RENT
    && w'.Balance(source) == w.Balance(source) + amount
    && (forall k :: k != w.Trader() && k != source ==> w'.Balance(k) == w.Balance(k))
    && w.Balance(source) + amount - TOKEN_ACCOUNT_RENT >= 0
    && w'.tokens == w.tokens[source := w.tokens[source].(amount := w.Balance(source) + amount - TOKEN_ACCOUNT_RENT)]
  }

  lemma WrapAcceptedIff(w: World, source: Key, amount: u64, remaining: seq<Key>)
    requires source in w.tokens && w.Trader() !in w.tokens
    ensures Wrapped(w, source, amount, remaining).Ok? <==> WrapFits(w, source, amount, remaining)
    ensures Wrapped(w, source, amount, remaining).Ok? ==>
      WrappedInto(w, Wrapped(w, source, amount, remaining).value, source, amount)
  {}

  // ----- Up to the route -----

  /** What the request and its accounts must be, before the grant is asked. */
  ghost predicate TradeAsked(w: World, agent: Signer, args: TradeArgs, sp: Sponsorship, remaining: seq<Key>) {
    && w.vaultOpen && sp.feePayer != Some(agent) && SponsorAsked(w, sp)
    && args.inAmount > 0 && args.inputMint != args.outputMint && (args.wrapSol ==> args.inputMint == WsolMint)
    && (exists i | 8 <= i <= |args.jupiterData| - 8 ::
          args.jupiterData[i..][..8] == LittleEndian(args.inAmount, 8))
    && w.Trader() in remaining && w.Trader() !in w.tokens && w.Balance(w.Trader()) >= TRADER_RENT
    && w.Vault() !in remaining && (sp.paymaster ==> w.PaymasterKey() !in remaining)
  }

  function SourceOf(w: World, args: TradeArgs, remaining: seq<Key>): Option<Key> {
    FirstMatch(w.tokens, remaining, w.Trader(), args.inputMint)
  }

  function DestOf(w: World, args: TradeArgs, remaining: seq<Key>): Option<Key> {
    FirstMatch(w.tokens, remaining, w.Trader(), args.outputMint)
  }

  /** The SOL the grant is asked for: all input that is SOL, wrapped here or before. */
  function SolIn(args: TradeArgs): u64 {
    if args.inputMint == WsolMint then args.inAmount else 0
  }

  lemma ArgsIff(w: World, args: TradeArgs, sp: Sponsorship)
    requires sp.paymaster ==> w.paymaster.Some?
    ensures ArgsChecked(args, sp).Ok? <==>
      && args.inAmount > 0 && args.inputMint != args.outputMint && (args.wrapSol ==> args.inputMint == WsolMint)
      && SponsorAsked(w, sp)
      && exists i | 8 <= i <= |args.jupiterData| - 8 :: args.jupiterData[i..][..8] == LittleEndian(args.inAmount, 8)
  {
    forall i | 8 <= i <= |args.jupiterData| - 8 ensures args.jupiterData[i..][..8] == Window(args.jupiterData, i) {}
  }

  lemma AskedIff(w: World, agent: Signer, args: TradeArgs, sp: Sponsorship, remaining: seq<Key>)
    ensures (&& TradeAccounts(w, agent, sp).Ok? && ArgsChecked(args, sp).Ok? && w.Trader() in remaining
             && TraderReady(w).Ok? && NoneProtected(remaining, w.Vault(), I.PassedPaymaster(w, sp)))
       <==> TradeAsked(w, agent, args, sp, remaining) && agent in w.grants
  {
    if sp.paymaster ==> w.paymaster.Some? { ArgsIff(w, args, sp); }
  }

  /** The trade reaches its route exactly when the request is in order, both accounts are in the list,
      the grant has room for the SOL that goes in, and any wrap leaves the trader its rent. */
  lemma TradeOpenedIff(w: World, agent: Signer, args: TradeArgs, sp: Sponsorship, remaining: seq<Key>)
    ensures var source := SourceOf(w, args, remaining);
      TradeOpened(w, agent, args, sp, remaining).Ok? <==>
      && TradeAsked(w, agent, args, sp, remaining)
      && source.Some? && DestOf(w, args, remaining).Some?
      && GrantRoom(w, agent, SolIn(args))
      && (args.wrapSol ==> WrapFits(w, source.value, args.inAmount, remaining))
  {
    AskedIff(w, agent, args, sp, remaining);
    if TradeAsked(w, agent, args, sp, remaining) && agent in w.grants {
      FundsIff(w, agent, args, sp, remaining);
    }
  }

  lemma FundsIff(w: World, agent: Signer, args: TradeArgs, sp: Sponsorship, remaining: seq<Key>)
    requires TradeAccounts(w, agent, sp).Ok? && ArgsChecked(args, sp).Ok? && w.Trader() in remaining
    requires TraderReady(w).Ok? && NoneProtected(remaining, w.Vault(), I.PassedPaymaster(w, sp))
    ensures var source := SourceOf(w, args, remaining);
      TradeOpened(w, agent, args, sp, remaining).Ok? <==>
      && source.Some? && DestOf(w, args, remaining).Some?
      && GrantRoom(w, agent, SolIn(args))
      && (args.wrapSol ==> WrapFits(w, source.value, args.inAmount, remaining))
  {
    var source := SourceOf(w, args, remaining);
    GrantCheckedIff(w, agent, GrantAmount(args));
    if GrantRoom(w, agent, GrantAmount(args)) && source.Some? {
      WrapAcceptedIff(GrantChecked(w, agent, GrantAmount(args)).value, source.value, args.inAmount, remaining);
    }
  }

  /** When the route starts the grant has been metered and the wrap, if any, made: nothing else has
      changed, and without a wrap no lamports have moved. */
  lemma TradeOpenedWrites(w: World, agent: Signer, args: TradeArgs, sp: Sponsorship, remaining: seq<Key>, b: Bracket)
    requires TradeOpened(w, agent, args, sp, remaining) == Ok(b)
    ensures SourceOf(w, args, remaining) == Some(b.source) && DestOf(w, args, remaining) == Some(b.dest)
    ensures agent in w.grants && w.grants[agent].spent + SolIn(args) <= w.grants[agent].cap
    ensures b.world.grants == w.grants[agent := w.grants[agent].(spent := w.grants[agent].spent + SolIn(args))]
    ensures if args.wrapSol then WrappedInto(w.(grants := b.world.grants), b.world, b.source, args.inAmount)
            else b.world == w.(grants := b.world.grants)
  {
    var w1 := OpenedParts(w, agent, args, sp, remaining, b);
    if args.wrapSol { WrapAcceptedIff(w1, b.source, args.inAmount, remaining); }
  }

  /** Metered, then wrapped. */
  lemma OpenedParts(w: World, agent: Signer, args: TradeArgs, sp: Sponsorship, remaining: seq<Key>, b: Bracket)
    returns (w1: World)
    requires TradeOpened(w, agent, args, sp, remaining) == Ok(b)
    ensures SourceOf(w, args, remaining) == Some(b.source) && DestOf(w, args, remaining) == Some(b.dest)
    ensures GrantChecked(w, agent, SolIn(args)) == Ok(w1) && w.Trader() !in w.tokens
    ensures if args.wrapSol then Wrapped(w1, b.source, args.inAmount, remaining) == Ok(b.world) else b.world == w1
  {
    w1 := GrantChecked(w, agent, SolIn(args)).value;
  }

  // ----- The route and the end -----

  /** The tokens a route leaves. */
  function Routed(b: Bracket, route: Inner): World {
    b.world.(tokens := TokensAfter(b.world.tokens, route.tokens))
  }

  /** A trade that reaches its route with `b` is accepted exactly for the routes the runtime allows
      among the accounts handed over, whose lamports can be paid, and which leave the two accounts
      within the bounds, if its sponsorship can then be paid. */
  lemma TradeAcceptedIff(w: World, agent: Signer, args: TradeArgs, sp: Sponsorship, remaining: seq<Key>, route: Inner,
                         b: Bracket)
    requires TradeOpened(w, agent, args, sp, remaining) == Ok(b)
    ensures Attempt(w, Trade(agent, args, sp, remaining, route)).Ok? <==>
      && RuntimeAllows(b.world, remaining, route, true) && InBounds(b, Routed(b, route), args)
      && SponsorFits(w, agent, sp, MovedAll(w.lamports, BodyMoves(w, Trade(agent, args, sp, remaining, route))))
  {
    OpenedAsked(w, agent, args, sp, remaining, b);
    RouteLamports(w, agent, args, sp, remaining, route, b);
    if RuntimeAllows(b.world, remaining, route, true) && MovedAll(b.world.lamports, route.moves).Ok? {
      var ran := Performed(b.world, route).value;
      ClosedMeans(b, ran, args);
      SponsorIff(w, ran, agent, sp, Ok(ran.lamports));
    }
  }

  lemma OpenedAsked(w: World, agent: Signer, args: TradeArgs, sp: Sponsorship, remaining: seq<Key>, b: Bracket)
    requires TradeOpened(w, agent, args, sp, remaining) == Ok(b)
    ensures SponsorPrechecked(sp).Ok? && b.source in b.world.tokens && b.dest in b.world.tokens
    ensures agent in w.grants && agent in b.world.grants
    ensures b.world.grants[agent].sponsorEligible == w.grants[agent].sponsorEligible
  {}

  lemma RouteLamports(w: World, agent: Signer, args: TradeArgs, sp: Sponsorship, remaining: seq<Key>, route: Inner,
                      b: Bracket)
    requires TradeOpened(w, agent, args, sp, remaining) == Ok(b)
    ensures MovedAll(w.lamports, BodyMoves(w, Trade(agent, args, sp, remaining, route)))
         == MovedAll(b.world.lamports, route.moves)
  {
    OpenedMoves(w, agent, args, sp, remaining);
    MovedConcat(w.lamports, WrapMoves(w, args, remaining), route.moves);
  }

  /** The trader's lamports after an accepted trade: down by the wrap, which kept its rent, and by
      what the route moved on the trader's signature. */
  lemma TraderAfterTrade(w: World, agent: Signer, args: TradeArgs, sp: Sponsorship, remaining: seq<Key>, route: Inner)
    requires Attempt(w, Trade(agent, args, sp, remaining, route)).Ok?
    ensures var left := w.Balance(w.Trader()) - if args.wrapSol then args.inAmount else 0;
      && left >= TRADER_RENT
      && Next(w, Trade(agent, args, sp, remaining, route)).Balance(w.Trader()) == left + Net(route.moves, w.Trader())
  {
    var b := TradeOpened(w, agent, args, sp, remaining).value;
    TraderOpened(w, agent, args, sp, remaining, b);
    TraderRouted(w, agent, args, sp, remaining, route, b);
  }

  lemma TraderOpened(w: World, agent: Signer, args: TradeArgs, sp: Sponsorship, remaining: seq<Key>, b: Bracket)
    requires TradeOpened(w, agent, args, sp, remaining) == Ok(b)
    ensures b.world.Balance(w.Trader()) == w.Balance(w.Trader()) - (if args.wrapSol then args.inAmount else 0)
    ensures b.world.Balance(w.Trader()) >= TRADER_RENT
  {
    TradeOpenedIff(w, agent, args, sp, remaining);
    TradeOpenedWrites(w, agent, args, sp, remaining, b);
  }

  lemma TraderRouted(w: World, agent: Signer, args: TradeArgs, sp: Sponsorship, remaining: seq<Key>, route: Inner,
                     b: Bracket)
    requires TradeOpened(w, agent, args, sp, remaining) == Ok(b)
    requires Attempt(w, Trade(agent, args, sp, remaining, route)).Ok?
    ensures Next(w, Trade(agent, args, sp, remaining, route)).Balance(w.Trader())
         == b.world.Balance(w.Trader()) + Net(route.moves, w.Trader())
  {
    var s := Trade(agent, args, sp, remaining, route);
    StepMoves(w, s);
    RouteLamports(w, agent, args, sp, remaining, route, b);
    ByWayOf(w.lamports, b.world.lamports, BodyMoves(w, s), route.moves, SponsorMoves(w, sp), w.Trader());
  }

  /** Lamports that come by way of `mid`, and end with moves that spare `k`. */
  lemma ByWayOf(lamports: Lamports, mid: Lamports, body: seq<Move>, rest: seq<Move>, last: seq<Move>, k: Key)
    requires MovedAll(lamports, body + last).Ok? && MovedAll(lamports, body) == MovedAll(mid, rest)
    requires forall m <- last :: m.from != k && m.to != k
    ensures BalanceOf(MovedAll(lamports, body + last).value, k) == BalanceOf(mid, k) + Net(rest, k)
  {
    if MovedAll(lamports, body).Err? { StopsEarly(lamports, body, last); }
    MovedConcat(lamports, body, last);
    MovesAddUp(mid, rest);
    MovesAddUp(MovedAll(mid, rest).value, last);
    Untouched(last, k);
  }

  lemma {:induction false} StopsEarly(lamports: Lamports, a: seq<Move>, b: seq<Move>)
    requires MovedAll(lamports, a).Err?
    ensures MovedAll(lamports, a + b).Err?
    decreases |a|
  {
    if Moved(lamports, a[0]).Ok? {
      StopsEarly(Moved(lamports, a[0]).value, a[1..], b);
      assert (a + b)[1..] == a[1..] + b;
    }
  }
}
