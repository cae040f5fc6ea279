/** The trader's token accounts beyond one instruction: what a route may leave behind for others to
    use, and which accounts stay whole over a run. */
module TraderAccounts {
  import opened Runtime
  import opened State
  import opened Bank
  import opened Machine
  import opened MeteringRuns
  import opened MoneyRuns
  import opened TokenLedger
  import opened TokenTrade
  import opened TradeBracket
  import I = Intents
  import P = PumpTrader

  // ----- What a route may leave behind -----

  /** Anyone may take all there is in accounts someone else may draw on. */
  lemma SharedEmptied(w: World, a: Key, b: Key) returns (taking: Step)
    requires a in w.tokens && b in w.tokens && w.tokens[a].shared && w.tokens[b].shared
    ensures IsOutside(taking) && Attempt(w, taking).Ok?
    ensures HeldBy(Next(w, taking), a) == HeldBy(Next(w, taking), b) == 0
  {
    var emptied := map[a := Some(w.tokens[a].(amount := 0)), b := Some(w.tokens[b].(amount := 0))];
    taking := Outside(Inner([], emptied));
    assert MovedAll(w.lamports, []) == Ok(w.lamports);
  }

  /** A route may take nothing, deliver the floor, and approve a delegate on both accounts. */
  lemma RouteShares(w: World, agent: Signer, args: TradeArgs, sp: Sponsorship, remaining: seq<Key>, b: Bracket)
    returns (route: Inner, w': World)
    requires Completable(w, agent, args, sp, remaining, b)
    ensures Traded(w, agent, args, sp, remaining, route) == Ok(w')
    ensures TraderHolds(w', b.source, args.inputMint) == HeldBy(b.world, b.source)
    ensures TraderHolds(w', b.dest, args.outputMint) == HeldBy(w, b.dest) + args.minOut
    ensures b.source in w'.tokens && b.dest in w'.tokens && w'.tokens[b.source].shared && w'.tokens[b.dest].shared
  {
    OpenedEffect(w, agent, args, sp, remaining, b);
    var src, dst := b.world.tokens[b.source], b.world.tokens[b.dest];
    var received: u64 := dst.amount + args.minOut;
    var src', dst' := src.(shared := true), dst.(amount := received, shared := true);
    route := RouteTo(b, src', dst');
    w' := RouteAccepted(w, agent, args, sp, remaining, b, src', dst');
  }

  /** The bracket measures only the instruction. Every trade that can complete, fixed owners and a
      positive floor included, has an accepted route that takes nothing, delivers the floor,
      and approves a delegate on both accounts, who may empty them when it is over. */
  lemma SharedThenEmptied(w: World, agent: Signer, args: TradeArgs, sp: Sponsorship, remaining: seq<Key>, b: Bracket)
    returns (trade: Step, taking: Step, w': World, end: World)
    requires Completable(w, agent, args, sp, remaining, b)
    ensures trade.Trade? && trade == Step.Trade(agent, args, sp, remaining, trade.inner) && IsOutside(taking)
    ensures Attempt(w, trade) == Ok(w') && Attempt(w', taking) == Ok(end)
    ensures TraderHolds(w', b.source, args.inputMint) == HeldBy(b.world, b.source)
    ensures TraderHolds(w', b.dest, args.outputMint) == HeldBy(w, b.dest) + args.minOut
    ensures HeldBy(end, b.source) == 0 && HeldBy(end, b.dest) == 0
  {
    var route;
    route, w' := RouteShares(w, agent, args, sp, remaining, b);
    trade := Step.Trade(agent, args, sp, remaining, route);
    assert Attempt(w, trade) == Ok(w');
    taking := SharedEmptied(w', b.source, b.dest);
    end := Next(w', taking);
  }

  // ----- Accounts left alone -----

  /** The step is handed `k` with the trader's signature: as one of a trade's accounts, as a
      payment's source, or in a list the root sweeps. */
  predicate Touches(s: Step, k: Key) {
    || (s.Trade? && k in s.remaining)
    || ((s.PayToken? || s.PaySubscription?) && s.route.source == k)
    || (s.WithdrawTrader? && k in s.list)
  }

  /** The trader's own account, which nobody else may draw on. */
  predicate OwnAlone(w: World, k: Key, mint: Key) {
    Matches(w.tokens, k, w.Trader(), mint) && !w.tokens[k].shared
  }

  ghost predicate KeptBy(w: World, w': World, k: Key, mint: Key) {
    OwnAlone(w', k, mint) && HeldBy(w', k) >= HeldBy(w, k)
  }

  lemma AllowedKeeps(w: World, changes: map<Key, Option<TokenAccount>>, k: Key, mint: Key)
    requires TokensAllowed(w, changes, false) && OwnAlone(w, k, mint)
    ensures k in TokensAfter(w.tokens, changes)
    ensures var after := TokensAfter(w.tokens, changes)[k];
      OnlyAmountDiffers(after, w.tokens[k]) && after.amount >= HeldBy(w, k)
  {}

  /** The tokens of a call are what its inner program may leave without the trader's signature. */
  lemma CalledTokens(w: World, agent: Signer, call: I.CallArgs, sp: Sponsorship, w': World)
    requires I.Called(w, agent, call, sp) == Ok(w')
    ensures w'.Trader() == w.Trader()
    ensures if call.remaining == [] then w'.tokens == w.tokens else
            TokensAllowed(w, call.inner.tokens, false) && w'.tokens == TokensAfter(w.tokens, call.inner.tokens)
  {
    var w1, w2, w3 := CalledParts(w, agent, call, sp);
    InnerParts(w2, call, w3);
    SponsorMovesNoTokens(w3, agent, sp, w');
  }

  lemma SponsorMovesNoTokens(w: World, agent: Signer, sp: Sponsorship, w': World)
    requires agent in w.grants && (sp.paymaster ==> w.paymaster.Some?) && SponsorReimbursed(w, agent, sp) == Ok(w')
    ensures w'.tokens == w.tokens && w'.root == w.root
  {}

  lemma CallKeeps(w: World, s: Step, k: Key, mint: Key)
    requires s.Call? && IntentAttempt(w, s).Ok? && OwnAlone(w, k, mint)
    ensures KeptBy(w, IntentAttempt(w, s).value, k, mint)
  {
    CalledTokens(w, s.agent, s.call, s.sp, IntentAttempt(w, s).value);
    if s.call.remaining != [] { AllowedKeeps(w, s.call.inner.tokens, k, mint); }
  }

  lemma TradeKeeps(w: World, s: Step, k: Key, mint: Key)
    requires s.Trade? && IntentAttempt(w, s).Ok? && OwnAlone(w, k, mint) && k !in s.remaining
    ensures KeptBy(w, IntentAttempt(w, s).value, k, mint)
  {
    var b, w' := TradeOpened(w, s.agent, s.trade, s.sp, s.remaining).value, IntentAttempt(w, s).value;
    OpenedEffect(w, s.agent, s.trade, s.sp, s.remaining, b);
    TradeRan(w, s.agent, s.trade, s.sp, s.remaining, s.inner, b, w');
  }

  lemma PaymentKeeps(w: World, w': World, route: TokenRoute, amount: u64, k: Key, mint: Key)
    requires TokensMoved(w.tokens, route.tokenProgram, route.source, route.destination, amount) == Ok(w'.tokens)
    requires w'.root == w.root && OwnAlone(w, k, mint) && route.source != k
    ensures KeptBy(w, w', k, mint)
  {}

  lemma SweepKeeps(w: World, s: Step, k: Key, mint: Key)
    requires s.WithdrawTrader? && CustodyAttempt(w, s).Ok? && OwnAlone(w, k, mint) && k !in s.list
    ensures KeptBy(w, CustodyAttempt(w, s).value, k, mint)
  {
    var w', n := CustodyAttempt(w, s).value, |s.list| / 2;
    P.WithdrawExactly(w, s.caller, s.lamports, s.list, w');
    CustodyFrame(w, s);
    assert P.SweptTo(w.tokens, w'.tokens, s.list, n, k);
    assert !P.SweptSource(s.list, n, k);
    P.NothingReceived(w.tokens, s.list, n, k);
  }

  lemma IntentKeeps(w: World, s: Step, k: Key, mint: Key)
    requires IsIntent(s) && IntentAttempt(w, s).Ok? && OwnAlone(w, k, mint) && !Touches(s, k)
    ensures KeptBy(w, IntentAttempt(w, s).value, k, mint)
  {
    if s.Call? {
      CallKeeps(w, s, k, mint);
    } else if s.Trade? {
      TradeKeeps(w, s, k, mint);
    } else if s.PayToken? {
      var w' := IntentAttempt(w, s).value;
      PaidTokens(w, s.agent, s.route, s.amount, s.decimals, s.sp, w');
      PaymentKeeps(w, w', s.route, s.amount, k, mint);
    } else if s.PaySubscription? {
      var w' := IntentAttempt(w, s).value;
      PaidSubscriptionTokens(w, s.agent, s.key, s.period, s.route, s.sp, w');
      PaymentKeeps(w, w', s.route, w.subs[s.key].amount, k, mint);
    } else {
      SentTokens(w, s);
    }
  }

  lemma SentTokens(w: World, s: Step)
    requires (s.Pay? || s.Swap?) && IntentAttempt(w, s).Ok?
    ensures IntentAttempt(w, s).value.tokens == w.tokens && IntentAttempt(w, s).value.root == w.root
  {}

  lemma CustodyTokens(w: World, s: Step)
    requires IsCustody(s) && !s.WithdrawTrader? && !s.Outside? && CustodyAttempt(w, s).Ok?
    ensures CustodyAttempt(w, s).value.tokens == w.tokens && CustodyAttempt(w, s).value.root == w.root
  {}

  lemma SettingTokens(w: World, s: Step)
    requires !IsIntent(s) && !IsCustody(s) && SettingAttempt(w, s).Ok?
    ensures SettingAttempt(w, s).value.tokens == w.tokens && SettingAttempt(w, s).value.root == w.root
  {}

  lemma StepKeeps(w: World, s: Step, k: Key, mint: Key)
    requires OwnAlone(w, k, mint) && !(Touches(s, k) && Attempt(w, s).Ok?)
    ensures KeptBy(w, Next(w, s), k, mint)
  {
    if Attempt(w, s).Ok? {
      if IsIntent(s) {
        IntentKeeps(w, s, k, mint);
      } else if s.WithdrawTrader? {
        SweepKeeps(w, s, k, mint);
      } else if s.Outside? {
        AllowedKeeps(w, s.inner.tokens, k, mint);
      } else if IsCustody(s) {
        CustodyTokens(w, s);
      } else {
        SettingTokens(w, s);
      }
    }
  }

  /** No accepted step of the run is handed `k` with the trader's signature. */
  ghost predicate LeftAlone(w: World, steps: seq<Step>, k: Key)
    decreases |steps|
  {
    steps != [] ==>
      && !(Touches(steps[0], k) && Attempt(w, steps[0]).Ok?)
      && LeftAlone(Next(w, steps[0]), steps[1..], k)
  }

  /** An account nobody else may draw on keeps what it holds over any run that does not hand it to
      an accepted trade, payment or sweep, whatever inner programs of calls and the world
      outside do. */
  lemma {:induction false} LeftAloneKept(w: World, steps: seq<Step>, k: Key, mint: Key)
    requires OwnAlone(w, k, mint) && LeftAlone(w, steps, k)
    ensures OwnAlone(Run(w, steps), k, mint) && TraderHolds(Run(w, steps), k, mint) >= TraderHolds(w, k, mint)
    decreases |steps|
  {
    if steps != [] {
      Frame(w, steps[0]);
      StepKeeps(w, steps[0], k, mint);
      LeftAloneKept(Next(w, steps[0]), steps[1..], k, mint);
    }
  }
}
