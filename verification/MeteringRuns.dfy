/** What an agent can take against what its grant records, over any run and under any route. */
module MeteringRuns {
  import opened Runtime
  import opened State
  import opened Bank
  import opened Machine
  import opened MoneyRuns
  import opened TokenLedger
  import opened TokenTrade
  import opened TradeBracket
  import S = Subscriptions

  // ----- Metered covers actual -----

  /** What the step took from the account its agent was allowed to draw on, measured on the
      balances: vault lamports, or what the trader has at the payment's source, or at the
      trade's source after any wrap. */
  function Outflow(w: World, s: Step): int
    requires Attempt(w, s).Ok?
  {
    var w' := Next(w, s);
    match s
    case Pay(_, _, _, _) => w.Balance(w.Vault()) - w'.Balance(w.Vault())
    case Swap(_, _, _, _, _) => w.Balance(w.Vault()) - w'.Balance(w.Vault())
    case Call(_, _, _) => w.Balance(w.Vault()) - w'.Balance(w.Vault())
    case PayToken(_, route, _, _, _) =>
      TraderHolds(w, route.source, route.mint) - TraderHolds(w', route.source, route.mint)
    case PaySubscription(_, _, _, route, _) =>
      TraderHolds(w, route.source, route.mint) - TraderHolds(w', route.source, route.mint)
    case Trade(agent, trade, sp, remaining, _) =>
      SourceLoss(TradeOpened(w, agent, trade, sp, remaining).value, w', trade)
    case _ => 0
  }

  /** What the step added to `agent`'s metered total. */
  function Metered(w: World, s: Step, agent: Key): int {
    SpentBy(Next(w, s), agent) - SpentBy(w, agent)
  }

  function SpentBy(w: World, agent: Key): u64 {
    if agent in w.grants then w.grants[agent].spent else 0
  }

  /** The trade, if accepted, is one whose metering covers every route, or its input is SOL and the
      route it ran left the source with the trader. */
  ghost predicate TradeGuarded(w: World, s: Step) {
    s.Trade? && Attempt(w, s).Ok? ==>
      var b := TradeOpened(w, s.agent, s.trade, s.sp, s.remaining).value;
      || SourceGuarded(b, s.trade)
      || (SolInput(s.trade) && Matches(Next(w, s).tokens, b.source, w.Trader(), s.trade.inputMint))
  }

  /** What the step took as the program measures it: on the amounts, for a trade whoever has the
      source now. */
  function Measured(w: World, s: Step): int
    requires Attempt(w, s).Ok?
  {
    if s.Trade? then
      var b := TradeOpened(w, s.agent, s.trade, s.sp, s.remaining).value;
      HeldBy(b.world, b.source) - HeldBy(Next(w, s), b.source)
    else Outflow(w, s)
  }

  /** The grant's total is within its cap. */
  predicate WithinCap(w: World, agent: Key) {
    agent in w.grants ==> w.grants[agent].spent <= w.grants[agent].cap
  }

  lemma MeteredAmount(w: World, w': World, agent: Key, amount: u64, other: Key)
    requires MeteredOnce(w, w', agent, amount)
    ensures SpentBy(w', other) - SpentBy(w, other) == if other == agent then amount else 0
    ensures WithinCap(w, other) ==> WithinCap(w', other)
    ensures other in w.grants ==> other in w'.grants && w'.grants[other].cap == w.grants[other].cap
  {}

  lemma TokensLeave(w: World, w': World, program: Key, from: Key, to: Key, amount: u64, mint: Key)
    requires TokensMoved(w.tokens, program, from, to, amount) == Ok(w'.tokens) && w'.root == w.root
    ensures TraderHolds(w, from, mint) - TraderHolds(w', from, mint) <= amount
  {}

  lemma PaidTokens(w: World, agent: Signer, route: TokenRoute, amount: u64, decimals: u8, sp: Sponsorship, w': World)
    requires TokenPaid(w, agent, route, amount, decimals, sp) == Ok(w')
    ensures w'.root == w.root
    ensures TokensMoved(w.tokens, route.tokenProgram, route.source, route.destination, amount) == Ok(w'.tokens)
  {
    var w1, w2 := PaidTokenParts(w, agent, route, amount, decimals, sp);
    RouteTokens(w1, route, amount, w2);
  }

  lemma RouteTokens(w: World, route: TokenRoute, amount: u64, w': World)
    requires RouteTransferred(w, route, amount) == Ok(w')
    ensures TokensMoved(w.tokens, route.tokenProgram, route.source, route.destination, amount) == Ok(w'.tokens)
    ensures w'.root == w.root
  {
    FundsMovedMoves(w.AllFunds(), route.tokenProgram, route.source, route.destination, amount, w'.AllFunds());
  }

  lemma PaidSubscriptionTokens(w: World, agent: Signer, key: Key, period: i64, route: TokenRoute, sp: Sponsorship,
                               w': World)
    requires S.SubscriptionPaid(w, agent, key, period, route, sp) == Ok(w')
    ensures key in w.subs && w'.root == w.root
    ensures TokensMoved(w.tokens, route.tokenProgram, route.source, route.destination, w.subs[key].amount)
         == Ok(w'.tokens)
  {
    var w1, w2 := PaidSubscriptionParts(w, agent, key, period, route, sp);
    RouteTokens(w1, route, w.subs[key].amount, w2);
  }

  lemma PaidTokenCovered(w: World, agent: Signer, route: TokenRoute, amount: u64, decimals: u8, sp: Sponsorship,
                         mint: Key)
    requires TokenPaid(w, agent, route, amount, decimals, sp).Ok?
    ensures var w' := TokenPaid(w, agent, route, amount, decimals, sp).value;
      TraderHolds(w, route.source, mint) - TraderHolds(w', route.source, mint) <= amount
  {
    var w' := TokenPaid(w, agent, route, amount, decimals, sp).value;
    PaidTokens(w, agent, route, amount, decimals, sp, w');
    TokensLeave(w, w', route.tokenProgram, route.source, route.destination, amount, mint);
  }

  lemma PaidSubscriptionCovered(w: World, agent: Signer, key: Key, period: i64, route: TokenRoute, sp: Sponsorship,
                                mint: Key)
    requires S.SubscriptionPaid(w, agent, key, period, route, sp).Ok?
    ensures var w' := S.SubscriptionPaid(w, agent, key, period, route, sp).value;
      && key in w.subs && MeteredOnce(w, w', agent, w.subs[key].amount)
      && TraderHolds(w, route.source, mint) - TraderHolds(w', route.source, mint) <= w.subs[key].amount
  {
    var w' := S.SubscriptionPaid(w, agent, key, period, route, sp).value;
    PaidSubscriptionTokens(w, agent, key, period, route, sp, w');
    SubscriptionMeters(w, agent, key, period, route, sp);
    TokensLeave(w, w', route.tokenProgram, route.source, route.destination, w.subs[key].amount, mint);
  }

  lemma SubscriptionMeters(w: World, agent: Signer, key: Key, period: i64, route: TokenRoute, sp: Sponsorship)
    requires S.SubscriptionPaid(w, agent, key, period, route, sp).Ok?
    ensures key in w.subs
         && MeteredOnce(w, S.SubscriptionPaid(w, agent, key, period, route, sp).value, agent, w.subs[key].amount)
  {
    var w1, w2 := PaidSubscriptionParts(w, agent, key, period, route, sp);
    RouteMoves(w1, route, w.subs[key].amount, w2);
  }

  /** The vault loses exactly the lamports the intent names. */
  lemma VaultIntentTakes(w: World, s: Step)
    requires (s.Pay? || s.Swap? || s.Call?) && IntentAttempt(w, s).Ok?
    ensures w.Balance(w.Vault()) - IntentAttempt(w, s).value.Balance(w.Vault()) == VaultDebit(s)
  {
    IntentMoves(w, s);
    IntentVaultNet(w, s);
    Dropped(w, IntentAttempt(w, s).value, Moves(w, s), w.Vault(), VaultDebit(s));
  }

  lemma Dropped(w: World, w': World, moves: seq<Move>, k: Key, amount: int)
    requires MovedAll(w.lamports, moves) == Ok(w'.lamports) && Net(moves, k) + amount == 0
    ensures w.Balance(k) - w'.Balance(k) == amount
  {
    MovesAddUp(w.lamports, moves);
  }

  lemma VaultIntentMeters(w: World, s: Step)
    requires (s.Pay? || s.Swap? || s.Call?) && IntentAttempt(w, s).Ok?
    ensures MeteredOnce(w, IntentAttempt(w, s).value, s.agent, VaultDebit(s))
  {}

  /** What left for an intent, never counted as less than nothing. */
  function Taken(w: World, s: Step): nat
    requires Attempt(w, s).Ok?
  {
    Positive(Outflow(w, s))
  }

  function Positive(x: int): nat {
    if x > 0 then x else 0
  }

  lemma TradeCharge(w: World, s: Step, b: Bracket, w': World)
    requires s.Trade? && TradeOpened(w, s.agent, s.trade, s.sp, s.remaining) == Ok(b)
    requires Traded(w, s.agent, s.trade, s.sp, s.remaining, s.inner) == Ok(w')
    ensures MeteredOnce(w, w', s.agent, GrantAmount(s.trade))
    ensures SourceGuarded(b, s.trade) ==> SourceLoss(b, w', s.trade) <= GrantAmount(s.trade)
    ensures SolInput(s.trade) && Matches(w'.tokens, b.source, w'.Trader(), s.trade.inputMint) ==>
              SourceLoss(b, w', s.trade) <= GrantAmount(s.trade)
    ensures SolInput(s.trade) ==> HeldBy(b.world, b.source) - HeldBy(w', b.source) <= GrantAmount(s.trade)
  {
    OpenedEffect(w, s.agent, s.trade, s.sp, s.remaining, b);
    RouteTakesAtMost(w, s.agent, s.trade, s.sp, s.remaining, s.inner, b, w');
    GuardedExposure(b, s.trade);
    if SolInput(s.trade) {
      SolTradeCoveredIff(w, s.agent, s.trade, s.sp, s.remaining, s.inner, b, w');
      MeasuredWithinMetered(w, s.agent, s.trade, s.sp, s.remaining, s.inner, b, w');
    }
  }

  /** Each accepted intent makes exactly one grant check, for at least what left unless it is a
      trade whose source is not guarded, and for at least what is measured unless it is a trade
      of a non-SOL token. */
  lemma IntentCharge(w: World, s: Step) returns (amount: u64)
    requires IsIntent(s) && Attempt(w, s).Ok?
    ensures MeteredOnce(w, Next(w, s), s.agent, amount)
    ensures TradeGuarded(w, s) ==> Outflow(w, s) <= amount
    ensures (s.Trade? ==> SolInput(s.trade)) ==> Measured(w, s) <= amount
  {
    if s.Trade? {
      amount := GrantAmount(s.trade);
      var b := TradeOpened(w, s.agent, s.trade, s.sp, s.remaining).value;
      TradeCharge(w, s, b, Next(w, s));
    } else if s.PayToken? {
      amount := s.amount;
      PaidTokenCovered(w, s.agent, s.route, s.amount, s.decimals, s.sp, s.route.mint);
    } else if s.PaySubscription? {
      PaidSubscriptionCovered(w, s.agent, s.key, s.period, s.route, s.sp, s.route.mint);
      amount := w.subs[s.key].amount;
    } else {
      amount := VaultDebit(s);
      VaultIntentTakes(w, s);
      VaultIntentMeters(w, s);
    }
  }

  lemma SameMetersMeans(w: World, w': World, agent: Key)
    requires SameMeters(w, w')
    ensures SpentBy(w', agent) == SpentBy(w, agent)
    ensures agent in w.grants ==> agent in w'.grants && w'.grants[agent].cap == w.grants[agent].cap
    ensures WithinCap(w, agent) ==> WithinCap(w', agent)
  {}

  /** One step: an intent meters its own agent for at least what left, and no one else; a step
      that is no intent meters no one. */
  lemma StepCovered(w: World, s: Step, agent: Key)
    requires Attempt(w, s).Ok?
    ensures IsIntent(s) && agent == s.agent && TradeGuarded(w, s) ==> Taken(w, s) <= Metered(w, s, agent)
    ensures IsIntent(s) && agent == s.agent && (s.Trade? ==> SolInput(s.trade)) ==>
              Positive(Measured(w, s)) <= Metered(w, s, agent)
    ensures !IsIntent(s) || agent != s.agent ==> Metered(w, s, agent) == 0
  {
    if IsIntent(s) {
      var amount := IntentCharge(w, s);
      MeteredAmount(w, Next(w, s), s.agent, amount, agent);
    } else {
      RootFrame(w, s);
      SameMetersMeans(w, Next(w, s), agent);
    }
  }

  /** `s` is an accepted intent of `agent`. */
  predicate ActsIn(w: World, s: Step, agent: Key) {
    IsIntent(s) && s.agent == agent && Attempt(w, s).Ok?
  }

  /** Everything `agent` took over a run, added up. */
  function TotalTaken(w: World, steps: seq<Step>, agent: Key): nat
    decreases |steps|
  {
    if steps == [] then 0 else
    (if ActsIn(w, steps[0], agent) then Taken(w, steps[0]) else 0)
    + TotalTaken(Next(w, steps[0]), steps[1..], agent)
  }

  lemma StepWithinCap(w: World, s: Step, agent: Key)
    requires WithinCap(w, agent)
    ensures WithinCap(Next(w, s), agent)
    ensures agent in w.grants ==> agent in Next(w, s).grants && Next(w, s).grants[agent].cap == w.grants[agent].cap
  {
    if !IsIntent(s) {
      RootFrame(w, s);
      SameMetersMeans(w, Next(w, s), agent);
    } else if Attempt(w, s).Ok? {
      var amount := IntentCharge(w, s);
      MeteredAmount(w, Next(w, s), s.agent, amount, agent);
    }
  }

  /** Every accepted trade of `agent` over the run spends from a guarded source. */
  ghost predicate TradesGuarded(w: World, steps: seq<Step>, agent: Key)
    decreases |steps|
  {
    steps != [] ==>
      && (IsIntent(steps[0]) && steps[0].agent == agent ==> TradeGuarded(w, steps[0]))
      && TradesGuarded(Next(w, steps[0]), steps[1..], agent)
  }

  /** Metered covers actual: over any run in which the agent trades only from guarded sources,
      whatever inner programs and routes do, all that left on the agent's intents is at most
      what its grant recorded, and so at most what the cap had left. */
  lemma {:induction false} MeteredCoversActual(w: World, steps: seq<Step>, agent: Key)
    requires TradesGuarded(w, steps, agent)
    requires WithinCap(w, agent)
    ensures TotalTaken(w, steps, agent) <= SpentBy(Run(w, steps), agent) - SpentBy(w, agent)
    ensures agent in w.grants ==> TotalTaken(w, steps, agent) <= w.grants[agent].cap - w.grants[agent].spent
    ensures WithinCap(Run(w, steps), agent)
    ensures agent in w.grants ==>
              agent in Run(w, steps).grants && Run(w, steps).grants[agent].cap == w.grants[agent].cap
    decreases |steps|
  {
    if steps != [] {
      StepWithinCap(w, steps[0], agent);
      MeteredCoversActual(Next(w, steps[0]), steps[1..], agent);
      if Attempt(w, steps[0]).Ok? { StepCovered(w, steps[0], agent); }
      assert Run(w, steps) == Run(Next(w, steps[0]), steps[1..]);
    }
  }

  // ----- Metered covers measured -----

  /** Every accepted trade of `agent` over the run spends SOL. */
  ghost predicate TradesSol(w: World, steps: seq<Step>, agent: Key)
    decreases |steps|
  {
    steps != [] ==>
      && (steps[0].Trade? && steps[0].agent == agent && Attempt(w, steps[0]).Ok? ==> SolInput(steps[0].trade))
      && TradesSol(Next(w, steps[0]), steps[1..], agent)
  }

  /** What the program measured on `agent`'s intents over a run, added up. */
  function TotalMeasured(w: World, steps: seq<Step>, agent: Key): nat
    decreases |steps|
  {
    if steps == [] then 0 else
    (if ActsIn(w, steps[0], agent) then Positive(Measured(w, steps[0])) else 0)
    + TotalMeasured(Next(w, steps[0]), steps[1..], agent)
  }

  /** Over any run in which the agent's trades spend SOL, on any routes and from any source, what
      left the selected accounts as the program measures it is at most what the grant recorded,
      and so at most what the cap had left. */
  lemma {:induction false} MeteredCoversMeasured(w: World, steps: seq<Step>, agent: Key)
    requires TradesSol(w, steps, agent) && WithinCap(w, agent)
    ensures TotalMeasured(w, steps, agent) <= SpentBy(Run(w, steps), agent) - SpentBy(w, agent)
    ensures agent in w.grants ==> TotalMeasured(w, steps, agent) <= w.grants[agent].cap - w.grants[agent].spent
    ensures WithinCap(Run(w, steps), agent)
    ensures agent in w.grants ==>
              agent in Run(w, steps).grants && Run(w, steps).grants[agent].cap == w.grants[agent].cap
    decreases |steps|
  {
    if steps != [] {
      StepWithinCap(w, steps[0], agent);
      MeteredCoversMeasured(Next(w, steps[0]), steps[1..], agent);
      if Attempt(w, steps[0]).Ok? { StepCovered(w, steps[0], agent); }
      assert Run(w, steps) == Run(Next(w, steps[0]), steps[1..]);
    }
  }

  // ----- A dead grant -----

  /** The grant can no longer be used. */
  predicate GrantDead(w: World, agent: Key) {
    agent in w.grants && (w.grants[agent].revoked || w.grants[agent].expiresAt <= w.now)
  }

  lemma GrantStaysDead(w: World, w': World, agent: Key, holder: Key, amount: u64)
    requires GrantDead(w, agent) && w.now <= w'.now && MeteredOnce(w, w', holder, amount)
    ensures holder != agent && GrantDead(w', agent)
  {}

  /** Revoking the grant, or letting it expire, stops everything its agent can do, for good. */
  lemma {:induction false} DeadGrantTakesNothing(w: World, steps: seq<Step>, agent: Key)
    requires GrantDead(w, agent)
    ensures TotalTaken(w, steps, agent) == 0 && SpentBy(Run(w, steps), agent) == SpentBy(w, agent)
    decreases |steps|
  {
    if steps != [] {
      var s, w' := steps[0], Next(w, steps[0]);
      Frame(w, s);
      if !IsIntent(s) {
        RootFrame(w, s);
        SameMetersMeans(w, w', agent);
        DeadGrantKept(w, s, agent);
      } else if Attempt(w, s).Ok? {
        var amount := IntentCharge(w, s);
        GrantStaysDead(w, w', agent, s.agent, amount);
        MeteredAmount(w, w', s.agent, amount, agent);
      }
      DeadGrantTakesNothing(w', steps[1..], agent);
      assert Run(w, steps) == Run(w', steps[1..]);
    }
  }

  lemma DeadGrantKept(w: World, s: Step, agent: Key)
    requires GrantDead(w, agent) && !IsIntent(s)
    ensures GrantDead(Next(w, s), agent)
  {
    RootFrame(w, s);
  }

  // ----- Who gets paid -----

  /** A token payment by an agent credits no one but an owner on the list at that step, and
      comes out of the trader's own account. */
  lemma PaysOnlyListed(w: World, s: Step, k: Key)
    requires Attempt(w, s).Ok? && (s.PayToken? || s.PaySubscription?)
    ensures PaidFairly(w, Next(w, s), k)
  {
    if s.PayToken? {
      TokenPaysListed(w, s.agent, s.route, s.amount, s.decimals, s.sp, k);
    } else {
      SubscriptionPaysListed(w, s.agent, s.key, s.period, s.route, s.sp, k);
    }
  }

  /** `k` gained only if a listed owner holds it, and lost only if the trader does. */
  ghost predicate PaidFairly(w: World, w': World, k: Key) {
    && w.registry.Some?
    && (HeldBy(w', k) > HeldBy(w, k) ==> k in w.tokens && w.tokens[k].owner in w.registry.value.merchants)
    && (HeldBy(w', k) < HeldBy(w, k) ==> k in w.tokens && w.tokens[k].owner == w.Trader())
  }

  lemma TokenPaysListed(w: World, agent: Signer, route: TokenRoute, amount: u64, decimals: u8, sp: Sponsorship, k: Key)
    requires TokenPaid(w, agent, route, amount, decimals, sp).Ok?
    ensures PaidFairly(w, TokenPaid(w, agent, route, amount, decimals, sp).value, k)
  {
    var w' := TokenPaid(w, agent, route, amount, decimals, sp).value;
    PaidTokens(w, agent, route, amount, decimals, sp, w');
    PayTokenDelivers(w, agent, route, amount, decimals, sp);
    OnlyRouteMoves(w.tokens, route.tokenProgram, route.source, route.destination, amount, k);
  }

  lemma SubscriptionPaysListed(w: World, agent: Signer, key: Key, period: i64, route: TokenRoute, sp: Sponsorship,
                               k: Key)
    requires S.SubscriptionPaid(w, agent, key, period, route, sp).Ok?
    ensures PaidFairly(w, S.SubscriptionPaid(w, agent, key, period, route, sp).value, k)
  {
    var w' := S.SubscriptionPaid(w, agent, key, period, route, sp).value;
    PaidSubscriptionTokens(w, agent, key, period, route, sp, w');
    OnlyRouteMoves(w.tokens, route.tokenProgram, route.source, route.destination, w.subs[key].amount, k);
  }

  lemma OnlyRouteMoves(tokens: Tokens, program: Key, from: Key, to: Key, amount: u64, k: Key)
    requires TokensMoved(tokens, program, from, to, amount).Ok?
    ensures var after := TokensMoved(tokens, program, from, to, amount).value;
      && after.Keys == tokens.Keys
      && (k in tokens && after[k].amount > tokens[k].amount ==> k == to)
      && (k in tokens && after[k].amount < tokens[k].amount ==> k == from)
  {}
}
