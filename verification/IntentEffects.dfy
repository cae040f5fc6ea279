/** Exactly what an accepted intent writes besides lamports, which are its list of moves
    (`StepMoves`): the agent's grant, the token accounts, and the counters of a subscription. */
module IntentEffects {
  import opened Runtime
  import opened State
  import opened Bank
  import opened Machine
  import opened MoneyRuns
  import opened TokenLedger
  import opened TokenTrade
  import I = Intents
  import S = Subscriptions
  import A = TradeAcceptance
  import B = TradeBracket
  import R = MeteringRuns

  /** What the agent's grant is charged. */
  function Charge(w: World, s: Step): u64
    requires IsIntent(s)
  {
    match s
    case Pay(_, _, amount, _) => amount
    case Swap(_, _, amount, _, _) => amount
    case Call(_, call, _) => call.amount
    case PayToken(_, _, amount, _, _) => amount
    case PaySubscription(_, key, _, _, _) => if key in w.subs then w.subs[key].amount else 0
    case Trade(_, trade, _, _, _) => A.SolIn(trade)
  }

  /** One grant, charged once. */
  ghost predicate ChargedOnly(w: World, w': World, agent: Key, amount: u64) {
    && agent in w.grants && var g := w.grants[agent];
    && g.spent + amount <= g.cap
    && w'.grants == w.grants[agent := Grant(g.cap, g.spent + amount, g.expiresAt, g.revoked, g.sponsorEligible)]
  }

  lemma MeteredCharges(w: World, w': World, agent: Key, amount: u64)
    requires MeteredOnce(w, w', agent, amount)
    ensures ChargedOnly(w, w', agent, amount)
  {}

  /** An accepted intent charges its own agent's grant by exactly its amount, moves funds, and if it
      settles a subscription advances that one's two counters. It writes nothing else. */
  lemma IntentWrites(w: World, s: Step)
    requires IsIntent(s) && Attempt(w, s).Ok?
    ensures ChargedOnly(w, Next(w, s), s.agent, Charge(w, s))
    ensures var w' := Next(w, s);
      w' == w.(lamports := w'.lamports, tokens := w'.tokens, grants := w'.grants, subs := w'.subs)
    ensures if !s.PaySubscription? then Next(w, s).subs == w.subs else
            && s.key in w.subs && var sub := w.subs[s.key];
            Next(w, s).subs == w.subs[s.key := Subscription(
              sub.merchant, sub.mint, sub.amount, sub.periodSeconds, sub.startUnix, s.period,
              if sub.payments < U32_MAX then sub.payments + 1 else U32_MAX, sub.active)]
  {
    IntentFrame(w, s);
    IntentCharged(w, s);
    MeteredCharges(w, Next(w, s), s.agent, Charge(w, s));
  }

  lemma IntentCharged(w: World, s: Step)
    requires IsIntent(s) && IntentAttempt(w, s).Ok?
    ensures MeteredOnce(w, IntentAttempt(w, s).value, s.agent, Charge(w, s))
  {
    if s.PaySubscription? { R.SubscriptionMeters(w, s.agent, s.key, s.period, s.route, s.sp); }
  }

  // ----- Tokens -----

  /** `amount` went from one account to the other, or, on one account, nothing moved. */
  ghost predicate TokensSent(before: Tokens, after: Tokens, from: Key, to: Key, amount: u64) {
    && from in before && to in before
    && if from == to then after == before else
       && amount <= before[from].amount && before[to].amount + amount <= U64_MAX
       && after == before[from := before[from].(amount := before[from].amount - amount)]
                         [to := before[to].(amount := before[to].amount + amount)]
  }

  /** The tokens when the route of a trade starts. */
  ghost predicate TokensWrapped(w: World, start: Tokens, trade: TradeArgs, remaining: seq<Key>) {
    if !trade.wrapSol then start == w.tokens else
    && var source := A.SourceOf(w, trade, remaining);
    && source.Some? && 0 <= w.Balance(source.value) + trade.inAmount - TOKEN_ACCOUNT_RENT <= U64_MAX
    && start == w.tokens[source.value := w.tokens[source.value].(
         amount := w.Balance(source.value) + trade.inAmount - TOKEN_ACCOUNT_RENT)]
  }

  /** What an accepted intent does to the token accounts. */
  ghost predicate TokensWritten(w: World, after: Tokens, s: Step)
    requires IsIntent(s)
  {
    match s
    case Pay(_, _, _, _) => after == w.tokens
    case Swap(_, _, _, _, _) => after == w.tokens
    case Call(_, call, _) =>
      after == if call.remaining == [] then w.tokens else TokensAfter(w.tokens, call.inner.tokens)
    case PayToken(_, route, amount, _, _) => TokensSent(w.tokens, after, route.source, route.destination, amount)
    case PaySubscription(_, key, _, route, _) =>
      key in w.subs && TokensSent(w.tokens, after, route.source, route.destination, w.subs[key].amount)
    case Trade(_, trade, _, remaining, inner) =>
      exists start :: TokensWrapped(w, start, trade, remaining) && after == TokensAfter(start, inner.tokens)
  }

  lemma MovedSends(before: Tokens, program: Key, from: Key, to: Key, amount: u64, after: Tokens)
    requires TokensMoved(before, program, from, to, amount) == Ok(after)
    ensures TokensSent(before, after, from, to, amount)
  {}

  lemma SendTokens(w: World, agent: Signer, to: Key, amount: u64, sp: Sponsorship)
    requires agent in w.grants && (sp.paymaster ==> w.paymaster.Some?)
    requires I.MeteredSend(w, agent, to, amount, sp).Ok?
    ensures I.MeteredSend(w, agent, to, amount, sp).value.tokens == w.tokens
  {}

  lemma CallTokens(w: World, agent: Signer, call: I.CallArgs, sp: Sponsorship, w': World)
    requires I.Called(w, agent, call, sp) == Ok(w')
    ensures w'.tokens == if call.remaining == [] then w.tokens else TokensAfter(w.tokens, call.inner.tokens)
  {
    var w1, w2, w3 := CalledParts(w, agent, call, sp);
    InnerTokens(w2, call, w3);
    SponsorTokens(w3, agent, sp, w');
  }

  lemma InnerTokens(w: World, call: I.CallArgs, w': World)
    requires I.InnerCalled(w, call) == Ok(w')
    ensures w'.tokens == if call.remaining == [] then w.tokens else TokensAfter(w.tokens, call.inner.tokens)
  {}

  lemma SponsorTokens(w: World, agent: Key, sp: Sponsorship, w': World)
    requires agent in w.grants && (sp.paymaster ==> w.paymaster.Some?) && SponsorReimbursed(w, agent, sp) == Ok(w')
    ensures w'.tokens == w.tokens
  {}

  lemma TradeTokens(w: World, agent: Signer, trade: TradeArgs, sp: Sponsorship, remaining: seq<Key>, inner: Inner,
                    w': World)
    requires Traded(w, agent, trade, sp, remaining, inner) == Ok(w')
    ensures TokensWritten(w, w'.tokens, Trade(agent, trade, sp, remaining, inner))
  {
    var b := TradeOpened(w, agent, trade, sp, remaining).value;
    OpenedTokens(w, agent, trade, sp, remaining, b);
    B.TradeRan(w, agent, trade, sp, remaining, inner, b, w');
  }

  lemma OpenedTokens(w: World, agent: Signer, trade: TradeArgs, sp: Sponsorship, remaining: seq<Key>, b: Bracket)
    requires TradeOpened(w, agent, trade, sp, remaining) == Ok(b)
    ensures TokensWrapped(w, b.world.tokens, trade, remaining)
  {
    A.TradeOpenedWrites(w, agent, trade, sp, remaining, b);
  }

  lemma IntentTokens(w: World, s: Step)
    requires IsIntent(s) && IntentAttempt(w, s).Ok?
    ensures TokensWritten(w, IntentAttempt(w, s).value.tokens, s)
  {
    var w' := IntentAttempt(w, s).value;
    match s
    case Pay(agent, recipient, amount, sp) => SendTokens(w, agent, recipient, amount, sp);
    case Swap(agent, recipient, amount, minOut, sp) => SendTokens(w, agent, recipient, amount, sp);
    case Call(agent, call, sp) => CallTokens(w, agent, call, sp, w');
    case PayToken(agent, route, amount, decimals, sp) =>
      R.PaidTokens(w, agent, route, amount, decimals, sp, w');
      MovedSends(w.tokens, route.tokenProgram, route.source, route.destination, amount, w'.tokens);
    case PaySubscription(agent, key, period, route, sp) =>
      R.PaidSubscriptionTokens(w, agent, key, period, route, sp, w');
      MovedSends(w.tokens, route.tokenProgram, route.source, route.destination, w.subs[key].amount, w'.tokens);
    case Trade(agent, trade, sp, remaining, inner) =>
      TradeTokens(w, agent, trade, sp, remaining, inner, w');
  }
}
