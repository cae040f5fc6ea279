/** The promise of the merchant allowlist: an agent that only makes token payments spends within its
    cap, and only to owners the root has listed. */
module Containment {
  import opened Runtime
  import opened State
  import opened Bank
  import opened Machine
  import opened MeteringRuns
  import opened MoneyRuns
  import opened TokenLedger
  import opened TokenTrade
  import opened TradeBracket

  // ----- Everything the trader holds -----

  /** What `owner` holds of `mint`, over all its accounts. */
  ghost function OwnerTotal(tokens: Tokens, owner: Key, mint: Key): int {
    SumOf(OwnerRows(tokens, owner, mint))
  }

  ghost function OwnerRows(tokens: Tokens, owner: Key, mint: Key): map<Key, int> {
    map k <- tokens :: Held(tokens[k], owner, mint)
  }

  function Held(account: TokenAccount, owner: Key, mint: Key): u64 {
    if IsTokenProgram(account.program) && account.mint == mint && account.owner == owner then account.amount else 0
  }

  lemma OwnerChange(tokens: Tokens, k: Key, account: TokenAccount, owner: Key, mint: Key)
    requires k in tokens
    ensures OwnerTotal(tokens[k := account], owner, mint)
         == OwnerTotal(tokens, owner, mint) + Held(account, owner, mint) - Held(tokens[k], owner, mint)
  {
    assert OwnerRows(tokens[k := account], owner, mint)
         == OwnerRows(tokens, owner, mint)[k := Held(account, owner, mint) as int];
    SumUpdate(OwnerRows(tokens, owner, mint), k, Held(account, owner, mint));
  }

  /** A transfer costs `owner` the amount if it comes from one of its accounts and goes to another's. */
  lemma TransferCosts(tokens: Tokens, program: Key, from: Key, to: Key, amount: u64, after: Tokens, owner: Key,
                      mint: Key)
    requires TokensMoved(tokens, program, from, to, amount) == Ok(after)
    ensures OwnerTotal(tokens, owner, mint) - OwnerTotal(after, owner, mint)
         == (if Matches(tokens, from, owner, mint) then amount else 0)
            - (if Matches(tokens, to, owner, mint) then amount else 0)
  {
    if from != to {
      var src := tokens[from].(amount := tokens[from].amount - amount);
      OwnerChange(tokens, from, src, owner, mint);
      OwnerChange(tokens[from := src], to, tokens[to].(amount := tokens[to].amount + amount), owner, mint);
    }
  }

  // ----- One payment -----

  /** What the step cost the trader of `mint`, over all its accounts. */
  ghost function Cost(w: World, s: Step, mint: Key): int {
    OwnerTotal(w.tokens, w.Trader(), mint) - OwnerTotal(Next(w, s).tokens, w.Trader(), mint)
  }

  /** The vault untouched, and no token account richer but a listed owner's, or poorer but the
      trader's. */
  ghost predicate Contained(w: World, s: Step) {
    && Next(w, s).Balance(w.Vault()) == w.Balance(w.Vault())
    && forall k :: PaidFairly(w, Next(w, s), k)
  }

  predicate IsPayment(s: Step) {
    s.PayToken? || s.PaySubscription?
  }

  lemma PaymentCosts(w: World, s: Step, mint: Key)
    requires IsPayment(s) && Attempt(w, s).Ok?
    ensures Cost(w, s, mint) <= Metered(w, s, s.agent)
  {
    var amount := PaymentMoves(w, s);
    MeteredAmount(w, Next(w, s), s.agent, amount, s.agent);
    TransferCosts(w.tokens, s.route.tokenProgram, s.route.source, s.route.destination, amount, Next(w, s).tokens,
                  w.Trader(), mint);
  }

  /** A payment moves exactly what it meters. */
  lemma PaymentMoves(w: World, s: Step) returns (amount: u64)
    requires IsPayment(s) && Attempt(w, s).Ok?
    ensures MeteredOnce(w, Next(w, s), s.agent, amount)
    ensures TokensMoved(w.tokens, s.route.tokenProgram, s.route.source, s.route.destination, amount)
         == Ok(Next(w, s).tokens)
  {
    if s.PayToken? {
      amount := s.amount;
      PaidTokens(w, s.agent, s.route, s.amount, s.decimals, s.sp, Next(w, s));
    } else {
      PaidSubscriptionTokens(w, s.agent, s.key, s.period, s.route, s.sp, Next(w, s));
      SubscriptionMeters(w, s.agent, s.key, s.period, s.route, s.sp);
      amount := w.subs[s.key].amount;
    }
  }

  lemma PaymentContained(w: World, s: Step)
    requires IsPayment(s) && Attempt(w, s).Ok?
    ensures Contained(w, s)
  {
    forall k ensures PaidFairly(w, Next(w, s), k) {
      PaysOnlyListed(w, s, k);
    }
    IntentMoves(w, s);
    PaymentVaultNet(w, s);
    MovesAddUp(w.lamports, Moves(w, s));
  }

  // ----- Whole runs -----

  /** Every accepted intent of `agent` over the run is a token payment. */
  ghost predicate OnlyPays(w: World, steps: seq<Step>, agent: Key)
    decreases |steps|
  {
    steps != [] ==>
      && (ActsIn(w, steps[0], agent) ==> IsPayment(steps[0]))
      && OnlyPays(Next(w, steps[0]), steps[1..], agent)
  }

  /** What `agent`'s intents over the run cost the trader of `mint`. */
  ghost function TotalCost(w: World, steps: seq<Step>, agent: Key, mint: Key): int
    decreases |steps|
  {
    if steps == [] then 0 else
    (if ActsIn(w, steps[0], agent) then Cost(w, steps[0], mint) else 0)
    + TotalCost(Next(w, steps[0]), steps[1..], agent, mint)
  }

  /** Each of `agent`'s intents, as it happens, pays only owners on the list at that step. */
  ghost predicate AllContained(w: World, steps: seq<Step>, agent: Key)
    decreases |steps|
  {
    steps != [] ==>
      && (ActsIn(w, steps[0], agent) ==> Contained(w, steps[0]))
      && AllContained(Next(w, steps[0]), steps[1..], agent)
  }

  /** Over any run in which the agent only makes token payments, whatever everyone else does, it
      costs the trader no more of any mint than its grant records, and so no more than its cap
      had left. */
  lemma {:induction false} PaymentsWithinCap(w: World, steps: seq<Step>, agent: Key, mint: Key)
    requires OnlyPays(w, steps, agent) && WithinCap(w, agent)
    ensures TotalCost(w, steps, agent, mint) <= SpentBy(Run(w, steps), agent) - SpentBy(w, agent)
    ensures agent in w.grants ==> TotalCost(w, steps, agent, mint) <= w.grants[agent].cap - w.grants[agent].spent
    ensures WithinCap(Run(w, steps), agent)
    ensures agent in w.grants ==>
              agent in Run(w, steps).grants && Run(w, steps).grants[agent].cap == w.grants[agent].cap
    decreases |steps|
  {
    if steps != [] {
      StepWithinCap(w, steps[0], agent);
      PaymentsWithinCap(Next(w, steps[0]), steps[1..], agent, mint);
      StepCosts(w, steps[0], agent, mint);
      assert Run(w, steps) == Run(Next(w, steps[0]), steps[1..]);
    }
  }

  lemma StepCosts(w: World, s: Step, agent: Key, mint: Key)
    requires ActsIn(w, s, agent) ==> IsPayment(s)
    ensures (if ActsIn(w, s, agent) then Cost(w, s, mint) else 0) <= Metered(w, s, agent)
  {
    if ActsIn(w, s, agent) {
      PaymentCosts(w, s, mint);
    } else if Attempt(w, s).Ok? {
      StepCovered(w, s, agent);
    }
  }

  /** And every unit it pays goes to an owner on the list at that step. */
  lemma {:induction false} PaymentsGoToListed(w: World, steps: seq<Step>, agent: Key)
    requires OnlyPays(w, steps, agent)
    ensures AllContained(w, steps, agent)
    decreases |steps|
  {
    if steps != [] {
      PaymentsGoToListed(Next(w, steps[0]), steps[1..], agent);
      if ActsIn(w, steps[0], agent) { PaymentContained(w, steps[0]); }
    }
  }

  /** Any other intent may break it. A trade of a token that is not SOL meters nothing, and if its
      accounts can be given away some accepted route leaves all they hold to anyone. */
  lemma TradeNotContained(w: World, agent: Signer, args: TradeArgs, sp: Sponsorship, remaining: seq<Key>, b: Bracket,
                          stranger: Key) returns (s: Step)
    requires Completable(w, agent, args, sp, remaining, b) && stranger != w.Trader() && !SolInput(args)
    requires b.source in w.tokens && !OwnerFixed(w.tokens[b.source])
    requires b.dest in w.tokens && !OwnerFixed(w.tokens[b.dest])
    ensures s.Trade? && s.agent == agent && s.trade == args && Attempt(w, s).Ok?
    ensures Metered(w, s, agent) == 0
    ensures b.source in Next(w, s).tokens && Next(w, s).tokens[b.source].owner == stranger
    ensures HeldBy(Next(w, s), b.source) == HeldBy(w, b.source)
    ensures TraderHolds(Next(w, s), b.source, args.inputMint) == 0
  {
    var route, w' := RouteTakesAll(w, agent, args, sp, remaining, b, stranger);
    OpenedEffect(w, agent, args, sp, remaining, b);
    s := Step.Trade(agent, args, sp, remaining, route);
    assert Attempt(w, s) == Ok(w');
    MeteredAmount(w, w', agent, GrantAmount(args), agent);
  }
}
