/** Recurring payment over whole runs: at-least-once delivery becomes exactly-once settlement,
    at a bounded rate, with auditable gaps and a final cancel. */
module SettlementRuns {
  import opened Runtime
  import opened State
  import opened Bank
  import opened Machine
  import opened Subscriptions
  import M = Merchants
  import R = MoneyRuns
  import T = TokenLedger

  /** One settlement: the period paid and when. */
  datatype Settlement = Settlement(period: i64, at: i64)

  predicate Settles(w: World, s: Step, key: Key) {
    s.PaySubscription? && s.key == key && Attempt(w, s).Ok?
  }

  function Settlements(w: World, steps: seq<Step>, key: Key): seq<Settlement>
    decreases |steps|
  {
    if steps == [] then [] else
    (if Settles(w, steps[0], key) then [Settlement(steps[0].period, w.now)] else [])
    + Settlements(Next(w, steps[0]), steps[1..], key)
  }

  /** The parts of a subscription fixed at creation. */
  ghost predicate SameTerms(a: Subscription, b: Subscription) {
    && a.merchant == b.merchant && a.mint == b.mint && a.amount == b.amount
    && a.periodSeconds == b.periodSeconds && a.startUnix == b.startUnix
  }

  ghost predicate WellFormed(w: World, sub: Subscription) {
    && sub.periodSeconds >= MIN_PERIOD_SECONDS && sub.amount > 0
    && sub.lastPaidPeriod >= PERIOD_NONE
    && (sub.lastPaidPeriod >= 0 ==> sub.startUnix <= w.now)
    && (sub.lastPaidPeriod >= 0 ==> sub.lastPaidPeriod <= PeriodIndex(w.now, sub.startUnix, sub.periodSeconds))
  }

  // ----- One step -----

  lemma PaidEffect(w: World, s: Step, key: Key)
    requires Settles(w, s, key)
    ensures key in w.subs
    ensures var sub := w.subs[key];
      && sub.active && sub.lastPaidPeriod < s.period
      && CurrentPeriod(w.now, sub.startUnix, sub.periodSeconds) == Ok(s.period)
      && Next(w, s).subs == w.subs[key := Settled(sub, s.period)]
      && Next(w, s).now == w.now
  {}

  /** What one attempt can do to an existing subscription. */
  lemma SubscriptionStep(w: World, s: Step, key: Key)
    requires key in w.subs
    ensures key in Next(w, s).subs
    ensures var a, b := w.subs[key], Next(w, s).subs[key];
      && SameTerms(a, b) && (b.active ==> a.active)
      && (if Settles(w, s, key) then b == Settled(a, s.period) && a.active
          else b == a || b == a.(active := false))
  {
    Frame(w, s);
    if s.PaySubscription? && Attempt(w, s).Ok? {
      PaidEffect(w, s, s.key);
    }
  }

  lemma PeriodMonotone(a: int, b: int, start: int, period: int)
    requires period > 0 && start <= a <= b
    ensures PeriodIndex(a, start, period) <= PeriodIndex(b, start, period)
  {
    FloorOf(a - start, period);
    FloorOf(b - start, period);
    var x, y := PeriodIndex(a, start, period), PeriodIndex(b, start, period);
    if y + 1 <= x { Times(y + 1, x, period); }
  }

  lemma StepWellFormed(w: World, s: Step, key: Key)
    requires key in w.subs && WellFormed(w, w.subs[key])
    ensures key in Next(w, s).subs && WellFormed(Next(w, s), Next(w, s).subs[key])
  {
    SubscriptionStep(w, s, key);
    Frame(w, s);
    var sub := w.subs[key];
    if Settles(w, s, key) {
      PaidEffect(w, s, key);
    } else if sub.lastPaidPeriod >= 0 {
      PeriodMonotone(w.now, Next(w, s).now, sub.startUnix, sub.periodSeconds);
    }
  }

  /** A created subscription starts well-formed, unpaid and active, and not before its
      creation. */
  lemma CreatedWellFormed(w: World, caller: Signer, mint: Key, args: SubscriptionArgs)
    requires SubscriptionCreated(w, caller, mint, args).Ok?
    ensures var w', key := SubscriptionCreated(w, caller, mint, args).value, AddressOf(w, args.merchant, mint);
      && key !in w.subs && key in w'.subs && WellFormed(w', w'.subs[key])
      && w'.subs[key].lastPaidPeriod == PERIOD_NONE && w'.subs[key].payments == 0 && w'.subs[key].active
      && w'.subs[key].startUnix >= w.now && w'.subs[key].startUnix >= args.startUnix
      && w'.subs[key].startUnix in {w.now, args.startUnix} && w'.subs[key].amount == args.amount > 0
      && w'.subs[key].merchant == args.merchant && w'.subs[key].mint == mint
      && w'.subs[key].periodSeconds == args.periodSeconds
      && w.registry.Some? && args.merchant in w.registry.value.merchants
  {}

  // ----- Exactly once -----

  /** The log of a run. */
  ghost predicate InOrder(log: seq<Settlement>, sub: Subscription, from: i64, to: i64)
    requires sub.periodSeconds > 0
  {
    && (forall i, j :: 0 <= i < j < |log| ==> log[i].period < log[j].period)
    && (forall i :: 0 <= i < |log| ==>
          && sub.lastPaidPeriod < log[i].period
          && from <= log[i].at <= to && sub.startUnix <= log[i].at
          && log[i].period == PeriodIndex(log[i].at, sub.startUnix, sub.periodSeconds))
  }

  lemma PrependInOrder(head: Settlement, rest: seq<Settlement>, sub: Subscription, next: Subscription, from: i64,
                       to: i64)
    requires sub.periodSeconds > 0 && SameTerms(sub, next) && next.lastPaidPeriod == head.period
    requires InOrder(rest, next, from, to) && from <= to
    requires sub.lastPaidPeriod < head.period && head.at == from && sub.startUnix <= from
    requires head.period == PeriodIndex(from, sub.startUnix, sub.periodSeconds)
    ensures InOrder([head] + rest, sub, from, to)
  {}

  /** One step of the log, and what it leaves on the account. */
  lemma LogStep(w: World, s: Step, key: Key)
    requires key in w.subs && WellFormed(w, w.subs[key])
    ensures w.now <= Next(w, s).now && key in Next(w, s).subs
    ensures SameTerms(w.subs[key], Next(w, s).subs[key]) && WellFormed(Next(w, s), Next(w, s).subs[key])
    ensures var a, b := w.subs[key], Next(w, s).subs[key];
      if Settles(w, s, key) then
        && a.lastPaidPeriod < s.period == b.lastPaidPeriod
        && b.payments == (if a.payments == U32_MAX then U32_MAX else a.payments + 1)
        && Next(w, s).now == w.now && a.startUnix <= w.now
        && s.period == PeriodIndex(w.now, a.startUnix, a.periodSeconds)
      else b.lastPaidPeriod == a.lastPaidPeriod && b.payments == a.payments
  {
    SubscriptionStep(w, s, key);
    StepWellFormed(w, s, key);
    Frame(w, s);
    if Settles(w, s, key) { PaidEffect(w, s, key); }
  }

  /** What `SettledInOrder` says of a run that ends in `end` with the log `log`. */
  ghost predicate Accounted(w: World, end: World, log: seq<Settlement>, key: Key)
    requires key in w.subs && w.subs[key].periodSeconds > 0
  {
    && key in end.subs && w.now <= end.now
    && SameTerms(w.subs[key], end.subs[key]) && WellFormed(end, end.subs[key])
    && InOrder(log, w.subs[key], w.now, end.now)
    && end.subs[key].lastPaidPeriod == (if log == [] then w.subs[key].lastPaidPeriod else log[|log| - 1].period)
    && end.subs[key].payments
       == (if w.subs[key].payments + |log| > U32_MAX then U32_MAX else w.subs[key].payments + |log|)
  }

  lemma AccountedLater(w: World, w': World, end: World, log: seq<Settlement>, key: Key)
    requires key in w.subs && key in w'.subs && w.subs[key].periodSeconds > 0
    requires SameTerms(w.subs[key], w'.subs[key]) && w.now <= w'.now
    requires w'.subs[key].lastPaidPeriod == w.subs[key].lastPaidPeriod && w'.subs[key].payments == w.subs[key].payments
    requires Accounted(w', end, log, key)
    ensures Accounted(w, end, log, key)
  {}

  lemma AccountedPaid(w: World, w': World, end: World, head: Settlement, rest: seq<Settlement>, key: Key)
    requires key in w.subs && key in w'.subs && w.subs[key].periodSeconds > 0
    requires SameTerms(w.subs[key], w'.subs[key]) && w.now == w'.now == head.at
    requires w.subs[key].lastPaidPeriod < head.period == w'.subs[key].lastPaidPeriod
    requires w'.subs[key].payments == (if w.subs[key].payments == U32_MAX then U32_MAX else w.subs[key].payments + 1)
    requires w.subs[key].startUnix <= w.now
    requires head.period == PeriodIndex(w.now, w.subs[key].startUnix, w.subs[key].periodSeconds)
    requires Accounted(w', end, rest, key)
    ensures Accounted(w, end, [head] + rest, key)
  {
    PrependInOrder(head, rest, w.subs[key], w'.subs[key], w.now, end.now);
    assert ([head] + rest)[|rest|] == if rest == [] then head else rest[|rest| - 1];
  }

  lemma SettlementsStep(w: World, steps: seq<Step>, key: Key)
    requires steps != []
    ensures var s, rest := steps[0], Settlements(Next(w, steps[0]), steps[1..], key);
      Settlements(w, steps, key) == if Settles(w, s, key) then [Settlement(s.period, w.now)] + rest else rest
  {}

  /** Under any interleaving the settled periods strictly increase, each is the clock's own
      period when it was paid, the terms never change, and the counters record exactly the
      log. */
  lemma {:induction false} SettledInOrder(w: World, steps: seq<Step>, key: Key)
    requires key in w.subs && WellFormed(w, w.subs[key])
    ensures Accounted(w, Run(w, steps), Settlements(w, steps, key), key)
    decreases |steps|
  {
    if steps != [] {
      var s, w' := steps[0], Next(w, steps[0]);
      LogStep(w, s, key);
      SettledInOrder(w', steps[1..], key);
      var rest, end := Settlements(w', steps[1..], key), Run(w', steps[1..]);
      SettlementsStep(w, steps, key);
      if Settles(w, s, key) {
        AccountedPaid(w, w', end, Settlement(s.period, w.now), rest, key);
      } else {
        AccountedLater(w, w', end, rest, key);
      }
    }
  }

  /** An attempt for a period no later than one already settled fails and changes nothing. */
  lemma StaleAttemptRejected(w: World, s: Step)
    requires s.PaySubscription? && s.key in w.subs && s.period <= w.subs[s.key].lastPaidPeriod
    ensures Attempt(w, s).Err? && Next(w, s) == w
  {
    if Attempt(w, s).Ok? { PaidEffect(w, s, s.key); }
  }

  /** Exactly-once settlement: once a period has been paid, any retry of it, by any agent, with
      any accounts, any time later, can be deleted from the log of requests without changing
      the final state of anything. */
  lemma RetryChangesNothing(w: World, before: seq<Step>, paid: Step, between: seq<Step>, retry: Step, later: seq<Step>)
    requires paid.PaySubscription?
    requires var at := Run(w, before); Settles(at, paid, paid.key) && WellFormed(at, at.subs[paid.key])
    requires retry.PaySubscription? && retry.key == paid.key && retry.period <= paid.period
    ensures Run(w, before + [paid] + between + [retry] + later) == Run(w, before + [paid] + between + later)
  {
    var at := Run(w, before);
    PaidEffect(at, paid, paid.key);
    StepWellFormed(at, paid, paid.key);
    RunConcat(w, before, [paid]);
    RunOne(at, paid);
    var w1 := Next(at, paid);
    SettledInOrder(w1, between, paid.key);
    var w2 := Run(w1, between);
    RunConcat(w, before + [paid], between);
    StaleAttemptRejected(w2, retry);
    RunConcat(w, before + [paid] + between, [retry]);
    RunOne(w2, retry);
    RunConcat(w, before + [paid] + between + [retry], later);
    RunConcat(w, before + [paid] + between, later);
  }

  lemma RunOne(w: World, s: Step)
    ensures Run(w, [s]) == Next(w, s)
  {
    assert [s][1..] == [];
    assert Run(Next(w, s), []) == Next(w, s);
  }

  // ----- Rate -----

  lemma {:induction false} StrictlyIncreasingCount(log: seq<Settlement>, lo: int, hi: int)
    requires forall i, j :: 0 <= i < j < |log| ==> log[i].period < log[j].period
    requires forall i :: 0 <= i < |log| ==> lo <= log[i].period <= hi
    requires lo <= hi + 1
    ensures |log| <= hi - lo + 1
  {
    if log != [] {
      var last: int := log[|log| - 1].period;
      StrictlyIncreasingCount(log[..|log| - 1], lo, last - 1);
    }
  }

  function CeilDiv(x: int, p: int): int
    requires p > 0
  {
    (x + p - 1) / p
  }

  lemma WindowArithmetic(a: int, b: int, start: int, p: int)
    requires p > 0 && start <= a <= b
    ensures PeriodIndex(b, start, p) - PeriodIndex(a, start, p) <= CeilDiv(b - a, p)
  {
    var x, y, c := PeriodIndex(a, start, p), PeriodIndex(b, start, p), CeilDiv(b - a, p);
    FloorOf(a - start, p);
    FloorOf(b - start, p);
    FloorOf(b - a + p - 1, p);
    assert (c + 1) * p == c * p + p;
    assert (x + 1 + c) * p == (x + 1) * p + c * p;
    if x + 1 + c <= y { Times(x + 1 + c, y, p); }
  }

  /** Every period in the log lies between the clock's periods at the two ends of the run. */
  lemma LogWithin(log: seq<Settlement>, sub: Subscription, from: i64, to: i64)
    requires sub.periodSeconds > 0 && InOrder(log, sub, from, to)
    ensures to < sub.startUnix ==> |log| == 0
    ensures sub.startUnix <= to ==> forall i :: 0 <= i < |log| ==>
              0 <= log[i].period <= PeriodIndex(to, sub.startUnix, sub.periodSeconds)
    ensures sub.startUnix <= from ==> forall i :: 0 <= i < |log| ==>
              PeriodIndex(from, sub.startUnix, sub.periodSeconds) <= log[i].period
  {
    if |log| > 0 { assert sub.startUnix <= log[0].at <= to; }
    forall i | 0 <= i < |log|
      ensures 0 <= log[i].period <= PeriodIndex(to, sub.startUnix, sub.periodSeconds)
      ensures sub.startUnix <= from ==> PeriodIndex(from, sub.startUnix, sub.periodSeconds) <= log[i].period
    {
      PeriodMonotone(log[i].at, to, sub.startUnix, sub.periodSeconds);
      if sub.startUnix <= from { PeriodMonotone(from, log[i].at, sub.startUnix, sub.periodSeconds); }
    }
  }

  lemma LogRate(log: seq<Settlement>, sub: Subscription, from: i64, to: i64)
    requires sub.periodSeconds > 0 && InOrder(log, sub, from, to) && from <= to
    ensures to < sub.startUnix ==> |log| == 0
    ensures sub.startUnix <= to ==> |log| <= PeriodIndex(to, sub.startUnix, sub.periodSeconds) + 1
    ensures sub.startUnix <= from ==> |log| <= CeilDiv(to - from, sub.periodSeconds) + 1
  {
    LogWithin(log, sub, from, to);
    if sub.startUnix <= to {
      StrictlyIncreasingCount(log, 0, PeriodIndex(to, sub.startUnix, sub.periodSeconds));
    }
    if sub.startUnix <= from {
      PeriodMonotone(from, to, sub.startUnix, sub.periodSeconds);
      StrictlyIncreasingCount(log, PeriodIndex(from, sub.startUnix, sub.periodSeconds),
                              PeriodIndex(to, sub.startUnix, sub.periodSeconds));
      WindowArithmetic(from, to, sub.startUnix, sub.periodSeconds);
    }
  }

  /** At most one settlement per period the clock passed through between `from` and `to`, plus
      the period it started in: `n <= ceil(W / period) + 1` for a window of length `W`. */
  ghost predicate RateBounded(sub: Subscription, from: i64, to: i64, n: nat)
    requires sub.periodSeconds > 0
  {
    && from <= to
    && (to < sub.startUnix ==> n == 0)
    && (sub.startUnix <= to ==> n <= PeriodIndex(to, sub.startUnix, sub.periodSeconds) + 1)
    && (sub.startUnix <= from ==> n <= CeilDiv(to - from, sub.periodSeconds) + 1)
  }

  lemma AccountedRate(w: World, end: World, log: seq<Settlement>, key: Key)
    requires key in w.subs && w.subs[key].periodSeconds > 0 && Accounted(w, end, log, key)
    ensures RateBounded(w.subs[key], w.now, end.now, |log|)
  {
    LogRate(log, w.subs[key], w.now, end.now);
  }

  /** The rate bound holds of every run, from any moment. */
  lemma SettlementRate(w: World, steps: seq<Step>, key: Key)
    requires key in w.subs && WellFormed(w, w.subs[key])
    ensures RateBounded(w.subs[key], w.now, Run(w, steps).now, |Settlements(w, steps, key)|)
  {
    SettledInOrder(w, steps, key);
    AccountedRate(w, Run(w, steps), Settlements(w, steps, key), key);
  }

  // ----- The period arithmetic -----

  /** The current period is the exact floor, whenever there is one. */
  lemma CurrentPeriodIsFloor(now: i64, start: i64, period: i64, p: int)
    requires period > 0 && start <= now && now - start <= I64_MAX
    ensures CurrentPeriod(now, start, period) == Ok(p) <==> p * period <= now - start < (p + 1) * period
  {
    FloorOf(now - start, period);
    var q := PeriodIndex(now, start, period);
    if p * period <= now - start < (p + 1) * period {
      if p < q { Times(p + 1, q, period); }
      if q < p { Times(q + 1, p, period); }
    }
  }

  /** The checked subtraction is safe at every clock reading exactly for a start that is not
      negative, which is every subscription created at a non-negative clock. */
  lemma SafeStartIff(start: i64, period: i64)
    requires period > 0
    ensures (forall now: i64 :: start <= now ==> CurrentPeriod(now, start, period).Ok?) <==> start >= 0
  {
    if start < 0 {
      assert CurrentPeriod(I64_MAX, start, period) == Err(ArithmeticOverflow);
    }
  }

  /** So such a subscription has a period in every later state, once it has started. */
  lemma PeriodNeverOverflows(w: World, steps: seq<Step>, key: Key)
    requires key in w.subs && WellFormed(w, w.subs[key]) && w.subs[key].startUnix >= 0
    ensures key in Run(w, steps).subs
    ensures var end, sub := Run(w, steps), Run(w, steps).subs[key];
      CurrentPeriod(end.now, sub.startUnix, sub.periodSeconds).Ok? <==> end.now >= sub.startUnix
  {
    SettledInOrder(w, steps, key);
  }

  // ----- What is paid -----

  /** A settlement names an account of the merchant, who is on the allowlist at that step, meters
      the grant by exactly the amount, and moves no lamports but those a payment in wrapped SOL
      takes along: sponsorship is checked but never paid. Between two accounts it delivers
      exactly the amount; naming the trader's own account twice it moves nothing, which takes a
      subscription that pays the trader. */
  lemma SettlementPays(w: World, s: Step, key: Key)
    requires Settles(w, s, key)
    ensures key in w.subs
    ensures var sub, w' := w.subs[key], Next(w, s);
      && s.route.destination in w.tokens && w.tokens[s.route.destination].owner == sub.merchant
      && w.registry.Some? && sub.merchant in w.registry.value.merchants && w.registry.value.mint == sub.mint
      && MeteredOnce(w, w', s.agent, sub.amount)
      && MovedAll(w.lamports, T.NativeMoves(w.tokens, s.route.source, s.route.destination, sub.amount))
         == Ok(w'.lamports)
      && w'.Balance(w.PaymasterKey()) == w.Balance(w.PaymasterKey())
      && (if s.route.source == s.route.destination then w'.tokens == w.tokens
          else T.Delivered(w, w'.tokens, s.route.source, s.route.destination, sub.mint, sub.amount))
      && (s.route.source == s.route.destination ==> sub.merchant == w.Trader())
  {
    SettlementChecked(w, s, key);
    SettlementTokens(w, s, key);
    SettlementLamports(w, s, key);
    if s.route.source != s.route.destination {
      T.TransferDelivers(w, s.route, w.subs[key].mint, [w.subs[key].merchant], w.subs[key].amount);
    }
  }

  lemma SettlementTokens(w: World, s: Step, key: Key)
    requires Settles(w, s, key)
    ensures key in w.subs && MeteredOnce(w, Next(w, s), s.agent, w.subs[key].amount)
    ensures T.TokensMoved(w.tokens, s.route.tokenProgram, s.route.source, s.route.destination, w.subs[key].amount)
         == Ok(Next(w, s).tokens)
  {
    var w1, w2 := R.PaidSubscriptionParts(w, s.agent, s.key, s.period, s.route, s.sp);
    R.RouteMoves(w1, s.route, w.subs[key].amount, w2);
    T.FundsMovedMoves(w1.AllFunds(), s.route.tokenProgram, s.route.source, s.route.destination, w.subs[key].amount,
                      w2.AllFunds());
  }

  lemma SettlementLamports(w: World, s: Step, key: Key)
    requires Settles(w, s, key)
    ensures key in w.subs && Next(w, s).Balance(w.PaymasterKey()) == w.Balance(w.PaymasterKey())
    ensures MovedAll(w.lamports, T.NativeMoves(w.tokens, s.route.source, s.route.destination, w.subs[key].amount))
         == Ok(Next(w, s).lamports)
  {
    R.PaidSubscriptionMoves(w, s.agent, s.key, s.period, s.route, s.sp);
    R.PaymentPaymasterNet(w, s);
    MovesAddUp(w.lamports, R.BodyMoves(w, s));
  }

  lemma SettlementChecked(w: World, s: Step, key: Key)
    requires Settles(w, s, key)
    ensures key in w.subs && w.registry.Some?
    ensures var sub := w.subs[key];
      && T.SourceChecked(w, s.route.source, sub.mint, sub.amount).Ok?
      && T.DestinationChecked(w, s.route.destination, sub.mint, [sub.merchant]).Ok?
      && sub.merchant in w.registry.value.merchants && w.registry.value.mint == sub.mint
  {}

  /** `s` with its payment sent to `to` instead. */
  function Redirected(s: Step, to: Key): Step
    requires s.PaySubscription?
  {
    PaySubscription(s.agent, s.key, s.period, s.route.(destination := to), s.sp)
  }

  /** What a step brings the account it names as destination, measured on the balances. */
  function Arrived(w: World, s: Step): int
    requires s.PaySubscription?
  {
    T.HeldBy(Next(w, s), s.route.destination) - T.HeldBy(w, s.route.destination)
  }

  /** Whatever destination an agent names, an accepted settlement brings it the amount: exactly
      when the subscription does not pay the trader itself. */
  lemma SettlementArrivesIff(w: World, s: Step, key: Key)
    requires Settles(w, s, key) && key in w.subs && w.subs[key].amount > 0
    ensures (forall to: Key :: Settles(w, Redirected(s, to), key) ==>
               Arrived(w, Redirected(s, to)) == w.subs[key].amount)
       <==> w.subs[key].merchant != w.Trader()
  {
    if w.subs[key].merchant == w.Trader() {
      SelfPaymentSettles(w, s, key);
      SettlementPays(w, Redirected(s, s.route.source), key);
    } else {
      forall to: Key | Settles(w, Redirected(s, to), key)
        ensures Arrived(w, Redirected(s, to)) == w.subs[key].amount
      {
        SettlementPays(w, Redirected(s, to), key);
      }
    }
  }

  /** A subscription that pays the trader can be settled from the trader's account to itself. */
  lemma SelfPaymentSettles(w: World, s: Step, key: Key)
    requires Settles(w, s, key) && key in w.subs && w.subs[key].merchant == w.Trader()
    ensures Settles(w, Redirected(s, s.route.source), key)
  {
    var own := s.route.(destination := s.route.source);
    var w1 := GrantChecked(w, s.agent, w.subs[key].amount).value;
    T.SelfTransfer(w1, own, w.subs[key].amount);
    assert ChargeMoved(w, s.agent, w.subs[key], own) == Ok(w1);
  }

  /** Everything the settlements of a run brought, measured on the balances. */
  function TotalArrived(w: World, steps: seq<Step>, key: Key): int
    decreases |steps|
  {
    if steps == [] then 0 else
    (if Settles(w, steps[0], key) then Arrived(w, steps[0]) else 0)
    + TotalArrived(Next(w, steps[0]), steps[1..], key)
  }

  /** `s` settles `key` by paying an account from itself. */
  predicate PaysItself(w: World, s: Step, key: Key) {
    Settles(w, s, key) && s.route.source == s.route.destination
  }

  /** The settlements of a run that paid an account from itself. */
  function SelfPayments(w: World, steps: seq<Step>, key: Key): nat
    decreases |steps|
  {
    if steps == [] then 0 else
    (if PaysItself(w, steps[0], key) then 1 else 0) + SelfPayments(Next(w, steps[0]), steps[1..], key)
  }

  /** And those that paid another. */
  function Deliveries(w: World, steps: seq<Step>, key: Key): nat
    decreases |steps|
  {
    if steps == [] then 0 else
    (if Settles(w, steps[0], key) && !PaysItself(w, steps[0], key) then 1 else 0)
    + Deliveries(Next(w, steps[0]), steps[1..], key)
  }

  lemma {:induction false} SettlementsSplit(w: World, steps: seq<Step>, key: Key)
    ensures |Settlements(w, steps, key)| == Deliveries(w, steps, key) + SelfPayments(w, steps, key)
    decreases |steps|
  {
    if steps != [] {
      SettlementsSplit(Next(w, steps[0]), steps[1..], key);
      SettlementsStep(w, steps, key);
    }
  }

  lemma TermsKept(w: World, s: Step, key: Key)
    requires key in w.subs
    ensures key in Next(w, s).subs && Next(w, s).Trader() == w.Trader()
    ensures Next(w, s).subs[key].amount == w.subs[key].amount && Next(w, s).subs[key].merchant == w.subs[key].merchant
  {
    SubscriptionStep(w, s, key);
    Frame(w, s);
  }

  lemma {:induction false} NoSelfPayments(w: World, steps: seq<Step>, key: Key)
    requires key in w.subs && w.subs[key].merchant != w.Trader()
    ensures SelfPayments(w, steps, key) == 0
    decreases |steps|
  {
    if steps != [] {
      TermsKept(w, steps[0], key);
      NoSelfPayments(Next(w, steps[0]), steps[1..], key);
      if Settles(w, steps[0], key) { SettlementPays(w, steps[0], key); }
    }
  }

  lemma ArrivedStep(w: World, s: Step, key: Key)
    requires Settles(w, s, key)
    ensures key in w.subs && Arrived(w, s) == if PaysItself(w, s, key) then 0 else w.subs[key].amount
  {
    SettlementPays(w, s, key);
  }

  lemma OneMore(amount: int, n: int)
    ensures amount * (n + 1) == amount * n + amount
  {}

  lemma {:induction false} ArrivedPerDelivery(w: World, steps: seq<Step>, key: Key)
    requires key in w.subs
    ensures TotalArrived(w, steps, key) == w.subs[key].amount * Deliveries(w, steps, key)
    decreases |steps|
  {
    if steps != [] {
      var w' := Next(w, steps[0]);
      TermsKept(w, steps[0], key);
      ArrivedPerDelivery(w', steps[1..], key);
      if Settles(w, steps[0], key) {
        ArrivedStep(w, steps[0], key);
        if !PaysItself(w, steps[0], key) { OneMore(w.subs[key].amount, Deliveries(w', steps[1..], key)); }
      }
    }
  }

  lemma FullOnlyWithNoneMissing(total: int, amount: int, n: nat, arrived: nat, missing: nat)
    requires amount > 0 && total == amount * arrived && n == arrived + missing
    ensures total == amount * n <==> missing == 0
  {
    assert amount * n == amount * arrived + amount * missing;
    if missing > 0 { Times(1, missing, amount); }
  }

  /** Over any run the settlements of a subscription bring, on the balances, the fixed amount
      times their number, if and only if none of them paid an account from itself; and for any
      merchant but the trader none does. */
  lemma PaidPerSettlementIff(w: World, steps: seq<Step>, key: Key)
    requires key in w.subs && WellFormed(w, w.subs[key])
    ensures TotalArrived(w, steps, key) == w.subs[key].amount * |Settlements(w, steps, key)|
       <==> SelfPayments(w, steps, key) == 0
    ensures w.subs[key].merchant != w.Trader() ==> SelfPayments(w, steps, key) == 0
  {
    ArrivedPerDelivery(w, steps, key);
    SettlementsSplit(w, steps, key);
    FullOnlyWithNoneMissing(TotalArrived(w, steps, key), w.subs[key].amount, |Settlements(w, steps, key)|,
                            Deliveries(w, steps, key), SelfPayments(w, steps, key));
    if w.subs[key].merchant != w.Trader() { NoSelfPayments(w, steps, key); }
  }

  // ----- Auditable gaps -----

  ghost function PeriodsUpTo(last: int): set<int> {
    set p: int | 0 <= p <= last && Elapsed(p, last)
  }

  predicate Elapsed(p: int, last: int) {
    0 <= p <= last
  }

  ghost function PeriodsPaid(log: seq<Settlement>): set<int> {
    set i | 0 <= i < |log| :: log[i].period as int
  }

  lemma {:induction false} UpToSize(last: int)
    requires last >= -1
    ensures |PeriodsUpTo(last)| == last + 1
  {
    if last >= 0 {
      UpToSize(last - 1);
      assert PeriodsUpTo(last) == PeriodsUpTo(last - 1) + {last};
    } else {
      assert PeriodsUpTo(last) == {};
    }
  }

  lemma {:induction false} PaidSize(log: seq<Settlement>)
    requires forall i, j :: 0 <= i < j < |log| ==> log[i].period < log[j].period
    ensures |PeriodsPaid(log)| == |log|
  {
    if log != [] {
      var init := log[..|log| - 1];
      var last: int := log[|log| - 1].period;
      PaidSize(init);
      forall i | 0 <= i < |init| ensures log[i].period as int in PeriodsPaid(init) {
        assert init[i] == log[i];
      }
      assert PeriodsPaid(log) == PeriodsPaid(init) + {last};
      assert last !in PeriodsPaid(init);
    }
  }

  /** From a fresh subscription, and while the counter has not saturated, the account itself
      tells how many periods up to the last paid one were missed. */
  lemma GapsAreAuditable(w: World, steps: seq<Step>, key: Key)
    requires key in w.subs && WellFormed(w, w.subs[key])
    requires w.subs[key].lastPaidPeriod == PERIOD_NONE && w.subs[key].payments == 0
    requires key in Run(w, steps).subs && Run(w, steps).subs[key].payments < U32_MAX
    ensures var sub := Run(w, steps).subs[key];
      |PeriodsUpTo(sub.lastPaidPeriod) - PeriodsPaid(Settlements(w, steps, key))|
        == sub.lastPaidPeriod + 1 - sub.payments
  {
    SettledInOrder(w, steps, key);
    var sub, log := Run(w, steps).subs[key], Settlements(w, steps, key);
    UpToSize(sub.lastPaidPeriod);
    PaidSize(log);
    assert PeriodsPaid(log) <= PeriodsUpTo(sub.lastPaidPeriod);
  }

  // ----- Kill switches -----

  /** Cancel is final: no later run pays the subscription or changes anything in it. */
  lemma {:induction false} CancelIsFinal(w: World, steps: seq<Step>, key: Key)
    requires key in w.subs && !w.subs[key].active
    ensures key in Run(w, steps).subs && Run(w, steps).subs[key] == w.subs[key]
    ensures Settlements(w, steps, key) == []
    decreases |steps|
  {
    if steps != [] {
      SubscriptionStep(w, steps[0], key);
      CancelIsFinal(Next(w, steps[0]), steps[1..], key);
    }
  }

  /** An accepted cancel stops the subscription over every continuation. */
  lemma CancelStops(w: World, caller: Signer, key: Key, steps: seq<Step>)
    requires SubscriptionCancelled(w, caller, key).Ok?
    ensures caller == w.root && key in w.subs
    ensures Settlements(SubscriptionCancelled(w, caller, key).value, steps, key) == []
  {
    CancelIsFinal(SubscriptionCancelled(w, caller, key).value, steps, key);
  }

  /** The merchant is not on the list. */
  predicate Delisted(w: World, merchant: Key) {
    w.registry.Some? ==> merchant !in w.registry.value.merchants
  }

  lemma RemoveKeepsDelisted(w: World, caller: Signer, removed: Key, merchant: Key)
    requires Delisted(w, merchant) && M.MerchantRemoved(w, caller, removed).Ok?
    ensures Delisted(M.MerchantRemoved(w, caller, removed).value, merchant)
  {
    M.WithoutMeans(w.registry.value.merchants, removed);
  }

  lemma StaysDelisted(w: World, s: Step, merchant: Key)
    requires Delisted(w, merchant) && !(s.AddMerchant? && s.merchant == merchant)
    ensures Delisted(Next(w, s), merchant)
  {
    if s.RemoveMerchant? {
      if M.MerchantRemoved(w, s.caller, s.merchant).Ok? { RemoveKeepsDelisted(w, s.caller, s.merchant, merchant); }
    } else {
      Frame(w, s);
    }
  }

  /** No accepted step of the run puts `merchant` back on the list. */
  ghost predicate NotRelisted(w: World, steps: seq<Step>, merchant: Key)
    decreases |steps|
  {
    steps != [] ==>
      && !(steps[0].AddMerchant? && steps[0].merchant == merchant && Attempt(w, steps[0]).Ok?)
      && NotRelisted(Next(w, steps[0]), steps[1..], merchant)
  }

  /** Taking a merchant off the allowlist stops its subscriptions until it is put back. */
  lemma {:induction false} DelistingStopsPayment(w: World, steps: seq<Step>, key: Key)
    requires key in w.subs && Delisted(w, w.subs[key].merchant)
    requires NotRelisted(w, steps, w.subs[key].merchant)
    ensures Settlements(w, steps, key) == []
    decreases |steps|
  {
    if steps != [] {
      var s := steps[0];
      SubscriptionStep(w, s, key);
      if Attempt(w, s).Ok? { StaysDelisted(w, s, w.subs[key].merchant); }
      DelistingStopsPayment(Next(w, s), steps[1..], key);
    }
  }

  // ----- The allowlist over runs -----

  lemma RegistryStep(w: World, s: Step)
    requires M.RegistryFits(w)
    ensures M.RegistryFits(Next(w, s))
  {
    Frame(w, s);
    if s.AddMerchant? && w.registry.Some? {
      M.AddRefinesInsert(w, s.merchant);
    } else if s.RemoveMerchant? && w.registry.Some? {
      M.RemoveRefinesDelete(w, s.merchant);
    }
  }

  /** In every reachable state the allowlist is duplicate-free, has at most 32 entries and fits
      the space its account was created with. */
  lemma {:induction false} RegistryAlwaysFits(w: World, steps: seq<Step>)
    requires M.RegistryFits(w)
    ensures M.RegistryFits(Run(w, steps))
    decreases |steps|
  {
    if steps != [] {
      RegistryStep(w, steps[0]);
      RegistryAlwaysFits(Next(w, steps[0]), steps[1..]);
    }
  }
}
