/** Recurring payments: instructions/subscription.rs. */
module Subscriptions {
  import opened Runtime
  import opened State
  import opened Bank
  import opened TokenLedger

  const PERIOD_NONE: i64 := -1
  const MIN_PERIOD_SECONDS: i64 := 86_400

  datatype SubscriptionArgs = SubscriptionArgs(merchant: Key, amount: u64, periodSeconds: i64, startUnix: i64)

  function AddressOf(w: World, merchant: Key, mint: Key): Key {
    SubscriptionPda(w.Grok(), merchant, mint)
  }

  function SubscriptionCreated(w: World, caller: Signer, mint: Key, args: SubscriptionArgs): Result<World> {
    var _ :- Require(caller == w.root, UnauthorizedRoot);
    if w.registry.None? then Err(AccountNotInitialized) else
    var reg := w.registry.value;
    var key := AddressOf(w, args.merchant, mint);
    var _ :- Require(key !in w.subs, AccountInUse);
    var _ :- Require(args.amount > 0, ZeroAmount);
    var _ :- Require(args.periodSeconds >= MIN_PERIOD_SECONDS, SubscriptionPeriodTooShort);
    var _ :- Require(reg.mint == mint, PayTokenMintNotRegistered);
    var _ :- Require(args.merchant in reg.merchants, PayTokenPayeeNotAllowed);
    var start := if args.startUnix > w.now then args.startUnix else w.now;
    Ok(w.(subs := w.subs[key := Subscription(
      args.merchant, mint, args.amount, args.periodSeconds, start, PERIOD_NONE, 0, true)]))
  }

  function SubscriptionCancelled(w: World, caller: Signer, key: Key): Result<World> {
    var _ :- Require(caller == w.root, UnauthorizedRoot);
    if key !in w.subs then Err(AccountNotInitialized) else
    var _ :- Require(w.subs[key].active, SubscriptionInactive);
    Ok(w.(subs := w.subs[key := w.subs[key].(active := false)]))
  }

  /** Which period `now` falls in. The subtraction is checked, and aborts on overflow. */
  function CurrentPeriod(now: i64, startUnix: i64, periodSeconds: i64): Result<i64> {
    var _ :- Require(periodSeconds > 0, SubscriptionPeriodTooShort);
    var _ :- Require(now >= startUnix, SubscriptionNotStarted);
    if now - startUnix > I64_MAX then Err(ArithmeticOverflow) else
    Ok(PeriodIndex(now, startUnix, periodSeconds))
  }

  function PeriodIndex(now: int, start: int, period: int): (p: int)
    requires period > 0 && start <= now
    ensures 0 <= p <= now - start
  {
    FloorOf(now - start, period);
    (now - start) / period
  }

  /** Integer division of a non-negative number is the floor. */
  lemma FloorOf(x: int, p: int)
    requires x >= 0 && p > 0
    ensures 0 <= x / p <= x
    ensures (x / p) * p <= x < (x / p + 1) * p
  {
    var q, r := x / p, x % p;
    assert x == q * p + r && 0 <= r < p;
    assert (q + 1) * p == q * p + p;
    if q < 0 { Times(q, -1, p); }
    if q > x { Times(1, p, q); }
  }

  lemma Times(a: int, b: int, p: int)
    requires a <= b && p > 0
    ensures a * p <= b * p
  {
    assert (b - a) * p >= 0;
    assert b * p == a * p + (b - a) * p;
  }

  /** The period the subscription is to be charged for, if it may be charged at all. */
  function PeriodDue(w: World, sub: Subscription, period: i64): Result<()> {
    var _ :- Require(sub.active, SubscriptionInactive);
    var current :- CurrentPeriod(w.now, sub.startUnix, sub.periodSeconds);
    var _ :- Require(period == current, SubscriptionPeriodMismatch);
    Require(current > sub.lastPaidPeriod, SubscriptionAlreadyPaid)
  }

  function Settled(sub: Subscription, period: i64): Subscription {
    sub.(lastPaidPeriod := period, payments := if sub.payments == U32_MAX then U32_MAX else sub.payments + 1)
  }

  /** The accounts `pay_subscription` names must exist. */
  function SubscriptionAccounts(w: World, agent: Signer, key: Key, sp: Sponsorship): Result<()> {
    Require(agent in w.grants && key in w.subs && w.registry.Some? && (sp.paymaster ==> w.paymaster.Some?),
            AccountNotInitialized)
  }

  /** Meter the grant and move the tokens. The mint account must be the subscription's own. */
  function ChargeMoved(w: World, agent: Signer, sub: Subscription, route: TokenRoute): Result<World> {
    var w1 :- GrantChecked(w, agent, sub.amount);
    var _ :- RouteChecked(w1, route);
    var _ :- Require(route.mint == sub.mint, MissingAccount);
    RouteTransferred(w1, route, sub.amount)
  }

  /** The checks made before anything moves. */
  function ChargeChecked(w: World, sub: Subscription, reg: Registry, period: i64, route: TokenRoute,
                         sp: Sponsorship): Result<()> {
    var _ :- PeriodDue(w, sub, period);
    var _ :- SponsorPrechecked(sp);
    var _ :- Require(reg.mint == sub.mint, PayTokenMintNotRegistered);
    var _ :- Require(sub.merchant in reg.merchants, PayTokenPayeeNotAllowed);
    var _ :- SourceChecked(w, route.source, sub.mint, sub.amount);
    var _ :- DestinationChecked(w, route.destination, sub.mint, [sub.merchant]);
    Require(route.mint in w.mints, InvalidTokenProgram)
  }

  function SubscriptionPaid(w: World, agent: Signer, key: Key, period: i64, route: TokenRoute,
                            sp: Sponsorship): Result<World> {
    var _ :- SubscriptionAccounts(w, agent, key, sp);
    var sub := w.subs[key];
    var _ :- ChargeChecked(w, sub, w.registry.value, period, route, sp);
    var w1 :- ChargeMoved(w, agent, sub, route);
    Ok(w1.(subs := w1.subs[key := Settled(sub, period)]))
  }

  method CreateSubscription(a: Accounts, caller: Signer, mint: Key, args: SubscriptionArgs) returns (r: Result<()>)
    modifies a
    ensures Atomic(SubscriptionCreated(old(a.Snap()), caller, mint, args), old(a.Snap()), a.Snap(), r)
  {
    var key := SubscriptionPda(GrokAccountPda(a.root), args.merchant, mint);
    if caller != a.root { return Err(UnauthorizedRoot); }
    if a.registry.None? { return Err(AccountNotInitialized); }
    if key in a.subs { return Err(AccountInUse); }
    if args.amount == 0 { return Err(ZeroAmount); }
    if args.periodSeconds < MIN_PERIOD_SECONDS { return Err(SubscriptionPeriodTooShort); }
    if a.registry.value.mint != mint { return Err(PayTokenMintNotRegistered); }
    if args.merchant !in a.registry.value.merchants { return Err(PayTokenPayeeNotAllowed); }
    var start := if args.startUnix > a.now then args.startUnix else a.now;
    a.subs := a.subs[key := Subscription(
      args.merchant, mint, args.amount, args.periodSeconds, start, PERIOD_NONE, 0, true)];
    return Ok(());
  }

  method CancelSubscription(a: Accounts, caller: Signer, key: Key) returns (r: Result<()>)
    modifies a
    ensures Atomic(SubscriptionCancelled(old(a.Snap()), caller, key), old(a.Snap()), a.Snap(), r)
  {
    if caller != a.root { return Err(UnauthorizedRoot); }
    if key !in a.subs { return Err(AccountNotInitialized); }
    if !a.subs[key].active { return Err(SubscriptionInactive); }
    a.subs := a.subs[key := a.subs[key].(active := false)];
    return Ok(());
  }

  method CheckCharge(a: Accounts, sub: Subscription, reg: Registry, period: i64, route: TokenRoute, sp: Sponsorship)
    returns (r: Result<()>)
    ensures r == ChargeChecked(a.Snap(), sub, reg, period, route, sp)
  {
    var w := a.Snap();
    if !sub.active { return Err(SubscriptionInactive); }
    var current := CurrentPeriod(a.now, sub.startUnix, sub.periodSeconds);
    if current.Err? { return Err(current.error); }
    if period != current.value { return Err(SubscriptionPeriodMismatch); }
    if current.value <= sub.lastPaidPeriod { return Err(SubscriptionAlreadyPaid); }
    r := SponsorPrechecked(sp);
    if r.Err? { return; }
    if reg.mint != sub.mint { return Err(PayTokenMintNotRegistered); }
    if sub.merchant !in reg.merchants { return Err(PayTokenPayeeNotAllowed); }
    r := SourceChecked(w, route.source, sub.mint, sub.amount);
    if r.Err? { return; }
    r := DestinationChecked(w, route.destination, sub.mint, [sub.merchant]);
    if r.Err? { return; }
    if route.mint !in a.mints { return Err(InvalidTokenProgram); }
    return Ok(());
  }

  method PaySubscription(a: Accounts, agent: Signer, key: Key, period: i64, route: TokenRoute, sp: Sponsorship)
    returns (r: Result<()>)
    modifies a
    ensures Atomic(SubscriptionPaid(old(a.Snap()), agent, key, period, route, sp), old(a.Snap()), a.Snap(), r)
  {
    r := SubscriptionAccounts(a.Snap(), agent, key, sp);
    if r.Err? { return; }
    var sub := a.subs[key];
    r := CheckCharge(a, sub, a.registry.value, period, route, sp);
    if r.Err? { return; }
    r := MoveCharge(a, agent, sub, route);
    if r.Err? { return; }
    // The counters advance only now that the tokens have moved.
    AdvanceCounters(a, key, sub, period);
  }

  method AdvanceCounters(a: Accounts, key: Key, sub: Subscription, period: i64)
    modifies a`subs
    ensures a.subs == old(a.subs)[key := Settled(sub, period)]
  {
    a.subs := a.subs[key := sub.(lastPaidPeriod := period)];
    a.subs := a.subs[key := a.subs[key].(payments := if sub.payments == U32_MAX then U32_MAX else sub.payments + 1)];
  }

  method MoveCharge(a: Accounts, agent: Signer, sub: Subscription, route: TokenRoute) returns (r: Result<()>)
    modifies a
    ensures Atomic(ChargeMoved(old(a.Snap()), agent, sub, route), old(a.Snap()), a.Snap(), r)
  {
    var before := a.Snap();
    r := CheckGrant(a, agent, sub.amount);
    if r.Ok? { r := RouteChecked(a.Snap(), route); }
    if r.Ok? && route.mint != sub.mint { r := Err(MissingAccount); }
    if r.Ok? { r := TransferRoute(a, route, sub.amount); }
    if r.Err? { a.Rollback(before); }
  }
}
