/** When a subscription can be paid at all: the clock's own period stays due until it is settled or
    the subscription is cancelled, whatever else is attempted. */
module SettlementDue {
  import opened Runtime
  import opened State
  import opened Bank
  import opened Machine
  import opened Subscriptions
  import opened SettlementRuns
  import opened Acceptance
  import T = TokenLedger

  /** The clock's current period of an active subscription has not been settled. */
  ghost predicate Due(w: World, key: Key)
    requires key in w.subs && w.subs[key].periodSeconds > 0
  {
    var sub := w.subs[key];
    sub.active && sub.startUnix <= w.now && sub.lastPaidPeriod < PeriodIndex(w.now, sub.startUnix, sub.periodSeconds)
  }

  /** Some period can be paid exactly when one is due and the clock's distance from the start does
      not overflow; and then it is the clock's own. */
  lemma PayableIff(w: World, key: Key)
    requires key in w.subs && w.subs[key].periodSeconds > 0
    ensures var sub := w.subs[key];
      && ((exists p: i64 :: PeriodPayable(w, sub, p)) <==> Due(w, key) && w.now - sub.startUnix <= I64_MAX)
      && (forall p: i64 :: PeriodPayable(w, sub, p) ==>
            sub.startUnix <= w.now && p == PeriodIndex(w.now, sub.startUnix, sub.periodSeconds))
  {
    var sub := w.subs[key];
    forall p: i64 | PeriodPayable(w, sub, p)
      ensures sub.startUnix <= w.now && p == PeriodIndex(w.now, sub.startUnix, sub.periodSeconds)
    {
      PeriodIndexIff(w.now - sub.startUnix, sub.periodSeconds, p);
    }
    if Due(w, key) && w.now - sub.startUnix <= I64_MAX {
      var p := PeriodIndex(w.now, sub.startUnix, sub.periodSeconds);
      PeriodIndexIff(w.now - sub.startUnix, sub.periodSeconds, p);
      assert PeriodPayable(w, sub, p);
    }
  }

  /** So a due period is settled by any agent that names it, the merchant's account and a source that
      holds the amount, under a grant with room, while the merchant is listed; and by no other. */
  lemma DueIsSettledIff(w: World, agent: Signer, key: Key, period: i64, route: T.TokenRoute, sp: Sponsorship)
    requires key in w.subs && WellFormed(w, w.subs[key]) && w.subs[key].startUnix >= 0
    ensures var sub := w.subs[key];
      Settles(w, PaySubscription(agent, key, period, route, sp), key) <==>
      && Due(w, key) && period == PeriodIndex(w.now, sub.startUnix, sub.periodSeconds)
      && w.registry.Some? && w.registry.value.mint == sub.mint && sub.merchant in w.registry.value.merchants
      && RouteFits(w, route, sub.mint, sub.amount, [sub.merchant]) && PaymentBody(w, route, sub.amount).Ok?
      && route.mint == sub.mint && route.mint in w.mints
      && GrantRoom(w, agent, sub.amount) && SponsorAsked(w, sp)
  {
    var sub := w.subs[key];
    PaySubscriptionAcceptedIff(w, agent, key, period, route, sp);
    PayableIff(w, key);
    if Due(w, key) && period == PeriodIndex(w.now, sub.startUnix, sub.periodSeconds) {
      PeriodIndexIff(w.now - sub.startUnix, sub.periodSeconds, period);
    }
  }

  // ----- Over runs -----

  predicate Cancels(w: World, s: Step, key: Key) {
    s.CancelSubscription? && s.key == key && Attempt(w, s).Ok?
  }

  /** Some accepted step of the run cancels the subscription. */
  predicate EverCancelled(w: World, steps: seq<Step>, key: Key)
    decreases |steps|
  {
    steps != [] && (Cancels(w, steps[0], key) || EverCancelled(Next(w, steps[0]), steps[1..], key))
  }

  lemma ActiveStep(w: World, s: Step, key: Key)
    requires key in w.subs
    ensures key in Next(w, s).subs
    ensures Next(w, s).subs[key].active <==> w.subs[key].active && !Cancels(w, s, key)
  {
    if s.CancelSubscription? {
      CancelAcceptedIff(w, s.caller, s.key);
    } else if s.CreateSubscription? {
      CreateAcceptedIff(w, s.caller, s.mint, s.terms);
    } else if s.PaySubscription? && Attempt(w, s).Ok? {
      PaidEffect(w, s, s.key);
    } else {
      Frame(w, s);
    }
  }

  /** Only the root's accepted cancel ever ends a subscription. */
  lemma {:induction false} ActiveIff(w: World, steps: seq<Step>, key: Key)
    requires key in w.subs
    ensures key in Run(w, steps).subs
    ensures Run(w, steps).subs[key].active <==> w.subs[key].active && !EverCancelled(w, steps, key)
    decreases |steps|
  {
    if steps != [] {
      ActiveStep(w, steps[0], key);
      ActiveIff(Next(w, steps[0]), steps[1..], key);
    }
  }

  predicate SettledIn(log: seq<Settlement>, period: int) {
    exists i | 0 <= i < |log| :: log[i].period == period
  }

  /** After any run the clock's current period is due exactly when the subscription was active and
      has not been cancelled, it has started, and that very period is not among those settled. */
  lemma CurrentPeriodDueIff(w: World, steps: seq<Step>, key: Key)
    requires key in w.subs && WellFormed(w, w.subs[key])
    ensures key in Run(w, steps).subs && Run(w, steps).subs[key].periodSeconds > 0
    ensures var end, sub := Run(w, steps), w.subs[key];
      Due(end, key) <==>
      && sub.active && !EverCancelled(w, steps, key) && sub.startUnix <= end.now
      && var p := PeriodIndex(end.now, sub.startUnix, sub.periodSeconds);
      && p != sub.lastPaidPeriod && !SettledIn(Settlements(w, steps, key), p)
  {
    SettledInOrder(w, steps, key);
    ActiveIff(w, steps, key);
    var end, sub := Run(w, steps), w.subs[key];
    if sub.startUnix <= end.now {
      LatestSettled(w, end, Settlements(w, steps, key), key, PeriodIndex(end.now, sub.startUnix, sub.periodSeconds));
    }
  }

  /** The last period settled is the current one, or the current one is not settled. */
  lemma LatestSettled(w: World, end: World, log: seq<Settlement>, key: Key, p: int)
    requires key in w.subs && WellFormed(w, w.subs[key]) && Accounted(w, end, log, key)
    requires end.subs[key].startUnix <= end.now
    requires p == PeriodIndex(end.now, w.subs[key].startUnix, w.subs[key].periodSeconds)
    ensures end.subs[key].lastPaidPeriod < p <==> p != w.subs[key].lastPaidPeriod && !SettledIn(log, p)
  {
    var last := end.subs[key].lastPaidPeriod;
    assert last <= p;
    if log == [] { return; }
    assert last == log[|log| - 1].period && w.subs[key].lastPaidPeriod < last;
    if SettledIn(log, p) {
      var i :| 0 <= i < |log| && log[i].period == p;
      assert i == |log| - 1 || log[i].period < last;
    }
  }

  /** What is due stays due, at every later clock, until it is settled or cancelled. */
  lemma StaysDue(w: World, steps: seq<Step>, key: Key)
    requires key in w.subs && WellFormed(w, w.subs[key]) && Due(w, key)
    requires Settlements(w, steps, key) == [] && !EverCancelled(w, steps, key)
    ensures key in Run(w, steps).subs && Run(w, steps).subs[key].periodSeconds > 0 && Due(Run(w, steps), key)
  {
    CurrentPeriodDueIff(w, steps, key);
    SettledInOrder(w, steps, key);
    PeriodMonotone(w.now, Run(w, steps).now, w.subs[key].startUnix, w.subs[key].periodSeconds);
  }

  /** A settled period makes way for the next: while nothing is settled or cancelled, one is due
      again exactly from the moment the settled period ends. */
  lemma DueAgainIff(w: World, s: Step, key: Key, steps: seq<Step>)
    requires Settles(w, s, key) && key in w.subs && WellFormed(w, w.subs[key])
    requires Settlements(Next(w, s), steps, key) == [] && !EverCancelled(Next(w, s), steps, key)
    ensures var end, sub := Run(Next(w, s), steps), w.subs[key];
      && key in end.subs && end.subs[key].periodSeconds > 0
      && (Due(end, key) <==> end.now - sub.startUnix >= (s.period + 1) * sub.periodSeconds)
  {
    PaidThen(w, s, key);
    PaidThenDueIff(Next(w, s), key, steps);
    LaterPeriodIff(Next(w, s).now, Run(Next(w, s), steps).now, w.subs[key].startUnix, w.subs[key].periodSeconds);
  }

  /** The last paid period is the clock's own. */
  ghost predicate JustPaid(w: World, key: Key) {
    && key in w.subs && WellFormed(w, w.subs[key]) && w.subs[key].active && w.subs[key].startUnix <= w.now
    && w.subs[key].lastPaidPeriod == PeriodIndex(w.now, w.subs[key].startUnix, w.subs[key].periodSeconds)
  }

  lemma PaidThen(w: World, s: Step, key: Key)
    requires Settles(w, s, key) && key in w.subs && WellFormed(w, w.subs[key])
    ensures JustPaid(Next(w, s), key) && SameTerms(w.subs[key], Next(w, s).subs[key])
    ensures Next(w, s).subs[key].lastPaidPeriod == s.period
  {
    LogStep(w, s, key);
    PaidEffect(w, s, key);
  }

  lemma PaidThenDueIff(w: World, key: Key, steps: seq<Step>)
    requires JustPaid(w, key) && Settlements(w, steps, key) == [] && !EverCancelled(w, steps, key)
    ensures var end, sub := Run(w, steps), w.subs[key];
      && key in end.subs && SameTerms(sub, end.subs[key]) && sub.startUnix <= w.now <= end.now
      && (Due(end, key) <==> sub.lastPaidPeriod != PeriodIndex(end.now, sub.startUnix, sub.periodSeconds))
  {
    CurrentPeriodDueIff(w, steps, key);
    SettledInOrder(w, steps, key);
  }

  lemma LaterPeriodIff(from: int, to: int, start: int, seconds: int)
    requires seconds > 0 && start <= from <= to
    ensures PeriodIndex(from, start, seconds) != PeriodIndex(to, start, seconds)
       <==> to - start >= (PeriodIndex(from, start, seconds) + 1) * seconds
  {
    var p, q := PeriodIndex(from, start, seconds), PeriodIndex(to, start, seconds);
    PeriodMonotone(from, to, start, seconds);
    FloorOf(to - start, seconds);
    if p < q { Times(p + 1, q, seconds); }
  }
}
