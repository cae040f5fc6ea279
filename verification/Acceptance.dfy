/** Exactly when each instruction is accepted, and exactly what it writes, on the stored fields and
    balances. What an accepted step does to lamports is its list of moves (`StepMoves`). */
module Acceptance {
  import opened Runtime
  import opened State
  import opened Bank
  import opened Machine
  import opened MoneyRuns
  import opened TokenLedger
  import I = Intents
  import M = Merchants
  import P = PumpTrader
  import S = Subscriptions
  import V = Vaults

  const VAULT_RENT: u64 := MinimumBalance(SPEND_VAULT_SPACE)
  const PAYMASTER_RENT: u64 := MinimumBalance(PAYMASTER_SPACE)

  // ----- What every intent asks -----

  /** The agent's CORE grant is live and has room for `amount`. */
  predicate GrantRoom(w: World, agent: Key, amount: u64) {
    && agent in w.grants && !w.grants[agent].revoked && w.now < w.grants[agent].expiresAt
    && w.grants[agent].spent + amount <= w.grants[agent].cap
  }

  /** The sponsorship asked for is within the hard cap and names its accounts. */
  predicate SponsorAsked(w: World, sp: Sponsorship) {
    && (sp.paymaster ==> w.paymaster.Some?)
    && (sp.lamports > 0 ==> sp.lamports <= MAX_SPONSOR_LAMPORTS && sp.paymaster && sp.feePayer.Some?)
  }

  /** And can be paid out of `body`, the lamports the rest of the intent leaves. */
  predicate SponsorFits(w: World, agent: Key, sp: Sponsorship, body: Result<Lamports>) {
    && body.Ok? && SponsorAsked(w, sp)
    && (sp.lamports > 0 ==>
          && agent in w.grants && w.grants[agent].sponsorEligible
          && !w.paymaster.value.paused && sp.feePayer.value == w.paymaster.value.relayer
          && BalanceOf(body.value, w.PaymasterKey()) >= sp.lamports + PAYMASTER_RENT
          && BalanceOf(body.value, sp.feePayer.value) + sp.lamports <= U64_MAX)
  }

  /** The vault can send `amount` to `to` and keep its rent. */
  predicate VaultSends(w: World, to: Key, amount: u64) {
    to != w.Vault() && w.Balance(w.Vault()) >= amount + VAULT_RENT && w.Balance(to) + amount <= U64_MAX
  }

  lemma GrantCheckedIff(w: World, agent: Key, amount: u64)
    ensures GrantChecked(w, agent, amount).Ok? <==> GrantRoom(w, agent, amount)
  {}

  lemma SponsorIff(w: World, last: World, agent: Key, sp: Sponsorship, body: Result<Lamports>)
    requires SameExceptFunds(w, last) && body == Ok(last.lamports)
    requires agent in w.grants && last.grants[agent].sponsorEligible == w.grants[agent].sponsorEligible
    ensures SponsorFits(w, agent, sp, body) <==>
      && SponsorPrechecked(sp).Ok? && (sp.paymaster ==> w.paymaster.Some?)
      && SponsorReimbursed(last, agent, sp).Ok?
  {}

  lemma VaultDebitedIff(w: World, to: Key, amount: u64)
    requires to != w.Vault()
    ensures VaultDebited(w, to, amount).Ok? <==> VaultSends(w, to, amount)
  {}

  // ----- pay and swap -----

  lemma MeteredSendIff(w: World, agent: Signer, to: Key, amount: u64, sp: Sponsorship)
    requires agent in w.grants && (sp.paymaster ==> w.paymaster.Some?) && SponsorPrechecked(sp).Ok?
    ensures I.MeteredSend(w, agent, to, amount, sp).Ok? <==>
      && GrantRoom(w, agent, amount) && VaultSends(w, to, amount)
      && SponsorFits(w, agent, sp, MovedAll(w.lamports, [Move(w.Vault(), to, amount)]))
  {
    GrantCheckedIff(w, agent, amount);
    if GrantRoom(w, agent, amount) && to != w.Vault() {
      var w1 := GrantChecked(w, agent, amount).value;
      VaultDebitedIff(w1, to, amount);
      if VaultSends(w, to, amount) {
        DebitMoves(w1, to, amount);
        var w2 := VaultDebited(w1, to, amount).value;
      SponsorIff(w, w2, agent, sp, MovedAll(w.lamports, [Move(w.Vault(), to, amount)]));
      }
    }
  }

  lemma PayAcceptedIff(w: World, agent: Signer, recipient: Key, amount: u64, sp: Sponsorship)
    ensures Attempt(w, Pay(agent, recipient, amount, sp)).Ok? <==>
      && w.vaultOpen && amount > 0 && GrantRoom(w, agent, amount) && VaultSends(w, recipient, amount)
      && SponsorFits(w, agent, sp, MovedAll(w.lamports, [Move(w.Vault(), recipient, amount)]))
  {
    if agent in w.grants && (sp.paymaster ==> w.paymaster.Some?) && SponsorPrechecked(sp).Ok? {
      MeteredSendIff(w, agent, recipient, amount, sp);
    }
  }

  /** A swap is the same send, refused unless it sends at least its minimum. */
  lemma SwapAcceptedIff(w: World, agent: Signer, destination: Key, amountIn: u64, minOut: u64, sp: Sponsorship)
    ensures Attempt(w, Swap(agent, destination, amountIn, minOut, sp)).Ok? <==>
      && w.vaultOpen && amountIn > 0 && minOut <= amountIn
      && GrantRoom(w, agent, amountIn) && VaultSends(w, destination, amountIn)
      && SponsorFits(w, agent, sp, MovedAll(w.lamports, [Move(w.Vault(), destination, amountIn)]))
  {
    if agent in w.grants && (sp.paymaster ==> w.paymaster.Some?) && SponsorPrechecked(sp).Ok? {
      MeteredSendIff(w, agent, destination, amountIn, sp);
    }
  }

  // ----- call -----

  /** The executable program named is the one called, and it is handed neither the vault nor the
      paymaster passed. */
  predicate CallNamed(w: World, call: I.CallArgs, sp: Sponsorship) {
    && call.callTarget == call.targetProgram && call.executable
    && w.Vault() !in call.remaining && (sp.paymaster ==> w.PaymasterKey() !in call.remaining)
    && (call.remaining != [] ==>
          call.targetProgram in call.remaining && RuntimeAllows(w, call.remaining, call.inner, false))
  }

  lemma CallAcceptedIff(w: World, agent: Signer, call: I.CallArgs, sp: Sponsorship)
    ensures Attempt(w, Call(agent, call, sp)).Ok? <==>
      && w.vaultOpen && CallNamed(w, call, sp) && GrantRoom(w, agent, call.amount)
      && (call.amount > 0 ==> VaultSends(w, call.recipient, call.amount))
      && SponsorFits(w, agent, sp, MovedAll(w.lamports, CallMoves(w, call)))
  {
    if Attempt(w, Call(agent, call, sp)).Ok? {
      CallAcceptedOnly(w, agent, call, sp);
    } else if && w.vaultOpen && CallNamed(w, call, sp) && GrantRoom(w, agent, call.amount)
              && (call.amount > 0 ==> VaultSends(w, call.recipient, call.amount))
              && SponsorFits(w, agent, sp, MovedAll(w.lamports, CallMoves(w, call))) {
      CallAccepted(w, agent, call, sp);
    }
  }

  lemma CallAcceptedOnly(w: World, agent: Signer, call: I.CallArgs, sp: Sponsorship)
    requires I.Called(w, agent, call, sp).Ok?
    ensures w.vaultOpen && CallNamed(w, call, sp) && GrantRoom(w, agent, call.amount)
    ensures call.amount > 0 ==> VaultSends(w, call.recipient, call.amount)
    ensures SponsorFits(w, agent, sp, MovedAll(w.lamports, CallMoves(w, call)))
  {
    var w1, w2, w3 := CalledParts(w, agent, call, sp);
    InnerParts(w2, call, w3);
    GrantCheckedIff(w, agent, call.amount);
    if call.amount > 0 { VaultDebitedIff(w1, call.recipient, call.amount); }
    CalledBody(w, agent, call, w1, w2, w3);
    SponsorIff(w, w3, agent, sp, MovedAll(w.lamports, CallMoves(w, call)));
    CallTargeted(w, agent, call, sp);
  }

  lemma CallTargeted(w: World, agent: Signer, call: I.CallArgs, sp: Sponsorship)
    requires I.Called(w, agent, call, sp).Ok?
    ensures w.vaultOpen && call.callTarget == call.targetProgram && call.executable
    ensures call.remaining != [] ==> call.targetProgram in call.remaining
  {}

  /** The lamports of a call before its sponsor, and its grant after metering. */
  lemma CalledBody(w: World, agent: Signer, call: I.CallArgs, w1: World, w2: World, w3: World)
    requires GrantChecked(w, agent, call.amount) == Ok(w1) && I.InnerCalled(w2, call) == Ok(w3)
    requires call.amount > 0 ==> VaultDebited(w1, call.recipient, call.amount) == Ok(w2) && call.recipient != w.Vault()
    requires call.amount == 0 ==> w2 == w1
    ensures MovedAll(w.lamports, CallMoves(w, call)) == Ok(w3.lamports) && SameExceptFunds(w, w3)
    ensures agent in w3.grants && w3.grants[agent].sponsorEligible == w.grants[agent].sponsorEligible
  {
    InnerParts(w2, call, w3);
    var first := if call.amount > 0 then [Move(w.Vault(), call.recipient, call.amount)] else [];
    if call.amount > 0 { DebitMoves(w1, call.recipient, call.amount); }
    MovedConcat(w.lamports, first, if call.remaining == [] then [] else call.inner.moves);
  }

  lemma CallAccepted(w: World, agent: Signer, call: I.CallArgs, sp: Sponsorship)
    requires w.vaultOpen && CallNamed(w, call, sp) && GrantRoom(w, agent, call.amount)
    requires call.amount > 0 ==> VaultSends(w, call.recipient, call.amount)
    requires SponsorFits(w, agent, sp, MovedAll(w.lamports, CallMoves(w, call)))
    ensures I.Called(w, agent, call, sp).Ok?
  {
    GrantCheckedIff(w, agent, call.amount);
    var w1 := GrantChecked(w, agent, call.amount).value;
    if call.amount > 0 { VaultDebitedIff(w1, call.recipient, call.amount); }
    var w2 := if call.amount > 0 then VaultDebited(w1, call.recipient, call.amount).value else w1;
    InnerAccepted(w, call, w1, w2);
    var w3 := I.InnerCalled(w2, call).value;
    CalledBody(w, agent, call, w1, w2, w3);
    SponsorIff(w, w3, agent, sp, MovedAll(w.lamports, CallMoves(w, call)));
    assert NoneProtected(call.remaining, w.Vault(), I.PassedPaymaster(w, sp));
    assert I.Called(w, agent, call, sp) == SponsorReimbursed(w3, agent, sp);
  }

  lemma InnerAccepted(w: World, call: I.CallArgs, w1: World, w2: World)
    requires call.remaining != [] ==>
      call.targetProgram in call.remaining && RuntimeAllows(w, call.remaining, call.inner, false)
    requires w1.lamports == w.lamports && w2.root == w.root && w2.tokens == w.tokens && w1.root == w.root
    requires call.amount > 0 ==> VaultDebited(w1, call.recipient, call.amount) == Ok(w2) && call.recipient != w.Vault()
    requires call.amount == 0 ==> w2 == w1
    requires MovedAll(w.lamports, CallMoves(w, call)).Ok?
    ensures I.InnerCalled(w2, call).Ok?
  {
    var first := if call.amount > 0 then [Move(w.Vault(), call.recipient, call.amount)] else [];
    if call.amount > 0 { DebitMoves(w1, call.recipient, call.amount); }
    MovedConcat(w.lamports, first, if call.remaining == [] then [] else call.inner.moves);
  }

  // ----- Token payments -----

  /** The trader's own account holds the amount, and one of `payees` has the other, of one mint and
      one token program. */
  predicate RouteFits(w: World, route: TokenRoute, mint: Key, amount: u64, payees: seq<Key>) {
    && IsTokenProgram(route.tokenProgram)
    && route.source in w.tokens && route.destination in w.tokens
    && !OwnAccount(w.root, route.source) && !OwnAccount(w.root, route.destination)
    && var src, dst := w.tokens[route.source], w.tokens[route.destination];
    && src.program == dst.program == route.tokenProgram && src.mint == dst.mint == mint
    && src.owner == w.Trader() && dst.owner in payees && amount <= src.amount
    && (route.source != route.destination ==> dst.amount + amount <= U64_MAX)
  }

  /** The lamports a payment's transfer leaves. */
  function PaymentBody(w: World, route: TokenRoute, amount: u64): Result<Lamports> {
    MovedAll(w.lamports, NativeMoves(w.tokens, route.source, route.destination, amount))
  }

  lemma RouteIff(w: World, last: World, route: TokenRoute, mint: Key, amount: u64, payees: seq<Key>)
    requires last.root == w.root && last.tokens == w.tokens && last.lamports == w.lamports
    ensures (&& SourceChecked(w, route.source, mint, amount).Ok?
             && DestinationChecked(w, route.destination, mint, payees).Ok?
             && RouteTransferred(last, route, amount).Ok?)
       <==> RouteFits(w, route, mint, amount, payees) && PaymentBody(w, route, amount).Ok?
  {
    if TakesLamports(w.tokens, route.source, route.destination, amount) {
      OneMove(w.lamports, Move(route.source, route.destination, amount));
    }
  }

  lemma PayTokenAcceptedIff(w: World, agent: Signer, route: TokenRoute, amount: u64, decimals: u8, sp: Sponsorship)
    ensures Attempt(w, PayToken(agent, route, amount, decimals, sp)).Ok? <==>
      && w.vaultOpen && amount > 0 && w.registry.Some? && w.registry.value.mint == route.mint
      && RouteFits(w, route, route.mint, amount, w.registry.value.merchants)
      && route.mint in w.mints && decimals == w.mints[route.mint]
      && GrantRoom(w, agent, amount) && SponsorFits(w, agent, sp, PaymentBody(w, route, amount))
  {
    GrantCheckedIff(w, agent, amount);
    if w.registry.Some? && GrantRoom(w, agent, amount) {
      var w1 := GrantChecked(w, agent, amount).value;
      RouteIff(w, w1, route, route.mint, amount, w.registry.value.merchants);
      if RouteTransferred(w1, route, amount).Ok? {
        var w2 := RouteTransferred(w1, route, amount).value;
        RouteMoves(w1, route, amount, w2);
        SponsorIff(w, w2, agent, sp, PaymentBody(w, route, amount));
      }
    }
  }

  /** A subscription can be paid for `period` exactly when it is active and that is the clock's own
      period, not yet paid; its merchant is still listed; the accounts are right; and the grant has
      room. Sponsorship may be asked for but need not be payable: it is never paid. */
  lemma PaySubscriptionAcceptedIff(w: World, agent: Signer, key: Key, period: i64, route: TokenRoute, sp: Sponsorship)
    ensures Attempt(w, PaySubscription(agent, key, period, route, sp)).Ok? <==>
      && key in w.subs && var sub := w.subs[key];
      && PeriodPayable(w, sub, period) && SponsorAsked(w, sp)
      && w.registry.Some? && w.registry.value.mint == sub.mint && sub.merchant in w.registry.value.merchants
      && RouteFits(w, route, sub.mint, sub.amount, [sub.merchant]) && PaymentBody(w, route, sub.amount).Ok?
      && route.mint == sub.mint && route.mint in w.mints
      && GrantRoom(w, agent, sub.amount)
  {
    if key in w.subs && w.registry.Some? {
      var sub := w.subs[key];
      PeriodDueIff(w, sub, period);
      GrantCheckedIff(w, agent, sub.amount);
      if GrantRoom(w, agent, sub.amount) {
        RouteIff(w, GrantChecked(w, agent, sub.amount).value, route, sub.mint, sub.amount, [sub.merchant]);
      }
    }
  }

  /** `period` is the clock's own period of an active subscription, and later than the last paid. */
  predicate PeriodPayable(w: World, sub: Subscription, period: i64) {
    && sub.active && 0 < sub.periodSeconds
    && 0 <= w.now - sub.startUnix <= I64_MAX
    && period * sub.periodSeconds <= w.now - sub.startUnix < (period + 1) * sub.periodSeconds
    && sub.lastPaidPeriod < period
  }

  lemma PeriodDueIff(w: World, sub: Subscription, period: i64)
    ensures S.PeriodDue(w, sub, period).Ok? <==> PeriodPayable(w, sub, period)
  {
    if 0 < sub.periodSeconds && 0 <= w.now - sub.startUnix <= I64_MAX {
      PeriodIndexIff(w.now - sub.startUnix, sub.periodSeconds, period);
    }
  }

  lemma PeriodIndexIff(elapsed: int, seconds: int, p: int)
    requires 0 < seconds && 0 <= elapsed
    ensures elapsed / seconds == p <==> p * seconds <= elapsed < (p + 1) * seconds
  {
    S.FloorOf(elapsed, seconds);
    var q := elapsed / seconds;
    if p * seconds <= elapsed < (p + 1) * seconds {
      if p < q { S.Times(p + 1, q, seconds); }
      if q < p { S.Times(q + 1, p, seconds); }
    }
  }

  // ----- Subscriptions -----

  lemma CreateAcceptedIff(w: World, caller: Signer, mint: Key, args: S.SubscriptionArgs)
    ensures Attempt(w, CreateSubscription(caller, mint, args)).Ok? <==>
      && caller == w.root && w.registry.Some? && w.registry.value.mint == mint
      && args.merchant in w.registry.value.merchants
      && SubscriptionPda(w.Grok(), args.merchant, mint) !in w.subs
      && args.amount > 0 && args.periodSeconds >= 86_400
    ensures Attempt(w, CreateSubscription(caller, mint, args)).Ok? ==>
      Next(w, CreateSubscription(caller, mint, args))
      == w.(subs := w.subs[SubscriptionPda(w.Grok(), args.merchant, mint) := Subscription(
           args.merchant, mint, args.amount, args.periodSeconds,
           if args.startUnix < w.now then w.now else args.startUnix, -1, 0, true)])
  {}

  lemma CancelAcceptedIff(w: World, caller: Signer, key: Key)
    ensures Attempt(w, CancelSubscription(caller, key)).Ok? <==> caller == w.root && key in w.subs && w.subs[key].active
    ensures Attempt(w, CancelSubscription(caller, key)).Ok? ==>
      && key in w.subs && var sub := w.subs[key];
      Next(w, CancelSubscription(caller, key)) == w.(subs := w.subs[key := Subscription(
        sub.merchant, sub.mint, sub.amount, sub.periodSeconds, sub.startUnix, sub.lastPaidPeriod, sub.payments, false)])
  {}

  // ----- The vault and the paymaster -----

  function AtLeast(a: u64, b: u64): u64 {
    if a < b then b else a
  }

  /** Opening costs the root what the account lacks of its rent. */
  lemma InitVaultAcceptedIff(w: World, caller: Signer)
    ensures Attempt(w, InitVault(caller)).Ok? <==>
      && caller == w.root && !w.vaultOpen
      && w.Balance(w.root) + w.Balance(w.Vault()) >= AtLeast(w.Balance(w.Vault()), VAULT_RENT)
    ensures Attempt(w, InitVault(caller)).Ok? ==>
      var w' := Next(w, InitVault(caller));
      && w' == w.(lamports := w'.lamports, vaultOpen := true)
      && w'.Balance(w.Vault()) == AtLeast(w.Balance(w.Vault()), VAULT_RENT)
      && w'.Balance(w.root) + w'.Balance(w.Vault()) == w.Balance(w.root) + w.Balance(w.Vault())
  {}

  lemma FundVaultAcceptedIff(w: World, caller: Signer, lamports: u64)
    ensures Attempt(w, FundVault(caller, lamports)).Ok? <==>
      && caller == w.root && w.vaultOpen && 0 < lamports <= w.Balance(w.root)
      && w.Balance(w.Vault()) + lamports <= U64_MAX
    ensures Attempt(w, FundVault(caller, lamports)).Ok? ==>
      var w' := Next(w, FundVault(caller, lamports));
      && w' == w.(lamports := w'.lamports)
      && w'.Balance(w.Vault()) == w.Balance(w.Vault()) + lamports
      && w'.Balance(w.root) == w.Balance(w.root) - lamports
  {}

  lemma WithdrawVaultAcceptedIff(w: World, caller: Signer, lamports: u64)
    ensures Attempt(w, WithdrawVault(caller, lamports)).Ok? <==>
      && caller == w.root && w.vaultOpen && 0 < lamports
      && w.Balance(w.Vault()) >= lamports + VAULT_RENT && w.Balance(w.root) + lamports <= U64_MAX
    ensures Attempt(w, WithdrawVault(caller, lamports)).Ok? ==>
      var w' := Next(w, WithdrawVault(caller, lamports));
      && w' == w.(lamports := w'.lamports)
      && w'.Balance(w.Vault()) == w.Balance(w.Vault()) - lamports
      && w'.Balance(w.root) == w.Balance(w.root) + lamports
  {}

  lemma InitPaymasterAcceptedIff(w: World, caller: Signer, relayer: Key)
    ensures Attempt(w, InitPaymaster(caller, relayer)).Ok? <==>
      && caller == w.root && w.paymaster.None?
      && w.Balance(w.root) + w.Balance(w.PaymasterKey()) >= AtLeast(w.Balance(w.PaymasterKey()), PAYMASTER_RENT)
    ensures Attempt(w, InitPaymaster(caller, relayer)).Ok? ==>
      var w' := Next(w, InitPaymaster(caller, relayer));
      && w' == w.(lamports := w'.lamports, paymaster := Some(Paymaster(relayer, false)))
      && w'.Balance(w.PaymasterKey()) == AtLeast(w.Balance(w.PaymasterKey()), PAYMASTER_RENT)
      && w'.Balance(w.root) + w'.Balance(w.PaymasterKey()) == w.Balance(w.root) + w.Balance(w.PaymasterKey())
  {}

  lemma FundPaymasterAcceptedIff(w: World, caller: Signer, lamports: u64)
    ensures Attempt(w, FundPaymaster(caller, lamports)).Ok? <==>
      && caller == w.root && w.paymaster.Some? && 0 < lamports <= w.Balance(w.root)
      && w.Balance(w.PaymasterKey()) + lamports <= U64_MAX
    ensures Attempt(w, FundPaymaster(caller, lamports)).Ok? ==>
      var w' := Next(w, FundPaymaster(caller, lamports));
      && w' == w.(lamports := w'.lamports)
      && w'.Balance(w.PaymasterKey()) == w.Balance(w.PaymasterKey()) + lamports
      && w'.Balance(w.root) == w.Balance(w.root) - lamports
  {}

  lemma WithdrawPaymasterAcceptedIff(w: World, caller: Signer, lamports: u64)
    ensures Attempt(w, WithdrawPaymaster(caller, lamports)).Ok? <==>
      && caller == w.root && w.paymaster.Some? && 0 < lamports
      && w.Balance(w.PaymasterKey()) >= lamports + PAYMASTER_RENT && w.Balance(w.root) + lamports <= U64_MAX
    ensures Attempt(w, WithdrawPaymaster(caller, lamports)).Ok? ==>
      var w' := Next(w, WithdrawPaymaster(caller, lamports));
      && w' == w.(lamports := w'.lamports)
      && w'.Balance(w.PaymasterKey()) == w.Balance(w.PaymasterKey()) - lamports
      && w'.Balance(w.root) == w.Balance(w.root) + lamports
  {}

  /** Pausing and unpausing write that flag, and setting the relayer that key, and nothing else. */
  lemma SetPaymasterAcceptedIff(w: World, caller: Signer, relayer: Option<Key>, paused: Option<bool>)
    ensures Attempt(w, SetPaymaster(caller, relayer, paused)).Ok? <==> caller == w.root && w.paymaster.Some?
    ensures Attempt(w, SetPaymaster(caller, relayer, paused)).Ok? ==>
      && w.paymaster.Some? && var pm, w' := w.paymaster.value, Next(w, SetPaymaster(caller, relayer, paused));
      && w' == w.(paymaster := w'.paymaster) && w'.paymaster.Some?
      && (forall flag :: paused == Some(flag) ==> w'.paymaster.value.paused == flag)
      && (forall key :: relayer == Some(key) ==> w'.paymaster.value.relayer == key)
      && (paused.None? ==> w'.paymaster.value.paused == pm.paused)
      && (relayer.None? ==> w'.paymaster.value.relayer == pm.relayer)
  {}

  // ----- The merchant registry -----

  lemma InitRegistryAcceptedIff(w: World, caller: Signer, mint: Key)
    ensures Attempt(w, InitRegistry(caller, mint)).Ok? <==> caller == w.root && w.registry.None?
    ensures Attempt(w, InitRegistry(caller, mint)).Ok? ==>
      Next(w, InitRegistry(caller, mint)) == w.(registry := Some(Registry(mint, [])))
  {}

  lemma AddMerchantAcceptedIff(w: World, caller: Signer, merchant: Key)
    ensures Attempt(w, AddMerchant(caller, merchant)).Ok? <==>
      && caller == w.root && w.registry.Some? && |w.registry.value.merchants| < 32
      && merchant !in w.registry.value.merchants
    ensures Attempt(w, AddMerchant(caller, merchant)).Ok? ==>
      && w.registry.Some?
      && Next(w, AddMerchant(caller, merchant))
         == w.(registry := Some(Registry(w.registry.value.mint, w.registry.value.merchants + [merchant])))
  {}

  /** Removal takes out the one entry and leaves the others in order. */
  lemma RemoveMerchantAcceptedIff(w: World, caller: Signer, merchant: Key, i: nat)
    requires M.RegistryFits(w)
    requires w.registry.Some? && merchant in w.registry.value.merchants ==>
      i < |w.registry.value.merchants| && w.registry.value.merchants[i] == merchant
    ensures Attempt(w, RemoveMerchant(caller, merchant)).Ok? <==>
      caller == w.root && w.registry.Some? && merchant in w.registry.value.merchants
    ensures Attempt(w, RemoveMerchant(caller, merchant)).Ok? ==>
      && w.registry.Some? && i < |w.registry.value.merchants|
      && var list := w.registry.value.merchants;
      Next(w, RemoveMerchant(caller, merchant))
      == w.(registry := Some(Registry(w.registry.value.mint, list[..i] + list[i + 1..])))
  {
    if w.registry.Some? {
      M.WithoutMeans(w.registry.value.merchants, merchant);
      if merchant in w.registry.value.merchants { M.WithoutTakesOut(w.registry.value.merchants, i); }
    }
  }

  // ----- The trader -----

  lemma InitTraderAcceptedIff(w: World, caller: Signer)
    ensures Attempt(w, InitTrader(caller)).Ok? <==>
      caller == w.root && w.Balance(w.Trader()) == 0 && w.Trader() !in w.tokens && w.Balance(w.root) >= TRADER_RENT
    ensures Attempt(w, InitTrader(caller)).Ok? ==>
      var w' := Next(w, InitTrader(caller));
      && w' == w.(lamports := w'.lamports)
      && w'.Balance(w.Trader()) == TRADER_RENT && w'.Balance(w.root) == w.Balance(w.root) - TRADER_RENT
  {}

  lemma FundTraderAcceptedIff(w: World, caller: Signer, lamports: u64)
    ensures Attempt(w, FundTrader(caller, lamports)).Ok? <==>
      && caller == w.root && w.vaultOpen && 0 < lamports
      && w.Trader() !in w.tokens && w.Balance(w.Trader()) >= TRADER_RENT
      && w.Balance(w.Vault()) >= lamports + VAULT_RENT && w.Balance(w.Trader()) + lamports <= U64_MAX
    ensures Attempt(w, FundTrader(caller, lamports)).Ok? ==>
      var w' := Next(w, FundTrader(caller, lamports));
      && w' == w.(lamports := w'.lamports)
      && w'.Balance(w.Vault()) == w.Balance(w.Vault()) - lamports
      && w'.Balance(w.Trader()) == w.Balance(w.Trader()) + lamports
  {}
}
