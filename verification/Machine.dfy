/** The program as one state machine: every instruction anyone may attempt on the accounts of
    one GrokAccount, interleaved with the clock, CORE revocations, and whatever foreign
    programs do outside it. */
module Machine {
  import opened Runtime
  import opened State
  import opened Bank
  import V = Vaults
  import I = Intents
  import M = Merchants
  import T = TokenLedger
  import S = Subscriptions
  import J = TokenTrade
  import P = PumpTrader

  datatype Step =
    // The world outside the program
    | Tick(time: i64)
    | Transfer(sender: Signer, to: Key, amount: u64)
    | CoreRevoke(agent: Signer)
    | Outside(inner: Inner)
    // Instructions only the root may complete
    | InitVault(caller: Signer)
    | FundVault(caller: Signer, lamports: u64)
    | WithdrawVault(caller: Signer, lamports: u64)
    | InitPaymaster(caller: Signer, relayer: Key)
    | FundPaymaster(caller: Signer, lamports: u64)
    | WithdrawPaymaster(caller: Signer, lamports: u64)
    | SetPaymaster(caller: Signer, newRelayer: Option<Key>, paused: Option<bool>)
    | InitTrader(caller: Signer)
    | FundTrader(caller: Signer, lamports: u64)
    | WithdrawTrader(caller: Signer, lamports: u64, list: seq<Key>)
    | InitRegistry(caller: Signer, mint: Key)
    | AddMerchant(caller: Signer, merchant: Key)
    | RemoveMerchant(caller: Signer, merchant: Key)
    | CreateSubscription(caller: Signer, mint: Key, terms: S.SubscriptionArgs)
    | CancelSubscription(caller: Signer, key: Key)
    // Agents' intents
    | PaySubscription(agent: Signer, key: Key, period: i64, route: T.TokenRoute, sp: Sponsorship)
    | Pay(agent: Signer, recipient: Key, amount: u64, sp: Sponsorship)
    | Swap(agent: Signer, recipient: Key, amount: u64, minOut: u64, sp: Sponsorship)
    | Call(agent: Signer, call: I.CallArgs, sp: Sponsorship)
    | PayToken(agent: Signer, route: T.TokenRoute, amount: u64, decimals: u8, sp: Sponsorship)
    | Trade(agent: Signer, trade: J.TradeArgs, sp: Sponsorship, remaining: seq<Key>, inner: Inner)

  /** The instructions an agent completes on its own signature. */
  predicate IsIntent(s: Step) {
    s.PaySubscription? || s.Pay? || s.Swap? || s.Call? || s.PayToken? || s.Trade?
  }

  /** What happens without this program: the clock, CORE, and anyone's own funds. */
  predicate IsOutside(s: Step) {
    s.Tick? || s.Transfer? || s.CoreRevoke? || s.Outside?
  }

  /** Steps that move lamports without an agent. */
  predicate IsCustody(s: Step) {
    || s.Transfer? || s.Outside? || s.InitVault? || s.FundVault? || s.WithdrawVault? || s.InitPaymaster?
    || s.FundPaymaster? || s.WithdrawPaymaster? || s.InitTrader? || s.FundTrader? || s.WithdrawTrader?
  }

  function IntentAttempt(w: World, s: Step): Result<World>
    requires IsIntent(s)
  {
    match s
    case PaySubscription(agent, key, period, route, sp) => S.SubscriptionPaid(w, agent, key, period, route, sp)
    case Pay(agent, recipient, amount, sp) => I.Paid(w, agent, recipient, amount, sp)
    case Swap(agent, recipient, amount, minOut, sp) => I.Swapped(w, agent, recipient, amount, minOut, sp)
    case Call(agent, call, sp) => I.Called(w, agent, call, sp)
    case PayToken(agent, route, amount, decimals, sp) => T.TokenPaid(w, agent, route, amount, decimals, sp)
    case Trade(agent, trade, sp, remaining, inner) => J.Traded(w, agent, trade, sp, remaining, inner)
  }

  function CustodyAttempt(w: World, s: Step): Result<World>
    requires IsCustody(s)
  {
    match s
    case Transfer(sender, to, amount) => V.SystemTransferred(w, sender, to, amount)
    case Outside(inner) => RanOutside(w, inner)
    case InitVault(caller) => V.VaultInitialized(w, caller)
    case FundVault(caller, lamports) => V.VaultFunded(w, caller, lamports)
    case WithdrawVault(caller, lamports) => V.VaultWithdrawn(w, caller, lamports)
    case InitPaymaster(caller, relayer) => V.PaymasterInitialized(w, caller, relayer)
    case FundPaymaster(caller, lamports) => V.PaymasterFunded(w, caller, lamports)
    case WithdrawPaymaster(caller, lamports) => V.PaymasterWithdrawn(w, caller, lamports)
    case InitTrader(caller) => P.TraderInitialized(w, caller)
    case FundTrader(caller, lamports) => P.TraderFunded(w, caller, lamports)
    case WithdrawTrader(caller, lamports, list) => P.TraderWithdrawn(w, caller, lamports, list)
  }

  function SettingAttempt(w: World, s: Step): Result<World>
    requires !IsIntent(s) && !IsCustody(s)
  {
    match s
    case Tick(to) => if to < w.now then Err(ClockWentBack) else Ok(w.(now := to))
    case CoreRevoke(agent) =>
      if agent !in w.grants then Err(AccountNotInitialized)
      else Ok(w.(grants := w.grants[agent := w.grants[agent].(revoked := true)]))
    case SetPaymaster(caller, relayer, paused) => V.PaymasterSet(w, caller, relayer, paused)
    case InitRegistry(caller, mint) => M.RegistryInitialized(w, caller, mint)
    case AddMerchant(caller, merchant) => M.MerchantAdded(w, caller, merchant)
    case RemoveMerchant(caller, merchant) => M.MerchantRemoved(w, caller, merchant)
    case CreateSubscription(caller, mint, terms) => S.SubscriptionCreated(w, caller, mint, terms)
    case CancelSubscription(caller, key) => S.SubscriptionCancelled(w, caller, key)
  }

  function Attempt(w: World, s: Step): Result<World> {
    if IsIntent(s) then IntentAttempt(w, s)
    else if IsCustody(s) then CustodyAttempt(w, s)
    else SettingAttempt(w, s)
  }

  function Next(w: World, s: Step): World {
    After(Attempt(w, s), w)
  }

  /** The state after a log of attempts by anyone, in any order. */
  function Run(w: World, steps: seq<Step>): World
    decreases |steps|
  {
    if steps == [] then w else Run(Next(w, steps[0]), steps[1..])
  }

  lemma {:induction false} RunConcat(w: World, a: seq<Step>, b: seq<Step>)
    ensures Run(w, a + b) == Run(Run(w, a), b)
    decreases |a|
  {
    if a == [] {
      assert a + b == b;
    } else {
      RunConcat(Next(w, a[0]), a[1..], b);
      assert (a + b)[1..] == a[1..] + b;
    }
  }

  // ----- Which instructions can change what -----

  lemma PaySubscriptionFrame(w: World, agent: Signer, key: Key, period: i64, route: T.TokenRoute, sp: Sponsorship)
    requires S.SubscriptionPaid(w, agent, key, period, route, sp).Ok?
    ensures var w' := S.SubscriptionPaid(w, agent, key, period, route, sp).value;
      key in w.subs && SameExceptFunds(w, w'.(subs := w.subs))
  {}

  /** An intent moves funds and meters a grant; a subscription payment also advances its
      counters. No setting of the root's is within its reach. */
  lemma IntentFrame(w: World, s: Step)
    requires IsIntent(s)
    ensures SameExceptFunds(w, Next(w, s).(subs := w.subs))
    ensures !s.PaySubscription? ==> Next(w, s).subs == w.subs
  {
    if Attempt(w, s).Ok? && s.PaySubscription? {
      PaySubscriptionFrame(w, s.agent, s.key, s.period, s.route, s.sp);
    }
  }

  /** Every grant keeps its cap, its expiry and what it has metered, and stays revoked if it was. */
  ghost predicate SameMeters(w: World, w': World) {
    && w'.grants.Keys == w.grants.Keys
    && forall a <- w.grants ::
         && w'.grants[a].spent == w.grants[a].spent && w'.grants[a].cap == w.grants[a].cap
         && w'.grants[a].expiresAt == w.grants[a].expiresAt && (w.grants[a].revoked ==> w'.grants[a].revoked)
  }

  lemma WithdrawTraderFrame(w: World, caller: Signer, lamports: u64, list: seq<Key>)
    requires P.TraderWithdrawn(w, caller, lamports, list).Ok?
    ensures var w' := P.TraderWithdrawn(w, caller, lamports, list).value;
      w' == w.(lamports := w'.lamports, tokens := w'.tokens)
  {}

  lemma CustodyFrame(w: World, s: Step)
    requires IsCustody(s) && CustodyAttempt(w, s).Ok?
    ensures var w' := CustodyAttempt(w, s).value;
      && w'.root == w.root && w'.mints == w.mints && w'.now == w.now && w'.grants == w.grants
      && w'.registry == w.registry && w'.subs == w.subs
      && (w'.vaultOpen != w.vaultOpen ==> s.InitVault?)
      && (w'.paymaster != w.paymaster ==> s.InitPaymaster?)
  {
    match s
    case WithdrawTrader(caller, lamports, list) => WithdrawTraderFrame(w, caller, lamports, list);
    case _ =>
  }

  lemma SettingFrame(w: World, s: Step)
    requires !IsIntent(s) && !IsCustody(s) && SettingAttempt(w, s).Ok?
    ensures var w' := SettingAttempt(w, s).value;
      && w'.root == w.root && w'.mints == w.mints && w.now <= w'.now && w'.vaultOpen == w.vaultOpen
      && SameMeters(w, w')
      && (w'.registry != w.registry ==> s.InitRegistry? || s.AddMerchant? || s.RemoveMerchant?)
      && (w'.paymaster != w.paymaster ==> s.SetPaymaster?)
      && (w'.subs != w.subs ==> s.CreateSubscription? || s.CancelSubscription?)
  {}

  lemma RootFrame(w: World, s: Step)
    requires !IsIntent(s)
    ensures var w' := Next(w, s);
      && w'.root == w.root && w'.mints == w.mints && w.now <= w'.now
      && (w'.registry != w.registry ==> s.InitRegistry? || s.AddMerchant? || s.RemoveMerchant?)
      && (w'.vaultOpen != w.vaultOpen ==> s.InitVault?)
      && (w'.paymaster != w.paymaster ==> s.InitPaymaster? || s.SetPaymaster?)
      && (w'.subs != w.subs ==> s.CreateSubscription? || s.CancelSubscription?)
      && SameMeters(w, w')
  {
    if Attempt(w, s).Ok? {
      if IsCustody(s) { CustodyFrame(w, s); } else { SettingFrame(w, s); }
    }
  }

  lemma Frame(w: World, s: Step)
    ensures var w' := Next(w, s);
      && w'.root == w.root && w'.mints == w.mints && w.now <= w'.now
      && (w'.registry != w.registry ==> s.InitRegistry? || s.AddMerchant? || s.RemoveMerchant?)
      && (w'.vaultOpen != w.vaultOpen ==> s.InitVault?)
      && (w'.paymaster != w.paymaster ==> s.InitPaymaster? || s.SetPaymaster?)
      && (w'.subs != w.subs ==> s.CreateSubscription? || s.CancelSubscription? || s.PaySubscription?)
  {
    if !IsIntent(s) {
      RootFrame(w, s);
    } else {
      IntentFrame(w, s);
    }
  }

  /** Only the root's signature completes an instruction that is not an agent's intent. */
  lemma OnlyRootGoverns(w: World, s: Step)
    requires Attempt(w, s).Ok? && !IsIntent(s) && !IsOutside(s)
    ensures s.caller == w.root
  {}
}
