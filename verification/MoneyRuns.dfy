/** Lamports over whole runs: every balance is accounted for move by move, nothing is created
    or destroyed, the vault and paymaster keep their rent, and sponsorship is bounded. */
module MoneyRuns {
  import opened Runtime
  import opened State
  import opened Bank
  import opened Machine
  import V = Vaults
  import I = Intents
  import J = TokenTrade
  import P = PumpTrader
  import S = Subscriptions
  import T = TokenLedger

  // ----- The moves each accepted step makes -----

  function SponsorMoves(w: World, sp: Sponsorship): seq<Move> {
    if sp.lamports == 0 || sp.feePayer.None? then []
    else [Move(w.PaymasterKey(), sp.feePayer.value, sp.lamports)]
  }

  function CallMoves(w: World, call: I.CallArgs): seq<Move> {
    (if call.amount > 0 then [Move(w.Vault(), call.recipient, call.amount)] else [])
    + (if call.remaining == [] then [] else call.inner.moves)
  }

  function WrapMoves(w: World, trade: J.TradeArgs, remaining: seq<Key>): seq<Move> {
    var source := J.FirstMatch(w.tokens, remaining, w.Trader(), trade.inputMint);
    if trade.wrapSol && source.Some? then [Move(w.Trader(), source.value, trade.inAmount)] else []
  }

  /** What an intent moves before its sponsor is reimbursed. */
  function BodyMoves(w: World, s: Step): seq<Move>
    requires IsIntent(s)
  {
    match s
    case Pay(_, recipient, amount, _) => [Move(w.Vault(), recipient, amount)]
    case Swap(_, recipient, amount, _, _) => [Move(w.Vault(), recipient, amount)]
    case Call(_, call, _) => CallMoves(w, call)
    case Trade(_, trade, _, remaining, inner) => WrapMoves(w, trade, remaining) + inner.moves
    case PayToken(_, route, amount, _, _) => T.NativeMoves(w.tokens, route.source, route.destination, amount)
    case PaySubscription(_, key, _, route, _) =>
      if key in w.subs then T.NativeMoves(w.tokens, route.source, route.destination, w.subs[key].amount) else []
  }

  function CustodyMoves(w: World, s: Step): seq<Move>
    requires IsCustody(s)
  {
    match s
    case Transfer(sender, to, amount) => [Move(sender, to, amount)]
    case Outside(inner) => inner.moves
    case InitVault(_) => [Move(w.root, w.Vault(), V.TopUp(w, w.Vault(), MinimumBalance(SPEND_VAULT_SPACE)))]
    case FundVault(_, lamports) => [Move(w.root, w.Vault(), lamports)]
    case WithdrawVault(_, lamports) => [Move(w.Vault(), w.root, lamports)]
    case InitPaymaster(_, _) =>
      [Move(w.root, w.PaymasterKey(), V.TopUp(w, w.PaymasterKey(), MinimumBalance(PAYMASTER_SPACE)))]
    case FundPaymaster(_, lamports) => [Move(w.root, w.PaymasterKey(), lamports)]
    case WithdrawPaymaster(_, lamports) => [Move(w.PaymasterKey(), w.root, lamports)]
    case InitTrader(_) => [Move(w.root, w.Trader(), TRADER_RENT)]
    case FundTrader(_, lamports) => [Move(w.Vault(), w.Trader(), lamports)]
    case WithdrawTrader(_, lamports, list) => P.WithdrawMoves(w, lamports, list)
  }

  /** The paymaster pays for `s` if `s` is accepted. `pay_subscription` never reimburses. */
  predicate Sponsored(s: Step) {
    IsIntent(s) && !s.PaySubscription? && s.sp.lamports > 0
  }

  /** Who pays whom, and how much, when `s` is accepted. */
  function Moves(w: World, s: Step): seq<Move> {
    if IsIntent(s) then BodyMoves(w, s) + (if s.PaySubscription? then [] else SponsorMoves(w, s.sp))
    else if IsCustody(s) then CustodyMoves(w, s)
    else []
  }

  function AllMoves(w: World, steps: seq<Step>): seq<Move>
    decreases |steps|
  {
    if steps == [] then [] else
    (if Attempt(w, steps[0]).Ok? then Moves(w, steps[0]) else []) + AllMoves(Next(w, steps[0]), steps[1..])
  }

  lemma DebitMoves(w: World, to: Key, amount: u64)
    requires VaultDebited(w, to, amount).Ok? && to != w.Vault()
    ensures MovedAll(w.lamports, [Move(w.Vault(), to, amount)]) == Ok(VaultDebited(w, to, amount).value.lamports)
  {
    DebitIsMove(w.lamports, w.Vault(), to, amount, MinimumBalance(SPEND_VAULT_SPACE));
    OneMove(w.lamports, Move(w.Vault(), to, amount));
  }

  /** The sponsor move comes last: it extends whatever was moved before it. */
  lemma SponsorExtends(before: World, w: World, agent: Key, sp: Sponsorship, moves: seq<Move>)
    requires before.root == w.root && agent in w.grants && (sp.paymaster ==> w.paymaster.Some?)
    requires MovedAll(before.lamports, moves) == Ok(w.lamports)
    requires SponsorReimbursed(w, agent, sp).Ok?
    ensures MovedAll(before.lamports, moves + SponsorMoves(before, sp))
         == Ok(SponsorReimbursed(w, agent, sp).value.lamports)
  {
    MovedConcat(before.lamports, moves, SponsorMoves(before, sp));
    if sp.lamports > 0 {
      DebitIsMove(w.lamports, w.PaymasterKey(), sp.feePayer.value, sp.lamports, MinimumBalance(PAYMASTER_SPACE));
      OneMove(w.lamports, Move(w.PaymasterKey(), sp.feePayer.value, sp.lamports));
    }
  }

  lemma SendMoves(w: World, agent: Signer, to: Key, amount: u64, sp: Sponsorship)
    requires agent in w.grants && (sp.paymaster ==> w.paymaster.Some?)
    requires I.MeteredSend(w, agent, to, amount, sp).Ok?
    ensures MovedAll(w.lamports, [Move(w.Vault(), to, amount)] + SponsorMoves(w, sp))
         == Ok(I.MeteredSend(w, agent, to, amount, sp).value.lamports)
  {
    var w1 := GrantChecked(w, agent, amount).value;
    var w2 := VaultDebited(w1, to, amount).value;
    DebitMoves(w1, to, amount);
    SponsorExtends(w, w2, agent, sp, [Move(w.Vault(), to, amount)]);
  }

  /** The stages of an accepted call: metered, debited, and past its inner program. */
  lemma CalledParts(w: World, agent: Signer, call: I.CallArgs, sp: Sponsorship)
    returns (w1: World, w2: World, w3: World)
    requires I.Called(w, agent, call, sp).Ok?
    ensures GrantChecked(w, agent, call.amount) == Ok(w1) && I.InnerCalled(w2, call) == Ok(w3)
    ensures call.amount > 0 ==> VaultDebited(w1, call.recipient, call.amount) == Ok(w2) && call.recipient != w.Vault()
    ensures call.amount == 0 ==> w2 == w1
    ensures w2.tokens == w.tokens && w2.root == w.root
    ensures agent in w3.grants && (sp.paymaster ==> w3.paymaster.Some?)
    ensures I.Called(w, agent, call, sp) == SponsorReimbursed(w3, agent, sp)
    ensures SponsorPrechecked(sp).Ok? && (sp.paymaster ==> w.paymaster.Some?)
    ensures NoneProtected(call.remaining, w.Vault(), I.PassedPaymaster(w, sp))
  {
    w1 := GrantChecked(w, agent, call.amount).value;
    w2 := if call.amount > 0 then VaultDebited(w1, call.recipient, call.amount).value else w1;
    w3 := I.InnerCalled(w2, call).value;
  }

  lemma InnerParts(w: World, call: I.CallArgs, w': World)
    requires I.InnerCalled(w, call) == Ok(w')
    ensures if call.remaining == [] then w' == w else
            RuntimeAllows(w, call.remaining, call.inner, false) && Performed(w, call.inner) == Ok(w')
  {}

  lemma CalledMoves(w: World, agent: Signer, call: I.CallArgs, sp: Sponsorship)
    requires I.Called(w, agent, call, sp).Ok?
    ensures MovedAll(w.lamports, CallMoves(w, call) + SponsorMoves(w, sp))
         == Ok(I.Called(w, agent, call, sp).value.lamports)
  {
    var w1, w2, w3 := CalledParts(w, agent, call, sp);
    InnerParts(w2, call, w3);
    var first := if call.amount > 0 then [Move(w.Vault(), call.recipient, call.amount)] else [];
    if call.amount > 0 { DebitMoves(w1, call.recipient, call.amount); }
    MovedConcat(w.lamports, first, if call.remaining == [] then [] else call.inner.moves);
    SponsorExtends(w, w3, agent, sp, CallMoves(w, call));
  }

  lemma OpenedMoves(w: World, agent: Signer, trade: J.TradeArgs, sp: Sponsorship, remaining: seq<Key>)
    requires J.TradeOpened(w, agent, trade, sp, remaining).Ok?
    ensures MovedAll(w.lamports, WrapMoves(w, trade, remaining))
         == Ok(J.TradeOpened(w, agent, trade, sp, remaining).value.world.lamports)
  {
    if trade.wrapSol { OneMove(w.lamports, WrapMoves(w, trade, remaining)[0]); }
  }

  lemma TradedMoves(w: World, agent: Signer, trade: J.TradeArgs, sp: Sponsorship, remaining: seq<Key>, inner: Inner)
    requires J.Traded(w, agent, trade, sp, remaining, inner).Ok?
    ensures MovedAll(w.lamports, WrapMoves(w, trade, remaining) + inner.moves + SponsorMoves(w, sp))
         == Ok(J.Traded(w, agent, trade, sp, remaining, inner).value.lamports)
  {
    var world := J.TradeOpened(w, agent, trade, sp, remaining).value.world;
    OpenedMoves(w, agent, trade, sp, remaining);
    MovedConcat(w.lamports, WrapMoves(w, trade, remaining), inner.moves);
    SponsorExtends(w, Invoked(world, remaining, inner, true).value, agent, sp,
                   WrapMoves(w, trade, remaining) + inner.moves);
  }

  /** The lamports of a token payment are those the transfer takes along. */
  lemma RouteMoves(w: World, route: T.TokenRoute, amount: u64, w': World)
    requires T.RouteTransferred(w, route, amount) == Ok(w')
    ensures MovedAll(w.lamports, T.NativeMoves(w.tokens, route.source, route.destination, amount)) == Ok(w'.lamports)
    ensures w' == w.(lamports := w'.lamports, tokens := w'.tokens)
  {
    T.FundsMovedMoves(w.AllFunds(), route.tokenProgram, route.source, route.destination, amount, w'.AllFunds());
  }

  lemma PaidTokenParts(w: World, agent: Signer, route: T.TokenRoute, amount: u64, decimals: u8, sp: Sponsorship)
    returns (w1: World, w2: World)
    requires T.TokenPaid(w, agent, route, amount, decimals, sp).Ok?
    ensures GrantChecked(w, agent, amount) == Ok(w1) && T.RouteTransferred(w1, route, amount) == Ok(w2)
    ensures agent in w2.grants && (sp.paymaster ==> w2.paymaster.Some?)
    ensures T.TokenPaid(w, agent, route, amount, decimals, sp) == SponsorReimbursed(w2, agent, sp)
    ensures !OwnAccount(w.root, route.source) && !OwnAccount(w.root, route.destination)
    ensures SponsorPrechecked(sp).Ok?
  {
    w1 := GrantChecked(w, agent, amount).value;
    w2 := T.RouteTransferred(w1, route, amount).value;
  }

  lemma PaidTokenMoves(w: World, agent: Signer, route: T.TokenRoute, amount: u64, decimals: u8, sp: Sponsorship)
    requires T.TokenPaid(w, agent, route, amount, decimals, sp).Ok?
    ensures MovedAll(w.lamports, T.NativeMoves(w.tokens, route.source, route.destination, amount) + SponsorMoves(w, sp))
         == Ok(T.TokenPaid(w, agent, route, amount, decimals, sp).value.lamports)
  {
    var w1, w2 := PaidTokenParts(w, agent, route, amount, decimals, sp);
    RouteMoves(w1, route, amount, w2);
    SponsorExtends(w, w2, agent, sp, T.NativeMoves(w.tokens, route.source, route.destination, amount));
  }

  lemma PaidSubscriptionParts(w: World, agent: Signer, key: Key, period: i64, route: T.TokenRoute, sp: Sponsorship)
    returns (w1: World, w2: World)
    requires S.SubscriptionPaid(w, agent, key, period, route, sp).Ok?
    ensures key in w.subs && GrantChecked(w, agent, w.subs[key].amount) == Ok(w1)
    ensures T.RouteTransferred(w1, route, w.subs[key].amount) == Ok(w2)
    ensures var w' := S.SubscriptionPaid(w, agent, key, period, route, sp).value; w' == w2.(subs := w'.subs)
    ensures !OwnAccount(w.root, route.source) && !OwnAccount(w.root, route.destination)
  {
    w1 := GrantChecked(w, agent, w.subs[key].amount).value;
    w2 := T.RouteTransferred(w1, route, w.subs[key].amount).value;
  }

  lemma PaidSubscriptionMoves(w: World, agent: Signer, key: Key, period: i64, route: T.TokenRoute, sp: Sponsorship)
    requires S.SubscriptionPaid(w, agent, key, period, route, sp).Ok?
    ensures key in w.subs
    ensures MovedAll(w.lamports, T.NativeMoves(w.tokens, route.source, route.destination, w.subs[key].amount))
         == Ok(S.SubscriptionPaid(w, agent, key, period, route, sp).value.lamports)
  {
    var w1, w2 := PaidSubscriptionParts(w, agent, key, period, route, sp);
    RouteMoves(w1, route, w.subs[key].amount, w2);
  }

  lemma IntentMoves(w: World, s: Step)
    requires IsIntent(s) && IntentAttempt(w, s).Ok?
    ensures MovedAll(w.lamports, Moves(w, s)) == Ok(IntentAttempt(w, s).value.lamports)
  {
    match s
    case Pay(agent, recipient, amount, sp) => SendMoves(w, agent, recipient, amount, sp);
    case Swap(agent, recipient, amount, minOut, sp) => SendMoves(w, agent, recipient, amount, sp);
    case Call(agent, call, sp) => CalledMoves(w, agent, call, sp);
    case Trade(agent, trade, sp, remaining, inner) => TradedMoves(w, agent, trade, sp, remaining, inner);
    case PayToken(agent, route, amount, decimals, sp) => PaidTokenMoves(w, agent, route, amount, decimals, sp);
    case PaySubscription(agent, key, period, route, sp) =>
      PaidSubscriptionMoves(w, agent, key, period, route, sp);
      assert Moves(w, s) == BodyMoves(w, s);
  }

  lemma CustodyMoved(w: World, s: Step)
    requires IsCustody(s) && CustodyAttempt(w, s).Ok?
    ensures MovedAll(w.lamports, CustodyMoves(w, s)) == Ok(CustodyAttempt(w, s).value.lamports)
  {
    if s.WithdrawVault? {
      DebitMoves(w, w.root, s.lamports);
    } else if s.FundTrader? {
      DebitMoves(w, w.Trader(), s.lamports);
    } else if s.WithdrawTrader? {
      P.WithdrawMoved(w, s.caller, s.lamports, s.list, CustodyAttempt(w, s).value);
    } else if !s.Outside? {
      if s.WithdrawPaymaster? {
        DebitIsMove(w.lamports, w.PaymasterKey(), w.root, s.lamports, MinimumBalance(PAYMASTER_SPACE));
      }
      if CustodyMoves(w, s) != [] { OneMove(w.lamports, CustodyMoves(w, s)[0]); }
    }
  }

  /** Each accepted step changes lamports by its list of moves and by nothing else. */
  lemma StepMoves(w: World, s: Step)
    requires Attempt(w, s).Ok?
    ensures MovedAll(w.lamports, Moves(w, s)) == Ok(Next(w, s).lamports)
  {
    if IsIntent(s) {
      IntentMoves(w, s);
    } else if IsCustody(s) {
      CustodyMoved(w, s);
    }
  }

  /** The lamport ledger of a run: the total never changes, and every account's balance is
      what it started with plus the net of the moves made. */
  lemma {:induction false} LamportLedger(w: World, steps: seq<Step>)
    ensures MovedAll(w.lamports, AllMoves(w, steps)) == Ok(Run(w, steps).lamports)
    ensures SumOf(Run(w, steps).lamports) == SumOf(w.lamports)
    ensures forall k :: Run(w, steps).Balance(k) == w.Balance(k) + Net(AllMoves(w, steps), k)
    decreases |steps|
  {
    if steps != [] {
      var s, w' := steps[0], Next(w, steps[0]);
      LamportLedger(w', steps[1..]);
      if Attempt(w, s).Ok? {
        StepMoves(w, s);
        MovedConcat(w.lamports, Moves(w, s), AllMoves(w', steps[1..]));
      } else {
        assert [] + AllMoves(w', steps[1..]) == AllMoves(w', steps[1..]);
      }
      assert Run(w, steps) == Run(w', steps[1..]);
    }
    MovesAddUp(w.lamports, AllMoves(w, steps));
  }

  // ----- The SpendVault's ledger -----

  /** What a step brought into the vault and the three ways it can leave. */
  datatype VaultFlow = VaultFlow(deposited: nat, withdrawn: nat, traderFunded: nat, metered: nat)

  function NoFlow(): VaultFlow { VaultFlow(0, 0, 0, 0) }

  function CustodyFlow(w: World, s: Step): VaultFlow
    requires IsCustody(s)
  {
    if s.InitVault? then NoFlow().(deposited := V.TopUp(w, w.Vault(), MinimumBalance(SPEND_VAULT_SPACE)))
    else if s.FundVault? then NoFlow().(deposited := s.lamports)
    else if s.Outside? then NoFlow().(deposited := Credited(s.inner.moves, w.Vault()))
    else if s.Transfer? then NoFlow().(deposited := if s.to == w.Vault() then s.amount else 0)
    else if s.WithdrawVault? then NoFlow().(withdrawn := s.lamports)
    else if s.FundTrader? then NoFlow().(traderFunded := s.lamports)
    else NoFlow()
  }

  /** The lamports an intent debits from the vault. */
  function VaultDebit(s: Step): u64
    requires IsIntent(s)
  {
    if s.Pay? then s.amount else if s.Swap? then s.amount else if s.Call? then s.call.amount else 0
  }

  function FlowOf(w: World, s: Step): VaultFlow {
    if IsIntent(s) then NoFlow().(metered := VaultDebit(s))
    else if IsCustody(s) then CustodyFlow(w, s)
    else NoFlow()
  }

  function Flows(w: World, steps: seq<Step>): VaultFlow
    decreases |steps|
  {
    if steps == [] then NoFlow() else
    var rest := Flows(Next(w, steps[0]), steps[1..]);
    if Attempt(w, steps[0]).Err? then rest else
    var f := FlowOf(w, steps[0]);
    VaultFlow(f.deposited + rest.deposited, f.withdrawn + rest.withdrawn,
              f.traderFunded + rest.traderFunded, f.metered + rest.metered)
  }

  lemma CallNet(w: World, agent: Signer, call: I.CallArgs, sp: Sponsorship)
    requires I.Called(w, agent, call, sp).Ok?
    ensures Net(CallMoves(w, call) + SponsorMoves(w, sp), w.Vault()) + call.amount == 0
  {
    var first := if call.amount > 0 then [Move(w.Vault(), call.recipient, call.amount)] else [];
    var rest := (if call.remaining == [] then [] else call.inner.moves);
    InnerAvoidsVault(w, agent, call, sp);
    if call.amount > 0 { NetOne(first[0], w.Vault()); }
    NetConcat(first, rest, w.Vault());
    NetConcat(first + rest, SponsorMoves(w, sp), w.Vault());
    Untouched(rest, w.Vault());
    Untouched(SponsorMoves(w, sp), w.Vault());
  }

  lemma InnerAvoidsVault(w: World, agent: Signer, call: I.CallArgs, sp: Sponsorship)
    requires I.Called(w, agent, call, sp).Ok?
    ensures call.remaining != [] ==> forall m <- call.inner.moves :: m.from != w.Vault() && m.to != w.Vault()
    ensures call.amount > 0 ==> call.recipient != w.Vault()
  {}

  lemma TradeNet(w: World, agent: Signer, trade: J.TradeArgs, sp: Sponsorship, remaining: seq<Key>, inner: Inner)
    requires J.Traded(w, agent, trade, sp, remaining, inner).Ok?
    ensures Net(WrapMoves(w, trade, remaining) + inner.moves + SponsorMoves(w, sp), w.Vault()) == 0
  {
    var all := WrapMoves(w, trade, remaining) + inner.moves + SponsorMoves(w, sp);
    var b := J.TradeOpened(w, agent, trade, sp, remaining).value;
    assert RuntimeAllows(b.world, remaining, inner, true);
    forall m <- all ensures m.from != w.Vault() && m.to != w.Vault() {
      if m in inner.moves { assert m.from in remaining && m.to in remaining; }
    }
    Untouched(all, w.Vault());
  }

  lemma SendNet(w: World, agent: Signer, to: Key, amount: u64, sp: Sponsorship)
    requires agent in w.grants && (sp.paymaster ==> w.paymaster.Some?)
    requires I.MeteredSend(w, agent, to, amount, sp).Ok?
    ensures Net([Move(w.Vault(), to, amount)] + SponsorMoves(w, sp), w.Vault()) + amount == 0
  {
    NetConcat([Move(w.Vault(), to, amount)], SponsorMoves(w, sp), w.Vault());
    NetOne(Move(w.Vault(), to, amount), w.Vault());
    Untouched(SponsorMoves(w, sp), w.Vault());
  }

  lemma IntentVaultNet(w: World, s: Step)
    requires IsIntent(s) && IntentAttempt(w, s).Ok?
    ensures Net(Moves(w, s), w.Vault()) + VaultDebit(s) == 0
  {
    match s
    case Pay(agent, recipient, amount, sp) => SendNet(w, agent, recipient, amount, sp);
    case Swap(agent, recipient, amount, minOut, sp) => SendNet(w, agent, recipient, amount, sp);
    case Call(agent, call, sp) => CallNet(w, agent, call, sp);
    case Trade(agent, trade, sp, remaining, inner) => TradeNet(w, agent, trade, sp, remaining, inner);
    case PayToken(_, _, _, _, _) => PaymentVaultNet(w, s);
    case PaySubscription(_, _, _, _, _) => PaymentVaultNet(w, s);
  }

  /** A token payment moves lamports, if any, between accounts that are not this program's. */
  lemma PaymentApart(w: World, s: Step)
    requires (s.PayToken? || s.PaySubscription?) && IntentAttempt(w, s).Ok?
    ensures forall m <- BodyMoves(w, s) :: !OwnAccount(w.root, m.from) && !OwnAccount(w.root, m.to)
  {
    if s.PayToken? {
      var w1, w2 := PaidTokenParts(w, s.agent, s.route, s.amount, s.decimals, s.sp);
    } else {
      var w1, w2 := PaidSubscriptionParts(w, s.agent, s.key, s.period, s.route, s.sp);
    }
  }

  lemma PaymentPaymasterNet(w: World, s: Step)
    requires (s.PayToken? || s.PaySubscription?) && IntentAttempt(w, s).Ok?
    ensures Net(BodyMoves(w, s), w.PaymasterKey()) == 0
  {
    PaymentApart(w, s);
    Untouched(BodyMoves(w, s), w.PaymasterKey());
  }

  lemma PaymentVaultNet(w: World, s: Step)
    requires (s.PayToken? || s.PaySubscription?) && IntentAttempt(w, s).Ok?
    ensures Net(Moves(w, s), w.Vault()) == 0
  {
    PaymentApart(w, s);
    Untouched(Moves(w, s), w.Vault());
  }

  lemma CustodyVaultNet(w: World, s: Step)
    requires IsCustody(s) && CustodyAttempt(w, s).Ok?
    ensures var f := CustodyFlow(w, s);
      Net(CustodyMoves(w, s), w.Vault()) == f.deposited - f.withdrawn - f.traderFunded - f.metered
  {
    if s.Outside? {
      OnlyCredited(s.inner.moves, w.Vault());
    } else if s.WithdrawTrader? {
      WithdrawApart(w, s);
      Untouched(CustodyMoves(w, s), w.Vault());
    } else {
      NetOne(CustodyMoves(w, s)[0], w.Vault());
    }
  }

  /** A withdrawal from the trader moves lamports between accounts that are not this program's. */
  lemma WithdrawApart(w: World, s: Step)
    requires s.WithdrawTrader? && CustodyAttempt(w, s).Ok?
    ensures forall m <- CustodyMoves(w, s) :: !OwnAccount(w.root, m.from) && !OwnAccount(w.root, m.to)
  {
    var w' := CustodyAttempt(w, s).value;
    var w1 := P.WithdrawParts(w, s.caller, s.lamports, s.list, w');
    P.SweepMovesApart(w1.AllFunds(), s.list, |s.list| / 2, w.Trader(), w.root, w'.AllFunds());
  }

  lemma VaultNet(w: World, s: Step)
    requires Attempt(w, s).Ok?
    ensures var f := FlowOf(w, s);
      Net(Moves(w, s), w.Vault()) == f.deposited - f.withdrawn - f.traderFunded - f.metered
  {
    if IsIntent(s) {
      IntentVaultNet(w, s);
    } else if IsCustody(s) {
      CustodyVaultNet(w, s);
    }
  }

  /** The vault holds what it held, plus deposits, minus the root's withdrawals, minus what
      funded the trader, minus what agents' intents debited: there is no other way out, whatever
      inner programs and routes do. */
  lemma {:induction false} VaultLedger(w: World, steps: seq<Step>)
    ensures var f, end := Flows(w, steps), Run(w, steps);
      end.Balance(w.Vault()) == w.Balance(w.Vault()) + f.deposited - f.withdrawn - f.traderFunded - f.metered
    decreases |steps|
  {
    if steps != [] {
      var s, w' := steps[0], Next(w, steps[0]);
      VaultLedger(w', steps[1..]);
      Frame(w, s);
      if Attempt(w, s).Ok? {
        StepMoves(w, s);
        MovesAddUp(w.lamports, Moves(w, s));
        VaultNet(w, s);
      }
      assert Run(w, steps) == Run(w', steps[1..]);
    }
  }

  // ----- Rent floors -----

  /** Every open account of this program holds its rent. */
  ghost predicate Solvent(w: World) {
    && (w.vaultOpen ==> w.Balance(w.Vault()) >= MinimumBalance(SPEND_VAULT_SPACE))
    && (w.paymaster.Some? ==> w.Balance(w.PaymasterKey()) >= MinimumBalance(PAYMASTER_SPACE))
  }

  lemma DebitSolvent(w: World, to: Key, amount: u64)
    requires Solvent(w) && VaultDebited(w, to, amount).Ok? && to != w.Vault()
    ensures Solvent(VaultDebited(w, to, amount).value)
  {}

  lemma SponsorSolvent(w: World, agent: Key, sp: Sponsorship)
    requires agent in w.grants && (sp.paymaster ==> w.paymaster.Some?)
    requires Solvent(w) && SponsorReimbursed(w, agent, sp).Ok?
    ensures Solvent(SponsorReimbursed(w, agent, sp).value)
  {}

  lemma InvokedSolvent(w: World, remaining: seq<Key>, inner: Inner, traderSigns: bool)
    requires Solvent(w) && Invoked(w, remaining, inner, traderSigns).Ok?
    ensures Solvent(Invoked(w, remaining, inner, traderSigns).value)
  {
    MovesAddUp(w.lamports, inner.moves);
    NeverDebited(inner.moves, w.Vault());
    NeverDebited(inner.moves, w.PaymasterKey());
  }

  lemma SendSolvent(w: World, agent: Signer, to: Key, amount: u64, sp: Sponsorship)
    requires agent in w.grants && (sp.paymaster ==> w.paymaster.Some?)
    requires Solvent(w) && I.MeteredSend(w, agent, to, amount, sp).Ok?
    ensures Solvent(I.MeteredSend(w, agent, to, amount, sp).value)
  {
    var w1 := GrantChecked(w, agent, amount).value;
    DebitSolvent(w1, to, amount);
    SponsorSolvent(VaultDebited(w1, to, amount).value, agent, sp);
  }

  lemma CallSolvent(w: World, agent: Signer, call: I.CallArgs, sp: Sponsorship)
    requires Solvent(w) && I.Called(w, agent, call, sp).Ok?
    ensures Solvent(I.Called(w, agent, call, sp).value)
  {
    var w1, w2, w3 := CalledParts(w, agent, call, sp);
    if call.amount > 0 { DebitSolvent(w1, call.recipient, call.amount); }
    if call.remaining != [] { InvokedSolvent(w2, call.remaining, call.inner, false); }
    SponsorSolvent(w3, agent, sp);
  }

  lemma OpenedSolvent(w: World, agent: Signer, trade: J.TradeArgs, sp: Sponsorship, remaining: seq<Key>)
    requires Solvent(w) && J.TradeOpened(w, agent, trade, sp, remaining).Ok?
    ensures Solvent(J.TradeOpened(w, agent, trade, sp, remaining).value.world)
  {
    OpenedMoves(w, agent, trade, sp, remaining);
    MovesAddUp(w.lamports, WrapMoves(w, trade, remaining));
    NeverDebited(WrapMoves(w, trade, remaining), w.Vault());
    NeverDebited(WrapMoves(w, trade, remaining), w.PaymasterKey());
  }

  lemma TradeSolvent(w: World, agent: Signer, trade: J.TradeArgs, sp: Sponsorship, remaining: seq<Key>, inner: Inner)
    requires Solvent(w) && J.Traded(w, agent, trade, sp, remaining, inner).Ok?
    ensures Solvent(J.Traded(w, agent, trade, sp, remaining, inner).value)
  {
    var b := J.TradeOpened(w, agent, trade, sp, remaining).value;
    OpenedSolvent(w, agent, trade, sp, remaining);
    InvokedSolvent(b.world, remaining, inner, true);
    SponsorSolvent(Invoked(b.world, remaining, inner, true).value, agent, sp);
  }

  lemma RouteSolvent(w: World, route: T.TokenRoute, amount: u64, w': World)
    requires Solvent(w) && T.RouteTransferred(w, route, amount) == Ok(w')
    requires !OwnAccount(w.root, route.source)
    ensures Solvent(w')
  {
    RouteMoves(w, route, amount, w');
    UndebitedSolvent(w, w', T.NativeMoves(w.tokens, route.source, route.destination, amount));
  }

  lemma PayTokenSolvent(w: World, agent: Signer, route: T.TokenRoute, amount: u64, decimals: u8, sp: Sponsorship)
    requires Solvent(w) && T.TokenPaid(w, agent, route, amount, decimals, sp).Ok?
    ensures Solvent(T.TokenPaid(w, agent, route, amount, decimals, sp).value)
  {
    var w1, w2 := PaidTokenParts(w, agent, route, amount, decimals, sp);
    RouteSolvent(w1, route, amount, w2);
    SponsorSolvent(w2, agent, sp);
  }

  lemma PaySubscriptionSolvent(w: World, agent: Signer, key: Key, period: i64, route: T.TokenRoute, sp: Sponsorship)
    requires Solvent(w) && S.SubscriptionPaid(w, agent, key, period, route, sp).Ok?
    ensures Solvent(S.SubscriptionPaid(w, agent, key, period, route, sp).value)
  {
    var w1, w2 := PaidSubscriptionParts(w, agent, key, period, route, sp);
    RouteSolvent(w1, route, w.subs[key].amount, w2);
  }

  lemma IntentSolvent(w: World, s: Step)
    requires Solvent(w) && IsIntent(s) && IntentAttempt(w, s).Ok?
    ensures Solvent(IntentAttempt(w, s).value)
  {
    match s
    case Pay(agent, recipient, amount, sp) => SendSolvent(w, agent, recipient, amount, sp);
    case Swap(agent, recipient, amount, minOut, sp) => SendSolvent(w, agent, recipient, amount, sp);
    case Call(agent, call, sp) => CallSolvent(w, agent, call, sp);
    case Trade(agent, trade, sp, remaining, inner) => TradeSolvent(w, agent, trade, sp, remaining, inner);
    case PayToken(agent, route, amount, decimals, sp) => PayTokenSolvent(w, agent, route, amount, decimals, sp);
    case PaySubscription(agent, key, period, route, sp) => PaySubscriptionSolvent(w, agent, key, period, route, sp);
  }

  lemma PaymasterWithdrawnSolvent(w: World, caller: Signer, lamports: u64)
    requires Solvent(w) && V.PaymasterWithdrawn(w, caller, lamports).Ok?
    ensures Solvent(V.PaymasterWithdrawn(w, caller, lamports).value)
  {}

  lemma InitializedSolvent(w: World, caller: Signer, relayer: Key)
    requires Solvent(w)
    ensures V.VaultInitialized(w, caller).Ok? ==> Solvent(V.VaultInitialized(w, caller).value)
    ensures V.PaymasterInitialized(w, caller, relayer).Ok? ==> Solvent(V.PaymasterInitialized(w, caller, relayer).value)
  {}

  /** Moves that debit neither floor leave both standing. */
  lemma UndebitedSolvent(w: World, w': World, moves: seq<Move>)
    requires Solvent(w) && MovedAll(w.lamports, moves) == Ok(w'.lamports)
    requires w'.root == w.root && w'.vaultOpen == w.vaultOpen && w'.paymaster == w.paymaster
    requires forall m <- moves :: m.from != w.Vault() && m.from != w.PaymasterKey()
    ensures Solvent(w')
  {
    MovesAddUp(w.lamports, moves);
    NeverDebited(moves, w.Vault());
    NeverDebited(moves, w.PaymasterKey());
  }

  lemma CustodySolvent(w: World, s: Step)
    requires Solvent(w) && IsCustody(s) && CustodyAttempt(w, s).Ok?
    ensures Solvent(CustodyAttempt(w, s).value)
  {
    if s.InitVault? {
      InitializedSolvent(w, s.caller, Default);
    } else if s.InitPaymaster? {
      InitializedSolvent(w, s.caller, s.relayer);
    } else if s.WithdrawVault? {
      DebitSolvent(w, w.root, s.lamports);
    } else if s.FundTrader? {
      DebitSolvent(w, w.Trader(), s.lamports);
    } else if s.WithdrawPaymaster? {
      PaymasterWithdrawnSolvent(w, s.caller, s.lamports);
    } else {
      CustodyMoved(w, s);
      CustodyFrame(w, s);
      if s.WithdrawTrader? { WithdrawApart(w, s); }
      UndebitedSolvent(w, CustodyAttempt(w, s).value, CustodyMoves(w, s));
    }
  }

  lemma StepSolvent(w: World, s: Step)
    requires Solvent(w)
    ensures Solvent(Next(w, s))
  {
    if Attempt(w, s).Ok? {
      if IsIntent(s) {
        IntentSolvent(w, s);
      } else if IsCustody(s) {
        CustodySolvent(w, s);
      }
    }
  }

  /** In every reachable state the vault and the paymaster hold at least their rent. */
  lemma {:induction false} RunSolvent(w: World, steps: seq<Step>)
    requires Solvent(w)
    ensures Solvent(Run(w, steps))
    decreases |steps|
  {
    if steps != [] {
      StepSolvent(w, steps[0]);
      RunSolvent(Next(w, steps[0]), steps[1..]);
    }
  }

  // ----- Sponsorship -----

  /** What a reimbursement takes: sponsorship not paused, an eligible grant, the configured
      relayer, and an amount within the hard cap. */
  ghost predicate SponsorTerms(w: World, agent: Signer, sp: Sponsorship) {
    && w.paymaster.Some? && !w.paymaster.value.paused
    && agent in w.grants && w.grants[agent].sponsorEligible
    && sp.feePayer == Some(w.paymaster.value.relayer)
    && sp.lamports <= MAX_SPONSOR_LAMPORTS
  }

  lemma ReimbursedOnTerms(w: World, last: World, agent: Signer, amount: u64, sp: Sponsorship)
    requires SameExceptFunds(w, last) && MeteredOnce(w, last, agent, amount)
    requires sp.lamports > 0 && SponsorPrechecked(sp).Ok? && (sp.paymaster ==> w.paymaster.Some?)
    requires SponsorReimbursed(last, agent, sp).Ok?
    ensures SponsorTerms(w, agent, sp)
  {}

  lemma SendOnTerms(w: World, agent: Signer, to: Key, amount: u64, sp: Sponsorship)
    requires agent in w.grants && (sp.paymaster ==> w.paymaster.Some?)
    requires I.MeteredSend(w, agent, to, amount, sp).Ok? && sp.lamports > 0 && SponsorPrechecked(sp).Ok?
    ensures SponsorTerms(w, agent, sp)
  {
    var w1 := GrantChecked(w, agent, amount).value;
    ReimbursedOnTerms(w, VaultDebited(w1, to, amount).value, agent, amount, sp);
  }

  lemma CallOnTerms(w: World, agent: Signer, call: I.CallArgs, sp: Sponsorship)
    requires I.Called(w, agent, call, sp).Ok? && sp.lamports > 0
    ensures SponsorTerms(w, agent, sp)
  {
    var w1, w2, w3 := CalledParts(w, agent, call, sp);
    ReimbursedOnTerms(w, w3, agent, call.amount, sp);
  }

  lemma PayTokenOnTerms(w: World, agent: Signer, route: T.TokenRoute, amount: u64, decimals: u8, sp: Sponsorship)
    requires T.TokenPaid(w, agent, route, amount, decimals, sp).Ok? && sp.lamports > 0
    ensures SponsorTerms(w, agent, sp)
  {
    var w1, w2 := PaidTokenParts(w, agent, route, amount, decimals, sp);
    RouteMoves(w1, route, amount, w2);
    ReimbursedOnTerms(w, w2, agent, amount, sp);
  }

  lemma TradeOnTerms(w: World, agent: Signer, trade: J.TradeArgs, sp: Sponsorship, remaining: seq<Key>, inner: Inner)
    requires J.Traded(w, agent, trade, sp, remaining, inner).Ok? && sp.lamports > 0
    ensures SponsorTerms(w, agent, sp)
  {
    var b := J.TradeOpened(w, agent, trade, sp, remaining).value;
    ReimbursedOnTerms(w, Invoked(b.world, remaining, inner, true).value, agent, J.GrantAmount(trade), sp);
  }

  /** Sponsorship is paid only on its terms: in particular never while paused. */
  lemma SponsoredOnTerms(w: World, s: Step)
    requires Sponsored(s) && IntentAttempt(w, s).Ok?
    ensures SponsorTerms(w, s.agent, s.sp)
  {
    match s
    case Pay(agent, recipient, amount, sp) => SendOnTerms(w, agent, recipient, amount, sp);
    case Swap(agent, recipient, amount, minOut, sp) => SendOnTerms(w, agent, recipient, amount, sp);
    case Call(agent, call, sp) => CallOnTerms(w, agent, call, sp);
    case PayToken(agent, route, amount, decimals, sp) => PayTokenOnTerms(w, agent, route, amount, decimals, sp);
    case Trade(agent, trade, sp, remaining, inner) => TradeOnTerms(w, agent, trade, sp, remaining, inner);
  }

  /** The transfers of the foreign program an intent runs. */
  function ForeignMoves(s: Step): seq<Move> {
    if s.Call? then (if s.call.remaining == [] then [] else s.call.inner.moves)
    else if s.Trade? then s.inner.moves else []
  }

  /** A foreign program debits neither the vault nor the paymaster, which the runtime sees to. It
      does not even credit the vault, nor a paymaster passed for sponsorship: that is the check
      of the accounts handed to it. */
  lemma ForeignMovesApart(w: World, s: Step)
    requires IsIntent(s) && IntentAttempt(w, s).Ok?
    ensures forall m <- ForeignMoves(s) :: m.from != w.PaymasterKey() && m.from != w.Vault() && m.to != w.Vault()
    ensures s.sp.paymaster ==> forall m <- ForeignMoves(s) :: m.to != w.PaymasterKey()
  {
    match s
    case Call(agent, call, sp) =>
      if call.remaining != [] {
        CallApart(w, agent, call, sp);
        HandedOver(w, call.remaining, call.inner, I.PassedPaymaster(w, sp));
      }
    case Trade(agent, trade, sp, remaining, inner) =>
      TradeApart(w, agent, trade, sp, remaining, inner);
      HandedOver(w, remaining, inner, I.PassedPaymaster(w, sp));
    case _ =>
  }

  /** The transfers of a foreign program stay among the accounts handed to it. */
  ghost predicate Confined(w: World, remaining: seq<Key>, inner: Inner) {
    forall m <- inner.moves :: m.from in remaining && m.to in remaining && m.from != w.PaymasterKey()
  }

  lemma CallApart(w: World, agent: Signer, call: I.CallArgs, sp: Sponsorship)
    requires I.Called(w, agent, call, sp).Ok? && call.remaining != []
    ensures NoneProtected(call.remaining, w.Vault(), I.PassedPaymaster(w, sp))
    ensures Confined(w, call.remaining, call.inner)
  {
    var w1, w2, w3 := CalledParts(w, agent, call, sp);
    InnerParts(w2, call, w3);
  }

  lemma OpenedApart(w: World, agent: Signer, trade: J.TradeArgs, sp: Sponsorship, remaining: seq<Key>)
    requires J.TradeOpened(w, agent, trade, sp, remaining).Ok?
    ensures NoneProtected(remaining, w.Vault(), I.PassedPaymaster(w, sp))
  {}

  lemma TradeApart(w: World, agent: Signer, trade: J.TradeArgs, sp: Sponsorship, remaining: seq<Key>, inner: Inner)
    requires J.Traded(w, agent, trade, sp, remaining, inner).Ok?
    ensures NoneProtected(remaining, w.Vault(), I.PassedPaymaster(w, sp))
    ensures Confined(w, remaining, inner)
  {
    OpenedApart(w, agent, trade, sp, remaining);
    assert RuntimeAllows(J.TradeOpened(w, agent, trade, sp, remaining).value.world, remaining, inner, true);
  }

  lemma HandedOver(w: World, remaining: seq<Key>, inner: Inner, passed: Option<Key>)
    requires NoneProtected(remaining, w.Vault(), passed) && Confined(w, remaining, inner)
    ensures forall m <- inner.moves :: m.from != w.PaymasterKey() && m.from != w.Vault() && m.to != w.Vault()
    ensures passed == Some(w.PaymasterKey()) ==> forall m <- inner.moves :: m.to != w.PaymasterKey()
  {}

  lemma BodySparesPaymaster(w: World, s: Step)
    requires IsIntent(s) && IntentAttempt(w, s).Ok?
    ensures forall m <- BodyMoves(w, s) :: m.from != w.PaymasterKey()
  {
    ForeignMovesApart(w, s);
    if s.PayToken? || s.PaySubscription? { PaymentApart(w, s); }
    forall m <- BodyMoves(w, s) ensures m.from != w.PaymasterKey() {
      assert m.from == w.Vault() || m.from == w.Trader() || m in ForeignMoves(s) || s.PayToken? || s.PaySubscription?;
    }
  }

  /** What an intent pays `k` out of the vault itself. */
  function VaultCredit(s: Step, k: Key): u64
    requires IsIntent(s)
  {
    var to := if s.Call? then s.call.recipient else if s.Pay? || s.Swap? then s.recipient else Default;
    if k == to then VaultDebit(s) else 0
  }

  /** So whatever foreign code an intent runs, the vault ends lower by exactly what the intent
      names, and a paymaster passed for sponsorship by exactly the sponsorship, less what the
      intent itself paid it. */
  lemma CustodyExact(w: World, s: Step)
    requires IsIntent(s) && IntentAttempt(w, s).Ok? && s.sp.paymaster
    ensures var w' := IntentAttempt(w, s).value;
      && w'.Balance(w.Vault()) == w.Balance(w.Vault()) - VaultDebit(s)
      && w'.Balance(w.PaymasterKey())
         == w.Balance(w.PaymasterKey()) + VaultCredit(s, w.PaymasterKey()) - (if Sponsored(s) then s.sp.lamports else 0)
  {
    IntentMoves(w, s);
    MovesAddUp(w.lamports, Moves(w, s));
    IntentVaultNet(w, s);
    BodyPaymasterNet(w, s);
    if !s.PaySubscription? {
      NetConcat(BodyMoves(w, s), SponsorMoves(w, s.sp), w.PaymasterKey());
      SponsorNet(w, s);
    }
  }

  lemma SponsorNet(w: World, s: Step)
    requires IsIntent(s) && IntentAttempt(w, s).Ok? && !s.PaySubscription?
    ensures Net(SponsorMoves(w, s.sp), w.PaymasterKey()) == -(if Sponsored(s) then s.sp.lamports else 0)
  {
    if Sponsored(s) {
      SponsoredOnTerms(w, s);
      NetOne(SponsorMoves(w, s.sp)[0], w.PaymasterKey());
    }
  }

  /** The intent's own moves touch the paymaster only where the vault pays it. */
  lemma BodyPaymasterNet(w: World, s: Step)
    requires IsIntent(s) && IntentAttempt(w, s).Ok? && s.sp.paymaster
    ensures Net(BodyMoves(w, s), w.PaymasterKey()) == VaultCredit(s, w.PaymasterKey())
  {
    ForeignMovesApart(w, s);
    Untouched(ForeignMoves(s), w.PaymasterKey());
    match s
    case Pay(_, recipient, amount, _) => NetOne(Move(w.Vault(), recipient, amount), w.PaymasterKey());
    case Swap(_, recipient, amount, _, _) => NetOne(Move(w.Vault(), recipient, amount), w.PaymasterKey());
    case Call(_, call, _) =>
      var first := if call.amount > 0 then [Move(w.Vault(), call.recipient, call.amount)] else [];
      NetConcat(first, ForeignMoves(s), w.PaymasterKey());
      if call.amount > 0 { NetOne(first[0], w.PaymasterKey()); }
    case Trade(_, trade, _, remaining, inner) =>
      NetConcat(WrapMoves(w, trade, remaining), inner.moves, w.PaymasterKey());
      WrapAvoidsPaymaster(w, s);
      Untouched(WrapMoves(w, trade, remaining), w.PaymasterKey());
    case PayToken(_, _, _, _, _) => PaymentPaymasterNet(w, s);
    case PaySubscription(_, _, _, _, _) => PaymentPaymasterNet(w, s);
  }

  lemma WrapAvoidsPaymaster(w: World, s: Step)
    requires s.Trade? && IntentAttempt(w, s).Ok? && s.sp.paymaster
    ensures forall m <- WrapMoves(w, s.trade, s.remaining) :: m.from != w.PaymasterKey() && m.to != w.PaymasterKey()
  {
    OpenedApart(w, s.agent, s.trade, s.sp, s.remaining);
  }

  /** What `s` takes out of the paymaster: the root's withdrawal, or one reimbursement. */
  function PaymasterOut(s: Step): u64 {
    if s.WithdrawPaymaster? then s.lamports else if Sponsored(s) then s.sp.lamports else 0
  }

  lemma IntentPaymasterNet(w: World, s: Step)
    requires IsIntent(s) && IntentAttempt(w, s).Ok?
    ensures Net(Moves(w, s), w.PaymasterKey()) + PaymasterOut(s) >= 0
  {
    BodySparesPaymaster(w, s);
    NeverDebited(BodyMoves(w, s), w.PaymasterKey());
    if s.PaySubscription? {
      assert Moves(w, s) == BodyMoves(w, s);
    } else {
      SponsorNet(w, s);
      BodyThenSponsor(w, s);
    }
  }

  lemma BodyThenSponsor(w: World, s: Step)
    requires IsIntent(s) && !s.PaySubscription?
    ensures Net(Moves(w, s), w.PaymasterKey())
         == Net(BodyMoves(w, s), w.PaymasterKey()) + Net(SponsorMoves(w, s.sp), w.PaymasterKey())
  {
    NetConcat(BodyMoves(w, s), SponsorMoves(w, s.sp), w.PaymasterKey());
  }

  lemma PaymasterNet(w: World, s: Step)
    requires Attempt(w, s).Ok?
    ensures Net(Moves(w, s), w.PaymasterKey()) + PaymasterOut(s) >= 0
  {
    if IsIntent(s) {
      IntentPaymasterNet(w, s);
    } else if s.WithdrawTrader? {
      WithdrawApart(w, s);
      NeverDebited(CustodyMoves(w, s), w.PaymasterKey());
    } else if s.Outside? {
      NeverDebited(CustodyMoves(w, s), w.PaymasterKey());
    } else if IsCustody(s) {
      NetOne(CustodyMoves(w, s)[0], w.PaymasterKey());
    }
  }

  datatype Drain = Drain(withdrawn: nat, reimbursed: nat, intents: nat)

  function Drained(w: World, steps: seq<Step>): Drain
    decreases |steps|
  {
    if steps == [] then Drain(0, 0, 0) else
    var rest := Drained(Next(w, steps[0]), steps[1..]);
    if Attempt(w, steps[0]).Err? then rest
    else if steps[0].WithdrawPaymaster? then rest.(withdrawn := rest.withdrawn + steps[0].lamports)
    else if Sponsored(steps[0]) then Drain(rest.withdrawn, rest.reimbursed + steps[0].sp.lamports, rest.intents + 1)
    else rest
  }

  /** Apart from the root's own withdrawals a run takes from the paymaster at most the hard cap
      per sponsored intent that went through. */
  lemma {:induction false} SponsorDrainBound(w: World, steps: seq<Step>)
    ensures var d, end := Drained(w, steps), Run(w, steps);
      && end.Balance(w.PaymasterKey()) + d.withdrawn + d.reimbursed >= w.Balance(w.PaymasterKey())
      && d.reimbursed <= MAX_SPONSOR_LAMPORTS * d.intents
    decreases |steps|
  {
    if steps != [] {
      var s, w' := steps[0], Next(w, steps[0]);
      SponsorDrainBound(w', steps[1..]);
      Frame(w, s);
      if Attempt(w, s).Ok? {
        StepMoves(w, s);
        MovesAddUp(w.lamports, Moves(w, s));
        PaymasterNet(w, s);
        if Sponsored(s) { SponsoredOnTerms(w, s); }
      }
      assert Run(w, steps) == Run(w', steps[1..]);
    }
  }
}
