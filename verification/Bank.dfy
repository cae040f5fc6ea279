/** Lamport movement and the checks every intent shares: `try_debit_program_owned`
    (instructions/mod.rs), instructions/common.rs, the CORE `check_grant` contract, and what
    the runtime lets an inner program do with the accounts it is handed. */
module Bank {
  import opened Runtime
  import opened State

  const TRADER_RENT: u64 := MinimumBalance(PUMP_TRADER_SPACE)

  const MAX_SPONSOR_LAMPORTS: u64 := 10_000_000

  // ----- Moving lamports -----

  datatype Move = Move(from: Key, to: Key, amount: u64)

  /** A system transfer. To oneself it changes nothing. */
  function Moved(lamports: Lamports, m: Move): Result<Lamports> {
    if BalanceOf(lamports, m.from) < m.amount then Err(InsufficientFunds) else
    var debited: Lamports := lamports[m.from := BalanceOf(lamports, m.from) - m.amount];
    if BalanceOf(debited, m.to) + m.amount > U64_MAX then Err(ArithmeticOverflow) else
    Ok(debited[m.to := BalanceOf(debited, m.to) + m.amount])
  }

  function MovedAll(lamports: Lamports, moves: seq<Move>): Result<Lamports>
    decreases |moves|
  {
    if moves == [] then Ok(lamports) else
    var next :- Moved(lamports, moves[0]);
    MovedAll(next, moves[1..])
  }

  /** What `try_debit_program_owned` leaves behind: `None` when `from` cannot pay and keep
      `minFrom`. Both new balances are computed before either is written. */
  function TriedDebit(lamports: Lamports, from: Key, to: Key, amount: u64, minFrom: u64): Result<Option<Lamports>> {
    if BalanceOf(lamports, from) < amount || BalanceOf(lamports, from) - amount < minFrom then Ok(None)
    else if BalanceOf(lamports, to) + amount > U64_MAX then Err(LamportOverflow)
    else Ok(Some(lamports[from := BalanceOf(lamports, from) - amount][to := BalanceOf(lamports, to) + amount]))
  }

  method TryDebitProgramOwned(a: Accounts, from: Key, to: Key, amount: u64, minFrom: u64) returns (r: Result<bool>)
    modifies a`lamports
    ensures match TriedDebit(old(a.lamports), from, to, amount, minFrom)
            case Ok(Some(after)) => r == Ok(true) && a.lamports == after
            case Ok(None) => r == Ok(false) && a.lamports == old(a.lamports)
            case Err(e) => r == Err(e) && a.lamports == old(a.lamports)
  {
    if BalanceOf(a.lamports, from) < amount { return Ok(false); }
    var after := BalanceOf(a.lamports, from) - amount;
    if after < minFrom { return Ok(false); }
    var dest := BalanceOf(a.lamports, to) + amount;
    if dest > U64_MAX { return Err(LamportOverflow); }
    a.lamports := a.lamports[from := after];
    a.lamports := a.lamports[to := dest];
    return Ok(true);
  }

  method MoveLamports(a: Accounts, from: Key, to: Key, amount: u64) returns (r: Result<()>)
    modifies a`lamports
    ensures Atomic(Moved(old(a.lamports), Move(from, to, amount)), old(a.lamports), a.lamports, r)
  {
    var available := BalanceOf(a.lamports, from);
    if available < amount { return Err(InsufficientFunds); }
    var held := if to == from then available - amount else BalanceOf(a.lamports, to);
    if held + amount > U64_MAX { return Err(ArithmeticOverflow); }
    a.lamports := a.lamports[from := available - amount];
    a.lamports := a.lamports[to := BalanceOf(a.lamports, to) + amount];
    return Ok(());
  }

  /** Between two accounts a debit is a transfer that respects the floor. */
  lemma DebitIsMove(lamports: Lamports, from: Key, to: Key, amount: u64, minFrom: u64)
    requires from != to && TriedDebit(lamports, from, to, amount, minFrom).Ok?
    requires TriedDebit(lamports, from, to, amount, minFrom).value.Some?
    ensures var after := TriedDebit(lamports, from, to, amount, minFrom).value.value;
      && Moved(lamports, Move(from, to, amount)) == Ok(after)
      && BalanceOf(after, from) == BalanceOf(lamports, from) - amount >= minFrom
  {}

  lemma MoveConserves(lamports: Lamports, m: Move)
    requires Moved(lamports, m).Ok?
    ensures SumOf(Moved(lamports, m).value) == SumOf(lamports)
  {
    var debited: Lamports := lamports[m.from := BalanceOf(lamports, m.from) - m.amount];
    SumUpdate(lamports, m.from, BalanceOf(lamports, m.from) - m.amount);
    SumUpdate(debited, m.to, BalanceOf(debited, m.to) + m.amount);
  }

  /** A successful debit conserves lamports exactly when it moves nothing or its two accounts
      differ: debiting an account to itself would create `amount` lamports. */
  lemma DebitConservesIff(lamports: Lamports, from: Key, to: Key, amount: u64, minFrom: u64)
    requires TriedDebit(lamports, from, to, amount, minFrom).Ok?
    requires TriedDebit(lamports, from, to, amount, minFrom).value.Some?
    ensures var after := TriedDebit(lamports, from, to, amount, minFrom).value.value;
      SumOf(after) == SumOf(lamports) <==> from != to || amount == 0
  {
    if from != to {
      DebitIsMove(lamports, from, to, amount, minFrom);
      MoveConserves(lamports, Move(from, to, amount));
    } else {
      var b := BalanceOf(lamports, from);
      assert lamports[from := b - amount][to := b + amount] == lamports[to := b + amount];
      SumUpdate(lamports, to, b + amount);
    }
  }

  // ----- CORE's check_grant -----

  /** The contract CORE documents: abort if revoked, expired or over cap; otherwise meter the amount. */
  function GrantChecked(w: World, agent: Key, amount: u64): (r: Result<World>)
    ensures r.Ok? ==> SameExceptFunds(w, r.value)
  {
    if agent !in w.grants then Err(AccountNotInitialized) else
    var g := w.grants[agent];
    var _ :- Require(!g.revoked, GrantRevoked);
    var _ :- Require(g.expiresAt > w.now, GrantExpired);
    if g.spent + amount > g.cap then Err(GrantCapExceeded) else
    Ok(w.(grants := w.grants[agent := g.(spent := g.spent + amount)]))
  }

  /** From `w` to `w'` the grants changed by one check of `amount` for `agent`. */
  ghost predicate MeteredOnce(w: World, w': World, agent: Key, amount: u64) {
    GrantChecked(w, agent, amount).Ok? && w'.grants == GrantChecked(w, agent, amount).value.grants
  }

  method CheckGrant(a: Accounts, agent: Key, amount: u64) returns (r: Result<()>)
    modifies a
    ensures Atomic(GrantChecked(old(a.Snap()), agent, amount), old(a.Snap()), a.Snap(), r)
  {
    if agent !in a.grants { return Err(AccountNotInitialized); }
    var g := a.grants[agent];
    if g.revoked { return Err(GrantRevoked); }
    if g.expiresAt <= a.now { return Err(GrantExpired); }
    if g.spent + amount > g.cap { return Err(GrantCapExceeded); }
    a.grants := a.grants[agent := g.(spent := g.spent + amount)];
    return Ok(());
  }

  // ----- Sponsorship -----

  /** The sponsorship part of an intent: the amount and the optional accounts passed for it. */
  datatype Sponsorship = Sponsorship(lamports: u64, paymaster: bool, feePayer: Option<Signer>)

  function SponsorPrechecked(sp: Sponsorship): Result<()> {
    if sp.lamports == 0 then Ok(()) else
    var _ :- Require(sp.lamports <= MAX_SPONSOR_LAMPORTS, SponsorCapExceeded);
    Require(sp.paymaster && sp.feePayer.Some?, SponsorAccountsRequired)
  }

  /** The accounts an agent's intent names must exist. */
  function IntentAccounts(w: World, agent: Signer, sp: Sponsorship): Result<()> {
    Require(w.vaultOpen && agent in w.grants && (sp.paymaster ==> w.paymaster.Some?), AccountNotInitialized)
  }

  function SponsorReimbursed(w: World, agent: Key, sp: Sponsorship): (r: Result<World>)
    requires agent in w.grants && (sp.paymaster ==> w.paymaster.Some?)
    ensures r.Ok? ==> SameExceptFunds(w, r.value) && r.value.grants == w.grants
  {
    if sp.lamports == 0 then Ok(w) else
    if !sp.paymaster || sp.feePayer.None? then Err(SponsorAccountsRequired) else
    var _ :- Require(w.grants[agent].sponsorEligible, NotSponsorEligible);
    var _ :- Require(!w.paymaster.value.paused, PaymasterPaused);
    var _ :- Require(sp.feePayer.value == w.paymaster.value.relayer, RelayerMismatch);
    var debited :- TriedDebit(w.lamports, w.PaymasterKey(), sp.feePayer.value, sp.lamports,
                              MinimumBalance(PAYMASTER_SPACE));
    match debited
    case Some(after) => Ok(w.(lamports := after))
    case None => Err(InsufficientPaymaster)
  }

  method ReimburseSponsor(a: Accounts, agent: Key, sp: Sponsorship) returns (r: Result<()>)
    requires agent in a.grants && (sp.paymaster ==> a.paymaster.Some?)
    modifies a
    ensures Atomic(SponsorReimbursed(old(a.Snap()), agent, sp), old(a.Snap()), a.Snap(), r)
  {
    if sp.lamports == 0 { return Ok(()); }
    if !sp.paymaster || sp.feePayer.None? { return Err(SponsorAccountsRequired); }
    if !a.grants[agent].sponsorEligible { return Err(NotSponsorEligible); }
    if a.paymaster.value.paused { return Err(PaymasterPaused); }
    if sp.feePayer.value != a.paymaster.value.relayer { return Err(RelayerMismatch); }
    var paid := TryDebitProgramOwned(a, PaymasterPda(GrokAccountPda(a.root)), sp.feePayer.value,
                                     sp.lamports, MinimumBalance(PAYMASTER_SPACE));
    if paid.Err? { return Err(paid.error); }
    return Require(paid.value, InsufficientPaymaster);
  }

  // ----- The SpendVault -----

  function VaultDebited(w: World, to: Key, amount: u64): (r: Result<World>)
    ensures r.Ok? ==> SameExceptFunds(w, r.value) && r.value.grants == w.grants
  {
    var debited :- TriedDebit(w.lamports, w.Vault(), to, amount, MinimumBalance(SPEND_VAULT_SPACE));
    match debited
    case Some(after) => Ok(w.(lamports := after))
    case None => Err(InsufficientSpendVault)
  }

  method DebitSpendVault(a: Accounts, to: Key, amount: u64) returns (r: Result<()>)
    modifies a
    ensures Atomic(VaultDebited(old(a.Snap()), to, amount), old(a.Snap()), a.Snap(), r)
  {
    var paid := TryDebitProgramOwned(a, SpendVaultPda(GrokAccountPda(a.root)), to, amount,
                                     MinimumBalance(SPEND_VAULT_SPACE));
    if paid.Err? { return Err(paid.error); }
    return Require(paid.value, InsufficientSpendVault);
  }

  // ----- The trader address -----

  /** The trader exists, and has not become a token account. */
  function TraderReady(w: World): Result<()> {
    var _ :- Require(w.Trader() !in w.tokens, PumpTraderNotSystemOwned);
    Require(w.Balance(w.Trader()) >= TRADER_RENT, PumpTraderNotInitialized)
  }

  // ----- Accounts handed to an inner program -----

  predicate NoneProtected(remaining: seq<Key>, vault: Key, paymaster: Option<Key>) {
    vault !in remaining && (paymaster.Some? ==> paymaster.value !in remaining)
  }

  method RejectProtectedRemaining(remaining: seq<Key>, vault: Key, paymaster: Option<Key>) returns (r: Result<()>)
    ensures r == if NoneProtected(remaining, vault, paymaster) then Ok(()) else Err(ProtectedAccountInRemaining)
  {
    for i := 0 to |remaining|
      invariant NoneProtected(remaining[..i], vault, paymaster)
    {
      if remaining[i] == vault || paymaster == Some(remaining[i]) { return Err(ProtectedAccountInRemaining); }
      assert remaining[..i + 1] == remaining[..i] + [remaining[i]];
    }
    assert remaining[..|remaining|] == remaining;
    return Ok(());
  }

  /** Everything an inner program does: the transfers it makes and the final contents (`None`
      when closed) of the token accounts it touches. Both are arbitrary. */
  datatype Inner = Inner(moves: seq<Move>, tokens: map<Key, Option<TokenAccount>>)

  /** What the token programs let `changes` do: an account whose owner is fixed stays what it is
      or is closed, and without the trader's signature the trader's accounts can only gain,
      except those someone else may draw on. */
  predicate TokensAllowed(w: World, changes: map<Key, Option<TokenAccount>>, traderSigns: bool) {
    forall k <- changes :: k in w.tokens ==>
      var before, after := w.tokens[k], changes[k];
      && (OwnerFixed(before) && after.Some? ==> SameAccount(after.value, before))
      && (!traderSigns && before.owner == w.Trader() && !before.shared ==>
            after.Some? && OnlyAmountDiffers(after.value, before) && before.amount <= after.value.amount)
  }

  /** What the runtime lets foreign code do: it cannot debit this program's own accounts, nor
      without the trader's signature the trader. */
  predicate Permitted(w: World, inner: Inner, traderSigns: bool) {
    && (forall m <- inner.moves :: !OwnAccount(w.root, m.from) && (m.from == w.Trader() ==> traderSigns))
    && TokensAllowed(w, inner.tokens, traderSigns)
  }

  /** An inner program is further confined to the accounts handed to it. */
  predicate RuntimeAllows(w: World, remaining: seq<Key>, inner: Inner, traderSigns: bool) {
    && Permitted(w, inner, traderSigns)
    && (forall m <- inner.moves :: m.from in remaining && m.to in remaining)
    && (forall k <- inner.tokens :: k in remaining)
  }

  function TokensAfter(tokens: Tokens, changes: map<Key, Option<TokenAccount>>): Tokens {
    map k | k in tokens.Keys + changes.Keys && (k in changes ==> changes[k].Some?)
      :: if k in changes then changes[k].value else tokens[k]
  }

  function Invoked(w: World, remaining: seq<Key>, inner: Inner, traderSigns: bool): (r: Result<World>)
    ensures r.Ok? ==> SameExceptFunds(w, r.value) && r.value.grants == w.grants
  {
    var _ :- Require(RuntimeAllows(w, remaining, inner, traderSigns), ForbiddenByRuntime);
    Performed(w, inner)
  }

  /** The effect of foreign code. */
  function Performed(w: World, inner: Inner): (r: Result<World>)
    ensures r.Ok? ==> SameExceptFunds(w, r.value) && r.value.grants == w.grants
  {
    var lamports :- MovedAll(w.lamports, inner.moves);
    Ok(w.(lamports := lamports, tokens := TokensAfter(w.tokens, inner.tokens)))
  }

  /** Foreign code run by anyone outside this program. */
  function RanOutside(w: World, inner: Inner): (r: Result<World>)
    ensures r.Ok? ==> SameExceptFunds(w, r.value) && r.value.grants == w.grants
  {
    var _ :- Require(Permitted(w, inner, false), ForbiddenByRuntime);
    Performed(w, inner)
  }

  method Invoke(a: Accounts, remaining: seq<Key>, inner: Inner, traderSigns: bool) returns (r: Result<()>)
    modifies a
    ensures Atomic(Invoked(old(a.Snap()), remaining, inner, traderSigns), old(a.Snap()), a.Snap(), r)
  {
    var done := Invoked(a.Snap(), remaining, inner, traderSigns);
    if done.Err? { return Err(done.error); }
    a.lamports, a.tokens := done.value.lamports, done.value.tokens;
    return Ok(());
  }

  // ----- Ledgers of moves -----

  /** What a list of moves adds to the balance of `k`. */
  ghost function Net(moves: seq<Move>, k: Key): int {
    if moves == [] then 0 else
    Net(moves[..|moves| - 1], k)
    + (if moves[|moves| - 1].to == k then moves[|moves| - 1].amount else 0)
    - (if moves[|moves| - 1].from == k then moves[|moves| - 1].amount else 0)
  }

  lemma {:induction false} NetConcat(a: seq<Move>, b: seq<Move>, k: Key)
    ensures Net(a + b, k) == Net(a, k) + Net(b, k)
  {
    if b == [] {
      assert a + b == a;
    } else {
      NetConcat(a, b[..|b| - 1], k);
      assert (a + b)[..|a + b| - 1] == a + b[..|b| - 1];
    }
  }

  /** A list of moves conserves the total and changes every balance by its net. */
  lemma {:induction false} MovesAddUp(lamports: Lamports, moves: seq<Move>)
    requires MovedAll(lamports, moves).Ok?
    ensures var after := MovedAll(lamports, moves).value;
      && SumOf(after) == SumOf(lamports)
      && forall k :: BalanceOf(after, k) == BalanceOf(lamports, k) + Net(moves, k)
    decreases |moves|
  {
    if moves != [] {
      var next := Moved(lamports, moves[0]).value;
      MoveConserves(lamports, moves[0]);
      MovesAddUp(next, moves[1..]);
      var after := MovedAll(lamports, moves).value;
      forall k ensures BalanceOf(after, k) == BalanceOf(lamports, k) + Net(moves, k) {
        NetConcat([moves[0]], moves[1..], k);
        assert [moves[0]] + moves[1..] == moves;
        assert [moves[0]][..0] == [];
      }
    }
  }

  lemma {:induction false} MovedConcat(lamports: Lamports, a: seq<Move>, b: seq<Move>)
    requires MovedAll(lamports, a).Ok?
    ensures MovedAll(lamports, a + b) == MovedAll(MovedAll(lamports, a).value, b)
    decreases |a|
  {
    if a == [] {
      assert a + b == b;
    } else {
      MovedConcat(Moved(lamports, a[0]).value, a[1..], b);
      assert (a + b)[1..] == a[1..] + b;
    }
  }

  lemma OneMove(lamports: Lamports, m: Move)
    ensures MovedAll(lamports, [m]) == Moved(lamports, m)
  {
    if Moved(lamports, m).Ok? {
      assert [m][1..] == [];
      assert MovedAll(Moved(lamports, m).value, []) == Moved(lamports, m);
    }
  }

  lemma {:induction false} Untouched(moves: seq<Move>, k: Key)
    requires forall m <- moves :: m.from != k && m.to != k
    ensures Net(moves, k) == 0
  {
    if moves != [] {
      Untouched(moves[..|moves| - 1], k);
    }
  }

  lemma NetOne(m: Move, k: Key)
    ensures Net([m], k) == (if m.to == k then m.amount else 0) - (if m.from == k then m.amount else 0)
  {
    assert [m][..0] == [];
  }

  /** What a list of moves pays to `k`. */
  function Credited(moves: seq<Move>, k: Key): nat {
    if moves == [] then 0 else
    Credited(moves[..|moves| - 1], k) + if moves[|moves| - 1].to == k then moves[|moves| - 1].amount else 0
  }

  lemma {:induction false} OnlyCredited(moves: seq<Move>, k: Key)
    requires forall m <- moves :: m.from != k
    ensures Net(moves, k) == Credited(moves, k)
  {
    if moves != [] {
      OnlyCredited(moves[..|moves| - 1], k);
    }
  }

  lemma {:induction false} NeverDebited(moves: seq<Move>, k: Key)
    requires forall m <- moves :: m.from != k
    ensures Net(moves, k) >= 0
  {
    if moves != [] {
      NeverDebited(moves[..|moves| - 1], k);
    }
  }
}
