/** The agent's SOL intents: instructions/pay.rs, swap.rs and call.rs. Each meters the CORE
    grant, debits the SpendVault, and optionally reimburses the relayer. */
module Intents {
  import opened Runtime
  import opened State
  import opened Bank

  /** The tail shared by `pay` and `swap`. Crediting the vault itself would unbalance the
      instruction, and the runtime rejects it at the end. */
  function MeteredSend(w: World, agent: Signer, to: Key, amount: u64, sp: Sponsorship): (r: Result<World>)
    requires agent in w.grants && (sp.paymaster ==> w.paymaster.Some?)
    ensures r.Ok? ==> SameExceptFunds(w, r.value) && MeteredOnce(w, r.value, agent, amount)
  {
    var w1 :- GrantChecked(w, agent, amount);
    var w2 :- VaultDebited(w1, to, amount);
    var w3 :- SponsorReimbursed(w2, agent, sp);
    var _ :- Require(to != w.Vault(), UnbalancedInstruction);
    Ok(w3)
  }

  function Paid(w: World, agent: Signer, recipient: Key, amount: u64, sp: Sponsorship): Result<World> {
    var _ :- IntentAccounts(w, agent, sp);
    var _ :- Require(amount > 0, ZeroPayAmount);
    var _ :- SponsorPrechecked(sp);
    MeteredSend(w, agent, recipient, amount, sp)
  }

  function Swapped(w: World, agent: Signer, destination: Key, amountIn: u64, minOut: u64,
                   sp: Sponsorship): Result<World> {
    var _ :- IntentAccounts(w, agent, sp);
    var _ :- Require(amountIn > 0, ZeroAmount);
    var _ :- Require(amountIn >= minOut, MinOutNotMet);
    var _ :- SponsorPrechecked(sp);
    MeteredSend(w, agent, destination, amountIn, sp)
  }

  /** The accounts and arguments of `call`. */
  datatype CallArgs = CallArgs(
    recipient: Key, amount: u64, callTarget: Key, executable: bool, targetProgram: Key,
    remaining: seq<Key>, inner: Inner)

  function Called(w: World, agent: Signer, args: CallArgs, sp: Sponsorship): (r: Result<World>)
    ensures r.Ok? ==> SameExceptFunds(w, r.value) && MeteredOnce(w, r.value, agent, args.amount)
  {
    var _ :- IntentAccounts(w, agent, sp);
    var _ :- Require(args.callTarget == args.targetProgram, CallTargetMismatch);
    var _ :- Require(args.executable, TargetNotExecutable);
    var _ :- SponsorPrechecked(sp);
    var _ :- Require(NoneProtected(args.remaining, w.Vault(), PassedPaymaster(w, sp)), ProtectedAccountInRemaining);
    var w1 :- GrantChecked(w, agent, args.amount);
    var w2 :- if args.amount > 0 then VaultDebited(w1, args.recipient, args.amount) else Ok(w1);
    var w3 :- InnerCalled(w2, args);
    var w4 :- SponsorReimbursed(w3, agent, sp);
    var _ :- Require(args.amount == 0 || args.recipient != w.Vault(), UnbalancedInstruction);
    Ok(w4)
  }

  /** The inner program is reached with `invoke`, never `invoke_signed`. */
  function InnerCalled(w: World, args: CallArgs): (r: Result<World>)
    ensures r.Ok? ==> SameExceptFunds(w, r.value) && r.value.grants == w.grants
  {
    if args.remaining == [] then Ok(w) else
    var _ :- Require(args.targetProgram in args.remaining, CallTargetMismatch);
    Invoked(w, args.remaining, args.inner, false)
  }

  function PassedPaymaster(w: World, sp: Sponsorship): Option<Key> {
    if sp.paymaster then Some(w.PaymasterKey()) else None
  }

  method Pay(a: Accounts, agent: Signer, recipient: Key, amount: u64, sp: Sponsorship) returns (r: Result<()>)
    modifies a
    ensures Atomic(Paid(old(a.Snap()), agent, recipient, amount, sp), old(a.Snap()), a.Snap(), r)
  {
    var before := a.Snap();
    r := IntentAccounts(before, agent, sp);
    if r.Err? { return; }
    if amount == 0 { return Err(ZeroPayAmount); }
    r := SponsorPrechecked(sp);
    if r.Err? { return; }
    r := SendMetered(a, agent, recipient, amount, sp);
  }

  method Swap(a: Accounts, agent: Signer, destination: Key, amountIn: u64, minOut: u64, sp: Sponsorship)
    returns (r: Result<()>)
    modifies a
    ensures Atomic(Swapped(old(a.Snap()), agent, destination, amountIn, minOut, sp), old(a.Snap()), a.Snap(), r)
  {
    var before := a.Snap();
    r := IntentAccounts(before, agent, sp);
    if r.Err? { return; }
    if amountIn == 0 { return Err(ZeroAmount); }
    if amountIn < minOut { return Err(MinOutNotMet); }
    r := SponsorPrechecked(sp);
    if r.Err? { return; }
    r := SendMetered(a, agent, destination, amountIn, sp);
  }

  method SendMetered(a: Accounts, agent: Signer, to: Key, amount: u64, sp: Sponsorship) returns (r: Result<()>)
    requires agent in a.grants && (sp.paymaster ==> a.paymaster.Some?)
    modifies a
    ensures Atomic(MeteredSend(old(a.Snap()), agent, to, amount, sp), old(a.Snap()), a.Snap(), r)
  {
    var before := a.Snap();
    r := CheckGrant(a, agent, amount);
    if r.Ok? {
      r := DebitSpendVault(a, to, amount);
      if r.Ok? {
        r := ReimburseSponsor(a, agent, sp);
        if r.Ok? && to == before.Vault() { r := Err(UnbalancedInstruction); }
      }
    }
    if r.Err? { a.Rollback(before); }
  }

  method Call(a: Accounts, agent: Signer, args: CallArgs, sp: Sponsorship) returns (r: Result<()>)
    modifies a
    ensures Atomic(Called(old(a.Snap()), agent, args, sp), old(a.Snap()), a.Snap(), r)
  {
    var before := a.Snap();
    r := IntentAccounts(before, agent, sp);
    if r.Err? { return; }
    if args.callTarget != args.targetProgram { return Err(CallTargetMismatch); }
    if !args.executable { return Err(TargetNotExecutable); }
    r := SponsorPrechecked(sp);
    if r.Err? { return; }
    r := RejectProtectedRemaining(args.remaining, before.Vault(), PassedPaymaster(before, sp));
    if r.Err? { return; }
    r := CheckGrant(a, agent, args.amount);
    if r.Ok? && args.amount > 0 { r := DebitSpendVault(a, args.recipient, args.amount); }
    if r.Ok? { r := InvokeInner(a, args); }
    if r.Ok? { r := ReimburseSponsor(a, agent, sp); }
    if r.Ok? && args.amount > 0 && args.recipient == before.Vault() { r := Err(UnbalancedInstruction); }
    if r.Err? { a.Rollback(before); }
  }

  method InvokeInner(a: Accounts, args: CallArgs) returns (r: Result<()>)
    modifies a
    ensures Atomic(InnerCalled(old(a.Snap()), args), old(a.Snap()), a.Snap(), r)
  {
    if args.remaining == [] { return Ok(()); }
    if args.targetProgram !in args.remaining { return Err(CallTargetMismatch); }
    r := Invoke(a, args.remaining, args.inner, false);
  }
}
