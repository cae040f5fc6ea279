/** The root's custody accounts: instructions/spend_vault.rs and instructions/paymaster.rs. */
module Vaults {
  import opened Runtime
  import opened State
  import opened Bank

  /** A system transfer signed by the owner of `from`. */
  function SystemTransferred(w: World, from: Key, to: Key, amount: u64): Result<World> {
    var lamports :- Moved(w.lamports, Move(from, to, amount));
    Ok(w.(lamports := lamports))
  }

  method SystemTransfer(a: Accounts, from: Key, to: Key, amount: u64) returns (r: Result<()>)
    modifies a
    ensures Atomic(SystemTransferred(old(a.Snap()), from, to, amount), old(a.Snap()), a.Snap(), r)
  {
    r := MoveLamports(a, from, to, amount);
  }

  /** What the payer adds so that a new account at `k` holds `rent`. */
  function TopUp(w: World, k: Key, rent: u64): u64 {
    SaturatingSub(rent, w.Balance(k))
  }

  // ----- spend_vault.rs -----

  function VaultInitialized(w: World, caller: Signer): Result<World> {
    var _ :- Require(caller == w.root, UnauthorizedRoot);
    var _ :- Require(!w.vaultOpen, AccountInUse);
    var w1 :- SystemTransferred(w, w.root, w.Vault(), TopUp(w, w.Vault(), MinimumBalance(SPEND_VAULT_SPACE)));
    Ok(w1.(vaultOpen := true))
  }

  function VaultFunded(w: World, caller: Signer, lamports: u64): Result<World> {
    var _ :- Require(caller == w.root, UnauthorizedRoot);
    var _ :- Require(w.vaultOpen, AccountNotInitialized);
    var _ :- Require(lamports > 0, ZeroAmount);
    SystemTransferred(w, w.root, w.Vault(), lamports)
  }

  function VaultWithdrawn(w: World, caller: Signer, lamports: u64): Result<World> {
    var _ :- Require(caller == w.root, UnauthorizedRoot);
    var _ :- Require(w.vaultOpen, AccountNotInitialized);
    var _ :- Require(lamports > 0, ZeroAmount);
    VaultDebited(w, w.root, lamports)
  }

  method InitSpendVault(a: Accounts, caller: Signer) returns (r: Result<()>)
    modifies a
    ensures Atomic(VaultInitialized(old(a.Snap()), caller), old(a.Snap()), a.Snap(), r)
  {
    var vault := SpendVaultPda(GrokAccountPda(a.root));
    if caller != a.root { return Err(UnauthorizedRoot); }
    if a.vaultOpen { return Err(AccountInUse); }
    r := SystemTransfer(a, a.root, vault,
                        SaturatingSub(MinimumBalance(SPEND_VAULT_SPACE), BalanceOf(a.lamports, vault)));
    if r.Ok? { a.vaultOpen := true; }
  }

  method FundSpendVault(a: Accounts, caller: Signer, lamports: u64) returns (r: Result<()>)
    modifies a
    ensures Atomic(VaultFunded(old(a.Snap()), caller, lamports), old(a.Snap()), a.Snap(), r)
  {
    if caller != a.root { return Err(UnauthorizedRoot); }
    if !a.vaultOpen { return Err(AccountNotInitialized); }
    if lamports == 0 { return Err(ZeroAmount); }
    r := SystemTransfer(a, a.root, SpendVaultPda(GrokAccountPda(a.root)), lamports);
  }

  method WithdrawSpendVault(a: Accounts, caller: Signer, lamports: u64) returns (r: Result<()>)
    modifies a
    ensures Atomic(VaultWithdrawn(old(a.Snap()), caller, lamports), old(a.Snap()), a.Snap(), r)
  {
    if caller != a.root { return Err(UnauthorizedRoot); }
    if !a.vaultOpen { return Err(AccountNotInitialized); }
    if lamports == 0 { return Err(ZeroAmount); }
    r := DebitSpendVault(a, a.root, lamports);
  }

  // ----- paymaster.rs -----

  function PaymasterInitialized(w: World, caller: Signer, relayer: Key): Result<World> {
    var _ :- Require(caller == w.root, UnauthorizedRoot);
    var _ :- Require(w.paymaster.None?, AccountInUse);
    var w1 :- SystemTransferred(w, w.root, w.PaymasterKey(),
                                TopUp(w, w.PaymasterKey(), MinimumBalance(PAYMASTER_SPACE)));
    Ok(w1.(paymaster := Some(Paymaster(relayer, false))))
  }

  function PaymasterFunded(w: World, caller: Signer, lamports: u64): Result<World> {
    var _ :- Require(caller == w.root, UnauthorizedRoot);
    var _ :- Require(w.paymaster.Some?, AccountNotInitialized);
    var _ :- Require(lamports > 0, ZeroAmount);
    SystemTransferred(w, w.root, w.PaymasterKey(), lamports)
  }

  function PaymasterWithdrawn(w: World, caller: Signer, lamports: u64): Result<World> {
    var _ :- Require(caller == w.root, UnauthorizedRoot);
    var _ :- Require(w.paymaster.Some?, AccountNotInitialized);
    var _ :- Require(lamports > 0, ZeroAmount);
    var debited :- TriedDebit(w.lamports, w.PaymasterKey(), w.root, lamports, MinimumBalance(PAYMASTER_SPACE));
    match debited
    case Some(after) => Ok(w.(lamports := after))
    case None => Err(InsufficientPaymaster)
  }

  /** `set_relayer`, `pause` and `unpause`: the root replaces the stored settings. */
  function PaymasterSet(w: World, caller: Signer, relayer: Option<Key>, paused: Option<bool>): Result<World> {
    var _ :- Require(caller == w.root, UnauthorizedRoot);
    if w.paymaster.None? then Err(AccountNotInitialized) else
    var pm := w.paymaster.value;
    Ok(w.(paymaster := Some(Paymaster(
      if relayer.Some? then relayer.value else pm.relayer,
      if paused.Some? then paused.value else pm.paused))))
  }

  method InitPaymaster(a: Accounts, caller: Signer, relayer: Key) returns (r: Result<()>)
    modifies a
    ensures Atomic(PaymasterInitialized(old(a.Snap()), caller, relayer), old(a.Snap()), a.Snap(), r)
  {
    var key := PaymasterPda(GrokAccountPda(a.root));
    if caller != a.root { return Err(UnauthorizedRoot); }
    if a.paymaster.Some? { return Err(AccountInUse); }
    r := SystemTransfer(a, a.root, key, SaturatingSub(MinimumBalance(PAYMASTER_SPACE), BalanceOf(a.lamports, key)));
    if r.Ok? { a.paymaster := Some(Paymaster(relayer, false)); }
  }

  method FundPaymaster(a: Accounts, caller: Signer, lamports: u64) returns (r: Result<()>)
    modifies a
    ensures Atomic(PaymasterFunded(old(a.Snap()), caller, lamports), old(a.Snap()), a.Snap(), r)
  {
    if caller != a.root { return Err(UnauthorizedRoot); }
    if a.paymaster.None? { return Err(AccountNotInitialized); }
    if lamports == 0 { return Err(ZeroAmount); }
    r := SystemTransfer(a, a.root, PaymasterPda(GrokAccountPda(a.root)), lamports);
  }

  method WithdrawPaymaster(a: Accounts, caller: Signer, lamports: u64) returns (r: Result<()>)
    modifies a
    ensures Atomic(PaymasterWithdrawn(old(a.Snap()), caller, lamports), old(a.Snap()), a.Snap(), r)
  {
    if caller != a.root { return Err(UnauthorizedRoot); }
    if a.paymaster.None? { return Err(AccountNotInitialized); }
    if lamports == 0 { return Err(ZeroAmount); }
    var paid := TryDebitProgramOwned(a, PaymasterPda(GrokAccountPda(a.root)), a.root, lamports,
                                     MinimumBalance(PAYMASTER_SPACE));
    if paid.Err? { return Err(paid.error); }
    return Require(paid.value, InsufficientPaymaster);
  }

  method SetRelayer(a: Accounts, caller: Signer, relayer: Key) returns (r: Result<()>)
    modifies a
    ensures Atomic(PaymasterSet(old(a.Snap()), caller, Some(relayer), None), old(a.Snap()), a.Snap(), r)
  {
    if caller != a.root { return Err(UnauthorizedRoot); }
    if a.paymaster.None? { return Err(AccountNotInitialized); }
    a.paymaster := Some(a.paymaster.value.(relayer := relayer));
    return Ok(());
  }

  method SetPaused(a: Accounts, caller: Signer, paused: bool) returns (r: Result<()>)
    modifies a
    ensures Atomic(PaymasterSet(old(a.Snap()), caller, None, Some(paused)), old(a.Snap()), a.Snap(), r)
  {
    if caller != a.root { return Err(UnauthorizedRoot); }
    if a.paymaster.None? { return Err(AccountNotInitialized); }
    a.paymaster := Some(a.paymaster.value.(paused := paused));
    return Ok(());
  }
}
