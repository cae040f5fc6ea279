/** The accounts of one GrokAccount: what the program's instructions read and write
    (state.rs), as objects the handlers update and as the values they are specified on. */
module State {
  import opened Runtime

  /** An SPL Token or Token-2022 account, owned on chain by `program`. `immutableOwner` is the
      extension of that name; `shared` says that someone besides the owner may draw on the
      account, as an approved delegate or as its close authority. */
  datatype TokenAccount = TokenAccount(
    program: Key, mint: Key, owner: Key, amount: u64, immutableOwner: bool, shared: bool)

  /** Only Token-2022 knows the extension: such an account can never pass to another owner. The
      classic token program lets an owner give any account away. */
  predicate OwnerFixed(account: TokenAccount) {
    account.program == Token2022Program && account.immutableOwner
  }

  /** The same account: neither its owner nor what it holds has been changed. */
  predicate SameAccount(a: TokenAccount, b: TokenAccount) {
    a.program == b.program && a.mint == b.mint && a.owner == b.owner && a.immutableOwner == b.immutableOwner
  }

  predicate OnlyAmountDiffers(a: TokenAccount, b: TokenAccount) {
    SameAccount(a, b) && a.shared == b.shared
  }

  /** The CORE grant of one agent. */
  datatype Grant = Grant(cap: u64, spent: u64, expiresAt: i64, revoked: bool, sponsorEligible: bool)

  datatype Paymaster = Paymaster(relayer: Key, paused: bool)

  datatype Registry = Registry(mint: Key, merchants: seq<Key>)

  datatype Subscription = Subscription(
    merchant: Key, mint: Key, amount: u64, periodSeconds: i64, startUnix: i64,
    lastPaidPeriod: i64, payments: u32, active: bool)

  type Lamports = map<Key, u64>
  type Tokens = map<Key, TokenAccount>

  /** The two ledgers a transfer writes. */
  datatype Books<L, T> = Books(lamports: L, tokens: T)

  type Funds = Books<Lamports, Tokens>

  /** The accounts of `root` that this program owns, which are no token accounts. */
  predicate OwnAccount(root: Key, k: Key) {
    k == SpendVaultPda(GrokAccountPda(root)) || k == PaymasterPda(GrokAccountPda(root))
  }

  datatype World = World(
    root: Signer,
    now: i64,
    lamports: Lamports,
    tokens: Tokens,
    mints: map<Key, u8>,               // decimals of each mint
    grants: map<Key, Grant>,           // by agent
    vaultOpen: bool,                   // the SpendVault account has been created
    paymaster: Option<Paymaster>,
    registry: Option<Registry>,
    subs: map<Key, Subscription>)
  {
    function Grok(): Key { GrokAccountPda(root) }
    function Vault(): Key { SpendVaultPda(Grok()) }
    function PaymasterKey(): Key { PaymasterPda(Grok()) }
    function Trader(): Key { PumpTraderPda(Grok()) }
    function Balance(k: Key): u64 { BalanceOf(lamports, k) }
    function AllFunds(): Funds { Books(lamports, tokens) }
  }

  /** Two states that differ at most in balances and metering. */
  ghost predicate SameExceptFunds(w: World, w': World) {
    && w'.root == w.root && w'.now == w.now && w'.mints == w.mints && w'.vaultOpen == w.vaultOpen
    && w'.paymaster == w.paymaster && w'.registry == w.registry && w'.subs == w.subs
    && w'.grants.Keys == w.grants.Keys
  }

  function BalanceOf(lamports: Lamports, k: Key): u64 {
    if k in lamports then lamports[k] else 0
  }

  /** `Rent::minimum_balance` at the network's rate. */
  function MinimumBalance(space: nat): u64
    requires space <= 10_000_000
  {
    (128 + space) * 6960
  }

  const SPEND_VAULT_SPACE := 8 + 32 + 32 + 1
  const PAYMASTER_SPACE := 8 + 32 + 32 + 32 + 1 + 1
  const PUMP_TRADER_SPACE := 0
  const TOKEN_ACCOUNT_SPACE := 165
  const MAX_MERCHANTS := 32
  const REGISTRY_SPACE := 8 + 32 + 32 + 32 + 1 + 4 + 32 * MAX_MERCHANTS

  class Accounts {
    const root: Signer
    var now: i64
    var lamports: Lamports
    var tokens: Tokens
    var mints: map<Key, u8>
    var grants: map<Key, Grant>
    var vaultOpen: bool
    var paymaster: Option<Paymaster>
    var registry: Option<Registry>
    var subs: map<Key, Subscription>

    function Snap(): World
      reads this
    {
      World(root, now, lamports, tokens, mints, grants, vaultOpen, paymaster, registry, subs)
    }

    function AllFunds(): Funds
      reads this
    {
      Books(lamports, tokens)
    }

    constructor (w: World)
      ensures Snap() == w
    {
      root, now, lamports, tokens, mints := w.root, w.now, w.lamports, w.tokens, w.mints;
      grants, vaultOpen, paymaster, registry, subs := w.grants, w.vaultOpen, w.paymaster, w.registry, w.subs;
    }

    /** The runtime discards the writes of a failed transaction. */
    method Rollback(w: World)
      requires w.root == root
      modifies this
      ensures Snap() == w
    {
      now, lamports, tokens, mints := w.now, w.lamports, w.tokens, w.mints;
      grants, vaultOpen, paymaster, registry, subs := w.grants, w.vaultOpen, w.paymaster, w.registry, w.subs;
    }
  }
}
