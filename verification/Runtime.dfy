/** What the Solana runtime supplies to every instruction: bounded integers, addresses,
    error outcomes, rent, and sums over finite account tables. */
module Runtime {

  // Rust integer types. Arithmetic that leaves the range aborts the transaction.
  type u8 = x: int | 0 <= x < 0x100
  type u32 = x: int | 0 <= x < 0x1_0000_0000
  type u64 = x: int | 0 <= x < 0x1_0000_0000_0000_0000
  type i64 = x: int | -0x8000_0000_0000_0000 <= x < 0x8000_0000_0000_0000

  const U32_MAX: u32 := 0xFFFF_FFFF
  const U64_MAX: u64 := 0xFFFF_FFFF_FFFF_FFFF
  const I64_MAX: i64 := 0x7FFF_FFFF_FFFF_FFFF

  /** `u64::saturating_sub`. */
  function SaturatingSub(a: u64, b: u64): u64 {
    if a < b then 0 else a - b
  }

  /** Addresses. Program-derived addresses are free constructors, so derivation is
      injective in its seeds and never yields the default key. */
  datatype Key =
    | Default
    | External(id: nat)
    | SystemProgram
    | TokenProgram
    | Token2022Program
    | JupiterProgram
    | IntentsProgram
    | WsolMint
    | GrokAccountPda(root: Key)
    | SpendVaultPda(grok: Key)
    | PaymasterPda(grok: Key)
    | PumpTraderPda(grok: Key)
    | SubscriptionPda(grok: Key, merchant: Key, mint: Key)
    | GrantPda(grok: Key, agent: Key)
    | SubGrantPda(grok: Key, agent: Key)

  /** A key that can sign a transaction. This program's own addresses never sign for an
      outer instruction. */
  type Signer = k: Key | k.External? witness External(0)

  datatype Error =
    // Raised by the account framework, the runtime, the token program or CORE
    | AccountNotInitialized | AccountInUse | ConstraintSeeds | ClockWentBack
    | ArithmeticOverflow | UnbalancedInstruction | ForbiddenByRuntime | InsufficientFunds | MissingAccount
    | InvalidState
    | GrantRevoked | GrantExpired | GrantCapExceeded
    // Raised by this program
    | UnauthorizedRoot | AgentMismatch | ZeroPayAmount | ZeroAmount | InsufficientSpendVault
    | InsufficientPaymaster | PaymasterPaused | RelayerMismatch | NotSponsorEligible
    | SponsorAccountsRequired | SponsorCapExceeded | GrokAccountMismatch | LamportOverflow
    | MinOutNotMet | CallTargetMismatch | TargetNotExecutable | ProtectedAccountInRemaining
    | AgentCannotFeePay | PumpUserMustBeTrader | PumpTraderNotInitialized | PumpTraderNotSystemOwned
    | PumpTraderAlreadyExists | InsufficientPumpTrader | PumpTraderUnderfunded | PumpPdaMismatch
    | WithdrawRemainingAccountsOdd | WithdrawTokenOwnerNotTrader | WithdrawTokenDestOwnerNotRoot
    | WithdrawTokenMintMismatch | InvalidTokenProgram
    | TokenWrapMintMustBeWsol | JupiterEmptyDataForbidden | JupiterInAmountMismatch
    | JupiterSourceOwnerNotTrader | JupiterDestOwnerNotTrader | JupiterOverspent | JupiterMinOutNotMet
    | MerchantRegistryFull | MerchantAlreadyListed | MerchantNotListed
    | PayTokenMintNotRegistered | PayTokenPayeeNotAllowed | PayTokenMintMismatch
    | PayTokenSourceOwnerNotTrader | PayTokenInsufficient | PayTokenDecimalsMismatch
    | SubscriptionPeriodTooShort | SubscriptionNotStarted | SubscriptionInactive
    | SubscriptionPeriodMismatch | SubscriptionAlreadyPaid
    | SubGrantSelfIssue | SubGrantExpiryInPast | SubGrantParentRevoked | SubGrantParentExpired
    | SubGrantNotIssuer | SubGrantTooDeep | SubGrantExceedsParent | SubGrantOutlivesParent
    | SubGrantCannotWiden | SubGrantCapBelowSpent | SubGrantAlreadyRevoked | SubGrantChainEmpty
    | SubGrantRevoked | SubGrantExpired | SubGrantCapExceeded | SubGrantNotHolder
    | SubGrantChainBroken | SubGrantChainTruncated

  datatype Option<+T> = None | Some(value: T)

  datatype Result<+T> = Ok(value: T) | Err(error: Error) {
    predicate IsFailure() {
      Err?
    }

    function PropagateFailure<U>(): Result<U>
      requires Err?
    {
      Err(error)
    }

    function Extract(): T
      requires Ok?
    {
      value
    }
  }

  /** `require!(condition, error)`. */
  function Require(condition: bool, error: Error): Result<()> {
    if condition then Ok(()) else Err(error)
  }

  /** An instruction is atomic: it either performs exactly what `spec` says, or reports
      `spec`'s error and leaves the state as it was. */
  ghost predicate Atomic<S>(spec: Result<S>, before: S, after: S, outcome: Result<()>) {
    match spec
    case Ok(s) => outcome.Ok? && after == s
    case Err(e) => outcome == Err(e) && after == before
  }

  /** What a step that ended with `r` and left `after` amounts to. A failed one may leave anything
      for the runtime to discard. */
  function Outcome<S>(r: Result<()>, after: S): Result<S> {
    if r.Ok? then Ok(after) else Err(r.error)
  }

  /** The state after an attempt: a failed transaction leaves no trace. */
  function After<S>(attempt: Result<S>, before: S): S {
    match attempt
    case Ok(s) => s
    case Err(_) => before
  }

  /** The sum of the values of a finite table. */
  ghost function SumOf(m: map<Key, int>): int {
    if m == map[] then 0 else
    var k :| k in m;
    m[k] + SumOf(m - {k})
  }

  /** Taking any one row out takes exactly its value out of the sum. */
  lemma {:induction false} SumWithout(m: map<Key, int>, k: Key)
    requires k in m
    ensures SumOf(m) == m[k] + SumOf(m - {k})
    decreases m.Keys
  {
    var j :| j in m && SumOf(m) == m[j] + SumOf(m - {j});
    if j != k {
      var mj, mk := m - {j}, m - {k};
      assert mj.Keys < m.Keys by { assert j in m.Keys; }
      assert mk.Keys < m.Keys by { assert k in m.Keys; }
      SumWithout(mj, k);
      SumWithout(mk, j);
      assert mj - {k} == mk - {j};
    }
  }

  lemma SumUpdate(m: map<Key, int>, k: Key, v: int)
    ensures SumOf(m[k := v]) == SumOf(m) + v - (if k in m then m[k] else 0)
  {
    SumWithout(m[k := v], k);
    assert m[k := v] - {k} == m - {k};
    if k in m {
      SumWithout(m, k);
    } else {
      assert m - {k} == m;
    }
  }

  lemma {:induction false} SumMonotone(m: map<Key, int>, n: map<Key, int>)
    requires m.Keys == n.Keys
    requires forall k :: k in m ==> m[k] <= n[k]
    ensures SumOf(m) <= SumOf(n)
    decreases m.Keys
  {
    if m != map[] {
      var k :| k in m;
      SumWithout(m, k);
      SumWithout(n, k);
      assert (m - {k}).Keys < m.Keys by { assert k in m.Keys; }
      SumMonotone(m - {k}, n - {k});
    } else {
      assert n == map[];
    }
  }
}
