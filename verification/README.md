# Authority and money in `grok_chain_intents`: a Dafny model

The Solana program `grok_chain_intents` lets AI agents spend a human root's funds under grants
the root controls. This project models its authority-and-money core and proves what it promises
over whole runs: any interleaving of attempts, by anyone, with the clock moving and with inner
programs behaving arbitrarily.

**Delegation.** `SubGrants` models `sub_grant.rs`: agents issue sub-grants out of their own budget,
spends walk a caller-supplied chain to the top and then meter every ancestor, and revocation writes
one node. CORE's grants are a table the program only reads and CORE may rewrite at any step.
`SubGrantRuns` proves the subtree ledger, the revocation and expiry cascade, chain authenticity and
narrowing authority over all runs. `CoreCeiling` proves what a CORE grant's cap and revocation do and
do not mean for the tree beneath it. `SubGrantAcceptance` states exactly which issues, revisions and
revocations are accepted and what each writes. The depth bound is 3 as in the source; no proof unrolls it.

**The intents program.** `State` holds the accounts of one GrokAccount; `Bank`, `Vaults`, `Intents`,
`TokenLedger`, `Subscriptions`, `TokenTrade`, `PumpTrader` and `Merchants` model the instruction
files. `Machine` joins every instruction, whatever foreign programs do outside it, CORE revocations
and the clock into one state machine. `MoneyRuns` proves the lamport ledger,
`TradeBracket` exactly what the Jupiter bracket protects, `MeteringRuns` when grants cover what leaves,
`TraderAccounts` which token accounts stay whole, `Containment` what the merchant allowlist contains,
`SettlementRuns` exactly-once recurring payment, `SettlementDue` that what is due stays payable, and
`SponsorRuns` that the root's pause and relayer always govern. `Acceptance`, `TradeAcceptance`,
`SweepAcceptance` and `IntentEffects` state, for every instruction, the stored fields and balances on
which it is accepted, in both directions, and everything it then writes. `PumpCreate` proves the one
variable-length encoder decodable.

**Form.** Instructions are imperative methods on account objects. Each is proved equal, errors and
error order included, to a function on state values; the theorems are about those functions.
`Atomic(spec, before, after, outcome)` says that an instruction does exactly what `spec` says or
reports its error and leaves no trace. Machine integers are bounded and overflow aborts.

**Assumptions.** Program-derived addresses are free constructors: injective in their seeds, never the
default key, never signers. CORE's `check_grant` follows its documented contract: abort if revoked, expired
or over cap, otherwise add the amount to `spent`. Token transfers carry no fees; those of wrapped SOL
move the accounts' lamports too. An inner program is
an arbitrary list of lamport transfers among the accounts handed to it plus arbitrary final contents
for its token accounts, confined only by the runtime's rules: it cannot debit this program's own
accounts, nor without the trader's signature the trader or its token accounts, unless someone else
may draw on them (`shared`: an approved delegate or a close authority). The same rule confines what
runs outside the program. With the trader's signature anything goes, giving the accounts away
included, except that a Token-2022 account with the `ImmutableOwner` extension keeps its owner and
mint. Rent is the network's `(128 + space) * 6960`.

**Where the code and its comments disagree.** The model follows the code.

- `sub_grant.rs:15-21` and `docs/SUB_GRANTS.md:36-37` say the CORE cap bounds the whole tree and that
  spends meter it. Walk and commit never touch CORE: one CORE grant that still admits a sub-grant lets
  those beneath it spend any amount whatever (`OpenGrantUnbounded`, `CoreCapDoesNotBind`). A ceiling
  holds over every continuation exactly when the grant admits no further sub-grant and the allowances
  of those it has are within it (`CeilingHoldsIff`), and it is kept by checking each issue against them
  (`CheckedIssuesHoldCeiling`), a check that is exact (`IssueSafeIff`).
- Issuing does not tie the parent's account to the CORE grant presented. So a tree goes on spending and
  growing after its own CORE grant is revoked (`CoreDeathChangesNothing`, `SpentAcross`), and the root
  whose budget is spent can revoke a node itself exactly when the node names its account
  (`RootPullsIff`); it can always revoke the top (`RootPullsTop`). It also lets a stranger's sub-grant
  take an address the account's own agent could have issued to, for good (`TakenFromIssuer`,
  `OwnIssueAcceptedIff`).
- "Authority only ever narrows going down" holds of effective authority (`IssuedWithinIssuer`,
  `AuthorityNeverGrows`), not of stored caps and expiries once a parent is revised down
  (`OrderCanBreak`, `ReviseKeepsCapOrderIff`, `ReviseKeepsExpiryOrderIff`).
- `pay_subscription` checks sponsorship but never pays it (`SettlementPays`).
- `policy.rs:322-323` says that checking balances makes a route's contents irrelevant. The balances are
  read without the owner: between accounts that can be given away every trade has an accepted route
  that takes everything (`RouteTakesAll`; `AllTakenExample` on concrete accounts). What a route can take
  is stated exactly (`RouteTakesAtMost`, `WorstRoute`). On the amounts the program reads, the metering of
  a SOL trade covers what left its source on every route and over every run (`MeteredCoversMeasured`).
  On what the trader still owns, it covers every route exactly when the input is SOL and the account's
  owner is fixed, or the account holds no more than was metered (`TradeCoveredIff`), and one route's
  outcome exactly when the source is still the trader's, or held no more (`SolTradeCoveredIff`). Wrapped
  SOL lives under the classic token program, where no owner is fixed. The floor protects the destination
  exactly when it is positive and the account's owner is fixed (`DestinationProtectedIff`). All this is
  about the instruction: a route may leave a delegate behind (`SharedThenEmptied`), and accounts never
  handed to a trade are the ones that stay whole (`LeftAloneKept`).
- `merchants.rs:18-20` says a stolen agent key spends up to the cap and only to approved merchants. That
  holds of an agent's token payments, over any run (`PaymentsWithinCap`, `PaymentsGoToListed`); the same
  key can also send SOL to any recipient, and trade a non-SOL token unmetered (`TradeNotContained`).
- A payment is said to reach its payee. With the trader itself on the allowlist it may pay an account
  from itself: the grant is metered, the period is settled, and nothing moves (`PayTokenDeliversIff`,
  `SettlementArrivesIff`, `PaidPerSettlementIff`).
- `try_debit_program_owned` on one account would create lamports (`DebitConservesIff`); the model has
  the runtime reject such an instruction when it ends.

## Model

| member | source | states |
|---|---|---|
| `SubGrantRuns.SubtreeWithinCap` | programs/grok_chain_intents/src/instructions/sub_grant.rs:215-291 | in every state reachable from the empty program, a node's `spent` is the total spent anywhere in its subtree and is within its own cap, whatever the caps beneath it add up to |
| `SubGrantRuns.SpentByGeneration` | programs/grok_chain_intents/src/instructions/sub_grant.rs:270-280 | a node's stored `spent` is its own direct spends plus the `spent` of its children |
| `SubGrantRuns.RunKeepsValid` | programs/grok_chain_intents/src/instructions/sub_grant.rs:73-204 | every run of issue, revise, revoke and spend attempts, clock ticks and CORE writes keeps the tree rooted, bounded in depth, correctly addressed and within caps |
| `SubGrants.WalkAcceptsExactly` | programs/grok_chain_intents/src/instructions/sub_grant.rs:221-257 | the walk accepts a caller-supplied chain if and only if it is the leaf's entire ancestor path, held by the spender, live and unexpired throughout, with the amount within the least headroom: at most one chain per leaf |
| `SubGrants.LinkedIsPath` | programs/grok_chain_intents/src/instructions/sub_grant.rs:238-255 | a chain whose parent links check out and whose top has no parent is the true ancestor path |
| `SubGrants.PathDistinct` | programs/grok_chain_intents/src/instructions/sub_grant.rs:90-109 | no address repeats on an ancestor path: parent links are acyclic |
| `SubGrants.CommitCannotFail` | programs/grok_chain_intents/src/instructions/sub_grant.rs:268-280 | after an accepted walk the commit cannot overflow: each path node goes up by the amount exactly once, stays within its cap, and no other account changes |
| `SubGrants.SpendExactly` | programs/grok_chain_intents/src/instructions/sub_grant.rs:206-291 | walk then commit is all-or-nothing, with the exact condition under which it happens and the exact state it leaves |
| `SubGrantRuns.DeadSubtreeFrozen` | programs/grok_chain_intents/src/instructions/sub_grant.rs:185-204 | once a node is revoked or expired, no continuation (including new issues beneath its descendants) moves `spent` of any node in its subtree |
| `SubGrantRuns.RevokeKills` | programs/grok_chain_intents/src/instructions/sub_grant.rs:190-204 | the issuer or the root can always revoke a live node; the write touches that node only and makes it dead |
| `SubGrantRuns.ChangesNeedAuthority` | programs/grok_chain_intents/src/instructions/sub_grant.rs:90-124 | a node appears only under a parent its issuer holds or under the issuer's own live CORE grant, at the address derived from the account and the issuer; its terms change only under its issuer or the root, and its `spent` only through the holder of a node beneath it |
| `SubGrantRuns.AuthorityNeverGrows` | programs/grok_chain_intents/src/instructions/sub_grant.rs:164-173 | along any run an existing node's headroom, expiry and liveness never increase and its path never changes |
| `SubGrantRuns.IssuedWithinIssuer` | programs/grok_chain_intents/src/instructions/sub_grant.rs:127-145 | a new sub-grant has at most its issuer's effective headroom and expiry, lives only while its issuer does, and is issued only under a live parent and a live CORE grant of the account it names, which need not be the parent's |
| `SubGrantRuns.ReviseTakesEffect` | programs/grok_chain_intents/src/instructions/sub_grant.rs:164-173 | a revision binds the node and its whole subtree at once: headroom within the new cap, expiry within the new expiry |
| `SubGrantRuns.OrderCanBreak` | programs/grok_chain_intents/src/instructions/sub_grant.rs:164-173 | a run from the empty program and an accepted revision after which a child's cap and expiry both exceed its parent's |
| `SubGrantRuns.ReviseKeepsCapOrderIff` | programs/grok_chain_intents/src/instructions/sub_grant.rs:164-173 | a revision keeps caps ordered exactly when the new cap is at least every child's cap |
| `SubGrantRuns.ReviseKeepsExpiryOrderIff` | programs/grok_chain_intents/src/instructions/sub_grant.rs:164-173 | a revision keeps expiries ordered exactly when no child outlives the new expiry |
| `SubGrantRuns.IssueKeepsOrder` | programs/grok_chain_intents/src/instructions/sub_grant.rs:127-134 | issuing never breaks the order of caps or of expiries |
| `CoreCeiling.CoreCapDoesNotBind` | programs/grok_chain_intents/src/instructions/sub_grant.rs:15-21 | from the empty program, one CORE grant with a cap of 100, never rewritten, lets the sub-grants beneath it spend any given amount, contrary to the file's own claim |
| `CoreCeiling.OpenGrantUnbounded` | programs/grok_chain_intents/src/instructions/sub_grant.rs:110-134 | from any state in which a CORE grant admits a sub-grant, some run raises the total spent beneath it by any amount |
| `CoreCeiling.CeilingHoldsIff` | programs/grok_chain_intents/src/instructions/sub_grant.rs:110-134 | a ceiling binds everything spent beneath a CORE grant, by the roots it has and all it may yet get, over every continuation that does not renew the grant, if and only if the allowances of its roots sum to at most the ceiling and it admits no further root |
| `CoreCeiling.CheckedIssuesHoldCeiling` | programs/grok_chain_intents/src/instructions/sub_grant.rs:127-134 | over any run in which every accepted root issue leaves room for its whole cap, the total never passes the ceiling, whatever CORE does meanwhile |
| `CoreCeiling.IssueSafeIff` | programs/grok_chain_intents/src/instructions/sub_grant.rs:127-134 | that check is exact: after an issue, spends alone stay within the ceiling if and only if there was room for the whole cap |
| `CoreCeiling.IssueAddsPotential` | programs/grok_chain_intents/src/instructions/sub_grant.rs:127-145 | an issue under the CORE grant adds its cap in full to what its sub-grants may come to spend |
| `CoreCeiling.PotentialStep` | programs/grok_chain_intents/src/instructions/sub_grant.rs:164-204 | no other step of anyone's adds to it |
| `CoreCeiling.CoreDeathChangesNothing` | programs/grok_chain_intents/src/instructions/sub_grant.rs:164-291 | rewriting or revoking CORE grants changes nothing in any run whose issues present grants left as they were: spends, revisions and revocations read none |
| `CoreCeiling.SpentAcross` | programs/grok_chain_intents/src/instructions/sub_grant.rs:87-109 | a run in which an account's only CORE grant is revoked, its sub-grant's holder then issues under another account, and that child spends the first account's budget, beyond the first root's reach to revoke it |
| `CoreCeiling.RootPullsIff` | programs/grok_chain_intents/src/instructions/sub_grant.rs:335-353 | the root whose budget a live node spends can revoke that node if and only if the node names the root's account, or the root issued it |
| `CoreCeiling.RootPullsTop` | programs/grok_chain_intents/src/instructions/sub_grant.rs:190-204 | that root can always stop the node for good by revoking the top of its path |
| `CoreCeiling.OwnIssueAcceptedIff` | programs/grok_chain_intents/src/instructions/sub_grant.rs:73-160 | a CORE agent's request on its own grant is accepted if and only if the grant admits it, the terms fit what is left, the key is not its own and the address is free |
| `CoreCeiling.TakenForGood` | programs/grok_chain_intents/src/instructions/sub_grant.rs:317-331 | an address once taken is never issued to again, over any continuation |
| `CoreCeiling.TakenFromIssuer` | programs/grok_chain_intents/src/instructions/sub_grant.rs:87-109 | any holder of a live sub-grant above the last level, in any account, can take a free address under another account's live CORE grant, after which that account's own agent is refused there in every continuation, on any terms |
| `CoreCeiling.TakenReachable` | programs/grok_chain_intents/src/instructions/sub_grant.rs:87-109 | a run from the empty program reaches such a state |
| `SubGrants.WalkAndMeter` | programs/grok_chain_intents/src/instructions/sub_grant.rs:215-258 | the checking loop returns exactly the first failure in source order, or success |
| `SubGrants.SubGrantAccounts.IssueSubGrant` | programs/grok_chain_intents/src/instructions/sub_grant.rs:73-160 | exact new account, or the exact error with nothing written |
| `SubGrants.SubGrantAccounts.ReviseSubGrant` | programs/grok_chain_intents/src/instructions/sub_grant.rs:164-183 | exact new terms, or the exact error with nothing written |
| `SubGrants.SubGrantAccounts.RevokeSubGrant` | programs/grok_chain_intents/src/instructions/sub_grant.rs:190-204 | exact revocation and generation bump, or the exact error with nothing written |
| `SubGrants.SubGrantAccounts.CommitMeter` | programs/grok_chain_intents/src/instructions/sub_grant.rs:270-280 | the in-place loop over the chain's own copies writes back what the specification says, or stops at the first overflow |
| `SubGrants.SubGrantAccounts.SpendSubGrant` | programs/grok_chain_intents/src/instructions/sub_grant.rs:206-291 | the composition of walk and commit, atomically |
| `SubGrantAcceptance.IssueBeneathAcceptedIff` | programs/grok_chain_intents/src/instructions/sub_grant.rs:73-134 | issuing beneath a parent is accepted if and only if, on the stored fields, the accounts are right, the CORE grant and the parent are live, the issuer holds the parent and not the new node, the parent is above the last level, what the parent has left covers a positive cap, and the expiry is ahead and within the parent's |
| `SubGrantAcceptance.IssueRootAcceptedIff` | programs/grok_chain_intents/src/instructions/sub_grant.rs:73-134 | issuing without a parent is accepted if and only if the CORE grant presented is the account's and the issuer's own, live, and what it has left and its expiry cover the request |
| `SubGrantAcceptance.IssueWrites` | programs/grok_chain_intents/src/instructions/sub_grant.rs:136-160 | an accepted issue writes one account, given field by field, and nothing else |
| `SubGrantAcceptance.ReviseAcceptedIff` | programs/grok_chain_intents/src/instructions/sub_grant.rs:164-173 | a revision is accepted if and only if the issuer or the account's root signs, the new cap lies between what is spent and the old cap, and the new expiry is no later |
| `SubGrantAcceptance.ReviseWrites` | programs/grok_chain_intents/src/instructions/sub_grant.rs:164-183 | it leaves exactly the cap and expiry asked for, every other field and node as it was, and every node as live as it was |
| `SubGrantAcceptance.RevokeAcceptedIff` | programs/grok_chain_intents/src/instructions/sub_grant.rs:190-195 | a revocation is accepted if and only if the issuer or the account's root signs and the node is not yet revoked |
| `SubGrantAcceptance.RevokeWrites` | programs/grok_chain_intents/src/instructions/sub_grant.rs:190-204 | it writes the flag and the generation, which stops at its maximum, of that node and nothing else |
| `SubGrantAcceptance.RevokeKillsBeneath` | programs/grok_chain_intents/src/instructions/sub_grant.rs:185-204 | and what stops being live is exactly what lies beneath it |
| `SettlementRuns.SettledInOrder` | programs/grok_chain_intents/src/instructions/subscription.rs:146-165 | over any interleaving of attempts, settled periods strictly increase, each is the clock's period when paid, terms never change, and the two counters record exactly the log |
| `SettlementRuns.RetryChangesNothing` | programs/grok_chain_intents/src/instructions/subscription.rs:155-163 | any retry of a settled period, by anyone with any accounts at any later time, can be deleted from the request log without changing the final state |
| `SettlementRuns.SettlementRate` | programs/grok_chain_intents/src/instructions/subscription.rs:140-165 | at most one settlement per period the clock passed through plus one: at most ceil(W / period) + 1 in any window of length W, and none before the start |
| `SettlementRuns.SettlementPays` | programs/grok_chain_intents/src/instructions/subscription.rs:173-250 | a settlement names an account of the still-listed merchant, meters the grant by exactly the amount, reimburses no sponsor and moves no lamports but those wrapped SOL takes along; between two accounts it delivers exactly the amount, and on one account, which takes the trader as merchant, it moves nothing |
| `SettlementRuns.PaidPerSettlementIff` | programs/grok_chain_intents/src/instructions/subscription.rs:164-250 | over any run the balances rise by the fixed amount times the number of settlements if and only if none paid an account from itself, and for any merchant but the trader none does |
| `SettlementRuns.SettlementArrivesIff` | programs/grok_chain_intents/src/instructions/subscription.rs:196-243 | every accepted destination receives exactly the amount if and only if the merchant is not the trader |
| `SettlementRuns.CurrentPeriodIsFloor` | programs/grok_chain_intents/src/instructions/subscription.rs:140-144 | the current period is the exact floor, characterised by its bounds |
| `SettlementRuns.SafeStartIff` | programs/grok_chain_intents/src/instructions/subscription.rs:140-144 | the checked subtraction is safe at every clock reading if and only if the start is not negative |
| `SettlementRuns.PeriodNeverOverflows` | programs/grok_chain_intents/src/instructions/subscription.rs:103-143 | over any run a subscription with a non-negative start has a period exactly once it has started |
| `SettlementRuns.CreatedWellFormed` | programs/grok_chain_intents/src/instructions/subscription.rs:74-106 | a created subscription is new, unpaid, active, at least a day long, starts at the later of its creation and the requested time, and names a listed merchant |
| `SettlementRuns.GapsAreAuditable` | programs/grok_chain_intents/src/instructions/subscription.rs:14-19 | while the counter is unsaturated, `last_paid_period + 1 - payments` is exactly the number of periods missed |
| `SettlementRuns.CancelIsFinal` | programs/grok_chain_intents/src/instructions/subscription.rs:123-126 | after cancel no run pays or changes the subscription |
| `SettlementRuns.CancelStops` | programs/grok_chain_intents/src/instructions/subscription.rs:123-126 | an accepted cancel is the root's and stops the subscription over every continuation |
| `SettlementRuns.DelistingStopsPayment` | programs/grok_chain_intents/src/instructions/subscription.rs:173-180 | while its merchant is off the list, and until an accepted step puts it back, a subscription is never paid |
| `Acceptance.PaySubscriptionAcceptedIff` | programs/grok_chain_intents/src/instructions/subscription.rs:146-250 | on the stored fields, a payment is accepted if and only if the subscription is active and started, the period named is the clock's own by its bounds and later than the last paid, the merchant is listed in the registry's own mint, the accounts are right, and the grant is live with room; sponsorship need only be well-formed |
| `Acceptance.CreateAcceptedIff` | programs/grok_chain_intents/src/instructions/subscription.rs:74-120 | a subscription is created if and only if the root asks for a listed merchant in the registry's mint, a free address, a positive amount and at least a day; the account is given field by field |
| `Acceptance.CancelAcceptedIff` | programs/grok_chain_intents/src/instructions/subscription.rs:123-137 | the root can cancel every active subscription, nobody else can, and only that flag changes |
| `SettlementDue.PayableIff` | programs/grok_chain_intents/src/instructions/subscription.rs:140-163 | some period can be paid if and only if the clock's current period is unsettled and the clock is in range of the start, and then no other |
| `SettlementDue.DueIsSettledIff` | programs/grok_chain_intents/src/instructions/subscription.rs:146-250 | for a subscription created at a non-negative clock, an attempt settles if and only if it names the due period, the accounts are right, the merchant is listed and the grant has room |
| `SettlementDue.ActiveIff` | programs/grok_chain_intents/src/instructions/subscription.rs:123-126 | over any run a subscription stays active if and only if no accepted cancel names it |
| `SettlementDue.CurrentPeriodDueIff` | programs/grok_chain_intents/src/instructions/subscription.rs:155-163 | after any run the clock's current period is due if and only if the subscription was active, has not been cancelled, has started, and that very period is not among those settled |
| `SettlementDue.StaysDue` | programs/grok_chain_intents/src/instructions/subscription.rs:155-163 | what is due stays due at every later clock until it is settled or cancelled, whatever else is attempted |
| `SettlementDue.DueAgainIff` | programs/grok_chain_intents/src/instructions/subscription.rs:155-166 | after a settlement, with none since and no cancel, a period is due again if and only if the settled one has ended |
| `Subscriptions.CreateSubscription` | programs/grok_chain_intents/src/instructions/subscription.rs:74-120 | exact new account, or the exact error with nothing written |
| `Subscriptions.CancelSubscription` | programs/grok_chain_intents/src/instructions/subscription.rs:123-137 | exact deactivation, or the exact error with nothing written |
| `Subscriptions.PaySubscription` | programs/grok_chain_intents/src/instructions/subscription.rs:146-266 | checks, metering, transfer and counters, atomically |
| `Bank.DebitConservesIff` | programs/grok_chain_intents/src/instructions/mod.rs:40-59 | a successful debit conserves lamports if and only if it moves nothing or its two accounts differ |
| `MoneyRuns.LamportLedger` | programs/grok_chain_intents/src/instructions/mod.rs:40-59 | over any run the lamport total is constant and each balance is its start plus the net of the moves made |
| `MoneyRuns.VaultLedger` | programs/grok_chain_intents/src/instructions/spend_vault.rs:25-67 | the vault's balance is its start plus deposits minus root withdrawals minus trader fundings minus metered debits, whatever inner programs and routes do |
| `MoneyRuns.RunSolvent` | programs/grok_chain_intents/src/instructions/common.rs:76-92 | vault and paymaster hold at least their rent in every reachable state |
| `MoneyRuns.SponsoredOnTerms` | programs/grok_chain_intents/src/instructions/common.rs:31-71 | a reimbursement happens only unpaused, for an eligible grant, to the relayer configured at that step and within the hard cap |
| `MoneyRuns.ForeignMovesApart` | programs/grok_chain_intents/src/instructions/common.rs:110-129 | a foreign program cannot even credit the vault, nor a paymaster passed for sponsorship, and debits neither |
| `MoneyRuns.CustodyExact` | programs/grok_chain_intents/src/instructions/common.rs:110-129 | whatever foreign code an intent runs, the vault ends lower by exactly the named amount, and a passed paymaster by exactly the sponsorship less what the intent itself paid it |
| `MoneyRuns.SponsorDrainBound` | programs/grok_chain_intents/src/policy.rs:64-80 | apart from the root's withdrawals a run takes at most 10,000,000 lamports per sponsored intent from the paymaster |
| `SponsorRuns.SettingsAreLatest` | programs/grok_chain_intents/src/instructions/paymaster.rs:75-104 | after any run the paymaster holds exactly the relayer and the pause flag its root last set |
| `SponsorRuns.PauseStopsSponsorship` | programs/grok_chain_intents/src/instructions/paymaster.rs:86-94 | after an accepted pause no sponsored intent is accepted, and only the root's withdrawals leave the paymaster, until an accepted unpause |
| `SponsorRuns.UnpauseRestores` | programs/grok_chain_intents/src/instructions/paymaster.rs:96-104 | an accepted unpause clears the flag and keeps the relayer last set |
| `SponsorRuns.RelayerTakesOver` | programs/grok_chain_intents/src/instructions/paymaster.rs:75-84 | an accepted change of relayer makes that key the only one reimbursed until the next accepted change |
| `Acceptance.SetPaymasterAcceptedIff` | programs/grok_chain_intents/src/instructions/paymaster.rs:75-104 | pausing, unpausing and setting the relayer are the root's on an open paymaster, and each writes its own value and keeps the other |
| `Machine.OnlyRootGoverns` | programs/grok_chain_intents/src/instructions/paymaster.rs:54-104 | every accepted instruction that is no agent intent carries the root's signature |
| `Machine.IntentFrame` | programs/grok_chain_intents/src/instructions/call.rs:41-105 | no agent intent changes the vault, paymaster or allowlist settings, and none but a subscription payment touches a subscription |
| `Bank.TryDebitProgramOwned` | programs/grok_chain_intents/src/instructions/mod.rs:40-59 | both balances after a debit, the refusal below the floor, and the overflow error |
| `Bank.RejectProtectedRemaining` | programs/grok_chain_intents/src/instructions/common.rs:110-129 | accepts exactly the lists holding neither the vault nor the passed paymaster |
| `Bank.ReimburseSponsor` | programs/grok_chain_intents/src/instructions/common.rs:31-73 | exact reimbursement, or the exact error with nothing written |
| `Bank.DebitSpendVault` | programs/grok_chain_intents/src/instructions/common.rs:76-92 | exact debit above the rent floor, or the exact error with nothing written |
| `Vaults.InitSpendVault` | programs/grok_chain_intents/src/instructions/spend_vault.rs:12-23 | opens the vault with its rent, once |
| `Vaults.FundSpendVault` | programs/grok_chain_intents/src/instructions/spend_vault.rs:25-46 | exact deposit from the root |
| `Vaults.WithdrawSpendVault` | programs/grok_chain_intents/src/instructions/spend_vault.rs:48-67 | exact withdrawal to the root above the floor |
| `Vaults.InitPaymaster` | programs/grok_chain_intents/src/instructions/paymaster.rs:15-29 | opens the paymaster with its rent, unpaused, once |
| `Vaults.FundPaymaster` | programs/grok_chain_intents/src/instructions/paymaster.rs:31-52 | exact deposit from the root |
| `Vaults.WithdrawPaymaster` | programs/grok_chain_intents/src/instructions/paymaster.rs:54-73 | exact withdrawal to the root above the floor |
| `Vaults.SetRelayer` | programs/grok_chain_intents/src/instructions/paymaster.rs:75-84 | replaces the relayer and nothing else |
| `Vaults.SetPaused` | programs/grok_chain_intents/src/instructions/paymaster.rs:86-104 | sets or clears the pause and nothing else |
| `Acceptance.InitVaultAcceptedIff` | programs/grok_chain_intents/src/instructions/spend_vault.rs:12-23 | opening is accepted if and only if the root signs, the vault is closed and the root can add what the account lacks of its rent; both balances afterwards |
| `Acceptance.FundVaultAcceptedIff` | programs/grok_chain_intents/src/instructions/spend_vault.rs:25-46 | a deposit is accepted if and only if it is positive and the root has it; both balances afterwards |
| `Acceptance.WithdrawVaultAcceptedIff` | programs/grok_chain_intents/src/instructions/spend_vault.rs:48-67 | a withdrawal is accepted if and only if the root signs and the vault keeps its rent; both balances afterwards |
| `Acceptance.InitPaymasterAcceptedIff` | programs/grok_chain_intents/src/instructions/paymaster.rs:15-29 | opening is accepted if and only if the root signs, there is none yet and the rent is covered; it starts unpaused with the relayer given |
| `Acceptance.FundPaymasterAcceptedIff` | programs/grok_chain_intents/src/instructions/paymaster.rs:31-52 | a deposit is accepted if and only if it is positive and the root has it; both balances afterwards |
| `Acceptance.WithdrawPaymasterAcceptedIff` | programs/grok_chain_intents/src/instructions/paymaster.rs:54-73 | a withdrawal is accepted if and only if the root signs and the paymaster keeps its rent; both balances afterwards |
| `Intents.Pay` | programs/grok_chain_intents/src/instructions/pay.rs:13-56 | meter, debit, reimburse, atomically |
| `Intents.Swap` | programs/grok_chain_intents/src/instructions/swap.rs:14-58 | meter, debit, reimburse with the minimum check, atomically |
| `Intents.Call` | programs/grok_chain_intents/src/instructions/call.rs:24-116 | meter, optional debit, inner invoke without vault signature, reimburse, atomically |
| `Acceptance.PayAcceptedIff` | programs/grok_chain_intents/src/instructions/pay.rs:13-56 | a payment is accepted if and only if it is positive, the grant is live with room, the vault can send it and keep its rent, and the sponsorship asked for can be paid after it |
| `Acceptance.SwapAcceptedIff` | programs/grok_chain_intents/src/instructions/swap.rs:14-58 | the same send, accepted only if it is at least the minimum asked for |
| `Acceptance.CallAcceptedIff` | programs/grok_chain_intents/src/instructions/call.rs:24-116 | a call is accepted if and only if the program named is the one called and executable, the accounts handed over hold it and no protected one, the runtime allows what it does, the grant has room, the vault can send the amount if any, and the sponsorship can be paid after it |
| `IntentEffects.IntentWrites` | programs/grok_chain_intents/src/instructions/call.rs:52-105 | an accepted intent of any kind charges its own agent's grant by exactly its amount, changes balances and token accounts, and if it settles a subscription sets that one's two counters; every other field is as it was |
| `IntentEffects.IntentTokens` | programs/grok_chain_intents/src/instructions/pay_token.rs:147-167 | and what it does to the token accounts: nothing, one transfer, or what the foreign program left, after the wrap for a wrapped trade |
| `MeteringRuns.MeteredCoversMeasured` | programs/grok_chain_intents/src/instructions/token.rs:118-169 | over any run in which the agent's trades spend SOL, from any source and on any routes, what left the accounts its intents selected (vault lamports, the payment's source, the swap's source as the program measures it) is at most the increase of its grant's `spent` and at most what its cap had left |
| `MeteringRuns.MeteredCoversActual` | programs/grok_chain_intents/src/instructions/pay.rs:21-37 | the same counting a source as gone once it is no longer the trader's, over any run in which each of the agent's trades has a guarded source, or spends SOL from a source that is still the trader's afterwards; what a route does to the trader's other accounts is not counted |
| `MeteringRuns.StepCovered` | programs/grok_chain_intents/src/instructions/token.rs:118-169 | one intent meters its own agent for at least what left the selected account, by ownership where the trade is guarded or left the source with the trader, by the program's measure wherever its input is SOL, and meters nobody else |
| `TradeBracket.TradeCoveredIff` | programs/grok_chain_intents/src/policy.rs:295-303 | a trade's metering covers what every accepted route takes from the trader's source if and only if its input is SOL and the account's owner is fixed, or it holds no more than was metered |
| `TradeBracket.SolTradeCoveredIff` | programs/grok_chain_intents/src/instructions/token.rs:161-169 | for SOL input, what one accepted route took is within the metered amount if and only if the source is still the trader's, or held no more than that |
| `TradeBracket.BracketHolds` | programs/grok_chain_intents/src/instructions/token.rs:136-169 | whatever the route leaves behind, an accepted trade used two different accounts of the trader, left the source at most `in_amount` lower (with a wrap not below the lamports it had to spare) and the destination higher by a positive floor; the amounts are still the trader's where the account's owner is fixed |
| `TradeBracket.RouteTakesAll` | programs/grok_chain_intents/src/policy.rs:311-333 | every completable trade between accounts that can be given away has an accepted route after which the checks pass and the trader has nothing left in either |
| `TradeBracket.AllTakenExample` | programs/grok_chain_intents/src/policy.rs:311-333 | a concrete state and trade for at most 10 of 1000 and at least 3 in return, accepted on a route after which the trader has none of either |
| `TradeBracket.RouteTakesAtMost` | programs/grok_chain_intents/src/instructions/token.rs:163-169 | no accepted route takes more than the exposures from either account, judged by what the trader still owns |
| `TradeBracket.WorstRoute` | programs/grok_chain_intents/src/instructions/token.rs:163-169 | some accepted route takes exactly the exposures from both at once |
| `TradeBracket.DestinationProtectedIff` | programs/grok_chain_intents/src/policy.rs:324-333 | every accepted route leaves the trader at least the floor more at the destination if and only if the floor is positive and the account's owner is fixed, or there was nothing to protect and no floor |
| `TraderAccounts.SharedThenEmptied` | programs/grok_chain_intents/src/instructions/token.rs:161-169 | every completable trade has an accepted route that delivers the floor and takes nothing, yet leaves both accounts open to a delegate, who may then empty them outside the program |
| `TraderAccounts.LeftAloneKept` | programs/grok_chain_intents/src/instructions/call.rs:68-96 | an account nobody else may draw on keeps what it holds over any run with no accepted trade, payment or sweep handed it |
| `MeteringRuns.DeadGrantTakesNothing` | programs/grok_chain_intents/src/instructions/subscription.rs:27-32 | a revoked or expired grant takes and meters nothing over any run |
| `MeteringRuns.PaysOnlyListed` | programs/grok_chain_intents/src/instructions/pay_token.rs:94-102 | a token payment credits only an owner on the allowlist at that step and debits only the trader |
| `TokenTrade.FindTraderTokenAccount` | programs/grok_chain_intents/src/instructions/token.rs:235-261 | the first account of the list with that owner and mint, or none |
| `TokenTrade.WrapSolToWsol` | programs/grok_chain_intents/src/instructions/token.rs:263-287 | moves the lamports and syncs the wrapped amount to the account's lamports above its rent, or fails |
| `TokenTrade.Trade` | programs/grok_chain_intents/src/instructions/token.rs:70-210 | the whole trade, snapshots after any wrap, atomically |
| `TradeAcceptance.FirstMatchIff` | programs/grok_chain_intents/src/instructions/token.rs:235-261 | the account found is the first entry of the list that matches mint, owner and token program, and one is found if and only if some entry does |
| `TradeAcceptance.WrapAcceptedIff` | programs/grok_chain_intents/src/instructions/token.rs:136-150 | a wrap is accepted if and only if the trader keeps its own rent after it and the wrapped account ends within range and no lower than its amount; the trader is down by exactly the amount and the account holds its lamports above its rent |
| `TradeAcceptance.TradeOpenedIff` | programs/grok_chain_intents/src/instructions/token.rs:70-150 | a trade reaches its route if and only if the request is in order, the data names the amount, both accounts are in the list, the grant has room for the SOL that goes in, and any wrap leaves the trader its rent |
| `TradeAcceptance.TradeOpenedWrites` | programs/grok_chain_intents/src/instructions/token.rs:117-155 | by then it has measured the first match of each mint and written the grant and the wrap alone: without a wrap no lamports have moved |
| `TradeAcceptance.TradeAcceptedIff` | programs/grok_chain_intents/src/instructions/token.rs:152-210 | it is then accepted exactly for the routes the runtime allows that leave the two accounts within the bounds, if the sponsorship can be paid after them |
| `TradeAcceptance.TraderAfterTrade` | programs/grok_chain_intents/src/policy.rs:579-592 | before the route an accepted trade left the trader its balance less the wrap, and at least its rent; after it, that plus what the route moved |
| `TokenLedger.PayTokenDelivers` | programs/grok_chain_intents/src/instructions/pay_token.rs:80-167 | an accepted payment names a listed owner in the pinned mint and meters exactly the amount; between two accounts it delivers exactly that, and on one account, which takes the trader on the list, it moves nothing |
| `TokenLedger.PayTokenDeliversIff` | programs/grok_chain_intents/src/instructions/pay_token.rs:94-102 | every accepted destination receives exactly the amount if and only if the trader is not on the allowlist |
| `TokenLedger.PayToken` | programs/grok_chain_intents/src/instructions/pay_token.rs:68-191 | checks, metering, transfer and reimbursement, atomically |
| `Acceptance.PayTokenAcceptedIff` | programs/grok_chain_intents/src/instructions/pay_token.rs:68-191 | a token payment is accepted if and only if it is positive, in the pinned mint with its decimals, from an account of the trader that holds it to a listed owner's, the grant has room, and the sponsorship can be paid after it |
| `TokenLedger.TransferKeepsSupply` | programs/grok_chain_intents/src/instructions/pay_token.rs:147-167 | a transfer preserves every mint's total |
| `TokenLedger.TransferKeepsSurplus` | programs/grok_chain_intents/src/instructions/pay_token.rs:147-167 | a transfer of wrapped SOL carries its lamports along: no account's lamports beyond rent and amount change |
| `Containment.PaymentsWithinCap` | programs/grok_chain_intents/src/instructions/merchants.rs:18-20 | over any run in which the agent's intents are token payments, they cost the trader, over all its accounts, no more of any mint than the grant recorded and the cap had left |
| `Containment.PaymentsGoToListed` | programs/grok_chain_intents/src/instructions/merchants.rs:18-20 | and each of them leaves the vault alone and enriches nobody but an owner on the list at that step |
| `Containment.TradeNotContained` | programs/grok_chain_intents/src/instructions/merchants.rs:18-20 | a trade of a non-SOL token meters nothing, and some accepted route of it gives all the source holds to any chosen owner |
| `PumpTrader.SweepExactly` | programs/grok_chain_intents/src/instructions/pump_trader.rs:133-144 | for any list of pairs with any repeats, every source ends at zero, each destination gains exactly the holdings of the distinct sources first paired with it, and nothing else changes |
| `PumpTrader.WithdrawExactly` | programs/grok_chain_intents/src/instructions/pump_trader.rs:94-153 | a successful withdrawal pays the root the lamports asked for, keeps the trader's rent, sweeps the pairs with every mint's total preserved, and moves no lamports beyond those of the wrapped SOL swept |
| `SweepAcceptance.SweepAcceptedIff` | programs/grok_chain_intents/src/instructions/pump_trader.rs:133-218 | for any list of pairs with any repeats, the sweep is accepted if and only if, on the accounts before the first pair, every pair is the trader's and the root's of one mint and program, wrapped SOL holds the lamports of its amount, and no destination overflows with all it receives |
| `SweepAcceptance.WithdrawAcceptedIff` | programs/grok_chain_intents/src/instructions/pump_trader.rs:94-153 | a withdrawal is accepted if and only if the root signs, the list is even, the trader is ready and keeps its rent, and the pairs then fit |
| `PumpTrader.SweepTokenPair` | programs/grok_chain_intents/src/instructions/pump_trader.rs:171-218 | exact effect of one pair, or the exact error |
| `PumpTrader.WithdrawPumpTrader` | programs/grok_chain_intents/src/instructions/pump_trader.rs:94-153 | lamports then pairs in order, atomically |
| `PumpTrader.InitPumpTrader` | programs/grok_chain_intents/src/instructions/pump_trader.rs:31-65 | creates the trader with its rent, once |
| `PumpTrader.FundPumpTrader` | programs/grok_chain_intents/src/instructions/pump_trader.rs:69-85 | exact funding from the vault above its floor |
| `Acceptance.InitTraderAcceptedIff` | programs/grok_chain_intents/src/instructions/pump_trader.rs:31-65 | the trader is created if and only if the root signs and pays, and the address holds nothing |
| `Acceptance.FundTraderAcceptedIff` | programs/grok_chain_intents/src/instructions/pump_trader.rs:69-85 | funding is accepted if and only if it is positive, the trader is ready and the vault keeps its rent; both balances afterwards |
| `Merchants.AddRefinesInsert` | programs/grok_chain_intents/src/instructions/merchants.rs:49-59 | add is set insertion, accepted exactly when new and not full, and keeps the list well-formed |
| `Merchants.RemoveRefinesDelete` | programs/grok_chain_intents/src/instructions/merchants.rs:74-81 | remove is set deletion, accepted exactly when listed, and keeps the list well-formed |
| `Merchants.AddRemoveRestores` | programs/grok_chain_intents/src/instructions/merchants.rs:49-81 | add then remove restores the exact list |
| `SettlementRuns.RegistryAlwaysFits` | programs/grok_chain_intents/src/state.rs:174-176 | in every reachable state the list is duplicate-free, has at most 32 entries and fits its account |
| `Merchants.InitRegistry` | programs/grok_chain_intents/src/instructions/merchants.rs:32-47 | an empty list pinned to one mint, once |
| `Merchants.AddMerchant` | programs/grok_chain_intents/src/instructions/merchants.rs:49-69 | exact append, or the exact error |
| `Merchants.RemoveMerchant` | programs/grok_chain_intents/src/instructions/merchants.rs:74-91 | exact removal, or the exact error |
| `Acceptance.InitRegistryAcceptedIff` | programs/grok_chain_intents/src/instructions/merchants.rs:32-47 | the root opens the list once, empty, with the mint given |
| `Acceptance.AddMerchantAcceptedIff` | programs/grok_chain_intents/src/instructions/merchants.rs:49-69 | an add is accepted if and only if the root signs, there is room for one more and the merchant is new; it goes last |
| `Acceptance.RemoveMerchantAcceptedIff` | programs/grok_chain_intents/src/instructions/merchants.rs:74-91 | a removal is accepted if and only if the root signs and the merchant is listed; the entry goes and the others keep their order |
| `PumpCreate.CreateV2ReadsBack` | programs/grok_chain_intents/src/constants.rs:137-165 | for all accepted strings the encoded data passes the program's own check and reads back as exactly what was encoded |
| `PumpCreate.StringReadsBackIff` | programs/grok_chain_intents/src/constants.rs:137-143 | a Borsh string reads back, with what follows untouched, if and only if its byte length fits 32 bits |
| `PumpCreate.CreateV2Injective` | programs/grok_chain_intents/src/constants.rs:148-165 | two accepted inputs encode alike only if equal |
| `PumpCreate.Utf8RoundTrip` | programs/grok_chain_intents/src/constants.rs:138 | the UTF-8 form of any string decodes to it |
| `PumpCreate.EncodePumpCreateV2` | programs/grok_chain_intents/src/constants.rs:148-165 | the appending encoder produces the specified bytes |

## Left out

- No instruction of the source calls walk and commit yet (`docs/SUB_GRANTS.md:121-125`); `SpendSubGrant` is their composition as the comments in `sub_grant.rs` intend.
- CORE itself: its `check_grant` is the contract the repository documents for it, and in `Machine` a grant once given is only metered or revoked. Renewing a grant is modelled only as something `CoreWrite` may do to the table sub-grants read. CORE's program allowlist is not modelled.
- Anchor account plumbing: discriminators, bumps, rent for registry, subscription and sub-grant accounts, events and error numbers.
- The token programs, system program, Jupiter and pump.fun: transfers are plain moves, delegates and close authorities are one flag, and routes are arbitrary. Of Token-2022's extensions only `ImmutableOwner` is there.
- The runtime may abort a `call` that mixes a raw debit with an inner invoke; the model lets it through, so what is proved holds of fewer real runs, not more.
- The account metas `build_jupiter_ix` assembles; that the route signs as the trader is part of what an inner program may do.
- `pump.rs` and `pump_amm.rs`: account-index and address equality lists around a foreign call.
- `deploy.rs` and `sponsor_fee.rs`: a grant check with an event, and a burn with a read-back.
- The trader's native lamports and its other token accounts during a Jupiter route: the code does not bound them.
- A route that reassigns the trader address to a program other than the token programs: the trader is taken to be system-owned unless it has become a token account.
- What opening and closing a token account does to lamports, beyond the transfers foreign code may make.
- Raw byte layouts of token accounts and mints: they are records.
