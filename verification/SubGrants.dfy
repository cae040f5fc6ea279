/** Delegated authority: an agent issues sub-grants out of its own budget
    (instructions/sub_grant.rs). Accounts are a table keyed by address; every operation is
    an imperative method of `SubGrantAccounts` proved against a function on `Tree` values. */
module SubGrants {
  import opened Runtime

  const MAX_SUB_DEPTH: u8 := 3

  datatype SubGrant = SubGrant(
    grokAccount: Key,
    parent: Key,
    issuer: Key,
    agent: Key,
    cap: u64,
    spent: u64,
    expiresAt: i64,
    revoked: bool,
    depth: u8,
    generation: u32)

  /** The fields of a CORE grant that issuing reads. CORE owns the account and may write
      anything there; this program never writes it. */
  datatype CoreGrant = CoreGrant(
    grokAccount: Key, agent: Key, cap: u64, spent: u64, expiresAt: i64, revoked: bool)

  /** One metered spend, recorded under the sub-grant that spent it. */
  datatype Spending = Spending(leaf: Key, amount: u64)

  type Nodes = map<Key, SubGrant>
  type CoreTable = map<Key, CoreGrant>

  /** `core` is CORE's, and only read. `journal` is history kept for the specification; the
      program stores only `nodes`. */
  datatype Tree = Tree(nodes: Nodes, core: CoreTable, now: i64, journal: seq<Spending>)

  /** `grant` is the address of the CORE grant the caller presents. */
  datatype IssueRequest = IssueRequest(
    issuer: Signer, root: Key, grant: Key, parent: Option<Key>,
    agent: Key, cap: u64, expiresAt: i64)

  /** A chain account: its address and the data deserialised from it. */
  datatype ChainNode = ChainNode(key: Key, data: SubGrant)

  /** What a new sub-grant hangs from. */
  datatype Attachment = Attachment(depth: u8, parent: Key, headroom: u64, expiresAt: i64)

  // ----- Specification of the instructions -----

  function AttachmentOf(t: Tree, req: IssueRequest): Result<Attachment>
    requires req.grant in t.core && (req.parent.Some? ==> req.parent.value in t.nodes)
  {
    match req.parent
    case Some(key) =>
      var parent := t.nodes[key];
      var _ :- Require(parent.agent == req.issuer, SubGrantNotIssuer);
      var _ :- Require(!parent.revoked, SubGrantParentRevoked);
      var _ :- Require(parent.expiresAt > t.now, SubGrantParentExpired);
      if parent.depth >= MAX_SUB_DEPTH then Err(SubGrantTooDeep) else
      Ok(Attachment(parent.depth + 1, key, SaturatingSub(parent.cap, parent.spent), parent.expiresAt))
    case None =>
      var core := t.core[req.grant];
      var _ :- Require(core.agent == req.issuer, SubGrantNotIssuer);
      Ok(Attachment(1, Default, SaturatingSub(core.cap, core.spent), core.expiresAt))
  }

  function NewAddress(req: IssueRequest): Key {
    SubGrantPda(GrokAccountPda(req.root), req.agent)
  }

  /** The accounts named by an issue exist, the new one does not, and the CORE grant is the
      account's own. */
  function IssueAccounts(t: Tree, req: IssueRequest): Result<()> {
    if req.grant !in t.core || (req.parent.Some? && req.parent.value !in t.nodes) then Err(AccountNotInitialized) else
    var core := t.core[req.grant];
    var _ :- Require(NewAddress(req) !in t.nodes, AccountInUse);
    var _ :- Require(req.grant == GrantPda(GrokAccountPda(req.root), core.agent), ConstraintSeeds);
    Require(core.grokAccount == GrokAccountPda(req.root), GrokAccountMismatch)
  }

  function Issued(t: Tree, req: IssueRequest): Result<Tree> {
    var _ :- IssueAccounts(t, req);
    var core := t.core[req.grant];
    var _ :- Require(req.cap > 0, ZeroAmount);
    var _ :- Require(req.agent != req.issuer, SubGrantSelfIssue);
    var _ :- Require(req.expiresAt > t.now, SubGrantExpiryInPast);
    var _ :- Require(!core.revoked, SubGrantParentRevoked);
    var _ :- Require(core.expiresAt > t.now, SubGrantParentExpired);
    var at :- AttachmentOf(t, req);
    var _ :- Require(req.cap <= at.headroom, SubGrantExceedsParent);
    var _ :- Require(req.expiresAt <= at.expiresAt, SubGrantOutlivesParent);
    Ok(t.(nodes := t.nodes[NewAddress(req) := SubGrant(
      GrokAccountPda(req.root), at.parent, req.issuer, req.agent, req.cap, 0, req.expiresAt, false, at.depth, 1)]))
  }

  /** The account constraints shared by revise and revoke: the sub-grant belongs to `root`'s
      account and the signer is its issuer or that root. */
  function Manageable(t: Tree, authority: Signer, root: Key, key: Key): Result<SubGrant> {
    if key !in t.nodes then Err(AccountNotInitialized) else
    var sg := t.nodes[key];
    var _ :- Require(key == SubGrantPda(GrokAccountPda(root), sg.agent), ConstraintSeeds);
    var _ :- Require(sg.grokAccount == GrokAccountPda(root), GrokAccountMismatch);
    var _ :- Require(sg.issuer == authority || root == authority, SubGrantNotIssuer);
    Ok(sg)
  }

  function Revised(t: Tree, authority: Signer, root: Key, key: Key, cap: u64, expiresAt: i64): Result<Tree> {
    var sg :- Manageable(t, authority, root, key);
    var _ :- Require(cap <= sg.cap, SubGrantCannotWiden);
    var _ :- Require(cap >= sg.spent, SubGrantCapBelowSpent);
    var _ :- Require(expiresAt <= sg.expiresAt, SubGrantCannotWiden);
    Ok(t.(nodes := t.nodes[key := sg.(cap := cap, expiresAt := expiresAt)]))
  }

  function Revoked(t: Tree, authority: Signer, root: Key, key: Key): Result<Tree> {
    var sg :- Manageable(t, authority, root, key);
    var _ :- Require(!sg.revoked, SubGrantAlreadyRevoked);
    var generation := if sg.generation == U32_MAX then U32_MAX else sg.generation + 1;
    Ok(t.(nodes := t.nodes[key := sg.(revoked := true, generation := generation)]))
  }

  /** The checks of the walk at position `i`, in the order they are made. */
  function CheckNode(chain: seq<ChainNode>, i: nat, spender: Key, amount: u64, now: i64): Result<()>
    requires i < |chain|
  {
    var sg := chain[i].data;
    var _ :- Require(!sg.revoked, SubGrantRevoked);
    var _ :- Require(sg.expiresAt > now, SubGrantExpired);
    var _ :- Require(SaturatingSub(sg.cap, sg.spent) >= amount, SubGrantCapExceeded);
    var _ :- if i == 0 then Require(sg.agent == spender, SubGrantNotHolder)
             else Require(chain[i - 1].data.parent == chain[i].key, SubGrantChainBroken);
    if i == |chain| - 1 then Require(sg.parent == Default, SubGrantChainTruncated) else Ok(())
  }

  /** The first failure among positions `0..n`, if any. */
  function Checked(chain: seq<ChainNode>, n: nat, spender: Key, amount: u64, now: i64): Result<()>
    requires n <= |chain|
  {
    if n == 0 then Ok(()) else
    var _ :- Checked(chain, n - 1, spender, amount, now);
    CheckNode(chain, n - 1, spender, amount, now)
  }

  function Walked(chain: seq<ChainNode>, spender: Key, amount: u64, now: i64): Result<()> {
    var _ :- Require(chain != [], SubGrantChainEmpty);
    var _ :- Require(|chain| <= MAX_SUB_DEPTH, SubGrantTooDeep);
    Checked(chain, |chain|, spender, amount, now)
  }

  /** Nodes after the first `n` write-backs: each writes the chain's own copy of the data. */
  function Committed(nodes: Nodes, chain: seq<ChainNode>, n: nat, amount: u64): Result<Nodes>
    requires n <= |chain|
  {
    if n == 0 then Ok(nodes) else
    var before :- Committed(nodes, chain, n - 1, amount);
    var node := chain[n - 1];
    if node.data.spent + amount > U64_MAX then Err(SubGrantCapExceeded) else
    Ok(before[node.key := node.data.(spent := node.data.spent + amount)])
  }

  function Loaded(nodes: Nodes, keys: seq<Key>): (chain: seq<ChainNode>)
    requires forall key <- keys :: key in nodes
    ensures |chain| == |keys|
    ensures forall i :: 0 <= i < |keys| ==> chain[i] == ChainNode(keys[i], nodes[keys[i]])
  {
    seq(|keys|, i requires 0 <= i < |keys| => ChainNode(keys[i], nodes[keys[i]]))
  }

  /** A spend: load the accounts the caller passed, walk, and only then commit. */
  function Spent(t: Tree, spender: Signer, keys: seq<Key>, amount: u64): Result<Tree> {
    if !forall key <- keys :: key in t.nodes then Err(AccountNotInitialized) else
    var chain := Loaded(t.nodes, keys);
    var _ :- Walked(chain, spender, amount, t.now);
    var nodes :- Committed(t.nodes, chain, |chain|, amount);
    Ok(t.(nodes := nodes, journal := t.journal + [Spending(keys[0], amount)]))
  }

  function Ticked(t: Tree, to: i64): Result<Tree> {
    var _ :- Require(to >= t.now, ClockWentBack);
    Ok(t.(now := to))
  }

  // ----- Runs -----

  datatype Step =
    | Issue(req: IssueRequest)
    | Revise(authority: Signer, root: Key, key: Key, cap: u64, expiresAt: i64)
    | Revoke(authority: Signer, root: Key, key: Key)
    | Spend(spender: Signer, keys: seq<Key>, amount: u64)
    | Tick(to: i64)
    | CoreWrite(at: Key, record: CoreGrant)

  function Attempt(t: Tree, s: Step): Result<Tree> {
    match s
    case Issue(req) => Issued(t, req)
    case Revise(authority, root, key, cap, expiresAt) => Revised(t, authority, root, key, cap, expiresAt)
    case Revoke(authority, root, key) => Revoked(t, authority, root, key)
    case Spend(spender, keys, amount) => Spent(t, spender, keys, amount)
    case Tick(to) => Ticked(t, to)
    case CoreWrite(at, record) => Ok(t.(core := t.core[at := record]))
  }

  function Next(t: Tree, s: Step): Tree {
    After(Attempt(t, s), t)
  }

  /** The state after a log of attempts by anyone, in any order. */
  function Run(t: Tree, steps: seq<Step>): Tree
    decreases |steps|
  {
    if steps == [] then t else Run(Next(t, steps[0]), steps[1..])
  }

  // ----- The program -----

  /** The checking loop: it reads the chain and writes nothing. */
  method WalkAndMeter(chain: seq<ChainNode>, spender: Key, amount: u64, now: i64) returns (r: Result<()>)
    ensures r == Walked(chain, spender, amount, now)
  {
    if chain == [] { return Err(SubGrantChainEmpty); }
    if |chain| > MAX_SUB_DEPTH { return Err(SubGrantTooDeep); }
    for i := 0 to |chain|
      invariant Checked(chain, i, spender, amount, now).Ok?
    {
      r := CheckChainNode(chain, i, spender, amount, now);
      if r.Err? {
        CheckedStops(chain, i, |chain|, spender, amount, now);
        return;
      }
    }
    return Ok(());
  }

  method CheckChainNode(chain: seq<ChainNode>, i: nat, spender: Key, amount: u64, now: i64) returns (r: Result<()>)
    requires i < |chain|
    ensures r == CheckNode(chain, i, spender, amount, now)
  {
    var sg := chain[i].data;
    if sg.revoked { return Err(SubGrantRevoked); }
    if sg.expiresAt <= now { return Err(SubGrantExpired); }
    if SaturatingSub(sg.cap, sg.spent) < amount { return Err(SubGrantCapExceeded); }
    if i == 0 {
      if sg.agent != spender { return Err(SubGrantNotHolder); }
    } else if chain[i - 1].data.parent != chain[i].key {
      return Err(SubGrantChainBroken);
    }
    if i == |chain| - 1 && sg.parent != Default { return Err(SubGrantChainTruncated); }
    return Ok(());
  }

  lemma {:induction false} CheckedStops(chain: seq<ChainNode>, i: nat, n: nat, spender: Key, amount: u64, now: i64)
    requires i < n <= |chain|
    requires Checked(chain, i, spender, amount, now).Ok?
    requires CheckNode(chain, i, spender, amount, now).Err?
    ensures Checked(chain, n, spender, amount, now) == CheckNode(chain, i, spender, amount, now)
  {
    if n > i + 1 {
      CheckedStops(chain, i, n - 1, spender, amount, now);
    }
  }

  class SubGrantAccounts {
    var nodes: Nodes
    var core: CoreTable
    var now: i64
    ghost var journal: seq<Spending>

    ghost function State(): Tree
      reads this
    {
      Tree(nodes, core, now, journal)
    }

    constructor (core: CoreTable, now: i64)
      ensures State() == Tree(map[], core, now, [])
    {
      nodes, this.core, this.now, journal := map[], core, now, [];
    }

    method IssueSubGrant(req: IssueRequest) returns (r: Result<()>)
      modifies this
      ensures Atomic(Issued(old(State()), req), old(State()), State(), r)
    {
      var grok := GrokAccountPda(req.root);
      var address := SubGrantPda(grok, req.agent);
      if req.grant !in core { return Err(AccountNotInitialized); }
      if req.parent.Some? && req.parent.value !in nodes { return Err(AccountNotInitialized); }
      if address in nodes { return Err(AccountInUse); }
      var coreGrant := core[req.grant];
      if req.grant != GrantPda(grok, coreGrant.agent) { return Err(ConstraintSeeds); }
      if coreGrant.grokAccount != grok { return Err(GrokAccountMismatch); }
      if req.cap == 0 { return Err(ZeroAmount); }
      if req.agent == req.issuer { return Err(SubGrantSelfIssue); }
      if req.expiresAt <= now { return Err(SubGrantExpiryInPast); }
      if coreGrant.revoked { return Err(SubGrantParentRevoked); }
      if coreGrant.expiresAt <= now { return Err(SubGrantParentExpired); }
      var depth: u8, parentKey, headroom: u64, parentExpiry: i64;
      if req.parent.Some? {
        var parent := nodes[req.parent.value];
        if parent.agent != req.issuer { return Err(SubGrantNotIssuer); }
        if parent.revoked { return Err(SubGrantParentRevoked); }
        if parent.expiresAt <= now { return Err(SubGrantParentExpired); }
        if parent.depth >= MAX_SUB_DEPTH { return Err(SubGrantTooDeep); }
        depth, parentKey := parent.depth + 1, req.parent.value;
        headroom, parentExpiry := SaturatingSub(parent.cap, parent.spent), parent.expiresAt;
      } else {
        if coreGrant.agent != req.issuer { return Err(SubGrantNotIssuer); }
        depth, parentKey := 1, Default;
        headroom, parentExpiry := SaturatingSub(coreGrant.cap, coreGrant.spent), coreGrant.expiresAt;
      }
      if req.cap > headroom { return Err(SubGrantExceedsParent); }
      if req.expiresAt > parentExpiry { return Err(SubGrantOutlivesParent); }
      nodes := nodes[address := SubGrant(
        grok, parentKey, req.issuer, req.agent, req.cap, 0, req.expiresAt, false, depth, 1)];
      return Ok(());
    }

    method ReviseSubGrant(authority: Signer, root: Key, key: Key, cap: u64, expiresAt: i64) returns (r: Result<()>)
      modifies this
      ensures Atomic(Revised(old(State()), authority, root, key, cap, expiresAt), old(State()), State(), r)
    {
      var managed := Manageable(Tree(nodes, core, now, []), authority, root, key);
      if managed.Err? { return Err(managed.error); }
      var sg := managed.value;
      if cap > sg.cap { return Err(SubGrantCannotWiden); }
      if cap < sg.spent { return Err(SubGrantCapBelowSpent); }
      if expiresAt > sg.expiresAt { return Err(SubGrantCannotWiden); }
      nodes := nodes[key := nodes[key].(cap := cap)];
      nodes := nodes[key := nodes[key].(expiresAt := expiresAt)];
      return Ok(());
    }

    method RevokeSubGrant(authority: Signer, root: Key, key: Key) returns (r: Result<()>)
      modifies this
      ensures Atomic(Revoked(old(State()), authority, root, key), old(State()), State(), r)
    {
      var managed := Manageable(Tree(nodes, core, now, []), authority, root, key);
      if managed.Err? { return Err(managed.error); }
      var sg := managed.value;
      if sg.revoked { return Err(SubGrantAlreadyRevoked); }
      nodes := nodes[key := nodes[key].(revoked := true)];
      nodes := nodes[key := nodes[key].(generation := if sg.generation == U32_MAX then U32_MAX else sg.generation + 1)];
      return Ok(());
    }

    /** Meters every node of the chain and writes each back. A failure part-way leaves the
        earlier writes in place: only the caller's checks rule that out. */
    method CommitMeter(chain: array<ChainNode>, amount: u64) returns (r: Result<()>)
      modifies this`nodes, chain
      ensures var spec := Committed(old(nodes), old(chain[..]), chain.Length, amount);
              match spec case Ok(after) => r == Ok(()) && nodes == after case Err(e) => r == Err(e)
    {
      for i := 0 to chain.Length
        invariant Committed(old(nodes), old(chain[..]), i, amount) == Ok(nodes)
        invariant forall j :: i <= j < chain.Length ==> chain[j] == old(chain[j])
      {
        if chain[i].data.spent + amount > U64_MAX {
          CommitStops(old(nodes), old(chain[..]), i, chain.Length, amount);
          return Err(SubGrantCapExceeded);
        }
        chain[i] := chain[i].(data := chain[i].data.(spent := chain[i].data.spent + amount));
        nodes := nodes[chain[i].key := chain[i].data];
      }
      return Ok(());
    }

    method SpendSubGrant(spender: Signer, keys: seq<Key>, amount: u64) returns (r: Result<()>)
      modifies this
      ensures Atomic(Spent(old(State()), spender, keys, amount), old(State()), State(), r)
    {
      if !forall key <- keys :: key in nodes { return Err(AccountNotInitialized); }
      var before := nodes;
      var loaded := Loaded(nodes, keys);
      r := WalkAndMeter(loaded, spender, amount, now);
      if r.Err? { return; }
      var chain := new ChainNode[|loaded|](i requires 0 <= i < |loaded| => loaded[i]);
      assert chain[..] == loaded;
      r := CommitMeter(chain, amount);
      if r.Err? {
        nodes := before;
        return;
      }
      journal := journal + [Spending(keys[0], amount)];
    }

    method AdvanceClock(to: i64) returns (r: Result<()>)
      modifies this
      ensures Atomic(Ticked(old(State()), to), old(State()), State(), r)
    {
      if to < now { return Err(ClockWentBack); }
      now := to;
      return Ok(());
    }

    /** Something CORE does to one of its grants. */
    method CoreWrites(at: Key, record: CoreGrant)
      modifies this
      ensures State() == old(State()).(core := old(core)[at := record])
    {
      core := core[at := record];
    }
  }

  lemma {:induction false} CommitStops(nodes: Nodes, chain: seq<ChainNode>, i: nat, n: nat, amount: u64)
    requires i < n <= |chain|
    requires Committed(nodes, chain, i, amount).Ok?
    requires chain[i].data.spent + amount > U64_MAX
    ensures Committed(nodes, chain, n, amount) == Err(SubGrantCapExceeded)
  {
    if n > i + 1 {
      CommitStops(nodes, chain, i, n - 1, amount);
    }
  }

  // ----- Shape of the tree -----

  /** Every node sits one level below an existing parent, whose holder issued it, or at depth 1
      with none. */
  ghost predicate Rooted(nodes: Nodes) {
    && Default !in nodes
    && forall k {:trigger Placed(nodes, k)} :: k in nodes ==> Placed(nodes, k)
  }

  ghost predicate Placed(nodes: Nodes, k: Key)
    requires k in nodes
  {
    var sg := nodes[k];
    && 1 <= sg.depth <= MAX_SUB_DEPTH
    && k == SubGrantPda(sg.grokAccount, sg.agent)
    && sg.grokAccount.GrokAccountPda? && sg.issuer.External?
    && (if sg.depth == 1 then sg.parent == Default
        else && sg.parent in nodes && nodes[sg.parent].depth == sg.depth - 1
             && nodes[sg.parent].agent == sg.issuer)
  }

  /** The addresses from `k` up to the top of its tree. */
  ghost function Path(nodes: Nodes, k: Key): (path: seq<Key>)
    requires Rooted(nodes) && k in nodes
    ensures path != [] && path[0] == k && |path| == nodes[k].depth
    decreases if k in nodes then nodes[k].depth else 0
  {
    assert Placed(nodes, k);
    if nodes[k].depth == 1 then [k] else [k] + Path(nodes, nodes[k].parent)
  }

  /** `a` is `k` or one of its ancestors: `k` lies in the subtree of `a`. */
  ghost predicate Above(nodes: Nodes, a: Key, k: Key)
    requires Rooted(nodes) && k in nodes
  {
    a in Path(nodes, k)
  }

  /** Everything ever spent in the subtree of `a`, whoever spent it. */
  ghost function SubtreeSpending(nodes: Nodes, journal: seq<Spending>, a: Key): nat
    requires Rooted(nodes) && forall e <- journal :: e.leaf in nodes
  {
    if journal == [] then 0 else
    var last := journal[|journal| - 1];
    SubtreeSpending(nodes, journal[..|journal| - 1], a) + if Above(nodes, a, last.leaf) then last.amount else 0
  }

  ghost predicate Valid(t: Tree) {
    && Rooted(t.nodes)
    && (forall e <- t.journal :: e.leaf in t.nodes)
    && forall k <- t.nodes ::
         t.nodes[k].spent == SubtreeSpending(t.nodes, t.journal, k) <= t.nodes[k].cap
  }

  /** The `i`-th address of a path: a node `i` levels up, whose own path is what remains. */
  lemma {:induction false} PathAt(nodes: Nodes, k: Key, i: nat)
    requires Rooted(nodes) && k in nodes && i < nodes[k].depth
    ensures var path := Path(nodes, k);
      path[i] in nodes && nodes[path[i]].depth == |path| - i && Path(nodes, path[i]) == path[i..]
    decreases i
  {
    assert Placed(nodes, k);
    if i > 0 {
      var up := nodes[k].parent;
      PathAt(nodes, up, i - 1);
      assert Path(nodes, k)[i..] == Path(nodes, up)[i - 1..];
    }
  }

  /** Consecutive links of a path, which ends at the top of the tree. */
  lemma PathLink(nodes: Nodes, k: Key, i: nat)
    requires Rooted(nodes) && k in nodes && i < nodes[k].depth
    ensures var path := Path(nodes, k);
      path[i] in nodes && nodes[path[i]].parent == if i + 1 < |path| then path[i + 1] else Default
  {
    var path := Path(nodes, k);
    PathAt(nodes, k, i);
    assert Placed(nodes, path[i]);
    if i + 1 < |path| {
      assert path[i..][1] == path[i + 1];
    }
  }

  /** A chain whose links check out is the leaf's true ancestor path: there is no other. */
  lemma {:induction false} LinkedIsPath(nodes: Nodes, keys: seq<Key>)
    requires Rooted(nodes) && keys != [] && forall key <- keys :: key in nodes
    requires forall i :: 0 < i < |keys| ==> nodes[keys[i - 1]].parent == keys[i]
    requires nodes[keys[|keys| - 1]].parent == Default
    ensures keys == Path(nodes, keys[0])
  {
    assert Placed(nodes, keys[0]);
    if |keys| > 1 {
      var rest := keys[1..];
      assert nodes[keys[0]].parent == rest[0];
      forall i | 0 < i < |rest| ensures nodes[rest[i - 1]].parent == rest[i] {
        assert nodes[keys[i]].parent == keys[i + 1];
      }
      LinkedIsPath(nodes, rest);
    }
  }

  // ----- Spending -----

  /** No node of `k`'s path is revoked. */
  ghost predicate PathLive(nodes: Nodes, k: Key)
    requires Rooted(nodes) && k in nodes
  {
    forall a <- Path(nodes, k) :: a in nodes && !nodes[a].revoked
  }

  /** The earliest expiry on `k`'s path. */
  ghost function EffectiveExpiry(nodes: Nodes, k: Key): i64
    requires Rooted(nodes) && k in nodes
    decreases if k in nodes then nodes[k].depth else 0
  {
    assert Placed(nodes, k);
    var sg := nodes[k];
    if sg.depth == 1 then sg.expiresAt else
    var above := EffectiveExpiry(nodes, sg.parent);
    if sg.expiresAt <= above then sg.expiresAt else above
  }

  /** The least remaining budget on `k`'s path. */
  ghost function Headroom(nodes: Nodes, k: Key): u64
    requires Rooted(nodes) && k in nodes
    decreases if k in nodes then nodes[k].depth else 0
  {
    assert Placed(nodes, k);
    var sg := nodes[k];
    var own := SaturatingSub(sg.cap, sg.spent);
    if sg.depth == 1 then own else
    var above := Headroom(nodes, sg.parent);
    if own <= above then own else above
  }

  lemma {:induction false} HeadroomBounds(nodes: Nodes, k: Key, amount: u64)
    requires Rooted(nodes) && k in nodes
    ensures amount <= Headroom(nodes, k) <==>
            forall a <- Path(nodes, k) :: a in nodes && amount <= SaturatingSub(nodes[a].cap, nodes[a].spent)
    decreases nodes[k].depth
  {
    assert Placed(nodes, k);
    if nodes[k].depth > 1 {
      HeadroomBounds(nodes, nodes[k].parent, amount);
    }
  }

  lemma {:induction false} ExpiryBounds(nodes: Nodes, k: Key, now: i64)
    requires Rooted(nodes) && k in nodes
    ensures now < EffectiveExpiry(nodes, k) <==>
            forall a <- Path(nodes, k) :: a in nodes && now < nodes[a].expiresAt
    decreases nodes[k].depth
  {
    assert Placed(nodes, k);
    if nodes[k].depth > 1 {
      ExpiryBounds(nodes, nodes[k].parent, now);
    }
  }

  lemma {:induction false} CheckedAll(chain: seq<ChainNode>, n: nat, spender: Key, amount: u64, now: i64)
    requires n <= |chain|
    ensures Checked(chain, n, spender, amount, now).Ok? <==>
            forall i :: 0 <= i < n ==> CheckNode(chain, i, spender, amount, now).Ok?
  {
    if n > 0 {
      CheckedAll(chain, n - 1, spender, amount, now);
    }
  }

  /** What a spend needs: the whole ancestor path of a node the spender holds, live and
      unexpired all the way up, with the amount within the least headroom on it. */
  ghost predicate Spendable(t: Tree, spender: Key, keys: seq<Key>, amount: u64)
    requires Rooted(t.nodes)
  {
    && keys != [] && keys[0] in t.nodes
    && keys == Path(t.nodes, keys[0])
    && t.nodes[keys[0]].agent == spender
    && PathLive(t.nodes, keys[0])
    && t.now < EffectiveExpiry(t.nodes, keys[0])
    && amount <= Headroom(t.nodes, keys[0])
  }

  ghost predicate Affords(sg: SubGrant, amount: u64, now: i64) {
    !sg.revoked && now < sg.expiresAt && amount <= SaturatingSub(sg.cap, sg.spent)
  }

  lemma PathAffords(t: Tree, k: Key, amount: u64)
    requires Rooted(t.nodes) && k in t.nodes
    ensures (PathLive(t.nodes, k) && t.now < EffectiveExpiry(t.nodes, k) && amount <= Headroom(t.nodes, k))
       <==> forall a <- Path(t.nodes, k) :: a in t.nodes && Affords(t.nodes[a], amount, t.now)
  {
    HeadroomBounds(t.nodes, k, amount);
    ExpiryBounds(t.nodes, k, t.now);
  }

  /** What the check of one position establishes, free of the order of the checks. */
  lemma CheckNodeMeans(nodes: Nodes, keys: seq<Key>, i: nat, spender: Key, amount: u64, now: i64)
    requires i < |keys| && forall key <- keys :: key in nodes
    ensures CheckNode(Loaded(nodes, keys), i, spender, amount, now).Ok? <==>
            && Affords(nodes[keys[i]], amount, now)
            && (i == 0 ==> nodes[keys[i]].agent == spender)
            && (i > 0 ==> nodes[keys[i - 1]].parent == keys[i])
            && (i == |keys| - 1 ==> nodes[keys[i]].parent == Default)
  {
    var chain := Loaded(nodes, keys);
    assert chain[i] == ChainNode(keys[i], nodes[keys[i]]);
    if i > 0 { assert chain[i - 1] == ChainNode(keys[i - 1], nodes[keys[i - 1]]); }
  }

  lemma PathLinks(nodes: Nodes, k: Key)
    requires Rooted(nodes) && k in nodes
    ensures var path := Path(nodes, k);
      && (forall a <- path :: a in nodes)
      && (forall i :: 0 < i < |path| ==> nodes[path[i - 1]].parent == path[i])
      && nodes[path[|path| - 1]].parent == Default
  {
    var path := Path(nodes, k);
    assert Placed(nodes, k);
    forall i: nat | i < |path|
      ensures path[i] in nodes && nodes[path[i]].parent == if i + 1 < |path| then path[i + 1] else Default
    {
      PathLink(nodes, k, i);
    }
    PathLink(nodes, k, |path| - 1);
  }

  lemma WalkAcceptsPath(t: Tree, spender: Key, keys: seq<Key>, amount: u64)
    requires Rooted(t.nodes) && forall key <- keys :: key in t.nodes
    requires Spendable(t, spender, keys, amount)
    ensures Walked(Loaded(t.nodes, keys), spender, amount, t.now).Ok?
  {
    PathAffords(t, keys[0], amount);
    assert Placed(t.nodes, keys[0]);
    PathLinks(t.nodes, keys[0]);
    forall i: nat | i < |keys| ensures CheckNode(Loaded(t.nodes, keys), i, spender, amount, t.now).Ok? {
      CheckNodeMeans(t.nodes, keys, i, spender, amount, t.now);
      assert keys[i] in Path(t.nodes, keys[0]);
    }
    CheckedAll(Loaded(t.nodes, keys), |keys|, spender, amount, t.now);
  }

  lemma WalkAcceptsOnlyPath(t: Tree, spender: Key, keys: seq<Key>, amount: u64)
    requires Rooted(t.nodes) && forall key <- keys :: key in t.nodes
    requires Walked(Loaded(t.nodes, keys), spender, amount, t.now).Ok?
    ensures Spendable(t, spender, keys, amount)
  {
    CheckedAll(Loaded(t.nodes, keys), |keys|, spender, amount, t.now);
    forall i: nat | i < |keys|
      ensures Affords(t.nodes[keys[i]], amount, t.now)
      ensures i == 0 ==> t.nodes[keys[i]].agent == spender
      ensures i > 0 ==> t.nodes[keys[i - 1]].parent == keys[i]
      ensures i == |keys| - 1 ==> t.nodes[keys[i]].parent == Default
    {
      CheckNodeMeans(t.nodes, keys, i, spender, amount, t.now);
    }
    LinkedIsPath(t.nodes, keys);
    PathAffords(t, keys[0], amount);
  }

  /** Chain authenticity and the exact power of a sub-grant: the walk accepts a chain if and
      only if it is the leaf's whole ancestor path, held, live and within its headroom. */
  lemma WalkAcceptsExactly(t: Tree, spender: Key, keys: seq<Key>, amount: u64)
    requires Rooted(t.nodes) && forall key <- keys :: key in t.nodes
    ensures Walked(Loaded(t.nodes, keys), spender, amount, t.now).Ok? <==> Spendable(t, spender, keys, amount)
  {
    if Spendable(t, spender, keys, amount) {
      WalkAcceptsPath(t, spender, keys, amount);
    } else if Walked(Loaded(t.nodes, keys), spender, amount, t.now).Ok? {
      WalkAcceptsOnlyPath(t, spender, keys, amount);
    }
  }

  /** `nodes` with `amount` added to the spent of every member of `on`, and nothing else. */
  ghost function Metered(nodes: Nodes, on: seq<Key>, amount: u64): Nodes
    requires forall k <- on :: k in nodes ==> nodes[k].spent + amount <= U64_MAX
  {
    map k <- nodes :: if k in on then nodes[k].(spent := nodes[k].spent + amount) else nodes[k]
  }

  lemma {:induction false} CommitMetersOnce(nodes: Nodes, keys: seq<Key>, n: nat, amount: u64)
    requires n <= |keys| && forall key <- keys :: key in nodes && nodes[key].spent + amount <= U64_MAX
    requires forall i, j :: 0 <= i < j < |keys| ==> keys[i] != keys[j]
    ensures Committed(nodes, Loaded(nodes, keys), n, amount) == Ok(Metered(nodes, keys[..n], amount))
  {
    if n == 0 {
      assert Metered(nodes, [], amount) == nodes;
    } else {
      CommitMetersOnce(nodes, keys, n - 1, amount);
      assert keys[..n] == keys[..n - 1] + [keys[n - 1]];
      var before, k := Metered(nodes, keys[..n - 1], amount), keys[n - 1];
      assert before[k := nodes[k].(spent := nodes[k].spent + amount)] == Metered(nodes, keys[..n], amount);
    }
  }

  lemma PathDistinct(nodes: Nodes, k: Key)
    requires Rooted(nodes) && k in nodes
    ensures forall i, j :: 0 <= i < j < |Path(nodes, k)| ==> Path(nodes, k)[i] != Path(nodes, k)[j]
  {
    forall i, j | 0 <= i < j < |Path(nodes, k)| ensures Path(nodes, k)[i] != Path(nodes, k)[j] {
      PathAt(nodes, k, i);
      PathAt(nodes, k, j);
    }
  }

  /** An accepted walk leaves the commit nothing to fail on: every node of the path, each
      appearing once, goes up by `amount`, and no other account changes. */
  lemma CommitCannotFail(t: Tree, spender: Key, keys: seq<Key>, amount: u64)
    requires Valid(t) && Spendable(t, spender, keys, amount)
    ensures forall k <- keys :: k in t.nodes && t.nodes[k].spent + amount <= t.nodes[k].cap
    ensures Committed(t.nodes, Loaded(t.nodes, keys), |keys|, amount) == Ok(Metered(t.nodes, keys, amount))
  {
    HeadroomBounds(t.nodes, keys[0], amount);
    PathDistinct(t.nodes, keys[0]);
    CommitMetersOnce(t.nodes, keys, |keys|, amount);
    assert keys[..|keys|] == keys;
  }

  /** A spend is all or nothing, and happens exactly when `Spendable` holds. */
  lemma SpendExactly(t: Tree, spender: Signer, keys: seq<Key>, amount: u64)
    requires Valid(t)
    ensures Spent(t, spender, keys, amount).Ok? <==> Spendable(t, spender, keys, amount)
    ensures Spendable(t, spender, keys, amount) ==>
      && (forall k <- keys :: k in t.nodes && t.nodes[k].spent + amount <= t.nodes[k].cap)
      && Next(t, Spend(spender, keys, amount))
         == t.(nodes := Metered(t.nodes, keys, amount), journal := t.journal + [Spending(keys[0], amount)])
    ensures !Spendable(t, spender, keys, amount) ==> Next(t, Spend(spender, keys, amount)) == t
  {
    if Spendable(t, spender, keys, amount) {
      HeadroomBounds(t.nodes, keys[0], amount);
      WalkAcceptsPath(t, spender, keys, amount);
      CommitCannotFail(t, spender, keys, amount);
    } else if forall key <- keys :: key in t.nodes {
      WalkAcceptsExactly(t, spender, keys, amount);
    }
  }
}
