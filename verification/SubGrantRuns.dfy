/** What every run of the delegation program keeps: the subtree ledger, the revocation
    cascade, and authority that only narrows. */
module SubGrantRuns {
  import opened Runtime
  import opened SubGrants

  // ----- One step -----

  /** `b` is a later state of `a` that carries no more authority. */
  ghost predicate NarrowerNode(a: SubGrant, b: SubGrant) {
    && a.parent == b.parent && a.depth == b.depth
    && a.grokAccount == b.grokAccount && a.issuer == b.issuer && a.agent == b.agent
    && b.cap <= a.cap && a.spent <= b.spent
    && b.expiresAt <= a.expiresAt
    && (a.revoked ==> b.revoked)
  }

  ghost predicate Narrows(before: Nodes, after: Nodes) {
    forall k {:trigger after[k]} {:trigger k in after} :: k in before ==>
      k in after && NarrowerNode(before[k], after[k])
  }

  function SpentOf(t: Tree, k: Key): u64 {
    if k in t.nodes then t.nodes[k].spent else 0
  }

  lemma {:induction false} PathStable(before: Nodes, after: Nodes, k: Key)
    requires Rooted(before) && Rooted(after) && Narrows(before, after) && k in before
    ensures k in after && Path(after, k) == Path(before, k)
    decreases before[k].depth
  {
    assert k in after;
    assert Placed(before, k) && Placed(after, k);
    if before[k].depth > 1 {
      PathStable(before, after, before[k].parent);
    }
  }

  lemma {:induction false} SpendingStable(before: Nodes, after: Nodes, journal: seq<Spending>, a: Key)
    requires Rooted(before) && Rooted(after) && Narrows(before, after)
    requires forall e <- journal :: e.leaf in before
    ensures forall e <- journal :: e.leaf in after
    ensures SubtreeSpending(after, journal, a) == SubtreeSpending(before, journal, a)
  {
    if journal != [] {
      SpendingStable(before, after, journal[..|journal| - 1], a);
      PathStable(before, after, journal[|journal| - 1].leaf);
    }
  }

  /** A node nobody is below has nothing spent below it. */
  lemma {:induction false} NoSpendingBelow(nodes: Nodes, journal: seq<Spending>, a: Key)
    requires Rooted(nodes) && forall e <- journal :: e.leaf in nodes && !Above(nodes, a, e.leaf)
    ensures SubtreeSpending(nodes, journal, a) == 0
  {
    if journal != [] {
      NoSpendingBelow(nodes, journal[..|journal| - 1], a);
    }
  }

  lemma PathInside(nodes: Nodes, k: Key, a: Key)
    requires Rooted(nodes) && k in nodes && Above(nodes, a, k)
    ensures a in nodes
  {
    PathLinks(nodes, k);
  }

  lemma ChangedShape(nodes: Nodes, k: Key, sg: SubGrant)
    requires Rooted(nodes) && k in nodes && NarrowerNode(nodes[k], sg)
    ensures Rooted(nodes[k := sg]) && Narrows(nodes, nodes[k := sg])
  {
    forall j | j in nodes ensures Placed(nodes[k := sg], j) {
      assert Placed(nodes, j);
    }
  }

  lemma AddedShape(nodes: Nodes, k: Key, sg: SubGrant)
    requires Rooted(nodes) && k !in nodes && k != Default
    requires Placed(nodes[k := sg], k) && sg.parent != k
    ensures Rooted(nodes[k := sg]) && Narrows(nodes, nodes[k := sg])
  {
    forall j | j in nodes ensures Placed(nodes[k := sg], j) {
      assert Placed(nodes, j);
    }
  }

  lemma MeteredShape(nodes: Nodes, on: seq<Key>, amount: u64)
    requires Rooted(nodes) && forall k <- on :: k in nodes && nodes[k].spent + amount <= U64_MAX
    ensures Rooted(Metered(nodes, on, amount)) && Narrows(nodes, Metered(nodes, on, amount))
  {
    forall j | j in nodes ensures Placed(Metered(nodes, on, amount), j) {
      assert Placed(nodes, j);
    }
  }

  lemma IssuedShape(t: Tree, req: IssueRequest)
    requires Rooted(t.nodes) && Issued(t, req).Ok?
    ensures Rooted(Issued(t, req).value.nodes) && Narrows(t.nodes, Issued(t, req).value.nodes)
  {
    var k := NewAddress(req);
    if req.parent.Some? { assert Placed(t.nodes, req.parent.value); }
    AddedShape(t.nodes, k, Issued(t, req).value.nodes[k]);
  }

  lemma StepShape(t: Tree, s: Step)
    requires Valid(t)
    ensures Rooted(Next(t, s).nodes) && Narrows(t.nodes, Next(t, s).nodes)
    ensures t.now <= Next(t, s).now
  {
    match s
    case Spend(spender, keys, amount) =>
      SpendExactly(t, spender, keys, amount);
      if Spendable(t, spender, keys, amount) { MeteredShape(t.nodes, keys, amount); }
    case Issue(req) =>
      if Issued(t, req).Ok? { IssuedShape(t, req); }
    case Revise(authority, root, key, cap, expiresAt) =>
      if Revised(t, authority, root, key, cap, expiresAt).Ok? {
        ChangedShape(t.nodes, key, Next(t, s).nodes[key]);
      }
    case Revoke(authority, root, key) =>
      if Revoked(t, authority, root, key).Ok? {
        ChangedShape(t.nodes, key, Next(t, s).nodes[key]);
      }
    case Tick(to) =>
    case CoreWrite(_, _) =>
  }

  /** The ledger survives a step that spends nothing. */
  lemma LedgerUntouched(t: Tree, t': Tree)
    requires Valid(t) && Rooted(t'.nodes) && Narrows(t.nodes, t'.nodes) && t'.journal == t.journal
    requires forall k <- t'.nodes :: t'.nodes[k].spent <= t'.nodes[k].cap
    requires forall k <- t'.nodes :: t'.nodes[k].spent == SpentOf(t, k)
    ensures Valid(t')
  {
    forall k | k in t'.nodes ensures t'.nodes[k].spent == SubtreeSpending(t'.nodes, t'.journal, k)
    {
      SpendingStable(t.nodes, t'.nodes, t.journal, k);
      if k !in t.nodes {
        forall e <- t.journal ensures !Above(t.nodes, k, e.leaf) {
          if Above(t.nodes, k, e.leaf) { PathInside(t.nodes, e.leaf, k); }
        }
        NoSpendingBelow(t.nodes, t.journal, k);
      }
    }
  }

  lemma LedgerSpent(t: Tree, spender: Signer, keys: seq<Key>, amount: u64)
    requires Valid(t) && Spendable(t, spender, keys, amount)
    ensures Valid(Next(t, Spend(spender, keys, amount)))
  {
    SpendExactly(t, spender, keys, amount);
    MeteredShape(t.nodes, keys, amount);
    var t' := Next(t, Spend(spender, keys, amount));
    assert t'.journal[..|t.journal|] == t.journal;
    PathStable(t.nodes, t'.nodes, keys[0]);
    forall k | k in t'.nodes
      ensures t'.nodes[k].spent == SubtreeSpending(t'.nodes, t'.journal, k) <= t'.nodes[k].cap
    {
      SpendingStable(t.nodes, t'.nodes, t.journal, k);
    }
  }

  /** Only a spend moves `spent`, and no step leaves a cap below it. */
  lemma QuietStep(t: Tree, s: Step)
    requires Valid(t) && !s.Spend?
    ensures var t' := Next(t, s);
      && t'.journal == t.journal
      && forall k <- t'.nodes ::
           t'.nodes[k].spent == SpentOf(t, k) && t'.nodes[k].spent <= t'.nodes[k].cap
  {
    var t' := Next(t, s);
    forall k <- t'.nodes ensures t'.nodes[k].spent == SpentOf(t, k) <= t'.nodes[k].cap {
      assert k in t.nodes ==> t.nodes[k].spent <= t.nodes[k].cap;
    }
  }

  lemma StepKeepsValid(t: Tree, s: Step)
    requires Valid(t)
    ensures Valid(Next(t, s))
  {
    if s.Spend? {
      SpendExactly(t, s.spender, s.keys, s.amount);
      if Spendable(t, s.spender, s.keys, s.amount) { LedgerSpent(t, s.spender, s.keys, s.amount); }
    } else {
      StepShape(t, s);
      QuietStep(t, s);
      LedgerUntouched(t, Next(t, s));
    }
  }

  // ----- Whole runs -----

  lemma {:induction false} RunKeepsValid(t: Tree, steps: seq<Step>)
    requires Valid(t)
    ensures Valid(Run(t, steps))
    decreases |steps|
  {
    if steps != [] {
      StepKeepsValid(t, steps[0]);
      RunKeepsValid(Next(t, steps[0]), steps[1..]);
    }
  }

  lemma {:induction false} RunShape(t: Tree, steps: seq<Step>)
    requires Valid(t)
    ensures var t' := Run(t, steps);
      Valid(t') && Narrows(t.nodes, t'.nodes) && t.now <= t'.now
    decreases |steps|
  {
    if steps != [] {
      StepShape(t, steps[0]);
      StepKeepsValid(t, steps[0]);
      RunShape(Next(t, steps[0]), steps[1..]);
    }
  }

  /** The subtree ledger: in every reachable state what a node records as spent is the total
      of all spends made anywhere beneath it, and that total is within the node's own cap,
      whatever the caps below it add up to. */
  lemma SubtreeWithinCap(core: CoreTable, now: i64, steps: seq<Step>, a: Key)
    requires a in Run(Fresh(core, now), steps).nodes
    ensures var t := Run(Fresh(core, now), steps);
      Valid(t) && SubtreeSpending(t.nodes, t.journal, a) == t.nodes[a].spent <= t.nodes[a].cap
  {
    RunShape(Fresh(core, now), steps);
  }

  /** The program before anyone has issued anything. */
  function Fresh(core: CoreTable, now: i64): Tree {
    Tree(map[], core, now, [])
  }

  // ----- The ledger, one generation at a time -----

  ghost function Children(nodes: Nodes, a: Key): set<Key> {
    set k | k in nodes && nodes[k].parent == a
  }

  /** What `a` spent under its own name. */
  ghost function DirectSpending(journal: seq<Spending>, a: Key): nat {
    if journal == [] then 0 else
    var last := journal[|journal| - 1];
    DirectSpending(journal[..|journal| - 1], a) + if last.leaf == a then last.amount else 0
  }

  ghost function SpendingOf(nodes: Nodes, journal: seq<Spending>, keys: set<Key>): map<Key, int>
    requires Rooted(nodes) && forall e <- journal :: e.leaf in nodes
  {
    map k | k in keys :: SubtreeSpending(nodes, journal, k)
  }

  /** Below any node of a path except its leaf there is exactly one child on the path. */
  lemma OneChildOnPath(nodes: Nodes, leaf: Key, a: Key) returns (child: Option<Key>)
    requires Rooted(nodes) && leaf in nodes && a in nodes
    ensures child.Some? <==> Above(nodes, a, leaf) && a != leaf
    ensures forall c <- Children(nodes, a) :: Above(nodes, c, leaf) <==> child == Some(c)
    ensures child.Some? ==> child.value in Children(nodes, a)
  {
    var path := Path(nodes, leaf);
    PathLinks(nodes, leaf);
    PathDistinct(nodes, leaf);
    forall c | c in Children(nodes, a) && c in path
      ensures exists i :: 0 < i < |path| && path[i] == a && path[i - 1] == c
    {
      var j :| 0 <= j < |path| && path[j] == c;
      assert j + 1 < |path|;
      assert path[(j + 1) - 1] == c && path[j + 1] == a;
    }
    if a in path && a != leaf {
      var i :| 0 <= i < |path| && path[i] == a;
      assert path[i - 1] in path;
      return Some(path[i - 1]);
    }
    return None;
  }

  /** Each node's spent is its own spends plus its children's spent. */
  lemma {:induction false} SpendingByGeneration(nodes: Nodes, journal: seq<Spending>, a: Key)
    requires Rooted(nodes) && a in nodes && forall e <- journal :: e.leaf in nodes
    ensures SubtreeSpending(nodes, journal, a)
         == DirectSpending(journal, a) + SumOf(SpendingOf(nodes, journal, Children(nodes, a)))
  {
    var kids := Children(nodes, a);
    if journal == [] {
      ZeroSum(SpendingOf(nodes, journal, kids));
    } else {
      var prefix, last := journal[..|journal| - 1], journal[|journal| - 1];
      SpendingByGeneration(nodes, prefix, a);
      var child := OneChildOnPath(nodes, last.leaf, a);
      var before, after := SpendingOf(nodes, prefix, kids), SpendingOf(nodes, journal, kids);
      if child.Some? {
        RaisedRow(before, after, child.value, last.amount);
      } else {
        assert after == before;
      }
    }
  }

  /** Raising one row raises the sum by as much. */
  lemma RaisedRow(before: map<Key, int>, after: map<Key, int>, row: Key, amount: int)
    requires row in before && after.Keys == before.Keys
    requires forall k <- before :: after[k] == if k == row then before[k] + amount else before[k]
    ensures SumOf(after) == SumOf(before) + amount
  {
    assert after == before[row := before[row] + amount];
    SumUpdate(before, row, before[row] + amount);
  }

  lemma {:induction false} ZeroSum(m: map<Key, int>)
    requires forall k <- m :: m[k] == 0
    ensures SumOf(m) == 0
    decreases m.Keys
  {
    if m != map[] {
      var k :| k in m;
      SumWithout(m, k);
      assert (m - {k}).Keys < m.Keys by { assert k in m.Keys; }
      ZeroSum(m - {k});
    }
  }

  /** The ledger equality of every valid state, stated on the stored fields. */
  lemma SpentByGeneration(t: Tree, a: Key)
    requires Valid(t) && a in t.nodes
    ensures t.nodes[a].spent
         == DirectSpending(t.journal, a) + SumOf(map k | k in Children(t.nodes, a) :: t.nodes[k].spent)
  {
    SpendingByGeneration(t.nodes, t.journal, a);
    assert SpendingOf(t.nodes, t.journal, Children(t.nodes, a))
        == map k | k in Children(t.nodes, a) :: t.nodes[k].spent;
  }

  // ----- Revocation and expiry cascade -----

  ghost predicate Dead(t: Tree, a: Key) {
    a in t.nodes && (t.nodes[a].revoked || t.nodes[a].expiresAt <= t.now)
  }

  lemma AboveTransitive(nodes: Nodes, a: Key, k: Key, leaf: Key)
    requires Rooted(nodes) && leaf in nodes && k in nodes
    requires Above(nodes, k, leaf) && Above(nodes, a, k)
    ensures Above(nodes, a, leaf)
  {
    var path := Path(nodes, leaf);
    var i :| 0 <= i < |path| && path[i] == k;
    PathAt(nodes, leaf, i);
    assert a in path[i..];
  }

  /** No accepted spend passes through the subtree of a dead node. */
  lemma SpendMissesDead(t: Tree, spender: Signer, keys: seq<Key>, amount: u64, a: Key, k: Key)
    requires Valid(t) && Dead(t, a) && Spendable(t, spender, keys, amount)
    requires k in t.nodes && Above(t.nodes, a, k)
    ensures k !in keys
  {
    PathAffords(t, keys[0], amount);
    assert a !in keys;
    if k in keys {
      AboveTransitive(t.nodes, a, k, keys[0]);
    }
  }

  lemma DeadStep(t: Tree, s: Step, a: Key, k: Key)
    requires Valid(t) && Dead(t, a)
    requires Valid(Next(t, s)) && k in Next(t, s).nodes && Above(Next(t, s).nodes, a, k)
    ensures SpentOf(Next(t, s), k) == SpentOf(t, k)
  {
    if s.Spend? {
      SpendExactly(t, s.spender, s.keys, s.amount);
      if Spendable(t, s.spender, s.keys, s.amount) {
        MeteredShape(t.nodes, s.keys, s.amount);
        PathStable(t.nodes, Next(t, s).nodes, k);
        SpendMissesDead(t, s.spender, s.keys, s.amount, a, k);
      }
    } else {
      QuietStep(t, s);
    }
  }

  lemma DeadStays(t: Tree, s: Step, a: Key)
    requires Valid(t) && Dead(t, a)
    ensures Dead(Next(t, s), a)
  {
    StepShape(t, s);
  }

  /** The cascade. Once a node is revoked or has expired, every continuation leaves the spent
      of every node beneath it where it was, and at zero for nodes issued beneath it later.
      Nothing is ever written to those nodes to bring this about. */
  lemma {:induction false} DeadSubtreeFrozen(t: Tree, steps: seq<Step>, a: Key, k: Key)
    requires Valid(t) && Dead(t, a)
    requires Valid(Run(t, steps)) && k in Run(t, steps).nodes && Above(Run(t, steps).nodes, a, k)
    ensures SpentOf(Run(t, steps), k) == SpentOf(t, k)
    decreases |steps|
  {
    if steps != [] {
      var t' := Next(t, steps[0]);
      StepKeepsValid(t, steps[0]);
      DeadStays(t, steps[0], a);
      DeadSubtreeFrozen(t', steps[1..], a, k);
      StepShape(t, steps[0]);
      if k in t'.nodes {
        RunShape(t', steps[1..]);
        PathStable(t'.nodes, Run(t', steps[1..]).nodes, k);
        DeadStep(t, steps[0], a, k);
      }
    }
  }

  /** Pulling a node takes one write: its issuer or the root can always revoke a node not yet
      revoked, and it is dead from then on. */
  lemma RevokeKills(t: Tree, authority: Signer, root: Key, key: Key)
    requires Valid(t) && key in t.nodes && !t.nodes[key].revoked
    requires t.nodes[key].grokAccount == GrokAccountPda(root)
    requires authority == t.nodes[key].issuer || authority == root
    ensures Attempt(t, Revoke(authority, root, key)).Ok?
    ensures var t' := Next(t, Revoke(authority, root, key));
      Dead(t', key) && forall k <- t.nodes :: k != key ==> k in t'.nodes && t'.nodes[k] == t.nodes[k]
  {
    assert Placed(t.nodes, key);
  }

  // ----- Who may do what -----

  /** `signer` issued the node or is the root of its account. */
  ghost predicate Manages(signer: Key, sg: SubGrant) {
    signer == sg.issuer || sg.grokAccount == GrokAccountPda(signer)
  }

  /** `holder` has a CORE grant of account `grok` with time and budget left, at the address CORE
      derives for it: what issuing the first sub-grant takes. */
  predicate Admits(t: Tree, grok: Key, holder: Key) {
    var at := GrantPda(grok, holder);
    && at in t.core && t.core[at].agent == holder && t.core[at].grokAccount == grok
    && holder.External? && grok.GrokAccountPda?
    && !t.core[at].revoked && t.now < t.core[at].expiresAt && t.core[at].spent < t.core[at].cap
  }

  /** A node's terms change only under its issuer's or root's signature, its spent only through
      a spend by the holder of a node in its subtree, and a node appears only beneath one its
      issuer holds, or under its issuer's own live CORE grant of that account. */
  lemma ChangesNeedAuthority(t: Tree, s: Step, k: Key)
    requires Valid(t) && k in Next(t, s).nodes
    ensures var sg := Next(t, s).nodes[k];
      if k !in t.nodes then
        && s.Issue? && sg.issuer == s.req.issuer && sg.agent != sg.issuer
        && (s.req.parent.Some? ==>
              s.req.parent.value in t.nodes && sg.issuer == t.nodes[s.req.parent.value].agent)
        && (s.req.parent.None? ==> Admits(t, sg.grokAccount, sg.issuer))
      else if (sg.cap, sg.expiresAt, sg.revoked) != (t.nodes[k].cap, t.nodes[k].expiresAt, t.nodes[k].revoked) then
        (s.Revise? || s.Revoke?) && s.key == k && Manages(s.authority, t.nodes[k])
      else sg.spent != t.nodes[k].spent ==>
        && s.Spend? && s.keys != [] && s.keys[0] in t.nodes
        && Above(t.nodes, k, s.keys[0]) && t.nodes[s.keys[0]].agent == s.spender
  {
    if s.Spend? {
      SpendExactly(t, s.spender, s.keys, s.amount);
    }
  }

  // ----- Authority only narrows -----

  lemma {:induction false} NarrowerPath(before: Nodes, after: Nodes, k: Key)
    requires Rooted(before) && Rooted(after) && Narrows(before, after) && k in before
    ensures Headroom(after, k) <= Headroom(before, k)
    ensures EffectiveExpiry(after, k) <= EffectiveExpiry(before, k)
    decreases before[k].depth
  {
    assert k in after;
    assert Placed(before, k) && Placed(after, k);
    if before[k].depth > 1 {
      NarrowerPath(before, after, before[k].parent);
    }
  }

  /** Along any run an existing node's headroom and expiry never grow, and a path once broken
      by a revocation never heals. */
  lemma AuthorityNeverGrows(t: Tree, steps: seq<Step>, k: Key)
    requires Valid(t) && k in t.nodes
    ensures var t' := Run(t, steps);
      && Valid(t') && k in t'.nodes
      && Path(t'.nodes, k) == Path(t.nodes, k)
      && Headroom(t'.nodes, k) <= Headroom(t.nodes, k)
      && EffectiveExpiry(t'.nodes, k) <= EffectiveExpiry(t.nodes, k)
      && (PathLive(t'.nodes, k) ==> PathLive(t.nodes, k))
  {
    RunShape(t, steps);
    PathStable(t.nodes, Run(t, steps).nodes, k);
    NarrowerPath(t.nodes, Run(t, steps).nodes, k);
    PathLinks(t.nodes, k);
  }

  /** What an accepted issue adds, and where. */
  lemma IssuedEffect(t: Tree, req: IssueRequest)
    requires Issued(t, req).Ok?
    ensures var t', k := Next(t, Issue(req)), NewAddress(req);
      && k !in t.nodes && t'.nodes.Keys == t.nodes.Keys + {k}
      && t'.nodes[k].cap == req.cap && t'.nodes[k].spent == 0 && t'.nodes[k].expiresAt == req.expiresAt
      && (req.parent.None? ==> t'.nodes[k].depth == 1 && req.cap <= CoreHeadroom(t, req))
    ensures req.parent.Some? ==>
      var t', k, p := Next(t, Issue(req)), NewAddress(req), req.parent.value;
      && k in t'.nodes && p in t.nodes
      && t'.nodes[k].parent == p && t'.nodes[k].depth == t.nodes[p].depth + 1
  {}

  /** What is left on the CORE grant presented with `req`. */
  function CoreHeadroom(t: Tree, req: IssueRequest): u64 {
    if req.grant in t.core then SaturatingSub(t.core[req.grant].cap, t.core[req.grant].spent) else 0
  }

  /** The new sub-grant has a budget and time left, and so do the parent it was issued under and
      a CORE grant of the account it names. That need not be the parent's account. */
  ghost predicate IssuedWhileLive(t: Tree, req: IssueRequest) {
    && 0 < req.cap && t.now < req.expiresAt
    && req.grant in t.core && t.core[req.grant].grokAccount == GrokAccountPda(req.root)
    && !t.core[req.grant].revoked && t.now < t.core[req.grant].expiresAt
    && (req.parent.Some? ==> req.parent.value in t.nodes && !Dead(t, req.parent.value))
  }

  /** A newly issued sub-grant never carries more than what issued it could spend itself. */
  lemma IssuedWithinIssuer(t: Tree, req: IssueRequest)
    requires Valid(t) && Issued(t, req).Ok?
    ensures var t', k := Next(t, Issue(req)), NewAddress(req);
      && Valid(t') && k in t'.nodes && k !in t.nodes
      && Headroom(t'.nodes, k) <= req.cap
      && EffectiveExpiry(t'.nodes, k) <= req.expiresAt
      && (req.parent.None? ==> req.cap <= CoreHeadroom(t, req))
    ensures req.parent.Some? ==>
      var t', k, p := Next(t, Issue(req)), NewAddress(req), req.parent.value;
      && p in t.nodes
      && Path(t'.nodes, k) == [k] + Path(t.nodes, p)
      && Headroom(t'.nodes, k) <= Headroom(t.nodes, p)
      && EffectiveExpiry(t'.nodes, k) <= EffectiveExpiry(t.nodes, p)
      && (PathLive(t'.nodes, k) ==> PathLive(t.nodes, p))
    ensures IssuedWhileLive(t, req)
  {
    IssuedEffect(t, req);
    StepShape(t, Issue(req));
    StepKeepsValid(t, Issue(req));
    if req.parent.Some? {
      AttachedWithin(t.nodes, Next(t, Issue(req)).nodes, NewAddress(req), req.parent.value);
    } else {
      assert Placed(Next(t, Issue(req)).nodes, NewAddress(req));
    }
  }

  lemma AttachedWithin(before: Nodes, after: Nodes, k: Key, p: Key)
    requires Rooted(before) && Rooted(after) && Narrows(before, after)
    requires p in before && k in after && after[k].parent == p && after[k].depth == before[p].depth + 1
    ensures Path(after, k) == [k] + Path(before, p)
    ensures Headroom(after, k) <= SaturatingSub(after[k].cap, after[k].spent)
    ensures EffectiveExpiry(after, k) <= after[k].expiresAt
    ensures Headroom(after, k) <= Headroom(before, p)
    ensures EffectiveExpiry(after, k) <= EffectiveExpiry(before, p)
    ensures PathLive(after, k) ==> PathLive(before, p)
  {
    assert Placed(after, k) && Placed(before, p);
    PathStable(before, after, p);
    NarrowerPath(before, after, p);
    PathLinks(before, p);
  }

  /** A revision binds at once: the node and all beneath it can spend no more than the new cap
      leaves, and nothing after the new expiry. */
  lemma ReviseTakesEffect(t: Tree, authority: Signer, root: Key, key: Key, cap: u64, expiresAt: i64, k: Key)
    requires Valid(t) && Revised(t, authority, root, key, cap, expiresAt).Ok?
    requires k in t.nodes && Above(t.nodes, key, k)
    ensures var t' := Next(t, Revise(authority, root, key, cap, expiresAt));
      && Valid(t') && k in t'.nodes && t.nodes[key].spent <= cap
      && Headroom(t'.nodes, k) <= cap - t.nodes[key].spent
      && EffectiveExpiry(t'.nodes, k) <= expiresAt
  {
    var s := Revise(authority, root, key, cap, expiresAt);
    var nodes := Next(t, s).nodes;
    StepShape(t, s);
    StepKeepsValid(t, s);
    PathStable(t.nodes, nodes, k);
    HeadroomBounds(nodes, k, Headroom(nodes, k));
    if EffectiveExpiry(nodes, k) > expiresAt { ExpiryBounds(nodes, k, expiresAt); }
  }

  // ----- Stored terms are not the invariant -----

  /** No child's cap exceeds its parent's. */
  ghost predicate CapOrdered(nodes: Nodes) {
    forall k :: k in nodes && nodes[k].parent in nodes ==> nodes[k].cap <= nodes[nodes[k].parent].cap
  }

  /** No child's expiry is later than its parent's. */
  ghost predicate ExpiryOrdered(nodes: Nodes) {
    forall k :: k in nodes && nodes[k].parent in nodes ==> nodes[k].expiresAt <= nodes[nodes[k].parent].expiresAt
  }

  /** Issuing never breaks either order. */
  lemma IssueKeepsOrder(t: Tree, req: IssueRequest)
    requires Valid(t) && Issued(t, req).Ok?
    ensures CapOrdered(t.nodes) ==> CapOrdered(Next(t, Issue(req)).nodes)
    ensures ExpiryOrdered(t.nodes) ==> ExpiryOrdered(Next(t, Issue(req)).nodes)
  {
    StepShape(t, Issue(req));
    forall k | k in t.nodes ensures t.nodes[k].parent != NewAddress(req) {
      assert Placed(t.nodes, k);
    }
    assert Placed(Next(t, Issue(req)).nodes, NewAddress(req));
  }

  /** Lowering a cap keeps caps ordered exactly when no child was given more than the new cap. */
  lemma ReviseKeepsCapOrderIff(t: Tree, authority: Signer, root: Key, key: Key, cap: u64, expiresAt: i64)
    requires Valid(t) && CapOrdered(t.nodes) && Revised(t, authority, root, key, cap, expiresAt).Ok?
    ensures CapOrdered(Next(t, Revise(authority, root, key, cap, expiresAt)).nodes)
       <==> forall c <- Children(t.nodes, key) :: t.nodes[c].cap <= cap
  {
    var t' := Next(t, Revise(authority, root, key, cap, expiresAt));
    assert Placed(t.nodes, key);
    if CapOrdered(t'.nodes) {
      forall c | c in Children(t.nodes, key) ensures t.nodes[c].cap <= cap {
        assert c in t'.nodes && t'.nodes[c].parent == key;
      }
    }
  }

  /** Shortening an expiry keeps expiries ordered exactly when no child outlives the new one. */
  lemma ReviseKeepsExpiryOrderIff(t: Tree, authority: Signer, root: Key, key: Key, cap: u64, expiresAt: i64)
    requires Valid(t) && ExpiryOrdered(t.nodes) && Revised(t, authority, root, key, cap, expiresAt).Ok?
    ensures ExpiryOrdered(Next(t, Revise(authority, root, key, cap, expiresAt)).nodes)
       <==> forall c <- Children(t.nodes, key) :: t.nodes[c].expiresAt <= expiresAt
  {
    var t' := Next(t, Revise(authority, root, key, cap, expiresAt));
    assert Placed(t.nodes, key);
    if ExpiryOrdered(t'.nodes) {
      forall c | c in Children(t.nodes, key) ensures t.nodes[c].expiresAt <= expiresAt {
        assert c in t'.nodes && t'.nodes[c].parent == key;
      }
    }
  }

  /** The account an accepted request writes. */
  function Child(req: IssueRequest, depth: u8, parent: Key): SubGrant {
    SubGrant(GrokAccountPda(req.root), parent, req.issuer, req.agent, req.cap, 0, req.expiresAt, false, depth, 1)
  }

  /** The request the CORE agent `issuer` makes of its own grant. */
  function FirstIssue(root: Key, issuer: Signer, agent: Key, cap: u64, expiresAt: i64): IssueRequest {
    IssueRequest(issuer, root, GrantPda(GrokAccountPda(root), issuer), None, agent, cap, expiresAt)
  }

  lemma FirstIssued(t: Tree, root: Key, issuer: Signer, agent: Key, cap: u64, expiresAt: i64)
    requires Valid(t) && Admits(t, GrokAccountPda(root), issuer) && agent != issuer
    requires var core := t.core[GrantPda(GrokAccountPda(root), issuer)];
      0 < cap <= core.cap - core.spent && t.now < expiresAt <= core.expiresAt
    requires SubGrantPda(GrokAccountPda(root), agent) !in t.nodes
    ensures var req := FirstIssue(root, issuer, agent, cap, expiresAt);
      && Attempt(t, Issue(req)).Ok?
      && Next(t, Issue(req)) == t.(nodes := t.nodes[NewAddress(req) := Child(req, 1, Default)])
      && Valid(Next(t, Issue(req)))
  {
    StepKeepsValid(t, Issue(FirstIssue(root, issuer, agent, cap, expiresAt)));
  }

  /** A sub-grant passed on by its holder under the CORE grant of any account. */
  lemma PassedOn(t: Tree, req: IssueRequest)
    requires Valid(t) && req.parent.Some? && req.parent.value in t.nodes
    requires var p := t.nodes[req.parent.value];
      && p.agent == req.issuer != req.agent && !Dead(t, req.parent.value) && p.depth < MAX_SUB_DEPTH
      && 0 < req.cap <= p.cap - p.spent && t.now < req.expiresAt <= p.expiresAt
    requires IssueAccounts(t, req).Ok? && !t.core[req.grant].revoked && t.now < t.core[req.grant].expiresAt
    ensures var p := t.nodes[req.parent.value];
      && Attempt(t, Issue(req)).Ok?
      && Next(t, Issue(req)) == t.(nodes := t.nodes[NewAddress(req) := Child(req, p.depth + 1, req.parent.value)])
      && Valid(Next(t, Issue(req)))
  {
    StepKeepsValid(t, Issue(req));
  }

  /** The CORE grant the examples start from: a cap of 100 until time 100. */
  function Plain(root: Key, agent: Key): CoreGrant {
    CoreGrant(GrokAccountPda(root), agent, 100, 0, 100, false)
  }

  function PlainTable(root: Key, agent: Key): CoreTable {
    map[GrantPda(GrokAccountPda(root), agent) := Plain(root, agent)]
  }

  /** 10 until time 50 is passed down in full, two levels deep. */
  lemma TwoLevels() returns (top: IssueRequest, low: IssueRequest, t: Tree)
    ensures t == Run(Fresh(PlainTable(External(0), External(1)), 0), [Issue(top), Issue(low)]) && Valid(t)
    ensures top == FirstIssue(External(0), External(1), External(2), 10, 50)
    ensures low == top.(issuer := External(2), parent := Some(NewAddress(top)), agent := External(3))
    ensures t.nodes == map[NewAddress(top) := Child(top, 1, Default), NewAddress(low) := Child(low, 2, NewAddress(top))]
  {
    var t0 := Fresh(PlainTable(External(0), External(1)), 0);
    top := FirstIssue(External(0), External(1), External(2), 10, 50);
    low := top.(issuer := External(2), parent := Some(NewAddress(top)), agent := External(3));
    FirstIssued(t0, External(0), External(1), External(2), 10, 50);
    var t1 := Next(t0, Issue(top));
    PassedOn(t1, low);
    t := Next(t1, Issue(low));
    RunTwo(t0, Issue(top), Issue(low));
  }

  /** A revision the program accepts can leave a child with the larger cap and the later expiry:
      here the parent is lowered to 5 until time 20. */
  lemma OrderCanBreak() returns (steps: seq<Step>, s: Step, t: Tree)
    ensures t == Run(Fresh(PlainTable(External(0), External(1)), 0), steps) && Valid(t)
    ensures CapOrdered(t.nodes) && ExpiryOrdered(t.nodes) && Attempt(t, s).Ok?
    ensures !CapOrdered(Next(t, s).nodes) && !ExpiryOrdered(Next(t, s).nodes)
  {
    var top, low, two := TwoLevels();
    steps, t := [Issue(top), Issue(low)], two;
    s := Revise(External(1), External(0), NewAddress(top), 5, 20);
    OrderedTwo(t.nodes, NewAddress(top), NewAddress(low));
    LoweredBelowChild(t, NewAddress(top), NewAddress(low), s);
  }

  lemma OrderedTwo(nodes: Nodes, top: Key, low: Key)
    requires nodes.Keys == {top, low} && top != low && nodes[top].parent == Default && nodes[low].parent == top
    requires Default !in nodes && nodes[low].cap <= nodes[top].cap && nodes[low].expiresAt <= nodes[top].expiresAt
    ensures CapOrdered(nodes) && ExpiryOrdered(nodes)
  {}

  lemma LoweredBelowChild(t: Tree, top: Key, low: Key, s: Step)
    requires Valid(t) && top in t.nodes && low in Children(t.nodes, top)
    requires CapOrdered(t.nodes) && ExpiryOrdered(t.nodes)
    requires s.Revise? && s.key == top && t.nodes[top].grokAccount == GrokAccountPda(s.root)
    requires t.nodes[top].issuer == s.authority && t.nodes[top].spent <= s.cap <= t.nodes[top].cap
    requires s.expiresAt <= t.nodes[top].expiresAt
    requires t.nodes[low].cap > s.cap && t.nodes[low].expiresAt > s.expiresAt
    ensures Attempt(t, s).Ok? && !CapOrdered(Next(t, s).nodes) && !ExpiryOrdered(Next(t, s).nodes)
  {
    assert Placed(t.nodes, top);
    ReviseKeepsCapOrderIff(t, s.authority, s.root, top, s.cap, s.expiresAt);
    ReviseKeepsExpiryOrderIff(t, s.authority, s.root, top, s.cap, s.expiresAt);
  }

  lemma RunTwo(t: Tree, a: Step, b: Step)
    ensures Run(t, [a, b]) == Next(Next(t, a), b)
  {
    assert [a, b][1..] == [b] && [b][1..] == [];
    assert Run(Next(t, a), [b]) == Run(Next(Next(t, a), b), []);
  }
}
