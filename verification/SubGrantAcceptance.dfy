/** Exactly when each delegation instruction is accepted, and exactly what it writes, on the stored
    fields. Spending is `SpendExactly`. */
module SubGrantAcceptance {
  import opened Runtime
  import opened SubGrants
  import opened SubGrantRuns

  // ----- Issue -----

  /** Under a parent: what the parent has left, not its cap, is what there is to give. */
  lemma IssueBeneathAcceptedIff(t: Tree, req: IssueRequest)
    requires req.parent.Some?
    ensures Attempt(t, Issue(req)).Ok? <==>
      && req.parent.value in t.nodes && req.grant in t.core
      && var p, core := t.nodes[req.parent.value], t.core[req.grant];
      && SubGrantPda(GrokAccountPda(req.root), req.agent) !in t.nodes
      && req.grant == GrantPda(GrokAccountPda(req.root), core.agent) && core.grokAccount == GrokAccountPda(req.root)
      && !core.revoked && t.now < core.expiresAt
      && p.agent == req.issuer && req.agent != req.issuer
      && !p.revoked && t.now < p.expiresAt && p.depth < MAX_SUB_DEPTH
      && 0 < req.cap && p.spent + req.cap <= p.cap
      && t.now < req.expiresAt <= p.expiresAt
  {}

  /** Without one: what is left of the CORE grant presented, which must be the issuer's own. */
  lemma IssueRootAcceptedIff(t: Tree, req: IssueRequest)
    requires req.parent.None?
    ensures Attempt(t, Issue(req)).Ok? <==>
      && req.grant in t.core && var core := t.core[req.grant];
      && SubGrantPda(GrokAccountPda(req.root), req.agent) !in t.nodes
      && req.grant == GrantPda(GrokAccountPda(req.root), core.agent) && core.grokAccount == GrokAccountPda(req.root)
      && !core.revoked && t.now < core.expiresAt
      && core.agent == req.issuer && req.agent != req.issuer
      && 0 < req.cap && core.spent + req.cap <= core.cap
      && t.now < req.expiresAt <= core.expiresAt
  {}

  /** The one account an accepted issue writes, field by field. */
  lemma IssueWrites(t: Tree, req: IssueRequest)
    requires Attempt(t, Issue(req)).Ok?
    ensures req.parent.Some? ==> req.parent.value in t.nodes && t.nodes[req.parent.value].depth < MAX_SUB_DEPTH
    ensures var sg := SubGrant(
        GrokAccountPda(req.root),
        if req.parent.Some? then req.parent.value else Default,
        req.issuer, req.agent, req.cap, 0, req.expiresAt, false,
        if req.parent.Some? then t.nodes[req.parent.value].depth + 1 else 1,
        1);
      Next(t, Issue(req)) == t.(nodes := t.nodes[SubGrantPda(GrokAccountPda(req.root), req.agent) := sg])
  {}

  // ----- Revise -----

  lemma ReviseAcceptedIff(t: Tree, authority: Signer, root: Key, key: Key, cap: u64, expiresAt: i64)
    requires Valid(t)
    ensures Attempt(t, Revise(authority, root, key, cap, expiresAt)).Ok? <==>
      && key in t.nodes && t.nodes[key].grokAccount == GrokAccountPda(root)
      && (authority == t.nodes[key].issuer || authority == root)
      && t.nodes[key].spent <= cap <= t.nodes[key].cap
      && expiresAt <= t.nodes[key].expiresAt
  {
    if key in t.nodes { assert Placed(t.nodes, key); }
  }

  /** The cap and expiry asked for, and nothing else of that node or any other: in particular
      whatever was live stays live. */
  lemma ReviseWrites(t: Tree, authority: Signer, root: Key, key: Key, cap: u64, expiresAt: i64)
    requires Valid(t) && Attempt(t, Revise(authority, root, key, cap, expiresAt)).Ok?
    ensures var s := Revise(authority, root, key, cap, expiresAt);
      && key in t.nodes && var sg := t.nodes[key];
      && Next(t, s) == t.(nodes := t.nodes[key := SubGrant(
           sg.grokAccount, sg.parent, sg.issuer, sg.agent, cap, sg.spent, expiresAt, sg.revoked, sg.depth,
           sg.generation)])
      && Valid(Next(t, s))
      && forall k <- t.nodes :: PathLive(Next(t, s).nodes, k) <==> PathLive(t.nodes, k)
  {
    var s := Revise(authority, root, key, cap, expiresAt);
    StepShape(t, s);
    StepKeepsValid(t, s);
    forall k | k in t.nodes ensures PathLive(Next(t, s).nodes, k) <==> PathLive(t.nodes, k) {
      LiveAfterRevise(t.nodes, Next(t, s).nodes, key, k);
    }
  }

  lemma LiveAfterRevise(before: Nodes, after: Nodes, key: Key, k: Key)
    requires Rooted(before) && Rooted(after) && Narrows(before, after) && k in before && key in before
    requires after == before[key := after[key]] && after[key].revoked == before[key].revoked
    ensures PathLive(after, k) <==> PathLive(before, k)
  {
    SamePath(before, after, k);
  }

  lemma SamePath(before: Nodes, after: Nodes, k: Key)
    requires Rooted(before) && Rooted(after) && Narrows(before, after) && k in before
    ensures k in after && Path(after, k) == Path(before, k)
    ensures forall a <- Path(before, k) :: a in before && a in after
  {
    PathStable(before, after, k);
    PathLinks(before, k);
    PathLinks(after, k);
  }

  // ----- Revoke -----

  lemma RevokeAcceptedIff(t: Tree, authority: Signer, root: Key, key: Key)
    requires Valid(t)
    ensures Attempt(t, Revoke(authority, root, key)).Ok? <==>
      && key in t.nodes && t.nodes[key].grokAccount == GrokAccountPda(root)
      && (authority == t.nodes[key].issuer || authority == root)
      && !t.nodes[key].revoked
  {
    if key in t.nodes { assert Placed(t.nodes, key); }
  }

  /** The flag and the generation of that node, and nothing else. */
  lemma RevokeWrites(t: Tree, authority: Signer, root: Key, key: Key)
    requires Attempt(t, Revoke(authority, root, key)).Ok?
    ensures key in t.nodes && var sg := t.nodes[key];
      Next(t, Revoke(authority, root, key)) == t.(nodes := t.nodes[key := SubGrant(
        sg.grokAccount, sg.parent, sg.issuer, sg.agent, sg.cap, sg.spent, sg.expiresAt, true, sg.depth,
        if sg.generation < 0xFFFF_FFFF then sg.generation + 1 else 0xFFFF_FFFF)])
  {}

  /** So what stops being live is exactly what lies beneath it. */
  lemma RevokeKillsBeneath(t: Tree, authority: Signer, root: Key, key: Key)
    requires Valid(t) && Attempt(t, Revoke(authority, root, key)).Ok?
    ensures key in t.nodes && Valid(Next(t, Revoke(authority, root, key)))
    ensures forall k <- t.nodes ::
      PathLive(Next(t, Revoke(authority, root, key)).nodes, k) <==> PathLive(t.nodes, k) && !Above(t.nodes, key, k)
  {
    var s := Revoke(authority, root, key);
    StepShape(t, s);
    StepKeepsValid(t, s);
    RevokeWrites(t, authority, root, key);
    forall k | k in t.nodes
      ensures PathLive(Next(t, s).nodes, k) <==> PathLive(t.nodes, k) && !Above(t.nodes, key, k)
    {
      LiveAfterRevoke(t.nodes, Next(t, s).nodes, key, k);
    }
  }

  lemma LiveAfterRevoke(before: Nodes, after: Nodes, key: Key, k: Key)
    requires Rooted(before) && Rooted(after) && Narrows(before, after) && k in before && key in before
    requires after == before[key := after[key]] && after[key].revoked
    ensures PathLive(after, k) <==> PathLive(before, k) && !Above(before, key, k)
  {
    SamePath(before, after, k);
  }
}
