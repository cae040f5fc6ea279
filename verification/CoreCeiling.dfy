/** CORE grants and the sub-grants beneath them: what a CORE grant's cap does and does not bind,
    what survives its revocation, and whom the human root can still stop. */
module CoreCeiling {
  import opened Runtime
  import opened SubGrants
  import opened SubGrantRuns

  // ----- The roots of a CORE grant -----

  /** A sub-grant hanging directly off the CORE grant of `holder` in account `grok`. */
  predicate IsRoot(sg: SubGrant, grok: Key, holder: Key) {
    sg.depth == 1 && sg.grokAccount == grok && sg.issuer == holder
  }

  ghost function RootsUnder(nodes: Nodes, grok: Key, holder: Key): set<Key> {
    set k | k in nodes && IsRoot(nodes[k], grok, holder)
  }

  ghost function SpentRows(t: Tree, keys: set<Key>): map<Key, int>
    requires keys <= t.nodes.Keys
  {
    map k | k in keys :: t.nodes[k].spent
  }

  /** Everything spent beneath the CORE grant, by whomever. */
  ghost function TotalSpent(t: Tree, grok: Key, holder: Key): int {
    SumOf(SpentRows(t, RootsUnder(t.nodes, grok, holder)))
  }

  /** The most a node can still come to have spent: its cap, or what it spent already if it is
      dead or its holder cannot sign. */
  ghost function Allowance(t: Tree, k: Key): u64
    requires k in t.nodes
  {
    if CanSpend(t, k) then t.nodes[k].cap else t.nodes[k].spent
  }

  ghost predicate CanSpend(t: Tree, k: Key) {
    k in t.nodes && !Dead(t, k) && t.nodes[k].agent.External?
  }

  ghost function AllowanceRows(t: Tree, keys: set<Key>): map<Key, int>
    requires keys <= t.nodes.Keys
  {
    map k | k in keys :: Allowance(t, k)
  }

  ghost function Potential(t: Tree, grok: Key, holder: Key): int {
    SumOf(AllowanceRows(t, RootsUnder(t.nodes, grok, holder)))
  }

  lemma SpentWithinPotential(t: Tree, grok: Key, holder: Key)
    requires Valid(t)
    ensures TotalSpent(t, grok, holder) <= Potential(t, grok, holder)
  {
    var roots := RootsUnder(t.nodes, grok, holder);
    SumMonotone(SpentRows(t, roots), AllowanceRows(t, roots));
  }

  // ----- One step -----

  /** Whoever can spend can sign, and so can everyone above: each issued to the next. */
  lemma {:induction false} HoldersSign(nodes: Nodes, k: Key)
    requires Rooted(nodes) && k in nodes && nodes[k].agent.External?
    ensures forall a <- Path(nodes, k) :: a in nodes && nodes[a].agent.External?
    decreases nodes[k].depth
  {
    assert Placed(nodes, k);
    if nodes[k].depth > 1 {
      HoldersSign(nodes, nodes[k].parent);
    }
  }

  lemma StuckStaysStuck(t: Tree, s: Step, k: Key)
    requires Valid(t) && k in t.nodes && !CanSpend(t, k)
    ensures k in Next(t, s).nodes && !CanSpend(Next(t, s), k) && Next(t, s).nodes[k].spent == t.nodes[k].spent
  {
    StepShape(t, s);
    StepKeepsValid(t, s);
    if Dead(t, k) {
      DeadStays(t, s, k);
      DeadStep(t, s, k, k);
    } else if s.Spend? {
      SpendExactly(t, s.spender, s.keys, s.amount);
      if Spendable(t, s.spender, s.keys, s.amount) { HoldersSign(t.nodes, s.keys[0]); }
    } else {
      QuietStep(t, s);
    }
  }

  /** No step raises what an existing node may come to have spent. */
  lemma AllowanceStep(t: Tree, s: Step, k: Key)
    requires Valid(t) && k in t.nodes
    ensures k in Next(t, s).nodes && Allowance(Next(t, s), k) <= Allowance(t, k)
  {
    if CanSpend(t, k) {
      StepShape(t, s);
      StepKeepsValid(t, s);
      assert k in Next(t, s).nodes;
    } else {
      StuckStaysStuck(t, s, k);
    }
  }

  /** `s` issues a sub-grant directly under the CORE grant of `holder`, and is accepted. */
  ghost predicate NewRoot(t: Tree, s: Step, grok: Key, holder: Key) {
    && s.Issue? && s.req.parent.None? && s.req.issuer == holder && grok == GrokAccountPda(s.req.root)
    && Issued(t, s.req).Ok?
  }

  /** A node appears only by an accepted issue, at the address that issue names. */
  lemma NewNode(t: Tree, s: Step, k: Key)
    requires Valid(t) && k in Next(t, s).nodes && k !in t.nodes
    ensures s.Issue? && Issued(t, s.req).Ok? && k == NewAddress(s.req)
  {
    if s.Spend? { SpendExactly(t, s.spender, s.keys, s.amount); }
  }

  lemma IssuedRoot(t: Tree, req: IssueRequest, grok: Key, holder: Key)
    requires Valid(t) && Issued(t, req).Ok?
    ensures var t', k := Next(t, Issue(req)), NewAddress(req);
      && k in t'.nodes && k !in t.nodes
      && (IsRoot(t'.nodes[k], grok, holder) <==> NewRoot(t, Issue(req), grok, holder))
    ensures NewRoot(t, Issue(req), grok, holder) ==> Admits(t, grok, holder)
  {
    if req.parent.Some? { assert Placed(t.nodes, req.parent.value); }
  }

  /** The roots change only by such an issue, which takes a grant that admits it. */
  lemma RootsStep(t: Tree, s: Step, grok: Key, holder: Key)
    requires Valid(t)
    ensures !NewRoot(t, s, grok, holder) ==>
              RootsUnder(Next(t, s).nodes, grok, holder) == RootsUnder(t.nodes, grok, holder)
    ensures NewRoot(t, s, grok, holder) ==>
      && RootsUnder(Next(t, s).nodes, grok, holder) == RootsUnder(t.nodes, grok, holder) + {NewAddress(s.req)}
      && Admits(t, grok, holder) && NewAddress(s.req) !in t.nodes
  {
    StepShape(t, s);
    RootsKept(t.nodes, Next(t, s).nodes, grok, holder);
    forall k | k in Next(t, s).nodes && k !in t.nodes
      ensures IsRoot(Next(t, s).nodes[k], grok, holder) <==> NewRoot(t, s, grok, holder) && k == NewAddress(s.req)
    {
      NewNode(t, s, k);
      IssuedRoot(t, s.req, grok, holder);
    }
    if NewRoot(t, s, grok, holder) {
      IssuedRoot(t, s.req, grok, holder);
      RootsGrown(t.nodes, Next(t, s).nodes, grok, holder, {NewAddress(s.req)});
    } else {
      RootsGrown(t.nodes, Next(t, s).nodes, grok, holder, {});
    }
  }

  lemma RootsGrown(before: Nodes, after: Nodes, grok: Key, holder: Key, added: set<Key>)
    requires before.Keys <= after.Keys && added <= after.Keys - before.Keys
    requires forall k <- before :: IsRoot(after[k], grok, holder) <==> IsRoot(before[k], grok, holder)
    requires forall k <- after :: k !in before ==> (IsRoot(after[k], grok, holder) <==> k in added)
    ensures RootsUnder(after, grok, holder) == RootsUnder(before, grok, holder) + added
  {
    var were, now := RootsUnder(before, grok, holder), RootsUnder(after, grok, holder);
    assert were <= now && added <= now;
    assert now <= were + added;
  }

  lemma RootsKept(before: Nodes, after: Nodes, grok: Key, holder: Key)
    requires Narrows(before, after)
    ensures before.Keys <= after.Keys
    ensures forall k <- before :: IsRoot(after[k], grok, holder) <==> IsRoot(before[k], grok, holder)
  {
    forall k | k in before ensures k in after && (IsRoot(after[k], grok, holder) <==> IsRoot(before[k], grok, holder)) {
      assert k in after;
    }
  }

  lemma PotentialGrown(t: Tree, t': Tree, grok: Key, holder: Key, k: Key)
    requires k in t'.nodes && k !in t.nodes
    requires RootsUnder(t'.nodes, grok, holder) == RootsUnder(t.nodes, grok, holder) + {k}
    ensures Potential(t', grok, holder)
         == SumOf(AllowanceRows(t', RootsUnder(t.nodes, grok, holder))) + Allowance(t', k)
  {
    OneRowMore(t', RootsUnder(t.nodes, grok, holder), k);
  }

  lemma AllowancesStep(t: Tree, s: Step, keys: set<Key>)
    requires Valid(t) && keys <= t.nodes.Keys
    ensures keys <= Next(t, s).nodes.Keys && SumOf(AllowanceRows(Next(t, s), keys)) <= SumOf(AllowanceRows(t, keys))
  {
    forall k | k in keys ensures k in Next(t, s).nodes && Allowance(Next(t, s), k) <= Allowance(t, k) {
      AllowanceStep(t, s, k);
    }
    SumMonotone(AllowanceRows(Next(t, s), keys), AllowanceRows(t, keys));
  }

  lemma OneRowMore(t: Tree, keys: set<Key>, k: Key)
    requires keys <= t.nodes.Keys && k in t.nodes && k !in keys
    ensures SumOf(AllowanceRows(t, keys + {k})) == SumOf(AllowanceRows(t, keys)) + Allowance(t, k)
  {
    var rows := AllowanceRows(t, keys);
    assert AllowanceRows(t, keys + {k}) == rows[k := Allowance(t, k) as int];
    SumUpdate(rows, k, Allowance(t, k));
  }

  lemma IssuedAllowance(t: Tree, req: IssueRequest)
    requires Issued(t, req).Ok?
    ensures var t', k := Next(t, Issue(req)), NewAddress(req);
      k in t'.nodes && Allowance(t', k) == if req.agent.External? then req.cap else 0
  {}

  /** What a step can add to the roots' allowances: the cap of a root it issues to a key that
      can sign. */
  ghost function Added(t: Tree, s: Step, grok: Key, holder: Key): u64 {
    if NewRoot(t, s, grok, holder) && s.req.agent.External? then s.req.cap else 0
  }

  /** Issuing under the CORE grant adds the new cap in full to what may be spent beneath it. */
  lemma IssueAddsPotential(t: Tree, req: IssueRequest, grok: Key, holder: Key)
    requires Valid(t) && NewRoot(t, Issue(req), grok, holder)
    ensures Potential(Next(t, Issue(req)), grok, holder)
         == Potential(t, grok, holder) + if req.agent.External? then req.cap else 0
  {
    var t', roots := Next(t, Issue(req)), RootsUnder(t.nodes, grok, holder);
    RootsStep(t, Issue(req), grok, holder);
    IssuedAllowance(t, req);
    PotentialGrown(t, t', grok, holder, NewAddress(req));
    assert AllowanceRows(t', roots) == AllowanceRows(t, roots);
  }

  /** Nothing else adds to it. */
  lemma PotentialStep(t: Tree, s: Step, grok: Key, holder: Key)
    requires Valid(t)
    ensures Potential(Next(t, s), grok, holder) <= Potential(t, grok, holder) + Added(t, s, grok, holder)
  {
    if NewRoot(t, s, grok, holder) {
      IssueAddsPotential(t, s.req, grok, holder);
    } else {
      RootsStep(t, s, grok, holder);
      AllowancesStep(t, s, RootsUnder(t.nodes, grok, holder));
    }
  }

  // ----- A ceiling kept by checking every issue -----

  /** Every accepted issue of a root in the run leaves room for its whole cap. */
  ghost predicate IssuesWithin(t: Tree, steps: seq<Step>, grok: Key, holder: Key, ceiling: int)
    decreases |steps|
  {
    steps != [] ==>
      && (NewRoot(t, steps[0], grok, holder) ==>
            Potential(t, grok, holder) + Added(t, steps[0], grok, holder) <= ceiling)
      && IssuesWithin(Next(t, steps[0]), steps[1..], grok, holder, ceiling)
  }

  /** If every root issue leaves room for its cap, the total never passes the ceiling, whatever
      CORE does to its grants meanwhile. */
  lemma {:induction false} CheckedIssuesHoldCeiling(t: Tree, steps: seq<Step>, grok: Key, holder: Key, ceiling: int)
    requires Valid(t) && Potential(t, grok, holder) <= ceiling
    requires IssuesWithin(t, steps, grok, holder, ceiling)
    ensures TotalSpent(Run(t, steps), grok, holder) <= Potential(Run(t, steps), grok, holder) <= ceiling
    decreases |steps|
  {
    if steps == [] {
      SpentWithinPotential(t, grok, holder);
    } else {
      PotentialStep(t, steps[0], grok, holder);
      StepKeepsValid(t, steps[0]);
      CheckedIssuesHoldCeiling(Next(t, steps[0]), steps[1..], grok, holder, ceiling);
    }
  }

  // ----- Spending all there is -----

  lemma {:induction false} RunConcat(t: Tree, a: seq<Step>, b: seq<Step>)
    ensures Run(t, a + b) == Run(Run(t, a), b)
    decreases |a|
  {
    if a == [] {
      assert a + b == b;
    } else {
      RunConcat(Next(t, a[0]), a[1..], b);
      assert (a + b)[1..] == a[1..] + b;
    }
  }

  lemma RunOne(t: Tree, s: Step)
    ensures Run(t, [s]) == Next(t, s)
  {
    assert [s][1..] == [];
    assert Run(Next(t, s), []) == Next(t, s);
  }

  /** A live root's holder can spend anything up to its cap, and moves only that node. */
  lemma RootSpends(t: Tree, k: Key, amount: u64)
    requires Valid(t) && CanSpend(t, k) && t.nodes[k].depth == 1 && t.nodes[k].spent + amount <= t.nodes[k].cap
    ensures var s := Spend(t.nodes[k].agent, [k], amount);
      && Next(t, s) == t.(nodes := t.nodes[k := t.nodes[k].(spent := t.nodes[k].spent + amount)],
                          journal := t.journal + [Spending(k, amount)])
      && Valid(Next(t, s))
  {
    assert Placed(t.nodes, k) && Path(t.nodes, k) == [k];
    assert Spendable(t, t.nodes[k].agent, [k], amount);
    SpendExactly(t, t.nodes[k].agent, [k], amount);
    LedgerSpent(t, t.nodes[k].agent, [k], amount);
    assert Metered(t.nodes, [k], amount) == t.nodes[k := t.nodes[k].(spent := t.nodes[k].spent + amount)];
  }

  /** `nodes` once every member of `todo` has spent its allowance. */
  ghost function Exhausted(t: Tree, todo: set<Key>): Nodes {
    map k <- t.nodes :: if k in todo then t.nodes[k].(spent := Allowance(t, k)) else t.nodes[k]
  }

  lemma ExhaustedOneMore(t: Tree, t': Tree, k: Key, todo: set<Key>)
    requires k in t.nodes && k in todo && t'.now == t.now
    requires t'.nodes == t.nodes[k := t.nodes[k].(spent := Allowance(t, k))]
    ensures Exhausted(t', todo - {k}) == Exhausted(t, todo)
  {}

  lemma ExhaustOne(t: Tree, k: Key) returns (steps: seq<Step>, t': Tree)
    requires Valid(t) && k in t.nodes && t.nodes[k].depth == 1
    ensures t' == Run(t, steps) && (forall s <- steps :: s.Spend?) && Valid(t') && t'.now == t.now
    ensures t'.nodes == t.nodes[k := t.nodes[k].(spent := Allowance(t, k))]
  {
    if CanSpend(t, k) {
      var amount := t.nodes[k].cap - t.nodes[k].spent;
      RootSpends(t, k, amount);
      t' := Next(t, Spend(t.nodes[k].agent, [k], amount));
      RunOne(t, Spend(t.nodes[k].agent, [k], amount));
      steps := [Spend(t.nodes[k].agent, [k], amount)];
    } else {
      steps, t' := [], t;
      SameAsBefore(t.nodes, k);
    }
  }

  lemma SameAsBefore(nodes: Nodes, k: Key)
    requires k in nodes
    ensures nodes[k := nodes[k].(spent := nodes[k].spent)] == nodes
  {}

  /** Each node of `todo` spends up to its allowance; nothing else changes. */
  lemma {:induction false} Exhaust(t: Tree, todo: set<Key>) returns (steps: seq<Step>, end: Tree)
    requires Valid(t) && forall k <- todo :: k in t.nodes && t.nodes[k].depth == 1
    ensures end == Run(t, steps) && forall s <- steps :: s.Spend?
    ensures end.nodes == Exhausted(t, todo)
    decreases todo
  {
    if todo == {} { return [], t; }
    var k :| k in todo;
    var first, t' := ExhaustOne(t, k);
    var rest, last := Exhaust(t', todo - {k});
    steps, end := first + rest, last;
    RunConcat(t, first, rest);
    ExhaustedOneMore(t, t', k, todo);
  }

  /** Spends alone can bring the total to the allowances' sum. */
  lemma PotentialReached(t: Tree, grok: Key, holder: Key) returns (steps: seq<Step>)
    requires Valid(t)
    ensures (forall s <- steps :: s.Spend?) && TotalSpent(Run(t, steps), grok, holder) == Potential(t, grok, holder)
  {
    var roots := RootsUnder(t.nodes, grok, holder);
    var end;
    steps, end := Exhaust(t, roots);
    ExhaustedRows(t, end, roots, grok, holder);
  }

  lemma ExhaustedRows(t: Tree, end: Tree, roots: set<Key>, grok: Key, holder: Key)
    requires roots == RootsUnder(t.nodes, grok, holder)
    requires end.nodes == Exhausted(t, roots)
    ensures RootsUnder(end.nodes, grok, holder) == roots && SpentRows(end, roots) == AllowanceRows(t, roots)
  {
    assert end.nodes.Keys == t.nodes.Keys;
    forall k | k in t.nodes ensures IsRoot(end.nodes[k], grok, holder) <==> IsRoot(t.nodes[k], grok, holder) {}
  }

  /** The check on an issue is exact: once a root is issued, spends alone keep within the ceiling
      if and only if there was room for its whole cap. */
  lemma IssueSafeIff(t: Tree, req: IssueRequest, grok: Key, holder: Key, ceiling: int)
    requires Valid(t) && NewRoot(t, Issue(req), grok, holder) && req.agent.External?
    ensures (forall steps: seq<Step> :: (forall s <- steps :: s.Spend?) ==>
               TotalSpent(Run(Next(t, Issue(req)), steps), grok, holder) <= ceiling)
       <==> Potential(t, grok, holder) + req.cap <= ceiling
  {
    var t' := Next(t, Issue(req));
    StepKeepsValid(t, Issue(req));
    IssueAddsPotential(t, req, grok, holder);
    if Potential(t', grok, holder) <= ceiling {
      forall steps: seq<Step> | forall s <- steps :: s.Spend?
        ensures TotalSpent(Run(t', steps), grok, holder) <= ceiling
      {
        SpendsIssueNothing(t', steps, grok, holder, ceiling);
        CheckedIssuesHoldCeiling(t', steps, grok, holder, ceiling);
      }
    } else {
      var steps := PotentialReached(t', grok, holder);
    }
  }

  lemma {:induction false} SpendsIssueNothing(t: Tree, steps: seq<Step>, grok: Key, holder: Key, ceiling: int)
    requires forall s <- steps :: s.Spend?
    ensures IssuesWithin(t, steps, grok, holder, ceiling)
    decreases |steps|
  {
    if steps != [] {
      assert steps[0] in steps;
      SpendsIssueNothing(Next(t, steps[0]), steps[1..], grok, holder, ceiling);
    }
  }

  // ----- The CORE cap as a ceiling -----

  /** `b` is a later record of the same CORE grant, metered, lowered or revoked but not renewed. */
  predicate NarrowerCore(a: CoreGrant, b: CoreGrant) {
    && a.grokAccount == b.grokAccount && a.agent == b.agent
    && b.cap <= a.cap && a.spent <= b.spent && b.expiresAt <= a.expiresAt && (a.revoked ==> b.revoked)
  }

  /** Over the run CORE gives the grant at `at` no new authority. */
  predicate NotRenewed(t: Tree, steps: seq<Step>, at: Key)
    decreases |steps|
  {
    steps != [] ==>
      && (steps[0].CoreWrite? && steps[0].at == at ==> at in t.core && NarrowerCore(t.core[at], steps[0].record))
      && NotRenewed(Next(t, steps[0]), steps[1..], at)
  }

  lemma {:induction false} ClosedStaysClosed(t: Tree, steps: seq<Step>, grok: Key, holder: Key, ceiling: int)
    requires Valid(t) && !Admits(t, grok, holder) && NotRenewed(t, steps, GrantPda(grok, holder))
    ensures IssuesWithin(t, steps, grok, holder, ceiling)
    decreases |steps|
  {
    if steps != [] {
      StepKeepsValid(t, steps[0]);
      RootsStep(t, steps[0], grok, holder);
      ClosedStep(t, steps[0], grok, holder);
      ClosedStaysClosed(Next(t, steps[0]), steps[1..], grok, holder, ceiling);
    }
  }

  lemma ClosedStep(t: Tree, s: Step, grok: Key, holder: Key)
    requires !Admits(t, grok, holder)
    requires var at := GrantPda(grok, holder);
      s.CoreWrite? && s.at == at ==> at in t.core && NarrowerCore(t.core[at], s.record)
    ensures !Admits(Next(t, s), grok, holder)
  {}

  lemma {:induction false} UnwrittenNotRenewed(t: Tree, steps: seq<Step>, at: Key)
    requires forall s <- steps :: !s.CoreWrite?
    ensures NotRenewed(t, steps, at)
    decreases |steps|
  {
    if steps != [] {
      UnwrittenNotRenewed(Next(t, steps[0]), steps[1..], at);
    }
  }

  /** There is always a key nobody in the account has been issued to. */
  lemma {:induction false} UnusedAgent(keys: set<Key>, grok: Key) returns (n: nat)
    ensures forall i: nat | i >= n :: SubGrantPda(grok, External(i)) !in keys
    decreases keys
  {
    n := 0;
    if keys != {} {
      var k :| k in keys;
      n := UnusedAgent(keys - {k}, grok);
      if k.SubGrantPda? && k.agent.External? && k.agent.id >= n { n := k.agent.id + 1; }
      forall i: nat | i >= n ensures SubGrantPda(grok, External(i)) !in keys {
        assert SubGrantPda(grok, External(i)) !in keys - {k};
      }
    }
  }

  lemma FreshAgent(nodes: Nodes, grok: Key, holder: Signer) returns (agent: Signer)
    ensures SubGrantPda(grok, agent) !in nodes && agent != holder
  {
    var id := UnusedAgent(nodes.Keys, grok);
    agent := External(if holder.id == id then id + 1 else id);
  }

  /** The smallest root: a cap of one, until the CORE grant expires. */
  function SmallRoot(t: Tree, grok: Key, holder: Signer, agent: Signer): IssueRequest
    requires Admits(t, grok, holder)
  {
    FirstIssue(grok.root, holder, agent, 1, t.core[GrantPda(grok, holder)].expiresAt)
  }

  lemma SmallRootSpent(t: Tree, grok: Key, holder: Signer, agent: Signer) returns (steps: seq<Step>, end: Tree)
    requires Valid(t) && Admits(t, grok, holder) && agent != holder && SubGrantPda(grok, agent) !in t.nodes
    ensures end == Run(t, steps) && (forall s <- steps :: !s.CoreWrite?) && Valid(end)
    ensures end.core == t.core && end.now == t.now
    ensures var k := SubGrantPda(grok, agent);
      end.nodes == t.nodes[k := Child(SmallRoot(t, grok, holder, agent), 1, Default).(spent := 1)]
  {
    var req := SmallRoot(t, grok, holder, agent);
    FirstIssued(t, grok.root, holder, agent, 1, req.expiresAt);
    var t1 := Next(t, Issue(req));
    RootSpends(t1, NewAddress(req), 1);
    var spend := Spend(agent, [NewAddress(req)], 1);
    end := Next(t1, spend);
    RunTwo(t, Issue(req), spend);
    steps := [Issue(req), spend];
  }

  /** A CORE grant that admits one root admits another, which can spend what it was given. */
  lemma RaisedByOne(t: Tree, grok: Key, holder: Key) returns (steps: seq<Step>, end: Tree)
    requires Valid(t) && Admits(t, grok, holder)
    ensures end == Run(t, steps) && forall s <- steps :: !s.CoreWrite?
    ensures Valid(end) && Admits(end, grok, holder)
    ensures TotalSpent(end, grok, holder) == TotalSpent(t, grok, holder) + 1
  {
    var agent := FreshAgent(t.nodes, grok, holder);
    steps, end := SmallRootSpent(t, grok, holder, agent);
    AddedRow(t, end, grok, holder, SubGrantPda(grok, agent));
  }

  lemma AddedRow(t: Tree, end: Tree, grok: Key, holder: Key, k: Key)
    requires k !in t.nodes && k in end.nodes && end.nodes == t.nodes[k := end.nodes[k]]
    requires IsRoot(end.nodes[k], grok, holder)
    ensures TotalSpent(end, grok, holder) == TotalSpent(t, grok, holder) + end.nodes[k].spent
  {
    var roots := RootsUnder(t.nodes, grok, holder);
    assert RootsUnder(end.nodes, grok, holder) == roots + {k};
    assert SpentRows(end, roots + {k}) == SpentRows(t, roots)[k := end.nodes[k].spent as int];
    SumUpdate(SpentRows(t, roots), k, end.nodes[k].spent);
  }

  /** So as long as it admits one there is no bound at all on what its sub-grants may spend. */
  lemma {:induction false} OpenGrantUnbounded(t: Tree, grok: Key, holder: Key, n: nat) returns (steps: seq<Step>)
    requires Valid(t) && Admits(t, grok, holder)
    ensures forall s <- steps :: !s.CoreWrite?
    ensures TotalSpent(Run(t, steps), grok, holder) == TotalSpent(t, grok, holder) + n
    decreases n
  {
    if n == 0 { return []; }
    var first, t1 := RaisedByOne(t, grok, holder);
    var rest := OpenGrantUnbounded(t1, grok, holder, n - 1);
    steps := first + rest;
    RunConcat(t, first, rest);
  }

  /** A ceiling binds everything spent beneath a CORE grant, by the roots it has and all it may
      yet get, over every continuation in which CORE does not renew it, if and only if the
      allowances of its roots are within the ceiling and it admits no further root: it is
      revoked, expired, or has nothing left. */
  lemma CeilingHoldsIff(t: Tree, grok: Key, holder: Key, ceiling: int)
    requires Valid(t)
    ensures (forall steps: seq<Step> :: NotRenewed(t, steps, GrantPda(grok, holder)) ==>
               TotalSpent(Run(t, steps), grok, holder) <= ceiling)
       <==> Potential(t, grok, holder) <= ceiling && !Admits(t, grok, holder)
  {
    var at := GrantPda(grok, holder);
    if Admits(t, grok, holder) {
      var total := TotalSpent(t, grok, holder);
      var n := if total > ceiling then 0 else ceiling - total + 1;
      var steps := OpenGrantUnbounded(t, grok, holder, n);
      UnwrittenNotRenewed(t, steps, at);
      assert TotalSpent(Run(t, steps), grok, holder) > ceiling;
    } else if Potential(t, grok, holder) > ceiling {
      var steps := PotentialReached(t, grok, holder);
      UnwrittenNotRenewed(t, steps, at);
      assert TotalSpent(Run(t, steps), grok, holder) > ceiling;
    } else {
      forall steps: seq<Step> | NotRenewed(t, steps, at) ensures TotalSpent(Run(t, steps), grok, holder) <= ceiling {
        ClosedStaysClosed(t, steps, grok, holder, ceiling);
        CheckedIssuesHoldCeiling(t, steps, grok, holder, ceiling);
      }
    }
  }

  /** The source describes the CORE cap as a ceiling the tree cannot exceed. Spending a sub-grant
      never meters CORE, so from the empty program one CORE grant with a cap of 100 lets the
      sub-grants beneath it spend any amount whatever. */
  lemma CoreCapDoesNotBind(n: nat) returns (steps: seq<Step>)
    ensures forall s <- steps :: !s.CoreWrite?
    ensures var end := Run(Fresh(PlainTable(External(0), External(1)), 0), steps);
      TotalSpent(end, GrokAccountPda(External(0)), External(1)) == n
  {
    var t := Fresh(PlainTable(External(0), External(1)), 0);
    steps := OpenGrantUnbounded(t, GrokAccountPda(External(0)), External(1), n);
    assert RootsUnder(t.nodes, GrokAccountPda(External(0)), External(1)) == {};
  }

  // ----- What a dead CORE grant leaves alive -----

  /** The step reads `core` no further than the one grant it presents, and `core'` agrees there. */
  predicate Unread(s: Step, core: CoreTable, core': CoreTable) {
    && !s.CoreWrite?
    && (s.Issue? ==> && (s.req.grant in core <==> s.req.grant in core')
                     && (s.req.grant in core ==> core'[s.req.grant] == core[s.req.grant]))
  }

  lemma OtherCoreUnread(t: Tree, s: Step, core': CoreTable)
    requires Unread(s, t.core, core')
    ensures Next(t.(core := core'), s) == Next(t, s).(core := core') && Next(t, s).core == t.core
  {
    match s
    case Issue(req) => OnlyPresentedRead(t, req, core');
    case Spend(spender, keys, amount) => SpendsUnread(t, spender, keys, amount, core');
    case _ =>
  }

  lemma OnlyPresentedRead(t: Tree, req: IssueRequest, core': CoreTable)
    requires Unread(Issue(req), t.core, core')
    ensures match Issued(t, req)
            case Ok(after) => Issued(t.(core := core'), req) == Ok(after.(core := core')) && after.core == t.core
            case Err(e) => Issued(t.(core := core'), req) == Err(e)
  {
    assert IssueAccounts(t.(core := core'), req) == IssueAccounts(t, req);
  }

  lemma SpendsUnread(t: Tree, spender: Signer, keys: seq<Key>, amount: u64, core': CoreTable)
    ensures match Spent(t, spender, keys, amount)
            case Ok(after) =>
              Spent(t.(core := core'), spender, keys, amount) == Ok(after.(core := core')) && after.core == t.core
            case Err(e) => Spent(t.(core := core'), spender, keys, amount) == Err(e)
  {}

  /** Rewriting or revoking CORE grants in any way changes nothing in any run, so long as the
      issues in it still present grants left as they were: spends, revisions and revocations
      read no CORE grant at all, and an issue reads only the one its caller picks. */
  lemma {:induction false} CoreDeathChangesNothing(t: Tree, steps: seq<Step>, core': CoreTable)
    requires forall s <- steps :: Unread(s, t.core, core')
    ensures Run(t.(core := core'), steps) == Run(t, steps).(core := core')
    decreases |steps|
  {
    if steps != [] {
      assert steps[0] in steps;
      OtherCoreUnread(t, steps[0], core');
      CoreDeathChangesNothing(Next(t, steps[0]), steps[1..], core');
    }
  }

  /** The node at the top of `k`'s path, whose budget everything on it spends. */
  ghost function Top(nodes: Nodes, k: Key): (top: Key)
    requires Rooted(nodes) && k in nodes
    ensures top in nodes && Above(nodes, top, k) && nodes[top].depth == 1
  {
    PathLinks(nodes, k);
    PathAt(nodes, k, |Path(nodes, k)| - 1);
    Path(nodes, k)[|Path(nodes, k)| - 1]
  }

  /** The root whose budget a live node spends can revoke that node itself if and only if the
      node names the root's own account, or the root happens to have issued it. Issuing does
      not ask for the former. */
  lemma RootPullsIff(t: Tree, root: Signer, k: Key)
    requires Valid(t) && k in t.nodes && !t.nodes[k].revoked
    requires t.nodes[Top(t.nodes, k)].grokAccount == GrokAccountPda(root)
    ensures (exists account: Key :: Revoked(t, root, account, k).Ok?)
       <==> t.nodes[k].grokAccount == t.nodes[Top(t.nodes, k)].grokAccount || t.nodes[k].issuer == root
  {
    assert Placed(t.nodes, k);
    if t.nodes[k].grokAccount == GrokAccountPda(root) || t.nodes[k].issuer == root {
      assert Revoked(t, root, t.nodes[k].grokAccount.root, k).Ok?;
    }
  }

  /** It can always stop the node by revoking the top. */
  lemma RootPullsTop(t: Tree, root: Signer, k: Key, steps: seq<Step>)
    requires Valid(t) && k in t.nodes && !t.nodes[Top(t.nodes, k)].revoked
    requires t.nodes[Top(t.nodes, k)].grokAccount == GrokAccountPda(root)
    ensures var s := Revoke(root, root, Top(t.nodes, k));
      && Attempt(t, s).Ok?
      && k in Run(Next(t, s), steps).nodes
      && Run(Next(t, s), steps).nodes[k].spent == t.nodes[k].spent
  {
    var top := Top(t.nodes, k);
    var s := Revoke(root, root, top);
    RevokeKills(t, root, root, top);
    StepKeepsValid(t, s);
    StepShape(t, s);
    PathStable(t.nodes, Next(t, s).nodes, k);
    RunShape(Next(t, s), steps);
    PathStable(Next(t, s).nodes, Run(Next(t, s), steps).nodes, k);
    DeadSubtreeFrozen(Next(t, s), steps, top, k);
    QuietStep(t, s);
  }

  /** Two accounts, each with one CORE grant. */
  function TwoAccounts(): CoreTable {
    PlainTable(External(0), External(1))
    [GrantPda(GrokAccountPda(External(9)), External(8)) := Plain(External(9), External(8))]
  }

  /** The first account's CORE grant, revoked. */
  function PulledGrant(): Step {
    CoreWrite(GrantPda(GrokAccountPda(External(0)), External(1)), Plain(External(0), External(1)).(revoked := true))
  }

  /** The holder of `top` passes it on under the second account's CORE grant. */
  function AcrossIssue(top: Key): IssueRequest {
    var grant := GrantPda(GrokAccountPda(External(9)), External(8));
    IssueRequest(External(2), External(9), grant, Some(top), External(3), 10, 50)
  }

  /** The first account issues a sub-grant and then loses its only CORE grant. */
  lemma IssuedThenPulled() returns (first: IssueRequest, t: Tree)
    ensures first == FirstIssue(External(0), External(1), External(2), 10, 50)
    ensures t == Run(Fresh(TwoAccounts(), 0), [Issue(first), PulledGrant()]) && Valid(t) && t.now == 0
    ensures t.core == TwoAccounts()[PulledGrant().at := PulledGrant().record]
    ensures t.nodes == map[NewAddress(first) := Child(first, 1, Default)]
  {
    var t0 := Fresh(TwoAccounts(), 0);
    first := FirstIssue(External(0), External(1), External(2), 10, 50);
    FirstIssued(t0, External(0), External(1), External(2), 10, 50);
    var t1 := Next(t0, Issue(first));
    StepKeepsValid(t1, PulledGrant());
    RunTwo(t0, Issue(first), PulledGrant());
    t := Next(t1, PulledGrant());
  }

  /** And yet a child can then be issued beneath it, under the second account. */
  lemma IssuedAcross() returns (steps: seq<Step>, top: Key, low: Key, t: Tree)
    ensures t == Run(Fresh(TwoAccounts(), 0), steps) && Valid(t) && t.now == 0 && PulledGrant() in steps
    ensures !Admits(t, GrokAccountPda(External(0)), External(1))
    ensures t.nodes.Keys == {top, low} && top != low
    ensures t.nodes[top] == Child(FirstIssue(External(0), External(1), External(2), 10, 50), 1, Default)
    ensures t.nodes[low] == Child(AcrossIssue(top), 2, top)
  {
    var first, before := IssuedThenPulled();
    top := NewAddress(first);
    var req := AcrossIssue(top);
    low := NewAddress(req);
    PassedOn(before, req);
    t := Next(before, Issue(req));
    steps := [Issue(first), PulledGrant()] + [Issue(req)];
    RunOne(before, Issue(req));
    RunConcat(Fresh(TwoAccounts(), 0), [Issue(first), PulledGrant()], [Issue(req)]);
    assert steps[1] == PulledGrant();
  }

  /** There the child goes on spending the first account's budget, and the first account's root
      cannot revoke it, while the second account's can. */
  lemma SpentAcross() returns (steps: seq<Step>, top: Key, low: Key, t: Tree, s: Step)
    ensures t == Run(Fresh(TwoAccounts(), 0), steps) && PulledGrant() in steps
    ensures Valid(t) && top in t.nodes && low in t.nodes && low in Children(t.nodes, top)
    ensures t.nodes[top].grokAccount == GrokAccountPda(External(0))
    ensures s == Spend(External(3), [low, top], 5) && Attempt(t, s).Ok?
    ensures top in Next(t, s).nodes && Next(t, s).nodes[top].spent == t.nodes[top].spent + 5
    ensures forall account: Key :: Revoked(t, External(0), account, low).Err?
    ensures Revoked(t, External(9), External(9), low).Ok?
  {
    steps, top, low, t := IssuedAcross();
    s := Spend(External(3), [low, top], 5);
    TwoNodePath(t, top, low, 5);
    SpendExactly(t, External(3), [low, top], 5);
    OwnRootOnly(t, low, External(0), External(9));
  }

  lemma OwnRootOnly(t: Tree, k: Key, payer: Signer, own: Signer)
    requires Valid(t) && k in t.nodes && !t.nodes[k].revoked && payer != own && t.nodes[k].issuer != payer
    requires t.nodes[Top(t.nodes, k)].grokAccount == GrokAccountPda(payer)
    requires t.nodes[k].grokAccount == GrokAccountPda(own)
    ensures forall account: Key :: Revoked(t, payer, account, k).Err?
    ensures Revoked(t, own, own, k).Ok?
  {
    RootPullsIff(t, payer, k);
    RevokeKills(t, own, own, k);
    assert Attempt(t, Revoke(own, own, k)).Ok?;
  }

  lemma TwoNodePath(t: Tree, top: Key, low: Key, amount: u64)
    requires Valid(t) && top in t.nodes && low in t.nodes
    requires t.nodes[low].parent == top && t.nodes[top].parent == Default
    requires Affords(t.nodes[top], amount, t.now) && Affords(t.nodes[low], amount, t.now)
    ensures Spendable(t, t.nodes[low].agent, [low, top], amount) && Top(t.nodes, low) == top
  {
    LinkedIsPath(t.nodes, [low, top]);
    PathAffords(t, low, amount);
  }

  // ----- Who can take an address -----

  /** The request of a CORE agent for its own grant is accepted exactly when the grant admits it, the
      terms fit what is left of it, and the address is free. */
  lemma OwnIssueAcceptedIff(t: Tree, root: Key, issuer: Signer, agent: Key, cap: u64, expiresAt: i64)
    ensures var grok, at := GrokAccountPda(root), GrantPda(GrokAccountPda(root), issuer);
      Attempt(t, Issue(FirstIssue(root, issuer, agent, cap, expiresAt))).Ok? <==>
      && Admits(t, grok, issuer) && agent != issuer && SubGrantPda(grok, agent) !in t.nodes
      && 0 < cap <= t.core[at].cap - t.core[at].spent && t.now < expiresAt <= t.core[at].expiresAt
  {}

  /** An address once taken is taken for good: no run frees it, so nobody can issue there again. */
  lemma TakenForGood(t: Tree, steps: seq<Step>, req: IssueRequest)
    requires Valid(t) && NewAddress(req) in t.nodes
    ensures NewAddress(req) in Run(t, steps).nodes && Attempt(Run(t, steps), Issue(req)).Err?
  {
    RunShape(t, steps);
  }

  /** And it need not be taken by the account's own agents. Whoever holds a live sub-grant above the
      last level, in any account, can pass it on under any live CORE grant of any other, and so
      take any free address there. */
  lemma AnyHolderTakes(t: Tree, p: Key, root: Key, coreAgent: Key, agent: Key) returns (req: IssueRequest)
    requires Valid(t) && p in t.nodes && !Dead(t, p) && t.nodes[p].agent.External? && t.nodes[p].depth < MAX_SUB_DEPTH
    requires t.nodes[p].spent < t.nodes[p].cap && agent != t.nodes[p].agent
    requires var at := GrantPda(GrokAccountPda(root), coreAgent);
      && at in t.core && t.core[at].agent == coreAgent && t.core[at].grokAccount == GrokAccountPda(root)
      && !t.core[at].revoked && t.now < t.core[at].expiresAt
    requires SubGrantPda(GrokAccountPda(root), agent) !in t.nodes
    ensures req.issuer == t.nodes[p].agent && req.root == root && req.agent == agent && Attempt(t, Issue(req)).Ok?
    ensures Valid(Next(t, Issue(req))) && SubGrantPda(GrokAccountPda(root), agent) in Next(t, Issue(req)).nodes
  {
    req := IssueRequest(t.nodes[p].agent, root, GrantPda(GrokAccountPda(root), coreAgent), Some(p), agent, 1,
                        t.nodes[p].expiresAt);
    PassedOn(t, req);
  }

  /** Run out: before, the account's agent could issue to a key; after a stranger's sub-grant has taken
      the key's address, its same request is refused in every continuation. */
  lemma TakenFromIssuer(t: Tree, p: Key, root: Key, issuer: Signer, agent: Key, cap: u64, expiresAt: i64)
    returns (taking: Step)
    requires Valid(t) && p in t.nodes && !Dead(t, p) && t.nodes[p].agent.External? && t.nodes[p].depth < MAX_SUB_DEPTH
    requires t.nodes[p].spent < t.nodes[p].cap && agent != t.nodes[p].agent
    requires Attempt(t, Issue(FirstIssue(root, issuer, agent, cap, expiresAt))).Ok?
    ensures taking.Issue? && taking.req.issuer == t.nodes[p].agent && Attempt(t, taking).Ok?
    ensures forall steps: seq<Step>, cap': u64, expiresAt': i64 ::
      Attempt(Run(Next(t, taking), steps), Issue(FirstIssue(root, issuer, agent, cap', expiresAt'))).Err?
  {
    OwnIssueAcceptedIff(t, root, issuer, agent, cap, expiresAt);
    var req := AnyHolderTakes(t, p, root, issuer, agent);
    taking := Issue(req);
    forall steps: seq<Step>, cap': u64, expiresAt': i64
      ensures Attempt(Run(Next(t, taking), steps), Issue(FirstIssue(root, issuer, agent, cap', expiresAt'))).Err?
    {
      TakenForGood(Next(t, taking), steps, FirstIssue(root, issuer, agent, cap', expiresAt'));
    }
  }

  /** Such a state is reached: the first account's sub-grant is live, and the second account's agent
      can still issue to key 4. */
  lemma TakenReachable() returns (first: IssueRequest, t: Tree, taking: Step)
    ensures t == Run(Fresh(TwoAccounts(), 0), [Issue(first), PulledGrant()])
    ensures Attempt(t, Issue(FirstIssue(External(9), External(8), External(4), 10, 50))).Ok?
    ensures taking.Issue? && taking.req.issuer == External(2) && Attempt(t, taking).Ok?
    ensures forall steps: seq<Step>, cap: u64, expiresAt: i64 ::
      var again := FirstIssue(External(9), External(8), External(4), cap, expiresAt);
      Attempt(Run(Next(t, taking), steps), Issue(again)).Err?
  {
    first, t := IssuedThenPulled();
    OwnIssueAcceptedIff(t, External(9), External(8), External(4), 10, 50);
    taking := TakenFromIssuer(t, NewAddress(first), External(9), External(8), External(4), 10, 50);
  }
}
