/** The payee allowlist: instructions/merchants.rs. */
module Merchants {
  import opened Runtime
  import opened State

  /** `retain(|m| *m != merchant)`. */
  function Without(list: seq<Key>, merchant: Key): seq<Key> {
    if list == [] then [] else
    var last := list[|list| - 1];
    Without(list[..|list| - 1], merchant) + if last == merchant then [] else [last]
  }

  function RegistryInitialized(w: World, caller: Signer, mint: Key): Result<World> {
    var _ :- Require(caller == w.root, UnauthorizedRoot);
    var _ :- Require(w.registry.None?, AccountInUse);
    Ok(w.(registry := Some(Registry(mint, []))))
  }

  function MerchantAdded(w: World, caller: Signer, merchant: Key): Result<World> {
    var _ :- Require(caller == w.root, UnauthorizedRoot);
    if w.registry.None? then Err(AccountNotInitialized) else
    var reg := w.registry.value;
    var _ :- Require(|reg.merchants| < MAX_MERCHANTS, MerchantRegistryFull);
    var _ :- Require(merchant !in reg.merchants, MerchantAlreadyListed);
    Ok(w.(registry := Some(reg.(merchants := reg.merchants + [merchant]))))
  }

  function MerchantRemoved(w: World, caller: Signer, merchant: Key): Result<World> {
    var _ :- Require(caller == w.root, UnauthorizedRoot);
    if w.registry.None? then Err(AccountNotInitialized) else
    var reg := w.registry.value;
    var kept := Without(reg.merchants, merchant);
    var _ :- Require(|kept| < |reg.merchants|, MerchantNotListed);
    Ok(w.(registry := Some(reg.(merchants := kept))))
  }

  method InitRegistry(a: Accounts, caller: Signer, mint: Key) returns (r: Result<()>)
    modifies a
    ensures Atomic(RegistryInitialized(old(a.Snap()), caller, mint), old(a.Snap()), a.Snap(), r)
  {
    if caller != a.root { return Err(UnauthorizedRoot); }
    if a.registry.Some? { return Err(AccountInUse); }
    a.registry := Some(Registry(mint, []));
    return Ok(());
  }

  method AddMerchant(a: Accounts, caller: Signer, merchant: Key) returns (r: Result<()>)
    modifies a
    ensures Atomic(MerchantAdded(old(a.Snap()), caller, merchant), old(a.Snap()), a.Snap(), r)
  {
    if caller != a.root { return Err(UnauthorizedRoot); }
    if a.registry.None? { return Err(AccountNotInitialized); }
    var reg := a.registry.value;
    if |reg.merchants| >= MAX_MERCHANTS { return Err(MerchantRegistryFull); }
    if merchant in reg.merchants { return Err(MerchantAlreadyListed); }
    a.registry := Some(reg.(merchants := reg.merchants + [merchant]));
    return Ok(());
  }

  method RemoveMerchant(a: Accounts, caller: Signer, merchant: Key) returns (r: Result<()>)
    modifies a
    ensures Atomic(MerchantRemoved(old(a.Snap()), caller, merchant), old(a.Snap()), a.Snap(), r)
  {
    if caller != a.root { return Err(UnauthorizedRoot); }
    if a.registry.None? { return Err(AccountNotInitialized); }
    var reg := a.registry.value;
    var kept: seq<Key> := [];
    for i := 0 to |reg.merchants|
      invariant kept == Without(reg.merchants[..i], merchant)
    {
      assert reg.merchants[..i + 1][..i] == reg.merchants[..i];
      if reg.merchants[i] != merchant { kept := kept + [reg.merchants[i]]; }
    }
    assert reg.merchants[..|reg.merchants|] == reg.merchants;
    if |kept| >= |reg.merchants| { return Err(MerchantNotListed); }
    a.registry := Some(reg.(merchants := kept));
    return Ok(());
  }

  // ----- The list as a set -----

  ghost predicate NoDuplicates(list: seq<Key>) {
    forall i, j :: 0 <= i < j < |list| ==> list[i] != list[j]
  }

  /** `Without` keeps exactly the other entries, in order and without repeats; it shrinks the
      list exactly when the merchant was on it. */
  lemma WithoutMeans(list: seq<Key>, merchant: Key)
    ensures |Without(list, merchant)| <= |list|
    ensures |Without(list, merchant)| < |list| <==> merchant in list
    ensures merchant !in list ==> Without(list, merchant) == list
    ensures forall m :: m in Without(list, merchant) <==> m in list && m != merchant
    ensures NoDuplicates(list) ==> NoDuplicates(Without(list, merchant))
  {
    WithoutMembers(list, merchant);
    WithoutSize(list, merchant);
    if NoDuplicates(list) { WithoutKeepsUnique(list, merchant); }
  }

  lemma {:induction false} WithoutMembers(list: seq<Key>, merchant: Key)
    ensures forall m :: m in Without(list, merchant) <==> m in list && m != merchant
  {
    if list != [] {
      assert list == list[..|list| - 1] + [list[|list| - 1]];
      WithoutMembers(list[..|list| - 1], merchant);
    }
  }

  lemma {:induction false} WithoutSize(list: seq<Key>, merchant: Key)
    ensures |Without(list, merchant)| <= |list|
    ensures |Without(list, merchant)| < |list| <==> merchant in list
    ensures merchant !in list ==> Without(list, merchant) == list
  {
    if list != [] {
      assert list == list[..|list| - 1] + [list[|list| - 1]];
      WithoutSize(list[..|list| - 1], merchant);
    }
  }

  lemma {:induction false} WithoutKeepsUnique(list: seq<Key>, merchant: Key)
    requires NoDuplicates(list)
    ensures NoDuplicates(Without(list, merchant))
  {
    if list != [] {
      var init, last := list[..|list| - 1], list[|list| - 1];
      WithoutKeepsUnique(init, merchant);
      WithoutMembers(init, merchant);
      assert last !in init;
    }
  }

  /** What is left when the entry at `i` is removed. */
  lemma {:induction false} WithoutTakesOut(list: seq<Key>, i: nat)
    requires i < |list| && NoDuplicates(list)
    ensures Without(list, list[i]) == list[..i] + list[i + 1..]
  {
    var init := list[..|list| - 1];
    if i == |list| - 1 {
      WithoutSize(init, list[i]);
    } else {
      WithoutTakesOut(init, i);
      assert list[i + 1..] == init[i + 1..] + [list[|list| - 1]];
    }
  }

  function MerchantSet(w: World): set<Key> {
    if w.registry.Some? then set m | m in w.registry.value.merchants else {}
  }

  /** Duplicate-free and within the space the account was created with. */
  ghost predicate RegistryFits(w: World) {
    w.registry.Some? ==>
      && NoDuplicates(w.registry.value.merchants)
      && |w.registry.value.merchants| <= MAX_MERCHANTS
      && SerializedSize(w.registry.value) <= REGISTRY_SPACE
  }

  /** Discriminator, three keys, bump, length prefix, entries. */
  function SerializedSize(reg: Registry): nat {
    8 + 32 + 32 + 32 + 1 + 4 + 32 * |reg.merchants|
  }

  /** Add is set insertion: it succeeds exactly when the merchant is new and there is room,
      and then the list stays well-formed and gains that one merchant. */
  lemma AddRefinesInsert(w: World, merchant: Key)
    requires w.registry.Some? && RegistryFits(w)
    ensures var r := MerchantAdded(w, w.root, merchant);
      && (r.Ok? <==> merchant !in MerchantSet(w) && |MerchantSet(w)| < MAX_MERCHANTS)
      && (r.Ok? ==> MerchantSet(r.value) == MerchantSet(w) + {merchant} && RegistryFits(r.value))
  {
    DistinctCount(w.registry.value.merchants);
  }

  /** Remove is set deletion: it succeeds exactly when the merchant is listed, and then the
      list stays well-formed and loses that one merchant. */
  lemma RemoveRefinesDelete(w: World, merchant: Key)
    requires w.registry.Some? && RegistryFits(w)
    ensures var r := MerchantRemoved(w, w.root, merchant);
      && (r.Ok? <==> merchant in MerchantSet(w))
      && (r.Ok? ==> MerchantSet(r.value) == MerchantSet(w) - {merchant} && RegistryFits(r.value))
  {
    WithoutMeans(w.registry.value.merchants, merchant);
  }

  lemma {:induction false} DistinctCount(list: seq<Key>)
    requires NoDuplicates(list)
    ensures |set m | m in list| == |list|
  {
    if list != [] {
      var init, last := list[..|list| - 1], list[|list| - 1];
      DistinctCount(init);
      assert list == init + [last];
      assert (set m | m in list) == (set m | m in init) + {last};
    }
  }

  /** Adding a merchant and then removing it restores the very list that was there. */
  lemma AddRemoveRestores(w: World, merchant: Key)
    requires MerchantAdded(w, w.root, merchant).Ok?
    ensures MerchantRemoved(MerchantAdded(w, w.root, merchant).value, w.root, merchant) == Ok(w)
  {
    var list := w.registry.value.merchants;
    assert (list + [merchant])[..|list|] == list;
    WithoutMeans(list, merchant);
    assert Without(list + [merchant], merchant) == list;
  }
}
