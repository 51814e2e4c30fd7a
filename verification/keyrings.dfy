/**
 The key ring: a network, descriptors registered under keychain identifiers, and
 one default keychain; its snapshot into a change set and reconstruction from one.
 */
module KeyRings {

  import opened Wrappers
  import opened Networks
  import opened Descriptors
  import opened ChangeSets

  /** The cryptographic context the source also holds is stateless and left out. */
  datatype KeyRing<K, D> = KeyRing(
    network: Network,
    descriptors: map<K, D>,
    defaultKeychain: K)

  /** The default keychain is one of the registered keychains. */
  predicate DefaultRegistered<K, D>(r: KeyRing<K, D>)
  {
    r.defaultKeychain in r.descriptors
  }

  /** The ring's invariant: a registered default and only storable descriptors. */
  ghost predicate Valid<K, D, Id>(lib: Library<D, Id>, r: KeyRing<K, D>)
  {
    && DefaultRegistered(r)
    && forall k :: k in r.descriptors ==> Storable(lib, r.network, r.descriptors[k])
  }

  /** `KeyRing::new`: `k` holds `d` and is the default. The descriptor is taken as already parsed. */
  function New<K, D>(network: Network, k: K, d: D): (r: KeyRing<K, D>)
    ensures r.network == network
    ensures r.descriptors.Keys == {k} && r.descriptors[k] == d
    ensures r.defaultKeychain == k
    ensures DefaultRegistered(r)
  {
    KeyRing(network, map[k := d], k)
  }

  /** `new` establishes the invariant when its descriptor is storable. */
  lemma NewIsValid<K, D, Id>(lib: Library<D, Id>, network: Network, k: K, d: D)
    requires Storable(lib, network, d)
    ensures Valid(lib, New(network, k, d))
  {
  }

  /**
   `add_descriptor`: registers `d` under `k`, replacing what `k` held; `k` becomes
   the default when asked to or when the ring held no descriptor. The source panics
   on a descriptor that is invalid for the network or multi-path.
   */
  function AddDescriptor<K, D, Id>(lib: Library<D, Id>, r: KeyRing<K, D>, k: K, d: D, isDefault: bool): (r': KeyRing<K, D>)
    requires Storable(lib, r.network, d)
    ensures r'.network == r.network
    ensures r'.descriptors.Keys == r.descriptors.Keys + {k}
    ensures r'.descriptors[k] == d
    ensures forall j :: j in r.descriptors && j != k ==> r'.descriptors[j] == r.descriptors[j]
    ensures (isDefault || r.descriptors == map[]) ==> r'.defaultKeychain == k
    ensures !(isDefault || r.descriptors == map[]) ==> r'.defaultKeychain == r.defaultKeychain
  {
    var defaultKeychain := if isDefault || |r.descriptors| == 0 then k else r.defaultKeychain;
    KeyRing(r.network, r.descriptors[k := d], defaultKeychain)
  }

  /** `add_descriptor` preserves the invariant. */
  lemma AddDescriptorPreservesValid<K, D, Id>(lib: Library<D, Id>, r: KeyRing<K, D>, k: K, d: D, isDefault: bool)
    requires Valid(lib, r)
    requires Storable(lib, r.network, d)
    ensures Valid(lib, AddDescriptor(lib, r, k, d, isDefault))
  {
  }

  /** Even on a ring rebuilt with no descriptors, `add_descriptor` leaves a registered default. */
  lemma AddDescriptorRegistersDefault<K, D, Id>(lib: Library<D, Id>, r: KeyRing<K, D>, k: K, d: D, isDefault: bool)
    requires r.descriptors == map[] || DefaultRegistered(r)
    requires Storable(lib, r.network, d)
    ensures DefaultRegistered(AddDescriptor(lib, r, k, d, isDefault))
  {
  }

  /** `default_keychain`. */
  function DefaultKeychain<K, D>(r: KeyRing<K, D>): (k: K)
    ensures DefaultRegistered(r) ==> k in r.descriptors
  {
    r.defaultKeychain
  }

  /**
   The default-selection scenario: the first keychain added stays the default
   until another is added as default.
   */
  lemma DefaultSelectionScenario<D, Id>(lib: Library<D, Id>, network: Network, d1: D, d2: D)
    requires Storable(lib, network, d1) && Storable(lib, network, d2)
    ensures var r1 := New(network, 1, d1);
            var r2 := AddDescriptor(lib, r1, 2, d2, false);
            var r3 := AddDescriptor(lib, r2, 2, d2, true);
            DefaultKeychain(r2) == 1 && DefaultKeychain(r3) == 2 && r3.descriptors == map[1 := d1, 2 := d2]
  {
  }

  /** `initial_changeset`: a snapshot of the whole ring. */
  function InitialChangeset<K, D>(r: KeyRing<K, D>): (c: ChangeSet<K, D>)
    ensures !IsEmpty(c)
    ensures c.descriptors == r.descriptors
    ensures c.defaultKeychain.Some?
  {
    ChangeSet(Some(r.network), r.descriptors, Some(r.defaultKeychain))
  }

  /**
   `from_changeset`: a ring exactly when the change set records a network and a
   default, holding the change set's descriptors verbatim. Nothing checks that the
   default is registered.
   */
  function FromChangeset<K, D>(c: ChangeSet<K, D>): (r: Option<KeyRing<K, D>>)
    ensures r.None? <==> c.network.None? || c.defaultKeychain.None?
    ensures r.Some? ==> r.value.network == c.network.value
    ensures r.Some? ==> r.value.descriptors == c.descriptors
    ensures r.Some? ==> r.value.defaultKeychain == c.defaultKeychain.value
  {
    match (c.network, c.defaultKeychain)
    case (Some(network), Some(k)) => Some(KeyRing(network, c.descriptors, k))
    case _ => None
  }

  /** Reconstructing a ring from its snapshot gives back the same ring. */
  lemma RoundTrip<K, D>(r: KeyRing<K, D>)
    ensures FromChangeset(InitialChangeset(r)) == Some(r)
  {
  }

  /** Snapshotting a reconstructed ring gives back the change set it was built from. */
  lemma ChangesetRoundTrip<K, D>(c: ChangeSet<K, D>)
    requires c.network.Some? && c.defaultKeychain.Some?
    ensures FromChangeset(c).Some? && InitialChangeset(FromChangeset(c).value) == c
  {
  }

  /** A change set may name a default it holds no descriptor for; the rebuilt ring keeps it. */
  lemma FromChangesetKeepsUnregisteredDefault()
    ensures var r := FromChangeset(ChangeSet(Some(Regtest), map[1 := 10], Some(2)));
            r.Some? && !DefaultRegistered(r.value)
  {
  }

  /* Operations on a ring keyed by descriptor id. */

  /**
   The guard `new_multipath` writes before indexing the branches: it admits an
   index equal to the number of branches.
   */
  predicate DefaultIndexGuardAsWritten(branches: nat, index: nat): (b: bool)
    ensures b <==> DefaultIndexInRange(branches, index) || index == branches
  {
    branches >= index
  }

  /** The bound the indexing itself enforces, which `NewMultipath` requires. */
  predicate DefaultIndexInRange(branches: nat, index: nat)
  {
    index < branches
  }

  /**
   The counterexample to the written guard: the index equal to the number of
   branches passes it, yet names no branch.
   */
  lemma GuardAsWrittenAdmitsMissingBranch(branches: nat)
    ensures DefaultIndexGuardAsWritten(branches, branches)
    ensures !DefaultIndexInRange(branches, branches)
  {
  }

  /**
   `new_multipath`: every branch of `d` registered under its id, and the branch
   at `index` as the default. The source panics on a descriptor that is invalid for
   the network or single-path, and on an index past the branches.
   */
  function NewMultipath<D(==), Id(==)>(lib: Library<D, Id>, network: Network, d: D, index: nat): (r: KeyRing<Id, D>)
    requires lib.validFor(d, network) && lib.isMultipath(d)
    requires DefaultIndexInRange(|lib.singleDescriptors(d)|, index)
    ensures r.network == network
    ensures r.descriptors.Keys == Ids(lib, lib.singleDescriptors(d))
    ensures forall k :: k in r.descriptors ==> r.descriptors[k] in lib.singleDescriptors(d) && lib.descriptorId(r.descriptors[k]) == k
    ensures DistinctIds(lib, lib.singleDescriptors(d)) ==>
              forall b :: b in lib.singleDescriptors(d) ==> r.descriptors[lib.descriptorId(b)] == b
    ensures r.defaultKeychain == lib.descriptorId(lib.singleDescriptors(d)[index])
    ensures DefaultRegistered(r)
  {
    var bs := lib.singleDescriptors(d);
    var m := InsertBranches(lib, map[], bs);
    assert forall b :: b in bs ==> exists j :: 0 <= j < |bs| && bs[j] == b;
    KeyRing(network, m, lib.descriptorId(bs[index]))
  }

  /** A ring built from a multi-path descriptor satisfies the invariant when its branches are storable. */
  lemma NewMultipathIsValid<D, Id>(lib: Library<D, Id>, network: Network, d: D, index: nat)
    requires lib.validFor(d, network) && lib.isMultipath(d)
    requires DefaultIndexInRange(|lib.singleDescriptors(d)|, index)
    requires BranchesStorable(lib, network, d)
    ensures Valid(lib, NewMultipath(lib, network, d, index))
  {
  }

  /**
   The two-branch scenario: a receive/change pair with distinct ids yields a ring of
   exactly two keychains whose default is the first branch's id.
   */
  lemma TwoBranchScenario<D, Id>(lib: Library<D, Id>, network: Network, d: D)
    requires lib.validFor(d, network) && lib.isMultipath(d)
    requires |lib.singleDescriptors(d)| == 2
    requires DistinctIds(lib, lib.singleDescriptors(d))
    ensures var r := NewMultipath(lib, network, d, 0);
            var bs := lib.singleDescriptors(d);
            && |r.descriptors| == 2
            && r.descriptors == map[lib.descriptorId(bs[0]) := bs[0], lib.descriptorId(bs[1]) := bs[1]]
            && DefaultKeychain(r) == lib.descriptorId(bs[0])
  {
    var r := NewMultipath(lib, network, d, 0);
    var bs := lib.singleDescriptors(d);
    assert bs[0] in bs && bs[1] in bs;
    assert Ids(lib, bs) == {lib.descriptorId(bs[0]), lib.descriptorId(bs[1])};
  }

  /**
   `add_multipath_descriptor`: every branch of `d` registered under its id, every
   other keychain untouched, network and default unchanged. The source panics on a
   descriptor that is invalid for the network or single-path.
   */
  function AddMultipathDescriptor<D(==), Id(==)>(lib: Library<D, Id>, r: KeyRing<Id, D>, d: D): (r': KeyRing<Id, D>)
    requires lib.validFor(d, r.network) && lib.isMultipath(d)
    ensures r'.network == r.network
    ensures r'.defaultKeychain == r.defaultKeychain
    ensures r'.descriptors.Keys == r.descriptors.Keys + Ids(lib, lib.singleDescriptors(d))
    ensures forall k :: k in r.descriptors && k !in Ids(lib, lib.singleDescriptors(d)) ==> r'.descriptors[k] == r.descriptors[k]
    ensures forall k :: k in Ids(lib, lib.singleDescriptors(d)) ==>
              r'.descriptors[k] in lib.singleDescriptors(d) && lib.descriptorId(r'.descriptors[k]) == k
    ensures DistinctIds(lib, lib.singleDescriptors(d)) ==>
              forall b :: b in lib.singleDescriptors(d) ==> r'.descriptors[lib.descriptorId(b)] == b
  {
    var bs := lib.singleDescriptors(d);
    assert forall b :: b in bs ==> exists j :: 0 <= j < |bs| && bs[j] == b;
    r.(descriptors := InsertBranches(lib, r.descriptors, bs))
  }

  /** `add_multipath_descriptor` preserves the invariant when the branches are storable. */
  lemma AddMultipathPreservesValid<D, Id>(lib: Library<D, Id>, r: KeyRing<Id, D>, d: D)
    requires Valid(lib, r)
    requires lib.validFor(d, r.network) && lib.isMultipath(d)
    requires BranchesStorable(lib, r.network, d)
    ensures Valid(lib, AddMultipathDescriptor(lib, r, d))
  {
  }

  /** Adding the same multi-path descriptor twice gives the ring adding it once gives. */
  lemma AddMultipathIdempotent<D, Id>(lib: Library<D, Id>, r: KeyRing<Id, D>, d: D)
    requires lib.validFor(d, r.network) && lib.isMultipath(d)
    ensures var once := AddMultipathDescriptor(lib, r, d);
            AddMultipathDescriptor(lib, once, d) == once
  {
    InsertBranchesIdempotent(lib, r.descriptors, lib.singleDescriptors(d));
  }

  /**
   Splitting is deterministic across reloads: re-adding the descriptor a ring was
   built from, after saving and rebuilding the ring, changes nothing.
   */
  lemma ReaddAfterReloadIsNoop<D, Id>(lib: Library<D, Id>, network: Network, d: D, index: nat)
    requires lib.validFor(d, network) && lib.isMultipath(d)
    requires DefaultIndexInRange(|lib.singleDescriptors(d)|, index)
    ensures var r := NewMultipath(lib, network, d, index);
            var reloaded := FromChangeset(InitialChangeset(r));
            reloaded.Some? && AddMultipathDescriptor(lib, reloaded.value, d) == r
  {
    InsertBranchesIdempotent(lib, map[], lib.singleDescriptors(d));
  }

  /**
   On a ring rebuilt from a change set holding a default but no descriptors,
   `add_multipath_descriptor` leaves the default unregistered, where
   `add_descriptor` would have moved it.
   */
  lemma AddMultipathMayLeaveDefaultUnregistered()
    ensures var lib := Library((d: int) => d == 0, (d: int) => [1, 2], (d: int) => d, (d: int, n: Network) => true);
            var r := FromChangeset(ChangeSet(Some(Regtest), map[], Some(7))).value;
            var r' := AddMultipathDescriptor(lib, r, 0);
            r'.descriptors == map[1 := 1, 2 := 2] && !DefaultRegistered(r')
  {
    var lib := Library((d: int) => d == 0, (d: int) => [1, 2], (d: int) => d, (d: int, n: Network) => true);
    var bs := lib.singleDescriptors(0);
    assert bs == [1, 2];
    assert bs[0] in bs && bs[1] in bs;
    assert Ids(lib, bs) == {1, 2};
  }

  /* The change set of a mutation, merged into the ring's snapshot, gives the mutated ring's snapshot. */

  /** Adding a default descriptor is merging a change set that records it and its keychain as default. */
  lemma AddDefaultDescriptorIsMerge<K, D, Id>(lib: Library<D, Id>, r: KeyRing<K, D>, k: K, d: D)
    requires Storable(lib, r.network, d)
    ensures InitialChangeset(AddDescriptor(lib, r, k, d, true))
         == Merge(InitialChangeset(r), ChangeSet(None, map[k := d], Some(k)))
  {
  }

  /** Adding a multi-path descriptor is merging a change set that records its branches and the same default. */
  lemma AddMultipathIsMerge<D, Id>(lib: Library<D, Id>, r: KeyRing<Id, D>, d: D)
    requires lib.validFor(d, r.network) && lib.isMultipath(d)
    ensures InitialChangeset(AddMultipathDescriptor(lib, r, d))
         == Merge(InitialChangeset(r),
                  ChangeSet(None, InsertBranches(lib, map[], lib.singleDescriptors(d)), Some(r.defaultKeychain)))
  {
    InsertBranchesOverrides(lib, r.descriptors, lib.singleDescriptors(d));
  }

  /** A change set that names no default, merged last, leaves nothing to rebuild a ring from. */
  lemma MergeWithoutDefaultLosesRing<K, D>(r: KeyRing<K, D>, added: map<K, D>)
    ensures FromChangeset(Merge(InitialChangeset(r), ChangeSet(None, added, None))).None?
  {
  }
}
