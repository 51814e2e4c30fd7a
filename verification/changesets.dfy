/**
 The change set of a key ring: the unit of persisted state, and its merge.
 Change sets form an ordered log of intents, not a commutative one.
 */
module ChangeSets {

  import opened Wrappers
  import opened Networks

  /**
   An optional network, the descriptors added under their keychains, and an
   optional default keychain.
   */
  datatype ChangeSet<K, D> = ChangeSet(
    network: Option<Network>,
    descriptors: map<K, D>,
    defaultKeychain: Option<K>)

  /**
   A change set that records nothing about the network or descriptors; a default
   alone does not make it non-empty. Exactly the empty change sets leave `Default`
   unchanged when merged before it.
   */
  predicate IsEmpty<K, D>(c: ChangeSet<K, D>): (b: bool)
    ensures b <==> Merge(c, ChangeSet(None, map[], None)) == ChangeSet(None, map[], None)
  {
    c.network.None? && c.descriptors == map[]
  }

  /** The change set `Default` builds. */
  function Empty<K, D>(): (c: ChangeSet<K, D>)
    ensures IsEmpty(c)
    ensures c.defaultKeychain.None?
  {
    ChangeSet(None, map[], None)
  }

  /**
   Merges `other` into `c`: the network already recorded is kept, `other`'s
   descriptors win on shared keychains, and `other`'s default replaces `c`'s
   even when it is absent.
   */
  function Merge<K, D>(c: ChangeSet<K, D>, other: ChangeSet<K, D>): (r: ChangeSet<K, D>)
    ensures c.network.Some? ==> r.network == c.network
    ensures c.network.None? ==> r.network == other.network
    ensures r.descriptors.Keys == c.descriptors.Keys + other.descriptors.Keys
    ensures forall k :: k in other.descriptors ==> r.descriptors[k] == other.descriptors[k]
    ensures forall k :: k in c.descriptors && k !in other.descriptors ==> r.descriptors[k] == c.descriptors[k]
    ensures r.defaultKeychain == other.defaultKeychain
  {
    ChangeSet(
      if other.network.Some? && c.network.None? then other.network else c.network,
      c.descriptors + other.descriptors,
      other.defaultKeychain)
  }

  /** Merging is associative. */
  lemma MergeAssociative<K, D>(a: ChangeSet<K, D>, b: ChangeSet<K, D>, c: ChangeSet<K, D>)
    ensures Merge(Merge(a, b), c) == Merge(a, Merge(b, c))
  {
  }

  /** Every empty change set, one holding only a default among them, is a left identity. */
  lemma EmptyIsLeftIdentity<K, D>(c: ChangeSet<K, D>, x: ChangeSet<K, D>)
    requires IsEmpty(c)
    ensures Merge(c, x) == x
  {
  }

  /** Only an empty change set leaves `Default` unchanged when merged into it from the left. */
  lemma LeftIdentityIsEmpty<K, D>(c: ChangeSet<K, D>)
    requires Merge(c, Empty()) == Empty()
    ensures IsEmpty(c)
  {
  }

  /**
   `Default` is not a right identity: merging it keeps the network and the
   descriptors but clears the default.
   */
  lemma EmptyClearsDefaultOnTheRight<K, D>(x: ChangeSet<K, D>)
    ensures Merge(x, Empty()) == x.(defaultKeychain := None)
    ensures x.defaultKeychain.Some? ==> Merge(x, Empty()) != x
  {
  }

  /** Merging a change set into itself, or replaying the last one merged, changes nothing. */
  lemma MergeReplayIdempotent<K, D>(x: ChangeSet<K, D>, y: ChangeSet<K, D>)
    ensures Merge(x, x) == x
    ensures Merge(Merge(x, y), y) == Merge(x, y)
  {
  }
}
