/**
 The descriptor operations the key ring calls into, kept uninterpreted, and the
 insertion of a multi-path descriptor's branches keyed by descriptor id.
 */
module Descriptors {

  import opened Networks

  /**
   The descriptor library as the key ring sees it. `D` stands for a parsed public
   descriptor and `Id` for a descriptor id.
   - `isMultipath`: whether a descriptor has more than one derivation path;
   - `singleDescriptors`: the single-path branches of a multi-path descriptor, in order;
   - `descriptorId`: the deterministic id of a descriptor;
   - `validFor`: whether converting the descriptor for a network succeeds.
   */
  datatype Library<!D, Id> = Library(
    isMultipath: D -> bool,
    singleDescriptors: D -> seq<D>,
    descriptorId: D -> Id,
    validFor: (D, Network) -> bool)

  /** The ids of a sequence of branches. */
  function Ids<D(==), Id(==)>(lib: Library<D, Id>, bs: seq<D>): set<Id>
  {
    set b | b in bs :: lib.descriptorId(b)
  }

  /** No later branch than `bs[j]` has the same id, so `bs[j]` is the one stored under it. */
  ghost predicate LastWithId<D, Id>(lib: Library<D, Id>, bs: seq<D>, j: int)
    requires 0 <= j < |bs|
  {
    forall j' :: j < j' < |bs| ==> lib.descriptorId(bs[j']) != lib.descriptorId(bs[j])
  }

  /** Distinct branches of a well-formed multi-path descriptor have distinct ids. */
  ghost predicate DistinctIds<D, Id>(lib: Library<D, Id>, bs: seq<D>)
  {
    forall i, j :: 0 <= i < j < |bs| ==> lib.descriptorId(bs[i]) != lib.descriptorId(bs[j])
  }

  /** A descriptor the key ring may store for `net`: single-path and valid for it. */
  predicate Storable<D, Id>(lib: Library<D, Id>, net: Network, d: D)
  {
    !lib.isMultipath(d) && lib.validFor(d, net)
  }

  /** The library delivers storable branches for a multi-path descriptor valid for `net`. */
  ghost predicate BranchesStorable<D, Id>(lib: Library<D, Id>, net: Network, d: D)
  {
    forall b :: b in lib.singleDescriptors(d) ==> Storable(lib, net, b)
  }

  /**
   Inserts the branches `bs` into `m`, one after the other, each under its own id;
   a later branch overwrites an earlier one with the same id.
   */
  function InsertBranches<D(==), Id(==)>(lib: Library<D, Id>, m: map<Id, D>, bs: seq<D>): (r: map<Id, D>)
    ensures r.Keys == m.Keys + Ids(lib, bs)
    ensures forall k :: k in m && k !in Ids(lib, bs) ==> r[k] == m[k]
    ensures forall k :: k in Ids(lib, bs) ==> r[k] in bs && lib.descriptorId(r[k]) == k
    ensures forall j :: 0 <= j < |bs| && LastWithId(lib, bs, j) ==> r[lib.descriptorId(bs[j])] == bs[j]
    ensures DistinctIds(lib, bs) ==> forall j :: 0 <= j < |bs| ==> r[lib.descriptorId(bs[j])] == bs[j]
    decreases |bs|
  {
    if |bs| == 0 then m
    else
      var front, last := bs[..|bs| - 1], bs[|bs| - 1];
      assert bs == front + [last];
      assert Ids(lib, bs) == Ids(lib, front) + {lib.descriptorId(last)};
      InsertBranches(lib, m, front)[lib.descriptorId(last) := last]
  }

  /** Inserting branches into `m` overrides `m` with the map the branches alone build. */
  lemma {:induction false} InsertBranchesOverrides<D, Id>(lib: Library<D, Id>, m: map<Id, D>, bs: seq<D>)
    ensures InsertBranches(lib, m, bs) == m + InsertBranches(lib, map[], bs)
    decreases |bs|
  {
    if |bs| > 0 {
      InsertBranchesOverrides(lib, m, bs[..|bs| - 1]);
    }
  }

  /** Inserting the same branches a second time changes nothing. */
  lemma InsertBranchesIdempotent<D, Id>(lib: Library<D, Id>, m: map<Id, D>, bs: seq<D>)
    ensures InsertBranches(lib, InsertBranches(lib, m, bs), bs) == InsertBranches(lib, m, bs)
  {
    var once := InsertBranches(lib, m, bs);
    InsertBranchesOverrides(lib, m, bs);
    InsertBranchesOverrides(lib, once, bs);
  }
}
