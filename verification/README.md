# Multi-keychain key ring, modelled in Dafny

This project models the key ring of the multi-keychain wallet and the change set
that persists it (`src/multi_keychain/keyring.rs`).

A `KeyRing` holds three things:
- a network;
- a map from keychain identifiers to single-path public descriptors;
- one default keychain.

A `ChangeSet` holds three things:
- an optional network;
- the descriptors added under their keychains;
- an optional default keychain.

Change sets merge as an ordered log:
- the first network recorded wins;
- the later descriptor wins on a shared keychain;
- the later default always wins, even when it is absent.

The descriptor library is not modelled. Its operations are the fields of a
`Descriptors.Library` value, which every operation that uses them takes as a
parameter. Nothing is assumed about these functions beyond what each lemma states
in its `requires`:
- whether a descriptor is multi-path;
- the split into single-path branches;
- the descriptor id;
- whether a descriptor converts for a network.

Descriptors and descriptor ids are type parameters. The identifier of a ring built
from a multi-path descriptor is the descriptor id, as with the `Did` alias.

Modules:
- `Wrappers`: `Option`.
- `Networks`: the network tag.
- `Descriptors`: the library interface, and the insertion of a multi-path
  descriptor's branches under their ids.
- `ChangeSets`: the change set, `Default`, `merge` and `is_empty`.
- `KeyRings`: the key ring, its operations, the snapshot/rebuild round trip, and
  how ring mutations correspond to merged change sets.

The source panics in several places, and each of these is a `requires` of the
operation:
- the `expect` on converting a descriptor for the network (keyring.rs:50, 94, 125);
- the `assert!` on the wrong descriptor shape (keyring.rs:52-55, 96-99, 127-130);
- indexing the branches past their end (keyring.rs:106).

`KeyRing::new` (keyring.rs:32-38) takes an already-parsed descriptor and neither
checks it against the network nor rejects a multi-path one. So `KeyRings.New` has
no precondition, and the ring invariant holds after it only for a storable descriptor (`KeyRings.NewIsValid`).

The ring invariant `KeyRings.Valid` has two parts:
- the default is a registered keychain;
- every stored descriptor is single-path and valid for the ring's network.

`new`, `add_descriptor` and `add_multipath_descriptor` keep the invariant.
`from_changeset` does not check it. A change set may name a default it holds no
descriptor for, and an empty-map ring rebuilt from a change set breaks the weaker
"non-empty map implies registered default" reading under `add_multipath_descriptor`.
This is shown by `KeyRings.FromChangesetKeepsUnregisteredDefault` and
`KeyRings.AddMultipathMayLeaveDefaultUnregistered`.

## Model

| member | source | states |
|---|---|---|
| `Descriptors.InsertBranches` | src/multi_keychain/keyring.rs:134-137 | inserting branches one by one under their ids: the keys are the old keys plus the branch ids; keys without a branch keep their value; each id holds a branch with that id, namely the last such branch; with distinct ids every branch is stored under its own id |
| `Descriptors.InsertBranchesOverrides` | src/multi_keychain/keyring.rs:108-111 | inserting branches into a map equals overriding the map with the map the branches alone collect into |
| `Descriptors.InsertBranchesIdempotent` | src/multi_keychain/keyring.rs:134-137 | inserting the same branches a second time leaves the map unchanged |
| `ChangeSets.Empty` | src/multi_keychain/keyring.rs:152-160 | `Default` is empty and has no default keychain |
| `ChangeSets.Merge` | src/multi_keychain/keyring.rs:163-172 | a recorded network is kept, else the other's is adopted; the descriptor keys are the union; the other's descriptor wins on shared keys and the rest are carried through; the default is the other's, absent or not |
| `ChangeSets.IsEmpty` | src/multi_keychain/keyring.rs:174-176 | true iff no network and no descriptors, the default being ignored; equivalently, `c.merge(Default) == Default` |
| `ChangeSets.MergeAssociative` | src/multi_keychain/keyring.rs:163-172 | merge is associative |
| `ChangeSets.EmptyIsLeftIdentity` | src/multi_keychain/keyring.rs:174-176 | any empty change set, including one holding only a default, is a left identity of merge |
| `ChangeSets.LeftIdentityIsEmpty` | src/multi_keychain/keyring.rs:174-176 | a change set `c` with `c.merge(Default) == Default` is empty, so emptiness is exactly left identity |
| `ChangeSets.EmptyClearsDefaultOnTheRight` | src/multi_keychain/keyring.rs:152-172 | merging `Default` on the right keeps the network and descriptors but clears the default, so it is not a right identity |
| `ChangeSets.MergeReplayIdempotent` | src/multi_keychain/keyring.rs:163-172 | merging a change set with itself, or replaying the last change set merged, changes nothing |
| `KeyRings.New` | src/multi_keychain/keyring.rs:32-38 | the ring has the given network, exactly the one binding of the given keychain to the descriptor, and that keychain as a registered default |
| `KeyRings.NewIsValid` | src/multi_keychain/keyring.rs:32-38 | the ring invariant holds after construction from a storable descriptor |
| `KeyRings.AddDescriptor` | src/multi_keychain/keyring.rs:42-61 | the descriptor is registered under the keychain, replacing any old one; every other binding is unchanged; the network never changes; the keychain becomes the default iff asked or the map was empty, else the default is unchanged; requires a storable descriptor |
| `KeyRings.AddDescriptorPreservesValid` | src/multi_keychain/keyring.rs:57-60 | `add_descriptor` preserves the ring invariant |
| `KeyRings.AddDescriptorRegistersDefault` | src/multi_keychain/keyring.rs:57-60 | after `add_descriptor` on a ring with a registered default or no descriptors, the default is registered |
| `KeyRings.DefaultKeychain` | src/multi_keychain/keyring.rs:64-66 | the returned keychain is registered when the ring's default is |
| `KeyRings.DefaultSelectionScenario` | src/multi_keychain/keyring.rs:32-61 | keychain 1 added first stays the default when keychain 2 is added without the flag; re-adding 2 with the flag makes 2 the default, with both bindings present |
| `KeyRings.InitialChangeset` | src/multi_keychain/keyring.rs:69-75 | the snapshot is never empty, carries the ring's descriptors, and names a default |
| `KeyRings.FromChangeset` | src/multi_keychain/keyring.rs:78-85 | the result is absent iff the network or the default is absent; otherwise the ring carries exactly the change set's network, descriptors and default |
| `KeyRings.RoundTrip` | src/multi_keychain/keyring.rs:69-85 | rebuilding a ring from its snapshot returns the same ring |
| `KeyRings.ChangesetRoundTrip` | src/multi_keychain/keyring.rs:69-85 | a change set with a network and a default is the snapshot of the ring rebuilt from it |
| `KeyRings.FromChangesetKeepsUnregisteredDefault` | src/multi_keychain/keyring.rs:78-85 | rebuilding accepts a default that has no descriptor |
| `KeyRings.DefaultIndexGuardAsWritten` | src/multi_keychain/keyring.rs:105 | the guard as written, `len >= index`: it admits exactly the branch indices and the one index equal to the number of branches |
| `KeyRings.GuardAsWrittenAdmitsMissingBranch` | src/multi_keychain/keyring.rs:105-106 | the written guard on the default index admits the index equal to the number of branches, which is not a branch index |
| `KeyRings.NewMultipath` | src/multi_keychain/keyring.rs:91-119 | the keys are exactly the branch ids; each key holds a branch with that id; with distinct ids each branch is stored under its id; the default is the id of the branch at the index, and it is registered; requires a valid multi-path descriptor and an index below the number of branches |
| `KeyRings.NewMultipathIsValid` | src/multi_keychain/keyring.rs:91-119 | the ring invariant holds when the library delivers storable branches |
| `KeyRings.TwoBranchScenario` | src/multi_keychain/keyring.rs:91-119 | with two branches of distinct ids and index 0, the ring has exactly those two bindings and the first branch's id as default |
| `KeyRings.AddMultipathDescriptor` | src/multi_keychain/keyring.rs:122-138 | the keys become the old keys plus the branch ids; keys without a branch keep their descriptor; each branch id holds a branch with that id; network and default are unchanged; requires a valid multi-path descriptor |
| `KeyRings.AddMultipathPreservesValid` | src/multi_keychain/keyring.rs:134-137 | `add_multipath_descriptor` preserves the ring invariant when the branches are storable |
| `KeyRings.AddMultipathIdempotent` | src/multi_keychain/keyring.rs:122-138 | adding the same multi-path descriptor twice gives the ring adding it once gives |
| `KeyRings.ReaddAfterReloadIsNoop` | src/multi_keychain/keyring.rs:69-138 | snapshotting and rebuilding a ring built from a multi-path descriptor, then re-adding that descriptor, gives back the original ring |
| `KeyRings.AddMultipathMayLeaveDefaultUnregistered` | src/multi_keychain/keyring.rs:122-138 | on a rebuilt ring with no descriptors, adding a multi-path descriptor leaves the default unregistered |
| `KeyRings.AddDefaultDescriptorIsMerge` | src/multi_keychain/keyring.rs:42-75 | the snapshot after adding a default descriptor is the old snapshot merged with a change set holding that binding and that default |
| `KeyRings.AddMultipathIsMerge` | src/multi_keychain/keyring.rs:122-172 | the snapshot after adding a multi-path descriptor is the old snapshot merged with a change set holding the branches and the unchanged default |
| `KeyRings.MergeWithoutDefaultLosesRing` | src/multi_keychain/keyring.rs:78-172 | merging a change set without a default into a snapshot leaves nothing `from_changeset` can rebuild |

## Left out

- Converting descriptor input for a network (`into_wallet_descriptor`, which accepts any `IntoWalletDescriptor`, such as a descriptor string): inputs are taken to be already-converted public descriptors, which conversion returns unchanged. Only whether conversion succeeds is modelled, by the `validFor` field of `Descriptors.Library`.
- Detecting multi-path descriptors, splitting them into branches, and computing descriptor ids: these are library calls, modelled as the uninterpreted fields `isMultipath`, `singleDescriptors` and `descriptorId` of `Descriptors.Library`.
- The `expect` on splitting a multi-path descriptor into branches: the split is a total function here, so that failure is not modelled.
- The secp256k1 context held by the ring: it is stateless and has no behaviour to state.
- Serialisation of change sets: there is no visible encoding to model.
- Ordering of the keychain map: no property depends on iteration order, so it is a Dafny `map`.
- Test utilities, the example program and module wiring: these are wallet and transaction plumbing around the key ring.

## Findings

| source | as written | input that shows it | evidently intended | confidence | as-written member | corrected member |
|---|---|---|---|---|---|---|
| src/multi_keychain/keyring.rs:105-106 | the guard `descriptors.len() >= default_keychain` is checked before indexing the branches with that index | a two-branch multi-path descriptor with default index 2 passes the guard, then the indexing panics | the guard should reject every index that is not below the number of branches, so the assertion is the check that fails | high; not executed | `KeyRings.DefaultIndexGuardAsWritten`, `KeyRings.GuardAsWrittenAdmitsMissingBranch` | `KeyRings.NewMultipath` |
