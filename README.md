# Referral tree engine — a Dafny model

This project models the `Referrals` class of the telegraf referral system. The
class keeps a bounded-depth referral tree with one document per user in a keyed
collection. A document holds:

- a `payload`;
- a `parents` map from level `k` to the id of the ancestor `k` hops up;
- a `childrens` map from level `k` to the list of copies `{_id, payload}` of the
  descendants `k` hops down.

The number of levels is `referralLevels`, 3 unless the caller gives another.
The collection becomes `store: map<string, Doc>` in the class `Referrals.Referrals`.
The store's single-document edits are modelled in `Documents`:

- `$push` onto a level list;
- `$set` of the first element matched by an `$elemMatch` filter (the positional `$`);
- `$unset` of a level key;
- `insertOne` and `findOneAndDelete`.

Each engine operation is a method that issues those writes one at a time, with
loops where the source loops. Each method is proved to reach the store given
by a specification function:

- `Created` for `createReferral`;
- `PayloadUpdated` for `updateReferralPayload`;
- `Removed` for `removeReferral`.

`ReferralProperties` then states, document by document, what each operation
does.

`Consistency` defines the collection's cross-document invariant, `Consistent`:

- every ancestor link `(n, k, a)` is mirrored by a copy of `n` in `a`'s level-k list;
- every copy belongs to a stored node with that link and carries its payload;
- no list holds one id twice.

`createReferral` and `updateReferralPayload` keep this invariant.
`removeReferral` is modelled as the source writes it: it unsets the whole level
list of each ancestor that holds the node. So a removal keeps no copy of the
removed node, but it also drops the copies of every sibling at those levels,
and the mirror half of the invariant fails. `RemoveMirrorsExactly` and
`RemoveDropsSiblings` state which links are lost. Pulling the one element, as
the update path targets one element, looks like the intended behaviour. The
model follows the code as written and does not apply that fix.

`Scenario` follows one referral chain r → u1 → u2 → u3 through creation, a
payload change and a removal.

Files: `documents.dfy` (module `Documents`), `referrals.dfy` (module `Referrals`),
`properties.dfy` (module `ReferralProperties`), `consistency.dfy` (module
`Consistency`), `scenario.dfy` (module `Scenario`).

## Model

| member | source | states |
|---|---|---|
| Documents.IndexOf | src/index.js:105-106 | the position the positional `$` picks: within bounds, holding the id when in bounds, and no earlier element holds the id |
| Documents.Matches | src/index.js:105 | the `$elemMatch` filter on one level holds exactly when the list at that level (empty when absent) holds a copy with the id |
| Documents.Push | src/index.js:38-42 | `$push` onto the named levels (also the fan-out push at lines 70-72) keeps payload and ancestors, and the level keys become the old ones plus the pushed levels |
| Documents.SetFirstPayload | src/index.js:106 | the positional `$set` on one list keeps its length and the id at every position |
| Documents.SetPayloadAt | src/index.js:105-106 | the positional payload update keeps the document's payload, ancestors and level keys |
| Documents.Unset | src/index.js:137 | `$unset` of level keys keeps payload and ancestors, empties every unset level and leaves every other level as it was |
| Documents.PushAppends | src/index.js:38-42 | `$push` appends the copy as the last element of each targeted level, creates an absent level, and leaves payload, ancestors and other levels unchanged |
| Documents.SetFirstPayloadEffect | src/index.js:105-106 | the positional `$set` keeps length and ids; when the id occurs, only its first occurrence takes the new payload; otherwise the list is unchanged |
| Documents.SetPayloadNoMatch | src/index.js:105-106 | when the `$elemMatch` filter does not match, the update leaves the document unchanged |
| Referrals.HasParent | src/index.js:33 | JavaScript truthiness of `parent`: true exactly when it is given and is not the empty string |
| Referrals.Top | src/index.js:50 | the highest derived level: at least 1 (level 1 is always set at line 47) and equal to `levels` when that is positive |
| Referrals.ChildParents | src/index.js:47-55 | the derived ancestor map holds the parent at level 1, and every other level lies in 1..max(L, 1) and holds a non-empty id |
| Referrals.PushToAncestor | src/index.js:65-73 | one fan-out write keeps the set of ids and leaves every document other than the level's ancestor unchanged |
| Referrals.FannedOut | src/index.js:62-78 | the fan-out keeps the set of ids and every document's payload and ancestors |
| Referrals.Created | src/index.js:32-86 | creation adds exactly the new id to the store and keeps the payload and ancestors of every other document |
| Referrals.PayloadSpread | src/index.js:101-109 | the ancestor-side payload writes keep the set of ids and every document's own payload and ancestors |
| Referrals.PayloadUpdated | src/index.js:95-118 | the update keeps the set of ids; the node gets the new payload and keeps its ancestors; every other document keeps its payload and ancestors |
| Referrals.Unlinked | src/index.js:132-140 | the ancestor-side unsets keep the set of ids and every document's payload and ancestors |
| Referrals.Removed | src/index.js:126-147 | removal drops exactly the node's id, and every remaining document keeps its payload and ancestors |
| Referrals.Lookup | src/index.js:155-167 | `findOne` by key finds a document exactly when the id is stored, and then it is the stored document |
| Referrals.FannedOutAt | src/index.js:62-78 | the ascending fan-out loop, per document: each stored document gets the copy at exactly the levels 2..L where it is the non-empty ancestor; no document is added |
| Referrals.PayloadSpreadStep | src/index.js:101-109 | one more ancestor level rewrites at most the first copy of the node in that ancestor's list, and only when the filter matches |
| Referrals.UnlinkedStep | src/index.js:132-140 | one more ancestor level unsets that whole level of the ancestor when its list holds the node, and changes nothing otherwise |
| Referrals.AnyLevel | src/index.js:102 | picks some pending ancestor level; the iteration order is left open |
| Referrals.Referrals.constructor | src/index.js:9-13 | the engine is bound to the given collection with `levels` defaulting to 3 |
| Referrals.Referrals.PushChild | src/index.js:15-18 | `findOneAndUpdate` with `$push`: the named document gains the copy at that level and the updated document is returned; a missing document leaves the store unchanged and returns nothing |
| Referrals.Referrals.InsertReferral | src/index.js:20-22 | `insertOne` of a fresh id adds exactly that document |
| Referrals.Referrals.SetCopyPayload | src/index.js:105-106 | the filtered `$set`: the ancestor's first matching copy takes the payload when the filter matches; otherwise nothing changes |
| Referrals.Referrals.UnsetCopies | src/index.js:136-137 | the filtered `$unset`: the ancestor loses its whole level key when its list holds the node; otherwise nothing changes |
| Referrals.Referrals.DeriveParents | src/index.js:47-55 | the `childrenParents` loop yields exactly `ChildParents(parent, user.parents, levels)` |
| Referrals.Referrals.FanOut | src/index.js:62-78 | the fan-out loop leaves the store equal to `FannedOut` of the store before |
| Referrals.Referrals.CreateReferral | src/index.js:32-86 | the store after creation is `Created(old store, …)`, and the returned document holds the payload and the derived ancestors (none for a root) |
| Referrals.Referrals.UpdateReferralPayload | src/index.js:95-118 | in any order of ancestor levels, the store after the update is `PayloadUpdated(old store, id, payload)`; the node's updated document is returned |
| Referrals.Referrals.RemoveReferral | src/index.js:126-147 | in any order of ancestor levels, the store after removal is `Removed(old store, id)`; the deleted document is returned |
| Referrals.Referrals.GetReferrals | src/index.js:155-167 | returns a document exactly when the id is stored, and then the stored document |
| ReferralProperties.ChildParentsExact | src/index.js:47-55 | the new ancestor map holds `1 ↦ parent`, and `k+1 ↦ pp[k]` for each non-empty `pp[k]` with `k < L`; nothing else; for `L ≥ 1` every level lies in 1..L |
| ReferralProperties.ChildParentsThree | src/index.js:47-55 | with three levels, the map is the parent plus the parent's non-empty level-1 and level-2 ancestors shifted down one level |
| ReferralProperties.ChildParentsChain | test.js:72-93 | in the chain r → u1 → u2 → u3 with three levels, u3 records `{1: u2, 2: u1, 3: r}`; one generation further the root is dropped |
| ReferralProperties.CreateRoot | src/index.js:80-85 | a root creation adds exactly `{id, payload}` with no ancestors and no children; every other document is unchanged |
| ReferralProperties.CreatedAt | src/index.js:32-79 | creation under a parent, per document: one new key; the parent gets the copy at level 1; every document gets it at its fan-out levels |
| ReferralProperties.CreateLinksParent | src/index.js:33-45 | the parent's level-1 list gains the copy as its last element (the list is created if absent); payload, ancestors and levels outside the fan-out are unchanged |
| ReferralProperties.CreateStoresNode | src/index.js:47-61 | the new document holds the payload and the derived ancestors, and no children when it is not among its own ancestors |
| ReferralProperties.CreateFansOut | src/index.js:62-78 | each stored ancestor of level 2..L gets the copy appended at that level |
| ReferralProperties.CreateBounded | src/index.js:50-65 | no document's list changes past level `max(L, 1)` |
| ReferralProperties.CreateLeavesOthers | src/index.js:62-78 | documents that are neither the parent nor an ancestor of the new node are unchanged |
| ReferralProperties.UpdateOwnFields | src/index.js:112-115 | the node's payload becomes the new value; keys, ancestor maps, level keys and other payloads stay |
| ReferralProperties.UpdateRewritesFirstCopy | src/index.js:101-109 | at each ancestor level, only the first copy with the id takes the new payload; every other element is unchanged |
| ReferralProperties.UpdateLeavesOtherLevels | src/index.js:101-109 | lists at levels where the document is not the node's ancestor are unchanged |
| ReferralProperties.UpdateRoot | src/index.js:101-117 | updating a root changes only its own payload |
| ReferralProperties.RemoveEffect | src/index.js:126-146 | removal deletes the node; an ancestor loses its level-k key exactly when it is the level-k ancestor and that list holds the node; nothing else changes, descendants' ancestor maps included |
| ReferralProperties.LookupCreatedRoot | src/index.js:155-167 | after creating a root, the lookup yields `{payload}` with no ancestors |
| ReferralProperties.LookupRemoved | src/index.js:142-145 | after removal, the lookup finds nothing |
| Consistency.FreshNowhere | src/index.js:57-61 | in a backed store, no list holds a copy of an id that is not stored |
| Consistency.DerivedStored | src/index.js:47-55 | when every link is mirrored, the derived ancestors are non-empty stored ids |
| Consistency.CreateTargetsExact | src/index.js:35-75 | during creation a document receives the copy at exactly the levels where it is the new node's ancestor |
| Consistency.CreatedLevel | src/index.js:32-78 | one old document after creation gains the copy at level k exactly when it is the new node's level-k ancestor, and its level keys grow by exactly those levels |
| Consistency.CreatedNode | src/index.js:57-61 | in a mirrored store, the new document holds the derived ancestors and no children |
| Consistency.CreatedShape | src/index.js:32-79 | creation in a mirrored store grows the store by the new node and its copies |
| Consistency.GrownLinkCopied | src/index.js:35-78 | after growth, each link, old or new, still has its copy |
| Consistency.GrownKeepsMirrored | src/index.js:35-78 | growth keeps every link mirrored |
| Consistency.GrownKeepsBacked | src/index.js:35-78 | growth keeps every copy backed by its node |
| Consistency.GrownKeepsUnique | src/index.js:35-78 | growth keeps ids distinct in every list |
| Consistency.CreateRootPreservesConsistency | src/index.js:80-85 | creating a root with a fresh id keeps the store consistent |
| Consistency.CreatePreservesConsistency | src/index.js:32-79 | creating under a stored parent with a fresh id keeps the store consistent |
| Consistency.UpdatedLevel | src/index.js:101-117 | in a consistent store, every copy of the node takes the new payload and every other copy stays |
| Consistency.UpdatePreservesConsistency | src/index.js:95-118 | a payload update keeps the store consistent |
| Consistency.MirroredWithPayload | src/index.js:35-78 | in a consistent store, the level-k ancestor of every node is stored and its level-k list holds `{_id, payload}` of the node with its current payload |
| Consistency.RemovedLevel | src/index.js:132-146 | in a consistent store, removal empties the level-k list of the node's level-k ancestor, siblings included, and leaves every other list |
| Consistency.RemoveLeavesNoCopy | src/index.js:126-146 | after removal no list holds the node, and every remaining copy is still backed and unique |
| Consistency.RemoveMirrorsExactly | src/index.js:132-146 | a remaining link stays mirrored exactly when its ancestor is neither the removed node nor the removed node's ancestor at that level |
| Consistency.RemoveDropsSiblings | src/index.js:136-137 | removing one of two siblings under the same ancestor unsets that ancestor's level; the other sibling keeps its ancestor but loses its copy, so the store is no longer mirrored |
| Scenario.ChainRoot | test.js:32-37 | the first root is the only document, with no ancestors and no children |
| Scenario.ChainChild | test.js:39-50 | the child appears in the root's level-1 list |
| Scenario.ChainGrandchild | test.js:52-70 | the grandchild appears in its parent's level-1 and the root's level-2 list |
| Scenario.ChainGreatGrandchild | test.js:72-93 | the great-grandchild appears at levels 1, 2 and 3 of its three ancestors, and the root has level keys 1, 2 and 3 only |
| Scenario.ChainUpdate | test.js:114-127 | after the payload change, the copies at all three ancestors carry the new payload |
| Scenario.ChainRemove | test.js:129-141 | after removal the document is gone and no list holds it |
| Scenario.ChainScenario | test.js:32-141 | the whole chain: a consistent store; the root has no ancestors, exactly the level keys 1, 2 and 3, and lists its descendants there; then the update and the removal as above |

## Left out

- The MongoDB driver is not modelled: `db.collection`, `collectionName`, the `new` and `returnDocument` flags and the driver's result shapes. The store is a map from `_id` to the rest of the document.
- Referrals.Referrals.CreateReferral: returns the inserted document in the root branch too; the source returns the driver's insert acknowledgement there (src/index.js:81-84).
- Referrals.Referrals.UpdateReferralPayload: returns the node's document after its own write; the source returns the array of all driver results.
- Referrals.Referrals.RemoveReferral: returns the deleted document; the source returns the array of all driver results.
- `Promise.all` dispatch is not modelled (src/index.js:77, 111-117, 142-146). The writes are applied one at a time:
  - the fan-out in ascending level order;
  - for update and removal, the node's own write first, then the ancestor levels in an arbitrary order, proved to give the same store for every order.
  Interleavings with other callers are not modelled.
- Driver failures are preconditions instead of error paths:
  - the new id is fresh (a duplicate fails at `insertOne` after the parent was already pushed, and that partial state is not modelled);
  - the parent exists (a missing parent dereferences null at src/index.js:49);
  - the node exists for update and removal (src/index.js:102, 133).
- The `...options` projection override and the `__v` exclusion in `getReferrals` (src/index.js:160-165) are not modelled. A stored `Doc` has no `_id` field, so the `_id: 0` projection holds by construction.
- Level keys are JavaScript object keys (strings) in the source; the model uses integers.
- An omitted `payload` is modelled as a string value; the absent-field case is not distinguished.
- test.js is not modelled; its expectations are the basis of the `Scenario` lemmas.
