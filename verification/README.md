# Pilares client store, modelled in Dafny

This project models the client-side state cache of the "Pilares" habit-tracking
app (`store/useStore.ts`). The cache is a single in-memory record with nine slots.
Seven are ordered collections: pillars, weeklies, calendar events, proposals,
restricted apps, active app sessions and motivational phrases. The other two are
the optional current weekly and the credit balance. Eighteen synchronous actions
each replace one slot:

- `setX(list)` replaces a collection (or a scalar) outright;
- `addX(item)` appends `[...xs, item]`;
- `updateX(id, partial)` maps `{ ...x, ...partial }` over every element whose `id` is `id`;
- `deleteX(id)` filters out every element whose `id` is `id`.

The project has four modules:

- `Options` is the optional value. It stands for `T | null`, for `x?: T` and for one key of a `Partial<T>`.
- `Entities` holds the seven record types. For the three kinds that have an update action it also holds the patch type (`Partial<T>` without the `id`) and the shallow merge `{ ...x, ...patch }`, together with that merge's laws.
- `Collection` holds append, update-by-id and remove-by-id. They are generic in the element type: `idOf` reads an element's `id` and `merge` is its shallow merge. The lemmas cover length, order, no-op on a missing id, idempotence, exact removal, and ids staying unique.
- `UseStore` holds three things. `State` is the nine slots as one value. `Step` gives the effect of one action and its contract is the frame condition. The class `Store` keeps the nine slots as fields. Its methods are the actions, and each one is proved to change only its own field, in exactly the way `Step` says.

## Model

| member | source | states |
|---|---|---|
| `Entities.MergePillar` | store/useStore.ts:116 | The merged pillar keeps its id. Every field the patch carries replaces the old value, and every field it omits is kept. |
| `Options.OrLaws` | store/useStore.ts:116 | For one key of a spread: `None` is the identity of the right-biased union on both sides, the union is associative, and reading a field after `{ ...a, ...b }` gives `b`'s value when `b` has one and `a`'s otherwise. |
| `Entities.MergePillarLaws` | store/useStore.ts:116 | An empty patch changes nothing. Applying the same patch twice gives the same result as applying it once. Applying `a` then `b` equals applying their right-biased union, i.e. the patch `{ ...a, ...b }`. That union is associative and has the empty patch as identity, so any run of updates acts as one patch. |
| `Entities.MergeEvent` | store/useStore.ts:128 | Same as MergePillar for calendar events, including the optional `task_id` and `pillar_id`. |
| `Entities.MergeEventLaws` | store/useStore.ts:128 | The identity, idempotence and composition laws, and associativity and identity of the patch union, for event patches. |
| `Entities.MergeProposal` | store/useStore.ts:137 | Same as MergePillar for proposals, e.g. archiving through `archived`. |
| `Entities.MergeProposalLaws` | store/useStore.ts:137 | The identity, idempotence and composition laws, and associativity and identity of the patch union, for proposal patches. |
| `Collection.Append` | store/useStore.ts:114 | `[...xs, x]`: the length grows by exactly one, `x` is last, and every earlier element is unchanged and in order. There is no duplicate-id check. The same holds at lines 126 and 135. |
| `Collection.AppendUnique` | store/useStore.ts:114 | After an add, ids are unique if and only if they were unique before and the added id was new. |
| `Collection.UpdateById` | store/useStore.ts:115-117 | The update has the same length as its input. Position by position, an element whose id equals `id` becomes its merge with the patch, and any other element is left as it was. |
| `Collection.UpdateAbsent` | store/useStore.ts:116 | Updating an id that no element has leaves the collection unchanged. |
| `Collection.UpdateAt` | store/useStore.ts:115-117 | With unique ids, updating the id of element `k` changes element `k` only, to its merged value. |
| `Collection.UpdateKeepsIds` | store/useStore.ts:116 | If the merge keeps ids, every position keeps its id. The set of present ids and their uniqueness are then unchanged too. |
| `Collection.UpdateTwice` | store/useStore.ts:115-117 | Two updates of one id equal a single update with the combined patch, as long as the merge keeps ids and composes. |
| `Collection.RemoveById` | store/useStore.ts:118-120 | The `filter` result keeps exactly the elements whose id differs from `id`. It is shorter by the number of elements that had that id. |
| `Collection.RemoveConcat` | store/useStore.ts:119 | Removing distributes over concatenation, so the survivors keep their original relative order. |
| `Collection.RemoveAbsent` | store/useStore.ts:119 | Deleting an id that no element has leaves the collection unchanged. |
| `Collection.RemoveIdempotent` | store/useStore.ts:119 | Deleting the same id twice gives the same result as deleting it once. |
| `Collection.RemoveAt` | store/useStore.ts:118-120 | With unique ids, deleting the id of element `k` gives `xs[..k] + xs[k+1..]`, which is exactly one shorter. |
| `Collection.RemoveKeepsUnique` | store/useStore.ts:119 | Deleting keeps ids unique, and afterwards no element has the deleted id. |
| `Collection.RemoveAfterAppend` | store/useStore.ts:114-119 | Adding an element with a new id and then deleting that id gives back the original collection. |
| `UseStore.Step` | store/useStore.ts:113-146 | Frame condition: each action writes only its own slot. Every other collection, `currentWeekly` and `creditBalance` keep their values; for example, `deleteEvent` never touches `pillars` or `proposals`. |
| `UseStore.StepUniqueKeys` | store/useStore.ts:113-146 | Start from a state with unique ids. After an action, ids are still unique if and only if any list passed to a set action has unique ids and any added record has a new id. Updates, deletes and the scalar setters always keep ids unique. |
| `UseStore.StepIdempotent` | store/useStore.ts:113-146 | Every action except an add has the same effect done twice in a row as done once. |
| `UseStore.StepMissingId` | store/useStore.ts:115-141 | Updating or deleting a missing id leaves the whole store unchanged. |
| `UseStore.PillarAddThenDelete` | store/useStore.ts:114-120 | `addPillar` with a new id followed by `deletePillar` of that id restores the store. |
| `UseStore.EventAddThenDelete` | store/useStore.ts:126-132 | `addEvent` with a new id followed by `deleteEvent` of that id restores the store. |
| `UseStore.ProposalAddThenDelete` | store/useStore.ts:135-141 | `addProposal` with a new id followed by `deleteProposal` of that id restores the store. |
| `UseStore.PillarUpdatesCompose` | store/useStore.ts:115-117 | Two `updatePillar` calls on one id equal one call with the combined patch. |
| `UseStore.EventUpdatesCompose` | store/useStore.ts:127-129 | Two `updateEvent` calls on one id equal one call with the combined patch. |
| `UseStore.ProposalUpdatesCompose` | store/useStore.ts:136-138 | Two `updateProposal` calls on one id equal one call with the combined patch. |
| `UseStore.Store.constructor` | store/useStore.ts:102-111 | Initial state: every collection is empty, `currentWeekly` is null and `creditBalance` is 0. |
| `UseStore.Store.SetPillars` | store/useStore.ts:113 | `pillars` becomes the given list exactly, in the same order, and no other field changes. |
| `UseStore.Store.AddPillar` | store/useStore.ts:114 | `pillars` becomes `Append(old pillars, pillar)` and no other field changes. |
| `UseStore.Store.UpdatePillar` | store/useStore.ts:115-117 | `pillars` becomes `UpdateById(old pillars, id, patch)` and no other field changes. |
| `UseStore.Store.DeletePillar` | store/useStore.ts:118-120 | `pillars` becomes `RemoveById(old pillars, id)` and no other field changes. |
| `UseStore.Store.SetWeeklies` | store/useStore.ts:122 | `weeklies` becomes the given list exactly, and no other field changes. |
| `UseStore.Store.SetCurrentWeekly` | store/useStore.ts:123 | `currentWeekly` becomes the given weekly or null, and no other field changes. |
| `UseStore.Store.SetEvents` | store/useStore.ts:125 | `events` becomes the given list exactly, and no other field changes. |
| `UseStore.Store.AddEvent` | store/useStore.ts:126 | `events` becomes `Append(old events, event)` and no other field changes. |
| `UseStore.Store.UpdateEvent` | store/useStore.ts:127-129 | `events` becomes `UpdateById(old events, id, patch)` and no other field changes. |
| `UseStore.Store.DeleteEvent` | store/useStore.ts:130-132 | `events` becomes `RemoveById(old events, id)` and no other field changes. |
| `UseStore.Store.SetProposals` | store/useStore.ts:134 | `proposals` becomes the given list exactly, and no other field changes. |
| `UseStore.Store.AddProposal` | store/useStore.ts:135 | `proposals` becomes `Append(old proposals, proposal)` and no other field changes. |
| `UseStore.Store.UpdateProposal` | store/useStore.ts:136-138 | `proposals` becomes `UpdateById(old proposals, id, patch)` and no other field changes. |
| `UseStore.Store.DeleteProposal` | store/useStore.ts:139-141 | `proposals` becomes `RemoveById(old proposals, id)` and no other field changes. |
| `UseStore.Store.SetCreditBalance` | store/useStore.ts:143 | `creditBalance` becomes the given value, and no other field changes. |
| `UseStore.Store.SetRestrictedApps` | store/useStore.ts:144 | `restrictedApps` becomes the given list exactly, and no other field changes. |
| `UseStore.Store.SetActiveSessions` | store/useStore.ts:145 | `activeSessions` becomes the given list exactly, and no other field changes. |
| `UseStore.Store.SetPhrases` | store/useStore.ts:146 | `phrases` becomes the given list exactly, and no other field changes. |
| `UseStore.LoadThenDeletePillar` | store/useStore.ts:113-120 | For any pillar with id `p1`, loading it into a fresh store with `setPillars` and then deleting `p1` returns a fresh store in the initial state. That the store holds exactly one pillar with id `p1` in between is a checked assertion in the body, not part of the contract. |

## Left out

- Update and delete act on EVERY element whose id matches. One might expect them to act on a single item. The model follows the code (`map` and `filter` over the whole list). The "exactly one element removed, length one less" property therefore holds only when ids are unique, which is why `Collection.RemoveAt` and `Collection.UpdateAt` require that.
- Neither the store nor the model checks that ids are unique; the backend is meant to guarantee it. `UseStore.StepUniqueKeys` states which actions keep the property.
- The Zustand library is not part of this model: `create`, subscriptions, and change detection by reference equality. `set` is modelled as "replace the named field". Dafny values have no identity, so "unchanged elements keep their reference" becomes "unchanged elements are equal".
- Patches leave out two JavaScript spread quirks. A key explicitly set to `undefined` would overwrite a field with `undefined`, and a patch could carry a new `id`. A patch is an overlay of optional fields without `id`. A `Some` for an optional property (`task_id`, `pillar_id`) sets it to the given string.
- JavaScript numbers are floating point. The model uses `real` for `creditBalance`, `price`, `duration`, `daily_limit` and `cooldown`, because the store only stores these values and never computes with them.
- The elements of the untyped `fields` and `pillar_reviews` lists are an uninterpreted type, because the store never looks inside them.
- hooks/useApi.ts is not part of this model: it is the fetch wrapper, with network I/O and shared loading/error flags. The screens under app/(tabs)/ and components/PillarCard.tsx are not part of this model either; they are React Native layout and rendering. constants/icons.ts is a static table of icons and colours, with no behaviour.
- Concurrency is not modelled: the host runs every action to completion on one thread, so each action is one atomic step.
