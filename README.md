# Wallet tracker manager and global store, modelled in Dafny

This project models the client-side logic of the NFT tracker app's wallet
manager page and its global store reducer:

- **Collection grouping** (`Grouping`): when the wallet loads, one pass over the
  tracked tokens builds the list of distinct collection names in first-seen
  order and a map from each name to its trackers in input order. A tracker
  whose `token?.collection` is falsy (no token, no collection, or `""`) is
  skipped. The loop is the method `GroupTrackers`. It is proved against the
  reference functions `FirstSeen` and `Members`, and lemmas prove what those
  functions promise.
- **Positional replace by id** (`Replace`): `updateTracker` and the end of
  `saveTokenTracker` find the first tracker with a given id (`findIndex`) and
  splice a value into that slot with `slice`. JavaScript's `slice` semantics
  are written out, including the `-1` that `findIndex` returns when nothing
  matches.
- **Alert validation** (`AlertValidation`): the checks that run before a save,
  in their fixed order, stopping at the first failure. The current value is
  the suggested price for the `"Suggested Price"` type and the floor price
  otherwise, and a missing price counts as 0.
- **Page state** (`WalletPage.WalletManager`): a class whose fields are the
  page's state (`collections`, grouped trackers, untracked NFTs, tracking
  types, per-id saving flags). Its methods are `LoadWallet`, `UpdateTracker`
  and `SaveTokenTracker`. The `await` of the save splits `SaveTokenTracker`
  into `BeginSave` (validate and set the saving flag) and `FinishSave` (put
  the reply in place and clear the flag). The save endpoint is a function
  parameter.
- **Global store** (`Store`): the reducer's three cases, `SET_USER`,
  `PURGE_STATE` and the default.

Optional fields are `Option` values, with `None` standing for `undefined`.
Prices are `real`: the code only compares them.

A few behaviours of the code to note:
- a collection is skipped when it is falsy (this includes `""`), not only
  when it is null;
- the tracking-type check rejects a missing type and also the empty string;
- this revision keeps no flat tracker list beside the grouped map, so a save
  updates only the group.

## Model

| member | source | states |
|---|---|---|
| Grouping.GroupTrackers | pages/wallet/index.tsx:54-66 | the loop yields `FirstSeen(tracked)` as the collection list, which has no duplicates and is exactly the map's key set; each group equals `Members(tracked, c)`; group sizes add up to the number of trackers with a truthy collection; empty input gives an empty list and an empty map |
| Grouping.FirstSeenNoDuplicates | pages/wallet/index.tsx:59-62 | the collection list never repeats a name |
| Grouping.FirstSeenMembership | pages/wallet/index.tsx:56-62 | a name is listed if and only if some tracker has it as its truthy collection |
| Grouping.FirstSeenPrefix | pages/wallet/index.tsx:59-62 | the names listed for any prefix of the input are a prefix of the full list |
| Grouping.FirstSeenOrder | pages/wallet/index.tsx:56-62 | first-occurrence order: wherever a later-listed collection occurs in the input, an earlier-listed one has already occurred |
| Grouping.SeenIffNonEmpty | pages/wallet/index.tsx:59-64 | a name is listed if and only if its group is non-empty |
| Grouping.MembersHaveKey | pages/wallet/index.tsx:57-64 | every tracker in a group has that group's collection, so trackers with a missing or empty collection are in no group |
| Grouping.MembersKeepAll | pages/wallet/index.tsx:56-65 | a group holds each tracker of its collection exactly as many times as the input does |
| Grouping.MembersInInputOrder | pages/wallet/index.tsx:63-64 | each group is a subsequence of the input, so relative order is kept |
| Grouping.ExactlyOneGroup | pages/wallet/index.tsx:56-65 | a tracker with a truthy collection is in that collection's group, the collection is listed, and the tracker is in no other group |
| Replace.FindIndex | pages/wallet/index.tsx:78 | the result is the first index whose tracker has the id, or -1 exactly when no tracker has it |
| Replace.Splice | pages/wallet/index.tsx:79-83 | for a found index the splice overwrites exactly that slot; for -1, `slice(0, -1)` keeps all but the last element and `slice(0, length)` keeps all of them |
| Replace.ReplaceById | pages/wallet/index.tsx:76-85 | when the id is present, the group keeps its length, the new value sits at the matched index, and every other index is unchanged |
| Replace.ReplaceByIdIdempotent | pages/wallet/index.tsx:76-85 | replacing the same tracker twice gives the same group as replacing it once, whether or not its id was in the group |
| Replace.ReplaceByIdCommutes | pages/wallet/index.tsx:128-135 | replacing two trackers with different ids, each in the slot of its own id, gives the same group in either order |
| AlertValidation.CurrentValue | pages/wallet/index.tsx:95-99 | with no token the current value is 0; otherwise it is the token's suggested price when the type is `"Suggested Price"` and its floor price for any other type, with a missing price read as 0 |
| AlertValidation.Validate | pages/wallet/index.tsx:101-124 | a tracker is accepted if and only if all of these hold: its type is truthy; a set `above` is at least the current value; a set `below` is at most the current value; an active alert has a bound |
| AlertValidation.ValidationOrder | pages/wallet/index.tsx:101-124 | each rejection is the first failing check: every earlier check passed and its own check failed (both directions) |
| AlertValidation.UnsetBoundNeverRejects | pages/wallet/index.tsx:107-118 | an unset `above` or `below` never triggers its comparison check |
| AlertValidation.AcceptedBracketsCurrent | pages/wallet/index.tsx:107-118 | an accepted alert's bounds bracket the current value, so `below <= above` when both are set |
| AlertValidation.SuggestedPriceScenario | pages/wallet/index.tsx:95-112 | with suggested price 2 and floor price 1, a `"Suggested Price"` alert with `above` 1 is rejected and with `above` 2.5 is accepted |
| AlertValidation.ActiveFloorAlertWithoutRange | pages/wallet/index.tsx:119-124 | an active `"Floor Price"` alert with neither bound is rejected for having no range |
| WalletPage.WalletManager.constructor | pages/wallet/index.tsx:38-43 | the page starts unloaded, with no collections, no groups and no saving flags |
| WalletPage.WalletManager.LoadWallet | pages/wallet/index.tsx:51-74 | a failed fetch changes nothing; otherwise the list and groups are the grouping of the tracked trackers, the untracked NFTs and tracking types are stored, the page is loaded, and the saving flags are kept |
| WalletPage.WalletManager.UpdateTracker | pages/wallet/index.tsx:76-85 | only the group `coll` changes, to its replace-by-id with the edited tracker; the list and the other groups are unchanged; an unknown `coll` throws and changes nothing |
| WalletPage.UpdateGroupsTwice | pages/wallet/index.tsx:76-85 | applying the same update twice equals applying it once, and the other collections' groups are untouched |
| WalletPage.WalletManager.BeginSave | pages/wallet/index.tsx:87-127 | the verdict is `Validate(tracker)`; a rejection changes nothing and sends no request; an acceptance sets only this id's saving flag to true and sends exactly `{id, active, tokenTrackerType, above, below}` |
| WalletPage.WalletManager.FinishSave | pages/wallet/index.tsx:127-136 | the reply replaces the edited tracker's slot in group `coll`, other groups are unchanged, and this id's flag goes back to false; an unknown `coll` throws first, so the flag stays true |
| WalletPage.WalletManager.SaveTokenTracker | pages/wallet/index.tsx:87-137 | a rejection leaves the saving flags and groups untouched and makes no call; an acceptance sends the update once, then stores the reply in the group and clears this id's flag |
| WalletPage.ApplySaveReplyAsWritten | pages/wallet/index.tsx:127-135 | the save tail as written, over slots that may be `undefined`: when the id is found, the length is kept, the reply (even `undefined`) takes the matched slot, and every other slot keeps its tracker |
| WalletPage.SaveFailureAsWrittenLosesTracker | pages/wallet/index.tsx:127-135 | as written, a failed save puts `undefined` in the edited tracker's slot |
| WalletPage.ApplySaveReply | pages/wallet/index.tsx:127-135 | corrected save tail: a failed save keeps the group as it was; a reply overwrites exactly the matched slot |
| WalletPage.ApplySaveReplyAgrees | pages/wallet/index.tsx:127-135 | when the save succeeds, the corrected tail and the written tail give the same slots |
| Store.Reduce | store/reducer.ts:4-16 | `SET_USER` sets `user` to the payload and keeps `persistenceType`; `PURGE_STATE` returns the initial state; any other type returns the state unchanged |
| Store.ReduceIdempotent | store/reducer.ts:4-16 | dispatching any action twice gives the same state as dispatching it once (so `SET_USER` and `PURGE_STATE` are idempotent) |
| Store.PurgeIgnoresState | store/reducer.ts:11-12 | `PURGE_STATE` gives the same result from any state |
| Store.SetUserLastWins | store/reducer.ts:6-10 | after two `SET_USER` actions only the last payload counts |
| Store.SetLandingIgnored | store/reducer.ts:13-14 | `SET_LANDING` (dispatched at components/Navbar.tsx:93) falls through to the default case and changes nothing |

## Findings

| source | as written | input that shows it | evidently intended | confidence | as-written member | corrected member |
|---|---|---|---|---|---|---|
| pages/wallet/index.tsx:127-135 | the reply from `WalletService.saveTokenTracker` is spliced into the group unconditionally. That service returns `undefined` when the request fails (services/wallet.service.ts:76-81), so the edited tracker is replaced by `undefined`. Later renders and `findIndex` callbacks then read `.id` of `undefined` | any save that passes validation and whose request fails | keep the tracker (with the local edit) in place when the save fails | high (not executed) | WalletPage.SaveFailureAsWrittenLosesTracker | WalletPage.ApplySaveReply |

## Left out

- WalletPage.WalletManager.FinishSave: applies the corrected save tail `ApplySaveReply` (see Findings). When the save fails (`reply` is `None`), the group keeps the edited tracker. The code as written stores `undefined` in that slot instead; `ApplySaveReplyAsWritten` models that behaviour.
- WalletPage.WalletManager.SaveTokenTracker: goes through `FinishSave`, so it also applies the corrected save tail. When the endpoint fails, the group keeps the edited tracker instead of getting an `undefined` slot.

- Rendering, styling, toasts and the `console.log` are not modelled. The toasts are only reflected as the rejection reason in `Verdict`.
- The HTTP calls are not modelled: the wallet fetch is the `Option<WalletData>` given to `LoadWallet`, and the save endpoint is the function parameter of `SaveTokenTracker`.
- React state setters, re-renders and `useEffect` are not modelled. The page state is one object updated in sequence. The closures that capture `tokTrackers` and `trackersSaving` at render time, and the aliasing from mutating the captured `Map` before copying it, are not modelled.
- Calling `BeginSave` for a second tracker before `FinishSave` for the first does not reproduce the code. Each save clears its flag in the `trackersSaving` map captured when its button was clicked, so interleaved saves can drop another tracker's flag and can leave the first tracker's flag at true for good. The model keeps a single saving map, so every flag it sets is cleared.
- The store's `initialState` is defined in the store's index file, which is not part of this model. `Store.Reduce` takes it as a parameter.
- `Store.Reduce`: the action payload is typed `any` in the source. Here it is an optional user, so payloads of other shapes (such as the landing map sent with `SET_LANDING`) are not represented. They only reach the default case, which ignores them.
- Bounds coming back from the server as JSON `null` rather than absent are not modelled: in JavaScript `null < x` compares as 0. A `NaN` from `parseFloat` is not modelled either. Bounds are either unset or a number.
- The prediction refresh, staleness partitioning and aggregate valuations are not modelled: this revision of the page does not call them (`predictTokenTracker` in services/wallet.service.ts is unused here).
- Display-only token and tracker fields (title, image, rank, rarity, timestamps, attributes) are not modelled, and neither is the "first three trackers" slice used when rendering.
