# Reorder-and-autosave grid, modelled in Dafny

The app shows five image tiles in a three-column grid. A user reorders them by
dragging one tile onto another, which swaps the two. Every five seconds an
autosave tick compares the live order with the files the query last loaded
from local storage (key `appData`). When they differ, it writes
`{files, timestamp}` back, updates the "last synced" time and invalidates the
query cache. On first load an empty store is seeded with a fixed payload of
five tiles.

The model covers five parts:

- `mock_api.dfy` (module `MockApi`): the `AppFile`/`AppData` records as `Tile`/`AppData`, and the seed payload, whose load-time timestamp is a parameter.
- `reorder.dfy` (module `Reorder`): the monitor's `onDrop`. `indexOf` is a recursive function. The copy-and-write handler is a method over an array copy, proved equal to the specification function `Swapped`.
- `tile_view.dfy` (module `TileView`): `canDrop`, the per-tile `idle`/`dragging`/`over` state as a class whose callbacks update it, and the border drawn from that state.
- `storage.dfy` (module `Storage`): the stored value, the loader (`queryFn`) and a `LocalStore` class whose methods write it.
- `home.dfy` (module `Home`): the top-level choice between the error view, the spinner and the grid.
- `autosave.dfy` (module `Autosave`): the reconcile tick. It is a specification function `Reconcile` on a `SyncState` value, implemented step by step by `Session.Tick` on a class holding `base`, `live`, `lastSaved`, `isUpdating` and the store.

Three behaviours of the code a reader may not expect, each stated by a lemma:

- A drop whose dragged tile is missing from the live order is not a no-op. `indexOf` yields -1, `updated[-1] = …` changes no element, and the target's slot is overwritten with the dragged tile (`Reorder.SwapStaleSource`).
- A store holding text that is not JSON is not reseeded. `JSON.parse` throws, the query fails and the error view is shown (`Storage.CorruptStoreThrows`, `Home.CorruptStoreShowsError`).
- While the grid is mounted, its live order is initialised from the loaded files once and never reloaded. After another writer replaces the stored order and the cache is refreshed, the next tick writes the live order back (`Autosave.ExternalOverwriteIsReverted`). Only a reload without files unmounts the grid; that stops the autosave and discards the live order (`Autosave.ReloadWithoutFilesStopsAutosave`). A later reload with files mounts it again from those files (`Autosave.ReloadRemountsFromFiles`).

## Model

| member | source | states |
|---|---|---|
| `MockApi.MockApiResponse` | src/mockApiResponse.tsx:14-58 | the seed has exactly five tiles; tile i has position i; kinds are pairwise distinct; image URLs (the render key) are pairwise distinct, so the tiles are too; the timestamp is the load instant |
| `MockApi.SeedImageUrlsDiffer` | src/mockApiResponse.tsx:20-53 | the five seed image URLs are pairwise different |
| `MockApi.UniqueImageUrlsImplyDistinct` | src/App.tsx:181-183 | tiles with unique render keys are pairwise distinct tiles |
| `Reorder.IndexOf` | src/App.tsx:113-114 | `indexOf` gives -1 exactly when the tile is absent, and otherwise an index holding the tile with no earlier occurrence |
| `Reorder.Swapped` | src/App.tsx:112-114 | the result has the input's length; a present dragged tile's first index now holds the target; a present target's first index now holds the dragged tile; every other slot is unchanged (an absent tile's -1 index writes nothing) |
| `Reorder.OnDrop` | src/App.tsx:104-117 | a drop without a drop target returns the live order unchanged; otherwise the array-copy handler yields exactly `Swapped` of the order, the dragged tile and the innermost target |
| `Reorder.SwapExchanges` | src/App.tsx:112-114 | for two present tiles, the target lands at the dragged tile's index and the dragged tile at the target's index; every other slot and the length are kept; the result is a permutation |
| `Reorder.SwapSelf` | src/App.tsx:112-114 | dropping a tile onto itself leaves the order unchanged |
| `Reorder.SwapSymmetric` | src/App.tsx:112-114 | for two present tiles, swapping a with b equals swapping b with a |
| `Reorder.IndexOfDistinct` | src/App.tsx:113-114 | in an order without duplicates, `indexOf` of the tile at k is k |
| `Reorder.SwapKeepsDistinct` | src/App.tsx:112-114 | a swap of present tiles keeps the order free of duplicates |
| `Reorder.SwapTwiceRestores` | src/App.tsx:112-116 | repeating the same drop restores the original order |
| `Reorder.SwapStaleSource` | src/App.tsx:113-114 | with the dragged tile absent, the target's slot is overwritten by it: the order changes and is no longer a permutation |
| `Reorder.SwapStaleDestination` | src/App.tsx:113-114 | with the target absent, the dragged tile's slot is overwritten by the target |
| `Reorder.DropsPreserveTiles` | src/App.tsx:104-117 | any run of drops among tiles on the grid keeps the multiset of tiles |
| `Reorder.SeedSwapScenario` | src/App.tsx:112-114 | in seed order, dropping the invoice onto the first bank draft gives invoice, bill of lading, bank draft, bank draft 2, bill of lading 2 |
| `TileView.After` | src/App.tsx:212-223 | the state a callback sets: `dragging` exactly on drag start, `over` exactly on drag enter, `idle` otherwise |
| `TileView.CanDrop` | src/App.tsx:219-220 | a drag is accepted only if its type is `"grid-item"`; a drag of the target's own tile is refused; a grid-item drag of any other tile is accepted |
| `TileView.Border` | src/App.tsx:233 | a border is drawn if and only if the state is `over` |
| `TileView.CanDropIffSwapMoves` | src/App.tsx:219-220 | for grid-item drags between tiles on the grid, `canDrop` holds exactly when the resulting swap changes the order |
| `TileView.ReplayEndsWithLast` | src/App.tsx:212-223 | after any sequence of callbacks the state is the one the last callback sets |
| `TileView.ReplayBorder` | src/App.tsx:212-233 | starting idle, a tile shows a border exactly when its last callback was a drag entering it |
| `TileView.ItemView.constructor` | src/App.tsx:194 | a mounted tile starts idle |
| `TileView.ItemView.OnDragStart` | src/App.tsx:212 | drag start sets `dragging` |
| `TileView.ItemView.OnSourceDrop` | src/App.tsx:213 | the source's drop sets `idle` |
| `TileView.ItemView.OnDragEnter` | src/App.tsx:221 | drag enter sets `over` |
| `TileView.ItemView.OnDragLeave` | src/App.tsx:222 | drag leave sets `idle` |
| `TileView.ItemView.OnTargetDrop` | src/App.tsx:223 | the target's drop sets `idle` |
| `Storage.WriteThenLoad` | src/App.tsx:48-55 | a snapshot written to the store loads back unchanged, and the load writes nothing |
| `Storage.LoadTwice` | src/App.tsx:48-55 | a second load writes nothing and returns what the first returned; from an empty store both return the seed |
| `Storage.CorruptStoreThrows` | src/App.tsx:54 | a value that is not JSON makes the loader throw and is kept in the store |
| `Storage.LocalStore.SetItem` | src/App.tsx:135 | after the write the store holds the serialized snapshot |
| `Storage.LocalStore.QueryFn` | src/App.tsx:48-55 | a falsy store (absent or empty text) is seeded and the seed returned; otherwise the store is unchanged and the parsed value (or the exception) returned |
| `Home.Render` | src/App.tsx:62-81 | the error view exactly when data or its files are missing; the spinner exactly when data with files is there and `isLoading`; the grid exactly when files exist and nothing is loading, showing those files and that timestamp |
| `Home.ReloadMountsIffGridShown` | src/App.tsx:62-81 | a reloaded document has files exactly when the page, with nothing loading, renders the grid for it |
| `Home.FreshStartShowsSeed` | src/App.tsx:48-81 | from an empty store, the seed is written and the grid shows the five seed tiles in seed order with the load-time timestamp |
| `Home.CorruptStoreShowsError` | src/App.tsx:48-70 | a store that is not JSON ends in the error view |
| `Autosave.Refresh` | src/App.tsx:138 | the query reloads: a throwing loader changes nothing; data without files unmounts the grid; data with files becomes the base, keeps a mounted grid's live order, `lastSaved` and `isUpdating`, and remounts an unmounted grid from those files and that timestamp |
| `Autosave.ReloadWithoutFilesStopsAutosave` | src/App.tsx:62-70 | a reload of data without files unmounts the grid; after that, ticks and drops change nothing and the stored value stays |
| `Autosave.ReloadRemountsFromFiles` | src/App.tsx:80-90 | a reload with files while unmounted mounts the grid with live order and base equal to the loaded files and `lastSaved` equal to their timestamp |
| `Autosave.Reconcile` | src/App.tsx:122-146 | with the grid unmounted (no poll) or in sync, a tick changes nothing (store, `lastSaved`, `isUpdating`); otherwise the store holds `{files: live, timestamp: now}`, `lastSaved == now`, `isUpdating` is false, the base equals the live order; the live order is never modified |
| `Autosave.TickSettles` | src/App.tsx:122-139 | a tick right after a tick writes nothing |
| `Autosave.CoalescedSwapsWriteNothing` | src/App.tsx:104-125 | a drop of a onto b followed by b onto a restores the order, and the following tick writes nothing |
| `Autosave.ExternalOverwriteIsReverted` | src/App.tsx:85-139 | after another writer stores a different order and the cache refreshes, the base follows the store but the next tick writes the live order back |
| `Autosave.StepPreservesTiles` | src/App.tsx:104-139 | one drop among the grid's tiles, or one tick, keeps the live order's tiles and those of a stored snapshot that held them |
| `Autosave.RunPreservesTiles` | src/App.tsx:104-139 | under any interleaving of drops among the grid's tiles and ticks, the live order stays a permutation of its initial tiles, and so does any stored snapshot that was one |
| `Autosave.Session.constructor` | src/App.tsx:85-90 | mounting sets the live order and the base to the loaded files, `lastSaved` to the loaded timestamp, `isUpdating` to false, and the grid is mounted |
| `Autosave.Session.HandleDrop` | src/App.tsx:104-117 | on a mounted grid the live order becomes the drop's result; nothing else changes |
| `Autosave.Session.Invalidate` | src/App.tsx:138 | the loader runs again and the session ends in exactly the state `Refresh` describes |
| `Autosave.Session.Tick` | src/App.tsx:122-139 | the step-by-step tick leaves exactly the state `Reconcile` describes |

## Left out

- React rendering, hooks and their scheduling, MUI layout and styling, the image-load spinner and the zoom modal: presentation only.
- The drag-and-drop library (`draggable`, `dropTargetForElements`, `monitorForElements`, `combine`): foreign code; only its callbacks are modelled, as method calls and events. Its sticky-target behaviour is not modelled.
- Timers: the 5000 ms poll, the 10000 ms clock refresh and the random 400–600 ms write delay are not modelled, nor is the interval being recreated on each change. A tick is one atomic step, so drops arriving during the delay are not interleaved with it. As a consequence `isUpdating` is never true between steps, so the model never shows the syncing spinner of the header.
- The "last synced … ago" text (`formatDistance`) and the current-time state: wall-clock formatting.
- Timestamps come from the clock and are parameters. The code does not make them increase, so no ordering of timestamps is claimed.
- `localStorage`, `JSON.stringify` and `JSON.parse` are abstracted. A stored value is absent, empty text, the JSON of a `null` or of an object whose `files` may be missing, or text that is not JSON. Other JSON values, and a `files` attribute that is not an array, are not distinguished.
- `Reorder.Swapped`: `updated[-1] = …` is modelled as changing no element. In JavaScript it adds an array property named "-1", which a deep equality that compares own keys would see and `JSON.stringify` ignores. After a stale drop the model's tick therefore settles, where the app may keep rewriting the store on every poll until the next drop copies the array.
- `localStorage.setItem` throwing (quota exceeded, private mode) is not modelled. In the tick it would leave `isUpdating` true and skip `setLastSaved` and the cache invalidation; in the loader it would make the query fail.
- What makes the query reload other than the tick's invalidation (window focus, reconnect) is not modelled as its own event; `Autosave.Refresh` is what any reload does.
- The query cache's deduplication, subscriber notifications and its `isLoading` flag: library behaviour. `isLoading` is a parameter of `Home.Render`. The autosave model mounts the grid whenever reloaded data has files, which relies on the query library keeping `isLoading` false once data exists (`Home.ReloadMountsIffGridShown` links the two); under that library behaviour the spinner branch is unreachable after the first load. Invalidation is modelled as rerunning the loader, and a failed reload keeps the previous data.
- Object identity (`indexOf`, `!==`) is modelled as value equality. `deepEqual` is modelled as structural equality; its loose comparison of primitives agrees with that on well-typed tiles.
- `src/main.tsx` only bootstraps React and the query client; it is not part of this model.
