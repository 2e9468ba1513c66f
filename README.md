# Block mechanics of a grid stacking game, in Dafny

This project models the mechanics of one block in a grid-based stacking puzzle (`Block.cs`). The block is spawned with a fresh id from a wrapping counter and computes its extent from its cubes. It falls, is grabbed and released by the player, and snaps to the grid: the column first, then the lowest free cell above. When it comes to rest on something it starts planting. Planting reserves its cells in the shared occupancy store (`BlockArea.Place`) and commits them after a delay (`BlockArea.Plant`), unless something cancels it first (`Unlay`).

Modules:

- `Grid` (grid.dfy): integer cells, the `IntegerVector3` of `Block.cs`.
- `Area` (area.dfy): the occupancy store `BlockArea`, reduced to its interface. It holds a map from cell to occupying block id, the set of reserved ids and the set of planted ids. `IsOccupied` says whether any cube of a block at a given origin would land on a cell held by another block or below the floor.
- `HeightSearch` (height_search.dfy): `RestsAt` says what the vertical search finds, namely the lowest cell at or above the start whose column below is all occupied. The module also proves why the search stops: the store holds finitely many cells.
- `Ids` (ids.dfy): the static id counter and `GetId`, plus the closed form of any run of ids.
- `Lifecycle` (lifecycle.dfy): the block's flags and the transitions `Grab`, `DelayedUngrab`, `Ungrab`, `Lay`, `Unlay`, the plant firing and the tick. Each transition says how the flags change and which store operations it issues. The lemmas here are about whole runs of events.
- `Blocks` (block.dfy): the class `Block` with the source's four flags, the `Start` constructor, `SnapHeight`, `Snap`, the lifecycle methods and `Update`. Each lifecycle method is proved to change its flags and the store exactly as the matching `Lifecycle` step says.

The two deferred actions are explicit counters in the class:

- `pendingUngrabs` counts the zero-delay `Invoke("Ungrab", 0)` calls. Nothing ever cancels them; `Grab` only clears `delayedUngrabbed`, so a delivered `Ungrab` becomes a no-op.
- `pendingPlants` counts the running `Plant` coroutines. `StopCoroutine("Plant")` stops all of them.

The scheduler delivers them through `FireUngrab` and `FirePlant`.

Notes on what `Block.cs` does:

- `dimensions` is the per-axis maximum of the signed cube centres, starting from 0.
- `SnapHeight` has no height cap. Its termination is proved from the finiteness of the occupancy store.
- A second `Lay` while planting reserves again and starts a second `Plant` coroutine. Nothing guards against it.

## Model

| member | source | states |
|---|---|---|
| `Ids.IdCounter.GetId` | Assets/Custom/Scripts/Block.cs:23-28 | returns an id in 1..999999; the counter is reset to 1 when it has reached 1000000, and afterwards holds the returned id plus one |
| `Ids.IdsIssuedAt` | Assets/Custom/Scripts/Block.cs:23-28 | the i-th id of any run of `GetId` calls is `(next - 1 + i) mod 999999 + 1`: ids cycle through 1..999999 |
| `Ids.IdsInRange` | Assets/Custom/Scripts/Block.cs:24-27 | every id in any run of calls lies in 1..999999 |
| `Ids.IdsDistinctWithinCycle` | Assets/Custom/Scripts/Block.cs:24-27 | any 999999 consecutive ids are pairwise distinct |
| `Ids.WrapsToOne` | Assets/Custom/Scripts/Block.cs:25-27 | the call after the one returning 999999 returns 1 |
| `Ids.IdsCollideAfterCycle` | Assets/Custom/Scripts/Block.cs:25-27 | the wrap-around makes the 1st and the 1000000th id of any run equal, so ids can collide |
| `Blocks.Dimensions` | Assets/Custom/Scripts/Block.cs:40-48 | on each axis the result is at least 0 and at least every centre's coordinate; it is 0 or equal to some centre's coordinate |
| `Blocks.Block.Start` | Assets/Custom/Scripts/Block.cs:30-59 | takes the next id from the counter, stores the cubes and their extent, starts with all flags clear (auto-grabbable) and rests the block at the lowest free cell above its column-snapped spawn point |
| `Blocks.Block.SnapHeight` | Assets/Custom/Scripts/Block.cs:107-120 | reports a move exactly when the start cell is occupied; when it moves, x and z are kept and y strictly grows; the result is free and every cell between start and result is occupied, so it is the lowest free cell at or above the start; without a move the result is the start; always terminates |
| `Blocks.Block.Snap` | Assets/Custom/Scripts/Block.cs:122-141 | the transform ends at the lowest free cell above the column-snapped position, and the result says whether that column-snapped cell was occupied |
| `Blocks.Block.SnapColumn` | Assets/Custom/Scripts/Block.cs:122-129 | x and z are clamped for the block's extent and then snapped by the store's opaque functions; y is kept |
| `Blocks.Block.IsAutoGrabbable` | Assets/Custom/Scripts/Block.cs:97-99 | true exactly when the block's flags are auto-grabbable in the lifecycle model, i.e. it has never been grabbed or laid |
| `HeightSearch.RestsAtUnique` | Assets/Custom/Scripts/Block.cs:110-115 | the climb has exactly one possible resting cell for a given start and occupancy |
| `HeightSearch.RestsAtStartIffFree` | Assets/Custom/Scripts/Block.cs:110-119 | the search stays at the start iff the start is free, and otherwise rises strictly |
| `HeightSearch.MaxHeight` | Assets/Custom/Scripts/Block.cs:111-113 | bounds the height of every occupied cell, which bounds the climb |
| `HeightSearch.MinOffset` | Assets/Custom/Scripts/Block.cs:111-113 | bounds from below the height of every cube offset of the block, which bounds the climb |
| `HeightSearch.FreeAboveCeiling` | Assets/Custom/Scripts/Block.cs:111-113 | no origin above the store's highest cell (less the lowest cube offset) is occupied, so the do-while loop ends |
| `HeightSearch.LandedIsSupported` | Assets/Custom/Scripts/Block.cs:72-81 | a block that climbed has an occupied cell under its resting place, still occupied after it reserves that place, so the support check of the same tick passes |
| `HeightSearch.SettlesOnFloor` | Assets/Custom/Scripts/Block.cs:107-120 | a single cube that falls under the floor of an empty area rests at height 0 in its column |
| `HeightSearch.StacksOnTop` | Assets/Custom/Scripts/Block.cs:107-120 | a single cube dropped into the cell of another single cube rests one cell above it |
| `Area.BlockArea.Place` | Assets/Custom/Scripts/Block.cs:178 | reserves the block's footprint cells for its id and records the id as placed |
| `Area.BlockArea.Unplace` | Assets/Custom/Scripts/Block.cs:170 | gives up every cell the id holds and drops the id from the placed set; nothing else changes |
| `Area.BlockArea.Plant` | Assets/Custom/Scripts/Block.cs:195 | records the id as permanently planted; occupancy is unchanged |
| `Area.ReleaseKeepsOccupancy` | Assets/Custom/Scripts/Block.cs:76-81 | releasing a block's own reservation never changes what that block sees as occupied |
| `Area.ClaimKeepsOccupancy` | Assets/Custom/Scripts/Block.cs:175-180 | reserving a footprint that was free for the block never changes what that block sees as occupied |
| `Area.UnplaceUndoesPlace` | Assets/Custom/Scripts/Block.cs:167-180 | `Place` followed by `Unplace` on free cells leaves the store exactly as it was, for a block that held nothing |
| `Area.PlaceThenPlantCommits` | Assets/Custom/Scripts/Block.cs:175-196 | `Place` followed by `Plant` leaves the id placed, planted and holding every footprint cell |
| `Lifecycle.StepKeepsInv` | Assets/Custom/Scripts/Block.cs:146-196 | every transition keeps the invariant: a pending plant implies planting; planting or grabbed implies prevGrabbed; a pending ungrab request has a queued call |
| `Lifecycle.RunKeepsInv` | Assets/Custom/Scripts/Block.cs:146-196 | the invariant holds after any sequence of events |
| `Lifecycle.GrabOutcome` | Assets/Custom/Scripts/Block.cs:146-153 | after `Grab` the block is grabbed, has no ungrab request, is not planting and has been grabbed; if it was planting, its reservation is released and its pending plants are cancelled |
| `Lifecycle.UnlayIdempotent` | Assets/Custom/Scripts/Block.cs:167-173 | `Unlay` does nothing unless planting; after it the block is not planting, and a second `Unlay` changes no flag and issues no store operation |
| `Lifecycle.LayOutcome` | Assets/Custom/Scripts/Block.cs:175-180 | `Lay` sets planting and prevGrabbed, reserves, and schedules one more plant even if one is already pending |
| `Lifecycle.UngrabOutcome` | Assets/Custom/Scripts/Block.cs:155-165 | a delivered `Ungrab` is a no-op unless `delayedUngrabbed` is set; otherwise it clears grabbed and delayedUngrabbed and reserves exactly when the snap landed |
| `Lifecycle.PlantCallNeedsPlanting` | Assets/Custom/Scripts/Block.cs:188-196 | `Plant` reaches the store only from a plant firing while the block is planting with a plant pending |
| `Lifecycle.TickOutcome` | Assets/Custom/Scripts/Block.cs:61-82 | a tick reserves iff the block was neither grabbed nor planting and its snap landed; a tick that ends planting found support; a planting block without support ends the tick unplanted, its reservation released; grab flags are untouched |
| `Lifecycle.NeverAutoGrabbableAgain` | Assets/Custom/Scripts/Block.cs:97-99 | once prevGrabbed is set, by `Grab` or `Lay`, the block stays not auto-grabbable after any events |
| `Lifecycle.HeldUntilUngrabRequested` | Assets/Custom/Scripts/Block.cs:146-165 | a grabbed block with no ungrab request stays grabbed through any events that request no ungrab, queued `Ungrab` calls included |
| `Lifecycle.RegrabCancelsUngrab` | Assets/Custom/Scripts/Block.cs:150-186 | `DelayedUngrab` followed by `Grab` before the deferred `Ungrab` fires leaves the block grabbed |
| `Lifecycle.QuietRun` | Assets/Custom/Scripts/Block.cs:167-196 | a block that is not planting and has no plant pending issues no `Plant` and stays so while nothing lays it |
| `Lifecycle.UnlayCancelsPlant` | Assets/Custom/Scripts/Block.cs:167-196 | after `Unlay`, no `Plant` reaches the store until something lays the block again |
| `Lifecycle.PlantCommitsUnlessCancelled` | Assets/Custom/Scripts/Block.cs:188-196 | with a plant pending and nothing that unlays, the first plant firing reaches `BlockArea.Plant` |
| `Lifecycle.LayThenPlantCommits` | Assets/Custom/Scripts/Block.cs:175-196 | `Lay` followed by the plant firing commits the block |
| `Blocks.Block.Unlay` | Assets/Custom/Scripts/Block.cs:167-173 | flags and store change exactly as `Lifecycle.UnlayStep` says: nothing unless planting, otherwise unplanted, reservation released, plants cancelled |
| `Blocks.Block.Lay` | Assets/Custom/Scripts/Block.cs:175-180 | flags and store change as `Lifecycle.LayStep` says, with the footprint at the block's current cell |
| `Blocks.Block.Grab` | Assets/Custom/Scripts/Block.cs:146-153 | flags and store change as `Lifecycle.GrabStep` says |
| `Blocks.Block.DelayedUngrab` | Assets/Custom/Scripts/Block.cs:182-186 | sets the ungrab request and queues one more `Ungrab` |
| `Blocks.Block.Ungrab` | Assets/Custom/Scripts/Block.cs:155-165 | without a request nothing changes; otherwise the block is released and snapped to its resting cell, and it lays exactly when it landed, as `Lifecycle.UngrabStep` says |
| `Blocks.Block.FireUngrab` | Assets/Custom/Scripts/Block.cs:182-186 | delivers one queued `Ungrab`, or does nothing when none is queued, as `Lifecycle.FireUngrabStep` says |
| `Blocks.Block.FirePlant` | Assets/Custom/Scripts/Block.cs:188-196 | finishes one running `Plant` coroutine, which commits the block in the store; does nothing when none runs |
| `Blocks.Block.Update` | Assets/Custom/Scripts/Block.cs:61-82 | while grabbed the block's cell is unchanged and only the shadow is snapped; only a block neither grabbed nor planting falls and snaps; flags and store change as `Lifecycle.TickStep` says, with support read at the block's final cell |

## Left out

- Floating-point geometry is not modelled: `Vector3` and `Quaternion` arithmetic, `Utility.Rotation.SnapOrthogonal`, `Random.rotation`. Positions are integer cells, `WorldSpaceToIndex` and `IndexToWorldSpace` are the identity, and the orientation is fixed, so `cubePositions` are offsets in that orientation and `rotation * dimensions` is `dimensions`.
- `BlockArea.ClampDimension` and `SnapDimension` are not part of this model. They are opaque function values of the store that `SnapColumn` composes.
- The fall step `BlockFallingSpeed(y) * Time.deltaTime` is a parameter of `Update`: the number of cells fallen in this tick.
- A falling block's y is always a whole cell here. In the source it is continuous between snaps.
- `BlockArea` internals are not part of this model. The store is an abstract map from cell to id, with cells below height 0 counting as ground, plus the sets of placed and planted ids. How the real store lays out footprints and what `Unplace` does to a planted block are assumptions of this model.
- Timing is not modelled. `WaitForSeconds(plantTime)` and the zero-delay `Invoke` become queued-call counters that the external scheduler delivers with `FirePlant` and `FireUngrab`.
- `BlockManager.AddActive` is not modelled. It is a registry outside the block.
- Not modelled because they are rendering: shadow activation, `CubeVFX`, the debug colouring and the collection of child cube objects in `Start`.
- `IsOccupied` is always called with the block's own id as the excluded id. The variant without an excluded id is not used by the block and is not modelled.
