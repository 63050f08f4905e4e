# SouzaPlot core in Dafny

A model of the core of SouzaPlot, a plot plugin for a voxel game server.
Players claim square plots on a flat world tiled by roads. They grant
other players trust levels on their plots and deny others entry. A
protection engine decides on every block edit whether the actor may
modify or interact at that position.

The model covers six pieces:

- **The coordinate partitioner** (`plot_id.dfy`, `coord_util.dfy`).
  - It maps a world column to road, border or a plot grid cell. With
    `gridSize = plotSize + roadWidth`, it uses floor division and floor modulus.
  - It also covers the plot corners and the `"x;z"` text form with its
    parser, plus the neighbour lists and the chunk-index packing.
  - The spiral enumeration is proved against a closed-form position for
    every plot (`SpiralIndex`): the ring number, then the offset along the
    ring.
- **Plots and trust levels** (`members.dfy`, `plot.dfy`).
  - `Plot` is a class whose member, deny and touch operations update it in
    place. The members are an insertion-ordered list, like Kotlin's
    `mutableSetOf`.
- **The plot manager** (`manager.dfy`).
  - It is a class holding the plot cache, the owner index (player to plot
    ids) and the last-location cache.
  - The plot repository is a ghost map of stored plot records. The
    last-location repository is a map field, because a cache miss reads it.
  - Two invariants are proved about the manager:
    - `Valid()`: the owner index lists exactly the cached plots each player
      owns, and cached locations are the stored ones. Every operation
      preserves it, except that `updatePlot` keeps it only when the plot
      keeps its cached owner (see Left out).
    - `Persisted()`: the repository mirrors the cache. Every operation
      keeps it once it holds.
- **The protection engine** (`protection.dfy`).
  - `canModify`, `canInteract` and `canEnter` are predicates over the
    manager.
  - The permission service is an oracle whose lookup can fail (the service
    throws). A failed lookup is read as "not held". It lives in its own
    module (`permissions.dfy`), shared by the manager's plot limit and the
    protection engine.
- **The world generator** (`world_gen.dfy`).
  - It classifies columns and writes the layer stack into a 32 x 32 chunk
    buffer (`ChunkBuffer`).
  - `Generate` is proved to produce exactly the chunk that `ChunkBlock`
    describes.
  - `terrain.dfy` shows that the generator and the protection engine draw
    the same grid: the same roads, and walls on exactly the guarded borders.
- **The player listener's current-plot tracker** (`player_listener.dfy`).

Kotlin `Int` arithmetic is modelled with unbounded integers. The model
follows the code. Two design invariants of the plugin are not kept by the
code, and the model shows where:

- `Plot.addMember` does not look at the deny set. A denied player can be
  added as a member and is then both member and denied
  (`Plots.AddMemberIgnoresDenyList`). The design invariant that
  membership and denial exclude each other does not hold in the code.
- `transferOwnership` keeps the member list as it is. A member who becomes
  owner keeps their member entry. The design invariant that the owner never
  appears among the members does not hold in the code.
- `spiralFromOrigin(n)` yields `(2n+1)^2` plots only for `n >= 0`:
  - for `n = -1` it yields (0,0) alone;
  - for `n <= -2` its loop never ends, because no step lands inside the
    empty square while the count stays below `(2n+1)^2`.

  The model requires `n >= 0`. Its only caller passes 100. For `n >= 0`
  the bounds check inside the loop always passes; the model keeps it as
  written.

## Model

| member | source | states |
|---|---|---|
| `PlotIds.IntCompare` | src/main/kotlin/dev/srsouza/hytale/plot/model/PlotId.kt:15-16 | `Int.compareTo` as a sign: 0 exactly when equal, -1 exactly when less, 1 exactly when greater |
| `PlotIds.Compare` | src/main/kotlin/dev/srsouza/hytale/plot/model/PlotId.kt:14-17 | the result is -1, 0 or 1; 0 exactly for equal ids, negative exactly when `a` precedes `b` lexicographically (x first, then z), positive exactly when `b` precedes `a` |
| `PlotIds.CompareAntisymmetric` | src/main/kotlin/dev/srsouza/hytale/plot/model/PlotId.kt:14-17 | swapping the arguments negates the result |
| `PlotIds.CompareTransitive` | src/main/kotlin/dev/srsouza/hytale/plot/model/PlotId.kt:14-17 | the order is transitive |
| `PlotIds.NatToDigits` | src/main/kotlin/dev/srsouza/hytale/plot/model/PlotId.kt:19 | the decimal form of a natural number is non-empty, all digits, with no leading zero |
| `PlotIds.DigitsRoundTrip` | src/main/kotlin/dev/srsouza/hytale/plot/model/PlotId.kt:19 | reading back the digits written for `n` gives `n` |
| `PlotIds.IntToString` | src/main/kotlin/dev/srsouza/hytale/plot/model/PlotId.kt:19 | the decimal form of an `Int` is non-empty and never contains `;`, so `"x;z"` has exactly one separator |
| `PlotIds.ParseInt` | src/main/kotlin/dev/srsouza/hytale/plot/model/PlotId.kt:42-43 | `toIntOrNull`: only an optionally signed, non-empty digit string parses; such a numeral, with or without `+`/`-` and leading zeros, gives its signed value exactly when that value fits a 32-bit `Int`, and none otherwise |
| `PlotIds.IntRoundTrip` | src/main/kotlin/dev/srsouza/hytale/plot/model/PlotId.kt:42-43 | parsing the decimal form of any 32-bit integer gives the integer back |
| `PlotIds.Split` | src/main/kotlin/dev/srsouza/hytale/plot/model/PlotId.kt:40 | `split(";")` yields at least one piece and no piece contains the separator |
| `PlotIds.SplitCount` | src/main/kotlin/dev/srsouza/hytale/plot/model/PlotId.kt:40-41 | the number of pieces is the number of separators plus one |
| `PlotIds.SplitNoSeparator` | src/main/kotlin/dev/srsouza/hytale/plot/model/PlotId.kt:40 | a string without the separator splits into itself alone |
| `PlotIds.SplitJoin` | src/main/kotlin/dev/srsouza/hytale/plot/model/PlotId.kt:40 | `a;b` with separator-free `a`, `b` splits into exactly `[a, b]` |
| `PlotIds.ToString` | src/main/kotlin/dev/srsouza/hytale/plot/model/PlotId.kt:19 | `"$x;$z"`: splits back into exactly the two decimal forms, so it holds exactly one `;` |
| `PlotIds.Parse` | src/main/kotlin/dev/srsouza/hytale/plot/model/PlotId.kt:39-45 | a result exactly when the text splits into two pieces that both pass `toIntOrNull`; the coordinates are those two values, so both are in the `Int` range |
| `PlotIds.ParseToString` | src/main/kotlin/dev/srsouza/hytale/plot/model/PlotId.kt:19-45 | round trip: `parse(toString(id)) == id` for every id of 32-bit coordinates |
| `PlotIds.ParseNeedsOneSeparator` | src/main/kotlin/dev/srsouza/hytale/plot/model/PlotId.kt:40-43 | `parse` succeeds only on text holding exactly one `;` |
| `PlotIds.FromWorldCoords` | src/main/kotlin/dev/srsouza/hytale/plot/model/PlotId.kt:56-73 | no plot exactly when the column is on a road (`isOnRoad`); otherwise the cell whose plot square `[x*grid+roadWidth, x*grid+grid)` on each axis holds the column, which is the floor-division cell |
| `PlotIds.IsOnRoad` | src/main/kotlin/dev/srsouza/hytale/plot/model/PlotId.kt:78-83 | no road at all when `roadWidth` is 0; its columns are exactly those where `fromWorldCoords` finds no plot (stated by `FromWorldCoords`), laid out by `RoadCellLayout` and `RoadRepeats` |
| `PlotIds.IsOnBorder` | src/main/kotlin/dev/srsouza/hytale/plot/model/PlotId.kt:88-103 | a border column is never a road column |
| `PlotIds.PlotLocalInRange` | src/main/kotlin/dev/srsouza/hytale/plot/model/PlotId.kt:99-100 | off the road the plot-local offsets lie in `[0, plotSize)` |
| `CoordUtil.WorldMin` | src/main/kotlin/dev/srsouza/hytale/plot/util/PlotCoordUtil.kt:20-25 | the minimum corner maps back to the same id under `fromWorldCoords` |
| `CoordUtil.WorldMax` | src/main/kotlin/dev/srsouza/hytale/plot/util/PlotCoordUtil.kt:35-38 | the maximum corner is the minimum plus `plotSize-1` on each axis and maps back to the same id |
| `CoordUtil.IsInPlot` | src/main/kotlin/dev/srsouza/hytale/plot/util/PlotCoordUtil.kt:66-70 | `isInPlot(x, z, id)` holds exactly when `fromWorldCoords(x, z) == id` |
| `CoordUtil.RoadCellLayout` | src/main/kotlin/dev/srsouza/hytale/plot/model/PlotId.kt:78-83 | in the grid cell at the origin, a column is road exactly when one of its offsets is below `roadWidth` |
| `CoordUtil.RoadRepeats` | src/main/kotlin/dev/srsouza/hytale/plot/model/PlotId.kt:78-83 | shifting a column by whole grid cells on either axis keeps it on or off the road |
| `CoordUtil.BorderIsOutermostRing` | src/main/kotlin/dev/srsouza/hytale/plot/model/PlotId.kt:88-103 | `isOnBorder` holds exactly for the columns of a plot square that lie on its minimum or maximum row or column |
| `CoordUtil.AdjacentPlots` | src/main/kotlin/dev/srsouza/hytale/plot/util/PlotCoordUtil.kt:78-85 | four ids, exactly those at Manhattan distance 1 |
| `CoordUtil.SurroundingPlots` | src/main/kotlin/dev/srsouza/hytale/plot/util/PlotCoordUtil.kt:93-103 | eight ids in strictly increasing order (so distinct), exactly those at Chebyshev distance 1, never the centre |
| `CoordUtil.DistanceFromOrigin` | src/main/kotlin/dev/srsouza/hytale/plot/util/PlotCoordUtil.kt:112-114 | `max(|x|, |z|)`: no smaller than either and equal to one of them; 0 only at (0,0) |
| `CoordUtil.RingStartSquare` | src/main/kotlin/dev/srsouza/hytale/plot/util/PlotCoordUtil.kt:133 | the rings up to distance `n` hold `(2n+1)^2` plots, the loop's `totalPlots` |
| `CoordUtil.SpiralIndex` | src/main/kotlin/dev/srsouza/hytale/plot/util/PlotCoordUtil.kt:123-164 | the closed-form position of a plot in spiral order lies within the index range of its ring |
| `CoordUtil.SpiralIndexBound` | src/main/kotlin/dev/srsouza/hytale/plot/util/PlotCoordUtil.kt:146 | a plot whose spiral position comes before ring `n+1` is within distance `n` |
| `CoordUtil.SpiralIndexInjective` | src/main/kotlin/dev/srsouza/hytale/plot/util/PlotCoordUtil.kt:123-164 | no two plots share a spiral position |
| `CoordUtil.WalkStep` | src/main/kotlin/dev/srsouza/hytale/plot/util/PlotCoordUtil.kt:138-149 | one move in the current direction reaches the plot whose spiral position is the count yielded so far, and keeps the leg description |
| `CoordUtil.WalkTurn` | src/main/kotlin/dev/srsouza/hytale/plot/util/PlotCoordUtil.kt:152-161 | after the last step of a leg the turn (and, every second turn, the longer leg) starts the next leg of the walk |
| `CoordUtil.SpiralOrderProperties` | src/main/kotlin/dev/srsouza/hytale/plot/util/PlotCoordUtil.kt:123-164 | a list holding the first `(2n+1)^2` plots in spiral order stays within distance `n`, repeats nothing and contains every plot within distance `n` |
| `CoordUtil.SpiralFromOrigin` | src/main/kotlin/dev/srsouza/hytale/plot/util/PlotCoordUtil.kt:123-164 | for `n >= 0`: exactly `(2n+1)^2` plots, the first is (0,0), the i-th has spiral position i, all within distance `n`, none repeated, and every plot within distance `n` present |
| `CoordUtil.Low32Signed` | src/main/kotlin/dev/srsouza/hytale/plot/util/PlotCoordUtil.kt:197 | taking the low 32 bits as a signed value gives an `Int` |
| `CoordUtil.ChunkIndex` | src/main/kotlin/dev/srsouza/hytale/plot/util/PlotCoordUtil.kt:196-198 | the packed index is a 64-bit `Long` |
| `CoordUtil.Low32SignedOfInt32` | src/main/kotlin/dev/srsouza/hytale/plot/util/PlotCoordUtil.kt:197 | masking to 32 bits keeps any `Int` whatever is added in multiples of 2^32 |
| `CoordUtil.ChunkIndexRoundTrip` | src/main/kotlin/dev/srsouza/hytale/plot/util/PlotCoordUtil.kt:196-198 | the low half of the index gives `cx` back and the high half `cz` |
| `CoordUtil.ChunkIndexInjective` | src/main/kotlin/dev/srsouza/hytale/plot/util/PlotCoordUtil.kt:196-198 | distinct chunk coordinates pack to distinct indices |
| `CoordUtil.ChunkRange` | src/main/kotlin/dev/srsouza/hytale/plot/util/PlotCoordUtil.kt:175-182 | the floor-divided chunk range of a plot is non-empty on both axes |
| `CoordUtil.ChunkRangeCoversPlot` | src/main/kotlin/dev/srsouza/hytale/plot/util/PlotCoordUtil.kt:174-182 | every column of the plot lies in a chunk of the range |
| `CoordUtil.ChunksForPlot` | src/main/kotlin/dev/srsouza/hytale/plot/util/PlotCoordUtil.kt:174-191 | exactly the indices `chunkIndex(cx, cz)` of the chunks in the range |
| `Members.PlotMember.CanBuild` | src/main/kotlin/dev/srsouza/hytale/plot/model/PlotMember.kt:28 | holds exactly for the Trusted and Helper tiers |
| `Members.PlotMember.CanUseContainers` | src/main/kotlin/dev/srsouza/hytale/plot/model/PlotMember.kt:33 | holds exactly for the Trusted tier, and implies `canBuild` |
| `Members.TierCapabilities` | src/main/kotlin/dev/srsouza/hytale/plot/model/PlotMember.kt:8-33 | a Visitor can neither build nor use containers, a Helper builds only, a Trusted member does both |
| `Plots.FindMember` | src/main/kotlin/dev/srsouza/hytale/plot/model/Plot.kt:44 | `members.find`: none exactly when no entry has the uuid; otherwise an entry with that uuid, the only one when uuids are unique |
| `Plots.WithoutUuid` | src/main/kotlin/dev/srsouza/hytale/plot/model/Plot.kt:103 | `removeIf { it.uuid == u }`: keeps exactly the entries of other uuids, shrinks exactly when `u` had one, and keeps uuids unique |
| `Plots.Plot.constructor` | src/main/kotlin/dev/srsouza/hytale/plot/model/Plot.kt:9-30 | a fresh plot: given id and owner, no members, denials or merges, default settings, both timestamps `now` |
| `Plots.Plot.IsOwner` | src/main/kotlin/dev/srsouza/hytale/plot/model/Plot.kt:34 | `owner == uuid`; its meaning is stated by `IsAdminPlot` (nobody owns a server plot, the owner owns any other) and by `CanBuild`/`CanUseContainers` |
| `Plots.Plot.IsMember` | src/main/kotlin/dev/srsouza/hytale/plot/model/Plot.kt:39 | `members.any`; its agreement with `getMember` is `MemberLookupAgrees` |
| `Plots.Plot.GetMember` | src/main/kotlin/dev/srsouza/hytale/plot/model/Plot.kt:44 | `members.find`, the function `FindMember` on the plot's list, whose ensures state the result |
| `Plots.Plot.MemberLookupAgrees` | src/main/kotlin/dev/srsouza/hytale/plot/model/Plot.kt:39-44 | `isMember` holds exactly when `getMember` finds an entry, and a found entry is in the list and carries the uuid |
| `Plots.Plot.IsDenied` | src/main/kotlin/dev/srsouza/hytale/plot/model/Plot.kt:66 | `denied.contains`; `DenyPlayer`/`UndenyPlayer` ensure it becomes true or false, and `CanEnter` refuses on it |
| `Plots.Plot.IsAdminPlot` | src/main/kotlin/dev/srsouza/hytale/plot/model/Plot.kt:71 | an ownerless (server) plot is owned by nobody; any other plot is owned by its owner |
| `Plots.Plot.CanBuild` | src/main/kotlin/dev/srsouza/hytale/plot/model/Plot.kt:50-53 | the owner may build; anyone else may build only with a member entry of a building tier, and with unique uuids exactly then |
| `Plots.Plot.CanUseContainers` | src/main/kotlin/dev/srsouza/hytale/plot/model/Plot.kt:58-61 | the owner may; anyone else only with a Trusted member entry (exactly then with unique uuids); implies `canBuild` |
| `Plots.Plot.EffectivePlots` | src/main/kotlin/dev/srsouza/hytale/plot/model/Plot.kt:76-78 | exactly the plot's own id and its merge partners |
| `Plots.Plot.Touch` | src/main/kotlin/dev/srsouza/hytale/plot/model/Plot.kt:83-85 | the last activity becomes `now`, and nothing else changes |
| `Plots.Plot.AddMember` | src/main/kotlin/dev/srsouza/hytale/plot/model/Plot.kt:91-96 | true exactly when `u` was neither member nor owner; then one entry `(u, t, now)` is appended and the plot touched, else nothing changes; uuids stay unique |
| `Plots.Plot.RemoveMember` | src/main/kotlin/dev/srsouza/hytale/plot/model/Plot.kt:102-106 | true exactly when `u` had an entry; afterwards no entry has `u`, denials unchanged, touched only on true |
| `Plots.Plot.DenyPlayer` | src/main/kotlin/dev/srsouza/hytale/plot/model/Plot.kt:112-119 | false and no change when already denied; otherwise `u` joins the deny set, loses every member entry, the plot is touched: `isDenied(u) && !isMember(u)` |
| `Plots.Plot.UndenyPlayer` | src/main/kotlin/dev/srsouza/hytale/plot/model/Plot.kt:125-129 | true exactly when `u` was denied; afterwards `u` is not denied, members unchanged, touched only on true |
| `Plots.AddMemberIgnoresDenyList` | src/main/kotlin/dev/srsouza/hytale/plot/model/Plot.kt:91-96 | `addMember` does not consult the deny set: a denied player can be added, and is then a denied member who may build |
| `Permissions.HasPermission` | src/main/kotlin/dev/srsouza/hytale/plot/manager/PlotProtectionManager.kt:128-134 | true exactly when the permission service answers yes; a failed lookup is never a grant |
| `Manager.TierPermission` | src/main/kotlin/dev/srsouza/hytale/plot/manager/PlotManager.kt:190 | the permission of a tier is the configured prefix followed by a non-empty tier suffix |
| `Manager.HighestGrantedTier` | src/main/kotlin/dev/srsouza/hytale/plot/manager/PlotManager.kt:189-198 | the descending scan: a result is a held tier in `[1, top]` and no higher tier up to `top` is held |
| `Manager.PlotLimit` | src/main/kotlin/dev/srsouza/hytale/plot/manager/PlotManager.kt:185-202 | the largest held tier up to `maxPlotLimit`; `defaultPlotLimit` when none is held |
| `Manager.AddToIndex` | src/main/kotlin/dev/srsouza/hytale/plot/manager/PlotManager.kt:103 | `computeIfAbsent(o).add(id)`: `o`'s entry gains `id`, every other entry is unchanged |
| `Manager.RemoveFromIndex` | src/main/kotlin/dev/srsouza/hytale/plot/manager/PlotManager.kt:139 | `playerPlots[o]?.remove(id)`: `o`'s entry loses `id`, every other entry is unchanged |
| `Manager.IndexInsert` | src/main/kotlin/dev/srsouza/hytale/plot/manager/PlotManager.kt:53-58 | indexing a new plot under its owner (if any) keeps the index exact |
| `Manager.IndexDelete` | src/main/kotlin/dev/srsouza/hytale/plot/manager/PlotManager.kt:136-140 | dropping a plot from its owner's entry keeps the index exact for the remaining plots |
| `Manager.IndexTransfer` | src/main/kotlin/dev/srsouza/hytale/plot/manager/PlotManager.kt:151-159 | moving a plot's index entry to the new owner keeps the index exact; only the new owner gains it and everyone else loses it |
| `Manager.BuildCache` | src/main/kotlin/dev/srsouza/hytale/plot/manager/PlotManager.kt:50-58 | every loaded plot is cached under its id and the owner index lists exactly each player's plots |
| `Manager.CacheStep` | src/main/kotlin/dev/srsouza/hytale/plot/manager/PlotManager.kt:52-58 | caching the next loaded plot and indexing it under its owner keeps the cache keyed by id and the owner index exact |
| `Manager.PlotManager.constructor` | src/main/kotlin/dev/srsouza/hytale/plot/manager/PlotManager.kt:31-41 | empty caches over the repositories' current contents |
| `Manager.PlotManager.GetPlayerPlots` | src/main/kotlin/dev/srsouza/hytale/plot/manager/PlotManager.kt:169-171 | the player's indexed set, or empty; `PlayerIndexMatchesScan` proves it equals the cached plots the player owns |
| `Manager.PlotManager.GetPlayerPlotCount` | src/main/kotlin/dev/srsouza/hytale/plot/manager/PlotManager.kt:176-178 | the size of the player's indexed set; 0 exactly when it is empty |
| `Manager.PlotManager.GetPlot` | src/main/kotlin/dev/srsouza/hytale/plot/manager/PlotManager.kt:66 | the cached plot under `id`, none exactly when unclaimed |
| `Manager.PlotManager.IsPlotClaimed` | src/main/kotlin/dev/srsouza/hytale/plot/manager/PlotManager.kt:81 | claimed exactly when `getPlot` finds a plot |
| `Manager.PlotManager.GetPlotAt` | src/main/kotlin/dev/srsouza/hytale/plot/manager/PlotManager.kt:71-76 | none on a road; otherwise the cached plot whose square holds the column, and that plot whenever one is cached there |
| `Manager.PlotManager.GetAdminPlots` | src/main/kotlin/dev/srsouza/hytale/plot/manager/PlotManager.kt:297-299 | with a valid cache, exactly the ids of cached plots without an owner |
| `Manager.PlotManager.GetTotalPlotCount` | src/main/kotlin/dev/srsouza/hytale/plot/manager/PlotManager.kt:304 | the number of cached plot ids; 0 exactly when no plot is cached |
| `Manager.PlotManager.PlayerCountWithinTotal` | src/main/kotlin/dev/srsouza/hytale/plot/manager/PlotManager.kt:169-178 | with a valid cache every plot in a player's index is cached, so `getPlayerPlotCount` never exceeds `getTotalPlotCount` |
| `Manager.PlotManager.LoadAllPlots` | src/main/kotlin/dev/srsouza/hytale/plot/manager/PlotManager.kt:46-61 | the cache becomes exactly the stored plots under their ids, the owner index is rebuilt to match, and the repository mirrors the cache |
| `Manager.PlotManager.GetPlayerPlotLimit` | src/main/kotlin/dev/srsouza/hytale/plot/manager/PlotManager.kt:185-202 | the descending loop returns `PlotLimit` |
| `Manager.PlotManager.CanPlayerClaim` | src/main/kotlin/dev/srsouza/hytale/plot/manager/PlotManager.kt:207-211 | true exactly when the player owns fewer plots than their limit |
| `Manager.PlotManager.ClaimPlot` | src/main/kotlin/dev/srsouza/hytale/plot/manager/PlotManager.kt:86-108 | already-claimed first, then the limit; on refusal nothing changes; on success a fresh plot owned by the player (no members, denials, merges or alias, default settings, both timestamps `now`) is cached, indexed, stored, the count grows by one and stays within the limit; the index stays exact |
| `Manager.PlotManager.ClaimAdminPlot` | src/main/kotlin/dev/srsouza/hytale/plot/manager/PlotManager.kt:113-130 | no limit check; refusal only when claimed; on success a fresh ownerless plot (no members, denials, merges or alias, default settings, both timestamps `now`) is cached and stored and the owner index is untouched |
| `Manager.PlotManager.InsertFreshPlot` | src/main/kotlin/dev/srsouza/hytale/plot/manager/PlotManager.kt:95-104 | the shared tail of both claims: a fresh plot (given owner, no members, denials, merges or alias, default settings, both timestamps `now`) is cached, indexed under its owner if any and stored, keeping the index exact and the repository in step |
| `Manager.PlotManager.UnclaimPlot` | src/main/kotlin/dev/srsouza/hytale/plot/manager/PlotManager.kt:135-145 | true exactly when claimed; the plot leaves the cache, its owner's entry and the repository, and no entry lists it afterwards |
| `Manager.PlotManager.TransferOwnership` | src/main/kotlin/dev/srsouza/hytale/plot/manager/PlotManager.kt:150-164 | true exactly when claimed; the stored record changes only in its owner, now the new owner, and its activity, now `now`; only the new owner's index gains it and all others lose it, the plot is stored |
| `Manager.PlotManager.FindUnclaimedPlot` | src/main/kotlin/dev/srsouza/hytale/plot/manager/PlotManager.kt:216-220 | a result is unclaimed, within distance 100, and every plot earlier in spiral order is claimed; none only when every plot within distance 100 is claimed |
| `Manager.PlotManager.FindUnclaimedPlotNear` | src/main/kotlin/dev/srsouza/hytale/plot/manager/PlotManager.kt:225-239 | a result is unclaimed, within Chebyshev distance `radius` of the centre, every closer plot is claimed, and so is every plot of its ring scanned before it (smaller x offset, or equal x and smaller z); none only when all plots within `radius` are claimed |
| `Manager.PlotManager.AddMember` | src/main/kotlin/dev/srsouza/hytale/plot/manager/PlotManager.kt:244-250 | false on an unclaimed id or a refused add; otherwise the plot record changes only by the appended member `(u, t, now)` and activity `now`, and is stored; the index stays exact |
| `Manager.PlotManager.RemoveMember` | src/main/kotlin/dev/srsouza/hytale/plot/manager/PlotManager.kt:255-261 | true exactly when the cached plot had the member; then the record changes only by losing that member's entries and activity `now`, and is stored; otherwise nothing changes |
| `Manager.PlotManager.DenyPlayer` | src/main/kotlin/dev/srsouza/hytale/plot/manager/PlotManager.kt:266-272 | true exactly when the cached plot did not deny the player; then the record changes only by the player joining the deny set, losing their member entries and activity `now`, and is stored |
| `Manager.PlotManager.UndenyPlayer` | src/main/kotlin/dev/srsouza/hytale/plot/manager/PlotManager.kt:277-283 | true exactly when the cached plot denied the player; then the record changes only by the player leaving the deny set and activity `now`, and is stored; otherwise nothing changes |
| `Manager.PlotManager.StoredInPlace` | src/main/kotlin/dev/srsouza/hytale/plot/manager/PlotManager.kt:102-104 | writing one cached plot (with its index update and store) keeps the cache valid and the repository mirroring it |
| `Manager.PlotManager.UpdatePlot` | src/main/kotlin/dev/srsouza/hytale/plot/manager/PlotManager.kt:288-292 | the plot is touched, cached under its id and stored; the index is not touched, so the cache stays valid when the owner is kept |
| `Manager.PlotManager.SavePlayerLastLocation` | src/main/kotlin/dev/srsouza/hytale/plot/manager/PlotManager.kt:311-314 | the cache and the repository both hold the new location |
| `Manager.PlotManager.GetPlayerLastLocation` | src/main/kotlin/dev/srsouza/hytale/plot/manager/PlotManager.kt:319-325 | the stored location, from the cache if present, otherwise read and then cached |
| `Manager.PlotManager.HasPlayerLastLocation` | src/main/kotlin/dev/srsouza/hytale/plot/manager/PlotManager.kt:330-333 | with a coherent cache, true exactly when a location is stored |
| `Manager.PlotManager.ClearPlayerLastLocation` | src/main/kotlin/dev/srsouza/hytale/plot/manager/PlotManager.kt:338-341 | the entry leaves both the cache and the repository |
| `Manager.PlayerIndexMatchesScan` | src/main/kotlin/dev/srsouza/hytale/plot/manager/PlotManager.kt:169-171 | `getPlayerPlots` equals a scan of the cache for plots the player owns |
| `Manager.AdminPlotsNotIndexed` | src/main/kotlin/dev/srsouza/hytale/plot/manager/PlotManager.kt:297-299 | no server plot appears in any player's index |
| `Manager.PlayerIndexesDisjoint` | src/main/kotlin/dev/srsouza/hytale/plot/manager/PlotManager.kt:169-171 | two players' indexed sets are disjoint |
| `Protection.HasAdminBypass` | src/main/kotlin/dev/srsouza/hytale/plot/manager/PlotProtectionManager.kt:121-123 | the bypass is held only when the service grants it |
| `Protection.IsProtectedBottomLayer` | src/main/kotlin/dev/srsouza/hytale/plot/manager/PlotProtectionManager.kt:62-65 | never protected when bottom-layer protection is off |
| `Protection.IsRoad` | src/main/kotlin/dev/srsouza/hytale/plot/manager/PlotProtectionManager.kt:113-116 | a road column exactly when no plot covers it |
| `Protection.CanModify` | src/main/kotlin/dev/srsouza/hytale/plot/manager/PlotProtectionManager.kt:23-57 | allowed only through the bypass, the road-build permission, or build rights on the plot whose square holds the column; without the bypass nobody, owner or member, modifies the protected bottom layer |
| `Protection.CanInteract` | src/main/kotlin/dev/srsouza/hytale/plot/manager/PlotProtectionManager.kt:70-92 | refused only without bypass, inside a claimed plot, to a player who cannot use its containers |
| `Protection.CanEnter` | src/main/kotlin/dev/srsouza/hytale/plot/manager/PlotProtectionManager.kt:97-108 | refused only without bypass, on a claimed plot that denies the player |
| `Protection.BypassAllowsEverything` | src/main/kotlin/dev/srsouza/hytale/plot/manager/PlotProtectionManager.kt:23-108 | the admin bypass allows modifying, interacting and entering everywhere |
| `Protection.BottomLayerProtectsFromOwner` | src/main/kotlin/dev/srsouza/hytale/plot/manager/PlotProtectionManager.kt:30-32 | the owner's case: inside their own plot, off a guarded border and without bypass, the owner may modify exactly above the protected layers |
| `Protection.RoadRules` | src/main/kotlin/dev/srsouza/hytale/plot/manager/PlotProtectionManager.kt:35-38 | on a road, above the protected layers and without bypass, modifying needs exactly the road-build permission; interacting is always allowed |
| `Protection.BorderRule` | src/main/kotlin/dev/srsouza/hytale/plot/manager/PlotProtectionManager.kt:41-43 | on a guarded border, above the protected layers and without bypass, modifying needs exactly the road-build permission |
| `Protection.UnclaimedPlotRules` | src/main/kotlin/dev/srsouza/hytale/plot/manager/PlotProtectionManager.kt:46-53 | inside an unclaimed plot, off the border and without bypass, nobody may modify and everybody may interact |
| `Protection.ClaimedPlotRules` | src/main/kotlin/dev/srsouza/hytale/plot/manager/PlotProtectionManager.kt:55-91 | inside a claimed plot, off the border and without bypass: modifying equals the plot's `canBuild` above the protected layers, interacting equals `canUseContainers` |
| `Protection.EnterRules` | src/main/kotlin/dev/srsouza/hytale/plot/manager/PlotProtectionManager.kt:97-108 | entering an unclaimed plot is always allowed; a claimed one exactly with bypass or when not denied |
| `Protection.FailuresAsDenials` | src/main/kotlin/dev/srsouza/hytale/plot/manager/PlotProtectionManager.kt:128-134 | the oracle with every failed lookup turned into a refusal and every other answer kept |
| `Protection.FailedLookupIsRefusal` | src/main/kotlin/dev/srsouza/hytale/plot/manager/PlotProtectionManager.kt:128-134 | every decision is the same when failed lookups are replaced by refusals |
| `WorldGen.PlotWorldGen.ColumnBlock` | src/main/kotlin/dev/srsouza/hytale/plot/worldgen/PlotWorldGen.kt:139-165 | a column has a block exactly at `0..groundHeight` and, on a wall column, at `groundHeight+1` |
| `WorldGen.PlotWorldGen.ChunkBlock` | src/main/kotlin/dev/srsouza/hytale/plot/worldgen/PlotWorldGen.kt:97-110 | blocks of chunk (cx, cz) only lie in local columns `[0, 32)` |
| `WorldGen.PlotWorldGen.GetPositionType` | src/main/kotlin/dev/srsouza/hytale/plot/worldgen/PlotWorldGen.kt:171-193 | road exactly where `PlotId.isOnRoad` holds and border exactly where `isOnBorder` holds; interior otherwise |
| `WorldGen.PlotWorldGen.IsRoad` | src/main/kotlin/dev/srsouza/hytale/plot/worldgen/PlotWorldGen.kt:198-200 | road exactly where `fromWorldCoords` finds no plot |
| `WorldGen.PlotWorldGen.IsBorder` | src/main/kotlin/dev/srsouza/hytale/plot/worldgen/PlotWorldGen.kt:205-207 | a border column always lies in a plot |
| `WorldGen.PlotWorldGen.IsInPlot` | src/main/kotlin/dev/srsouza/hytale/plot/worldgen/PlotWorldGen.kt:212-215 | interior or border exactly where `fromWorldCoords` finds a plot |
| `WorldGen.PositionTypeAgrees` | src/main/kotlin/dev/srsouza/hytale/plot/worldgen/PlotWorldGen.kt:171-193 | the generator's road and border classification equals `PlotId.isOnRoad` / `isOnBorder`, and plot interior is neither |
| `WorldGen.InPlotIffPlotId` | src/main/kotlin/dev/srsouza/hytale/plot/worldgen/PlotWorldGen.kt:212-215 | `isInPlot` holds exactly when `fromWorldCoords` finds a plot |
| `WorldGen.PositionTypesPartition` | src/main/kotlin/dev/srsouza/hytale/plot/worldgen/PlotWorldGen.kt:198-215 | road, border and interior are exhaustive and mutually exclusive |
| `WorldGen.BorderIsSquareEdge` | src/main/kotlin/dev/srsouza/hytale/plot/worldgen/PlotWorldGen.kt:181-189 | inside a plot square, border columns are exactly its edge rows and columns |
| `WorldGen.BedrockBand` | src/main/kotlin/dev/srsouza/hytale/plot/worldgen/PlotWorldGen.kt:143 | below `bedrockDepth` the block is bedrock |
| `WorldGen.FillBand` | src/main/kotlin/dev/srsouza/hytale/plot/worldgen/PlotWorldGen.kt:146 | from `bedrockDepth` to below `groundHeight - dirtDepth` the block is fill |
| `WorldGen.SubsurfaceBand` | src/main/kotlin/dev/srsouza/hytale/plot/worldgen/PlotWorldGen.kt:149-151 | the remaining layers below the surface are fill on roads and dirt elsewhere |
| `WorldGen.SurfaceBlock` | src/main/kotlin/dev/srsouza/hytale/plot/worldgen/PlotWorldGen.kt:133-137 | at `groundHeight`: plot block inside, road block on roads, border block on borders when enabled (else plot block) |
| `WorldGen.AboveSurface` | src/main/kotlin/dev/srsouza/hytale/plot/worldgen/PlotWorldGen.kt:161-165 | above the surface only `groundHeight+1` of an enabled border column is written, with the border block |
| `WorldGen.LayersMatch` | src/main/kotlin/dev/srsouza/hytale/plot/worldgen/PlotWorldGen.kt:140-159 | the layer loop writes exactly the cells `0 <= y < top` of the column, each with its band's block |
| `WorldGen.ColumnCellsMatch` | src/main/kotlin/dev/srsouza/hytale/plot/worldgen/PlotWorldGen.kt:139-165 | a generated column holds exactly the cells where `ColumnBlock` is defined, with those blocks |
| `WorldGen.ChunkCellsMatch` | src/main/kotlin/dev/srsouza/hytale/plot/worldgen/PlotWorldGen.kt:97-110 | after `n` columns the chunk holds exactly the cells of the visited columns, with their blocks |
| `WorldGen.ChunkTintsMatch` | src/main/kotlin/dev/srsouza/hytale/plot/worldgen/PlotWorldGen.kt:103 | after `n` columns exactly the visited columns carry the tint |
| `WorldGen.ChunkComplete` | src/main/kotlin/dev/srsouza/hytale/plot/worldgen/PlotWorldGen.kt:97-111 | after all 32 x 32 columns the buffer is the generated chunk |
| `WorldGen.LayerWritten` | src/main/kotlin/dev/srsouza/hytale/plot/worldgen/PlotWorldGen.kt:157-158 | writing one layer's block and environment extends the column by that layer |
| `WorldGen.WallWritten` | src/main/kotlin/dev/srsouza/hytale/plot/worldgen/PlotWorldGen.kt:162-164 | writing the wall block completes the column |
| `WorldGen.ChunkStep` | src/main/kotlin/dev/srsouza/hytale/plot/worldgen/PlotWorldGen.kt:99-109 | tinting and generating the next column extends the chunk by that column |
| `WorldGen.ChunkBuffer.SetBlock` | src/main/kotlin/dev/srsouza/hytale/plot/worldgen/PlotWorldGen.kt:157 | the host chunk's `setBlock` writes one cell |
| `WorldGen.ChunkBuffer.SetEnvironment` | src/main/kotlin/dev/srsouza/hytale/plot/worldgen/PlotWorldGen.kt:158 | the host chunk's `setEnvironment` writes one cell |
| `WorldGen.ChunkBuffer.SetTint` | src/main/kotlin/dev/srsouza/hytale/plot/worldgen/PlotWorldGen.kt:103 | the host chunk's `setTint` writes one column |
| `WorldGen.GenerateColumn` | src/main/kotlin/dev/srsouza/hytale/plot/worldgen/PlotWorldGen.kt:126-166 | adds exactly the column's cells with their blocks, and the environment on each |
| `WorldGen.GenerateRow` | src/main/kotlin/dev/srsouza/hytale/plot/worldgen/PlotWorldGen.kt:98-110 | the inner loop: extends the chunk by the 32 columns of one local x |
| `WorldGen.Generate` | src/main/kotlin/dev/srsouza/hytale/plot/worldgen/PlotWorldGen.kt:83-111 | every column of `[0,32)^2` visited once, classified at its world position, tinted and filled: the result is exactly the generated chunk |
| `Listener.Track` | src/main/kotlin/dev/srsouza/hytale/plot/listener/PlayerListener.kt:60-71 | the player's entry becomes the plot under their feet (none on a road), every other entry is kept, and nothing changes when it already was |
| `Listener.TrackIdempotent` | src/main/kotlin/dev/srsouza/hytale/plot/listener/PlayerListener.kt:60-71 | seeing a player twice at the same place changes nothing the second time |
| `Listener.TrackCommutes` | src/main/kotlin/dev/srsouza/hytale/plot/listener/PlayerListener.kt:60-71 | updates for two different players commute |
| `Listener.PlayerListener.GetCurrentPlot` | src/main/kotlin/dev/srsouza/hytale/plot/listener/PlayerListener.kt:76 | a plot exactly when the player has an entry |
| `Listener.PlayerListener.UpdatePlayerPlot` | src/main/kotlin/dev/srsouza/hytale/plot/listener/PlayerListener.kt:60-71 | the tracked plot becomes `fromWorldCoords` of the position, others unchanged, a move within the tracked plot changes nothing |
| `Listener.PlayerListener.HandlePlayerDisconnect` | src/main/kotlin/dev/srsouza/hytale/plot/listener/PlayerListener.kt:46-54 | the player's entry is removed and `getCurrentPlot` is none afterwards |
| `Terrain.GeneratedRoadsAreRoads` | src/main/kotlin/dev/srsouza/hytale/plot/worldgen/PlotWorldGen.kt:198-200 | with the same grid settings, the generator's road columns are exactly the protection engine's roads |
| `Terrain.WallsStandOnGuardedBorders` | src/main/kotlin/dev/srsouza/hytale/plot/worldgen/PlotWorldGen.kt:161-165 | the generator raises a wall exactly on the columns the protection engine guards as borders |
| `Terrain.WallsNeedRoadPermission` | src/main/kotlin/dev/srsouza/hytale/plot/manager/PlotProtectionManager.kt:23-43 | a generated wall can be modified exactly with the bypass or, above the protected layers, the road-build permission |
| `Terrain.GeneratedRoadsFollowRoadRules` | src/main/kotlin/dev/srsouza/hytale/plot/manager/PlotProtectionManager.kt:35-38 | on a generated road anyone may interact and modifying follows the road rule |

## Left out

- Kotlin `Int` overflow: the grid products `x * gridSize`, `cx * 32` and
  `plotSize + roadWidth` are unbounded here. `PlotId.parse` and
  `chunkIndex` do model the 32-bit range: `toIntOrNull` rejects
  out-of-range numerals, and the index masks to 32 bits.
- `fromWorldCoords` computes the cell with `floor(x.toDouble() / gridSize)`.
  The model uses integer floor division, which gives the same value for every
  32-bit input.
- `PlotIds.ParseInt`: accepts ASCII decimal digits only. Kotlin's
  `toIntOrNull` also accepts other Unicode decimal digits.
- `CoordUtil.SpiralFromOrigin`: returns the whole list at once, where Kotlin
  yields it lazily. `findUnclaimedPlot` stops at the first unclaimed plot
  either way. The method requires `maxDistance >= 0`.
- `Config.PlotConfig.GridValid` and `WorldGen.PlotWorldGen.GridValid`: the
  configuration is assumed sane (`plotSize >= 1`, `roadWidth >= 0`). The
  coordinate operations, the manager, the listener and the generator require
  it. The plugin reads these values without checking them. Three cases are
  not modelled:
  - a zero grid size, where `Math.floorMod` throws;
  - a negative road width, which leaves no roads;
  - `plotSize == 0` with `roadWidth > 0`, where the generator's
    `getPositionType` classifies every column as road.
- `Manager.PlotManager.UpdatePlot`: guarantees `Valid()` only when the plot
  keeps its cached owner (or is a new ownerless plot). The source does not
  re-index the owner.
- `WorldGen.Generate`: the inner `localZ` loop is the separate method
  `GenerateRow`.
- The block rotation arguments `0, 0` of `setBlock` are left out. So are the
  host chunk's height limits and the generated state and entity chunks.
- `generate`'s `seed`, `index` and `stillNeeded` parameters and its
  `CompletableFuture` are left out. `getSpawnPoints` uses floating point and
  is left out too.
- Floating point: `PlotCoordUtil.plotIdToWorldCenter`, the plot home
  location (`homeLocation`) and the tint colour are left out.
  `PlayerLastLocation` is an opaque record with `real` fields.
- Wall-clock time: every `System.currentTimeMillis()` is a `now` parameter.
- Persistence:
  - SQL transactions, the connection pool and save failures are left out;
    the plot repository is the ghost map `savedPlots`.
  - `loadAllPlots` receives the repository's listing as a parameter. Plot
    ids are distinct in it, since they are the table's primary key.
- Concurrency: the model is sequential. `ConcurrentHashMap` semantics and
  claim atomicity across threads are left out.
- The permission service is an oracle function parameter. A thrown lookup
  is its `LookupFailed` answer.
- Logging calls throughout.
- From the player listener: event registration, `handlePlayerConnect`, the
  null-uuid early return on disconnect, and the entry/exit messages.
- These files are not part of this model:
  - world creation and teleport (`PlotWorldManager.kt`);
  - the generator provider and its asset lookups (`PlotWorldGenProvider.kt`);
  - `BlockProtectionListener.kt`, which only calls `canModify`;
  - the plugin lifecycle, the commands and `PlayerExtensions.kt`;
  - configuration codecs and messages (`PlotConfig.kt`, `PlotMessages.kt`);
    the configuration is the record `Config.PlotConfig`;
  - `PlotId.CODEC`.
