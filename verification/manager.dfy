/**
 * The plot manager: an in-memory cache of claimed plots keyed by id, an
 * index from each owner to the ids of their plots, and a read-through cache
 * of players' last locations. Every change to a cached plot is written
 * through to the plot repository, modelled by a ghost map of stored rows;
 * the last-location repository is a map of stored locations.
 */
module Manager {
  import opened Wrappers
  import opened PlotIds
  import opened CoordUtil
  import opened Members
  import opened Plots
  import opened Config
  import opened Permissions

  datatype ClaimResult = Success | AlreadyClaimed | AtLimit | OnRoad | NoPermission

  /** Where a player stood before teleporting to a plot (positions and angles as reals). */
  datatype PlayerLastLocation = PlayerLastLocation(
    playerUuid: Uuid, worldName: string, x: real, y: real, z: real, yaw: real, pitch: real, savedAt: int)

  /** Largest radius of the origin search. */
  const SEARCH_RADIUS: nat := 100

  // ---------------------------------------------------------------------
  // Plot limits
  // ---------------------------------------------------------------------

  /** The permission naming limit tier `tier`: the prefix followed by the decimal tier. */
  function TierPermission(prefix: string, tier: int): (p: string)
    ensures |p| > |prefix| && p[..|prefix|] == prefix
  {
    prefix + IntToString(tier)
  }

  /** The highest tier in [1, top] whose permission the player holds, if any. */
  function HighestGrantedTier(oracle: PermissionOracle, player: Uuid, prefix: string, top: int): (r: Option<int>)
    ensures r.Some? ==> 1 <= r.value <= top && HasPermission(oracle, player, TierPermission(prefix, r.value))
    ensures forall t :: r.GetOr(0) < t <= top ==> !HasPermission(oracle, player, TierPermission(prefix, t))
    decreases top
  {
    if top < 1 then None
    else if HasPermission(oracle, player, TierPermission(prefix, top)) then Some(top)
    else HighestGrantedTier(oracle, player, prefix, top - 1)
  }

  /**
   * A player's plot limit: the highest tier up to the configured maximum
   * whose permission the player holds, or the default when they hold none.
   */
  function PlotLimit(config: PlotConfig, oracle: PermissionOracle, player: Uuid): (limit: int)
    ensures forall t ::
      (1 <= t <= config.maxPlotLimit &&
       HasPermission(oracle, player, TierPermission(config.plotLimitPermissionPrefix, t))) ==>
        t <= limit && 1 <= limit <= config.maxPlotLimit &&
        HasPermission(oracle, player, TierPermission(config.plotLimitPermissionPrefix, limit))
    ensures (forall t :: 1 <= t <= config.maxPlotLimit ==>
      !HasPermission(oracle, player, TierPermission(config.plotLimitPermissionPrefix, t))) ==>
        limit == config.defaultPlotLimit
  {
    HighestGrantedTier(oracle, player, config.plotLimitPermissionPrefix, config.maxPlotLimit).GetOr(config.defaultPlotLimit)
  }

  // ---------------------------------------------------------------------
  // The owner index, as a relation between pure maps
  // ---------------------------------------------------------------------

  /** The ids indexed under `owner`, none when the owner has no entry. */
  function IndexedAt(index: map<Uuid, set<PlotId>>, owner: Uuid): set<PlotId>
  {
    if owner in index then index[owner] else {}
  }

  /** `computeIfAbsent(owner) { ... }.add(id)`: adds `id` to the owner's entry, creating it if needed. */
  function AddToIndex(index: map<Uuid, set<PlotId>>, owner: Uuid, id: PlotId): (r: map<Uuid, set<PlotId>>)
    ensures IndexedAt(r, owner) == IndexedAt(index, owner) + {id}
    ensures forall o :: o != owner ==> IndexedAt(r, o) == IndexedAt(index, o)
  {
    index[owner := IndexedAt(index, owner) + {id}]
  }

  /** `index[owner]?.remove(id)`: drops `id` from the owner's entry, if there is one. */
  function RemoveFromIndex(index: map<Uuid, set<PlotId>>, owner: Uuid, id: PlotId): (r: map<Uuid, set<PlotId>>)
    ensures IndexedAt(r, owner) == IndexedAt(index, owner) - {id}
    ensures forall o :: o != owner ==> IndexedAt(r, o) == IndexedAt(index, o)
  {
    if owner in index then index[owner := index[owner] - {id}] else index
  }

  /**
   * `index` lists, for each player, exactly the plots that `owners` gives
   * them; plots without an owner are in no entry.
   */
  ghost predicate IndexOf(index: map<Uuid, set<PlotId>>, owners: map<PlotId, Option<Uuid>>)
  {
    && (forall o, id :: o in index && id in index[o] ==> id in owners && owners[id] == Some(o))
    && (forall id :: id in owners && owners[id].Some? ==> id in IndexedAt(index, owners[id].value))
  }

  /** A plot without an owner entry is indexed under nobody. */
  lemma NotIndexed(index: map<Uuid, set<PlotId>>, owners: map<PlotId, Option<Uuid>>, id: PlotId)
    requires IndexOf(index, owners) && id !in owners
    ensures forall o :: id !in IndexedAt(index, o)
  {
  }

  /** Adding a plot to the index under its owner, if any, keeps the index exact. */
  lemma IndexInsert(index: map<Uuid, set<PlotId>>, owners: map<PlotId, Option<Uuid>>, id: PlotId, owner: Option<Uuid>)
    requires IndexOf(index, owners) && id !in owners
    ensures IndexOf(if owner.Some? then AddToIndex(index, owner.value, id) else index, owners[id := owner])
  {
    var index' := if owner.Some? then AddToIndex(index, owner.value, id) else index;
    var owners' := owners[id := owner];
    forall o, id' | o in index' && id' in index'[o]
      ensures id' in owners' && owners'[id'] == Some(o)
    {
      if id' != id {
        assert id' in index[o];
      }
    }
  }

  /** Dropping a plot from its owner's entry keeps the index exact for the remaining plots. */
  lemma IndexDelete(index: map<Uuid, set<PlotId>>, owners: map<PlotId, Option<Uuid>>, id: PlotId)
    requires IndexOf(index, owners) && id in owners
    ensures IndexOf(if owners[id].Some? then RemoveFromIndex(index, owners[id].value, id) else index, owners - {id})
  {
    var owner := owners[id];
    var index' := if owner.Some? then RemoveFromIndex(index, owner.value, id) else index;
    forall o, id' | o in index' && id' in index'[o]
      ensures id' in owners - {id} && (owners - {id})[id'] == Some(o)
    {
      assert id' in index[o];
    }
  }

  /**
   * Moving a plot from its owner's entry to `newOwner`'s keeps the index
   * exact, and changes no other player's entry except by dropping the plot.
   */
  lemma IndexTransfer(index: map<Uuid, set<PlotId>>, owners: map<PlotId, Option<Uuid>>, id: PlotId, newOwner: Uuid)
    requires IndexOf(index, owners) && id in owners
    ensures var moved := AddToIndex(if owners[id].Some? then RemoveFromIndex(index, owners[id].value, id) else index, newOwner, id);
      && IndexOf(moved, owners[id := Some(newOwner)])
      && forall o :: IndexedAt(moved, o) == if o == newOwner then IndexedAt(index, o) + {id} else IndexedAt(index, o) - {id}
  {
    var removed := if owners[id].Some? then RemoveFromIndex(index, owners[id].value, id) else index;
    IndexDelete(index, owners, id);
    IndexInsert(removed, owners - {id}, id, Some(newOwner));
    assert (owners - {id})[id := Some(newOwner)] == owners[id := Some(newOwner)];
    forall o | o != newOwner
      ensures IndexedAt(removed, o) == IndexedAt(index, o) - {id}
    {
      if owners[id] != Some(o) {
        assert id !in IndexedAt(index, o);
      }
    }
  }

  /** The owner of every plot of a cache. */
  ghost function OwnersOf(cache: map<PlotId, Plot>): (owners: map<PlotId, Option<Uuid>>)
    reads cache.Values
    ensures owners.Keys == cache.Keys
    ensures forall id :: id in cache ==> owners[id] == cache[id].owner
  {
    map id | id in cache :: cache[id].owner
  }

  /** Every plot of a cache sits under its own id. */
  predicate KeyedById(cache: map<PlotId, Plot>)
  {
    forall id :: id in cache ==> cache[id].id == id
  }

  /** The stored rows are exactly the cached plots, each as it is now. */
  ghost predicate Mirrors(cache: map<PlotId, Plot>, rows: map<PlotId, PlotRecord>)
    reads cache.Values
  {
    && cache.Keys == rows.Keys
    && (forall id :: id in cache ==> rows[id] == cache[id].Snapshot())
  }

  /**
   * After writing a plot under `id`, the owners are the earlier ones with
   * the written plot's owner under `id`, provided every other plot kept its owner.
   */
  lemma OwnersAfterWrite(cache: map<PlotId, Plot>, owners: map<PlotId, Option<Uuid>>, id: PlotId)
    requires id in cache
    requires forall other :: other in owners && other != id ==> other in cache
    requires forall other :: other in cache && other != id ==> other in owners && owners[other] == cache[other].owner
    ensures OwnersOf(cache) == owners[id := cache[id].owner]
  {
  }

  /** After dropping `id`, the owners are the earlier ones without `id`. */
  lemma OwnersAfterRemove(cache: map<PlotId, Plot>, owners: map<PlotId, Option<Uuid>>, id: PlotId)
    requires cache.Keys == owners.Keys - {id}
    requires forall other :: other in cache ==> owners[other] == cache[other].owner
    ensures OwnersOf(cache) == owners - {id}
  {
  }

  /**
   * After writing a plot under `id` and storing its row, the rows mirror
   * the cache, provided every other plot still matches its row.
   */
  lemma MirrorsAfterWrite(cache: map<PlotId, Plot>, rows: map<PlotId, PlotRecord>, id: PlotId)
    requires id in cache
    requires forall other :: other in rows && other != id ==> other in cache
    requires forall other :: other in cache && other != id ==> other in rows && rows[other] == cache[other].Snapshot()
    ensures Mirrors(cache, rows[id := cache[id].Snapshot()])
  {
  }

  /** After dropping `id` from the cache and the rows, the rows still mirror the cache. */
  lemma MirrorsAfterRemove(cache: map<PlotId, Plot>, rows: map<PlotId, PlotRecord>, id: PlotId)
    requires cache.Keys == rows.Keys - {id}
    requires forall other :: other in cache ==> rows[other] == cache[other].Snapshot()
    ensures Mirrors(cache, rows - {id})
  {
  }

  /** The ids of a sequence of plots. */
  function IdsOf(all: seq<Plot>): (ids: set<PlotId>)
    ensures forall i :: 0 <= i < |all| ==> all[i].id in ids
  {
    set p | p in all :: p.id
  }

  /** Rows and cache built from the same plots agree id by id. */
  lemma RowsMatchCache(all: seq<Plot>, cache: map<PlotId, Plot>, rows: map<PlotId, PlotRecord>)
    requires cache.Keys == IdsOf(all) && rows.Keys == IdsOf(all)
    requires forall i :: 0 <= i < |all| ==> cache[all[i].id] == all[i]
    requires forall i :: 0 <= i < |all| ==> rows[all[i].id] == all[i].Snapshot()
    ensures Mirrors(cache, rows)
  {
  }

  /**
   * The body of `loadAllPlots`: caches every plot of `all` under its id
   * and indexes it under its owner, one plot at a time.
   */
  method BuildCache(all: seq<Plot>) returns (cache: map<PlotId, Plot>, index: map<Uuid, set<PlotId>>)
    requires forall i, j :: 0 <= i < j < |all| ==> all[i].id != all[j].id
    ensures cache.Keys == IdsOf(all)
    ensures forall i :: 0 <= i < |all| ==> cache[all[i].id] == all[i]
    ensures KeyedById(cache)
    ensures IndexOf(index, OwnersOf(cache))
  {
    cache := map[];
    index := map[];
    for i := 0 to |all|
      invariant cache.Keys == IdsOf(all[..i])
      invariant forall j :: 0 <= j < i ==> cache[all[j].id] == all[j]
      invariant KeyedById(cache)
      invariant IndexOf(index, OwnersOf(cache))
    {
      var plot := all[i];
      CacheStep(all, i, cache, index);
      index := if plot.owner.Some? then AddToIndex(index, plot.owner.value, plot.id) else index;
      cache := cache[plot.id := plot];
    }
  }

  /** Loading the next plot keeps the cache and the owner index in step with the plots loaded so far. */
  lemma CacheStep(all: seq<Plot>, i: nat, cache: map<PlotId, Plot>, index: map<Uuid, set<PlotId>>)
    requires i < |all| && forall j :: 0 <= j < i ==> all[j].id != all[i].id
    requires cache.Keys == IdsOf(all[..i]) && KeyedById(cache) && IndexOf(index, OwnersOf(cache))
    requires forall j :: 0 <= j < i ==> cache[all[j].id] == all[j]
    ensures var cache2 := cache[all[i].id := all[i]];
      && cache2.Keys == IdsOf(all[..i + 1]) && KeyedById(cache2)
      && (forall j :: 0 <= j <= i ==> cache2[all[j].id] == all[j])
      && IndexOf(if all[i].owner.Some? then AddToIndex(index, all[i].owner.value, all[i].id) else index, OwnersOf(cache2))
  {
    var plot := all[i];
    var owners := OwnersOf(cache);
    assert plot.id !in owners;
    IndexInsert(index, owners, plot.id, plot.owner);
    assert OwnersOf(cache[plot.id := plot]) == owners[plot.id := plot.owner];
    assert all[..i + 1] == all[..i] + [plot];
  }

  /** `p` is visited before `q` when scanning a ring around `center`: by x offset, then by z offset. */
  predicate ScannedBefore(p: PlotId, q: PlotId, center: PlotId)
  {
    p.x - center.x < q.x - center.x || (p.x - center.x == q.x - center.x && p.z - center.z < q.z - center.z)
  }

  /** A subset is no larger than its superset. */
  lemma {:induction false} SubsetCardinality<T>(a: set<T>, b: set<T>)
    requires a <= b
    ensures |a| <= |b|
  {
    if a != {} {
      var x :| x in a;
      SubsetCardinality(a - {x}, b - {x});
    }
  }

  /** The record of a freshly claimed plot: no members, denials or merges, default settings, no alias. */
  function FreshRecord(id: PlotId, owner: Option<Uuid>, now: int): (r: PlotRecord)
  {
    PlotRecord(id, owner, [], {}, DEFAULT_SETTINGS, None, {}, now, now)
  }

  class PlotManager {
    const config: PlotConfig
    var plots: map<PlotId, Plot>
    var playerPlots: map<Uuid, set<PlotId>>
    var playerLastLocations: map<Uuid, PlayerLastLocation>
    /** Rows of the plot repository. */
    ghost var savedPlots: map<PlotId, PlotRecord>
    /** Rows of the last-location repository. */
    var storedLastLocations: map<Uuid, PlayerLastLocation>

    /**
     * Cached plots sit under their own id, and the owner index lists exactly
     * the cached plots each player owns.
     */
    ghost predicate IndexValid()
      reads this, plots.Values
    {
      && KeyedById(plots)
      && IndexOf(playerPlots, OwnersOf(plots))
    }

    /** Every cached last location is the stored one. */
    ghost predicate LocationsCoherent()
      reads this
    {
      forall u :: u in playerLastLocations ==>
        u in storedLastLocations && playerLastLocations[u] == storedLastLocations[u]
    }

    ghost predicate Valid()
      reads this, plots.Values
    {
      config.GridValid() && IndexValid() && LocationsCoherent()
    }

    /** The repository holds exactly the cached plots, each as it is now. */
    ghost predicate Persisted()
      reads this, plots.Values
    {
      Mirrors(plots, savedPlots)
    }

    /** Empty caches over the repositories' current contents. */
    constructor (config: PlotConfig, ghost savedPlots: map<PlotId, PlotRecord>,
                 storedLastLocations: map<Uuid, PlayerLastLocation>)
      requires config.GridValid()
      ensures Valid()
      ensures this.config == config && plots == map[] && playerPlots == map[] && playerLastLocations == map[]
      ensures this.savedPlots == savedPlots && this.storedLastLocations == storedLastLocations
    {
      this.config := config;
      plots := map[];
      playerPlots := map[];
      playerLastLocations := map[];
      this.savedPlots := savedPlots;
      this.storedLastLocations := storedLastLocations;
    }

    // -------------------------------------------------------------------
    // Queries
    // -------------------------------------------------------------------

    /** `getPlayerPlots`: the indexed ids, or none for a player never indexed. */
    function GetPlayerPlots(player: Uuid): set<PlotId>
      reads this
    {
      IndexedAt(playerPlots, player)
    }

    /** `getPlayerPlotCount`: the size of the player's indexed set. */
    function GetPlayerPlotCount(player: Uuid): (n: nat)
      reads this
      ensures n == |GetPlayerPlots(player)|
      ensures n == 0 <==> forall id :: id !in GetPlayerPlots(player)
    {
      if player in playerPlots then |playerPlots[player]| else 0
    }

    function GetPlot(id: PlotId): (r: Option<Plot>)
      reads this
      ensures r.Some? <==> id in plots
      ensures r.Some? ==> r.value == plots[id]
    {
      if id in plots then Some(plots[id]) else None
    }

    predicate IsPlotClaimed(id: PlotId)
      reads this
      ensures IsPlotClaimed(id) <==> GetPlot(id).Some?
    {
      id in plots
    }

    /** `getPlotAt`: the cached plot whose square holds the column, if claimed. */
    function GetPlotAt(worldX: int, worldZ: int): (r: Option<Plot>)
      requires config.GridValid()
      reads this
      ensures IsOnRoad(worldX, worldZ, config.plotSize, config.roadWidth) ==> r.None?
      ensures r.Some? ==> exists id ::
        id in plots && r.value == plots[id] && IsInPlot(worldX, worldZ, id, config.plotSize, config.roadWidth)
      ensures forall id :: id in plots && IsInPlot(worldX, worldZ, id, config.plotSize, config.roadWidth) ==>
        r == Some(plots[id])
    {
      var cell := FromWorldCoords(worldX, worldZ, config.plotSize, config.roadWidth);
      assert forall id :: IsInPlot(worldX, worldZ, id, config.plotSize, config.roadWidth) ==> cell == Some(id) by {
        forall id | IsInPlot(worldX, worldZ, id, config.plotSize, config.roadWidth) {
        }
      }
      if cell.Some? && cell.value in plots then
        Some(plots[cell.value])
      else
        None
    }

    /** `getAdminPlots`: the ids of cached plots without a player owner. */
    function GetAdminPlots(): (r: set<PlotId>)
      reads this, plots.Values
      ensures IndexValid() ==> forall id :: id in r <==> id in plots && plots[id].IsAdminPlot()
    {
      set p | p in plots.Values && p.IsAdminPlot() :: p.id
    }

    /** `getTotalPlotCount`. */
    function GetTotalPlotCount(): (n: nat)
      reads this
      ensures n == |plots.Keys|
      ensures n == 0 <==> plots == map[]
    {
      |plots|
    }

    /** Every plot a player is indexed under is cached, so no player's count exceeds the total. */
    lemma PlayerCountWithinTotal(player: Uuid)
      requires Valid()
      ensures GetPlayerPlots(player) <= plots.Keys
      ensures GetPlayerPlotCount(player) <= GetTotalPlotCount()
    {
      SubsetCardinality(GetPlayerPlots(player), plots.Keys);
    }

    // -------------------------------------------------------------------
    // Loading, claiming and releasing
    // -------------------------------------------------------------------

    /**
     * `loadAllPlots`: replaces the cache with `all`, the repository's rows,
     * and rebuilds the owner index. Plot ids are the repository's primary key.
     */
    method LoadAllPlots(all: seq<Plot>)
      requires config.GridValid() && LocationsCoherent()
      requires forall i, j :: 0 <= i < j < |all| ==> all[i].id != all[j].id
      requires savedPlots.Keys == IdsOf(all)
      requires forall i :: 0 <= i < |all| ==> savedPlots[all[i].id] == all[i].Snapshot()
      modifies this
      ensures Valid() && Persisted()
      ensures plots.Keys == IdsOf(all)
      ensures forall i :: 0 <= i < |all| ==> plots[all[i].id] == all[i]
      ensures savedPlots == old(savedPlots)
      ensures playerLastLocations == old(playerLastLocations) && storedLastLocations == old(storedLastLocations)
    {
      plots, playerPlots := BuildCache(all);
      RowsMatchCache(all, plots, savedPlots);
    }

    /** `getPlayerPlotLimit`: scans the tiers from the maximum down to 1. */
    method GetPlayerPlotLimit(player: Uuid, oracle: PermissionOracle) returns (limit: int)
      ensures limit == PlotLimit(config, oracle, player)
    {
      var prefix := config.plotLimitPermissionPrefix;
      var tier := config.maxPlotLimit;
      while tier >= 1
        invariant HighestGrantedTier(oracle, player, prefix, config.maxPlotLimit)
               == HighestGrantedTier(oracle, player, prefix, tier)
      {
        if HasPermission(oracle, player, TierPermission(prefix, tier)) {
          return tier;
        }
        tier := tier - 1;
      }
      return config.defaultPlotLimit;
    }

    /** `canPlayerClaim`: the player owns fewer plots than their limit. */
    method CanPlayerClaim(player: Uuid, oracle: PermissionOracle) returns (allowed: bool)
      ensures allowed <==> GetPlayerPlotCount(player) < PlotLimit(config, oracle, player)
    {
      var count := GetPlayerPlotCount(player);
      var limit := GetPlayerPlotLimit(player, oracle);
      allowed := count < limit;
    }

    /**
     * `claimPlot`: refuses a claimed id, then a player at their limit;
     * otherwise caches, indexes and stores a fresh plot owned by the player.
     */
    method ClaimPlot(id: PlotId, player: Uuid, oracle: PermissionOracle, now: int) returns (result: ClaimResult)
      requires Valid()
      modifies this
      ensures Valid() && (old(Persisted()) ==> Persisted())
      ensures result == Success || result == AlreadyClaimed || result == AtLimit
      ensures result == AlreadyClaimed <==> old(id in plots)
      ensures result == AtLimit <==>
        old(id !in plots) && old(GetPlayerPlotCount(player)) >= PlotLimit(config, oracle, player)
      ensures result != Success ==>
        plots == old(plots) && playerPlots == old(playerPlots) && savedPlots == old(savedPlots)
      ensures result == Success ==>
        && id in plots && fresh(plots[id])
        && plots == old(plots)[id := plots[id]]
        && plots[id].Snapshot() == FreshRecord(id, Some(player), now)
        && playerPlots == AddToIndex(old(playerPlots), player, id)
        && GetPlayerPlotCount(player) == old(GetPlayerPlotCount(player)) + 1
        && GetPlayerPlotCount(player) <= PlotLimit(config, oracle, player)
        && savedPlots == old(savedPlots)[id := plots[id].Snapshot()]
      ensures playerLastLocations == old(playerLastLocations) && storedLastLocations == old(storedLastLocations)
    {
      if IsPlotClaimed(id) {
        return AlreadyClaimed;
      }
      var allowed := CanPlayerClaim(player, oracle);
      if !allowed {
        return AtLimit;
      }
      assert id !in GetPlayerPlots(player);
      var plot := InsertFreshPlot(id, Some(player), now);
      result := Success;
    }

    /** `claimAdminPlot`: like a claim, with no owner, no index entry and no limit. */
    method ClaimAdminPlot(id: PlotId, now: int) returns (result: ClaimResult)
      requires Valid()
      modifies this
      ensures Valid() && (old(Persisted()) ==> Persisted())
      ensures result == (if old(id in plots) then AlreadyClaimed else Success)
      ensures result != Success ==> plots == old(plots) && savedPlots == old(savedPlots)
      ensures result == Success ==>
        && id in plots && fresh(plots[id])
        && plots == old(plots)[id := plots[id]]
        && plots[id].IsAdminPlot() && plots[id].Snapshot() == FreshRecord(id, None, now)
        && savedPlots == old(savedPlots)[id := plots[id].Snapshot()]
      ensures playerPlots == old(playerPlots)
      ensures playerLastLocations == old(playerLastLocations) && storedLastLocations == old(storedLastLocations)
    {
      if IsPlotClaimed(id) {
        return AlreadyClaimed;
      }
      var plot := InsertFreshPlot(id, None, now);
      result := Success;
    }

    /**
     * The common tail of both claims: caches a fresh plot under an unclaimed
     * id, indexes it under its owner, if any, and stores it.
     */
    method InsertFreshPlot(id: PlotId, owner: Option<Uuid>, now: int) returns (plot: Plot)
      requires Valid() && id !in plots
      modifies this
      ensures Valid() && (old(Persisted()) ==> Persisted())
      ensures fresh(plot) && plots == old(plots)[id := plot]
      ensures plot.id == id && plot.Snapshot() == FreshRecord(id, owner, now)
      ensures playerPlots == if owner.Some? then AddToIndex(old(playerPlots), owner.value, id) else old(playerPlots)
      ensures savedPlots == old(savedPlots)[id := plot.Snapshot()]
      ensures playerLastLocations == old(playerLastLocations) && storedLastLocations == old(storedLastLocations)
    {
      IndexInsert(playerPlots, OwnersOf(plots), id, owner);
      plot := new Plot(id, owner, now);
      plots := plots[id := plot];
      if owner.Some? {
        playerPlots := AddToIndex(playerPlots, owner.value, id);
      }
      savedPlots := savedPlots[id := plot.Snapshot()];
      StoredInPlace(id);
    }

    /** `unclaimPlot`: drops the plot from the cache, the owner's index and the repository. */
    method UnclaimPlot(id: PlotId) returns (removed: bool)
      requires Valid()
      modifies this
      ensures Valid() && (old(Persisted()) ==> Persisted())
      ensures removed <==> old(id in plots)
      ensures plots == old(plots) - {id}
      ensures savedPlots == if removed then old(savedPlots) - {id} else old(savedPlots)
      ensures old(id in plots && plots[id].owner.Some?) ==>
        playerPlots == RemoveFromIndex(old(playerPlots), old(plots[id].owner.value), id)
      ensures old(id !in plots || plots[id].owner.None?) ==> playerPlots == old(playerPlots)
      ensures forall o :: id !in GetPlayerPlots(o)
      ensures playerLastLocations == old(playerLastLocations) && storedLastLocations == old(storedLastLocations)
    {
      if id !in plots {
        NotIndexed(playerPlots, OwnersOf(plots), id);
        return false;
      }
      ghost var owners, rows, wasPersisted := OwnersOf(plots), savedPlots, Persisted();
      IndexDelete(playerPlots, owners, id);
      var plot := plots[id];
      plots := plots - {id};
      if plot.owner.Some? {
        playerPlots := RemoveFromIndex(playerPlots, plot.owner.value, id);
      }
      savedPlots := savedPlots - {id};
      OwnersAfterRemove(plots, owners, id);
      if wasPersisted {
        MirrorsAfterRemove(plots, rows, id);
      }
      NotIndexed(playerPlots, owners - {id}, id);
      removed := true;
    }

    /**
     * `transferOwnership`: moves a cached plot from its owner's index to the
     * new owner's, sets the owner, records activity and stores the plot.
     * Members and denials are kept as they are.
     */
    method TransferOwnership(id: PlotId, newOwner: Uuid, now: int) returns (ok: bool)
      requires Valid()
      modifies this, if id in plots then {plots[id]} else {}
      ensures Valid() && (old(Persisted()) ==> Persisted())
      ensures ok <==> old(id in plots)
      ensures plots == old(plots)
      ensures ok ==>
        && plots[id].IsOwner(newOwner)
        && plots[id].Snapshot() == old(plots[id].Snapshot()).(owner := Some(newOwner), lastActivity := now)
        && savedPlots == old(savedPlots)[id := plots[id].Snapshot()]
      ensures ok ==> forall o ::
        GetPlayerPlots(o) == (if o == newOwner then old(GetPlayerPlots(o)) + {id} else old(GetPlayerPlots(o)) - {id})
      ensures !ok ==> playerPlots == old(playerPlots) && savedPlots == old(savedPlots)
      ensures playerLastLocations == old(playerLastLocations) && storedLastLocations == old(storedLastLocations)
    {
      if id !in plots {
        return false;
      }
      IndexTransfer(playerPlots, OwnersOf(plots), id, newOwner);
      var plot := plots[id];
      var moved := AddToIndex(if plot.owner.Some? then RemoveFromIndex(playerPlots, plot.owner.value, id) else playerPlots, newOwner, id);
      assert forall other :: other in plots && other != id ==> plots[other] != plot;
      plot.owner, plot.lastActivity := Some(newOwner), now;
      playerPlots := moved;
      savedPlots := savedPlots[id := plot.Snapshot()];
      StoredInPlace(id);
      ok := true;
    }

    // -------------------------------------------------------------------
    // Searching for a free plot
    // -------------------------------------------------------------------

    /**
     * `findUnclaimedPlot`: the first unclaimed plot in spiral order within
     * `SEARCH_RADIUS` of the origin, or none when all of them are claimed.
     */
    method FindUnclaimedPlot() returns (r: Option<PlotId>)
      ensures r.Some? ==> r.value !in plots && DistanceFromOrigin(r.value) <= SEARCH_RADIUS
      ensures r.Some? ==> forall p :: SpiralIndex(p) < SpiralIndex(r.value) ==> p in plots
      ensures r.None? ==> forall p :: DistanceFromOrigin(p) <= SEARCH_RADIUS ==> p in plots
    {
      var order := SpiralFromOrigin(SEARCH_RADIUS);
      var i := 0;
      while i < |order|
        invariant 0 <= i <= |order|
        invariant forall j :: 0 <= j < i ==> order[j] in plots
      {
        if !IsPlotClaimed(order[i]) {
          forall p | SpiralIndex(p) < SpiralIndex(order[i])
            ensures p in plots
          {
            SpiralIndexInjective(p, order[SpiralIndex(p)]);
          }
          return Some(order[i]);
        }
        i := i + 1;
      }
      return None;
    }

    /**
     * `findUnclaimedPlotNear`: walks square rings of growing Chebyshev
     * distance around `center` up to `radius`; the first unclaimed plot
     * found is no farther from `center` than any other unclaimed plot.
     */
    method FindUnclaimedPlotNear(center: PlotId, radius: int) returns (r: Option<PlotId>)
      ensures r.Some? ==> r.value !in plots && Chebyshev(r.value, center) <= radius
      ensures r.Some? ==> forall p :: Chebyshev(p, center) < Chebyshev(r.value, center) ==> p in plots
      ensures r.Some? ==> forall p ::
        Chebyshev(p, center) == Chebyshev(r.value, center) && ScannedBefore(p, r.value, center) ==> p in plots
      ensures r.None? ==> forall p :: Chebyshev(p, center) <= radius ==> p in plots
    {
      var distance := 0;
      while distance <= radius
        invariant distance >= 0
        invariant forall p :: Chebyshev(p, center) < distance ==> p in plots
      {
        for dx := -distance to distance + 1
          invariant forall p :: Chebyshev(p, center) == distance && p.x - center.x < dx ==> p in plots
        {
          for dz := -distance to distance + 1
            invariant forall p ::
              (Chebyshev(p, center) == distance &&
               (p.x - center.x < dx || (p.x - center.x == dx && p.z - center.z < dz))) ==> p in plots
          {
            if Abs(dx) == distance || Abs(dz) == distance {
              var candidate := PlotId(center.x + dx, center.z + dz);
              if !IsPlotClaimed(candidate) {
                return Some(candidate);
              }
            }
          }
        }
        distance := distance + 1;
      }
      return None;
    }

    // -------------------------------------------------------------------
    // Member and deny delegation
    // -------------------------------------------------------------------

    /** `addMember`: delegates to the cached plot and stores it when it changed. */
    method AddMember(id: PlotId, member: Uuid, trustLevel: TrustLevel, now: int) returns (ok: bool)
      requires Valid()
      modifies this, if id in plots then {plots[id]} else {}
      ensures Valid() && (old(Persisted()) ==> Persisted())
      ensures plots == old(plots) && playerPlots == old(playerPlots)
      ensures ok <==> old(id in plots && !plots[id].IsMember(member) && !plots[id].IsOwner(member))
      ensures ok ==>
        plots[id].Snapshot() == old(plots[id].Snapshot()).(
          members := old(plots[id].members) + [PlotMember(member, trustLevel, now)], lastActivity := now)
      ensures !ok && old(id in plots) ==> plots[id].Snapshot() == old(plots[id].Snapshot())
      ensures savedPlots == if ok then old(savedPlots)[id := plots[id].Snapshot()] else old(savedPlots)
      ensures playerLastLocations == old(playerLastLocations) && storedLastLocations == old(storedLastLocations)
    {
      if id !in plots {
        return false;
      }
      var plot := plots[id];
      assert forall other :: other in plots && other != id ==> plots[other] != plot;
      ok := plot.AddMember(member, trustLevel, now);
      if ok {
        savedPlots := savedPlots[id := plot.Snapshot()];
      }
      EditedInPlace(id);
    }

    /** `removeMember`: delegates to the cached plot and stores it when it changed. */
    method RemoveMember(id: PlotId, member: Uuid, now: int) returns (ok: bool)
      requires Valid()
      modifies this, if id in plots then {plots[id]} else {}
      ensures Valid() && (old(Persisted()) ==> Persisted())
      ensures plots == old(plots) && playerPlots == old(playerPlots)
      ensures ok <==> old(id in plots && plots[id].IsMember(member))
      ensures old(id in plots) ==> plots[id].members == WithoutUuid(old(plots[id].members), member) && !plots[id].IsMember(member)
      ensures ok ==>
        plots[id].Snapshot() == old(plots[id].Snapshot()).(
          members := WithoutUuid(old(plots[id].members), member), lastActivity := now)
      ensures !ok && old(id in plots) ==> plots[id].Snapshot() == old(plots[id].Snapshot())
      ensures savedPlots == if ok then old(savedPlots)[id := plots[id].Snapshot()] else old(savedPlots)
      ensures playerLastLocations == old(playerLastLocations) && storedLastLocations == old(storedLastLocations)
    {
      if id !in plots {
        return false;
      }
      var plot := plots[id];
      assert forall other :: other in plots && other != id ==> plots[other] != plot;
      ok := plot.RemoveMember(member, now);
      if ok {
        savedPlots := savedPlots[id := plot.Snapshot()];
      }
      EditedInPlace(id);
    }

    /** `denyPlayer`: delegates to the cached plot and stores it when it changed. */
    method DenyPlayer(id: PlotId, player: Uuid, now: int) returns (ok: bool)
      requires Valid()
      modifies this, if id in plots then {plots[id]} else {}
      ensures Valid() && (old(Persisted()) ==> Persisted())
      ensures plots == old(plots) && playerPlots == old(playerPlots)
      ensures ok <==> old(id in plots && !plots[id].IsDenied(player))
      ensures ok ==> plots[id].IsDenied(player) && !plots[id].IsMember(player)
      ensures ok ==>
        plots[id].Snapshot() == old(plots[id].Snapshot()).(
          members := WithoutUuid(old(plots[id].members), player), denied := old(plots[id].denied) + {player},
          lastActivity := now)
      ensures !ok && old(id in plots) ==> plots[id].Snapshot() == old(plots[id].Snapshot())
      ensures savedPlots == if ok then old(savedPlots)[id := plots[id].Snapshot()] else old(savedPlots)
      ensures playerLastLocations == old(playerLastLocations) && storedLastLocations == old(storedLastLocations)
    {
      if id !in plots {
        return false;
      }
      var plot := plots[id];
      assert forall other :: other in plots && other != id ==> plots[other] != plot;
      ok := plot.DenyPlayer(player, now);
      if ok {
        savedPlots := savedPlots[id := plot.Snapshot()];
      }
      EditedInPlace(id);
    }

    /** `undenyPlayer`: delegates to the cached plot and stores it when it changed. */
    method UndenyPlayer(id: PlotId, player: Uuid, now: int) returns (ok: bool)
      requires Valid()
      modifies this, if id in plots then {plots[id]} else {}
      ensures Valid() && (old(Persisted()) ==> Persisted())
      ensures plots == old(plots) && playerPlots == old(playerPlots)
      ensures ok <==> old(id in plots && plots[id].IsDenied(player))
      ensures old(id in plots) ==> !plots[id].IsDenied(player) && plots[id].members == old(plots[id].members)
      ensures ok ==> plots[id].Snapshot() == old(plots[id].Snapshot()).(denied := old(plots[id].denied) - {player}, lastActivity := now)
      ensures !ok && old(id in plots) ==> plots[id].Snapshot() == old(plots[id].Snapshot())
      ensures savedPlots == if ok then old(savedPlots)[id := plots[id].Snapshot()] else old(savedPlots)
      ensures playerLastLocations == old(playerLastLocations) && storedLastLocations == old(storedLastLocations)
    {
      if id !in plots {
        return false;
      }
      var plot := plots[id];
      assert forall other :: other in plots && other != id ==> plots[other] != plot;
      ok := plot.UndenyPlayer(player, now);
      if ok {
        savedPlots := savedPlots[id := plot.Snapshot()];
      }
      EditedInPlace(id);
    }

    /**
     * The plot cached under `id` was written (changed in place, replaced or
     * newly cached) and no other cached plot changed; the owner index
     * followed the plot's owner, and the plot was stored if it changed.
     * Then the cache is still valid and, if the repository mirrored it
     * before, it still does.
     */
    twostate lemma StoredInPlace(id: PlotId)
      requires old(Valid()) && id in plots && plots == old(plots)[id := plots[id]] && plots[id].id == id
      requires playerLastLocations == old(playerLastLocations) && storedLastLocations == old(storedLastLocations)
      requires forall other :: other in plots && other != id ==> unchanged(plots[other])
      requires || (playerPlots == old(playerPlots) && OwnerKept(id))
               || IndexOf(playerPlots, old(OwnersOf(plots))[id := plots[id].owner])
      requires || savedPlots == old(savedPlots)[id := plots[id].Snapshot()]
               || (savedPlots == old(savedPlots) && id in old(plots) && plots[id].Snapshot() == old(plots[id].Snapshot()))
      ensures Valid() && (old(Persisted()) ==> Persisted())
    {
      IndexedInPlace(id);
      if old(Persisted()) {
        MirroredInPlace(id);
      }
    }

    /**
     * `StoredInPlace` for an edit of one cached plot's members or denials:
     * the maps and the owner stay, and the plot is stored exactly when the
     * edit changed it.
     */
    twostate lemma EditedInPlace(id: PlotId)
      requires old(Valid()) && id in old(plots) && plots == old(plots) && playerPlots == old(playerPlots)
      requires playerLastLocations == old(playerLastLocations) && storedLastLocations == old(storedLastLocations)
      requires forall other :: other in plots && other != id ==> unchanged(plots[other])
      requires plots[id].owner == old(plots[id].owner)
      requires || savedPlots == old(savedPlots)[id := plots[id].Snapshot()]
               || (savedPlots == old(savedPlots) && plots[id].Snapshot() == old(plots[id].Snapshot()))
      ensures Valid() && (old(Persisted()) ==> Persisted())
    {
      StoredInPlace(id);
    }

    /** The index half of `StoredInPlace`. */
    twostate lemma IndexedInPlace(id: PlotId)
      requires old(Valid()) && id in plots && plots == old(plots)[id := plots[id]] && plots[id].id == id
      requires playerLastLocations == old(playerLastLocations) && storedLastLocations == old(storedLastLocations)
      requires forall other :: other in plots && other != id ==> unchanged(plots[other])
      requires || (playerPlots == old(playerPlots) && OwnerKept(id))
               || IndexOf(playerPlots, old(OwnersOf(plots))[id := plots[id].owner])
      ensures Valid()
    {
      ghost var owners := old(OwnersOf(plots));
      OwnersAfterWrite(plots, owners, id);
      if playerPlots == old(playerPlots) && OwnerKept(id) {
        if id in owners {
          assert owners[id := plots[id].owner] == owners;
        } else {
          IndexInsert(playerPlots, owners, id, None);
        }
      }
    }

    /** The repository half of `StoredInPlace`. */
    twostate lemma MirroredInPlace(id: PlotId)
      requires old(Persisted()) && id in plots && plots == old(plots)[id := plots[id]]
      requires forall other :: other in plots && other != id ==> unchanged(plots[other])
      requires || savedPlots == old(savedPlots)[id := plots[id].Snapshot()]
               || (savedPlots == old(savedPlots) && id in old(plots) && plots[id].Snapshot() == old(plots[id].Snapshot()))
      ensures Persisted()
    {
      ghost var rows := old(savedPlots);
      MirrorsAfterWrite(plots, rows, id);
      if savedPlots == rows {
        assert rows[id := plots[id].Snapshot()] == rows;
      }
    }

    /**
     * The plot now cached under `id` has the owner of the plot cached there
     * before, or, if there was none, no owner.
     */
    twostate predicate OwnerKept(id: PlotId)
      requires id in plots
      reads this, plots[id]
    {
      if id in old(plots) then plots[id].owner == old(plots[id].owner) else plots[id].owner.None?
    }

    /**
     * `updatePlot`: records activity on `plot`, caches it under its id and
     * stores it. The owner index is not touched, so it stays valid when the
     * plot keeps the owner of the plot it replaces (or is a new unowned plot).
     */
    method UpdatePlot(plot: Plot, now: int)
      requires Valid()
      modifies this, plot
      ensures plot.lastActivity == now
      ensures plot.owner == old(plot.owner) && plot.members == old(plot.members) && plot.denied == old(plot.denied)
      ensures plot.settings == old(plot.settings) && plot.mergedWith == old(plot.mergedWith) && plot.alias == old(plot.alias)
      ensures plots == old(plots)[plot.id := plot]
      ensures savedPlots == old(savedPlots)[plot.id := plot.Snapshot()]
      ensures old(Persisted()) ==> Persisted()
      ensures old(if plot.id in plots then plots[plot.id].owner == plot.owner else plot.owner.None?) ==> Valid()
      ensures playerPlots == old(playerPlots)
      ensures playerLastLocations == old(playerLastLocations) && storedLastLocations == old(storedLastLocations)
    {
      assert forall other :: other in plots && other != plot.id ==> plots[other] != plot;
      plot.Touch(now);
      plots := plots[plot.id := plot];
      savedPlots := savedPlots[plot.id := plot.Snapshot()];
      if OwnerKept(plot.id) {
        StoredInPlace(plot.id);
      }
    }

    // -------------------------------------------------------------------
    // Last-location cache
    // -------------------------------------------------------------------

    /** `savePlayerLastLocation`: writes the cache and the repository. */
    method SavePlayerLastLocation(location: PlayerLastLocation)
      requires Valid()
      modifies this
      ensures Valid() && (old(Persisted()) ==> Persisted())
      ensures playerLastLocations == old(playerLastLocations)[location.playerUuid := location]
      ensures storedLastLocations == old(storedLastLocations)[location.playerUuid := location]
      ensures plots == old(plots) && playerPlots == old(playerPlots) && savedPlots == old(savedPlots)
    {
      playerLastLocations := playerLastLocations[location.playerUuid := location];
      storedLastLocations := storedLastLocations[location.playerUuid := location];
    }

    /**
     * `getPlayerLastLocation`: the cached location, else the stored one,
     * which is then cached. Either way it is the stored location.
     */
    method GetPlayerLastLocation(player: Uuid) returns (r: Option<PlayerLastLocation>)
      requires Valid()
      modifies this
      ensures Valid() && (old(Persisted()) ==> Persisted())
      ensures r == if player in storedLastLocations then Some(storedLastLocations[player]) else None
      ensures playerLastLocations == if r.Some? then old(playerLastLocations)[player := r.value] else old(playerLastLocations)
      ensures storedLastLocations == old(storedLastLocations)
      ensures plots == old(plots) && playerPlots == old(playerPlots) && savedPlots == old(savedPlots)
    {
      if player in playerLastLocations {
        r := Some(playerLastLocations[player]);
        assert playerLastLocations == playerLastLocations[player := r.value];
        return;
      }
      if player in storedLastLocations {
        r := Some(storedLastLocations[player]);
        playerLastLocations := playerLastLocations[player := r.value];
      } else {
        r := None;
      }
    }

    /** `hasPlayerLastLocation`: cached or stored; with a coherent cache, exactly when stored. */
    predicate HasPlayerLastLocation(player: Uuid)
      reads this
      ensures LocationsCoherent() ==> (HasPlayerLastLocation(player) <==> player in storedLastLocations)
    {
      player in playerLastLocations || player in storedLastLocations
    }

    /** `clearPlayerLastLocation`: removes the entry from the cache and the repository. */
    method ClearPlayerLastLocation(player: Uuid)
      requires Valid()
      modifies this
      ensures Valid() && (old(Persisted()) ==> Persisted())
      ensures playerLastLocations == old(playerLastLocations) - {player}
      ensures storedLastLocations == old(storedLastLocations) - {player}
      ensures !HasPlayerLastLocation(player)
      ensures plots == old(plots) && playerPlots == old(playerPlots) && savedPlots == old(savedPlots)
    {
      playerLastLocations := playerLastLocations - {player};
      storedLastLocations := storedLastLocations - {player};
    }
  }

  // ---------------------------------------------------------------------
  // Properties of the owner index
  // ---------------------------------------------------------------------

  /** The owner index agrees with a scan of the cache for owned plots. */
  lemma PlayerIndexMatchesScan(m: PlotManager, player: Uuid)
    requires m.Valid()
    ensures m.GetPlayerPlots(player) == set id | id in m.plots && m.plots[id].owner == Some(player)
  {
  }

  /** No server plot appears in any player's index. */
  lemma AdminPlotsNotIndexed(m: PlotManager, player: Uuid)
    requires m.Valid()
    ensures m.GetAdminPlots() !! m.GetPlayerPlots(player)
  {
  }

  /** The sets of plots indexed for two different players are disjoint. */
  lemma PlayerIndexesDisjoint(m: PlotManager, a: Uuid, b: Uuid)
    requires m.Valid() && a != b
    ensures m.GetPlayerPlots(a) !! m.GetPlayerPlots(b)
  {
    var owners := OwnersOf(m.plots);
    forall id | id in m.GetPlayerPlots(a)
      ensures id !in m.GetPlayerPlots(b)
    {
      assert owners[id] == Some(a);
    }
  }
}
