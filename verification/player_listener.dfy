/**
 * The current-plot tracker of the player listener: for each player, the
 * plot they were last seen standing on. A move onto a plot records it, a
 * move onto a road forgets it, and a disconnect forgets it.
 */
module Listener {
  import opened Wrappers
  import opened PlotIds
  import opened Members
  import opened Config

  /** The tracked plot of player `u`, if any. */
  function Lookup(tracked: map<Uuid, PlotId>, u: Uuid): (r: Option<PlotId>)
  {
    if u in tracked then Some(tracked[u]) else None
  }

  /**
   * The tracker after player `u` is seen where `fromWorldCoords` gives
   * `newPlot`: the entry is written when the plot differs from the tracked
   * one, removed when the player is on a road and had an entry, and left
   * alone otherwise.
   */
  function Track(tracked: map<Uuid, PlotId>, u: Uuid, newPlot: Option<PlotId>): (r: map<Uuid, PlotId>)
    ensures Lookup(r, u) == newPlot
    ensures forall v :: v != u ==> Lookup(r, v) == Lookup(tracked, v)
    ensures Lookup(tracked, u) == newPlot ==> r == tracked
  {
    var oldPlot := Lookup(tracked, u);
    if newPlot.Some? && newPlot != oldPlot then tracked[u := newPlot.value]
    else if newPlot.None? && oldPlot.Some? then tracked - {u}
    else tracked
  }

  /** Seeing a player twice at the same place changes nothing the second time. */
  lemma TrackIdempotent(tracked: map<Uuid, PlotId>, u: Uuid, newPlot: Option<PlotId>)
    ensures Track(Track(tracked, u, newPlot), u, newPlot) == Track(tracked, u, newPlot)
  {
  }

  /** Two players' updates do not interfere: they commute. */
  lemma TrackCommutes(tracked: map<Uuid, PlotId>, u: Uuid, p: Option<PlotId>, v: Uuid, q: Option<PlotId>)
    requires u != v
    ensures Track(Track(tracked, u, p), v, q) == Track(Track(tracked, v, q), u, p)
  {
  }

  class PlayerListener {
    const config: PlotConfig
    var playerCurrentPlot: map<Uuid, PlotId>

    constructor (config: PlotConfig)
      ensures this.config == config && playerCurrentPlot == map[]
    {
      this.config := config;
      playerCurrentPlot := map[];
    }

    /** `getCurrentPlot`. */
    function GetCurrentPlot(u: Uuid): (r: Option<PlotId>)
      reads this
      ensures r.Some? <==> u in playerCurrentPlot
    {
      Lookup(playerCurrentPlot, u)
    }

    /**
     * `updatePlayerPlot`: afterwards the player's current plot is the plot
     * at the coordinates (none on a road), and every other player's entry
     * is as before; a move within the tracked plot changes nothing.
     */
    method UpdatePlayerPlot(playerUuid: Uuid, worldX: int, worldZ: int)
      requires config.GridValid()
      modifies this
      ensures playerCurrentPlot ==
        Track(old(playerCurrentPlot), playerUuid, FromWorldCoords(worldX, worldZ, config.plotSize, config.roadWidth))
      ensures GetCurrentPlot(playerUuid) == FromWorldCoords(worldX, worldZ, config.plotSize, config.roadWidth)
      ensures forall v :: v != playerUuid ==> GetCurrentPlot(v) == old(GetCurrentPlot(v))
      ensures old(GetCurrentPlot(playerUuid)) == GetCurrentPlot(playerUuid) ==> playerCurrentPlot == old(playerCurrentPlot)
    {
      var newPlotId := FromWorldCoords(worldX, worldZ, config.plotSize, config.roadWidth);
      var oldPlotId := if playerUuid in playerCurrentPlot then Some(playerCurrentPlot[playerUuid]) else None;
      if newPlotId.Some? && newPlotId != oldPlotId {
        playerCurrentPlot := playerCurrentPlot[playerUuid := newPlotId.value];
      } else if newPlotId.None? && oldPlotId.Some? {
        playerCurrentPlot := playerCurrentPlot - {playerUuid};
      }
    }

    /** The tracking clean-up of `handlePlayerDisconnect`: the player's entry goes, the others stay. */
    method HandlePlayerDisconnect(playerUuid: Uuid)
      modifies this
      ensures playerCurrentPlot == old(playerCurrentPlot) - {playerUuid}
      ensures GetCurrentPlot(playerUuid).None?
    {
      playerCurrentPlot := playerCurrentPlot - {playerUuid};
    }
  }
}
