/**
 * The protection engine: decides whether a player may modify blocks at a
 * position, interact with blocks at a position, or enter a plot. Each
 * decision is a chain of early returns over the admin bypass, the grid
 * geometry, the cached plot and the permission oracle.
 */
module Protection {
  import opened Wrappers
  import opened PlotIds
  import opened CoordUtil
  import opened Members
  import opened Plots
  import opened Config
  import opened Permissions
  import opened Manager

  const PERMISSION_ADMIN_BYPASS: string := "souza.plot.admin.bypass"
  const PERMISSION_BUILD_ROADS: string := "souza.plot.admin.roads"

  /** `hasAdminBypass`: only a granted lookup of the bypass permission counts. */
  predicate HasAdminBypass(oracle: PermissionOracle, player: Uuid)
    ensures HasAdminBypass(oracle, player) ==> oracle(player, PERMISSION_ADMIN_BYPASS) == Granted
  {
    HasPermission(oracle, player, PERMISSION_ADMIN_BYPASS)
  }

  /** `isProtectedBottomLayer`: the lowest layers are protected when the setting is on. */
  predicate IsProtectedBottomLayer(config: PlotConfig, worldY: int)
    ensures !config.protectBottomLayer ==> !IsProtectedBottomLayer(config, worldY)
  {
    config.protectBottomLayer && worldY <= config.protectedLayerHeight
  }

  /** `isRoad`: the column lies on a road, which is where no plot id exists. */
  predicate IsRoad(config: PlotConfig, worldX: int, worldZ: int)
    requires config.GridValid()
    ensures IsRoad(config, worldX, worldZ) <==> FromWorldCoords(worldX, worldZ, config.plotSize, config.roadWidth).None?
  {
    IsOnRoad(worldX, worldZ, config.plotSize, config.roadWidth)
  }

  /** A border column counts only when borders are enabled. */
  predicate IsGuardedBorder(config: PlotConfig, worldX: int, worldZ: int)
    requires config.GridValid()
  {
    config.borderEnabled && IsOnBorder(worldX, worldZ, config.plotSize, config.roadWidth)
  }

  /**
   * `canModify`: bypass first; then the protected bottom layer; roads and
   * (enabled) borders need the road-build permission; otherwise the plot
   * must be claimed and the player must be able to build on it.
   */
  predicate CanModify(mgr: PlotManager, oracle: PermissionOracle, player: Uuid, worldX: int, worldY: int, worldZ: int)
    requires mgr.config.GridValid()
    reads mgr, mgr.plots.Values
    ensures CanModify(mgr, oracle, player, worldX, worldY, worldZ) ==>
      || HasAdminBypass(oracle, player)
      || HasPermission(oracle, player, PERMISSION_BUILD_ROADS)
      || exists id :: && id in mgr.plots
                      && IsInPlot(worldX, worldZ, id, mgr.config.plotSize, mgr.config.roadWidth)
                      && mgr.plots[id].CanBuild(player)
    ensures !HasAdminBypass(oracle, player) && IsProtectedBottomLayer(mgr.config, worldY) ==>
      !CanModify(mgr, oracle, player, worldX, worldY, worldZ)
  {
    var config := mgr.config;
    if HasAdminBypass(oracle, player) then true
    else if IsProtectedBottomLayer(config, worldY) then false
    else if IsOnRoad(worldX, worldZ, config.plotSize, config.roadWidth) then
      HasPermission(oracle, player, PERMISSION_BUILD_ROADS)
    else if config.borderEnabled && IsOnBorder(worldX, worldZ, config.plotSize, config.roadWidth) then
      HasPermission(oracle, player, PERMISSION_BUILD_ROADS)
    else
      match FromWorldCoords(worldX, worldZ, config.plotSize, config.roadWidth)
      case None => false
      case Some(id) =>
        match mgr.GetPlot(id)
        case None => false
        case Some(plot) =>
          plot.CanBuild(player)
  }

  /**
   * `canInteract`: bypass first; roads, unclaimed plots and positions
   * without a plot allow interaction; on a claimed plot the player must be
   * able to use containers. Height plays no part.
   */
  predicate CanInteract(mgr: PlotManager, oracle: PermissionOracle, player: Uuid, worldX: int, worldY: int, worldZ: int)
    requires mgr.config.GridValid()
    reads mgr, mgr.plots.Values
    ensures !CanInteract(mgr, oracle, player, worldX, worldY, worldZ) ==>
      && !HasAdminBypass(oracle, player)
      && exists id :: && id in mgr.plots
                      && IsInPlot(worldX, worldZ, id, mgr.config.plotSize, mgr.config.roadWidth)
                      && !mgr.plots[id].CanUseContainers(player)
  {
    var config := mgr.config;
    if HasAdminBypass(oracle, player) then true
    else if IsOnRoad(worldX, worldZ, config.plotSize, config.roadWidth) then true
    else
      match FromWorldCoords(worldX, worldZ, config.plotSize, config.roadWidth)
      case None => true
      case Some(id) =>
        match mgr.GetPlot(id)
        case None => true
        case Some(plot) =>
          plot.CanUseContainers(player)
  }

  /** `canEnter`: bypass first; a plot that is not cached can be entered; otherwise the player must not be denied. */
  predicate CanEnter(mgr: PlotManager, oracle: PermissionOracle, player: Uuid, id: PlotId)
    reads mgr, mgr.plots.Values
    ensures !CanEnter(mgr, oracle, player, id) ==>
      !HasAdminBypass(oracle, player) && id in mgr.plots && player in mgr.plots[id].denied
  {
    if HasAdminBypass(oracle, player) then true
    else
      match mgr.GetPlot(id)
      case None => true
      case Some(plot) => !plot.IsDenied(player)
  }

  // ---------------------------------------------------------------------
  // The rules, one lemma each
  // ---------------------------------------------------------------------

  /** The admin bypass is checked before every other rule and allows everything. */
  lemma BypassAllowsEverything(mgr: PlotManager, oracle: PermissionOracle, player: Uuid,
                               worldX: int, worldY: int, worldZ: int, id: PlotId)
    requires mgr.config.GridValid() && HasAdminBypass(oracle, player)
    ensures CanModify(mgr, oracle, player, worldX, worldY, worldZ)
    ensures CanInteract(mgr, oracle, player, worldX, worldY, worldZ)
    ensures CanEnter(mgr, oracle, player, id)
  {
  }

  /**
   * The owner's case of the bottom-layer rule (which `CanModify` states for
   * every player): inside their own plot, off a guarded border and without
   * the bypass, the owner may modify exactly above the protected layers.
   */
  lemma BottomLayerProtectsFromOwner(mgr: PlotManager, oracle: PermissionOracle, owner: Uuid,
                                     worldX: int, worldY: int, worldZ: int, id: PlotId)
    requires mgr.config.GridValid() && id in mgr.plots && mgr.plots[id].IsOwner(owner)
    requires IsInPlot(worldX, worldZ, id, mgr.config.plotSize, mgr.config.roadWidth)
    requires !IsGuardedBorder(mgr.config, worldX, worldZ)
    requires !HasAdminBypass(oracle, owner)
    ensures IsProtectedBottomLayer(mgr.config, worldY) <==> !CanModify(mgr, oracle, owner, worldX, worldY, worldZ)
  {
  }

  /** On a road, modifying needs the road-build permission (above the bottom layer), and interacting is always allowed. */
  lemma RoadRules(mgr: PlotManager, oracle: PermissionOracle, player: Uuid, worldX: int, worldY: int, worldZ: int)
    requires mgr.config.GridValid() && IsRoad(mgr.config, worldX, worldZ)
    ensures !HasAdminBypass(oracle, player) && !IsProtectedBottomLayer(mgr.config, worldY) ==>
      (CanModify(mgr, oracle, player, worldX, worldY, worldZ) <==> HasPermission(oracle, player, PERMISSION_BUILD_ROADS))
    ensures CanInteract(mgr, oracle, player, worldX, worldY, worldZ)
  {
  }

  /**
   * With borders enabled, a border column needs the road-build permission
   * whoever owns the plot: the owner without it is refused.
   */
  lemma BorderRule(mgr: PlotManager, oracle: PermissionOracle, player: Uuid, worldX: int, worldY: int, worldZ: int)
    requires mgr.config.GridValid() && IsGuardedBorder(mgr.config, worldX, worldZ)
    requires !HasAdminBypass(oracle, player) && !IsProtectedBottomLayer(mgr.config, worldY)
    ensures CanModify(mgr, oracle, player, worldX, worldY, worldZ) <==> HasPermission(oracle, player, PERMISSION_BUILD_ROADS)
  {
  }

  /** Inside an unclaimed plot nobody without the bypass modifies, and everybody interacts. */
  lemma UnclaimedPlotRules(mgr: PlotManager, oracle: PermissionOracle, player: Uuid,
                           worldX: int, worldY: int, worldZ: int, id: PlotId)
    requires mgr.config.GridValid() && id !in mgr.plots
    requires IsInPlot(worldX, worldZ, id, mgr.config.plotSize, mgr.config.roadWidth)
    requires !HasAdminBypass(oracle, player) && !IsGuardedBorder(mgr.config, worldX, worldZ)
    ensures !CanModify(mgr, oracle, player, worldX, worldY, worldZ)
    ensures CanInteract(mgr, oracle, player, worldX, worldY, worldZ)
  {
  }

  /**
   * Inside a claimed plot, away from enabled borders and above the bottom
   * layer, modifying is the plot's build right and interacting its
   * container right.
   */
  lemma ClaimedPlotRules(mgr: PlotManager, oracle: PermissionOracle, player: Uuid,
                         worldX: int, worldY: int, worldZ: int, id: PlotId)
    requires mgr.config.GridValid() && id in mgr.plots
    requires IsInPlot(worldX, worldZ, id, mgr.config.plotSize, mgr.config.roadWidth)
    requires !HasAdminBypass(oracle, player) && !IsGuardedBorder(mgr.config, worldX, worldZ)
    ensures !IsProtectedBottomLayer(mgr.config, worldY) ==>
      (CanModify(mgr, oracle, player, worldX, worldY, worldZ) <==> mgr.plots[id].CanBuild(player))
    ensures CanInteract(mgr, oracle, player, worldX, worldY, worldZ) <==> mgr.plots[id].CanUseContainers(player)
  {
  }

  /** A plot that is not cached can be entered; a cached one by exactly the players it does not deny (or bypass holders). */
  lemma EnterRules(mgr: PlotManager, oracle: PermissionOracle, player: Uuid, id: PlotId)
    ensures id !in mgr.plots ==> CanEnter(mgr, oracle, player, id)
    ensures id in mgr.plots ==>
      (CanEnter(mgr, oracle, player, id) <==> HasAdminBypass(oracle, player) || !mgr.plots[id].IsDenied(player))
  {
  }

  /** The oracle with every failed lookup answered "not granted". */
  function FailuresAsDenials(oracle: PermissionOracle): (o: PermissionOracle)
    ensures forall p, s :: o(p, s) != LookupFailed
    ensures forall p, s :: oracle(p, s) != LookupFailed ==> o(p, s) == oracle(p, s)
  {
    (p: Uuid, s: string) => if oracle(p, s) == LookupFailed then NotGranted else oracle(p, s)
  }

  /** A failed permission lookup decides exactly as a refused one: it never grants. */
  lemma FailedLookupIsRefusal(mgr: PlotManager, oracle: PermissionOracle, player: Uuid,
                              worldX: int, worldY: int, worldZ: int, id: PlotId)
    requires mgr.config.GridValid()
    ensures CanModify(mgr, oracle, player, worldX, worldY, worldZ)
        == CanModify(mgr, FailuresAsDenials(oracle), player, worldX, worldY, worldZ)
    ensures CanInteract(mgr, oracle, player, worldX, worldY, worldZ)
        == CanInteract(mgr, FailuresAsDenials(oracle), player, worldX, worldY, worldZ)
    ensures CanEnter(mgr, oracle, player, id) == CanEnter(mgr, FailuresAsDenials(oracle), player, id)
  {
  }
}
