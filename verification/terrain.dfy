/**
 * The generator and the protection engine share one grid: when they are
 * configured with the same plot size, road width and border switch, the
 * columns the generator paves as road are the columns the engine treats
 * as road, and the walls it raises stand exactly on the borders the engine
 * guards.
 */
module Terrain {
  import opened PlotIds
  import opened Members
  import opened Config
  import opened Permissions
  import opened Manager
  import opened Protection
  import opened WorldGen

  /** The generator's grid settings are the plugin configuration's. */
  predicate SameGrid(g: PlotWorldGen, config: PlotConfig)
  {
    && g.plotSize == config.plotSize
    && g.roadWidth == config.roadWidth
    && g.borderEnabled == config.borderEnabled
  }

  /** A generated road column is a road to the protection engine, and conversely. */
  lemma GeneratedRoadsAreRoads(g: PlotWorldGen, config: PlotConfig, worldX: int, worldZ: int)
    requires config.GridValid() && SameGrid(g, config)
    ensures g.IsRoad(worldX, worldZ) <==> Protection.IsRoad(config, worldX, worldZ)
  {
    PositionTypeAgrees(g, worldX, worldZ);
  }

  /** The generator raises a wall on a column exactly when the engine guards it as a border. */
  lemma WallsStandOnGuardedBorders(g: PlotWorldGen, config: PlotConfig, worldX: int, worldZ: int)
    requires config.GridValid() && SameGrid(g, config)
    ensures g.HasWall(g.GetPositionType(worldX, worldZ)) <==> IsGuardedBorder(config, worldX, worldZ)
  {
    PositionTypeAgrees(g, worldX, worldZ);
  }

  /**
   * A generated wall can be broken, at any height, only with the admin
   * bypass or, above the protected layers, with the road-build permission;
   * the owner of the plot gets no say.
   */
  lemma WallsNeedRoadPermission(mgr: PlotManager, oracle: PermissionOracle, player: Uuid, g: PlotWorldGen,
                                worldX: int, worldY: int, worldZ: int)
    requires mgr.config.GridValid() && SameGrid(g, mgr.config)
    requires g.HasWall(g.GetPositionType(worldX, worldZ))
    ensures CanModify(mgr, oracle, player, worldX, worldY, worldZ) <==>
      || HasAdminBypass(oracle, player)
      || (!IsProtectedBottomLayer(mgr.config, worldY) && HasPermission(oracle, player, PERMISSION_BUILD_ROADS))
  {
    WallsStandOnGuardedBorders(g, mgr.config, worldX, worldZ);
  }

  /** On a generated road column every player may interact, and modifying follows the road rule. */
  lemma GeneratedRoadsFollowRoadRules(mgr: PlotManager, oracle: PermissionOracle, player: Uuid, g: PlotWorldGen,
                                      worldX: int, worldY: int, worldZ: int)
    requires mgr.config.GridValid() && SameGrid(g, mgr.config) && g.IsRoad(worldX, worldZ)
    ensures CanInteract(mgr, oracle, player, worldX, worldY, worldZ)
    ensures CanModify(mgr, oracle, player, worldX, worldY, worldZ) <==>
      || HasAdminBypass(oracle, player)
      || (!IsProtectedBottomLayer(mgr.config, worldY) && HasPermission(oracle, player, PERMISSION_BUILD_ROADS))
  {
    GeneratedRoadsAreRoads(g, mgr.config, worldX, worldZ);
    RoadRules(mgr, oracle, player, worldX, worldY, worldZ);
  }
}
