/** The plugin settings the core reads. */
module Config {

  datatype PlotConfig = PlotConfig(
    plotSize: int,
    roadWidth: int,
    groundHeight: int,
    defaultPlotLimit: int,
    maxPlotLimit: int,
    dirtDepth: int,
    bedrockDepth: int,
    borderEnabled: bool,
    plotLimitPermissionPrefix: string,
    protectBottomLayer: bool,
    protectedLayerHeight: int)
  {
    /** The grid arithmetic needs a positive plot size and a non-negative road width. */
    predicate GridValid()
    {
      plotSize >= 1 && roadWidth >= 0
    }
  }

  /** The shipped defaults. */
  const DEFAULT_CONFIG: PlotConfig := PlotConfig(
    32, 5, 64, 1, 10, 4, 3, true, "souza.plot.limit.", true, 1)
}
