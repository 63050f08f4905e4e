/**
 * The flat plot-world generator: classifies every world column as road,
 * plot border or plot interior, and writes each column's layer stack
 * (bedrock, fill, subsurface, surface and, on borders, a wall block) into
 * a 32 x 32 chunk buffer.
 */
module WorldGen {
  import opened Wrappers
  import opened PlotIds
  import opened CoordUtil

  datatype PositionType = Plot | PlotBorder | Road

  /** A generator's settings; block, environment and tint ids are opaque numbers. */
  datatype PlotWorldGen = PlotWorldGen(
    plotSize: int,
    roadWidth: int,
    groundHeight: int,
    plotBlockId: int,
    roadBlockId: int,
    bedrockBlockId: int,
    borderBlockId: int,
    fillBlockId: int,
    dirtBlockId: int,
    bedrockDepth: int,
    dirtDepth: int,
    borderEnabled: bool,
    environmentId: int,
    tintId: int)
  {
    predicate GridValid()
    {
      plotSize >= 1 && roadWidth >= 0
    }

    /**
     * `getPositionType`: the generator's own copy of the grid partition.
     * The road takes the first `roadWidth` offsets of a grid cell on either
     * axis; the border is the outermost ring of the plot square.
     */
    function GetPositionType(worldX: int, worldZ: int): (t: PositionType)
      requires GridValid()
      ensures t == Road <==> IsOnRoad(worldX, worldZ, plotSize, roadWidth)
      ensures t == PlotBorder <==> IsOnBorder(worldX, worldZ, plotSize, roadWidth)
    {
      var gridSize := plotSize + roadWidth;
      var localX := worldX % gridSize;
      var localZ := worldZ % gridSize;
      if localX < roadWidth || localZ < roadWidth then Road
      else
        var plotLocalX := localX - roadWidth;
        var plotLocalZ := localZ - roadWidth;
        if plotLocalX == 0 || plotLocalX == plotSize - 1 || plotLocalZ == 0 || plotLocalZ == plotSize - 1 then
          PlotBorder
        else
          Plot
    }

    /** `isRoad`. */
    predicate IsRoad(worldX: int, worldZ: int)
      requires GridValid()
      ensures IsRoad(worldX, worldZ) <==> FromWorldCoords(worldX, worldZ, plotSize, roadWidth).None?
    {
      GetPositionType(worldX, worldZ) == Road
    }

    /** `isBorder`. */
    predicate IsBorder(worldX: int, worldZ: int)
      requires GridValid()
      ensures IsBorder(worldX, worldZ) ==> FromWorldCoords(worldX, worldZ, plotSize, roadWidth).Some?
    {
      GetPositionType(worldX, worldZ) == PlotBorder
    }

    /** `isInPlot`: interior or border. */
    predicate IsInPlot(worldX: int, worldZ: int)
      requires GridValid()
      ensures IsInPlot(worldX, worldZ) <==> FromWorldCoords(worldX, worldZ, plotSize, roadWidth).Some?
    {
      GetPositionType(worldX, worldZ) == Plot || GetPositionType(worldX, worldZ) == PlotBorder
    }

    /** The block at height `y` for `0 <= y <= groundHeight`: the first matching band wins. */
    function LayerBlock(posType: PositionType, y: int): int
    {
      var surfaceBlockId :=
        match posType
        case Plot => plotBlockId
        case PlotBorder => if borderEnabled then borderBlockId else plotBlockId
        case Road => roadBlockId;
      if y < bedrockDepth then bedrockBlockId
      else if y < groundHeight - dirtDepth then fillBlockId
      else if y < groundHeight then (if posType == Road then fillBlockId else dirtBlockId)
      else surfaceBlockId
    }

    /** Whether a column of this type gets the wall block one above the surface. */
    predicate HasWall(posType: PositionType)
    {
      posType == PlotBorder && borderEnabled
    }

    /**
     * What `generateColumn` writes at height `y` of a column of type
     * `posType`: the layer stack from 0 to `groundHeight`, the wall block
     * above it on enabled borders, and nothing anywhere else.
     */
    function ColumnBlock(posType: PositionType, y: int): (r: Option<int>)
      ensures r.Some? <==> (0 <= y <= groundHeight || (y == groundHeight + 1 && HasWall(posType)))
    {
      if 0 <= y <= groundHeight then Some(LayerBlock(posType, y))
      else if y == groundHeight + 1 && HasWall(posType) then Some(borderBlockId)
      else None
    }

    /**
     * What `generate` writes at a chunk-local cell of chunk (cx, cz): the
     * column of the world column the cell lies in, and nothing outside the
     * 32 x 32 columns of the chunk.
     */
    function ChunkBlock(cx: int, cz: int, cell: (int, int, int)): (r: Option<int>)
      requires GridValid()
      ensures r.Some? ==> 0 <= cell.0 < 32 && 0 <= cell.2 < 32
    {
      if 0 <= cell.0 < 32 && 0 <= cell.2 < 32 then
        ColumnBlock(GetPositionType(cx * 32 + cell.0, cz * 32 + cell.2), cell.1)
      else None
    }
  }

  // ---------------------------------------------------------------------
  // Agreement with the plot-id partition
  // ---------------------------------------------------------------------

  /** The generator's road and border are exactly the plot ids' road and border. */
  lemma PositionTypeAgrees(g: PlotWorldGen, worldX: int, worldZ: int)
    requires g.GridValid()
    ensures g.IsRoad(worldX, worldZ) <==> IsOnRoad(worldX, worldZ, g.plotSize, g.roadWidth)
    ensures g.IsBorder(worldX, worldZ) <==> IsOnBorder(worldX, worldZ, g.plotSize, g.roadWidth)
    ensures g.GetPositionType(worldX, worldZ) == Plot <==>
      !IsOnRoad(worldX, worldZ, g.plotSize, g.roadWidth) && !IsOnBorder(worldX, worldZ, g.plotSize, g.roadWidth)
  {
  }

  /** `isInPlot` holds exactly where `fromWorldCoords` finds a plot. */
  lemma InPlotIffPlotId(g: PlotWorldGen, worldX: int, worldZ: int)
    requires g.GridValid()
    ensures g.IsInPlot(worldX, worldZ) <==> FromWorldCoords(worldX, worldZ, g.plotSize, g.roadWidth).Some?
  {
  }

  /** Every column is exactly one of road, border and plot interior. */
  lemma PositionTypesPartition(g: PlotWorldGen, worldX: int, worldZ: int)
    requires g.GridValid()
    ensures g.IsRoad(worldX, worldZ) || g.IsBorder(worldX, worldZ) || g.GetPositionType(worldX, worldZ) == Plot
    ensures !(g.IsRoad(worldX, worldZ) && g.IsInPlot(worldX, worldZ))
    ensures !(g.IsBorder(worldX, worldZ) && g.GetPositionType(worldX, worldZ) == Plot)
  {
  }

  /**
   * A border column is a column of the square of plot `id` that lies on
   * the square's first or last row or column.
   */
  lemma BorderIsSquareEdge(g: PlotWorldGen, worldX: int, worldZ: int, id: PlotId)
    requires g.GridValid() && CoordUtil.IsInPlot(worldX, worldZ, id, g.plotSize, g.roadWidth)
    ensures g.IsBorder(worldX, worldZ) <==>
      var mn := WorldMin(id, g.plotSize, g.roadWidth);
      var mx := WorldMax(id, g.plotSize, g.roadWidth);
      worldX == mn.0 || worldX == mx.0 || worldZ == mn.1 || worldZ == mx.1
  {
    PositionTypeAgrees(g, worldX, worldZ);
    BorderIsOutermostRing(worldX, worldZ, g.plotSize, g.roadWidth);
  }

  // ---------------------------------------------------------------------
  // The layer stack
  // ---------------------------------------------------------------------

  /** The bedrock band comes first: below `bedrockDepth` every column is bedrock. */
  lemma BedrockBand(g: PlotWorldGen, posType: PositionType, y: int)
    requires 0 <= y < g.bedrockDepth && y <= g.groundHeight
    ensures g.ColumnBlock(posType, y) == Some(g.bedrockBlockId)
  {
  }

  /** Above the bedrock and below the subsurface every column is fill. */
  lemma FillBand(g: PlotWorldGen, posType: PositionType, y: int)
    requires 0 <= y <= g.groundHeight && g.bedrockDepth <= y < g.groundHeight - g.dirtDepth
    ensures g.ColumnBlock(posType, y) == Some(g.fillBlockId)
  {
  }

  /** The subsurface is fill under roads and dirt under plots and borders. */
  lemma SubsurfaceBand(g: PlotWorldGen, posType: PositionType, y: int)
    requires 0 <= y && g.bedrockDepth <= y && g.groundHeight - g.dirtDepth <= y < g.groundHeight
    ensures g.ColumnBlock(posType, y) == Some(if posType == Road then g.fillBlockId else g.dirtBlockId)
  {
  }

  /** The surface: grass on plots, paving on roads, border blocks on enabled borders. */
  lemma SurfaceBlock(g: PlotWorldGen, posType: PositionType)
    requires 0 <= g.dirtDepth && 0 <= g.groundHeight && g.bedrockDepth <= g.groundHeight
    ensures g.ColumnBlock(posType, g.groundHeight) == Some(
      match posType
      case Plot => g.plotBlockId
      case Road => g.roadBlockId
      case PlotBorder => if g.borderEnabled then g.borderBlockId else g.plotBlockId)
  {
  }

  /** Above the surface only the wall block of an enabled border is written. */
  lemma AboveSurface(g: PlotWorldGen, posType: PositionType, y: int)
    requires y > g.groundHeight
    ensures g.ColumnBlock(posType, y).Some? <==> y == g.groundHeight + 1 && posType == PlotBorder && g.borderEnabled
    ensures g.ColumnBlock(posType, y).Some? ==> g.ColumnBlock(posType, y) == Some(g.borderBlockId)
  {
  }

  // ---------------------------------------------------------------------
  // What the loops write, as maps from cells to blocks
  // ---------------------------------------------------------------------

  /** The layer cells of column (x, z) at heights [0, top), with their blocks. */
  function Layers(g: PlotWorldGen, posType: PositionType, x: int, z: int, top: int): (cells: map<(int, int, int), int>)
    requires top <= 0 || top <= g.groundHeight + 1
    decreases top
  {
    if top <= 0 then map[]
    else Layers(g, posType, x, z, top - 1)[(x, top - 1, z) := g.LayerBlock(posType, top - 1)]
  }

  /** The cells `generateColumn` writes in column (x, z): the layer stack and, on an enabled border, the wall. */
  function ColumnCells(g: PlotWorldGen, posType: PositionType, x: int, z: int): (cells: map<(int, int, int), int>)
  {
    var layers := Layers(g, posType, x, z, if g.groundHeight < 0 then 0 else g.groundHeight + 1);
    if g.HasWall(posType) then layers[(x, g.groundHeight + 1, z) := g.borderBlockId] else layers
  }

  /** Every cell of `cells` with environment `environmentId`. */
  function WithEnvironment(cells: map<(int, int, int), int>, environmentId: int): (envs: map<(int, int, int), int>)
  {
    map c | c in cells :: environmentId
  }

  /** The position type of each column of chunk (cx, cz), by chunk-local coordinates. */
  function ColumnTypes(g: PlotWorldGen, cx: int, cz: int): (int, int) -> PositionType
  {
    (x: int, z: int) => if g.GridValid() then g.GetPositionType(cx * 32 + x, cz * 32 + z) else Road
  }

  /** A column's entry in `ColumnTypes` is its classification at its world position. */
  lemma ColumnTypesAt(g: PlotWorldGen, cx: int, cz: int, worldX: int, worldZ: int, x: int, z: int)
    requires g.GridValid() && worldX == cx * 32 + x && worldZ == cz * 32 + z
    ensures ColumnTypes(g, cx, cz)(x, z) == g.GetPositionType(worldX, worldZ)
  {
  }

  /** The column visited `n`-th (from 0) by the generator's row-major loops. */
  function NthColumn(n: int): (col: (int, int))
  {
    (n / 32, n % 32)
  }

  /**
   * The cells the first `n` columns of a chunk receive, when column
   * (x, z) of the chunk has position type `posOf(x, z)`.
   */
  function ChunkCells(g: PlotWorldGen, posOf: (int, int) -> PositionType, n: nat): (cells: map<(int, int, int), int>)
  {
    if n == 0 then map[]
    else
      var (x, z) := NthColumn(n - 1);
      ChunkCells(g, posOf, n - 1) + ColumnCells(g, posOf(x, z), x, z)
  }

  /** The tints of the first `n` columns. */
  function ChunkTints(tintId: int, n: nat): (tints: map<(int, int), int>)
  {
    if n == 0 then map[] else ChunkTints(tintId, n - 1)[NthColumn(n - 1) := tintId]
  }

  /** Column (x, z) of a chunk is among the first `n` the loops visit. */
  predicate VisitedBefore(x: int, z: int, n: int)
  {
    0 <= z < 32 && 0 <= x * 32 + z < n
  }

  // ---------------------------------------------------------------------
  // The maps agree with the per-cell description
  // ---------------------------------------------------------------------

  /** The layers below `top` are the column's cells at heights [0, top), each with its block. */
  lemma {:induction false} LayersMatch(g: PlotWorldGen, posType: PositionType, x: int, z: int, top: int)
    requires top <= 0 || top <= g.groundHeight + 1
    ensures forall c :: c in Layers(g, posType, x, z, top) <==> c.0 == x && c.2 == z && 0 <= c.1 < top
    ensures forall c :: c in Layers(g, posType, x, z, top) ==> Layers(g, posType, x, z, top)[c] == g.LayerBlock(posType, c.1)
    decreases top
  {
    if top > 0 {
      LayersMatch(g, posType, x, z, top - 1);
    }
  }

  /** A column's cells are exactly the heights `ColumnBlock` writes, holding its blocks. */
  lemma ColumnCellsMatch(g: PlotWorldGen, posType: PositionType, x: int, z: int)
    ensures forall c :: c in ColumnCells(g, posType, x, z) <==> c.0 == x && c.2 == z && g.ColumnBlock(posType, c.1).Some?
    ensures forall c :: c in ColumnCells(g, posType, x, z) ==> ColumnCells(g, posType, x, z)[c] == g.ColumnBlock(posType, c.1).value
  {
    LayersMatch(g, posType, x, z, if g.groundHeight < 0 then 0 else g.groundHeight + 1);
  }

  /** One cell of a column: written exactly when `ColumnBlock` writes it, with its block. */
  lemma ColumnCellMatch(g: PlotWorldGen, posType: PositionType, x: int, z: int, c: (int, int, int))
    ensures c in ColumnCells(g, posType, x, z) <==> c.0 == x && c.2 == z && g.ColumnBlock(posType, c.1).Some?
    ensures c in ColumnCells(g, posType, x, z) ==> ColumnCells(g, posType, x, z)[c] == g.ColumnBlock(posType, c.1).value
  {
    ColumnCellsMatch(g, posType, x, z);
  }

  /** The `n`-th column is in range, and its row-major index is `n`. */
  lemma NthColumnIndex(n: int)
    requires n >= 0
    ensures 0 <= NthColumn(n).1 < 32 && NthColumn(n).0 * 32 + NthColumn(n).1 == n
  {
  }

  /** One more column visited: exactly the `n`-th joins the visited ones. */
  lemma VisitedStep(x: int, z: int, n: nat)
    ensures VisitedBefore(x, z, n + 1) <==> VisitedBefore(x, z, n) || (x, z) == NthColumn(n)
  {
    NthColumnIndex(n);
    if 0 <= z < 32 && x * 32 + z == n {
      DivModUnique(n, 32, x, z);
    }
  }

  /**
   * The first `n` columns' cells are the cells the columns visited so
   * far write, each holding that column's block.
   */
  lemma {:induction false} ChunkCellsMatch(g: PlotWorldGen, posOf: (int, int) -> PositionType, n: nat)
    ensures forall c :: c in ChunkCells(g, posOf, n) <==>
      VisitedBefore(c.0, c.2, n) && g.ColumnBlock(posOf(c.0, c.2), c.1).Some?
    ensures forall c :: c in ChunkCells(g, posOf, n) ==>
      ChunkCells(g, posOf, n)[c] == g.ColumnBlock(posOf(c.0, c.2), c.1).value
  {
    if n > 0 {
      ChunkCellsMatch(g, posOf, n - 1);
      var (x, z) := NthColumn(n - 1);
      var cells, column := ChunkCells(g, posOf, n), ColumnCells(g, posOf(x, z), x, z);
      assert cells == ChunkCells(g, posOf, n - 1) + column;
      forall c: (int, int, int)
        ensures c in cells <==> VisitedBefore(c.0, c.2, n) && g.ColumnBlock(posOf(c.0, c.2), c.1).Some?
        ensures c in cells ==> cells[c] == g.ColumnBlock(posOf(c.0, c.2), c.1).value
      {
        VisitedStep(c.0, c.2, n - 1);
        ColumnCellMatch(g, posOf(x, z), x, z, c);
        if (c.0, c.2) == (x, z) {
          assert c in cells <==> c in column;
        } else {
          assert c !in column;
        }
      }
    }
  }

  /** The first `n` columns' tints are the columns whose index is below `n`. */
  lemma {:induction false} ChunkTintsMatch(tintId: int, n: nat)
    ensures forall col :: col in ChunkTints(tintId, n) <==> VisitedBefore(col.0, col.1, n)
    ensures forall col :: col in ChunkTints(tintId, n) ==> ChunkTints(tintId, n)[col] == tintId
  {
    if n > 0 {
      ChunkTintsMatch(tintId, n - 1);
      forall col: (int, int)
        ensures VisitedBefore(col.0, col.1, n) <==> VisitedBefore(col.0, col.1, n - 1) || col == NthColumn(n - 1)
      {
        VisitedStep(col.0, col.1, n - 1);
      }
    }
  }

  /**
   * What a generated chunk holds: exactly `ChunkBlock`'s cells with its
   * blocks, the environment on every one of those cells, and the tint on
   * every one of the 32 x 32 columns.
   */
  ghost predicate IsGeneratedChunk(g: PlotWorldGen, cx: int, cz: int, blocks: map<(int, int, int), int>,
                                   environments: map<(int, int, int), int>, tints: map<(int, int), int>)
    requires g.GridValid()
  {
    && (forall c :: c in blocks <==> g.ChunkBlock(cx, cz, c).Some?)
    && (forall c :: c in blocks ==> blocks[c] == g.ChunkBlock(cx, cz, c).value)
    && (forall c :: c in environments <==> g.ChunkBlock(cx, cz, c).Some?)
    && (forall c :: c in environments ==> environments[c] == g.environmentId)
    && (forall col :: col in tints <==> 0 <= col.0 < 32 && 0 <= col.1 < 32)
    && (forall col :: col in tints ==> tints[col] == g.tintId)
  }

  /**
   * Once all 32 x 32 columns are visited, classified at their world
   * positions in chunk (cx, cz), the maps built are the generated chunk.
   */
  lemma ChunkComplete(g: PlotWorldGen, cx: int, cz: int, visited: nat,
                      blocks: map<(int, int, int), int>, environments: map<(int, int, int), int>, tints: map<(int, int), int>)
    requires g.GridValid() && visited == 32 * 32
    requires ChunkFilled(g, ColumnTypes(g, cx, cz), visited, blocks, environments, tints)
    ensures IsGeneratedChunk(g, cx, cz, blocks, environments, tints)
  {
    ChunkCellsMatch(g, ColumnTypes(g, cx, cz), visited);
    ChunkTintsMatch(g.tintId, visited);
  }

  /** Writing layer `y` over what is below it extends the written layers by one. */
  lemma LayerWritten(g: PlotWorldGen, posType: PositionType, x: int, z: int, y: int,
                     blocks: map<(int, int, int), int>, envs: map<(int, int, int), int>)
    requires 0 <= y <= g.groundHeight
    ensures (blocks + Layers(g, posType, x, z, y))[(x, y, z) := g.LayerBlock(posType, y)]
         == blocks + Layers(g, posType, x, z, y + 1)
    ensures (envs + WithEnvironment(Layers(g, posType, x, z, y), g.environmentId))[(x, y, z) := g.environmentId]
         == envs + WithEnvironment(Layers(g, posType, x, z, y + 1), g.environmentId)
  {
    var below := Layers(g, posType, x, z, y);
    assert Layers(g, posType, x, z, y + 1) == below[(x, y, z) := g.LayerBlock(posType, y)];
    assert WithEnvironment(below[(x, y, z) := g.LayerBlock(posType, y)], g.environmentId)
        == WithEnvironment(below, g.environmentId)[(x, y, z) := g.environmentId];
  }

  /** Writing the wall over the finished layers completes the column. */
  lemma WallWritten(g: PlotWorldGen, posType: PositionType, x: int, z: int,
                    blocks: map<(int, int, int), int>, envs: map<(int, int, int), int>)
    requires g.HasWall(posType)
    ensures var layers := Layers(g, posType, x, z, if g.groundHeight < 0 then 0 else g.groundHeight + 1);
      && (blocks + layers)[(x, g.groundHeight + 1, z) := g.borderBlockId] == blocks + ColumnCells(g, posType, x, z)
      && (envs + WithEnvironment(layers, g.environmentId))[(x, g.groundHeight + 1, z) := g.environmentId]
         == envs + WithEnvironment(ColumnCells(g, posType, x, z), g.environmentId)
  {
  }

  /** The chunk's maps after the loops have visited `n` columns. */
  ghost predicate ChunkFilled(g: PlotWorldGen, posOf: (int, int) -> PositionType, n: nat, blocks: map<(int, int, int), int>,
                              environments: map<(int, int, int), int>, tints: map<(int, int), int>)
  {
    && blocks == ChunkCells(g, posOf, n)
    && environments == WithEnvironment(ChunkCells(g, posOf, n), g.environmentId)
    && tints == ChunkTints(g.tintId, n)
  }

  /** Visiting column (x, z), the `n`-th, appends its cells, their environments and its tint. */
  lemma ChunkStep(g: PlotWorldGen, posOf: (int, int) -> PositionType, n: nat, x: int, z: int, posType: PositionType,
                  blocks: map<(int, int, int), int>, environments: map<(int, int, int), int>, tints: map<(int, int), int>)
    requires 0 <= z < 32 && n == x * 32 + z && posOf(x, z) == posType
    requires ChunkFilled(g, posOf, n, blocks, environments, tints)
    ensures ChunkFilled(g, posOf, n + 1, blocks + ColumnCells(g, posType, x, z),
                        environments + WithEnvironment(ColumnCells(g, posType, x, z), g.environmentId),
                        tints[(x, z) := g.tintId])
  {
    DivModUnique(n, 32, x, z);
    EnvironmentOverlay(ChunkCells(g, posOf, n), ColumnCells(g, posType, x, z), g.environmentId);
  }

  /** Overlaying a column on the chunk's blocks overlays its environments on the chunk's environments. */
  lemma EnvironmentOverlay(a: map<(int, int, int), int>, b: map<(int, int, int), int>, environmentId: int)
    ensures WithEnvironment(a + b, environmentId) == WithEnvironment(a, environmentId) + WithEnvironment(b, environmentId)
  {
  }

  // ---------------------------------------------------------------------
  // The chunk buffer and the generator's loops
  // ---------------------------------------------------------------------

  /** The chunk being generated: blocks and environments per cell, tints per column. */
  class ChunkBuffer {
    var blocks: map<(int, int, int), int>
    var environments: map<(int, int, int), int>
    var tints: map<(int, int), int>

    constructor ()
      ensures blocks == map[] && environments == map[] && tints == map[]
    {
      blocks := map[];
      environments := map[];
      tints := map[];
    }

    method SetBlock(x: int, y: int, z: int, blockId: int)
      modifies this`blocks
      ensures blocks == old(blocks)[(x, y, z) := blockId]
    {
      blocks := blocks[(x, y, z) := blockId];
    }

    method SetEnvironment(x: int, y: int, z: int, environmentId: int)
      modifies this`environments
      ensures environments == old(environments)[(x, y, z) := environmentId]
    {
      environments := environments[(x, y, z) := environmentId];
    }

    method SetTint(x: int, z: int, tintId: int)
      modifies this`tints
      ensures tints == old(tints)[(x, z) := tintId]
    {
      tints := tints[(x, z) := tintId];
    }
  }

  /**
   * `generateColumn`: writes the layers from 0 up to `groundHeight`, then
   * the wall block on an enabled border, each with the environment.
   */
  method GenerateColumn(g: PlotWorldGen, chunk: ChunkBuffer, localX: int, localZ: int, posType: PositionType)
    modifies chunk`blocks, chunk`environments
    ensures chunk.blocks == old(chunk.blocks) + ColumnCells(g, posType, localX, localZ)
    ensures chunk.environments == old(chunk.environments) + WithEnvironment(ColumnCells(g, posType, localX, localZ), g.environmentId)
  {
    var y := 0;
    while y <= g.groundHeight
      invariant 0 <= y && (y == 0 || y <= g.groundHeight + 1)
      invariant chunk.blocks == old(chunk.blocks) + Layers(g, posType, localX, localZ, y)
      invariant chunk.environments == old(chunk.environments) + WithEnvironment(Layers(g, posType, localX, localZ, y), g.environmentId)
    {
      LayerWritten(g, posType, localX, localZ, y, old(chunk.blocks), old(chunk.environments));
      chunk.SetBlock(localX, y, localZ, g.LayerBlock(posType, y));
      chunk.SetEnvironment(localX, y, localZ, g.environmentId);
      y := y + 1;
    }
    assert y == if g.groundHeight < 0 then 0 else g.groundHeight + 1;
    if posType == PlotBorder && g.borderEnabled {
      WallWritten(g, posType, localX, localZ, old(chunk.blocks), old(chunk.environments));
      chunk.SetBlock(localX, g.groundHeight + 1, localZ, g.borderBlockId);
      chunk.SetEnvironment(localX, g.groundHeight + 1, localZ, g.environmentId);
    }
  }

  /**
   * One pass of `generate`'s inner loop: the 32 columns of row `localX` of
   * chunk (cx, cz), each tinted, classified at its world position and
   * written. The row's columns extend the columns visited so far.
   */
  method GenerateRow(g: PlotWorldGen, chunk: ChunkBuffer, cx: int, cz: int, localX: nat)
    requires g.GridValid()
    requires ChunkFilled(g, ColumnTypes(g, cx, cz), localX * 32, chunk.blocks, chunk.environments, chunk.tints)
    modifies chunk
    ensures ChunkFilled(g, ColumnTypes(g, cx, cz), localX * 32 + 32, chunk.blocks, chunk.environments, chunk.tints)
  {
    var worldOffsetX := cx * 32;
    var worldOffsetZ := cz * 32;
    ghost var posOf := ColumnTypes(g, cx, cz);
    ghost var visited: nat := localX * 32;
    for localZ := 0 to 32
      invariant visited == localX * 32 + localZ
      invariant ChunkFilled(g, posOf, visited, chunk.blocks, chunk.environments, chunk.tints)
    {
      var worldX := worldOffsetX + localX;
      var worldZ := worldOffsetZ + localZ;
      ColumnTypesAt(g, cx, cz, worldX, worldZ, localX, localZ);
      ChunkStep(g, posOf, visited, localX, localZ, g.GetPositionType(worldX, worldZ), chunk.blocks, chunk.environments, chunk.tints);
      chunk.SetTint(localX, localZ, g.tintId);
      var posType := g.GetPositionType(worldX, worldZ);
      GenerateColumn(g, chunk, localX, localZ, posType);
      visited := visited + 1;
    }
  }

  /**
   * `generate`: visits the 32 x 32 columns of chunk (cx, cz) in row-major
   * order, tints each, classifies it at its world position and writes its
   * column. The new chunk holds exactly the generator's blocks, with the
   * environment on every written cell and the tint on every column.
   */
  method Generate(g: PlotWorldGen, cx: int, cz: int) returns (chunk: ChunkBuffer)
    requires g.GridValid()
    ensures fresh(chunk)
    ensures IsGeneratedChunk(g, cx, cz, chunk.blocks, chunk.environments, chunk.tints)
  {
    chunk := new ChunkBuffer();
    for localX := 0 to 32
      invariant ChunkFilled(g, ColumnTypes(g, cx, cz), localX * 32, chunk.blocks, chunk.environments, chunk.tints)
    {
      GenerateRow(g, chunk, cx, cz, localX);
    }
    ChunkComplete(g, cx, cz, 32 * 32, chunk.blocks, chunk.environments, chunk.tints);
  }
}
