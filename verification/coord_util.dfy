/**
 * Plot coordinate utilities: the inverse (plot to world) mapping, plot
 * membership of a column, neighbour lists, distance from the origin, the
 * square spiral used to look for free plots, and chunk indices.
 */
module CoordUtil {
  import opened Wrappers
  import opened PlotIds

  function Abs(n: int): nat
  {
    if n < 0 then -n else n
  }

  function Max(a: nat, b: nat): nat
  {
    if a < b then b else a
  }

  /** Chebyshev distance between two grid coordinates. */
  function Chebyshev(a: PlotId, b: PlotId): nat
  {
    Max(Abs(a.x - b.x), Abs(a.z - b.z))
  }

  /** Manhattan distance between two grid coordinates. */
  function Manhattan(a: PlotId, b: PlotId): nat
  {
    Abs(a.x - b.x) + Abs(a.z - b.z)
  }

  // ---------------------------------------------------------------------
  // Division facts
  // ---------------------------------------------------------------------

  lemma MulBound(a: int, b: int)
    requires b > 0
    ensures a >= 1 ==> a * b >= b
    ensures a <= -1 ==> a * b <= -b
    decreases Abs(a)
  {
    if a > 1 {
      MulBound(a - 1, b);
    } else if a < -1 {
      MulBound(a + 1, b);
    }
  }

  /** Quotient and remainder are determined by `n == q * g + m` with `0 <= m < g`. */
  lemma DivModUnique(n: int, g: int, q: int, m: int)
    requires g > 0 && 0 <= m < g && n == q * g + m
    ensures n / g == q && n % g == m
  {
    var q', m' := n / g, n % g;
    assert n == q' * g + m';
    assert (q - q') * g == m' - m;
    MulBound(q - q', g);
  }

  lemma DivMonotone(a: int, b: int, g: int)
    requires g > 0 && a <= b
    ensures a / g <= b / g
  {
    assert a == (a / g) * g + a % g;
    assert b == (b / g) * g + b % g;
    MulBound(a / g - b / g, g);
  }

  // ---------------------------------------------------------------------
  // Plot to world
  // ---------------------------------------------------------------------

  /** `plotIdToWorldMin`: the interior's minimum corner, which maps back to the plot. */
  function WorldMin(id: PlotId, plotSize: int, roadWidth: int): (r: (int, int))
    requires plotSize >= 1 && roadWidth >= 0
    ensures FromWorldCoords(r.0, r.1, plotSize, roadWidth) == Some(id)
  {
    var gridSize := plotSize + roadWidth;
    var corner := (id.x * gridSize + roadWidth, id.z * gridSize + roadWidth);
    DivModUnique(corner.0, gridSize, id.x, roadWidth);
    DivModUnique(corner.1, gridSize, id.z, roadWidth);
    corner
  }

  /** `plotIdToWorldMax`: the inclusive maximum corner, which maps back to the plot. */
  function WorldMax(id: PlotId, plotSize: int, roadWidth: int): (r: (int, int))
    requires plotSize >= 1 && roadWidth >= 0
    ensures r.0 == WorldMin(id, plotSize, roadWidth).0 + plotSize - 1
    ensures r.1 == WorldMin(id, plotSize, roadWidth).1 + plotSize - 1
    ensures FromWorldCoords(r.0, r.1, plotSize, roadWidth) == Some(id)
  {
    var gridSize := plotSize + roadWidth;
    var (minX, minZ) := WorldMin(id, plotSize, roadWidth);
    var corner := (minX + plotSize - 1, minZ + plotSize - 1);
    DivModUnique(corner.0, gridSize, id.x, roadWidth + plotSize - 1);
    DivModUnique(corner.1, gridSize, id.z, roadWidth + plotSize - 1);
    corner
  }

  /**
   * `isInPlot`: the column lies in the plot's square. That is exactly where
   * the partition maps the column to this plot.
   */
  predicate IsInPlot(worldX: int, worldZ: int, id: PlotId, plotSize: int, roadWidth: int)
    requires plotSize >= 1 && roadWidth >= 0
    ensures IsInPlot(worldX, worldZ, id, plotSize, roadWidth)
        <==> FromWorldCoords(worldX, worldZ, plotSize, roadWidth) == Some(id)
  {
    var gridSize := plotSize + roadWidth;
    var (minX, minZ) := WorldMin(id, plotSize, roadWidth);
    if worldX >= minX && worldX < minX + plotSize && worldZ >= minZ && worldZ < minZ + plotSize then
      DivModUnique(worldX, gridSize, id.x, worldX - id.x * gridSize);
      DivModUnique(worldZ, gridSize, id.z, worldZ - id.z * gridSize);
      true
    else
      false
  }

  /**
   * Within the grid cell at the origin, a column is road exactly when one of
   * its offsets is below `roadWidth`: the road strips open every cell.
   */
  lemma RoadCellLayout(worldX: int, worldZ: int, plotSize: int, roadWidth: int)
    requires plotSize >= 1 && roadWidth >= 0
    requires 0 <= worldX < plotSize + roadWidth && 0 <= worldZ < plotSize + roadWidth
    ensures IsOnRoad(worldX, worldZ, plotSize, roadWidth) <==> worldX < roadWidth || worldZ < roadWidth
  {
    DivModUnique(worldX, plotSize + roadWidth, 0, worldX);
    DivModUnique(worldZ, plotSize + roadWidth, 0, worldZ);
  }

  /** The road pattern repeats every grid cell on both axes. */
  lemma RoadRepeats(worldX: int, worldZ: int, kx: int, kz: int, plotSize: int, roadWidth: int)
    requires plotSize >= 1 && roadWidth >= 0
    ensures var gridSize := plotSize + roadWidth;
      IsOnRoad(worldX + kx * gridSize, worldZ + kz * gridSize, plotSize, roadWidth)
        == IsOnRoad(worldX, worldZ, plotSize, roadWidth)
  {
    var gridSize := plotSize + roadWidth;
    DivModUnique(worldX + kx * gridSize, gridSize, worldX / gridSize + kx, worldX % gridSize);
    DivModUnique(worldZ + kz * gridSize, gridSize, worldZ / gridSize + kz, worldZ % gridSize);
  }

  /** The border is the outermost ring of the enclosing plot's square. */
  lemma BorderIsOutermostRing(worldX: int, worldZ: int, plotSize: int, roadWidth: int)
    requires plotSize >= 1 && roadWidth >= 0
    ensures IsOnBorder(worldX, worldZ, plotSize, roadWidth) <==>
      && FromWorldCoords(worldX, worldZ, plotSize, roadWidth).Some?
      && var id := FromWorldCoords(worldX, worldZ, plotSize, roadWidth).value;
         var mn := WorldMin(id, plotSize, roadWidth);
         var mx := WorldMax(id, plotSize, roadWidth);
         worldX == mn.0 || worldX == mx.0 || worldZ == mn.1 || worldZ == mx.1
  {
    var gridSize := plotSize + roadWidth;
    var r := FromWorldCoords(worldX, worldZ, plotSize, roadWidth);
    if r.Some? {
      var id := r.value;
      DivModUnique(worldX, gridSize, id.x, worldX - id.x * gridSize);
      DivModUnique(worldZ, gridSize, id.z, worldZ - id.z * gridSize);
    }
  }

  // ---------------------------------------------------------------------
  // Neighbours and distance
  // ---------------------------------------------------------------------

  /** `getAdjacentPlots`: west, east, north, south. */
  function AdjacentPlots(id: PlotId): (r: seq<PlotId>)
    ensures |r| == 4
    ensures forall p :: p in r <==> Manhattan(p, id) == 1
  {
    [PlotId(id.x - 1, id.z), PlotId(id.x + 1, id.z), PlotId(id.x, id.z - 1), PlotId(id.x, id.z + 1)]
  }

  /**
   * `getSurroundingPlots`: the eight coordinates at Chebyshev distance 1,
   * in increasing coordinate order (x, then z), so none repeats.
   */
  method SurroundingPlots(id: PlotId) returns (plots: seq<PlotId>)
    ensures |plots| == 8
    ensures forall i, j :: 0 <= i < j < |plots| ==> Less(plots[i], plots[j])
    ensures forall p :: p in plots <==> Chebyshev(p, id) == 1
    ensures id !in plots
  {
    plots := [];
    for dx := -1 to 2
      invariant |plots| == 3 * (dx + 1) - (if dx > 0 then 1 else 0)
      invariant forall i, j :: 0 <= i < j < |plots| ==> Less(plots[i], plots[j])
      invariant forall p :: p in plots <==> Chebyshev(p, id) == 1 && p.x < id.x + dx
    {
      for dz := -1 to 2
        invariant |plots| == 3 * (dx + 1) - (if dx > 0 then 1 else 0) + (dz + 1)
                             - (if dx == 0 && dz > 0 then 1 else 0)
        invariant forall i, j :: 0 <= i < j < |plots| ==> Less(plots[i], plots[j])
        invariant forall p :: p in plots <==>
          Chebyshev(p, id) == 1 && (p.x < id.x + dx || (p.x == id.x + dx && p.z < id.z + dz))
      {
        if dx != 0 || dz != 0 {
          plots := plots + [PlotId(id.x + dx, id.z + dz)];
        }
      }
    }
  }

  /** `distanceFromOrigin`: the Chebyshev distance to (0,0). */
  function DistanceFromOrigin(id: PlotId): (r: nat)
    ensures Abs(id.x) <= r && Abs(id.z) <= r
    ensures r == Abs(id.x) || r == Abs(id.z)
    ensures r == 0 <==> id == PlotId(0, 0)
  {
    Max(Abs(id.x), Abs(id.z))
  }

  // ---------------------------------------------------------------------
  // Square spiral
  // ---------------------------------------------------------------------

  /** Number of coordinates on ring r (Chebyshev distance r from the origin). */
  function RingSize(r: nat): nat
  {
    if r == 0 then 1 else 8 * r
  }

  /** Number of coordinates strictly inside ring r, i.e. the spiral index where ring r starts. */
  function RingStart(r: nat): nat
  {
    if r == 0 then 0 else RingStart(r - 1) + RingSize(r - 1)
  }

  lemma {:induction false} RingStartSquare(n: nat)
    ensures RingStart(n + 1) == (2 * n + 1) * (2 * n + 1)
  {
    if n > 0 {
      RingStartSquare(n - 1);
    }
  }

  lemma {:induction false} RingStartMonotone(a: nat, b: nat)
    requires a <= b
    ensures RingStart(a) <= RingStart(b)
    decreases b - a
  {
    if a < b {
      RingStartMonotone(a, b - 1);
    }
  }

  /** Position of a ring-r coordinate along its ring, walking down, left, up, then right. */
  function RingOffset(p: PlotId, r: int): int
  {
    if p.x == r && p.z > -r then p.z + r - 1
    else if p.z == r && p.x < r then 3 * r - 1 - p.x
    else if p.x == -r && p.z < r then 5 * r - 1 - p.z
    else 7 * r - 1 + p.x
  }

  /**
   * The position of `p` in the order in which the square spiral from the
   * origin visits coordinates: ring by ring, each ring starting just right
   * of the top-right corner of the previous one.
   */
  function SpiralIndex(p: PlotId): (i: nat)
    ensures RingStart(DistanceFromOrigin(p)) <= i < RingStart(DistanceFromOrigin(p) + 1)
  {
    var r := DistanceFromOrigin(p);
    if r == 0 then 0 else RingStart(r) + RingOffset(p, r)
  }

  /** A spiral index below (2n+1)^2 belongs to a coordinate within distance n. */
  lemma SpiralIndexBound(p: PlotId, n: nat)
    requires SpiralIndex(p) < RingStart(n + 1)
    ensures DistanceFromOrigin(p) <= n
  {
    if DistanceFromOrigin(p) > n {
      RingStartMonotone(n + 1, DistanceFromOrigin(p));
    }
  }

  /**
   * Each side of ring r takes its own 2r consecutive offsets: the right
   * side [0, 2r), the bottom [2r, 4r), the left [4r, 6r), the top [6r, 8r).
   */
  lemma RingOffsetSides(p: PlotId, r: int)
    requires r > 0 && DistanceFromOrigin(p) == r
    ensures p.x == r && p.z > -r ==> 0 <= RingOffset(p, r) < 2 * r
    ensures !(p.x == r && p.z > -r) && p.z == r && p.x < r ==> 2 * r <= RingOffset(p, r) < 4 * r
    ensures !(p.x == r && p.z > -r) && !(p.z == r && p.x < r) && p.x == -r && p.z < r ==>
      4 * r <= RingOffset(p, r) < 6 * r
    ensures !(p.x == r && p.z > -r) && !(p.z == r && p.x < r) && !(p.x == -r && p.z < r) ==>
      p.z == -r && 6 * r <= RingOffset(p, r) < 8 * r
  {
  }

  /** Two coordinates of one ring with the same offset are the same coordinate. */
  lemma RingOffsetInjective(p: PlotId, q: PlotId, r: int)
    requires r > 0 && DistanceFromOrigin(p) == r && DistanceFromOrigin(q) == r
    requires RingOffset(p, r) == RingOffset(q, r)
    ensures p == q
  {
    RingOffsetSides(p, r);
    RingOffsetSides(q, r);
  }

  /** Different coordinates have different spiral indices. */
  lemma SpiralIndexInjective(p: PlotId, q: PlotId)
    requires SpiralIndex(p) == SpiralIndex(q)
    ensures p == q
  {
    var rp, rq := DistanceFromOrigin(p), DistanceFromOrigin(q);
    if rp < rq {
      RingStartMonotone(rp + 1, rq);
    } else if rq < rp {
      RingStartMonotone(rq + 1, rp);
    } else if rp > 0 {
      RingOffsetInjective(p, q, rp);
    }
  }

  lemma RightLegIndex(k: int, j: int)
    requires k >= 0 && j >= 0
    requires j + 1 <= 2 * k
    ensures SpiralIndex(PlotId(-k + j + 1, -k)) == RingStart(k + 1) - 2 * k + j
  {
  }

  lemma RightLegExitIndex(k: int)
    requires k >= 0
    ensures SpiralIndex(PlotId(k + 1, -k)) == RingStart(k + 1)
  {
  }

  lemma DownLegIndex(k: int, j: int)
    requires k >= 0 && j >= 0
    requires j + 1 <= 2 * k + 1
    ensures SpiralIndex(PlotId(k + 1, -k + j + 1)) == RingStart(k + 1) + j + 1
  {
  }

  lemma LeftLegIndex(k: int, j: int)
    requires k >= 0 && j >= 0
    requires j + 1 <= 2 * k + 2
    ensures SpiralIndex(PlotId(k - j, k + 1)) == RingStart(k + 1) + 2 * k + 2 + j
  {
  }

  lemma UpLegIndex(k: int, j: int)
    requires k >= 0 && j >= 0
    requires j + 1 <= 2 * k + 2
    ensures SpiralIndex(PlotId(-(k + 1), k - j)) == RingStart(k + 1) + 4 * k + 4 + j
  {
  }

  /**
   * Where the walk stands: `steps` steps into leg `direction` of ring
   * group `k`, at (x, z), having listed `yielded` coordinates.
   */
  predicate Leg(direction: int, stepsInDirection: int, steps: int, k: int, x: int, z: int, yielded: int)
  {
    && k >= 0 && 0 <= direction < 4
    && (direction == 0 ==> stepsInDirection == 2 * k + 1 && x == -k + steps && z == -k
                           && yielded == RingStart(k + 1) - 2 * k + steps)
    && (direction == 1 ==> stepsInDirection == 2 * k + 1 && x == k + 1 && z == -k + steps
                           && yielded == RingStart(k + 1) + steps + 1)
    && (direction == 2 ==> stepsInDirection == 2 * k + 2 && x == k + 1 - steps && z == k + 1
                           && yielded == RingStart(k + 1) + 2 * k + 2 + steps)
    && (direction == 3 ==> stepsInDirection == 2 * k + 2 && x == -(k + 1) && z == k + 1 - steps
                           && yielded == RingStart(k + 1) + 4 * k + 4 + steps)
  }

  /** One step in a direction: 0 is +x, 1 is +z, 2 is -x, 3 is -z. */
  function Step(direction: int, x: int, z: int): (int, int)
  {
    if direction == 0 then (x + 1, z) else if direction == 1 then (x, z + 1)
    else if direction == 2 then (x - 1, z) else (x, z - 1)
  }

  /**
   * One step along the leg reaches the coordinate with the next spiral
   * index, and the walk is one step further with one more coordinate listed.
   */
  lemma WalkStep(direction: int, stepsInDirection: int, steps: int, k: int, x: int, z: int, yielded: int)
    requires Leg(direction, stepsInDirection, steps, k, x, z, yielded) && 0 <= steps < stepsInDirection
    ensures var (x', z') := Step(direction, x, z);
      && SpiralIndex(PlotId(x', z')) == yielded
      && Leg(direction, stepsInDirection, steps + 1, k, x', z', yielded + 1)
  {
    if direction == 0 {
      if steps + 1 == stepsInDirection { RightLegExitIndex(k); } else { RightLegIndex(k, steps); }
    } else if direction == 1 {
      DownLegIndex(k, steps);
    } else if direction == 2 {
      LeftLegIndex(k, steps);
    } else {
      UpLegIndex(k, steps);
    }
  }

  /**
   * At the end of a leg the walk turns clockwise; after every second turn
   * legs grow by one, and after the fourth the next ring group begins.
   */
  lemma WalkTurn(direction: int, stepsInDirection: int, k: int, x: int, z: int, yielded: int)
    requires Leg(direction, stepsInDirection, stepsInDirection, k, x, z, yielded)
    ensures Leg((direction + 1) % 4, if direction % 2 == 1 then stepsInDirection + 1 else stepsInDirection, 0,
                if direction == 3 then k + 1 else k, x, z, yielded)
    ensures ((direction + 1) % 4) % 2 == 1 - direction % 2 && ((direction + 1) % 4 == 0 <==> direction == 3)
  {
    if direction == 3 {
      assert RingStart(k + 2) == RingStart(k + 1) + 8 * k + 8;
    }
  }

  /**
   * A sequence that lists spiral indices 0, 1, ..., (2n+1)^2 - 1 in order
   * holds each coordinate within distance n exactly once.
   */
  lemma SpiralOrderProperties(plots: seq<PlotId>, n: nat)
    requires |plots| == RingStart(n + 1)
    requires forall i :: 0 <= i < |plots| ==> SpiralIndex(plots[i]) == i
    ensures forall i :: 0 <= i < |plots| ==> DistanceFromOrigin(plots[i]) <= n
    ensures forall i, j :: 0 <= i < j < |plots| ==> plots[i] != plots[j]
    ensures forall p :: DistanceFromOrigin(p) <= n ==> p in plots
  {
    forall i, j | 0 <= i < j < |plots|
      ensures plots[i] != plots[j]
    {
      assert SpiralIndex(plots[i]) == i && SpiralIndex(plots[j]) == j;
    }
    forall p | DistanceFromOrigin(p) <= n
      ensures p in plots
    {
      RingStartMonotone(DistanceFromOrigin(p) + 1, n + 1);
      var i := SpiralIndex(p);
      SpiralIndexInjective(plots[i], p);
    }
    forall i | 0 <= i < |plots|
      ensures DistanceFromOrigin(plots[i]) <= n
    {
      SpiralIndexBound(plots[i], n);
    }
  }

  /**
   * `spiralFromOrigin`: every coordinate within Chebyshev distance
   * `maxDistance` of the origin, once each, in spiral order starting at (0,0).
   */
  method SpiralFromOrigin(maxDistance: int) returns (plots: seq<PlotId>)
    requires maxDistance >= 0
    ensures |plots| == (2 * maxDistance + 1) * (2 * maxDistance + 1)
    ensures plots[0] == PlotId(0, 0)
    ensures forall i :: 0 <= i < |plots| ==> SpiralIndex(plots[i]) == i
    ensures forall i :: 0 <= i < |plots| ==> DistanceFromOrigin(plots[i]) <= maxDistance
    ensures forall i, j :: 0 <= i < j < |plots| ==> plots[i] != plots[j]
    ensures forall p :: DistanceFromOrigin(p) <= maxDistance ==> p in plots
  {
    plots := [PlotId(0, 0)];
    var x, z := 0, 0;
    var direction := 0;  // 0 = right, 1 = down, 2 = left, 3 = up
    var stepsInDirection := 1;
    var stepsTaken := 0;
    var turnsAtCurrentStep := 0;
    var totalPlots := (2 * maxDistance + 1) * (2 * maxDistance + 1);
    var plotsYielded := 1;
    ghost var k: int := 0;  // half the side of the ring group the walk is on
    RingStartSquare(maxDistance);

    while plotsYielded < totalPlots
      invariant totalPlots == RingStart(maxDistance + 1)
      invariant 1 <= plotsYielded <= totalPlots && |plots| == plotsYielded
      invariant plots[0] == PlotId(0, 0)
      invariant forall i :: 0 <= i < |plots| ==> SpiralIndex(plots[i]) == i
      invariant turnsAtCurrentStep == direction % 2 && 0 <= stepsTaken < stepsInDirection
      invariant Leg(direction, stepsInDirection, stepsTaken, k, x, z, plotsYielded)
      decreases totalPlots - plotsYielded
    {
      WalkStep(direction, stepsInDirection, stepsTaken, k, x, z, plotsYielded);
      x, z := Step(direction, x, z).0, Step(direction, x, z).1;
      SpiralIndexBound(PlotId(x, z), maxDistance);
      stepsTaken := stepsTaken + 1;

      if Abs(x) <= maxDistance && Abs(z) <= maxDistance {
        plots := plots + [PlotId(x, z)];
        plotsYielded := plotsYielded + 1;
      }

      if stepsTaken >= stepsInDirection {
        WalkTurn(direction, stepsInDirection, k, x, z, plotsYielded);
        stepsTaken := 0;
        direction := (direction + 1) % 4;
        turnsAtCurrentStep := turnsAtCurrentStep + 1;
        if turnsAtCurrentStep == 2 {
          turnsAtCurrentStep := 0;
          stepsInDirection := stepsInDirection + 1;
          if direction == 0 {
            k := k + 1;
          }
        }
      }
    }

    SpiralOrderProperties(plots, maxDistance);
  }

  // ---------------------------------------------------------------------
  // Chunk indices
  // ---------------------------------------------------------------------

  const TWO_31: int := 0x8000_0000
  const TWO_32: int := 0x1_0000_0000
  const TWO_63: int := 0x8000_0000_0000_0000
  const TWO_64: int := 0x1_0000_0000_0000_0000

  /** The range of a Kotlin `Long`. */
  predicate IsInt64(n: int)
  {
    -TWO_63 <= n < TWO_63
  }

  /** The signed 32-bit value of the low 32 bits of `n`. */
  function Low32Signed(n: int): (r: int)
    ensures IsInt32(r)
  {
    var u := n % TWO_32;
    if u >= TWO_31 then u - TWO_32 else u
  }

  /**
   * `chunkIndex`: `(cx and 0xFFFFFFFF) or ((cz and 0xFFFFFFFF) shl 32)` on
   * 64-bit longs, i.e. cx in the low half and cz in the high half, read as a
   * signed Long.
   */
  function ChunkIndex(cx: int, cz: int): (r: int)
    ensures IsInt64(r)
  {
    var unsigned := cx % TWO_32 + (cz % TWO_32) * TWO_32;
    if unsigned >= TWO_63 then unsigned - TWO_64 else unsigned
  }

  /** The chunk x coordinate held in the low half of an index. */
  function ChunkX(index: int): int
  {
    Low32Signed(index)
  }

  /** The chunk z coordinate held in the high half of an index. */
  function ChunkZ(index: int): int
  {
    Low32Signed((index % TWO_64) / TWO_32)
  }

  lemma Low32SignedOfInt32(n: int, extra: int)
    requires IsInt32(n)
    ensures Low32Signed(n + extra * TWO_32) == n
  {
    if n >= 0 {
      DivModUnique(n + extra * TWO_32, TWO_32, extra, n);
    } else {
      DivModUnique(n + extra * TWO_32, TWO_32, extra - 1, n + TWO_32);
    }
  }

  /** Both chunk coordinates can be read back from the index. */
  lemma ChunkIndexRoundTrip(cx: int, cz: int)
    requires IsInt32(cx) && IsInt32(cz)
    ensures ChunkX(ChunkIndex(cx, cz)) == cx && ChunkZ(ChunkIndex(cx, cz)) == cz
  {
    var lo, hi := cx % TWO_32, cz % TWO_32;
    var unsigned := lo + hi * TWO_32;
    var index := ChunkIndex(cx, cz);
    if unsigned >= TWO_63 {
      DivModUnique(index, TWO_64, -1, unsigned);
    } else {
      DivModUnique(index, TWO_64, 0, unsigned);
    }
    DivModUnique(unsigned, TWO_32, hi, lo);
    assert cx == lo + (cx / TWO_32) * TWO_32;
    assert cz == hi + (cz / TWO_32) * TWO_32;
    Low32SignedOfInt32(cx, hi - cx / TWO_32 - (if unsigned >= TWO_63 then TWO_32 else 0));
    Low32SignedOfInt32(cz, -(cz / TWO_32));
  }

  /** Distinct chunks of 32-bit coordinates get distinct indices. */
  lemma ChunkIndexInjective(cx: int, cz: int, cx': int, cz': int)
    requires IsInt32(cx) && IsInt32(cz) && IsInt32(cx') && IsInt32(cz')
    requires ChunkIndex(cx, cz) == ChunkIndex(cx', cz')
    ensures cx == cx' && cz == cz'
  {
    ChunkIndexRoundTrip(cx, cz);
    ChunkIndexRoundTrip(cx', cz');
  }

  /** The chunk-coordinate rectangle `[minCX, maxCX] x [minCZ, maxCZ]` that the plot's square spans. */
  function ChunkRange(id: PlotId, plotSize: int, roadWidth: int): (r: (int, int, int, int))
    requires plotSize >= 1 && roadWidth >= 0
    ensures r.0 <= r.1 && r.2 <= r.3
  {
    var (minX, minZ) := WorldMin(id, plotSize, roadWidth);
    var (maxX, maxZ) := WorldMax(id, plotSize, roadWidth);
    DivMonotone(minX, maxX, 32);
    DivMonotone(minZ, maxZ, 32);
    (minX / 32, maxX / 32, minZ / 32, maxZ / 32)
  }

  /** Every column of the plot lies in a chunk of the plot's chunk rectangle. */
  lemma ChunkRangeCoversPlot(worldX: int, worldZ: int, id: PlotId, plotSize: int, roadWidth: int)
    requires plotSize >= 1 && roadWidth >= 0
    requires IsInPlot(worldX, worldZ, id, plotSize, roadWidth)
    ensures var r := ChunkRange(id, plotSize, roadWidth);
      r.0 <= worldX / 32 <= r.1 && r.2 <= worldZ / 32 <= r.3
  {
    var (minX, minZ) := WorldMin(id, plotSize, roadWidth);
    var (maxX, maxZ) := WorldMax(id, plotSize, roadWidth);
    DivMonotone(minX, worldX, 32);
    DivMonotone(worldX, maxX, 32);
    DivMonotone(minZ, worldZ, 32);
    DivMonotone(worldZ, maxZ, 32);
  }

  /** `getChunksForPlot`: the index of every chunk in the plot's chunk rectangle, and nothing else. */
  method ChunksForPlot(id: PlotId, plotSize: int, roadWidth: int) returns (chunks: set<int>)
    requires plotSize >= 1 && roadWidth >= 0
    ensures forall c :: c in chunks <==>
      var r := ChunkRange(id, plotSize, roadWidth);
      exists cx, cz :: r.0 <= cx <= r.1 && r.2 <= cz <= r.3 && c == ChunkIndex(cx, cz)
  {
    var (minX, minZ) := WorldMin(id, plotSize, roadWidth);
    var (maxX, maxZ) := WorldMax(id, plotSize, roadWidth);
    chunks := {};
    var minChunkX := minX / 32;
    var maxChunkX := maxX / 32;
    var minChunkZ := minZ / 32;
    var maxChunkZ := maxZ / 32;
    for cx := minChunkX to maxChunkX + 1
      invariant forall c :: c in chunks <==>
        exists a, b :: minChunkX <= a < cx && minChunkZ <= b <= maxChunkZ && c == ChunkIndex(a, b)
    {
      for cz := minChunkZ to maxChunkZ + 1
        invariant forall c :: c in chunks <==>
          exists a, b :: ((minChunkX <= a < cx && minChunkZ <= b <= maxChunkZ) || (a == cx && minChunkZ <= b < cz))
                         && c == ChunkIndex(a, b)
      {
        chunks := chunks + {ChunkIndex(cx, cz)};
      }
    }
  }
}
