/**
 * A plot's grid coordinate, its textual form "x;z", and the partition of
 * world columns into road, plot border and plot interior.
 *
 * Kotlin's `Math.floorMod(c, g)` and `floor(c.toDouble() / g)` with a
 * positive divisor are Dafny's `c % g` and `c / g` (Euclidean division
 * agrees with floor division when the divisor is positive).
 */
module PlotIds {
  import opened Wrappers

  const INT_MIN: int := -0x8000_0000
  const INT_MAX: int := 0x7FFF_FFFF

  /** The range of a Kotlin `Int`. */
  predicate IsInt32(n: int)
  {
    INT_MIN <= n <= INT_MAX
  }

  /** Grid coordinates of a plot (not world coordinates). */
  datatype PlotId = PlotId(x: int, z: int)

  /** `Int.compareTo`: -1, 0 or 1. */
  function IntCompare(a: int, b: int): (r: int)
    ensures r == 0 <==> a == b
    ensures r == -1 <==> a < b
    ensures r == 1 <==> a > b
  {
    if a < b then -1 else if a == b then 0 else 1
  }

  /** The lexicographic order of plot coordinates: x first, then z. */
  predicate Less(a: PlotId, b: PlotId)
  {
    a.x < b.x || (a.x == b.x && a.z < b.z)
  }

  /** `PlotId.compareTo`. */
  function Compare(a: PlotId, b: PlotId): (r: int)
    ensures -1 <= r <= 1
    ensures r == 0 <==> a == b
    ensures r < 0 <==> Less(a, b)
    ensures r > 0 <==> Less(b, a)
  {
    var xCompare := IntCompare(a.x, b.x);
    if xCompare != 0 then xCompare else IntCompare(a.z, b.z)
  }

  lemma CompareAntisymmetric(a: PlotId, b: PlotId)
    ensures Compare(a, b) == -Compare(b, a)
  {
  }

  lemma CompareTransitive(a: PlotId, b: PlotId, c: PlotId)
    requires Compare(a, b) < 0 && Compare(b, c) < 0
    ensures Compare(a, c) < 0
  {
  }

  // ---------------------------------------------------------------------
  // Decimal text of integers: Kotlin's Int.toString and String.toIntOrNull
  // ---------------------------------------------------------------------

  predicate IsDigit(c: char)
  {
    '0' <= c <= '9'
  }

  predicate AllDigits(s: string)
  {
    forall i :: 0 <= i < |s| ==> IsDigit(s[i])
  }

  function DigitChar(d: nat): (c: char)
    requires d < 10
    ensures IsDigit(c) && c as int - '0' as int == d
  {
    ('0' as int + d) as char
  }

  function DigitValue(c: char): (d: nat)
    requires IsDigit(c)
    ensures d < 10 && DigitChar(d) == c
  {
    c as int - '0' as int
  }

  /** The shortest decimal numeral of `n` (no sign, no leading zero). */
  function NatToDigits(n: nat): (s: string)
    ensures |s| >= 1 && AllDigits(s)
    ensures |s| > 1 ==> s[0] != '0'
    decreases n
  {
    if n < 10 then [DigitChar(n)] else NatToDigits(n / 10) + [DigitChar(n % 10)]
  }

  /** The value of a string of decimal digits, most significant first. */
  function DigitsValue(s: string): nat
    requires AllDigits(s)
    decreases |s|
  {
    if s == [] then 0 else DigitsValue(s[..|s| - 1]) * 10 + DigitValue(s[|s| - 1])
  }

  lemma {:induction false} DigitsRoundTrip(n: nat)
    ensures DigitsValue(NatToDigits(n)) == n
    decreases n
  {
    if n >= 10 {
      DigitsRoundTrip(n / 10);
      var s := NatToDigits(n);
      assert s[..|s| - 1] == NatToDigits(n / 10);
    }
  }

  /** Kotlin's `Int.toString()`: a minus sign for negatives, then the digits. */
  function IntToString(n: int): (s: string)
    ensures |s| >= 1
    ensures ';' !in s
  {
    if n < 0 then "-" + NatToDigits(-n) else NatToDigits(n)
  }

  /** An optional leading '-' or '+' followed by at least one decimal digit. */
  predicate IsNumeral(s: string)
  {
    |s| >= 1 && (AllDigits(s) || ((s[0] == '-' || s[0] == '+') && |s| >= 2 && AllDigits(s[1..])))
  }

  /**
   * Kotlin's `String.toIntOrNull()` in radix 10: an optional leading '-' or
   * '+', then at least one digit; `None` when the value leaves the `Int`
   * range.
   */
  function ParseInt(s: string): (r: Option<int>)
    ensures r.Some? ==> IsInt32(r.value)
    ensures r.Some? ==> IsNumeral(s)
    ensures IsNumeral(s) && s[0] != '-' && s[0] != '+' ==>
      r == (if IsInt32(DigitsValue(s)) then Some(DigitsValue(s) as int) else None)
    ensures IsNumeral(s) && (s[0] == '-' || s[0] == '+') ==>
      var v := if s[0] == '-' then -(DigitsValue(s[1..]) as int) else DigitsValue(s[1..]) as int;
      r == (if IsInt32(v) then Some(v) else None)
  {
    if |s| == 0 then None
    else if s[0] == '-' || s[0] == '+' then
      if |s| == 1 || !AllDigits(s[1..]) then None
      else
        var v: int := if s[0] == '-' then -(DigitsValue(s[1..]) as int) else DigitsValue(s[1..]);
        if IsInt32(v) then Some(v) else None
    else if AllDigits(s) then
      var v := DigitsValue(s);
      if IsInt32(v) then Some(v) else None
    else None
  }

  lemma IntRoundTrip(n: int)
    requires IsInt32(n)
    ensures ParseInt(IntToString(n)) == Some(n)
  {
    var s := IntToString(n);
    if n < 0 {
      DigitsRoundTrip(-n);
      assert s[0] == '-' && s[1..] == NatToDigits(-n);
    } else {
      DigitsRoundTrip(n);
      assert s == NatToDigits(n) && IsDigit(s[0]);
    }
  }

  /** Kotlin's `String.split(sep)`: every piece between separators, empty ones included. */
  function Split(s: string, sep: char): (parts: seq<string>)
    ensures |parts| >= 1
    ensures forall i :: 0 <= i < |parts| ==> sep !in parts[i]
    decreases |s|
  {
    if s == [] then [[]]
    else
      var rest := Split(s[1..], sep);
      if s[0] == sep then [[]] + rest else [[s[0]] + rest[0]] + rest[1..]
  }

  /** The number of occurrences of `c` in `s`. */
  function Count(s: string, c: char): nat
    decreases |s|
  {
    if s == [] then 0 else (if s[0] == c then 1 else 0) + Count(s[1..], c)
  }

  /** Split yields one piece more than there are separators. */
  lemma {:induction false} SplitCount(s: string, sep: char)
    ensures |Split(s, sep)| == Count(s, sep) + 1
    decreases |s|
  {
    if s != [] {
      SplitCount(s[1..], sep);
    }
  }

  /** A string without the separator is a single piece. */
  lemma {:induction false} SplitNoSeparator(s: string, sep: char)
    requires sep !in s
    ensures Split(s, sep) == [s]
    decreases |s|
  {
    if s != [] {
      SplitNoSeparator(s[1..], sep);
      assert [s[0]] + s[1..] == s;
    }
  }

  /** Two separator-free strings joined by one separator split back into both. */
  lemma {:induction false} SplitJoin(a: string, b: string, sep: char)
    requires sep !in a && sep !in b
    ensures Split(a + [sep] + b, sep) == [a, b]
    decreases |a|
  {
    if a == [] {
      SplitNoSeparator(b, sep);
      assert [] + [sep] + b == [sep] + b;
      assert ([sep] + b)[1..] == b;
    } else {
      SplitJoin(a[1..], b, sep);
      assert (a + [sep] + b)[1..] == a[1..] + [sep] + b;
      assert [a[0]] + a[1..] == a;
    }
  }

  // ---------------------------------------------------------------------
  // PlotId text form
  // ---------------------------------------------------------------------

  /** `PlotId.toString()`: "x;z". */
  function ToString(id: PlotId): (s: string)
    ensures Split(s, ';') == [IntToString(id.x), IntToString(id.z)]
    ensures Count(s, ';') == 1
  {
    SplitJoin(IntToString(id.x), IntToString(id.z), ';');
    SplitCount(IntToString(id.x) + ";" + IntToString(id.z), ';');
    IntToString(id.x) + ";" + IntToString(id.z)
  }

  /** `PlotId.parse`: exactly two ';'-separated pieces, both integers. */
  function Parse(str: string): (r: Option<PlotId>)
    ensures r.Some? ==> IsInt32(r.value.x) && IsInt32(r.value.z)
    ensures r.Some? <==>
      |Split(str, ';')| == 2 && ParseInt(Split(str, ';')[0]).Some? && ParseInt(Split(str, ';')[1]).Some?
    ensures r.Some? ==>
      ParseInt(Split(str, ';')[0]) == Some(r.value.x) && ParseInt(Split(str, ';')[1]) == Some(r.value.z)
  {
    var parts := Split(str, ';');
    if |parts| != 2 then None
    else
      match (ParseInt(parts[0]), ParseInt(parts[1]))
      case (Some(x), Some(z)) => Some(PlotId(x, z))
      case _ => None
  }

  /** Parse is the left inverse of ToString on coordinates that fit an `Int`. */
  lemma ParseToString(id: PlotId)
    requires IsInt32(id.x) && IsInt32(id.z)
    ensures Parse(ToString(id)) == Some(id)
  {
    SplitJoin(IntToString(id.x), IntToString(id.z), ';');
    IntRoundTrip(id.x);
    IntRoundTrip(id.z);
  }

  /** Whatever Parse accepts holds exactly one separator. */
  lemma ParseNeedsOneSeparator(str: string)
    requires Parse(str).Some?
    ensures Count(str, ';') == 1
  {
    SplitCount(str, ';');
  }

  // ---------------------------------------------------------------------
  // World column partition
  // ---------------------------------------------------------------------

  /** `isOnRoad`: the road is the first `roadWidth` columns of every grid cell, on either axis. */
  predicate IsOnRoad(worldX: int, worldZ: int, plotSize: int, roadWidth: int)
    requires plotSize >= 1 && roadWidth >= 0
    ensures roadWidth == 0 ==> !IsOnRoad(worldX, worldZ, plotSize, roadWidth)
  {
    var gridSize := plotSize + roadWidth;
    var localX := worldX % gridSize;
    var localZ := worldZ % gridSize;
    localX < roadWidth || localZ < roadWidth
  }

  /**
   * `fromWorldCoords`: the plot whose cell holds the column, or `None` on a
   * road. A returned plot's interior span on each axis holds the column.
   */
  function FromWorldCoords(worldX: int, worldZ: int, plotSize: int, roadWidth: int): (r: Option<PlotId>)
    requires plotSize >= 1 && roadWidth >= 0
    ensures r.None? <==> IsOnRoad(worldX, worldZ, plotSize, roadWidth)
    ensures r.Some? ==>
      var gridSize := plotSize + roadWidth;
      && r.value.x * gridSize + roadWidth <= worldX < r.value.x * gridSize + gridSize
      && r.value.z * gridSize + roadWidth <= worldZ < r.value.z * gridSize + gridSize
  {
    var gridSize := plotSize + roadWidth;
    var cellX := worldX / gridSize;
    var cellZ := worldZ / gridSize;
    var localX := worldX % gridSize;
    var localZ := worldZ % gridSize;
    if localX < roadWidth || localZ < roadWidth then None
    else
      assert worldX == cellX * gridSize + localX;
      assert worldZ == cellZ * gridSize + localZ;
      Some(PlotId(cellX, cellZ))
  }

  /** `isOnBorder`: off the road, and on the first or last plot-local row or column. */
  predicate IsOnBorder(worldX: int, worldZ: int, plotSize: int, roadWidth: int)
    requires plotSize >= 1 && roadWidth >= 0
    ensures IsOnBorder(worldX, worldZ, plotSize, roadWidth) ==> !IsOnRoad(worldX, worldZ, plotSize, roadWidth)
  {
    var gridSize := plotSize + roadWidth;
    var localX := worldX % gridSize;
    var localZ := worldZ % gridSize;
    if localX < roadWidth || localZ < roadWidth then false
    else
      var plotLocalX := localX - roadWidth;
      var plotLocalZ := localZ - roadWidth;
      plotLocalX == 0 || plotLocalX == plotSize - 1 ||
      plotLocalZ == 0 || plotLocalZ == plotSize - 1
  }

  /** Off the road, plot-local offsets lie in [0, plotSize). */
  lemma PlotLocalInRange(worldX: int, worldZ: int, plotSize: int, roadWidth: int)
    requires plotSize >= 1 && roadWidth >= 0
    requires !IsOnRoad(worldX, worldZ, plotSize, roadWidth)
    ensures 0 <= worldX % (plotSize + roadWidth) - roadWidth < plotSize
    ensures 0 <= worldZ % (plotSize + roadWidth) - roadWidth < plotSize
  {
  }
}
