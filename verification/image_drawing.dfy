/** `ImageDrawing.cpp`: the grid of lines `drawCalibration` projects in front
  * of the camera, and the check it makes before sampling the calibration's
  * standard deviations. Projection, random sampling and drawing are OpenCV
  * and are not part of this model; `float` is `real`. */
module ImageDrawing {
  import opened Helpers
  import opened Wrappers

  /** The point `j` of a line split into `sub` segments per unit, starting at
    * `-size / 2`. */
  function Along(j: int, sub: nat, size: nat): real
    requires sub > 0
  {
    j as real / sub as real - size as real * 0.5
  }

  /** The offset of line `i` of a family of `size + 1` lines. */
  function Offset(i: int, size: nat): real
  {
    i as real - size as real * 0.5
  }

  /** Vertical line `i`: constant `x`, `y` running over the grid's height. */
  function VerticalPoint(i: int, j: int, sizeX: nat, sizeY: nat, sub: nat, z: real): Vec3
    requires sub > 0
  {
    Vec3(Offset(i, sizeX), Along(j, sub, sizeY), z)
  }

  /** Horizontal line `i`: constant `y`, `x` running over the grid's width. */
  function HorizontalPoint(i: int, j: int, sizeX: nat, sizeY: nat, sub: nat, z: real): Vec3
    requires sub > 0
  {
    Vec3(Along(j, sub, sizeX), Offset(i, sizeY), z)
  }

  /** Vertical line `i`: `gridSizeY * sub + 1` points. */
  predicate IsVertical(line: seq<Vec3>, i: int, sizeX: nat, sizeY: nat, sub: nat, z: real)
    requires sub > 0
  {
    |line| == sizeY * sub + 1 && forall j :: 0 <= j < |line| ==> line[j] == VerticalPoint(i, j, sizeX, sizeY, sub, z)
  }

  /** Horizontal line `i`: `gridSizeX * sub + 1` points. */
  predicate IsHorizontal(line: seq<Vec3>, i: int, sizeX: nat, sizeY: nat, sub: nat, z: real)
    requires sub > 0
  {
    |line| == sizeX * sub + 1 && forall j :: 0 <= j < |line| ==> line[j] == HorizontalPoint(i, j, sizeX, sizeY, sub, z)
  }

  /** The `gridSizeX + gridSizeY + 2` lines of the grid: the `gridSizeX + 1`
    * vertical ones first, then the `gridSizeY + 1` horizontal ones. */
  predicate IsGrid(lines: seq<seq<Vec3>>, sizeX: nat, sizeY: nat, sub: nat, z: real)
    requires sub > 0
  {
    && |lines| == sizeX + sizeY + 2
    && (forall i :: 0 <= i <= sizeX ==> IsVertical(lines[i], i, sizeX, sizeY, sub, z))
    && (forall i :: sizeX < i < |lines| ==> IsHorizontal(lines[i], i - (sizeX + 1), sizeX, sizeY, sub, z))
  }

  /** One line of `count` points, `point(j)` for `j` from zero. */
  method Line(count: nat, point: int -> Vec3) returns (line: seq<Vec3>)
    ensures |line| == count && forall j :: 0 <= j < count ==> line[j] == point(j)
  {
    line := [];
    for j := 0 to count
      invariant |line| == j && forall k :: 0 <= k < j ==> line[k] == point(k)
    {
      line := line + [point(j)];
    }
  }

  /** `createXyGridLines`. The grid sizes come from rounding a positive
    * quantity, and the only caller passes ten subdivisions. */
  method CreateXyGridLines(gridSizeX: nat, gridSizeY: nat, gridSubdivision: nat, z: real)
    returns (gridLines: seq<seq<Vec3>>)
    requires gridSubdivision > 0
    ensures IsGrid(gridLines, gridSizeX, gridSizeY, gridSubdivision, z)
  {
    var sub := gridSubdivision;
    var lines := new seq<Vec3>[gridSizeX + gridSizeY + 2](_ => []);
    for i := 0 to gridSizeX + 1
      invariant forall k :: 0 <= k < i ==> IsVertical(lines[k], k, gridSizeX, gridSizeY, sub, z)
    {
      lines[i] := Line(gridSizeY * sub + 1, j => VerticalPoint(i, j, gridSizeX, gridSizeY, sub, z));
    }
    for i := 0 to gridSizeY + 1
      invariant forall k :: 0 <= k <= gridSizeX ==> IsVertical(lines[k], k, gridSizeX, gridSizeY, sub, z)
      invariant forall k :: gridSizeX < k < gridSizeX + 1 + i ==>
                  IsHorizontal(lines[k], k - (gridSizeX + 1), gridSizeX, gridSizeY, sub, z)
    {
      lines[gridSizeX + 1 + i] := Line(gridSizeX * sub + 1, j => HorizontalPoint(i, j, gridSizeX, gridSizeY, sub, z));
    }
    gridLines := lines[..];
  }

  /** Each family of lines spans from `-size / 2` to `size / 2`, in steps of
    * `1 / sub`. */
  lemma AlongSpan(sub: nat, size: nat, j: int)
    requires sub > 0
    ensures Along(0, sub, size) == -(size as real * 0.5)
    ensures Along(size * sub, sub, size) == size as real * 0.5
    ensures Along(j + 1, sub, size) - Along(j, sub, size) == 1.0 / sub as real
  {
    assert (size * sub) as real == size as real * sub as real;
    assert (j + 1) as real / sub as real == j as real / sub as real + 1.0 / sub as real;
  }

  /** The grid is centred: line `i` and line `size - i` of a family are
    * mirror images. */
  lemma OffsetMirror(i: int, size: nat)
    ensures Offset(size - i, size) == -Offset(i, size)
  {
  }

  /** Every point of the grid lies in the plane at depth `z`. */
  lemma GridDepth(lines: seq<seq<Vec3>>, sizeX: nat, sizeY: nat, sub: nat, z: real)
    requires sub > 0 && IsGrid(lines, sizeX, sizeY, sub, z)
    ensures forall i, j :: 0 <= i < |lines| && 0 <= j < |lines[i]| ==> lines[i][j].z == z
  {
    forall i, j | 0 <= i < |lines| && 0 <= j < |lines[i]|
      ensures lines[i][j].z == z
    {
      if i <= sizeX {
        assert IsVertical(lines[i], i, sizeX, sizeY, sub, z);
      } else {
        assert IsHorizontal(lines[i], i - (sizeX + 1), sizeX, sizeY, sub, z);
      }
    }
  }

  // ---------------------------------------------------------------------------
  // drawCalibration
  // ---------------------------------------------------------------------------

  /** The indices of `stdDeviationsIntrinsics` the sampling reads: four for the
    * camera matrix, then one per distortion coefficient. */
  function SampledIndices(distCount: nat): (r: seq<nat>)
    ensures |r| == distCount + 4
    ensures forall k :: 0 <= k < |r| ==> r[k] == k
  {
    if distCount == 0 then [0, 1, 2, 3] else SampledIndices(distCount - 1) + [distCount + 3]
  }

  /** The check in `drawCalibration`: with deviations present, there must be
    * at least four more of them than distortion coefficients; the result is
    * the indices the sampling then reads, none with no deviations. */
  function CalibrationSamples(distCount: nat, stdCount: nat): (r: Result<seq<nat>>)
    ensures r.Err? <==> stdCount > 0 && distCount + 4 > stdCount
    ensures r.Ok? ==> forall k :: 0 <= k < |r.value| ==> r.value[k] < stdCount
  {
    if stdCount == 0 then Ok([])
    else if distCount + 4 <= stdCount then Ok(SampledIndices(distCount))
    else Err("assertion failed: distCoeffs + 4 <= stdDeviationsIntrinsics")
  }
}
