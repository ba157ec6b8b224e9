/** The small OpenCV helpers of `math/CVHelpers.hpp`: fitting an image size
  * to a bound, component-wise clamping, checked component access and the
  * marker-corner count check.
  *
  * `FloatDiv` and `FloatMult` are not part of this model; they are taken as
  * the division and product of the two numbers as `double`, here `real`. */
module CvHelpers {
  import opened Wrappers
  import V = Validated
  import CInt

  const NUM_CORNERS: nat := 4

  datatype Size = Size(width: int, height: int)

  /** `ConstrainSize(size, maxSize)`: the shorter side (the width on a tie)
    * becomes `maxSize` and the other side is scaled by the same factor and
    * truncated. The side divided by must not be zero. */
  function ConstrainSize(size: Size, maxSize: int): (r: Size)
    requires size.width > size.height ==> size.height != 0
    requires size.width <= size.height ==> size.width != 0
  {
    if size.width > size.height then Size(ScaleSide(size.width, size.height, maxSize), maxSize)
    else Size(maxSize, ScaleSide(size.height, size.width, maxSize))
  }

  /** `static_cast<int>(side * aspect)`, truncated toward zero, with `aspect = maxSize / other`. */
  function ScaleSide(side: int, other: int, maxSize: int): int
    requires other != 0
  {
    var aspect := maxSize as real / other as real;
    CInt.RealToInt(side as real * aspect)
  }

  /** The exact length of side `side` scaled by `maxSize / other`. */
  function Scaled(side: int, other: int, maxSize: int): real
    requires other != 0
  {
    side as real * maxSize as real / other as real
  }

  /** For a positive size and bound the shorter side is the bound, the longer
    * one is within one pixel below the exactly scaled length, and the result
    * keeps the orientation. */
  lemma ConstrainSizeScales(size: Size, maxSize: int)
    requires size.width > 0 && size.height > 0 && maxSize >= 0
    ensures var r := ConstrainSize(size, maxSize);
            if size.width > size.height then
              r.height == maxSize
              && r.width as real <= Scaled(size.width, size.height, maxSize) < r.width as real + 1.0
              && r.width >= r.height
            else
              r.width == maxSize
              && r.height as real <= Scaled(size.height, size.width, maxSize) < r.height as real + 1.0
              && r.height >= r.width
  {
    var r := ConstrainSize(size, maxSize);
    if size.width > size.height {
      LongerSide(size.width, size.height, maxSize);
    } else {
      LongerSide(size.height, size.width, maxSize);
    }
  }

  /** The longer side `long` scaled by `maxSize / short` and truncated: within
    * one below the exact quotient and not below `maxSize`. */
  lemma LongerSide(long: int, short: int, maxSize: int)
    requires long >= short > 0 && maxSize >= 0
    ensures ScaleSide(long, short, maxSize) as real <= Scaled(long, short, maxSize)
              < ScaleSide(long, short, maxSize) as real + 1.0
    ensures ScaleSide(long, short, maxSize) >= maxSize
  {
    var x := long as real * (maxSize as real / short as real);
    ScaledSide(long, short, maxSize);
    assert x >= 0.0;
    TruncAtLeast(x, maxSize);
  }

  /** The longer side scaled by `maxSize / short` is the exact quotient and
    * is at least `maxSize`. */
  lemma ScaledSide(long: int, short: int, maxSize: int)
    requires long >= short > 0 && maxSize >= 0
    ensures var x := long as real * (maxSize as real / short as real);
            x == long as real * maxSize as real / short as real && x >= maxSize as real
  {
    var aspect := maxSize as real / short as real;
    assert aspect * short as real == maxSize as real;
    assert aspect >= 0.0;
    MulMonotone(short as real, long as real, aspect);
  }

  lemma MulMonotone(a: real, b: real, k: real)
    requires a <= b && k >= 0.0
    ensures a * k <= b * k
  {
  }

  lemma TruncAtLeast(x: real, m: int)
    requires x >= m as real && m >= 0
    ensures CInt.RealToInt(x) >= m
  {
  }

  /** `ConstrainSize(size, fillSize)`: bounded by the smaller side of
    * `fillSize`. */
  function ConstrainSizeToFill(size: Size, fillSize: Size): (r: Size)
    requires size.width > size.height ==> size.height != 0
    requires size.width <= size.height ==> size.width != 0
  {
    ConstrainSize(size, if fillSize.width < fillSize.height then fillSize.width else fillSize.height)
  }

  /** The fitted size's shorter side is at most either side of `fillSize`. */
  lemma ConstrainSizeToFillFits(size: Size, fillSize: Size)
    requires size.width > size.height ==> size.height != 0
    requires size.width <= size.height ==> size.width != 0
    ensures var r := ConstrainSizeToFill(size, fillSize);
            var short := if size.width > size.height then r.height else r.width;
            short <= fillSize.width && short <= fillSize.height
            && (short == fillSize.width || short == fillSize.height)
  {
  }

  /** `IndexVec`: component `index` of a vector of `|vec|` components; an
    * index out of range is the failed assertion or the unreachable branch. */
  function IndexVec<T>(vec: seq<T>, index: int): (r: Result<T>)
    ensures r.Ok? <==> 0 <= index < |vec|
    ensures r.Ok? ==> r.value == vec[index]
  {
    if 0 <= index < |vec| then Ok(vec[index]) else Err("index out of range")
  }

  /** `VecCompClamp`: each component clamped into `[min, max]`. */
  method VecCompClamp(vec: seq<real>, min: real, max: real) returns (r: seq<real>)
    requires min <= max
    ensures |r| == |vec|
    ensures forall i :: 0 <= i < |r| ==> min <= r[i] <= max
    ensures forall i :: 0 <= i < |r| ==> r[i] == V.Clamp(min, max, vec[i])
  {
    r := vec;
    for i := 0 to |r|
      invariant |r| == |vec|
      invariant forall k :: 0 <= k < i ==> r[k] == V.Clamp(min, max, vec[k])
      invariant forall k :: i <= k < |r| ==> r[k] == vec[k]
    {
      r := r[i := V.Clamp(min, max, r[i])];
    }
  }

  /** `VecCompMin`: each component capped at `val`. */
  method VecCompMin(vec: seq<real>, val: real) returns (r: seq<real>)
    ensures |r| == |vec|
    ensures forall i :: 0 <= i < |r| ==> r[i] <= val && r[i] <= vec[i] && (r[i] == val || r[i] == vec[i])
  {
    r := vec;
    for i := 0 to |r|
      invariant |r| == |vec|
      invariant forall k :: 0 <= k < i ==> r[k] <= val && r[k] <= vec[k] && (r[k] == val || r[k] == vec[k])
      invariant forall k :: i <= k < |r| ==> r[k] == vec[k]
    {
      r := r[i := if val < r[i] then val else r[i]];
    }
  }

  /** `VecCompMax`: each component raised to at least `val`. */
  method VecCompMax(vec: seq<real>, val: real) returns (r: seq<real>)
    ensures |r| == |vec|
    ensures forall i :: 0 <= i < |r| ==> r[i] >= val && r[i] >= vec[i] && (r[i] == val || r[i] == vec[i])
  {
    r := vec;
    for i := 0 to |r|
      invariant |r| == |vec|
      invariant forall k :: 0 <= k < i ==> r[k] >= val && r[k] >= vec[k] && (r[k] == val || r[k] == vec[k])
      invariant forall k :: i <= k < |r| ==> r[k] == vec[k]
    {
      r := r[i := if r[i] < val then val else r[i]];
    }
  }

  /** `CheckMarkerCorners`: anything other than four corners is an error. */
  function CheckMarkerCorners<T>(corners: seq<T>): (r: Result<()>)
    ensures r.Ok? <==> |corners| == NUM_CORNERS
  {
    if |corners| != NUM_CORNERS then Err("marker corners != 4") else Ok(())
  }
}
