/** One tracker as the tracking loop sees it: the ids and 3D corners of its
  * markers (the ArUco board), whether it was seen last frame by the camera and
  * by the driver, and its poses. Corners are points over the reals; the single
  * precision of `cv::Point3f` is not modelled. */
module TrackerUnit {
  import opened Wrappers
  import Text
  import opened Helpers
  import TrackerRoleConfig

  /** The corners of one marker. */
  type Corners = seq<Vec3>

  /** `CreateModelMarker`: a square of side `markerSize`, centred at the origin
    * in the plane z = 0. */
  function CreateModelMarker(markerSize: real): (r: Corners)
    ensures |r| == 4
    ensures var h := markerSize / 2.0;
      forall k :: 0 <= k < 4 ==> (r[k].x == h || r[k].x == -h) && (r[k].y == h || r[k].y == -h) && r[k].z == 0.0
    ensures Add(Add(r[0], r[1]), Add(r[2], r[3])) == Zero
  {
    var h := markerSize / 2.0;
    [Vec3(-h, h, 0.0), Vec3(h, h, 0.0), Vec3(h, -h, 0.0), Vec3(-h, -h, 0.0)]
  }

  // ---------------------------------------------------------------------------
  // Sums and the centroid
  // ---------------------------------------------------------------------------

  function SumCorners(cs: Corners): Vec3
  {
    if cs == [] then Zero else Add(SumCorners(cs[..|cs| - 1]), cs[|cs| - 1])
  }

  function SumAll(ms: seq<Corners>): Vec3
  {
    if ms == [] then Zero else Add(SumAll(ms[..|ms| - 1]), SumCorners(ms[|ms| - 1]))
  }

  function CountAll(ms: seq<Corners>): nat
  {
    if ms == [] then 0 else CountAll(ms[..|ms| - 1]) + |ms[|ms| - 1]|
  }

  predicate FourCorners(ms: seq<Corners>)
  {
    forall i :: 0 <= i < |ms| ==> |ms[i]| == 4
  }

  /** The centre `RecenterCornersList` computes: the sum of all corners over
    * four corners per marker. */
  function Center(ms: seq<Corners>): Vec3
    requires ms != []
  {
    Scale(SumAll(ms), 1.0 / (4 * |ms|) as real)
  }

  function ShiftCorners(cs: Corners, c: Vec3): (r: Corners)
    ensures |r| == |cs| && forall j :: 0 <= j < |cs| ==> r[j] == Sub(cs[j], c)
  {
    seq(|cs|, j requires 0 <= j < |cs| => Sub(cs[j], c))
  }

  function Shifted(ms: seq<Corners>, c: Vec3): (r: seq<Corners>)
    ensures |r| == |ms| && forall i :: 0 <= i < |ms| ==> r[i] == ShiftCorners(ms[i], c)
  {
    seq(|ms|, i requires 0 <= i < |ms| => ShiftCorners(ms[i], c))
  }

  lemma FourCount(ms: seq<Corners>)
    requires FourCorners(ms)
    ensures CountAll(ms) == 4 * |ms|
  {
    if ms != [] {
      FourCount(ms[..|ms| - 1]);
    }
  }

  /** Two shifted sums add up to the shifted total. */
  lemma AddShifts(a: Vec3, b: Vec3, c: Vec3, p: real, q: real)
    ensures Add(Sub(a, Scale(c, p)), Sub(b, Scale(c, q))) == Sub(Add(a, b), Scale(c, p + q))
  {
    assert c.x * p + c.x * q == c.x * (p + q);
    assert c.y * p + c.y * q == c.y * (p + q);
    assert c.z * p + c.z * q == c.z * (p + q);
  }

  lemma {:induction false} ShiftCornersSum(cs: Corners, c: Vec3)
    ensures SumCorners(ShiftCorners(cs, c)) == Sub(SumCorners(cs), Scale(c, |cs| as real))
  {
    if cs != [] {
      var n := |cs| - 1;
      assert ShiftCorners(cs, c)[..n] == ShiftCorners(cs[..n], c);
      ShiftCornersSum(cs[..n], c);
      assert Scale(c, 1.0) == c;
      AddShifts(SumCorners(cs[..n]), cs[n], c, n as real, 1.0);
    }
  }

  lemma {:induction false} ShiftedSum(ms: seq<Corners>, c: Vec3)
    ensures SumAll(Shifted(ms, c)) == Sub(SumAll(ms), Scale(c, CountAll(ms) as real))
  {
    if ms != [] {
      var n := |ms| - 1;
      assert Shifted(ms, c)[..n] == Shifted(ms[..n], c);
      ShiftedSum(ms[..n], c);
      ShiftCornersSum(ms[n], c);
      AddShifts(SumAll(ms[..n]), SumCorners(ms[n]), c, CountAll(ms[..n]) as real, |ms[n]| as real);
    }
  }

  /** With four corners per marker, recentring moves the centroid of all
    * corners to the origin. */
  lemma RecenteredAtOrigin(ms: seq<Corners>)
    requires ms != [] && FourCorners(ms)
    ensures SumAll(Shifted(ms, Center(ms))) == Zero
  {
    ShiftedSum(ms, Center(ms));
    FourCount(ms);
    var n := (4 * |ms|) as real;
    var t := SumAll(ms);
    assert CountAll(ms) as real == n;
    assert Center(ms) == Scale(t, 1.0 / n);
    assert t.x * (1.0 / n) * n == t.x;
    assert t.y * (1.0 / n) * n == t.y;
    assert t.z * (1.0 / n) * n == t.z;
    assert Scale(Scale(t, 1.0 / n), n) == t;
  }

  /** Recentring keeps the shape of the list: as many markers, as many corners each. */
  lemma ShiftedKeepsShape(ms: seq<Corners>, c: Vec3)
    ensures |Shifted(ms, c)| == |ms| && forall i :: 0 <= i < |ms| ==> |Shifted(ms, c)[i]| == |ms[i]|
  {
  }

  // ---------------------------------------------------------------------------
  // The unit
  // ---------------------------------------------------------------------------

  /** `RodrPose`: a Rodrigues rotation vector and a translation. */
  datatype RodrPose = RodrPose(rvec: Vec3, tvec: Vec3)

  const NoPose := RodrPose(Zero, Zero)

  /** `MakeError("expected 4 corners, got ", n)`. */
  function CornersError(n: nat): string
  {
    "expected 4 corners, got " + Text.NatToString(n)
  }

  /** `EnsureMarkers`: equal lengths first, then every corner list in order. */
  function CheckMarkers(ids: seq<int>, cornersList: seq<Corners>): (r: Result<()>)
    ensures r.Ok? <==> |ids| == |cornersList| && FourCorners(cornersList)
  {
    if |ids| != |cornersList| then
      Err("ids size " + Text.NatToString(|ids|) + " != cornersList size" + Text.NatToString(|cornersList|))
    else CheckCorners(cornersList)
  }

  function CheckCorners(cornersList: seq<Corners>): (r: Result<()>)
    ensures r.Ok? <==> FourCorners(cornersList)
    ensures r.Err? ==> exists i :: 0 <= i < |cornersList| && r.msg == CornersError(|cornersList[i]|)
  {
    if cornersList == [] then Ok(())
    else if |cornersList[0]| != 4 then Err(CornersError(|cornersList[0]|))
    else
      var r := CheckCorners(cornersList[1..]);
      assert forall i :: 1 <= i < |cornersList| ==> cornersList[i] == cornersList[1..][i - 1];
      r
  }

  class TrackerUnit {
    var ids: seq<int>
    var markers: seq<Corners>
    var pose: RodrPose
    var maskCenter: (real, real)
    var isFound: bool
    var driverPose: RodrPose
    var isDriverFound: bool
    var role: TrackerRoleConfig.TrackerRole

    /** The board keeps one corner list per id, each of four corners. */
    predicate Valid()
      reads this
    {
      |ids| == |markers| && FourCorners(markers)
    }

    constructor()
      ensures Valid() && ids == [] && markers == []
      ensures !isFound && !isDriverFound && role == TrackerRoleConfig.Disabled
      ensures pose == NoPose && driverPose == NoPose && maskCenter == (0.0, 0.0)
    {
      ids := [];
      markers := [];
      pose := NoPose;
      maskCenter := (0.0, 0.0);
      isFound := false;
      driverPose := NoPose;
      isDriverFound := false;
      role := TrackerRoleConfig.Disabled;
    }

    /** `SetMarkers`: both lists are replaced when they are parallel and every
      * entry has four corners; otherwise nothing changes. */
    method SetMarkers(newIds: seq<int>, cornersList: seq<Corners>) returns (r: Result<()>)
      modifies this
      ensures r == CheckMarkers(newIds, cornersList)
      ensures r.Ok? ==> ids == newIds && markers == cornersList
      ensures r.Err? ==> ids == old(ids) && markers == old(markers)
      ensures old(Valid()) ==> Valid()
      ensures isFound == old(isFound) && isDriverFound == old(isDriverFound) && role == old(role)
    {
      r := CheckMarkers(newIds, cornersList);
      if r.Err? {
        return;
      }
      ids := newIds;
      markers := cornersList;
    }

    /** `AddMarker`: appends the id and its corners, which must be four. */
    method AddMarker(id: int, corners: Corners) returns (r: Result<()>)
      modifies this
      ensures r.Ok? <==> |corners| == 4
      ensures r.Err? ==> r.msg == CornersError(|corners|) && ids == old(ids) && markers == old(markers)
      ensures r.Ok? ==> ids == old(ids) + [id] && markers == old(markers) + [corners]
      ensures old(Valid()) ==> Valid()
      ensures isFound == old(isFound) && isDriverFound == old(isDriverFound) && role == old(role)
    {
      if |corners| != 4 {
        return Err(CornersError(|corners|));
      }
      ids := ids + [id];
      markers := markers + [corners];
      return Ok(());
    }

    function HasMarkerId(id: int): (r: bool)
      reads this
      ensures r <==> exists k :: 0 <= k < |ids| && ids[k] == id
    {
      id in ids
    }

    function MarkerCount(): nat
      reads this
    {
      |ids|
    }

    /** Calibrated once it has any corners. */
    function IsCalibrated(): (r: bool)
      reads this
      ensures r <==> markers != []
      ensures Valid() ==> (r <==> MarkerCount() > 0)
    {
      |markers| > 0
    }

    method SetRole(r: TrackerRoleConfig.TrackerRole)
      modifies this
      ensures role == r && ids == old(ids) && markers == old(markers)
      ensures isFound == old(isFound) && isDriverFound == old(isDriverFound)
    {
      role := r;
    }

    method SetWasVisibleLastFrame(found: bool)
      modifies this
      ensures isFound == found && isDriverFound == old(isDriverFound)
      ensures pose == old(pose) && driverPose == old(driverPose)
      ensures ids == old(ids) && markers == old(markers) && role == old(role)
    {
      isFound := found;
    }

    method SetWasVisibleToDriverLastFrame(found: bool)
      modifies this
      ensures isDriverFound == found && isFound == old(isFound)
      ensures pose == old(pose) && driverPose == old(driverPose)
      ensures ids == old(ids) && markers == old(markers) && role == old(role)
    {
      isDriverFound := found;
    }

    method SetEstimatedPose(p: RodrPose)
      modifies this
      ensures pose == p && driverPose == old(driverPose)
      ensures isFound == old(isFound) && isDriverFound == old(isDriverFound)
      ensures ids == old(ids) && markers == old(markers) && role == old(role)
    {
      pose := p;
    }

    method SetPoseFromDriver(p: RodrPose)
      modifies this
      ensures driverPose == p && pose == old(pose)
      ensures isFound == old(isFound) && isDriverFound == old(isDriverFound)
      ensures ids == old(ids) && markers == old(markers) && role == old(role)
    {
      driverPose := p;
    }

    method SetMaskCenter(center: (real, real))
      modifies this
      ensures maskCenter == center && pose == old(pose) && driverPose == old(driverPose)
      ensures isFound == old(isFound) && isDriverFound == old(isDriverFound)
      ensures ids == old(ids) && markers == old(markers) && role == old(role)
    {
      maskCenter := center;
    }

    /** `RecenterMarkers`: sums every corner, divides by four corners per marker
      * and subtracts the centre from every corner. */
    method RecenterMarkers()
      modifies this
      ensures old(markers) != [] ==> markers == Shifted(old(markers), Center(old(markers)))
      ensures old(markers) == [] ==> markers == []
      ensures ids == old(ids)
      ensures old(Valid()) ==> Valid()
      ensures isFound == old(isFound) && isDriverFound == old(isDriverFound) && role == old(role)
    {
      if markers == [] {
        return;
      }
      var ms := markers;
      var total := Zero;
      var i := 0;
      while i < |ms|
        invariant 0 <= i <= |ms|
        invariant total == SumAll(ms[..i])
      {
        var j := 0;
        var sub := Zero;
        while j < |ms[i]|
          invariant 0 <= j <= |ms[i]|
          invariant sub == SumCorners(ms[i][..j])
        {
          assert ms[i][..j + 1][..j] == ms[i][..j];
          sub := Add(sub, ms[i][j]);
          j := j + 1;
        }
        assert ms[i][..j] == ms[i];
        assert ms[..i + 1][..i] == ms[..i];
        total := Add(total, sub);
        i := i + 1;
      }
      assert ms[..i] == ms;
      var center := Scale(total, 1.0 / (4 * |ms|) as real);
      i := 0;
      while i < |ms|
        invariant 0 <= i <= |ms| == |markers|
        invariant forall k :: 0 <= k < i ==> ms[k] == ShiftCorners(markers[k], center)
        invariant forall k :: i <= k < |ms| ==> ms[k] == markers[k]
      {
        var j := 0;
        var cs := ms[i];
        while j < |cs|
          invariant 0 <= j <= |cs| == |markers[i]|
          invariant forall l :: 0 <= l < j ==> cs[l] == Sub(markers[i][l], center)
          invariant forall l :: j <= l < |cs| ==> cs[l] == markers[i][l]
        {
          cs := cs[j := Sub(cs[j], center)];
          j := j + 1;
        }
        ms := ms[i := cs];
        i := i + 1;
      }
      markers := ms;
    }
  }
}
