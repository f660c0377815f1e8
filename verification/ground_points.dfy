/** `loadGroundPointsFromFile` and `loadPointsFromGrid`. The two text files
    arrive already parsed, as their first three columns (x forward, y right,
    z up). Both loaders return rows in the order (y, -z, x). */
module GroundPoints {
  import opened Geometry
  import opened Filters

  /** The axis relabelling (x, y, z) -> (y, -z, x); it loses nothing. */
  function ToCameraAxes(p: Point): (q: Point)
    ensures FromCameraAxes(q) == p
  {
    Point(p.y, -p.z, p.x)
  }

  function FromCameraAxes(q: Point): (p: Point) {
    Point(q.z, q.x, -q.y)
  }

  /** `np.vstack((y, -z, x)).T` over whole columns. */
  function Relabel(ps: seq<Point>): (r: seq<Point>)
    ensures |r| == |ps|
    ensures forall i :: 0 <= i < |ps| ==> r[i] == ToCameraAxes(ps[i])
  {
    seq(|ps|, i requires 0 <= i < |ps| => ToCameraAxes(ps[i]))
  }

  /** A relabelled row comes from exactly one input row. */
  lemma RelabelMembership(ps: seq<Point>)
    ensures forall q :: q in Relabel(ps) <==> FromCameraAxes(q) in ps
  {
    forall q | FromCameraAxes(q) in ps ensures q in Relabel(ps) {
      var i :| 0 <= i < |ps| && ps[i] == FromCameraAxes(q);
      assert Relabel(ps)[i] == q;
    }
  }

  /** Relabelling commutes with concatenation, so row order is kept. */
  lemma {:induction false} RelabelConcat(a: seq<Point>, b: seq<Point>)
    ensures Relabel(a + b) == Relabel(a) + Relabel(b)
  {
    assert |Relabel(a + b)| == |Relabel(a) + Relabel(b)|;
    forall i | 0 <= i < |a + b| ensures Relabel(a + b)[i] == (Relabel(a) + Relabel(b))[i] {
      if i < |a| {
        assert (a + b)[i] == a[i];
      } else {
        assert (a + b)[i] == b[i - |a|];
      }
    }
  }

  /** The trusted points that pass the `z > -5` validity mask. */
  function ValidTrusted(trusted: seq<Point>): (r: seq<Point>) {
    Filter(trusted, AboveFloor)
  }

  /** `use_extra_points`: at most 4 trusted points are valid. */
  predicate NeedsGrid(trusted: seq<Point>) {
    |ValidTrusted(trusted)| <= 4
  }

  /** loadPointsFromGrid: three successive masks, then the relabelling. */
  function LoadPointsFromGrid(grid: seq<Point>): (r: seq<Point>)
    ensures |r| <= |grid|
    ensures forall q :: q in r ==> -15.0 < q.x < 15.0 && q.y < 5.0 && 0.0 < q.z < 40.0
  {
    var inDepth := Filter(grid, InGridDepth);
    var inArea := Filter(inDepth, InGridWidth);
    var valid := Filter(inArea, AboveFloor);
    RelabelMembership(valid);
    Relabel(valid)
  }

  /** The three masks are one conjunctive box filter 0 < x < 40, -15 < y < 15,
      z > -5, in input order; every output row (y, -z, x) therefore has its
      first component in (-15, 15), its second below 5 and its third in (0, 40). */
  lemma GridPointsInBox(grid: seq<Point>)
    ensures LoadPointsFromGrid(grid) == Relabel(Filter(grid, InGridBox))
    ensures forall q :: q in LoadPointsFromGrid(grid) <==>
      FromCameraAxes(q) in grid && InGridBox(FromCameraAxes(q))
    ensures forall q :: q in LoadPointsFromGrid(grid) ==>
      -15.0 < q.x < 15.0 && q.y < 5.0 && 0.0 < q.z < 40.0
  {
    FilterFuse(grid, InGridDepth, InGridWidth, InGridArea);
    FilterFuse(grid, InGridArea, AboveFloor, InGridBox);
    RelabelMembership(Filter(grid, InGridBox));
  }

  /** loadGroundPointsFromFile: the valid trusted points, relabelled, followed
      by the grid points when at most 4 trusted points are valid. */
  function LoadGroundPointsFromFile(trusted: seq<Point>, grid: seq<Point>): (r: seq<Point>)
    ensures |r| == |ValidTrusted(trusted)| + (if NeedsGrid(trusted) then |LoadPointsFromGrid(grid)| else 0)
    ensures !NeedsGrid(trusted) ==> |r| >= 5
  {
    var valid := ValidTrusted(trusted);
    var own := Relabel(valid);
    if NeedsGrid(trusted) then own + LoadPointsFromGrid(grid) else own
  }

  /** The loaded rows start with every valid trusted point, relabelled and in
      order; grid rows follow exactly when augmentation is triggered, so the
      length is the valid count plus the grid count; every row passed a height
      mask, so its second component is below 5; without augmentation the grid
      file makes no difference. */
  lemma GroundPointsSpec(trusted: seq<Point>, grid: seq<Point>)
    ensures var r := LoadGroundPointsFromFile(trusted, grid);
      && |r| == |ValidTrusted(trusted)| + (if NeedsGrid(trusted) then |LoadPointsFromGrid(grid)| else 0)
      && r[..|ValidTrusted(trusted)|] == Relabel(ValidTrusted(trusted))
      && r[|ValidTrusted(trusted)|..] == (if NeedsGrid(trusted) then LoadPointsFromGrid(grid) else [])
      && forall q :: q in r ==> q.y < 5.0
    ensures !NeedsGrid(trusted) ==>
      forall other :: LoadGroundPointsFromFile(trusted, other) == Relabel(ValidTrusted(trusted))
  {
    var valid := ValidTrusted(trusted);
    var r := LoadGroundPointsFromFile(trusted, grid);
    RelabelMembership(valid);
    GridPointsInBox(grid);
    forall q | q in r ensures q.y < 5.0 {
      if q in Relabel(valid) {
        assert FromCameraAxes(q) in valid;
      } else {
        assert q in LoadPointsFromGrid(grid);
      }
    }
  }

  /** With five or more valid trusted points exactly those points come back
      (relabelled); with fewer, the grid points in the box are appended. */
  lemma GroundPointsAugmentation(trusted: seq<Point>, grid: seq<Point>)
    ensures |ValidTrusted(trusted)| >= 5 ==>
      LoadGroundPointsFromFile(trusted, grid) == Relabel(ValidTrusted(trusted))
    ensures |ValidTrusted(trusted)| <= 4 ==>
      LoadGroundPointsFromFile(trusted, grid) == Relabel(ValidTrusted(trusted)) + Relabel(Filter(grid, InGridBox))
    ensures |ValidTrusted(trusted)| <= 4 ==>
      LoadGroundPointsFromFile(trusted, grid) == Relabel(ValidTrusted(trusted) + Filter(grid, InGridBox))
  {
    GridPointsInBox(grid);
    RelabelConcat(ValidTrusted(trusted), Filter(grid, InGridBox));
  }
}
