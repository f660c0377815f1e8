/** The boolean-mask filters of estimate_ground_planes.py. A numpy mask
    `points[mask]` keeps exactly the rows whose mask entry is true, in their
    original order; `Filter` is that operation on sequences, and the box
    predicates below are the masks the script builds. */
module Filters {
  import opened Geometry

  function Filter(ps: seq<Point>, keep: Point -> bool): (r: seq<Point>)
    ensures |r| <= |ps|
    ensures forall p :: p in r <==> p in ps && keep(p)
  {
    if |ps| == 0 then []
    else if keep(ps[0]) then [ps[0]] + Filter(ps[1..], keep)
    else Filter(ps[1..], keep)
  }

  /** Row selection by an index array, `data[indices]`: one row per index, in
      index order, repetitions allowed. */
  function Gather(data: seq<Point>, indices: seq<nat>): (s: seq<Point>)
    requires forall j :: 0 <= j < |indices| ==> indices[j] < |data|
    ensures |s| == |indices|
    ensures forall j :: 0 <= j < |indices| ==> s[j] == data[indices[j]]
  {
    seq(|indices|, j requires 0 <= j < |indices| => data[indices[j]])
  }

  /** Order is kept: filtering distributes over concatenation. */
  lemma {:induction false} FilterConcat(a: seq<Point>, b: seq<Point>, keep: Point -> bool)
    ensures Filter(a + b, keep) == Filter(a, keep) + Filter(b, keep)
  {
    if |a| > 0 {
      assert (a + b)[1..] == a[1..] + b;
      FilterConcat(a[1..], b, keep);
    } else {
      assert a + b == b;
    }
  }

  /** Every kept point appears as often as in the input; no other point appears. */
  lemma {:induction false} FilterCounts(ps: seq<Point>, keep: Point -> bool)
    ensures forall p ::
      multiset(Filter(ps, keep))[p] == if keep(p) then multiset(ps)[p] else 0
  {
    if |ps| > 0 {
      FilterCounts(ps[1..], keep);
      assert ps == [ps[0]] + ps[1..];
      assert multiset(ps) == multiset{ps[0]} + multiset(ps[1..]);
    }
  }

  /** Two successive masks equal the one conjunctive mask. */
  lemma {:induction false} FilterFuse(ps: seq<Point>, f: Point -> bool, g: Point -> bool, h: Point -> bool)
    requires forall p :: h(p) == (f(p) && g(p))
    ensures Filter(Filter(ps, f), g) == Filter(ps, h)
  {
    if |ps| > 0 {
      FilterFuse(ps[1..], f, g, h);
    }
  }

  /** Applying a mask twice is the same as applying it once. */
  lemma {:induction false} FilterIdempotent(ps: seq<Point>, keep: Point -> bool)
    ensures Filter(Filter(ps, keep), keep) == Filter(ps, keep)
  {
    FilterFuse(ps, keep, keep, keep);
  }

  /** The RANSAC region of interest in `main`: 3 m either side, up to 3 m
      above the sensor (y points down), 2 m to 10 m ahead; all bounds strict. */
  predicate InRansacRegion(p: Point) {
    -3.0 < p.x < 3.0 && -3.0 < p.y < 0.0 && 2.0 < p.z < 10.0
  }

  /** The near region of `estimate_ground_plane`: 5 m either side, 2 m to
      30 m ahead, any height. */
  predicate InFrontRegion(p: Point) {
    -5.0 < p.x < 5.0 && 2.0 < p.z < 30.0
  }

  /** The grid masks of `loadPointsFromGrid`, in the grid file's own axes
      (x forward, y right, z up). */
  predicate InGridDepth(p: Point) {
    0.0 < p.x < 40.0
  }

  predicate InGridWidth(p: Point) {
    -15.0 < p.y < 15.0
  }

  /** The height validity mask `z > -5`, shared by both ground-point files. */
  predicate AboveFloor(p: Point) {
    p.z > -5.0
  }

  /** The first two grid masks together: the area ahead of and beside the vehicle. */
  predicate InGridArea(p: Point) {
    InGridDepth(p) && InGridWidth(p)
  }

  /** All three grid masks together. */
  predicate InGridBox(p: Point) {
    InGridArea(p) && AboveFloor(p)
  }

  function RansacRegion(ps: seq<Point>): (r: seq<Point>) {
    Filter(ps, InRansacRegion)
  }

  function FrontRegion(ps: seq<Point>): (r: seq<Point>) {
    Filter(ps, InFrontRegion)
  }

  /** The RANSAC region keeps exactly the points inside the box, each as often
      as in the input, in input order, and filtering again changes nothing. */
  lemma RansacRegionSpec(ps: seq<Point>)
    ensures |RansacRegion(ps)| <= |ps|
    ensures forall p :: p in RansacRegion(ps) <==>
      p in ps && -3.0 < p.x < 3.0 && -3.0 < p.y < 0.0 && 2.0 < p.z < 10.0
    ensures forall p ::
      multiset(RansacRegion(ps))[p] == if InRansacRegion(p) then multiset(ps)[p] else 0
    ensures forall a, b :: RansacRegion(a + b) == RansacRegion(a) + RansacRegion(b)
    ensures RansacRegion(RansacRegion(ps)) == RansacRegion(ps)
  {
    FilterCounts(ps, InRansacRegion);
    FilterIdempotent(ps, InRansacRegion);
    forall a, b ensures RansacRegion(a + b) == RansacRegion(a) + RansacRegion(b) {
      FilterConcat(a, b, InRansacRegion);
    }
  }

  /** The same for the near region of `estimate_ground_plane`. */
  lemma FrontRegionSpec(ps: seq<Point>)
    ensures forall p :: p in FrontRegion(ps) <==> p in ps && -5.0 < p.x < 5.0 && 2.0 < p.z < 30.0
    ensures forall p ::
      multiset(FrontRegion(ps))[p] == if InFrontRegion(p) then multiset(ps)[p] else 0
    ensures forall a, b :: FrontRegion(a + b) == FrontRegion(a) + FrontRegion(b)
    ensures FrontRegion(FrontRegion(ps)) == FrontRegion(ps)
  {
    FilterCounts(ps, InFrontRegion);
    FilterIdempotent(ps, InFrontRegion);
    forall a, b ensures FrontRegion(a + b) == FrontRegion(a) + FrontRegion(b) {
      FilterConcat(a, b, InFrontRegion);
    }
  }
}
