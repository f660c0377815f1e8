/** `estimate_ground_plane`: keep the points near the front of the car,
    subsample them, split them into three 10 m depth bins, and keep from each
    bin the points between the 90th and 98th percentile of y before fitting.
    `np.random.randint` is an oracle (`picks`); `estimate_plane_coeffs`, which
    the script calls but does not define, is the parameter `fitPlane`. */
module BinnedFit {
  import opened Wrappers
  import opened Geometry
  import opened Filters

  const SubsampleNear: nat := 2048
  const BinCount: nat := 3

  datatype BinnedError =
    | NoPointsNear   // ValueError('No Lidar points in this frame')

  /** Bin k holds the points with k*10 < z < (k+1)*10, both bounds strict. */
  predicate InBin(k: nat, p: Point) {
    (k as real) * 10.0 < p.z < ((k + 1) as real) * 10.0
  }

  function Bin(ps: seq<Point>, k: nat): (r: seq<Point>) {
    Filter(ps, p => InBin(k, p))
  }

  /** The three bins miss exactly the depths 10 and 20 inside (0, 30), and no
      point lies in two bins. */
  lemma BinsAreStrict(p: Point)
    ensures (exists k :: 0 <= k < BinCount && InBin(k, p)) <==>
      0.0 < p.z < 30.0 && p.z != 10.0 && p.z != 20.0
    ensures forall j, k :: 0 <= j < k && InBin(j, p) ==> !InBin(k, p)
  {
    if 0.0 < p.z < 10.0 {
      assert InBin(0, p);
    } else if 10.0 < p.z < 20.0 {
      assert InBin(1, p);
    } else if 20.0 < p.z < 30.0 {
      assert InBin(2, p);
    }
    forall j: nat, k: nat | j < k && InBin(j, p) ensures !InBin(k, p) {
      assert (j + 1) as real <= k as real;
    }
  }

  predicate SortedByY(s: seq<Point>) {
    forall i, j :: 0 <= i < j < |s| ==> s[i].y <= s[j].y
  }

  /** Insertion of p into a list sorted by y. */
  function InsertByY(p: Point, s: seq<Point>): (r: seq<Point>)
    ensures |r| == |s| + 1
  {
    if |s| == 0 then [p]
    else if p.y <= s[0].y then [p] + s
    else [s[0]] + InsertByY(p, s[1..])
  }

  lemma SortedCons(x: Point, t: seq<Point>)
    requires SortedByY(t)
    requires forall q :: q in t ==> x.y <= q.y
    ensures SortedByY([x] + t)
  {
    forall i, j | 0 <= i < j < |[x] + t| ensures ([x] + t)[i].y <= ([x] + t)[j].y {
      assert ([x] + t)[j] == t[j - 1] && t[j - 1] in t;
      if i > 0 {
        assert ([x] + t)[i] == t[i - 1];
      }
    }
  }

  /** Insertion adds exactly p. */
  lemma {:induction false} InsertByYCount(p: Point, s: seq<Point>)
    ensures multiset(InsertByY(p, s)) == multiset(s) + multiset{p}
    ensures forall q :: q in InsertByY(p, s) <==> q == p || q in s
  {
    if |s| > 0 {
      assert s == [s[0]] + s[1..];
      if p.y > s[0].y {
        InsertByYCount(p, s[1..]);
      }
    }
  }

  /** Insertion keeps the list sorted. */
  lemma {:induction false} InsertByYSorted(p: Point, s: seq<Point>)
    requires SortedByY(s)
    ensures SortedByY(InsertByY(p, s))
  {
    if |s| > 0 {
      forall q | q in s[1..] ensures s[0].y <= q.y {
        var j :| 0 <= j < |s[1..]| && s[1..][j] == q;
        assert s[j + 1] == q;
      }
      if p.y <= s[0].y {
        assert s == [s[0]] + s[1..];
        SortedCons(p, s);
      } else {
        InsertByYSorted(p, s[1..]);
        InsertByYCount(p, s[1..]);
        SortedCons(s[0], InsertByY(p, s[1..]));
      }
    }
  }

  /** The order `np.argsort(points_in_bin[:, 1])` puts a bin in: ascending y. */
  function SortByY(ps: seq<Point>): (r: seq<Point>)
    ensures |r| == |ps|
    ensures multiset(r) == multiset(ps)
  {
    if |ps| == 0 then []
    else
      InsertByYCount(ps[0], SortByY(ps[1..]));
      assert ps == [ps[0]] + ps[1..];
      InsertByY(ps[0], SortByY(ps[1..]))
  }

  /** Sorting by y gives a sorted permutation of the bin. */
  lemma {:induction false} SortByYSpec(ps: seq<Point>)
    ensures SortedByY(SortByY(ps))
    ensures multiset(SortByY(ps)) == multiset(ps)
  {
    if |ps| > 0 {
      SortByYSpec(ps[1..]);
      InsertByYSorted(ps[0], SortByY(ps[1..]));
      InsertByYCount(ps[0], SortByY(ps[1..]));
      assert ps == [ps[0]] + ps[1..];
    }
  }

  lemma SliceMultiset(s: seq<Point>, lo: nat, hi: nat)
    requires lo <= hi <= |s|
    ensures multiset(s[lo..hi]) <= multiset(s)
  {
    assert s == s[..lo] + s[lo..hi] + s[hi..];
  }

  /** The crop window [int(0.90 n), int(0.98 n)). */
  function CropStart(n: nat): (lo: nat) { n * 9 / 10 }
  function CropEnd(n: nat): (hi: nat) { n * 49 / 50 }

  lemma CropWindowInRange(n: nat)
    ensures CropStart(n) <= CropEnd(n) <= n
  {
  }

  /** The points of one bin kept for the fit. */
  function Crop(bin: seq<Point>): (r: seq<Point>)
    ensures |r| == CropEnd(|bin|) - CropStart(|bin|)
    ensures multiset(r) <= multiset(bin)
  {
    CropWindowInRange(|bin|);
    SliceMultiset(SortByY(bin), CropStart(|bin|), CropEnd(|bin|));
    SortByY(bin)[CropStart(|bin|)..CropEnd(|bin|)]
  }

  /** The cropped points of a bin are points of that bin; there are
      int(0.98 n) - int(0.90 n) of them; each has a y no smaller than that of
      the int(0.90 n) bin points ranked below the window and no larger than
      that of the n - int(0.98 n) points ranked above it. */
  lemma CropSpec(bin: seq<Point>)
    ensures |Crop(bin)| == CropEnd(|bin|) - CropStart(|bin|)
    ensures multiset(Crop(bin)) <= multiset(bin)
    ensures forall i, j :: 0 <= i < CropStart(|bin|) && 0 <= j < |Crop(bin)| ==>
      SortByY(bin)[i].y <= Crop(bin)[j].y
    ensures forall i, j :: CropEnd(|bin|) <= i < |bin| && 0 <= j < |Crop(bin)| ==>
      Crop(bin)[j].y <= SortByY(bin)[i].y
  {
    SortByYSpec(bin);
    CropWindowInRange(|bin|);
    SliceMultiset(SortByY(bin), CropStart(|bin|), CropEnd(|bin|));
    WindowOrdered(SortByY(bin), CropStart(|bin|), CropEnd(|bin|));
  }

  lemma WindowOrdered(s: seq<Point>, lo: nat, hi: nat)
    requires SortedByY(s) && lo <= hi <= |s|
    ensures forall i, j :: 0 <= i < lo && 0 <= j < hi - lo ==> s[i].y <= s[lo..hi][j].y
    ensures forall i, j :: hi <= i < |s| && 0 <= j < hi - lo ==> s[lo..hi][j].y <= s[i].y
  {
    forall i, j | 0 <= i < lo && 0 <= j < hi - lo ensures s[i].y <= s[lo..hi][j].y {
      assert s[lo..hi][j] == s[lo + j];
    }
    forall i, j | hi <= i < |s| && 0 <= j < hi - lo ensures s[lo..hi][j].y <= s[i].y {
      assert s[lo..hi][j] == s[lo + j];
    }
  }

  /** The cropped points of bins 0 .. k-1, in bin order. */
  function CroppedBins(sub: seq<Point>, k: nat): (r: seq<Point>)
    decreases k
  {
    if k == 0 then [] else CroppedBins(sub, k - 1) + Crop(Bin(sub, k - 1))
  }

  /** The cropped points of bin k are subsampled points in bin k. */
  lemma CropOfBin(sub: seq<Point>, k: nat)
    ensures forall q :: q in Crop(Bin(sub, k)) ==> q in sub && InBin(k, q)
  {
    var bin := Bin(sub, k);
    forall q | q in Crop(bin) ensures q in sub && InBin(k, q) {
      assert q in multiset(Crop(bin));
      assert q in multiset(bin);
      assert q in bin;
    }
  }

  /** Every point kept for the fit is a subsampled point lying in one of the
      three bins, so it is near the front with 0 < z < 30, z not 10 or 20. */
  lemma {:induction false} CroppedBinsSpec(sub: seq<Point>, k: nat)
    ensures forall q :: q in CroppedBins(sub, k) ==>
      q in sub && exists b :: 0 <= b < k && InBin(b, q)
  {
    if k > 0 {
      CroppedBinsSpec(sub, k - 1);
      CropOfBin(sub, k - 1);
      forall q | q in CroppedBins(sub, k) ensures q in sub && exists b :: 0 <= b < k && InBin(b, q) {
        if q in CroppedBins(sub, k - 1) {
          var b :| 0 <= b < k - 1 && InBin(b, q);
          assert 0 <= b < k && InBin(b, q);
        } else {
          assert q in Crop(Bin(sub, k - 1));
          assert InBin(k - 1, q);
        }
      }
    }
  }

  /** The points estimate_ground_plane fits, or its error: an empty near
      region raises (the guard on `len(point_cloud)` of a 3 x N array never
      fires). */
  method EstimateGroundPlane(cloud: seq<Point>, picks: seq<nat>, fitPlane: seq<Point> -> Plane)
    returns (r: Result<Plane, BinnedError>)
    requires |picks| == SubsampleNear
    requires forall j :: 0 <= j < |picks| ==> |FrontRegion(cloud)| == 0 || picks[j] < |FrontRegion(cloud)|
    ensures |FrontRegion(cloud)| == 0 ==> r == Err(NoPointsNear)
    ensures |FrontRegion(cloud)| > 0 ==>
      r == Ok(fitPlane(CroppedBins(Gather(FrontRegion(cloud), picks), BinCount)))
  {
    var near := FrontRegion(cloud);
    if |near| == 0 {
      return Err(NoPointsNear);
    }
    var sub := Gather(near, picks);
    // all_points_in_bins: collected as the script does, but never read
    var binned: seq<Point> := [];
    var cropped: seq<Point> := [];
    for k := 0 to BinCount
      invariant cropped == CroppedBins(sub, k)
    {
      var inBin := Bin(sub, k);
      binned := binned + inBin;
      var n := |inBin|;
      CropWindowInRange(n);
      var sorted := SortByY(inBin);
      cropped := cropped + sorted[CropStart(n)..CropEnd(n)];
    }
    r := Ok(fitPlane(cropped));
  }
}
