/** The per-frame logic of `main`: choose between the ground-point fit and
    the RANSAC fallback, compute the plane, and go through the frames in turn.
    File names, directories, the output text and the progress output are not
    modelled; each frame arrives as its decoded lidar points, its parsed
    ground-point and grid files, and the RANSAC sampling oracle. */
module Pipeline {
  import opened Wrappers
  import opened Geometry
  import opened Filters
  import opened Ransac
  import opened GroundPoints

  /** The module-level `plane_method` switch. */
  datatype PlaneMethod = UseGroundPoints | UseRansac

  const MinGroundPoints: nat := 4
  const SampleSize: nat := 3
  const InlierThreshold: real := 0.2
  const MaxIterations: nat := 100

  /** The frame change applied to the lidar points: (x, y, z) -> (-y, -z, x). */
  function LidarToCamera(p: Point): (q: Point)
    ensures Point(q.z, -q.x, -q.y) == p
  {
    Point(-p.y, -p.z, p.x)
  }

  function CameraCloud(lidar: seq<Point>): (cloud: seq<Point>)
    ensures |cloud| == |lidar|
    ensures forall i :: 0 <= i < |lidar| ==> cloud[i] == LidarToCamera(lidar[i])
  {
    seq(|lidar|, i requires 0 <= i < |lidar| => LidarToCamera(lidar[i]))
  }

  /** `lambda x, y: is_inlier(x, y, 0.2)`. */
  predicate WithinThreshold(m: Plane, p: Point) {
    IsInlier(m, p, InlierThreshold)
  }

  /** One input file with what the pipeline reads for it. */
  datatype Frame = Frame(lidar: seq<Point>, trusted: seq<Point>, grid: seq<Point>, draws: seq<seq<nat>>)

  datatype Strategy =
    | FitGroundPoints(points: seq<Point>)
    | FallBackToRansac(near: seq<Point>, goal: real)

  datatype FrameError =
    | RansacFailed(reason: RansacError)   // an exception out of run_ransac
    | NoModelFound                        // `a, b, c, d = m` with m None

  function NearPoints(f: Frame): (near: seq<Point>) {
    RansacRegion(CameraCloud(f.lidar))
  }

  /** Strategy selection: the ground points when the loader returns at least
      4 rows in ground-point mode, otherwise RANSAC on the near region with
      goal n * 0.5. */
  function SelectStrategy(mode: PlaneMethod, f: Frame): (s: Strategy)
    ensures s.FitGroundPoints? <==>
      mode == UseGroundPoints && |LoadGroundPointsFromFile(f.trusted, f.grid)| >= MinGroundPoints
    ensures s.FitGroundPoints? ==> s.points == LoadGroundPointsFromFile(f.trusted, f.grid)
    ensures s.FallBackToRansac? ==>
      && (forall p :: p in s.near ==> InRansacRegion(p) && p in CameraCloud(f.lidar))
      && 2.0 * s.goal == |s.near| as real
    ensures s.FallBackToRansac? ==> s.near == NearPoints(f)
  {
    var loaded := if mode == UseGroundPoints then LoadGroundPointsFromFile(f.trusted, f.grid) else [];
    if mode == UseGroundPoints && |loaded| >= MinGroundPoints then FitGroundPoints(loaded)
    else
      var near := NearPoints(f);
      FallBackToRansac(near, |near| as real * 0.5)
  }

  /** The oracle holds a sample of 3 near-region indices for each of the 100
      iterations whenever the near region has at least 3 points. */
  predicate FrameDrawsValid(f: Frame) {
    SampleSize <= |NearPoints(f)| ==>
      && MaxIterations <= |f.draws|
      && forall t :: 0 <= t < MaxIterations ==> IsSample(f.draws[t], |NearPoints(f)|, SampleSize)
  }

  /** The run_ransac call of the fallback. */
  function FallbackProblem(f: Frame, estimate: seq<Point> -> Plane): (pr: Problem)
    ensures FrameDrawsValid(f) ==> WellDrawn(pr)
  {
    var near := NearPoints(f);
    Problem(near, WithinThreshold, SampleSize, |near| as real * 0.5, MaxIterations, true, estimate, f.draws)
  }

  /** What the RANSAC fallback yields for a frame: the best model, or the
      exception that ends the run. */
  function FallbackOutcome(f: Frame, estimate: seq<Point> -> Plane): (r: Result<Plane, FrameError>)
    requires FrameDrawsValid(f)
  {
    match Outcome(FallbackProblem(f, estimate))
    case Err(e) => Err(RansacFailed(e))
    case Ok(best) => if best.model.Some? then Ok(best.model.value) else Err(NoModelFound)
  }

  /** The plane written for a frame, or the exception that ends the run. */
  function FrameOutcome(mode: PlaneMethod, f: Frame, estimate: seq<Point> -> Plane): (r: Result<Plane, FrameError>)
    requires FrameDrawsValid(f)
    ensures r.Err? ==> mode == UseRansac || |LoadGroundPointsFromFile(f.trusted, f.grid)| < MinGroundPoints
  {
    match SelectStrategy(mode, f)
    case FitGroundPoints(points) => Ok(estimate(points))
    case FallBackToRansac(_, _) => FallbackOutcome(f, estimate)
  }

  /** In ground-point mode the ground points are used exactly when the valid
      trusted points and the grid points in the box number at least 4
      together: with 5 or more valid trusted points the grid is never read. */
  lemma GroundStrategyChoice(f: Frame)
    ensures SelectStrategy(UseGroundPoints, f).FitGroundPoints? <==>
      |ValidTrusted(f.trusted)| + |LoadPointsFromGrid(f.grid)| >= 4
    ensures SelectStrategy(UseGroundPoints, f).FitGroundPoints? ==>
      SelectStrategy(UseGroundPoints, f).points == LoadGroundPointsFromFile(f.trusted, f.grid)
    ensures SelectStrategy(UseRansac, f) == FallBackToRansac(NearPoints(f), |NearPoints(f)| as real * 0.5)
  {
    GroundPointsSpec(f.trusted, f.grid);
  }

  /** A frame fails only on the RANSAC path, and in one of two ways: with
      fewer than 3 near points the sampling raises; otherwise it fails exactly
      when no candidate had an inlier, which needs a fit that misses its own
      sample (see ExactFitNeverMissing). `main` runs 100 iterations, so the
      zero-iteration error of run_ransac cannot arise. A returned plane is the
      candidate of some iteration that explains at least one near point and
      at least as many as every candidate tried. */
  lemma FrameOutcomeSpec(mode: PlaneMethod, f: Frame, estimate: seq<Point> -> Plane)
    requires FrameDrawsValid(f)
    ensures FrameOutcome(mode, f, estimate).Err? ==> SelectStrategy(mode, f).FallBackToRansac?
    ensures FrameOutcome(mode, f, estimate).Err? ==>
      FrameOutcome(mode, f, estimate) == Err(NoModelFound) ||
      FrameOutcome(mode, f, estimate) == Err(RansacFailed(SampleLargerThanPopulation))
    ensures SelectStrategy(mode, f).FallBackToRansac? && |NearPoints(f)| < SampleSize ==>
      FrameOutcome(mode, f, estimate) == Err(RansacFailed(SampleLargerThanPopulation))
    ensures SelectStrategy(mode, f).FallBackToRansac? && SampleSize <= |NearPoints(f)| ==>
      var pr := FallbackProblem(f, estimate);
      && FrameOutcome(mode, f, estimate) != Err(RansacFailed(SampleLargerThanPopulation))
      && (FrameOutcome(mode, f, estimate).Err? <==>
          forall t :: 0 <= t < IterationsFrom(pr, 0) ==> Score(pr, t) == 0)
      && (FrameOutcome(mode, f, estimate).Err? ==> FrameOutcome(mode, f, estimate) == Err(NoModelFound))
      && (FrameOutcome(mode, f, estimate).Ok? ==>
          exists t :: 0 <= t < IterationsFrom(pr, 0)
            && FrameOutcome(mode, f, estimate).value == Candidate(pr, t)
            && 0 < Score(pr, t)
            && forall u :: 0 <= u < IterationsFrom(pr, 0) ==> Score(pr, u) <= Score(pr, t))
  {
    if SelectStrategy(mode, f).FallBackToRansac? && SampleSize <= |NearPoints(f)| {
      var pr := FallbackProblem(f, estimate);
      var n := IterationsFrom(pr, 0);
      BestAfterIsMaximum(pr, n);
      if forall t :: 0 <= t < n ==> Score(pr, t) == 0 {
        NoInlierNoModel(pr, n);
      }
    }
  }

  /** With a fit that passes through every point of its 3-point sample, as
      the SVD null vector of a 3 x 4 matrix does, a frame with at least 3 near
      points always yields a plane: the first candidate explains its own
      sample, so the model is never missing. */
  lemma ExactFitNeverMissing(mode: PlaneMethod, f: Frame, estimate: seq<Point> -> Plane)
    requires FrameDrawsValid(f) && SampleSize <= |NearPoints(f)|
    requires forall s, p :: |s| == SampleSize && p in s ==> Residual(estimate(s), p) == 0.0
    ensures FrameOutcome(mode, f, estimate).Ok?
  {
    FrameOutcomeSpec(mode, f, estimate);
    if SelectStrategy(mode, f).FallBackToRansac? {
      var pr := FallbackProblem(f, estimate);
      IterationsFromSpec(pr, 0);
      var s := Gather(pr.data, pr.draws[0]);
      var j := pr.draws[0][0];
      assert s[0] == pr.data[j] && s[0] in s;
      PointOnPlaneIsInlier(Candidate(pr, 0), pr.data[j], InlierThreshold);
      InlierMakesCountPositive(pr.data, pr.isInlier, Candidate(pr, 0), j);
      assert 0 < Score(pr, 0);
    }
  }

  /** One pass of the loop body of `main`. */
  method EstimateFramePlane(mode: PlaneMethod, f: Frame, estimate: seq<Point> -> Plane)
    returns (r: Result<Plane, FrameError>)
    requires FrameDrawsValid(f)
    ensures r == FrameOutcome(mode, f, estimate)
  {
    var groundPointsFailed := false;
    if mode == UseGroundPoints {
      var s := LoadGroundPointsFromFile(f.trusted, f.grid);
      if |s| < MinGroundPoints {
        groundPointsFailed := true;
      } else {
        return Ok(estimate(s));
      }
    }
    assert mode == UseRansac || groundPointsFailed;
    r := RansacPlane(f, estimate);
  }

  /** The RANSAC branch of the loop body: the near region, the call of
      run_ransac, and the unpacking of its model. */
  method RansacPlane(f: Frame, estimate: seq<Point> -> Plane) returns (r: Result<Plane, FrameError>)
    requires FrameDrawsValid(f)
    ensures r == FallbackOutcome(f, estimate)
  {
    var points := CameraCloud(f.lidar);
    var near := RansacRegion(points);
    var goalInliers := |near| as real * 0.5;
    var fit := RunRansac(near, WithinThreshold, SampleSize, goalInliers, MaxIterations, true, estimate, f.draws);
    match fit
    case Err(e) =>
      r := Err(RansacFailed(e));
    case Ok(best) =>
      r := if best.model.Some? then Ok(best.model.value) else Err(NoModelFound);
  }

  /** Appending the plane of frame i keeps the written planes those of the
      frames before. */
  lemma PlanesExtend(mode: PlaneMethod, frames: seq<Frame>, estimate: seq<Point> -> Plane, planes: seq<Plane>, p: Plane)
    requires |planes| < |frames|
    requires forall k :: 0 <= k < |frames| ==> FrameDrawsValid(frames[k])
    requires forall k :: 0 <= k < |planes| ==> FrameOutcome(mode, frames[k], estimate) == Ok(planes[k])
    requires FrameOutcome(mode, frames[|planes|], estimate) == Ok(p)
    ensures forall k :: 0 <= k < |planes| + 1 ==> FrameOutcome(mode, frames[k], estimate) == Ok((planes + [p])[k])
  {
    forall k | 0 <= k < |planes| + 1
      ensures FrameOutcome(mode, frames[k], estimate) == Ok((planes + [p])[k])
    {
      if k < |planes| {
        assert (planes + [p])[k] == planes[k];
      }
    }
  }

  /** The loop of `main` over the input files. An exception in one frame ends
      the whole run, so the planes written are those of the frames before the
      first failing one. */
  method GeneratePlanes(mode: PlaneMethod, frames: seq<Frame>, estimate: seq<Point> -> Plane)
    returns (planes: seq<Plane>, failure: Option<FrameError>)
    requires forall k :: 0 <= k < |frames| ==> FrameDrawsValid(frames[k])
    ensures |planes| <= |frames|
    ensures forall k :: 0 <= k < |planes| ==> FrameOutcome(mode, frames[k], estimate) == Ok(planes[k])
    ensures failure.None? <==> |planes| == |frames|
    ensures failure.Some? ==> FrameOutcome(mode, frames[|planes|], estimate) == Err(failure.value)
  {
    planes := [];
    var fileIdx := 0;
    while fileIdx < |frames|
      invariant 0 <= fileIdx <= |frames| && |planes| == fileIdx
      invariant forall k :: 0 <= k < fileIdx ==> FrameOutcome(mode, frames[k], estimate) == Ok(planes[k])
    {
      var r := EstimateFramePlane(mode, frames[fileIdx], estimate);
      if r.Err? {
        return planes, Some(r.error);
      }
      PlanesExtend(mode, frames, estimate, planes, r.value);
      planes := planes + [r.value];
      fileIdx := fileIdx + 1;
    }
    failure := None;
  }
}
