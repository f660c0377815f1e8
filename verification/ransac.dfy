/** `run_ransac` of estimate_ground_planes.py (adapted from py-ransac).
    The SVD fit `estimate` is a parameter, an arbitrary function from a sample
    to plane coefficients. `random.sample` is an oracle: `draws[t]` is the
    list of distinct indices that the t-th iteration samples. The spec
    functions below describe the run iteration by iteration; RunRansac is the
    loop, proved to compute them. */
module Ransac {
  import opened Wrappers
  import opened Geometry
  import opened Filters

  /** The pair (best_model, best_ic). */
  datatype Best = Best(model: Option<Plane>, count: nat)

  datatype RansacError =
    | SampleLargerThanPopulation   // random.sample with sample_size > len(data)
    | IterationIndexUnbound        // the final report reads `i` after a loop that never ran

  /** The arguments of one call of run_ransac, with the two oracles. */
  datatype Problem = Problem(
    data: seq<Point>,
    isInlier: (Plane, Point) -> bool,
    sampleSize: nat,
    goalInliers: real,
    maxIterations: nat,
    stopAtGoal: bool,
    estimate: seq<Point> -> Plane,
    draws: seq<seq<nat>>)

  /** What random.sample returns: k distinct indices below n. */
  predicate IsSample(draw: seq<nat>, n: nat, k: nat) {
    && |draw| == k
    && (forall j :: 0 <= j < |draw| ==> draw[j] < n)
    && (forall i, j :: 0 <= i < j < |draw| ==> draw[i] != draw[j])
  }

  /** The oracle supplies a sample for every iteration whenever sampling can succeed. */
  predicate WellDrawn(pr: Problem) {
    pr.sampleSize <= |pr.data| ==>
      && pr.maxIterations <= |pr.draws|
      && forall t :: 0 <= t < pr.maxIterations ==> IsSample(pr.draws[t], |pr.data|, pr.sampleSize)
  }

  /** Every iteration can draw its sample. */
  predicate CanSample(pr: Problem) {
    pr.sampleSize <= |pr.data| && WellDrawn(pr)
  }

  /** The inner loop's count `ic` over a prefix of the data. */
  function CountInliers(ps: seq<Point>, isInlier: (Plane, Point) -> bool, m: Plane): (ic: nat)
    ensures ic <= |ps|
  {
    if |ps| == 0 then 0
    else CountInliers(ps[..|ps| - 1], isInlier, m) + (if isInlier(m, ps[|ps| - 1]) then 1 else 0)
  }

  /** The count is the number of positions of the data that hold an inlier. */
  lemma {:induction false} CountInliersIsCardinality(ps: seq<Point>, isInlier: (Plane, Point) -> bool, m: Plane)
    ensures CountInliers(ps, isInlier, m) == |set j | 0 <= j < |ps| && isInlier(m, ps[j])|
  {
    if |ps| > 0 {
      var n := |ps| - 1;
      var front := ps[..n];
      CountInliersIsCardinality(front, isInlier, m);
      var s := set j | 0 <= j < |ps| && isInlier(m, ps[j]);
      var s' := set j | 0 <= j < |front| && isInlier(m, front[j]);
      assert s' == set j | 0 <= j < n && isInlier(m, ps[j]);
      if isInlier(m, ps[n]) {
        assert s == s' + {n};
      } else {
        assert s == s';
      }
    }
  }

  /** A single inlier anywhere in the data makes the count positive. */
  lemma InlierMakesCountPositive(ps: seq<Point>, isInlier: (Plane, Point) -> bool, m: Plane, j: nat)
    requires j < |ps| && isInlier(m, ps[j])
    ensures CountInliers(ps, isInlier, m) > 0
  {
    CountInliersIsCardinality(ps, isInlier, m);
    var s := set i | 0 <= i < |ps| && isInlier(m, ps[i]);
    assert j in s;
  }

  /** The plane fitted in iteration t. */
  function Candidate(pr: Problem, t: nat): (m: Plane)
    requires CanSample(pr) && t < pr.maxIterations
  {
    pr.estimate(Gather(pr.data, pr.draws[t]))
  }

  /** The inlier count `ic` of iteration t. */
  function Score(pr: Problem, t: nat): (ic: nat)
    requires CanSample(pr) && t < pr.maxIterations
    ensures ic <= |pr.data|
  {
    CountInliers(pr.data, pr.isInlier, Candidate(pr, t))
  }

  /** One update of (best_model, best_ic): the best count never decreases,
      and the best changes only on a strict improvement, to that iteration's
      model and count. */
  function Step(b: Best, m: Plane, ic: nat): (r: Best)
    ensures r.count >= b.count && r.count >= ic
    ensures r == b || (ic > b.count && r == Best(Some(m), ic))
  {
    if ic > b.count then Best(Some(m), ic) else b
  }

  /** (best_model, best_ic) after k iterations of the loop body. */
  function BestAfter(pr: Problem, k: nat): (b: Best)
    requires CanSample(pr) && k <= pr.maxIterations
  {
    if k == 0 then Best(None, 0)
    else Step(BestAfter(pr, k - 1), Candidate(pr, k - 1), Score(pr, k - 1))
  }

  /** Iteration t leaves the loop through `break`. */
  predicate StopsAt(pr: Problem, t: nat)
    requires CanSample(pr) && t < pr.maxIterations
  {
    Score(pr, t) > BestAfter(pr, t).count && Score(pr, t) as real > pr.goalInliers && pr.stopAtGoal
  }

  /** The number of iterations run, counting from iteration i. */
  function IterationsFrom(pr: Problem, i: nat): (n: nat)
    requires CanSample(pr) && i <= pr.maxIterations
    ensures i <= n <= pr.maxIterations
    decreases pr.maxIterations - i
  {
    if i == pr.maxIterations then i
    else if StopsAt(pr, i) then i + 1
    else IterationsFrom(pr, i + 1)
  }

  /** What run_ransac returns or raises. */
  function Outcome(pr: Problem): (r: Result<Best, RansacError>)
    requires WellDrawn(pr)
    ensures r.Err? <==> pr.maxIterations == 0 || |pr.data| < pr.sampleSize
    ensures r == Err(IterationIndexUnbound) <==> pr.maxIterations == 0
    ensures r.Ok? ==> r.value.count <= |pr.data|
  {
    if pr.maxIterations == 0 then Err(IterationIndexUnbound)
    else if pr.sampleSize > |pr.data| then Err(SampleLargerThanPopulation)
    else
      var n := IterationsFrom(pr, 0);
      BestCountBounded(pr, n);
      Ok(BestAfter(pr, n))
  }

  /** best_ic never decreases from one iteration to a later one. */
  lemma {:induction false} BestAfterMonotone(pr: Problem, j: nat, k: nat)
    requires CanSample(pr) && j <= k <= pr.maxIterations
    ensures BestAfter(pr, j).count <= BestAfter(pr, k).count
  {
    if j < k {
      BestAfterMonotone(pr, j, k - 1);
    }
  }

  /** After k iterations the best count is the largest score seen; it is zero
      exactly when no model was kept; otherwise the kept model is the candidate
      of the first iteration that reached that count. */
  lemma {:induction false} BestAfterIsMaximum(pr: Problem, k: nat)
    requires CanSample(pr) && k <= pr.maxIterations
    ensures forall t :: 0 <= t < k ==> Score(pr, t) <= BestAfter(pr, k).count
    ensures BestAfter(pr, k).model.None? <==> BestAfter(pr, k).count == 0
    ensures BestAfter(pr, k).model.Some? ==>
      exists t :: 0 <= t < k && BestAfter(pr, k) == Best(Some(Candidate(pr, t)), Score(pr, t))
        && forall u :: 0 <= u < t ==> Score(pr, u) < Score(pr, t)
  {
    if k > 0 {
      BestAfterIsMaximum(pr, k - 1);
      var b := BestAfter(pr, k - 1);
      if Score(pr, k - 1) > b.count {
        var t := k - 1;
        assert BestAfter(pr, k) == Best(Some(Candidate(pr, t)), Score(pr, t));
        assert forall u :: 0 <= u < t ==> Score(pr, u) < Score(pr, t);
      }
    }
  }

  /** The best count never exceeds the number of data points. */
  lemma {:induction false} BestCountBounded(pr: Problem, k: nat)
    requires CanSample(pr) && k <= pr.maxIterations
    ensures BestAfter(pr, k).count <= |pr.data|
  {
    if k > 0 {
      BestCountBounded(pr, k - 1);
    }
  }

  /** If no iteration finds a positive inlier count, the result keeps its
      initial value (None, 0). */
  lemma {:induction false} NoInlierNoModel(pr: Problem, k: nat)
    requires CanSample(pr) && k <= pr.maxIterations
    requires forall t :: 0 <= t < k ==> Score(pr, t) == 0
    ensures BestAfter(pr, k) == Best(None, 0)
  {
    if k > 0 {
      NoInlierNoModel(pr, k - 1);
    }
  }

  /** The loop runs at least once when it may run at all; it ends
      early only right after an iteration that improved the best count beyond
      the goal with stop_at_goal set, and no earlier iteration did so. */
  lemma {:induction false} IterationsFromSpec(pr: Problem, i: nat)
    requires CanSample(pr) && i <= pr.maxIterations
    ensures i < pr.maxIterations ==> i < IterationsFrom(pr, i)
    ensures IterationsFrom(pr, i) < pr.maxIterations ==> StopsAt(pr, IterationsFrom(pr, i) - 1)
    ensures forall u :: i <= u < IterationsFrom(pr, i) - 1 ==> !StopsAt(pr, u)
    decreases pr.maxIterations - i
  {
    if i < pr.maxIterations && !StopsAt(pr, i) {
      IterationsFromSpec(pr, i + 1);
    }
  }

  /** A best count above the goal was set by an iteration that breaks. */
  lemma {:induction false} GoalReachedByStop(pr: Problem, k: nat)
    requires CanSample(pr) && k <= pr.maxIterations && pr.stopAtGoal && pr.goalInliers >= 0.0
    requires BestAfter(pr, k).count as real > pr.goalInliers
    ensures exists v :: 0 <= v < k && StopsAt(pr, v)
  {
    if k > 0 {
      var b := BestAfter(pr, k - 1);
      if Score(pr, k - 1) > b.count {
        assert StopsAt(pr, k - 1);
      } else {
        GoalReachedByStop(pr, k - 1);
      }
    }
  }

  /** With stop_at_goal set, the run ends no later than the first iteration
      whose candidate explains more than the goal number of points. */
  lemma StopsByFirstGoal(pr: Problem, u: nat)
    requires CanSample(pr) && u < pr.maxIterations && pr.stopAtGoal && pr.goalInliers >= 0.0
    requires Score(pr, u) as real > pr.goalInliers
    ensures IterationsFrom(pr, 0) <= u + 1
  {
    IterationsFromSpec(pr, 0);
    if !StopsAt(pr, u) {
      assert BestAfter(pr, u).count >= Score(pr, u);
      GoalReachedByStop(pr, u);
    }
  }

  /** run_ransac: up to max_iterations rounds of sample, fit, count inliers and
      keep the strictly better model, leaving early at the goal. */
  method RunRansac(
    data: seq<Point>,
    isInlier: (Plane, Point) -> bool,
    sampleSize: nat,
    goalInliers: real,
    maxIterations: nat,
    stopAtGoal: bool,
    estimate: seq<Point> -> Plane,
    draws: seq<seq<nat>>)
    returns (r: Result<Best, RansacError>)
    requires WellDrawn(Problem(data, isInlier, sampleSize, goalInliers, maxIterations, stopAtGoal, estimate, draws))
    ensures maxIterations == 0 ==> r == Err(IterationIndexUnbound)
    ensures 0 < maxIterations && |data| < sampleSize ==> r == Err(SampleLargerThanPopulation)
    ensures r == Outcome(Problem(data, isInlier, sampleSize, goalInliers, maxIterations, stopAtGoal, estimate, draws))
  {
    var pr := Problem(data, isInlier, sampleSize, goalInliers, maxIterations, stopAtGoal, estimate, draws);
    var bestIc: nat := 0;
    var bestModel: Option<Plane> := None;
    var i := 0;
    while i < maxIterations
      invariant 0 <= i <= maxIterations
      invariant 0 < i ==> sampleSize <= |data|
      invariant CanSample(pr) ==>
        Best(bestModel, bestIc) == BestAfter(pr, i) && IterationsFrom(pr, 0) == IterationsFrom(pr, i)
    {
      if sampleSize > |data| {
        return Err(SampleLargerThanPopulation);
      }
      var s := Gather(data, draws[i]);
      var m := estimate(s);
      var ic: nat := 0;
      var j := 0;
      while j < |data|
        invariant 0 <= j <= |data|
        invariant ic == CountInliers(data[..j], isInlier, m)
      {
        assert data[..j + 1][..j] == data[..j];
        if isInlier(m, data[j]) {
          ic := ic + 1;
        }
        j := j + 1;
      }
      assert data[..|data|] == data;
      assert m == Candidate(pr, i) && ic == Score(pr, i);
      if ic > bestIc {
        bestIc := ic;
        bestModel := Some(m);
        if ic as real > goalInliers && stopAtGoal {
          assert StopsAt(pr, i);
          i := i + 1;
          break;
        }
      }
      i := i + 1;
    }
    if maxIterations == 0 {
      return Err(IterationIndexUnbound);
    }
    r := Ok(Best(bestModel, bestIc));
  }
}
