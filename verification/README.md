# Ground-plane estimation, modelled in Dafny

This project models `estimate_ground_planes.py`. That script computes one ground
plane `a*x + b*y + c*z + d = 0` for each lidar frame of a synthetic driving
dataset and writes the four coefficients to that frame's plane file.

For each frame the script does one of two things:

- In ground-point mode it fits a plane to the frame's trusted ground points.
  Valid trusted points are those with `z > -5`. When there are at most four of
  them, the points of a pre-computed grid are appended, restricted to a box in
  front of the vehicle.
- When that yields fewer than 4 rows, or in RANSAC mode, it runs RANSAC on the
  lidar points of a small box ahead of the car. The RANSAC code is taken from
  py-ransac: 100 iterations, samples of 3, inlier threshold 0.2, and an early
  stop once more than half of the points are explained.

The script also has a second estimator, `estimate_ground_plane`. It
subsamples 2048 near points, splits them into three 10 m depth bins, and in
each bin keeps the points between the 90th and 98th percentile of `y` before
fitting a plane to them.

The modules follow the script's structure:

- `Geometry`: points, plane coefficients, `augment`, `is_inlier`.
- `Filters`: the boolean-mask selections (`points[mask]`) as an
  order-preserving `Filter`, the boxes the script uses, and selection by an
  index array (`Gather`).
- `Ransac`: `run_ransac`. The run is described iteration by iteration by
  `BestAfter` (the pair `(best_model, best_ic)` after k iterations) and
  `IterationsFrom` (where the loop stops). The method `RunRansac`, a loop
  mirroring the script, is proved to compute them.
- `GroundPoints`: `loadGroundPointsFromFile` and `loadPointsFromGrid`.
- `BinnedFit`: `estimate_ground_plane`.
- `Pipeline`: the body of `main`'s loop (strategy choice, the RANSAC
  fallback, unpacking of the model) and the loop over the frames.

Code the model cannot see is passed in as a parameter:

- The SVD fit `estimate` is an arbitrary function from a sample to a `Plane`.
- `estimate_plane_coeffs` is the parameter `fitPlane`.
- `random.sample` and `np.random.randint` are oracles. For `random.sample`,
  `draws[t]` holds the distinct indices drawn in iteration t. For
  `np.random.randint`, `picks` holds the 2048 indices.

Behaviour of the script that the model keeps:

- `run_ransac` with `max_iterations == 0` raises: the final report reads the
  loop variable `i`, which is then unbound (`IterationIndexUnbound`).
- `main` has no exception handler, so the first failing frame ends the whole
  run, and only the planes of the earlier frames are written
  (`GeneratePlanes`).
- A frame fails only on the RANSAC path, and only when it has fewer than 3
  near points: `random.sample` raises. `main` always passes 100 iterations,
  so the zero-iteration error of `run_ransac` never arises there.
- Because `estimate` is a parameter, the model also keeps a second failure:
  no candidate explains any point, so `a, b, c, d = None` raises. That needs
  a fit that misses all three of its own sample points. The SVD fit never
  does, since a 3 x 4 matrix always has a null vector.
  `Pipeline.ExactFitNeverMissing` proves that a fit through its sample
  points never reaches this failure.
- In `estimate_ground_plane` the guard `len(point_cloud) == 0` tests a
  3 x N array, so it never fires. An empty cloud reaches the
  "no points near" error instead.
- The lidar points are relabelled `(-y, -z, x)` (line 40), while the ground
  and grid points are relabelled `(y, -z, x)` (lines 107, 145). The model
  keeps both.

## Model

| member | source | states |
|---|---|---|
| Geometry.Augment | estimate_ground_planes.py:264-267 | each point becomes a row of length 4 whose first three entries are x, y, z and whose last is 1 |
| Geometry.IsInlier | estimate_ground_planes.py:275-276 | no point is an inlier unless the threshold is positive; its exact meaning is IsInlierResidual |
| Geometry.IsInlierResidual | estimate_ground_planes.py:275-276 | the inlier test holds exactly when the absolute residual a*x+b*y+c*z+d is below the threshold |
| Geometry.IsInlierSignInvariant | estimate_ground_planes.py:269-276 | negating all four coefficients (the SVD's sign is arbitrary) does not change which points are inliers |
| Geometry.PointOnPlaneIsInlier | estimate_ground_planes.py:275-276 | a point on the plane is an inlier for every positive threshold |
| Filters.Filter | estimate_ground_planes.py:58-64 | a mask selection never grows the data and keeps exactly the points that are in the input and satisfy the mask |
| Filters.FilterConcat | estimate_ground_planes.py:58-64 | masking keeps input order: it distributes over concatenation |
| Filters.FilterCounts | estimate_ground_planes.py:58-64 | each selected point keeps its multiplicity; unselected points vanish |
| Filters.FilterFuse | estimate_ground_planes.py:126-139 | two successive masks equal the single conjunctive mask |
| Filters.FilterIdempotent | estimate_ground_planes.py:58-64 | applying a mask twice equals applying it once |
| Filters.RansacRegionSpec | estimate_ground_planes.py:57-64 | the RANSAC region keeps exactly the points with -3<x<3, -3<y<0, 2<z<10, with multiplicities, in order; it is idempotent |
| Filters.FrontRegionSpec | estimate_ground_planes.py:211-216 | the near region keeps exactly the points with -5<x<5, 2<z<30, with multiplicities, in order; it is idempotent |
| GroundPoints.ToCameraAxes | estimate_ground_planes.py:107 | the relabelling (x, y, z) -> (y, -z, x) is invertible |
| GroundPoints.Relabel | estimate_ground_planes.py:145 | `vstack((y, -z, x)).T` keeps the row count and relabels row by row |
| GroundPoints.RelabelMembership | estimate_ground_planes.py:145 | a row is in the output exactly when its preimage is in the input |
| GroundPoints.RelabelConcat | estimate_ground_planes.py:107-111 | relabelling commutes with stacking rows |
| GroundPoints.LoadPointsFromGrid | estimate_ground_planes.py:114-149 | the grid loader never returns more rows than the file has, and every row (y, -z, x) has its first component in (-15, 15), its second below 5 and its third in (0, 40) |
| GroundPoints.LoadGroundPointsFromFile | estimate_ground_planes.py:89-112 | the row count is the valid trusted count, plus the grid count when at most 4 are valid; without augmentation there are at least 5 rows |
| GroundPoints.GridPointsInBox | estimate_ground_planes.py:114-149 | the grid loader returns the relabelled points with 0<x<40, -15<y<15, z>-5, in order, and every output row lies in that box |
| GroundPoints.GroundPointsSpec | estimate_ground_planes.py:99-112 | the result starts with all valid trusted points in order, relabelled; the rest is the grid loader's output when at most 4 are valid and empty otherwise; every row has second component below 5; otherwise the grid file is irrelevant |
| GroundPoints.GroundPointsAugmentation | estimate_ground_planes.py:99-111 | with 5 or more valid points only those come back; with at most 4 the in-box grid points are appended, and the whole result is the relabelling of the valid points stacked on the in-box grid points |
| Ransac.CountInliers | estimate_ground_planes.py:287-290 | the inlier count never exceeds the number of points |
| Ransac.CountInliersIsCardinality | estimate_ground_planes.py:287-290 | the counting loop's result is the number of data positions that hold an inlier |
| Ransac.Score | estimate_ground_planes.py:285-290 | an iteration's inlier count is at most the number of data points |
| Ransac.InlierMakesCountPositive | estimate_ground_planes.py:287-290 | one inlier anywhere in the data makes the inner loop's count positive |
| Ransac.Step | estimate_ground_planes.py:296-298 | best_ic never decreases and is at least the new count; the best changes only on a strict improvement, to that model and count |
| Ransac.BestAfterMonotone | estimate_ground_planes.py:296-298 | best_ic after j iterations is at most best_ic after any later k |
| Ransac.BestAfterIsMaximum | estimate_ground_planes.py:279-298 | best_ic is at least every iteration's count; the model is None exactly when best_ic is 0; otherwise it is the candidate of the first iteration that reached best_ic |
| Ransac.BestCountBounded | estimate_ground_planes.py:287-298 | best_ic never exceeds the number of data points |
| Ransac.NoInlierNoModel | estimate_ground_planes.py:279-298 | if no iteration finds an inlier, the result is (None, 0) |
| Ransac.IterationsFrom | estimate_ground_planes.py:284-300 | the number of iterations run lies between the start and max_iterations |
| Ransac.IterationsFromSpec | estimate_ground_planes.py:284-300 | the loop runs at least once; it ends before max_iterations only right after a breaking iteration, and no earlier iteration breaks |
| Ransac.GoalReachedByStop | estimate_ground_planes.py:296-300 | with stop_at_goal and a non-negative goal, a best_ic above the goal was set by an iteration that breaks |
| Ransac.StopsByFirstGoal | estimate_ground_planes.py:296-300 | with stop_at_goal, the run ends no later than the first iteration whose count exceeds the goal |
| Ransac.Outcome | estimate_ground_planes.py:278-302 | run_ransac raises exactly when there are no iterations or the sample is larger than the data, the unbound-`i` error exactly in the first case; a returned best_ic is at most the number of points |
| Ransac.RunRansac | estimate_ground_planes.py:278-302 | zero iterations raise; a sample larger than the data raises; otherwise the result is (best_model, best_ic) after the iterations the loop actually runs |
| Pipeline.LidarToCamera | estimate_ground_planes.py:40 | the lidar relabelling (x, y, z) -> (-y, -z, x) is invertible |
| Pipeline.CameraCloud | estimate_ground_planes.py:39-40 | each lidar point (x, y, z) becomes (-y, -z, x), one row per point |
| Pipeline.SelectStrategy | estimate_ground_planes.py:46-67 | the ground points are fitted exactly in ground-point mode when the loader returns at least 4 rows, and then they are the loader's rows; otherwise RANSAC runs on the near region of the cloud (points of the box that come from the cloud), with goal n * 0.5 |
| Pipeline.GroundStrategyChoice | estimate_ground_planes.py:46-67 | in ground-point mode the ground points are fitted exactly when the valid trusted points plus the in-box grid points number at least 4; RANSAC mode always falls back |
| Pipeline.FrameOutcome | estimate_ground_planes.py:46-69 | a frame whose ground points number at least 4 in ground-point mode never fails |
| Pipeline.FrameOutcomeSpec | estimate_ground_planes.py:46-69 | a frame fails only on the RANSAC path, and only with the sampling error or the missing model; fewer than 3 near points raise in sampling; otherwise it fails exactly when no candidate has an inlier, then with the missing model, and a returned plane is a candidate with a maximal, positive inlier count |
| Pipeline.ExactFitNeverMissing | estimate_ground_planes.py:56-69 | when the fit passes through every point of its 3-point sample (as the SVD fit of lines 269-273 does), a frame with at least 3 near points always yields a plane |
| Pipeline.RansacPlane | estimate_ground_planes.py:56-69 | the RANSAC branch computes the fallback outcome: run_ransac's exception, a missing model, or the best model |
| Pipeline.EstimateFramePlane | estimate_ground_planes.py:39-69 | one loop body of `main` computes the frame's outcome |
| Pipeline.GeneratePlanes | estimate_ground_planes.py:31-83 | the planes written are the outcomes of the frames before the first failure, in order; the run covers all frames exactly when there is no failure; the reported failure is the next frame's |
| BinnedFit.BinsAreStrict | estimate_ground_planes.py:230-233 | a point falls in one of the three bins exactly when 0<z<30 and z is not 10 or 20, and never in two |
| BinnedFit.InsertByYCount | estimate_ground_planes.py:240 | inserting into the y order adds exactly the one point |
| BinnedFit.InsertByYSorted | estimate_ground_planes.py:240 | inserting into a y-sorted list keeps it sorted |
| BinnedFit.SortByY | estimate_ground_planes.py:240 | the y order of a bin has the bin's points with their multiplicities |
| BinnedFit.SortByYSpec | estimate_ground_planes.py:240 | the y order of a bin is sorted by y and is a permutation of the bin |
| BinnedFit.Crop | estimate_ground_planes.py:247-250 | a bin's crop has int(0.98 n) - int(0.90 n) points, each drawn from the bin |
| BinnedFit.CropSpec | estimate_ground_planes.py:244-250 | the crop has int(0.98 n) - int(0.90 n) points, all from the bin, each with y between those ranked below and above the window |
| Filters.Gather | estimate_ground_planes.py:223-225 | indexing by an index array (the subsample here, and the `random.sample` draw at line 285) gives one row per index: the row at that index, in index order |
| BinnedFit.CroppedBinsSpec | estimate_ground_planes.py:228-253 | every point kept for the fit is a subsampled point lying in one of the bins |
| BinnedFit.EstimateGroundPlane | estimate_ground_planes.py:197-259 | an empty near region raises; otherwise the fit is applied to the cropped points of the three bins of the subsample |

## Left out

- The SVD plane fit (`estimate`, `np.linalg.svd`) is a parameter. Its numerical behaviour is not modelled.
- `estimate_plane_coeffs` is not defined in the script; it is the parameter `fitPlane`.
- Randomness is not modelled: `random.seed`, `random.sample` and `np.random.randint` are replaced by index oracles.
- `read_lidar`, `np.loadtxt` and the directory listing are not modelled. Each frame arrives as already decoded points.
- `np.loadtxt` of a file with a single row returns a 1-D array, on which the column indexing fails. This case is not modelled.
- The NaN-removal mask (lines 42-44) is not modelled: coordinates are reals, which have no NaN.
- Floating point is not modelled. The crop bounds are the exact `floor(9n/10)` and `floor(49n/50)`, not the rounded float products.
- Writing the plane file is not modelled. Its header, the `%.6e` formatting, the progress output, `print` and `makedirs` are left out. The model stops at the coefficients.
- The debug switches `testing` and `specific_idx`, with `quit()`, are left out.
- The `plane_coeffs` branch (line 76) is left out, because it is unreachable for both plane methods.
- `getGridIndex` is never called, so it is left out.
- The `valid_mask`, `x` and `y` arguments of `loadPointsFromGrid` are passed but not used by it, so the model drops them.
- `np.argsort` does not fix the order of points with equal `y`.
- BinnedFit.SortByYSpec: proved for a stable insertion sort. It pins down the multiset and the y order, but not the order among points with equal `y`.
- The list `all_points_in_bins` (line 236) is never read. The method builds it, but no contract mentions it.
