# Pose-graph relaxation and loop closing of slam6d, in Dafny

This project models two engines of the slam6d scan-registration toolkit.
Both work on a list of scans, and each scan holds a 6D pose.

- **LUM relaxation, Euler variant** (`lum6DEuler`, src/lum6Deuler.cc). This is globally consistent scan matching after Lu and Milios.
  - `CalculateLinks3D` turns the point pairs of every link of the pose graph into an information matrix `C` and a vector `CD`.
  - `FillGB3D` assembles them into the block system `G X = B`.
  - `doGraphSlam6D` repeats three steps: pair search, link statistics, then assembly and solution. After each solution it corrects every non-reference scan by the inverse pose Jacobian applied to that scan's block of `X`. It stops after `nrIt` iterations, or once the mean position correction `ret` is no longer above `epsilon`.
- **ELCH loop closing, quaternion variant** (`elch6Dquat::close_loop`, trunk/src/elch6Dquat.cc).
  - It builds seven component graphs, one per pose component, weighted by the covariance diagonal.
  - It balances them and zeroes the weights of the end meta-scan.
  - It matches the end meta-scan (scans `last-2 .. last`) onto the start meta-scan (scans `first .. first+2`). The change of the last scan's pose is the 7-component `delta`: 3 position and 4 quaternion components.
  - It distributes `delta` over scans `1 .. n-1` in proportion to the weight differences to vertex 0. It then normalises each quaternion and commits each pose, in terminal mode (2) for scan `n-1` and intermediate mode (1) for the others.

Modules:

- `LinAlg` (linalg.dfy): fixed-size vectors and matrices over `real`.
- `Scans` (scans.dfy): the `Scan` class with the pose fields `rPos`, `rPosTheta` and `rPosQuat`. The class also keeps a log of the transform modes it was committed with. The file also has value snapshots of scans (`ScanState`, `States`) and the state of a pass over scans `1 .. n-1` (`UpdatedUpTo`).
- `PoseUpdate` (pose_update.dfy): the per-scan pose correction and the sum of correction lengths in `doGraphSlam6D`.
- `LumLinks` (lum_links.dfy): `CalculateLinks3D`.
- `LumSystem` (lum_system.dfy): `FillGB3D`, performed in place on `array2`/`array` and specified entry by entry by the folds `GFill`/`BFill`.
- `LumEuler` (lum_relax.dfy): the iteration of `doGraphSlam6D`. The pure functions `Relaxation`, `Relax` and `GraphSlam` work on pose snapshots. The methods `RelaxOnce` and `DoGraphSlam6D` act on the scan objects and are proved to agree with them.
- `ElchQuat` (elch_quat.dfy): `close_loop`. Its arrays (`grb[7]`, `weights[7][n]`, `delta[7]`) are Dafny arrays, filled by loops. The function `ClosedLoop` specifies the whole operation on scan snapshots, and the method `CloseLoop` is proved to agree with it.

Numbers are Dafny `real`. Every numeric routine the engines call but do not define is a field of a hook datatype: `LumHooks`, `LinkNumerics`, `ElchHooks` and `Rotations`. Where a property needs something of a hook, the lemma states it as a hypothesis: `IsNorm` for `Len`, `IsNormalizer` for `Normalize4`, `ExactReciprocal` for `1.0 / ss`, and `SolverKeepsShape` for the sparse solver.

`CalculateLinks3D` has only two branches: a link with no point pairs gets zero entries (src/lum6Deuler.cc:215-225), and every link with `m > 0` pairs takes the main path (src/lum6Deuler.cc:139-213). The main path divides the residual by `2m - 3`, and nothing guards a small `m`. With one pair, that divisor is `-1`, so the scale factor `1/ss` is negative whenever the residual is positive (`LumLinks.DegreesOfFreedom`, `LumLinks.SinglePairVariance`). Before that, the main path inverts the moment matrix `MM` (src/lum6Deuler.cc:192). For one pair, `MM` is singular (`LumLinks.SinglePairMomentsSingular`), so the inverse the model takes as a hook has no exact value there. The model keeps the arithmetic of lines 209-210 for every `m > 0`, and leaves the behaviour of the inversion to the hook.

## Model

| member | source | states |
|---|---|---|
| LumLinks.PairMoments | src/lum6Deuler.cc:141-173 | what one point pair adds to the running sums: midpoint coordinates, their squares and products, and the six entries of `MZ` |
| LumLinks.SumMomentsTo | src/lum6Deuler.cc:141-173 | the running sums after the first `n` pairs, accumulated in pair order |
| LumLinks.SumMoments | src/lum6Deuler.cc:141-173 | the sums over all pairs of a link |
| LumLinks.TranslationPartTo | src/lum6Deuler.cc:141-173 | after the first `n` pairs, entry `k < 3` of the running `MZ` is the sum of `p1 - p2` in coordinate `k` over those pairs (proved by induction over the pairs) |
| LumLinks.TranslationPartOfMZ | src/lum6Deuler.cc:167-169 | `MZ(1..3)` are the per-coordinate sums of the pair differences `ak - bk` |
| LumLinks.MomentMatrix | src/lum6Deuler.cc:175-189 | `MM` is symmetric and its first three diagonal entries equal the number of pairs `m` |
| LumLinks.SinglePairMomentsSingular | src/lum6Deuler.cc:175-192 | with one pair, `MM` maps the non-zero vector `(0, z, -y, 1, 0, 0)` of the pair's midpoint `(x, y, z)` to zero, so `MM` is singular and `MM.i()` has no exact result |
| LumLinks.Estimate | src/lum6Deuler.cc:192 | the pose difference `D` is the inverse hook applied to `MM`, times `MZ` |
| LumLinks.PairResidual | src/lum6Deuler.cc:204-206 | each pair's residual term is a sum of squares, so it is never negative |
| LumLinks.Residual | src/lum6Deuler.cc:196-207 | the residual `ss` accumulated over all pairs is never negative |
| LumLinks.ResidualTo | src/lum6Deuler.cc:196-207 | the residual over the first `n` pairs is never negative |
| LumLinks.DegreesOfFreedom | src/lum6Deuler.cc:209 | the divisor `2m - 3` is never zero; it is `-1` for one pair and positive exactly when `m >= 2` |
| LumLinks.Variance | src/lum6Deuler.cc:209 | the residual of `D` divided by `2m - 3` |
| LumLinks.InfoScale | src/lum6Deuler.cc:210 | the reciprocal hook applied to the variance |
| LumLinks.EmptyLinkIsZero | src/lum6Deuler.cc:215-225 | a link without pairs contributes an all-zero `CD` and an all-zero `C` |
| LumLinks.InformationMatrixShape | src/lum6Deuler.cc:175-213 | for `m > 0`, `C = MM * ss`: it is symmetric, its first three diagonal entries are `m * ss`, and every entry is the `MM` entry times the same scale |
| LumLinks.InformationVectorShape | src/lum6Deuler.cc:167-212 | for `m > 0`, `CD = MZ * ss`, with the same scale as `C`, and its first three entries are `ss` times the coordinate sums of the pair differences |
| LumLinks.ScaledTranslationPart | src/lum6Deuler.cc:167-212 | entry `k < 3` of `CD` is the scale times the sum of the pair differences in coordinate `k` |
| LumLinks.VarianceOfProperLink | src/lum6Deuler.cc:196-210 | with two or more pairs, the variance estimate is never negative, and the scale `1/ss` is positive once the residual is |
| LumLinks.SinglePairVariance | src/lum6Deuler.cc:209-210 | with exactly one pair, the variance is minus the residual of whatever `D` the inverse hook yields for the singular `MM`, so the scale is negative whenever that residual is positive |
| LumLinks.LinkCD | src/lum6Deuler.cc:212-225 | the `CD` entry of a link: `MZ` times the scale, or zero without pairs |
| LumLinks.LinkC | src/lum6Deuler.cc:213-225 | the `C` entry of a link: `MM` times the scale, or zero without pairs |
| LumLinks.AccumulateMoments | src/lum6Deuler.cc:137-173 | the first pass over the pairs computes exactly the moment sums `SumMoments` |
| LumLinks.AccumulateResidual | src/lum6Deuler.cc:196-207 | the second pass computes exactly the residual of the estimate `D` |
| LumLinks.LinkStatistic | src/lum6Deuler.cc:132-227 | the entries pushed for one link are `LinkCD` and `LinkC`: zero without pairs, scaled `MZ`/`MM` otherwise |
| LumLinks.CalculateLinks3D | src/lum6Deuler.cc:106-229 | exactly one entry is appended to `CD` and to `C` per link, in link order, each the statistic of that link; earlier entries are kept |
| LumSystem.BlockOf | src/lum6Deuler.cc:74-75 | graph id 0 maps to block index -1, and every other scan to a block index `>= 0` |
| LumSystem.LinkG | src/lum6Deuler.cc:81-92 | entry `(r, c)` of `G` after one link, the four block updates in source order; an entry outside the link's four blocks keeps its value |
| LumSystem.LinkB | src/lum6Deuler.cc:81-88 | entry `r` of `B` after one link: `+CD` on the rows of `from`, `-CD` on those of `to`; other rows keep their value |
| LumSystem.GFill | src/lum6Deuler.cc:73-93 | entry `(r, c)` of `G` after the first `k` links, in link order |
| LumSystem.BFill | src/lum6Deuler.cc:73-93 | entry `r` of `B` after the first `k` links, in link order |
| LumSystem.ReferenceOwnsNoBlock | src/lum6Deuler.cc:74-88 | scan 0 owns no block of `G` or `B` |
| LumSystem.ReferenceEndpointContributesNothing | src/lum6Deuler.cc:81-92 | a link with endpoint 0 changes only the diagonal block and the `B` rows of its other endpoint, with the sign that endpoint's role gives |
| LumSystem.UntouchedOutsideEndpointBlocks | src/lum6Deuler.cc:81-92 | an entry of `G` outside the four blocks `(a,a)`, `(b,b)`, `(a,b)`, `(b,a)` of a link keeps its value, and a row of `B` outside both endpoint blocks keeps its value |
| LumSystem.DiagonalBlocksAccumulate | src/lum6Deuler.cc:81-88 | blocks `(a,a)` and `(b,b)` gain `+Cab`; block `a` of `B` gains `+CDab` and block `b` gains `-CDab` |
| LumSystem.OffDiagonalBlocksAssigned | src/lum6Deuler.cc:89-92 | blocks `(a,b)` and `(b,a)` are overwritten with `-Cab`, whatever they held before |
| LumSystem.LastLinkDecidesOffDiagonal | src/lum6Deuler.cc:73-93 | in the fully assembled `G`, an off-diagonal block `(a,b)` holds `-C` of the last link between those two scans; earlier links between the same pair are overwritten, not accumulated |
| LumSystem.LaterLinksKeep | src/lum6Deuler.cc:73-93 | links that all leave an entry outside their four blocks keep the value it had before them |
| LumSystem.LaterLinkAvoids | src/lum6Deuler.cc:83-91 | a link that does not join the same two scans writes no entry of another link's off-diagonal block |
| LumSystem.ZeroLinkEffect | src/lum6Deuler.cc:81-92 | an all-zero link leaves `B` as it was and still zeroes its two off-diagonal blocks |
| LumSystem.LinkGSymmetric | src/lum6Deuler.cc:83-91 | with a symmetric `Cab`, one link's update of `G` is symmetric in row and column |
| LumSystem.AssembledGSymmetric | src/lum6Deuler.cc:62-94 | if every `C[i]` is symmetric, a symmetric `G` stays symmetric through all links |
| LumSystem.AssembledGUntouched | src/lum6Deuler.cc:62-94 | an entry outside the four blocks of every link keeps its initial value |
| LumSystem.AssembledBUntouched | src/lum6Deuler.cc:62-94 | a row of `B` outside both endpoint blocks of every link keeps its initial value |
| LumSystem.AssembledG | src/lum6Deuler.cc:357-365 | the system matrix built from a zero `G` is square of size `6(nrScans - 1)` |
| LumSystem.AssembledB | src/lum6Deuler.cc:357-365 | the right-hand side built from a zero `B` has `6(nrScans - 1)` rows |
| LumSystem.AddBlock | src/lum6Deuler.cc:83 | block `(p,q)` of `G` is incremented by `M`; every other entry is unchanged |
| LumSystem.SetBlockNeg | src/lum6Deuler.cc:90 | block `(p,q)` of `G` is overwritten with `-M`; every other entry is unchanged |
| LumSystem.AddRows | src/lum6Deuler.cc:82 | rows `6p .. 6p+5` of `B` gain `sign * v`; the other rows are unchanged |
| LumSystem.EnterLink | src/lum6Deuler.cc:74-92 | one link updates every entry of `G` and `B` as `LinkG`/`LinkB` |
| LumSystem.FillGB3D | src/lum6Deuler.cc:62-94 | every entry of `G` and `B` ends as the fold of all links over its initial value |
| LumEuler.Jacobian | src/lum6Deuler.cc:385-418 | `Ha` is the identity in its first three columns, has `Ha(3,3) = 1` and `Ha(3,4) = 0`, and at the origin its upper-right block is zero |
| LumEuler.Correction | src/lum6Deuler.cc:420-426 | a zero block of `X` gives a zero correction `result` |
| LumEuler.LinkCDs | src/lum6Deuler.cc:343-347 | the `CD` list holds one entry per link, the statistic of that link's point pairs |
| LumEuler.LinkCs | src/lum6Deuler.cc:343-347 | the `C` list holds one entry per link, the statistic of that link's point pairs |
| LumEuler.Solution | src/lum6Deuler.cc:357-367 | `X` has `6(nrScans - 1)` entries |
| LumEuler.ScanBlock | src/lum6Deuler.cc:423 | scan `i` reads entries `6(i-1) .. 6(i-1)+5` of `X` |
| LumEuler.MeanShift | src/lum6Deuler.cc:457-464 | `ret`: the sum of the position correction lengths divided by the number of scans, the reference scan included |
| LumEuler.Relaxation | src/lum6Deuler.cc:295-464 | one iteration: the corrected poses of scans `1 .. nrScans-1` from the solution `X`, and its `ret` |
| LumEuler.Relax | src/lum6Deuler.cc:275-280 | the loop runs at most `budget` iterations; it runs none exactly when the budget is 0 or `ret <= epsilon`; it stops early only with `ret <= epsilon` |
| LumEuler.GraphSlam | src/lum6Deuler.cc:275-280 | the loop started with `ret = DBL_MAX` and at most `max(nrIt, 0)` iterations |
| LumEuler.AssembledSystemSymmetric | src/lum6Deuler.cc:343-367 | the `G` handed to the Cholesky solver is symmetric |
| LumEuler.MeanShiftMeaning | src/lum6Deuler.cc:457-464 | `ret` is never negative, and it is 0 exactly when no scan's position was corrected |
| LumEuler.ZeroSolutionIsFixedPoint | src/lum6Deuler.cc:423-461 | a zero solution leaves every position and angle unchanged and gives `ret = 0` |
| LumEuler.Trace | src/lum6Deuler.cc:278-280 | the trace of the loop starts at the initial state and has at most `budget + 1` entries |
| LumEuler.TraceStep | src/lum6Deuler.cc:278-280 | while iterations remain and `ret > epsilon`, the next trace entry is one more relaxation |
| LumEuler.TraceStops | src/lum6Deuler.cc:278-280 | the trace ends at the first entry where the budget is spent or `ret <= epsilon` |
| LumEuler.TraceEnd | src/lum6Deuler.cc:278-280 | the loop's outcome is the last trace entry, and its iteration count is the trace length minus one |
| LumEuler.RelaxationKeeps | src/lum6Deuler.cc:381-448 | one iteration keeps the number of scans and changes no scan outside `1 .. nrScans-1` |
| LumEuler.RelaxKeeps | src/lum6Deuler.cc:278-448 | however many iterations run, scans outside `1 .. nrScans-1` keep their pose |
| LumEuler.ReferenceNeverMoves | src/lum6Deuler.cc:381-382 | scan 0, and any scan outside the graph, never moves |
| LumEuler.GraphSlamIterations | src/lum6Deuler.cc:275-280 | with `nrIt >= 1` and `epsilon < DBL_MAX` the first iteration runs; with `nrIt <= 0` nothing runs and `DBL_MAX` is returned; fewer than `nrIt` iterations run only once `ret <= epsilon` |
| LumEuler.SingleScanGraph | src/lum6Deuler.cc:381-464 | a graph with only the reference scan takes exactly one iteration, moves nothing and returns 0 |
| LumEuler.ModeLog | src/lum6Deuler.cc:444-448 | after `k` iterations a scan's mode log is `k` copies of its mode |
| LumEuler.SearchPairs | src/lum6Deuler.cc:295-341 | one point-pair list per link, each the search result for that link at the current poses |
| LumEuler.BuildSystem | src/lum6Deuler.cc:357-365 | `G` and `B` start at zero and are filled by `FillGB3D`, giving `AssembledG`/`AssembledB` |
| LumEuler.StatisticsAgree | src/lum6Deuler.cc:343-347 | the statistics computed from the searched pairs are `LinkCDs`/`LinkCs` at the current poses |
| LumEuler.SolveSystem | src/lum6Deuler.cc:343-367 | the iteration's `X` is `Solution` at the current poses |
| LumEuler.RelaxOnce | src/lum6Deuler.cc:295-464 | one iteration on the scan objects commits exactly the poses of `Relaxation`, adding one mode to scans `1 .. nrScans-1`, and returns its `ret` |
| LumEuler.Relaxed | src/lum6Deuler.cc:444-448 | after `k` iterations every scan holds its pose from the snapshot, and scans `1 .. nrScans-1` have gained `k` modes |
| LumEuler.RelaxTurn | src/lum6Deuler.cc:281-464 | one turn of the loop on the scan objects is one `Relaxation` step of the snapshot |
| LumEuler.DoGraphSlam6D | src/lum6Deuler.cc:240-471 | the scans end in the poses of `GraphSlam`, each non-reference scan has gained one mode per iteration, and `ret` is returned |
| PoseUpdate.CorrectedPose | src/lum6Deuler.cc:438-441 | new position plus `result[0..2]` is the old position; new angles plus `result[3..5]` are the old angles; the quaternion follows from the new angles |
| PoseUpdate.PositionShift | src/lum6Deuler.cc:457-460 | the vector whose length is summed is `result[0..2]` |
| PoseUpdate.CorrectedPoses | src/lum6Deuler.cc:381-448 | scans `1 .. n-1` take their corrected pose; every other scan keeps its pose |
| PoseUpdate.SumShiftsNonNegative | src/lum6Deuler.cc:457-461 | with a norm as `Len`, `sum_position_diff` is never negative |
| PoseUpdate.SumShiftsZero | src/lum6Deuler.cc:457-461 | with a norm as `Len`, `sum_position_diff` is 0 exactly when every position correction is zero |
| PoseUpdate.ZeroCorrectionKeepsPose | src/lum6Deuler.cc:438-441 | a zero `result` keeps position and angles, and adds 0 to the sum |
| PoseUpdate.CorrectScan | src/lum6Deuler.cc:437-448 | only scan `i` changes: it takes its corrected pose and gains the given mode |
| PoseUpdate.UpdateOne | src/lum6Deuler.cc:382-462 | one turn of the update loop corrects scan `i` and adds its correction length to the sum |
| PoseUpdate.UpdatePoses | src/lum6Deuler.cc:381-462 | scans `1 .. n-1` are corrected in order, the last in terminal mode, and the sum of correction lengths is returned |
| Scans.ModeFor | src/lum6Deuler.cc:444-448 | the mode is 2 exactly for scan `n-1` and 1 for every other scan |
| Scans.Scan.TransformToEuler | src/lum6Deuler.cc:444-448 | the scan takes the given position and angles, its quaternion follows from the angles, and the mode is logged |
| Scans.Scan.TransformToQuat | trunk/src/elch6Dquat.cc:94 | the scan takes the given position and quaternion, its angles follow from the quaternion, and the mode is logged |
| Scans.Scan.GetPose | trunk/src/elch6Dquat.cc:52-58 | the pose read is `rPos`, `rPosTheta` and `rPosQuat` |
| Scans.Scan.Register | trunk/src/elch6Dquat.cc:60 | the matcher moves a scan of the end meta-scan to a new pose without logging a mode |
| ElchQuat.ComponentGraphList | trunk/src/elch6Dquat.cc:17-27 | there are exactly seven component graphs, graph `j` built from all edges |
| ElchQuat.ComponentGraphEdges | trunk/src/elch6Dquat.cc:20-27 | every edge of `g` appears exactly once in component graph `j`, at its own position, between the same scans, weighted by `C(j+1, j+1)` of its covariance |
| ElchQuat.ComponentGraphs | trunk/src/elch6Dquat.cc:17-27 | the array `grb[7]` ends holding the seven component graphs at the current poses |
| ElchQuat.EmptyGraphs | trunk/src/elch6Dquat.cc:17 | the seven graphs start empty, and no scan changes |
| ElchQuat.AddEdgeOf | trunk/src/elch6Dquat.cc:21-26 | one turn of the edge loop extends every component graph by edge `e` |
| ElchQuat.AddEdge | trunk/src/elch6Dquat.cc:24-26 | each component graph gains the edge with weight `C(j+1, j+1)` |
| ElchQuat.Balanced | trunk/src/elch6Dquat.cc:29-32 | `weights[j][k]` is the balancer's weight of vertex `k` in component graph `j` |
| ElchQuat.BalanceWeights | trunk/src/elch6Dquat.cc:29-32 | the new `weights[7][n]` array holds `Balanced` |
| ElchQuat.ZeroedEnds | trunk/src/elch6Dquat.cc:45-49 | entries of vertices `last-2 .. last` are 0 in all seven components, and every other entry is unchanged |
| ElchQuat.ZeroEnds | trunk/src/elch6Dquat.cc:45-49 | the weights array is zeroed in place as `ZeroedEnds` |
| ElchQuat.PoseVector | trunk/src/elch6Dquat.cc:52-58 | `delta` is first filled with the position and then the quaternion of the last scan |
| ElchQuat.LoopDelta | trunk/src/elch6Dquat.cc:65-71 | each component of `delta` is the component after the match minus the component before it |
| ElchQuat.DeltaRoundTrip | trunk/src/elch6Dquat.cc:51-71 | the pose before the match plus `delta` is the pose after it, component by component |
| ElchQuat.DeltaZero | trunk/src/elch6Dquat.cc:65-71 | `delta` is zero exactly when the match left the last scan's position and quaternion unchanged |
| ElchQuat.Matched | trunk/src/elch6Dquat.cc:34-63 | the match moves scans `last-2 .. last` by the motion the matcher derives from the two meta-scans built from `first .. first+2` and `last-2 .. last`; every other scan, and every mode log, is unchanged |
| ElchQuat.RegisterScan | trunk/src/elch6Dquat.cc:60 | one scan takes a new pose; nothing else changes |
| ElchQuat.MatchEnds | trunk/src/elch6Dquat.cc:34-63 | on the scan objects, the match leaves the scans as `Matched` |
| ElchQuat.StorePose | trunk/src/elch6Dquat.cc:51-58 | the new `delta` holds the last scan's pose vector, and no scan changes |
| ElchQuat.Difference | trunk/src/elch6Dquat.cc:65-71 | the second write turns `delta` into after minus before, and no scan changes |
| ElchQuat.MatchAndSubtract | trunk/src/elch6Dquat.cc:60-71 | the match, then `delta` becomes the change of the last scan's pose |
| ElchQuat.ComputeDelta | trunk/src/elch6Dquat.cc:51-71 | the scans end as `Matched`, and `delta` is the last scan's pose after minus before the match |
| ElchQuat.Column | trunk/src/elch6Dquat.cc:85-91 | entry `j` of the column of vertex `i` is `weights[j][i]` |
| ElchQuat.Share | trunk/src/elch6Dquat.cc:85-91 | component `k` of scan `i`'s share is `delta[k] * (weights[k][i] - weights[k][0])` |
| ElchQuat.ShiftedPos | trunk/src/elch6Dquat.cc:85-87 | the position components gain the first three shares |
| ElchQuat.RawQuat | trunk/src/elch6Dquat.cc:88-91 | the quaternion components gain the last four shares |
| ElchQuat.ClosedPose | trunk/src/elch6Dquat.cc:83-94 | position `k` becomes `old + delta[k] * (weights[k][i] - weights[k][0])`; the quaternion is the normalised shifted quaternion, and the angles follow from it |
| ElchQuat.ClosedPoses | trunk/src/elch6Dquat.cc:84-95 | scans `1 .. n-1` take their closed pose, and scan 0 and scans beyond the graph keep theirs |
| ElchQuat.Distributed | trunk/src/elch6Dquat.cc:84-95 | the scan states after the distribution pass: scans `1 .. n-1` hold their closed pose and their mode; the number of scans is kept |
| ElchQuat.DistributeOne | trunk/src/elch6Dquat.cc:85-94 | one turn of the distribution loop commits scan `i`'s closed pose with its mode |
| ElchQuat.Distribute | trunk/src/elch6Dquat.cc:83-95 | the scans end as `Distributed` of the weights and `delta` the loop started with |
| ElchQuat.LoopWeights | trunk/src/elch6Dquat.cc:29-49 | the weights form a 7 by `n` table |
| ElchQuat.ClosedLoop | trunk/src/elch6Dquat.cc:14-96 | the scan states after `close_loop`: match, `delta`, balanced and end-zeroed weights, then distribution; the number of scans is kept |
| ElchQuat.ElchWeights | trunk/src/elch6Dquat.cc:17-49 | the weights array holds the balanced, end-zeroed weights of the current poses, and no scan changes |
| ElchQuat.CloseLoop | trunk/src/elch6Dquat.cc:14-96 | `close_loop` on the scan objects leaves the scans exactly as `ClosedLoop` of their initial states |
| ElchQuat.EqualWeightKeepsComponent | trunk/src/elch6Dquat.cc:85-91 | a scan whose weight equals vertex 0's weight in component `k` is unchanged in that component before normalisation |
| ElchQuat.ZeroWeightShift | trunk/src/elch6Dquat.cc:85-87 | a scan with zero weight in position component `k` moves by `-delta[k] * weights[k][0]` |
| ElchQuat.ZeroDeltaKeepsPose | trunk/src/elch6Dquat.cc:85-93 | a zero `delta` keeps the position, and the quaternion is only normalised |
| ElchQuat.ClosedPoseUnitQuaternion | trunk/src/elch6Dquat.cc:93-94 | a normaliser gives every committed quaternion unit length |
| ElchQuat.DistributedScan | trunk/src/elch6Dquat.cc:84-95 | after the distribution, scans `1 .. n-1` hold their closed pose and one more mode, 2 exactly for scan `n-1`; every other scan is unchanged |
| ElchQuat.DistributedZeroWeight | trunk/src/elch6Dquat.cc:85-87 | a distributed scan with zero weight in position component `k` moves by `-delta[k] * weights[k][0]` |
| ElchQuat.ClosedLoopScans | trunk/src/elch6Dquat.cc:84-95 | after `close_loop`, scans `1 .. n-1` take their closed pose from the matched pose and one mode, terminal exactly for `n-1`. Scan 0 keeps its mode log, and it keeps its pose too unless it belongs to the end meta-scan |
| ElchQuat.EndScansShift | trunk/src/elch6Dquat.cc:45-87 | each end meta-scan scan is moved back by `delta[k] * weights[k][0]` in each position component, counted from its matched position |

## Left out

- Console output is not modelled: every `cout`, the quiet-mode `QuatToAA` print of `delta`, and the `WRITE_GRAPH_NET` debug dump. None of them changes state the engines use.
- The OpenMP parallel pair search is modelled as a sequential loop. Its iterations are independent.
- Floating-point rounding is not modelled. `DBL_MAX` is kept as its exact value, and the reciprocal `1.0 / ss` is a hook. With zero residual the source divides by zero and gets an infinity, which reals cannot represent.
- Point-pair search is a hook: `Scan::getPtPairs`, `getPtPairsCache` and `initCache`, with `rnd` and `max_dist_match2_LUM`. The "empty link" message for one or no pairs is only printed, so nothing is modelled for it.
- The numeric routines are hooks: the matrix inverses `MM.i()` and `Ha.i()`, `solveSparseCholesky`, `cos`, `sin`, `Len`, `covarianceQuat`, `graph_balancer`, the ICP match and `Normalize4`.
- The 4x4 transformation matrix behind `transformToEuler` and `transformToQuat` is not modelled. So are the point clouds it moves and the frame entries it writes. The model keeps the committed pose, converts the rotation through the `Rotations` hook, and logs the transform mode.
- The allocation and deletion of the two meta-scans are not modelled, and neither are `ptpairs` or its deletion. The match is modelled by its effect: the end meta-scan's three scans move by the motion the matcher derives from the start and end poses.
- Scans.Scan.Register: records no frame entry for the pose change the matcher makes, because the matcher's own logging is not part of this model.
- The error paths of the matrix inversions are hidden by the `inverse` hook, and the model does not follow them. For a link with one or two pairs, `MM` is singular: for one pair, see `LumLinks.SinglePairMomentsSingular`; for two pairs, a rotation about the line through both midpoints is in its kernel. So `MM.i()` (src/lum6Deuler.cc:192) has no exact result there. `Ha.i()` (src/lum6Deuler.cc:420) is singular when the cosine of the second Euler angle is 0, since the determinant of `Ha` is minus that cosine. newmat raises an exception on such a matrix.
- LumLinks.SinglePairVariance: states the arithmetic of lines 209-210 for one pair, given whatever `D` the inverse hook yields; the singular `MM` before it is covered only by the line above.
- LumEuler.Relaxation: a pose list shorter than the graph is outside the source's domain, because the source would index past `allScans`. The function returns the poses unchanged with `ret = 0` there, and no property depends on that branch.
- PoseUpdate.SumShiftsNonNegative and PoseUpdate.SumShiftsZero: proved for any `Len` that is a norm (`IsNorm`), not for the square root of the source in particular.
- ElchQuat.ClosedPoseUnitQuaternion: proved for any `Normalize4` that scales non-zero quaternions to unit length (`IsNormalizer`). A zero quaternion is left to the hook.
