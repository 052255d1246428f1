# Marriage learning in d2suite: predictors and ML_BADMM bookkeeping

This project models the core of d2suite's marriage learner
(`d2suite/src/learn/marriage_learner.hpp`). The learner is an ensemble of L
classifiers, the "learner" element. It is trained against a block of
discrete distributions ("elements"), each made of weighted support points.
The model covers three parts:

- **The two predictors.**
  - Winner-take-all gives element i the class, from 1 upward, whose EMD
    to the learner is smallest. Ties go to the first such class.
  - Voting picks, for every cost entry, the cheapest class from 1
    upward. It then transports the data onto the learner under that
    best-of-classes cost. Each element gets the class that receives the
    most transported mass; ties go to the first class.
  - Both return the number of hits divided by the number of elements.
  - Voting restores the label array it saved on entry.
- **The dense sample weights.**
  - `_get_sample_weight` gives a classifier a weight vector of 2·col
    entries. The first half is beta times the support-point weight the
    classifier does not take. The second half is the weight it takes.
  - `_get_sample_size` is 2·col.
- **The ML_BADMM bookkeeping.** ML_BADMM is the trainer.
  - It starts from uniform class weights and zero multipliers.
  - The initial coupling has entry weight[k]·w[j].
  - The classifiers are synced round-robin: classifier j comes from
    worker j % W. The bootstrap loop syncs them in batches.
  - Each iteration builds the adjusted cost C − beta·Ctmp. Then it:
    - steps rho by the residual rule;
    - takes the mean absolute cost as the new scale totalC;
    - rescales C and Lambda, and drops the multipliers' old scale on a
      restart;
    - reports the loss dot(C, Pi2) / size · totalC · rho;
    - sweeps the elements, handing each EMD_BADMM call its own block of
      the cache and averaging the residuals the calls report;
    - re-fits every classifier with the sample weight of its plan column.

The model uses the following conventions.

- **Numbers.** `real_t` is an exact real. Division by an element count
  that may be zero gives `Ratio`: `NaN` for 0/0, as the source's
  `accuracy /= global_size` gives on an empty block.
- **Cache layout.** Matrices are the source's row-major col × L buffers:
  entry k·L + j couples support point k with classifier j.
- **External routines.** The distance and transport routines and the
  classifier backend are not modelled; their outputs enter as
  parameters. Fits and syncs are recorded as `Event`s in a log.
- **Workers.** The model takes the view of a single worker, so every
  rabit `Allreduce` is the identity. The bootstrap schedule is the
  exception: it is modelled for any world size W and rank.

Modules:

- `Common` (common.dfy) holds:
  - the BLAS stand-ins `Sum`, `AbsSum`, `Dot` and `Scaled`;
  - the per-element prefix `Offset` and `Col`;
  - the matrix views `Cell`, `Row` and `Column`;
  - `Ratio` and `Quotient`;
  - the label cast `LabelIndex`.
- `Selection` (selection.dfy) holds the first arg-min and arg-max, the
  tie rule of both scans.
- `Data` (block.dfy) holds the `Block` class and a label array that
  prediction overwrites and restores.
- `Predict` (predict.dfy) holds the two predictors.
- `Schedule` (schedule.dfy) holds the ownership and sync schedule.
- `Learning` (trainer.dfy) holds the sample weights and the `Trainer`
  class, which keeps ML_BADMM's cache and scalars as fields.

Two facts about the source that shape the model:

- **Re-fit with dense data.** Classifiers are fitted by their owner and
  synced in batches only in the `_USE_SPARSE_ACCELERATE_` branch of the
  re-fit (lines 460-476), which is not modelled. In the dense path (lines
  477-482), every worker fits every classifier in turn and issues no syncs.
  `Trainer.Refit` therefore hands every classifier its sample weight; it
  has no schedule.
- **Label layout.** The data-block header is not part of this model. The
  layout of the label array is inferred from the predictors: they save and
  restore the labels with a copy of `col` values (lines 94-95 and 151). So
  the block holds one label per support point, and element i's label is
  the one at `labels[Offset(i)]`, the first point of its block
  (`data[i].label[0]`, line 96).

## Model

| member | source | states |
|---|---|---|
| Common.Quotient | d2suite/src/learn/marriage_learner.hpp:60-63 | dividing a sum by a count gives NaN exactly when the count is zero, and otherwise a value that, times the count, gives back the sum |
| Common.DotScaled | d2suite/src/learn/marriage_learner.hpp:371-379 | scaling the cost vector by alpha (BLAS `scal`) scales its inner product with the plan by alpha |
| Common.AbsSum | d2suite/src/learn/marriage_learner.hpp:362 | reference definition of BLAS `asum`: the sum of the absolute values of the entries |
| Common.Dot | d2suite/src/learn/marriage_learner.hpp:377-379 | reference definition of BLAS `dot`: the sum of the entry-wise products |
| Common.Offset | d2suite/src/learn/marriage_learner.hpp:129-135 | reference definition of the cursor: element i's block starts after the support points of elements 0..i-1 |
| Common.Col | d2suite/src/learn/marriage_learner.hpp:417-428 | reference definition of `col`: the total number of support points, Offset(size) |
| Common.LabelIndex | d2suite/src/learn/marriage_learner.hpp:58 | the cast `(size_t) y[i]` truncates toward zero: a non-negative label maps to the integer r with r ≤ y < r+1, a label in (-1, 0) maps to 0, and a label ≤ -1 to the no-hit value -1 |
| Common.BlockInPlan | d2suite/src/learn/marriage_learner.hpp:417-428 | element i's block of lens[i]·L cache entries starts where the earlier blocks end and stays inside the col·L buffer |
| Selection.FirstArgMin | d2suite/src/learn/marriage_learner.hpp:50-57 | a strict `<` scan returns an index in range whose value is minimal and strictly below every value before it, i.e. the first minimum |
| Selection.FirstArgMax | d2suite/src/learn/marriage_learner.hpp:138 | `std::max_element` returns an index in range whose value is maximal and strictly above every value before it, i.e. the first maximum |
| Selection.FirstArgMinUnique | d2suite/src/learn/marriage_learner.hpp:50-57 | the first minimum is unique: any index that is minimal and strictly below all earlier ones is the one the scan returns |
| Selection.FirstArgMaxUnique | d2suite/src/learn/marriage_learner.hpp:138 | the first maximum is unique in the same sense |
| Data.Block.ElementLabels | d2suite/src/learn/marriage_learner.hpp:25 | one label per element, the one stored at its first support point (`data[i].label[0]`) |
| Data.Block.LoadLabels | d2suite/src/learn/marriage_learner.hpp:96 | the loop filling `y` yields exactly the element labels |
| Predict.Hits | d2suite/src/learn/marriage_learner.hpp:58 | the number of correct predictions among n elements is at most n |
| Predict.HitsStep | d2suite/src/learn/marriage_learner.hpp:142 | `accuracy += label == (size_t) y[i]` adds 1 exactly on a hit and 0 otherwise |
| Predict.Accuracy | d2suite/src/learn/marriage_learner.hpp:60-63 | the accuracy is NaN exactly on an empty block; otherwise it lies in [0, 1] and, times the size, equals the hit count |
| Predict.WtaLabel | d2suite/src/learn/marriage_learner.hpp:48-57 | the winner-take-all class lies in [1, NC), has the smallest EMD among classes 1..NC-1, and is the first such class on ties |
| Predict.WtaPredictions | d2suite/src/learn/marriage_learner.hpp:48-57 | one winner-take-all class per element |
| Predict.Winner | d2suite/src/learn/marriage_learner.hpp:49-57 | the scan starting at class 1 with `emd[size]` and strict `<` from class 2 returns the winner-take-all class |
| Predict.PredictByWinnerTakeAll | d2suite/src/learn/marriage_learner.hpp:18-73 | the result is the accuracy of the winner-take-all predictions against the element labels |
| Predict.BestClass | d2suite/src/learn/marriage_learner.hpp:108-119 | the best class of a cost entry lies in [1, NC), has the smallest cost, and is the first such class on ties |
| Predict.BestClasses | d2suite/src/learn/marriage_learner.hpp:108-119 | one best class per cost entry |
| Predict.ScanClasses | d2suite/src/learn/marriage_learner.hpp:109-116 | the scan from DBL_MAX and index -1 returns the best class and its cost when some class costs less than DBL_MAX, and keeps both sentinels otherwise |
| Predict.BestOfClasses | d2suite/src/learn/marriage_learner.hpp:108-119 | index[i] is the best class (or -1) and minC[i] is its cost (or DBL_MAX) minus the class-0 cost |
| Predict.BlockMass | d2suite/src/learn/marriage_learner.hpp:130-133 | reference definition of one class's mass: the sum of Pi[k] over the entries k of the block whose index is cl |
| Predict.Masses | d2suite/src/learn/marriage_learner.hpp:130-133 | entry cl of the class-mass vector is the plan mass of the block's entries whose index is cl |
| Predict.VoteLabel | d2suite/src/learn/marriage_learner.hpp:138 | the voted class lies in [1, NC) |
| Predict.VotePredictions | d2suite/src/learn/marriage_learner.hpp:126-143 | one voted class per element |
| Predict.VoteAt | d2suite/src/learn/marriage_learner.hpp:129-138 | element i's ms = len·L entries start at its prefix offset and end at element i+1's, inside the plan; its vote is the first arg-max of those masses from class 1 |
| Predict.ClassMasses | d2suite/src/learn/marriage_learner.hpp:130-133 | accumulating `thislabel[index[j]] += Pi[j]` yields the class-mass vector of the block |
| Predict.ElementVote | d2suite/src/learn/marriage_learner.hpp:129-138 | one element's pass returns its voted class and moves the cursor to the next element's block |
| Predict.CountVotes | d2suite/src/learn/marriage_learner.hpp:126-143 | the pointer walk over the elements counts exactly the hits of the voted predictions |
| Predict.PredictByVoting | d2suite/src/learn/marriage_learner.hpp:82-164 | the label array is restored and the result is the accuracy of the voted predictions, under the best-of-classes index, against the labels read on entry |
| Predict.MassSplit | d2suite/src/learn/marriage_learner.hpp:130-133 | adding one more entry to a block adds its plan mass to the class it is indexed to |
| Predict.MassTotal | d2suite/src/learn/marriage_learner.hpp:130-133 | the class masses of a block sum to the block's total plan mass |
| Predict.ZeroSum | d2suite/src/learn/marriage_learner.hpp:130 | the zero-initialised `thislabel` vector sums to 0 |
| Predict.NoMassOnClassZero | d2suite/src/learn/marriage_learner.hpp:111-133 | since every index is at least 1, class 0 receives no mass, so the vote from class 1 loses nothing |
| Schedule.AllSyncs | d2suite/src/learn/marriage_learner.hpp:316-317 | the reference schedule syncs classifiers 0..n-1 once each, in order, each from worker j % W |
| Schedule.OwnedMembers | d2suite/src/learn/marriage_learner.hpp:302 | a worker owns exactly the classifiers j < n with j % W == rank, listed in increasing order |
| Schedule.AppendEvent | d2suite/src/learn/marriage_learner.hpp:312-317 | a new fit extends the fit list and a new sync extends the sync list, and nothing else |
| Schedule.AppendFit | d2suite/src/learn/marriage_learner.hpp:302-313 | fitting a classifier that has not yet been synced extends the fits and keeps every fit before its sync |
| Schedule.AppendSync | d2suite/src/learn/marriage_learner.hpp:316-317 | syncing the next classifier from its owner extends the in-order sync sequence by exactly that sync |
| Schedule.AllSyncsSucc | d2suite/src/learn/marriage_learner.hpp:316-317 | the in-order sync sequence to n+1 is the one to n followed by the sync of n |
| Schedule.TilesExtend | d2suite/src/learn/marriage_learner.hpp:315-320 | closing the batch old_j..j when (j+1) % W == 0 or j+1 == len keeps the batches a tiling of [0, j+1) into contiguous ranges of at most W |
| Schedule.SyncBatch | d2suite/src/learn/marriage_learner.hpp:316-319 | syncing old_j..j extends the in-order sync sequence to j+1 and fits nothing |
| Schedule.BootstrapSchedule | d2suite/src/learn/marriage_learner.hpp:301-321 | a worker fits exactly its own classifiers in increasing order, syncs every classifier exactly once, in order, from its owner, never fits a classifier after it is synced, and closes batches that tile [0, len) with the last one ending at len-1 (with the helper `ModSucc` on how (j+1) % W wraps) |
| Schedule.InitialSyncs | d2suite/src/learn/marriage_learner.hpp:247-251 | the start of ML_BADMM syncs every classifier once, in order, from worker i % W |
| Learning.DefaultRestartsOnlyFirst | d2suite/src/learn/marriage_learner.hpp:224-231 | the defaults have rho = 10, beta = 1 and `restart = -1` (SIZE_MAX), which disables restarts in effect: iteration 0 trips the restart test, but with the start-up totalC = 0 the carried scale is 0 either way, so that restart is a no-op; no later feasible iteration restarts, so the carried scale is always totalC·rho |
| Learning.Restarts | d2suite/src/learn/marriage_learner.hpp:366-369 | period 0 never restarts, iteration 0 always restarts with a positive period, a later restart needs iter ≥ period (through the helper `ModBelow`), and the default period `(size_t) -1` restarts only at iteration 0 |
| Learning.NextRho | d2suite/src/learn/marriage_learner.hpp:360-361 | rho halves, doubles or stays, keeps its sign, stays on a NaN residual, and for non-negative residuals halves exactly when prim < dual/2 and doubles exactly when dual < prim/2, never both |
| Learning.AdjustedCost | d2suite/src/learn/marriage_learner.hpp:351-352 | every entry of the adjusted cost is C[i] − beta·Ctmp[i] |
| Learning.LossIsUnscaled | d2suite/src/learn/marriage_learner.hpp:371-381 | the loss taken against the rescaled costs and multiplied back by totalC·rho equals the loss against the unscaled costs (with the helper `CostScaleInverse`: totalC·rho undoes the cost scale) |
| Learning.DotInverse | d2suite/src/learn/marriage_learner.hpp:371-381 | scaling the costs by k and multiplying their dot with the plan by an inverse of k gives back the unscaled dot |
| Learning.CursorStep | d2suite/src/learn/marriage_learner.hpp:417-428 | advancing all eight cache pointers by matsize = len·L moves them from element i's block to element i+1's |
| Learning.SweepCursors | d2suite/src/learn/marriage_learner.hpp:413-432 | element i's EMD_BADMM call gets all cache pointers at offset Offset(i)·L; the pointers end at col·L, and the residual sums are the sums of the reported residuals |
| Learning.BlocksDisjoint | d2suite/src/learn/marriage_learner.hpp:415-428 | the cache blocks of two different elements do not overlap |
| Learning.LastBlockEnds | d2suite/src/learn/marriage_learner.hpp:416-428 | the last element's block ends exactly at the end of the cache |
| Learning.MeanResidualNonNegative | d2suite/src/learn/marriage_learner.hpp:437-438 | the averaged residual is NaN exactly for an empty block and otherwise non-negative when every reported residual is |
| Learning.SampleSize | d2suite/src/learn/marriage_learner.hpp:209-211 | reference definition of the dense sample size 2·col, the length `SampleWeights` produces: col out-of-class entries, then col in-class entries |
| Learning.CarriedScale | d2suite/src/learn/marriage_learner.hpp:359-369 | reference definition of old_totalC: the previous totalC·rho, or 0 when the iteration restarts |
| Learning.SampleWeights | d2suite/src/learn/marriage_learner.hpp:175-190 | entry ii is beta·(weight[ii] − Pi[ii·leading]) and entry col+ii is Pi[ii·leading] |
| Learning.Zero | d2suite/src/learn/marriage_learner.hpp:178 | the first col entries become 0 and the rest is unchanged |
| Learning.Axpy | d2suite/src/learn/marriage_learner.hpp:179-186 | y[t] becomes old y[t] + alpha·x[t] on the first \|x\| entries and is unchanged elsewhere |
| Learning.Copy | d2suite/src/learn/marriage_learner.hpp:187-189 | x is copied into y from offset `off`, and nothing else changes: the entries below `off` and from off+\|x\| on keep their old values |
| Learning.OutOfClassTotal | d2suite/src/learn/marriage_learner.hpp:179-186 | summed over the classes, the out-of-class entries beta·(x − row[i]) give beta·(L·x − row total) |
| Learning.OutOfClassMass | d2suite/src/learn/marriage_learner.hpp:175-190 | with beta = param.beta/(L−1) and a plan row that carries the point's whole weight, the out-of-class sample weights of that point over all L classifiers sum to param.beta times its weight (with the helper `BetaSplit`: (param.beta/(L−1))·(L·x − x) == param.beta·x) |
| Learning.OutOfClassEntries | d2suite/src/learn/marriage_learner.hpp:179-186 | entry ii of each classifier's sample weight is beta·weight[ii] − beta·(its plan entry) |
| Learning.UniformRowSum | d2suite/src/learn/marriage_learner.hpp:247-248 | with w = 1/L the initial coupling gives every support point's row its whole weight |
| Learning.OuterCells | d2suite/src/learn/marriage_learner.hpp:275-279 | the buffer written entry by entry with weight[l / L]·w[l % L] has cell (k, j) == weight[k]·w[j] |
| Learning.Pointwise | d2suite/src/learn/marriage_learner.hpp:306-308 | the bootstrap weight vector has one entry per sample |
| Learning.Fill | d2suite/src/learn/marriage_learner.hpp:272-273 | every entry of the array becomes the given constant |
| Learning.FillRow | d2suite/src/learn/marriage_learner.hpp:276-279 | row k of both plans becomes weight[k]·w[j], and nothing else changes: the entries before and after the row keep their old values |
| Learning.FillPlans | d2suite/src/learn/marriage_learner.hpp:275-279 | every entry l of Pi2 becomes the outer-product entry weight[l / L]·w[l % L], and Pi1 equals Pi2 (the helper `DivBound` keeps l / L below col) |
| Learning.Scale | d2suite/src/learn/marriage_learner.hpp:371-372 | the array becomes its old contents scaled entry by entry by alpha |
| Learning.DotOf | d2suite/src/learn/marriage_learner.hpp:377-379 | the loop computes the inner product of the two arrays |
| Learning.Trainer.constructor | d2suite/src/learn/marriage_learner.hpp:269 | allocates fresh col·L cache matrices and an L-entry class-weight vector |
| Learning.Trainer.Start | d2suite/src/learn/marriage_learner.hpp:247-281 | w = 1/L. If L > 1: rho and beta = param.beta/(L−1) come from the parameters, Lambda = 0, Pi2 is the outer product weight[k]·w[j], Pi1 == Pi2, the residuals are 1 and totalC = 0. Success iff L > 1 |
| Learning.Trainer.ComputeCost | d2suite/src/learn/marriage_learner.hpp:343-352 | Ctmp holds the label distance and C the adjusted cost C − beta·Ctmp |
| Learning.NewScale | d2suite/src/learn/marriage_learner.hpp:362-364 | the mean absolute value of a cost vector with a non-zero absolute total is positive, satisfies `MeanAbsCost`, and has a non-zero product with any non-zero rho, so the scale 1/(rho·totalC) is defined |
| Learning.Trainer.ScaleCache | d2suite/src/learn/marriage_learner.hpp:371-372 | C becomes its old contents scaled by k and Lambda its old contents scaled by m |
| Learning.MultipliersCarried | d2suite/src/learn/marriage_learner.hpp:366-372 | multipliers scaled by old_totalC/(totalC·rho) and multiplied back by totalC·rho are the old multipliers times old_totalC |
| Learning.Trainer.Rescale | d2suite/src/learn/marriage_learner.hpp:358-372 | rho takes its next value; old_totalC is the carried scale `CarriedScale`: the old totalC·rho, or 0 on a restart; totalC is positive and `MeanAbsCost` holds, so totalC·col·L is the absolute sum of the costs (the helper `NewScale` derives this from the division, together with rho·totalC ≠ 0); C is scaled by 1/(rho·totalC) and Lambda by old_totalC/(totalC·rho), so every multiplier times the new scale totalC·rho is its old value times old_totalC: the unscaled multipliers carry over, or drop to 0 on a restart; Pi2 is unchanged |
| Learning.Trainer.Loss | d2suite/src/learn/marriage_learner.hpp:377-381 | the loss is dot(C, Pi2)·totalC·rho divided by the number of elements |
| Learning.Trainer.Sweep | d2suite/src/learn/marriage_learner.hpp:410-438 | each element's call gets the cache at its block offset; Pi2 and Lambda become what the calls leave; the residuals become the reported sums divided by the number of elements |
| Learning.Trainer.Refit | d2suite/src/learn/marriage_learner.hpp:444-492 | classifier i is fitted with the sample weight of Pi2's column i |
| Learning.Trainer.Bootstrap | d2suite/src/learn/marriage_learner.hpp:293-324 | the sample weight comes from column 0 of Pi2; each owned classifier is fitted with it multiplied entry-wise by its uniform draws and nothing else is fitted; the syncs follow the bootstrap schedule |
| Learning.Trainer.Iterate | d2suite/src/learn/marriage_learner.hpp:339-492 | one iteration keeps beta, leaves the label distance in Ctmp, steps rho, sets old_totalC to the carried scale of the previous totalC·rho (0 on a restart), makes totalC the positive mean absolute adjusted cost and C the adjusted cost scaled by 1/(rho·totalC); it reports as loss the adjusted-cost dot with the plan it started from, per element, independent of the rescaling; the residuals become the sweep's averages; the plans and multipliers become the sweep's; every classifier is re-fitted from the new plan |

## Left out

- The routines `_pdist2`, `_pdist2_label`, `_pdist2_alllabel`, `EMD`, `EMD_BADMM` and `allocate_badmm_cache`'s storage are not part of this model. Their results are parameters: `emds`, `c`, `pi`, `dist`, `labelDist`, `pRes`, `dRes`, `plan` and `multipliers`.
- The classifier backend (`init`, `fit`, `sync`) is likewise not part of this model. Fits and syncs are recorded as `Schedule.Event`s, or returned as the weight vectors that are handed over.
- The rabit layer (`Allreduce`, `GetWorldSize`, `GetRank`, `Barrier`) is not modelled. The model takes a single worker's view, so every sum is local. World size and rank are parameters only in `Schedule` and `Trainer.Bootstrap`.
- The random draws (`std::random_device`, `mt19937`, `uniform_real_distribution`) are the parameter `draws`. That they lie in [0, 1) is not assumed.
- Console output (status lines, progress counters, `fflush`) has no effect on state and is left out.
- Floating-point rounding, overflow and infinities are not modelled: `real_t` is an exact real. NaN appears only where an element count of zero is divided by, through `Ratio`.
- The `_USE_SPARSE_ACCELERATE_` branches are not modelled: the sparse `_get_sample_weight` and `_get_sample_size`, `set_communicate`, and the batched sparse re-fit.
- The `write_label` / `scores` / `class_proportion` output paths of both predictors are not modelled, nor the dead read `w = thislabel[(size_t) y[i]]`. Those paths size their buffers inconsistently: `scores` is resized to col·L on line 30 but indexed as size·NC on lines 34 and 40, and line 140 indexes the `class_proportion` pointer rather than the vector.
- The `max_iter` epoch loop is not modelled as a loop: `Trainer.Iterate` is one pass of its body. The per-iteration validation and training-accuracy calls (lines 394-399 and 499-500) are the predictors, modelled on their own. The validation loop keeps only the last block's accuracy, which is reporting only.
- `old_prim_res` and `old_dual_res` are saved but never read (the loop that would use them is commented out), so they are not modelled.
- Pi1 and the scratch arrays `Ltmp`, `buffer` and `Pi_buffer` are worked on only inside `EMD_BADMM`. The model sets Pi1 at start-up and represents the scratch arrays only as sweep cursors.
- The `assert(err_code >= 0)` after each fit is not modelled, because fit is not modelled.
- `get_dense_if_need_ec` / `release_dense_if_need_ec`, which produce X and y for the classifiers, are not part of this model.
- Learning.Trainer.Rescale: requires rho != 0 and a non-zero absolute cost total. The source divides by rho·totalC unguarded, and the resulting infinity/NaN has no exact-real counterpart.
- Learning.Trainer.Iterate: carries the same two requirements as Rescale, for the same reason.
- Predict.PredictByVoting: requires that at every cost entry some class in 1..NC-1 costs less than DBL_MAX. Otherwise the scan keeps `index = (size_t) -1` and line 132 writes `thislabel[SIZE_MAX]`, out of bounds.
- Predict.PredictByWinnerTakeAll: requires at least two classes. With NC == 1, `emd` holds only the class-0 row of `size` entries, and the scan's start value `emd[size]` reads past its end.
- Common.LabelIndex: a label ≤ -1 makes `(size_t) y` undefined; the model maps it to -1, which never counts as a hit.
- Learning.Trainer.Start: takes L ≤ 1 as failure (`ok == false`), where the source's `assert(learner.len > 1)` aborts. With L == 0, `learner.len - 1` would also wrap to SIZE_MAX before that assert; this is not modelled.
- Learning.Trainer.Rescale: does not state that the rescaled costs have mean absolute value 1/rho. Only the scaling relations and totalC's defining equation are stated.
- Learning.Trainer.Iterate: `EMD_BADMM` is not part of this model, and the sweep is taken to change only Pi2 and Lambda of the cache. C, Ctmp and the scalars persist through it, which is what the contract's statements about them after the sweep rely on.
- Learning.Pointwise: states only the length of the bootstrap weight vector. Its entries are tied to `draws[j][i] · sample_weight[i]` through `Trainer.Bootstrap`'s contract.
