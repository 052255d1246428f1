/**
 * The bookkeeping of ML_BADMM, the marriage-learning trainer: the uniform
 * initial coupling, the per-iteration cost adjustment, the rescaling of
 * costs and multipliers with the rho schedule and the restart rule, the
 * loss, the cursor sweep that hands each element its block of the BADMM
 * cache, and the sample weights each classifier is fitted with.
 *
 * The cache matrices C, Ctmp, Lambda, Pi1 and Pi2 are row-major
 * col x L matrices: entry k*L + j couples support point k with class j.
 * With a single worker every Allreduce is the identity, so global_col and
 * global_size are the block's own col and size.
 */
module Learning {
  import opened Common
  import opened Data
  import opened Schedule

  /** ML_BADMM_PARAM; `restart = -1` is SIZE_MAX. */
  datatype Params = Params(maxIter: nat, badmmIter: nat, rho: real, beta: real, restart: nat, bootstrap: bool)

  const DefaultParams: Params := Params(50, 50, 10.0, 1.0, SIZE_MAX, false)

  /**
   * The default `restart = -1` disables restarts in effect. Iteration 0
   * trips the restart test (0 % SIZE_MAX == 0), but nothing later in a
   * feasible run does, and at iteration 0 the scale carried over is the
   * start-up totalC = 0 times rho, which is 0 anyway: that restart is a
   * no-op, and the carried scale is always the plain totalC * rho.
   */
  lemma DefaultRestartsOnlyFirst(iter: nat, totalC: real, rho: real)
    requires iter < SIZE_MAX
    ensures DefaultParams.restart == SIZE_MAX && DefaultParams.rho == 10.0 && DefaultParams.beta == 1.0
    ensures Restarts(iter, DefaultParams.restart) <==> iter == 0
    ensures iter > 0 ==> CarriedScale(iter, DefaultParams.restart, totalC, rho) == totalC * rho
    ensures iter == 0 && totalC == 0.0 ==> CarriedScale(iter, DefaultParams.restart, totalC, rho) == totalC * rho
  {
  }

  /**
   * Whether iteration `iter` restarts BADMM, dropping the multipliers.
   * A restart period of 0 never restarts; the first iteration always
   * restarts; the default period SIZE_MAX restarts only at iteration 0.
   */
  function Restarts(iter: nat, restart: nat): (b: bool)
    ensures b ==> restart > 0
    ensures restart > 0 && iter == 0 ==> b
    ensures b && iter > 0 ==> iter >= restart
    ensures restart == SIZE_MAX && iter < SIZE_MAX ==> (b <==> iter == 0)
  {
    ModBelow(iter, restart);
    restart > 0 && iter % restart == 0
  }

  lemma ModBelow(x: nat, m: nat)
    ensures x < m ==> x % m == x
  {
    if x < m {
      CellDivMod(m, 0, x);
    }
  }

  /**
   * The rho schedule: halve rho when the primal residual is below half the
   * dual one, then double it when the dual residual is below half the
   * primal one. Both tests are IEEE comparisons, so a NaN residual leaves
   * rho alone; for non-negative residuals at most one test fires.
   */
  function NextRho(rho: real, primRes: Ratio, dualRes: Ratio): (r: real)
    ensures r == rho || r == rho / 2.0 || r == rho * 2.0
    ensures rho > 0.0 ==> r > 0.0
    ensures rho != 0.0 ==> r != 0.0
    ensures primRes.NaN? || dualRes.NaN? ==> r == rho
    ensures primRes.Num? && dualRes.Num? && primRes.value >= 0.0 && dualRes.value >= 0.0 ==>
      r == (if primRes.value < 0.5 * dualRes.value then rho / 2.0
            else if dualRes.value < 0.5 * primRes.value then rho * 2.0
            else rho)
  {
    var halved := if Less(primRes, Times(0.5, dualRes)) then rho / 2.0 else rho;
    if Less(dualRes, Times(0.5, primRes)) then halved * 2.0 else halved
  }

  /** The adjusted cost `C[i] - beta * Ctmp[i]` of every entry. */
  function AdjustedCost(dist: seq<real>, labelDist: seq<real>, beta: real): (c: seq<real>)
    requires |dist| == |labelDist|
    ensures |c| == |dist|
    ensures forall i :: 0 <= i < |dist| ==> c[i] == dist[i] - beta * labelDist[i]
  {
    seq(|dist|, i requires 0 <= i < |dist| => dist[i] - beta * labelDist[i])
  }

  /**
   * The scale `old_totalC` the multipliers carry into a new iteration: the
   * previous totalC * rho, or 0 when the iteration restarts BADMM.
   */
  function CarriedScale(iter: nat, restart: nat, totalC: real, rho: real): real
  {
    if Restarts(iter, restart) then 0.0 else totalC * rho
  }

  /** The factor 1 / (rho * totalC) the costs are scaled by. */
  function CostScale(rho: real, totalC: real): real
    requires rho * totalC != 0.0
  {
    1.0 / (rho * totalC)
  }

  /** The factor old scale / (totalC * rho) the multipliers are scaled by. */
  function MultiplierScale(oldTotalC: real, totalC: real, rho: real): real
    requires totalC * rho != 0.0
  {
    oldTotalC / (totalC * rho)
  }

  /** A quantity computed on the rescaled costs, multiplied back by totalC * rho. */
  function Unscaled(d: real, totalC: real, rho: real): real
  {
    d * (totalC * rho)
  }

  /**
   * Dividing the loss accumulated against the rescaled costs by their
   * scale recovers the loss against the unscaled costs: the reported loss
   * does not depend on the rescaling.
   */
  lemma {:induction false} LossIsUnscaled(c0: seq<real>, c: seq<real>, pi: seq<real>, rho: real, totalC: real)
    requires |c| == |pi| && rho * totalC != 0.0
    requires Scaled(c0, CostScale(rho, totalC), c)
    ensures Unscaled(Dot(c, pi), totalC, rho) == Dot(c0, pi)
  {
    CostScaleInverse(rho, totalC);
    DotInverse(c0, c, pi, CostScale(rho, totalC), totalC * rho);
  }

  /** `s` undoes a scaling by `k`. */
  ghost predicate Inverse(k: real, s: real)
  {
    k * s == 1.0
  }

  lemma CostScaleInverse(rho: real, totalC: real)
    requires rho * totalC != 0.0
    ensures Inverse(CostScale(rho, totalC), totalC * rho)
  {
  }

  /**
   * The multipliers keep their meaning across a rescale: scaled by
   * old scale / (totalC * rho), each one multiplied back by the new scale
   * totalC * rho is the old multiplier times the old scale (0 on a restart).
   */
  lemma {:induction false} MultipliersCarried(l0: seq<real>, l: seq<real>, oldTotalC: real, totalC: real, rho: real)
    requires totalC * rho != 0.0 && Scaled(l0, MultiplierScale(oldTotalC, totalC, rho), l)
    ensures |l| == |l0|
    ensures forall i :: 0 <= i < |l| ==> Unscaled(l[i], totalC, rho) == oldTotalC * l0[i]
  {
    forall i | 0 <= i < |l|
      ensures Unscaled(l[i], totalC, rho) == oldTotalC * l0[i]
    {
      var s := totalC * rho;
      calc {
        Unscaled(l[i], totalC, rho);
      ==
        (oldTotalC / s * l0[i]) * s;
      ==
        oldTotalC * l0[i] * (s / s);
      ==
        oldTotalC * l0[i];
      }
    }
  }

  /** Scaling by k, then multiplying the inner product by an inverse s of k, recovers it. */
  lemma {:induction false} DotInverse(c0: seq<real>, c: seq<real>, pi: seq<real>, k: real, s: real)
    requires |c| == |pi| && Inverse(k, s) && Scaled(c0, k, c)
    ensures Dot(c, pi) * s == Dot(c0, pi)
  {
    DotScaled(c0, pi, k, c);
    var d, d0 := Dot(c, pi), Dot(c0, pi);
    assert d == k * d0;
    calc {
      d * s;
    ==
      (k * d0) * s;
    ==
      d0 * (k * s);
    == { assert k * s == 1.0; }
      d0;
    }
  }

  /** `t` is the mean absolute value of the entries of `c`: t * |c| == asum(c). */
  ghost predicate MeanAbsCost(t: real, c: seq<real>)
  {
    t * |c| as real == AbsSum(c)
  }

  /** The mean absolute cost totalC = a / n of a non-zero total is positive. */
  lemma MeanTotal(a: real, n: real, totalC: real)
    requires a > 0.0 && n > 0.0 && totalC == a / n
    ensures totalC > 0.0 && totalC * n == a
  {
  }

  /**
   * The new scale of a non-zero cost vector: its mean absolute value is
   * positive, satisfies `MeanAbsCost`, and gives a non-zero product with
   * any non-zero rho.
   */
  lemma NewScale(c: seq<real>, n: real, totalC: real, rho: real)
    requires n == |c| as real && AbsSum(c) != 0.0 && totalC == AbsSum(c) / n && rho != 0.0
    ensures totalC > 0.0 && MeanAbsCost(totalC, c) && rho * totalC != 0.0 && totalC * rho != 0.0
  {
    AbsSumPositive(c);
    AbsSumNonNegative(c);
    MeanTotal(AbsSum(c), n, totalC);
    PositiveProduct(rho, totalC);
  }

  /**
   * The eight BADMM cache pointers `badmm_cache_ptr` carries through the
   * sweep over the elements, as offsets from the start of each array.
   */
  datatype Cursor = Cursor(c: nat, ctmp: nat, pi1: nat, pi2: nat, lambda: nat, ltmp: nat, buffer: nat, piBuffer: nat)

  /** All eight pointers at the same offset `x`. */
  function Aligned(x: nat): Cursor
  {
    Cursor(x, x, x, x, x, x, x, x)
  }

  /** Every pointer moved forward by `d` entries. */
  function Advance(p: Cursor, d: nat): Cursor
  {
    Cursor(p.c + d, p.ctmp + d, p.pi1 + d, p.pi2 + d, p.lambda + d, p.ltmp + d, p.buffer + d, p.piBuffer + d)
  }

  /** Advancing element i's pointers by its lens[i] x L block reaches element i + 1's block. */
  lemma {:induction false} CursorStep(lens: seq<nat>, L: nat, i: nat, cur: Cursor, matsize: int)
    requires i < |lens| && cur == Aligned(Offset(lens, i) * L) && matsize == lens[i] * L
    ensures matsize >= 0 && Advance(cur, matsize) == Aligned(Offset(lens, i + 1) * L)
  {
    BlockInPlan(lens, L, i);
  }

  /**
   * The sweep over the elements: element i is handed the cache pointers
   * in `calls[i]`, all at offset Offset(i) * L, where its own
   * lens[i] x L block starts; `pRes[i]` and `dRes[i]` are the residuals
   * its EMD_BADMM call reports, and the sweep returns their sums.
   */
  method SweepCursors(lens: seq<nat>, L: nat, pRes: seq<real>, dRes: seq<real>)
    returns (calls: seq<Cursor>, final: Cursor, primSum: real, dualSum: real)
    requires |pRes| == |lens| && |dRes| == |lens|
    ensures |calls| == |lens|
    ensures forall i :: 0 <= i < |lens| ==> calls[i] == Aligned(Offset(lens, i) * L)
    ensures final == Aligned(Col(lens) * L)
    ensures primSum == Sum(pRes) && dualSum == Sum(dRes)
  {
    var cur := Aligned(0);
    calls := [];
    primSum, dualSum := 0.0, 0.0;
    var i := 0;
    while i < |lens|
      invariant 0 <= i <= |lens|
      invariant |calls| == i
      invariant forall t :: 0 <= t < i ==> calls[t] == Aligned(Offset(lens, t) * L)
      invariant cur == Aligned(Offset(lens, i) * L)
      invariant primSum == Sum(pRes[..i]) && dualSum == Sum(dRes[..i])
    {
      var matsize := lens[i] * L;
      calls := calls + [cur];
      CursorStep(lens, L, i, cur, matsize);
      cur := Advance(cur, matsize);
      SumStep(pRes, i);
      SumStep(dRes, i);
      primSum := primSum + pRes[i];
      dualSum := dualSum + dRes[i];
      i := i + 1;
    }
    assert pRes[..i] == pRes && dRes[..i] == dRes;
    final := cur;
  }

  /**
   * The blocks the sweep hands out do not overlap: element i's block ends
   * at or before the start of every later element's block.
   */
  lemma {:induction false} BlocksDisjoint(lens: seq<nat>, L: nat, i: nat, j: nat)
    requires i < j < |lens|
    ensures (Offset(lens, i) + lens[i]) * L <= Offset(lens, j) * L
  {
    OffsetLater(lens, i, j);
    MulMono(Offset(lens, i) + lens[i], Offset(lens, j), L);
  }

  /** The last element's block ends exactly at the end of the cache. */
  lemma {:induction false} LastBlockEnds(lens: seq<nat>, L: nat)
    requires |lens| > 0
    ensures Offset(lens, |lens| - 1) * L + lens[|lens| - 1] * L == Col(lens) * L
  {
    BlockInPlan(lens, L, |lens| - 1);
  }

  /**
   * The averaged residual of non-negative per-element residuals is NaN
   * exactly for an empty block and otherwise non-negative.
   */
  lemma MeanResidualNonNegative(res: seq<real>)
    requires forall i :: 0 <= i < |res| ==> res[i] >= 0.0
    ensures Quotient(Sum(res), |res|).NaN? <==> |res| == 0
    ensures Quotient(Sum(res), |res|).Num? ==> Quotient(Sum(res), |res|).value >= 0.0
  {
    SumNonNegative(res);
  }

  /** `_get_sample_size` for a dense block: two copies of every support point. */
  function SampleSize(col: nat): nat
  {
    col * 2
  }

  /**
   * `sw` is the sample weight of the classifier in column `offset` of the
   * col x leading plan `pi`: entry ii is beta times the weight of support
   * point ii the classifier does NOT take, and entry col + ii is the
   * weight it takes.
   */
  ghost predicate IsSampleWeight(sw: seq<real>, weights: seq<real>, pi: seq<real>, leading: nat, offset: nat, beta: real)
  {
    |pi| == |weights| * leading && offset < leading &&
    IsSplit(sw, weights, Column(pi, |weights|, leading, offset), beta)
  }

  /**
   * `sw` splits each support point's weight between the classifier and
   * the rest: entry ii is beta * (weights[ii] - taken[ii]) and entry
   * |weights| + ii is taken[ii].
   */
  ghost predicate IsSplit(sw: seq<real>, weights: seq<real>, taken: seq<real>, beta: real)
  {
    |taken| == |weights| && |sw| == SampleSize(|weights|) &&
    (forall ii :: 0 <= ii < |weights| ==> sw[ii] == beta * weights[ii] - beta * taken[ii]) &&
    (forall ii :: 0 <= ii < |weights| ==> sw[|weights| + ii] == taken[ii])
  }

  /**
   * The dense `_get_sample_weight`: zero the first half, add -beta times
   * the plan column, add beta times the support weights, and copy the plan
   * column into the second half.
   */
  method SampleWeights(weights: seq<real>, pi: seq<real>, leading: nat, offset: nat, beta: real)
    returns (sw: seq<real>)
    requires offset < leading && |pi| == |weights| * leading
    ensures IsSampleWeight(sw, weights, pi, leading, offset, beta)
  {
    var col := |weights|;
    var p := Column(pi, col, leading, offset);
    var a := new real[SampleSize(col)];
    Zero(a, col);
    Axpy(-beta, p, a);
    assert forall t :: 0 <= t < col ==> a[t] == -beta * p[t];
    Axpy(beta, weights, a);
    ghost var half := a[..col];
    assert forall t :: 0 <= t < col ==> half[t] == beta * weights[t] - beta * p[t];
    Copy(p, a, col);
    assert a[..col] == half;
    sw := a[..];
    assert IsSplit(sw, weights, p, beta);
  }

  /** The first n entries of `y` set to 0. */
  method Zero(y: array<real>, n: nat)
    requires n <= y.Length
    modifies y
    ensures forall t :: 0 <= t < n ==> y[t] == 0.0
    ensures forall t :: n <= t < y.Length ==> y[t] == old(y[t])
  {
    var i := 0;
    while i < n
      invariant 0 <= i <= n
      invariant forall t :: 0 <= t < i ==> y[t] == 0.0
      invariant forall t :: i <= t < y.Length ==> y[t] == old(y[t])
    {
      y[i] := 0.0;
      i := i + 1;
    }
  }

  /** CBLAS `axpy` on the first |x| entries: y := alpha * x + y. */
  method Axpy(alpha: real, x: seq<real>, y: array<real>)
    requires |x| <= y.Length
    modifies y
    ensures forall t :: 0 <= t < |x| ==> y[t] == old(y[t]) + alpha * x[t]
    ensures forall t :: |x| <= t < y.Length ==> y[t] == old(y[t])
  {
    var i := 0;
    while i < |x|
      invariant 0 <= i <= |x|
      invariant forall t :: 0 <= t < i ==> y[t] == old(y[t]) + alpha * x[t]
      invariant forall t :: i <= t < y.Length ==> y[t] == old(y[t])
    {
      y[i] := y[i] + alpha * x[i];
      i := i + 1;
    }
  }

  /** CBLAS `copy` of x into y starting at entry `off`. */
  method Copy(x: seq<real>, y: array<real>, off: nat)
    requires off + |x| <= y.Length
    modifies y
    ensures forall t :: 0 <= t < |x| ==> y[off + t] == x[t]
    ensures forall t :: 0 <= t < off ==> y[t] == old(y[t])
    ensures forall t :: off + |x| <= t < y.Length ==> y[t] == old(y[t])
  {
    var i := 0;
    while i < |x|
      invariant 0 <= i <= |x|
      invariant forall t :: 0 <= t < i ==> y[off + t] == x[t]
      invariant forall t :: 0 <= t < off ==> y[t] == old(y[t])
      invariant forall t :: off + i <= t < y.Length ==> y[t] == old(y[t])
    {
      y[off + i] := x[i];
      i := i + 1;
    }
  }

  /**
   * Summed over the classes, the out-of-class entries beta*(x - row[i])
   * give beta * (L * x - the row's total).
   */
  lemma {:induction false} OutOfClassTotal(x: real, row: seq<real>, beta: real, v: seq<real>)
    requires |v| == |row|
    requires forall i :: 0 <= i < |v| ==> v[i] == beta * x - beta * row[i]
    ensures Sum(v) == beta * (|row| as real * x - Sum(row))
  {
    if row != [] {
      var n := |row| - 1;
      OutOfClassTotal(x, row[..n], beta, v[..n]);
    }
  }

  /**
   * The design of beta = param.beta / (L - 1): when the plan's row for a
   * support point carries its whole weight, the out-of-class sample
   * weights of that point, summed over the L classifiers, are
   * param.beta times its weight.
   */
  lemma {:induction false} OutOfClassMass(fits: seq<seq<real>>, weights: seq<real>, pi: seq<real>, L: nat, paramBeta: real, ii: nat,
                        row: seq<real>)
    requires L > 1 && |fits| == L && ii < |weights| && |pi| == |weights| * L
    requires forall i :: 0 <= i < L ==> IsSampleWeight(fits[i], weights, pi, L, i, paramBeta / (L - 1) as real)
    requires row == Row(pi, |weights|, L, ii) && Sum(row) == weights[ii]
    ensures forall i :: 0 <= i < L ==> ii < |fits[i]|
    ensures Sum(seq(L, i requires 0 <= i < L && ii < |fits[i]| => fits[i][ii])) == paramBeta * weights[ii]
  {
    var beta := paramBeta / (L - 1) as real;
    assert forall i :: 0 <= i < L ==> |fits[i]| == 2 * |weights|;
    var v := seq(L, i requires 0 <= i < L && ii < |fits[i]| => fits[i][ii]);
    var x := weights[ii];
    OutOfClassEntries(fits, weights, pi, L, beta, ii, x, row, v);
    OutOfClassTotal(x, row, beta, v);
    var n, t, s := |row| as real, Sum(row), Sum(v);
    BetaSplit(paramBeta, beta, L, n, x, t, s);
  }

  /** Entry ii of every classifier's sample weights is beta * (weights[ii] - its plan entry). */
  lemma {:induction false} OutOfClassEntries(fits: seq<seq<real>>, weights: seq<real>, pi: seq<real>, L: nat, beta: real, ii: nat,
                           x: real, row: seq<real>, v: seq<real>)
    requires |fits| == L && ii < |weights| && |pi| == |weights| * L
    requires forall i :: 0 <= i < L ==> IsSampleWeight(fits[i], weights, pi, L, i, beta)
    requires x == weights[ii] && row == Row(pi, |weights|, L, ii)
    requires |v| == L && forall i :: 0 <= i < L ==> |fits[i]| == 2 * |weights| && v[i] == fits[i][ii]
    ensures |v| == |row|
    ensures forall i :: 0 <= i < |v| ==> v[i] == beta * x - beta * row[i]
  {
    forall i | 0 <= i < L
      ensures v[i] == beta * x - beta * row[i]
    {
      assert IsSampleWeight(fits[i], weights, pi, L, i, beta);
      assert Column(pi, |weights|, L, i)[ii] == row[i];
    }
  }

  /** The arithmetic of OutOfClassMass: (paramBeta / (L - 1)) * (L * x - x) == paramBeta * x. */
  lemma BetaSplit(paramBeta: real, beta: real, L: nat, n: real, x: real, t: real, s: real)
    requires L > 1 && beta == paramBeta / (L - 1) as real
    requires n == L as real && t == x && s == beta * (n * x - t)
    ensures s == paramBeta * x
  {
    assert n * x - t == (L - 1) as real * x;
    assert beta * (L - 1) as real == paramBeta;
  }

  /**
   * With uniform class weights 1/L, a coupling whose entry (k, j) is
   * weight[k] * w[j] gives every support point's row its whole weight.
   */
  lemma {:induction false} UniformRowSum(pi: seq<real>, weights: seq<real>, w: seq<real>, k: nat)
    requires IsOuter(pi, weights, w) && |w| > 0 && k < |weights|
    requires forall j :: 0 <= j < |w| ==> w[j] == 1.0 / |w| as real
    ensures Sum(Row(pi, |weights|, |w|, k)) == weights[k]
  {
    var L := |w|;
    var row := Row(pi, |weights|, L, k);
    ConstSum(row, weights[k] * (1.0 / L as real));
    assert L as real * (1.0 / L as real) == 1.0;
  }

  lemma PositiveProduct(x: real, y: real)
    requires x != 0.0 && y > 0.0
    ensures x * y != 0.0 && y * x != 0.0
  {
  }

  /** Entry t of the row-major |weights| x |w| outer product weights * w^T. */
  function Outer(weights: seq<real>, w: seq<real>, t: nat): real
    requires t < |weights| * |w|
  {
    DivBound(t, |weights|, |w|);
    weights[t / |w|] * w[t % |w|]
  }

  /**
   * `pi` is the row-major |weights| x |w| outer product of the support
   * weights and the class weights: entry (k, j) is weights[k] * w[j].
   */
  ghost predicate IsOuter(pi: seq<real>, weights: seq<real>, w: seq<real>)
  {
    |pi| == |weights| * |w| &&
    forall k, j :: 0 <= k < |weights| && 0 <= j < |w| ==>
      Cell(pi, |weights|, |w|, k, j) == weights[k] * w[j]
  }

  /** Written entry by entry, the outer product has entry (k, j) == weights[k] * w[j]. */
  lemma {:induction false} OuterCells(pi: seq<real>, weights: seq<real>, w: seq<real>)
    requires |pi| == |weights| * |w|
    requires forall t :: 0 <= t < |pi| ==> pi[t] == Outer(weights, w, t)
    ensures IsOuter(pi, weights, w)
  {
    forall k, j | 0 <= k < |weights| && 0 <= j < |w|
      ensures Cell(pi, |weights|, |w|, k, j) == weights[k] * w[j]
    {
      CellDivMod(|w|, k, j);
      CellInRange(|w|, |weights|, k, j);
    }
  }

  lemma DivBound(t: nat, a: nat, b: nat)
    requires t < a * b
    ensures b > 0 && t / b < a
  {
    if t / b >= a {
      MulMono(a, t / b, b);
    }
  }

  /** Entry-wise product of two vectors. */
  function Pointwise(u: seq<real>, v: seq<real>): (r: seq<real>)
    requires |u| == |v|
    ensures |r| == |v|
  {
    seq(|v|, i requires 0 <= i < |v| => u[i] * v[i])
  }

  /** Every entry of `a` set to `x`. */
  method Fill(a: array<real>, x: real)
    modifies a
    ensures forall t :: 0 <= t < a.Length ==> a[t] == x
  {
    var i := 0;
    while i < a.Length
      invariant 0 <= i <= a.Length
      invariant forall t :: 0 <= t < i ==> a[t] == x
    {
      a[i] := x;
      i := i + 1;
    }
  }

  /** One row of the initial coupling: entries l0 .. l0 + |w| - 1 of both plans get x * w[j]. */
  method FillRow(pi1: array<real>, pi2: array<real>, x: real, w: seq<real>, l0: nat)
    requires pi1 != pi2 && pi1.Length == pi2.Length && l0 + |w| <= pi2.Length
    modifies pi1, pi2
    ensures forall t :: l0 <= t < l0 + |w| ==> pi2[t] == x * w[t - l0] && pi1[t] == pi2[t]
    ensures forall t :: 0 <= t < l0 ==> pi2[t] == old(pi2[t]) && pi1[t] == old(pi1[t])
    ensures forall t :: l0 + |w| <= t < pi2.Length ==> pi2[t] == old(pi2[t]) && pi1[t] == old(pi1[t])
  {
    var j := 0;
    while j < |w|
      invariant 0 <= j <= |w|
      invariant forall t :: l0 <= t < l0 + j ==> pi2[t] == x * w[t - l0] && pi1[t] == pi2[t]
      invariant forall t :: 0 <= t < l0 ==> pi2[t] == old(pi2[t]) && pi1[t] == old(pi1[t])
      invariant forall t :: l0 + j <= t < pi2.Length ==> pi2[t] == old(pi2[t]) && pi1[t] == old(pi1[t])
    {
      pi2[l0 + j] := x * w[j];
      pi1[l0 + j] := pi2[l0 + j];
      j := j + 1;
    }
  }

  /**
   * The initial coupling, row by row: entry k*|w| + j of both plans is
   * weights[k] * w[j].
   */
  method FillPlans(pi1: array<real>, pi2: array<real>, weights: seq<real>, w: seq<real>)
    requires pi1 != pi2 && pi1.Length == |weights| * |w| && pi2.Length == |weights| * |w|
    modifies pi1, pi2
    ensures forall t :: 0 <= t < pi2.Length ==> pi2[t] == Outer(weights, w, t) && pi1[t] == pi2[t]
  {
    var k, l := 0, 0;
    while k < |weights|
      invariant 0 <= k <= |weights| && l == k * |w|
      invariant forall t :: 0 <= t < l ==> pi2[t] == Outer(weights, w, t) && pi1[t] == pi2[t]
    {
      MulMono(k + 1, |weights|, |w|);
      FillRow(pi1, pi2, weights[k], w, l);
      forall t | l <= t < l + |w|
        ensures pi2[t] == Outer(weights, w, t)
      {
        CellDivMod(|w|, k, t - l);
      }
      k, l := k + 1, l + |w|;
    }
  }

  /** The CBLAS `scal` of a whole array. */
  method Scale(a: array<real>, alpha: real)
    modifies a
    ensures Scaled(old(a[..]), alpha, a[..])
  {
    var i := 0;
    while i < a.Length
      invariant 0 <= i <= a.Length
      invariant forall t :: 0 <= t < i ==> a[t] == alpha * old(a[t])
      invariant forall t :: i <= t < a.Length ==> a[t] == old(a[t])
    {
      a[i] := alpha * a[i];
      i := i + 1;
    }
  }

  /**
   * The state ML_BADMM keeps between its phases: the learner's class
   * weights, the BADMM cache and the scalars of the rho schedule.
   */
  class Trainer {
    const data: Block
    /** `learner.len`: the number of classes. */
    const L: nat
    /** `learner.w`: the class weights. */
    const w: array<real>
    const C: array<real>
    const Ctmp: array<real>
    const Lambda: array<real>
    const Pi1: array<real>
    const Pi2: array<real>
    var rho: real
    var beta: real
    var totalC: real
    var oldTotalC: real
    var primRes: Ratio
    var dualRes: Ratio

    ghost predicate Valid()
    {
      data.Valid() &&
      w.Length == L &&
      C.Length == data.Cols() * L && Ctmp.Length == data.Cols() * L &&
      Lambda.Length == data.Cols() * L &&
      Pi1.Length == data.Cols() * L && Pi2.Length == data.Cols() * L &&
      w != C && w != Ctmp && w != Lambda && w != Pi1 && w != Pi2 &&
      C != Ctmp && C != Lambda && C != Pi1 && C != Pi2 &&
      Ctmp != Lambda && Ctmp != Pi1 && Ctmp != Pi2 &&
      Lambda != Pi1 && Lambda != Pi2 && Pi1 != Pi2
    }

    /** `allocate_badmm_cache`: one col x L matrix per cache array. */
    constructor (data: Block, L: nat)
      requires data.Valid()
      ensures Valid() && this.data == data && this.L == L
      ensures fresh(w) && fresh(C) && fresh(Ctmp) && fresh(Lambda) && fresh(Pi1) && fresh(Pi2)
    {
      this.data := data;
      this.L := L;
      var n := data.Cols() * L;
      w := new real[L];
      C := new real[n];
      Ctmp := new real[n];
      Lambda := new real[n];
      Pi1 := new real[n];
      Pi2 := new real[n];
      rho, beta, totalC, oldTotalC := 0.0, 0.0, 0.0, 0.0;
      primRes, dualRes := Num(1.0), Num(1.0);
    }

    /**
     * The initialisation of ML_BADMM: uniform class weights; then, unless
     * the learner has fewer than two classes (where the source's assert
     * stops), rho and beta from the parameters, zero multipliers, the
     * coupling weight[k] * w[j] in both plans and unit residuals.
     */
    method Start(params: Params) returns (ok: bool)
      requires Valid()
      modifies this, w, Lambda, Pi1, Pi2
      ensures Valid()
      ensures forall j :: 0 <= j < L ==> w[j] == 1.0 / L as real
      ensures ok <==> L > 1
      ensures ok ==> rho == params.rho && beta == params.beta / (L - 1) as real
      ensures ok ==> primRes == Num(1.0) && dualRes == Num(1.0) && totalC == 0.0
      ensures ok ==> forall m :: 0 <= m < Lambda.Length ==> Lambda[m] == 0.0
      ensures ok ==> IsOuter(Pi2[..], data.weights, w[..])
      ensures ok ==> Pi1[..] == Pi2[..]
    {
      if L > 0 {
        Fill(w, 1.0 / L as real);
      }
      if L <= 1 {
        return false;
      }
      rho := params.rho;
      beta := params.beta / (L - 1) as real;
      Fill(Lambda, 0.0);
      FillPlans(Pi1, Pi2, data.weights, w[..]);
      primRes, dualRes, totalC := Num(1.0), Num(1.0), 0.0;
      ok := true;
      OuterCells(Pi2[..], data.weights, w[..]);
      assert Pi1[..] == Pi2[..];
    }

    /**
     * The cost matrix of an iteration: `dist` is what `_pdist2` writes
     * into C and `labelDist` what `_pdist2_label` writes into Ctmp; the
     * loop then subtracts beta times the label term.
     */
    method ComputeCost(dist: seq<real>, labelDist: seq<real>)
      requires Valid() && |dist| == C.Length && |labelDist| == C.Length
      modifies C, Ctmp
      ensures Ctmp[..] == labelDist
      ensures C[..] == AdjustedCost(dist, labelDist, beta)
    {
      forall i | 0 <= i < C.Length {
        C[i] := dist[i];
      }
      forall i | 0 <= i < Ctmp.Length {
        Ctmp[i] := labelDist[i];
      }
      assert Ctmp[..] == labelDist;
      Axpy(-beta, Ctmp[..], C);
      var c := AdjustedCost(dist, labelDist, beta);
      assert forall t :: 0 <= t < C.Length ==> C[..][t] == c[t];
      assert C[..] == c;
    }

    /**
     * The rescaling at the start of an iteration: remember the old scale
     * totalC * rho (0 on a restart), step rho, take the mean absolute cost
     * as the new totalC, and scale C by 1 / (rho * totalC) and Lambda by
     * old scale / new scale.
     */
    method Rescale(iter: nat, restart: nat)
      requires Valid() && rho != 0.0 && AbsSum(C[..]) != 0.0
      modifies this`rho, this`totalC, this`oldTotalC, C, Lambda
      ensures rho == NextRho(old(rho), primRes, dualRes)
      ensures oldTotalC == CarriedScale(iter, restart, old(totalC), old(rho))
      ensures MeanAbsCost(totalC, old(C[..]))
      ensures totalC > 0.0 && rho != 0.0
      ensures Scaled(old(C[..]), CostScale(rho, totalC), C[..])
      ensures Scaled(old(Lambda[..]), MultiplierScale(oldTotalC, totalC, rho), Lambda[..])
      ensures forall i :: 0 <= i < Lambda.Length ==> Unscaled(Lambda[i], totalC, rho) == oldTotalC * old(Lambda[i])
    {
      var ot := CarriedScale(iter, restart, totalC, rho);
      var r := NextRho(rho, primRes, dualRes);
      var c0 := C[..];
      var n := C.Length as real;
      var tc := AbsSum(c0) / n;
      NewScale(c0, n, tc, r);
      ghost var l0 := Lambda[..];
      ScaleCache(CostScale(r, tc), MultiplierScale(ot, tc, r));
      MultipliersCarried(l0, Lambda[..], ot, tc, r);
      rho, totalC, oldTotalC := r, tc, ot;
    }

    /** The two `scal` calls of the rescaling: C by `k` and Lambda by `m`. */
    method ScaleCache(k: real, m: real)
      requires Valid()
      modifies C, Lambda
      ensures Scaled(old(C[..]), k, C[..]) && Scaled(old(Lambda[..]), m, Lambda[..])
    {
      Scale(C, k);
      ghost var c1 := C[..];
      Scale(Lambda, m);
      assert C[..] == c1;
    }

    /** The loss of the current plan: dot(C, Pi2) / size * totalC * rho. */
    method Loss() returns (loss: Ratio)
      requires Valid()
      ensures IsMean(loss, Unscaled(Dot(C[..], Pi2[..]), totalC, rho), data.Size())
    {
      var dot := DotOf(C, Pi2);
      loss := Quotient(Unscaled(dot, totalC, rho), data.Size());
    }

    /**
     * The BADMM sweep: every element's EMD_BADMM call works on its block
     * of the cache and reports its residuals; `plan` and `multipliers` are
     * what those calls leave in Pi2 and Lambda. The residuals are averaged
     * over the elements.
     */
    method Sweep(pRes: seq<real>, dRes: seq<real>, plan: seq<real>, multipliers: seq<real>)
      returns (calls: seq<Cursor>)
      requires Valid() && |pRes| == data.Size() && |dRes| == data.Size()
      requires |plan| == Pi2.Length && |multipliers| == Lambda.Length
      modifies this`primRes, this`dualRes, Pi2, Lambda
      ensures |calls| == data.Size()
      ensures forall i :: 0 <= i < data.Size() ==> calls[i] == Aligned(Offset(data.lens, i) * L)
      ensures primRes == Quotient(Sum(pRes), data.Size())
      ensures dualRes == Quotient(Sum(dRes), data.Size())
      ensures Pi2[..] == plan && Lambda[..] == multipliers
    {
      var final, p, d;
      calls, final, p, d := SweepCursors(data.lens, L, pRes, dRes);
      forall i | 0 <= i < Pi2.Length {
        Pi2[i] := plan[i];
      }
      forall i | 0 <= i < Lambda.Length {
        Lambda[i] := multipliers[i];
      }
      primRes := Quotient(p, data.Size());
      dualRes := Quotient(d, data.Size());
    }

    /**
     * The dense re-fit: classifier i is fitted with the sample weight of
     * column i of the plan; `fits[i]` is the weight vector it is handed.
     */
    method Refit() returns (fits: seq<seq<real>>)
      requires Valid()
      ensures |fits| == L
      ensures forall i :: 0 <= i < L ==> IsSampleWeight(fits[i], data.weights, Pi2[..], L, i, beta)
    {
      fits := [];
      var i := 0;
      while i < L
        invariant 0 <= i <= L && |fits| == i
        invariant forall t :: 0 <= t < i ==> IsSampleWeight(fits[t], data.weights, Pi2[..], L, t, beta)
      {
        var sw := SampleWeights(data.weights, Pi2[..], L, i, beta);
        fits := fits + [sw];
        i := i + 1;
      }
    }

    /**
     * The bootstrap initialisation on worker `rank` of `W`: one sample
     * weight from column 0 of the initial plan; each classifier j the
     * worker owns is fitted with it multiplied entry-wise by the uniform
     * draws `draws[j]`, and the syncs close in batches.
     */
    method Bootstrap(W: nat, rank: nat, draws: seq<seq<real>>)
      returns (sampleWeight: seq<real>, log: seq<Event>, batches: seq<Batch>, fitWeights: map<nat, seq<real>>)
      requires Valid() && L > 1 && W >= 1 && rank < W
      requires |draws| == L && forall j :: 0 <= j < L ==> |draws[j]| == SampleSize(data.Cols())
      ensures IsSampleWeight(sampleWeight, data.weights, Pi2[..], L, 0, beta)
      ensures FitsOf(log) == Owned(L, W, rank) && SyncsOf(log) == AllSyncs(L, W)
      ensures FitsBeforeSyncs(log) && Tiles(batches, L, W, L)
      ensures forall j: nat :: j in fitWeights <==> j < L && j % W == rank
      ensures forall j: nat :: j in fitWeights ==> j < L && fitWeights[j] == Pointwise(draws[j], sampleWeight)
    {
      sampleWeight := SampleWeights(data.weights, Pi2[..], L, 0, beta);
      log, batches := BootstrapSchedule(L, W, rank);
      fitWeights := map[];
      var j := 0;
      while j < L
        invariant 0 <= j <= L
        invariant forall t: nat :: t in fitWeights <==> t < j && t % W == rank
        invariant forall t: nat :: t in fitWeights ==> t < L && fitWeights[t] == Pointwise(draws[t], sampleWeight)
      {
        if j % W == rank {
          fitWeights := fitWeights[j := Pointwise(draws[j], sampleWeight)];
        }
        j := j + 1;
      }
    }

    /**
     * One iteration of the training loop: cost, rescale, loss, sweep and
     * re-fit. The loss it reports is the unscaled cost of the plan the
     * iteration starts from, divided by the number of elements.
     */
    method Iterate(iter: nat, restart: nat, dist: seq<real>, labelDist: seq<real>,
                   pRes: seq<real>, dRes: seq<real>, plan: seq<real>, multipliers: seq<real>)
      returns (loss: Ratio, calls: seq<Cursor>, fits: seq<seq<real>>)
      requires Valid() && rho != 0.0
      requires |dist| == C.Length && |labelDist| == C.Length
      requires AbsSum(AdjustedCost(dist, labelDist, beta)) != 0.0
      requires |pRes| == data.Size() && |dRes| == data.Size()
      requires |plan| == Pi2.Length && |multipliers| == Lambda.Length
      modifies this`rho, this`totalC, this`oldTotalC, this`primRes, this`dualRes, C, Ctmp, Lambda, Pi2
      ensures Valid()
      ensures rho == NextRho(old(rho), old(primRes), old(dualRes)) && rho != 0.0
      ensures beta == old(beta) && Ctmp[..] == labelDist
      ensures oldTotalC == CarriedScale(iter, restart, old(totalC), old(rho))
      ensures totalC > 0.0 && MeanAbsCost(totalC, AdjustedCost(dist, labelDist, old(beta)))
      ensures Scaled(AdjustedCost(dist, labelDist, old(beta)), CostScale(rho, totalC), C[..])
      ensures IsMean(loss, Dot(AdjustedCost(dist, labelDist, old(beta)), old(Pi2[..])), data.Size())
      ensures primRes == Quotient(Sum(pRes), data.Size()) && dualRes == Quotient(Sum(dRes), data.Size())
      ensures Pi2[..] == plan && Lambda[..] == multipliers
      ensures |fits| == L
      ensures forall i :: 0 <= i < L ==> IsSampleWeight(fits[i], data.weights, plan, L, i, beta)
    {
      ghost var pi0, carried := Pi2[..], CarriedScale(iter, restart, totalC, rho);
      ComputeCost(dist, labelDist);
      ghost var c0 := C[..];
      ghost var v := Dot(c0, pi0);
      assert v == Dot(AdjustedCost(dist, labelDist, old(beta)), old(Pi2[..]));
      Rescale(iter, restart);
      assert Pi2[..] == pi0;
      ghost var c1, tc, r := C[..], totalC, rho;
      ghost var ot, ct := oldTotalC, Ctmp[..];
      assert ot == carried;
      assert ct == labelDist && c0 == AdjustedCost(dist, labelDist, old(beta));
      assert MeanAbsCost(tc, c0) && Scaled(c0, CostScale(r, tc), c1);
      LossIsUnscaled(c0, c1, pi0, r, tc);
      loss := Loss();
      assert C[..] == c1 && Pi2[..] == pi0 && totalC == tc && rho == r;
      calls := Sweep(pRes, dRes, plan, multipliers);
      fits := Refit();
      assert C[..] == c1 && Ctmp[..] == ct && totalC == tc && rho == r && oldTotalC == ot;
    }
  }

  /** CBLAS `dot` over two arrays of equal length. */
  method DotOf(a: array<real>, b: array<real>) returns (d: real)
    requires a.Length == b.Length
    ensures d == Dot(a[..], b[..])
  {
    d := 0.0;
    var i := 0;
    while i < a.Length
      invariant 0 <= i <= a.Length
      invariant d == Dot(a[..i], b[..i])
    {
      assert a[..i + 1][..i] == a[..i] && b[..i + 1][..i] == b[..i];
      d := d + a[i] * b[i];
      i := i + 1;
    }
    assert a[..i] == a[..] && b[..i] == b[..];
  }
}
