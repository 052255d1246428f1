/**
 * The two predictors of marriage learning with `write_label = false`:
 * winner-take-all over per-class transport distances, and voting over
 * the class mass of one transport plan. Both return the fraction of
 * elements whose predicted class equals the stored label.
 *
 * The distances, the cost matrix and the transport plan come from
 * routines that are not part of this model (`_pdist2_label`,
 * `_pdist2_alllabel`, `EMD`); they are parameters. The collective sums
 * are taken on a single worker, where they are the identity.
 */
module Predict {
  import opened Common
  import opened Selection
  import opened Data

  /** How many of the first n elements have predicted class == (size_t) label. */
  function Hits(pred: seq<int>, y: seq<real>, n: nat): (h: nat)
    requires n <= |pred| && n <= |y|
    ensures h <= n
  {
    if n == 0 then 0
    else Hits(pred, y, n - 1) + (if pred[n - 1] == LabelIndex(y[n - 1]) then 1 else 0)
  }

  /** Counting one more element adds 1 exactly when its prediction matches its label. */
  lemma HitsStep(pred: seq<int>, y: seq<real>, i: nat, chosen: int)
    requires i < |pred| && i < |y| && chosen == pred[i]
    ensures Hits(pred, y, i + 1) as real == Hits(pred, y, i) as real + (if chosen == LabelIndex(y[i]) then 1.0 else 0.0)
  {
  }

  /** The accuracy: hits divided by the element count (NaN for an empty block). */
  function Accuracy(hits: nat, n: nat): (r: Ratio)
    requires hits <= n
    ensures r.NaN? <==> n == 0
    ensures r.Num? ==> 0.0 <= r.value <= 1.0
    ensures r.Num? ==> r.value * n as real == hits as real
  {
    Quotient(hits as real, n)
  }

  // ---------------------------------------------------------------------
  // Winner-take-all

  /**
   * The class winner-take-all assigns to element i. `emds` holds, class
   * after class, the distance of every element: the distance of element i
   * to class j is emds[i + j*size], cell (j, i) of an nc x size matrix.
   */
  function WtaLabel(emds: seq<real>, nc: nat, size: nat, i: nat): (chosen: nat)
    requires nc >= 2 && |emds| == nc * size && i < size
    ensures 1 <= chosen < nc
    ensures forall j :: 1 <= j < nc ==> Cell(emds, nc, size, chosen, i) <= Cell(emds, nc, size, j, i)
    ensures forall j :: 1 <= j < chosen ==> Cell(emds, nc, size, chosen, i) < Cell(emds, nc, size, j, i)
  {
    var v := Column(emds, nc, size, i);
    FirstArgMin(v, 1, nc)
  }

  function WtaPredictions(emds: seq<real>, nc: nat, size: nat): (p: seq<int>)
    requires nc >= 2 && |emds| == nc * size
    ensures |p| == size
    ensures forall i :: 0 <= i < size ==> p[i] == WtaLabel(emds, nc, size, i)
  {
    seq(size, i requires 0 <= i < size => WtaLabel(emds, nc, size, i))
  }

  /**
   * The inner loop of ML_Predict_ByWinnerTakeAll: start from class 1 and
   * take class j whenever its distance is strictly below the running one.
   */
  method Winner(emds: seq<real>, nc: nat, size: nat, i: nat) returns (chosen: nat)
    requires nc >= 2 && |emds| == nc * size && i < size
    ensures chosen == WtaLabel(emds, nc, size, i)
  {
    ghost var v := Column(emds, nc, size, i);
    CellInRange(size, nc, 1, i);
    chosen := 1;
    var minEmd := emds[i + size];
    var j := 2;
    while j < nc
      invariant 2 <= j <= nc
      invariant chosen == FirstArgMin(v, 1, j) && minEmd == v[chosen]
    {
      CellInRange(size, nc, j, i);
      if emds[i + j * size] < minEmd {
        minEmd := emds[i + j * size];
        chosen := j;
      }
      j := j + 1;
    }
  }

  /**
   * ML_Predict_ByWinnerTakeAll: for each element, the first class in
   * [1, nc) with the least distance, compared with the stored label.
   */
  method PredictByWinnerTakeAll(data: Block, nc: nat, emds: seq<real>) returns (accuracy: Ratio)
    requires data.Valid()
    requires nc >= 2
    requires |emds| == nc * data.Size()
    ensures accuracy == Accuracy(Hits(WtaPredictions(emds, nc, data.Size()), data.ElementLabels(), data.Size()), data.Size())
  {
    var size := data.Size();
    var y := data.LoadLabels();
    ghost var pred := WtaPredictions(emds, nc, size);
    var correct := 0.0;
    var i := 0;
    while i < size
      invariant 0 <= i <= size
      invariant correct == Hits(pred, y, i) as real
    {
      var chosen := Winner(emds, nc, size, i);
      HitsStep(pred, y, i, chosen);
      correct := correct + (if chosen == LabelIndex(y[i]) then 1.0 else 0.0);
      i := i + 1;
    }
    assert y == data.ElementLabels();
    accuracy := Quotient(correct, size);
  }

  // ---------------------------------------------------------------------
  // Voting

  /**
   * The best class for cost entry i: the first class in [1, nc) whose
   * label-adjusted cost c[i + j*matSize] is least.
   */
  function BestClass(c: seq<real>, nc: nat, matSize: nat, i: nat): (j: nat)
    requires nc >= 2 && |c| == nc * matSize && i < matSize
    ensures 1 <= j < nc
    ensures forall t :: 1 <= t < nc ==> Cell(c, nc, matSize, j, i) <= Cell(c, nc, matSize, t, i)
    ensures forall t :: 1 <= t < j ==> Cell(c, nc, matSize, j, i) < Cell(c, nc, matSize, t, i)
  {
    FirstArgMin(Column(c, nc, matSize, i), 1, nc)
  }

  /**
   * Whether the scan for entry i, which starts from DBL_MAX and replaces
   * only on a strictly smaller cost, ever picks a class.
   */
  predicate PicksClass(c: seq<real>, nc: nat, matSize: nat, i: nat)
    requires |c| == nc * matSize && i < matSize
  {
    nc >= 2 && Cell(c, nc, matSize, BestClass(c, nc, matSize, i), i) < MAX_REAL
  }

  function BestClasses(c: seq<real>, nc: nat, matSize: nat): (index: seq<int>)
    requires nc >= 2 && |c| == nc * matSize
    ensures |index| == matSize
    ensures forall i :: 0 <= i < matSize ==> index[i] == BestClass(c, nc, matSize, i)
  {
    seq(matSize, i requires 0 <= i < matSize => BestClass(c, nc, matSize, i))
  }

  /**
   * The class scan for cost entry i: start from DBL_MAX and index -1 and
   * take class j whenever its cost is strictly below the running value.
   */
  method ScanClasses(c: seq<real>, nc: nat, matSize: nat, i: nat) returns (minValue: real, minIndex: int)
    requires nc >= 1 && |c| == nc * matSize && i < matSize
    ensures PicksClass(c, nc, matSize, i) ==>
      minIndex == BestClass(c, nc, matSize, i) && minValue == Cell(c, nc, matSize, minIndex, i)
    ensures !PicksClass(c, nc, matSize, i) ==> minIndex == -1 && minValue == MAX_REAL
  {
    ghost var v := Column(c, nc, matSize, i);
    minValue := MAX_REAL;
    minIndex := -1;
    var j := 1;
    while j < nc
      invariant 1 <= j <= nc
      invariant (j == 1 || v[FirstArgMin(v, 1, j)] >= MAX_REAL) ==> minIndex == -1 && minValue == MAX_REAL
      invariant (j > 1 && v[FirstArgMin(v, 1, j)] < MAX_REAL) ==>
        minIndex == FirstArgMin(v, 1, j) && minValue == v[minIndex]
    {
      CellInRange(matSize, nc, j, i);
      if minValue > c[i + j * matSize] {
        minValue := c[i + j * matSize];
        minIndex := j;
      }
      j := j + 1;
    }
    assert nc >= 2 ==> FirstArgMin(v, 1, nc) == BestClass(c, nc, matSize, i);
  }

  /**
   * The first loop of ML_Predict_ByVoting: minC[i] is the best class's
   * cost minus the class-0 cost, index[i] the best class. When every
   * class's cost is at least DBL_MAX the scan keeps its sentinels:
   * index (size_t) -1, written here as -1, and cost DBL_MAX.
   */
  method BestOfClasses(c: seq<real>, nc: nat, matSize: nat) returns (minC: seq<real>, index: seq<int>)
    requires nc >= 1 && |c| == nc * matSize
    ensures |minC| == matSize && |index| == matSize
    ensures forall i :: 0 <= i < matSize && PicksClass(c, nc, matSize, i) ==>
      index[i] == BestClass(c, nc, matSize, i) &&
      minC[i] == Cell(c, nc, matSize, index[i], i) - Cell(c, nc, matSize, 0, i)
    ensures forall i :: 0 <= i < matSize && !PicksClass(c, nc, matSize, i) ==>
      index[i] == -1 && minC[i] == MAX_REAL - Cell(c, nc, matSize, 0, i)
  {
    var minCs := new real[matSize];
    var indices := new int[matSize];
    var i := 0;
    while i < matSize
      invariant 0 <= i <= matSize
      invariant forall t :: 0 <= t < i && PicksClass(c, nc, matSize, t) ==>
        indices[t] == BestClass(c, nc, matSize, t) &&
        minCs[t] == Cell(c, nc, matSize, indices[t], t) - Cell(c, nc, matSize, 0, t)
      invariant forall t :: 0 <= t < i && !PicksClass(c, nc, matSize, t) ==>
        indices[t] == -1 && minCs[t] == MAX_REAL - Cell(c, nc, matSize, 0, t)
    {
      var minValue, minIndex := ScanClasses(c, nc, matSize, i);
      CellInRange(matSize, nc, 0, i);
      assert c[i] == Cell(c, nc, matSize, 0, i);
      minCs[i] := minValue - c[i];
      indices[i] := minIndex;
      i := i + 1;
    }
    minC := minCs[..];
    index := indices[..];
  }

  /** The plan mass at positions [lo, hi) whose best class is `cl`. */
  function BlockMass(pi: seq<real>, index: seq<int>, lo: nat, hi: nat, cl: int): real
    requires lo <= hi <= |pi| && |index| == |pi|
    decreases hi
  {
    if hi == lo then 0.0
    else BlockMass(pi, index, lo, hi - 1, cl) + (if index[hi - 1] == cl then pi[hi - 1] else 0.0)
  }

  /** The class-proportion vector `thislabel` of the block [lo, hi). */
  function Masses(pi: seq<real>, index: seq<int>, lo: nat, hi: nat, nc: nat): (m: seq<real>)
    requires lo <= hi <= |pi| && |index| == |pi|
    ensures |m| == nc
    ensures forall cl :: 0 <= cl < nc ==> m[cl] == BlockMass(pi, index, lo, hi, cl)
  {
    seq(nc, cl requires 0 <= cl < nc => BlockMass(pi, index, lo, hi, cl))
  }

  /** The class voting assigns to element i: the first class in [1, nc) of greatest mass. */
  function VoteLabel(lens: seq<nat>, L: nat, nc: nat, pi: seq<real>, index: seq<int>, i: nat): (chosen: nat)
    requires nc >= 2 && |pi| == |index| == Col(lens) * L && i < |lens|
    ensures 1 <= chosen < nc
  {
    BlockInPlan(lens, L, i);
    var lo := Offset(lens, i) * L;
    FirstArgMax(Masses(pi, index, lo, lo + lens[i] * L, nc), 1, nc)
  }

  function VotePredictions(lens: seq<nat>, L: nat, nc: nat, pi: seq<real>, index: seq<int>): (p: seq<int>)
    requires nc >= 2 && |pi| == |index| == Col(lens) * L
    ensures |p| == |lens|
    ensures forall i :: 0 <= i < |lens| ==> p[i] == VoteLabel(lens, L, nc, pi, index, i)
  {
    seq(|lens|, i requires 0 <= i < |lens| => VoteLabel(lens, L, nc, pi, index, i))
  }

  /** Element i's block starts at `lo`, ends where element i + 1's begins, and is voted on whole. */
  lemma {:induction false} VoteAt(lens: seq<nat>, L: nat, nc: nat, pi: seq<real>, index: seq<int>, i: nat, lo: nat, ms: nat)
    requires nc >= 2 && |pi| == |index| == Col(lens) * L && i < |lens|
    requires lo == Offset(lens, i) * L && ms == lens[i] * L
    ensures lo + ms == Offset(lens, i + 1) * L <= |pi|
    ensures VoteLabel(lens, L, nc, pi, index, i) == FirstArgMax(Masses(pi, index, lo, lo + ms, nc), 1, nc)
  {
    BlockInPlan(lens, L, i);
  }

  /** The inner loop: accumulate the plan mass of the block [lo, lo + ms) per class. */
  method ClassMasses(pi: seq<real>, index: seq<int>, lo: nat, ms: nat, nc: nat) returns (mass: seq<real>)
    requires |index| == |pi| && lo + ms <= |pi|
    requires forall k :: lo <= k < lo + ms ==> 0 <= index[k] < nc
    ensures mass == Masses(pi, index, lo, lo + ms, nc)
  {
    var thisLabel := new real[nc](_ => 0.0);
    var j := 0;
    while j < ms
      invariant 0 <= j <= ms
      invariant forall cl :: 0 <= cl < nc ==> thisLabel[cl] == BlockMass(pi, index, lo, lo + j, cl)
    {
      thisLabel[index[lo + j]] := thisLabel[index[lo + j]] + pi[lo + j];
      j := j + 1;
    }
    mass := thisLabel[..];
  }

  /**
   * One element of the voting loop: the class masses of its block, which
   * starts at `lo` and holds ms = learner.len * data[i].len entries, and
   * the first class in [1, nc) of greatest mass.
   */
  method ElementVote(lens: seq<nat>, L: nat, nc: nat, pi: seq<real>, index: seq<int>, i: nat, lo: nat)
    returns (chosen: nat, ms: nat)
    requires nc >= 2 && |pi| == |index| == Col(lens) * L && i < |lens|
    requires forall k :: 0 <= k < |index| ==> 1 <= index[k] < nc
    requires lo == Offset(lens, i) * L
    ensures chosen == VoteLabel(lens, L, nc, pi, index, i)
    ensures lo + ms == Offset(lens, i + 1) * L
  {
    ms := lens[i] * L;
    VoteAt(lens, L, nc, pi, index, i, lo, ms);
    var thisLabel := ClassMasses(pi, index, lo, ms, nc);
    chosen := FirstArgMax(thisLabel, 1, nc);
  }

  /**
   * The element loop of ML_Predict_ByVoting: walk the per-element blocks
   * with a cursor advanced by learner.len * data[i].len and count the
   * elements whose first arg-max class equals their label.
   */
  method CountVotes(lens: seq<nat>, L: nat, nc: nat, pi: seq<real>, index: seq<int>, y: seq<real>)
    returns (correct: real)
    requires nc >= 2 && |pi| == |index| == Col(lens) * L && |y| == |lens|
    requires forall k :: 0 <= k < |index| ==> 1 <= index[k] < nc
    ensures correct == Hits(VotePredictions(lens, L, nc, pi, index), y, |lens|) as real
  {
    ghost var pred := VotePredictions(lens, L, nc, pi, index);
    correct := 0.0;
    var cursor := 0;
    var i := 0;
    while i < |lens|
      invariant 0 <= i <= |lens|
      invariant cursor == Offset(lens, i) * L
      invariant correct == Hits(pred, y, i) as real
    {
      var chosen, ms := ElementVote(lens, L, nc, pi, index, i, cursor);
      cursor := cursor + ms;
      HitsStep(pred, y, i, chosen);
      correct := correct + (if chosen == LabelIndex(y[i]) then 1.0 else 0.0);
      i := i + 1;
    }
  }

  /**
   * ML_Predict_ByVoting. `c` is the all-label cost matrix, `pi` the plan
   * EMD returns for the best-of-classes cost, and `clobber` whatever the
   * external cost and transport routines leave in the label array; the
   * array saved on entry is written back before returning. Every cost
   * entry needs some class 1..NC-1 below DBL_MAX: otherwise the scan keeps
   * index (size_t) -1 and the mass accumulation writes outside `thislabel`.
   */
  method PredictByVoting(data: Block, L: nat, nc: nat, c: seq<real>, pi: seq<real>, clobber: seq<real>)
    returns (accuracy: Ratio)
    requires data.Valid()
    requires nc >= 2
    requires |c| == nc * (data.Cols() * L)
    requires forall i :: 0 <= i < data.Cols() * L ==> PicksClass(c, nc, data.Cols() * L, i)
    requires |pi| == data.Cols() * L
    requires |clobber| == data.Cols()
    modifies data.labels
    ensures data.labels[..] == old(data.labels[..])
    ensures accuracy == Accuracy(
      Hits(VotePredictions(data.lens, L, nc, pi, BestClasses(c, nc, data.Cols() * L)),
           old(data.ElementLabels()), data.Size()),
      data.Size())
  {
    var labelCache := data.labels[..];
    var y := data.LoadLabels();
    var matSize := data.Cols() * L;
    forall k | 0 <= k < data.labels.Length {
      data.labels[k] := clobber[k];
    }
    var minC, index := BestOfClasses(c, nc, matSize);
    assert index == BestClasses(c, nc, matSize);
    var correct := CountVotes(data.lens, L, nc, pi, index, y);
    accuracy := Quotient(correct, data.Size());
    forall k | 0 <= k < data.labels.Length {
      data.labels[k] := labelCache[k];
    }
  }

  // ---------------------------------------------------------------------
  // Properties of the class-mass vector

  lemma {:induction false} MassSplit(pi: seq<real>, index: seq<int>, lo: nat, hi: nat, n: nat)
    requires lo < hi <= |pi| && |index| == |pi|
    ensures Sum(Masses(pi, index, lo, hi, n)) ==
      Sum(Masses(pi, index, lo, hi - 1, n)) + (if 0 <= index[hi - 1] < n then pi[hi - 1] else 0.0)
  {
    if n > 0 {
      MassSplit(pi, index, lo, hi, n - 1);
      assert Masses(pi, index, lo, hi, n)[..n - 1] == Masses(pi, index, lo, hi, n - 1);
      assert Masses(pi, index, lo, hi - 1, n)[..n - 1] == Masses(pi, index, lo, hi - 1, n - 1);
    }
  }

  /**
   * Voting distributes all of an element's plan mass among the classes:
   * the class-proportion vector sums to the block's total mass.
   */
  lemma {:induction false} MassTotal(pi: seq<real>, index: seq<int>, lo: nat, hi: nat, nc: nat)
    requires lo <= hi <= |pi| && |index| == |pi|
    requires forall k :: lo <= k < hi ==> 0 <= index[k] < nc
    ensures Sum(Masses(pi, index, lo, hi, nc)) == Sum(pi[lo..hi])
    decreases hi
  {
    if hi == lo {
      assert Masses(pi, index, lo, hi, nc) == seq(nc, _ => 0.0);
      ZeroSum(nc);
    } else {
      MassTotal(pi, index, lo, hi - 1, nc);
      MassSplit(pi, index, lo, hi, nc);
      assert pi[lo..hi][..hi - 1 - lo] == pi[lo..hi - 1];
    }
  }

  lemma {:induction false} ZeroSum(n: nat)
    ensures Sum(seq(n, _ => 0.0)) == 0.0
  {
    if n > 0 {
      assert seq(n, _ => 0.0)[..n - 1] == seq(n - 1, _ => 0.0);
      ZeroSum(n - 1);
    }
  }

  /** Class 0 never receives mass: every index the first loop writes is at least 1. */
  lemma {:induction false} NoMassOnClassZero(pi: seq<real>, index: seq<int>, lo: nat, hi: nat)
    requires lo <= hi <= |pi| && |index| == |pi|
    requires forall k :: lo <= k < hi ==> index[k] >= 1
    ensures BlockMass(pi, index, lo, hi, 0) == 0.0
    decreases hi
  {
    if hi > lo {
      NoMassOnClassZero(pi, index, lo, hi - 1);
    }
  }
}
