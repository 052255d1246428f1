/**
 * Shared vocabulary of the model: exact-real stand-ins for the CBLAS
 * kernels, the prefix-sum layout of a block's concatenated supports,
 * division by an element count that may be zero, and the C++ conversion
 * of a stored real label to a class index.
 */
module Common {

  /** DBL_MAX, the largest finite double: (2 - 2^-52) * 2^1023, written out. */
  const MAX_REAL: real := 179769313486231570814527423731704356798070567525844996598917476803157260780028538760589558632766878171540458953514382464234321326889464182768467546703537516986049910576551282076245490090389328944075868508455133942304583236903222948165808559332123348274797826204144723168738177180919299881250404026184124858368.0

  /** SIZE_MAX for a 64-bit size_t: the value `(size_t) -1` stands for. */
  const SIZE_MAX: nat := 0xFFFF_FFFF_FFFF_FFFF

  /**
   * The result of dividing a sum by an element count. With no elements the
   * sum is 0 and the source computes 0.0 / 0, which is NaN.
   */
  datatype Ratio = Num(value: real) | NaN

  function Quotient(num: real, den: nat): (r: Ratio)
    ensures r.NaN? <==> den == 0
    ensures r.Num? ==> r.value * den as real == num
  {
    if den == 0 then NaN else Num(num / den as real)
  }

  /** `r` is `total / n` as the source computes it: NaN when n == 0, otherwise r * n == total. */
  ghost predicate IsMean(r: Ratio, total: real, n: nat)
  {
    (r.NaN? <==> n == 0) && (r.Num? ==> r.value * n as real == total)
  }

  /** An IEEE comparison `a < b`: false as soon as either side is NaN. */
  predicate Less(a: Ratio, b: Ratio)
  {
    a.Num? && b.Num? && a.value < b.value
  }

  /** An IEEE product `k * a`: NaN stays NaN. */
  function Times(k: real, a: Ratio): Ratio
  {
    if a.Num? then Num(k * a.value) else NaN
  }

  /** Left-to-right sum, as a running accumulator computes it. */
  function Sum(s: seq<real>): real
  {
    if s == [] then 0.0 else Sum(s[..|s| - 1]) + s[|s| - 1]
  }

  /** CBLAS `asum`: the sum of absolute values. */
  function AbsSum(s: seq<real>): real
  {
    if s == [] then 0.0 else AbsSum(s[..|s| - 1]) + Abs(s[|s| - 1])
  }

  function Abs(x: real): real
  {
    if x < 0.0 then -x else x
  }

  /** CBLAS `dot`: the inner product of two vectors of equal length. */
  function Dot(a: seq<real>, b: seq<real>): real
    requires |a| == |b|
  {
    if a == [] then 0.0 else Dot(a[..|a| - 1], b[..|b| - 1]) + a[|a| - 1] * b[|b| - 1]
  }

  lemma SumStep(s: seq<real>, i: nat)
    requires i < |s|
    ensures Sum(s[..i + 1]) == Sum(s[..i]) + s[i]
  {
    assert s[..i + 1][..i] == s[..i];
  }

  lemma AbsSumNonNegative(s: seq<real>)
    ensures AbsSum(s) >= 0.0
  {
  }

  lemma {:induction false} AbsSumPositive(s: seq<real>)
    requires AbsSum(s) != 0.0
    ensures |s| > 0
  {
  }

  lemma {:induction false} SumNonNegative(s: seq<real>)
    requires forall i :: 0 <= i < |s| ==> s[i] >= 0.0
    ensures Sum(s) >= 0.0
  {
    if s != [] {
      SumNonNegative(s[..|s| - 1]);
    }
  }

  /** `b` is `a` scaled by `alpha`, entry by entry (the effect of CBLAS `scal`). */
  ghost predicate Scaled(a: seq<real>, alpha: real, b: seq<real>)
  {
    |a| == |b| && forall i :: 0 <= i < |a| ==> b[i] == alpha * a[i]
  }

  lemma ScaledPrefix(a: seq<real>, alpha: real, sa: seq<real>, n: nat)
    requires Scaled(a, alpha, sa) && n <= |a|
    ensures Scaled(a[..n], alpha, sa[..n])
  {
  }

  /**
   * Scaling one side of an inner product scales the product:
   * dot(alpha * a, b) == alpha * dot(a, b).
   */
  lemma {:induction false} DotScaled(a: seq<real>, b: seq<real>, alpha: real, sa: seq<real>)
    requires |a| == |b| && Scaled(a, alpha, sa)
    ensures Dot(sa, b) == alpha * Dot(a, b)
  {
    if a != [] {
      var n := |a| - 1;
      ScaledPrefix(a, alpha, sa, n);
      DotScaled(a[..n], b[..n], alpha, sa[..n]);
    }
  }

  /** A constant vector of length n sums to n times the constant. */
  lemma {:induction false} ConstSum(s: seq<real>, x: real)
    requires forall i :: 0 <= i < |s| ==> s[i] == x
    ensures Sum(s) == |s| as real * x
  {
    if s != [] {
      ConstSum(s[..|s| - 1], x);
    }
  }

  /**
   * Position where element `i` of a block starts in the concatenated
   * per-support arrays: the sum of the lengths of the elements before it.
   */
  function Offset(lens: seq<nat>, i: nat): nat
    requires i <= |lens|
  {
    if i == 0 then 0 else Offset(lens, i - 1) + lens[i - 1]
  }

  /** `get_col()`: the total number of support points of a block. */
  function Col(lens: seq<nat>): nat
  {
    Offset(lens, |lens|)
  }

  lemma {:induction false} OffsetMono(lens: seq<nat>, i: nat, j: nat)
    requires i <= j <= |lens|
    ensures Offset(lens, i) <= Offset(lens, j)
    decreases j - i
  {
    if i < j {
      OffsetMono(lens, i, j - 1);
    }
  }

  /** The start of element i + 1 lies at or before the start of a later element j. */
  lemma OffsetMonoSucc(lens: seq<nat>, i: nat, j: nat)
    requires i < j <= |lens|
    ensures Offset(lens, i + 1) <= Offset(lens, j)
  {
    OffsetMono(lens, i + 1, j);
  }

  lemma OffsetSucc(lens: seq<nat>, i: nat)
    requires i < |lens|
    ensures Offset(lens, i + 1) == Offset(lens, i) + lens[i]
  {
  }

  /** Element i ends at or before the start of any later element j. */
  lemma {:induction false} OffsetLater(lens: seq<nat>, i: nat, j: nat)
    requires i < j <= |lens|
    ensures Offset(lens, i) + lens[i] <= Offset(lens, j)
  {
    OffsetMonoSucc(lens, i, j);
    OffsetSucc(lens, i);
  }

  /** Element `i` occupies [Offset(i), Offset(i) + lens[i]) inside [0, Col). */
  lemma {:induction false} OffsetBounds(lens: seq<nat>, i: nat)
    requires i < |lens|
    ensures Offset(lens, i) + lens[i] <= Col(lens)
  {
    OffsetMono(lens, i + 1, |lens|);
  }

  lemma MulMono(a: nat, b: nat, c: nat)
    requires a <= b
    ensures a * c <= b * c
  {
  }

  /**
   * The per-element blocks of a buffer of Col * L entries follow one
   * another: element i's block of lens[i] * L entries starts where the
   * blocks before it end and stays inside the buffer.
   */
  lemma {:induction false} BlockInPlan(lens: seq<nat>, L: nat, i: nat)
    requires i < |lens|
    ensures Offset(lens, i) * L + lens[i] * L == Offset(lens, i + 1) * L
    ensures Offset(lens, i + 1) * L <= Col(lens) * L
  {
    OffsetBounds(lens, i);
    MulMono(Offset(lens, i + 1), Col(lens), L);
  }

  /** Cell (r, c) of a row-major height x width matrix lies inside it. */
  lemma CellInRange(width: nat, height: nat, r: nat, c: nat)
    requires r < height && c < width
    ensures r * width + c < height * width
  {
    MulMono(r + 1, height, width);
  }

  /** Row-major cells are numbered row by row: cell k*width + j is (k, j). */
  lemma CellDivMod(width: nat, k: nat, j: nat)
    requires j < width
    ensures (k * width + j) / width == k
    ensures (k * width + j) % width == j
  {
    var m := k * width + j;
    var q, r := m / width, m % width;
    assert m == q * width + r;
    if q < k {
      MulMono(q + 1, k, width);
    } else if q > k {
      MulMono(k + 1, q, width);
    }
  }

  /** The cell in row `r`, column `c` of the row-major height x width matrix `m`. */
  function Cell(m: seq<real>, height: nat, width: nat, r: nat, c: nat): real
    requires |m| == height * width && r < height && c < width
  {
    CellInRange(width, height, r, c);
    m[r * width + c]
  }

  /**
   * Column `c` of a row-major height x width matrix: the entries
   * m[c + r*width] for r < height.
   */
  function Column(m: seq<real>, height: nat, width: nat, c: nat): (v: seq<real>)
    requires |m| == height * width && c < width
    ensures |v| == height
    ensures forall r :: 0 <= r < height ==> v[r] == Cell(m, height, width, r, c)
  {
    seq(height, r requires 0 <= r < height => Cell(m, height, width, r, c))
  }

  /** Row `r` of a row-major height x width matrix: m[r*width .. (r+1)*width). */
  function Row(m: seq<real>, height: nat, width: nat, r: nat): (v: seq<real>)
    requires |m| == height * width && r < height
    ensures |v| == width
    ensures forall c :: 0 <= c < width ==> v[c] == Cell(m, height, width, r, c)
  {
    seq(width, c requires 0 <= c < width => Cell(m, height, width, r, c))
  }

  /**
   * The C++ conversion `(size_t) y` of a stored label: truncation toward
   * zero. It is undefined for y <= -1; the model maps those labels to -1,
   * which no predicted class equals.
   */
  function LabelIndex(y: real): (r: int)
    ensures y >= 0.0 ==> r >= 0 && r as real <= y < (r + 1) as real
    ensures -1.0 < y < 0.0 ==> r == 0
    ensures y <= -1.0 ==> r == -1
  {
    if y >= 0.0 then y.Floor else if y > -1.0 then 0 else -1
  }
}
