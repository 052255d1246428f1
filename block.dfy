/**
 * The part of a data block the learner touches: the per-element support
 * counts, the concatenated support weights and the concatenated label
 * array. Labels are stored one per support point; element i's label is
 * the one stored at its first support point.
 */
module Data {
  import opened Common

  class Block {
    /** `data[i].len` for every element i. */
    const lens: seq<nat>
    /** `get_weight_ptr()`: one weight per support point. */
    const weights: seq<real>
    /** `get_label_ptr()`: one label per support point. */
    const labels: array<real>

    ghost predicate Valid()
    {
      (forall i :: 0 <= i < |lens| ==> lens[i] > 0) &&
      |weights| == Col(lens) &&
      labels.Length == Col(lens)
    }

    constructor (lens: seq<nat>, weights: seq<real>, labels: seq<real>)
      requires forall i :: 0 <= i < |lens| ==> lens[i] > 0
      requires |weights| == Col(lens) == |labels|
      ensures Valid()
      ensures this.lens == lens && this.weights == weights
      ensures fresh(this.labels) && this.labels[..] == labels
    {
      this.lens := lens;
      this.weights := weights;
      this.labels := new real[|labels|](i requires 0 <= i < |labels| => labels[i]);
    }

    /** `get_size()`: the number of elements. */
    function Size(): nat
    {
      |lens|
    }

    /** `get_col()`: the number of support points. */
    function Cols(): nat
    {
      Col(lens)
    }

    /** `data[i].label[0]`: the label stored at element i's first support point. */
    function Label(i: nat): real
      reads labels
      requires Valid() && i < |lens|
    {
      OffsetBounds(lens, i);
      labels[Offset(lens, i)]
    }

    /** The element labels `y[i] = data[i].label[0]`, read from the label array. */
    function ElementLabels(): (y: seq<real>)
      reads labels
      requires Valid()
      ensures |y| == |lens|
      ensures forall i :: 0 <= i < |lens| ==> y[i] == Label(i)
    {
      seq(|lens|, i requires 0 <= i < |lens| reads labels => Label(i))
    }

    /** The loop that fills `y` before each prediction. */
    method LoadLabels() returns (y: seq<real>)
      requires Valid()
      ensures y == ElementLabels()
    {
      var a := new real[|lens|];
      var i := 0;
      while i < |lens|
        invariant 0 <= i <= |lens|
        invariant forall t :: 0 <= t < i ==> a[t] == Label(t)
      {
        OffsetBounds(lens, i);
        a[i] := labels[Offset(lens, i)];
        i := i + 1;
      }
      y := a[..];
    }
  }
}
