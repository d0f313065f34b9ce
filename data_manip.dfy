/**
 * `normalise_image`: the affine map `(im - min(im)) / (max(im) - min(im))` onto [0, 1],
 * element by element, with exact real arithmetic in place of float32.
 */
module DataManip {
  import opened Wrappers
  import opened Errors
  import opened Tensors

  /** `np.min` of a non-empty array: an element that bounds every element from below. */
  function Min(s: seq<real>): (m: real)
    requires |s| > 0
    ensures m in s
    ensures forall i :: 0 <= i < |s| ==> m <= s[i]
  {
    if |s| == 1 then s[0]
    else
      var rest := Min(s[1..]);
      if s[0] <= rest then s[0] else rest
  }

  /** `np.max` of a non-empty array: an element that bounds every element from above. */
  function Max(s: seq<real>): (m: real)
    requires |s| > 0
    ensures m in s
    ensures forall i :: 0 <= i < |s| ==> s[i] <= m
  {
    if |s| == 1 then s[0]
    else
      var rest := Max(s[1..]);
      if s[0] >= rest then s[0] else rest
  }

  /** The minimum is the only element that bounds every element from below. */
  lemma MinUnique(s: seq<real>, m: real)
    requires m in s && forall i :: 0 <= i < |s| ==> m <= s[i]
    ensures Min(s) == m
  {
    var k :| 0 <= k < |s| && s[k] == m;
    var j :| 0 <= j < |s| && s[j] == Min(s);
  }

  /** The maximum is the only element that bounds every element from above. */
  lemma MaxUnique(s: seq<real>, m: real)
    requires m in s && forall i :: 0 <= i < |s| ==> s[i] <= m
    ensures Max(s) == m
  {
    var k :| 0 <= k < |s| && s[k] == m;
    var j :| 0 <= j < |s| && s[j] == Max(s);
  }

  /** The affine map that sends `lo` to 0 and `hi` to 1. */
  function Scale(x: real, lo: real, hi: real): real
    requires lo < hi
  {
    (x - lo) / (hi - lo)
  }

  /** `(v - lo) / (hi - lo)`, element by element. */
  function Rescale(v: seq<real>, lo: real, hi: real): (out: seq<real>)
    requires lo < hi
    ensures |out| == |v|
    ensures forall i :: 0 <= i < |v| ==> out[i] == Scale(v[i], lo, hi)
  {
    seq(|v|, i requires 0 <= i < |v| => Scale(v[i], lo, hi))
  }

  /**
   * `normalise_image`.  NumPy raises on an empty array (`min` of nothing); a constant image
   * divides by zero and NumPy returns NaNs, which the model reports as `ZeroRange`.
   */
  function NormaliseImage(im: FloatTensor): (r: Result<FloatTensor, Error>)
    ensures |im.values| == 0 ==> r == Failure(EmptyArray)
    ensures |im.values| > 0 ==> (r.Failure? <==> Min(im.values) == Max(im.values))
    ensures |im.values| > 0 && Min(im.values) == Max(im.values) ==> r == Failure(ZeroRange)
    ensures r.Success? ==> r.value.shape == im.shape && |r.value.values| == |im.values|
    ensures r.Success? ==> forall i :: 0 <= i < |im.values| ==>
              r.value.values[i] == Scale(im.values[i], Min(im.values), Max(im.values))
  {
    if |im.values| == 0 then Failure(EmptyArray)
    else
      var lo, hi := Min(im.values), Max(im.values);
      if hi == lo then Failure(ZeroRange)
      else Success(Tensor(im.shape, Rescale(im.values, lo, hi)))
  }

  /** Every normalised value lies in [0, 1]. */
  lemma NormalisedInUnit(im: FloatTensor)
    requires NormaliseImage(im).Success?
    ensures forall i :: 0 <= i < |im.values| ==> 0.0 <= NormaliseImage(im).value.values[i] <= 1.0
  {
    var lo, hi := Min(im.values), Max(im.values);
    forall i | 0 <= i < |im.values|
      ensures 0.0 <= NormaliseImage(im).value.values[i] <= 1.0
    {
      ScaledInUnit(im.values[i], lo, hi);
    }
  }

  /** Normalising keeps the order of every pair of values, in both directions. */
  lemma NormalisedMonotone(im: FloatTensor, i: nat, j: nat)
    requires NormaliseImage(im).Success? && i < |im.values| && j < |im.values|
    ensures im.values[i] <= im.values[j] <==>
            NormaliseImage(im).value.values[i] <= NormaliseImage(im).value.values[j]
  {
    ScaledMonotone(im.values[i], im.values[j], Min(im.values), Max(im.values));
  }

  lemma ScaleEnds(lo: real, hi: real)
    requires lo < hi
    ensures Scale(lo, lo, hi) == 0.0 && Scale(hi, lo, hi) == 1.0
  {
    var d := hi - lo;
    assert d / d == 1.0;
  }

  lemma ScaledInUnit(x: real, lo: real, hi: real)
    requires lo <= x <= hi && lo < hi
    ensures 0.0 <= Scale(x, lo, hi) <= 1.0
  {
    assert (x - lo) / (hi - lo) * (hi - lo) == x - lo;
  }

  lemma ScaledMonotone(x: real, y: real, lo: real, hi: real)
    requires lo < hi
    ensures x <= y <==> Scale(x, lo, hi) <= Scale(y, lo, hi)
  {
    var d := hi - lo;
    assert (x - lo) / d * d == x - lo;
    assert (y - lo) / d * d == y - lo;
    if x <= y {
      assert (y - lo) / d - (x - lo) / d == (y - x) / d;
    } else {
      assert (x - lo) / d - (y - lo) / d == (x - y) / d;
    }
  }

  /** The normalised image's minimum is exactly 0 and its maximum exactly 1. */
  lemma NormalisedExtremes(im: FloatTensor)
    requires NormaliseImage(im).Success?
    ensures |NormaliseImage(im).value.values| == |im.values| > 0
    ensures Min(NormaliseImage(im).value.values) == 0.0
    ensures Max(NormaliseImage(im).value.values) == 1.0
  {
    var out := NormaliseImage(im).value.values;
    var lo, hi := Min(im.values), Max(im.values);
    var a :| 0 <= a < |im.values| && im.values[a] == lo;
    var b :| 0 <= b < |im.values| && im.values[b] == hi;
    ScaleEnds(lo, hi);
    NormalisedInUnit(im);
    MinUnique(out, 0.0);
    MaxUnique(out, 1.0);
  }

  /** The `DummyClass` of this module: a constructor and nothing else. */
  class DummyClass {
    var data: FloatTensor
    var id: int

    constructor (data: FloatTensor)
      ensures this.data == data && id == 0
    {
      this.data := data;
      id := 0;
    }
  }
}
