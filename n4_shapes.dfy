/**
 * Shape bookkeeping shared by the three N4 bias-field estimators:
 * `np.squeeze`, the `[maxIter] * levels` schedule, the `while ndim < 4: unsqueeze(0)`
 * padding loop, and the opaque N4 fit itself.
 */
module N4Shapes {
  import opened Tensors

  /** The extents that `np.squeeze` keeps: every extent except 1, in order. */
  function Squeeze(shape: seq<nat>): (r: seq<nat>)
    ensures |r| <= |shape|
  {
    if shape == [] then []
    else if shape[0] == 1 then Squeeze(shape[1..])
    else [shape[0]] + Squeeze(shape[1..])
  }

  /** `n` leading size-1 axes. */
  function Ones(n: nat): (r: seq<nat>)
    ensures |r| == n && forall i :: 0 <= i < n ==> r[i] == 1
  {
    seq(n, _ => 1)
  }

  /** Squeezing removes every unit axis, keeps everything else in order, and keeps the element count. */
  lemma {:induction false} SqueezeSpec(shape: seq<nat>)
    ensures 1 !in Squeeze(shape)
    ensures |Squeeze(shape)| <= |shape|
    ensures Prod(Squeeze(shape)) == Prod(shape)
    ensures |Squeeze(shape)| == |shape| <==> 1 !in shape
  {
    if shape != [] {
      SqueezeSpec(shape[1..]);
      assert shape == [shape[0]] + shape[1..];
      if shape[0] != 1 {
        var t := Squeeze(shape[1..]);
        assert ([shape[0]] + t)[1..] == t;
      }
    }
  }

  /** An array with no unit axis is left as it is, and squeezing twice is squeezing once. */
  lemma {:induction false} SqueezeFixesUnitFree(shape: seq<nat>)
    requires 1 !in shape
    ensures Squeeze(shape) == shape
  {
    if shape != [] {
      assert shape[0] in shape;
      assert forall x :: x in shape[1..] ==> x in shape;
      SqueezeFixesUnitFree(shape[1..]);
      assert shape == [shape[0]] + shape[1..];
    }
  }

  lemma SqueezeIdempotent(shape: seq<nat>)
    ensures Squeeze(Squeeze(shape)) == Squeeze(shape)
  {
    SqueezeSpec(shape);
    SqueezeFixesUnitFree(Squeeze(shape));
  }

  /** Leading unit axes make no difference to the squeezed shape. */
  lemma {:induction false} SqueezeDropsLeadingOnes(n: nat, shape: seq<nat>)
    ensures Squeeze(Ones(n) + shape) == Squeeze(shape)
  {
    if n > 0 {
      assert (Ones(n) + shape)[1..] == Ones(n - 1) + shape;
      SqueezeDropsLeadingOnes(n - 1, shape);
    } else {
      assert Ones(n) + shape == shape;
    }
  }

  /** `np.squeeze` of an array: same elements, squeezed shape. */
  function SqueezeArray<T>(a: NdArray<T>): (r: NdArray<T>)
  {
    SqueezeSpec(a.shape);
    Tensor(Squeeze(a.shape), a.values)
  }

  /** The shape after `while ndim < 4: unsqueeze(0)`. */
  function PadShape(shape: seq<nat>): (r: seq<nat>)
    ensures |r| == if |shape| < 4 then 4 else |shape|
    ensures r[|r| - |shape|..] == shape
    ensures forall i :: 0 <= i < |r| - |shape| ==> r[i] == 1
  {
    if |shape| < 4 then Ones(4 - |shape|) + shape else shape
  }

  /**
   * The padding loop of `n4_itk.py` and `n4_biasfield_estimator.py`: prepends size-1 axes
   * until the rank is 4. The elements do not move, the result has rank max(4, rank) and the
   * original extents are its trailing extents.
   */
  method PadToRank4<T>(a: NdArray<T>) returns (r: NdArray<T>)
    ensures r.values == a.values
    ensures |r.shape| == if |a.shape| < 4 then 4 else |a.shape|
    ensures r.shape == PadShape(a.shape)
    ensures Squeeze(r.shape) == Squeeze(a.shape)
  {
    r := a;
    ghost var added: nat := 0;
    while |r.shape| < 4
      invariant r.values == a.values
      invariant r.shape == Ones(added) + a.shape
      invariant |a.shape| < 4 ==> |r.shape| <= 4
      invariant |a.shape| >= 4 ==> added == 0
      decreases 4 - |r.shape|
    {
      var shape := [1] + r.shape;
      OnesCons(added, a.shape);
      ProdUnitCons(r.shape);
      r := Tensor(shape, r.values);
      added := added + 1;
    }
    SqueezeDropsLeadingOnes(added, a.shape);
  }

  /** One more leading unit axis. */
  lemma OnesCons(n: nat, shape: seq<nat>)
    ensures [1] + (Ones(n) + shape) == Ones(n + 1) + shape
  {
  }

  /** A leading unit axis does not change the element count. */
  lemma ProdUnitCons(shape: seq<nat>)
    ensures Prod([1] + shape) == Prod(shape)
  {
    assert ([1] + shape)[1..] == shape;
  }

  /**
   * A shape whose unit axes all come before its other axes: the shapes that a squeeze
   * followed by padding to rank 4 can give back unchanged.
   */
  predicate LeadingUnitsOnly(shape: seq<nat>)
  {
    1 !in shape || (shape[0] == 1 && LeadingUnitsOnly(shape[1..]))
  }

  lemma {:induction false} LeadingUnitsOnlyForm(shape: seq<nat>)
    requires LeadingUnitsOnly(shape)
    ensures |Squeeze(shape)| <= |shape|
    ensures shape == Ones(|shape| - |Squeeze(shape)|) + Squeeze(shape)
  {
    if 1 !in shape {
      SqueezeFixesUnitFree(shape);
    } else {
      LeadingUnitsOnlyForm(shape[1..]);
      SqueezeSpec(shape[1..]);
      assert shape == [1] + shape[1..];
    }
  }

  lemma {:induction false} OnesThenUnitFree(n: nat, t: seq<nat>)
    requires 1 !in t
    ensures LeadingUnitsOnly(Ones(n) + t)
  {
    if n > 0 {
      assert (Ones(n) + t)[1..] == Ones(n - 1) + t;
      OnesThenUnitFree(n - 1, t);
    } else {
      assert Ones(n) + t == t;
    }
  }

  /**
   * For a rank-4 array, squeezing and padding back to rank 4 gives the original shape
   * exactly when all of its unit axes are leading ones: `(1, 1, 64, 64)` comes back as it
   * was, `(1, 64, 1, 64)` comes back as `(1, 1, 64, 64)`.
   */
  lemma SqueezePadRoundTrip(shape: seq<nat>)
    requires |shape| == 4
    ensures PadShape(Squeeze(shape)) == shape <==> LeadingUnitsOnly(shape)
  {
    SqueezeSpec(shape);
    if LeadingUnitsOnly(shape) {
      LeadingUnitsOnlyForm(shape);
    }
    if PadShape(Squeeze(shape)) == shape {
      OnesThenUnitFree(4 - |Squeeze(shape)|, Squeeze(shape));
    }
  }

  /** `[maxIter] * levels`: a Python list repeated `levels` times, empty when `levels <= 0`. */
  function Schedule(maxIter: int, levels: int): (r: seq<int>)
    ensures |r| == if levels > 0 then levels else 0
    ensures forall i :: 0 <= i < |r| ==> r[i] == maxIter
    decreases levels
  {
    if levels <= 0 then [] else [maxIter] + Schedule(maxIter, levels - 1)
  }

  /**
   * The SimpleITK part of every N4 estimator taken as one opaque step: Otsu mask, N4 fit with
   * the given iteration schedule, log bias field on the input's grid, exponential. The only
   * thing the model knows of it is that the field has the shape of the image it was fitted to.
   */
  type BiasFit = f: (FloatTensor, seq<int>) -> FloatTensor | forall a, s :: f(a, s).shape == a.shape
    witness (a: FloatTensor, s: seq<int>) => a
}
