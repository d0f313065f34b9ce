/**
 * The in-memory part of reading a NIfTI parameter volume `vol[x, y, z, c]`: selecting one
 * channel (`vol[:, :, :, c]`) and reversing the three spatial axes
 * (`torch.moveaxis(t, (0, 1, 2), (2, 1, 0))`), on row-major arrays.
 */
module NiiVolumes {
  import opened Tensors

  // ---- row-major index arithmetic ----

  lemma MulLe(a: nat, b: nat, m: nat)
    requires a <= b
    ensures a * m <= b * m
  {
    var d := b - a;
    assert b * m == a * m + d * m;
  }

  lemma MulStrictBound(i: nat, n: nat, j: nat, m: nat)
    requires i < n && j < m
    ensures i * m + j < n * m
  {
    MulLe(i + 1, n, m);
    assert (i + 1) * m == i * m + m;
  }

  lemma DivMod(q: nat, r: nat, m: nat)
    requires r < m
    ensures (q * m + r) / m == q && (q * m + r) % m == r
  {
    var k := q * m + r;
    var d, e := k / m, k % m;
    assert d * m + e == q * m + r;
    if d > q { MulLe(q + 1, d, m); assert false; }
    else if d < q { MulLe(d + 1, q, m); assert false; }
  }

  lemma SplitBelow(k: nat, n: nat, m: nat)
    requires k < n * m
    ensures m > 0 && k / m < n && k % m < m && k == (k / m) * m + k % m
  {
    if m == 0 { assert false; }
    var q := k / m;
    if q >= n { MulLe(n, q, m); assert false; }
  }

  lemma MulAssoc(a: nat, b: nat, c: nat)
    ensures a * (b * c) == a * b * c
  {
  }

  lemma ProdOf3(a: nat, b: nat, c: nat)
    ensures Prod([a, b, c]) == a * b * c
  {
    assert [a, b, c][1..] == [b, c];
    assert [b, c][1..] == [c];
    assert [c][1..] == [];
    assert Prod([c]) == c;
    assert Prod([b, c]) == b * c;
    MulAssoc(a, b, c);
  }

  lemma ProdOf4(a: nat, b: nat, c: nat, d: nat)
    ensures Prod([a, b, c, d]) == Prod([a, b, c]) * d
  {
    assert [a, b, c, d][1..] == [b, c, d];
    ProdOf3(b, c, d);
    ProdOf3(a, b, c);
    assert Prod([a, b, c, d]) == a * (b * c * d);
    MulAssoc(a, b * c, d);
    MulAssoc(a, b, c);
  }

  /** Row-major offset of index (i, j, l) in an array of extents (_, n1, n2). */
  function Offset3(n1: nat, n2: nat, i: nat, j: nat, l: nat): nat
  {
    (i * n1 + j) * n2 + l
  }

  lemma Offset3Bound(n0: nat, n1: nat, n2: nat, i: nat, j: nat, l: nat)
    requires i < n0 && j < n1 && l < n2
    ensures Offset3(n1, n2, i, j, l) < Prod([n0, n1, n2])
  {
    ProdOf3(n0, n1, n2);
    MulStrictBound(i, n0, j, n1);
    MulStrictBound(i * n1 + j, n0 * n1, l, n2);
  }

  /** The row-major coordinates of an offset below n0 * n1 * n2 are in range. */
  lemma Offset3Split(n0: nat, n1: nat, n2: nat, k: nat)
    requires k < Prod([n0, n1, n2])
    ensures n1 > 0 && n2 > 0
    ensures k / n2 / n1 < n0 && (k / n2) % n1 < n1 && k % n2 < n2
  {
    var i, j, l := Offset3Coords(n0, n1, n2, k);
  }

  /** The in-range index whose offset is k. */
  lemma Offset3Coords(n0: nat, n1: nat, n2: nat, k: nat) returns (i: nat, j: nat, l: nat)
    requires k < Prod([n0, n1, n2])
    ensures n1 > 0 && n2 > 0
    ensures i == k / n2 / n1 && j == (k / n2) % n1 && l == k % n2
    ensures i < n0 && j < n1 && l < n2 && Offset3(n1, n2, i, j, l) == k
  {
    ProdOf3(n0, n1, n2);
    SplitBelow(k, n0 * n1, n2);
    var q := k / n2;
    l := k % n2;
    SplitBelow(q, n0, n1);
    i, j := q / n1, q % n1;
    assert i * n1 + j == q;
    assert (i * n1 + j) * n2 + l == q * n2 + l;
  }

  lemma Offset3Unique(n1: nat, n2: nat, i: nat, j: nat, l: nat)
    requires j < n1 && l < n2
    ensures var k := Offset3(n1, n2, i, j, l);
            k % n2 == l && (k / n2) % n1 == j && k / n2 / n1 == i
  {
    DivMod(i * n1 + j, l, n2);
    DivMod(i, j, n1);
  }

  // ---- element access ----

  predicate In3(a: FloatTensor, i: nat, j: nat, l: nat)
  {
    |a.shape| == 3 && i < a.shape[0] && j < a.shape[1] && l < a.shape[2]
  }

  lemma In3Offset(a: FloatTensor, i: nat, j: nat, l: nat)
    requires In3(a, i, j, l)
    ensures Offset3(a.shape[1], a.shape[2], i, j, l) < |a.values|
  {
    var s := a.shape;
    assert s == [s[0], s[1], s[2]];
    Offset3Bound(s[0], s[1], s[2], i, j, l);
  }

  /** `a[i, j, l]` of a 3-D array. */
  function At3(a: FloatTensor, i: nat, j: nat, l: nat): real
    requires In3(a, i, j, l)
  {
    In3Offset(a, i, j, l);
    a.values[Offset3(a.shape[1], a.shape[2], i, j, l)]
  }

  predicate In4(vol: FloatTensor, x: nat, y: nat, z: nat, c: nat)
  {
    |vol.shape| == 4 && x < vol.shape[0] && y < vol.shape[1] && z < vol.shape[2] && c < vol.shape[3]
  }

  lemma In4Offset(vol: FloatTensor, x: nat, y: nat, z: nat, c: nat)
    requires In4(vol, x, y, z, c)
    ensures Offset3(vol.shape[1], vol.shape[2], x, y, z) * vol.shape[3] + c < |vol.values|
  {
    var s := vol.shape;
    Size4(vol);
    assert s[..3] == [s[0], s[1], s[2]];
    Offset3Bound(s[0], s[1], s[2], x, y, z);
    MulStrictBound(Offset3(s[1], s[2], x, y, z), Prod(s[..3]), c, s[3]);
  }

  /** `vol[x, y, z, c]` of a 4-D array. */
  function At4(vol: FloatTensor, x: nat, y: nat, z: nat, c: nat): real
    requires In4(vol, x, y, z, c)
  {
    In4Offset(vol, x, y, z, c);
    vol.values[Offset3(vol.shape[1], vol.shape[2], x, y, z) * vol.shape[3] + c]
  }

  /** Every stored value of a 3-D array is `a[x, y, z]` for exactly one in-range (x, y, z). */
  lemma FlatIndex(a: FloatTensor, k: nat) returns (x: nat, y: nat, z: nat)
    requires |a.shape| == 3 && k < |a.values|
    ensures In3(a, x, y, z) && Offset3(a.shape[1], a.shape[2], x, y, z) == k
    ensures At3(a, x, y, z) == a.values[k]
    ensures forall x': nat, y': nat, z': nat ::
              In3(a, x', y', z') && Offset3(a.shape[1], a.shape[2], x', y', z') == k ==>
                x' == x && y' == y && z' == z
  {
    var s := a.shape;
    assert s == [s[0], s[1], s[2]];
    x, y, z := Offset3Coords(s[0], s[1], s[2], k);
    Offset3Unique(s[1], s[2], x, y, z);
    forall x': nat, y': nat, z': nat | In3(a, x', y', z') && Offset3(s[1], s[2], x', y', z') == k
      ensures x' == x && y' == y && z' == z
    {
      Offset3Unique(s[1], s[2], x', y', z');
    }
  }

  // ---- channel selection ----

  /** A 4-D array holds Prod of its spatial extents, times its channel count, values. */
  lemma Size4(vol: FloatTensor)
    requires |vol.shape| == 4
    ensures |vol.values| == Prod(vol.shape[..3]) * vol.shape[3]
  {
    var s := vol.shape;
    ProdOf4(s[0], s[1], s[2], s[3]);
    assert s == [s[0], s[1], s[2], s[3]];
    assert s[..3] == [s[0], s[1], s[2]];
  }

  /** `vol[:, :, :, c]`: the 3-D map stored in channel `c`, values unchanged. */
  function Channel(vol: FloatTensor, c: nat): (r: FloatTensor)
    requires |vol.shape| == 4 && c < vol.shape[3]
    ensures r.shape == vol.shape[..3]
  {
    var m := vol.shape[3];
    var n := Prod(vol.shape[..3]);
    Size4(vol);
    Tensor(vol.shape[..3], seq(n, k requires 0 <= k < n =>
                                 MulStrictBound(k, n, c, m);
                                 vol.values[k * m + c]))
  }

  /** Voxel (x, y, z) of channel `c` is `vol[x, y, z, c]`, for every voxel. */
  lemma ChannelAt(vol: FloatTensor, c: nat, x: nat, y: nat, z: nat)
    requires In4(vol, x, y, z, c)
    ensures In3(Channel(vol, c), x, y, z)
    ensures At3(Channel(vol, c), x, y, z) == At4(vol, x, y, z, c)
  {
    var r := Channel(vol, c);
    assert r.shape == [vol.shape[0], vol.shape[1], vol.shape[2]];
    In3Offset(r, x, y, z);
    In4Offset(vol, x, y, z, c);
  }

  // ---- spatial axis reversal ----

  /** Where element k of the reversed (n2, n1, n0) array comes from in the (n0, n1, n2) array. */
  function SourceOffset(n0: nat, n1: nat, n2: nat, k: nat): (r: nat)
    requires k < Prod([n2, n1, n0])
    ensures r < Prod([n0, n1, n2])
  {
    Offset3Split(n2, n1, n0, k);
    var z, y, x := k / n0 / n1, (k / n0) % n1, k % n0;
    Offset3Bound(n0, n1, n2, x, y, z);
    Offset3(n1, n2, x, y, z)
  }

  /** `torch.moveaxis(t, (0, 1, 2), (2, 1, 0))`: the axes of a 3-D array in reverse order. */
  function MoveAxes(t: FloatTensor): (r: FloatTensor)
    requires |t.shape| == 3
    ensures r.shape == [t.shape[2], t.shape[1], t.shape[0]]
  {
    var n0, n1, n2 := t.shape[0], t.shape[1], t.shape[2];
    assert t.shape == [n0, n1, n2];
    var n := Prod([n2, n1, n0]);
    Tensor([n2, n1, n0], seq(n, k requires 0 <= k < n => t.values[SourceOffset(n0, n1, n2, k)]))
  }

  lemma MoveAxesValue(t: FloatTensor, k: nat)
    requires |t.shape| == 3 && k < Prod([t.shape[2], t.shape[1], t.shape[0]])
    ensures t.shape == [t.shape[0], t.shape[1], t.shape[2]]
    ensures k < |MoveAxes(t).values|
    ensures MoveAxes(t).values[k] == t.values[SourceOffset(t.shape[0], t.shape[1], t.shape[2], k)]
  {
    assert t.shape == [t.shape[0], t.shape[1], t.shape[2]];
  }

  /** SourceOffset undoes the reversed layout: index (z, y, x) of the result reads (x, y, z). */
  lemma SourceOffsetOf(n0: nat, n1: nat, n2: nat, x: nat, y: nat, z: nat)
    requires x < n0 && y < n1 && z < n2
    ensures Offset3(n1, n0, z, y, x) < Prod([n2, n1, n0])
    ensures SourceOffset(n0, n1, n2, Offset3(n1, n0, z, y, x)) == Offset3(n1, n2, x, y, z)
  {
    Offset3Bound(n2, n1, n0, z, y, x);
    Offset3Unique(n1, n0, z, y, x);
  }

  /** Reversing the axes puts `t[x, y, z]` at `[z, y, x]`, for every voxel. */
  lemma MoveAxesAt(t: FloatTensor, x: nat, y: nat, z: nat)
    requires In3(t, x, y, z)
    ensures In3(MoveAxes(t), z, y, x)
    ensures At3(MoveAxes(t), z, y, x) == At3(t, x, y, z)
  {
    var n0, n1, n2 := t.shape[0], t.shape[1], t.shape[2];
    var r := MoveAxes(t);
    In3Offset(r, z, y, x);
    SourceOffsetOf(n0, n1, n2, x, y, z);
    var k := Offset3(n1, n0, z, y, x);
    MoveAxesValue(t, k);
  }

  /** Reversing the axes twice gives the original array back. */
  lemma MoveAxesInvolution(t: FloatTensor)
    requires |t.shape| == 3
    ensures MoveAxes(MoveAxes(t)) == t
  {
    var m := MoveAxes(t);
    var back := MoveAxes(m);
    assert back.shape == t.shape;
    forall k | 0 <= k < |t.values|
      ensures back.values[k] == t.values[k]
    {
      var x, y, z := FlatIndex(t, k);
      MoveAxesAt(t, x, y, z);
      MoveAxesAt(m, z, y, x);
      assert At3(back, x, y, z) == back.values[k];
    }
  }
}
