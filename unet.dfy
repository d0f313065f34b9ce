/**
 * The UNet of `unet.py`, as shape bookkeeping only: every torch module is a transformer
 * of feature shapes `(batch, channels, spatial extents)`, and the model proves that the
 * channel counts the constructors wire together fit, and that the network's output has
 * `nChOut` channels and the input's spatial shape.
 */
module Unet {
  import opened Wrappers
  import opened Errors

  // ---- arithmetic ----

  function Pow2(n: nat): (r: nat)
    ensures r >= 1
  {
    if n == 0 then 1 else 2 * Pow2(n - 1)
  }

  lemma {:induction false} Pow2Add(a: nat, b: nat)
    ensures Pow2(a + b) == Pow2(a) * Pow2(b)
  {
    if a > 0 {
      Pow2Add(a - 1, b);
      assert Pow2(a + b) == 2 * Pow2(a - 1 + b);
    }
  }

  /** Halving `q * 2^(m + i)` i times is exact and gives `q * 2^m`. */
  lemma {:induction false} HalvedPower(q: nat, m: nat, i: nat)
    ensures Halved(q * Pow2(m + i), i) == q * Pow2(m)
    decreases i
  {
    if i > 0 {
      var n := q * Pow2(m + i);
      HalvedPower(q, m + 1, i - 1);
      assert m + 1 + (i - 1) == m + i;
      assert Halved(n, i - 1) == q * Pow2(m + 1);
      Double(q, Pow2(m));
    }
  }

  lemma Double(q: nat, p: nat)
    ensures q * (2 * p) == 2 * (q * p)
  {
  }

  // ---- hyperparameters ----

  /** The activation module handed to every block; the model knows only that it keeps shapes. */
  datatype Activation = LeakyReLU | OtherActivation(name: string)

  /** `unet.UNetHyperParameters`. */
  datatype UNetHyperParameters = UNetHyperParameters(
    dim: int, nChIn: nat, nChOut: nat, activationFun: Activation, kernelSize: nat,
    nEncStages: nat, nConvsPerStage: nat, nFilters: nat,
    convBlockResConnection: bool, bias: bool)

  const DefaultHyperParameters := UNetHyperParameters(2, 2, 2, LeakyReLU, 3, 3, 2, 16, true, true)

  // ---- layers as shape transformers ----

  datatype ConvKind = Conv1d | Conv2d | Conv3d

  /** How many spatial axes the operator works on. */
  function SpatialRank(k: ConvKind): nat
  {
    match k
    case Conv1d => 1
    case Conv2d => 2
    case Conv3d => 3
  }

  /** The `if dim == 1 … elif dim == 3` choice of operator; any other `dim` leaves it unbound. */
  function ConvOpFor(dim: int): (r: Option<ConvKind>)
    ensures r.Some? <==> 1 <= dim <= 3
    ensures r.Some? ==> SpatialRank(r.value) == dim
  {
    if dim == 1 then Some(Conv1d) else if dim == 2 then Some(Conv2d)
    else if dim == 3 then Some(Conv3d) else None
  }

  datatype Padding = Same | Explicit(amount: nat)

  datatype Layer =
    | Conv(kind: ConvKind, inCh: nat, outCh: nat, kernel: nat, padding: Padding, bias: bool)
    | Act(fun: Activation)

  /** `(batch, channels, *spatial)`: the shape of a batched torch feature map. */
  datatype FeatureShape = FeatureShape(batch: nat, channels: nat, spatial: seq<nat>)

  /** Output extent of a stride-1 convolution along one axis. */
  function ConvExtent(n: nat, kernel: nat, padding: Padding): int
  {
    match padding
    case Same => n
    case Explicit(p) => n + 2 * p - kernel + 1
  }

  /** `'same'` padding always fits; explicit padding needs an output extent of at least one. */
  predicate ConvFits(spatial: seq<nat>, kernel: nat, padding: Padding)
  {
    padding == Same || forall i :: 0 <= i < |spatial| ==> ConvExtent(spatial[i], kernel, padding) >= 1
  }

  /**
   * A layer on a feature shape: a convolution needs the operator's spatial rank and its
   * input channel count, and maps to its output channel count; an activation keeps the shape.
   */
  function ApplyLayer(l: Layer, x: FeatureShape): (r: Result<FeatureShape, Error>)
    ensures l.Act? ==> r == Success(x)
    ensures l.Conv? ==>
      (r.Success? <==> |x.spatial| == SpatialRank(l.kind) && x.channels == l.inCh && ConvFits(x.spatial, l.kernel, l.padding))
    ensures l.Conv? && r.Success? ==>
      r.value.batch == x.batch && r.value.channels == l.outCh && |r.value.spatial| == |x.spatial|
    ensures l.Conv? && l.padding == Same && r.Success? ==> r.value.spatial == x.spatial
  {
    match l
    case Act(_) => Success(x)
    case Conv(kind, inCh, outCh, kernel, padding, _) =>
      if |x.spatial| != SpatialRank(kind) then Failure(ShapeMismatch)
      else if x.channels != inCh then Failure(ChannelMismatch(inCh, x.channels))
      else if !ConvFits(x.spatial, kernel, padding) then Failure(OutputTooSmall)
      else if padding == Same then Success(FeatureShape(x.batch, outCh, x.spatial))
      else Success(FeatureShape(x.batch, outCh,
        seq(|x.spatial|, i requires 0 <= i < |x.spatial| => ConvExtent(x.spatial[i], kernel, padding) as nat)))
  }

  /** A 1x1 convolution without padding keeps every spatial extent. */
  lemma PointwiseConvKeepsSpatial(kind: ConvKind, inCh: nat, outCh: nat, bias: bool, x: FeatureShape)
    requires |x.spatial| == SpatialRank(kind) && x.channels == inCh
    requires forall i :: 0 <= i < |x.spatial| ==> x.spatial[i] >= 1
    ensures ApplyLayer(Conv(kind, inCh, outCh, 1, Explicit(0), bias), x)
            == Success(FeatureShape(x.batch, outCh, x.spatial))
  {
    var r := ApplyLayer(Conv(kind, inCh, outCh, 1, Explicit(0), bias), x);
    assert ConvFits(x.spatial, 1, Explicit(0));
    assert r.value.spatial == x.spatial;
  }

  /** `nn.Sequential`: the layers one after the other; the first error stops the pass. */
  function ApplyLayers(ls: seq<Layer>, x: FeatureShape): Result<FeatureShape, Error>
    decreases |ls|
  {
    if ls == [] then Success(x)
    else
      var y :- ApplyLayer(ls[0], x);
      ApplyLayers(ls[1..], y)
  }

  /**
   * No layers leave the input as it is. The layers stop at the first one that rejects its
   * input, with that layer's error; a pass that gets through keeps the batch size and the
   * spatial rank.
   */
  lemma {:induction false} ApplyLayersSpec(ls: seq<Layer>, x: FeatureShape)
    ensures ls == [] ==> ApplyLayers(ls, x) == Success(x)
    ensures ls != [] && ApplyLayer(ls[0], x).Failure? ==> ApplyLayers(ls, x) == ApplyLayer(ls[0], x)
    ensures ApplyLayers(ls, x).Success? ==>
              ApplyLayers(ls, x).value.batch == x.batch && |ApplyLayers(ls, x).value.spatial| == |x.spatial|
    decreases |ls|
  {
    if ls != [] && ApplyLayer(ls[0], x).Success? {
      ApplyLayersSpec(ls[1..], ApplyLayer(ls[0], x).value);
    }
  }

  /** A layer that maps `c` channels to `c` channels with `'same'` padding, or an activation. */
  predicate KeepsShape(l: Layer, kind: ConvKind, c: nat)
  {
    l.Act? || (l.Conv? && l.kind == kind && l.inCh == c && l.outCh == c && l.padding == Same)
  }

  lemma {:induction false} KeepingLayers(ls: seq<Layer>, kind: ConvKind, x: FeatureShape)
    requires |x.spatial| == SpatialRank(kind)
    requires forall k :: 0 <= k < |ls| ==> KeepsShape(ls[k], kind, x.channels)
    ensures ApplyLayers(ls, x) == Success(x)
  {
    if ls != [] {
      assert ApplyLayer(ls[0], x) == Success(x);
      KeepingLayers(ls[1..], kind, x);
    }
  }

  // ---- ConvBlock ----

  /** What a block is built from, besides its channel counts. */
  datatype BlockParams = BlockParams(
    kind: ConvKind, nConvs: nat, activation: Activation, resConnection: bool, kernel: nat, bias: bool)

  /** `range(n_convs - 1)` is empty for `n_convs <= 1`, so a block has at least one conv. */
  function Convs(nConvs: nat): (n: nat)
    ensures n >= 1
  {
    if nConvs == 0 then 1 else nConvs
  }

  /** Layer k of a block: even positions are convs (only the first one reads `inCh`), odd ones the activation. */
  function BlockLayer(p: BlockParams, inCh: nat, outCh: nat, k: nat): Layer
  {
    if k % 2 == 1 then Act(p.activation)
    else Conv(p.kind, if k == 0 then inCh else outCh, outCh, p.kernel, Same, p.bias)
  }

  datatype ConvBlock = ConvBlock(layers: seq<Layer>, resLayer: Option<Layer>)

  /** The block `ConvBlock.__init__` builds. */
  function ConvBlockSpec(p: BlockParams, inCh: nat, outCh: nat): ConvBlock
  {
    ConvBlock(seq(2 * Convs(p.nConvs), k requires 0 <= k => BlockLayer(p, inCh, outCh, k)),
              if p.resConnection then Some(Conv(p.kind, inCh, outCh, p.kernel, Same, p.bias)) else None)
  }

  /**
   * A block has `2 * n_convs` layers (at least one pair), alternating conv and activation;
   * the first conv maps `inCh -> outCh` and every later one `outCh -> outCh`; the residual
   * conv exists iff requested and maps `inCh -> outCh`.
   */
  lemma ConvBlockLayout(p: BlockParams, inCh: nat, outCh: nat)
    ensures var b := ConvBlockSpec(p, inCh, outCh);
      && |b.layers| == 2 * Convs(p.nConvs)
      && (p.nConvs >= 1 ==> |b.layers| == 2 * p.nConvs)
      && b.layers[0] == Conv(p.kind, inCh, outCh, p.kernel, Same, p.bias)
      && (forall k :: 0 <= k < |b.layers| && k % 2 == 1 ==> b.layers[k] == Act(p.activation))
      && (forall k :: 2 <= k < |b.layers| && k % 2 == 0 ==>
            b.layers[k] == Conv(p.kind, outCh, outCh, p.kernel, Same, p.bias))
      && (b.resLayer.Some? <==> p.resConnection)
      && (b.resLayer.Some? ==> b.resLayer.value == Conv(p.kind, inCh, outCh, p.kernel, Same, p.bias))
  {
  }

  /**
   * `ConvBlock.__init__`: one conv `inCh -> outCh` and the activation, then `n_convs - 1`
   * more pairs `outCh -> outCh`; the residual conv `inCh -> outCh` exists iff requested.
   */
  method NewConvBlock(dim: int, inCh: nat, outCh: nat, nConvs: nat, activation: Activation,
                      resConnection: bool, kernel: nat, bias: bool)
    returns (r: Result<ConvBlock, Error>)
    ensures ConvOpFor(dim).None? ==> r == Failure(UnboundOperator(dim))
    ensures ConvOpFor(dim).Some? ==> r.Success?
    ensures r.Success? ==>
      var p := BlockParams(ConvOpFor(dim).value, nConvs, activation, resConnection, kernel, bias);
      r.value == ConvBlockSpec(p, inCh, outCh)
  {
    var op := ConvOpFor(dim);
    if op.None? {
      return Failure(UnboundOperator(dim));
    }
    var p := BlockParams(op.value, nConvs, activation, resConnection, kernel, bias);
    var layers := [Conv(op.value, inCh, outCh, kernel, Same, bias), Act(activation)];
    var i := 0;
    while i + 1 < nConvs
      invariant i + 1 <= Convs(nConvs)
      invariant |layers| == 2 * (i + 1)
      invariant forall k :: 0 <= k < |layers| ==> layers[k] == BlockLayer(p, inCh, outCh, k)
    {
      layers := layers + [Conv(op.value, outCh, outCh, kernel, Same, bias), Act(activation)];
      i := i + 1;
    }
    var resLayer := if resConnection then Some(Conv(op.value, inCh, outCh, kernel, Same, bias)) else None;
    return Success(ConvBlock(layers, resLayer));
  }

  /** `ConvBlock.forward`: the layer sequence, plus the residual conv of the same input if present. */
  function ConvBlockForward(b: ConvBlock, x: FeatureShape): Result<FeatureShape, Error>
  {
    var y :- ApplyLayers(b.layers, x);
    match b.resLayer
    case None => Success(y)
    case Some(res) =>
      var z :- ApplyLayer(res, x);
      if y == z then Success(y) else Failure(ShapeMismatch)
  }

  /**
   * A block's pass succeeds iff its layers accept the input and, when there is a residual
   * conv, that conv gives the layers' output shape. The output is the layers' output, with
   * the input's batch size and spatial rank.
   */
  lemma ConvBlockForwardSpec(b: ConvBlock, x: FeatureShape)
    ensures ConvBlockForward(b, x).Success? <==>
              (ApplyLayers(b.layers, x).Success?
               && (b.resLayer.Some? ==> ApplyLayer(b.resLayer.value, x) == ApplyLayers(b.layers, x)))
    ensures ConvBlockForward(b, x).Success? ==> ApplyLayers(b.layers, x) == ConvBlockForward(b, x)
    ensures ConvBlockForward(b, x).Success? ==>
              ConvBlockForward(b, x).value.batch == x.batch
              && |ConvBlockForward(b, x).value.spatial| == |x.spatial|
  {
    ApplyLayersSpec(b.layers, x);
  }

  /**
   * A built block accepts exactly the inputs of its spatial rank with `inCh` channels, and
   * then yields `outCh` channels on the same spatial shape; the residual sum always fits.
   */
  lemma ConvBlockShape(p: BlockParams, inCh: nat, outCh: nat, x: FeatureShape)
    ensures ConvBlockForward(ConvBlockSpec(p, inCh, outCh), x).Success?
            <==> |x.spatial| == SpatialRank(p.kind) && x.channels == inCh
    ensures ConvBlockForward(ConvBlockSpec(p, inCh, outCh), x).Success? ==>
            ConvBlockForward(ConvBlockSpec(p, inCh, outCh), x).value == FeatureShape(x.batch, outCh, x.spatial)
  {
    var b := ConvBlockSpec(p, inCh, outCh);
    var first := ApplyLayer(b.layers[0], x);
    if |x.spatial| == SpatialRank(p.kind) && x.channels == inCh {
      var y := FeatureShape(x.batch, outCh, x.spatial);
      assert first == Success(y);
      forall k | 0 <= k < |b.layers[1..]|
        ensures KeepsShape(b.layers[1..][k], p.kind, y.channels)
      {
        assert b.layers[1..][k] == BlockLayer(p, inCh, outCh, k + 1);
      }
      KeepingLayers(b.layers[1..], p.kind, y);
      assert ApplyLayers(b.layers, x) == Success(y);
    } else {
      assert first.Failure?;
      assert ApplyLayers(b.layers, x).Failure?;
    }
  }

  // ---- pooling ----

  /** `MaxPool{1,2,3}d(2)` along one axis: floor halving. */
  function Halve(s: seq<nat>): (r: seq<nat>)
    ensures |r| == |s|
  {
    seq(|s|, i requires 0 <= i < |s| => s[i] / 2)
  }

  /** Each halved extent is the floor of half the old one. */
  lemma HalveFloor(s: seq<nat>)
    ensures forall i :: 0 <= i < |s| ==> 2 * Halve(s)[i] <= s[i] <= 2 * Halve(s)[i] + 1
  {
  }

  /** The spatial shape after n poolings. */
  function Halvings(s: seq<nat>, n: nat): (r: seq<nat>)
    ensures |r| == |s|
  {
    if n == 0 then s else Halve(Halvings(s, n - 1))
  }

  predicate AllAtLeast2(s: seq<nat>)
  {
    forall i :: 0 <= i < |s| ==> s[i] >= 2
  }

  /** torch refuses to pool an extent below the window size 2 ("output size is too small"). */
  function Pool(rank: nat, x: FeatureShape): (r: Result<FeatureShape, Error>)
    ensures r.Success? <==> |x.spatial| == rank && AllAtLeast2(x.spatial)
    ensures r.Success? ==> r.value == FeatureShape(x.batch, x.channels, Halve(x.spatial))
  {
    if |x.spatial| != rank then Failure(ShapeMismatch)
    else if !AllAtLeast2(x.spatial) then Failure(OutputTooSmall)
    else Success(FeatureShape(x.batch, x.channels, Halve(x.spatial)))
  }

  /** Every one of the first n pooling steps has extents of at least 2 to work on. */
  predicate Poolable(s: seq<nat>, n: nat)
  {
    forall i :: 0 <= i < n ==> AllAtLeast2(Halvings(s, i))
  }

  lemma PoolableStep(s: seq<nat>, i: nat)
    requires Poolable(s, i) && AllAtLeast2(Halvings(s, i))
    ensures Poolable(s, i + 1)
  {
  }

  lemma PoolableStops(s: seq<nat>, i: nat, n: nat)
    requires i < n && !AllAtLeast2(Halvings(s, i))
    ensures !Poolable(s, n)
  {
  }

  // ---- Encoder ----

  datatype Encoder = Encoder(blocks: seq<ConvBlock>, poolRank: nat)

  /** `[n_ch_in, nF, 2 nF, …, nF 2^(nEnc-1)]`. */
  function EncoderChannels(nChIn: nat, nFilters: nat, nEnc: nat): (r: seq<nat>)
    ensures |r| == nEnc + 1 && r[0] == nChIn
    ensures forall i :: 0 <= i < nEnc ==> r[i + 1] == nFilters * Pow2(i)
  {
    [nChIn] + seq(nEnc, i requires 0 <= i => nFilters * Pow2(i))
  }

  /** The encoder `Encoder.__init__` builds: block i maps channel entry i to entry i + 1. */
  function EncoderSpec(p: BlockParams, nChIn: nat, nEnc: nat, nFilters: nat): Encoder
  {
    var ch := EncoderChannels(nChIn, nFilters, nEnc);
    Encoder(seq(nEnc, i requires 0 <= i < nEnc => ConvBlockSpec(p, ch[i], ch[i + 1])), SpatialRank(p.kind))
  }

  /** Block i of the built encoder maps channel entry i to entry i + 1. */
  lemma EncoderSpecBlock(p: BlockParams, nChIn: nat, nEnc: nat, nFilters: nat, i: nat)
    requires i < nEnc
    ensures var ch := EncoderChannels(nChIn, nFilters, nEnc);
      EncoderSpec(p, nChIn, nEnc, nFilters).blocks[i] == ConvBlockSpec(p, ch[i], ch[i + 1])
  {
  }

  /**
   * `Encoder.__init__`.  The blocks are built without passing `bias`, so they always use
   * ConvBlock's default `bias=True`, whatever the caller asked for.
   */
  method NewEncoder(dim: int, nChIn: nat, nEnc: nat, nConvs: nat, nFilters: nat,
                    activation: Activation, resConnection: bool, kernel: nat, bias: bool)
    returns (r: Result<Encoder, Error>)
    ensures ConvOpFor(dim).None? ==> r == Failure(UnboundOperator(dim))
    ensures ConvOpFor(dim).Some? ==> r.Success?
    ensures r.Success? ==>
      var p := BlockParams(ConvOpFor(dim).value, nConvs, activation, resConnection, kernel, true);
      r.value == EncoderSpec(p, nChIn, nEnc, nFilters)
  {
    var chList := [nChIn];
    var ne := 0;
    while ne < nEnc
      invariant ne <= nEnc
      invariant chList == EncoderChannels(nChIn, nFilters, ne)
    {
      chList := chList + [nFilters * Pow2(ne)];
      ne := ne + 1;
    }
    var op := ConvOpFor(dim);
    if op.None? {
      return Failure(UnboundOperator(dim));
    }
    var p := BlockParams(op.value, nConvs, activation, resConnection, kernel, true);
    var blocks := seq(nEnc, i requires 0 <= i < nEnc => ConvBlockSpec(p, chList[i], chList[i + 1]));
    return Success(Encoder(blocks, dim));
  }

  /** Encoder feature i: `nF * 2^i` channels on the input's extents halved i times. */
  function EncoderFeature(x: FeatureShape, nFilters: nat, i: nat): FeatureShape
  {
    FeatureShape(x.batch, nFilters * Pow2(i), Halvings(x.spatial, i))
  }

  /** The first n encoder features. */
  function EncoderFeatures(x: FeatureShape, nFilters: nat, n: nat): seq<FeatureShape>
  {
    seq(n, k requires 0 <= k => EncoderFeature(x, nFilters, k))
  }

  /** What stage i of the encoder works on: the input, then each pooled feature in turn. */
  function EncoderInput(x: FeatureShape, nFilters: nat, i: nat): FeatureShape
  {
    if i == 0 then x else FeatureShape(x.batch, nFilters * Pow2(i - 1), Halvings(x.spatial, i))
  }

  /** Appending the next encoder feature gives the next list of features. */
  lemma FeatureAppended(x: FeatureShape, nFilters: nat, n: nat)
    ensures EncoderFeatures(x, nFilters, n + 1) == EncoderFeatures(x, nFilters, n) + [EncoderFeature(x, nFilters, n)]
  {
  }

  /** Pooling feature i gives what stage i + 1 works on. */
  lemma FeaturePooled(x: FeatureShape, nFilters: nat, i: nat)
    ensures var f := EncoderFeature(x, nFilters, i);
      FeatureShape(f.batch, f.channels, Halve(f.spatial)) == EncoderInput(x, nFilters, i + 1)
  {
  }

  /**
   * Block i of the built encoder on `cur`, what the previous stage pooled (the input itself
   * at stage 0): only stage 0 can fail, and it yields feature i.
   */
  method EncoderBlock(e: Encoder, i: nat, cur: FeatureShape, ghost p: BlockParams,
                      ghost nChIn: nat, ghost nEnc: nat, ghost nFilters: nat, ghost x: FeatureShape)
    returns (y: Result<FeatureShape, Error>)
    requires e == EncoderSpec(p, nChIn, nEnc, nFilters) && i < nEnc
    requires cur == EncoderInput(x, nFilters, i)
    requires i > 0 ==> |x.spatial| == SpatialRank(p.kind)
    ensures y.Success? <==> (i > 0 || (|x.spatial| == SpatialRank(p.kind) && x.channels == nChIn))
    ensures y.Success? ==> y.value == EncoderFeature(x, nFilters, i)
  {
    var ch := EncoderChannels(nChIn, nFilters, nEnc);
    EncoderSpecBlock(p, nChIn, nEnc, nFilters, i);
    if i > 0 {
      assert ch[i] == nFilters * Pow2(i - 1);
    }
    ConvBlockShape(p, ch[i], ch[i + 1], cur);
    y := ConvBlockForward(e.blocks[i], cur);
  }

  /**
   * `Encoder.forward`: block, keep the feature, pool, for every block (the last pooled map
   * is discarded, but it is still computed, so its extents must allow pooling too).
   */
  method EncoderForward(e: Encoder, x: FeatureShape, ghost p: BlockParams,
                        ghost nChIn: nat, ghost nEnc: nat, ghost nFilters: nat)
    returns (r: Result<seq<FeatureShape>, Error>)
    requires e == EncoderSpec(p, nChIn, nEnc, nFilters)
    ensures r.Success? <==>
      (nEnc == 0 || (|x.spatial| == SpatialRank(p.kind) && x.channels == nChIn && Poolable(x.spatial, nEnc)))
    ensures r.Success? ==> |r.value| == nEnc
    ensures r.Success? ==> forall i :: 0 <= i < nEnc ==>
              r.value[i] == FeatureShape(x.batch, nFilters * Pow2(i), Halvings(x.spatial, i))
  {
    var features: seq<FeatureShape> := [];
    var cur := x;
    var i := 0;
    while i < |e.blocks|
      invariant 0 <= i <= nEnc
      invariant features == EncoderFeatures(x, nFilters, i)
      invariant i > 0 ==> |x.spatial| == SpatialRank(p.kind) && x.channels == nChIn
      invariant Poolable(x.spatial, i)
      invariant cur == EncoderInput(x, nFilters, i)
    {
      var y := EncoderBlock(e, i, cur, p, nChIn, nEnc, nFilters, x);
      if y.Failure? {
        return Failure(y.error);
      }
      FeatureAppended(x, nFilters, i);
      features := features + [y.value];
      var pooled := Pool(e.poolRank, y.value);
      if pooled.Failure? {
        PoolableStops(x.spatial, i, nEnc);
        return Failure(pooled.error);
      }
      PoolableStep(x.spatial, i);
      FeaturePooled(x, nFilters, i);
      cur := pooled.value;
      i := i + 1;
    }
    return Success(features);
  }

  // ---- Decoder ----

  datatype Decoder = Decoder(upconvs: seq<Layer>, blocks: seq<ConvBlock>, interpRank: nat)

  /**
   * `int(n_ch_in * (1 / 2)**ne)`: `n` halved `i` times, rounding down each time, which is
   * `n / 2^i` rounded down (the float product is exact for the channel counts a network has).
   */
  function Halved(n: nat, i: nat): nat
  {
    if i == 0 then n else Halved(n, i - 1) / 2
  }

  /** The decoder's channel list, one entry per stage. */
  function DecoderChannels(nChIn: nat, nStages: nat): (r: seq<nat>)
    ensures |r| == nStages
    ensures forall i :: 0 <= i < nStages ==> r[i] == Halved(nChIn, i)
  {
    seq(nStages, i requires 0 <= i => Halved(nChIn, i))
  }

  /** `range(len(n_ch_list) - 1)`: one upconv and one block per consecutive pair of stages. */
  function Pairs(nStages: nat): nat
  {
    if nStages == 0 then 0 else nStages - 1
  }

  /** The decoder `Decoder.__init__` builds. */
  function DecoderSpec(p: BlockParams, nChIn: nat, nStages: nat): Decoder
  {
    var ch := DecoderChannels(nChIn, nStages);
    var m := Pairs(nStages);
    Decoder(seq(m, i requires 0 <= i < m => Conv(p.kind, ch[i], ch[i + 1], p.kernel, Same, p.bias)),
            seq(m, i requires 0 <= i < m => ConvBlockSpec(p, ch[i], ch[i + 1])),
            SpatialRank(p.kind))
  }

  /** `Decoder.__init__`; its `n_filters` argument is never read. */
  method NewDecoder(dim: int, nChIn: nat, nStages: nat, nConvs: nat, nFilters: nat,
                    activation: Activation, resConnection: bool, kernel: nat, bias: bool)
    returns (r: Result<Decoder, Error>)
    ensures ConvOpFor(dim).None? ==> r == Failure(UnboundOperator(dim))
    ensures ConvOpFor(dim).Some? ==> r.Success?
    ensures r.Success? ==>
      var p := BlockParams(ConvOpFor(dim).value, nConvs, activation, resConnection, kernel, bias);
      r.value == DecoderSpec(p, nChIn, nStages)
  {
    var chList: seq<nat> := [];
    var ne := 0;
    while ne < nStages
      invariant ne <= nStages
      invariant chList == DecoderChannels(nChIn, ne)
    {
      chList := chList + [Halved(nChIn, ne)];
      ne := ne + 1;
    }
    var op := ConvOpFor(dim);
    if op.None? {
      return Failure(UnboundOperator(dim));
    }
    var p := BlockParams(op.value, nConvs, activation, resConnection, kernel, bias);
    var m := Pairs(nStages);
    var upconvs := seq(m, i requires 0 <= i < m => Conv(op.value, chList[i], chList[i + 1], kernel, Same, bias));
    var blocks := seq(m, i requires 0 <= i < m => ConvBlockSpec(p, chList[i], chList[i + 1]));
    return Success(Decoder(upconvs, blocks, dim));
  }

  /** `nn.functional.interpolate(x, size)`: the spatial shape becomes `size`. */
  function Interpolate(rank: nat, x: FeatureShape, size: seq<nat>): (r: Result<FeatureShape, Error>)
    ensures r.Success? <==> |x.spatial| == rank && |size| == rank
    ensures r.Success? ==> r.value == FeatureShape(x.batch, x.channels, size)
  {
    if |x.spatial| != rank || |size| != rank then Failure(ShapeMismatch)
    else Success(FeatureShape(x.batch, x.channels, size))
  }

  /** `torch.cat([x, skip], dim=1)`: same batch and spatial shape, channel counts add up. */
  function Concat(x: FeatureShape, skip: FeatureShape): (r: Result<FeatureShape, Error>)
    ensures r.Success? <==> x.batch == skip.batch && x.spatial == skip.spatial
    ensures r.Success? ==> r.value == FeatureShape(x.batch, x.channels + skip.channels, x.spatial)
  {
    if x.batch != skip.batch || x.spatial != skip.spatial then Failure(ShapeMismatch)
    else Success(FeatureShape(x.batch, x.channels + skip.channels, x.spatial))
  }

  /**
   * Stage i of the decoder goes through: there is a skip feature i, of the decoder's rank and
   * the input's batch, whose channels added to the upconv's output make up exactly what
   * block i expects; at stage 0 the input itself must have the rank and the first channel count.
   */
  predicate StageFits(ch: seq<nat>, rank: nat, x: FeatureShape, skips: seq<FeatureShape>, i: nat)
    requires i + 1 < |ch|
  {
    i < |skips| && |skips[i].spatial| == rank && skips[i].batch == x.batch
    && ch[i + 1] + skips[i].channels == ch[i]
    && (i == 0 ==> |x.spatial| == rank && x.channels == ch[0])
  }

  /** What a built decoder with `m` stages accepts: every stage goes through. */
  predicate DecoderAccepts(ch: seq<nat>, m: nat, rank: nat, x: FeatureShape, skips: seq<FeatureShape>)
    requires m < |ch| || m == 0
  {
    forall i :: 0 <= i < m ==> StageFits(ch, rank, x, skips, i)
  }

  lemma AcceptsStep(ch: seq<nat>, i: nat, rank: nat, x: FeatureShape, skips: seq<FeatureShape>)
    requires i + 1 < |ch|
    requires DecoderAccepts(ch, i, rank, x, skips) && StageFits(ch, rank, x, skips, i)
    ensures DecoderAccepts(ch, i + 1, rank, x, skips)
  {
  }

  lemma AcceptsStops(ch: seq<nat>, i: nat, m: nat, rank: nat, x: FeatureShape, skips: seq<FeatureShape>)
    requires i < m < |ch| && !StageFits(ch, rank, x, skips, i)
    ensures !DecoderAccepts(ch, m, rank, x, skips)
  {
  }

  /** Where the decoder ends up: the last stage's channels on the last skip's spatial shape. */
  function DecoderOutput(ch: seq<nat>, m: nat, x: FeatureShape, skips: seq<FeatureShape>): FeatureShape
    requires m < |ch| && 0 < m <= |skips|
  {
    FeatureShape(x.batch, ch[m], skips[m - 1].spatial)
  }

  /** Upconv i of the built decoder on `u`: a `'same'` conv from channel entry i to entry i + 1. */
  method DecoderUpconv(d: Decoder, i: nat, u: FeatureShape, ghost p: BlockParams,
                       ghost nChIn: nat, ghost nStages: nat)
    returns (y: Result<FeatureShape, Error>)
    requires d == DecoderSpec(p, nChIn, nStages) && i < Pairs(nStages)
    ensures var ch := DecoderChannels(nChIn, nStages);
      && (y.Success? <==> |u.spatial| == SpatialRank(p.kind) && u.channels == ch[i])
      && (y.Success? ==> y.value == FeatureShape(u.batch, ch[i + 1], u.spatial))
  {
    y := ApplyLayer(d.upconvs[i], u);
  }

  /** Block i of the built decoder on `c`: it takes channel entry i to entry i + 1. */
  method DecoderBlock(d: Decoder, i: nat, c: FeatureShape, ghost p: BlockParams,
                      ghost nChIn: nat, ghost nStages: nat)
    returns (z: Result<FeatureShape, Error>)
    requires d == DecoderSpec(p, nChIn, nStages) && i < Pairs(nStages)
    ensures var ch := DecoderChannels(nChIn, nStages);
      && (z.Success? <==> |c.spatial| == SpatialRank(p.kind) && c.channels == ch[i])
      && (z.Success? ==> z.value == FeatureShape(c.batch, ch[i + 1], c.spatial))
  {
    var ch := DecoderChannels(nChIn, nStages);
    assert d.blocks[i] == ConvBlockSpec(p, ch[i], ch[i + 1]);
    ConvBlockShape(p, ch[i], ch[i + 1], c);
    z := ConvBlockForward(d.blocks[i], c);
  }

  /**
   * `Decoder.forward`: for each stage, interpolate to the skip's spatial shape, upconv,
   * concatenate the skip, run the block.
   */
  method DecoderForward(d: Decoder, x: FeatureShape, skips: seq<FeatureShape>,
                        ghost p: BlockParams, ghost nChIn: nat, ghost nStages: nat)
    returns (r: Result<FeatureShape, Error>)
    requires d == DecoderSpec(p, nChIn, nStages)
    ensures r.Success? <==>
      DecoderAccepts(DecoderChannels(nChIn, nStages), Pairs(nStages), SpatialRank(p.kind), x, skips)
    ensures r.Success? && Pairs(nStages) == 0 ==> r.value == x
    ensures r.Success? && Pairs(nStages) > 0 ==>
      (Pairs(nStages) <= |skips| &&
       r.value == DecoderOutput(DecoderChannels(nChIn, nStages), Pairs(nStages), x, skips))
  {
    ghost var ch := DecoderChannels(nChIn, nStages);
    ghost var m := Pairs(nStages);
    ghost var rank := SpatialRank(p.kind);
    var cur := x;
    var i := 0;
    assert |d.blocks| == m;
    while i < |d.blocks|
      invariant 0 <= i <= m
      invariant DecoderAccepts(ch, i, rank, x, skips)
      invariant i == 0 ==> cur == x
      invariant i > 0 ==> i <= |skips| && cur == DecoderOutput(ch, i, x, skips)
    {
      if i >= |skips| {
        AcceptsStops(ch, i, m, rank, x, skips);
        return Failure(ListIndex(i, |skips|));
      }
      if i > 0 {
        assert StageFits(ch, rank, x, skips, i - 1);
      }
      var enc := skips[i];
      var up := Interpolate(d.interpRank, cur, enc.spatial);
      if up.Failure? {
        AcceptsStops(ch, i, m, rank, x, skips);
        return Failure(up.error);
      }
      var y := DecoderUpconv(d, i, up.value, p, nChIn, nStages);
      if y.Failure? {
        AcceptsStops(ch, i, m, rank, x, skips);
        return Failure(y.error);
      }
      var cat := Concat(y.value, enc);
      if cat.Failure? {
        AcceptsStops(ch, i, m, rank, x, skips);
        return Failure(cat.error);
      }
      var z := DecoderBlock(d, i, cat.value, p, nChIn, nStages);
      if z.Failure? {
        AcceptsStops(ch, i, m, rank, x, skips);
        return Failure(z.error);
      }
      AcceptsStep(ch, i, rank, x, skips);
      cur := z.value;
      i := i + 1;
    }
    return Success(cur);
  }

  // ---- UNet ----

  datatype UNet = UNet(encoder: Encoder, decoder: Decoder, c1x1: Layer)

  /** The encoder's blocks: the caller's settings, but `bias` is always ConvBlock's default. */
  function EncoderParams(h: UNetHyperParameters, kind: ConvKind): BlockParams
  {
    BlockParams(kind, h.nConvsPerStage, h.activationFun, h.convBlockResConnection, h.kernelSize, true)
  }

  function DecoderParams(h: UNetHyperParameters, kind: ConvKind): BlockParams
  {
    BlockParams(kind, h.nConvsPerStage, h.activationFun, h.convBlockResConnection, h.kernelSize, h.bias)
  }

  /**
   * `nFilters * 2**(nEncStages - 1)`, the deepest encoder feature's channel count.  With no
   * encoder stage Python computes `nFilters / 2`, but a decoder with no stage never reads it.
   */
  function DecoderIn(h: UNetHyperParameters): nat
  {
    if h.nEncStages == 0 then 0 else h.nFilters * Pow2(h.nEncStages - 1)
  }

  /** The network `UNet.__init__` builds from `h`. */
  function UNetSpec(h: UNetHyperParameters): UNet
    requires 1 <= h.dim <= 3
  {
    var kind := ConvOpFor(h.dim).value;
    UNet(EncoderSpec(EncoderParams(h, kind), h.nChIn, h.nEncStages, h.nFilters),
         DecoderSpec(DecoderParams(h, kind), DecoderIn(h), h.nEncStages),
         Conv(kind, h.nFilters, h.nChOut, 1, Explicit(0), h.bias))
  }

  /** `UNet.__init__`: encoder, decoder, then the final 1x1 convolution. */
  method NewUNet(h: UNetHyperParameters) returns (r: Result<UNet, Error>)
    ensures r.Success? <==> 1 <= h.dim <= 3
    ensures r.Failure? ==> r.error == UnboundOperator(h.dim)
    ensures r.Success? ==> r.value == UNetSpec(h)
  {
    var encoder :- NewEncoder(h.dim, h.nChIn, h.nEncStages, h.nConvsPerStage, h.nFilters,
                              h.activationFun, h.convBlockResConnection, h.kernelSize, h.bias);
    // The encoder has bound an operator, so the decoder and the 1x1 convolution find one too.
    var decoder := NewDecoder(h.dim, DecoderIn(h), h.nEncStages, h.nConvsPerStage,
                              h.nFilters * (h.nEncStages * 2), h.activationFun,
                              h.convBlockResConnection, h.kernelSize, h.bias);
    var op := ConvOpFor(h.dim);
    assert decoder.Success? && op.Some?;
    var c1x1 := Conv(op.value, h.nFilters, h.nChOut, 1, Explicit(0), h.bias);
    return Success(UNet(encoder, decoder.value, c1x1));
  }

  /** `s[::-1]`. */
  function Reverse<T>(s: seq<T>): (r: seq<T>)
    ensures |r| == |s|
    ensures forall i :: 0 <= i < |s| ==> r[i] == s[|s| - 1 - i]
  {
    seq(|s|, i requires 0 <= i < |s| => s[|s| - 1 - i])
  }

  /** Decoder stage i of a network with n encoder stages works at `nFilters * 2^(n - 1 - i)` channels. */
  lemma DecoderChannelAt(h: UNetHyperParameters, i: nat)
    requires i < h.nEncStages
    ensures DecoderChannels(DecoderIn(h), h.nEncStages)[i] == h.nFilters * Pow2(h.nEncStages - 1 - i)
  {
    HalvedPower(h.nFilters, h.nEncStages - 1 - i, i);
    assert h.nEncStages - 1 - i + i == h.nEncStages - 1;
  }

  /** Concatenating a skip of `c` channels to an upconv output of `c` channels gives `2c`. */
  lemma ConcatDoubles(nFilters: nat, k: nat)
    ensures nFilters * Pow2(k) + nFilters * Pow2(k) == nFilters * Pow2(k + 1)
  {
    assert Pow2(k + 1) == 2 * Pow2(k);
  }

  /**
   * The skip connections line up: feeding the deepest encoder feature and the others,
   * deepest first, into the decoder that `UNet.__init__` builds always goes through, and
   * ends at `nFilters` channels on the input's spatial shape.
   */
  lemma SkipsFit(h: UNetHyperParameters, x: FeatureShape, feats: seq<FeatureShape>)
    requires 1 <= h.dim <= 3 && h.nEncStages >= 1 && |x.spatial| == h.dim
    requires |feats| == h.nEncStages
    requires forall i :: 0 <= i < |feats| ==>
      feats[i] == FeatureShape(x.batch, h.nFilters * Pow2(i), Halvings(x.spatial, i))
    ensures var ch := DecoderChannels(DecoderIn(h), h.nEncStages);
            var m := Pairs(h.nEncStages);
            var skips := Reverse(feats)[1..];
            && DecoderAccepts(ch, m, h.dim, feats[|feats| - 1], skips)
            && (m == 0 ==> feats[|feats| - 1] == FeatureShape(x.batch, h.nFilters, x.spatial))
            && (m > 0 ==>
                  (m <= |skips| &&
                   DecoderOutput(ch, m, feats[|feats| - 1], skips) == FeatureShape(x.batch, h.nFilters, x.spatial)))
  {
    var n := h.nEncStages;
    var ch := DecoderChannels(DecoderIn(h), n);
    var m := Pairs(n);
    var skips := Reverse(feats)[1..];
    var deepest := feats[n - 1];
    forall i | 0 <= i < m
      ensures StageFits(ch, h.dim, deepest, skips, i)
    {
      assert skips[i] == feats[n - 2 - i];
      DecoderChannelAt(h, i);
      DecoderChannelAt(h, i + 1);
      assert n - 1 - i == (n - 1 - (i + 1)) + 1;
      ConcatDoubles(h.nFilters, n - 1 - (i + 1));
      if i == 0 {
        assert deepest.channels == h.nFilters * Pow2(n - 1) && ch[0] == h.nFilters * Pow2(n - 1 - 0);
      }
    }
    if m > 0 {
      assert skips[m - 1] == feats[0];
      DecoderChannelAt(h, m);
    }
  }

  /**
   * `UNet.forward`: encode, decode the deepest feature with the others as skips (deepest
   * first), then the 1x1 convolution.  The network accepts exactly the inputs its encoder
   * accepts, and maps them to `nChOut` channels on the same spatial shape; with no encoder
   * stage, `enc_features[-1]` fails on the empty list.
   */
  method UNetForward(u: UNet, x: FeatureShape, ghost h: UNetHyperParameters)
    returns (r: Result<FeatureShape, Error>)
    requires 1 <= h.dim <= 3 && u == UNetSpec(h)
    ensures r.Success? <==>
      (h.nEncStages >= 1 && |x.spatial| == h.dim && x.channels == h.nChIn && Poolable(x.spatial, h.nEncStages))
    ensures h.nEncStages == 0 ==> r == Failure(ListIndex(-1, 0))
    ensures r.Success? ==> r.value == FeatureShape(x.batch, h.nChOut, x.spatial)
  {
    ghost var kind := ConvOpFor(h.dim).value;
    var feats :- EncoderForward(u.encoder, x, EncoderParams(h, kind), h.nChIn, h.nEncStages, h.nFilters);
    if |feats| == 0 {
      return Failure(ListIndex(-1, 0));
    }
    var deepest := feats[|feats| - 1];
    var skips := Reverse(feats)[1..];
    SkipsFit(h, x, feats);
    var decoded := DecoderForward(u.decoder, deepest, skips, DecoderParams(h, kind), DecoderIn(h), h.nEncStages);
    assert decoded.Success? && decoded.value == FeatureShape(x.batch, h.nFilters, x.spatial);
    assert Halvings(x.spatial, 0) == x.spatial;
    PointwiseConvKeepsSpatial(kind, h.nFilters, h.nChOut, h.bias, decoded.value);
    r := ApplyLayer(u.c1x1, decoded.value);
  }
}
