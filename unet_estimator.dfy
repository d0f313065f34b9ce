/**
 * `UNetEstimator`: a bias estimator that builds a UNet from its own hyperparameter record and,
 * when called, checks its input and returns the constant field 1.0 (the network is not yet
 * applied).  The estimator's record names two settings differently from the record `UNet`
 * reads, so building the network from it fails; the model keeps that behaviour as written and
 * builds the corrected estimator by translating the record.
 */
module UnetEstimator {
  import opened Wrappers
  import opened Errors
  import opened Tensors
  import opened MRDataInterface
  import opened Unet

  /** `unet_estimator.UNetHyperParameters`. */
  datatype EstimatorHyperParameters = EstimatorHyperParameters(
    dim: int, nChIn: nat, nChOut: nat, kernelSize: nat, nEncStages: nat,
    nConvsPerStage: nat, nFilters: nat, resConnection: bool, bias: bool)

  const DefaultEstimatorHyperParameters := EstimatorHyperParameters(2, 2, 2, 3, 3, 2, 16, true, true)

  /** `hparams or UNetHyperParameters()`: a missing record is replaced by the defaults. */
  function HparamsOrDefault(hparams: Option<EstimatorHyperParameters>): (r: EstimatorHyperParameters)
    ensures hparams.None? ==> r == DefaultEstimatorHyperParameters
    ensures hparams.Some? ==> r == hparams.value
  {
    hparams.GetOr(DefaultEstimatorHyperParameters)
  }

  // ---- building the network from the estimator's record, as written ----

  /** The attribute names the two hyperparameter records use between them. */
  datatype Attr =
    | Dim | NChIn | NChOut | ActivationFun | KernelSize | NEncStages | NConvsPerStage
    | NFilters | ConvBlockResConnection | ResConnection | Bias

  /** The Python spelling of an attribute. */
  function AttrName(a: Attr): string
  {
    match a
    case Dim => "dim"
    case NChIn => "nChIn"
    case NChOut => "nChOut"
    case ActivationFun => "ActivationFun"
    case KernelSize => "KernelSize"
    case NEncStages => "nEncStages"
    case NConvsPerStage => "nConvsPerStage"
    case NFilters => "nFilters"
    case ConvBlockResConnection => "ConvBlockResConnection"
    case ResConnection => "ResConnection"
    case Bias => "Bias"
  }

  /** The attributes of the estimator's record. */
  const EstimatorFields: set<Attr> :=
    {Dim, NChIn, NChOut, KernelSize, NEncStages, NConvsPerStage, NFilters, ResConnection, Bias}

  /** The attributes of the record `UNet` is written against. */
  const UNetFields: set<Attr> :=
    {Dim, NChIn, NChOut, ActivationFun, KernelSize, NEncStages, NConvsPerStage, NFilters,
     ConvBlockResConnection, Bias}

  /**
   * The attributes `UNet.__init__` reads as the encoder's arguments, each where Python first
   * evaluates it. The decoder reads no others.
   */
  const EncoderReads: seq<Attr> :=
    [Dim, NChIn, NEncStages, NConvsPerStage, NFilters, ActivationFun, ConvBlockResConnection,
     KernelSize, Bias]

  /** All the attributes `UNet.__init__` reads: the 1x1 convolution is the first to read `nChOut`. */
  const UNetInitReads: seq<Attr> := EncoderReads + [NChOut]

  /** A record with attributes `fields` has every attribute of `attrs`. */
  predicate HasAll(attrs: seq<Attr>, fields: set<Attr>)
  {
    forall i :: 0 <= i < |attrs| ==> attrs[i] in fields
  }

  /** `attrs[k]` is the first attribute of `attrs` that a record with attributes `fields` lacks. */
  predicate FirstLacking(attrs: seq<Attr>, fields: set<Attr>, k: int)
  {
    0 <= k < |attrs| && attrs[k] !in fields && forall i :: 0 <= i < k ==> attrs[i] in fields
  }

  /** The first attribute of `attrs` that a record with attributes `fields` lacks, if any. */
  function FirstMissing(attrs: seq<Attr>, fields: set<Attr>): (r: Option<Attr>)
    ensures r.None? <==> HasAll(attrs, fields)
    ensures r.Some? ==> r.value !in fields && exists i :: 0 <= i < |attrs| && attrs[i] == r.value
  {
    if attrs == [] then None
    else if attrs[0] !in fields then Some(attrs[0])
    else
      var rest := FirstMissing(attrs[1..], fields);
      assert forall i :: 1 <= i < |attrs| ==> attrs[i] == attrs[1..][i - 1];
      rest
  }

  /** The first missing attribute is the first one not in `fields`. */
  lemma {:induction false} FirstMissingAt(attrs: seq<Attr>, fields: set<Attr>, k: nat)
    requires FirstLacking(attrs, fields, k)
    ensures FirstMissing(attrs, fields) == Some(attrs[k])
  {
    if k > 0 {
      assert FirstLacking(attrs[1..], fields, k - 1);
      FirstMissingAt(attrs[1..], fields, k - 1);
    }
  }

  /**
   * `UNet(record)` for a record whose attributes are `fields` and whose values are the settings
   * `h`. The first encoder argument the record lacks raises `AttributeError`. Once all nine are
   * read, a `dim` other than 1, 2 or 3 leaves `conv_op` unbound, which raises before `nChOut`
   * is read. Only then can a missing `nChOut` raise.
   * The values always go through `ToUNetHyperParameters`, so even `UNet`'s own record carries
   * the default `LeakyReLU` here; activations keep the shape, so no shape fact depends on it.
   */
  function UNetFromRecord(h: EstimatorHyperParameters, fields: set<Attr>): (r: Result<UNet, Error>)
    ensures r.Success? <==> HasAll(UNetInitReads, fields) && 1 <= h.dim <= 3
    ensures r.Success? ==> r.value == UNetSpec(ToUNetHyperParameters(h))
    ensures forall k :: FirstLacking(EncoderReads, fields, k) ==>
              r == Failure(MissingAttribute(AttrName(EncoderReads[k])))
    ensures HasAll(EncoderReads, fields) && !(1 <= h.dim <= 3) ==> r == Failure(UnboundOperator(h.dim))
    ensures HasAll(EncoderReads, fields) && 1 <= h.dim <= 3 && NChOut !in fields ==>
              r == Failure(MissingAttribute(AttrName(NChOut)))
  {
    assert HasAll(UNetInitReads, fields) <==> HasAll(EncoderReads, fields) && NChOut in fields by {
      assert UNetInitReads[|EncoderReads|] == NChOut;
      assert forall i :: 0 <= i < |EncoderReads| ==> UNetInitReads[i] == EncoderReads[i];
    }
    assert forall k :: FirstLacking(EncoderReads, fields, k) ==>
             FirstMissing(EncoderReads, fields) == Some(EncoderReads[k]) by {
      forall k | FirstLacking(EncoderReads, fields, k)
        ensures FirstMissing(EncoderReads, fields) == Some(EncoderReads[k])
      {
        FirstMissingAt(EncoderReads, fields, k);
      }
    }
    match FirstMissing(EncoderReads, fields)
    case Some(a) => Failure(MissingAttribute(AttrName(a)))
    case None =>
      if !(1 <= h.dim <= 3) then Failure(UnboundOperator(h.dim))
      else if NChOut !in fields then Failure(MissingAttribute(AttrName(NChOut)))
      else Success(UNetSpec(ToUNetHyperParameters(h)))
  }

  /**
   * `UNet(hparams)` as `UNetEstimator.__init__` writes it, on the estimator's own record:
   * whatever the settings, it fails on `ActivationFun`, the sixth attribute read.
   */
  function UNetFromEstimatorRecord(h: EstimatorHyperParameters): (r: Result<UNet, Error>)
    ensures r == Failure(MissingAttribute(AttrName(ActivationFun)))
  {
    EstimatorMissesActivation();
    UNetFromRecord(h, EstimatorFields)
  }

  /** `ActivationFun` is the first encoder argument the estimator's record lacks. */
  lemma EstimatorMissesActivation()
    ensures FirstLacking(EncoderReads, EstimatorFields, 5) && EncoderReads[5] == ActivationFun
  {
  }

  /**
   * The record `UNet` is written against has every attribute `UNet.__init__` reads, so
   * with a valid `dim` it builds the network.
   */
  lemma UNetRecordComplete(h: EstimatorHyperParameters)
    requires 1 <= h.dim <= 3
    ensures UNetFromRecord(h, UNetFields) == Success(UNetSpec(ToUNetHyperParameters(h)))
  {
    assert forall i :: 0 <= i < |UNetInitReads| ==> UNetInitReads[i] in UNetFields;
  }

  // ---- the corrected construction ----

  /**
   * The record the estimator means: the same settings under `UNet`'s names, `ResConnection`
   * as `ConvBlockResConnection`, and `UNet`'s default activation `LeakyReLU`.
   */
  function ToUNetHyperParameters(h: EstimatorHyperParameters): (r: UNetHyperParameters)
    ensures r.dim == h.dim && r.nChIn == h.nChIn && r.nChOut == h.nChOut
    ensures r.kernelSize == h.kernelSize && r.nEncStages == h.nEncStages
    ensures r.nConvsPerStage == h.nConvsPerStage && r.nFilters == h.nFilters
    ensures r.convBlockResConnection == h.resConnection && r.bias == h.bias
    ensures r.activationFun == DefaultHyperParameters.activationFun
  {
    UNetHyperParameters(h.dim, h.nChIn, h.nChOut, LeakyReLU, h.kernelSize, h.nEncStages,
                        h.nConvsPerStage, h.nFilters, h.resConnection, h.bias)
  }

  /** The two default records agree: translating the estimator's defaults gives `UNet`'s. */
  lemma DefaultsAgree()
    ensures ToUNetHyperParameters(DefaultEstimatorHyperParameters) == DefaultHyperParameters
  {
  }

  /** What the bias estimator returns: an empty image for an empty input, otherwise a constant field. */
  datatype EstimationResult = EmptyImage(image: ImageData) | Constant(value: real)

  class UNetEstimator {
    var hparams: EstimatorHyperParameters
    var unet: UNet

    constructor (hparams: EstimatorHyperParameters, unet: UNet)
      ensures this.hparams == hparams && this.unet == unet
    {
      this.hparams := hparams;
      this.unet := unet;
    }

    /**
     * `UNetEstimator.__init__`, with the record translated before the network is built:
     * a missing record means the defaults, and the network is the one `UNet` builds.
     */
    static method Create(hparams: Option<EstimatorHyperParameters>) returns (r: Result<UNetEstimator, Error>)
      ensures var h := HparamsOrDefault(hparams);
        && (r.Success? <==> 1 <= h.dim <= 3)
        && (r.Failure? ==> r.error == UnboundOperator(h.dim))
        && (r.Success? ==> fresh(r.value) && r.value.hparams == h
                           && r.value.unet == UNetSpec(ToUNetHyperParameters(h)))
    {
      var h := HparamsOrDefault(hparams);
      var unet :- NewUNet(ToUNetHyperParameters(h));
      var e := new UNetEstimator(h, unet);
      return Success(e);
    }

    /**
     * `unet_estimation` (and `__call__`, which only delegates to it): an image without data
     * gives a fresh empty image; otherwise the data must be 2-D or 3-D, and the result is
     * the constant 1.0 rather than an image.
     */
    method UnetEstimation(image: ImageData) returns (r: Result<EstimationResult, Error>)
      ensures image.data.None? ==>
        r.Success? && r.value.EmptyImage? && fresh(r.value.image)
        && r.value.image.data == None && r.value.image.header == map[] && r.value.image.mask == None
      ensures image.data.Some? && !(1 < |image.data.value.shape| < 4) ==>
        r == Failure(RankAssertion(|image.data.value.shape|))
      ensures image.data.Some? && 1 < |image.data.value.shape| < 4 ==> r == Success(Constant(1.0))
    {
      var data := image.data;
      if data.None? {
        var empty := new ImageData();
        return Success(EmptyImage(empty));
      }
      if !(|data.value.shape| < 4 && |data.value.shape| > 1) {
        return Failure(RankAssertion(|data.value.shape|));
      }
      return Success(Constant(1.0));
    }
  }

  /**
   * The UNet test: the default network maps a `(1, 2, 36, 36)` input to `nChOut = 2`
   * channels on the same `36 x 36` grid (built from the translated estimator defaults).
   */
  method ApplyDefaultUNet() returns (r: Result<FeatureShape, Error>)
    ensures r == Success(FeatureShape(1, 2, [36, 36]))
  {
    var h := ToUNetHyperParameters(DefaultEstimatorHyperParameters);
    DefaultsAgree();
    var u := NewUNet(h);
    var x := FeatureShape(1, 2, [36, 36]);
    assert Halvings(x.spatial, 1) == [18, 18];
    assert Halvings(x.spatial, 2) == [9, 9];
    assert Poolable(x.spatial, 3) by {
      forall i | 0 <= i < 3
        ensures AllAtLeast2(Halvings(x.spatial, i))
      {
      }
    }
    r := UNetForward(u.value, x, h);
  }
}
