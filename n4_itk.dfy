/**
 * `methods/n4_itk.py`: the N4 estimator whose hyperparameters are a mutable dataclass.
 * The record is modelled as a value, so the estimator holds its own copy of it.
 */
module N4Itk {
  import opened Wrappers
  import opened Errors
  import opened Tensors
  import opened N4Shapes
  import opened MRDataInterface

  /** The `N4Hyperparameters` dataclass, as a value: no caller can change it after construction. */
  datatype N4Hyperparameters = N4Hyperparameters(maxNumberIterations: int, numberFittingLevels: int)

  /** `N4Hyperparameters()`: 50 iterations at each of 4 fitting levels. */
  const DefaultHyperparameters := N4Hyperparameters(50, 4)

  /** The iteration schedule handed to N4: one entry per fitting level. */
  function ScheduleOf(h: N4Hyperparameters): (r: seq<int>)
    ensures |r| == if h.numberFittingLevels > 0 then h.numberFittingLevels else 0
    ensures forall i :: 0 <= i < |r| ==> r[i] == h.maxNumberIterations
  {
    Schedule(h.maxNumberIterations, h.numberFittingLevels)
  }

  /**
   * `format_input_data`: the image's array with every unit axis squeezed out; it has to be
   * 2-D or 3-D after squeezing. No data is a `RuntimeError`, any other rank an `AssertionError`.
   */
  function FormatInputData(data: Option<FloatTensor>): (r: Result<FloatTensor, Error>)
    ensures data.None? ==> r == Failure(DataIsNone)
    ensures data.Some? ==> (r.Success? <==> 2 <= |Squeeze(data.value.shape)| <= 3)
    ensures data.Some? && r.Failure? ==> r.error == RankAssertion(|Squeeze(data.value.shape)|)
    ensures r.Success? ==> r.value.values == data.value.values && r.value.shape == Squeeze(data.value.shape)
  {
    match data
    case None => Failure(DataIsNone)
    case Some(a) =>
      var squeezed := SqueezeArray(a);
      if 1 < Rank(squeezed) < 4 then Success(squeezed) else Failure(RankAssertion(Rank(squeezed)))
  }

  class N4Estimator {
    var hparams: N4Hyperparameters

    /** `N4Estimator(hparams)`: a missing record is replaced by the defaults. */
    constructor (hparams: Option<N4Hyperparameters>)
      ensures this.hparams == hparams.GetOr(DefaultHyperparameters)
    {
      this.hparams := hparams.GetOr(DefaultHyperparameters);
    }

    /**
     * `sitk_n4_estimation` (also what calling the estimator does): fits the bias field to the
     * squeezed image with this estimator's schedule, pads it with leading unit axes to rank 4
     * and returns it in a new `ImageData`. The input image is not modified (no `modifies`).
     */
    method SitkN4Estimation(image: ImageData, fit: BiasFit) returns (r: Result<ImageData, Error>)
      ensures r.Failure? <==> FormatInputData(image.Numpy()).Failure?
      ensures r.Failure? ==> r.error == FormatInputData(image.Numpy()).error
      ensures r.Success? ==>
                var squeezed := FormatInputData(image.Numpy()).value;
                var field := fit(squeezed, ScheduleOf(hparams));
                && fresh(r.value)
                && r.value.header == map[] && r.value.mask == None
                && r.value.data == Some(Tensor(PadShape(Squeeze(image.data.value.shape)), field.values))
    {
      var formatted := FormatInputData(image.Numpy());
      if formatted.Failure? {
        return Failure(formatted.error);
      }
      var sitkImg := formatted.value;
      var field := fit(sitkImg, ScheduleOf(hparams));
      var biasfield := PadToRank4(field);
      var biasfieldImg := new ImageData();
      biasfieldImg.SetData(biasfield);
      r := Success(biasfieldImg);
    }
  }

  /**
   * What the estimator's contract gives for the shapes: a rank-4 image that squeezes to 2 or 3
   * axes gets a field of its own shape back exactly when its unit axes are all leading, as in
   * the `(1, 1, 64, 64)` image of the N4 test; the non-unit extents always keep their order.
   */
  lemma N4FieldShape(shape: seq<nat>)
    requires |shape| == 4 && 2 <= |Squeeze(shape)| <= 3
    ensures |PadShape(Squeeze(shape))| == 4
    ensures Squeeze(PadShape(Squeeze(shape))) == Squeeze(shape)
    ensures PadShape(Squeeze(shape)) == shape <==> LeadingUnitsOnly(shape)
  {
    SqueezePadRoundTrip(shape);
    SqueezeDropsLeadingOnes(4 - |Squeeze(shape)|, Squeeze(shape));
    SqueezeIdempotent(shape);
  }
}
