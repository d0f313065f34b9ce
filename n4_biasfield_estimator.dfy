/**
 * `methods/n4_biasfield_estimator.py`: the N4 estimator whose hyperparameters are an object
 * with property setters, and whose input formatting turns a missing array into a 0-d placeholder.
 */
module N4BiasfieldEstimator {
  import opened Wrappers
  import opened Errors
  import opened Tensors
  import opened N4Shapes
  import opened MRDataInterface

  class N4Hyperparameters {
    var maxNumberIterations: int
    /** `_numberFittingLevels`, read and written through the `numFittingLevels` property */
    var numberFittingLevels: int

    constructor ()
      ensures maxNumberIterations == 50 && numberFittingLevels == 4
    {
      maxNumberIterations := 50;
      numberFittingLevels := 4;
    }

    method SetMaxNumberIterations(value: int)
      modifies this`maxNumberIterations
      ensures maxNumberIterations == value
    {
      maxNumberIterations := value;
    }

    /** The `numFittingLevels` setter. */
    method SetNumFittingLevels(value: int)
      modifies this`numberFittingLevels
      ensures numberFittingLevels == value
    {
      numberFittingLevels := value;
    }
  }

  /** What `format_input_data` hands to SimpleITK. */
  datatype SitkInput =
    | FromArray(pixels: FloatTensor)
      /** `np.ndarray([])`: a 0-d array of one uninitialised element, built when there is no data */
    | ZeroDimPlaceholder

  /**
   * `format_input_data`: the squeezed array, which must be 2-D or 3-D (`AssertionError`
   * otherwise); no data gives the 0-d placeholder instead of an error.
   */
  function FormatInputData(data: Option<FloatTensor>): (r: Result<SitkInput, Error>)
    ensures data.None? ==> r == Success(ZeroDimPlaceholder)
    ensures data.Some? ==> (r.Success? <==> 2 <= |Squeeze(data.value.shape)| <= 3)
    ensures data.Some? && r.Failure? ==> r.error == RankAssertion(|Squeeze(data.value.shape)|)
    ensures data.Some? && r.Success? ==>
              r.value.FromArray? && r.value.pixels.values == data.value.values
              && r.value.pixels.shape == Squeeze(data.value.shape)
  {
    match data
    case None => Success(ZeroDimPlaceholder)
    case Some(a) =>
      var squeezed := SqueezeArray(a);
      if 1 < Rank(squeezed) < 4 then Success(FromArray(squeezed)) else Failure(RankAssertion(Rank(squeezed)))
  }

  class N4Estimator {
    var hparams: N4Hyperparameters

    /** `N4Estimator(hparams)`: keeps the caller's object, or makes a default one for `None`. */
    constructor (hparams: N4Hyperparameters?)
      ensures hparams != null ==> this.hparams == hparams
      ensures hparams == null ==> fresh(this.hparams)
      ensures hparams == null ==> this.hparams.maxNumberIterations == 50 && this.hparams.numberFittingLevels == 4
    {
      if hparams == null {
        this.hparams := new N4Hyperparameters();
      } else {
        this.hparams := hparams;
      }
    }

    /**
     * `sitk_n4_estimation`: fits the field to the squeezed image with `numFittingLevels` copies
     * of `maxNumberIterations`, pads it to rank 4 and returns it in a new `ImageData`; the input
     * image and the hyperparameters are not modified.
     */
    method SitkN4Estimation(image: ImageData, fit: BiasFit) returns (r: Result<ImageData, Error>)
      ensures image.data.None? ==> r == Failure(PlaceholderNotModelled)
      ensures image.data.Some? ==> (r.Failure? <==> FormatInputData(image.Numpy()).Failure?)
      ensures image.data.Some? && r.Failure? ==> r.error == FormatInputData(image.Numpy()).error
      ensures r.Success? ==>
                var squeezed := SqueezeArray(image.data.value);
                var field := fit(squeezed, Schedule(hparams.maxNumberIterations, hparams.numberFittingLevels));
                && fresh(r.value)
                && r.value.header == map[] && r.value.mask == None
                && r.value.data == Some(Tensor(PadShape(Squeeze(image.data.value.shape)), field.values))
    {
      var formatted := FormatInputData(image.Numpy());
      if formatted.Failure? {
        return Failure(formatted.error);
      }
      match formatted.value
      case ZeroDimPlaceholder =>
        r := Failure(PlaceholderNotModelled);
      case FromArray(sitkImg) =>
        var schedule := Schedule(hparams.maxNumberIterations, hparams.numberFittingLevels);
        var field := fit(sitkImg, schedule);
        var biasfield := PadToRank4(field);
        var biasfieldImg := new ImageData();
        biasfieldImg.SetData(biasfield);
        r := Success(biasfieldImg);
    }
  }
}
