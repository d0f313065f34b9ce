/**
 * `methods/biasfield_estimators.py`: the N4 estimator that writes the fitted field into the
 * caller's image and returns that same object, without padding the rank back.
 */
module BiasfieldEstimators {
  import opened Wrappers
  import opened Errors
  import opened Tensors
  import opened N4Shapes
  import opened MRDataInterface

  class N4Hyperparameters {
    var maxNumberIterations: int
    /** `_numberFittingLevels`, read and written through the `numFittingLevels` property */
    var numberFittingLevels: int

    constructor ()
      ensures maxNumberIterations == 50 && numberFittingLevels == 4
    {
      maxNumberIterations := 50;
      numberFittingLevels := 4;
    }

    method SetMaxNumberIterations(value: int)
      modifies this`maxNumberIterations
      ensures maxNumberIterations == value
    {
      maxNumberIterations := value;
    }

    /** The `numFittingLevels` setter. */
    method SetNumFittingLevels(value: int)
      modifies this`numberFittingLevels
      ensures numberFittingLevels == value
    {
      numberFittingLevels := value;
    }
  }

  class N4Estimator {
    var hparams: N4Hyperparameters

    /** `N4Estimator(hparams)`: keeps the caller's object, or makes a default one for `None`. */
    constructor (hparams: N4Hyperparameters?)
      ensures hparams != null ==> this.hparams == hparams
      ensures hparams == null ==> fresh(this.hparams)
      ensures hparams == null ==> this.hparams.maxNumberIterations == 50 && this.hparams.numberFittingLevels == 4
    {
      if hparams == null {
        this.hparams := new N4Hyperparameters();
      } else {
        this.hparams := hparams;
      }
    }

    /**
     * `sitk_n4_estimation`. No data: a new, empty `ImageData`, the input untouched. A squeezed
     * rank other than 2 or 3: `AssertionError`, the input untouched. Otherwise the fitted field,
     * still of the squeezed shape, replaces the input's data and the input object itself is
     * returned; its header and mask stay as they were.
     */
    method SitkN4Estimation(image: ImageData, fit: BiasFit) returns (r: Result<ImageData, Error>)
      modifies image`data
      ensures old(image.data).None? ==>
                r.Success? && fresh(r.value) && r.value.data == None
                && r.value.header == map[] && r.value.mask == None
                && image.data == None
      ensures old(image.data).Some? ==>
                var squeezedRank := |Squeeze(old(image.data).value.shape)|;
                (r.Failure? <==> !(2 <= squeezedRank <= 3))
                && (r.Failure? ==> r.error == RankAssertion(squeezedRank) && image.data == old(image.data))
      ensures old(image.data).Some? && r.Success? ==>
                var squeezed := SqueezeArray(old(image.data).value);
                var field := fit(squeezed, Schedule(hparams.maxNumberIterations, hparams.numberFittingLevels));
                && r.value == image
                && image.data == Some(field)
                && image.data.value.shape == Squeeze(old(image.data).value.shape)
    {
      var data := image.Numpy();
      if data.None? {
        var empty := new ImageData();
        return Success(empty);
      }
      var squeezed := SqueezeArray(data.value);
      if !(1 < Rank(squeezed) < 4) {
        return Failure(RankAssertion(Rank(squeezed)));
      }
      var schedule := Schedule(hparams.maxNumberIterations, hparams.numberFittingLevels);
      var biasfield := fit(squeezed, schedule);
      var biasfieldImg := image;
      biasfieldImg.SetData(biasfield);
      r := Success(biasfieldImg);
    }
  }

  /**
   * Because the field is not padded back, an image with a unit axis never gets a field of its
   * own shape from this estimator: the `(1, 1, n, n)` image of its test comes back `(n, n)`.
   */
  lemma InPlaceFieldLosesUnitAxes(shape: seq<nat>)
    requires 1 in shape
    ensures Squeeze(shape) != shape
  {
    SqueezeSpec(shape);
  }
}
