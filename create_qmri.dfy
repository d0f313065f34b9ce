/**
 * `create_qmri`: free functions that read a NIfTI parameter volume `vol[x, y, z, c]` and
 * build a `QMRIData` from it.  Unlike the loader, they keep the `[x, y, z]` axis order and
 * leave the header empty.  The decoded volume is the input; the file read is not modelled.
 */
module CreateQmri {
  import opened Wrappers
  import opened Errors
  import opened Tensors
  import opened NiiVolumes
  import opened MRDataInterface
  import DataLoaderNii

  /** `get_qpar_from_nii_file`: the whole volume, provided it is 4-D. */
  function GetQparFromNiiFile(vol: FloatTensor): (r: Result<FloatTensor, Error>)
    ensures r.Success? <==> |vol.shape| == 4
    ensures r.Success? ==> r.value == vol
    ensures r.Failure? ==> r.error == RankNotImplemented(|vol.shape|)
  {
    if |vol.shape| != 4 then Failure(RankNotImplemented(|vol.shape|)) else Success(vol)
  }

  /** `get_qpar_from_nii_file(f)[:, :, :, c]`: NumPy raises `IndexError` past the last channel. */
  function ChannelOf(vol: FloatTensor, c: nat): (r: Result<FloatTensor, Error>)
    ensures r.Success? <==> |vol.shape| == 4 && c < vol.shape[3]
    ensures |vol.shape| != 4 ==> r == Failure(RankNotImplemented(|vol.shape|))
    ensures |vol.shape| == 4 && c >= vol.shape[3] ==> r == Failure(ChannelIndex(c, vol.shape[3]))
    ensures r.Success? ==> r.value.shape == vol.shape[..3]
    ensures r.Success? ==> forall x, y, z :: In4(vol, x, y, z, c) ==>
              In3(r.value, x, y, z) && At3(r.value, x, y, z) == At4(vol, x, y, z, c)
  {
    var q :- GetQparFromNiiFile(vol);
    if c >= q.shape[3] then Failure(ChannelIndex(c, q.shape[3]))
    else
      ChannelAtAll(q, c);
      Success(Channel(q, c))
  }

  /** `get_t1_from_nii_file`: channel 2, which needs a 4-D volume with at least 3 channels. */
  function GetT1FromNiiFile(vol: FloatTensor): (r: Result<FloatTensor, Error>)
    ensures r.Success? <==> |vol.shape| == 4 && vol.shape[3] >= 3
    ensures |vol.shape| != 4 ==> r == Failure(RankNotImplemented(|vol.shape|))
    ensures |vol.shape| == 4 && vol.shape[3] < 3 ==> r == Failure(ChannelIndex(2, vol.shape[3]))
    ensures r.Success? ==> r.value.shape == vol.shape[..3]
    ensures r.Success? ==> forall x, y, z :: In4(vol, x, y, z, 2) ==>
              In3(r.value, x, y, z) && At3(r.value, x, y, z) == At4(vol, x, y, z, 2)
  {
    ChannelOf(vol, 2)
  }

  /** `get_m0_from_nii_file`: channel 0, which any 4-D volume with a channel has. */
  function GetM0FromNiiFile(vol: FloatTensor): (r: Result<FloatTensor, Error>)
    ensures r.Success? <==> |vol.shape| == 4 && vol.shape[3] >= 1
    ensures |vol.shape| != 4 ==> r == Failure(RankNotImplemented(|vol.shape|))
    ensures |vol.shape| == 4 && vol.shape[3] == 0 ==> r == Failure(ChannelIndex(0, 0))
    ensures r.Success? ==> r.value.shape == vol.shape[..3]
    ensures r.Success? ==> forall x, y, z :: In4(vol, x, y, z, 0) ==>
              In3(r.value, x, y, z) && At3(r.value, x, y, z) == At4(vol, x, y, z, 0)
  {
    ChannelOf(vol, 0)
  }

  /** Voxel-wise reading of `Channel`, for all voxels at once. */
  lemma ChannelAtAll(vol: FloatTensor, c: nat)
    requires |vol.shape| == 4 && c < vol.shape[3]
    ensures forall x, y, z :: In4(vol, x, y, z, c) ==>
              In3(Channel(vol, c), x, y, z) && At3(Channel(vol, c), x, y, z) == At4(vol, x, y, z, c)
  {
    forall x, y, z | In4(vol, x, y, z, c)
      ensures In3(Channel(vol, c), x, y, z) && At3(Channel(vol, c), x, y, z) == At4(vol, x, y, z, c)
    {
      ChannelAt(vol, c, x, y, z);
    }
  }

  /**
   * `create_qmri_from_nii_file`: T1 is channel 2 and rho is the M0 map (channel 0)
   * unchanged; the header assignment is commented out in the source, so it stays empty.
   */
  method CreateQmriFromNiiFile(vol: FloatTensor) returns (r: Result<QMRIData, Error>)
    ensures r.Success? <==> |vol.shape| == 4 && vol.shape[3] >= 3
    ensures r.Failure? ==> r == GetT1FromNiiFile(vol).PropagateFailure()
    ensures r.Success? ==> fresh(r.value) && r.value.header == map[] && r.value.mask == None
    ensures r.Success? ==> r.value.t1 == Some(GetT1FromNiiFile(vol).value)
    ensures r.Success? ==> r.value.rho == Some(GetM0FromNiiFile(vol).value)
  {
    var q := new QMRIData();
    var t1 :- GetT1FromNiiFile(vol);
    q.SetT1(t1);
    // channel 0 exists once channel 2 does, so this second read cannot raise
    var m0 := GetM0FromNiiFile(vol).value;
    var rho := m0;
    q.SetRho(rho);
    return Success(q);
  }

  /**
   * The two readers of a loadable volume agree up to axis order: the loader's maps are
   * the ones built here with the spatial axes reversed.
   */
  lemma LoaderReversesAxes(vol: FloatTensor)
    requires DataLoaderNii.LoadError(vol) == None
    ensures GetT1FromNiiFile(vol).Success? && GetM0FromNiiFile(vol).Success?
    ensures DataLoaderNii.T1Map(vol) == MoveAxes(GetT1FromNiiFile(vol).value)
    ensures DataLoaderNii.RhoMap(vol) == MoveAxes(GetM0FromNiiFile(vol).value)
  {
  }
}
