/**
 * `QMRIDataLoaderNii`: turns decoded NIfTI parameter volumes `vol[x, y, z, c]` into
 * `QMRIData` objects (T1 from channel 2, rho from channel 0, both re-ordered to `[z, y, x]`)
 * and keeps them in a list.  Reading a file and listing a folder are not modelled: the
 * decoded volume, its header, the folder test and the file list are inputs.
 */
module DataLoaderNii {
  import opened Wrappers
  import opened Errors
  import opened Tensors
  import opened NiiVolumes
  import opened MRDataInterface

  /** What `nib.load` yields for one file: the float32 volume and the header as a dict. */
  datatype NiiFile = NiiFile(volume: FloatTensor, header: Header)

  /** Why loading a volume raises, if it does: the rank test comes first, then `vol[..., 2]`. */
  function LoadError(vol: FloatTensor): (r: Option<Error>)
    ensures r.None? <==> |vol.shape| == 4 && 2 < vol.shape[3]
    ensures |vol.shape| != 4 ==> r == Some(RankNotImplemented(|vol.shape|))
    ensures |vol.shape| == 4 && vol.shape[3] <= 2 ==> r == Some(ChannelIndex(2, vol.shape[3]))
  {
    if |vol.shape| != 4 then Some(RankNotImplemented(|vol.shape|))
    else if vol.shape[3] < 3 then Some(ChannelIndex(2, vol.shape[3]))
    else None
  }

  predicate Loadable(f: NiiFile)
  {
    LoadError(f.volume) == None
  }

  /** The T1 map the loader stores: channel 2 with the spatial axes reversed. */
  function T1Map(vol: FloatTensor): (r: FloatTensor)
    requires LoadError(vol) == None
    ensures r.shape == [vol.shape[2], vol.shape[1], vol.shape[0]]
  {
    MoveAxes(Channel(vol, 2))
  }

  /** The rho map the loader stores: channel 0 (the M0 map) with the spatial axes reversed. */
  function RhoMap(vol: FloatTensor): (r: FloatTensor)
    requires LoadError(vol) == None
    ensures r.shape == [vol.shape[2], vol.shape[1], vol.shape[0]]
  {
    MoveAxes(Channel(vol, 0))
  }

  /** `t1[z, y, x] == vol[x, y, z, 2]` and `rho[z, y, x] == vol[x, y, z, 0]` for every voxel. */
  lemma MapsAt(vol: FloatTensor, x: nat, y: nat, z: nat)
    requires LoadError(vol) == None
    requires x < vol.shape[0] && y < vol.shape[1] && z < vol.shape[2]
    ensures In3(T1Map(vol), z, y, x) && At3(T1Map(vol), z, y, x) == At4(vol, x, y, z, 2)
    ensures In3(RhoMap(vol), z, y, x) && At3(RhoMap(vol), z, y, x) == At4(vol, x, y, z, 0)
  {
    ChannelAt(vol, 2, x, y, z);
    MoveAxesAt(Channel(vol, 2), x, y, z);
    ChannelAt(vol, 0, x, y, z);
    MoveAxesAt(Channel(vol, 0), x, y, z);
  }

  /** `q` is what loading `f` produces. */
  ghost predicate LoadedFrom(q: QMRIData, f: NiiFile)
    reads q
  {
    Loadable(f) && q.header == f.header && q.mask == None
    && q.t1 == Some(T1Map(f.volume)) && q.rho == Some(RhoMap(f.volume))
  }

  /** How many files from the front of `files` load before the first one that raises. */
  function LoadablePrefix(files: seq<NiiFile>): (n: nat)
    ensures n <= |files|
    ensures forall i :: 0 <= i < n ==> Loadable(files[i])
    ensures n < |files| ==> !Loadable(files[n])
  {
    if files == [] || !Loadable(files[0]) then 0 else 1 + LoadablePrefix(files[1..])
  }

  /**
   * Python list subscript: a negative index counts from the end, so every index from
   * `-length` up to `length - 1` names a position of the list.
   */
  function PyIndex(index: int, length: nat): (r: int)
    ensures -(length as int) <= index < length ==> 0 <= r < length
    ensures 0 <= index ==> r == index
    ensures index < 0 ==> r + (-index) == length
  {
    if index < 0 then length + index else index
  }

  class QMRIDataLoaderNii {
    var qmriDataList: seq<QMRIData>

    constructor ()
      ensures qmriDataList == []
    {
      qmriDataList := [];
    }

    /**
     * `add_qmridata_from_folder`: fails before touching the list when the folder is not a
     * directory; otherwise appends one object per file in the given order.  A file that
     * raises stops the loop, and what was appended before it stays in the list.
     */
    method AddQmridataFromFolder(isDir: bool, files: seq<NiiFile>) returns (err: Option<Error>)
      modifies this`qmriDataList
      ensures !isDir ==> err == Some(DirectoryNotFound) && qmriDataList == old(qmriDataList)
      ensures isDir ==> var n := LoadablePrefix(files);
        && |qmriDataList| == |old(qmriDataList)| + n
        && qmriDataList[..|old(qmriDataList)|] == old(qmriDataList)
        && (forall i :: |old(qmriDataList)| <= i < |qmriDataList| ==>
              fresh(qmriDataList[i]) && LoadedFrom(qmriDataList[i], files[i - |old(qmriDataList)|]))
        && (err == None <==> n == |files|)
        && (n < |files| ==> err == LoadError(files[n].volume))
    {
      if !isDir {
        return Some(DirectoryNotFound);
      }
      ghost var start := qmriDataList;
      var i := 0;
      while i < |files|
        invariant 0 <= i <= |files|
        invariant i <= LoadablePrefix(files)
        invariant |qmriDataList| == |start| + i
        invariant qmriDataList[..|start|] == start
        invariant forall k :: |start| <= k < |qmriDataList| ==>
            fresh(qmriDataList[k]) && LoadedFrom(qmriDataList[k], files[k - |start|])
      {
        var r := LoadDataFromSingleFile(files[i]);
        if r.Failure? {
          return Some(r.error);
        }
        qmriDataList := qmriDataList + [r.value];
        i := i + 1;
      }
      return None;
    }

    /** `load_data_from_single_file`, on the decoded contents of the file. */
    method LoadDataFromSingleFile(file: NiiFile) returns (r: Result<QMRIData, Error>)
      ensures r.Success? <==> |file.volume.shape| == 4 && file.volume.shape[3] >= 3
      ensures |file.volume.shape| != 4 ==> r == Failure(RankNotImplemented(|file.volume.shape|))
      ensures |file.volume.shape| == 4 && file.volume.shape[3] < 3 ==>
        r == Failure(ChannelIndex(2, file.volume.shape[3]))
      ensures r.Success? ==> fresh(r.value) && LoadedFrom(r.value, file)
    {
      var q := new QMRIData();
      var vol := file.volume;
      if |vol.shape| != 4 {
        return Failure(RankNotImplemented(|vol.shape|));
      }
      if vol.shape[3] <= 2 {
        return Failure(ChannelIndex(2, vol.shape[3]));
      }
      q.SetT1(Channel(vol, 2));
      q.SetT1(MoveAxes(q.t1.value));
      var rho := Channel(vol, 0);
      q.SetRho(rho);
      q.SetRho(MoveAxes(q.rho.value));
      q.SetHeader(file.header);
      return Success(q);
    }

    /** `get_data`: the assertion rejects `index >= len`; a negative index counts from the end. */
    function GetData(index: int): (r: Result<QMRIData, Error>)
      reads this
      ensures r.Success? <==> -|qmriDataList| <= index < |qmriDataList|
      ensures index >= |qmriDataList| ==> r == Failure(IndexAssertion(index, |qmriDataList|))
      ensures index < -|qmriDataList| ==> r == Failure(ListIndex(index, |qmriDataList|))
      ensures 0 <= index < |qmriDataList| ==> r == Success(qmriDataList[index])
      ensures -|qmriDataList| <= index < 0 ==> r == Success(qmriDataList[|qmriDataList| + index])
    {
      if index >= |qmriDataList| then Failure(IndexAssertion(index, |qmriDataList|))
      else if index < -|qmriDataList| then Failure(ListIndex(index, |qmriDataList|))
      else Success(qmriDataList[PyIndex(index, |qmriDataList|)])
    }

    /** `get_all_data`: the stored objects, in order, as `get_data` returns them one by one. */
    function GetAllData(): (r: seq<QMRIData>)
      reads this
      ensures |r| == |qmriDataList|
      ensures forall i :: 0 <= i < |r| ==> GetData(i) == Success(r[i])
    {
      qmriDataList
    }
  }

  /**
   * A fresh loader handed a directory of loadable files holds one object per file, in
   * order, and `get_data(i)` is the object loaded from file `i`.
   */
  method LoadFolder(files: seq<NiiFile>) returns (loader: QMRIDataLoaderNii)
    requires forall i :: 0 <= i < |files| ==> Loadable(files[i])
    ensures fresh(loader) && |loader.qmriDataList| == |files|
    ensures forall i :: 0 <= i < |files| ==>
      loader.GetData(i).Success? && LoadedFrom(loader.GetData(i).value, files[i])
  {
    loader := new QMRIDataLoaderNii();
    var err := loader.AddQmridataFromFolder(true, files);
    assert LoadablePrefix(files) == |files| by { AllLoadablePrefix(files); }
    forall i | 0 <= i < |files|
      ensures loader.GetData(i) == Success(loader.qmriDataList[i])
      ensures LoadedFrom(loader.qmriDataList[i], files[i])
    {
    }
  }

  /** When every file loads, all of them do. */
  lemma {:induction false} AllLoadablePrefix(files: seq<NiiFile>)
    requires forall i :: 0 <= i < |files| ==> Loadable(files[i])
    ensures LoadablePrefix(files) == |files|
  {
    if files != [] {
      AllLoadablePrefix(files[1..]);
    }
  }
}
