/**
 * The MR data containers of `interfaces/mr_data_interface.py`. `ImageData` and `QMRIData`
 * extend `MRData` in the source; here each is its own class carrying the inherited `header`
 * and `mask` fields. Every setter stores its argument unchecked and changes only its own field.
 */
module MRDataInterface {
  import opened Wrappers
  import opened Tensors

  /** The header dictionary; its keys and values are passed through without being inspected. */
  type Header = map<string, string>

  /** `MRData`: a header dictionary and an optional mask, each with a setter. */
  class MRData {
    var header: Header
    var mask: Option<IntTensor>

    constructor ()
      ensures header == map[] && mask == None
    {
      header := map[];
      mask := None;
    }

    method SetHeader(value: Header)
      modifies this`header
      ensures header == value
    {
      header := value;
    }

    method SetMask(value: IntTensor)
      modifies this`mask
      ensures mask == Some(value)
    {
      mask := Some(value);
    }
  }

  /** `ImageData(MRData)`: `MRData`'s `header` and `mask` with their setters, plus `data`. */
  class ImageData {
    // `header`, `mask`, the constructor's first two assignments and the two setters
    // below are `MRData`'s, unchanged.
    var header: Header
    var mask: Option<IntTensor>
    var data: Option<FloatTensor>

    constructor ()
      ensures header == map[] && mask == None && data == None
      ensures Shape() == None && Numpy() == None
    {
      header := map[];
      mask := None;
      data := None;
    }

    method SetHeader(value: Header)
      modifies this`header
      ensures header == value
    {
      header := value;
    }

    method SetMask(value: IntTensor)
      modifies this`mask
      ensures mask == Some(value)
    {
      mask := Some(value);
    }

    method SetData(value: FloatTensor)
      modifies this`data
      ensures data == Some(value)
      ensures Shape() == Some(value.shape) && Numpy() == Some(value)
    {
      data := Some(value);
    }

    /** The `numpy` view: absent while no data is set, otherwise the same elements in the same shape. */
    function Numpy(): (r: Option<FloatTensor>)
      reads this
      ensures r.None? <==> data.None?
      ensures r.Some? ==> r.value.shape == data.value.shape && r.value.values == data.value.values
    {
      data
    }

    /** The `shape` view: absent while no data is set, otherwise the shape of the stored tensor. */
    function Shape(): (r: Option<seq<nat>>)
      reads this
      ensures r.None? <==> data.None?
      ensures r.Some? ==> r.value == data.value.shape && |r.value| == Rank(data.value)
    {
      match data
      case None => None
      case Some(t) => Some(t.shape)
    }
  }

  /** `QMRIData(MRData)`: `MRData`'s `header` and `mask` with their setters, plus `t1` and `rho`. */
  class QMRIData {
    // `header`, `mask`, the constructor's first two assignments and the two setters
    // below are `MRData`'s, unchanged.
    var header: Header
    var mask: Option<IntTensor>
    var t1: Option<FloatTensor>
    var rho: Option<FloatTensor>

    constructor ()
      ensures header == map[] && mask == None && t1 == None && rho == None
    {
      header := map[];
      mask := None;
      t1 := None;
      rho := None;
    }

    method SetHeader(value: Header)
      modifies this`header
      ensures header == value
    {
      header := value;
    }

    method SetMask(value: IntTensor)
      modifies this`mask
      ensures mask == Some(value)
    {
      mask := Some(value);
    }

    /** Stores any tensor: no shape is checked against `rho` or anything else. */
    method SetT1(value: FloatTensor)
      modifies this`t1
      ensures t1 == Some(value)
    {
      t1 := Some(value);
    }

    method SetRho(value: FloatTensor)
      modifies this`rho
      ensures rho == Some(value)
    {
      rho := Some(value);
    }
  }

  /**
   * A client of the setters: each write shows up on its own field, and none of them
   * disturbs what the others stored.
   */
  method SettersAreIndependent(h: Header, m: IntTensor, t1: FloatTensor, rho: FloatTensor, d: FloatTensor)
    returns (q: QMRIData, img: ImageData)
    ensures fresh(q) && fresh(img)
    ensures q.header == h && q.mask == Some(m) && q.t1 == Some(t1) && q.rho == Some(rho)
    ensures img.header == h && img.mask == Some(m) && img.data == Some(d) && img.Shape() == Some(d.shape)
  {
    q := new QMRIData();
    q.SetHeader(h);
    q.SetMask(m);
    q.SetT1(t1);
    q.SetRho(rho);
    img := new ImageData();
    img.SetHeader(h);
    img.SetMask(m);
    img.SetData(d);
  }
}
