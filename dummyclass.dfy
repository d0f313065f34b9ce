/** `dummyclass.DummyClass`: an image held alongside an integer id that counts up. */
module Dummyclass {
  import opened Tensors

  class DummyClass {
    var data: FloatTensor
    var id: int

    constructor (data: FloatTensor)
      ensures this.data == data && id == 0
    {
      this.data := data;
      id := 0;
    }

    /** `increase_id`: one more, and the data is left alone. */
    method IncreaseId()
      modifies this`id
      ensures id == old(id) + 1
    {
      id := id + 1;
    }
  }

  /** Constructing and then calling `increase_id` n times leaves the id at n. */
  method CountTo(data: FloatTensor, n: nat) returns (d: DummyClass)
    ensures fresh(d) && d.data == data && d.id == n
  {
    d := new DummyClass(data);
    var k := 0;
    while k < n
      invariant 0 <= k <= n
      invariant d.data == data && d.id == k
    {
      d.IncreaseId();
      k := k + 1;
    }
  }
}
