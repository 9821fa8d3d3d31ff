/**
  Views of bytes (lib/data_view.cc). A view is the bytes it covers and whether it owns them.
 */
module DataViews {

  newtype byte = x: int | 0 <= x < 256

  datatype Result<+T> = Ok(value: T) | OutOfRange

  datatype DataView = DataView(bytes: seq<byte>, saved: bool) {
    // The view of the bytes from `index` on, which borrows them.
    function Slice(index: int): Result<DataView> {
      if index < 0 || index > |bytes| then OutOfRange
      else if index == |bytes| then Ok(DataView([], false))
      else Ok(DataView(bytes[index..], false))
    }

    // A view that owns its bytes: itself if it already does, otherwise a copy.
    function Save(): (r: DataView)
      ensures r.saved && r.bytes == bytes
    {
      if saved then this else DataView(bytes, true)
    }
  }

  // The bytes of a list of views, in order.
  function Bytes(views: seq<DataView>): seq<byte> {
    if views == [] then [] else views[0].bytes + Bytes(views[1..])
  }

  predicate Filled(views: seq<DataView>) {
    forall v :: v in views ==> v.bytes != []
  }

  // Slicing fails exactly outside the view; what is cut off and what remains make up the view again, also after
  // saving.
  lemma SliceSplits(view: DataView, index: int)
    ensures view.Slice(index).Ok? <==> 0 <= index <= |view.bytes|
    ensures 0 <= index <= |view.bytes| ==>
      view.bytes == view.bytes[..index] + view.Slice(index).value.Save().bytes
  {
  }

  // Slicing twice is slicing once by the sum: repeated partial writes advance through the view.
  lemma SliceSlice(view: DataView, i: nat, j: nat)
    requires i + j <= |view.bytes|
    ensures view.Slice(i).value.Slice(j) == view.Slice(i + j)
  {
    if i < |view.bytes| { assert view.bytes[i..][j..] == view.bytes[i + j..]; }
  }

  lemma {:induction false} BytesAppend(xs: seq<DataView>, ys: seq<DataView>)
    ensures Bytes(xs + ys) == Bytes(xs) + Bytes(ys)
  {
    if xs == [] {
      assert xs + ys == ys;
    } else {
      assert (xs + ys)[1..] == xs[1..] + ys;
      BytesAppend(xs[1..], ys);
    }
  }
}
