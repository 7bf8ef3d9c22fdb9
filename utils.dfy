/** utils/list.go: generic membership and element-wise mapping over slices. */
module Utils {

  /** Has(o, list): a scan that returns at the first element equal to o. */
  method Has<T(==)>(o: T, list: seq<T>) returns (found: bool)
    ensures found <==> exists i :: 0 <= i < |list| && list[i] == o
    ensures list == [] ==> !found
  {
    var i := 0;
    while i < |list|
      invariant 0 <= i <= |list|
      invariant forall k :: 0 <= k < i ==> list[k] != o
    {
      if list[i] == o {
        return true;
      }
      i := i + 1;
    }
    return false;
  }

  /** Map(list, f): f applied to every element, in order; an empty input gives an empty
      (non-nil) slice. */
  method Map<T, R>(list: seq<T>, f: T -> R) returns (r: seq<R>)
    ensures |r| == |list|
    ensures forall i :: 0 <= i < |list| ==> r[i] == f(list[i])
  {
    r := [];
    var i := 0;
    while i < |list|
      invariant 0 <= i <= |list| && |r| == i
      invariant forall k :: 0 <= k < i ==> r[k] == f(list[k])
    {
      r := r + [f(list[i])];
      i := i + 1;
    }
  }
}
