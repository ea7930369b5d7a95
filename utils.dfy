/** The container factories of `utils.go`. */
module Utils {
  import opened Wrappers
  import opened Pas

  /**
   * `MakeSlice(length, capacity...)`: a slice of `length` fresh, pairwise
   * distinct promises, each ready and holding the zero value, exactly as if
   * every slot had been filled by `New()`.
   */
  method MakeSlice<T>(length: int, capacity: seq<int>, zero: T)
    returns (r: Result<Slice<Promise?<T>>, PasError>)
    ensures r.Failure? <==> length < 0 || length > CapacityArg(length, capacity)
    ensures r.Failure? ==> r.error == if length < 0 then SliceLenOutOfRange else SliceCapOutOfRange
    ensures r.Success? ==> var s := r.value;
      && fresh(s.data) && s.Valid()
      && s.len == length && s.Cap() == CapacityArg(length, capacity)
      && (forall k :: 0 <= k < s.len ==>
            s.data[k] != null && fresh(s.data[k]) && s.data[k].Valid()
            && s.data[k].ready && s.data[k].value == zero)
      && (forall k :: s.len <= k < s.data.Length ==> s.data[k] == null)
      && (forall j, k :: 0 <= j < k < s.len ==> s.data[j] != s.data[k])
  {
    var capVal := CapacityArg(length, capacity);
    if length < 0 {
      return Failure(SliceLenOutOfRange);
    }
    if length > capVal {
      return Failure(SliceCapOutOfRange);
    }
    var slice := new Promise?<T>[capVal](_ => null);
    var i := 0;
    while i < length
      invariant 0 <= i <= length
      invariant forall k :: 0 <= k < i ==>
        slice[k] != null && fresh(slice[k]) && slice[k].Valid() && slice[k].ready && slice[k].value == zero
      invariant forall k :: i <= k < slice.Length ==> slice[k] == null
      invariant forall j, k :: 0 <= j < k < i ==> slice[j] != slice[k]
    {
      var p := New([], zero);
      slice[i] := p.value;
      i := i + 1;
    }
    return Success(Slice(slice, length));
  }

  /**
   * `MakeMap(size...)`: an empty map of promises; the optional size only
   * hints at how much to allocate.
   */
  function MakeMap<K, V>(size: seq<int>): (m: map<K, Promise<V>>)
    ensures forall k :: k !in m
  {
    map[]
  }
}
