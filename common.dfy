/** Small value types shared by every module of the model. */
module Common {

  /** A value that may be absent: Go's nil pointer or nil interface. */
  datatype Option<+T> = None | Some(value: T)

  /** A Go `(value, error)` pair where exactly one half is meaningful. */
  datatype Result<+R, +E> = Success(value: R) | Failure(error: E)

  /** The elements of `s` that satisfy `keep`, in their original order,
      built from the front the way an append loop builds it. */
  function Filter<T>(s: seq<T>, keep: T -> bool): (r: seq<T>)
    ensures |r| <= |s|
    ensures forall i :: 0 <= i < |r| ==> r[i] in s && keep(r[i])
    ensures forall i :: 0 <= i < |s| && keep(s[i]) ==> s[i] in r
  {
    if |s| == 0 then []
    else Filter(s[..|s| - 1], keep) + (if keep(s[|s| - 1]) then [s[|s| - 1]] else [])
  }

  /** Extending the input by one element extends the filtered sequence by
      that element exactly when it is kept. */
  lemma FilterSnoc<T>(s: seq<T>, x: T, keep: T -> bool)
    ensures Filter(s + [x], keep) == Filter(s, keep) + (if keep(x) then [x] else [])
  {
    assert (s + [x])[..|s + [x]| - 1] == s;
  }
}
