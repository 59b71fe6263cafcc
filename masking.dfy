/** numpy's masked assignment `a[mask] = f(a[mask])`, one element at a time. */
module Masking {

  /** Replaces every element of `a` whose mask entry is set by `f` of it; leaves the others. */
  method MaskedMap<T>(a: array<T>, mask: seq<bool>, f: T -> T)
    requires |mask| == a.Length
    modifies a
    ensures forall i :: 0 <= i < a.Length ==> a[i] == (if mask[i] then f(old(a[i])) else old(a[i]))
  {
    var i := 0;
    while i < a.Length
      invariant 0 <= i <= a.Length
      invariant forall k :: 0 <= k < i ==> a[k] == (if mask[k] then f(old(a[k])) else old(a[k]))
      invariant forall k :: i <= k < a.Length ==> a[k] == old(a[k])
    {
      if mask[i] {
        a[i] := f(a[i]);
      }
      i := i + 1;
    }
  }

}
