/** Small value wrappers and the first-match search that the registry lookups share. */
module Common {

  datatype Option<+T> = None | Some(value: T)

  datatype Result<+T, +E> = Success(value: T) | Failure(error: E)

  /** Index of the first element of `s` that satisfies `p`, the shape of every
      `for ... { if match { return } }` search in the registry. */
  function FirstIndex<T>(s: seq<T>, p: T -> bool): (r: Option<nat>)
    ensures r.None? <==> forall i | 0 <= i < |s| :: !p(s[i])
    ensures r.Some? ==> r.value < |s| && p(s[r.value])
    ensures r.Some? ==> forall j | 0 <= j < r.value :: !p(s[j])
  {
    if s == [] then None
    else if p(s[0]) then Some(0)
    else match FirstIndex(s[1..], p)
      case None => None
      case Some(k) => Some(k + 1)
  }

  /** The first match is the one FirstIndex finds. */
  lemma FirstIndexIs<T>(s: seq<T>, p: T -> bool, i: nat)
    requires i < |s| && p(s[i])
    requires forall j | 0 <= j < i :: !p(s[j])
    ensures FirstIndex(s, p) == Some(i)
  {
    var r := FirstIndex(s, p);
    assert r.Some?;
    assert !(r.value < i);
    assert !(i < r.value);
  }

  lemma Assoc<T>(a: seq<T>, b: seq<T>, c: seq<T>)
    ensures a + b + c == a + (b + c)
  {
  }
}
