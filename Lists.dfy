/** Python list operations used by the loader's whitelists. */
module Lists {

  /** Python's `x in xs` on a list: a scan from the front comparing each
      element with `==`. */
  function Contains<T(==)>(xs: seq<T>, x: T): (b: bool)
    ensures b <==> x in xs
  {
    if xs == [] then false else xs[0] == x || Contains(xs[1..], x)
  }

  /** No element of the list occurs twice. */
  ghost predicate Distinct<T>(xs: seq<T>) {
    forall i, j :: 0 <= i < j < |xs| ==> xs[i] != xs[j]
  }
}
