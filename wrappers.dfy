/** JavaScript's `undefined` / `null` for a value that may be absent. */
module Wrappers {

  datatype Option<+T> = None | Some(value: T)

  /** `list?.forEach(push)` on a list that may be undefined: an absent list contributes nothing. */
  function OrEmpty<T>(o: Option<seq<T>>): seq<T> {
    match o
    case None => []
    case Some(s) => s
  }

  /**
   * Two results collected one after the other, where None stands for an exception:
   * the two lists concatenated, or the exception of either.
   */
  function Join<T>(x: Option<seq<T>>, y: Option<seq<T>>): (r: Option<seq<T>>)
    ensures r.Some? <==> x.Some? && y.Some?
    ensures r.Some? ==> r.value == x.value + y.value
  {
    match x
    case None => None
    case Some(xs) =>
      match y
      case None => None
      case Some(ys) => Some(xs + ys)
  }

  /** Collecting in turn gives the same result whichever two parts are joined first. */
  lemma JoinAssociative<T>(x: Option<seq<T>>, y: Option<seq<T>>, z: Option<seq<T>>)
    ensures Join(x, Join(y, z)) == Join(Join(x, y), z)
  {
    if x.Some? && y.Some? && z.Some? {
      assert x.value + (y.value + z.value) == (x.value + y.value) + z.value;
    }
  }

  lemma JoinEmpty<T>(y: Option<seq<T>>)
    ensures Join(Some([]), y) == y
    ensures Join(y, Some([])) == y
  {
    if y.Some? {
      assert [] + y.value == y.value;
      assert y.value + [] == y.value;
    }
  }
}
