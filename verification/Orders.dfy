/** Vocabulary shared by every module: optional values and the orders the heaps sort by. */
module Orders {

  datatype Option<+T> = None | Some(value: T)

  /** x goes before y. Comparators and key functions are applied only through these two. */
  predicate Before<T>(less: (T, T) -> bool, x: T, y: T)
  {
    less(x, y)
  }

  function KeyOf<T>(keyFunc: T -> Option<string>, x: T): Option<string>
  {
    keyFunc(x)
  }

  ghost predicate NotLessChains<T>(less: (T, T) -> bool, x: T, y: T, z: T)
  {
    !Before(less, x, y) && !Before(less, y, z) ==> !Before(less, x, z)
  }

  /**
   A strict weak order, given as asymmetry together with negative transitivity. These are
   the two laws a binary heap needs of its comparator: equal-ranked objects are allowed.
   */
  ghost predicate StrictWeakOrder<T(!new)>(less: (T, T) -> bool)
  {
    && (forall x, y :: Before(less, x, y) ==> !Before(less, y, x))
    && (forall x, y, z :: NotLessChains(less, x, y, z))
  }
}
