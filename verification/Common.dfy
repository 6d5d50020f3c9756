/** Values shared by every component of the model. */
module Common {

  /** A value that JavaScript may leave `undefined`. */
  datatype Option<+T> = None | Some(value: T)

  lemma SubsetSize<T>(a: set<T>, b: set<T>)
    requires a <= b
    ensures |a| <= |b|
  {
    if a != {} {
      var x :| x in a;
      SubsetSize(a - {x}, b - {x});
    }
  }

  /** A measure that drops: one name more is done. */
  lemma FewerLeft<T>(all: set<T>, done: set<T>, x: T, done': set<T>)
    requires x in all && x !in done && done' == done + {x}
    ensures |all - done'| < |all - done|
  {
    assert all - done' == all - done - {x};
  }
}
