/** Cardinality of finite sets. */
module Sets {
  lemma {:induction false} SmallerSet<T>(some: set<T>, all: set<T>)
    requires some <= all
    ensures |some| <= |all|
  {
    if some != {} {
      var x :| x in some;
      SmallerSet(some - {x}, all - {x});
    }
  }
}
