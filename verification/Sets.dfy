module Sets {
  /** Some element of a non-empty set, always the same one for the same set. */
  ghost function AnyOf<T>(s: set<T>): (x: T)
    requires s != {}
    ensures x in s
  {
    var x :| x in s;
    x
  }

  lemma {:induction false} ThereIsAFirst(ids: set<int>)
    requires ids != {}
    ensures exists id :: id in ids && forall other :: other in ids ==> id <= other
    decreases |ids|
  {
    var some := AnyOf(ids);
    var rest := ids - {some};
    var least := some;
    if rest != {} {
      ThereIsAFirst(rest);
      var first :| first in rest && forall other :: other in rest ==> first <= other;
      least := if some <= first then some else first;
    }
    forall other | other in ids ensures least <= other {
      assert other == some || other in rest;
    }
  }
}
