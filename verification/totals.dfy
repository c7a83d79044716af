/** Sums over finite sets of identifiers. */
module Totals {
  import opened Model

  ghost function Total(weight: Id -> nat, ids: set<Id>): nat {
    if ids == {} then 0 else
      var id :| id in ids;
      weight(id) + Total(weight, ids - {id})
  }

  /** A sum does not depend on the order of its terms. */
  lemma {:induction false} TotalWithout(weight: Id -> nat, ids: set<Id>, id: Id)
    requires id in ids
    ensures Total(weight, ids) == weight(id) + Total(weight, ids - {id})
    decreases |ids|
  {
    var first :| first in ids && Total(weight, ids) == weight(first) + Total(weight, ids - {first});
    if first != id {
      TotalWithout(weight, ids - {first}, id);
      TotalWithout(weight, ids - {id}, first);
      assert ids - {first} - {id} == ids - {id} - {first};
    }
  }

  /** More terms, each at least as large, give a larger sum. */
  lemma {:induction false} TotalGrows(weight: Id -> nat, ids: set<Id>, heavier: Id -> nat, more: set<Id>)
    requires ids <= more && forall id :: id in ids ==> weight(id) <= heavier(id)
    ensures Total(weight, ids) <= Total(heavier, more)
    decreases |ids|
  {
    if ids != {} {
      var id :| id in ids;
      TotalWithout(weight, ids, id);
      TotalWithout(heavier, more, id);
      TotalGrows(weight, ids - {id}, heavier, more - {id});
    }
  }

  lemma {:induction false} TotalAdds(weight: Id -> nat, a: set<Id>, b: set<Id>)
    requires a !! b
    ensures Total(weight, a + b) == Total(weight, a) + Total(weight, b)
    decreases |a|
  {
    if a == {} {
      assert a + b == b;
    } else {
      var id :| id in a;
      TotalWithout(weight, a, id);
      TotalWithout(weight, a + b, id);
      TotalAdds(weight, a - {id}, b);
      assert a + b - {id} == a - {id} + b;
    }
  }

  lemma SizeGrows(a: set<Id>, b: set<Id>)
    requires a <= b
    ensures |a| <= |b|
  {
    assert b == a + (b - a);
  }
}
