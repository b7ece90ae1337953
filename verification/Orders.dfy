/** Strict total orders on finite sets. */
module Orders {

  /** On `keys`, exactly one of two different keys comes before the other, and coming before is transitive. */
  ghost predicate StrictTotal<K(!new)>(before: (K, K) -> bool, keys: set<K>) {
    && (forall x, y | x in keys && y in keys && x != y :: before(x, y) <==> !before(y, x))
    && (forall x, y, z | x in keys && y in keys && z in keys && before(x, y) && before(y, z) :: before(x, z))
  }

  ghost predicate First<K(!new)>(before: (K, K) -> bool, keys: set<K>, first: K) {
    first in keys && forall x | x in keys && x != first :: before(first, x)
  }

  lemma {:induction false} HasFirst<K(!new)>(before: (K, K) -> bool, keys: set<K>) returns (first: K)
    requires keys != {} && StrictTotal(before, keys)
    ensures First(before, keys, first)
    ensures forall x | First(before, keys, x) :: x == first
    decreases |keys|
  {
    var k :| k in keys;
    var rest := keys - {k};
    if rest == {} {
      first := k;
      assert keys == {k};
    } else {
      var l := HasFirst(before, rest);
      first := if before(k, l) then k else l;
      assert keys == rest + {k};
      assert forall x | x in rest && x != l :: before(l, x);
    }
  }
}
