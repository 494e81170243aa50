/** Shared vocabulary. */
module Basics {

  // Hashes, UUIDs, provider ids and other opaque identifiers. The system only
  // ever compares them for equality, so a number stands for each of them.
  type Id = nat

  datatype Option<+T> = None | Some(value: T)

  // JavaScript's Math.max on the epochs of the model.
  function Max(a: nat, b: nat): nat {
    if a < b then b else a
  }

  // ----- Maps that agree outside a set of keys -----

  predicate SameOutside<V(==)>(m: map<Id, V>, m': map<Id, V>, keys: set<Id>) {
    m - keys == m' - keys
  }

  lemma OutsideIsSame<V>(m: map<Id, V>, m': map<Id, V>, keys: set<Id>, k: Id)
    requires SameOutside(m, m', keys) && k !in keys
    ensures k in m <==> k in m'
    ensures k in m ==> m[k] == m'[k]
  {
    assert k in m <==> k in m - keys;
    assert k in m' <==> k in m' - keys;
    if k in m { assert (m - keys)[k] == (m' - keys)[k]; }
  }

  lemma SameOutsideCompose<V>(m: map<Id, V>, m1: map<Id, V>, m2: map<Id, V>, keys: set<Id>, more: set<Id>)
    requires SameOutside(m, m1, keys) && SameOutside(m1, m2, more)
    ensures SameOutside(m, m2, keys + more)
  {
    assert forall k :: k in m - (keys + more) <==> k in (m - keys) - more;
    assert m - (keys + more) == (m - keys) - more == (m1 - more) - keys == m2 - (keys + more);
  }
}
