/**
 * The counted key/value map of core/syncx/map.go: a map plus a separately kept
 * `count`. The count is not the number of keys: Store always adds one, Delete
 * always subtracts one, LoadOrStore adds one only when it inserts, and
 * LoadAndDelete never touches it.
 */
module SyncMap {

  /** No element occurs twice. */
  ghost predicate Distinct<K>(s: seq<K>) {
    forall i, j :: 0 <= i < j < |s| ==> s[i] != s[j]
  }

  /** A duplicate-free sequence that holds exactly the elements of a set is as long as the set is large. */
  lemma {:induction false} DistinctLength<K>(s: seq<K>, keys: set<K>)
    requires Distinct(s)
    requires forall k :: k in s <==> k in keys
    ensures |s| == |keys|
  {
    if s != [] {
      var rest := s[1..];
      forall k
        ensures k in rest <==> k in keys - {s[0]}
      {
        if k in rest {
          var i :| 0 <= i < |rest| && rest[i] == k;
          assert s[i + 1] == k;
        }
      }
      DistinctLength(rest, keys - {s[0]});
    }
  }

  /**
   * sync.Map.Range: visits the entries in an unspecified order, handing each to `f`,
   * and stops right after the first call of `f` that returns false.
   * `keys` and `values` are the visited entries, in visiting order.
   */
  method RangeEntries<K(==), V>(m: map<K, V>, f: (K, V) -> bool) returns (keys: seq<K>, values: seq<V>)
    ensures Distinct(keys) && |values| == |keys|
    ensures forall i :: 0 <= i < |keys| ==> keys[i] in m && values[i] == m[keys[i]]
    ensures forall i :: 0 <= i < |keys| - 1 ==> f(keys[i], values[i])
    ensures (forall k :: k in m ==> k in keys) || (|keys| > 0 && !f(keys[|keys| - 1], values[|keys| - 1]))
  {
    keys, values := [], [];
    var rest := m.Keys;
    while rest != {}
      invariant rest <= m.Keys
      invariant forall k :: k in m ==> (k in rest <==> k !in keys)
      invariant Distinct(keys) && |values| == |keys|
      invariant forall i :: 0 <= i < |keys| ==> keys[i] in m && values[i] == m[keys[i]] && f(keys[i], values[i])
      decreases |rest|
    {
      var k :| k in rest;
      keys, values := keys + [k], values + [m[k]];
      rest := rest - {k};
      if !f(k, m[k]) {
        return;
      }
    }
  }

  class CountedMap<K(==), V> {
    /** The underlying sync.Map. */
    var m: map<K, V>
    /** The separately maintained atomic counter read by Len. */
    var count: int
    /** Go's zero value of V, returned by a missed Load. */
    const zero: V

    /** How often Store ran, how often LoadOrStore inserted, how often Delete ran. */
    ghost var stores: nat
    ghost var insertions: nat
    ghost var deletes: nat

    /** The counter is the balance of the three mutating operations that touch it. */
    ghost predicate Valid()
      reads this
    {
      count == stores + insertions - deletes
    }

    constructor (zero: V)
      ensures Valid() && this.zero == zero
      ensures m == map[] && count == 0
    {
      this.zero := zero;
      m := map[];
      count := 0;
      stores, insertions, deletes := 0, 0, 0;
    }

    method Delete(key: K)
      requires Valid()
      modifies this
      ensures Valid()
      ensures m == old(m) - {key} && count == old(count) - 1
      ensures stores == old(stores) && insertions == old(insertions) && deletes == old(deletes) + 1
    {
      m := m - {key};
      count := count - 1;
      deletes := deletes + 1;
    }

    method Load(key: K) returns (value: V, ok: bool)
      ensures ok <==> key in m
      ensures value == if ok then m[key] else zero
    {
      if key in m {
        value, ok := m[key], true;
      } else {
        value, ok := zero, false;
      }
    }

    method LoadAndDelete(key: K) returns (value: V, loaded: bool)
      requires Valid()
      modifies this`m
      ensures Valid()
      ensures loaded == (key in old(m))
      ensures value == if loaded then old(m)[key] else zero
      ensures m == old(m) - {key} && count == old(count)
    {
      if key in m {
        value, loaded := m[key], true;
      } else {
        value, loaded := zero, false;
      }
      m := m - {key};
    }

    method LoadOrStore(key: K, value: V) returns (actual: V, loaded: bool)
      requires Valid()
      modifies this
      ensures Valid()
      ensures loaded == (key in old(m))
      ensures loaded ==> actual == old(m)[key] && m == old(m) && count == old(count)
      ensures !loaded ==> actual == value && m == old(m)[key := value] && count == old(count) + 1
      ensures stores == old(stores) && deletes == old(deletes)
      ensures insertions == old(insertions) + (if loaded then 0 else 1)
    {
      if key in m {
        actual, loaded := m[key], true;
      } else {
        m := m[key := value];
        count := count + 1;
        insertions := insertions + 1;
        actual, loaded := value, false;
      }
    }

    method Store(key: K, value: V)
      requires Valid()
      modifies this
      ensures Valid()
      ensures m == old(m)[key := value] && count == old(count) + 1
      ensures stores == old(stores) + 1 && insertions == old(insertions) && deletes == old(deletes)
    {
      m := m[key := value];
      count := count + 1;
      stores := stores + 1;
    }

    method Len() returns (n: int)
      requires Valid()
      ensures n == stores + insertions - deletes
    {
      n := count;
    }

    method Keys() returns (keys: seq<K>)
      ensures Distinct(keys) && |keys| == |m|
      ensures forall k :: k in keys <==> k in m
    {
      var values;
      keys, values := RangeEntries(m, (k, v) => true);
      DistinctLength(keys, m.Keys);
    }

    /** One value per key currently present; `order` names the key each value came from. */
    method Values() returns (values: seq<V>, ghost order: seq<K>)
      ensures Distinct(order) && |values| == |order| == |m|
      ensures forall k :: k in order <==> k in m
      ensures forall i :: 0 <= i < |order| ==> values[i] == m[order[i]]
      ensures forall i :: 0 <= i < |values| ==> exists k :: k in m && values[i] == m[k]
      ensures forall k :: k in m ==> exists i :: 0 <= i < |values| && values[i] == m[k]
    {
      order, values := RangeEntries(m, (k, v) => true);
      DistinctLength(order, m.Keys);
      forall k | k in m
        ensures exists i :: 0 <= i < |values| && values[i] == m[k]
      {
        var i :| 0 <= i < |order| && order[i] == k;
        assert values[i] == m[k];
      }
    }
  }

  /**
   * Storing twice under one key leaves one key but a count of two; deleting a
   * key that is absent still lowers the count.
   */
  method CountDrift() returns (lenAfterStores: int, keysAfterStores: nat, lenAfterDeletes: int)
    ensures lenAfterStores == 2 && keysAfterStores == 1
    ensures lenAfterDeletes == 0
  {
    var cm := new CountedMap<string, int>(0);
    cm.Store("a", 1);
    cm.Store("a", 2);
    lenAfterStores := cm.Len();
    var keys := cm.Keys();
    keysAfterStores := |keys|;
    cm.Delete("a");
    cm.Delete("a");
    lenAfterDeletes := cm.Len();
  }

  /**
   * A stored value is loaded back; a key never stored loads as the zero value;
   * LoadAndDelete empties the map but leaves the count as it was.
   */
  method StoreThenLoad(zero: int, v: int)
      returns (stored: int, storedOk: bool, missing: int, missingOk: bool, keysAfter: nat, lenAfter: int)
    ensures stored == v && storedOk
    ensures missing == zero && !missingOk
    ensures keysAfter == 0 && lenAfter == 1
  {
    var cm := new CountedMap<string, int>(zero);
    cm.Store("k", v);
    stored, storedOk := cm.Load("k");
    missing, missingOk := cm.Load("never");
    var _, _ := cm.LoadAndDelete("k");
    var keys := cm.Keys();
    keysAfter := |keys|;
    lenAfter := cm.Len();
  }
}
