/**
 * The multi-index cache of core/syncx/indexed_cache.go. The cache keeps one
 * registry per field name; a registry maps a field value to the item indexed
 * under it. An item is indexed under every field of its field map whose value
 * is non-empty. The lock is read as plain sequential state.
 */
module IndexedCaching {
  import opened Wrappers
  import SyncMap

  /** What GetFieldMap returns: field name to field value. */
  type FieldMap = map<string, string>

  /** Field name to registry; a registry maps a field value to an item. */
  type Registries<T> = map<string, map<string, T>>

  /** `f -> v` is one of the pairs an item with field map `m` is indexed under. */
  predicate IsPair(m: FieldMap, f: string, v: string) {
    f in m && m[f] == v && v != ""
  }

  function IndexedFields(m: FieldMap): set<string> {
    set f | f in m && m[f] != ""
  }

  /** `a` has an indexed pair in common with `b` on one of the fields `fs`. */
  predicate SharesPairIn(a: FieldMap, b: FieldMap, fs: set<string>) {
    exists f :: f in fs && f in b && IsPair(a, f, b[f])
  }

  predicate SharesPair(a: FieldMap, b: FieldMap) {
    SharesPairIn(a, b, b.Keys)
  }

  /** getByFieldNameAndValue: what the registry `f` holds under `v`. */
  function Lookup<T>(R: Registries<T>, f: string, v: string): Option<T> {
    if f in R && v in R[f] then Some(R[f][v]) else None
  }

  ghost predicate HeldUnderAll<T>(R: Registries<T>, m: FieldMap, x: T) {
    forall g :: g in m && m[g] != "" ==> Lookup(R, g, m[g]) == Some(x)
  }

  /**
   * The all-or-none invariant: whatever a key holds is an item whose own field
   * map has that pair, and that item is held under every one of its indexed pairs.
   */
  ghost predicate Coherent<T>(R: Registries<T>, fm: T -> FieldMap) {
    forall f, v :: Lookup(R, f, v).Some? ==>
      IsPair(fm(Lookup(R, f, v).value), f, v) &&
      HeldUnderAll(R, fm(Lookup(R, f, v).value), Lookup(R, f, v).value)
  }

  // ---------------------------------------------------------------------------
  // The state after each operation, as functions of the state before it.
  // ---------------------------------------------------------------------------

  /** getRegistry: an empty registry is created for an unknown field name, even on reads. */
  function WithRegistry<T>(R: Registries<T>, f: string): Registries<T> {
    if f in R then R else R[f := map[]]
  }

  /** The first `fs` steps of deleteItem on an item with field map `m`. */
  function WithoutPairsIn<T>(R: Registries<T>, m: FieldMap, fs: set<string>): Registries<T> {
    map g | g in R.Keys + (IndexedFields(m) * fs) ::
      (if g in R then R[g] else map[]) - (if g in fs && g in m && m[g] != "" then {m[g]} else {})
  }

  /** deleteItem: drops the key of every indexed pair of `m`, whatever item that key holds. */
  function WithoutPairs<T>(R: Registries<T>, m: FieldMap): Registries<T> {
    WithoutPairsIn(R, m, m.Keys)
  }

  /** Upsert, with only the fields `fs` of the new item processed so far. */
  function UpsertedIn<T>(R: Registries<T>, fm: T -> FieldMap, item: T, fs: set<string>): Registries<T> {
    var m := fm(item);
    map g | g in R.Keys + (IndexedFields(m) * fs) ::
      (map w | g in R && w in R[g] && !SharesPairIn(fm(R[g][w]), m, fs) :: R[g][w])
      + (if g in fs && g in m && m[g] != "" then map[m[g] := item] else map[])
  }

  /** Upsert: every item sharing an indexed pair with `item` is evicted, then `item` is indexed. */
  function Upserted<T>(R: Registries<T>, fm: T -> FieldMap, item: T): Registries<T> {
    UpsertedIn(R, fm, item, fm(item).Keys)
  }

  /** DeleteByFieldNameAndValue: the item found under (f, v), if any, loses all of its keys. */
  function DeletedAt<T>(R: Registries<T>, fm: T -> FieldMap, f: string, v: string): Registries<T> {
    match Lookup(R, f, v)
    case None => WithRegistry(R, f)
    case Some(x) => WithoutPairs(WithRegistry(R, f), fm(x))
  }

  /** One pass of Upsert's loop body, for the field `f` of `item`. */
  function UpsertStep<T>(R: Registries<T>, fm: T -> FieldMap, item: T, f: string): Registries<T>
    requires f in fm(item)
  {
    var v := fm(item)[f];
    if v == "" then R
    else
      var R1 := WithRegistry(R, f);
      var R2 := if v in R1[f] then WithoutPairs(R1, fm(R1[f][v])) else R1;
      assert f in R2;
      R2[f := R2[f][v := item]]
  }

  // ---------------------------------------------------------------------------
  // Pointwise views of those functions.
  // ---------------------------------------------------------------------------

  lemma RegistriesExt<T>(A: Registries<T>, B: Registries<T>)
    requires A.Keys == B.Keys
    requires forall f, v :: Lookup(A, f, v) == Lookup(B, f, v)
    ensures A == B
  {
    forall f | f in A
      ensures A[f] == B[f]
    {
      forall v
        ensures v in A[f] <==> v in B[f]
        ensures v in A[f] ==> A[f][v] == B[f][v]
      {
        assert Lookup(A, f, v) == Lookup(B, f, v);
      }
    }
  }

  lemma LookupWithRegistry<T>(R: Registries<T>, f: string)
    ensures forall g, w :: Lookup(WithRegistry(R, f), g, w) == Lookup(R, g, w)
  {
  }

  lemma LookupWithoutPairsInAt<T>(R: Registries<T>, m: FieldMap, fs: set<string>, g: string, w: string)
    ensures Lookup(WithoutPairsIn(R, m, fs), g, w) == if g in fs && IsPair(m, g, w) then None else Lookup(R, g, w)
  {
  }

  lemma WithoutPairsInKeys<T>(R: Registries<T>, m: FieldMap, fs: set<string>)
    ensures WithoutPairsIn(R, m, fs).Keys == R.Keys + (IndexedFields(m) * fs)
  {
  }

  lemma LookupWithoutPairsIn<T>(R: Registries<T>, m: FieldMap, fs: set<string>)
    ensures WithoutPairsIn(R, m, fs).Keys == R.Keys + (IndexedFields(m) * fs)
    ensures forall g, w :: Lookup(WithoutPairsIn(R, m, fs), g, w) ==
                            if g in fs && IsPair(m, g, w) then None else Lookup(R, g, w)
  {
    forall g, w {
      LookupWithoutPairsInAt(R, m, fs, g, w);
    }
  }

  /** What Upsert over the fields `fs` leaves under (g, w). */
  function UpsertedLookup<T>(R: Registries<T>, fm: T -> FieldMap, item: T, fs: set<string>, g: string, w: string): Option<T> {
    if g in fs && IsPair(fm(item), g, w) then Some(item)
    else if Lookup(R, g, w).Some? && !SharesPairIn(fm(Lookup(R, g, w).value), fm(item), fs) then Lookup(R, g, w)
    else None
  }

  lemma LookupUpsertedInAt<T>(R: Registries<T>, fm: T -> FieldMap, item: T, fs: set<string>, g: string, w: string)
    ensures Lookup(UpsertedIn(R, fm, item, fs), g, w) == UpsertedLookup(R, fm, item, fs, g, w)
  {
  }

  lemma UpsertedInKeys<T>(R: Registries<T>, fm: T -> FieldMap, item: T, fs: set<string>)
    ensures UpsertedIn(R, fm, item, fs).Keys == R.Keys + (IndexedFields(fm(item)) * fs)
  {
  }

  lemma LookupUpsertedIn<T>(R: Registries<T>, fm: T -> FieldMap, item: T, fs: set<string>)
    ensures UpsertedIn(R, fm, item, fs).Keys == R.Keys + (IndexedFields(fm(item)) * fs)
    ensures forall g, w :: Lookup(UpsertedIn(R, fm, item, fs), g, w) == UpsertedLookup(R, fm, item, fs, g, w)
  {
    forall g, w {
      LookupUpsertedInAt(R, fm, item, fs, g, w);
    }
  }

  lemma SharesPairInAdd(a: FieldMap, m: FieldMap, fs: set<string>, f: string)
    requires f in m
    ensures SharesPairIn(a, m, fs + {f}) <==> SharesPairIn(a, m, fs) || IsPair(a, f, m[f])
  {
    if SharesPairIn(a, m, fs + {f}) {
      var g :| g in fs + {f} && g in m && IsPair(a, g, m[g]);
      if g != f {
        assert g in fs;
      }
    }
    if IsPair(a, f, m[f]) {
      assert f in fs + {f};
    }
  }

  /** An item held under a key is held exactly under its own indexed pairs. */
  lemma HeldItemPairs<T>(R: Registries<T>, fm: T -> FieldMap, f: string, v: string)
    requires Coherent(R, fm)
    requires Lookup(R, f, v).Some?
    ensures IsPair(fm(Lookup(R, f, v).value), f, v)
    ensures forall g :: g in fm(Lookup(R, f, v).value) && fm(Lookup(R, f, v).value)[g] != "" ==>
                          Lookup(R, g, fm(Lookup(R, f, v).value)[g]) == Lookup(R, f, v)
  {
  }

  /** Under the invariant, two keys hold the same item only if both are pairs of that item. */
  lemma HeldAt<T>(R: Registries<T>, fm: T -> FieldMap, g: string, w: string)
    requires Coherent(R, fm)
    requires Lookup(R, g, w).Some?
    ensures IsPair(fm(Lookup(R, g, w).value), g, w)
  {
  }

  /** Upsert's loop body at one key, when the key (f, v) of the new item holds an evicted item. */
  lemma UpsertStepEvictAt<T>(R0: Registries<T>, R: Registries<T>, fm: T -> FieldMap, item: T, done: set<string>,
                             f: string, g: string, w: string)
    requires Coherent(R0, fm)
    requires f in fm(item) && f !in done && fm(item)[f] != ""
    requires Lookup(R, f, fm(item)[f]) == UpsertedLookup(R0, fm, item, done, f, fm(item)[f])
    requires Lookup(R, g, w) == UpsertedLookup(R0, fm, item, done, g, w)
    requires Lookup(R, f, fm(item)[f]).Some?
    ensures Lookup(UpsertStep(R, fm, item, f), g, w) == UpsertedLookup(R0, fm, item, done + {f}, g, w)
  {
    var m := fm(item);
    var v := m[f];
    var R1 := WithRegistry(R, f);
    var x := R1[f][v];
    assert Lookup(R0, f, v) == Some(x) && !SharesPairIn(fm(x), m, done);
    HeldItemPairs(R0, fm, f, v);
    SharesPairInAdd(fm(x), m, done, f);
    var R2 := WithoutPairs(R1, fm(x));
    LookupWithoutPairsInAt(R1, fm(x), fm(x).Keys, g, w);
    assert UpsertStep(R, fm, item, f) == R2[f := R2[f][v := item]];
    if g == f && w == v {
    } else if g in done && IsPair(m, g, w) {
    } else if IsPair(fm(x), g, w) {
      assert Lookup(R0, g, w) == Some(x);
    } else if Lookup(R0, g, w).Some? {
      var y := Lookup(R0, g, w).value;
      SharesPairInAdd(fm(y), m, done, f);
      HeldAt(R0, fm, g, w);
      HeldItemPairs(R0, fm, g, w);
      if IsPair(fm(y), f, v) {
        assert Lookup(R0, f, v) == Some(y);
      }
    }
  }

  /** Upsert's loop body at one key, when the key (f, v) of the new item is free. */
  lemma UpsertStepFreeAt<T>(R0: Registries<T>, R: Registries<T>, fm: T -> FieldMap, item: T, done: set<string>,
                            f: string, g: string, w: string)
    requires Coherent(R0, fm)
    requires f in fm(item) && f !in done && fm(item)[f] != ""
    requires Lookup(R, f, fm(item)[f]) == UpsertedLookup(R0, fm, item, done, f, fm(item)[f])
    requires Lookup(R, g, w) == UpsertedLookup(R0, fm, item, done, g, w)
    requires Lookup(R, f, fm(item)[f]).None?
    ensures Lookup(UpsertStep(R, fm, item, f), g, w) == UpsertedLookup(R0, fm, item, done + {f}, g, w)
  {
    var m := fm(item);
    var v := m[f];
    var R1 := WithRegistry(R, f);
    assert UpsertStep(R, fm, item, f) == R1[f := R1[f][v := item]];
    assert Lookup(R1, g, w) == Lookup(R, g, w);
    if g == f && w == v {
    } else if g in done && IsPair(m, g, w) {
    } else if Lookup(R0, g, w).Some? {
      var y := Lookup(R0, g, w).value;
      SharesPairInAdd(fm(y), m, done, f);
      HeldItemPairs(R0, fm, g, w);
    }
  }

  lemma UpsertStepKeysOf<T>(R: Registries<T>, fm: T -> FieldMap, item: T, f: string)
    requires f in fm(item)
    ensures UpsertStep(R, fm, item, f).Keys ==
            if fm(item)[f] == "" then R.Keys
            else if Lookup(R, f, fm(item)[f]).Some? then R.Keys + {f} + IndexedFields(fm(Lookup(R, f, fm(item)[f]).value))
            else R.Keys + {f}
  {
    var v := fm(item)[f];
    if v != "" {
      var R1 := WithRegistry(R, f);
      if v in R1[f] {
        WithoutPairsInKeys(R1, fm(R1[f][v]), fm(R1[f][v]).Keys);
      }
    }
  }

  /** Every indexed field of a held item already has a registry. */
  lemma HeldItemRegistries<T>(R: Registries<T>, fm: T -> FieldMap, f: string, v: string)
    requires Coherent(R, fm)
    requires Lookup(R, f, v).Some?
    ensures IndexedFields(fm(Lookup(R, f, v).value)) <= R.Keys
  {
    var x := Lookup(R, f, v).value;
    forall g | g in IndexedFields(fm(x))
      ensures g in R
    {
      assert Lookup(R, g, fm(x)[g]) == Some(x);
    }
  }

  lemma UpsertStepKeysFrom<T>(R0: Registries<T>, R: Registries<T>, fm: T -> FieldMap, item: T, done: set<string>, f: string)
    requires f in fm(item) && f !in done
    requires R.Keys == R0.Keys + (IndexedFields(fm(item)) * done)
    requires fm(item)[f] != "" && Lookup(R, f, fm(item)[f]).Some? ==>
               IndexedFields(fm(Lookup(R, f, fm(item)[f]).value)) <= R0.Keys
    ensures UpsertStep(R, fm, item, f).Keys == R0.Keys + (IndexedFields(fm(item)) * (done + {f}))
  {
    UpsertStepKeysOf(R, fm, item, f);
    if fm(item)[f] == "" {
      assert IndexedFields(fm(item)) * (done + {f}) == IndexedFields(fm(item)) * done;
    }
  }

  /** Upsert's loop body adds exactly the registry of the processed field, if its value is non-empty. */
  lemma UpsertStepKeys<T>(R0: Registries<T>, fm: T -> FieldMap, item: T, done: set<string>, f: string)
    requires Coherent(R0, fm)
    requires f in fm(item) && f !in done
    ensures UpsertStep(UpsertedIn(R0, fm, item, done), fm, item, f).Keys == UpsertedIn(R0, fm, item, done + {f}).Keys
  {
    var v := fm(item)[f];
    var R := UpsertedIn(R0, fm, item, done);
    UpsertedInKeys(R0, fm, item, done);
    UpsertedInKeys(R0, fm, item, done + {f});
    if v != "" && Lookup(R, f, v).Some? {
      LookupUpsertedInAt(R0, fm, item, done, f, v);
      HeldItemRegistries(R0, fm, f, v);
    }
    UpsertStepKeysFrom(R0, R, fm, item, done, f);
  }

  /** One pass of Upsert's loop keeps the state equal to Upsert over the fields processed so far. */
  lemma UpsertStepCorrect<T>(R0: Registries<T>, fm: T -> FieldMap, item: T, done: set<string>, f: string)
    requires Coherent(R0, fm)
    requires f in fm(item) && f !in done
    ensures UpsertStep(UpsertedIn(R0, fm, item, done), fm, item, f) == UpsertedIn(R0, fm, item, done + {f})
  {
    var m := fm(item);
    var v := m[f];
    var R := UpsertedIn(R0, fm, item, done);
    var S := UpsertStep(R, fm, item, f);
    var N := UpsertedIn(R0, fm, item, done + {f});
    UpsertStepKeys(R0, fm, item, done, f);
    forall g, w
      ensures Lookup(S, g, w) == Lookup(N, g, w)
    {
      LookupUpsertedInAt(R0, fm, item, done, g, w);
      LookupUpsertedInAt(R0, fm, item, done + {f}, g, w);
      if v == "" {
        assert S == R;
        if Lookup(R0, g, w).Some? {
          SharesPairInAdd(fm(Lookup(R0, g, w).value), m, done, f);
        }
      } else {
        LookupUpsertedInAt(R0, fm, item, done, f, v);
        if Lookup(R, f, v).Some? {
          UpsertStepEvictAt(R0, R, fm, item, done, f, g, w);
        } else {
          UpsertStepFreeAt(R0, R, fm, item, done, f, g, w);
        }
      }
    }
    RegistriesExt(S, N);
  }

  /** One pass of deleteItem's loop, for the field `g` of the deleted item's field map `m`. */
  function DeleteStep<T>(R: Registries<T>, m: FieldMap, g: string): Registries<T>
    requires g in m
  {
    if m[g] == "" then R
    else
      var R1 := WithRegistry(R, g);
      R1[g := R1[g] - {m[g]}]
  }

  lemma DeleteStepCorrect<T>(R0: Registries<T>, m: FieldMap, done: set<string>, g: string)
    requires g in m && g !in done
    ensures DeleteStep(WithoutPairsIn(R0, m, done), m, g) == WithoutPairsIn(R0, m, done + {g})
  {
    var R := WithoutPairsIn(R0, m, done);
    var S := DeleteStep(R, m, g);
    var N := WithoutPairsIn(R0, m, done + {g});
    WithoutPairsInKeys(R0, m, done);
    WithoutPairsInKeys(R0, m, done + {g});
    if m[g] == "" {
      assert IndexedFields(m) * (done + {g}) == IndexedFields(m) * done;
    }
    forall f, w
      ensures Lookup(S, f, w) == Lookup(N, f, w)
    {
      LookupWithoutPairsInAt(R0, m, done, f, w);
      LookupWithoutPairsInAt(R0, m, done + {g}, f, w);
    }
    RegistriesExt(S, N);
  }

  // ---------------------------------------------------------------------------
  // The all-or-none invariant is kept.
  // ---------------------------------------------------------------------------

  lemma EmptyCoherent<T>(fm: T -> FieldMap)
    ensures Coherent(map[], fm)
  {
  }

  lemma WithRegistryCoherent<T>(R: Registries<T>, fm: T -> FieldMap, f: string)
    requires Coherent(R, fm)
    ensures Coherent(WithRegistry(R, f), fm)
  {
    LookupWithRegistry(R, f);
  }

  /** Upsert keeps every item indexed under all of its non-empty pairs or under none. */
  lemma UpsertedCoherent<T>(R: Registries<T>, fm: T -> FieldMap, item: T)
    requires Coherent(R, fm)
    ensures Coherent(Upserted(R, fm, item), fm)
  {
    var m := fm(item);
    var U := Upserted(R, fm, item);
    forall f, v | Lookup(U, f, v).Some?
      ensures IsPair(fm(Lookup(U, f, v).value), f, v)
      ensures HeldUnderAll(U, fm(Lookup(U, f, v).value), Lookup(U, f, v).value)
    {
      LookupUpsertedInAt(R, fm, item, m.Keys, f, v);
      var y := Lookup(U, f, v).value;
      if IsPair(m, f, v) {
        forall g | g in m && m[g] != ""
          ensures Lookup(U, g, m[g]) == Some(item)
        {
          LookupUpsertedInAt(R, fm, item, m.Keys, g, m[g]);
        }
      } else {
        assert Lookup(R, f, v) == Some(y) && !SharesPair(fm(y), m);
        HeldItemPairs(R, fm, f, v);
        forall g | g in fm(y) && fm(y)[g] != ""
          ensures Lookup(U, g, fm(y)[g]) == Some(y)
        {
          LookupUpsertedInAt(R, fm, item, m.Keys, g, fm(y)[g]);
        }
      }
    }
  }

  /** Under the invariant, deleting the pairs of a held item removes exactly that item. */
  lemma WithoutHeldItem<T>(R: Registries<T>, fm: T -> FieldMap, f: string, v: string, g: string, w: string)
    requires Coherent(R, fm)
    requires Lookup(R, f, v).Some?
    ensures Lookup(WithoutPairs(R, fm(Lookup(R, f, v).value)), g, w) ==
            if Lookup(R, g, w) == Lookup(R, f, v) then None else Lookup(R, g, w)
  {
    var x := Lookup(R, f, v).value;
    LookupWithoutPairsInAt(R, fm(x), fm(x).Keys, g, w);
    HeldItemPairs(R, fm, f, v);
    if Lookup(R, g, w) == Some(x) {
      HeldAt(R, fm, g, w);
    }
  }

  /** DeleteByFieldNameAndValue removes the item found under (f, v) from every index and nothing else. */
  lemma DeletedAtLookup<T>(R: Registries<T>, fm: T -> FieldMap, f: string, v: string, g: string, w: string)
    requires Coherent(R, fm)
    ensures Lookup(DeletedAt(R, fm, f, v), g, w) ==
            if Lookup(R, f, v).Some? && Lookup(R, g, w) == Lookup(R, f, v) then None else Lookup(R, g, w)
  {
    var R1 := WithRegistry(R, f);
    LookupWithRegistry(R, f);
    WithRegistryCoherent(R, fm, f);
    if Lookup(R, f, v).Some? {
      WithoutHeldItem(R1, fm, f, v, g, w);
    }
  }

  lemma DeletedAtCoherent<T>(R: Registries<T>, fm: T -> FieldMap, f: string, v: string)
    requires Coherent(R, fm)
    ensures Coherent(DeletedAt(R, fm, f, v), fm)
  {
    var D := DeletedAt(R, fm, f, v);
    forall g, w | Lookup(D, g, w).Some?
      ensures IsPair(fm(Lookup(D, g, w).value), g, w)
      ensures HeldUnderAll(D, fm(Lookup(D, g, w).value), Lookup(D, g, w).value)
    {
      DeletedAtLookup(R, fm, f, v, g, w);
      var y := Lookup(D, g, w).value;
      HeldItemPairs(R, fm, g, w);
      forall h | h in fm(y) && fm(y)[h] != ""
        ensures Lookup(D, h, fm(y)[h]) == Some(y)
      {
        DeletedAtLookup(R, fm, f, v, h, fm(y)[h]);
      }
    }
  }

  /**
   * Delete(item) keeps the invariant when none of the item's keys holds a
   * different item: then it removes the item if cached and is otherwise a no-op.
   */
  lemma WithoutPairsCoherent<T>(R: Registries<T>, fm: T -> FieldMap, x: T)
    requires Coherent(R, fm)
    requires forall g :: g in fm(x) && fm(x)[g] != "" ==> Lookup(R, g, fm(x)[g]) in {None, Some(x)}
    ensures Coherent(WithoutPairs(R, fm(x)), fm)
  {
    var D := WithoutPairs(R, fm(x));
    forall g, w | Lookup(D, g, w).Some?
      ensures IsPair(fm(Lookup(D, g, w).value), g, w)
      ensures HeldUnderAll(D, fm(Lookup(D, g, w).value), Lookup(D, g, w).value)
    {
      LookupWithoutPairsInAt(R, fm(x), fm(x).Keys, g, w);
      var y := Lookup(D, g, w).value;
      HeldItemPairs(R, fm, g, w);
      forall h | h in fm(y) && fm(y)[h] != ""
        ensures Lookup(D, h, fm(y)[h]) == Some(y)
      {
        LookupWithoutPairsInAt(R, fm(x), fm(x).Keys, h, fm(y)[h]);
        if IsPair(fm(x), h, fm(y)[h]) {
          assert Lookup(R, h, fm(y)[h]) == Some(y);
        }
      }
    }
  }

  // ---------------------------------------------------------------------------
  // What Upsert and the deletions promise.
  // ---------------------------------------------------------------------------

  lemma UpsertedInNothing<T>(R: Registries<T>, fm: T -> FieldMap, item: T)
    ensures UpsertedIn(R, fm, item, {}) == R
  {
    var U := UpsertedIn(R, fm, item, {});
    UpsertedInKeys(R, fm, item, {});
    forall g, w
      ensures Lookup(U, g, w) == Lookup(R, g, w)
    {
      LookupUpsertedInAt(R, fm, item, {}, g, w);
    }
    RegistriesExt(U, R);
  }

  lemma WithoutPairsInNothing<T>(R: Registries<T>, m: FieldMap)
    ensures WithoutPairsIn(R, m, {}) == R
  {
    var D := WithoutPairsIn(R, m, {});
    WithoutPairsInKeys(R, m, {});
    LookupWithoutPairsIn(R, m, {});
    RegistriesExt(D, R);
  }

  /**
   * After Upsert, a key holds the new item exactly when it is one of the item's
   * indexed pairs, or an untouched copy of it; every other key keeps its item
   * unless that item shared an indexed pair with the new one.
   */
  lemma UpsertedLookupAt<T>(R: Registries<T>, fm: T -> FieldMap, item: T, g: string, w: string)
    ensures IsPair(fm(item), g, w) ==> Lookup(Upserted(R, fm, item), g, w) == Some(item)
    ensures !IsPair(fm(item), g, w) ==>
              Lookup(Upserted(R, fm, item), g, w) ==
              if Lookup(R, g, w).Some? && !SharesPair(fm(Lookup(R, g, w).value), fm(item)) then Lookup(R, g, w) else None
    ensures Upserted(R, fm, item).Keys == R.Keys + IndexedFields(fm(item))
  {
    LookupUpsertedInAt(R, fm, item, fm(item).Keys, g, w);
    UpsertedInKeys(R, fm, item, fm(item).Keys);
  }

  /** Under the invariant, a key of an evicted item that the new item does not reuse ends up empty. */
  lemma UpsertedFreesStaleKeys<T>(R: Registries<T>, fm: T -> FieldMap, item: T, f: string, v: string, g: string, w: string)
    requires Coherent(R, fm)
    requires Lookup(R, f, v).Some? && SharesPair(fm(Lookup(R, f, v).value), fm(item))
    requires IsPair(fm(Lookup(R, f, v).value), g, w) && !IsPair(fm(item), g, w)
    ensures Lookup(Upserted(R, fm, item), g, w) == None
  {
    HeldItemPairs(R, fm, f, v);
    UpsertedLookupAt(R, fm, item, g, w);
  }

  /** Upserting the same item twice is the same as upserting it once. */
  lemma {:induction false} UpsertIdempotent<T>(R: Registries<T>, fm: T -> FieldMap, item: T)
    ensures Upserted(Upserted(R, fm, item), fm, item) == Upserted(R, fm, item)
  {
    var U := Upserted(R, fm, item);
    var U2 := Upserted(U, fm, item);
    UpsertedLookupAt(U, fm, item, "", "");
    UpsertedLookupAt(R, fm, item, "", "");
    forall g, w
      ensures Lookup(U2, g, w) == Lookup(U, g, w)
    {
      UpsertedLookupAt(R, fm, item, g, w);
      UpsertedLookupAt(U, fm, item, g, w);
    }
    RegistriesExt(U2, U);
  }

  /** Under the invariant, no key ever holds an item under an empty field value. */
  lemma CoherentNoEmptyKey<T>(R: Registries<T>, fm: T -> FieldMap, f: string)
    requires Coherent(R, fm)
    ensures Lookup(R, f, "") == None
  {
    if Lookup(R, f, "").Some? {
      HeldAt(R, fm, f, "");
    }
  }

  /** After DeleteByFieldNameAndValue the key looked up is free, and so is every key of the item it held. */
  lemma DeletedAtFrees<T>(R: Registries<T>, fm: T -> FieldMap, f: string, v: string, g: string)
    requires Coherent(R, fm)
    ensures Lookup(DeletedAt(R, fm, f, v), f, v) == None
    ensures Lookup(R, f, v).Some? && g in fm(Lookup(R, f, v).value) ==>
              Lookup(DeletedAt(R, fm, f, v), g, fm(Lookup(R, f, v).value)[g]) == None
  {
    DeletedAtLookup(R, fm, f, v, f, v);
    if Lookup(R, f, v).Some? && g in fm(Lookup(R, f, v).value) {
      var x := Lookup(R, f, v).value;
      HeldItemPairs(R, fm, f, v);
      DeletedAtLookup(R, fm, f, v, g, fm(x)[g]);
      if fm(x)[g] == "" {
        CoherentNoEmptyKey(R, fm, g);
      }
    }
  }

  /** The keys of `x` hold nothing but `x`: Delete(x) then cannot strand another item. */
  ghost predicate OnlyHeldBy<T>(R: Registries<T>, fm: T -> FieldMap, x: T) {
    forall g :: g in fm(x) && fm(x)[g] != "" ==> Lookup(R, g, fm(x)[g]) in {None, Some(x)}
  }

  // ---------------------------------------------------------------------------
  // The cache object.
  // ---------------------------------------------------------------------------

  class IndexedCache<T> {
    /** The registries map: field name to registry. */
    var registries: Registries<T>
    /** The item type's GetFieldMap. */
    const fieldMap: T -> FieldMap
    /** Go's zero value of T, returned by a missed lookup. */
    const zero: T
    /** IndexedCacheConfig.Debug; it only switches logging. */
    const debug: bool

    ghost predicate Valid()
      reads this
    {
      Coherent(registries, fieldMap)
    }

    /** NewIndexedCache. */
    constructor (fieldMap: T -> FieldMap, zero: T, debug: bool)
      ensures Valid()
      ensures registries == map[] && this.fieldMap == fieldMap && this.zero == zero && this.debug == debug
    {
      this.fieldMap := fieldMap;
      this.zero := zero;
      this.debug := debug;
      registries := map[];
    }

    method GetRegistry(name: string)
      modifies this`registries
      ensures registries == WithRegistry(old(registries), name)
    {
      if name !in registries {
        registries := registries[name := map[]];
      }
    }

    /** deleteItem: drop every key of the item's indexed pairs, whatever each key holds. */
    method DeleteItem(item: T)
      modifies this`registries
      ensures registries == WithoutPairs(old(registries), fieldMap(item))
    {
      ghost var R0 := registries;
      var m := fieldMap(item);
      var rest := m.Keys;
      ghost var done: set<string> := {};
      WithoutPairsInNothing(R0, m);
      while rest != {}
        invariant rest !! done && rest + done == m.Keys
        invariant registries == WithoutPairsIn(R0, m, done)
        decreases |rest|
      {
        var g :| g in rest;
        if m[g] != "" {
          GetRegistry(g);
          registries := registries[g := registries[g] - {m[g]}];
        }
        DeleteStepCorrect(R0, m, done, g);
        rest, done := rest - {g}, done + {g};
      }
    }

    /** One pass of Upsert's loop: the field `f` of `item`. */
    method UpsertField(item: T, f: string)
      requires f in fieldMap(item)
      modifies this`registries
      ensures registries == UpsertStep(old(registries), fieldMap, item, f)
    {
      ghost var R := registries;
      var v := fieldMap(item)[f];
      if v != "" {
        GetRegistry(f);
        if v in registries[f] {
          var oldItem := registries[f][v];
          DeleteItem(oldItem);
          WithoutPairsInKeys(WithRegistry(R, f), fieldMap(oldItem), fieldMap(oldItem).Keys);
        }
        registries := registries[f := registries[f][v := item]];
      }
    }

    /** Upsert: evict every item sharing an indexed pair with `item`, then index `item` under its pairs. */
    method Upsert(item: T)
      requires Valid()
      modifies this`registries
      ensures registries == Upserted(old(registries), fieldMap, item)
      ensures Valid()
    {
      ghost var R0 := registries;
      var m := fieldMap(item);
      var rest := m.Keys;
      ghost var done: set<string> := {};
      UpsertedInNothing(R0, fieldMap, item);
      while rest != {}
        invariant rest !! done && rest + done == m.Keys
        invariant registries == UpsertedIn(R0, fieldMap, item, done)
        decreases |rest|
      {
        var f :| f in rest;
        UpsertField(item, f);
        UpsertStepCorrect(R0, fieldMap, item, done, f);
        rest, done := rest - {f}, done + {f};
      }
      UpsertedCoherent(R0, fieldMap, item);
    }

    /** Delete: deleteItem under the lock; it keeps the invariant when the item's keys hold only the item. */
    method Delete(item: T)
      modifies this`registries
      ensures registries == WithoutPairs(old(registries), fieldMap(item))
      ensures old(Valid()) && OnlyHeldBy(old(registries), fieldMap, item) ==> Valid()
    {
      ghost var R0 := registries;
      DeleteItem(item);
      if Coherent(R0, fieldMap) && OnlyHeldBy(R0, fieldMap, item) {
        WithoutPairsCoherent(R0, fieldMap, item);
      }
    }

    /** GetByFieldNameAndValue: the item under (fieldName, fieldValue), creating an empty registry for an unknown field. */
    method GetByFieldNameAndValue(fieldName: string, fieldValue: string) returns (item: T, found: bool)
      modifies this`registries
      ensures registries == WithRegistry(old(registries), fieldName)
      ensures found <==> Lookup(old(registries), fieldName, fieldValue).Some?
      ensures item == if found then Lookup(old(registries), fieldName, fieldValue).value else zero
      ensures old(Valid()) ==> Valid()
    {
      ghost var R0 := registries;
      GetRegistry(fieldName);
      if fieldValue in registries[fieldName] {
        item, found := registries[fieldName][fieldValue], true;
      } else {
        item, found := zero, false;
      }
      if Coherent(R0, fieldMap) {
        WithRegistryCoherent(R0, fieldMap, fieldName);
      }
    }

    /** DeleteByFieldNameAndValue: the item found under the pair, if any, loses every one of its keys. */
    method DeleteByFieldNameAndValue(fieldName: string, fieldValue: string)
      modifies this`registries
      ensures registries == DeletedAt(old(registries), fieldMap, fieldName, fieldValue)
      ensures old(Valid()) ==> Valid()
    {
      ghost var R0 := registries;
      var obj, ok := GetByFieldNameAndValue(fieldName, fieldValue);
      if ok {
        DeleteItem(obj);
      }
      if Coherent(R0, fieldMap) {
        DeletedAtCoherent(R0, fieldMap, fieldName, fieldValue);
      }
    }

    /**
     * Range: hands the items of the "id" registry to `fn` one by one, in no
     * particular order, and stops after the first call that returns false.
     * `ids` are the keys visited, in order.
     */
    method Range(fn: T -> bool) returns (visited: seq<T>, ghost ids: seq<string>)
      modifies this`registries
      ensures registries == WithRegistry(old(registries), "id")
      ensures old(Valid()) ==> Valid()
      ensures SyncMap.Distinct(ids) && |visited| == |ids|
      ensures forall i :: 0 <= i < |ids| ==> Lookup(registries, "id", ids[i]) == Some(visited[i])
      ensures forall i :: 0 <= i < |ids| - 1 ==> fn(visited[i])
      ensures (forall k :: k in registries["id"] ==> k in ids) || (|ids| > 0 && !fn(visited[|ids| - 1]))
    {
      ghost var R0 := registries;
      GetRegistry("id");
      ids, visited := SyncMap.RangeEntries(registries["id"], (k, x) => fn(x));
      if Coherent(R0, fieldMap) {
        WithRegistryCoherent(R0, fieldMap, "id");
      }
    }
  }
}
