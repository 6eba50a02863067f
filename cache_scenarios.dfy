/**
 * The scenarios of core/syncx/indexed_cache_test.go, restated as verified
 * methods over the IndexedCache model with the test's three-field item.
 */
module CacheScenarios {
  import opened Wrappers
  import opened IndexedCaching

  datatype TestItem = TestItem(id: string, name: string, email: string)

  function TestFieldMap(t: TestItem): (m: FieldMap)
    ensures m.Keys == {"id", "name", "email"}
    ensures m["id"] == t.id && m["name"] == t.name && m["email"] == t.email
  {
    map["id" := t.id, "name" := t.name, "email" := t.email]
  }

  const NoItem := TestItem("", "", "")
  const John := TestItem("1", "John Doe", "john@example.com")

  /** A fresh cache of test items; a miss returns the all-empty item. */
  method NewTestCache() returns (c: IndexedCache<TestItem>)
    ensures fresh(c) && c.Valid() && c.registries == map[]
    ensures c.fieldMap == TestFieldMap && c.zero == NoItem
  {
    c := new IndexedCache(TestFieldMap, NoItem, true);
  }

  /** An upserted item is found under each of its fields; an unknown id is not found. */
  method UpsertScenario() returns (byId: Option<TestItem>, byName: Option<TestItem>, byEmail: Option<TestItem>, missing: Option<TestItem>)
    ensures byId == byName == byEmail == Some(John)
    ensures missing == None
  {
    var c := NewTestCache();
    c.Upsert(John);
    UpsertedLookupAt(map[], TestFieldMap, John, "id", "1");
    UpsertedLookupAt(map[], TestFieldMap, John, "name", "John Doe");
    UpsertedLookupAt(map[], TestFieldMap, John, "email", "john@example.com");
    UpsertedLookupAt(map[], TestFieldMap, John, "id", "999");
    byId := Get(c, "id", "1");
    byName := Get(c, "name", "John Doe");
    byEmail := Get(c, "email", "john@example.com");
    missing := Get(c, "id", "999");
  }

  /** GetByFieldNameAndValue with its (item, found) pair read as an Option. */
  method Get(c: IndexedCache<TestItem>, f: string, v: string) returns (r: Option<TestItem>)
    modifies c`registries
    ensures c.registries == WithRegistry(old(c.registries), f)
    ensures r == Lookup(old(c.registries), f, v)
    ensures old(c.Valid()) ==> c.Valid()
  {
    var item, found := c.GetByFieldNameAndValue(f, v);
    r := if found then Some(item) else None;
  }

  /** Deleting by id removes the item from every registry. */
  method DeleteScenario() returns (byId: Option<TestItem>, byName: Option<TestItem>, byEmail: Option<TestItem>)
    ensures byId == byName == byEmail == None
  {
    var c := NewTestCache();
    c.Upsert(John);
    ghost var R := c.registries;
    UpsertedLookupAt(map[], TestFieldMap, John, "id", "1");
    c.DeleteByFieldNameAndValue("id", "1");
    DeletedAtFrees(R, TestFieldMap, "id", "1", "name");
    DeletedAtFrees(R, TestFieldMap, "id", "1", "email");
    byId := Get(c, "id", "1");
    byName := Get(c, "name", "John Doe");
    byEmail := Get(c, "email", "john@example.com");
  }

  /** Upserting a new version with the same id retires the old name and email. */
  method UpsertUpdateScenario() returns (oldName: Option<TestItem>, oldEmail: Option<TestItem>,
                                         byId: Option<TestItem>, byNewName: Option<TestItem>)
    ensures oldName == oldEmail == None
    ensures byId == byNewName == Some(TestItem("1", "John Smith", "john.smith@example.com"))
  {
    var smith := TestItem("1", "John Smith", "john.smith@example.com");
    var c := NewTestCache();
    c.Upsert(John);
    ghost var R := c.registries;
    UpsertedLookupAt(map[], TestFieldMap, John, "id", "1");
    assert IsPair(TestFieldMap(John), "id", TestFieldMap(smith)["id"]);
    c.Upsert(smith);
    UpsertedFreesStaleKeys(R, TestFieldMap, smith, "id", "1", "name", "John Doe");
    UpsertedFreesStaleKeys(R, TestFieldMap, smith, "id", "1", "email", "john@example.com");
    UpsertedLookupAt(R, TestFieldMap, smith, "id", "1");
    UpsertedLookupAt(R, TestFieldMap, smith, "name", "John Smith");
    oldName := Get(c, "name", "John Doe");
    oldEmail := Get(c, "email", "john@example.com");
    byId := Get(c, "id", "1");
    byNewName := Get(c, "name", "John Smith");
  }

  /** An empty field value is never indexed; the other fields are. */
  method EmptyFieldsScenario() returns (byId: Option<TestItem>, byEmptyName: Option<TestItem>, byEmail: Option<TestItem>)
    ensures byEmptyName == None
    ensures byId == byEmail == Some(TestItem("1", "", "john@example.com"))
  {
    var item := TestItem("1", "", "john@example.com");
    var c := NewTestCache();
    c.Upsert(item);
    CoherentNoEmptyKey(c.registries, TestFieldMap, "name");
    UpsertedLookupAt(map[], TestFieldMap, item, "id", "1");
    UpsertedLookupAt(map[], TestFieldMap, item, "email", "john@example.com");
    byId := Get(c, "id", "1");
    byEmptyName := Get(c, "name", "");
    byEmail := Get(c, "email", "john@example.com");
  }

  /** An update that empties the name drops the old name key and indexes the new email. */
  method UpsertWithEmptyUpdateScenario() returns (oldName: Option<TestItem>, emptyName: Option<TestItem>,
                                                  byId: Option<TestItem>, byNewEmail: Option<TestItem>)
    ensures oldName == emptyName == None
    ensures byId == byNewEmail == Some(TestItem("1", "", "new@example.com"))
  {
    var updated := TestItem("1", "", "new@example.com");
    var c := NewTestCache();
    c.Upsert(John);
    ghost var R := c.registries;
    UpsertedLookupAt(map[], TestFieldMap, John, "id", "1");
    assert IsPair(TestFieldMap(John), "id", TestFieldMap(updated)["id"]);
    c.Upsert(updated);
    UpsertedFreesStaleKeys(R, TestFieldMap, updated, "id", "1", "name", "John Doe");
    CoherentNoEmptyKey(c.registries, TestFieldMap, "name");
    UpsertedLookupAt(R, TestFieldMap, updated, "id", "1");
    UpsertedLookupAt(R, TestFieldMap, updated, "email", "new@example.com");
    oldName := Get(c, "name", "John Doe");
    emptyName := Get(c, "name", "");
    byId := Get(c, "id", "1");
    byNewEmail := Get(c, "email", "new@example.com");
  }

  /**
   * Delete trusts the caller's copy of the item: deleting a copy whose email
   * differs from the cached one frees the id but leaves the cached item under
   * its email, so the all-or-none invariant no longer holds.
   */
  method StaleDeleteScenario() returns (byId: Option<TestItem>, byEmail: Option<TestItem>)
    ensures byId == None && byEmail == Some(John)
  {
    var c := NewTestCache();
    c.Upsert(John);
    UpsertedLookupAt(map[], TestFieldMap, John, "id", "1");
    UpsertedLookupAt(map[], TestFieldMap, John, "email", "john@example.com");
    ghost var R := c.registries;
    var stale := TestItem("1", "John Doe", "old@example.com");
    c.Delete(stale);
    LookupWithoutPairsInAt(R, TestFieldMap(stale), TestFieldMap(stale).Keys, "id", "1");
    LookupWithoutPairsInAt(R, TestFieldMap(stale), TestFieldMap(stale).Keys, "email", "john@example.com");
    byId := Get(c, "id", "1");
    byEmail := Get(c, "email", "john@example.com");
  }
}
