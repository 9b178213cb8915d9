/**
 * The behaviour the cache's unit tests pin down, as client methods: each
 * builds a fresh enabled cache, clears it, drives it through the calls the
 * test makes, and promises what the test asserts.
 */
module LayoutValueCacheScenarios {
  import opened Wrappers
  import opened BaseLayoutChain
  import opened LayoutValueCache

  /** One value added to a cleared cache gives exactly one entry. */
  method AddToClearedCache(d: Database, id: ItemId, value: string) returns (count: nat)
    requires !Revisits(d.baseLayouts, id, {})
    ensures count == 1
  {
    var cache := new BaseLayoutValueCache(true, {"master"});
    cache.Clear();
    var added := cache.AddLayoutValue(d, id, value);
    count := cache.Count();
  }

  /** Adding again for the same item replaces the value and keeps the entry count. */
  method AddTwiceUpdatesEntry(d: Database, id: ItemId, value: string, newValue: string)
    returns (initialCount: nat, count: nat, result: Result<Option<string>, CacheError>)
    requires !Revisits(d.baseLayouts, id, {})
    ensures count == initialCount
    ensures result == Success(Some(newValue))
  {
    var cache := new BaseLayoutValueCache(true, {"master"});
    cache.Clear();
    var added := cache.AddLayoutValue(d, id, value);
    initialCount := cache.Count();
    added := cache.AddLayoutValue(d, id, newValue);
    result := cache.GetLayoutValue(d, id);
    count := cache.Count();
  }

  /** Values of two different items of one database are two entries. */
  method AddTwoItems(d: Database, id1: ItemId, id2: ItemId, value1: string, value2: string) returns (count: nat)
    requires id1 != id2
    requires !Revisits(d.baseLayouts, id1, {}) && !Revisits(d.baseLayouts, id2, {})
    ensures count == 2
  {
    var cache := new BaseLayoutValueCache(true, {"master"});
    cache.Clear();
    var added := cache.AddLayoutValue(d, id1, value1);
    added := cache.AddLayoutValue(d, id2, value2);
    count := cache.Count();
  }

  /** The same item ID in two databases gives two entries. */
  method AddSameIdInTwoDatabases(master: Database, web: Database, id: ItemId, value1: string, value2: string)
    returns (count: nat)
    requires master.name != web.name
    requires !Revisits(master.baseLayouts, id, {}) && !Revisits(web.baseLayouts, id, {})
    ensures count == 2
  {
    var cache := new BaseLayoutValueCache(true, {"master"});
    cache.Clear();
    var added := cache.AddLayoutValue(master, id, value1);
    added := cache.AddLayoutValue(web, id, value2);
    count := cache.Count();
  }

  /** A cleared cache holds no value for any item. */
  method GetFromClearedCache(d: Database, id: ItemId) returns (result: Result<Option<string>, CacheError>)
    requires !Revisits(d.baseLayouts, id, {})
    ensures result == Success(None)
  {
    var cache := new BaseLayoutValueCache(true, {"master"});
    cache.Clear();
    result := cache.GetLayoutValue(d, id);
  }

  /** A value just added is the value read back. */
  method GetAfterAdd(d: Database, id: ItemId, value: string) returns (result: Result<Option<string>, CacheError>)
    requires !Revisits(d.baseLayouts, id, {})
    ensures result == Success(Some(value))
  {
    var cache := new BaseLayoutValueCache(true, {"master"});
    cache.Clear();
    var added := cache.AddLayoutValue(d, id, value);
    result := cache.GetLayoutValue(d, id);
  }

  /** An item whose base layout has none: its key starts with the database and ends with the item ID. */
  method KeyOfItemWithBaseLayout(d: Database, item1: ItemId, item2: ItemId) returns (key: Result<CacheKey, CacheError>)
    requires ChainIs(d.baseLayouts, [item2, item1])
    ensures key == Success(CacheKey(d.name, item2))
    ensures d.name <= KeyText(key.value)
    ensures KeyText(key.value)[|KeyText(key.value)| - |item2|..] == item2
  {
    var cache := new BaseLayoutValueCache(false, {"master"});
    ListedChain(d.baseLayouts, [item2, item1]);
    key := cache.GetCacheKey(d, item2);
    KeyTextStartsWithDatabaseEndsWithId(key.value);
  }

  /** An item that is its own base layout has no key. */
  method KeyOfSelfReference(d: Database, id: ItemId) returns (key: Result<CacheKey, CacheError>)
    requires BaseLayout(d.baseLayouts, id) == Some(id)
    ensures key == Failure(CircularReference)
  {
    var cache := new BaseLayoutValueCache(false, {"master"});
    assert RepeatAt(d.baseLayouts, id, {}, 1);
    key := cache.GetCacheKey(d, id);
  }

  /** Two items that are each other's base layout have no key. */
  method KeyInTwoItemCycle(d: Database, id: ItemId, baseId: ItemId) returns (key: Result<CacheKey, CacheError>)
    requires BaseLayout(d.baseLayouts, id) == Some(baseId)
    requires BaseLayout(d.baseLayouts, baseId) == Some(id)
    ensures key == Failure(CircularReference)
  {
    var cache := new BaseLayoutValueCache(false, {"master"});
    assert NodeAt(d.baseLayouts, id, 1) == Some(baseId);
    assert NodeAt(d.baseLayouts, id, 2) == NodeAt(d.baseLayouts, id, 0);
    assert RepeatAt(d.baseLayouts, id, {}, 2);
    key := cache.GetCacheKey(d, id);
  }

  /** Updating an item no cached chain contains removes nothing. */
  method UpdateOfUnrelatedItem(d: Database, f1: ItemId, f2: ItemId, f3: ItemId, other: ItemId, value: string)
    returns (count: nat)
    requires BaseLayout(d.baseLayouts, f1).None? && BaseLayout(d.baseLayouts, f2).None?
    requires BaseLayout(d.baseLayouts, f3).None?
    requires f1 != f2 && f1 != f3 && f2 != f3
    requires other != f1 && other != f2 && other != f3
    ensures count == 3
  {
    var cache := new BaseLayoutValueCache(true, {d.name});
    cache.Clear();
    var g := d.baseLayouts;
    assert !Revisits(g, f1, {}) && !OnChain(g, f1, other) by { ListedChain(g, [f1]); }
    assert !Revisits(g, f2, {}) && !OnChain(g, f2, other) by { ListedChain(g, [f2]); }
    assert !Revisits(g, f3, {}) && !OnChain(g, f3, other) by { ListedChain(g, [f3]); }
    var added := cache.AddLayoutValue(d, f1, value);
    added := cache.AddLayoutValue(d, f2, value);
    added := cache.AddLayoutValue(d, f3, value);
    var k1, k2, k3 := CacheKey(d.name, f1), CacheKey(d.name, f2), CacheKey(d.name, f3);
    assert cache.innerCache == map[k1 := value, k2 := value, k3 := value];
    cache.ProcessItemUpdate(d, other, false);
    assert cache.innerCache == map[k1 := value, k2 := value, k3 := value];
    count := cache.Count();
  }

  /** Updating a cached item removes its entry. */
  method UpdateOfCachedItem(d: Database, f1: ItemId, f2: ItemId, f3: ItemId, value: string)
    returns (count: nat)
    requires BaseLayout(d.baseLayouts, f1).None? && BaseLayout(d.baseLayouts, f2).None?
    requires BaseLayout(d.baseLayouts, f3).None?
    requires f1 != f2 && f1 != f3 && f2 != f3
    ensures count == 2
  {
    var cache := new BaseLayoutValueCache(true, {d.name});
    cache.Clear();
    var g := d.baseLayouts;
    assert !Revisits(g, f1, {}) && !OnChain(g, f1, f3) by { ListedChain(g, [f1]); }
    assert !Revisits(g, f2, {}) && !OnChain(g, f2, f3) by { ListedChain(g, [f2]); }
    assert !Revisits(g, f3, {}) by { ListedChain(g, [f3]); }
    var added := cache.AddLayoutValue(d, f1, value);
    added := cache.AddLayoutValue(d, f2, value);
    added := cache.AddLayoutValue(d, f3, value);
    var k1, k2, k3 := CacheKey(d.name, f1), CacheKey(d.name, f2), CacheKey(d.name, f3);
    assert cache.innerCache == map[k1 := value, k2 := value, k3 := value];
    cache.ProcessItemUpdate(d, f3, false);
    UpdateRemovesOwnEntry(map[k1 := value, k2 := value, k3 := value], d, f3, false);
    assert cache.innerCache == map[k1 := value, k2 := value];
    count := cache.Count();
  }

  /** Updating the base layout of a cached item removes the item's entry. */
  method UpdateOfBaseLayout(d: Database, item: ItemId, baseLayout: ItemId, value: string) returns (count: nat)
    requires ChainIs(d.baseLayouts, [item, baseLayout])
    ensures count == 0
  {
    var cache := new BaseLayoutValueCache(true, {d.name});
    cache.Clear();
    assert !Revisits(d.baseLayouts, item, {}) && OnChain(d.baseLayouts, item, baseLayout) by {
      ListedChain(d.baseLayouts, [item, baseLayout]);
    }
    var added := cache.AddLayoutValue(d, item, value);
    cache.ProcessItemUpdate(d, baseLayout, false);
    assert cache.innerCache == map[];
    count := cache.Count();
  }

  /** Updating an item of one database leaves the entry of the same ID in another database. */
  method UpdateInOneDatabase(master: Database, web: Database, id: ItemId, value: string)
    returns (result: Result<Option<string>, CacheError>, count: nat)
    requires master.name != web.name
    requires !Revisits(master.baseLayouts, id, {}) && !Revisits(web.baseLayouts, id, {})
    ensures result == Success(None)
    ensures count == 1
  {
    var cache := new BaseLayoutValueCache(true, {master.name});
    cache.Clear();
    var added := cache.AddLayoutValue(master, id, value);
    added := cache.AddLayoutValue(web, id, value);
    UpdateRemovesOwnEntry(cache.innerCache, master, id, false);
    cache.ProcessItemUpdate(master, id, false);
    assert cache.innerCache == map[CacheKey(web.name, id) := value];
    result := cache.GetLayoutValue(master, id);
    count := cache.Count();
  }

  /**
   * Updating a standard-values item of "master" empties "master" and leaves
   * the three entries of "web".
   */
  method UpdateOfStandardValues(master: Database, web: Database, m1: ItemId, m2: ItemId, m3: ItemId,
                                w1: ItemId, w2: ItemId, w3: ItemId, standardValues: ItemId, value: string)
    returns (count: nat, masterKeys: set<CacheKey>)
    requires master.name != web.name && ':' !in master.name && ':' !in web.name
    requires m1 != m2 && m1 != m3 && m2 != m3 && w1 != w2 && w1 != w3 && w2 != w3
    requires !Revisits(master.baseLayouts, m1, {}) && !Revisits(master.baseLayouts, m2, {})
    requires !Revisits(master.baseLayouts, m3, {})
    requires !Revisits(web.baseLayouts, w1, {}) && !Revisits(web.baseLayouts, w2, {})
    requires !Revisits(web.baseLayouts, w3, {})
    ensures count == 3
    ensures masterKeys == {}
  {
    var cache := new BaseLayoutValueCache(true, {master.name});
    cache.Clear();
    AddThree(cache, master, m1, m2, m3, value);
    AddThree(cache, web, w1, w2, w3, value);
    FlushLeavesOtherDatabase(master, web, m1, m2, m3, w1, w2, w3, standardValues, value);
    cache.ProcessItemUpdate(master, standardValues, true);
    count := cache.Count();
    masterKeys := cache.CacheKeys(master.name + ":");
  }

  /** Caches one value for each of three items of `d`. */
  method AddThree(cache: BaseLayoutValueCache, d: Database, a: ItemId, b: ItemId, c: ItemId, value: string)
    requires cache.enabled
    requires !Revisits(d.baseLayouts, a, {}) && !Revisits(d.baseLayouts, b, {}) && !Revisits(d.baseLayouts, c, {})
    modifies cache
    ensures cache.enabled
    ensures cache.innerCache ==
      old(cache.innerCache)[CacheKey(d.name, a) := value][CacheKey(d.name, b) := value][CacheKey(d.name, c) := value]
  {
    var added := cache.AddLayoutValue(d, a, value);
    added := cache.AddLayoutValue(d, b, value);
    added := cache.AddLayoutValue(d, c, value);
  }

  /**
   * Flushing "master" from the six entries the scenario adds leaves the three
   * entries of "web", none of which is listed under the prefix "master:".
   */
  lemma FlushLeavesOtherDatabase(master: Database, web: Database, m1: ItemId, m2: ItemId, m3: ItemId,
                                 w1: ItemId, w2: ItemId, w3: ItemId, standardValues: ItemId, value: string)
    requires master.name != web.name && ':' !in master.name && ':' !in web.name
    requires w1 != w2 && w1 != w3 && w2 != w3
    ensures var six := map[][CacheKey(master.name, m1) := value][CacheKey(master.name, m2) := value]
                            [CacheKey(master.name, m3) := value][CacheKey(web.name, w1) := value]
                            [CacheKey(web.name, w2) := value][CacheKey(web.name, w3) := value];
            var left := AfterItemUpdate(six, master, standardValues, true);
            |left| == 3 && (set key | key in left && master.name + ":" <= KeyText(key)) == {}
  {
    var m1k, m2k, m3k := CacheKey(master.name, m1), CacheKey(master.name, m2), CacheKey(master.name, m3);
    var w1k, w2k, w3k := CacheKey(web.name, w1), CacheKey(web.name, w2), CacheKey(web.name, w3);
    var masterEntries := map[m1k := value, m2k := value, m3k := value];
    var webEntries := map[w1k := value, w2k := value, w3k := value];
    var six := map[][m1k := value][m2k := value][m3k := value][w1k := value][w2k := value][w3k := value];
    assert six == masterEntries + webEntries by { SixUpdatesAsUnion(m1k, m2k, m3k, w1k, w2k, w3k, value); }
    assert AfterItemUpdate(six, master, standardValues, true) == webEntries by {
      FlushKeepsOtherDatabases(masterEntries, webEntries, master, standardValues);
    }
    assert |webEntries| == 3 by { ThreeEntriesCount(w1k, w2k, w3k, value); }
    NoKeysUnderPrefix(webEntries, master.name);
  }

  /** The six single-entry updates of the standard-values test, as the union of the two databases' entries. */
  lemma SixUpdatesAsUnion(m1k: CacheKey, m2k: CacheKey, m3k: CacheKey,
                           w1k: CacheKey, w2k: CacheKey, w3k: CacheKey, value: string)
    ensures map[][m1k := value][m2k := value][m3k := value][w1k := value][w2k := value][w3k := value]
         == map[m1k := value, m2k := value, m3k := value] + map[w1k := value, w2k := value, w3k := value]
  {
  }

  /** Three distinct keys give a map of three entries. */
  lemma ThreeEntriesCount(k1: CacheKey, k2: CacheKey, k3: CacheKey, value: string)
    requires k1 != k2 && k1 != k3 && k2 != k3
    ensures |map[k1 := value, k2 := value, k3 := value]| == 3
  {
  }

  /** No key of a map without entries of database `db` is listed under the prefix "<db>:". */
  lemma NoKeysUnderPrefix(entries: map<CacheKey, string>, db: DbName)
    requires ':' !in db
    requires forall key :: key in entries ==> key.db != db && ':' !in key.db
    ensures (set key | key in entries && db + ":" <= KeyText(key)) == {}
  {
    forall key | key in entries ensures !(db + ":" <= KeyText(key)) {
      DatabasePrefixSelectsDatabase(key, db);
    }
  }

  /**
   * Two chains of five items in "master": i4 -> i3 -> i2 -> i1 -> i0 and
   * i9 -> i8 -> i7 -> i6 -> i5, each item based on the one created before it.
   */
  function TwoChains(): (d: Database)
  {
    Database("master", map["i0" := None, "i1" := Some("i0"), "i2" := Some("i1"), "i3" := Some("i2"),
                           "i4" := Some("i3"), "i5" := None, "i6" := Some("i5"), "i7" := Some("i6"),
                           "i8" := Some("i7"), "i9" := Some("i8")])
  }

  /** The entries of all ten items, one value each. */
  function TenEntries(value: string): (r: map<CacheKey, string>)
  {
    map[CacheKey("master", "i0") := value, CacheKey("master", "i1") := value, CacheKey("master", "i2") := value,
        CacheKey("master", "i3") := value, CacheKey("master", "i4") := value, CacheKey("master", "i5") := value,
        CacheKey("master", "i6") := value, CacheKey("master", "i7") := value, CacheKey("master", "i8") := value,
        CacheKey("master", "i9") := value]
  }

  /** The entries left by the sweep for i2: those of i0, i1 and the whole second chain. */
  function SevenEntries(value: string): (r: map<CacheKey, string>)
  {
    map[CacheKey("master", "i0") := value, CacheKey("master", "i1") := value,
        CacheKey("master", "i5") := value, CacheKey("master", "i6") := value,
        CacheKey("master", "i7") := value, CacheKey("master", "i8") := value,
        CacheKey("master", "i9") := value]
  }

  /** The sweep's result once it is known which of the ten chains contain i2. */
  lemma TenEntriesSweep(value: string, g: BaseLayouts)
    requires !OnChain(g, "i0", "i2") && !OnChain(g, "i1", "i2")
    requires OnChain(g, "i2", "i2") && OnChain(g, "i3", "i2") && OnChain(g, "i4", "i2")
    requires !OnChain(g, "i5", "i2") && !OnChain(g, "i6", "i2") && !OnChain(g, "i7", "i2")
    requires !OnChain(g, "i8", "i2") && !OnChain(g, "i9", "i2")
    ensures AfterItemUpdate(TenEntries(value), Database("master", g), "i2", false) == SevenEntries(value)
    ensures |SevenEntries(value)| == 7
  {
    var removed := {CacheKey("master", "i2"), CacheKey("master", "i3"), CacheKey("master", "i4")};
    assert AfterItemUpdate(TenEntries(value), Database("master", g), "i2", false) == TenEntries(value) - removed by {
      SweepRemovesExactly(TenEntries(value), Database("master", g), "i2", removed);
    }
    assert TenEntries(value) - removed == SevenEntries(value) by { TenWithoutThree(value); }
    SevenEntriesCount(value);
  }

  /** Removing the keys of i2, i3 and i4 from the ten entries leaves the seven others. */
  lemma TenWithoutThree(value: string)
    ensures TenEntries(value) - {CacheKey("master", "i2"), CacheKey("master", "i3"), CacheKey("master", "i4")}
         == SevenEntries(value)
  {
  }

  /** The seven remaining entries have seven distinct keys. */
  lemma SevenEntriesCount(value: string)
    ensures |SevenEntries(value)| == 7
  {
  }

  /** The lower part of the first chain, i2 -> i1 -> i0, has no circular reference and only i2 contains i2. */
  lemma LowerChainFacts()
    ensures var g := TwoChains().baseLayouts;
      !Revisits(g, "i0", {}) && !Revisits(g, "i1", {}) && !Revisits(g, "i2", {}) &&
      !OnChain(g, "i0", "i2") && !OnChain(g, "i1", "i2") && OnChain(g, "i2", "i2")
  {
    var g := TwoChains().baseLayouts;
    assert !Revisits(g, "i0", {}) && !OnChain(g, "i0", "i2") by { ListedChain(g, ["i0"]); }
    assert !Revisits(g, "i1", {}) && !OnChain(g, "i1", "i2") by { ListedChain(g, ["i1", "i0"]); }
    assert !Revisits(g, "i2", {}) by { ListedChain(g, ["i2", "i1", "i0"]); }
    assert NodeAt(g, "i2", 0) == Some("i2");
  }

  /** The items i3 and i4, based on i2, have no circular reference and contain i2. */
  lemma UpperChainFacts()
    ensures var g := TwoChains().baseLayouts;
      !Revisits(g, "i3", {}) && !Revisits(g, "i4", {}) && OnChain(g, "i3", "i2") && OnChain(g, "i4", "i2")
  {
    var g := TwoChains().baseLayouts;
    assert !Revisits(g, "i3", {}) && OnChain(g, "i3", "i2") by { ListedChain(g, ["i3", "i2", "i1", "i0"]); }
    assert !Revisits(g, "i4", {}) && OnChain(g, "i4", "i2") by { ListedChain(g, ["i4", "i3", "i2", "i1", "i0"]); }
  }

  /** The second chain has no circular reference and does not contain i2. */
  lemma SecondChainFacts()
    ensures var g := TwoChains().baseLayouts;
      !Revisits(g, "i5", {}) && !Revisits(g, "i6", {}) && !Revisits(g, "i7", {}) &&
      !Revisits(g, "i8", {}) && !Revisits(g, "i9", {}) &&
      !OnChain(g, "i5", "i2") && !OnChain(g, "i6", "i2") && !OnChain(g, "i7", "i2") &&
      !OnChain(g, "i8", "i2") && !OnChain(g, "i9", "i2")
  {
    var g := TwoChains().baseLayouts;
    assert !Revisits(g, "i5", {}) && !OnChain(g, "i5", "i2") by { ListedChain(g, ["i5"]); }
    assert !Revisits(g, "i6", {}) && !OnChain(g, "i6", "i2") by { ListedChain(g, ["i6", "i5"]); }
    assert !Revisits(g, "i7", {}) && !OnChain(g, "i7", "i2") by { ListedChain(g, ["i7", "i6", "i5"]); }
    assert !Revisits(g, "i8", {}) && !OnChain(g, "i8", "i2") by { ListedChain(g, ["i8", "i7", "i6", "i5"]); }
    assert !Revisits(g, "i9", {}) && !OnChain(g, "i9", "i2") by { ListedChain(g, ["i9", "i8", "i7", "i6", "i5"]); }
  }

  /** Updating i2 removes i2 and the two items based on it, i3 and i4, and nothing else: 7 of 10 remain. */
  lemma TwoChainsSweep(value: string)
    ensures AfterItemUpdate(TenEntries(value), TwoChains(), "i2", false) == SevenEntries(value)
    ensures |SevenEntries(value)| == 7
  {
    LowerChainFacts();
    UpperChainFacts();
    SecondChainFacts();
    TenEntriesSweep(value, TwoChains().baseLayouts);
  }

  /** The ten-item test: cache every item of both chains, update i2, and 7 entries remain. */
  method UpdateInsideChain(value: string) returns (count: nat)
    ensures count == 7
  {
    var d := TwoChains();
    var cache := new BaseLayoutValueCache(true, {"master"});
    cache.Clear();
    LowerChainFacts();
    UpperChainFacts();
    SecondChainFacts();
    var added := cache.AddLayoutValue(d, "i0", value);
    added := cache.AddLayoutValue(d, "i1", value);
    added := cache.AddLayoutValue(d, "i2", value);
    added := cache.AddLayoutValue(d, "i3", value);
    added := cache.AddLayoutValue(d, "i4", value);
    added := cache.AddLayoutValue(d, "i5", value);
    added := cache.AddLayoutValue(d, "i6", value);
    added := cache.AddLayoutValue(d, "i7", value);
    added := cache.AddLayoutValue(d, "i8", value);
    added := cache.AddLayoutValue(d, "i9", value);
    assert cache.innerCache == TenEntries(value);
    cache.ProcessItemUpdate(d, "i2", false);
    TwoChainsSweep(value);
    count := cache.Count();
  }
}
