/**
 * The cache of resolved layout values (BaseLayoutValueCache).
 *
 * Entries are keyed per database and item. A key is computed only for an
 * item whose base-layout chain has no circular reference, so a value is never
 * cached for an item whose inheritance is broken. An item update removes the
 * entries of the updated item's database that depend on it: the entry of the
 * item itself and those of items that have it anywhere in their chain. An
 * update of a standard-values item removes every entry of its database.
 */
module LayoutValueCache {
  import opened Wrappers
  import opened BaseLayoutChain
  import BaseLayoutValidator

  type DbName = string

  /** A database as the cache sees it: its name and its base-layout table. */
  datatype Database = Database(name: DbName, baseLayouts: BaseLayouts)

  /** The key of one cache entry: the database and the item the value was resolved for. */
  datatype CacheKey = CacheKey(db: DbName, id: ItemId)

  /** Raised when an item's base-layout chain meets an item twice. */
  datatype CacheError = CircularReference

  /** The text form of a key: the database name, a colon, the item ID. */
  function KeyText(key: CacheKey): (r: string)
  {
    key.db + ":" + key.id
  }

  /** A key's text starts with the database name and ends with the item ID. */
  lemma KeyTextStartsWithDatabaseEndsWithId(key: CacheKey)
    ensures key.db <= KeyText(key)
    ensures |KeyText(key)| >= |key.id| && KeyText(key)[|KeyText(key)| - |key.id|..] == key.id
  {
    var s := KeyText(key);
    assert s[|s| - |key.id|..] == key.id;
  }

  /** The text `x:y` holds `x` first and the separator right after it. */
  lemma SeparatorAt(x: string, y: string)
    ensures (x + ":" + y)[|x|] == ':'
    ensures forall i :: 0 <= i < |x| ==> (x + ":" + y)[i] == x[i]
  {
  }

  /** Database names never contain the key separator, so text keys of different entries differ. */
  lemma KeyTextInjective(a: CacheKey, b: CacheKey)
    requires ':' !in a.db && ':' !in b.db
    requires KeyText(a) == KeyText(b)
    ensures a == b
  {
    var s := KeyText(a);
    if |a.db| == |b.db| {
      assert a.db == s[..|a.db|] == b.db;
      assert a.id == s[|a.db| + 1..] == b.id;
    } else if |a.db| < |b.db| {
      SeparatorAt(a.db, a.id);
      SeparatorAt(b.db, b.id);
      assert false;
    } else {
      SeparatorAt(a.db, a.id);
      SeparatorAt(b.db, b.id);
      assert false;
    }
  }

  /** The keys listed under the prefix "<database>:" are exactly the keys of that database. */
  lemma DatabasePrefixSelectsDatabase(key: CacheKey, db: DbName)
    requires ':' !in key.db && ':' !in db
    ensures db + ":" <= KeyText(key) <==> key.db == db
  {
    var s := KeyText(key);
    if db + ":" <= s {
      if |key.db| == |db| {
        assert key.db == s[..|db|] == db;
      } else if |key.db| < |db| {
        SeparatorAt(key.db, key.id);
        assert false;
      } else {
        SeparatorAt(key.db, key.id);
        SeparatorAt(db, "");
        assert false;
      }
    }
  }

  /** The entry under `key` depends on item `id` of database `d`: same database, and `id` is on its item's chain. */
  ghost predicate DependsOn(key: CacheKey, d: Database, id: ItemId)
  {
    key.db == d.name && OnChain(d.baseLayouts, key.id, id)
  }

  /** The entries left after an update of item `id` of `d` is processed. */
  ghost function AfterItemUpdate(entries: map<CacheKey, string>, d: Database, id: ItemId, isStandardValues: bool)
    : (r: map<CacheKey, string>)
  {
    if isStandardValues then
      map key | key in entries && key.db != d.name :: entries[key]
    else
      map key | key in entries && !DependsOn(key, d, id) :: entries[key]
  }

  /** Processing an update only removes entries; what stays keeps its value. */
  lemma UpdateOnlyRemoves(entries: map<CacheKey, string>, d: Database, id: ItemId, isStandardValues: bool)
    ensures AfterItemUpdate(entries, d, id, isStandardValues).Keys <= entries.Keys
    ensures forall key :: key in AfterItemUpdate(entries, d, id, isStandardValues) ==>
      AfterItemUpdate(entries, d, id, isStandardValues)[key] == entries[key]
  {
  }

  /** Entries of other databases survive any update, even under the same item ID. */
  lemma UpdateKeepsOtherDatabases(entries: map<CacheKey, string>, d: Database, id: ItemId, isStandardValues: bool)
    ensures forall key :: key in entries && key.db != d.name ==>
      key in AfterItemUpdate(entries, d, id, isStandardValues)
  {
  }

  /** An ordinary update keeps every entry whose chain does not contain the updated item. */
  lemma UpdateKeepsUnrelated(entries: map<CacheKey, string>, d: Database, id: ItemId, key: CacheKey)
    requires key in entries
    requires key.db == d.name ==> forall n: nat :: NodeAt(d.baseLayouts, key.id, n) != Some(id)
    ensures key in AfterItemUpdate(entries, d, id, false)
  {
  }

  /**
   * Invalidation is transitive: an entry goes when the updated item is its
   * own item or any item further along its chain, however far.
   */
  lemma UpdateRemovesDependents(entries: map<CacheKey, string>, d: Database, id: ItemId, isStandardValues: bool,
                                key: CacheKey, n: nat)
    requires key.db == d.name && NodeAt(d.baseLayouts, key.id, n) == Some(id)
    ensures key !in AfterItemUpdate(entries, d, id, isStandardValues)
  {
    assert DependsOn(key, d, id);
  }

  /** The updated item's own entry is always removed. */
  lemma UpdateRemovesOwnEntry(entries: map<CacheKey, string>, d: Database, id: ItemId, isStandardValues: bool)
    ensures CacheKey(d.name, id) !in AfterItemUpdate(entries, d, id, isStandardValues)
  {
    UpdateRemovesDependents(entries, d, id, isStandardValues, CacheKey(d.name, id), 0);
  }

  /** A standard-values update leaves no entry of its database and every entry of the others. */
  lemma StandardValuesFlushesDatabase(entries: map<CacheKey, string>, d: Database, id: ItemId)
    ensures forall key :: key in AfterItemUpdate(entries, d, id, true) <==> key in entries && key.db != d.name
  {
  }

  /** A standard-values update keeps exactly the entries of the other databases. */
  lemma FlushKeepsOtherDatabases(own: map<CacheKey, string>, others: map<CacheKey, string>, d: Database, id: ItemId)
    requires forall key :: key in own ==> key.db == d.name
    requires forall key :: key in others ==> key.db != d.name
    ensures AfterItemUpdate(own + others, d, id, true) == others
  {
  }

  /** An ordinary update removes exactly the entries that depend on the updated item. */
  lemma SweepRemovesExactly(entries: map<CacheKey, string>, d: Database, id: ItemId, removed: set<CacheKey>)
    requires forall key :: key in entries ==> (DependsOn(key, d, id) <==> key in removed)
    ensures AfterItemUpdate(entries, d, id, false) == entries - removed
  {
  }

  /** Processing the same update twice removes nothing more than processing it once. */
  lemma UpdateIdempotent(entries: map<CacheKey, string>, d: Database, id: ItemId, isStandardValues: bool)
    ensures AfterItemUpdate(AfterItemUpdate(entries, d, id, isStandardValues), d, id, isStandardValues)
         == AfterItemUpdate(entries, d, id, isStandardValues)
  {
  }

  /**
   * Walks the chain from `start` looking for `target`, and stops at the end of
   * the chain or at the first item met twice: a broken chain ends the walk
   * instead of failing it.
   */
  method ChainContains(g: BaseLayouts, start: ItemId, target: ItemId) returns (found: bool)
    ensures found <==> OnChain(g, start, target)
  {
    var visited: set<ItemId> := {};
    var current := start;
    ghost var k: nat := 0;
    ghost var universe := Universe(g, start);
    while true
      invariant NodeAt(g, start, k) == Some(current)
      invariant current in universe
      invariant visited == Visited(g, start, k)
      invariant forall j :: 0 <= j < k ==> NodeAt(g, start, j) != Some(target)
      decreases universe - visited
    {
      if current == target {
        return true;
      }
      if current in visited {
        NotOnCycledChain(g, start, target, k);
        return false;
      }
      VisitedStep(g, start, k);
      visited := visited + {current};
      var next := BaseLayout(g, current);
      if next.None? {
        NotOnEndedChain(g, start, target, k);
        return false;
      }
      current := next.value;
      k := k + 1;
    }
  }

  class BaseLayoutValueCache {
    /** Whether values are stored, served and invalidated at all. */
    var enabled: bool
    /** The databases whose item updates are processed. */
    const databases: set<DbName>
    /** The stored values. */
    var innerCache: map<CacheKey, string>

    constructor (enabled: bool, databases: set<DbName>)
      ensures this.enabled == enabled && this.databases == databases
      ensures innerCache == map[]
    {
      this.enabled := enabled;
      this.databases := databases;
      innerCache := map[];
    }

    /** The number of stored entries (InnerCache.Count). */
    function Count(): (n: nat)
      reads this
      ensures n == 0 <==> innerCache == map[]
      ensures forall key :: key in innerCache ==> n >= 1
    {
      |innerCache|
    }

    /**
     * The stored keys whose text starts with `prefix` (InnerCache.GetCacheKeys).
     * The empty prefix lists every stored key.
     */
    function CacheKeys(prefix: string): (r: set<CacheKey>)
      reads this
      ensures r <= innerCache.Keys
      ensures prefix == [] ==> r == innerCache.Keys
    {
      set key | key in innerCache && prefix <= KeyText(key)
    }

    /**
     * The key of `id` in `d`. Computing it walks the item's whole chain and
     * fails if the chain has a circular reference; it does not depend on
     * whether the cache is enabled.
     */
    method GetCacheKey(d: Database, id: ItemId) returns (r: Result<CacheKey, CacheError>)
      ensures r.Failure? <==> Revisits(d.baseLayouts, id, {})
      ensures r.Failure? ==> r.error == CircularReference
      ensures r.Success? ==> r.value.db == d.name && r.value.id == id
    {
      var circular := BaseLayoutValidator.HasCircularBaseLayoutReference(d.baseLayouts, id);
      if circular {
        return Failure(CircularReference);
      }
      return Success(CacheKey(d.name, id));
    }

    /** The stored value of `id` in `d`; nothing when the cache is disabled or holds no value. */
    method GetLayoutValue(d: Database, id: ItemId) returns (r: Result<Option<string>, CacheError>)
      ensures !enabled ==> r == Success(None)
      ensures enabled ==> (r.Failure? <==> Revisits(d.baseLayouts, id, {}))
      ensures enabled && r.Success? ==>
        r.value == if CacheKey(d.name, id) in innerCache then Some(innerCache[CacheKey(d.name, id)]) else None
    {
      if !enabled {
        return Success(None);
      }
      var key := GetCacheKey(d, id);
      if key.Failure? {
        return Failure(key.error);
      }
      if key.value in innerCache {
        return Success(Some(innerCache[key.value]));
      }
      return Success(None);
    }

    /** Stores `value` for `id` in `d`, replacing any value stored for it before. */
    method AddLayoutValue(d: Database, id: ItemId, value: string) returns (r: Outcome<CacheError>)
      modifies this
      ensures enabled == old(enabled)
      ensures r.Fail? <==> enabled && Revisits(d.baseLayouts, id, {})
      ensures innerCache ==
        if enabled && !Revisits(d.baseLayouts, id, {}) then old(innerCache)[CacheKey(d.name, id) := value]
        else old(innerCache)
    {
      if !enabled {
        return Pass;
      }
      var key := GetCacheKey(d, id);
      if key.Failure? {
        return Fail(key.error);
      }
      innerCache := innerCache[key.value := value];
      return Pass;
    }

    /** Removes every entry, whether or not the cache is enabled. */
    method Clear()
      modifies this
      ensures enabled == old(enabled)
      ensures innerCache == map[]
    {
      innerCache := map[];
    }

    /**
     * Invalidation after item `id` of `d` changed. Nothing happens when the
     * cache is disabled or `d` is not one of its databases. A standard-values
     * item flushes its whole database; any other item removes the entries of
     * its database whose chains contain it.
     */
    method ProcessItemUpdate(d: Database, id: ItemId, isStandardValues: bool)
      modifies this
      ensures enabled == old(enabled)
      ensures innerCache ==
        if enabled && d.name in databases then AfterItemUpdate(old(innerCache), d, id, isStandardValues)
        else old(innerCache)
    {
      if !enabled || d.name !in databases {
        return;
      }
      if isStandardValues {
        innerCache := map key | key in innerCache && key.db != d.name :: innerCache[key];
        return;
      }
      ghost var before := innerCache;
      var pending := innerCache.Keys;
      while pending != {}
        invariant enabled == old(enabled)
        invariant pending <= before.Keys
        invariant innerCache == map key | key in before && (key in pending || !DependsOn(key, d, id)) :: before[key]
        decreases pending
      {
        var key :| key in pending;
        if key.db == d.name {
          var hit := ChainContains(d.baseLayouts, key.id, id);
          if hit {
            innerCache := innerCache - {key};
          }
        }
        pending := pending - {key};
      }
    }
  }

  /**
   * Listing by the prefix "<db>:" gives exactly the stored keys of database
   * `db`, as long as no database name holds the separator.
   */
  lemma CacheKeysSelectDatabase(cache: BaseLayoutValueCache, db: DbName)
    requires ':' !in db
    requires forall key :: key in cache.innerCache ==> ':' !in key.db
    ensures cache.CacheKeys(db + ":") == set key | key in cache.innerCache && key.db == db
  {
    forall key | key in cache.innerCache ensures db + ":" <= KeyText(key) <==> key.db == db {
      DatabasePrefixSelectsDatabase(key, db);
    }
  }

  /** A prefix that extends another lists no more keys than it. */
  lemma CacheKeysNarrow(cache: BaseLayoutValueCache, prefix: string, longer: string)
    requires prefix <= longer
    ensures cache.CacheKeys(longer) <= cache.CacheKeys(prefix)
  {
    forall key | key in cache.CacheKeys(longer) ensures prefix <= KeyText(key) {
      assert longer <= KeyText(key);
      assert prefix == longer[..|prefix|] == KeyText(key)[..|prefix|];
    }
  }
}
