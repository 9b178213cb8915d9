# Base layouts: chain validation and the layout value cache

A Sitecore item may name another item as its *base layout*. It then inherits that
item's presentation details, and so on transitively up a chain of base layouts.
This project models the two parts of the Sitecore.BaseLayouts module that make
that chain safe to use:

- **The base-layout validator** (`BaseLayoutValidator`).
  - It walks an item's chain with a set of IDs seen so far, and reports a duplicate as soon as an ID repeats.
  - `HasCircularBaseLayoutReference` starts the walk with an empty set.
  - `CreatesCircularBaseLayoutReference` asks whether pointing `item` at a candidate would close a loop. It starts the walk at the candidate, with the set pre-seeded with `item`'s ID. It first insists that `item` has a Base Layout field.
- **The layout value cache** (`BaseLayoutValueCache`).
  - It stores resolved layout values per database and item.
  - An item's key is computed only after its chain has been walked and found free of circular references.
  - Processing an item update removes the entries of that database whose chains contain the updated item.
  - An update of a standard-values item flushes the whole database.

The data model:

- `BaseLayoutChain.BaseLayouts` is one database's base-layout table: `map<ItemId, Option<ItemId>>`.
- `BaseLayoutChain.NodeAt(g, start, k)` is the k-th item on the chain from `start`.
- A reference to an ID the table does not hold resolves to "no base layout", as Sitecore returns `null` for a missing item.
- The chain is described by three predicates:
  - `RepeatAt(g, start, seed, k)`: the k-th item of the chain is in `seed` or occurred earlier on the chain.
  - `Revisits(g, start, seed)`: such a k exists.
  - `OnChain(g, start, t)`: `t` occurs on the chain.
- The cache is a class, with fields `enabled`, `databases` and `innerCache: map<CacheKey, string>`.
- The text form of a key is `db + ":" + id`.

Files:

| file | module | contents |
|---|---|---|
| `wrappers.dfy` | `Wrappers` | `Option`, `Result`, `Outcome` |
| `base_layout_chain.dfy` | `BaseLayoutChain` | the chain, the repeat predicates and their lemmas (termination by pigeonhole, circular iff endless, the seeded walk) |
| `base_layout_validator.dfy` | `BaseLayoutValidator` | the three validator methods and the lemma that says what the seeded walk decides |
| `layout_value_cache.dfy` | `LayoutValueCache` | keys, the invalidation function `AfterItemUpdate`, the chain search used by the sweep, and the cache class |
| `cache_scenarios.dfy` | `LayoutValueCacheScenarios` | the cache's unit tests, each written as a method whose `ensures` is the test's assertion |

The source of `BaseLayoutValueCache` is not part of this model. Its behaviour is
taken from the unit tests in
`Sitecore.BaseLayouts.Tests/Caching/LayoutValueCacheTests.cs`. The choices the
tests leave open are listed under "## Left out".

## Model

| member | source | states |
|---|---|---|
| BaseLayoutValidator.HasDuplicateBaseLayout | Sitecore.BaseLayouts/BaseLayoutValidator.cs:49-64 | The do-while walk with the growing ID set returns true exactly when some item of the chain is already in the seed set or earlier on the chain (`Revisits`), and false when the chain ends first. It always terminates: the set grows on every step within the table's IDs. |
| BaseLayoutValidator.HasCircularBaseLayoutReference | Sitecore.BaseLayouts/BaseLayoutValidator.cs:20-24 | The walk with an empty seed reports a circular reference exactly when the chain revisits an item, which holds exactly when the chain never ends. |
| BaseLayoutValidator.CreatesCircularBaseLayoutReference | Sitecore.BaseLayouts/BaseLayoutValidator.cs:33-41 | It fails with an argument error exactly when `item` has no Base Layout field. Otherwise it succeeds, with true exactly when `item` is on the candidate's chain or the candidate's chain is already circular. |
| BaseLayoutValidator.SelfCandidateIsCircular | Sitecore.BaseLayouts/BaseLayoutValidator.cs:40 | Choosing an item as its own base layout is always reported as circular, because the walk starts at an ID already in the seed set. |
| BaseLayoutValidator.NewLinkClosesLoop | Sitecore.BaseLayouts/BaseLayoutValidator.cs:26-41 | For items in the table, the seeded walk from the candidate revisits an ID exactly when the table with the new link `item -> candidate` has a circular chain at `item`. The pre-commit check therefore answers the question it is documented to answer. |
| BaseLayoutValidator.RedirectedChain | Sitecore.BaseLayouts/BaseLayoutValidator.cs:26-41 | After linking `item` to the candidate, the chain from `item` is `item` followed by the candidate's chain, up to the first point where that chain reaches `item`. |
| BaseLayoutChain.NoRevisitEnds | Sitecore.BaseLayouts/BaseLayoutValidator.cs:52-61 | A chain that never revisits has distinct items, none of them in the seed, and it has ended after as many steps as there are IDs in the table plus the start. |
| BaseLayoutChain.CircularIffEndless | Sitecore.BaseLayouts/BaseLayoutValidator.cs:20-24 | A chain revisits an item exactly when it never reaches an item without a base layout. |
| BaseLayoutChain.SeededRevisits | Sitecore.BaseLayouts/BaseLayoutValidator.cs:40 | The walk seeded with one ID revisits exactly when that ID is on the chain or the chain revisits without the seed. |
| BaseLayoutChain.StartInSeedRevisits | Sitecore.BaseLayouts/BaseLayoutValidator.cs:54-57 | A start item already in the seed set is reported as a duplicate. |
| BaseLayoutChain.RepeatIffSeen | Sitecore.BaseLayouts/BaseLayoutValidator.cs:54 | `HashSet.Add` failing at step k (the ID is in the seed or among the IDs added so far) is exactly `RepeatAt` at k. |
| BaseLayoutChain.EndWithoutRepeat | Sitecore.BaseLayouts/BaseLayoutValidator.cs:59-63 | A chain that ends with no repeat on the way does not revisit at all. |
| BaseLayoutChain.VisitedStep | Sitecore.BaseLayouts/BaseLayoutValidator.cs:54 | The set of IDs seen after k+1 steps is the set after k steps plus the k-th item. |
| BaseLayoutChain.VisitedCount | Sitecore.BaseLayouts/BaseLayoutValidator.cs:52-61 | As long as no step repeats, the walk has seen exactly k distinct IDs after k steps. |
| BaseLayoutChain.EndedStaysEnded | Sitecore.BaseLayouts/BaseLayoutValidator.cs:61 | Once the chain reaches an item without a base layout, it stays ended. |
| BaseLayoutChain.SameSuccessors | Sitecore.BaseLayouts/BaseLayoutValidator.cs:59 | Two positions holding the same item are followed by the same items. |
| BaseLayoutChain.CycleCovers | Sitecore.BaseLayouts/BaseLayoutValidator.cs:52-61 | After a repeat between positions j and k, every later item is one of the items at positions j up to k. |
| BaseLayoutChain.NotOnEndedChain | Sitecore.BaseLayouts/BaseLayoutValidator.cs:59-61 | A target not met before the chain ends is not on the chain. |
| BaseLayoutChain.NotOnCycledChain | Sitecore.BaseLayouts/BaseLayoutValidator.cs:54-57 | A target not met before the first repeat is not on the chain. |
| BaseLayoutChain.ListedChain | Sitecore.BaseLayouts.Tests/Caching/LayoutValueCacheTests.cs:268-278 | A chain given as a list of items ending in one without a base layout does not revisit, and holds exactly the listed items. |
| BaseLayoutChain.ChainIsNodes | Sitecore.BaseLayouts.Tests/Caching/LayoutValueCacheTests.cs:268-278 | For such a listed chain, the k-th item is the k-th list element, and nothing once the list is exhausted. |
| LayoutValueCache.KeyTextStartsWithDatabaseEndsWithId | Sitecore.BaseLayouts.Tests/Caching/LayoutValueCacheTests.cs:122-149 | Every key's text starts with the database name and ends with the item ID. |
| LayoutValueCache.KeyTextInjective | Sitecore.BaseLayouts.Tests/Caching/LayoutValueCacheTests.cs:66-87 | For database names without a colon, two keys with the same text are the same key, so the same ID in two databases gives two entries. |
| LayoutValueCache.DatabasePrefixSelectsDatabase | Sitecore.BaseLayouts.Tests/Caching/LayoutValueCacheTests.cs:323 | For database names without a colon, a key's text starts with `db + ":"` exactly when the key belongs to `db`. This is what `GetCacheKeys("master:")` relies on. |
| LayoutValueCache.UpdateOnlyRemoves | Sitecore.BaseLayouts.Tests/Caching/LayoutValueCacheTests.cs:177-195 | Processing an update only removes entries, and every remaining entry keeps its value. |
| LayoutValueCache.UpdateKeepsOtherDatabases | Sitecore.BaseLayouts.Tests/Caching/LayoutValueCacheTests.cs:235-259 | Entries of other databases survive any update. |
| LayoutValueCache.UpdateKeepsUnrelated | Sitecore.BaseLayouts.Tests/Caching/LayoutValueCacheTests.cs:177-195 | An entry whose chain does not contain the updated item survives an ordinary update. |
| LayoutValueCache.UpdateRemovesDependents | Sitecore.BaseLayouts.Tests/Caching/LayoutValueCacheTests.cs:218-233 | An entry of the same database whose chain contains the updated item is removed. |
| LayoutValueCache.UpdateRemovesOwnEntry | Sitecore.BaseLayouts.Tests/Caching/LayoutValueCacheTests.cs:197-216 | The updated item's own entry is always removed. |
| LayoutValueCache.StandardValuesFlushesDatabase | Sitecore.BaseLayouts.Tests/Caching/LayoutValueCacheTests.cs:287-324 | A standard-values update keeps exactly the entries of other databases. |
| LayoutValueCache.FlushKeepsOtherDatabases | Sitecore.BaseLayouts.Tests/Caching/LayoutValueCacheTests.cs:287-324 | Flushing a database from its own entries joined with other databases' entries leaves exactly the other databases' entries. |
| LayoutValueCache.SweepRemovesExactly | Sitecore.BaseLayouts.Tests/Caching/LayoutValueCacheTests.cs:261-285 | An ordinary update removes exactly the set of entries that depend on the item. |
| LayoutValueCache.UpdateIdempotent | Sitecore.BaseLayouts.Tests/Caching/LayoutValueCacheTests.cs:177-285 | Processing the same update twice leaves the same entries as processing it once. |
| LayoutValueCache.ChainContains | Sitecore.BaseLayouts.Tests/Caching/LayoutValueCacheTests.cs:218-233 | The sweep's walk of one entry's chain finds the updated item exactly when it is on that chain. It stops at the chain's end or at the first revisited item, so it also terminates on circular chains. |
| LayoutValueCache.BaseLayoutValueCache.constructor | Sitecore.BaseLayouts.Tests/Caching/LayoutValueCacheTests.cs:18 | A new cache has the given enabled flag and database set, and no entries. |
| LayoutValueCache.BaseLayoutValueCache.GetCacheKey | Sitecore.BaseLayouts.Tests/Caching/LayoutValueCacheTests.cs:122-175 | It fails with `CircularReference` exactly when the item's chain revisits an item. Otherwise the key is the item's database and ID. |
| LayoutValueCache.BaseLayoutValueCache.GetLayoutValue | Sitecore.BaseLayouts.Tests/Caching/LayoutValueCacheTests.cs:89-119 | A disabled cache returns nothing. An enabled one fails exactly on a circular chain, and otherwise returns the stored value or nothing. |
| LayoutValueCache.BaseLayoutValueCache.AddLayoutValue | Sitecore.BaseLayouts.Tests/Caching/LayoutValueCacheTests.cs:14-87 | An enabled cache with an acyclic chain stores the value under the item's key, replacing any earlier value. A circular chain fails and stores nothing. A disabled cache changes nothing. |
| LayoutValueCache.BaseLayoutValueCache.Clear | Sitecore.BaseLayouts.Tests/Caching/LayoutValueCacheTests.cs:19 | All entries are removed. |
| LayoutValueCache.BaseLayoutValueCache.ProcessItemUpdate | Sitecore.BaseLayouts.Tests/Caching/LayoutValueCacheTests.cs:177-324 | When the cache is enabled and the database is one of its databases, the new entries are `AfterItemUpdate` of the old ones. Otherwise nothing changes. The sweep loop's invariant is the partially swept map. |
| LayoutValueCache.BaseLayoutValueCache.Count | Sitecore.BaseLayouts.Tests/Caching/LayoutValueCacheTests.cs:26 | `InnerCache.Count`: the number of stored entries. It is zero exactly when the cache holds no entry, and at least one as soon as any key is stored. |
| LayoutValueCache.BaseLayoutValueCache.CacheKeys | Sitecore.BaseLayouts.Tests/Caching/LayoutValueCacheTests.cs:323 | `InnerCache.GetCacheKeys(prefix)`: it lists only stored keys, matching the prefix against each key's `db:id` text. The empty prefix lists them all. |
| LayoutValueCache.CacheKeysSelectDatabase | Sitecore.BaseLayouts.Tests/Caching/LayoutValueCacheTests.cs:323 | For database names without a colon, listing by the prefix `db + ":"` gives exactly the stored keys of database `db`. |
| LayoutValueCache.CacheKeysNarrow | Sitecore.BaseLayouts.Tests/Caching/LayoutValueCacheTests.cs:323 | A prefix that extends another lists no more keys than the shorter one. |
| LayoutValueCacheScenarios.AddToClearedCache | Sitecore.BaseLayouts.Tests/Caching/LayoutValueCacheTests.cs:14-27 | Adding one value to a cleared cache gives one entry. |
| LayoutValueCacheScenarios.AddTwiceUpdatesEntry | Sitecore.BaseLayouts.Tests/Caching/LayoutValueCacheTests.cs:29-47 | Adding again for the same item returns the new value and keeps the count. |
| LayoutValueCacheScenarios.AddTwoItems | Sitecore.BaseLayouts.Tests/Caching/LayoutValueCacheTests.cs:49-64 | Two items give two entries. |
| LayoutValueCacheScenarios.AddSameIdInTwoDatabases | Sitecore.BaseLayouts.Tests/Caching/LayoutValueCacheTests.cs:66-87 | The same ID in "master" and "web" gives two entries. |
| LayoutValueCacheScenarios.GetFromClearedCache | Sitecore.BaseLayouts.Tests/Caching/LayoutValueCacheTests.cs:89-102 | A cleared cache returns nothing. |
| LayoutValueCacheScenarios.GetAfterAdd | Sitecore.BaseLayouts.Tests/Caching/LayoutValueCacheTests.cs:104-119 | A get after an add returns the added value. |
| LayoutValueCacheScenarios.KeyOfItemWithBaseLayout | Sitecore.BaseLayouts.Tests/Caching/LayoutValueCacheTests.cs:121-149 | The key of an item based on another item starts with the database name and ends with the item's ID, on a cache that was never enabled. |
| LayoutValueCacheScenarios.KeyOfSelfReference | Sitecore.BaseLayouts.Tests/Caching/LayoutValueCacheTests.cs:151-161 | An item that is its own base layout gets `CircularReference`. |
| LayoutValueCacheScenarios.KeyInTwoItemCycle | Sitecore.BaseLayouts.Tests/Caching/LayoutValueCacheTests.cs:163-175 | Two items that are each other's base layout get `CircularReference`. |
| LayoutValueCacheScenarios.UpdateOfUnrelatedItem | Sitecore.BaseLayouts.Tests/Caching/LayoutValueCacheTests.cs:177-195 | Updating an uncached, unrelated item keeps all three entries. |
| LayoutValueCacheScenarios.UpdateOfCachedItem | Sitecore.BaseLayouts.Tests/Caching/LayoutValueCacheTests.cs:197-216 | Updating the last cached item leaves two of the three entries. The test checks only "fewer than three". |
| LayoutValueCacheScenarios.UpdateOfBaseLayout | Sitecore.BaseLayouts.Tests/Caching/LayoutValueCacheTests.cs:218-233 | Updating the base layout of the only cached item empties the cache. |
| LayoutValueCacheScenarios.UpdateInOneDatabase | Sitecore.BaseLayouts.Tests/Caching/LayoutValueCacheTests.cs:235-259 | Updating an item in "master" removes its "master" entry and keeps the "web" entry of the same ID. |
| LayoutValueCacheScenarios.UpdateInsideChain | Sitecore.BaseLayouts.Tests/Caching/LayoutValueCacheTests.cs:261-285 | With two five-item chains cached, updating the third item of the first chain leaves seven entries. |
| LayoutValueCacheScenarios.TwoChainsSweep | Sitecore.BaseLayouts.Tests/Caching/LayoutValueCacheTests.cs:261-285 | In that test, the sweep removes exactly the entries of the third, fourth and fifth items of the first chain. |
| LayoutValueCacheScenarios.UpdateOfStandardValues | Sitecore.BaseLayouts.Tests/Caching/LayoutValueCacheTests.cs:287-324 | Updating a standard-values item of "master" leaves the three "web" entries and no key under "master:". |
| LayoutValueCacheScenarios.FlushLeavesOtherDatabase | Sitecore.BaseLayouts.Tests/Caching/LayoutValueCacheTests.cs:287-324 | In that test, flushing "master" from the six entries leaves three, none of them listed under "master:". |
| LayoutValueCacheScenarios.NoKeysUnderPrefix | Sitecore.BaseLayouts.Tests/Caching/LayoutValueCacheTests.cs:323 | A map with no entry of `db` lists no key under the prefix `db + ":"`. |

## Left out

- Sitecore items, databases and the FakeDb fixtures. An item is its ID within a `Database` value, which holds the database name and its base-layout table. Loading an item's base layout through its field is a table lookup.
- `TemplateManager.IsFieldPartOfTemplate` is not modelled. Whether `item` has a Base Layout field is the parameter `hasField` of `CreatesCircularBaseLayoutReference`.
- The `Assert.ArgumentNotNull` checks are not modelled. Dafny values cannot be null.
- Whether an item is a standard-values item is the parameter `isStandardValues` of `ProcessItemUpdate`. The template lookup behind it is not modelled.
- BaseLayoutValueCache.cs is not part of this model. The cache follows its tests:
  - The database setting gates only `ProcessItemUpdate`. Lines 235-259 build a cache whose settings list only "master", add a "web" entry, and count it after the update. So `AddLayoutValue` and `GetLayoutValue` depend only on `enabled`.
  - `GetCacheKey` works whether or not the cache is enabled, as the key tests never enable it (lines 121-175).
- The exact text of a cache key is modelled as `db + ":" + id`. The tests fix only its prefix, its suffix and the "master:" prefix listing.
- The cache is a fresh object per scenario, not Sitecore's shared named cache. Its size limits, eviction and statistics are left out.
- Locking and concurrency between `AddLayoutValue` and `ProcessItemUpdate`, the loading of settings, and the wiring of item-saved events to `ProcessItemUpdate` are left out.
- Layout values are opaque strings. The layout XML they hold is not interpreted.
- The walk reports any repeat (Sitecore.BaseLayouts/BaseLayoutValidator.cs:40, 49-63). So the pre-commit check also returns true when the candidate's own chain is already circular without reaching `item`. The contract of `CreatesCircularBaseLayoutReference` states both cases.
- Deleted items are not tracked. A base layout that the table no longer holds ends the chain, because a missing item resolves to no base layout. So `ProcessItemUpdate` for an item that has already been removed from the table passed in does not remove the entries of items that were based on it. How the cache itself learns of deletions is not part of this model.
- The user-interface scripts and field extensions (`OpenDialog.js`, `FieldExtensions.cs`) are outside the modelled core.
