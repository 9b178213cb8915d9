/**
 * The base-layout graph of one database and the chains it induces.
 *
 * Every item may name another item as its base layout. A database is modelled
 * by the table `g` from each existing item's ID to the ID stored in its Base
 * Layout field, if any. Following the field resolves the ID to an item of the
 * same database; an ID naming no item resolves to nothing, exactly like an
 * empty field. The chain of an item is the sequence of items met by following
 * these links from it; `NodeAt(g, s, k)` is its k-th element, or `None` once
 * the chain has ended.
 */
module BaseLayoutChain {
  import opened Wrappers

  type ItemId = string

  /** Base-layout table of one database: item ID to the ID in its Base Layout field. */
  type BaseLayouts = map<ItemId, Option<ItemId>>

  /** The item reached by following `id`'s Base Layout field, if that field names an existing item. */
  function BaseLayout(g: BaseLayouts, id: ItemId): (r: Option<ItemId>)
  {
    if id in g && g[id].Some? && g[id].value in g then g[id] else None
  }

  /** The k-th item of the chain that starts at `start` (the start itself is number 0). */
  function NodeAt(g: BaseLayouts, start: ItemId, k: nat): (r: Option<ItemId>)
  {
    if k == 0 then Some(start)
    else match NodeAt(g, start, k - 1)
      case None => None
      case Some(x) => BaseLayout(g, x)
  }

  /** Every item a chain can reach: the existing items and the start itself. */
  function Universe(g: BaseLayouts, start: ItemId): (r: set<ItemId>)
  {
    g.Keys + {start}
  }

  /** The IDs of the first `k` items of the chain. */
  ghost function Visited(g: BaseLayouts, start: ItemId, k: nat): (r: set<ItemId>)
  {
    set j | 0 <= j < k && NodeAt(g, start, j).Some? :: NodeAt(g, start, j).value
  }

  /** Item `k` of the chain exists and is either in `seed` or equal to an earlier item. */
  ghost predicate RepeatAt(g: BaseLayouts, start: ItemId, seed: set<ItemId>, k: nat)
  {
    NodeAt(g, start, k).Some? &&
    (NodeAt(g, start, k).value in seed ||
     exists j :: 0 <= j < k && NodeAt(g, start, j) == NodeAt(g, start, k))
  }

  /** The chain from `start`, preceded by the IDs of `seed`, meets some ID twice. */
  ghost predicate Revisits(g: BaseLayouts, start: ItemId, seed: set<ItemId>)
  {
    exists k: nat :: RepeatAt(g, start, seed, k)
  }

  /** `target` is an item of the chain from `start` (the start included). */
  ghost predicate OnChain(g: BaseLayouts, start: ItemId, target: ItemId)
  {
    exists k: nat :: NodeAt(g, start, k) == Some(target)
  }

  /** Every item on a chain is the start or an existing item. */
  lemma NodeInUniverse(g: BaseLayouts, start: ItemId, k: nat)
    requires NodeAt(g, start, k).Some?
    ensures NodeAt(g, start, k).value in Universe(g, start)
  {
  }

  /** Once a chain has ended it stays ended. */
  lemma {:induction false} EndedStaysEnded(g: BaseLayouts, start: ItemId, k: nat, m: nat)
    requires k <= m && NodeAt(g, start, k).None?
    ensures NodeAt(g, start, m).None?
    decreases m - k
  {
    if k < m {
      EndedStaysEnded(g, start, k, m - 1);
    }
  }

  /** Two positions holding the same item are followed by the same items. */
  lemma {:induction false} SameSuccessors(g: BaseLayouts, start: ItemId, j: nat, k: nat, d: nat)
    requires NodeAt(g, start, j) == NodeAt(g, start, k)
    ensures NodeAt(g, start, j + d) == NodeAt(g, start, k + d)
  {
    if d > 0 {
      SameSuccessors(g, start, j, k, d - 1);
    }
  }

  /** After a repeat between positions `j < k`, every later item is one of the items at `j .. k-1`. */
  lemma {:induction false} CycleCovers(g: BaseLayouts, start: ItemId, j: nat, k: nat, m: nat)
    requires j < k <= m
    requires NodeAt(g, start, j) == NodeAt(g, start, k)
    ensures exists i :: j <= i < k && NodeAt(g, start, m) == NodeAt(g, start, i)
    decreases m
  {
    var m' := m - (k - j);
    SameSuccessors(g, start, j, k, m - k);
    assert NodeAt(g, start, m') == NodeAt(g, start, m);
    if m' >= k {
      CycleCovers(g, start, j, k, m');
    }
  }

  /** Adding one more item of the chain to the visited IDs. */
  lemma VisitedStep(g: BaseLayouts, start: ItemId, k: nat)
    requires NodeAt(g, start, k).Some?
    ensures Visited(g, start, k + 1) == Visited(g, start, k) + {NodeAt(g, start, k).value}
  {
    var x := NodeAt(g, start, k).value;
    forall y | y in Visited(g, start, k + 1)
      ensures y in Visited(g, start, k) + {x}
    {
      var j :| 0 <= j < k + 1 && NodeAt(g, start, j).Some? && NodeAt(g, start, j).value == y;
      if j < k {
        assert y in Visited(g, start, k);
      }
    }
  }

  /** The first `k` items, when they all exist and none repeats, are `k` distinct IDs. */
  lemma {:induction false} VisitedCount(g: BaseLayouts, start: ItemId, seed: set<ItemId>, k: nat)
    requires k > 0 ==> NodeAt(g, start, k - 1).Some?
    requires forall i :: 0 <= i < k ==> !RepeatAt(g, start, seed, i)
    ensures |Visited(g, start, k)| == k
  {
    if k > 0 {
      VisitedCount(g, start, seed, k - 1);
      VisitedStep(g, start, k - 1);
      assert !RepeatAt(g, start, seed, k - 1);
    }
  }

  /** Item `k` is a repeat exactly when its ID is in the seed or among the first `k` IDs. */
  lemma RepeatIffSeen(g: BaseLayouts, start: ItemId, seed: set<ItemId>, k: nat)
    requires NodeAt(g, start, k).Some?
    ensures RepeatAt(g, start, seed, k) <==> NodeAt(g, start, k).value in seed + Visited(g, start, k)
  {
    var x := NodeAt(g, start, k).value;
    if x in Visited(g, start, k) {
      var j :| 0 <= j < k && NodeAt(g, start, j).Some? && NodeAt(g, start, j).value == x;
      assert NodeAt(g, start, j) == NodeAt(g, start, k);
    }
  }

  /** A chain that ends after item `k` with no repeat up to `k` never revisits. */
  lemma EndWithoutRepeat(g: BaseLayouts, start: ItemId, seed: set<ItemId>, k: nat)
    requires NodeAt(g, start, k + 1).None?
    requires forall j :: 0 <= j <= k ==> !RepeatAt(g, start, seed, j)
    ensures !Revisits(g, start, seed)
  {
    forall m: nat ensures !RepeatAt(g, start, seed, m) {
      if m > k {
        EndedStaysEnded(g, start, k + 1, m);
      }
    }
  }

  /** A walk that reaches the end of the chain without meeting `target` proves it is not on the chain. */
  lemma NotOnEndedChain(g: BaseLayouts, start: ItemId, target: ItemId, k: nat)
    requires NodeAt(g, start, k + 1).None?
    requires forall j :: 0 <= j <= k ==> NodeAt(g, start, j) != Some(target)
    ensures !OnChain(g, start, target)
  {
    forall m: nat ensures NodeAt(g, start, m) != Some(target) {
      if m > k {
        EndedStaysEnded(g, start, k + 1, m);
      }
    }
  }

  /**
   * A walk that comes back to an item it has already met has seen every item
   * of the chain: if `target` was not among them, it is not on the chain.
   */
  lemma NotOnCycledChain(g: BaseLayouts, start: ItemId, target: ItemId, k: nat)
    requires NodeAt(g, start, k).Some? && NodeAt(g, start, k).value in Visited(g, start, k)
    requires forall j :: 0 <= j <= k ==> NodeAt(g, start, j) != Some(target)
    ensures !OnChain(g, start, target)
  {
    var x := NodeAt(g, start, k).value;
    var j :| 0 <= j < k && NodeAt(g, start, j).Some? && NodeAt(g, start, j).value == x;
    forall m: nat ensures NodeAt(g, start, m) != Some(target) {
      if m > k {
        CycleCovers(g, start, j, k, m);
      }
    }
  }

  /** A subset is no larger than its superset. */
  lemma SubsetCard(a: set<ItemId>, b: set<ItemId>)
    requires a <= b
    ensures |a| <= |b|
  {
    assert b == a + (b - a);
    assert a * (b - a) == {};
  }

  /**
   * Finiteness: a chain without a repeat ends within as many steps as there
   * are items it can reach, and all its items are distinct and outside `seed`.
   */
  lemma NoRevisitEnds(g: BaseLayouts, start: ItemId, seed: set<ItemId>)
    requires !Revisits(g, start, seed)
    ensures NodeAt(g, start, |Universe(g, start)|).None?
    ensures forall k: nat :: NodeAt(g, start, k).Some? ==> NodeAt(g, start, k).value !in seed
    ensures forall j: nat, k: nat :: j < k && NodeAt(g, start, k).Some? ==> NodeAt(g, start, j) != NodeAt(g, start, k)
  {
    var n := |Universe(g, start)|;
    if NodeAt(g, start, n).Some? {
      assert !RepeatAt(g, start, seed, n);
      VisitedCount(g, start, seed, n + 1);
      forall y | y in Visited(g, start, n + 1)
        ensures y in Universe(g, start)
      {
        var j :| 0 <= j < n + 1 && NodeAt(g, start, j).Some? && NodeAt(g, start, j).value == y;
        NodeInUniverse(g, start, j);
      }
      SubsetCard(Visited(g, start, n + 1), Universe(g, start));
      assert false;
    }
    forall k: nat | NodeAt(g, start, k).Some?
      ensures NodeAt(g, start, k).value !in seed
    {
      assert !RepeatAt(g, start, seed, k);
    }
    forall j: nat, k: nat | j < k && NodeAt(g, start, k).Some?
      ensures NodeAt(g, start, j) != NodeAt(g, start, k)
    {
      assert !RepeatAt(g, start, seed, k);
    }
  }

  /** An item's chain revisits an item exactly when the chain never ends. */
  lemma CircularIffEndless(g: BaseLayouts, start: ItemId)
    ensures Revisits(g, start, {}) <==> forall n: nat :: NodeAt(g, start, n).Some?
  {
    if Revisits(g, start, {}) {
      var k: nat :| RepeatAt(g, start, {}, k);
      var j :| 0 <= j < k && NodeAt(g, start, j) == NodeAt(g, start, k);
      forall n: nat ensures NodeAt(g, start, n).Some? {
        if n < k {
          if NodeAt(g, start, n).None? {
            EndedStaysEnded(g, start, n, k);
          }
        } else {
          CycleCovers(g, start, j, k, n);
          var i :| j <= i < k && NodeAt(g, start, n) == NodeAt(g, start, i);
          if NodeAt(g, start, i).None? {
            EndedStaysEnded(g, start, i, k);
          }
        }
      }
    } else {
      NoRevisitEnds(g, start, {});
    }
  }

  /** A start item whose ID is already in the seed is a repeat at once. */
  lemma StartInSeedRevisits(g: BaseLayouts, start: ItemId, seed: set<ItemId>)
    requires start in seed
    ensures Revisits(g, start, seed)
  {
    assert RepeatAt(g, start, seed, 0);
  }

  /**
   * Seeding the walk with one ID detects that ID on the chain, and also any
   * cycle of the chain itself.
   */
  lemma SeededRevisits(g: BaseLayouts, start: ItemId, x: ItemId)
    ensures Revisits(g, start, {x}) <==> OnChain(g, start, x) || Revisits(g, start, {})
  {
    if Revisits(g, start, {x}) {
      var k: nat :| RepeatAt(g, start, {x}, k);
      if NodeAt(g, start, k).value == x {
        assert NodeAt(g, start, k) == Some(x);
      } else {
        assert RepeatAt(g, start, {}, k);
      }
    }
    if OnChain(g, start, x) {
      var k: nat :| NodeAt(g, start, k) == Some(x);
      assert RepeatAt(g, start, {x}, k);
    }
    if Revisits(g, start, {}) {
      var k: nat :| RepeatAt(g, start, {}, k);
      assert RepeatAt(g, start, {x}, k);
    }
  }

  /** `path` lists the chain from `path[0]` item by item, up to an item with no base layout. */
  ghost predicate ChainIs(g: BaseLayouts, path: seq<ItemId>)
  {
    |path| > 0 &&
    (forall i :: 0 <= i < |path| - 1 ==> BaseLayout(g, path[i]) == Some(path[i + 1])) &&
    BaseLayout(g, path[|path| - 1]).None?
  }

  /** The items of a listed chain are the elements of the list, in order. */
  lemma {:induction false} ChainIsNodes(g: BaseLayouts, path: seq<ItemId>, k: nat)
    requires ChainIs(g, path)
    ensures NodeAt(g, path[0], k) == if k < |path| then Some(path[k]) else None
  {
    if k > 0 {
      ChainIsNodes(g, path, k - 1);
    }
  }

  /** A chain that can be listed has no circular reference, and its items are those of the list. */
  lemma ListedChain(g: BaseLayouts, path: seq<ItemId>)
    requires ChainIs(g, path)
    ensures !Revisits(g, path[0], {})
    ensures forall t :: OnChain(g, path[0], t) <==> t in path
  {
    ChainIsNodes(g, path, |path|);
    CircularIffEndless(g, path[0]);
    forall t ensures OnChain(g, path[0], t) <==> t in path {
      if OnChain(g, path[0], t) {
        var k: nat :| NodeAt(g, path[0], k) == Some(t);
        ChainIsNodes(g, path, k);
      }
      if t in path {
        var k :| 0 <= k < |path| && path[k] == t;
        ChainIsNodes(g, path, k);
      }
    }
  }
}
