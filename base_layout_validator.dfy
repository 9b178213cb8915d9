/**
 * Circular-reference checks on base-layout chains (BaseLayoutValidator).
 *
 * Both public checks run one walk, `HasDuplicateBaseLayout`, which follows the
 * Base Layout links from an item and records every ID it meets in a set; the
 * walk answers true as soon as it meets an ID already in the set. The graph
 * is a value parameter: nothing the walk does can change an item.
 */
module BaseLayoutValidator {
  import opened Wrappers
  import opened BaseLayoutChain

  /** Raised when the item asked about has no Base Layout field in its template. */
  datatype ArgumentError = MissingBaseLayoutField

  /**
   * The walk of the `do ... while` loop: add the current item's ID to
   * `seed`; stop with true if it was already there, with false when the
   * current item has no base layout.
   */
  method HasDuplicateBaseLayout(g: BaseLayouts, item: ItemId, seed: set<ItemId>) returns (dup: bool)
    ensures dup <==> Revisits(g, item, seed)
  {
    var baseLayouts := seed;
    var current := item;
    ghost var k: nat := 0;
    ghost var universe := Universe(g, item);
    while true
      invariant NodeAt(g, item, k) == Some(current)
      invariant current in universe
      invariant baseLayouts == seed + Visited(g, item, k)
      invariant forall j :: 0 <= j < k ==> !RepeatAt(g, item, seed, j)
      decreases universe - baseLayouts
    {
      RepeatIffSeen(g, item, seed, k);
      if current in baseLayouts {
        return true;
      }
      VisitedStep(g, item, k);
      baseLayouts := baseLayouts + {current};
      var next := BaseLayout(g, current);
      if next.None? {
        EndWithoutRepeat(g, item, seed, k);
        return false;
      }
      current := next.value;
      k := k + 1;
    }
  }

  /** True if the item's own chain meets some item twice. */
  method HasCircularBaseLayoutReference(g: BaseLayouts, item: ItemId) returns (circular: bool)
    ensures circular <==> Revisits(g, item, {})
    ensures circular <==> forall n: nat :: NodeAt(g, item, n).Some?
  {
    circular := HasDuplicateBaseLayout(g, item, {});
    CircularIffEndless(g, item);
  }

  /**
   * Would making `candidate` the base layout of `item` close a loop? The walk
   * starts at the candidate with `item`'s ID already recorded. `hasField`
   * says whether `item`'s template contains the Base Layout field; without it
   * the call is an argument error.
   */
  method CreatesCircularBaseLayoutReference(g: BaseLayouts, item: ItemId, candidate: ItemId, hasField: bool)
    returns (r: Result<bool, ArgumentError>)
    ensures !hasField <==> r == Failure(MissingBaseLayoutField)
    ensures hasField ==> r.Success? && (r.value <==> OnChain(g, candidate, item) || Revisits(g, candidate, {}))
  {
    if !hasField {
      return Failure(MissingBaseLayoutField);
    }
    var dup := HasDuplicateBaseLayout(g, candidate, {item});
    SeededRevisits(g, candidate, item);
    return Success(dup);
  }

  /**
   * Pointing the candidate at itself is always circular: the start of the
   * walk is checked against the seed before any link is followed.
   */
  lemma SelfCandidateIsCircular(g: BaseLayouts, item: ItemId)
    ensures Revisits(g, item, {item})
  {
    StartInSeedRevisits(g, item, {item});
  }

  /** With `item` pointing at `candidate`, `item`'s chain is `item` followed by the old chain of the candidate, up to the first return to `item`. */
  lemma {:induction false} RedirectedChain(g: BaseLayouts, item: ItemId, candidate: ItemId, m: nat)
    requires item in g && candidate in g
    requires forall j :: 0 <= j < m ==> NodeAt(g, candidate, j) != Some(item)
    ensures NodeAt(g[item := Some(candidate)], item, m + 1) == NodeAt(g, candidate, m)
  {
    var g' := g[item := Some(candidate)];
    if m > 0 {
      RedirectedChain(g, item, candidate, m - 1);
      match NodeAt(g, candidate, m - 1)
      case None =>
      case Some(x) =>
        assert x != item;
        assert BaseLayout(g', x) == BaseLayout(g, x);
    }
  }

  /** The first position at which `item` occurs on the candidate's chain. */
  lemma {:induction false} FirstOccurrence(g: BaseLayouts, candidate: ItemId, item: ItemId, k: nat) returns (first: nat)
    requires NodeAt(g, candidate, k) == Some(item)
    ensures first <= k && NodeAt(g, candidate, first) == Some(item)
    ensures forall j :: 0 <= j < first ==> NodeAt(g, candidate, j) != Some(item)
  {
    if j :| 0 <= j < k && NodeAt(g, candidate, j) == Some(item) {
      first := FirstOccurrence(g, candidate, item, j);
    } else {
      first := k;
    }
  }

  /**
   * What CreatesCircularBaseLayoutReference decides: for existing items,
   * the seeded walk from the candidate revisits an ID exactly when the
   * graph with the new link `item -> candidate` has a circular chain at `item`.
   */
  lemma NewLinkClosesLoop(g: BaseLayouts, item: ItemId, candidate: ItemId)
    requires item in g && candidate in g
    ensures Revisits(g[item := Some(candidate)], item, {}) <==> Revisits(g, candidate, {item})
  {
    var g' := g[item := Some(candidate)];
    if Revisits(g, candidate, {item}) {
      if OnChain(g, candidate, item) {
        var k: nat :| NodeAt(g, candidate, k) == Some(item);
        var first := FirstOccurrence(g, candidate, item, k);
        RedirectedChain(g, item, candidate, first);
        assert NodeAt(g', item, 0) == NodeAt(g', item, first + 1);
        assert RepeatAt(g', item, {}, first + 1);
      } else {
        var k: nat :| RepeatAt(g, candidate, {item}, k);
        var j :| 0 <= j < k && NodeAt(g, candidate, j) == NodeAt(g, candidate, k);
        RedirectedChain(g, item, candidate, j);
        RedirectedChain(g, item, candidate, k);
        assert RepeatAt(g', item, {}, k + 1);
      }
    }
    if Revisits(g', item, {}) && !Revisits(g, candidate, {item}) {
      SeededRevisits(g, candidate, item);
      var k: nat :| RepeatAt(g', item, {}, k);
      var j :| 0 <= j < k && NodeAt(g', item, j) == NodeAt(g', item, k);
      RedirectedChain(g, item, candidate, k - 1);
      if j > 0 {
        RedirectedChain(g, item, candidate, j - 1);
        assert RepeatAt(g, candidate, {item}, k - 1);
      }
    }
  }
}
