/**
 * `merge_all_diagnostics`: the syntax, semantic and validator diagnostics
 * in one list, ordered by start position with a stable sort.
 */
module DiagnosticsMerge {
  import opened CoreTypes
  import opened Sorting
  import opened Diagnostics

  /** The sort key: the start line, then the start character. */
  function StartOf(d: Diagnostic): Position { d.range.start }

  /** The three lists appended, then sorted in place by start position. */
  method MergeAllDiagnostics(treeSitter: seq<Diagnostic>, semantic: seq<Diagnostic>, wast: seq<Diagnostic>)
    returns (all: seq<Diagnostic>)
    ensures all == SortBy(treeSitter + semantic + wast, StartOf)
  {
    all := treeSitter;
    all := all + semantic;
    all := all + wast;
    all := SortBy(all, StartOf);
  }

  /**
   * The merged list holds exactly the input diagnostics, as many as the
   * three lists together, in start order; diagnostics that start at the
   * same place keep the order of the concatenation.
   */
  lemma MergeIsStableSortedPermutation(treeSitter: seq<Diagnostic>, semantic: seq<Diagnostic>, wast: seq<Diagnostic>)
    ensures var all := SortBy(treeSitter + semantic + wast, StartOf);
      multiset(all) == multiset(treeSitter) + multiset(semantic) + multiset(wast)
      && |all| == |treeSitter| + |semantic| + |wast|
      && SortedBy(all, StartOf)
      && forall p :: WithKey(all, StartOf, p) == WithKey(treeSitter + semantic + wast, StartOf, p)
  {
    var xs := treeSitter + semantic + wast;
    var all := SortBy(xs, StartOf);
    SortBySorted(xs, StartOf);
    assert |all| == |multiset(all)| == |multiset(xs)| == |xs|;
    forall p ensures WithKey(all, StartOf, p) == WithKey(xs, StartOf, p) {
      SortByStable(xs, StartOf, p);
    }
  }
}
