/**
 * The dependency trees that both dataset classes read. The `DepGraph` class
 * that stores them belongs to the `deptree` module, which is not part of this
 * model; a tree here keeps exactly what the modelled code asks of it.
 */
module DepTree {

  /** One `(gov, label, dep)` triple of `get_all_edges()`. */
  datatype Edge = Edge(gov: int, lbl: string, dep: int)

  /** A multi-word-expression range; the modelled code only carries it along. */
  datatype MweRange = MweRange(first: int, last: int, token: string)

  /**
   * `words`, `pos_tags`, `mwe_ranges` and `get_all_edges()` of a tree, in their
   * own order; `size` is what `len(tree)` returns.
   */
  datatype Tree = Tree(words: seq<string>, posTags: seq<string>, edges: seq<Edge>, size: nat, mweRanges: seq<MweRange>)

  /** No edge of the list has dependent `d`. */
  predicate NoEdgeTo(edges: seq<Edge>, d: int) {
    forall k :: 0 <= k < |edges| ==> edges[k].dep != d
  }

  /** Edge `k` is the last edge of the list whose dependent is its dependent. */
  predicate LastEdgeTo(edges: seq<Edge>, k: nat)
    requires k < |edges|
  {
    forall j :: k < j < |edges| ==> edges[j].dep != edges[k].dep
  }

  /** The last edge whose dependent is `d`, when there is one. */
  lemma LastEdgeIndex(edges: seq<Edge>, d: int) returns (k: nat)
    requires !NoEdgeTo(edges, d)
    ensures k < |edges| && edges[k].dep == d && LastEdgeTo(edges, k)
  {
    k :| 0 <= k < |edges| && edges[k].dep == d;
    while exists j :: k < j < |edges| && edges[j].dep == d
      invariant k < |edges| && edges[k].dep == d
      decreases |edges| - k
    {
      var next :| k < next < |edges| && edges[next].dep == d;
      k := next;
    }
  }

  /** The `(dep, gov)` pairs of a tree's edges, in edge order. */
  function DepGovPairs(edges: seq<Edge>): (r: seq<(int, int)>)
    ensures |r| == |edges|
    ensures forall k :: 0 <= k < |edges| ==> r[k] == (edges[k].dep, edges[k].gov)
  {
    if edges == [] then []
    else
      var last := edges[|edges| - 1];
      DepGovPairs(edges[..|edges| - 1]) + [(last.dep, last.gov)]
  }

  /** The `(dep, label)` pairs of a tree's edges, in edge order. */
  function DepLabelPairs(edges: seq<Edge>): (r: seq<(int, string)>)
    ensures |r| == |edges|
    ensures forall k :: 0 <= k < |edges| ==> r[k] == (edges[k].dep, edges[k].lbl)
  {
    if edges == [] then []
    else
      var last := edges[|edges| - 1];
      DepLabelPairs(edges[..|edges| - 1]) + [(last.dep, last.lbl)]
  }

  /** The labels of all edges of all trees. */
  function LabelSet(treelist: seq<Tree>): set<string> {
    set t, e | t in treelist && e in t.edges :: e.lbl
  }
}
