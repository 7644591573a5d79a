/**
 * The two head arrays of the program side by side: `oracle_governors` of
 * src/graph_parser3.py and `oracle_ancestors` of mst.py read the same edges.
 */
module HeadArrays {
  import opened DepTree
  import Dataset
  import MstDataset

  /**
   * The head array of mst.py and the one of src/graph_parser3.py agree up
   * to the shift: where an edge reaches a position, the ancestor index is
   * the governor plus one; elsewhere it is 0 and the governor array holds 0.
   */
  lemma AncestorsShiftGovernors(t: Tree, idx: nat)
    requires idx < t.size
    ensures NoEdgeTo(t.edges, idx) ==> MstDataset.OracleAncestors(t)[idx] == 0 == Dataset.OracleGovernors(t)[idx]
    ensures !NoEdgeTo(t.edges, idx) ==> MstDataset.OracleAncestors(t)[idx] == Dataset.OracleGovernors(t)[idx] + 1
  {
    if !NoEdgeTo(t.edges, idx) {
      var k := LastEdgeIndex(t.edges, idx);
    }
  }
}
