/**
 * `DependencyDataset` of mst.py: the word vocabulary and the label table,
 * and the encoding of every tree for the edge task (word indices and the
 * position of each word's governor) and for the labelling task (the edges'
 * governors, dependents and label codes).
 */
module MstDataset {
  import opened Tables
  import opened DepTree

  const UNK_WORD: string := "<unk>"
  const PAD_WORD: string := "<pad>"
  const ROOT: string := "<root>"
  const ROOT_GOV_IDX: int := -1

  /**
   * What `stoi.get(tok, '<unk>')` yields: the index of a known token, or the
   * string `'<unk>'` itself, which is not the index of `<unk>`.
   */
  datatype WordCode = Index(idx: nat) | UnkLiteral

  /** The words of all trees. */
  function WordSet(treelist: seq<Tree>): set<string> {
    if treelist == [] then {}
    else
      var last := treelist[|treelist| - 1].words;
      WordSet(treelist[..|treelist| - 1]) + (set w | w in last)
  }

  /** Every word of every tree is in the word set, and nothing else is. */
  lemma {:induction false} WordSetMembers(treelist: seq<Tree>, w: string)
    ensures w in WordSet(treelist) <==> exists k :: 0 <= k < |treelist| && w in treelist[k].words
    decreases |treelist|
  {
    if treelist != [] {
      var n := |treelist| - 1;
      WordSetMembers(treelist[..n], w);
      if w in WordSet(treelist[..n]) {
        var k :| 0 <= k < n && w in treelist[..n][k].words;
        assert treelist[k] == treelist[..n][k];
      }
      if exists k :: 0 <= k < |treelist| && w in treelist[k].words {
        var k :| 0 <= k < |treelist| && w in treelist[k].words;
        if k < n {
          assert treelist[..n][k] == treelist[k];
        }
      }
    }
  }

  /** What `init_vocab` builds, whatever order the set comes in: every word once, and the three reserved tokens. */
  ghost predicate IsVocab(itos: seq<string>, treelist: seq<Tree>) {
    && Distinct(itos)
    && (set x | x in itos) == WordSet(treelist) + {ROOT, UNK_WORD, PAD_WORD}
  }

  /** What `init_labels` builds: every label of the trees once, with no padding entry. */
  ghost predicate IsLabelList(itolab: seq<string>, treelist: seq<Tree>) {
    && Distinct(itolab)
    && (set x | x in itolab) == LabelSet(treelist)
  }

  /** `[rev_edges.get(idx, -1) for idx in range(N)]`: the governor of the last edge into each position, or -1. */
  function LastGovernors(t: Tree): (r: seq<int>)
    ensures |r| == t.size
    ensures forall idx :: 0 <= idx < |r| && NoEdgeTo(t.edges, idx) ==> r[idx] == -1
    ensures forall k :: 0 <= k < |t.edges| && LastEdgeTo(t.edges, k) && 0 <= t.edges[k].dep < |r| ==>
              r[t.edges[k].dep] == t.edges[k].gov
  {
    var pairs := DepGovPairs(t.edges);
    var revEdges := DictOf(pairs);
    assert forall k :: 0 <= k < |t.edges| && LastEdgeTo(t.edges, k) ==> LastWithKey(pairs, k);
    assert forall idx :: NoEdgeTo(t.edges, idx) ==> idx !in revEdges;
    GetAll(revEdges, Range(t.size), -1)
  }

  /**
   * `oracle_ancestors`: position `idx` holds one more than the governor of
   * the last edge whose dependent is `idx`, and 0 where no edge has
   * dependent `idx`.
   */
  function OracleAncestors(t: Tree): (r: seq<int>)
    ensures |r| == t.size
    ensures forall idx :: 0 <= idx < |r| && NoEdgeTo(t.edges, idx) ==> r[idx] == 0
    ensures forall k :: 0 <= k < |t.edges| && LastEdgeTo(t.edges, k) && 0 <= t.edges[k].dep < |r| ==>
              r[t.edges[k].dep] == t.edges[k].gov + 1
  {
    var govs := LastGovernors(t);
    seq(|govs|, idx requires 0 <= idx < |govs| => govs[idx] + 1)
  }

  /** `stoi.get(tok, '<unk>')` */
  function Code(stoi: map<string, nat>, tok: string): (r: WordCode)
    ensures r.Index? <==> tok in stoi
    ensures r.Index? ==> r.idx == stoi[tok]
  {
    if tok in stoi then Index(stoi[tok]) else UnkLiteral
  }

  /** `depword_idxes`: the codes of `<root>` followed by the tree's words. */
  function WordCodes(stoi: map<string, nat>, words: seq<string>): (r: seq<WordCode>)
    ensures |r| == |words| + 1
    ensures r[0] == Code(stoi, ROOT)
    ensures forall i :: 0 <= i < |words| ==> r[i + 1] == Code(stoi, words[i])
  {
    [Code(stoi, ROOT)] + seq(|words|, i requires 0 <= i < |words| => Code(stoi, words[i]))
  }

  /**
   * A word without an index is encoded as the string `'<unk>'`, never as an
   * index, not even as the index of `<unk>`.
   */
  lemma UnknownWordIsLiteral(stoi: map<string, nat>, words: seq<string>, i: nat)
    requires i < |words|
    ensures WordCodes(stoi, words)[i + 1] == UnkLiteral <==> words[i] !in stoi
    ensures words[i] !in stoi ==> forall n :: WordCodes(stoi, words)[i + 1] != Index(n)
  {
  }

  /** The tokens a row of word codes stands for, or `None` if one of them is the `'<unk>'` string or out of the table. */
  function DecodeWords(itos: seq<string>, codes: seq<WordCode>): (r: Option<seq<string>>)
    ensures r.Some? ==> |r.value| == |codes|
    ensures r.Some? <==> forall i :: 0 <= i < |codes| ==> codes[i].Index? && codes[i].idx < |itos|
  {
    if codes == [] then Some([])
    else
      var prev := DecodeWords(itos, codes[..|codes| - 1]);
      var last := codes[|codes| - 1];
      if prev.Some? && last.Index? && last.idx < |itos| then Some(prev.value + [itos[last.idx]])
      else None
  }

  /**
   * With the vocabulary `init_vocab` built from a tree list, every tree of
   * that list encodes to indices only, and those indices give back `<root>`
   * followed by the tree's words.
   */
  lemma KnownWordsRoundTrip(itos: seq<string>, treelist: seq<Tree>, t: Tree)
    requires IsVocab(itos, treelist) && t in treelist
    ensures forall c :: c in WordCodes(IndexMap(itos), t.words) ==> c.Index?
    ensures DecodeWords(itos, WordCodes(IndexMap(itos), t.words)) == Some([ROOT] + t.words)
  {
    var stoi := IndexMap(itos);
    var codes := WordCodes(stoi, t.words);
    assert ROOT in itos;
    forall i | 0 <= i < |t.words|
      ensures t.words[i] in stoi
    {
      var k :| 0 <= k < |treelist| && treelist[k] == t;
      WordSetMembers(treelist, t.words[i]);
      assert t.words[i] in WordSet(treelist);
      assert t.words[i] in itos;
    }
    var toks := [ROOT] + t.words;
    forall i | 0 <= i < |toks|
      ensures toks[i] in stoi && codes[i] == Index(stoi[toks[i]])
    {
      if i > 0 {
        assert toks[i] == t.words[i - 1];
      }
    }
    DecodeKnown(itos, toks, codes);
  }

  lemma {:induction false} DecodeKnown(itos: seq<string>, toks: seq<string>, codes: seq<WordCode>)
    requires |codes| == |toks|
    requires forall i :: 0 <= i < |toks| ==> toks[i] in IndexMap(itos) && codes[i] == Index(IndexMap(itos)[toks[i]])
    ensures DecodeWords(itos, codes) == Some(toks)
    decreases |codes|
  {
    if codes != [] {
      var n := |codes| - 1;
      DecodeKnown(itos, toks[..n], codes[..n]);
      assert toks == toks[..n] + [toks[n]];
    }
  }

  /** `gov_idxes`: `ROOT_GOV_IDX` followed by the tree's ancestor indices. */
  function GovIndexes(t: Tree): (r: seq<int>)
    ensures |r| == t.size + 1
    ensures r[0] == ROOT_GOV_IDX
    ensures forall idx :: 0 <= idx < t.size && NoEdgeTo(t.edges, idx) ==> r[idx + 1] == 0
    ensures r[1..] == OracleAncestors(t)
  {
    [ROOT_GOV_IDX] + OracleAncestors(t)
  }

  /** `[gov+1 for (gov,lbl,dep) in tree.get_all_edges()]` */
  function ShiftedGovs(edges: seq<Edge>): (r: seq<int>)
    ensures |r| == |edges|
    ensures forall j :: 0 <= j < |edges| ==> r[j] - 1 == edges[j].gov
  {
    seq(|edges|, j requires 0 <= j < |edges| => edges[j].gov + 1)
  }

  /** `[dep+1 for (gov,lbl,dep) in tree.get_all_edges()]` */
  function ShiftedDeps(edges: seq<Edge>): (r: seq<int>)
    ensures |r| == |edges|
    ensures forall j :: 0 <= j < |edges| ==> r[j] - 1 == edges[j].dep
  {
    seq(|edges|, j requires 0 <= j < |edges| => edges[j].dep + 1)
  }

  /** `[labtoi[lbl] for (gov,lbl,dep) in tree.get_all_edges()]`; `labtoi[lbl]` fails on a label without a code. */
  function LabelCodes(labtoi: map<string, nat>, edges: seq<Edge>): (r: seq<nat>)
    requires EdgeLabelsKnown(labtoi, edges)
    ensures |r| == |edges|
  {
    seq(|edges|, j requires 0 <= j < |edges| => labtoi[edges[j].lbl])
  }

  /**
   * The labelling task and the edge task agree: for the last edge into a
   * position `d`, its shifted governor is the ancestor index of `d`, which
   * sits at the shifted dependent `d + 1` of the edge task's row.
   */
  lemma EncodingsAgree(t: Tree, k: nat)
    requires k < |t.edges| && LastEdgeTo(t.edges, k) && 0 <= t.edges[k].dep < t.size
    ensures ShiftedDeps(t.edges)[k] - 1 == t.edges[k].dep
    ensures GovIndexes(t)[ShiftedDeps(t.edges)[k]] == ShiftedGovs(t.edges)[k]
  {
  }

  /** The label codes of a tree give back its labels, edge by edge. */
  lemma LabelCodesRoundTrip(itolab: seq<string>, treelist: seq<Tree>, t: Tree)
    requires IsLabelList(itolab, treelist) && t in treelist
    ensures forall j :: 0 <= j < |t.edges| ==> t.edges[j].lbl in IndexMap(itolab)
    ensures var codes := LabelCodes(IndexMap(itolab), t.edges);
      forall j :: 0 <= j < |t.edges| ==> codes[j] < |itolab| && itolab[codes[j]] == t.edges[j].lbl
  {
    forall j | 0 <= j < |t.edges|
      ensures t.edges[j].lbl in IndexMap(itolab)
    {
      assert t.edges[j] in t.edges;
      assert t.edges[j].lbl in LabelSet(treelist);
    }
  }

  /** The label codes are exactly the positions in the label list. */
  lemma LabelTableInverse(itolab: seq<string>, treelist: seq<Tree>)
    requires IsLabelList(itolab, treelist)
    ensures IndexMap(itolab).Keys == LabelSet(treelist)
    ensures forall i :: 0 <= i < |itolab| ==> IndexMap(itolab)[itolab[i]] == i
  {
    IndexMapInverse(itolab);
  }

  /** The edge-task row of one tree: its word codes and its governor positions. */
  ghost predicate EdgeRow(stoi: map<string, nat>, t: Tree, words: seq<WordCode>, govs: seq<int>) {
    words == WordCodes(stoi, t.words) && govs == GovIndexes(t)
  }

  /** `xdep` and `refidxes` hold the edge-task rows of the trees, in tree order. */
  ghost predicate EdgeRows(stoi: map<string, nat>, treelist: seq<Tree>, xdep: seq<seq<WordCode>>, refidxes: seq<seq<int>>) {
    && |xdep| == |treelist| && |refidxes| == |treelist|
    && forall k :: 0 <= k < |treelist| ==> EdgeRow(stoi, treelist[k], xdep[k], refidxes[k])
  }

  /** Every label of the trees has a code. */
  predicate LabelsKnown(labtoi: map<string, nat>, treelist: seq<Tree>) {
    forall k :: 0 <= k < |treelist| ==> EdgeLabelsKnown(labtoi, treelist[k].edges)
  }

  /** Every label of the edges has a code. */
  predicate EdgeLabelsKnown(labtoi: map<string, nat>, edges: seq<Edge>) {
    forall j :: 0 <= j < |edges| ==> edges[j].lbl in labtoi
  }

  /** The labelling-task row of one tree: its shifted governors, shifted dependents and label codes. */
  ghost predicate LabelRow(labtoi: map<string, nat>, t: Tree, govs: seq<int>, deps: seq<int>, labels: seq<nat>)
    requires EdgeLabelsKnown(labtoi, t.edges)
  {
    govs == ShiftedGovs(t.edges) && deps == ShiftedDeps(t.edges) && labels == LabelCodes(labtoi, t.edges)
  }

  /** `refgovs`, `refdeps` and `reflabels` hold the labelling-task rows of the trees, in tree order. */
  ghost predicate LabelRows(labtoi: map<string, nat>, treelist: seq<Tree>,
                            refgovs: seq<seq<int>>, refdeps: seq<seq<int>>, reflabels: seq<seq<nat>>)
    requires LabelsKnown(labtoi, treelist)
  {
    && |refgovs| == |treelist| && |refdeps| == |treelist| && |reflabels| == |treelist|
    && forall k :: 0 <= k < |treelist| ==> LabelRow(labtoi, treelist[k], refgovs[k], refdeps[k], reflabels[k])
  }

  /**
   * `init_vocab` on values: every word of the trees and the three reserved
   * tokens once, their indices, and the index of `<pad>`.
   */
  method BuildVocab(treelist: seq<Tree>) returns (itos: seq<string>, stoi: map<string, nat>, padWordIdx: int)
    ensures IsVocab(itos, treelist)
    ensures stoi == IndexMap(itos)
    ensures forall i :: 0 <= i < |itos| ==> stoi[itos[i]] == i
    ensures 0 <= padWordIdx < |itos| && itos[padWordIdx] == PAD_WORD && padWordIdx == stoi[PAD_WORD]
  {
    var vocab := WordSet(treelist) + {ROOT, UNK_WORD, PAD_WORD};
    itos := Enumerate(vocab);
    stoi := IndexMap(itos);
    IndexMapInverse(itos);
    assert PAD_WORD in itos;
    padWordIdx := stoi[PAD_WORD];
  }

  /** `init_labels` on values: every label of the trees once, and their indices. */
  method BuildLabels(treelist: seq<Tree>) returns (itolab: seq<string>, labtoi: map<string, nat>)
    ensures IsLabelList(itolab, treelist)
    ensures labtoi == IndexMap(itolab)
    ensures LabelsKnown(labtoi, treelist)
  {
    itolab := Enumerate(LabelSet(treelist));
    labtoi := IndexMap(itolab);
    forall k, j | 0 <= k < |treelist| && 0 <= j < |treelist[k].edges|
      ensures treelist[k].edges[j].lbl in labtoi
    {
      assert treelist[k] in treelist && treelist[k].edges[j] in treelist[k].edges;
    }
    assert forall k :: 0 <= k < |treelist| ==> EdgeLabelsKnown(labtoi, treelist[k].edges);
  }

  /** The loop of `preprocess_edges`: one row of word codes and one row of governor positions per tree, in tree order. */
  method EncodeEdges(stoi: map<string, nat>, treelist: seq<Tree>) returns (xdep: seq<seq<WordCode>>, refidxes: seq<seq<int>>)
    ensures EdgeRows(stoi, treelist, xdep, refidxes)
  {
    xdep := [];
    refidxes := [];
    for i := 0 to |treelist|
      invariant |xdep| == i && |refidxes| == i
      invariant forall k :: 0 <= k < i ==> EdgeRow(stoi, treelist[k], xdep[k], refidxes[k])
    {
      var tree := treelist[i];
      var depwordIdxes := WordCodes(stoi, tree.words);
      var govIdxes := GovIndexes(tree);
      xdep := xdep + [depwordIdxes];
      refidxes := refidxes + [govIdxes];
    }
  }

  /** The loop of `preprocess_labels`: one row of shifted governors, shifted dependents and label codes per tree, in tree order. */
  method EncodeLabels(labtoi: map<string, nat>, treelist: seq<Tree>)
    returns (refgovs: seq<seq<int>>, refdeps: seq<seq<int>>, reflabels: seq<seq<nat>>)
    requires LabelsKnown(labtoi, treelist)
    ensures LabelRows(labtoi, treelist, refgovs, refdeps, reflabels)
  {
    refdeps := [];
    refgovs := [];
    reflabels := [];
    for i := 0 to |treelist|
      invariant |refgovs| == i && |refdeps| == i && |reflabels| == i
      invariant forall k :: 0 <= k < i ==> LabelRow(labtoi, treelist[k], refgovs[k], refdeps[k], reflabels[k])
    {
      var tree := treelist[i];
      refgovs := refgovs + [ShiftedGovs(tree.edges)];
      refdeps := refdeps + [ShiftedDeps(tree.edges)];
      reflabels := reflabels + [LabelCodes(labtoi, tree.edges)];
    }
  }

  /** `shuffle(self.treelist)`, the random order given as the permutation `order`. */
  method ShuffleTrees(trees: seq<Tree>, order: seq<nat>) returns (shuffled: seq<Tree>)
    requires IsPermutation(order, |trees|)
    ensures |shuffled| == |trees| && multiset(shuffled) == multiset(trees)
    ensures forall k :: 0 <= k < |trees| ==> shuffled[k] == trees[order[k]]
  {
    shuffled := Gather(trees, order);
    GatherPermutation(trees, order);
  }

  /**
   * What `__init__` leaves in the dataset: the trees in the order of the
   * permutation, the vocabulary and its indices, the index of `<pad>`, the
   * labels and their indices, and both encodings of every tree.
   */
  ghost predicate Built(trees: seq<Tree>, order: seq<nat>, treelist: seq<Tree>,
                        itos: seq<string>, stoi: map<string, nat>, padWordIdx: int,
                        itolab: seq<string>, labtoi: map<string, nat>,
                        xdep: seq<seq<WordCode>>, refidxes: seq<seq<int>>,
                        refgovs: seq<seq<int>>, refdeps: seq<seq<int>>, reflabels: seq<seq<nat>>)
    requires IsPermutation(order, |trees|)
  {
    && |treelist| == |trees| && multiset(treelist) == multiset(trees)
    && (forall k :: 0 <= k < |trees| ==> treelist[k] == trees[order[k]])
    && IsVocab(itos, treelist) && stoi == IndexMap(itos)
    && 0 <= padWordIdx < |itos| && itos[padWordIdx] == PAD_WORD
    && IsLabelList(itolab, treelist) && labtoi == IndexMap(itolab)
    && EdgeRows(stoi, treelist, xdep, refidxes)
    && LabelsKnown(labtoi, treelist) && LabelRows(labtoi, treelist, refgovs, refdeps, reflabels)
  }

  /** The steps of `__init__` on values. */
  method Build(trees: seq<Tree>, order: seq<nat>)
    returns (treelist: seq<Tree>, itos: seq<string>, stoi: map<string, nat>, padWordIdx: int,
             itolab: seq<string>, labtoi: map<string, nat>,
             xdep: seq<seq<WordCode>>, refidxes: seq<seq<int>>,
             refgovs: seq<seq<int>>, refdeps: seq<seq<int>>, reflabels: seq<seq<nat>>)
    requires IsPermutation(order, |trees|)
    ensures Built(trees, order, treelist, itos, stoi, padWordIdx, itolab, labtoi, xdep, refidxes, refgovs, refdeps, reflabels)
  {
    treelist := ShuffleTrees(trees, order);
    itos, stoi, padWordIdx := BuildVocab(treelist);
    itolab, labtoi := BuildLabels(treelist);
    xdep, refidxes := EncodeEdges(stoi, treelist);
    refgovs, refdeps, reflabels := EncodeLabels(labtoi, treelist);
  }

  class DependencyDataset {
    const treelist: seq<Tree>

    var itos: seq<string>
    var stoi: map<string, nat>
    /** `DependencyDataset.PAD_WORD_IDX`, -1 until `init_vocab` sets it. */
    var padWordIdx: int
    var itolab: seq<string>
    var labtoi: map<string, nat>

    var xdep: seq<seq<WordCode>>
    var refidxes: seq<seq<int>>
    var refgovs: seq<seq<int>>
    var refdeps: seq<seq<int>>
    var reflabels: seq<seq<nat>>

    /**
     * `__init__`: the trees read from the file, in the order of the random
     * permutation `order`, then the vocabulary, the labels and both
     * encodings, each step as the method of the same name performs it.
     */
    constructor (trees: seq<Tree>, order: seq<nat>)
      requires IsPermutation(order, |trees|)
      ensures Built(trees, order, treelist, itos, stoi, padWordIdx, itolab, labtoi, xdep, refidxes, refgovs, refdeps, reflabels)
    {
      var t, vocab, codes, pad, labelList, labelCodes, words, govs, shiftedGovs, shiftedDeps, labelRows := Build(trees, order);
      treelist, itos, stoi, padWordIdx := t, vocab, codes, pad;
      itolab, labtoi := labelList, labelCodes;
      xdep, refidxes := words, govs;
      refgovs, refdeps, reflabels := shiftedGovs, shiftedDeps, labelRows;
    }

    /** `init_vocab` */
    method InitVocab()
      modifies this`itos, this`stoi, this`padWordIdx
      ensures IsVocab(itos, treelist) && stoi == IndexMap(itos)
      ensures 0 <= padWordIdx < |itos| && itos[padWordIdx] == PAD_WORD
    {
      var words, table, padIdx := BuildVocab(treelist);
      itos, stoi, padWordIdx := words, table, padIdx;
    }

    /** `init_labels` */
    method InitLabels()
      modifies this`itolab, this`labtoi
      ensures IsLabelList(itolab, treelist) && labtoi == IndexMap(itolab)
      ensures LabelsKnown(labtoi, treelist)
    {
      itolab, labtoi := BuildLabels(treelist);
    }

    /** `preprocess_edges`: the edge-task lists are rebuilt from the trees. */
    method PreprocessEdges()
      modifies this`xdep, this`refidxes
      ensures EdgeRows(stoi, treelist, xdep, refidxes)
    {
      xdep, refidxes := EncodeEdges(stoi, treelist);
    }

    /** `preprocess_labels`: the labelling-task lists are rebuilt from the trees; every label needs a code. */
    method PreprocessLabels()
      requires LabelsKnown(labtoi, treelist)
      modifies this`refgovs, this`refdeps, this`reflabels
      ensures LabelRows(labtoi, treelist, refgovs, refdeps, reflabels)
    {
      refgovs, refdeps, reflabels := EncodeLabels(labtoi, treelist);
    }
  }
}
