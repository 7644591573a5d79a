/**
 * `DependencyDataset` of src/graph_parser3.py: the label and tag tables, the
 * encoding of every tree into seven parallel lists, their reordering (random
 * or by sentence length) and the cutting of the lists into padded batches.
 */
module Dataset {
  import opened Tables
  import opened DepTree
  import opened Padding
  import opened Batches
  import opened Chars

  /**
   * `oracle_governors`: position `idx` holds the governor of the last edge
   * whose dependent is `idx`, and 0 where no edge has dependent `idx`.
   */
  function OracleGovernors(t: Tree): (r: seq<int>)
    ensures |r| == t.size
    ensures forall idx :: 0 <= idx < |r| && NoEdgeTo(t.edges, idx) ==> r[idx] == 0
    ensures forall k :: 0 <= k < |t.edges| && LastEdgeTo(t.edges, k) && 0 <= t.edges[k].dep < |r| ==>
              r[t.edges[k].dep] == t.edges[k].gov
  {
    var pairs := DepGovPairs(t.edges);
    var revEdges := DictOf(pairs);
    assert forall k :: 0 <= k < |t.edges| && LastEdgeTo(t.edges, k) ==> LastWithKey(pairs, k);
    assert forall idx :: NoEdgeTo(t.edges, idx) ==> idx !in revEdges;
    GetAll(revEdges, Range(t.size), 0)
  }

  /**
   * `oracle_labels`: position `idx` holds the label of the last edge whose
   * dependent is `idx`, and `<pad>` where no edge has dependent `idx`.
   */
  function OracleLabels(t: Tree): (r: seq<string>)
    ensures |r| == t.size
    ensures forall idx :: 0 <= idx < |r| && NoEdgeTo(t.edges, idx) ==> r[idx] == PAD_TOKEN
    ensures forall k :: 0 <= k < |t.edges| && LastEdgeTo(t.edges, k) && 0 <= t.edges[k].dep < |r| ==>
              r[t.edges[k].dep] == t.edges[k].lbl
  {
    var pairs := DepLabelPairs(t.edges);
    var revLabels := DictOf(pairs);
    assert forall k :: 0 <= k < |t.edges| && LastEdgeTo(t.edges, k) ==> LastWithKey(pairs, k);
    assert forall idx :: NoEdgeTo(t.edges, idx) ==> idx !in revLabels;
    GetAll(revLabels, Range(t.size), PAD_TOKEN)
  }

  /**
   * The tag codes of `encode`: a tag without a code gets the code of `<unk>`.
   * The default `tagtoi['<unk>']` is looked up for every tag, so a table
   * without `<unk>` raises `KeyError` on any non-empty tag list (`None`).
   */
  function EncodeTags(tagtoi: map<string, nat>, tags: seq<string>): (r: Option<seq<int>>)
    ensures r.None? <==> (tags != [] && UNK_WORD !in tagtoi)
    ensures r.Some? ==> |r.value| == |tags|
    ensures r.Some? ==> forall k :: 0 <= k < |tags| ==>
              r.value[k] == if tags[k] in tagtoi then tagtoi[tags[k]] else tagtoi[UNK_WORD]
  {
    if tags == [] then Some([])
    else if UNK_WORD !in tagtoi then None
    else Some(GetAll(tagtoi, tags, tagtoi[UNK_WORD]))
  }

  /** The label codes of `encode`: a label without a code gets 0. */
  function EncodeLabels(labtoi: map<string, nat>, labels: seq<string>): (r: seq<int>)
    ensures |r| == |labels|
    ensures forall k :: 0 <= k < |labels| ==> labels[k] !in labtoi ==> r[k] == 0
    ensures forall k :: 0 <= k < |labels| ==> labels[k] in labtoi ==> r[k] == labtoi[labels[k]]
  {
    GetAll(labtoi, labels, 0)
  }

  /**
   * Decoding the tag codes through the tag list gives the tags back, except
   * that a tag missing from the list comes back as `<unk>`.
   */
  lemma TagCodesRoundTrip(itotag: seq<string>, tags: seq<string>)
    requires UNK_WORD in itotag
    ensures EncodeTags(IndexMap(itotag), tags).Some?
    ensures var codes := EncodeTags(IndexMap(itotag), tags).value;
      forall k :: 0 <= k < |tags| ==>
        0 <= codes[k] < |itotag| && itotag[codes[k]] == if tags[k] in itotag then tags[k] else UNK_WORD
  {
  }

  /**
   * Decoding the label codes through a label list that starts with `<pad>`
   * gives the labels back, except that a label missing from the list comes
   * back as `<pad>`, like a position without an edge.
   */
  lemma LabelCodesRoundTrip(itolab: seq<string>, labels: seq<string>)
    requires |itolab| > 0 && itolab[0] == PAD_TOKEN
    ensures var codes := EncodeLabels(IndexMap(itolab), labels);
      forall k :: 0 <= k < |labels| ==>
        0 <= codes[k] < |itolab| && itolab[codes[k]] == if labels[k] in itolab then labels[k] else PAD_TOKEN
  {
  }

  /** The part-of-speech tags of all trees. */
  function TagSet(treelist: seq<Tree>): set<string> {
    set t, tag | t in treelist && tag in t.posTags :: tag
  }

  /** What `init_labels` builds, whatever order the set of labels comes in. */
  ghost predicate IsLabelTable(itolab: seq<string>, treelist: seq<Tree>) {
    && |itolab| > 0
    && itolab[0] == PAD_TOKEN
    && Distinct(itolab[1..])
    && (set x | x in itolab[1..]) == LabelSet(treelist)
  }

  /** What `init_tags` builds, whatever order the set of tags comes in. */
  ghost predicate IsTagTable(itotag: seq<string>, treelist: seq<Tree>, rootToken: string) {
    && |itotag| > 0
    && itotag[0] == PAD_TOKEN
    && Distinct(itotag[1..])
    && (set x | x in itotag[1..]) == TagSet(treelist) + {rootToken, UNK_WORD}
  }

  /**
   * A table built by `init_labels` or `init_tags` is inverted by its index
   * dictionary, unless `<pad>` also occurs in the data: then the dictionary
   * sends `<pad>` to its second position, not to 0.
   */
  lemma {:induction false} PaddedTableInverse(itos: seq<string>, entries: set<string>)
    requires |itos| > 0 && itos[0] == PAD_TOKEN && Distinct(itos[1..]) && (set x | x in itos[1..]) == entries
    ensures PAD_TOKEN !in entries ==> forall i :: 0 <= i < |itos| ==> IndexMap(itos)[itos[i]] == i
    ensures PAD_TOKEN in entries ==> IndexMap(itos)[PAD_TOKEN] != 0
  {
    if PAD_TOKEN !in entries {
      forall i, j | 0 <= i < j < |itos|
        ensures itos[i] != itos[j]
      {
        if i == 0 {
          assert itos[j] == itos[1..][j - 1];
        } else {
          assert itos[i] == itos[1..][i - 1] && itos[j] == itos[1..][j - 1];
        }
      }
      IndexMapInverse(itos);
    } else {
      var k :| 0 <= k < |itos[1..]| && itos[1..][k] == PAD_TOKEN;
      assert itos[k + 1] == PAD_TOKEN;
    }
  }

  /** `map(len, lists)` */
  function Lengths<T>(lists: seq<seq<T>>): (r: seq<int>)
    ensures |r| == |lists|
    ensures forall k :: 0 <= k < |lists| ==> r[k] == |lists[k]|
  {
    seq(|lists|, k requires 0 <= k < |lists| => |lists[k]|)
  }

  /**
   * Sentence `a` precedes sentence `b` in `sorted(zip(order, lengths),
   * key=length)`: the shorter one first and, the sort being stable, the one
   * with the smaller index when the lengths are equal.
   */
  predicate SortsBefore(lens: seq<int>, a: nat, b: nat) {
    a < |lens| && b < |lens| && (lens[a] < lens[b] || (lens[a] == lens[b] && a < b))
  }

  predicate OrderedBy(lens: seq<int>, order: seq<nat>) {
    forall i, j :: 0 <= i < j < |order| ==> SortsBefore(lens, order[i], order[j])
  }

  /** One insertion step: index `k`, larger than all indices in `order`, goes after every index not longer than it. */
  function InsertIndex(lens: seq<int>, order: seq<nat>, k: nat): (r: seq<nat>)
    requires k < |lens| && OrderedBy(lens, order)
    requires forall i :: 0 <= i < |order| ==> order[i] < k
    ensures multiset(r) == multiset(order) + multiset{k}
    ensures forall i :: 0 <= i < |r| ==> r[i] <= k
    ensures OrderedBy(lens, r)
  {
    if order == [] then [k]
    else if lens[order[0]] <= lens[k] then
      var rest := InsertIndex(lens, order[1..], k);
      InsertAfterHead(lens, order, rest, k);
      assert order == [order[0]] + order[1..];
      [order[0]] + rest
    else
      [k] + order
  }

  /** Putting the head of an ordered list back in front of its tail with `k` inserted keeps the order. */
  lemma InsertAfterHead(lens: seq<int>, order: seq<nat>, rest: seq<nat>, k: nat)
    requires order != [] && k < |lens| && OrderedBy(lens, order) && OrderedBy(lens, rest)
    requires order[0] < k && lens[order[0]] <= lens[k]
    requires multiset(rest) == multiset(order[1..]) + multiset{k}
    ensures OrderedBy(lens, [order[0]] + rest)
  {
    forall j | 0 <= j < |rest|
      ensures SortsBefore(lens, order[0], rest[j])
    {
      assert rest[j] in multiset(rest);
      if rest[j] != k {
        assert rest[j] in multiset(order[1..]);
        var i :| 0 <= i < |order[1..]| && order[1..][i] == rest[j];
        assert order[i + 1] == rest[j];
      }
    }
    var r := [order[0]] + rest;
    forall i, j | 0 <= i < j < |r|
      ensures SortsBefore(lens, r[i], r[j])
    {
      if i > 0 { assert r[i] == rest[i - 1] && r[j] == rest[j - 1]; }
    }
  }

  /** The indices below `n`, in stable order of length. */
  function SortPrefix(lens: seq<int>, n: nat): (r: seq<nat>)
    requires n <= |lens|
    ensures multiset(r) == multiset(Range(n))
    ensures forall i :: 0 <= i < |r| ==> r[i] < n
    ensures OrderedBy(lens, r)
  {
    if n == 0 then []
    else
      assert Range(n) == Range(n - 1) + [n - 1];
      InsertIndex(lens, SortPrefix(lens, n - 1), n - 1)
  }

  /**
   * The `order` of `order_data`: a permutation of the sentence indices with
   * non-decreasing lengths, sentences of equal length in their original order.
   */
  function StableOrder(lens: seq<int>): (order: seq<nat>)
    ensures IsPermutation(order, |lens|)
    ensures forall i, j :: 0 <= i < j < |order| ==> lens[order[i]] <= lens[order[j]]
    ensures forall i, j :: 0 <= i < j < |order| && lens[order[i]] == lens[order[j]] ==> order[i] < order[j]
  {
    SortPrefix(lens, |lens|)
  }

  /** One yielded batch of `make_batches`. */
  datatype Batch = Batch(
    words: seq<seq<string>>,
    mwe: seq<seq<MweRange>>,
    chars: seq<seq<seq<int>>>,
    cats: seq<seq<string>>,
    deps: seq<seq<int>>,
    tags: seq<seq<int>>,
    heads: seq<seq<int>>,
    labels: seq<seq<int>>)

  /** What `encode` appends to the seven lists for one tree. */
  datatype Encoded = Encoded(
    deps: seq<int>,
    tags: seq<int>,
    heads: seq<int>,
    labels: seq<int>,
    words: seq<string>,
    cats: seq<string>,
    mweRanges: seq<MweRange>)

  /**
   * The encoding of one tree: its word codes from the lexer (`wordIdxes`), its
   * tag codes, its governors, its label codes, and its words, tags and ranges
   * as they are. `None` when its tags raise.
   */
  function EncodeTree(tagtoi: map<string, nat>, labtoi: map<string, nat>, t: Tree, wordIdxes: seq<int>): (r: Option<Encoded>)
    ensures r.None? <==> (t.posTags != [] && UNK_WORD !in tagtoi)
    ensures r.Some? ==> |r.value.tags| == |t.posTags| && |r.value.heads| == t.size && |r.value.labels| == t.size
  {
    match EncodeTags(tagtoi, t.posTags)
    case None => None
    case Some(tags) =>
      Some(Encoded(wordIdxes, tags, OracleGovernors(t), EncodeLabels(labtoi, OracleLabels(t)), t.words, t.posTags, t.mweRanges))
  }

  /** No tree of the list makes `encode` raise: `<unk>` has a code, or no tree has tags. */
  predicate Encodable(tagtoi: map<string, nat>, trees: seq<Tree>) {
    UNK_WORD in tagtoi || forall j :: 0 <= j < |trees| ==> trees[j].posTags == []
  }

  /** `Encodable` holds exactly when every tree of the list has an encoding. */
  lemma EncodableIff(tagtoi: map<string, nat>, labtoi: map<string, nat>, trees: seq<Tree>, tokenized: seq<seq<int>>)
    requires |tokenized| == |trees|
    ensures Encodable(tagtoi, trees) <==> forall j :: 0 <= j < |trees| ==> EncodeTree(tagtoi, labtoi, trees[j], tokenized[j]).Some?
  {
  }

  /** The seven parallel lists of the dataset: entry `i` of each belongs to sentence `i`. */
  datatype Columns = Columns(
    deps: seq<seq<int>>,
    tags: seq<seq<int>>,
    heads: seq<seq<int>>,
    labels: seq<seq<int>>,
    words: seq<seq<string>>,
    cats: seq<seq<string>>,
    mweRanges: seq<seq<MweRange>>)
  {
    predicate Parallel() {
      && |tags| == |deps| && |heads| == |deps| && |labels| == |deps|
      && |words| == |deps| && |cats| == |deps| && |mweRanges| == |deps|
    }

    /** Sentence `i` of the seven lists. */
    function Row(i: nat): Encoded
      requires Parallel() && i < |deps|
    {
      Encoded(deps[i], tags[i], heads[i], labels[i], words[i], cats[i], mweRanges[i])
    }

    /** The seven lists with one more sentence at the end. */
    function Append(e: Encoded): (r: Columns)
      requires Parallel()
      ensures r.Parallel() && |r.deps| == |deps| + 1 && r.Row(|deps|) == e
      ensures forall i :: 0 <= i < |deps| ==> r.Row(i) == Row(i)
    {
      Columns(deps + [e.deps], tags + [e.tags], heads + [e.heads], labels + [e.labels],
              words + [e.words], cats + [e.cats], mweRanges + [e.mweRanges])
    }
  }

  /** The seven lists, each reordered by the same `order`. */
  function Permute(c: Columns, order: seq<nat>): (r: Columns)
    requires c.Parallel() && forall k :: 0 <= k < |order| ==> order[k] < |c.deps|
    ensures r.Parallel() && |r.deps| == |order|
    ensures forall k :: 0 <= k < |order| ==> r.Row(k) == c.Row(order[k])
  {
    Columns(Gather(c.deps, order), Gather(c.tags, order), Gather(c.heads, order), Gather(c.labels, order),
            Gather(c.words, order), Gather(c.cats, order), Gather(c.mweRanges, order))
  }

  /** Reordering by `o1` and then by `o2` is reordering by `o1` taken in `o2` order. */
  lemma PermuteTwice(c: Columns, o1: seq<nat>, o2: seq<nat>)
    requires c.Parallel() && forall k :: 0 <= k < |o1| ==> o1[k] < |c.deps|
    requires forall k :: 0 <= k < |o2| ==> o2[k] < |o1|
    ensures Permute(Permute(c, o1), o2) == Permute(c, Gather(o1, o2))
  {
  }

  /**
   * `encode` run to the end: the rows of all trees, in tree order, `tokenized`
   * holding the lexer's word codes of each tree. Defined for lists of trees
   * that can all be encoded.
   */
  function EncodeColumns(tagtoi: map<string, nat>, labtoi: map<string, nat>, trees: seq<Tree>, tokenized: seq<seq<int>>)
    : (c: Columns)
    requires |tokenized| == |trees| && Encodable(tagtoi, trees)
    ensures c.Parallel() && |c.deps| == |trees|
  {
    if trees == [] then Columns([], [], [], [], [], [], [])
    else
      var n := |trees| - 1;
      var c0 := EncodeColumns(tagtoi, labtoi, trees[..n], tokenized[..n]);
      c0.Append(EncodeTree(tagtoi, labtoi, trees[n], tokenized[n]).value)
  }

  /** One step of `encode`: encoding one more tree appends its row. */
  lemma EncodeColumnsStep(tagtoi: map<string, nat>, labtoi: map<string, nat>, trees: seq<Tree>, tokenized: seq<seq<int>>, i: nat)
    requires |tokenized| == |trees| && i < |trees| && Encodable(tagtoi, trees[..i])
    requires EncodeTree(tagtoi, labtoi, trees[i], tokenized[i]).Some?
    ensures Encodable(tagtoi, trees[..i + 1])
    ensures EncodeColumns(tagtoi, labtoi, trees[..i + 1], tokenized[..i + 1])
         == EncodeColumns(tagtoi, labtoi, trees[..i], tokenized[..i]).Append(EncodeTree(tagtoi, labtoi, trees[i], tokenized[i]).value)
  {
    assert trees[..i + 1][..i] == trees[..i];
    assert tokenized[..i + 1][..i] == tokenized[..i];
  }

  /** Row `i` of the encoded lists is the encoding of tree `i`. */
  lemma {:induction false} EncodeColumnsRow(tagtoi: map<string, nat>, labtoi: map<string, nat>, trees: seq<Tree>,
                                            tokenized: seq<seq<int>>, i: nat)
    requires |tokenized| == |trees| && Encodable(tagtoi, trees) && i < |trees|
    ensures EncodeTree(tagtoi, labtoi, trees[i], tokenized[i]) == Some(EncodeColumns(tagtoi, labtoi, trees, tokenized).Row(i))
    decreases |trees|
  {
    var n := |trees| - 1;
    var prefix, prefixTokens := trees[..n], tokenized[..n];
    assert Encodable(tagtoi, prefix);
    var c0 := EncodeColumns(tagtoi, labtoi, prefix, prefixTokens);
    var r := EncodeTree(tagtoi, labtoi, trees[n], tokenized[n]);
    assert r.Some?;
    var e := r.value;
    assert EncodeColumns(tagtoi, labtoi, trees, tokenized) == c0.Append(e);
    if i < n {
      EncodeColumnsRow(tagtoi, labtoi, prefix, prefixTokens, i);
      assert prefix[i] == trees[i] && prefixTokens[i] == tokenized[i];
      assert c0.Append(e).Row(i) == c0.Row(i);
      assert EncodeTree(tagtoi, labtoi, trees[i], tokenized[i]) == Some(c0.Row(i));
    } else {
      assert i == n;
      assert c0.Append(e).Row(n) == e;
      assert r == Some(e);
    }
  }

  /**
   * The loop of `encode`: the trees are encoded in order until one of them
   * raises. `ok` tells whether all were encoded; `encoded` holds the rows of
   * the trees before the one that raised.
   */
  method EncodeTrees(tagtoi: map<string, nat>, labtoi: map<string, nat>, trees: seq<Tree>, tokenized: seq<seq<int>>)
    returns (encoded: Columns, ok: bool)
    requires |tokenized| == |trees|
    ensures ok <==> Encodable(tagtoi, trees)
    ensures ok <==> |encoded.deps| == |trees|
    ensures |encoded.deps| <= |trees| && Encodable(tagtoi, trees[..|encoded.deps|])
    ensures encoded == EncodeColumns(tagtoi, labtoi, trees[..|encoded.deps|], tokenized[..|encoded.deps|])
    ensures !ok ==> EncodeTree(tagtoi, labtoi, trees[|encoded.deps|], tokenized[|encoded.deps|]).None?
    ensures ok ==> encoded == EncodeColumns(tagtoi, labtoi, trees, tokenized)
  {
    encoded := Columns([], [], [], [], [], [], []);
    for i := 0 to |trees|
      invariant Encodable(tagtoi, trees[..i])
      invariant encoded == EncodeColumns(tagtoi, labtoi, trees[..i], tokenized[..i])
    {
      var row := EncodeTree(tagtoi, labtoi, trees[i], tokenized[i]);
      if row.None? {
        return encoded, false;
      }
      EncodeColumnsStep(tagtoi, labtoi, trees, tokenized, i);
      encoded := encoded.Append(row.value);
    }
    assert trees[..|trees|] == trees && tokenized[..|trees|] == tokenized;
    return encoded, true;
  }

  /**
   * What `make_batches` does to the lists before cutting them: shuffle them
   * by `dataOrder` if asked, then sort them stably by sentence length if asked.
   */
  function Prepare(c: Columns, shuffleData: bool, orderByLength: bool, dataOrder: seq<nat>): (r: Columns)
    requires c.Parallel() && (shuffleData ==> IsPermutation(dataOrder, |c.deps|))
    ensures r.Parallel() && |r.deps| == |c.deps|
  {
    var c1 := if shuffleData then Permute(c, dataOrder) else c;
    if orderByLength then Permute(c1, StableOrder(Lengths(c1.deps))) else c1
  }

  /** The order in which `Prepare` leaves the sentences. */
  function PrepareOrder(c: Columns, shuffleData: bool, orderByLength: bool, dataOrder: seq<nat>): seq<nat>
    requires c.Parallel() && (shuffleData ==> IsPermutation(dataOrder, |c.deps|))
  {
    var o1 := if shuffleData then dataOrder else Range(|c.deps|);
    if orderByLength then Gather(o1, StableOrder(Gather(Lengths(c.deps), o1))) else o1
  }

  /** Reordering by the identity order changes nothing. */
  lemma PermuteRange(c: Columns)
    requires c.Parallel()
    ensures Permute(c, Range(|c.deps|)) == c
  {
    var r := Permute(c, Range(|c.deps|));
    assert r.deps == c.deps && r.tags == c.tags && r.heads == c.heads && r.labels == c.labels;
    assert r.words == c.words && r.cats == c.cats && r.mweRanges == c.mweRanges;
  }

  /** The sentence lengths of reordered lists are the lengths, reordered. */
  lemma LengthsPermute(c: Columns, order: seq<nat>)
    requires c.Parallel() && forall k :: 0 <= k < |order| ==> order[k] < |c.deps|
    ensures Lengths(Permute(c, order).deps) == Gather(Lengths(c.deps), order)
  {
    var r := Permute(c, order);
    forall k | 0 <= k < |order|
      ensures |r.deps[k]| == |c.deps[order[k]]|
    {
      assert r.Row(k) == c.Row(order[k]);
    }
  }

  /** After `order_data`, the sentence lengths never decrease. */
  lemma OrderedByLength(c: Columns)
    requires c.Parallel()
    ensures var r := Permute(c, StableOrder(Lengths(c.deps)));
      forall i, j :: 0 <= i < j < |r.deps| ==> |r.deps[i]| <= |r.deps[j]|
  {
    var order := StableOrder(Lengths(c.deps));
    var r := Permute(c, order);
    forall i, j | 0 <= i < j < |r.deps|
      ensures |r.deps[i]| <= |r.deps[j]|
    {
      assert r.Row(i) == c.Row(order[i]) && r.Row(j) == c.Row(order[j]);
    }
  }

  /** Ordering by length lists reordered by `o1` reorders the original lists by `o1` taken in the sorted order. */
  lemma OrderAfterPermute(c: Columns, o1: seq<nat>)
    requires c.Parallel() && IsPermutation(o1, |c.deps|)
    ensures var o2 := StableOrder(Gather(Lengths(c.deps), o1));
      && IsPermutation(Gather(o1, o2), |c.deps|)
      && Permute(Permute(c, o1), StableOrder(Lengths(Permute(c, o1).deps))) == Permute(c, Gather(o1, o2))
  {
    var o2 := StableOrder(Gather(Lengths(c.deps), o1));
    LengthsPermute(c, o1);
    PermuteTwice(c, o1, o2);
    ComposePermutations(o1, o2, |c.deps|);
  }

  /**
   * `Prepare` is a reordering of the sentences: a permutation of them, and
   * sorted by length when `orderByLength` is set.
   */
  lemma PrepareIsPermutation(c: Columns, shuffleData: bool, orderByLength: bool, dataOrder: seq<nat>)
    requires c.Parallel() && (shuffleData ==> IsPermutation(dataOrder, |c.deps|))
    ensures IsPermutation(PrepareOrder(c, shuffleData, orderByLength, dataOrder), |c.deps|)
    ensures Prepare(c, shuffleData, orderByLength, dataOrder) == Permute(c, PrepareOrder(c, shuffleData, orderByLength, dataOrder))
    ensures orderByLength ==> var r := Prepare(c, shuffleData, orderByLength, dataOrder);
              forall i, j :: 0 <= i < j < |r.deps| ==> |r.deps[i]| <= |r.deps[j]|
  {
    var n := |c.deps|;
    var o1 := if shuffleData then dataOrder else Range(n);
    if !shuffleData {
      PermuteRange(c);
      assert IsPermutation(o1, n);
    }
    var c1 := Permute(c, o1);
    if orderByLength {
      OrderAfterPermute(c, o1);
      OrderedByLength(c1);
    }
  }

  /**
   * The batch starting at `i`: the slices of the seven lists, the four numeric
   * ones padded with PAD_IDX, and the character codes of the words.
   */
  ghost predicate BatchAt(c: Columns, ds: CharDataSet, b: Batch, i: nat, batchSize: nat) {
    && c.Parallel() && i <= |c.deps|
    && b.words == Slice(c.words, i, batchSize)
    && b.mwe == Slice(c.mweRanges, i, batchSize)
    && b.cats == Slice(c.cats, i, batchSize)
    && IsPadding(b.deps, Slice(c.deps, i, batchSize), MaxLen(Slice(c.deps, i, batchSize)), PAD_IDX)
    && IsPadding(b.tags, Slice(c.tags, i, batchSize), MaxLen(Slice(c.tags, i, batchSize)), PAD_IDX)
    && IsPadding(b.heads, Slice(c.heads, i, batchSize), MaxLen(Slice(c.heads, i, batchSize)), PAD_IDX)
    && IsPadding(b.labels, Slice(c.labels, i, batchSize), MaxLen(Slice(c.labels, i, batchSize)), PAD_IDX)
    && IsCharBatch(ds, b.words, b.chars)
  }

  /** One iteration of the loop of `make_batches`: the batch starting at `i`. */
  method MakeBatch(c: Columns, ds: CharDataSet, i: nat, batchSize: nat) returns (b: Batch)
    requires c.Parallel() && i < |c.deps| && batchSize > 0
    ensures BatchAt(c, ds, b, i, batchSize)
    ensures |b.words| == Min(batchSize, |c.deps| - i)
  {
    var d := PadBatch(Slice(c.deps, i, batchSize), PAD_IDX);
    var t := PadBatch(Slice(c.tags, i, batchSize), PAD_IDX);
    var h := PadBatch(Slice(c.heads, i, batchSize), PAD_IDX);
    var l := PadBatch(Slice(c.labels, i, batchSize), PAD_IDX);
    var ws := Slice(c.words, i, batchSize);
    var chars := BatchChars(ds, ws);
    b := Batch(ws, Slice(c.mweRanges, i, batchSize), chars.value, Slice(c.cats, i, batchSize), d.value, t.value, h.value, l.value);
  }

  /**
   * The batches of `make_batches` over lists already encoded and reordered:
   * one per start of `range(0, N, batchSize)`, the starts taken in
   * `batchOrder` order when `shuffleBatches` is set; none for a negative
   * `batchSize`.
   */
  method BatchList(c: Columns, ds: CharDataSet, batchSize: int, shuffleBatches: bool, batchOrder: seq<nat>)
    returns (batches: seq<Batch>)
    requires c.Parallel() && batchSize != 0
    requires shuffleBatches ==> IsPermutation(batchOrder, |RangeStep(0, |c.deps|, batchSize)|)
    ensures var starts := RangeStep(0, |c.deps|, batchSize);
      var order := if shuffleBatches then Gather(starts, batchOrder) else starts;
      && |batches| == |order|
      && forall k :: 0 <= k < |batches| ==> BatchAt(c, ds, batches[k], order[k], batchSize)
  {
    var starts := RangeStep(0, |c.deps|, batchSize);
    if batchSize < 0 {
      return [];
    }
    var order := starts;
    if shuffleBatches {
      PermutationBounds(batchOrder, |starts|);
      order := Gather(starts, batchOrder);
    }
    batches := CutBatches(c, ds, batchSize, order);
  }

  /**
   * The loop of `make_batches`: one batch per start index, in the order of
   * `starts`.
   */
  method CutBatches(c: Columns, ds: CharDataSet, batchSize: nat, starts: seq<nat>) returns (batches: seq<Batch>)
    requires c.Parallel() && batchSize > 0
    requires forall k :: 0 <= k < |starts| ==> starts[k] < |c.deps|
    ensures |batches| == |starts|
    ensures forall k :: 0 <= k < |batches| ==> BatchAt(c, ds, batches[k], starts[k], batchSize)
  {
    batches := [];
    for k := 0 to |starts|
      invariant |batches| == k
      invariant forall j :: 0 <= j < k ==> BatchAt(c, ds, batches[j], starts[j], batchSize)
    {
      var b := MakeBatch(c, ds, starts[k], batchSize);
      batches := batches + [b];
    }
  }

  /** `init_labels` on values: `<pad>` at index 0, then every label of the trees once, and their indices. */
  method BuildLabelTable(treelist: seq<Tree>) returns (itolab: seq<string>, labtoi: map<string, nat>)
    ensures IsLabelTable(itolab, treelist)
    ensures labtoi == IndexMap(itolab)
  {
    var labelList := Enumerate(LabelSet(treelist));
    itolab := [PAD_TOKEN] + labelList;
    assert itolab[1..] == labelList;
    labtoi := IndexMap(itolab);
  }

  /** `init_tags` on values: `<pad>` at index 0, then every tag of the trees, the root token and `<unk>` once, and their indices. */
  method BuildTagTable(treelist: seq<Tree>, rootToken: string) returns (itotag: seq<string>, tagtoi: map<string, nat>)
    ensures IsTagTable(itotag, treelist, rootToken)
    ensures tagtoi == IndexMap(itotag)
  {
    var tagList := Enumerate(TagSet(treelist) + {rootToken, UNK_WORD});
    itotag := [PAD_TOKEN] + tagList;
    assert itotag[1..] == tagList;
    tagtoi := IndexMap(itotag);
  }

  /**
   * The tables `__init__` leaves: a given non-empty table is kept, otherwise
   * it is built from the trees; each index dictionary is built from its table.
   */
  ghost predicate TablesBuilt(treelist: seq<Tree>, useLabels: seq<string>, useTags: seq<string>, rootToken: string,
                              itolab: seq<string>, labtoi: map<string, nat>, itotag: seq<string>, tagtoi: map<string, nat>)
  {
    && labtoi == IndexMap(itolab) && tagtoi == IndexMap(itotag)
    && (|useLabels| > 0 ==> itolab == useLabels)
    && (|useLabels| == 0 ==> IsLabelTable(itolab, treelist))
    && (|useTags| > 0 ==> itotag == useTags)
    && (|useTags| == 0 ==> IsTagTable(itotag, treelist, rootToken))
  }

  /** The table steps of `__init__` on values. */
  method BuildTables(treelist: seq<Tree>, useLabels: seq<string>, useTags: seq<string>, rootToken: string)
    returns (itolab: seq<string>, labtoi: map<string, nat>, itotag: seq<string>, tagtoi: map<string, nat>)
    ensures TablesBuilt(treelist, useLabels, useTags, rootToken, itolab, labtoi, itotag, tagtoi)
  {
    if |useLabels| > 0 {
      itolab, labtoi := useLabels, IndexMap(useLabels);
    } else {
      itolab, labtoi := BuildLabelTable(treelist);
    }
    if |useTags| > 0 {
      itotag, tagtoi := useTags, IndexMap(useTags);
    } else {
      itotag, tagtoi := BuildTagTable(treelist, rootToken);
    }
  }

  /**
   * The dataset object: the label and tag tables and the seven parallel lists
   * that `Encode` fills and `ShuffleData` and `OrderData` reorder in place.
   */
  class DependencyDataset {
    /**
     * `lexer.tokenize(tree.words)` for every tree of `treelist`, in order: the
     * lexer is not part of this model, so its word codes are given.
     */
    const tokenized: seq<seq<int>>
    const charDataset: CharDataSet
    const treelist: seq<Tree>

    var itolab: seq<string>
    var labtoi: map<string, nat>
    var itotag: seq<string>
    var tagtoi: map<string, nat>

    var deps: seq<seq<int>>
    var heads: seq<seq<int>>
    var labels: seq<seq<int>>
    var tags: seq<seq<int>>
    var words: seq<seq<string>>
    var mweRanges: seq<seq<MweRange>>
    var cats: seq<seq<string>>

    /** The seven lists. */
    function Lists(): Columns
      reads this
    {
      Columns(deps, tags, heads, labels, words, cats, mweRanges)
    }

    /**
     * `__init__`: a non-empty `useLabels` (`useTags`) list is taken as the
     * label (tag) table, an empty one is treated like a missing one and the
     * table is built from the trees. `rootToken` is `DepGraph.ROOT_TOKEN`.
     * The seven lists start empty; `encode` fills them.
     */
    constructor (treelist: seq<Tree>, tokenized: seq<seq<int>>, charDataset: CharDataSet,
                 useLabels: seq<string>, useTags: seq<string>, rootToken: string)
      requires |tokenized| == |treelist|
      ensures this.treelist == treelist && this.tokenized == tokenized && this.charDataset == charDataset
      ensures TablesBuilt(treelist, useLabels, useTags, rootToken, itolab, labtoi, itotag, tagtoi)
      ensures Lists().Parallel() && deps == []
    {
      this.treelist := treelist;
      this.tokenized := tokenized;
      this.charDataset := charDataset;
      var labelTable, labelCodes, tagTable, tagCodes := BuildTables(treelist, useLabels, useTags, rootToken);
      itolab, labtoi, itotag, tagtoi := labelTable, labelCodes, tagTable, tagCodes;
      deps, heads, labels, tags := [], [], [], [];
      words, mweRanges, cats := [], [], [];
    }

    /** `init_labels` */
    method InitLabels(treelist: seq<Tree>)
      modifies this`itolab, this`labtoi
      ensures IsLabelTable(itolab, treelist)
      ensures labtoi == IndexMap(itolab)
    {
      itolab, labtoi := BuildLabelTable(treelist);
    }

    /** `init_tags` */
    method InitTags(treelist: seq<Tree>, rootToken: string)
      modifies this`itotag, this`tagtoi
      ensures IsTagTable(itotag, treelist, rootToken)
      ensures tagtoi == IndexMap(itotag)
    {
      itotag, tagtoi := BuildTagTable(treelist, rootToken);
    }

    /**
     * `encode`: the seven lists are rebuilt from the trees, in tree order.
     * When a tree's tags cannot be encoded (no `<unk>` in the tag table) the
     * program raises; here `ok` is false and the lists hold the trees before it.
     */
    method Encode() returns (ok: bool)
      requires |tokenized| == |treelist|
      modifies this`deps, this`heads, this`labels, this`tags, this`words, this`mweRanges, this`cats
      ensures ok <==> Encodable(tagtoi, treelist)
      ensures ok <==> |deps| == |treelist|
      ensures |deps| <= |treelist| && Encodable(tagtoi, treelist[..|deps|])
      ensures Lists() == EncodeColumns(tagtoi, labtoi, treelist[..|deps|], tokenized[..|deps|])
      ensures !ok ==> EncodeTree(tagtoi, labtoi, treelist[|deps|], tokenized[|deps|]).None?
      ensures ok ==> Lists() == EncodeColumns(tagtoi, labtoi, treelist, tokenized)
    {
      var encoded;
      encoded, ok := EncodeTrees(tagtoi, labtoi, treelist, tokenized);
      SetLists(encoded);
    }

    /** Replaces the seven lists. */
    method SetLists(c: Columns)
      modifies this`deps, this`heads, this`labels, this`tags, this`words, this`mweRanges, this`cats
      ensures Lists() == c
    {
      deps, tags, heads, labels := c.deps, c.tags, c.heads, c.labels;
      words, cats, mweRanges := c.words, c.cats, c.mweRanges;
    }

    /** `shuffle_data`, with the shuffled `range(N)` given as `order`. */
    method ShuffleData(order: seq<nat>)
      requires Lists().Parallel() && IsPermutation(order, |deps|)
      modifies this`deps, this`heads, this`labels, this`tags, this`words, this`mweRanges, this`cats
      ensures Lists() == Permute(old(Lists()), order)
    {
      SetLists(Permute(Lists(), order));
    }

    /**
     * `order_data`: the seven lists reordered by the stable sort of the
     * sentence indices by `len(deps[i])`.
     */
    method OrderData()
      requires Lists().Parallel()
      modifies this`deps, this`heads, this`labels, this`tags, this`words, this`mweRanges, this`cats
      ensures Lists() == Permute(old(Lists()), StableOrder(Lengths(old(deps))))
      ensures forall i, j :: 0 <= i < j < |deps| ==> |deps[i]| <= |deps[j]|
    {
      OrderedByLength(Lists());
      SetLists(Permute(Lists(), StableOrder(Lengths(deps))));
    }

    /**
     * `make_batches`: encode, shuffle the data (`dataOrder` being the shuffled
     * `range(N)`) and/or order it by length, then cut the lists at the starts
     * `range(0, N, batchSize)`, taken in `batchOrder` order when
     * `shuffleBatches` is set. `ok` is false when `encode` raises or when
     * `batchSize` is 0, which `range` refuses; a negative `batchSize` gives
     * no batch.
     */
    method MakeBatches(batchSize: int, shuffleBatches: bool, shuffleData: bool, orderByLength: bool,
                       dataOrder: seq<nat>, batchOrder: seq<nat>) returns (ok: bool, batches: seq<Batch>)
      requires |tokenized| == |treelist|
      requires shuffleData ==> IsPermutation(dataOrder, |treelist|)
      requires shuffleBatches && batchSize != 0 ==> IsPermutation(batchOrder, |RangeStep(0, |treelist|, batchSize)|)
      modifies this`deps, this`heads, this`labels, this`tags, this`words, this`mweRanges, this`cats
      ensures ok <==> Encodable(tagtoi, treelist) && batchSize != 0
      ensures Encodable(tagtoi, treelist) ==>
                Lists() == Prepare(EncodeColumns(tagtoi, labtoi, treelist, tokenized), shuffleData, orderByLength, dataOrder)
      ensures ok ==>
        var starts := RangeStep(0, |treelist|, batchSize);
        var order := if shuffleBatches then Gather(starts, batchOrder) else starts;
        && |batches| == |order|
        && forall k :: 0 <= k < |batches| ==> BatchAt(Lists(), charDataset, batches[k], order[k], batchSize)
    {
      batches := [];
      ok := Encode();
      if !ok {
        return;
      }
      Reorder(shuffleData, orderByLength, dataOrder);
      if batchSize == 0 {
        return false, [];
      }
      batches := BatchList(Lists(), charDataset, batchSize, shuffleBatches, batchOrder);
    }

    /** The reordering steps of `make_batches`: `shuffle_data` if asked, then `order_data` if asked. */
    method Reorder(shuffleData: bool, orderByLength: bool, dataOrder: seq<nat>)
      requires Lists().Parallel() && (shuffleData ==> IsPermutation(dataOrder, |deps|))
      modifies this`deps, this`heads, this`labels, this`tags, this`words, this`mweRanges, this`cats
      ensures Lists() == Prepare(old(Lists()), shuffleData, orderByLength, dataOrder)
    {
      if shuffleData {
        ShuffleData(dataOrder);
      }
      if orderByLength {
        OrderData();
      }
    }
  }
}
