/**
 * `CharDataSet` of src/graph_parser3.py: a character table, the encoding of a
 * token as character codes, and the column-by-column character batches of a
 * batch of sentences. Characters are one-character strings in the program,
 * and so they are here (`[c]`); the table's first entry is the string `<pad>`.
 */
module Chars {
  import opened Tables
  import opened Padding

  /** `i2c` is the character list, `c2idx` its index dictionary. */
  datatype CharDataSet = CharDataSet(i2c: seq<string>, c2idx: map<string, nat>)

  /** `CharDataSet(charlist)`: a later duplicate of a character wins in `c2idx`. */
  function NewCharDataSet(charlist: seq<string>): (ds: CharDataSet)
    ensures ds.i2c == charlist
    ensures forall c :: c in ds.c2idx <==> c in charlist
    ensures forall c :: c in ds.c2idx ==> ds.c2idx[c] < |charlist| && charlist[ds.c2idx[c]] == c
  {
    CharDataSet(charlist, IndexMap(charlist))
  }

  /** How many characters of `s` have a code in `c2idx`. */
  function KnownCount(c2idx: map<string, nat>, s: string): nat {
    if s == [] then 0 else (if [s[0]] in c2idx then 1 else 0) + KnownCount(c2idx, s[1..])
  }

  /** Counting the known characters of a prefix of `token`, one character at a time. */
  lemma KnownCountPrefix(c2idx: map<string, nat>, token: string, k: nat)
    requires 0 < k <= |token|
    ensures KnownCount(c2idx, token[..k]) == (if [token[0]] in c2idx then 1 else 0) + KnownCount(c2idx, token[1..][..k - 1])
  {
    assert token[..k][1..] == token[1..][..k - 1];
  }

  /** `KnownCountPrefix` for every non-empty prefix, and the empty prefix counts nothing. */
  lemma KnownCountPrefixes(c2idx: map<string, nat>, token: string)
    requires token != []
    ensures KnownCount(c2idx, token[..0]) == 0
    ensures forall k :: 0 < k <= |token| ==>
              KnownCount(c2idx, token[..k]) == (if [token[0]] in c2idx then 1 else 0) + KnownCount(c2idx, token[1..][..k - 1])
  {
    assert token[..0] == [];
    forall k | 0 < k <= |token|
      ensures KnownCount(c2idx, token[..k]) == (if [token[0]] in c2idx then 1 else 0) + KnownCount(c2idx, token[1..][..k - 1])
    {
      KnownCountPrefix(c2idx, token, k);
    }
  }

  /**
   * `[c2idx[c] for c in token if c in c2idx]`: the codes of the characters of
   * `token` that have one, in order; characters without a code are skipped.
   * The code of a known character sits after those of the known characters
   * before it.
   */
  function KnownCodes(c2idx: map<string, nat>, token: string): (r: seq<int>)
    ensures |r| == KnownCount(c2idx, token) <= |token|
    ensures forall k :: 0 <= k < |token| && [token[k]] in c2idx ==>
              KnownCount(c2idx, token[..k]) < |r| && r[KnownCount(c2idx, token[..k])] == c2idx[[token[k]]]
    ensures (forall k :: 0 <= k < |token| ==> [token[k]] in c2idx) ==>
              |r| == |token| && forall k :: 0 <= k < |token| ==> r[k] == c2idx[[token[k]]]
    ensures forall k :: 0 <= k < |r| ==> r[k] in c2idx.Values
  {
    if token == [] then []
    else
      var head := if [token[0]] in c2idx then [c2idx[[token[0]]] as int] else [];
      var tail := KnownCodes(c2idx, token[1..]);
      assert forall k :: 0 <= k < |token| - 1 ==> token[1..][k] == token[k + 1];
      KnownCountPrefixes(c2idx, token);
      head + tail
  }

  /**
   * `word2charcodes`: `<pad>` and `<unk>` have no character codes; any other
   * token has the codes of its known characters, in order.
   */
  function WordToCharCodes(ds: CharDataSet, token: string): (r: seq<int>)
    ensures token == PAD_TOKEN || token == UNK_WORD ==> r == []
    ensures |r| <= |token|
    ensures token != PAD_TOKEN && token != UNK_WORD ==>
              && |r| == KnownCount(ds.c2idx, token)
              && forall k :: 0 <= k < |token| && [token[k]] in ds.c2idx ==>
                   KnownCount(ds.c2idx, token[..k]) < |r| && r[KnownCount(ds.c2idx, token[..k])] == ds.c2idx[[token[k]]]
    ensures token != PAD_TOKEN && token != UNK_WORD && (forall k :: 0 <= k < |token| ==> [token[k]] in ds.c2idx) ==>
              |r| == |token| && forall k :: 0 <= k < |token| ==> r[k] == ds.c2idx[[token[k]]]
  {
    if token == PAD_TOKEN || token == UNK_WORD then [] else KnownCodes(ds.c2idx, token)
  }

  /** The text of a list of character codes: their table entries put end to end. */
  function DecodeChars(i2c: seq<string>, codes: seq<int>): string
    requires forall k :: 0 <= k < |codes| ==> 0 <= codes[k] < |i2c|
  {
    if codes == [] then [] else i2c[codes[0]] + DecodeChars(i2c, codes[1..])
  }

  /** The characters occurring in the tokens of `wordlist`. */
  function CharsOf(wordlist: seq<string>): set<char> {
    set w, c | w in wordlist && c in w :: c
  }

  /** What `make_vocab(wordlist)` builds, whatever order the set of characters comes in. */
  ghost predicate IsCharVocabOf(ds: CharDataSet, wordlist: seq<string>) {
    && |ds.i2c| > 0
    && ds.i2c[0] == PAD_TOKEN
    && Distinct(ds.i2c)
    && ds.c2idx == IndexMap(ds.i2c)
    && (forall k :: 1 <= k < |ds.i2c| ==> |ds.i2c[k]| == 1 && ds.i2c[k][0] in CharsOf(wordlist))
    && (forall c :: c in CharsOf(wordlist) ==> [c] in ds.c2idx)
  }

  /**
   * `make_vocab`: `<pad>` at index 0, then every character of the word list
   * once, in the order the set yields them.
   */
  method MakeVocab(wordlist: seq<string>) returns (ds: CharDataSet)
    ensures IsCharVocabOf(ds, wordlist)
  {
    var charset: set<char> := {};
    for i := 0 to |wordlist|
      invariant charset == CharsOf(wordlist[..i])
    {
      CharsOfSnoc(wordlist[..i], wordlist[i]);
      assert wordlist[..i + 1] == wordlist[..i] + [wordlist[i]];
      charset := charset + set c | c in wordlist[i];
    }
    assert wordlist[..|wordlist|] == wordlist;
    var chars := Enumerate(charset);
    var charlist := [PAD_TOKEN] + seq(|chars|, k requires 0 <= k < |chars| => [chars[k]]);
    CharListFacts(chars, charset, charlist);
    ds := NewCharDataSet(charlist);
  }

  lemma CharsOfSnoc(wordlist: seq<string>, w: string)
    ensures CharsOf(wordlist + [w]) == CharsOf(wordlist) + set c | c in w
  {
    forall c | c in CharsOf(wordlist + [w])
      ensures c in CharsOf(wordlist) || c in w
    {
      var w' :| w' in wordlist + [w] && c in w';
      if w' != w {
        assert w' in wordlist;
      }
    }
    forall c | c in CharsOf(wordlist)
      ensures c in CharsOf(wordlist + [w])
    {
      var w' :| w' in wordlist && c in w';
      assert w' in wordlist + [w];
    }
    forall c | c in w
      ensures c in CharsOf(wordlist + [w])
    {
      assert w in wordlist + [w];
    }
  }

  lemma CharListFacts(chars: seq<char>, charset: set<char>, charlist: seq<string>)
    requires (set x | x in chars) == charset && Distinct(chars)
    requires charlist == [PAD_TOKEN] + seq(|chars|, k requires 0 <= k < |chars| => [chars[k]])
    ensures Distinct(charlist)
    ensures forall k :: 1 <= k < |charlist| ==> |charlist[k]| == 1 && charlist[k][0] in charset
    ensures forall c :: c in charset ==> [c] in charlist
  {
    forall c | c in charset
      ensures [c] in charlist
    {
      assert c in chars;
      var k :| 0 <= k < |chars| && chars[k] == c;
      assert charlist[k + 1] == [c];
    }
    forall i, j | 0 <= i < j < |charlist|
      ensures charlist[i] != charlist[j]
    {
      if i > 0 {
        assert charlist[i] == [chars[i - 1]] && charlist[j] == [chars[j - 1]];
      } else {
        assert |charlist[j]| == 1;
      }
    }
  }

  /**
   * With a table made from a word list, a token of that list (other than
   * `<pad>` and `<unk>`) loses no character: its codes decode back to it.
   */
  lemma {:induction false} CharCodesRoundTrip(ds: CharDataSet, wordlist: seq<string>, token: string)
    requires IsCharVocabOf(ds, wordlist)
    requires token in wordlist && token != PAD_TOKEN && token != UNK_WORD
    ensures |WordToCharCodes(ds, token)| == |token|
    ensures forall k :: 0 <= k < |token| ==> 0 <= WordToCharCodes(ds, token)[k] < |ds.i2c|
    ensures DecodeChars(ds.i2c, WordToCharCodes(ds, token)) == token
  {
    forall k | 0 <= k < |token|
      ensures [token[k]] in ds.c2idx
    {
      assert token[k] in token;
      assert token[k] in CharsOf(wordlist);
    }
    KnownCodesDecode(ds.i2c, token);
  }

  lemma KnownCodesDecode(i2c: seq<string>, token: string)
    requires forall k :: 0 <= k < |token| ==> [token[k]] in IndexMap(i2c)
    ensures forall k :: 0 <= k < |token| ==> 0 <= KnownCodes(IndexMap(i2c), token)[k] < |i2c|
    ensures DecodeChars(i2c, KnownCodes(IndexMap(i2c), token)) == token
  {
    var codes := KnownCodes(IndexMap(i2c), token);
    assert forall k :: 0 <= k < |token| ==> i2c[codes[k]] == [token[k]];
    SingletonCodesDecode(i2c, codes, token);
  }

  /** Codes whose table entries are single characters decode to those characters. */
  lemma {:induction false} SingletonCodesDecode(i2c: seq<string>, codes: seq<int>, token: string)
    requires |codes| == |token|
    requires forall k :: 0 <= k < |codes| ==> 0 <= codes[k] < |i2c| && i2c[codes[k]] == [token[k]]
    ensures DecodeChars(i2c, codes) == token
  {
    if codes != [] {
      SingletonCodesDecode(i2c, codes[1..], token[1..]);
      assert token == [token[0]] + token[1..];
    }
  }

  /** `[word2charcodes(token) for token in toklist]` */
  function TokenCodes(ds: CharDataSet, toklist: seq<string>): (r: seq<seq<int>>)
    ensures |r| == |toklist|
    ensures forall k :: 0 <= k < |toklist| ==> r[k] == WordToCharCodes(ds, toklist[k]) && |r[k]| <= |toklist[k]|
  {
    seq(|toklist|, k requires 0 <= k < |toklist| => WordToCharCodes(ds, toklist[k]))
  }

  /**
   * `batchedtokens2codes`: the character codes of every token, right-padded
   * with PAD_IDX to the longest. `max` of an empty list raises, here `None`.
   */
  method BatchedTokensToCodes(ds: CharDataSet, toklist: seq<string>) returns (r: Option<seq<seq<int>>>)
    ensures r.None? <==> toklist == []
    ensures r.Some? ==> IsPadding(r.value, TokenCodes(ds, toklist), MaxLen(TokenCodes(ds, toklist)), PAD_IDX)
  {
    r := PadBatch(TokenCodes(ds, toklist), PAD_IDX);
  }

  /** Token `idx` of every sentence, `<pad>` for a sentence shorter than that. */
  function Column(sentBatch: seq<seq<string>>, idx: nat): (r: seq<string>)
    ensures |r| == |sentBatch|
  {
    seq(|sentBatch|, k requires 0 <= k < |sentBatch| => if idx < |sentBatch[k]| then sentBatch[k][idx] else PAD_TOKEN)
  }

  /** `col` holds the padded character codes of the tokens at position `idx`. */
  ghost predicate IsCodeColumn(ds: CharDataSet, sentBatch: seq<seq<string>>, idx: nat, col: seq<seq<int>>) {
    IsPadding(col, TokenCodes(ds, Column(sentBatch, idx)), MaxLen(TokenCodes(ds, Column(sentBatch, idx))), PAD_IDX)
  }

  /** For every token position of the batch, the padded character codes of the tokens at that position. */
  ghost predicate IsCharBatch(ds: CharDataSet, sentBatch: seq<seq<string>>, cols: seq<seq<seq<int>>>) {
    && |cols| == MaxLen(sentBatch)
    && forall idx :: 0 <= idx < |cols| ==> IsCodeColumn(ds, sentBatch, idx, cols[idx])
  }

  /**
   * `batch_chars`: the sentences are padded with `<pad>` to the longest, and
   * for every token position, in order, the padded character codes of the
   * tokens at that position are produced. A sentence that is too short gives
   * a row of PAD_IDX only. `max` of an empty batch raises, here `None`.
   */
  method BatchChars(ds: CharDataSet, sentBatch: seq<seq<string>>) returns (r: Option<seq<seq<seq<int>>>>)
    ensures r.None? <==> sentBatch == []
    ensures r.Some? ==> IsCharBatch(ds, sentBatch, r.value)
    ensures r.Some? ==> forall idx, k :: 0 <= idx < |r.value| && 0 <= k < |r.value[idx]| && k < |sentBatch| && |sentBatch[k]| <= idx ==>
              forall j :: 0 <= j < |r.value[idx][k]| ==> r.value[idx][k][j] == PAD_IDX
  {
    if sentBatch == [] {
      return None;
    }
    var padded := PadBatch(sentBatch, PAD_TOKEN);
    var columns := PaddedColumnsToCodes(ds, sentBatch, padded.value);
    r := Some(columns);
    ShortRows(ds, sentBatch, columns);
  }

  /** The second loop of `batch_chars`, over the token positions of the `<pad>`-padded sentences. */
  method PaddedColumnsToCodes(ds: CharDataSet, sentBatch: seq<seq<string>>, padded: seq<seq<string>>)
    returns (columns: seq<seq<seq<int>>>)
    requires IsPadding(padded, sentBatch, MaxLen(sentBatch), PAD_TOKEN)
    ensures IsCharBatch(ds, sentBatch, columns)
  {
    columns := [];
    for idx := 0 to MaxLen(sentBatch)
      invariant |columns| == idx
      invariant forall i :: 0 <= i < idx ==> IsCodeColumn(ds, sentBatch, i, columns[i])
    {
      var column := seq(|padded|, k requires 0 <= k < |padded| => padded[k][idx]);
      PaddedColumn(sentBatch, padded, idx);
      var codes := BatchedTokensToCodes(ds, column);
      CodeColumnsSnoc(ds, sentBatch, columns, codes.value);
      columns := columns + [codes.value];
    }
  }

  lemma CodeColumnsSnoc(ds: CharDataSet, sentBatch: seq<seq<string>>, columns: seq<seq<seq<int>>>, col: seq<seq<int>>)
    requires forall i :: 0 <= i < |columns| ==> IsCodeColumn(ds, sentBatch, i, columns[i])
    requires IsCodeColumn(ds, sentBatch, |columns|, col)
    ensures forall i :: 0 <= i < |columns| + 1 ==> IsCodeColumn(ds, sentBatch, i, (columns + [col])[i])
  {
    forall i | 0 <= i < |columns| + 1
      ensures IsCodeColumn(ds, sentBatch, i, (columns + [col])[i])
    {
      if i < |columns| {
        assert (columns + [col])[i] == columns[i];
      }
    }
  }

  /** Position `idx` of the `<pad>`-padded sentences is the column of `Column`. */
  lemma PaddedColumn(sentBatch: seq<seq<string>>, padded: seq<seq<string>>, idx: nat)
    requires IsPadding(padded, sentBatch, MaxLen(sentBatch), PAD_TOKEN) && idx < MaxLen(sentBatch)
    ensures seq(|padded|, k requires 0 <= k < |padded| => padded[k][idx]) == Column(sentBatch, idx)
  {
    forall k | 0 <= k < |sentBatch|
      ensures padded[k][idx] == Column(sentBatch, idx)[k]
    {
      if idx < |sentBatch[k]| {
        assert padded[k][idx] == padded[k][..|sentBatch[k]|][idx];
      }
    }
  }

  /** In a character batch, the row of a sentence shorter than the position is all PAD_IDX. */
  lemma ShortRows(ds: CharDataSet, sentBatch: seq<seq<string>>, cols: seq<seq<seq<int>>>)
    requires IsCharBatch(ds, sentBatch, cols)
    ensures forall idx, k :: 0 <= idx < |cols| && 0 <= k < |cols[idx]| && k < |sentBatch| && |sentBatch[k]| <= idx ==>
              forall j :: 0 <= j < |cols[idx][k]| ==> cols[idx][k][j] == PAD_IDX
  {
    forall idx, k | 0 <= idx < |cols| && 0 <= k < |cols[idx]| && k < |sentBatch| && |sentBatch[k]| <= idx
      ensures forall j :: 0 <= j < |cols[idx][k]| ==> cols[idx][k][j] == PAD_IDX
    {
      ShortRow(ds, sentBatch, idx, cols[idx], k);
    }
  }

  /** In the code column at position `idx`, the row of a sentence shorter than `idx + 1` is all PAD_IDX. */
  lemma ShortRow(ds: CharDataSet, sentBatch: seq<seq<string>>, idx: nat, col: seq<seq<int>>, k: nat)
    requires IsCodeColumn(ds, sentBatch, idx, col)
    requires k < |sentBatch| && |sentBatch[k]| <= idx
    ensures k < |col| && forall j :: 0 <= j < |col[k]| ==> col[k][j] == PAD_IDX
  {
    var tokens := Column(sentBatch, idx);
    PadColumnNoCodes(ds, tokens, k);
    PaddedEmptyRow(col, TokenCodes(ds, tokens), k);
  }

  /** A row that was empty before padding holds only the fill value. */
  lemma PaddedEmptyRow(padded: seq<seq<int>>, batch: seq<seq<int>>, k: nat)
    requires IsPadding(padded, batch, MaxLen(batch), PAD_IDX)
    requires k < |batch| && batch[k] == []
    ensures forall j :: 0 <= j < |padded[k]| ==> padded[k][j] == PAD_IDX
  {
  }

  /** A `<pad>` entry of a column has no character codes. */
  lemma PadColumnNoCodes(ds: CharDataSet, col: seq<string>, k: nat)
    requires k < |col| && col[k] == PAD_TOKEN
    ensures TokenCodes(ds, col)[k] == []
  {
  }
}
