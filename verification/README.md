# npdependency data layer in Dafny

This project models the data side of the npdependency graph-based dependency
parser: how treebank trees become index sequences and padded batches.

`src/graph_parser3.py`:
- `DependencyDataset` builds its label and tag tables, `<pad>` at index 0.
- `encode` turns every tree into seven parallel lists: word codes, tag codes,
  governor positions, label codes, words, tags and multi-word ranges.
- `shuffle_data` reorders those lists by one permutation.
- `order_data` reorders them by a stable sort on sentence length.
- `make_batches` cuts them into slices of `batch_size` and pads every numeric
  slice with `PAD_IDX` (0).
- `CharDataSet` gives each token its character codes and batches a batch of
  sentences column by column.
- `GridSearch` expands a dictionary of hyperparameters into experiments and
  names each run.

`mst.py`:
- A second `DependencyDataset` builds a word vocabulary and a label list.
- It encodes every tree twice:
  - for the edge task: word indices after a `<root>` token, and the position
    of each word's governor, shifted by one;
  - for the labelling task: each edge's governor and dependent, shifted by
    one, and its label code.

Modules:
- `Tables`: the Python dictionary, list and permutation idioms both files use.
  - `{x: i for i, x in enumerate(s)}` and `dict(pairs)`: a later entry wins.
  - `list(set(...))`: an order the program does not control.
  - `[s[i] for i in order]` and `range(n)`.
- `Padding`: `pad`, with the fill value as a parameter. The same right-padding
  appears in `batchedtokens2codes` and `batch_chars`, and uses this definition.
- `Batches`: the start indices `range(0, N, batch_size)` and the slices.
- `DepTree`: a tree as its words, tags, edges, length and multi-word ranges,
  and the `(dep, gov)` and `(dep, label)` pairs of its edges that both files read.
- `Chars`: `CharDataSet`.
- `Dataset`: `DependencyDataset` of `src/graph_parser3.py`, as a class whose
  methods replace its fields.
- `GridSearch`: `GridSearch`.
- `MstDataset`: `DependencyDataset` of `mst.py`, as a class.
- `HeadArrays`: the head arrays of the two files compared position by position.

How the model stands in for Python:
- Randomness is a parameter. `shuffle` becomes a given permutation of
  `range(N)`.
- A set turned into a list is enumerated in an arbitrary order, so every
  contract holds whatever order the set yields.
- The `KeyError` of `encode`'s tag lookup, and the errors of an empty batch
  (`batch[0]` in `pad`, `max` in `batchedtokens2codes` and `batch_chars`),
  become an `ok` flag, a `None` or an `Option` result. The one exception is
  the label lookup of `mst.py`'s `preprocess_labels`, which is a precondition
  (see "Left out").
- `make_batches` and `batch_chars` are generators. Here each returns the list
  of what it would yield.
- `stoi.get(tok, '<unk>')` in `mst.py` yields the string `'<unk>'`, not an
  index, for an unknown word. `WordCode.UnkLiteral` keeps that value apart
  from every index.

## Model

| member | source | states |
|---|---|---|
| Tables.IndexMap | src/graph_parser3.py:161 | every entry of the list is a key, bound to a position holding it, and no later position holds it (the last occurrence wins) |
| Tables.IndexMapInverse | mst.py:57 | on a list without repeats the index dictionary sends entry `i` back to `i` |
| Tables.DictOf | src/graph_parser3.py:193 | `dict(pairs)` has exactly the first components as keys, and a key is bound to the value of its last pair |
| Tables.GetAll | src/graph_parser3.py:194 | one entry per key, in order, the bound value or the default |
| Tables.Get | src/graph_parser3.py:194 | `d.get(k, default)`: the bound value when `k` is a key, the default otherwise |
| Tables.Range | src/graph_parser3.py:90 | `range(n)` has `n` entries and entry `k` is `k` |
| Tables.Enumerate | src/graph_parser3.py:160 | `list(set)` holds each element of the set exactly once and nothing else |
| Tables.Gather | src/graph_parser3.py:92 | `[s[i] for i in order]` has one entry per index of `order`, entry `k` being `s[order[k]]` |
| Tables.GatherPermutation | src/graph_parser3.py:92-98 | reordering a list by a permutation keeps every entry with its multiplicity |
| Tables.GatherRange | src/graph_parser3.py:102 | reordering `range(n)` by a permutation gives that permutation |
| Tables.ComposePermutations | src/graph_parser3.py:115-118 | a permutation taken in the order of another permutation is a permutation |
| Padding.MaxLen | src/graph_parser3.py:149-150 | no row is longer than `max_len`, and some row of a non-empty batch reaches it |
| Padding.PaddingIsUnique | src/graph_parser3.py:152-155 | a padding is determined by the batch, the width and the fill value |
| Padding.PadBatch | src/graph_parser3.py:148-156 | an empty batch gives nothing (`batch[0]` raises `IndexError`); otherwise the same rows in the same order, each row its sequence followed by PAD fill up to `max_len` |
| Padding.PadPairs | src/graph_parser3.py:137-147 | pair branch: `max_len` is over the first sides only; the first side is padded with PAD_IDX to `max_len`; the second side is extended by the same `max_len - len(seqA)` with the BERT pad index |
| Batches.RangeStep | src/graph_parser3.py:121 | `range(0, N, bs)` lies in `[0, N)`, starts at 0 when N > 0 and is empty for a negative step |
| Batches.RangeStepSpacing | src/graph_parser3.py:121 | consecutive starts are `bs` apart and increase, and the last start is within `bs` of N |
| Batches.RangeStepAt | src/graph_parser3.py:121 | start `k` is `k * bs` |
| Batches.Slice | src/graph_parser3.py:126-133 | `s[i:i+size]`: the `size` entries from position `i` on, fewer near the end and none past it |
| Batches.BatchesCover | src/graph_parser3.py:125-132 | without `shuffle_batches` the slices, put end to end, give back the data in order |
| Batches.BatchSizes | src/graph_parser3.py:125-132 | every slice but the last has `bs` items, and the last is non-empty and at most `bs` |
| Batches.BatchOfPosition | src/graph_parser3.py:121-126 | every sentence lies in exactly one slice `[i:i+bs]` |
| Chars.NewCharDataSet | src/graph_parser3.py:201-203 | `c2idx` has exactly the entries of the list as keys, each bound to a position holding it |
| Chars.KnownCodes | src/graph_parser3.py:213 | one code per known character and none for an unknown one: the code of a known character sits right after the codes of the known characters before it, so the codes come in token order; each output is a code of the table |
| Chars.WordToCharCodes | src/graph_parser3.py:208-213 | `<pad>` and `<unk>` give no codes; any other token gives the codes of its known characters, in token order, skipping the unknown ones |
| Chars.TokenCodes | src/graph_parser3.py:222 | one code list per token, in order, each that token's `word2charcodes` and never longer than the token |
| Chars.MakeVocab | src/graph_parser3.py:250-256 | `<pad>` at index 0, then each character of the word list exactly once as a one-character string; the index dictionary inverts the list |
| Chars.CharCodesRoundTrip | src/graph_parser3.py:213 | with a table made by `make_vocab` from a word list, each word other than `<pad>`/`<unk>` gives one code per character, and the codes decode back to the word |
| Chars.KnownCodesDecode | src/graph_parser3.py:213 | when every character has an index in the table, the codes are table positions and decode back to the token |
| Chars.BatchedTokensToCodes | src/graph_parser3.py:215-229 | an empty token list gives nothing; otherwise the codes of each token, padded with PAD_IDX to the longest |
| Chars.BatchChars | src/graph_parser3.py:232-248 | one column per position up to the longest sentence; column `idx` is the padded codes of each sentence's token `idx`, `<pad>` for a shorter sentence, whose row is then all PAD_IDX |
| Chars.PaddedColumnsToCodes | src/graph_parser3.py:247-248 | the loop over positions produces, in order, the padded code column of every position |
| Chars.PaddedColumn | src/graph_parser3.py:242-248 | position `idx` of the `<pad>`-padded sentences is token `idx` of each sentence, or `<pad>` |
| Chars.ShortRows | src/graph_parser3.py:243-248 | a sentence shorter than the position has a row of PAD_IDX only |
| DepTree.DepGovPairs | src/graph_parser3.py:193 | one `(dep, gov)` pair per edge, in edge order |
| DepTree.DepLabelPairs | src/graph_parser3.py:181 | one `(dep, label)` pair per edge, in edge order |
| Dataset.OracleGovernors | src/graph_parser3.py:184-194 | one entry per position; the governor of the last edge into the position, or 0 when no edge reaches it |
| Dataset.OracleLabels | src/graph_parser3.py:172-182 | one entry per position; the label of the last edge into the position, or `<pad>` when no edge reaches it |
| Dataset.EncodeTags | src/graph_parser3.py:63 | a tag without a code gets the code of `<unk>`; a tag table without `<unk>` raises on any non-empty tag list |
| Dataset.EncodeLabels | src/graph_parser3.py:71 | a label without a code gets 0, any other label its code |
| Dataset.TagCodesRoundTrip | src/graph_parser3.py:63 | with a table holding `<unk>`, the tag codes decode back to the tags, an unknown tag to `<unk>` |
| Dataset.LabelCodesRoundTrip | src/graph_parser3.py:71 | with a table starting with `<pad>`, the label codes decode back to the labels, an unknown one to `<pad>` |
| Dataset.PaddedTableInverse | src/graph_parser3.py:158-167 | a table built by `init_labels`/`init_tags` is inverted by its dictionary, unless `<pad>` also occurs in the data, which moves `<pad>` off index 0 |
| Dataset.InsertIndex | src/graph_parser3.py:104 | inserting a new largest index into a stably sorted order keeps it sorted and adds exactly that index |
| Dataset.SortPrefix | src/graph_parser3.py:104 | the indices below `n`, each once, sorted stably by length |
| Dataset.StableOrder | src/graph_parser3.py:104 | `sorted(zip(order, lengths), key=length)` is a permutation with non-decreasing lengths, equal lengths in index order |
| Dataset.EncodeTree | src/graph_parser3.py:61-72 | a tree raises exactly when it has tags and the tag table has no `<unk>`; otherwise one tag code per tag and one head and one label per position |
| Dataset.EncodableIff | src/graph_parser3.py:61-72 | `encode` runs to the end exactly when every tree has an encoding |
| Dataset.Columns.Append | src/graph_parser3.py:65-72 | appending one tree keeps the lists parallel, keeps every earlier row and adds the tree's row last |
| Dataset.Permute | src/graph_parser3.py:105-111 | the seven lists are reordered by the same order: row `k` is old row `order[k]` |
| Dataset.PermuteTwice | src/graph_parser3.py:114-118 | shuffling then ordering is one reordering, by the composed order |
| Dataset.EncodeColumns | src/graph_parser3.py:57-72 | the encoded lists are parallel with one row per tree |
| Dataset.EncodeColumnsStep | src/graph_parser3.py:61-72 | one loop step appends the row of the next tree |
| Dataset.EncodeColumnsRow | src/graph_parser3.py:61-72 | row `i` of the encoded lists is the encoding of tree `i` |
| Dataset.EncodeTrees | src/graph_parser3.py:57-72 | `ok` exactly when every tree encodes; the rows are those of the trees before the first one that raises, which then raises |
| Dataset.Prepare | src/graph_parser3.py:114-118 | shuffling and ordering keep the lists parallel and of the same length |
| Dataset.LengthsPermute | src/graph_parser3.py:103 | the lengths of reordered lists are the lengths reordered |
| Dataset.OrderedByLength | src/graph_parser3.py:100-111 | after `order_data` the sentence lengths never decrease |
| Dataset.OrderAfterPermute | src/graph_parser3.py:114-118 | ordering shuffled lists is reordering the original lists by a permutation |
| Dataset.PrepareIsPermutation | src/graph_parser3.py:114-118 | the prepared lists are the original rows under one permutation, sorted by length when `order_by_length` is set |
| Dataset.MakeBatch | src/graph_parser3.py:126-134 | the batch at `i`: the slices `[i:i+bs]` of the lists, the numeric ones padded with PAD_IDX, the character batch of the words, with `min(bs, N-i)` sentences |
| Dataset.BatchList | src/graph_parser3.py:120-134 | one batch per start of `range(0, N, bs)`, the starts in the shuffled order when asked; none for a negative `bs` |
| Dataset.CutBatches | src/graph_parser3.py:125-134 | the loop yields the batch of each start, in order |
| Dataset.BuildLabelTable | src/graph_parser3.py:158-161 | `<pad>` at index 0, then each label of the trees once, and the dictionary of that list |
| Dataset.BuildTagTable | src/graph_parser3.py:163-167 | `<pad>` at index 0, then each tag, the root token and `<unk>` once, and the dictionary of that list |
| Dataset.BuildTables | src/graph_parser3.py:46-55 | a given non-empty table is kept; otherwise it is built from the trees; each dictionary is built from its table |
| Dataset.DependencyDataset.constructor | src/graph_parser3.py:41-55 | keeps the trees and character table, builds or takes the label and tag tables |
| Dataset.DependencyDataset.InitLabels | src/graph_parser3.py:158-161 | sets the label table and its dictionary as `BuildLabelTable` describes |
| Dataset.DependencyDataset.InitTags | src/graph_parser3.py:163-167 | sets the tag table and its dictionary as `BuildTagTable` describes |
| Dataset.DependencyDataset.Encode | src/graph_parser3.py:57-72 | the seven lists become the encoding of all trees in order, or of those before the tree that raises |
| Dataset.DependencyDataset.ShuffleData | src/graph_parser3.py:88-98 | all seven lists are reordered by the same permutation |
| Dataset.DependencyDataset.OrderData | src/graph_parser3.py:100-111 | all seven lists are reordered by the stable length order; lengths never decrease afterwards |
| Dataset.DependencyDataset.Reorder | src/graph_parser3.py:115-118 | shuffle if asked, then order by length if asked |
| Dataset.DependencyDataset.MakeBatches | src/graph_parser3.py:113-134 | fails exactly when `encode` raises or `bs` is 0; the lists are encoded and prepared; one batch per start, in start or shuffled order |
| GridSearch.Keys | src/graph_parser3.py:614 | the keys, in dictionary order |
| GridSearch.Extend | src/graph_parser3.py:619 | `[elt+[V] for elt in setups for V in values]` has `len(setups) * len(values)` entries |
| GridSearch.ExtendOne | src/graph_parser3.py:621 | extending one setup gives that setup extended by each value in turn |
| GridSearch.ExtendMembers | src/graph_parser3.py:619 | the members are exactly the setups extended by a value |
| GridSearch.ExtendSnoc | src/graph_parser3.py:623-624 | extending a longer list of setups appends the extensions of the new setup |
| GridSearch.Zip | src/graph_parser3.py:628 | `zip` stops at the shorter side and pairs key `i` with value `i` |
| GridSearch.Dicts | src/graph_parser3.py:627-628 | one dictionary per setup, in setup order |
| GridSearch.SetupsAsWritten | src/graph_parser3.py:613-624 | the setups as the loop builds them: all of the same length, at most one value per key, fewer when a fixed value comes before the first list |
| GridSearch.GenerateSetup | src/graph_parser3.py:611-628 | the loop yields the dictionaries of the setups as the code builds them |
| GridSearch.IntendedSetups | src/graph_parser3.py:605-628 | the intended grid has one experiment per combination of options |
| GridSearch.IntendedSetupsSound | src/graph_parser3.py:605-628 | every intended setup gives each key one of its options |
| GridSearch.IntendedSetupsComplete | src/graph_parser3.py:605-628 | every combination of options is an intended setup |
| GridSearch.IntendedSetupsAreTheGrid | src/graph_parser3.py:605-628 | a setup is intended exactly when it gives each key one of its options |
| GridSearch.IntendedDicts | src/graph_parser3.py:627-628 | each intended dictionary binds every key, in order, to one of its options |
| GridSearch.GenerateGrid | src/graph_parser3.py:611-628 | the corrected loop yields the intended dictionaries, as many as the product of the option counts |
| GridSearch.NoChoicesNoSetups | src/graph_parser3.py:613-624 | with no list value, nothing is yielded |
| GridSearch.EmptyChoicesRestart | src/graph_parser3.py:617-621 | an empty list empties the setups, and the next list starts afresh, dropping the keys before it |
| GridSearch.EmptyChoicesNoRuns | src/graph_parser3.py:617-621 | in the intended grid, a key with no option leaves no experiment |
| GridSearch.ProductPositive | src/graph_parser3.py:605-628 | with no empty list, the grid has at least one experiment |
| GridSearch.AsWrittenFromFirstList | src/graph_parser3.py:613-624 | with no empty list, the setups built are the intended ones of the keys from the first list on |
| GridSearch.AsWrittenCount | src/graph_parser3.py:625 | with at least one list and no empty list, the number of runs is the product of the list lengths |
| GridSearch.ProductOfSuffix | src/graph_parser3.py:622-624 | fixed values count once in the number of runs |
| GridSearch.ScalarFirstMisbinds | src/graph_parser3.py:622-628 | a fixed value before the first list is dropped and `zip` binds its key to the list's values |
| GridSearch.ScalarFirstIntended | src/graph_parser3.py:605-628 | the intended grid of that example binds both keys in both runs |
| GridSearch.RunName | src/graph_parser3.py:632 | the name is the base, `+`, then exactly the joined fields, then `.conll` |
| GridSearch.Fields | src/graph_parser3.py:632 | at most one field per dictionary entry, each a `key:value` string |
| GridSearch.Join | src/graph_parser3.py:632 | `'+'.join`: empty for no parts; otherwise every part in order, part `k` after the parts before it and one `+` after each of them, a `+` after every part but the last, and nothing else |
| GridSearch.RunNameIgnoresOutputPath | src/graph_parser3.py:632 | the `output_path` entry, wherever it is, does not change the name |
| GridSearch.FieldsSkipOutputPath | src/graph_parser3.py:632 | the `output_path` entry gives no field |
| GridSearch.FieldsInOrder | src/graph_parser3.py:632 | every other entry gives one `k:v` field, in dictionary order |
| MstDataset.WordSetMembers | mst.py:53 | the word set holds exactly the words of the trees |
| MstDataset.LastGovernors | mst.py:110-111 | one entry per position; the governor of the last edge into it, or -1 |
| MstDataset.OracleAncestors | mst.py:100-111 | one entry per position; one more than the governor of the last edge into it, or 0 when no edge reaches it |
| HeadArrays.AncestorsShiftGovernors | mst.py:111 | the ancestor index is the governor of the other head array plus one where an edge arrives, and both are 0 elsewhere |
| MstDataset.WordCodes | mst.py:74-75 | one code per token of `<root>` followed by the words, in order |
| MstDataset.UnknownWordIsLiteral | mst.py:75 | a word gets the string `'<unk>'` exactly when it has no index, and then no index at all |
| MstDataset.KnownWordsRoundTrip | mst.py:73-77 | with the vocabulary built from the trees, every tree's words get indices that decode back to `<root>` and the words |
| MstDataset.GovIndexes | mst.py:76 | `ROOT_GOV_IDX` followed by the ancestor index of every position, 0 where no edge arrives |
| MstDataset.Code | mst.py:75 | a known word gives its index; an unknown word gives the `<unk>` string, apart from every index |
| MstDataset.ShiftedGovs | mst.py:90 | one entry per edge, its governor plus one |
| MstDataset.ShiftedDeps | mst.py:91 | one entry per edge, its dependent plus one |
| MstDataset.LabelCodes | mst.py:92 | one label code per edge |
| MstDataset.EncodingsAgree | mst.py:76-91 | for the last edge into a position, the edge task's governor at the shifted dependent is the labelling task's shifted governor |
| MstDataset.LabelCodesRoundTrip | mst.py:92 | with the label list built from the trees, every label has a code, and the codes decode back to the labels |
| MstDataset.LabelTableInverse | mst.py:60-63 | `labtoi` has exactly the labels as keys and sends `itolab[i]` to `i` |
| MstDataset.BuildVocab | mst.py:49-58 | each word and `<root>`, `<unk>`, `<pad>` once; `stoi` inverts `itos`; the pad index is the position of `<pad>` |
| MstDataset.BuildLabels | mst.py:60-63 | each label once, its dictionary, and every label of the trees has a code |
| MstDataset.EncodeEdges | mst.py:70-78 | one word row and one governor row per tree, in tree order |
| MstDataset.EncodeLabels | mst.py:85-92 | one row of shifted governors, shifted dependents and label codes per tree, in tree order |
| MstDataset.ShuffleTrees | mst.py:36 | the trees in the order of the permutation, each kept with its multiplicity |
| MstDataset.Build | mst.py:28-41 | the shuffled trees, vocabulary, labels and both encodings, as the steps of `__init__` leave them |
| MstDataset.DependencyDataset.constructor | mst.py:28-41 | the object holds what `Build` describes |
| MstDataset.DependencyDataset.InitVocab | mst.py:49-58 | sets the vocabulary, its dictionary and the pad index |
| MstDataset.DependencyDataset.InitLabels | mst.py:60-63 | sets the label list and its dictionary; every label has a code |
| MstDataset.DependencyDataset.PreprocessEdges | mst.py:65-78 | rebuilds the edge-task lists from the trees |
| MstDataset.DependencyDataset.PreprocessLabels | mst.py:80-92 | rebuilds the labelling-task lists from the trees |

## Left out

- The maximum-spanning-arborescence decoder: `src/graph_parser3.py` imports `chuliu_edmonds` from `mst`, but `mst.py` defines no such function, and its own decoding goes through networkx.
- The neural networks, training, evaluation and prediction code: tensor arithmetic over torch, with floating point and gradients. `Variable`/`torch.tensor` wrappers are dropped; `pad` and `batchedtokens2codes` return lists of lists.
- File I/O: `read_conll`, `save_vocab`, `load_vocab` (which returns an undefined `itos`), reading trees in `mst.py`'s `__init__`, yaml and argparse, and the scripts.
- The lexer: `lexer.tokenize(tree.words)` is given as the `tokenized` field, one row of word codes per tree.
- `DepGraph` and the `deptree` module are not part of this model. A tree is its words, tags, `get_all_edges()`, `len()` and multi-word ranges.
- Randomness: `shuffle` in `shuffle_data`, `make_batches` and `mst.py`'s `__init__` is a permutation given as a parameter.
- The order of `list(set(...))`: the model does not fix it, and no contract depends on it.
- `mst.py`'s `shuffle` method (lines 43-47) calls `list.shuffle`, which does not exist, so it always raises; it is not modelled.
- `__len__`, `__getitem__` and `dep_collate_fn`.
- Dataset.MakeBatch and Dataset.DependencyDataset.OrderData: a row of `deps` is a flat list of word codes here. With the BERT lexers a row is a `(seqA, seqB)` pair: `make_batches` then pads it through the pair branch of `pad` (modelled alone as `Padding.PadPairs`), and `order_data` sorts by `len` of the pair, 2 for every sentence. The model does not carry pair rows through batching and ordering.
- `GridSearch.generate_setup` prints the run count; the printing is dropped. A YAML value is represented by its printed form `str(v)`, the only form the run name uses.
- `make_batches` and `batch_chars` are lazy generators: a consumer that stops early sees only a prefix of what they yield, and `batch_chars` raises on an empty batch only when first advanced. The model builds everything at once, and `Chars.BatchChars` gives `None` for an empty batch at once.
- `PAD_WORD_IDX` of `mst.py` is a class attribute shared by all instances; here it is the field `padWordIdx` of each object.
- MstDataset.DependencyDataset.PreprocessLabels: requires every label to have a code, where the program raises `KeyError`; `init_labels` always establishes it.
- Dataset.DependencyDataset.constructor: the seven lists start empty; the program creates them only in `encode`.
- Dataset.DependencyDataset.constructor: `use_labels`/`use_tags` of `None` and of an empty list behave alike in the program and are both an empty sequence here.
- Dataset.EncodeColumns: states only that the lists are parallel with one row per tree; what each row is is stated by `Dataset.EncodeColumnsRow`.
- Dataset.Prepare: states only the shape; the reordering it performs is stated by `Dataset.PrepareIsPermutation`.
- MstDataset.LabelCodes: states only the length; the decoding is stated by `MstDataset.LabelCodesRoundTrip`.
- MstDataset.WordCodes: states the codes position by position; their decoding is stated by `MstDataset.KnownWordsRoundTrip`.

## Findings

| source | as written | input that shows it | evidently intended | confidence | as-written member | corrected member |
|---|---|---|---|---|---|---|
| src/graph_parser3.py:613-624 | `setuplist` starts empty, so a fixed value met before the first list-valued key is appended to no setup and lost; `zip(K, setup)` then pairs the first keys with the wrong values | `{lr: 0.1, bs: [1, 2]}` yields `{lr: 1}` and `{lr: 2}` | one experiment per combination of options, every key bound to its own value: `{lr: 0.1, bs: 1}` and `{lr: 0.1, bs: 2}` | not executed | GridSearch.ScalarFirstMisbinds | GridSearch.GenerateGrid |
| src/graph_parser3.py:617-621 | an empty list empties `setuplist`, and the next list-valued key then starts afresh from its own values, dropping every key before it | `{a: [], b: [1]}` yields `{a: 1}` | no experiment at all, since the empty key has no option | not executed | GridSearch.EmptyChoicesRestart | GridSearch.EmptyChoicesNoRuns |
