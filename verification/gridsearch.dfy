/**
 * `GridSearch` of src/graph_parser3.py: the experiments described by a YAML
 * dictionary of hyperparameters, where a list value means "try each of these"
 * and any other value is fixed, and the file name of one experiment.
 *
 * The dictionary is a sequence of (key, value) pairs in key order (a Python
 * dict keeps insertion order). Values are represented by their printed form,
 * the only thing the run name uses.
 */
module GridSearch {

  datatype Param = Scalar(value: string) | Choices(values: seq<string>)

  type Hyperparams = seq<(string, Param)>

  /** `list(self.HP.keys())` */
  function Keys(hp: Hyperparams): (ks: seq<string>)
    ensures |ks| == |hp|
    ensures forall i :: 0 <= i < |hp| ==> ks[i] == hp[i].0
  {
    if hp == [] then [] else Keys(hp[..|hp| - 1]) + [hp[|hp| - 1].0]
  }

  /**
   * `[elt + [V] for elt in setups for V in values]`: every setup extended by
   * every value, the setups varying slowest.
   */
  function Extend(setups: seq<seq<string>>, values: seq<string>): (r: seq<seq<string>>)
    ensures |r| == |setups| * |values|
  {
    if setups == [] then []
    else
      var rest := Extend(setups[1..], values);
      assert |rest| + |values| == |setups| * |values| by {
        assert (|setups| - 1) * |values| + |values| == |setups| * |values|;
      }
      seq(|values|, j requires 0 <= j < |values| => setups[0] + [values[j]]) + rest
  }

  /** `x` is one of the setups extended by one of the values. */
  predicate ExtensionOf(setups: seq<seq<string>>, values: seq<string>, x: seq<string>) {
    exists i, j :: 0 <= i < |setups| && 0 <= j < |values| && x == setups[i] + [values[j]]
  }

  /** A non-empty sequence is its prefix followed by its last element. */
  lemma LastSplit<T>(s: seq<T>)
    requires s != []
    ensures s == s[..|s| - 1] + [s[|s| - 1]]
  {
  }

  /** Dropping the last element and then the first `f` is dropping the first `f` and then the last. */
  lemma SuffixOfPrefix<T>(s: seq<T>, f: nat)
    requires f < |s|
    ensures s[..|s| - 1][f..] == s[f..][..|s[f..]| - 1]
  {
  }

  /** Setup `i` extended by value `j` is among the extensions. */
  lemma ExtendHas(setups: seq<seq<string>>, values: seq<string>, i: nat, j: nat)
    requires i < |setups| && j < |values|
    ensures setups[i] + [values[j]] in Extend(setups, values)
  {
    ExtendMembers(setups, values, setups[i] + [values[j]]);
  }

  /** `Extend` of a single setup: that setup extended by each value in turn. */
  lemma ExtendOne(setup: seq<string>, values: seq<string>)
    ensures |Extend([setup], values)| == |values|
    ensures forall j :: 0 <= j < |values| ==> Extend([setup], values)[j] == setup + [values[j]]
  {
    assert [setup][1..] == [];
  }

  /** The members of `Extend` are exactly the setups extended by a value. */
  lemma {:induction false} ExtendMembers(setups: seq<seq<string>>, values: seq<string>, x: seq<string>)
    ensures x in Extend(setups, values) <==> ExtensionOf(setups, values, x)
    decreases |setups|
  {
    if setups != [] {
      var head := seq(|values|, j requires 0 <= j < |values| => setups[0] + [values[j]]);
      var rest := Extend(setups[1..], values);
      assert Extend(setups, values) == head + rest;
      ExtendMembers(setups[1..], values, x);
      if x in head {
        var j :| 0 <= j < |values| && head[j] == x;
        assert x == setups[0] + [values[j]];
      } else if x in rest {
        var i, j :| 0 <= i < |setups[1..]| && 0 <= j < |values| && x == setups[1..][i] + [values[j]];
        assert x == setups[i + 1] + [values[j]];
      }
      if ExtensionOf(setups, values, x) {
        var i, j :| 0 <= i < |setups| && 0 <= j < |values| && x == setups[i] + [values[j]];
        if i == 0 {
          assert x == head[j];
        } else {
          assert x == setups[1..][i - 1] + [values[j]];
        }
      }
    }
  }

  /**
   * The setups as `generate_setup` builds them. A list value extends every
   * setup built so far by each of its values, or, when there is none yet,
   * starts one setup per value; any other value is appended to every setup
   * built so far.
   */
  function SetupsAsWritten(hp: Hyperparams): (r: seq<seq<string>>)
    ensures forall i :: 0 <= i < |r| ==> |r[i]| <= |hp|
    ensures forall i, j :: 0 <= i < |r| && 0 <= j < |r| ==> |r[i]| == |r[j]|
  {
    if hp == [] then []
    else
      var prev := SetupsAsWritten(hp[..|hp| - 1]);
      var n := if prev == [] then 0 else |prev[0]|;
      match hp[|hp| - 1].1
      case Choices(vs) =>
        if prev != [] then ExtendLengths(prev, vs, n); Extend(prev, vs)
        else ExtendLengths([[]], vs, 0); Extend([[]], vs)
      case Scalar(x) => ExtendLengths(prev, [x], n); Extend(prev, [x])
  }

  /** Extending setups that all have `n` values gives setups that all have `n + 1`. */
  lemma {:induction false} ExtendLengths(setups: seq<seq<string>>, values: seq<string>, n: nat)
    requires forall i :: 0 <= i < |setups| ==> |setups[i]| == n
    ensures forall i :: 0 <= i < |Extend(setups, values)| ==> |Extend(setups, values)[i]| == n + 1
    decreases |setups|
  {
    if setups != [] {
      ExtendLengths(setups[1..], values, n);
    }
  }

  /** `dict(zip(K, setup))` for every setup, as the list of pairs it holds, in order: `zip` stops at the shorter side. */
  function Zip(keys: seq<string>, setup: seq<string>): (d: seq<(string, string)>)
    ensures |d| == if |keys| <= |setup| then |keys| else |setup|
    ensures forall i :: 0 <= i < |d| ==> d[i] == (keys[i], setup[i])
  {
    if keys == [] || setup == [] then [] else [(keys[0], setup[0])] + Zip(keys[1..], setup[1..])
  }

  function Dicts(keys: seq<string>, setups: seq<seq<string>>): (ds: seq<seq<(string, string)>>)
    ensures |ds| == |setups|
    ensures forall k :: 0 <= k < |setups| ==> ds[k] == Zip(keys, setups[k])
  {
    seq(|setups|, k requires 0 <= k < |setups| => Zip(keys, setups[k]))
  }

  /**
   * `generate_setup`: the loop over the keys, growing `setuplist`, then one
   * dictionary per setup (the generator yields them in this order).
   */
  method GenerateSetup(hp: Hyperparams) returns (dicts: seq<seq<(string, string)>>)
    ensures dicts == Dicts(Keys(hp), SetupsAsWritten(hp))
  {
    var setuplist: seq<seq<string>> := [];
    for i := 0 to |hp|
      invariant setuplist == SetupsAsWritten(hp[..i])
    {
      assert hp[..i + 1][..i] == hp[..i];
      match hp[i].1
      case Choices(vs) =>
        if setuplist != [] {
          setuplist := Extend(setuplist, vs);
        } else {
          setuplist := Extend([[]], vs);
        }
      case Scalar(x) =>
        var extended: seq<seq<string>> := [];
        for k := 0 to |setuplist|
          invariant extended == Extend(setuplist[..k], [x])
        {
          ExtendSnoc(setuplist[..k], setuplist[k], [x]);
          assert setuplist[..k + 1] == setuplist[..k] + [setuplist[k]];
          extended := extended + [setuplist[k] + [x]];
        }
        assert setuplist[..|setuplist|] == setuplist;
        setuplist := extended;
    }
    assert hp[..|hp|] == hp;
    dicts := Dicts(Keys(hp), setuplist);
  }

  lemma {:induction false} ExtendSnoc(setups: seq<seq<string>>, last: seq<string>, values: seq<string>)
    ensures Extend(setups + [last], values) == Extend(setups, values) + Extend([last], values)
    decreases |setups|
  {
    if setups != [] {
      assert (setups + [last])[1..] == setups[1..] + [last];
      ExtendSnoc(setups[1..], last, values);
    } else {
      assert setups + [last] == [last];
    }
  }

  /** The values a key can take in one experiment. */
  function Options(p: Param): (vs: seq<string>)
    ensures p.Scalar? ==> vs == [p.value]
    ensures p.Choices? ==> vs == p.values
  {
    match p
    case Scalar(x) => [x]
    case Choices(vs) => vs
  }

  /** The number of experiments of a grid: the product of the numbers of options. */
  function Product(hp: Hyperparams): nat {
    if hp == [] then 1 else Product(hp[..|hp| - 1]) * |Options(hp[|hp| - 1].1)|
  }

  /**
   * The evident intent of `generate_setup`: one experiment for every choice of
   * one option per key, the earlier keys varying slowest, starting from the
   * single empty setup so that a fixed value is never dropped.
   */
  function IntendedSetups(hp: Hyperparams): (r: seq<seq<string>>)
    ensures |r| == Product(hp)
  {
    if hp == [] then [[]] else Extend(IntendedSetups(hp[..|hp| - 1]), Options(hp[|hp| - 1].1))
  }

  /** `value` is one of the options of `p`. */
  predicate Admissible(p: Param, value: string) {
    value in Options(p)
  }

  /** `setup` gives every key of `hp`, in order, one of its options. */
  predicate IsSetupOf(hp: Hyperparams, setup: seq<string>) {
    |setup| == |hp| && forall i :: 0 <= i < |hp| ==> Admissible(hp[i].1, setup[i])
  }

  /** Every intended setup gives each key one of its options. */
  lemma {:induction false} IntendedSetupsSound(hp: Hyperparams, setup: seq<string>)
    requires setup in IntendedSetups(hp)
    ensures IsSetupOf(hp, setup)
    decreases |hp|
  {
    if hp != [] {
      var n := |hp| - 1;
      var prefix := hp[..n];
      var opts := Options(hp[n].1);
      var prev := IntendedSetups(prefix);
      ExtendMembers(prev, opts, setup);
      var i, j :| 0 <= i < |prev| && 0 <= j < |opts| && setup == prev[i] + [opts[j]];
      IntendedSetupsSound(prefix, prev[i]);
      SoundStep(hp, prev[i], opts[j], setup);
    }
  }

  /** A setup of the first keys, extended by an option of the last key, is a setup of all keys. */
  lemma SoundStep(hp: Hyperparams, init: seq<string>, v: string, setup: seq<string>)
    requires hp != [] && IsSetupOf(hp[..|hp| - 1], init)
    requires v in Options(hp[|hp| - 1].1) && setup == init + [v]
    ensures IsSetupOf(hp, setup)
  {
    forall k | 0 <= k < |hp|
      ensures Admissible(hp[k].1, setup[k])
    {
      if k < |hp| - 1 {
        assert setup[k] == init[k] && hp[..|hp| - 1][k] == hp[k];
      }
    }
  }

  /** Every setup of the grid is among the intended setups. */
  lemma {:induction false} IntendedSetupsComplete(hp: Hyperparams, setup: seq<string>)
    requires IsSetupOf(hp, setup)
    ensures setup in IntendedSetups(hp)
    decreases |hp|
  {
    if hp == [] {
      assert setup == [];
    } else {
      var n := |hp| - 1;
      forall k | 0 <= k < n
        ensures Admissible(hp[..n][k].1, setup[..n][k])
      {
        assert setup[..n][k] == setup[k] && hp[..n][k] == hp[k];
      }
      IntendedSetupsComplete(hp[..n], setup[..n]);
      CompleteStep(hp, setup);
    }
  }

  /** A setup whose first entries are an intended setup of the first keys, and whose last entry is an option of the last key, is intended. */
  lemma CompleteStep(hp: Hyperparams, setup: seq<string>)
    requires hp != [] && |setup| == |hp|
    requires setup[..|hp| - 1] in IntendedSetups(hp[..|hp| - 1])
    requires setup[|hp| - 1] in Options(hp[|hp| - 1].1)
    ensures setup in IntendedSetups(hp)
  {
    var n := |hp| - 1;
    var prev := IntendedSetups(hp[..n]);
    var opts := Options(hp[n].1);
    var i :| 0 <= i < |prev| && prev[i] == setup[..n];
    var j :| 0 <= j < |opts| && opts[j] == setup[n];
    ExtendHas(prev, opts, i, j);
    LastSplit(setup);
  }

  /** The intended setups are exactly the setups of the grid. */
  lemma IntendedSetupsAreTheGrid(hp: Hyperparams, setup: seq<string>)
    ensures setup in IntendedSetups(hp) <==> IsSetupOf(hp, setup)
  {
    if setup in IntendedSetups(hp) {
      IntendedSetupsSound(hp, setup);
    }
    if IsSetupOf(hp, setup) {
      IntendedSetupsComplete(hp, setup);
    }
  }

  /**
   * The corrected `generate_setup`: `setuplist` starts as the single empty
   * setup and every key, fixed or not, extends it by each of its options.
   */
  method GenerateGrid(hp: Hyperparams) returns (dicts: seq<seq<(string, string)>>)
    ensures dicts == Dicts(Keys(hp), IntendedSetups(hp))
    ensures |dicts| == Product(hp)
  {
    var setuplist: seq<seq<string>> := [[]];
    for i := 0 to |hp|
      invariant setuplist == IntendedSetups(hp[..i])
    {
      assert hp[..i + 1][..i] == hp[..i];
      setuplist := Extend(setuplist, Options(hp[i].1));
    }
    assert hp[..|hp|] == hp;
    dicts := Dicts(Keys(hp), setuplist);
  }

  /** Experiment `k` of the intended grid, as a dictionary, binds every key, in key order, to one of its options. */
  lemma IntendedDicts(hp: Hyperparams, k: nat)
    requires k < Product(hp)
    ensures var d := Dicts(Keys(hp), IntendedSetups(hp))[k];
      |d| == |hp| && forall i :: 0 <= i < |hp| ==> d[i].0 == hp[i].0 && Admissible(hp[i].1, d[i].1)
  {
    var setup := IntendedSetups(hp)[k];
    IntendedSetupsAreTheGrid(hp, setup);
  }

  /** No list values: `generate_setup` yields nothing. */
  lemma {:induction false} NoChoicesNoSetups(hp: Hyperparams)
    requires forall i :: 0 <= i < |hp| ==> hp[i].1.Scalar?
    ensures SetupsAsWritten(hp) == []
    decreases |hp|
  {
    if hp != [] {
      NoChoicesNoSetups(hp[..|hp| - 1]);
    }
  }

  /**
   * An empty list empties the setups built so far, and the next list-valued
   * key then starts afresh, so the keys before the empty list are dropped.
   */
  lemma EmptyChoicesRestart(hp: Hyperparams, empty: string, key: string, vs: seq<string>)
    requires vs != []
    ensures SetupsAsWritten(hp + [(empty, Choices([]))]) == []
    ensures SetupsAsWritten(hp + [(empty, Choices([])), (key, Choices(vs))]) == Extend([[]], vs)
  {
    var h1 := hp + [(empty, Choices([]))];
    var h2 := hp + [(empty, Choices([])), (key, Choices(vs))];
    assert h1[..|h1| - 1] == hp;
    assert h2[..|h2| - 1] == h1;
  }

  /** A key with no option at all leaves the intended grid without experiments. */
  lemma EmptyChoicesNoRuns(hp: Hyperparams, i: nat)
    requires i < |hp| && Options(hp[i].1) == []
    ensures IntendedSetups(hp) == []
  {
    if IntendedSetups(hp) != [] {
      IntendedSetupsSound(hp, IntendedSetups(hp)[0]);
      assert false;
    }
  }

  /** With non-empty options everywhere, a grid has at least one experiment. */
  lemma {:induction false} ProductPositive(hp: Hyperparams)
    requires forall i :: 0 <= i < |hp| ==> |Options(hp[i].1)| > 0
    ensures Product(hp) > 0
    decreases |hp|
  {
    if hp != [] {
      var prefix := hp[..|hp| - 1];
      assert forall i :: 0 <= i < |prefix| ==> prefix[i] == hp[i];
      ProductPositive(prefix);
      MulPositive(Product(prefix), |Options(hp[|hp| - 1].1)|);
    }
  }

  lemma MulPositive(a: int, b: int)
    requires a > 0 && b > 0
    ensures a * b > 0
  {
  }

  /**
   * `generate_setup` as written: when no list is empty, its setups are the
   * intended setups of the keys from the first list-valued key on; the fixed
   * values before that key are dropped.
   */
  lemma {:induction false} AsWrittenFromFirstList(hp: Hyperparams, f: nat)
    requires f < |hp| && hp[f].1.Choices?
    requires forall i :: 0 <= i < f ==> hp[i].1.Scalar?
    requires forall i :: 0 <= i < |hp| ==> |Options(hp[i].1)| > 0
    ensures SetupsAsWritten(hp) == IntendedSetups(hp[f..])
    decreases |hp|
  {
    var n := |hp| - 1;
    if n == f {
      NoChoicesNoSetups(hp[..n]);
      assert hp[f..][..0] == [];
    } else {
      AsWrittenFromFirstList(hp[..n], f);
      SuffixOfPrefix(hp, f);
      forall i | 0 <= i < |hp[..n][f..]|
        ensures |Options(hp[..n][f..][i].1)| > 0
      {
        assert hp[..n][f..][i] == hp[f + i];
      }
      ProductPositive(hp[..n][f..]);
    }
  }

  /** The number of experiments `generate_setup` yields when no list is empty: the product of the list lengths. */
  lemma AsWrittenCount(hp: Hyperparams, f: nat)
    requires f < |hp| && hp[f].1.Choices?
    requires forall i :: 0 <= i < f ==> hp[i].1.Scalar?
    requires forall i :: 0 <= i < |hp| ==> |Options(hp[i].1)| > 0
    ensures |SetupsAsWritten(hp)| == Product(hp)
  {
    AsWrittenFromFirstList(hp, f);
    ProductOfSuffix(hp, f);
  }

  /** Keys with a fixed value count once in the product. */
  lemma {:induction false} ProductOfSuffix(hp: Hyperparams, f: nat)
    requires f <= |hp| && forall i :: 0 <= i < f ==> hp[i].1.Scalar?
    ensures Product(hp) == Product(hp[f..])
    decreases |hp|
  {
    if |hp| > f {
      var n := |hp| - 1;
      ProductOfSuffix(hp[..n], f);
      SuffixOfPrefix(hp, f);
    } else {
      assert hp[f..] == [];
      if hp != [] {
        ProductOfSuffix(hp[..|hp| - 1], f - 1);
        assert hp[..|hp| - 1][f - 1..] == [];
      }
    }
  }

  /** The grid whose first key is fixed: a learning rate of 0.1, then two batch sizes. */
  const ScalarFirst: Hyperparams := [("lr", Scalar("0.1")), ("bs", Choices(["1", "2"]))]

  /**
   * As written, the fixed learning rate is dropped and `zip` binds the key
   * `lr` to the batch sizes, while `bs` is missing from both dictionaries.
   */
  lemma ScalarFirstMisbinds()
    ensures Dicts(Keys(ScalarFirst), SetupsAsWritten(ScalarFirst)) == [[("lr", "1")], [("lr", "2")]]
  {
    assert ScalarFirst[..1] == [("lr", Scalar("0.1"))];
    assert ScalarFirst[..0] == [];
    assert SetupsAsWritten(ScalarFirst[..1]) == [];
    ExtendOne([], ["1", "2"]);
    var r := Extend([[]], ["1", "2"]);
    assert r[0] == ["1"] && r[1] == ["2"];
    assert r == [["1"], ["2"]];
    assert SetupsAsWritten(ScalarFirst) == r;
    var keys := Keys(ScalarFirst);
    assert keys == ["lr", "bs"];
    var d := Dicts(keys, r);
    assert d[0] == Zip(keys, ["1"]) == [("lr", "1")];
    assert d[1] == Zip(keys, ["2"]) == [("lr", "2")];
  }

  /** The intended grid binds both keys in both experiments. */
  lemma ScalarFirstIntended()
    ensures Dicts(Keys(ScalarFirst), IntendedSetups(ScalarFirst)) == [[("lr", "0.1"), ("bs", "1")], [("lr", "0.1"), ("bs", "2")]]
  {
    assert ScalarFirst[..1] == [("lr", Scalar("0.1"))];
    assert ScalarFirst[..1][..0] == [];
    ExtendOne([], ["0.1"]);
    var r1 := Extend([[]], ["0.1"]);
    assert r1[0] == ["0.1"];
    assert r1 == [["0.1"]];
    assert IntendedSetups(ScalarFirst[..1]) == r1;
    ExtendOne(["0.1"], ["1", "2"]);
    var r := Extend([["0.1"]], ["1", "2"]);
    assert r[0] == ["0.1", "1"] && r[1] == ["0.1", "2"];
    assert r == [["0.1", "1"], ["0.1", "2"]];
    assert IntendedSetups(ScalarFirst) == r;
    var keys := Keys(ScalarFirst);
    assert keys == ["lr", "bs"];
    var d := Dicts(keys, r);
    assert d[0] == Zip(keys, r[0]) == [("lr", "0.1"), ("bs", "1")];
    assert d[1] == Zip(keys, r[1]) == [("lr", "0.1"), ("bs", "2")];
  }

  /** The total length of the parts. */
  function TotalLength(parts: seq<string>): nat {
    if parts == [] then 0 else |parts[0]| + TotalLength(parts[1..])
  }

  /** Where part `k` starts once the parts before it and one `+` after each are laid out. */
  function Offset(parts: seq<string>, k: nat): nat
    requires k <= |parts|
  {
    TotalLength(parts[..k]) + k
  }

  /**
   * `r` lays out `parts` in order with one `+` between two neighbours: part
   * `k` sits at `Offset(parts, k)` and is followed by a `+` unless it is the
   * last, and nothing else is in `r`.
   */
  ghost predicate IsJoin(parts: seq<string>, r: string) {
    && (parts == [] ==> r == [])
    && (parts != [] ==> |r| == TotalLength(parts) + |parts| - 1)
    && (forall k :: 0 <= k < |parts| ==>
          Offset(parts, k) + |parts[k]| <= |r| && r[Offset(parts, k)..Offset(parts, k) + |parts[k]|] == parts[k])
    && (forall k :: 0 <= k < |parts| - 1 ==>
          Offset(parts, k) + |parts[k]| < |r| && r[Offset(parts, k) + |parts[k]|] == '+')
  }

  /** `'+'.join(parts)`: the parts in order, with one `+` between two neighbours. */
  function Join(parts: seq<string>): (r: string)
    ensures IsJoin(parts, r)
    ensures parts != [] ==> r[..|parts[0]|] == parts[0]
    ensures |parts| > 1 ==> r[|parts[0]|] == '+'
  {
    if parts == [] then []
    else if |parts| == 1 then JoinOne(parts); parts[0]
    else JoinCons(parts, Join(parts[1..])); parts[0] + "+" + Join(parts[1..])
  }

  /** A single part is joined to itself. */
  lemma JoinOne(parts: seq<string>)
    requires |parts| == 1
    ensures IsJoin(parts, parts[0])
  {
    assert parts[..0] == [] && parts[1..] == [];
    assert Offset(parts, 0) == 0;
  }

  /** Part `k > 0` starts one `+` after the first part, at its place among the remaining parts. */
  lemma OffsetCons(parts: seq<string>, k: nat)
    requires 0 < k <= |parts|
    ensures Offset(parts, k) == |parts[0]| + 1 + Offset(parts[1..], k - 1)
  {
    assert parts[..k][1..] == parts[1..][..k - 1];
  }

  /** The first part, a `+`, then a join of the other parts, is a join of all of them. */
  lemma JoinCons(parts: seq<string>, tail: string)
    requires |parts| > 1 && IsJoin(parts[1..], tail)
    ensures IsJoin(parts, parts[0] + "+" + tail)
  {
    var r := parts[0] + "+" + tail;
    assert parts[..0] == [];
    forall k | 0 < k < |parts|
      ensures Offset(parts, k) + |parts[k]| <= |r| && r[Offset(parts, k)..Offset(parts, k) + |parts[k]|] == parts[k]
    {
      JoinConsPart(parts, tail, k);
    }
    forall k | 0 < k < |parts| - 1
      ensures Offset(parts, k) + |parts[k]| < |r| && r[Offset(parts, k) + |parts[k]|] == '+'
    {
      JoinConsSeparator(parts, tail, k);
    }
  }

  /** Part `k > 0` of the first part, a `+` and a join of the others is where the join places it. */
  lemma JoinConsPart(parts: seq<string>, tail: string, k: nat)
    requires 0 < k < |parts| && IsJoin(parts[1..], tail)
    ensures var r := parts[0] + "+" + tail;
      Offset(parts, k) + |parts[k]| <= |r| && r[Offset(parts, k)..Offset(parts, k) + |parts[k]|] == parts[k]
  {
    var r := parts[0] + "+" + tail;
    OffsetCons(parts, k);
    var o := Offset(parts[1..], k - 1);
    assert parts[1..][k - 1] == parts[k];
    assert r[|parts[0]| + 1 + o..|parts[0]| + 1 + o + |parts[k]|] == tail[o..o + |parts[k]|];
  }

  /** The separator after part `k > 0` is the one the join of the other parts puts there. */
  lemma JoinConsSeparator(parts: seq<string>, tail: string, k: nat)
    requires 0 < k < |parts| - 1 && IsJoin(parts[1..], tail)
    ensures var r := parts[0] + "+" + tail;
      Offset(parts, k) + |parts[k]| < |r| && r[Offset(parts, k) + |parts[k]|] == '+'
  {
    OffsetCons(parts, k);
    assert parts[1..][k - 1] == parts[k];
  }

  /** The `k:v` fields of a run name, in dictionary order, without `output_path`. */
  function Fields(setup: seq<(string, string)>): (r: seq<string>)
    ensures |r| <= |setup|
    ensures forall i :: 0 <= i < |r| ==> ':' in r[i]
  {
    if setup == [] then []
    else if setup[0].0 == "output_path" then Fields(setup[1..])
    else [setup[0].0 + ":" + setup[0].1] + Fields(setup[1..])
  }

  /** `generate_run_name`: the base name, `+`, the fields joined by `+`, and `.conll`. */
  function RunName(base: string, setup: seq<(string, string)>): (name: string)
    ensures |name| >= |base| + 7
    ensures name[..|base| + 1] == base + "+"
    ensures name[|name| - 6..] == ".conll"
    ensures name[|base| + 1..|name| - 6] == Join(Fields(setup))
  {
    base + "+" + Join(Fields(setup)) + ".conll"
  }

  /** The output path does not take part in the run name, wherever it occurs. */
  lemma {:induction false} RunNameIgnoresOutputPath(base: string, before: seq<(string, string)>, path: string, after: seq<(string, string)>)
    ensures RunName(base, before + [("output_path", path)] + after) == RunName(base, before + after)
  {
    FieldsSkipOutputPath(before, path, after);
  }

  lemma {:induction false} FieldsSkipOutputPath(before: seq<(string, string)>, path: string, after: seq<(string, string)>)
    ensures Fields(before + [("output_path", path)] + after) == Fields(before + after)
    decreases |before|
  {
    if before == [] {
      assert before + [("output_path", path)] + after == [("output_path", path)] + after;
      assert ([("output_path", path)] + after)[1..] == after;
      assert before + after == after;
    } else {
      assert (before + [("output_path", path)] + after)[1..] == before[1..] + [("output_path", path)] + after;
      assert (before + after)[1..] == before[1..] + after;
      FieldsSkipOutputPath(before[1..], path, after);
    }
  }

  /** Every other entry gives one `k:v` field, in dictionary order. */
  lemma {:induction false} FieldsInOrder(setup: seq<(string, string)>)
    requires forall i :: 0 <= i < |setup| ==> setup[i].0 != "output_path"
    ensures |Fields(setup)| == |setup|
    ensures forall i :: 0 <= i < |setup| ==> Fields(setup)[i] == setup[i].0 + ":" + setup[i].1
    decreases |setup|
  {
    if setup != [] {
      FieldsInOrder(setup[1..]);
    }
  }
}
