/** Skip-connection specs such as '4_1_ga': merge into block 4 the output of block 1, with options
    'g' (global pooling first) and 'a' (add instead of concatenate). Lines 191-213. */
module Skips {
  import opened Wrappers
  import opened Text

  /** `[skip_str[i].split('_') for i ...]` over the specs whose first field is `str(idx)`, in spec
      order (lines 193-196). The target is compared as text, so '04_1' never targets block 4. */
  function SkipTargets(skips: seq<string>, idx: nat): (r: seq<seq<string>>)
    ensures |r| <= |skips|
    ensures forall v :: v in r ==> |v| >= 1 && v[0] == Str(idx)
    ensures forall v :: v in r ==> exists s :: s in skips && v == Split(s, '_')
    ensures forall s :: s in skips && Split(s, '_')[0] == Str(idx) ==> Split(s, '_') in r
  {
    if skips == [] then []
    else
      var v := Split(skips[0], '_');
      var rest := SkipTargets(skips[1..], idx);
      assert forall s :: s in skips[1..] ==> s in skips;
      if v[0] == Str(idx) then
        assert skips[0] in skips;
        [v] + rest
      else rest
  }

  /** A single spec is kept exactly when its first field is `str(idx)`. */
  lemma SkipTargetsOne(s: string, idx: nat)
    ensures SkipTargets([s], idx) == if Split(s, '_')[0] == Str(idx) then [Split(s, '_')] else []
  {
    assert [s][1..] == [];
  }

  /** The selection keeps spec order and multiplicity: the targets of `a + b` are those of `a`
      followed by those of `b`. With SkipTargetsOne this fixes the result for every list. */
  lemma {:induction false} SkipTargetsAppend(a: seq<string>, b: seq<string>, idx: nat)
    ensures SkipTargets(a + b, idx) == SkipTargets(a, idx) + SkipTargets(b, idx)
    decreases |a|
  {
    if a == [] {
      assert a + b == b;
    } else {
      assert (a + b)[0] == a[0];
      assert (a + b)[1..] == a[1..] + b;
      SkipTargetsAppend(a[1..], b, idx);
    }
  }

  /** Repeated and out-of-order specs are kept as written: for '4_2', '4_1', '4_1' (c = '2',
      d = '1') all three target block 4, in that order, so conv4's merge reads relu4, then block 2,
      then block 1 twice. */
  lemma SkipTargetsKeepOrder(c: char, d: char)
    requires c != '_' && d != '_'
    ensures SkipTargets(["4_" + [c], "4_" + [d], "4_" + [d]], 4) == [["4", [c]], ["4", [d]], ["4", [d]]]
  {
    var p, q := "4_" + [c], "4_" + [d];
    TargetOfPair(c);
    TargetOfPair(d);
    SkipTargetsAppend([q], [q], 4);
    assert [q] + [q] == [q, q];
    SkipTargetsAppend([p], [q, q], 4);
    assert [p] + [q, q] == [p, q, q];
  }

  /** The spec '4_c' targets block 4 with the fields '4' and c. */
  lemma TargetOfPair(c: char)
    requires c != '_'
    ensures SkipTargets(["4_" + [c]], 4) == [["4", [c]]]
  {
    var s := "4_" + [c];
    assert s == "4" + ['_'] + [c];
    SplitPrefix("4", [c], '_');
    SplitNoSep([c], '_');
    assert Split(s, '_') == [['4'], [c]];
    assert Str(4) == ['4'];
    SkipTargetsOne(s, 4);
  }

  /** Lines 197-200: either every spec has two fields (no option, Ok(None)), or every spec has an
      option field equal to the first spec's (Ok(Some(o))). `all` stops at the first mismatch; a spec
      without a third field raises IndexError when it is reached. */
  function SkipOption(ps: seq<seq<string>>): (r: Result<Option<string>>)
    requires |ps| >= 1
    ensures r == Ok(None) <==> forall v :: v in ps ==> |v| == 2
    ensures r.Ok? && r.value.Some? <==> |ps[0]| >= 3 && forall v :: v in ps ==> |v| >= 3 && v[2] == ps[0][2]
    ensures r.Ok? && r.value.Some? ==> r.value.value == ps[0][2]
    ensures r.Err? ==> r.error == AssertionError || r.error == IndexError
  {
    if |ps[0]| == 2 then
      if forall v :: v in ps ==> |v| == 2 then Ok(None) else Err(AssertionError)
    else
      match ThirdFieldsAgree(ps, 0)
      case Ok(_) => Ok(Some(ps[0][2]))
      case Err(e) => Err(e)
  }

  /** `all(v[2] == skip_params[0][2] for v in skip_params[j:])`, raising where `v[2]` does not exist. */
  function ThirdFieldsAgree(ps: seq<seq<string>>, j: nat): (r: Result<()>)
    requires 1 <= |ps| && j <= |ps|
    requires j > 0 ==> |ps[0]| >= 3
    ensures r.Ok? <==> forall m :: j <= m < |ps| ==> |ps[m]| >= 3 && |ps[0]| >= 3 && ps[m][2] == ps[0][2]
    ensures r.Err? ==> r.error == AssertionError || r.error == IndexError
    decreases |ps| - j
  {
    if j == |ps| then Ok(())
    else if |ps[j]| < 3 || |ps[0]| < 3 then Err(IndexError)
    else if ps[j][2] != ps[0][2] then Err(AssertionError)
    else ThirdFieldsAgree(ps, j + 1)
  }

  /** Line 202: global pooling on the current top before the merge. */
  predicate PoolsFirst(option: Option<string>) { option.Some? && 'g' in option.value }

  /** Line 207: an elementwise SUM instead of a concatenation. */
  predicate Adds(option: Option<string>) { option.Some? && 'a' in option.value }

  /** `[last_in_block[int(v[1])] for v in skip_params]` (lines 208 and 212): left to right, a source
      field that is not an integer raises ValueError, a block not built yet raises KeyError. */
  function MergeSources<V>(ps: seq<seq<string>>, last: map<int, V>): (r: Result<seq<V>>)
    requires forall v :: v in ps ==> |v| >= 2
    ensures r.Ok? <==> forall j :: 0 <= j < |ps| ==> ParseInt(ps[j][1]).Ok? && ParseInt(ps[j][1]).value in last
    ensures r.Ok? ==> |r.value| == |ps| && forall j :: 0 <= j < |ps| ==> r.value[j] == last[ParseInt(ps[j][1]).value]
    ensures r.Err? ==> r.error == ValueError || r.error == KeyError
  {
    if ps == [] then Ok([])
    else
      match ParseInt(ps[0][1])
      case Err(e) => Err(e)
      case Ok(src) =>
        if src !in last then Err(KeyError)
        else
          match MergeSources(ps[1..], last)
          case Err(e) =>
            assert forall j :: 1 <= j < |ps| ==> ps[j] == ps[1..][j - 1];
            Err(e)
          case Ok(rest) =>
            assert forall j :: 1 <= j < |ps| ==> ps[j] == ps[1..][j - 1];
            Ok([last[src]] + rest)
  }
}
