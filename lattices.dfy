/** The lattice specification list and the ordered, duplicate-free list of input dimensions
    (models.py lines 23-43). */
module Lattices {
  import opened Wrappers

  /** The `lattice_dims_str` argument: None, a single string, or a list or tuple of strings. */
  datatype LatticeArg = NoLattice | OneString(s: string) | Strings(list: seq<string>)

  /** Lines 26-31, run only when there are k > 0 bilateral tokens: a single string, or a list of one,
      is repeated k times; any other list must have exactly k entries. `len(None)` raises TypeError. */
  function Broadcast(arg: LatticeArg, k: nat): (r: Result<seq<string>>)
    requires k > 0
    ensures r.Ok? <==> arg.OneString? || (arg.Strings? && (|arg.list| == 1 || |arg.list| == k))
    ensures arg.NoLattice? ==> r == Err(TypeError)
    ensures arg.Strings? && |arg.list| != 1 && |arg.list| != k ==> r == Err(AssertionError)
    ensures r.Ok? ==> |r.value| == k
    ensures arg.OneString? ==> forall b :: 0 <= b < k ==> r.value[b] == arg.s
    ensures arg.Strings? && |arg.list| == 1 ==> forall b :: 0 <= b < k ==> r.value[b] == arg.list[0]
    ensures arg.Strings? && |arg.list| == k ==> r == Ok(arg.list)
  {
    match arg
    case NoLattice => Err(TypeError)
    case OneString(s) => Ok(seq(k, _ => s))
    case Strings(l) =>
      if |l| == 1 then
        assert k == 1 ==> seq(k, _ => l[0]) == l;
        Ok(seq(k, _ => l[0]))
      else if |l| == k then Ok(l)
      else Err(AssertionError)
  }

  /** The lattice list the block loop indexes: broadcast when there are bilateral tokens. With none,
      the argument is neither checked nor read, so any argument is accepted. */
  function LatticeList(arg: LatticeArg, k: nat): (r: Result<seq<string>>)
    ensures k == 0 ==> r.Ok?
    ensures k > 0 ==> r == Broadcast(arg, k)
    ensures r.Ok? ==> |r.value| == k
  {
    if k == 0 then Ok([]) else Broadcast(arg, k)
  }

  /** `reduce(lambda x, y: x if y in x else x + [y], s, [])` (line 35): a left fold that keeps the
      first occurrence of each element. */
  function Dedup<T(==)>(s: seq<T>): seq<T>
  {
    if s == [] then []
    else
      var p := Dedup(s[..|s| - 1]);
      if s[|s| - 1] in p then p else p + [s[|s| - 1]]
  }

  predicate NoDuplicates<T(==)>(s: seq<T>)
  {
    forall i, j :: 0 <= i < j < |s| ==> s[i] != s[j]
  }

  /** The position of the first occurrence of `x` in `s`. */
  function FirstIndex<T(==)>(s: seq<T>, x: T): (k: nat)
    requires x in s
    ensures k < |s| && s[k] == x && x !in s[..k]
  {
    if s[0] == x then 0 else 1 + FirstIndex(s[1..], x)
  }

  lemma {:induction false} FirstIndexInPrefix<T>(s: seq<T>, m: nat, x: T)
    requires m <= |s| && x in s[..m]
    ensures FirstIndex(s, x) == FirstIndex(s[..m], x) < m
    decreases m
  {
    if s[0] != x {
      assert s[..m][1..] == s[1..][..m - 1];
      FirstIndexInPrefix(s[1..], m - 1, x);
    }
  }

  /** The deduplicated list holds exactly the elements of the input. */
  lemma {:induction false} DedupElements<T>(s: seq<T>)
    ensures forall x :: x in Dedup(s) <==> x in s
    decreases |s|
  {
    if s != [] {
      var s' := s[..|s| - 1];
      DedupElements(s');
      assert s == s' + [s[|s| - 1]];
    }
  }

  /** The deduplicated list has no repeated element. */
  lemma {:induction false} DedupNoDuplicates<T>(s: seq<T>)
    ensures NoDuplicates(Dedup(s))
    decreases |s|
  {
    if s != [] {
      DedupNoDuplicates(s[..|s| - 1]);
    }
  }

  /** The deduplicated list keeps first-occurrence order. */
  lemma {:induction false} DedupFirstOccurrenceOrder<T>(s: seq<T>)
    ensures forall x :: x in Dedup(s) ==> x in s
    ensures forall i, j :: 0 <= i < j < |Dedup(s)| ==> FirstIndex(s, Dedup(s)[i]) < FirstIndex(s, Dedup(s)[j])
    decreases |s|
  {
    DedupElements(s);
    if s != [] {
      DedupFirstOccurrenceOrder(s[..|s| - 1]);
      DedupOrderExtend(s);
    }
  }

  /** The order of the first occurrences survives appending one element. */
  lemma DedupOrderExtend<T>(s: seq<T>)
    requires s != []
    requires var s' := s[..|s| - 1]; forall x :: x in Dedup(s') ==> x in s'
    requires var s' := s[..|s| - 1];
      forall i, j :: 0 <= i < j < |Dedup(s')| ==> FirstIndex(s', Dedup(s')[i]) < FirstIndex(s', Dedup(s')[j])
    ensures forall x :: x in Dedup(s) ==> x in s
    ensures forall i, j :: 0 <= i < j < |Dedup(s)| ==> FirstIndex(s, Dedup(s)[i]) < FirstIndex(s, Dedup(s)[j])
  {
    var n := |s|;
    var s' := s[..n - 1];
    var p := Dedup(s');
    var r := Dedup(s);
    DedupElements(s');
    DedupElements(s);
    forall i | 0 <= i < |p| ensures p[i] in s && FirstIndex(s, p[i]) == FirstIndex(s', p[i]) < n - 1 {
      assert p[i] in s';
      FirstIndexInPrefix(s, n - 1, p[i]);
    }
    if s[n - 1] in p {
      assert r == p;
    } else {
      assert r == p + [s[n - 1]];
      LastFirstIndex(s);
      forall i, j | 0 <= i < j < |r| ensures FirstIndex(s, r[i]) < FirstIndex(s, r[j]) {
        assert r[i] == p[i];
        if j < |p| {
          assert r[j] == p[j];
        }
      }
    }
  }

  /** An element that first occurs at the end has its first index there. */
  lemma LastFirstIndex<T>(s: seq<T>)
    requires s != [] && s[|s| - 1] !in s[..|s| - 1]
    ensures FirstIndex(s, s[|s| - 1]) == |s| - 1
  {
  }

  /** A list that already has no duplicates is left unchanged. */
  lemma {:induction false} DedupDistinct<T>(s: seq<T>)
    requires NoDuplicates(s)
    ensures Dedup(s) == s
    decreases |s|
  {
    if s != [] {
      var s' := s[..|s| - 1];
      DedupDistinct(s');
      assert s[|s| - 1] !in s';
    }
  }

  /** `reduce(lambda x, y: x + y, lattice_dims)` for a non-empty list. */
  function Flatten<T>(ls: seq<seq<T>>): seq<T>
  {
    if ls == [] then [] else ls[0] + Flatten(ls[1..])
  }

  lemma {:induction false} FlattenElements<T>(ls: seq<seq<T>>, x: T)
    ensures x in Flatten(ls) <==> exists j :: 0 <= j < |ls| && x in ls[j]
  {
    if ls != [] {
      FlattenElements(ls[1..], x);
      if x in Flatten(ls[1..]) {
        var j :| 0 <= j < |ls[1..]| && x in ls[1..][j];
        assert x in ls[j + 1];
      }
      if exists j :: 0 <= j < |ls| && x in ls[j] {
        var j :| 0 <= j < |ls| && x in ls[j];
        if j > 0 { assert x in ls[1..][j - 1]; }
      }
    }
  }

  /** Lines 34-35: the feature dimensions followed by every lattice's dimensions, deduplicated. */
  function InputDims(featDims: seq<string>, latticeDims: seq<seq<string>>): (r: seq<string>)
    ensures NoDuplicates(r)
    ensures forall x :: x in r ==> x in featDims + Flatten(latticeDims)
    ensures forall x :: x in r <==> x in featDims || exists j :: 0 <= j < |latticeDims| && x in latticeDims[j]
    ensures forall i, j :: 0 <= i < j < |r| ==>
      FirstIndex(featDims + Flatten(latticeDims), r[i]) < FirstIndex(featDims + Flatten(latticeDims), r[j])
  {
    var w := featDims + Flatten(latticeDims);
    DedupNoDuplicates(w);
    DedupElements(w);
    DedupFirstOccurrenceOrder(w);
    forall x ensures x in w <==> x in featDims || exists j :: 0 <= j < |latticeDims| && x in latticeDims[j] {
      FlattenElements(latticeDims, x);
    }
    Dedup(w)
  }
}
