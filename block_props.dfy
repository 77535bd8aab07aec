/** What the block pass guarantees: the layers each block emits and how they are wired, the lattice
    cache, the skip merges, and the counters. */
module BlockProps {
  import opened Wrappers
  import opened Text
  import opened Arch
  import opened OrderedMaps
  import opened Graph
  import opened Skips
  import opened Lattices
  import opened Blocks

  /** Names that carry a block index. */
  predicate BlockName(n: LayerName)
  {
    n.Conv? || n.Bn? || n.Relu? || n.GPool? || n.Add? || n.Concat?
  }

  /** Every entry of `n` is still in `n'`, holding the same layer. */
  ghost predicate Extends(n: Net, n': Net)
  {
    forall m :: m in n.vals ==> m in n'.vals && n'.vals[m] == n.vals[m]
  }

  /** `lattice_dims_str.count(x)` */
  function Occurs(cfg: BlockConfig, x: string): nat
  {
    multiset(cfg.lattices)[x]
  }

  /** The distinct lattice strings of the first `b` bilateral layers, in first-occurrence order. */
  function Seen(cfg: BlockConfig, b: nat): seq<string>
    requires b <= |cfg.lattices|
  {
    Dedup(cfg.lattices[..b])
  }

  /** The cache entry of the k-th distinct lattice string `x`. */
  function Entry(cfg: BlockConfig, x: string, k: nat): Cached
  {
    Cached(DataLattice(k), if Occurs(cfg, x) > 1 then Some(Lattice(k)) else None)
  }

  /** Block layers only exist for the blocks before `idx`, and `last_in_block` holds exactly those. */
  ghost predicate Fresh(s: BlockState)
  {
    && s.idx >= 1
    && (forall m :: m in s.net.vals && BlockName(m) ==> 1 <= m.i < s.idx)
    && (forall j :: j in s.last <==> 1 <= j < s.idx)
  }

  /** The cache holds the k-th distinct lattice string seen so far, with the entry Entry describes. */
  ghost predicate CacheKeys(cfg: BlockConfig, s: BlockState)
  {
    && s.bltrIdx <= |cfg.lattices|
    && var d := Seen(cfg, s.bltrIdx);
    && |s.cache| == |d|
    && (forall x :: x in s.cache <==> x in d)
    && (forall k :: 0 <= k < |d| ==> s.cache[d[k]] == Entry(cfg, d[k], k))
  }

  /** data_lattice{k} picks the k-th distinct lattice string, lattice{k} exists exactly when that
      string occurs more than once, and there are no other lattice layers. */
  ghost predicate LatticeLayers(cfg: BlockConfig, s: BlockState)
    requires s.bltrIdx <= |cfg.lattices|
  {
    var d := Seen(cfg, s.bltrIdx);
    && (forall k: nat :: DataLattice(k) in s.net.vals <==> k < |d|)
    && (forall k :: 0 <= k < |d| ==> s.net.vals[DataLattice(k)] == Layer(PickAndScale(d[k]), [Data]))
    && (forall k: nat :: Lattice(k) in s.net.vals <==> k < |d| && Occurs(cfg, d[k]) > 1)
  }

  ghost predicate CacheInv(cfg: BlockConfig, s: BlockState)
  {
    CacheKeys(cfg, s) && LatticeLayers(cfg, s)
  }

  ghost predicate Inv(cfg: BlockConfig, s: BlockState)
  {
    Fresh(s) && CacheInv(cfg, s)
  }

  /** conv{i} of token `tok`, fed by `prev`; for a bilateral token, the permutohedral layer reads the
      data_lattice layer of its own lattice string ('lattices[b]') twice, and on a later occurrence of
      that string also the cached lattice{k}; a first occurrence of a string that occurs more than once
      emits lattice{k} as the layer's second top. */
  ghost predicate ConvEmitted(cfg: BlockConfig, net: Net, i: nat, tok: Token, prev: LayerName, b: nat)
  {
    && LayerName.Conv(i) in net.vals
    && var l := net.vals[LayerName.Conv(i)];
    if tok.kind.Conv? then l == Layer(Convolution(tok.width, cfg.convFiller), [prev])
    else
      && b < |cfg.lattices|
      && var x := cfg.lattices[b];
      && var first := x !in cfg.lattices[..b];
      && |l.inputs| >= 3
      && var dl := l.inputs[1];
      && dl.DataLattice? && dl in net.vals && net.vals[dl] == Layer(PickAndScale(x), [Data])
      && l.inputs == [prev, dl, dl] + (if first then [] else [Lattice(dl.k)])
      && l.op == Permutohedral(tok.width, cfg.neighborhood, cfg.bltrFiller, if first && Occurs(cfg, x) > 1 then 2 else 1)
      && (first && Occurs(cfg, x) > 1 ==> Lattice(dl.k) in net.vals && net.vals[Lattice(dl.k)] == Layer(ExtraTop(1), [LayerName.Conv(i)]))
  }

  /** bn{i} exactly when batchnorm, fed by conv{i}; relu{i} fed by the layer before it. */
  ghost predicate NormReluEmitted(cfg: BlockConfig, net: Net, i: nat)
  {
    && (Bn(i) in net.vals <==> cfg.batchnorm)
    && (cfg.batchnorm ==> net.vals[Bn(i)] == Layer(BatchNorm, [LayerName.Conv(i)]))
    && Relu(i) in net.vals
    && net.vals[Relu(i)] == Layer(ReLU, [if cfg.batchnorm then Bn(i) else LayerName.Conv(i)])
  }

  /** The merge inputs: `pre` followed by the output of each source block, in spec order. */
  ghost predicate MergeInputs(inputs: seq<LayerName>, pre: LayerName, ps: seq<seq<string>>, last: map<int, LayerName>)
  {
    && |inputs| == |ps| + 1 && inputs[0] == pre
    && forall j :: 0 <= j < |ps| ==>
         |ps[j]| >= 2 && ParseInt(ps[j][1]).Ok? && ParseInt(ps[j][1]).value in last
         && inputs[j + 1] == last[ParseInt(ps[j][1]).value]
  }

  /** The skip merge into block i and `last_in_block[i]`: nothing when no spec targets i; otherwise
      consistent options, sources among the blocks already built, gpool{i} exactly for option 'g',
      and add{i} for option 'a', concat{i} otherwise. */
  ghost predicate MergeEmitted(cfg: BlockConfig, net: Net, last: map<int, LayerName>, i: nat)
  {
    && i in last
    && var ps := SkipTargets(cfg.skips, i);
    if ps == [] then
      last[i] == Relu(i) && GPool(i) !in net.vals && Add(i) !in net.vals && Concat(i) !in net.vals
    else
      && SkipOption(ps).Ok?
      && var option := SkipOption(ps).value;
      && (forall j :: 0 <= j < |ps| ==> |ps[j]| >= 2 && ParseInt(ps[j][1]).Ok? && 1 <= ParseInt(ps[j][1]).value < i)
      && (GPool(i) in net.vals <==> PoolsFirst(option))
      && (PoolsFirst(option) ==> net.vals[GPool(i)] == Layer(GlobalPooling, [Relu(i)]))
      && var pre := if PoolsFirst(option) then GPool(i) else Relu(i);
      if Adds(option) then
        && Add(i) in net.vals && Concat(i) !in net.vals && last[i] == Add(i)
        && net.vals[Add(i)].op == EltwiseSum && MergeInputs(net.vals[Add(i)].inputs, pre, ps, last)
      else
        && Concat(i) in net.vals && Add(i) !in net.vals && last[i] == Concat(i)
        && net.vals[Concat(i)].op == Concatenate && MergeInputs(net.vals[Concat(i)].inputs, pre, ps, last)
  }

  /** Everything block i leaves in the net, given the top `prev` before it and the bilateral index `b`. */
  ghost predicate BlockEmitted(cfg: BlockConfig, net: Net, last: map<int, LayerName>, i: nat, tok: Token, prev: LayerName, b: nat)
  {
    ConvEmitted(cfg, net, i, tok, prev, b) && NormReluEmitted(cfg, net, i) && MergeEmitted(cfg, net, last, i)
  }

  // ---- the lattice prefix ----

  lemma SeenStep(cfg: BlockConfig, b: nat)
    requires b < |cfg.lattices|
    ensures Seen(cfg, b + 1) == if cfg.lattices[b] in Seen(cfg, b) then Seen(cfg, b) else Seen(cfg, b) + [cfg.lattices[b]]
  {
    assert cfg.lattices[..b + 1][..b] == cfg.lattices[..b];
  }

  /** A lattice string met a second time occurs more than once. */
  lemma SeenAgain(cfg: BlockConfig, b: nat)
    requires b < |cfg.lattices| && cfg.lattices[b] in cfg.lattices[..b]
    ensures Occurs(cfg, cfg.lattices[b]) > 1
  {
    var l := cfg.lattices;
    assert l == l[..b] + [l[b]] + l[b + 1..];
    assert multiset(l) == multiset(l[..b]) + multiset([l[b]]) + multiset(l[b + 1..]);
  }

  // ---- the three phases of a block ----

  /** What the conv phase keeps: the counters, the cache invariant, the old layers; the only new block
      layer is conv{i}. */
  ghost predicate ConvFrame(cfg: BlockConfig, s: BlockState, tok: Token, a: BlockState)
  {
    && a.idx == s.idx && a.last == s.last && a.top == LayerName.Conv(s.idx)
    && a.bltrIdx == s.bltrIdx + (if tok.kind.Bilateral? then 1 else 0)
    && CacheInv(cfg, a) && Extends(s.net, a.net)
    && (forall m :: m in a.net.vals && m !in s.net.vals && BlockName(m) ==> m == LayerName.Conv(s.idx))
  }

  /** What the conv phase leaves: its frame and conv{i}. */
  ghost predicate ConvPhase(cfg: BlockConfig, s: BlockState, tok: Token, a: BlockState)
  {
    ConvFrame(cfg, s, tok, a) && ConvEmitted(cfg, a.net, s.idx, tok, s.top, s.bltrIdx)
  }

  lemma EmitConvFacts(cfg: BlockConfig, s: BlockState, tok: Token)
    requires Inv(cfg, s) && EmitConv(cfg, s, tok).Ok?
    ensures ConvPhase(cfg, s, tok, EmitConv(cfg, s, tok).value)
  {
    if tok.kind.Conv? {
      assert LayerName.Conv(s.idx) !in s.net.vals;
    } else if cfg.lattices[s.bltrIdx] in s.cache {
      ReuseFacts(cfg, s, tok);
    } else {
      NewLatticeFacts(cfg, s, tok);
    }
  }

  lemma ReuseFacts(cfg: BlockConfig, s: BlockState, tok: Token)
    requires Inv(cfg, s) && tok.kind.Bilateral? && s.bltrIdx < |cfg.lattices| && cfg.lattices[s.bltrIdx] in s.cache
    ensures ConvPhase(cfg, s, tok, ReuseLattice(cfg, s, tok, s.cache[cfg.lattices[s.bltrIdx]]))
  {
    var i := s.idx;
    var k := ReuseIndex(cfg, s);
    var conv := Layer(Permutohedral(tok.width, cfg.neighborhood, cfg.bltrFiller, 1),
                      [s.top, DataLattice(k), DataLattice(k), Lattice(k)]);
    var a := ReuseLattice(cfg, s, tok, s.cache[cfg.lattices[s.bltrIdx]]);
    ReuseShape(cfg, s, tok, k);
    assert LayerName.Conv(i) !in s.net.vals;
    CacheInvFrame(cfg, s, a);
    assert a.net.vals[LayerName.Conv(i)] == conv;
    assert ConvEmitted(cfg, a.net, i, tok, s.top, s.bltrIdx);
  }

  /** The cache position of a lattice string met again. */
  lemma ReuseIndex(cfg: BlockConfig, s: BlockState) returns (k: nat)
    requires CacheInv(cfg, s) && s.bltrIdx < |cfg.lattices| && cfg.lattices[s.bltrIdx] in s.cache
    ensures var x := cfg.lattices[s.bltrIdx]; var d := Seen(cfg, s.bltrIdx);
      && k < |d| && d[k] == x && s.cache[x] == Entry(cfg, x, k) && Occurs(cfg, x) > 1
      && Seen(cfg, s.bltrIdx + 1) == d && x in cfg.lattices[..s.bltrIdx]
  {
    var b := s.bltrIdx;
    var x := cfg.lattices[b];
    var d := Seen(cfg, b);
    SeenStep(cfg, b);
    DedupElements(cfg.lattices[..b]);
    k :| 0 <= k < |d| && d[k] == x;
    SeenAgain(cfg, b);
  }

  lemma ReuseShape(cfg: BlockConfig, s: BlockState, tok: Token, k: nat)
    requires s.bltrIdx < |cfg.lattices| && cfg.lattices[s.bltrIdx] in s.cache
    requires s.cache[cfg.lattices[s.bltrIdx]] == Entry(cfg, cfg.lattices[s.bltrIdx], k)
    requires Occurs(cfg, cfg.lattices[s.bltrIdx]) > 1
    ensures var a := ReuseLattice(cfg, s, tok, s.cache[cfg.lattices[s.bltrIdx]]);
      && a == s.(net := a.net, top := LayerName.Conv(s.idx), bltrIdx := s.bltrIdx + 1)
      && a.net.vals == s.net.vals[LayerName.Conv(s.idx) := Layer(Permutohedral(tok.width, cfg.neighborhood, cfg.bltrFiller, 1),
                                                                  [s.top, DataLattice(k), DataLattice(k), Lattice(k)])]
  {
    var c := s.cache[cfg.lattices[s.bltrIdx]];
    assert OptionSeq(c.lattice) == [Lattice(k)];
    assert [s.top, c.data, c.data] + OptionSeq(c.lattice) == [s.top, DataLattice(k), DataLattice(k), Lattice(k)];
  }

  lemma NewLatticeFacts(cfg: BlockConfig, s: BlockState, tok: Token)
    requires Inv(cfg, s) && tok.kind.Bilateral? && s.bltrIdx < |cfg.lattices| && cfg.lattices[s.bltrIdx] !in s.cache
    ensures ConvPhase(cfg, s, tok, NewLattice(cfg, s, tok, cfg.lattices[s.bltrIdx]))
  {
    var a := NewLattice(cfg, s, tok, cfg.lattices[s.bltrIdx]);
    NewShape(cfg, s, tok);
    NewIndex(cfg, s);
    NewLatticeFrame(cfg, s, tok, a);
    NewLatticeEmitted(cfg, s, tok, a);
  }

  lemma NewLatticeFrame(cfg: BlockConfig, s: BlockState, tok: Token, a: BlockState)
    requires Inv(cfg, s) && tok.kind.Bilateral? && s.bltrIdx < |cfg.lattices| && cfg.lattices[s.bltrIdx] !in s.cache
    requires NewShaped(cfg, s, tok, a)
    requires Seen(cfg, s.bltrIdx + 1) == Seen(cfg, s.bltrIdx) + [cfg.lattices[s.bltrIdx]]
    ensures ConvFrame(cfg, s, tok, a)
  {
    var k := |s.cache|;
    assert DataLattice(k) !in s.net.vals && LayerName.Conv(s.idx) !in s.net.vals && Lattice(k) !in s.net.vals;
    NewLatticeNet(cfg, s, tok, a);
    NewLatticeCache(cfg, s, a, cfg.lattices[s.bltrIdx]);
  }

  /** The layers the first occurrence adds to the net. */
  lemma NewLatticeNet(cfg: BlockConfig, s: BlockState, tok: Token, a: BlockState)
    requires s.bltrIdx < |cfg.lattices| && NewShaped(cfg, s, tok, a)
    requires DataLattice(|s.cache|) !in s.net.vals && LayerName.Conv(s.idx) !in s.net.vals && Lattice(|s.cache|) !in s.net.vals
    ensures var x := cfg.lattices[s.bltrIdx]; var k := |s.cache|;
      && a.idx == s.idx && a.last == s.last && a.top == LayerName.Conv(s.idx) && a.bltrIdx == s.bltrIdx + 1
      && a.cache == s.cache[x := Entry(cfg, x, k)]
      && Extends(s.net, a.net)
      && (forall m :: m in a.net.vals && m !in s.net.vals && BlockName(m) ==> m == LayerName.Conv(s.idx))
      && (forall m :: m in a.net.vals && m !in s.net.vals ==>
            BlockName(m) || m == DataLattice(k) || (Occurs(cfg, x) > 1 && m == Lattice(k)))
      && DataLattice(k) in a.net.vals && a.net.vals[DataLattice(k)] == Layer(PickAndScale(x), [Data])
      && (Occurs(cfg, x) > 1 ==> Lattice(k) in a.net.vals)
  {
  }

  lemma NewLatticeEmitted(cfg: BlockConfig, s: BlockState, tok: Token, a: BlockState)
    requires tok.kind.Bilateral? && s.bltrIdx < |cfg.lattices| && NewShaped(cfg, s, tok, a)
    requires cfg.lattices[s.bltrIdx] !in cfg.lattices[..s.bltrIdx]
    ensures ConvEmitted(cfg, a.net, s.idx, tok, s.top, s.bltrIdx)
  {
    var x := cfg.lattices[s.bltrIdx];
    var k := |s.cache|;
    var many := Occurs(cfg, x) > 1;
    assert a.net.vals[LayerName.Conv(s.idx)] == Layer(Permutohedral(tok.width, cfg.neighborhood, cfg.bltrFiller, if many then 2 else 1),
                                                      [s.top, DataLattice(k), DataLattice(k)]);
  }

  /** A lattice string met for the first time. */
  lemma NewIndex(cfg: BlockConfig, s: BlockState)
    requires CacheInv(cfg, s) && s.bltrIdx < |cfg.lattices| && cfg.lattices[s.bltrIdx] !in s.cache
    ensures var x := cfg.lattices[s.bltrIdx];
      Seen(cfg, s.bltrIdx + 1) == Seen(cfg, s.bltrIdx) + [x] && x !in cfg.lattices[..s.bltrIdx]
  {
    SeenStep(cfg, s.bltrIdx);
    DedupElements(cfg.lattices[..s.bltrIdx]);
  }

  /** The state NewLattice leaves: data_lattice{k}, conv{i} and, for a string that occurs again,
      lattice{k}; the cache entry of `x`; the new top and bilateral index. */
  ghost predicate NewShaped(cfg: BlockConfig, s: BlockState, tok: Token, a: BlockState)
    requires s.bltrIdx < |cfg.lattices|
  {
    var x := cfg.lattices[s.bltrIdx]; var k := |s.cache|; var i := s.idx;
    var many := Occurs(cfg, x) > 1;
    var vals1 := s.net.vals[DataLattice(k) := Layer(PickAndScale(x), [Data])]
                           [LayerName.Conv(i) := Layer(Permutohedral(tok.width, cfg.neighborhood, cfg.bltrFiller, if many then 2 else 1),
                                                       [s.top, DataLattice(k), DataLattice(k)])];
    && a.net.vals == (if many then vals1[Lattice(k) := Layer(ExtraTop(1), [LayerName.Conv(i)])] else vals1)
    && a.cache == s.cache[x := Entry(cfg, x, k)]
    && a == s.(net := a.net, cache := a.cache, top := LayerName.Conv(i), bltrIdx := s.bltrIdx + 1)
  }

  lemma NewShape(cfg: BlockConfig, s: BlockState, tok: Token)
    requires s.bltrIdx < |cfg.lattices|
    ensures NewShaped(cfg, s, tok, NewLattice(cfg, s, tok, cfg.lattices[s.bltrIdx]))
  {
  }

  lemma NewLatticeCache(cfg: BlockConfig, s: BlockState, a: BlockState, x: string)
    requires CacheInv(cfg, s) && s.bltrIdx < |cfg.lattices| && x == cfg.lattices[s.bltrIdx]
    requires Seen(cfg, s.bltrIdx + 1) == Seen(cfg, s.bltrIdx) + [x] && x !in s.cache
    requires a.bltrIdx == s.bltrIdx + 1
    requires a.cache == s.cache[x := Entry(cfg, x, |s.cache|)]
    requires Extends(s.net, a.net)
    requires forall m :: m in a.net.vals && m !in s.net.vals ==>
               BlockName(m) || m == DataLattice(|s.cache|) || (Occurs(cfg, x) > 1 && m == Lattice(|s.cache|))
    requires DataLattice(|s.cache|) in a.net.vals && a.net.vals[DataLattice(|s.cache|)] == Layer(PickAndScale(x), [Data])
    requires Occurs(cfg, x) > 1 ==> Lattice(|s.cache|) in a.net.vals
    ensures CacheInv(cfg, a)
  {
    NewLatticeKeys(cfg, s, a, x);
    NewLatticeLayers(cfg, s, a, x);
  }

  lemma NewLatticeKeys(cfg: BlockConfig, s: BlockState, a: BlockState, x: string)
    requires CacheKeys(cfg, s) && s.bltrIdx < |cfg.lattices|
    requires Seen(cfg, s.bltrIdx + 1) == Seen(cfg, s.bltrIdx) + [x] && x !in s.cache
    requires a.bltrIdx == s.bltrIdx + 1
    requires a.cache == s.cache[x := Entry(cfg, x, |s.cache|)]
    ensures CacheKeys(cfg, a)
  {
    var d := Seen(cfg, s.bltrIdx);
    var d' := Seen(cfg, a.bltrIdx);
    assert forall y :: y in a.cache <==> y in d';
    forall j | 0 <= j < |d'| ensures a.cache[d'[j]] == Entry(cfg, d'[j], j) {
      if j < |d| {
        assert d'[j] == d[j] && d[j] in s.cache;
      }
    }
  }

  /** The lattice layers after the first occurrence of `x`, the |s.cache|-th distinct string. */
  ghost predicate NewLatticeAdded(cfg: BlockConfig, s: BlockState, a: BlockState, x: string)
  {
    && s.bltrIdx < |cfg.lattices| && |s.cache| == |Seen(cfg, s.bltrIdx)| && LatticeLayers(cfg, s)
    && Seen(cfg, s.bltrIdx + 1) == Seen(cfg, s.bltrIdx) + [x]
    && a.bltrIdx == s.bltrIdx + 1
    && Extends(s.net, a.net)
    && (forall m :: m in a.net.vals && m !in s.net.vals ==>
          BlockName(m) || m == DataLattice(|s.cache|) || (Occurs(cfg, x) > 1 && m == Lattice(|s.cache|)))
    && DataLattice(|s.cache|) in a.net.vals && a.net.vals[DataLattice(|s.cache|)] == Layer(PickAndScale(x), [Data])
    && (Occurs(cfg, x) > 1 ==> Lattice(|s.cache|) in a.net.vals)
  }

  lemma NewLatticeLayers(cfg: BlockConfig, s: BlockState, a: BlockState, x: string)
    requires NewLatticeAdded(cfg, s, a, x)
    ensures LatticeLayers(cfg, a)
  {
    NewDataLatticeKeys(cfg, s, a, x);
    NewDataLatticeLayers(cfg, s, a, x);
    NewLatticeTops(cfg, s, a, x);
  }

  lemma NewDataLatticeKeys(cfg: BlockConfig, s: BlockState, a: BlockState, x: string)
    requires NewLatticeAdded(cfg, s, a, x)
    ensures forall k: nat :: DataLattice(k) in a.net.vals <==> k < |Seen(cfg, a.bltrIdx)|
  {
    var d := Seen(cfg, s.bltrIdx);
    forall k: nat ensures DataLattice(k) in a.net.vals <==> k < |d| + 1 {
      if k < |d| {
        assert DataLattice(k) in s.net.vals;
      } else if k > |d| {
        assert DataLattice(k) !in s.net.vals;
      }
    }
  }

  lemma NewDataLatticeLayers(cfg: BlockConfig, s: BlockState, a: BlockState, x: string)
    requires NewLatticeAdded(cfg, s, a, x)
    requires forall k: nat :: DataLattice(k) in a.net.vals <==> k < |Seen(cfg, a.bltrIdx)|
    ensures var d' := Seen(cfg, a.bltrIdx);
      forall k :: 0 <= k < |d'| ==> a.net.vals[DataLattice(k)] == Layer(PickAndScale(d'[k]), [Data])
  {
    var d := Seen(cfg, s.bltrIdx);
    var d' := Seen(cfg, a.bltrIdx);
    forall k | 0 <= k < |d'| ensures a.net.vals[DataLattice(k)] == Layer(PickAndScale(d'[k]), [Data]) {
      if k < |d| {
        assert d'[k] == d[k] && DataLattice(k) in s.net.vals;
      }
    }
  }

  lemma NewLatticeTops(cfg: BlockConfig, s: BlockState, a: BlockState, x: string)
    requires NewLatticeAdded(cfg, s, a, x)
    ensures var d' := Seen(cfg, a.bltrIdx);
      forall k: nat :: Lattice(k) in a.net.vals <==> k < |d'| && Occurs(cfg, d'[k]) > 1
  {
    var d := Seen(cfg, s.bltrIdx);
    var d' := Seen(cfg, a.bltrIdx);
    forall k: nat ensures Lattice(k) in a.net.vals <==> k < |d'| && Occurs(cfg, d'[k]) > 1 {
      if k < |d| {
        assert d'[k] == d[k];
        assert Lattice(k) in a.net.vals ==> Lattice(k) in s.net.vals;
      } else if k > |d| {
        assert Lattice(k) !in s.net.vals;
      }
    }
  }

  /** What the norm/relu phase keeps: the same counters and cache, the old layers; the new layers are
      bn{i} and relu{i}. */
  ghost predicate NormReluFrame(a: BlockState, b: BlockState)
  {
    && b == a.(net := b.net, top := Relu(a.idx))
    && Extends(a.net, b.net)
    && (forall m :: m in b.net.vals && m !in a.net.vals ==> m == Bn(a.idx) || m == Relu(a.idx))
  }

  ghost predicate NormReluPhase(cfg: BlockConfig, a: BlockState, b: BlockState)
  {
    NormReluFrame(a, b) && NormReluEmitted(cfg, b.net, a.idx)
  }

  lemma NormReluFacts(cfg: BlockConfig, a: BlockState)
    requires a.top == LayerName.Conv(a.idx)
    requires forall m :: m in a.net.vals && BlockName(m) ==> 1 <= m.i < a.idx || m == LayerName.Conv(a.idx)
    ensures NormReluPhase(cfg, a, EmitNormRelu(cfg, a))
  {
  }

  /** What the merge phase keeps: the same counters and cache, the old layers; the new layers are
      gpool{i}, add{i} or concat{i}. */
  ghost predicate MergeFrame(b: BlockState, c: BlockState)
  {
    && c == b.(net := c.net, top := c.top)
    && Extends(b.net, c.net)
    && (forall m :: m in c.net.vals && m !in b.net.vals ==> m == GPool(b.idx) || m == Add(b.idx) || m == Concat(b.idx))
  }

  ghost predicate MergePhase(cfg: BlockConfig, b: BlockState, c: BlockState)
  {
    MergeFrame(b, c) && MergeEmitted(cfg, c.net, c.last[b.idx := c.top], b.idx)
  }

  lemma MergeFacts(cfg: BlockConfig, b: BlockState)
    requires b.top == Relu(b.idx)
    requires forall m :: m in b.net.vals && BlockName(m) ==>
               1 <= m.i < b.idx || m == LayerName.Conv(b.idx) || m == Bn(b.idx) || m == Relu(b.idx)
    requires forall j :: j in b.last <==> 1 <= j < b.idx
    requires EmitMerge(cfg, b).Ok?
    ensures MergePhase(cfg, b, EmitMerge(cfg, b).value)
  {
    var ps := SkipTargets(cfg.skips, b.idx);
    assert GPool(b.idx) !in b.net.vals && Add(b.idx) !in b.net.vals && Concat(b.idx) !in b.net.vals;
    if ps == [] {
      assert EmitMerge(cfg, b) == Ok(b);
    } else {
      assert forall v :: v in ps ==> |v| >= 2;
      var option := SkipOption(ps).value;
      var srcs := MergeSources(ps, b.last).value;
      var c := MergeShape(cfg, b, ps, option, srcs);
      MergedFacts(cfg, b, ps, option, srcs, c);
    }
  }

  /** The merge layers and the new top, as lines 202-213 build them. */
  ghost predicate MergeShaped(b: BlockState, option: Option<string>, srcs: seq<LayerName>, c: BlockState)
  {
    var i := b.idx;
    var pre := if PoolsFirst(option) then GPool(i) else b.top;
    var vals1 := if PoolsFirst(option) then b.net.vals[GPool(i) := Layer(GlobalPooling, [b.top])] else b.net.vals;
    var m := if Adds(option) then Add(i) else Concat(i);
    && c == b.(net := c.net, top := m)
    && c.net.vals == vals1[m := Layer(if Adds(option) then EltwiseSum else Concatenate, [pre] + srcs)]
  }

  lemma MergeShape(cfg: BlockConfig, b: BlockState, ps: seq<seq<string>>, option: Option<string>, srcs: seq<LayerName>)
    returns (c: BlockState)
    requires ps == SkipTargets(cfg.skips, b.idx) && ps != []
    requires SkipOption(ps) == Ok(option)
    requires forall v :: v in ps ==> |v| >= 2
    requires MergeSources(ps, b.last) == Ok(srcs)
    ensures EmitMerge(cfg, b) == Ok(c)
    ensures MergeShaped(b, option, srcs, c)
  {
    c := EmitMerge(cfg, b).value;
  }

  lemma MergedFacts(cfg: BlockConfig, b: BlockState, ps: seq<seq<string>>, option: Option<string>, srcs: seq<LayerName>,
                    c: BlockState)
    requires ps == SkipTargets(cfg.skips, b.idx) && ps != []
    requires SkipOption(ps) == Ok(option)
    requires forall v :: v in ps ==> |v| >= 2
    requires MergeSources(ps, b.last) == Ok(srcs)
    requires b.top == Relu(b.idx)
    requires GPool(b.idx) !in b.net.vals && Add(b.idx) !in b.net.vals && Concat(b.idx) !in b.net.vals
    requires forall j :: j in b.last <==> 1 <= j < b.idx
    requires MergeShaped(b, option, srcs, c)
    ensures MergePhase(cfg, b, c)
  {
    MergedFrame(b, option, srcs, c);
    MergedEmitted(cfg, b, ps, option, srcs, c);
  }

  lemma MergedFrame(b: BlockState, option: Option<string>, srcs: seq<LayerName>, c: BlockState)
    requires GPool(b.idx) !in b.net.vals && Add(b.idx) !in b.net.vals && Concat(b.idx) !in b.net.vals
    requires MergeShaped(b, option, srcs, c)
    ensures MergeFrame(b, c)
  {
  }

  lemma MergedEmitted(cfg: BlockConfig, b: BlockState, ps: seq<seq<string>>, option: Option<string>, srcs: seq<LayerName>,
                      c: BlockState)
    requires ps == SkipTargets(cfg.skips, b.idx) && ps != []
    requires SkipOption(ps) == Ok(option)
    requires forall v :: v in ps ==> |v| >= 2
    requires MergeSources(ps, b.last) == Ok(srcs)
    requires b.top == Relu(b.idx)
    requires GPool(b.idx) !in b.net.vals && Add(b.idx) !in b.net.vals && Concat(b.idx) !in b.net.vals
    requires forall j :: j in b.last <==> 1 <= j < b.idx
    requires MergeShaped(b, option, srcs, c)
    ensures MergeEmitted(cfg, c.net, c.last[b.idx := c.top], b.idx)
  {
    var i := b.idx;
    var pre := if PoolsFirst(option) then GPool(i) else Relu(i);
    var m := if Adds(option) then Add(i) else Concat(i);
    MergedInputs(ps, srcs, i, b.last, c.top, pre);
    assert c.top == m && c.last == b.last;
    assert c.net.vals[m] == Layer(if Adds(option) then EltwiseSum else Concatenate, [pre] + srcs);
  }

  lemma MergedInputs(ps: seq<seq<string>>, srcs: seq<LayerName>, i: nat, last: map<int, LayerName>, top: LayerName, pre: LayerName)
    requires forall v :: v in ps ==> |v| >= 2
    requires forall j :: j in last <==> 1 <= j < i
    requires MergeSources(ps, last) == Ok(srcs)
    ensures forall j :: 0 <= j < |ps| ==> |ps[j]| >= 2 && ParseInt(ps[j][1]).Ok? && 1 <= ParseInt(ps[j][1]).value < i
    ensures MergeInputs([pre] + srcs, pre, ps, last[i := top])
  {
    var inputs := [pre] + srcs;
    forall j | 0 <= j < |ps|
      ensures |ps[j]| >= 2 && ParseInt(ps[j][1]).Ok? && 1 <= ParseInt(ps[j][1]).value < i
      ensures ParseInt(ps[j][1]).value in last[i := top] && inputs[j + 1] == last[i := top][ParseInt(ps[j][1]).value]
    {
      assert ps[j] in ps;
      assert inputs[j + 1] == srcs[j];
    }
  }

  // ---- frames ----

  lemma CacheInvFrame(cfg: BlockConfig, s: BlockState, s': BlockState)
    requires CacheInv(cfg, s) && s'.bltrIdx <= |cfg.lattices| && Seen(cfg, s'.bltrIdx) == Seen(cfg, s.bltrIdx)
    requires s'.cache == s.cache && Extends(s.net, s'.net)
    requires forall m :: m in s'.net.vals && m !in s.net.vals ==> BlockName(m)
    ensures CacheInv(cfg, s')
  {
  }

  lemma ConvEmittedStable(cfg: BlockConfig, net: Net, net': Net, i: nat, tok: Token, prev: LayerName, b: nat)
    requires ConvEmitted(cfg, net, i, tok, prev, b) && Extends(net, net')
    ensures ConvEmitted(cfg, net', i, tok, prev, b)
  {
  }

  lemma NormReluEmittedStable(cfg: BlockConfig, net: Net, net': Net, i: nat)
    requires NormReluEmitted(cfg, net, i) && Extends(net, net')
    requires Bn(i) in net'.vals ==> Bn(i) in net.vals
    ensures NormReluEmitted(cfg, net', i)
  {
  }

  lemma MergeEmittedStable(cfg: BlockConfig, net: Net, last: map<int, LayerName>, net': Net, last': map<int, LayerName>, i: nat)
    requires MergeEmitted(cfg, net, last, i) && Extends(net, net')
    requires forall m :: m in net'.vals && m !in net.vals && BlockName(m) ==> m.i != i
    requires forall j :: j in last && j <= i ==> j in last' && last'[j] == last[j]
    ensures MergeEmitted(cfg, net', last', i)
  {
    var ps := SkipTargets(cfg.skips, i);
    if ps != [] {
      var option := SkipOption(ps).value;
      var m := if Adds(option) then Add(i) else Concat(i);
      var pre := if PoolsFirst(option) then GPool(i) else Relu(i);
      assert Add(i) in net'.vals ==> Add(i) in net.vals;
      assert Concat(i) in net'.vals ==> Concat(i) in net.vals;
      assert GPool(i) in net'.vals ==> GPool(i) in net.vals;
      MergeInputsStable(net.vals[m].inputs, pre, ps, last, last', i);
    }
  }

  /** The merge inputs only read the entries of blocks before i. */
  lemma MergeInputsStable(inputs: seq<LayerName>, pre: LayerName, ps: seq<seq<string>>, last: map<int, LayerName>,
                            last': map<int, LayerName>, i: nat)
    requires MergeInputs(inputs, pre, ps, last)
    requires forall j :: 0 <= j < |ps| ==> |ps[j]| >= 2 && ParseInt(ps[j][1]).Ok? && ParseInt(ps[j][1]).value < i
    requires forall j :: j in last && j <= i ==> j in last' && last'[j] == last[j]
    ensures MergeInputs(inputs, pre, ps, last')
  {
  }

  lemma BlockEmittedStable(cfg: BlockConfig, net: Net, last: map<int, LayerName>, net': Net, last': map<int, LayerName>,
                           i: nat, tok: Token, prev: LayerName, b: nat)
    requires BlockEmitted(cfg, net, last, i, tok, prev, b) && Extends(net, net')
    requires forall m :: m in net'.vals && m !in net.vals && BlockName(m) ==> m.i != i
    requires forall j :: j in last && j <= i ==> j in last' && last'[j] == last[j]
    ensures BlockEmitted(cfg, net', last', i, tok, prev, b)
  {
    ConvEmittedStable(cfg, net, net', i, tok, prev, b);
    NormReluEmittedStable(cfg, net, net', i);
    MergeEmittedStable(cfg, net, last, net', last', i);
  }

  // ---- one block, the whole pass ----

  /** The state after a block: `last_in_block[idx] = top_prev; idx += 1`. */
  function Close(c: BlockState): BlockState
  {
    c.(last := c.last[c.idx := c.top], idx := c.idx + 1)
  }

  /** A block that completes went through the three phases. */
  lemma StepPhases(cfg: BlockConfig, s: BlockState, tok: Token) returns (a: BlockState, b: BlockState, c: BlockState)
    requires Step(cfg, s, tok).Ok?
    ensures EmitConv(cfg, s, tok) == Ok(a) && b == EmitNormRelu(cfg, a) && EmitMerge(cfg, b) == Ok(c)
    ensures Step(cfg, s, tok) == Ok(Close(c))
  {
    a := EmitConv(cfg, s, tok).value;
    b := EmitNormRelu(cfg, a);
    c := EmitMerge(cfg, b).value;
  }

  /** The three phases together keep the invariant and only add layers of block i or lattice layers. */
  lemma ComposeInv(cfg: BlockConfig, s: BlockState, tok: Token, a: BlockState, b: BlockState, c: BlockState)
    requires Fresh(s) && ConvFrame(cfg, s, tok, a) && NormReluFrame(a, b) && MergeFrame(b, c)
    ensures var s' := Close(c);
      && Inv(cfg, s')
      && s'.idx == s.idx + 1
      && s'.bltrIdx == s.bltrIdx + (if tok.kind.Bilateral? then 1 else 0)
      && Extends(s.net, s'.net)
      && (forall m :: m in s'.net.vals && m !in s.net.vals && BlockName(m) ==> m.i == s.idx)
      && (forall j :: j in s.last ==> j in s'.last && s'.last[j] == s.last[j])
  {
    CacheInvFrame(cfg, a, b);
    CacheInvFrame(cfg, b, c);
    CacheInvFrame(cfg, c, Close(c));
    FreshStep(s, a, b, c);
  }

  /** The block layers after the conv phase: those of earlier blocks and conv{i}. */
  lemma ConvNames(cfg: BlockConfig, s: BlockState, tok: Token, a: BlockState)
    requires Fresh(s) && ConvFrame(cfg, s, tok, a)
    ensures forall m :: m in a.net.vals && BlockName(m) ==> 1 <= m.i < a.idx || m == LayerName.Conv(a.idx)
  {
  }

  /** The block layers after the norm/relu phase: those of earlier blocks, conv{i}, bn{i} and relu{i}. */
  lemma NormReluNames(a: BlockState, b: BlockState)
    requires forall m :: m in a.net.vals && BlockName(m) ==> 1 <= m.i < a.idx || m == LayerName.Conv(a.idx)
    requires NormReluFrame(a, b)
    ensures forall m :: m in b.net.vals && BlockName(m) ==>
              1 <= m.i < b.idx || m == LayerName.Conv(b.idx) || m == Bn(b.idx) || m == Relu(b.idx)
  {
  }

  lemma FreshStep(s: BlockState, a: BlockState, b: BlockState, c: BlockState)
    requires Fresh(s) && a.idx == s.idx && a.last == s.last && Extends(s.net, a.net)
    requires forall m :: m in a.net.vals && m !in s.net.vals && BlockName(m) ==> m == LayerName.Conv(s.idx)
    requires NormReluFrame(a, b) && MergeFrame(b, c)
    ensures Fresh(Close(c)) && Close(c).idx == s.idx + 1
    ensures forall m :: m in c.net.vals && m !in s.net.vals && BlockName(m) ==> m.i == s.idx
    ensures forall j :: j in s.last ==> j in Close(c).last && Close(c).last[j] == s.last[j]
  {
    assert c.idx == s.idx && c.last == s.last;
    forall m | m in c.net.vals && BlockName(m) ensures 1 <= m.i < s.idx + 1 && (m !in s.net.vals ==> m.i == s.idx) {
      if m !in b.net.vals {
      } else if m !in a.net.vals {
      } else if m !in s.net.vals {
      }
    }
  }

  /** The three phases together emit block i as BlockEmitted describes. */
  lemma ComposeEmitted(cfg: BlockConfig, s: BlockState, tok: Token, a: BlockState, b: BlockState, c: BlockState)
    requires ConvPhase(cfg, s, tok, a) && NormReluPhase(cfg, a, b) && MergePhase(cfg, b, c)
    ensures BlockEmitted(cfg, Close(c).net, Close(c).last, s.idx, tok, s.top, s.bltrIdx)
  {
    ConvEmittedStable(cfg, a.net, b.net, s.idx, tok, s.top, s.bltrIdx);
    ConvEmittedStable(cfg, b.net, c.net, s.idx, tok, s.top, s.bltrIdx);
    NormReluEmittedStable(cfg, b.net, c.net, s.idx);
  }

  /** One block keeps the invariant, advances `idx` by one and `bltr_idx` once per bilateral token,
      only adds layers (of block i, or lattice layers), records its output in `last_in_block`, and emits
      what BlockEmitted describes. */
  ghost predicate StepPost(cfg: BlockConfig, s: BlockState, tok: Token, s': BlockState)
  {
    Inv(cfg, s') && StepFrame(s, tok, s') && BlockEmitted(cfg, s'.net, s'.last, s.idx, tok, s.top, s.bltrIdx)
  }

  ghost predicate StepFrame(s: BlockState, tok: Token, s': BlockState)
  {
    && s'.idx == s.idx + 1
    && s'.bltrIdx == s.bltrIdx + (if tok.kind.Bilateral? then 1 else 0)
    && Extends(s.net, s'.net)
    && (forall m :: m in s'.net.vals && m !in s.net.vals && BlockName(m) ==> m.i == s.idx)
    && (forall j :: j in s.last ==> j in s'.last && s'.last[j] == s.last[j])
    && s.idx in s'.last && s'.last[s.idx] == s'.top
  }

  lemma StepFacts(cfg: BlockConfig, s: BlockState, tok: Token)
    requires Inv(cfg, s) && Step(cfg, s, tok).Ok?
    ensures StepPost(cfg, s, tok, Step(cfg, s, tok).value)
  {
    var a, b, c := StepPhases(cfg, s, tok);
    EmitConvFacts(cfg, s, tok);
    ConvNames(cfg, s, tok, a);
    NormReluFacts(cfg, a);
    NormReluNames(a, EmitNormRelu(cfg, a));
    MergeFacts(cfg, b);
    ComposeInv(cfg, s, tok, a, b, c);
    ComposeEmitted(cfg, s, tok, a, b, c);
  }

  lemma CountBilateralCons(t: Token, ts: seq<Token>)
    ensures CountBilateral([t] + ts) == (if t.kind.Bilateral? then 1 else 0) + CountBilateral(ts)
    decreases |ts|
  {
    if ts != [] {
      var w := [t] + ts;
      assert w[..|w| - 1] == [t] + ts[..|ts| - 1];
      CountBilateralCons(t, ts[..|ts| - 1]);
    } else {
      assert [t] + ts == [t];
      assert [t][..0] == [];
    }
  }

  /** Blocks i, i+1, ... built from `toks`: each emits what BlockEmitted describes, fed by the output
      of the block before it (`prev` for the first), with `b` counting the bilateral tokens before it. */
  ghost predicate BlocksEmitted(cfg: BlockConfig, net: Net, last: map<int, LayerName>, i: nat, toks: seq<Token>,
                                prev: LayerName, b: nat)
    decreases |toks|
  {
    toks == [] ||
    (&& i in last
     && BlockEmitted(cfg, net, last, i, toks[0], prev, b)
     && BlocksEmitted(cfg, net, last, i + 1, toks[1..], last[i], b + if toks[0].kind.Bilateral? then 1 else 0))
  }

  /** The whole pass keeps the invariant, advances the counters by the number of tokens and of
      bilateral tokens, only adds layers, and emits every block as BlocksEmitted describes. */
  ghost predicate RunPost(cfg: BlockConfig, toks: seq<Token>, s: BlockState, f: BlockState)
  {
    Inv(cfg, f) && RunFrame(toks, s, f) && BlocksEmitted(cfg, f.net, f.last, s.idx, toks, s.top, s.bltrIdx)
  }

  ghost predicate RunFrame(toks: seq<Token>, s: BlockState, f: BlockState)
  {
    && f.idx == s.idx + |toks|
    && f.bltrIdx == s.bltrIdx + CountBilateral(toks)
    && Extends(s.net, f.net)
    && (forall m :: m in f.net.vals && m !in s.net.vals && BlockName(m) ==> s.idx <= m.i)
    && (forall j :: j in s.last ==> j in f.last && f.last[j] == s.last[j])
  }

  lemma {:induction false} RunFacts(cfg: BlockConfig, toks: seq<Token>, s: BlockState)
    requires Inv(cfg, s) && Run(cfg, toks, s).Ok?
    ensures RunPost(cfg, toks, s, Run(cfg, toks, s).value)
    decreases |toks|
  {
    if toks == [] {
      assert Run(cfg, toks, s).value == s;
    } else {
      StepFacts(cfg, s, toks[0]);
      var s1 := Step(cfg, s, toks[0]).value;
      RunFacts(cfg, toks[1..], s1);
      assert Run(cfg, toks, s) == Run(cfg, toks[1..], s1);
      RunCons(cfg, toks, s, s1, Run(cfg, toks, s).value);
    }
  }

  /** A first block followed by the rest of the pass. */
  lemma RunCons(cfg: BlockConfig, toks: seq<Token>, s: BlockState, s1: BlockState, f: BlockState)
    requires toks != [] && StepFrame(s, toks[0], s1) && BlockEmitted(cfg, s1.net, s1.last, s.idx, toks[0], s.top, s.bltrIdx)
    requires RunFrame(toks[1..], s1, f) && BlocksEmitted(cfg, f.net, f.last, s1.idx, toks[1..], s1.top, s1.bltrIdx)
    ensures RunFrame(toks, s, f) && BlocksEmitted(cfg, f.net, f.last, s.idx, toks, s.top, s.bltrIdx)
  {
    RunConsFrame(toks, s, s1, f);
    RunConsLater(toks, s, s1, f);
    BlockEmittedStable(cfg, s1.net, s1.last, f.net, f.last, s.idx, toks[0], s.top, s.bltrIdx);
    BlocksCons(cfg, f.net, f.last, s.idx, toks, s.top, s.bltrIdx, s1.idx, s1.top, s1.bltrIdx);
  }

  lemma RunConsFrame(toks: seq<Token>, s: BlockState, s1: BlockState, f: BlockState)
    requires toks != [] && StepFrame(s, toks[0], s1) && RunFrame(toks[1..], s1, f)
    ensures RunFrame(toks, s, f)
  {
    CountBilateralCons(toks[0], toks[1..]);
    assert toks == [toks[0]] + toks[1..];
  }

  /** The blocks after the first neither add layers of the first block nor change its entries. */
  lemma RunConsLater(toks: seq<Token>, s: BlockState, s1: BlockState, f: BlockState)
    requires toks != [] && StepFrame(s, toks[0], s1) && RunFrame(toks[1..], s1, f)
    ensures forall m :: m in f.net.vals && m !in s1.net.vals && BlockName(m) ==> m.i != s.idx
    ensures forall j :: j in s1.last && j <= s.idx ==> j in f.last && f.last[j] == s1.last[j]
    ensures s.idx in f.last && f.last[s.idx] == s1.top
  {
  }

  lemma BlocksCons(cfg: BlockConfig, net: Net, last: map<int, LayerName>, i: nat, toks: seq<Token>, prev: LayerName, b: nat,
                    i1: nat, prev1: LayerName, b1: nat)
    requires toks != [] && i in last && BlockEmitted(cfg, net, last, i, toks[0], prev, b)
    requires i1 == i + 1 && prev1 == last[i] && b1 == b + if toks[0].kind.Bilateral? then 1 else 0
    requires BlocksEmitted(cfg, net, last, i1, toks[1..], prev1, b1)
    ensures BlocksEmitted(cfg, net, last, i, toks, prev, b)
  {
  }

  /** A block layer exists in the final net only for the blocks the pass built. */
  lemma RunFresh(cfg: BlockConfig, toks: seq<Token>, s: BlockState)
    requires Inv(cfg, s) && Run(cfg, toks, s).Ok?
    ensures var f := Run(cfg, toks, s).value;
      forall m :: m in f.net.vals && BlockName(m) ==> 1 <= m.i < s.idx + |toks|
  {
    RunFacts(cfg, toks, s);
  }

  /** The state before the first block satisfies the invariant when the input layers hold no block
      or lattice layer. */
  lemma StartInv(cfg: BlockConfig, net: Net, top: LayerName)
    requires forall m :: m in net.vals ==> !BlockName(m) && !m.DataLattice? && !m.Lattice?
    ensures Inv(cfg, Start(net, top))
  {
    assert Seen(cfg, 0) == [] by { assert cfg.lattices[..0] == []; }
  }

  /** Later layers that belong to no block of the pass leave what the pass emitted in place. */
  lemma {:induction false} BlocksEmittedStable(cfg: BlockConfig, net: Net, last: map<int, LayerName>, net': Net, i: nat,
                                               toks: seq<Token>, prev: LayerName, b: nat)
    requires BlocksEmitted(cfg, net, last, i, toks, prev, b) && Extends(net, net')
    requires forall m :: m in net'.vals && m !in net.vals && BlockName(m) ==> m.i >= i + |toks|
    ensures BlocksEmitted(cfg, net', last, i, toks, prev, b)
    decreases |toks|
  {
    if toks != [] {
      var b1 := b + if toks[0].kind.Bilateral? then 1 else 0;
      BlockEmittedStable(cfg, net, last, net', last, i, toks[0], prev, b);
      BlocksEmittedStable(cfg, net, last, net', i + 1, toks[1..], last[i], b1);
      BlocksCons(cfg, net', last, i, toks, prev, b, i + 1, last[i], b1);
    }
  }

  /** After a pass over at least one token, the top is the recorded output of the last block. */
  lemma {:induction false} RunTop(cfg: BlockConfig, toks: seq<Token>, s: BlockState, f: BlockState)
    requires Run(cfg, toks, s) == Ok(f) && toks != []
    ensures TopOf(f, f.idx - 1)
    decreases |toks|
  {
    var s1 := RunSplit(cfg, toks, s, f);
    if |toks| > 1 {
      RunTop(cfg, toks[1..], s1, f);
    } else {
      assert toks[1..] == [];
      RunEmpty(cfg, s1);
    }
  }

  /** The first block of a pass that completes completes, and records its output as the top. */
  lemma RunSplit(cfg: BlockConfig, toks: seq<Token>, s: BlockState, f: BlockState) returns (s1: BlockState)
    requires Run(cfg, toks, s) == Ok(f) && toks != []
    ensures Run(cfg, toks[1..], s1) == Ok(f) && TopOf(s1, s1.idx - 1)
  {
    var a, b, c := StepPhases(cfg, s, toks[0]);
    s1 := Close(c);
  }

  /** The top is the recorded output of block j. */
  predicate TopOf(f: BlockState, j: int)
  {
    j in f.last && f.top == f.last[j]
  }

  /** Once every lattice string has been met, data_lattice{k} and lattice{k} follow the deduplicated
      lattice list: one data_lattice per distinct string, and a lattice exactly for the strings that
      occur more than once. */
  lemma AllLatticesSeen(cfg: BlockConfig, s: BlockState)
    requires CacheInv(cfg, s) && s.bltrIdx == |cfg.lattices|
    ensures var d := Dedup(cfg.lattices);
      && (forall k: nat :: DataLattice(k) in s.net.vals <==> k < |d|)
      && (forall k :: 0 <= k < |d| ==> s.net.vals[DataLattice(k)] == Layer(PickAndScale(d[k]), [Data]))
      && (forall k: nat :: Lattice(k) in s.net.vals <==> k < |d| && Occurs(cfg, d[k]) > 1)
  {
    assert cfg.lattices[..s.bltrIdx] == cfg.lattices;
  }

  /** Names the block pass gives its layers. */
  predicate PassName(n: LayerName)
  {
    BlockName(n) || n.DataLattice? || n.Lattice?
  }

  /** Every layer the pass adds has a block or lattice name. */
  lemma {:induction false} RunNames(cfg: BlockConfig, toks: seq<Token>, s: BlockState, f: BlockState)
    requires Run(cfg, toks, s) == Ok(f)
    ensures forall m :: m in f.net.vals ==> m in s.net.vals || PassName(m)
    decreases |toks|
  {
    if toks != [] {
      var s1 := RunSplitNames(cfg, toks, s, f);
      RunNames(cfg, toks[1..], s1, f);
    } else {
      RunEmpty(cfg, s);
    }
  }

  lemma RunEmpty(cfg: BlockConfig, s: BlockState)
    ensures Run(cfg, [], s) == Ok(s)
  {
  }

  lemma RunSplitNames(cfg: BlockConfig, toks: seq<Token>, s: BlockState, f: BlockState) returns (s1: BlockState)
    requires Run(cfg, toks, s) == Ok(f) && toks != []
    ensures Run(cfg, toks[1..], s1) == Ok(f)
    ensures forall m :: m in s1.net.vals ==> m in s.net.vals || PassName(m)
  {
    s1 := Step(cfg, s, toks[0]).value;
    StepNames(cfg, s, toks[0]);
  }

  lemma StepNames(cfg: BlockConfig, s: BlockState, tok: Token)
    requires Step(cfg, s, tok).Ok?
    ensures forall m :: m in Step(cfg, s, tok).value.net.vals ==> m in s.net.vals || PassName(m)
  {
    var a, b, c := StepPhases(cfg, s, tok);
    ConvNamesOnly(cfg, s, tok);
    assert forall m :: m in b.net.vals ==> m in a.net.vals || PassName(m);
    MergeNamesOnly(cfg, b);
  }

  lemma ConvNamesOnly(cfg: BlockConfig, s: BlockState, tok: Token)
    requires EmitConv(cfg, s, tok).Ok?
    ensures forall m :: m in EmitConv(cfg, s, tok).value.net.vals ==> m in s.net.vals || PassName(m)
  {
  }

  lemma MergeNamesOnly(cfg: BlockConfig, b: BlockState)
    requires EmitMerge(cfg, b).Ok?
    ensures forall m :: m in EmitMerge(cfg, b).value.net.vals ==> m in b.net.vals || PassName(m)
  {
  }

  /** The output of block i as its skip specs decide: relu{i} when none targets it, add{i} for
      option 'a', concat{i} otherwise. */
  function BlockOutput(cfg: BlockConfig, i: nat): LayerName
  {
    var ps := SkipTargets(cfg.skips, i);
    if ps == [] then Relu(i)
    else if |ps| >= 1 && SkipOption(ps).Ok? && Adds(SkipOption(ps).value) then Add(i)
    else Concat(i)
  }

  lemma MergeOutput(cfg: BlockConfig, net: Net, last: map<int, LayerName>, i: nat)
    requires MergeEmitted(cfg, net, last, i)
    ensures i in last && last[i] == BlockOutput(cfg, i)
  {
  }

  /** Every block of a pass records the output its skip specs decide. */
  lemma {:induction false} BlocksMerged(cfg: BlockConfig, net: Net, last: map<int, LayerName>, i: nat,
                                       toks: seq<Token>, prev: LayerName, b: nat)
    requires BlocksEmitted(cfg, net, last, i, toks, prev, b)
    ensures forall j :: i <= j < i + |toks| ==> j in last && last[j] == BlockOutput(cfg, j)
    decreases |toks|
  {
    if toks != [] {
      var b1 := BlocksHead(cfg, net, last, i, toks, prev, b);
      MergeOutput(cfg, net, last, i);
      BlocksMerged(cfg, net, last, i + 1, toks[1..], last[i], b1);
    }
  }

  /** The first block of a non-empty pass, and the rest. */
  lemma BlocksHead(cfg: BlockConfig, net: Net, last: map<int, LayerName>, i: nat, toks: seq<Token>, prev: LayerName, b: nat)
    returns (b1: nat)
    requires BlocksEmitted(cfg, net, last, i, toks, prev, b) && toks != []
    ensures i in last && MergeEmitted(cfg, net, last, i)
    ensures b1 == b + (if toks[0].kind.Bilateral? then 1 else 0) && BlocksEmitted(cfg, net, last, i + 1, toks[1..], last[i], b1)
  {
    b1 := b + if toks[0].kind.Bilateral? then 1 else 0;
    assert BlockEmitted(cfg, net, last, i, toks[0], prev, b);
  }

  // ---- when the pass completes ----

  /** The skip specs into block i can be merged: none targets it, or their options agree and every
      source field is the number of an earlier block. */
  predicate MergeOk(cfg: BlockConfig, i: nat)
  {
    SpecsOk(SkipTargets(cfg.skips, i), i)
  }

  predicate SpecsOk(ps: seq<seq<string>>, i: nat)
  {
    || ps == []
    || (&& SkipOption(ps).Ok?
        && forall j :: 0 <= j < |ps| ==> |ps[j]| >= 2 && ParseInt(ps[j][1]).Ok? && 1 <= ParseInt(ps[j][1]).value < i)
  }

  /** With last_in_block holding exactly the earlier blocks, a skip merge completes exactly when its
      specs can be merged. */
  lemma MergeOkIff(cfg: BlockConfig, b: BlockState)
    requires forall j :: j in b.last <==> 1 <= j < b.idx
    ensures EmitMerge(cfg, b).Ok? <==> MergeOk(cfg, b.idx)
  {
    var ps := SkipTargets(cfg.skips, b.idx);
    if ps == [] {
      assert EmitMerge(cfg, b) == Ok(b);
    } else if SkipOption(ps).Err? {
      assert EmitMerge(cfg, b).Err?;
      assert !SpecsOk(ps, b.idx);
    } else {
      MergeOkOption(cfg, b, ps);
    }
  }

  lemma MergeOkOption(cfg: BlockConfig, b: BlockState, ps: seq<seq<string>>)
    requires forall j :: j in b.last <==> 1 <= j < b.idx
    requires ps == SkipTargets(cfg.skips, b.idx) && ps != [] && SkipOption(ps).Ok?
    ensures EmitMerge(cfg, b).Ok? <==> SpecsOk(ps, b.idx)
  {
    var option := SkipOption(ps).value;
    assert forall v :: v in ps ==> |v| >= 2;
    var s1 := if PoolsFirst(option) then b.(net := b.net.Put(GPool(b.idx), Layer(GlobalPooling, [b.top])), top := GPool(b.idx)) else b;
    assert s1.last == b.last;
    assert EmitMerge(cfg, b).Ok? <==> MergeSources(ps, b.last).Ok?;
    SourcesOkIff(ps, b.last, b.idx);
  }

  /** The sources resolve exactly when each names an earlier block. */
  lemma SourcesOkIff(ps: seq<seq<string>>, last: map<int, LayerName>, i: nat)
    requires forall v :: v in ps ==> |v| >= 2
    requires forall j :: j in last <==> 1 <= j < i
    ensures MergeSources(ps, last).Ok? <==> forall j :: 0 <= j < |ps| ==> |ps[j]| >= 2 && ParseInt(ps[j][1]).Ok? && 1 <= ParseInt(ps[j][1]).value < i
  {
    assert forall j :: 0 <= j < |ps| ==> |ps[j]| >= 2 by {
      forall j | 0 <= j < |ps| ensures |ps[j]| >= 2 { assert ps[j] in ps; }
    }
  }

  /** A block whose bilateral token has a lattice string completes exactly when its skip merge can be
      done. */
  lemma StepOkIff(cfg: BlockConfig, s: BlockState, tok: Token)
    requires Fresh(s) && (tok.kind.Bilateral? ==> s.bltrIdx < |cfg.lattices|)
    ensures Step(cfg, s, tok).Ok? <==> MergeOk(cfg, s.idx)
  {
    var a := EmitConv(cfg, s, tok).value;
    assert a.idx == s.idx && a.last == s.last;
    var b := EmitNormRelu(cfg, a);
    assert b.idx == s.idx && b.last == s.last;
    MergeOkIff(cfg, b);
  }

  /** With a lattice string for every bilateral token, the pass completes exactly when the skip merge
      of every block can be done. */
  lemma {:induction false} RunOkIff(cfg: BlockConfig, toks: seq<Token>, s: BlockState)
    requires Inv(cfg, s) && s.bltrIdx + CountBilateral(toks) <= |cfg.lattices|
    ensures Run(cfg, toks, s).Ok? <==> forall i :: s.idx <= i < s.idx + |toks| ==> MergeOk(cfg, i)
    decreases |toks|
  {
    if toks != [] {
      var t := toks[0];
      CountBilateralCons(t, toks[1..]);
      assert toks == [t] + toks[1..];
      StepOkIff(cfg, s, t);
      MergesFirst(cfg, s.idx, |toks|);
      if Step(cfg, s, t).Ok? {
        var s1 := RunStep(cfg, toks, s);
        RunOkIff(cfg, toks[1..], s1);
        assert s1.idx + |toks[1..]| == s.idx + |toks|;
      } else {
        StepFailsRun(cfg, toks, s);
      }
    }
  }

  lemma MergesFirst(cfg: BlockConfig, a: nat, n: nat)
    requires n >= 1
    ensures (forall i :: a <= i < a + n ==> MergeOk(cfg, i)) <==> MergeOk(cfg, a) && forall i :: a + 1 <= i < a + n ==> MergeOk(cfg, i)
  {
  }

  lemma RunStep(cfg: BlockConfig, toks: seq<Token>, s: BlockState) returns (s1: BlockState)
    requires Inv(cfg, s) && toks != [] && Step(cfg, s, toks[0]).Ok?
    requires s.bltrIdx + CountBilateral(toks) <= |cfg.lattices|
    requires CountBilateral(toks) == (if toks[0].kind.Bilateral? then 1 else 0) + CountBilateral(toks[1..])
    ensures Inv(cfg, s1) && s1.idx == s.idx + 1 && s1.bltrIdx + CountBilateral(toks[1..]) <= |cfg.lattices|
    ensures Run(cfg, toks, s) == Run(cfg, toks[1..], s1)
  {
    s1 := Step(cfg, s, toks[0]).value;
    StepFacts(cfg, s, toks[0]);
  }

  lemma StepFailsRun(cfg: BlockConfig, toks: seq<Token>, s: BlockState)
    requires toks != [] && Step(cfg, s, toks[0]).Err?
    ensures Run(cfg, toks, s).Err?
  {
  }
}
