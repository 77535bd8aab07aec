/** The block-emission pass over the architecture tokens (models.py lines 116-216; 354-454 in the
    combined-categories variant): for the i-th token, conv{i} (a 1x1 convolution or a permutohedral
    layer), optionally bn{i}, relu{i}, and the skip merge into block i. */
module Blocks {
  import opened Wrappers
  import opened Text
  import opened Arch
  import opened OrderedMaps
  import opened Graph
  import opened Skips

  /** The builder's arguments the pass reads. `lattices` is the normalised lattice list, one entry per
      bilateral token. */
  datatype BlockConfig = BlockConfig(batchnorm: bool, skips: seq<string>, neighborhood: int,
                                     convFiller: Filler, bltrFiller: Filler, lattices: seq<string>)

  /** An entry of the `lattices` cache: the data_lattice top and, for a lattice string that occurs more
      than once, the lattice top the first permutohedral layer also produces. */
  datatype Cached = Cached(data: LayerName, lattice: Option<LayerName>)

  /** The loop's variables: the net `n`, the `lattices` cache, `last_in_block`, `idx`, `bltr_idx` and
      `top_prev`. */
  datatype BlockState = BlockState(net: Net, cache: map<string, Cached>, last: map<int, LayerName>,
                                   idx: nat, bltrIdx: nat, top: LayerName)

  /** The state before the first block (lines 116-119), after the input layers. */
  function Start(net: Net, top: LayerName): BlockState
  {
    BlockState(net, map[], map[], 1, 0, top)
  }

  /** Lines 121-183: conv{idx}; for a bilateral token also the lattice layers on the first occurrence
      of its lattice string. */
  function EmitConv(cfg: BlockConfig, s: BlockState, tok: Token): Result<BlockState>
  {
    if tok.kind.Conv? then
      Ok(s.(net := s.net.Put(LayerName.Conv(s.idx), Layer(Convolution(tok.width, cfg.convFiller), [s.top])),
            top := LayerName.Conv(s.idx)))
    else if s.bltrIdx >= |cfg.lattices| then Err(IndexError)
    else if cfg.lattices[s.bltrIdx] in s.cache then Ok(ReuseLattice(cfg, s, tok, s.cache[cfg.lattices[s.bltrIdx]]))
    else Ok(NewLattice(cfg, s, tok, cfg.lattices[s.bltrIdx]))
  }

  /** Lines 140-149: a lattice string seen before feeds its cached tops to the permutohedral layer. */
  function ReuseLattice(cfg: BlockConfig, s: BlockState, tok: Token, c: Cached): BlockState
  {
    var conv := LayerName.Conv(s.idx);
    var layer := Layer(Permutohedral(tok.width, cfg.neighborhood, cfg.bltrFiller, 1),
                       [s.top, c.data, c.data] + OptionSeq(c.lattice));
    s.(net := s.net.Put(conv, layer), top := conv, bltrIdx := s.bltrIdx + 1)
  }

  /** Lines 150-181: the first occurrence of lattice string `x` creates data_lattice{k}; when `x` occurs
      again later, the permutohedral layer also outputs lattice{k}. */
  function NewLattice(cfg: BlockConfig, s: BlockState, tok: Token, x: string): BlockState
  {
    var conv := LayerName.Conv(s.idx);
    var dl := DataLattice(|s.cache|);
    var net := s.net.Put(dl, Layer(PickAndScale(x), [Data]));
    if multiset(cfg.lattices)[x] > 1 then
      var lat := Lattice(|s.cache|);
      var net' := net.Put(conv, Layer(Permutohedral(tok.width, cfg.neighborhood, cfg.bltrFiller, 2), [s.top, dl, dl]))
                     .Put(lat, Layer(ExtraTop(1), [conv]));
      s.(net := net', cache := s.cache[x := Cached(dl, Some(lat))], top := conv, bltrIdx := s.bltrIdx + 1)
    else
      var net' := net.Put(conv, Layer(Permutohedral(tok.width, cfg.neighborhood, cfg.bltrFiller, 1), [s.top, dl, dl]));
      s.(net := net', cache := s.cache[x := Cached(dl, None)], top := conv, bltrIdx := s.bltrIdx + 1)
  }

  /** Lines 184-188: bn{idx} when batchnorm, then relu{idx}. */
  function EmitNormRelu(cfg: BlockConfig, s: BlockState): BlockState
  {
    var s1 := if cfg.batchnorm then s.(net := s.net.Put(Bn(s.idx), Layer(BatchNorm, [s.top])), top := Bn(s.idx)) else s;
    s1.(net := s1.net.Put(Relu(s.idx), Layer(ReLU, [s1.top])), top := Relu(s.idx))
  }

  /** Lines 191-213: the skip merge into block idx, if any spec targets it. */
  function EmitMerge(cfg: BlockConfig, s: BlockState): Result<BlockState>
  {
    var ps := SkipTargets(cfg.skips, s.idx);
    if ps == [] then Ok(s)
    else
      match SkipOption(ps)
      case Err(e) => Err(e)
      case Ok(option) =>
        var s1 := if PoolsFirst(option) then s.(net := s.net.Put(GPool(s.idx), Layer(GlobalPooling, [s.top])), top := GPool(s.idx)) else s;
        match MergeSources(ps, s1.last)
        case Err(e) => Err(e)
        case Ok(srcs) =>
          if Adds(option) then Ok(s1.(net := s1.net.Put(Add(s.idx), Layer(EltwiseSum, [s1.top] + srcs)), top := Add(s.idx)))
          else Ok(s1.(net := s1.net.Put(Concat(s.idx), Layer(Concatenate, [s1.top] + srcs)), top := Concat(s.idx)))
  }

  /** One iteration of the loop, ending with `last_in_block[idx] = top_prev; idx += 1` (lines 215-216). */
  function Step(cfg: BlockConfig, s: BlockState, tok: Token): Result<BlockState>
  {
    match EmitConv(cfg, s, tok)
    case Err(e) => Err(e)
    case Ok(s1) =>
      match EmitMerge(cfg, EmitNormRelu(cfg, s1))
      case Err(e) => Err(e)
      case Ok(s2) => Ok(s2.(last := s2.last[s2.idx := s2.top], idx := s2.idx + 1))
  }

  /** The whole pass: the first failing block raises. */
  function Run(cfg: BlockConfig, toks: seq<Token>, s: BlockState): Result<BlockState>
    decreases |toks|
  {
    if toks == [] then Ok(s)
    else
      match Step(cfg, s, toks[0])
      case Err(e) => Err(e)
      case Ok(s') => Run(cfg, toks[1..], s')
  }

  /** A block that completes hands the rest of the pass the state it leaves. */
  lemma StepRuns(cfg: BlockConfig, s: BlockState, tok: Token, toks: seq<Token>, a: BlockState, b: BlockState,
                 c: BlockState, next: BlockState)
    requires toks != [] && toks[0] == tok
    requires EmitConv(cfg, s, tok) == Ok(a) && EmitNormRelu(cfg, a) == b && EmitMerge(cfg, b) == Ok(c)
    requires next == BlockState(c.net, c.cache, c.last[c.idx := c.top], c.idx + 1, c.bltrIdx, c.top)
    ensures Step(cfg, s, tok) == Ok(next)
    ensures Run(cfg, toks, s) == Run(cfg, toks[1..], next)
  {
  }

  /** A conv layer that fails ends the pass with its error. */
  lemma StepConvFails(cfg: BlockConfig, s: BlockState, tok: Token, toks: seq<Token>)
    requires toks != [] && toks[0] == tok
    requires EmitConv(cfg, s, tok).Err?
    ensures Run(cfg, toks, s) == Err(EmitConv(cfg, s, tok).error)
  {
  }

  /** A skip merge that fails ends the pass with its error. */
  lemma StepMergeFails(cfg: BlockConfig, s: BlockState, tok: Token, toks: seq<Token>, a: BlockState, b: BlockState)
    requires toks != [] && toks[0] == tok
    requires EmitConv(cfg, s, tok) == Ok(a) && EmitNormRelu(cfg, a) == b && EmitMerge(cfg, b).Err?
    ensures Run(cfg, toks, s) == Err(EmitMerge(cfg, b).error)
  {
  }

  /** Lines 121-183 as the source runs them, on the loop's variables. */
  method ConvLayer(cfg: BlockConfig, tok: Token, s: BlockState) returns (r: Result<BlockState>)
    ensures r == EmitConv(cfg, s, tok)
  {
    var net, cache, bltrIdx := s.net, s.cache, s.bltrIdx;
    var conv := LayerName.Conv(s.idx);
    if tok.kind.Conv? {
      net := net.Put(conv, Layer(Convolution(tok.width, cfg.convFiller), [s.top]));
      return Ok(s.(net := net, top := conv));
    }
    if bltrIdx >= |cfg.lattices| {
      return Err(IndexError);
    }
    var x := cfg.lattices[bltrIdx];
    if x in cache {
      var c := cache[x];
      net := net.Put(conv, Layer(Permutohedral(tok.width, cfg.neighborhood, cfg.bltrFiller, 1),
                                 [s.top, c.data, c.data] + OptionSeq(c.lattice)));
      bltrIdx := bltrIdx + 1;
      assert ReuseLattice(cfg, s, tok, c) == s.(net := net, top := conv, bltrIdx := bltrIdx);
    } else {
      var dl := DataLattice(|cache|);
      net := net.Put(dl, Layer(PickAndScale(x), [Data]));
      if multiset(cfg.lattices)[x] > 1 {
        var lat := Lattice(|cache|);
        net := net.Put(conv, Layer(Permutohedral(tok.width, cfg.neighborhood, cfg.bltrFiller, 2), [s.top, dl, dl]));
        net := net.Put(lat, Layer(ExtraTop(1), [conv]));
        cache := cache[x := Cached(dl, Some(lat))];
      } else {
        net := net.Put(conv, Layer(Permutohedral(tok.width, cfg.neighborhood, cfg.bltrFiller, 1), [s.top, dl, dl]));
        cache := cache[x := Cached(dl, None)];
      }
      bltrIdx := bltrIdx + 1;
      assert NewLattice(cfg, s, tok, x) == s.(net := net, cache := cache, top := conv, bltrIdx := bltrIdx);
    }
    return Ok(s.(net := net, cache := cache, top := conv, bltrIdx := bltrIdx));
  }

  /** Lines 184-188 as the source runs them. */
  method NormRelu(cfg: BlockConfig, s: BlockState) returns (r: BlockState)
    ensures r == EmitNormRelu(cfg, s)
  {
    var net, top := s.net, s.top;
    if cfg.batchnorm {
      net := net.Put(Bn(s.idx), Layer(BatchNorm, [top]));
      top := Bn(s.idx);
    }
    net := net.Put(Relu(s.idx), Layer(ReLU, [top]));
    top := Relu(s.idx);
    return s.(net := net, top := top);
  }

  /** Lines 191-213 as the source runs them. */
  method SkipMerge(cfg: BlockConfig, s: BlockState) returns (r: Result<BlockState>)
    ensures r == EmitMerge(cfg, s)
  {
    var net, top := s.net, s.top;
    var ps := SkipTargets(cfg.skips, s.idx);
    if ps == [] {
      return Ok(s);
    }
    var option := SkipOption(ps);
    if option.Err? {
      return Err(option.error);
    }
    if PoolsFirst(option.value) {
      net := net.Put(GPool(s.idx), Layer(GlobalPooling, [top]));
      top := GPool(s.idx);
    }
    var srcs := MergeSources(ps, s.last);
    if srcs.Err? {
      return Err(srcs.error);
    }
    if Adds(option.value) {
      net := net.Put(Add(s.idx), Layer(EltwiseSum, [top] + srcs.value));
      top := Add(s.idx);
    } else {
      net := net.Put(Concat(s.idx), Layer(Concatenate, [top] + srcs.value));
      top := Concat(s.idx);
    }
    return Ok(s.(net := net, top := top));
  }

  /** The loop of lines 120-216: `s` holds the loop's variables, updated block by block. */
  method BuildBlocks(cfg: BlockConfig, tokens: seq<Token>, net0: Net, top0: LayerName)
    returns (r: Result<BlockState>)
    ensures r == Run(cfg, tokens, Start(net0, top0))
  {
    var s := Start(net0, top0);
    var i := 0;
    while i < |tokens|
      invariant 0 <= i <= |tokens|
      invariant Run(cfg, tokens, Start(net0, top0)) == Run(cfg, tokens[i..], s)
    {
      var tok := tokens[i];
      ghost var rest := tokens[i..];
      assert rest != [] && rest[0] == tok && rest[1..] == tokens[i + 1..];
      var conv := ConvLayer(cfg, tok, s);
      if conv.Err? {
        StepConvFails(cfg, s, tok, rest);
        return Err(conv.error);
      }
      var relu := NormRelu(cfg, conv.value);
      var merge := SkipMerge(cfg, relu);
      if merge.Err? {
        StepMergeFails(cfg, s, tok, rest, conv.value, relu);
        return Err(merge.error);
      }
      var m := merge.value;
      var next := m.(last := m.last[m.idx := m.top], idx := m.idx + 1);
      StepRuns(cfg, s, tok, rest, conv.value, relu, m, next);
      s := next;
      i := i + 1;
    }
    assert tokens[i..] == [];
    r := Ok(s);
  }
}
