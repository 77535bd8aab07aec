/** What a whole build guarantees, from the arguments to the finished net: the order of its errors,
    the blocks and their wiring, the lattice layers, the input layers and the head. */
module BuildProps {
  import opened Wrappers
  import opened Text
  import opened Arch
  import opened Lattices
  import opened OrderedMaps
  import opened DatasetParams
  import opened Graph
  import opened Skips
  import opened Blocks
  import opened BlockProps
  import opened Builder
  import opened BuilderProps

  /** `last_in_block` after n blocks: each block's output as its skip specs decide. */
  function Outputs(cfg: BlockConfig, n: nat): map<int, LayerName>
  {
    map j | 1 <= j <= n :: BlockOutput(cfg, j)
  }

  /** The top the head reads after n blocks: data_feat when there are none. */
  function LastTop(cfg: BlockConfig, n: nat): LayerName
  {
    if n == 0 then DataFeat else BlockOutput(cfg, n)
  }

  /** The block pass from an input net (lines 116-216) keeps the invariant, advances the counters,
      only adds layers and emits every block as BlocksEmitted describes. */
  lemma PassPost(cfg: BlockConfig, toks: seq<Token>, net: Net, f: BlockState)
    requires forall m :: m in net.vals ==> InputName(m)
    requires Run(cfg, toks, Start(net, DataFeat)) == Ok(f)
    ensures RunPost(cfg, toks, Start(net, DataFeat), f)
  {
    StartInv(cfg, net, DataFeat);
    RunFacts(cfg, toks, Start(net, DataFeat));
  }

  /** After the pass, `last_in_block` holds every block's output and the top is the last one. */
  lemma PassOutputs(cfg: BlockConfig, toks: seq<Token>, net: Net, f: BlockState)
    requires forall m :: m in net.vals ==> InputName(m)
    requires Run(cfg, toks, Start(net, DataFeat)) == Ok(f)
    ensures f.idx == |toks| + 1 && f.last == Outputs(cfg, |toks|) && f.top == LastTop(cfg, |toks|)
  {
    PassPost(cfg, toks, net, f);
    BlocksMerged(cfg, f.net, f.last, 1, toks, DataFeat, 0);
    PassLast(cfg, |toks|, f.last);
    PassTop(cfg, toks, Start(net, DataFeat), f);
  }

  /** The pass adds only block and lattice layers, and none for the block after the last. */
  lemma PassNames(cfg: BlockConfig, toks: seq<Token>, net: Net, f: BlockState)
    requires forall m :: m in net.vals ==> InputName(m)
    requires Run(cfg, toks, Start(net, DataFeat)) == Ok(f)
    ensures forall m :: m in f.net.vals ==> InputName(m) || PassName(m)
    ensures LayerName.Conv(f.idx) !in f.net.vals
  {
    PassPost(cfg, toks, net, f);
    RunNames(cfg, toks, Start(net, DataFeat), f);
  }

  lemma PassLast(cfg: BlockConfig, n: nat, last: map<int, LayerName>)
    requires forall j :: j in last <==> 1 <= j < n + 1
    requires forall j :: 1 <= j < n + 1 ==> j in last && last[j] == BlockOutput(cfg, j)
    ensures last == Outputs(cfg, n)
  {
    var o := Outputs(cfg, n);
    assert forall j :: j in last <==> j in o;
  }

  lemma PassTop(cfg: BlockConfig, toks: seq<Token>, s: BlockState, f: BlockState)
    requires s.top == DataFeat && Run(cfg, toks, s) == Ok(f) && f.idx == s.idx + |toks| && s.idx == 1
    requires f.last == Outputs(cfg, |toks|)
    ensures f.top == LastTop(cfg, |toks|)
  {
    if toks == [] {
      RunEmpty(cfg, s);
    } else {
      RunTop(cfg, toks, s, f);
    }
  }

  // ---- the build, piece by piece ----

  /** The pieces of a plan that completes. */
  lemma PlanParts(args: Args, cat: Catalog, chan: Channels, ntop: nat) returns (inp: Inputs, st: Settings)
    requires args.user.Valid() && MakePlan(args, cat, chan, ntop).Ok?
    ensures Prepare(args, chan) == Ok(inp) && DatasetSettings(args, cat) == Ok(st)
    ensures InputNet(args, st.nclass, inp, TrainParams(Params(args, inp, st)), TestParams(Params(args, inp, st)), ntop)
            == Ok(MakePlan(args, cat, chan, ntop).value.net)
    ensures BltrFiller(args.bltrFiller).Ok?
    ensures MakePlan(args, cat, chan, ntop).value
            == Plan(BlockConfig(args.batchnorm, SkipList(args.skips), args.neighborhood, ConvFiller(args.convFiller),
                                BltrFiller(args.bltrFiller).value, inp.lattices),
                    inp.tokens, MakePlan(args, cat, chan, ntop).value.net, st.nclass)
  {
    inp := Prepare(args, chan).value;
    st := DatasetSettings(args, cat).value;
  }

  /** The plan and the final pass state of a build that completes. */
  lemma BuildParts(args: Args, cat: Catalog, chan: Channels) returns (pl: Plan, f: BlockState)
    requires args.user.Valid() && Build(args, cat, chan).Ok?
    ensures MakePlan(args, cat, chan, TrainTops(args)) == Ok(pl)
    ensures Run(pl.cfg, pl.tokens, Start(pl.net, DataFeat)) == Ok(f)
    ensures Build(args, cat, chan) == Ok(Head(args, f.net, f.top, f.idx, pl.nclass, pl.cfg.convFiller))
    ensures forall m :: m in pl.net.vals ==> InputName(m)
    ensures |pl.cfg.lattices| == CountBilateral(pl.tokens)
  {
    pl := MakePlan(args, cat, chan, TrainTops(args)).value;
    f := Run(pl.cfg, pl.tokens, Start(pl.net, DataFeat)).value;
    var inp, st := PlanParts(args, cat, chan, TrainTops(args));
    InputNames(args, st.nclass, inp, TrainParams(Params(args, inp, st)), TestParams(Params(args, inp, st)), TrainTops(args));
  }

  /** What the pass leaves, for a plan `pl` and the pass's final state `f`. */
  ghost predicate Passed(pl: Plan, f: BlockState)
  {
    && (forall m :: m in pl.net.vals ==> InputName(m))
    && |pl.cfg.lattices| == CountBilateral(pl.tokens)
    && Fresh(f) && CacheInv(pl.cfg, f) && f.bltrIdx == CountBilateral(pl.tokens)
    && Extends(pl.net, f.net) && BlocksEmitted(pl.cfg, f.net, f.last, 1, pl.tokens, DataFeat, 0)
    && f.idx == |pl.tokens| + 1 && f.last == Outputs(pl.cfg, |pl.tokens|) && f.top == LastTop(pl.cfg, |pl.tokens|)
    && (forall m :: m in f.net.vals ==> m in pl.net.vals || PassName(m))
  }

  /** ... and what the head then leaves in the net `r`. */
  ghost predicate Headed(args: Args, pl: Plan, f: BlockState, r: Net)
  {
    && Extends(f.net, r)
    && (forall m :: m in r.vals && m !in f.net.vals ==> HeadName(m, |pl.tokens| + 1))
    && HeadWired(args, pl, r)
  }

  /** The head layers of net `r` after the blocks of plan `pl`. */
  ghost predicate HeadWired(args: Args, pl: Plan, r: Net)
  {
    var c := LayerName.Conv(|pl.tokens| + 1);
    var out := if args.variant.PartSeg? then c else GPoolFinal;
    && c in r.vals && r.vals[c] == Layer(Convolution(pl.nclass, pl.cfg.convFiller), [LastTop(pl.cfg, |pl.tokens|)])
    && (GPoolFinal in r.vals <==> args.variant.Combined?)
    && (args.variant.Combined? ==> r.vals[GPoolFinal] == Layer(GlobalPooling, [c]))
    && (Prob in r.vals <==> args.deploy)
    && (args.deploy ==> r.vals[Prob] == Layer(Softmax, [out]))
    && (Loss in r.vals <==> !args.deploy)
    && (!args.deploy ==>
          r.vals[Loss] == Layer(SoftmaxWithLoss, [out, if args.variant.PartSeg? then Label else CategoryLabels]))
    && (Accuracy in r.vals <==> args.variant.PartSeg? && !args.deploy)
    && (Accuracy in r.vals ==> r.vals[Accuracy] == Layer(ClassAccuracy, [c, Label]))
  }

  /** A build that completes passes and heads as Passed and Headed describe. */
  lemma BuildState(args: Args, cat: Catalog, chan: Channels, pl: Plan, r: Net) returns (f: BlockState)
    requires args.user.Valid() && MakePlan(args, cat, chan, TrainTops(args)) == Ok(pl) && Build(args, cat, chan) == Ok(r)
    ensures Passed(pl, f) && Headed(args, pl, f, r)
  {
    var _, f' := BuildParts(args, cat, chan);
    f := f';
    PassFacts(pl, f);
    HeadOn(args, pl, f, r);
  }

  lemma PassFacts(pl: Plan, f: BlockState)
    requires forall m :: m in pl.net.vals ==> InputName(m)
    requires |pl.cfg.lattices| == CountBilateral(pl.tokens)
    requires Run(pl.cfg, pl.tokens, Start(pl.net, DataFeat)) == Ok(f)
    ensures Passed(pl, f)
  {
    var s := Start(pl.net, DataFeat);
    PassPost(pl.cfg, pl.tokens, pl.net, f);
    assert RunPost(pl.cfg, pl.tokens, s, f);
    assert s.idx == 1 && s.top == DataFeat && s.bltrIdx == 0 && s.net == pl.net;
    PassOutputs(pl.cfg, pl.tokens, pl.net, f);
    RunNames(pl.cfg, pl.tokens, s, f);
  }

  lemma HeadOn(args: Args, pl: Plan, f: BlockState, r: Net)
    requires Passed(pl, f) && r == Head(args, f.net, f.top, f.idx, pl.nclass, pl.cfg.convFiller)
    ensures Headed(args, pl, f, r)
  {
    assert forall m :: m in f.net.vals ==> InputName(m) || PassName(m);
    assert LayerName.Conv(f.idx) !in f.net.vals;
    HeadFrame(args, f.net, f.top, f.idx, pl.nclass, pl.cfg.convFiller);
    HeadLayers(args, f.net, f.top, f.idx, pl.nclass, pl.cfg.convFiller);
  }

  // ---- the finished net ----

  /** Blocks 1 to n, one per token, each emitting what BlockEmitted describes from its token and fed by
      the output of the block before it (data_feat for the first); block-numbered layers exist only
      for these blocks and for the classifier conv{n+1}. */
  lemma BuildBlocks(args: Args, cat: Catalog, chan: Channels, pl: Plan, r: Net)
    requires args.user.Valid() && MakePlan(args, cat, chan, TrainTops(args)) == Ok(pl) && Build(args, cat, chan) == Ok(r)
    ensures BlocksEmitted(pl.cfg, r, Outputs(pl.cfg, |pl.tokens|), 1, pl.tokens, DataFeat, 0)
    ensures forall m :: m in r.vals && BlockName(m) ==> 1 <= m.i <= |pl.tokens| || m == LayerName.Conv(|pl.tokens| + 1)
  {
    var f := BuildState(args, cat, chan, pl, r);
    BuiltBlocks(args, pl, f, r);
  }

  lemma BuiltBlocks(args: Args, pl: Plan, f: BlockState, r: Net)
    requires Passed(pl, f) && Headed(args, pl, f, r)
    ensures BlocksEmitted(pl.cfg, r, Outputs(pl.cfg, |pl.tokens|), 1, pl.tokens, DataFeat, 0)
    ensures forall m :: m in r.vals && BlockName(m) ==> 1 <= m.i <= |pl.tokens| || m == LayerName.Conv(|pl.tokens| + 1)
  {
    var n := |pl.tokens|;
    assert forall m :: m in r.vals && m !in f.net.vals && BlockName(m) ==> m == LayerName.Conv(n + 1);
    BlocksEmittedStable(pl.cfg, f.net, f.last, r, 1, pl.tokens, DataFeat, 0);
  }

  /** The head (lines 219-230, 457-483) sits on the last block's output, or on data_feat when the
      architecture has no block, as conv{n+1} with nclass outputs and the convolution filler. */
  lemma BuildHead(args: Args, cat: Catalog, chan: Channels, pl: Plan, r: Net)
    requires args.user.Valid() && MakePlan(args, cat, chan, TrainTops(args)) == Ok(pl) && Build(args, cat, chan) == Ok(r)
    ensures HeadWired(args, pl, r)
  {
    var f := BuildState(args, cat, chan, pl, r);
  }

  /** One data_lattice{k} per distinct lattice string, picking that string's channels from data, and a
      lattice{k} exactly for the strings that occur more than once (lines 150-181). */
  lemma BuildLattices(args: Args, cat: Catalog, chan: Channels, pl: Plan, r: Net)
    requires args.user.Valid() && MakePlan(args, cat, chan, TrainTops(args)) == Ok(pl) && Build(args, cat, chan) == Ok(r)
    ensures var d := Dedup(pl.cfg.lattices);
      && (forall k: nat :: DataLattice(k) in r.vals <==> k < |d|)
      && (forall k :: 0 <= k < |d| ==> r.vals[DataLattice(k)] == Layer(PickAndScale(d[k]), [Data]))
      && (forall k: nat :: Lattice(k) in r.vals <==> k < |d| && Occurs(pl.cfg, d[k]) > 1)
  {
    var f := BuildState(args, cat, chan, pl, r);
    BuiltLattices(args, pl, f, r);
  }

  lemma BuiltLattices(args: Args, pl: Plan, f: BlockState, r: Net)
    requires Passed(pl, f) && Headed(args, pl, f, r)
    ensures var d := Dedup(pl.cfg.lattices);
      && (forall k: nat :: DataLattice(k) in r.vals <==> k < |d|)
      && (forall k :: 0 <= k < |d| ==> r.vals[DataLattice(k)] == Layer(PickAndScale(d[k]), [Data]))
      && (forall k: nat :: Lattice(k) in r.vals <==> k < |d| && Occurs(pl.cfg, d[k]) > 1)
  {
    AllLatticesSeen(pl.cfg, f);
    HeadKeepsLattices(args, pl, f, r);
    var d := Dedup(pl.cfg.lattices);
    forall k: nat ensures DataLattice(k) in r.vals <==> k < |d| {
      assert DataLattice(k) in r.vals <==> DataLattice(k) in f.net.vals;
    }
    forall k: nat ensures Lattice(k) in r.vals <==> k < |d| && Occurs(pl.cfg, d[k]) > 1 {
      assert Lattice(k) in r.vals <==> Lattice(k) in f.net.vals;
    }
  }

  /** The head adds no lattice layer and keeps those there are. */
  lemma HeadKeepsLattices(args: Args, pl: Plan, f: BlockState, r: Net)
    requires Headed(args, pl, f, r)
    ensures forall m: LayerName :: m.DataLattice? || m.Lattice? ==> (m in r.vals <==> m in f.net.vals)
    ensures forall m :: m in f.net.vals ==> r.vals[m] == f.net.vals[m]
  {
  }

  /** The input layers are those the plan built, unchanged by the blocks and the head. */
  lemma BuildInputs(args: Args, cat: Catalog, chan: Channels, pl: Plan, r: Net)
    requires args.user.Valid() && MakePlan(args, cat, chan, TrainTops(args)) == Ok(pl) && Build(args, cat, chan) == Ok(r)
    ensures forall m :: InputName(m) ==> (m in r.vals <==> m in pl.net.vals)
    ensures forall m :: m in pl.net.vals ==> m in r.vals && r.vals[m] == pl.net.vals[m]
  {
    var f := BuildState(args, cat, chan, pl, r);
    BuiltInputs(args, pl, f, r);
  }

  lemma BuiltInputs(args: Args, pl: Plan, f: BlockState, r: Net)
    requires Passed(pl, f) && Headed(args, pl, f, r)
    ensures forall m :: InputName(m) ==> (m in r.vals <==> m in pl.net.vals)
    ensures forall m :: m in pl.net.vals ==> m in r.vals && r.vals[m] == pl.net.vals[m]
  {
    forall m | InputName(m) && m in r.vals ensures m in pl.net.vals {
      InputNameOnly(m, |pl.tokens| + 1);
    }
  }

  /** Input names are neither pass nor head names. */
  lemma InputNameOnly(m: LayerName, idx: nat)
    requires InputName(m)
    ensures !PassName(m) && !HeadName(m, idx)
  {
  }

  /** Every layer of the net is an input layer, a block or lattice layer, or a head layer. */
  lemma BuildNames(args: Args, cat: Catalog, chan: Channels, pl: Plan, r: Net)
    requires args.user.Valid() && MakePlan(args, cat, chan, TrainTops(args)) == Ok(pl) && Build(args, cat, chan) == Ok(r)
    ensures forall m :: m in r.vals ==> InputName(m) || PassName(m) || HeadName(m, |pl.tokens| + 1)
  {
    var f := BuildState(args, cat, chan, pl, r);
  }

  // ---- what the build raises, and when it completes ----

  /** The checks before the block loop, in the order the source makes them: the architecture string,
      the lattice argument, the dataset and the category, the unpacking of the train data layer, the
      bilateral filler. */
  lemma BuildErrors(args: Args, cat: Catalog, chan: Channels, ntop: nat)
    requires args.user.Valid()
    ensures ParseArch(args.arch).Err? ==> BuildWith(args, cat, chan, ntop) == Err(ParseArch(args.arch).error)
    ensures ParseArch(args.arch).Ok? && LatticeList(args.lattice, CountBilateral(ParseArch(args.arch).value)).Err? ==>
              BuildWith(args, cat, chan, ntop) == Err(LatticeList(args.lattice, CountBilateral(ParseArch(args.arch).value)).error)
    ensures Prepare(args, chan).Ok? && args.dataset != "shapenet" ==> BuildWith(args, cat, chan, ntop) == Err(ValueError)
    ensures Prepare(args, chan).Ok? && DatasetSettings(args, cat).Err? ==>
              BuildWith(args, cat, chan, ntop) == Err(DatasetSettings(args, cat).error)
    ensures Prepare(args, chan).Ok? && DatasetSettings(args, cat).Ok? && !args.deploy && ntop != |TrainNames(args)| ==>
              BuildWith(args, cat, chan, ntop) == Err(if ntop <= 1 then TypeError else ValueError)
    ensures (&& Prepare(args, chan).Ok? && DatasetSettings(args, cat).Ok? && (args.deploy || ntop == |TrainNames(args)|)
             && !StartsWith(args.bltrFiller, "gauss_")) ==> BuildWith(args, cat, chan, ntop) == Err(AssertionError)
    ensures MakePlan(args, cat, chan, ntop).Ok? <==>
              Prepare(args, chan).Ok? && DatasetSettings(args, cat).Ok? && (args.deploy || ntop == |TrainNames(args)|) &&
              StartsWith(args.bltrFiller, "gauss_")
  {
    if Prepare(args, chan).Ok? && DatasetSettings(args, cat).Ok? {
      var inp := Prepare(args, chan).value;
      var st := DatasetSettings(args, cat).value;
      var train, test := TrainParams(Params(args, inp, st)), TestParams(Params(args, inp, st));
      if args.deploy {
        DeployInputs(args, st.nclass, inp, train, test, ntop);
      } else {
        TrainInputs(args, st.nclass, inp, train, test, ntop);
      }
    }
  }

  /** A plan that completes came from a well-formed architecture string, a shapenet dataset and a
      'gauss_' bilateral filler; it carries the tokens, one lattice string per bilateral token, the
      builder's options and the class count the dataset settings fix. */
  lemma PlanFacts(args: Args, cat: Catalog, chan: Channels, ntop: nat, pl: Plan)
    requires args.user.Valid() && MakePlan(args, cat, chan, ntop) == Ok(pl)
    ensures ParseArch(args.arch) == Ok(pl.tokens) && |pl.cfg.lattices| == CountBilateral(pl.tokens)
    ensures args.dataset == "shapenet" && StartsWith(args.bltrFiller, "gauss_")
    ensures pl.cfg.batchnorm == args.batchnorm && pl.cfg.skips == SkipList(args.skips) && pl.cfg.neighborhood == args.neighborhood
    ensures pl.cfg.convFiller == ConvFiller(args.convFiller) && pl.cfg.bltrFiller == Gaussian(Split(args.bltrFiller[6..], '_')[0])
    ensures args.variant.Combined? ==> pl.nclass == Sum(cat.partCounts)
    ensures args.variant.PartSeg? ==>
      var c := CategoryId(cat, args.category);
      c.Ok? && c.value in cat.ids && FirstIndex(cat.ids, c.value) < |cat.partCounts| &&
      pl.nclass == cat.partCounts[FirstIndex(cat.ids, c.value)]
  {
    var inp, st := PlanParts(args, cat, chan, ntop);
  }

  /** Lines 55-83 (282-313) as the data layers receive them: the train layer gets the user's
      parameters over the subset defaults, the builder's own keys and the variant's extra key, with
      'subset' taken from 'subset_train'; the test layer the same with 'subset_test' and no jitter. */
  lemma PlanDataParams(args: Args, cat: Catalog, chan: Channels, ntop: nat, pl: Plan)
    requires args.user.Valid() && !args.deploy && MakePlan(args, cat, chan, ntop) == Ok(pl)
    ensures Data in pl.net.vals && TestData in pl.net.vals
    ensures var d, t := pl.net.vals[Data].op, pl.net.vals[TestData].op;
      var dims := Join(Prepare(args, chan).value.inputDims, '_');
      var st := DatasetSettings(args, cat).value;
      && d.ShapenetData? && d.phase == Train && d.layerClass == LayerClass(args.variant)
      && TrainEntries(args.user, d.params.vals, dims, args.sampleSize, args.batchSize, st.extraKey, st.extraValue)
      && t.ShapenetData? && t.phase == Test && t.layerClass == LayerClass(args.variant)
      && TestEntries(args.user, t.params.vals, dims, args.sampleSize, args.batchSize, st.extraKey, st.extraValue)
    ensures var st := DatasetSettings(args, cat).value;
      && (args.variant.PartSeg? ==> st.extraKey == CategoryKey && st.extraValue == StrVal(CategoryId(cat, args.category).value))
      && (args.variant.Combined? ==> st.extraKey == OutputMaskKey && st.extraValue == BoolVal(args.renorm))
  {
    var inp, st := PlanParts(args, cat, chan, ntop);
    var p := Params(args, inp, st);
    TrainInputs(args, st.nclass, inp, TrainParams(p), TestParams(p), ntop);
    ExtraKeysFree();
    PreparedEntries(args.user, Join(inp.inputDims, '_'), args.sampleSize, args.batchSize, st.extraKey, st.extraValue);
  }

  /** Once the plan is made, the build completes exactly when the skip specs into every block can be
      merged; the lattice strings never run out. */
  lemma BuildCompletes(args: Args, cat: Catalog, chan: Channels, pl: Plan)
    requires args.user.Valid() && MakePlan(args, cat, chan, TrainTops(args)) == Ok(pl)
    ensures Build(args, cat, chan).Ok? <==> forall i :: 1 <= i <= |pl.tokens| ==> MergeOk(pl.cfg, i)
  {
    PlanInputs(args, cat, chan, pl);
    PlanRuns(pl);
    assert Build(args, cat, chan).Ok? <==> Run(pl.cfg, pl.tokens, Start(pl.net, DataFeat)).Ok?;
  }

  lemma PlanInputs(args: Args, cat: Catalog, chan: Channels, pl: Plan)
    requires args.user.Valid() && MakePlan(args, cat, chan, TrainTops(args)) == Ok(pl)
    ensures forall m :: m in pl.net.vals ==> InputName(m)
    ensures |pl.cfg.lattices| == CountBilateral(pl.tokens)
  {
    var inp, st := PlanParts(args, cat, chan, TrainTops(args));
    InputNames(args, st.nclass, inp, TrainParams(Params(args, inp, st)), TestParams(Params(args, inp, st)), TrainTops(args));
  }

  /** The pass over a plan's tokens completes exactly when every skip merge can be done. */
  lemma PlanRuns(pl: Plan)
    requires forall m :: m in pl.net.vals ==> InputName(m)
    requires |pl.cfg.lattices| == CountBilateral(pl.tokens)
    ensures Run(pl.cfg, pl.tokens, Start(pl.net, DataFeat)).Ok? <==> forall i :: 1 <= i <= |pl.tokens| ==> MergeOk(pl.cfg, i)
  {
    StartInv(pl.cfg, pl.net, DataFeat);
    RunOkIff(pl.cfg, pl.tokens, Start(pl.net, DataFeat));
  }

  /** Without skip specs every plan builds. */
  lemma NoSkipsCompletes(args: Args, cat: Catalog, chan: Channels, pl: Plan)
    requires args.user.Valid() && MakePlan(args, cat, chan, TrainTops(args)) == Ok(pl)
    requires args.skips.None? || args.skips == Some([])
    ensures Build(args, cat, chan).Ok?
  {
    PlanFacts(args, cat, chan, TrainTops(args), pl);
    assert forall i :: 1 <= i <= |pl.tokens| ==> SkipTargets(pl.cfg.skips, i) == [];
    BuildCompletes(args, cat, chan, pl);
  }

  // ---- the train data layer's tops, for the whole build ----

  /** Lines 86 and 99: every partseg_seq build that is not for deployment and passes the dataset
      settings stops with ValueError when the three-top data layer is unpacked into two names. */
  lemma BuildAsWrittenFails(args: Args, cat: Catalog, chan: Channels)
    requires args.user.Valid() && args.variant.PartSeg? && !args.deploy
    requires Prepare(args, chan).Ok? && DatasetSettings(args, cat).Ok?
    ensures BuildAsWritten(args, cat, chan) == Err(ValueError)
  {
    BuildErrors(args, cat, chan, TrainTopsAsWritten(args));
  }

  /** The correction changes nothing else: the combined variant and every deploy net are built as
      written. */
  lemma BuildAsWrittenAgrees(args: Args, cat: Catalog, chan: Channels)
    requires args.user.Valid() && (args.variant.Combined? || args.deploy)
    ensures BuildAsWritten(args, cat, chan) == Build(args, cat, chan)
  {
    if args.variant.PartSeg? {
      PlanIgnoresTops(args, cat, chan, TrainTopsAsWritten(args), TrainTops(args));
    }
  }

  /** A deploy net has no train data layer, so its tops do not matter. */
  lemma PlanIgnoresTops(args: Args, cat: Catalog, chan: Channels, n1: nat, n2: nat)
    requires args.user.Valid() && args.deploy
    ensures MakePlan(args, cat, chan, n1) == MakePlan(args, cat, chan, n2)
  {
    if Prepare(args, chan).Ok? && DatasetSettings(args, cat).Ok? {
      var inp := Prepare(args, chan).value;
      var st := DatasetSettings(args, cat).value;
      var train, test := TrainParams(Params(args, inp, st)), TestParams(Params(args, inp, st));
      var net := InputNet(args, st.nclass, inp, train, test, n1);
      assert net == InputNet(args, st.nclass, inp, train, test, n2);
      PlanFrom(args, cat, chan, n1, inp, st, net);
      PlanFrom(args, cat, chan, n2, inp, st, net);
    }
  }

  /** MakePlan once the arguments and settings are known. */
  lemma PlanFrom(args: Args, cat: Catalog, chan: Channels, ntop: nat, inp: Inputs, st: Settings, net: Result<Net>)
    requires args.user.Valid() && Prepare(args, chan) == Ok(inp) && DatasetSettings(args, cat) == Ok(st)
    requires net == InputNet(args, st.nclass, inp, TrainParams(Params(args, inp, st)), TestParams(Params(args, inp, st)), ntop)
    ensures MakePlan(args, cat, chan, ntop) ==
      match net
      case Err(e) => Err(e)
      case Ok(n) =>
        match BltrFiller(args.bltrFiller)
        case Err(e) => Err(e)
        case Ok(bf) =>
          Ok(Plan(BlockConfig(args.batchnorm, SkipList(args.skips), args.neighborhood, ConvFiller(args.convFiller), bf, inp.lattices),
                  inp.tokens, n, st.nclass))
  {
  }
}
