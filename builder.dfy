/** The whole builder: `partseg_seq` (models.py lines 11-237) and `partseg_seq_combined_categories`
    (lines 240-490), one model parameterised by the head variant. The two functions differ only in
    the dataset settings, the data layers and the classifier head. */
module Builder {
  import opened Wrappers
  import opened Text
  import opened Arch
  import opened Lattices
  import opened OrderedMaps
  import opened DatasetParams
  import opened Graph
  import opened Blocks

  /** `partseg_seq` or `partseg_seq_combined_categories`. */
  datatype Variant = PartSeg | Combined

  /** `parse_channel_scale(s, channel_str=True)[0]` and `map_channel_scale(s, dims)` of splatnet.utils,
      which is not part of this model: the dimension names a channel string lists, and the string
      rewritten against the final input dimensions. */
  datatype Channels = Channels(dims: string -> seq<string>, remap: (string, seq<string>) -> string)

  /** The splatnet.configs tables: SN_CATEGORIES, SN_CATEGORY_NAMES and SN_NUM_PART_CATEGORIES. */
  datatype Catalog = Catalog(ids: seq<string>, names: seq<string>, partCounts: seq<int>)

  /** The builder's keyword arguments. `skips == None` is `skip_str=None`; `category` is read only by
      partseg_seq and `renorm` (renorm_class) only by the combined variant. */
  datatype Args = Args(variant: Variant, arch: string, batchnorm: bool, skips: Option<seq<string>>,
                       neighborhood: int, convFiller: string, bltrFiller: string, dataset: string,
                       user: ParamMap, category: string, sampleSize: int, batchSize: int,
                       featDims: string, lattice: LatticeArg, renorm: bool, deploy: bool)

  /** What lines 22-43 compute: the tokens, the lattice strings rewritten against the input
      dimensions, the input dimensions and the rewritten feature string. */
  datatype Inputs = Inputs(tokens: seq<Token>, lattices: seq<string>, inputDims: seq<string>, featStr: string)

  /** Lines 22-43 (252-273). A malformed architecture string fails first, then a lattice argument
      that cannot be broadcast. */
  function Prepare(args: Args, chan: Channels): (r: Result<Inputs>)
    ensures ParseArch(args.arch).Err? ==> r == Err(ParseArch(args.arch).error)
    ensures ParseArch(args.arch).Ok? ==>
      var k := CountBilateral(ParseArch(args.arch).value);
      (r.Ok? <==> LatticeList(args.lattice, k).Ok?) && (r.Err? ==> r == Err(LatticeList(args.lattice, k).error))
    ensures r.Ok? ==> ParseArch(args.arch) == Ok(r.value.tokens) && |r.value.lattices| == CountBilateral(r.value.tokens)
  {
    match ParseArch(args.arch)
    case Err(e) => Err(e)
    case Ok(toks) =>
      var k := CountBilateral(toks);
      match LatticeList(args.lattice, k)
      case Err(e) => Err(e)
      case Ok(ls) =>
        var dims := Dims(chan, args.featDims, ls);
        Ok(Inputs(toks, Remapped(chan, ls, dims), dims, chan.remap(args.featDims, dims)))
  }

  /** Lines 32-35 and 40-41: with lattice strings, the feature dimensions followed by every
      lattice's, deduplicated; without, the feature dimensions as listed. */
  function Dims(chan: Channels, featDims: string, ls: seq<string>): seq<string>
  {
    var feat := chan.dims(featDims);
    if ls != [] then InputDims(feat, seq(|ls|, b requires 0 <= b < |ls| => chan.dims(ls[b]))) else feat
  }

  /** Line 37: every lattice string rewritten against the input dimensions. */
  function Remapped(chan: Channels, ls: seq<string>, dims: seq<string>): (r: seq<string>)
    ensures |r| == |ls| && forall b :: 0 <= b < |ls| ==> r[b] == chan.remap(ls[b], dims)
  {
    seq(|ls|, b requires 0 <= b < |ls| => chan.remap(ls[b], dims))
  }

  /** The input dimensions hold no duplicates and exactly the feature and lattice dimensions when
      there are bilateral tokens, and are the feature dimensions as listed when there are none. */
  lemma DimsFacts(chan: Channels, featDims: string, ls: seq<string>)
    ensures ls == [] ==> Dims(chan, featDims, ls) == chan.dims(featDims)
    ensures ls != [] ==>
      var d := Dims(chan, featDims, ls);
      && NoDuplicates(d)
      && forall x :: x in d <==> x in chan.dims(featDims) || exists b :: 0 <= b < |ls| && x in chan.dims(ls[b])
  {
    if ls != [] {
      var l := seq(|ls|, b requires 0 <= b < |ls| => chan.dims(ls[b]));
      assert forall b :: 0 <= b < |ls| ==> l[b] == chan.dims(ls[b]);
    }
  }

  /** `xs.index(x)`: the first position of `x`, or ValueError. */
  function IndexOf(xs: seq<string>, x: string): (r: Result<nat>)
    ensures r.Ok? <==> x in xs
    ensures r.Ok? ==> r.value < |xs| && xs[r.value] == x && x !in xs[..r.value]
    ensures r.Err? ==> r.error == ValueError
  {
    if x in xs then Ok(FirstIndex(xs, x)) else Err(ValueError)
  }

  /** Lines 49-50: a category that starts with '0' is already an id; otherwise it is looked up by
      name, raising ValueError for an unknown name and IndexError past the end of the id table. */
  function CategoryId(cat: Catalog, category: string): (r: Result<string>)
    ensures StartsWith(category, "0") ==> r == Ok(category)
    ensures !StartsWith(category, "0") ==>
      && (r.Ok? <==> category in cat.names && FirstIndex(cat.names, category) < |cat.ids|)
      && (r.Ok? ==> r.value == cat.ids[FirstIndex(cat.names, category)])
      && (category !in cat.names ==> r == Err(ValueError))
      && (category in cat.names && FirstIndex(cat.names, category) >= |cat.ids| ==> r == Err(IndexError))
  {
    if StartsWith(category, "0") then Ok(category)
    else
      match IndexOf(cat.names, category)
      case Err(e) => Err(e)
      case Ok(j) => if j < |cat.ids| then Ok(cat.ids[j]) else Err(IndexError)
  }

  /** Line 52: the part count of the category with id `cid`. */
  function PartCount(cat: Catalog, cid: string): (r: Result<int>)
    ensures r.Ok? <==> cid in cat.ids && FirstIndex(cat.ids, cid) < |cat.partCounts|
    ensures r.Ok? ==> r.value == cat.partCounts[FirstIndex(cat.ids, cid)]
    ensures cid !in cat.ids ==> r == Err(ValueError)
    ensures cid in cat.ids && FirstIndex(cat.ids, cid) >= |cat.partCounts| ==> r == Err(IndexError)
  {
    match IndexOf(cat.ids, cid)
    case Err(e) => Err(e)
    case Ok(j) => if j < |cat.partCounts| then Ok(cat.partCounts[j]) else Err(IndexError)
  }

  function Sum(xs: seq<int>): int
  {
    if xs == [] then 0 else Sum(xs[..|xs| - 1]) + xs[|xs| - 1]
  }

  /** The dataset-dependent settings: the class count, and the extra key written into the data
      layers' parameters. */
  datatype Settings = Settings(nclass: int, extraKey: string, extraValue: Value)

  const CategoryKey: string := "category"
  const OutputMaskKey: string := "output_mask"

  /** Lines 46-52 and 62 (partseg_seq) or 276-279 and 289 (combined): only 'shapenet' is known; the
      combined variant counts the parts of every category and passes renorm_class as output_mask,
      partseg_seq looks the category up and passes its id, with the part count of that category. */
  function DatasetSettings(args: Args, cat: Catalog): (r: Result<Settings>)
    ensures args.dataset != "shapenet" ==> r == Err(ValueError)
    ensures args.dataset == "shapenet" && args.variant.Combined? ==>
      r == Ok(Settings(Sum(cat.partCounts), OutputMaskKey, BoolVal(args.renorm)))
    ensures args.dataset == "shapenet" && args.variant.PartSeg? ==>
      var c := CategoryId(cat, args.category);
      && (r.Ok? <==> c.Ok? && c.value in cat.ids && FirstIndex(cat.ids, c.value) < |cat.partCounts|)
      && (r.Ok? ==> r.value == Settings(cat.partCounts[FirstIndex(cat.ids, c.value)], CategoryKey, StrVal(c.value)))
      && (r.Err? ==> r.error == ValueError || r.error == IndexError)
  {
    if args.dataset != "shapenet" then Err(ValueError)
    else if args.variant.Combined? then Ok(Settings(Sum(cat.partCounts), OutputMaskKey, BoolVal(args.renorm)))
    else
      match CategoryId(cat, args.category)
      case Err(e) => Err(e)
      case Ok(cid) =>
        match PartCount(cat, cid)
        case Err(e) => Err(e)
        case Ok(n) => Ok(Settings(n, CategoryKey, StrVal(cid)))
  }

  /** Lines 55-66 (282-293): the parameter dictionary both data layers start from. */
  function Params(args: Args, inp: Inputs, st: Settings): (r: ParamMap)
    requires args.user.Valid()
    ensures r.Valid() && SubsetTrainKey in r.vals && SubsetTestKey in r.vals
  {
    BuilderParams(args.user, Join(inp.inputDims, '_'), args.sampleSize, args.batchSize, st.extraKey, st.extraValue)
  }

  /** Neither extra key is one the builder reserves. */
  lemma ExtraKeysFree()
    ensures !Reserved(CategoryKey) && !Reserved(OutputMaskKey)
  {
    assert OutputMaskKey[0] != SampleSizeKey[0] && OutputMaskKey[0] != SubsetTestKey[0];
  }

  /** The Python data layer's class. */
  function LayerClass(v: Variant): string
  {
    if v.PartSeg? then "InputShapenet" else "InputShapenetAllCategories"
  }

  /** The tops the train data layer is unpacked into (lines 99, 335 and 337). */
  function TrainNames(args: Args): seq<LayerName>
  {
    if args.variant.PartSeg? then [Data, Label]
    else if args.renorm then [Data, Label, CategoryLabels, LabelMask]
    else [Data, Label, CategoryLabels]
  }

  /** The tops the test data layer names (lines 89 and 321-322). */
  function TestNames(args: Args): seq<LayerName>
  {
    if args.variant.Combined? && args.renorm then [Data, Label, LabelMask] else [Data, Label]
  }

  /** `ntop` of the train data layer as written: 3 in partseg_seq (line 86), 4 or 3 in the combined
      variant (line 317). */
  function TrainTopsAsWritten(args: Args): nat
  {
    if args.variant.PartSeg? then 3 else if args.renorm then 4 else 3
  }

  /** `ntop` of the train data layer with partseg_seq's corrected to the two tops line 99 unpacks. */
  function TrainTops(args: Args): nat
  {
    if args.variant.PartSeg? then 2 else TrainTopsAsWritten(args)
  }

  /** `names[0], names[1], ... = layer` for a layer with `ntop` tops: Caffe's layer function returns
      the single top for one top and the layer object itself for none, neither of which can be
      unpacked (TypeError); a tuple of any other count but |names| cannot be unpacked (ValueError). The
      first name holds the layer, each later one the layer's top of that position. */
  function Unpack(net: Net, ntop: nat, names: seq<LayerName>, op: Op): (r: Result<Net>)
    requires names != []
    ensures ntop <= 1 && ntop != |names| ==> r == Err(TypeError)
    ensures ntop >= 2 && ntop != |names| ==> r == Err(ValueError)
    ensures ntop == |names| ==> r == Ok(PutTops(net.Put(names[0], Layer(op, [])), names, 1))
  {
    if ntop == |names| then Ok(PutTops(net.Put(names[0], Layer(op, [])), names, 1))
    else if ntop <= 1 then Err(TypeError)
    else Err(ValueError)
  }

  /** Names names[j..] in order, each the top of its position in the layer named names[0]. */
  function PutTops(net: Net, names: seq<LayerName>, j: nat): (r: Net)
    requires 1 <= j <= |names|
    ensures net.Valid() ==> r.Valid()
    decreases |names| - j
  {
    if j == |names| then net else PutTops(net.Put(names[j], Layer(ExtraTop(j), [names[0]])), names, j + 1)
  }

  /** Lines 96-103 (329-341): the input layers, then data_feat on the data top. */
  function InputNet(args: Args, nclass: int, inp: Inputs, train: ParamMap, test: ParamMap, ntop: nat): (r: Result<Net>)
  {
    var pre := if args.deploy then Ok(DeployLayers(args, nclass, inp)) else DataLayers(args, train, test, ntop);
    match pre
    case Err(e) => Err(e)
    case Ok(n) => Ok(n.Put(DataFeat, Layer(PickAndScale(inp.featStr), [Data])))
  }

  /** Lines 97 and 330-332: fixed-shape Input layers. */
  function DeployLayers(args: Args, nclass: int, inp: Inputs): Net
  {
    var d := Empty<LayerName, Layer>().Put(Data, Layer(InputShape([1, |inp.inputDims|, 1, args.sampleSize]), []));
    if args.variant.Combined? && args.renorm then d.Put(LabelMask, Layer(InputShape([1, nclass, 1, 1]), [])) else d
  }

  /** Lines 99-100 (334-338): the train data layer unpacked into its tops, and test_data. */
  function DataLayers(args: Args, train: ParamMap, test: ParamMap, ntop: nat): Result<Net>
  {
    var cls := LayerClass(args.variant);
    match Unpack(Empty(), ntop, TrainNames(args), ShapenetData(Train, cls, train, ntop, []))
    case Err(e) => Err(e)
    case Ok(n) => Ok(n.Put(TestData, Layer(ShapenetData(Test, cls, test, 0, TestNames(args)), [])))
  }

  /** Lines 105-110 (343-348): 'xavier' and 'msra' name their filler; 'gauss_<std>' is a gaussian
      with the text between the first and second '_' as its std; anything else is evaluated. */
  function ConvFiller(f: string): (r: Filler)
    ensures f == "xavier" <==> r == Xavier
    ensures f == "msra" <==> r == Msra
    ensures r.Gaussian? <==> StartsWith(f, "gauss_")
    ensures StartsWith(f, "gauss_") ==> r == Gaussian(Split(f[6..], '_')[0])
    ensures r.Evaluated? ==> r.expr == f
  {
    if f == "xavier" then assert f[0] == 'x'; Xavier
    else if f == "msra" then assert f[0] == 'm'; Msra
    else if StartsWith(f, "gauss_") then GaussPieces(f); Gaussian(Split(f, '_')[1])
    else Evaluated(f)
  }

  /** Lines 111-112 (349-350): the bilateral filler must be 'gauss_<std>'. */
  function BltrFiller(f: string): (r: Result<Filler>)
    ensures r.Ok? <==> StartsWith(f, "gauss_")
    ensures r.Ok? ==> r.value == Gaussian(Split(f[6..], '_')[0])
    ensures r.Err? ==> r.error == AssertionError
  {
    if StartsWith(f, "gauss_") then GaussPieces(f); Ok(Gaussian(Split(f, '_')[1])) else Err(AssertionError)
  }

  lemma GaussPieces(f: string)
    requires StartsWith(f, "gauss_")
    ensures |Split(f, '_')| >= 2 && Split(f, '_')[1] == Split(f[6..], '_')[0]
  {
    assert f == "gauss" + ['_'] + f[6..];
    SplitPrefix("gauss", f[6..], '_');
  }

  /** Lines 219-230 (partseg_seq) or 457-483 (combined, where line 469 forces renorm_class off): the
      classifier conv{idx} on the last top, then softmax for deploy, or the loss on the labels,
      partseg_seq adding the accuracy and the combined variant pooling globally first. */
  function Head(args: Args, net: Net, top: LayerName, idx: nat, nclass: int, filler: Filler): (r: Net)
    ensures net.Valid() ==> r.Valid()
  {
    var c := LayerName.Conv(idx);
    var n1 := net.Put(c, Layer(Convolution(nclass, filler), [top]));
    if args.variant.PartSeg? then
      if args.deploy then n1.Put(Prob, Layer(Softmax, [c]))
      else n1.Put(Loss, Layer(SoftmaxWithLoss, [c, Label])).Put(Accuracy, Layer(ClassAccuracy, [c, Label]))
    else
      var n2 := n1.Put(GPoolFinal, Layer(GlobalPooling, [c]));
      if args.deploy then n2.Put(Prob, Layer(Softmax, [GPoolFinal]))
      else n2.Put(Loss, Layer(SoftmaxWithLoss, [GPoolFinal, CategoryLabels]))
  }

  /** `skip_str=None` is read as no skips (lines 191-192). */
  function SkipList(o: Option<seq<string>>): seq<string>
  {
    if o.None? then [] else o.value
  }

  /** Everything decided before the block loop: its configuration and tokens, the input net, and
      the class count. */
  datatype Plan = Plan(cfg: BlockConfig, tokens: seq<Token>, net: Net, nclass: int)

  /** Lines 20-112 (250-350) in the source's order: arguments, dataset settings, parameter
      dictionaries, input layers with a train layer of `ntop` tops, fillers. */
  function MakePlan(args: Args, cat: Catalog, chan: Channels, ntop: nat): Result<Plan>
    requires args.user.Valid()
  {
    match Prepare(args, chan)
    case Err(e) => Err(e)
    case Ok(inp) =>
      match DatasetSettings(args, cat)
      case Err(e) => Err(e)
      case Ok(st) =>
        var p := Params(args, inp, st);
        match InputNet(args, st.nclass, inp, TrainParams(p), TestParams(p), ntop)
        case Err(e) => Err(e)
        case Ok(net) =>
          match BltrFiller(args.bltrFiller)
          case Err(e) => Err(e)
          case Ok(bf) =>
            Ok(Plan(BlockConfig(args.batchnorm, SkipList(args.skips), args.neighborhood, ConvFiller(args.convFiller),
                                bf, inp.lattices), inp.tokens, net, st.nclass))
  }

  /** The whole builder with a train data layer of `ntop` tops: the plan, the block loop from
      data_feat, then the head on the loop's last top. */
  function BuildWith(args: Args, cat: Catalog, chan: Channels, ntop: nat): Result<Net>
    requires args.user.Valid()
  {
    match MakePlan(args, cat, chan, ntop)
    case Err(e) => Err(e)
    case Ok(pl) =>
      match Run(pl.cfg, pl.tokens, Start(pl.net, DataFeat))
      case Err(e) => Err(e)
      case Ok(f) => Ok(Head(args, f.net, f.top, f.idx, pl.nclass, pl.cfg.convFiller))
  }

  /** The builder as written. */
  function BuildAsWritten(args: Args, cat: Catalog, chan: Channels): Result<Net>
    requires args.user.Valid()
  {
    BuildWith(args, cat, chan, TrainTopsAsWritten(args))
  }

  /** The builder with partseg_seq's train data layer corrected to two tops. */
  function Build(args: Args, cat: Catalog, chan: Channels): Result<Net>
    requires args.user.Valid()
  {
    BuildWith(args, cat, chan, TrainTops(args))
  }

  /** The builder run step by step as the source runs it: the parameter dictionaries built by
      updating a copy, the block loop updating the net in place, then the head. */
  method BuildNet(args: Args, cat: Catalog, chan: Channels) returns (r: Result<Net>)
    requires args.user.Valid()
    ensures r == Build(args, cat, chan)
  {
    var prep := Prepare(args, chan);
    if prep.Err? {
      return Err(prep.error);
    }
    var inp := prep.value;
    var settings := DatasetSettings(args, cat);
    if settings.Err? {
      return Err(settings.error);
    }
    var st := settings.value;
    var train, test := PrepareParams(args.user, Join(inp.inputDims, '_'), args.sampleSize, args.batchSize,
                                     st.extraKey, st.extraValue);
    var input := InputNet(args, st.nclass, inp, train, test, TrainTops(args));
    if input.Err? {
      return Err(input.error);
    }
    var bf := BltrFiller(args.bltrFiller);
    if bf.Err? {
      return Err(bf.error);
    }
    var cfg := BlockConfig(args.batchnorm, SkipList(args.skips), args.neighborhood, ConvFiller(args.convFiller),
                           bf.value, inp.lattices);
    assert MakePlan(args, cat, chan, TrainTops(args)) == Ok(Plan(cfg, inp.tokens, input.value, st.nclass));
    var blocks := BuildBlocks(cfg, inp.tokens, input.value, DataFeat);
    if blocks.Err? {
      return Err(blocks.error);
    }
    var f := blocks.value;
    return Ok(Head(args, f.net, f.top, f.idx, st.nclass, cfg.convFiller));
  }
}
