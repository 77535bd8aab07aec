/** The network under construction: an insertion-ordered map from layer (top) name to layer record,
    standing in for Caffe's NetSpec. */
module Graph {
  import opened Wrappers
  import opened Text
  import opened OrderedMaps
  import opened DatasetParams

  /** Every name the builder gives a top. Block-level names carry the block index `i`, lattice
      names the lattice index `k`. */
  datatype LayerName =
    | Data | Label | CategoryLabels | LabelMask | TestData | DataFeat
    | Conv(i: nat) | Bn(i: nat) | Relu(i: nat) | GPool(i: nat) | Add(i: nat) | Concat(i: nat)
    | DataLattice(k: nat) | Lattice(k: nat)
    | GPoolFinal | Prob | Loss | Accuracy

  predicate Numbered(n: LayerName)
  {
    n.Conv? || n.Bn? || n.Relu? || n.GPool? || n.Add? || n.Concat? || n.DataLattice? || n.Lattice?
  }

  function Number(n: LayerName): nat
    requires Numbered(n)
  {
    if n.DataLattice? || n.Lattice? then n.k else n.i
  }

  function Prefix(n: LayerName): string
  {
    match n
    case Data => "data"
    case Label => "label"
    case CategoryLabels => "category_labels"
    case LabelMask => "label_mask"
    case TestData => "test_data"
    case DataFeat => "data_feat"
    case Conv(_) => "conv"
    case Bn(_) => "bn"
    case Relu(_) => "relu"
    case GPool(_) => "gpool"
    case Add(_) => "add"
    case Concat(_) => "concat"
    case DataLattice(_) => "data_lattice"
    case Lattice(_) => "lattice"
    case GPoolFinal => "gpool_final"
    case Prob => "prob"
    case Loss => "loss"
    case Accuracy => "accuracy"
  }

  /** The string the source uses for the name, e.g. 'conv' + str(idx). */
  function NameText(n: LayerName): string
  {
    if Numbered(n) then Prefix(n) + Str(Number(n)) else Prefix(n)
  }

  predicate NoDigits(s: string) { forall k :: 0 <= k < |s| ==> !IsDigit(s[k]) }

  /** `s` without its trailing run of digits. */
  function DropTrailingDigits(s: string): (r: string)
    ensures |r| <= |s|
  {
    if s != [] && IsDigit(s[|s| - 1]) then DropTrailingDigits(s[..|s| - 1]) else s
  }

  lemma {:induction false} DropDigitsSuffix(p: string, d: string)
    requires p != [] && !IsDigit(p[|p| - 1]) && AllDigits(d)
    ensures DropTrailingDigits(p + d) == p
    decreases |d|
  {
    if d != [] {
      var w := p + d;
      assert w[..|w| - 1] == p + d[..|d| - 1];
      DropDigitsSuffix(p, d[..|d| - 1]);
    } else {
      assert p + d == p;
    }
  }

  lemma PrefixInjective(a: LayerName, b: LayerName)
    requires Prefix(a) == Prefix(b) && Numbered(a) == Numbered(b)
    ensures Numbered(a) && Number(a) == Number(b) ==> a == b
    ensures !Numbered(a) ==> a == b
  {
  }

  /** Every prefix is a non-empty word that does not end in a digit. */
  lemma PrefixEndsInLetter(n: LayerName)
    ensures var p := Prefix(n); p != [] && !IsDigit(p[|p| - 1])
  {
  }

  /** No two names share a string, so keying the graph by LayerName loses nothing against the
      source's string-keyed NetSpec. */
  lemma NameTextInjective(a: LayerName, b: LayerName)
    requires NameText(a) == NameText(b)
    ensures a == b
  {
    var pa, pb := Prefix(a), Prefix(b);
    PrefixEndsInLetter(a);
    PrefixEndsInLetter(b);
    var sa := if Numbered(a) then Str(Number(a)) else "";
    var sb := if Numbered(b) then Str(Number(b)) else "";
    assert NameText(a) == pa + sa;
    assert NameText(b) == pb + sb;
    DropDigitsSuffix(pa, sa);
    DropDigitsSuffix(pb, sb);
    assert pa == pb;
    assert sa == sb by {
      assert sa == (pa + sa)[|pa|..];
      assert sb == (pb + sb)[|pb|..];
    }
    if Numbered(a) { StrInjective(Number(a), if Numbered(b) then Number(b) else 0); }
    PrefixInjective(a, b);
  }

  /** A weight initialiser: 'xavier', 'msra', 'gauss_<std>' (the std text is kept as given) or any
      other string, which the source passes to `eval`. */
  datatype Filler = Xavier | Msra | Gaussian(std: string) | Evaluated(expr: string)

  datatype Phase = Train | Test

  /** The layer types the builder emits, with the parameters that vary between calls. Parameters the
      source fixes (kernel_size=1, stride=1, pad=0, zero bias fillers, the lr/decay multipliers,
      group=1, bias_term, the AFTER normalisation and NONE offset) are implied by the type. */
  datatype Op =
    | InputShape(dims: seq<int>)
    | ShapenetData(phase: Phase, layerClass: string, params: ParamMap, ntop: nat, tops: seq<LayerName>)
                                      // ntop = 0 with explicit top names, or ntop > 0 unnamed tops
    | ExtraTop(index: nat)            // the index-th top of the layer that produces the single input
    | PickAndScale(channels: string)
    | Convolution(numOutput: int, weightFiller: Filler)
    | Permutohedral(numOutput: int, neighborhood: int, filterFiller: Filler, ntop: nat)
    | BatchNorm
    | ReLU                            // in place
    | GlobalPooling
    | EltwiseSum
    | Concatenate
    | Softmax
    | SoftmaxWithLoss
    | ClassAccuracy

  datatype Layer = Layer(op: Op, inputs: seq<LayerName>)

  type Net = OrderedMap<LayerName, Layer>
}
