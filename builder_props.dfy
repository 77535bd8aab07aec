/** What the builder guarantees: the input layers and their parameter dictionaries, the blocks, the
    lattice layers, the head and its wiring, and the order in which its errors are raised. */
module BuilderProps {
  import opened Wrappers
  import opened Text
  import opened Arch
  import opened Lattices
  import opened OrderedMaps
  import opened DatasetParams
  import opened Graph
  import opened Blocks
  import opened BlockProps
  import opened Builder

  /** Names of the input layers. */
  predicate InputName(n: LayerName)
  {
    n.Data? || n.Label? || n.CategoryLabels? || n.LabelMask? || n.TestData? || n.DataFeat?
  }

  /** Names of the head layers after `idx - 1` blocks. */
  predicate HeadName(n: LayerName, idx: nat)
  {
    n == LayerName.Conv(idx) || n.Prob? || n.Loss? || n.Accuracy? || n.GPoolFinal?
  }

  // ---- the input layers ----

  lemma {:induction false} PutTopsEntries(net: Net, names: seq<LayerName>, j: nat)
    requires 1 <= j <= |names| && NoDuplicates(names)
    ensures var r := PutTops(net, names, j);
      && (forall m :: m in r.vals <==> m in net.vals || m in names[j..])
      && (forall k :: j <= k < |names| ==> r.vals[names[k]] == Layer(ExtraTop(k), [names[0]]))
      && (forall m :: m in net.vals && m !in names[j..] ==> r.vals[m] == net.vals[m])
    decreases |names| - j
  {
    if j < |names| {
      var n1 := net.Put(names[j], Layer(ExtraTop(j), [names[0]]));
      PutTopsEntries(n1, names, j + 1);
      assert names[j..] == [names[j]] + names[j + 1..];
      forall k | j <= k < |names| ensures PutTops(net, names, j).vals[names[k]] == Layer(ExtraTop(k), [names[0]]) {
        if k == j {
          assert names[j] !in names[j + 1..];
        }
      }
      forall m | m in net.vals && m !in names[j..] ensures PutTops(net, names, j).vals[m] == net.vals[m] {
        assert m != names[j] && m !in names[j + 1..];
        assert m in n1.vals && n1.vals[m] == net.vals[m];
      }
    }
  }

  lemma {:induction false} PutTopsKeys(net: Net, names: seq<LayerName>, j: nat)
    requires 1 <= j <= |names| && NoDuplicates(names)
    requires forall k :: j <= k < |names| ==> names[k] !in net.vals
    ensures PutTops(net, names, j).keys == net.keys + names[j..]
    decreases |names| - j
  {
    if j < |names| {
      var n1 := net.Put(names[j], Layer(ExtraTop(j), [names[0]]));
      assert forall k :: j + 1 <= k < |names| ==> names[k] !in n1.vals by {
        forall k | j + 1 <= k < |names| ensures names[k] !in n1.vals {
          assert names[k] != names[j];
        }
      }
      PutTopsKeys(n1, names, j + 1);
      assert names[j..] == [names[j]] + names[j + 1..];
    }
  }

  /** The input layers in insertion order. */
  function InputKeys(args: Args): seq<LayerName>
  {
    if args.deploy then [Data] + (if args.variant.Combined? && args.renorm then [LabelMask] else []) + [DataFeat]
    else TrainNames(args) + [TestData] + [DataFeat]
  }

  /** Lines 96-97 and 101-102 (329-332 and 339-340): a deploy net starts with an Input of shape
      [1, len(input_dims), 1, sample_size], the combined variant with renorm_class adds label_mask of
      shape [1, nclass, 1, 1], and data_feat picks the feature channels from data. */
  lemma DeployInputs(args: Args, nclass: int, inp: Inputs, train: ParamMap, test: ParamMap, ntop: nat)
    requires args.deploy
    ensures var r := InputNet(args, nclass, inp, train, test, ntop);
      && r.Ok? && r.value.Valid() && r.value.keys == InputKeys(args)
      && r.value.vals[Data] == Layer(InputShape([1, |inp.inputDims|, 1, args.sampleSize]), [])
      && (args.variant.Combined? && args.renorm ==> r.value.vals[LabelMask] == Layer(InputShape([1, nclass, 1, 1]), []))
      && r.value.vals[DataFeat] == Layer(PickAndScale(inp.featStr), [Data])
  {
    var d0 := Empty<LayerName, Layer>().Put(Data, Layer(InputShape([1, |inp.inputDims|, 1, args.sampleSize]), []));
    assert d0.keys == [Data];
    var d := DeployLayers(args, nclass, inp);
    var mask := if args.variant.Combined? && args.renorm then [LabelMask] else [];
    assert d.Valid() && d.keys == [Data] + mask && (forall m :: m in d.vals <==> m in [Data] + mask);
    assert DataFeat !in d.vals;
    assert InputNet(args, nclass, inp, train, test, ntop) == Ok(d.Put(DataFeat, Layer(PickAndScale(inp.featStr), [Data])));
  }

  /** Lines 98-102 (333-340): the train data layer is unpacked into data, label and the variant's
      further tops, test_data is the test data layer naming its tops, and data_feat picks the feature
      channels from data. The unpacking succeeds exactly when the layer has as many tops as names. */
  lemma TrainInputs(args: Args, nclass: int, inp: Inputs, train: ParamMap, test: ParamMap, ntop: nat)
    requires !args.deploy
    ensures var r := InputNet(args, nclass, inp, train, test, ntop);
      && (r.Ok? <==> ntop == |TrainNames(args)|)
      && (r.Err? ==> r.error == if ntop <= 1 then TypeError else ValueError)
    ensures var r := InputNet(args, nclass, inp, train, test, ntop);
      r.Ok? ==>
        var names := TrainNames(args);
        var cls := LayerClass(args.variant);
        && r.value.Valid() && r.value.keys == InputKeys(args)
        && r.value.vals[Data] == Layer(ShapenetData(Train, cls, train, ntop, []), [])
        && (forall k :: 1 <= k < |names| ==> r.value.vals[names[k]] == Layer(ExtraTop(k), [Data]))
        && r.value.vals[TestData] == Layer(ShapenetData(Test, cls, test, 0, TestNames(args)), [])
        && r.value.vals[DataFeat] == Layer(PickAndScale(inp.featStr), [Data])
  {
    var names := TrainNames(args);
    var cls := LayerClass(args.variant);
    if ntop == |names| {
      var n := Unpacked(names, ShapenetData(Train, cls, train, ntop, []), Layer(ShapenetData(Test, cls, test, 0, TestNames(args)), []),
                        Layer(PickAndScale(inp.featStr), [Data]));
      assert InputNet(args, nclass, inp, train, test, ntop) == Ok(n);
    }
  }

  /** The unpacked tops, then two more layers. */
  lemma Unpacked(names: seq<LayerName>, op: Op, testLayer: Layer, featLayer: Layer) returns (n: Net)
    requires |names| >= 2 && names[0] == Data && NoDuplicates(names) && TestData !in names && DataFeat !in names
    ensures n == PutTops(Empty<LayerName, Layer>().Put(Data, Layer(op, [])), names, 1).Put(TestData, testLayer).Put(DataFeat, featLayer)
    ensures n.Valid() && n.keys == names + [TestData] + [DataFeat]
    ensures n.vals[Data] == Layer(op, []) && n.vals[TestData] == testLayer && n.vals[DataFeat] == featLayer
    ensures forall k :: 1 <= k < |names| ==> n.vals[names[k]] == Layer(ExtraTop(k), [Data])
  {
    var n1 := UnpackedTops(names, op);
    assert TestData !in n1.vals;
    var n2 := n1.Put(TestData, testLayer);
    assert DataFeat !in n2.vals;
    n := n2.Put(DataFeat, featLayer);
  }

  /** The train data layer under names[0] and its later tops under the other names. */
  lemma UnpackedTops(names: seq<LayerName>, op: Op) returns (n: Net)
    requires |names| >= 2 && NoDuplicates(names)
    ensures n == PutTops(Empty<LayerName, Layer>().Put(names[0], Layer(op, [])), names, 1)
    ensures n.Valid() && n.keys == names && (forall m :: m in n.vals <==> m in names)
    ensures n.vals[names[0]] == Layer(op, [])
    ensures forall k :: 1 <= k < |names| ==> n.vals[names[k]] == Layer(ExtraTop(k), [names[0]])
  {
    var n0 := Empty<LayerName, Layer>().Put(names[0], Layer(op, []));
    assert n0.keys == [names[0]];
    PutTopsEntries(n0, names, 1);
    PutTopsKeys(n0, names, 1);
    n := PutTops(n0, names, 1);
    assert [names[0]] + names[1..] == names;
    assert names[0] !in names[1..];
  }

  /** The input net holds input layers only. */
  lemma InputNames(args: Args, nclass: int, inp: Inputs, train: ParamMap, test: ParamMap, ntop: nat)
    requires InputNet(args, nclass, inp, train, test, ntop).Ok?
    ensures var n := InputNet(args, nclass, inp, train, test, ntop).value;
      n.Valid() && forall m :: m in n.vals ==> InputName(m)
  {
    if args.deploy {
      DeployInputs(args, nclass, inp, train, test, ntop);
    } else {
      TrainInputs(args, nclass, inp, train, test, ntop);
    }
    var n := InputNet(args, nclass, inp, train, test, ntop).value;
    InputKeysNamed(args);
    assert forall m :: m in n.vals ==> m in InputKeys(args);
  }

  lemma InputKeysNamed(args: Args)
    ensures forall m :: m in InputKeys(args) ==> InputName(m)
  {
  }

  // ---- the train data layer's tops ----

  /** Line 86 against line 99: partseg_seq's train data layer has three tops but only data and label
      receive them, so every non-deploy build stops with ValueError there. */
  lemma AsWrittenTrainUnpackFails(args: Args, nclass: int, inp: Inputs, train: ParamMap, test: ParamMap)
    requires args.variant.PartSeg? && !args.deploy
    ensures InputNet(args, nclass, inp, train, test, TrainTopsAsWritten(args)) == Err(ValueError)
  {
    TrainInputs(args, nclass, inp, train, test, TrainTopsAsWritten(args));
  }

  /** With the corrected count the train data layer has one top per name it is unpacked into, in both
      variants, and the combined variant's count is the one written at line 317. */
  lemma TrainTopsMatch(args: Args, nclass: int, inp: Inputs, train: ParamMap, test: ParamMap)
    ensures TrainTops(args) == |TrainNames(args)|
    ensures InputNet(args, nclass, inp, train, test, TrainTops(args)).Ok?
    ensures args.variant.Combined? ==> TrainTops(args) == TrainTopsAsWritten(args)
  {
    if args.deploy {
      DeployInputs(args, nclass, inp, train, test, TrainTops(args));
    } else {
      TrainInputs(args, nclass, inp, train, test, TrainTops(args));
    }
  }

  // ---- the head ----

  /** The head only adds layers of its own names and leaves the others in place. */
  lemma HeadFrame(args: Args, net: Net, top: LayerName, idx: nat, nclass: int, filler: Filler)
    requires forall m :: m in net.vals ==> InputName(m) || PassName(m)
    requires LayerName.Conv(idx) !in net.vals
    ensures var r := Head(args, net, top, idx, nclass, filler);
      && Extends(net, r)
      && (forall m :: m in r.vals && m !in net.vals ==> HeadName(m, idx))
  {
    var c := LayerName.Conv(idx);
    var v := net.vals[c := Layer(Convolution(nclass, filler), [top])];
    assert Prob !in net.vals && Loss !in net.vals && Accuracy !in net.vals && GPoolFinal !in net.vals;
    var r := Head(args, net, top, idx, nclass, filler);
    if args.variant.PartSeg? {
      if args.deploy {
        assert r.vals == v[Prob := Layer(Softmax, [c])];
      } else {
        assert r.vals == v[Loss := Layer(SoftmaxWithLoss, [c, Label])][Accuracy := Layer(ClassAccuracy, [c, Label])];
      }
    } else {
      var w := v[GPoolFinal := Layer(GlobalPooling, [c])];
      if args.deploy {
        assert r.vals == w[Prob := Layer(Softmax, [GPoolFinal])];
      } else {
        assert r.vals == w[Loss := Layer(SoftmaxWithLoss, [GPoolFinal, CategoryLabels])];
      }
    }
  }

  /** Lines 219-230 (457-483): conv{idx} with nclass outputs on the last top; partseg_seq puts softmax,
      or the loss and accuracy on the label, directly on it; the combined variant pools it globally
      first and, renorm_class being forced off at line 469, puts the loss on category_labels whatever
      renorm_class was passed. */
  lemma HeadLayers(args: Args, net: Net, top: LayerName, idx: nat, nclass: int, filler: Filler)
    requires forall m :: m in net.vals ==> InputName(m) || PassName(m)
    requires LayerName.Conv(idx) !in net.vals
    ensures var r := Head(args, net, top, idx, nclass, filler);
      var c := LayerName.Conv(idx);
      var out := if args.variant.PartSeg? then c else GPoolFinal;
      && c in r.vals && r.vals[c] == Layer(Convolution(nclass, filler), [top])
      && (GPoolFinal in r.vals <==> args.variant.Combined?)
      && (args.variant.Combined? ==> r.vals[GPoolFinal] == Layer(GlobalPooling, [c]))
      && (Prob in r.vals <==> args.deploy)
      && (args.deploy ==> r.vals[Prob] == Layer(Softmax, [out]))
      && (Loss in r.vals <==> !args.deploy)
      && (!args.deploy ==>
            r.vals[Loss] == Layer(SoftmaxWithLoss, [out, if args.variant.PartSeg? then Label else CategoryLabels]))
      && (Accuracy in r.vals <==> args.variant.PartSeg? && !args.deploy)
      && (Accuracy in r.vals ==> r.vals[Accuracy] == Layer(ClassAccuracy, [c, Label]))
  {
    var c := LayerName.Conv(idx);
    var v := net.vals[c := Layer(Convolution(nclass, filler), [top])];
    assert Prob !in net.vals && Loss !in net.vals && Accuracy !in net.vals && GPoolFinal !in net.vals;
    var r := Head(args, net, top, idx, nclass, filler);
    if args.variant.PartSeg? {
      if args.deploy {
        assert r.vals == v[Prob := Layer(Softmax, [c])];
      } else {
        assert r.vals == v[Loss := Layer(SoftmaxWithLoss, [c, Label])][Accuracy := Layer(ClassAccuracy, [c, Label])];
      }
    } else {
      var w := v[GPoolFinal := Layer(GlobalPooling, [c])];
      if args.deploy {
        assert r.vals == w[Prob := Layer(Softmax, [GPoolFinal])];
      } else {
        assert r.vals == w[Loss := Layer(SoftmaxWithLoss, [GPoolFinal, CategoryLabels])];
      }
    }
  }
}
