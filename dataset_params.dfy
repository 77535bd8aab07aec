/** The data layers' parameter dictionaries (models.py lines 55-83 and 282-313). */
module DatasetParams {
  import opened Wrappers
  import opened OrderedMaps

  /** A parameter value. Python values are untyped; the model keeps the four kinds the builder writes. */
  datatype Value = StrVal(s: string) | IntVal(n: int) | BoolVal(b: bool) | FloatVal(r: real)

  type ParamMap = OrderedMap<string, Value>

  /** The keys the builder writes over whatever the caller passed. */
  const FeatDimsKey: string := "feat_dims"
  const SampleSizeKey: string := "sample_size"
  const BatchSizeKey: string := "batch_size"
  const SubsetKey: string := "subset"
  const SubsetTrainKey: string := "subset_train"
  const SubsetTestKey: string := "subset_test"
  const JitterXyzKey: string := "jitter_xyz"
  const JitterStretchKey: string := "jitter_stretch"
  const JitterRotationKey: string := "jitter_rotation"
  const JitterKeys: seq<string> := [JitterXyzKey, JitterStretchKey, JitterRotationKey]

  /** The reserved keys are pairwise different strings. */
  lemma ReservedKeysDistinct()
    ensures FeatDimsKey != SampleSizeKey && FeatDimsKey != BatchSizeKey && FeatDimsKey != SubsetKey && FeatDimsKey != SubsetTrainKey && FeatDimsKey != SubsetTestKey && FeatDimsKey != JitterXyzKey && FeatDimsKey != JitterStretchKey && FeatDimsKey != JitterRotationKey
    ensures SampleSizeKey != BatchSizeKey && SampleSizeKey != SubsetKey && SampleSizeKey != SubsetTrainKey && SampleSizeKey != SubsetTestKey && SampleSizeKey != JitterXyzKey && SampleSizeKey != JitterStretchKey && SampleSizeKey != JitterRotationKey
    ensures BatchSizeKey != SubsetKey && BatchSizeKey != SubsetTrainKey && BatchSizeKey != SubsetTestKey && BatchSizeKey != JitterXyzKey && BatchSizeKey != JitterStretchKey && BatchSizeKey != JitterRotationKey
    ensures SubsetKey != SubsetTrainKey && SubsetKey != SubsetTestKey && SubsetKey != JitterXyzKey && SubsetKey != JitterStretchKey && SubsetKey != JitterRotationKey
    ensures SubsetTrainKey != SubsetTestKey && SubsetTrainKey != JitterXyzKey && SubsetTrainKey != JitterStretchKey && SubsetTrainKey != JitterRotationKey
    ensures SubsetTestKey != JitterXyzKey && SubsetTestKey != JitterStretchKey && SubsetTestKey != JitterRotationKey
    ensures JitterXyzKey != JitterStretchKey && JitterXyzKey != JitterRotationKey
    ensures JitterStretchKey != JitterRotationKey
  {
  }

  /** The reserved keys of equal length differ; keys of different lengths differ anyway. */
  lemma SameLengthKeysDistinct()
    ensures SampleSizeKey != SubsetTestKey && BatchSizeKey != JitterXyzKey
  {
    assert SampleSizeKey[1] != SubsetTestKey[1] && BatchSizeKey[0] != JitterXyzKey[0];
  }

  /** The value `d[k]` has after `d = dict(subset_train='train', subset_test='val'); d.update(user)`. */
  function Merged(user: ParamMap, k: string): (v: Option<Value>)
    ensures v.Some? <==> k in user.vals || k == SubsetTrainKey || k == SubsetTestKey
  {
    if k in user.vals then Some(user.vals[k])
    else if k == SubsetTrainKey then Some(StrVal("train"))
    else if k == SubsetTestKey then Some(StrVal("val"))
    else None
  }

  /** `dict(subset_train='train', subset_test='val')` */
  function Defaults(): (m: ParamMap)
    ensures m.Valid() && m.keys == [SubsetTrainKey, SubsetTestKey]
    ensures m.vals == map[SubsetTrainKey := StrVal("train"), SubsetTestKey := StrVal("val")]
  {
    ReservedKeysDistinct();
    Empty().Put(SubsetTrainKey, StrVal("train")).Put(SubsetTestKey, StrVal("val"))
  }

  /** `p.update(...)` with the entries `keys`/`vals`, written in the order of `keys`. */
  function Update(p: ParamMap, keys: seq<string>, vals: map<string, Value>): (r: ParamMap)
    requires forall k :: k in keys ==> k in vals
    ensures p.Valid() ==> r.Valid()
    decreases |keys|
  {
    if keys == [] then p
    else
      var k := keys[|keys| - 1];
      Update(p, keys[..|keys| - 1], vals).Put(k, vals[k])
  }

  /** After the update, a key has the written value if it was written and its old value otherwise. */
  lemma {:induction false} UpdateEntries(p: ParamMap, keys: seq<string>, vals: map<string, Value>)
    requires forall k :: k in keys ==> k in vals
    ensures var r := Update(p, keys, vals);
      && (forall k :: k in r.vals <==> k in p.vals || k in keys)
      && (forall k :: k in r.vals ==> r.vals[k] == if k in keys then vals[k] else p.vals[k])
    decreases |keys|
  {
    if keys != [] {
      var init := keys[..|keys| - 1];
      UpdateEntries(p, init, vals);
      assert keys == init + [keys[|keys| - 1]];
    }
  }

  /** One more entry of the update. */
  lemma UpdateStep(p: ParamMap, keys: seq<string>, vals: map<string, Value>, i: nat)
    requires forall k :: k in keys ==> k in vals
    requires i < |keys|
    ensures Update(p, keys[..i + 1], vals) == Update(p, keys[..i], vals).Put(keys[i], vals[keys[i]])
  {
    assert keys[..i + 1][..i] == keys[..i];
  }

  /** Lines 55-57: `{} if not dataset_params else dataset_params`, then the defaults updated with it. */
  function MergedParams(user: ParamMap): (r: ParamMap)
    requires user.Valid()
    ensures r.Valid()
  {
    Update(Defaults(), user.keys, user.vals)
  }

  /** The merged dictionary holds the caller's value for every key it passed and the defaults for the
      two subset keys it did not pass. */
  lemma MergedParamsEntries(user: ParamMap)
    requires user.Valid()
    ensures forall k :: k in MergedParams(user).vals <==> Merged(user, k).Some?
    ensures forall k :: k in MergedParams(user).vals ==> Some(MergedParams(user).vals[k]) == Merged(user, k)
  {
    UpdateEntries(Defaults(), user.keys, user.vals);
  }

  /** Lines 59-62 (286-289): the builder's own entries. */
  function WithBuilderKeys(p: ParamMap, featDims: string, sampleSize: int, batchSize: int,
                           extraKey: string, extraValue: Value): (r: ParamMap)
    ensures p.Valid() ==> r.Valid()
    ensures forall k :: k in p.vals ==> k in r.vals
  {
    p.Put(FeatDimsKey, StrVal(featDims)).Put(SampleSizeKey, IntVal(sampleSize)).Put(BatchSizeKey, IntVal(batchSize))
     .Put(extraKey, extraValue)
  }

  /** The dictionary both copies are taken from. */
  function BuilderParams(user: ParamMap, featDims: string, sampleSize: int, batchSize: int,
                         extraKey: string, extraValue: Value): (r: ParamMap)
    requires user.Valid()
    ensures r.Valid() && SubsetTrainKey in r.vals && SubsetTestKey in r.vals
  {
    MergedParamsEntries(user);
    WithBuilderKeys(MergedParams(user), featDims, sampleSize, batchSize, extraKey, extraValue)
  }

  /** Lines 73-75 (303-305): the train copy names the train subset and drops both subset keys. */
  function TrainParams(p: ParamMap): (r: ParamMap)
    requires p.Valid() && SubsetTrainKey in p.vals && SubsetTestKey in p.vals
    ensures r.Valid()
  {
    ReservedKeysDistinct();
    p.Put(SubsetKey, p.vals[SubsetTrainKey]).Remove(SubsetTrainKey).Remove(SubsetTestKey)
  }

  /** Lines 78-83 (308-313): the test copy names the test subset, sets every jitter to 0.0 and drops
      both subset keys. */
  function TestParams(p: ParamMap): (r: ParamMap)
    requires p.Valid() && SubsetTrainKey in p.vals && SubsetTestKey in p.vals
    ensures r.Valid()
  {
    ReservedKeysDistinct();
    p.Put(SubsetKey, p.vals[SubsetTestKey]).Put(JitterXyzKey, FloatVal(0.0)).Put(JitterStretchKey, FloatVal(0.0))
     .Put(JitterRotationKey, FloatVal(0.0)).Remove(SubsetTrainKey).Remove(SubsetTestKey)
  }

  lemma TrainParamsEntries(p: ParamMap)
    requires p.Valid() && SubsetTrainKey in p.vals && SubsetTestKey in p.vals
    ensures var t := TrainParams(p).vals;
      && (forall k :: k in t <==> (k in p.vals || k == SubsetKey) && k != SubsetTrainKey && k != SubsetTestKey)
      && (forall k :: k in t ==> t[k] == if k == SubsetKey then p.vals[SubsetTrainKey] else p.vals[k])
  {
    var q := p.Put(SubsetKey, p.vals[SubsetTrainKey]);
    assert q.vals == p.vals[SubsetKey := p.vals[SubsetTrainKey]];
    TrainCopyEntries(p.vals, TrainParams(p).vals);
  }

  lemma TrainCopyEntries(p: map<string, Value>, t: map<string, Value>)
    requires SubsetTrainKey in p
    requires t == p[SubsetKey := p[SubsetTrainKey]] - {SubsetTrainKey} - {SubsetTestKey}
    ensures forall k :: k in t <==> (k in p || k == SubsetKey) && k != SubsetTrainKey && k != SubsetTestKey
    ensures forall k :: k in t ==> t[k] == if k == SubsetKey then p[SubsetTrainKey] else p[k]
  {
  }

  lemma TestParamsEntries(p: ParamMap)
    requires p.Valid() && SubsetTrainKey in p.vals && SubsetTestKey in p.vals
    ensures var t := TestParams(p).vals;
      && (forall k :: k in t <==> (k in p.vals || k == SubsetKey || IsJitterKey(k)) && k != SubsetTrainKey && k != SubsetTestKey)
      && (forall k :: k in t ==>
            t[k] == if k == SubsetKey then p.vals[SubsetTestKey] else if IsJitterKey(k) then FloatVal(0.0) else p.vals[k])
  {
    ReservedKeysDistinct();
    TestCopyEntries(p.vals, TestParams(p).vals);
  }

  /** Both copies, as lines 55-83 (partseg_seq, extra = ('category', category)) and lines 282-313
      (partseg_seq_combined_categories, extra = ('output_mask', renorm_class)) leave them. */
  lemma PreparedEntries(user: ParamMap, featDims: string, sampleSize: int, batchSize: int,
                        extraKey: string, extraValue: Value)
    requires user.Valid() && !Reserved(extraKey)
    ensures var p := BuilderParams(user, featDims, sampleSize, batchSize, extraKey, extraValue);
      && TrainEntries(user, TrainParams(p).vals, featDims, sampleSize, batchSize, extraKey, extraValue)
      && TestEntries(user, TestParams(p).vals, featDims, sampleSize, batchSize, extraKey, extraValue)
  {
    var merged := MergedParams(user);
    var p := BuilderParams(user, featDims, sampleSize, batchSize, extraKey, extraValue);
    MergedParamsEntries(user);
    assert p.vals == merged.vals[FeatDimsKey := StrVal(featDims)][SampleSizeKey := IntVal(sampleSize)]
                                [BatchSizeKey := IntVal(batchSize)][extraKey := extraValue];
    TrainParamsEntries(p);
    TestParamsEntries(p);
    TrainEntriesHold(user, merged.vals, p.vals, TrainParams(p).vals, featDims, sampleSize, batchSize, extraKey, extraValue);
    TestEntriesHold(user, merged.vals, p.vals, TestParams(p).vals, featDims, sampleSize, batchSize, extraKey, extraValue);
  }

  /** Lines 55-83 as the source runs them, updating the dictionary in place. */
  method PrepareParams(user: ParamMap, featDims: string, sampleSize: int, batchSize: int,
                       extraKey: string, extraValue: Value)
    returns (train: ParamMap, test: ParamMap)
    requires user.Valid()
    ensures train == TrainParams(BuilderParams(user, featDims, sampleSize, batchSize, extraKey, extraValue))
    ensures test == TestParams(BuilderParams(user, featDims, sampleSize, batchSize, extraKey, extraValue))
  {
    var merged := MergeDefaults(user);
    var params := SetBuilderKeys(merged, featDims, sampleSize, batchSize, extraKey, extraValue);
    assert params == BuilderParams(user, featDims, sampleSize, batchSize, extraKey, extraValue);
    train := TrainCopy(params);
    test := TestCopy(params);
  }

  /** What the train copy holds: the train subset under 'subset', no subset_train or subset_test, the
      builder's values for its own keys, and the caller's value for every other key it passed. */
  ghost predicate TrainEntries(user: ParamMap, t: map<string, Value>, featDims: string, sampleSize: int,
                               batchSize: int, extraKey: string, extraValue: Value)
  {
    && SubsetTrainKey !in t && SubsetTestKey !in t
    && SubsetKey in t && Some(t[SubsetKey]) == Merged(user, SubsetTrainKey)
    && BuilderValues(t, featDims, sampleSize, batchSize, extraKey, extraValue)
    && (forall k :: k in user.vals && !Overridden(k, extraKey) ==> k in t && t[k] == user.vals[k])
    && (forall k :: k in t ==> k in user.vals || Overridden(k, extraKey))
  }

  /** What the test copy holds: as the train copy but with the test subset, and every jitter 0.0. */
  ghost predicate TestEntries(user: ParamMap, t: map<string, Value>, featDims: string, sampleSize: int,
                              batchSize: int, extraKey: string, extraValue: Value)
  {
    && SubsetTrainKey !in t && SubsetTestKey !in t
    && SubsetKey in t && Some(t[SubsetKey]) == Merged(user, SubsetTestKey)
    && BuilderValues(t, featDims, sampleSize, batchSize, extraKey, extraValue)
    && JitterXyzKey in t && t[JitterXyzKey] == FloatVal(0.0)
    && JitterStretchKey in t && t[JitterStretchKey] == FloatVal(0.0)
    && JitterRotationKey in t && t[JitterRotationKey] == FloatVal(0.0)
    && (forall k :: k in user.vals && !Overridden(k, extraKey) && !IsJitterKey(k) ==> k in t && t[k] == user.vals[k])
    && (forall k :: k in t ==> k in user.vals || Overridden(k, extraKey) || IsJitterKey(k))
  }

  /** `params` is the caller's dictionary over the defaults, with the builder's keys written over it. */
  ghost predicate PreparedFrom(user: ParamMap, merged: map<string, Value>, params: map<string, Value>,
                               featDims: string, sampleSize: int, batchSize: int, extraKey: string, extraValue: Value)
  {
    && !Reserved(extraKey)
    && (forall k :: k in merged <==> Merged(user, k).Some?)
    && (forall k :: k in merged ==> Some(merged[k]) == Merged(user, k))
    && params == merged[FeatDimsKey := StrVal(featDims)][SampleSizeKey := IntVal(sampleSize)]
                       [BatchSizeKey := IntVal(batchSize)][extraKey := extraValue]
  }

  /** `test` is the test copy of `params`. */
  ghost predicate TestCopyOf(params: map<string, Value>, test: map<string, Value>)
  {
    && SubsetTestKey in params
    && (forall k :: k in test <==> (k in params || k == SubsetKey || IsJitterKey(k)) && k != SubsetTrainKey && k != SubsetTestKey)
    && (forall k :: k in test ==>
          test[k] == if k == SubsetKey then params[SubsetTestKey] else if IsJitterKey(k) then FloatVal(0.0) else params[k])
  }

  lemma TrainEntriesHold(user: ParamMap, merged: map<string, Value>, params: map<string, Value>,
                         train: map<string, Value>, featDims: string, sampleSize: int, batchSize: int,
                         extraKey: string, extraValue: Value)
    requires PreparedFrom(user, merged, params, featDims, sampleSize, batchSize, extraKey, extraValue)
    requires SubsetTrainKey in params
    requires forall k :: k in train <==> (k in params || k == SubsetKey) && k != SubsetTrainKey && k != SubsetTestKey
    requires forall k :: k in train ==> train[k] == if k == SubsetKey then params[SubsetTrainKey] else params[k]
    ensures TrainEntries(user, train, featDims, sampleSize, batchSize, extraKey, extraValue)
  {
    SameLengthKeysDistinct();
    forall k | k in user.vals && !Overridden(k, extraKey) ensures k in train && train[k] == user.vals[k] {
      assert Some(merged[k]) == Merged(user, k);
    }
  }

  lemma TestEntriesHold(user: ParamMap, merged: map<string, Value>, params: map<string, Value>,
                        test: map<string, Value>, featDims: string, sampleSize: int, batchSize: int,
                        extraKey: string, extraValue: Value)
    requires PreparedFrom(user, merged, params, featDims, sampleSize, batchSize, extraKey, extraValue)
    requires TestCopyOf(params, test)
    ensures TestEntries(user, test, featDims, sampleSize, batchSize, extraKey, extraValue)
  {
    TestBuilt(user, merged, params, test, featDims, sampleSize, batchSize, extraKey, extraValue);
    TestCarried(user, merged, params, test, featDims, sampleSize, batchSize, extraKey, extraValue);
  }

  lemma TestBuilt(user: ParamMap, merged: map<string, Value>, params: map<string, Value>,
                  test: map<string, Value>, featDims: string, sampleSize: int, batchSize: int,
                  extraKey: string, extraValue: Value)
    requires PreparedFrom(user, merged, params, featDims, sampleSize, batchSize, extraKey, extraValue)
    requires TestCopyOf(params, test)
    ensures SubsetTrainKey !in test && SubsetTestKey !in test
    ensures SubsetKey in test && Some(test[SubsetKey]) == Merged(user, SubsetTestKey)
    ensures BuilderValues(test, featDims, sampleSize, batchSize, extraKey, extraValue)
    ensures JitterXyzKey in test && test[JitterXyzKey] == FloatVal(0.0)
    ensures JitterStretchKey in test && test[JitterStretchKey] == FloatVal(0.0)
    ensures JitterRotationKey in test && test[JitterRotationKey] == FloatVal(0.0)
  {
    SameLengthKeysDistinct();
  }

  lemma TestCarried(user: ParamMap, merged: map<string, Value>, params: map<string, Value>,
                    test: map<string, Value>, featDims: string, sampleSize: int, batchSize: int,
                    extraKey: string, extraValue: Value)
    requires PreparedFrom(user, merged, params, featDims, sampleSize, batchSize, extraKey, extraValue)
    requires TestCopyOf(params, test)
    ensures forall k :: k in user.vals && !Overridden(k, extraKey) && !IsJitterKey(k) ==> k in test && test[k] == user.vals[k]
    ensures forall k :: k in test ==> k in user.vals || Overridden(k, extraKey) || IsJitterKey(k)
  {
    forall k | k in user.vals && !Overridden(k, extraKey) && !IsJitterKey(k) ensures k in test && test[k] == user.vals[k] {
      assert Some(merged[k]) == Merged(user, k);
    }
  }

  /** Lines 59-62 (286-289) as the source runs them. */
  method SetBuilderKeys(params: ParamMap, featDims: string, sampleSize: int, batchSize: int,
                        extraKey: string, extraValue: Value)
    returns (r: ParamMap)
    ensures r == WithBuilderKeys(params, featDims, sampleSize, batchSize, extraKey, extraValue)
  {
    r := params.Put(FeatDimsKey, StrVal(featDims));
    r := r.Put(SampleSizeKey, IntVal(sampleSize));
    r := r.Put(BatchSizeKey, IntVal(batchSize));
    r := r.Put(extraKey, extraValue);
  }

  /** Lines 73-75 (303-305) as the source runs them: copy, set 'subset', delete both subset keys. */
  method TrainCopy(params: ParamMap) returns (train: ParamMap)
    requires params.Valid() && SubsetTrainKey in params.vals && SubsetTestKey in params.vals
    ensures train == TrainParams(params)
  {
    ReservedKeysDistinct();
    train := params.Put(SubsetKey, params.vals[SubsetTrainKey]);
    train := train.Remove(SubsetTrainKey);
    train := train.Remove(SubsetTestKey);
  }

  /** Lines 78-83 (308-313) as the source runs them. */
  method TestCopy(params: ParamMap) returns (test: ParamMap)
    requires params.Valid() && SubsetTrainKey in params.vals && SubsetTestKey in params.vals
    ensures test == TestParams(params)
  {
    ReservedKeysDistinct();
    test := params.Put(SubsetKey, params.vals[SubsetTestKey]);
    test := test.Put(JitterXyzKey, FloatVal(0.0));
    test := test.Put(JitterStretchKey, FloatVal(0.0));
    test := test.Put(JitterRotationKey, FloatVal(0.0));
    test := test.Remove(SubsetTrainKey);
    test := test.Remove(SubsetTestKey);
  }

  /** Lines 55-57 as the source runs them: the defaults, then `dict.update` entry by entry in the
      caller's order. */
  method MergeDefaults(user: ParamMap) returns (params: ParamMap)
    requires user.Valid()
    ensures params == MergedParams(user)
  {
    params := Defaults();
    var i := 0;
    while i < |user.keys|
      invariant 0 <= i <= |user.keys|
      invariant params == Update(Defaults(), user.keys[..i], user.vals)
    {
      var k := user.keys[i];
      UpdateStep(Defaults(), user.keys, user.vals, i);
      params := params.Put(k, user.vals[k]);
      i := i + 1;
    }
    assert user.keys[..i] == user.keys;
  }

  predicate IsJitterKey(k: string)
  {
    k == JitterXyzKey || k == JitterStretchKey || k == JitterRotationKey
  }

  predicate Reserved(k: string)
  {
    k == FeatDimsKey || k == SampleSizeKey || k == BatchSizeKey || k == SubsetKey
    || k == SubsetTrainKey || k == SubsetTestKey || IsJitterKey(k)
  }

  ghost predicate BuilderValues(d: map<string, Value>, featDims: string, sampleSize: int, batchSize: int,
                                extraKey: string, extraValue: Value)
  {
    && FeatDimsKey in d && d[FeatDimsKey] == StrVal(featDims)
    && SampleSizeKey in d && d[SampleSizeKey] == IntVal(sampleSize)
    && BatchSizeKey in d && d[BatchSizeKey] == IntVal(batchSize)
    && extraKey in d && d[extraKey] == extraValue
  }

  lemma TestCopyEntries(p: map<string, Value>, t: map<string, Value>)
    requires SubsetTestKey in p
    requires t == p[SubsetKey := p[SubsetTestKey]][JitterXyzKey := FloatVal(0.0)][JitterStretchKey := FloatVal(0.0)]
                   [JitterRotationKey := FloatVal(0.0)] - {SubsetTrainKey} - {SubsetTestKey}
    ensures forall k :: k in t <==> (k in p || k == SubsetKey || IsJitterKey(k)) && k != SubsetTrainKey && k != SubsetTestKey
    ensures forall k :: k in t ==>
      t[k] == if k == SubsetKey then p[SubsetTestKey] else if IsJitterKey(k) then FloatVal(0.0) else p[k]
  {
    ReservedKeysDistinct();
  }

  /** Keys whose final value, or absence, the builder decides whatever the caller passed. */
  predicate Overridden(k: string, extraKey: string)
  {
    k == FeatDimsKey || k == SampleSizeKey || k == BatchSizeKey || k == SubsetKey || k == extraKey
    || k == SubsetTrainKey || k == SubsetTestKey
  }
}
