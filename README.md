# SPLATNet part-segmentation network builder

This project models the graph builder behind `partseg_seq` and `partseg_seq_combined_categories` in
`splatnet/partseg3d/models.py`. Both functions turn a compact architecture string into a network
specification:

- **Architecture string.** A string such as `"64_b128_c256"` lists one block per `_`-separated piece.
  A piece starting with `c` (or plain digits) is a 1x1 convolution; a piece starting with `b` is a
  bilateral (permutohedral) convolution.
- **Lattice list and input dimensions.** When there are bilateral blocks, the lattice argument is
  broadcast to one string per bilateral block. The input dimensions are then the feature dimensions
  followed by every lattice's dimensions, deduplicated.
- **Dataset parameters.** Two parameter dictionaries are built for the `shapenet` data layers, one
  for training and one for testing.
- **Input layers.** A deploy net gets fixed-shape input layers; a training net gets the train and
  test data layers. Both then get `data_feat`.
- **Block pass.** One pass over the tokens emits, for block `i`:
  - `conv{i}`,
  - `bn{i}` when batch normalisation is on,
  - `relu{i}`,
  - `data_lattice{k}` / `lattice{k}` for the first occurrences of each lattice string (later
    occurrences reuse the cached pair),
  - a skip merge (`gpool{i}`, then `add{i}` or `concat{i}`) when a skip spec targets `i`.

  It records every block's output in `last_in_block`.
- **Head.** The classifier `conv{n+1}` comes last, followed by either softmax (deploy) or the loss.
  `partseg_seq` adds the accuracy; the combined variant pools globally first.

The two builders are near copies. They are modelled once, with a `Variant` (`PartSeg` or `Combined`)
selecting the dataset settings, the data layers and the head.

The network is an insertion-ordered map from layer name to layer record. A record holds the layer
type, the parameters that vary between calls, and the ordered input names. Layer names are a datatype
(`Conv(i)`, `Bn(i)`, `DataLattice(k)`, ...). `Graph.NameTextInjective` proves that the name strings
the source builds (`'conv' + str(idx)`, ...) never collide, so this keying is faithful.

Every error the builder can raise before or during the block pass is modelled as a `Result` error
carrying the Python exception class, except those listed under "## Left out" (a std text `float()`
rejects, a filler `eval` rejects, a failing dictionary-value cast). The modelled errors are:

- a malformed architecture piece;
- a lattice argument of the wrong length;
- an unknown dataset or category;
- the gaussian-filler assertion;
- inconsistent skip options;
- a skip source that has not been built yet;
- the failing tuple unpack of the train data layer.

The code is modelled in its own style:

- **Pure functions.** The token parse (a comprehension), the lattice broadcast (branching) and the
  input-dimension dedup (a `reduce`).
- **Methods.** The block loop is `Blocks.BuildBlocks`, a `while` loop whose locals are the source's
  `n`, `lattices`, `last_in_block`, `idx`, `bltr_idx` and `top_prev`. The dictionary preparation
  (`DatasetParams.PrepareParams`) updates and deletes keys in place. The whole builder run step by
  step is `Builder.BuildNet`.

Each method is proved equal to a specification function (`Run`, `TrainParams`/`TestParams`, `Build`),
and the builder's promises are proved of those functions.

Two pieces of the surrounding package are not part of this model and enter as parameters:

- **`Builder.Channels`.** `parse_channel_scale` and `map_channel_scale` of `splatnet.utils` are
  function-valued parameters.
- **`Builder.Catalog`.** The tables `SN_CATEGORIES`, `SN_CATEGORY_NAMES` and `SN_NUM_PART_CATEGORIES`
  of `splatnet.configs` are a parameter.

`Builder.Build` is the builder with the correction described under Findings;
`Builder.BuildAsWritten` is the code as written.

## Model

| member | source | states |
|---|---|---|
| Arch.ParseToken | splatnet/partseg3d/models.py:22 | an empty piece raises IndexError; a parsed token is bilateral exactly when its piece starts with 'b'; a piece starting with 'b' or 'c' parses exactly when int() of the rest does, with that width; any other piece gives a convolution of int() of the whole piece; ValueError when int() fails |
| Arch.ParseTokens | splatnet/partseg3d/models.py:22 | the comprehension succeeds exactly when every piece parses, giving one token per piece in order; otherwise it fails with the error of some failing piece |
| Arch.CountBilateral | splatnet/partseg3d/models.py:23 | the number of bilateral tokens is at most the number of tokens |
| Arch.ParseArchPieces | splatnet/partseg3d/models.py:22 | every '_'-separated piece of the string becomes exactly one token, in order |
| Arch.ParseFormatArch | splatnet/partseg3d/models.py:22 | round trip: printing non-negative tokens as 'b<w>'/'<w>' joined by '_' and parsing gives the tokens back |
| Arch.ParseFormatToken | splatnet/partseg3d/models.py:22 | round trip for a single token |
| Arch.EmptyPieceFails | splatnet/partseg3d/models.py:22 | an architecture string with an empty piece (empty string, doubled or trailing '_') fails |
| Lattices.Broadcast | splatnet/partseg3d/models.py:25-31 | with k > 0 bilateral blocks: a single string, or a list of one, is repeated k times; a list of k strings is kept; a list of any other length raises AssertionError; None raises TypeError; success exactly in those cases, always of length k |
| Lattices.LatticeList | splatnet/partseg3d/models.py:25-31 | no bilateral blocks means no lattice normalisation and no error; otherwise the broadcast, of length k on success |
| Lattices.InputDims | splatnet/partseg3d/models.py:34-35 | the input dimensions have no duplicates, hold exactly the feature dimensions and every lattice's dimensions, and keep first-occurrence order |
| Lattices.DedupElements | splatnet/partseg3d/models.py:35 | the reduce keeps exactly the elements of its input |
| Lattices.DedupNoDuplicates | splatnet/partseg3d/models.py:35 | the reduce leaves no element twice |
| Lattices.DedupFirstOccurrenceOrder | splatnet/partseg3d/models.py:35 | the reduce orders elements by their first occurrence |
| Lattices.DedupDistinct | splatnet/partseg3d/models.py:35 | a list without duplicates is unchanged by the reduce |
| Lattices.FlattenElements | splatnet/partseg3d/models.py:34 | the concatenation of the lattice dimension lists holds exactly the elements of the lists |
| Lattices.FirstIndex | splatnet/partseg3d/models.py:50-52 | the first position of an element: it is there and not before |
| Text.JoinSplit | splatnet/partseg3d/models.py:22 | joining the pieces of a split gives the string back |
| Text.SplitJoin | splatnet/partseg3d/models.py:38 | splitting a join of separator-free pieces gives the pieces back |
| Text.SplitPrefix | splatnet/partseg3d/models.py:108 | splitting `p + sep + s` with separator-free `p` puts `p` before the pieces of `s` |
| Text.SplitAtFirstSep | splatnet/partseg3d/models.py:193 | the first piece of a split is the text before the first separator |
| Text.Str | splatnet/partseg3d/models.py:122 | str(n) is a non-empty run of digits |
| Text.StrInjective | splatnet/partseg3d/models.py:122 | two block indices give the same text only when equal |
| Text.DigitsValueStr | splatnet/partseg3d/models.py:122 | the digits of str(n) have value n |
| Text.ParseInt | splatnet/partseg3d/models.py:22 | int() only fails with ValueError |
| Text.ParseIntGrammar | splatnet/partseg3d/models.py:22 | int(s) succeeds exactly when s is whitespace, one or more digits after at most one leading '+' or '-', then whitespace, and then yields the signed decimal value of those digits |
| Text.LiteralAtSpan | splatnet/partseg3d/models.py:22 | a literal's bounds are where int() trims the surrounding whitespace |
| Text.ParseIntAt | splatnet/partseg3d/models.py:22 | int() of a string holding a literal is that literal's value |
| Text.ParseIntPaddedPlus | splatnet/partseg3d/models.py:22 | whitespace around the literal and a leading '+' are accepted: int(' +07 ') == 7 |
| Text.ParseIntStrayChar | splatnet/partseg3d/models.py:22 | a character that is not whitespace, a digit or a sign is a ValueError ('6x') |
| Text.ParseIntInnerSpace | splatnet/partseg3d/models.py:22 | whitespace between two non-blank characters is a ValueError ('1 2') |
| Text.ParseIntLateSign | splatnet/partseg3d/models.py:22 | a sign anywhere but first is a ValueError ('+-1', '1-') |
| Text.ParseIntNoDigit | splatnet/partseg3d/models.py:22 | a string without a digit is a ValueError: empty, all blank, a bare sign |
| Text.ParseIntDigits | splatnet/partseg3d/models.py:22 | int() of a run of digits is its decimal value, leading zeros allowed |
| Text.ParseIntMinusDigits | splatnet/partseg3d/models.py:22 | int() of '-' and digits is the negated value |
| Text.ParseIntStr | splatnet/partseg3d/models.py:194-208 | int(str(n)) == n, so a skip spec written with str(i) names block i |
| Text.ParseIntNegStr | splatnet/partseg3d/models.py:22 | int('-' + str(n)) == -n |
| Graph.NameTextInjective | splatnet/partseg3d/models.py:122-213 | distinct layer names have distinct name strings ('conv' + str(idx), 'data_lattice' + str(k), ...) |
| Graph.DropDigitsSuffix | splatnet/partseg3d/models.py:122-213 | a name string with a letter-final prefix keeps that prefix once its trailing digits are removed |
| OrderedMaps.OrderedMap.Put | splatnet/partseg3d/models.py:59-62 | `d[k] = v` keeps the map valid, sets the value, keeps a present key in place and appends a new one |
| OrderedMaps.OrderedMap.Remove | splatnet/partseg3d/models.py:75 | `del d[k]` keeps the map valid, drops the key from the values and from the order, the other keys keeping theirs |
| OrderedMaps.RemoveFirstElements | splatnet/partseg3d/models.py:75 | removing a key from a duplicate-free order leaves exactly the other keys, still distinct |
| DatasetParams.Merged | splatnet/partseg3d/models.py:55-57 | after `dict(subset_train='train', subset_test='val').update(user)` a key has the user's value, else the default, and exists exactly when the user or a default has it |
| DatasetParams.UpdateEntries | splatnet/partseg3d/models.py:57 | `update` gives exactly the keys of both, with the updating dictionary's values winning |
| DatasetParams.MergedParamsEntries | splatnet/partseg3d/models.py:55-57 | the merged dictionary holds exactly what Merged describes |
| DatasetParams.TrainParamsEntries | splatnet/partseg3d/models.py:73-75 | the train copy has 'subset' from 'subset_train', no subset_train/subset_test, and every other entry unchanged |
| DatasetParams.TestParamsEntries | splatnet/partseg3d/models.py:78-83 | the test copy has 'subset' from 'subset_test', the three jitter keys at 0.0, no subset_train/subset_test, and every other entry unchanged |
| DatasetParams.PreparedEntries | splatnet/partseg3d/models.py:55-83 | both copies: user values survive unless overridden by a builder key; feat_dims, sample_size, batch_size and the extra key ('category' or 'output_mask') hold the builder's values; 'subset' holds the merged subset_train (train) or subset_test (test); the test copy zeroes jitter |
| DatasetParams.TestCarried | splatnet/partseg3d/models.py:78-83 | the test copy holds every user entry not overridden, and nothing else but builder and jitter keys |
| DatasetParams.PrepareParams | splatnet/partseg3d/models.py:55-83 | the in-place dictionary preparation yields exactly the train and test parameter functions |
| DatasetParams.MergeDefaults | splatnet/partseg3d/models.py:56-57 | the update loop over the user's keys yields the merged dictionary |
| DatasetParams.SetBuilderKeys | splatnet/partseg3d/models.py:59-62 | the four assignments yield the builder-keyed dictionary |
| DatasetParams.TrainCopy | splatnet/partseg3d/models.py:73-75 | the copy, assignment and deletes yield the train parameters |
| DatasetParams.TestCopy | splatnet/partseg3d/models.py:78-83 | the copy, assignments and deletes yield the test parameters |
| Builder.Prepare | splatnet/partseg3d/models.py:22-43 | a malformed architecture fails first with its error; then the lattice list fails exactly when it cannot be broadcast; on success the tokens are the parse and there is one lattice string per bilateral block |
| Builder.Remapped | splatnet/partseg3d/models.py:37 | one rewritten lattice string per lattice string, in order |
| Builder.DimsFacts | splatnet/partseg3d/models.py:32-43 | with lattices: no duplicate input dimension, and exactly the feature and lattice dimensions; without: the feature dimensions as listed |
| Builder.IndexOf | splatnet/partseg3d/models.py:50-52 | `list.index`: the first position when present, ValueError otherwise |
| Builder.CategoryId | splatnet/partseg3d/models.py:49-50 | an id starting with '0' is kept; a name gives the id at its first position in the names, ValueError for an unknown name, IndexError past the id table |
| Builder.PartCount | splatnet/partseg3d/models.py:52 | the part count at the id's first position; ValueError for an unknown id, IndexError past the count table |
| Builder.DatasetSettings | splatnet/partseg3d/models.py:46-93 | any dataset but 'shapenet' raises ValueError; the combined variant sums all part counts and passes output_mask = renorm_class (lines 276-289); partseg_seq succeeds exactly when the category resolves and has a part count, passing its id as 'category' |
| Builder.Unpack | splatnet/partseg3d/models.py:99-100 | unpacking a layer of ntop tops into the names: TypeError for a count mismatch with zero or one top (Caffe returns the single top or the layer object, neither unpackable), ValueError for a count mismatch with two or more, otherwise the layer under the first name and its j-th top under the j-th |
| Builder.ConvFiller | splatnet/partseg3d/models.py:105-110 | 'xavier' and 'msra' name their filler, exactly the 'gauss_' strings give a gaussian whose std is the text between the first and second '_', anything else is evaluated |
| Builder.BltrFiller | splatnet/partseg3d/models.py:111-112 | succeeds exactly for 'gauss_' strings, with that std; AssertionError otherwise |
| Builder.Head | splatnet/partseg3d/models.py:219-230 | the head keeps the net valid |
| Builder.BuildNet | splatnet/partseg3d/models.py:20-230 | the builder executed step by step (dictionary preparation and block loop as methods) gives exactly Build |
| BuilderProps.DeployInputs | splatnet/partseg3d/models.py:96-97 | deploy: data is an input of shape [1, len(input_dims), 1, sample_size]; the combined variant with renorm_class adds label_mask of shape [1, nclass, 1, 1] (lines 329-332); data_feat picks the feature channels of data; no other layer |
| BuilderProps.TrainInputs | splatnet/partseg3d/models.py:98-102 | training: the input layers succeed exactly when the train layer has one top per unpacked name (TypeError for zero or one top, else ValueError); then data holds the train layer with the train parameters, each later name is its top of that position, test_data holds the test layer with its named tops, data_feat reads data, and there is no other layer |
| BuilderProps.InputNames | splatnet/partseg3d/models.py:96-102 | the input net is valid and has only input names |
| BuilderProps.AsWrittenTrainUnpackFails | splatnet/partseg3d/models.py:86-99 | as written, partseg_seq's non-deploy input layers raise ValueError |
| BuilderProps.TrainTopsMatch | splatnet/partseg3d/models.py:86-100 | the corrected top count matches the names unpacked, so the input layers always succeed, and the combined variant's count is the one written at line 317 |
| BuilderProps.HeadFrame | splatnet/partseg3d/models.py:219-230 | the head only adds layers, all with head names |
| BuilderProps.HeadLayers | splatnet/partseg3d/models.py:219-230 | conv{idx} reads the last top with nclass outputs; gpool_final exactly in the combined variant (lines 465-467); prob exactly for deploy, a softmax on conv{idx} or gpool_final; loss exactly when training, on label (partseg_seq, with accuracy) or category_labels (combined, no accuracy) |
| Skips.SkipTargets | splatnet/partseg3d/models.py:193-196 | the split specs whose first field is str(idx), each from some spec, and every such spec included |
| Skips.SkipTargetsOne | splatnet/partseg3d/models.py:193-196 | a single spec is kept, split on '_', exactly when its first field is str(idx) |
| Skips.SkipTargetsAppend | splatnet/partseg3d/models.py:193-196 | the targets of a + b are those of a followed by those of b: spec order and repeats are kept, which with SkipTargetsOne fixes the result for every list |
| Skips.SkipTargetsKeepOrder | splatnet/partseg3d/models.py:193-212 | '4_2', '4_1', '4_1' give the targets 4_2, 4_1, 4_1 in that order, so conv4's merge reads block 2's output, then block 1's twice |
| Skips.TargetOfPair | splatnet/partseg3d/models.py:193-196 | the spec '4_c' targets block 4 with the fields '4' and c |
| Skips.SkipOption | splatnet/partseg3d/models.py:197-200 | no option exactly when every spec has two fields; an option exactly when every spec has a third field equal to the first spec's, which is returned; otherwise AssertionError or IndexError |
| Skips.ThirdFieldsAgree | splatnet/partseg3d/models.py:200 | the `all(...)` holds exactly when every later spec has a third field equal to the first's |
| Skips.MergeSources | splatnet/partseg3d/models.py:208-212 | the merge sources resolve exactly when every spec's second field parses to a recorded block, giving those blocks' outputs in spec order |
| Blocks.ConvLayer | splatnet/partseg3d/models.py:121-181 | the conv step of one block is exactly EmitConv |
| Blocks.NormRelu | splatnet/partseg3d/models.py:183-188 | the bn/relu step of one block is exactly EmitNormRelu |
| Blocks.SkipMerge | splatnet/partseg3d/models.py:190-213 | the skip step of one block is exactly EmitMerge |
| Blocks.BuildBlocks | splatnet/partseg3d/models.py:116-216 | the block loop gives exactly Run over the tokens from the initial state |
| Blocks.StepConvFails | splatnet/partseg3d/models.py:129 | a failing conv step ends the pass with its error |
| Blocks.StepMergeFails | splatnet/partseg3d/models.py:193-212 | a failing merge ends the pass with its error |
| BlockProps.StepFacts | splatnet/partseg3d/models.py:120-216 | one block keeps the invariant (block layers only for earlier blocks; the cache holds the distinct lattice strings met so far with their layers) and emits what BlockEmitted describes |
| BlockProps.RunFacts | splatnet/partseg3d/models.py:116-216 | the pass keeps the invariant, advances idx by the token count and bltr_idx by the bilateral count, only adds layers, keeps earlier last_in_block entries, and emits every block as BlocksEmitted describes |
| BlockProps.EmitConvFacts | splatnet/partseg3d/models.py:121-181 | conv{i} is a convolution of the token's width on the top, or a permutohedral layer reading its own lattice string's data_lattice twice, plus the cached lattice on a later occurrence; a first occurrence of a repeated string emits lattice{k} as the second top |
| BlockProps.NormReluFacts | splatnet/partseg3d/models.py:183-188 | bn{i} exists exactly when batchnorm, on conv{i}; relu{i} reads the layer before it |
| BlockProps.MergeFacts | splatnet/partseg3d/models.py:190-215 | no skip target: no merge layer and last_in_block[i] = relu{i}; otherwise gpool{i} exactly for option 'g', add{i} (SUM) for option 'a' else concat{i}, reading the current top then each source in spec order, and last_in_block[i] is the merge |
| BlockProps.ReuseFacts | splatnet/partseg3d/models.py:130-143 | a lattice string met before: conv{i} reads the cached data_lattice twice and the cached lattice, the cache is unchanged, and the lattice layers still follow the distinct strings met so far |
| BlockProps.NewLatticeFacts | splatnet/partseg3d/models.py:144-179 | a new lattice string: conv{i} reads the new data_lattice{k} (picking that string's channels from data) twice, the cache gains the string, and lattice{k} is conv{i}'s second top exactly when the string occurs more than once |
| BlockProps.AllLatticesSeen | splatnet/partseg3d/models.py:128-181 | after all bilateral blocks: one data_lattice per distinct lattice string in first-occurrence order, picking that string's channels from data, and lattice{k} exactly for the strings that occur more than once |
| BlockProps.MergeOutput | splatnet/partseg3d/models.py:215 | last_in_block[i] is relu{i}, add{i} or concat{i} as block i's skip specs decide |
| BlockProps.BlocksMerged | splatnet/partseg3d/models.py:215 | every block of the pass records the output its skip specs decide |
| BlockProps.RunTop | splatnet/partseg3d/models.py:215-216 | after a non-empty pass the top is the recorded output of the last block |
| BlockProps.RunNames | splatnet/partseg3d/models.py:120-216 | the pass only adds block and lattice layers |
| BlockProps.RunFresh | splatnet/partseg3d/models.py:120-216 | block layers exist only for the blocks before the final idx |
| BlockProps.MergeOkIff | splatnet/partseg3d/models.py:193-213 | the merge into block i succeeds exactly when its skip specs have consistent options and every source parses to an earlier block |
| BlockProps.SourcesOkIff | splatnet/partseg3d/models.py:208-212 | the sources resolve exactly when they parse to already-built blocks 1 to i-1 |
| BlockProps.StepOkIff | splatnet/partseg3d/models.py:120-216 | a block with a lattice string available succeeds exactly when its merge is possible |
| BlockProps.RunOkIff | splatnet/partseg3d/models.py:120-216 | a pass with enough lattice strings completes exactly when the merge into every block is possible |
| BuildProps.PassPost | splatnet/partseg3d/models.py:116-216 | the pass from the input net keeps the invariant and emits every block |
| BuildProps.PassOutputs | splatnet/partseg3d/models.py:116-216 | after the pass idx is n+1, last_in_block maps each block to its output, and the top is the last block's output, or data_feat with no blocks |
| BuildProps.PassNames | splatnet/partseg3d/models.py:116-216 | after the pass the net holds only input, block and lattice layers, and no conv{n+1} |
| BuildProps.BuildBlocks | splatnet/partseg3d/models.py:116-216 | in the built net, blocks 1 to n each emit their conv, bn exactly when batchnorm, relu and merge, fed by the previous block's output (data_feat for block 1), and the only other block layer is conv{n+1} |
| BuildProps.BuildHead | splatnet/partseg3d/models.py:218-230 | in the built net the classifier conv{n+1} has nclass outputs on the last block's output, then the head as HeadLayers describes |
| BuildProps.BuildLattices | splatnet/partseg3d/models.py:128-181 | in the built net there is one data_lattice per distinct lattice string, and lattice{k} exactly for the repeated ones |
| BuildProps.BuildInputs | splatnet/partseg3d/models.py:96-102 | the input layers of the built net are exactly those of the plan, unchanged |
| BuildProps.BuildNames | splatnet/partseg3d/models.py:20-230 | every layer of the built net is an input, block, lattice or head layer |
| BuildProps.BuildErrors | splatnet/partseg3d/models.py:22-112 | the checks in source order: parse error, lattice error, unknown dataset (ValueError), unknown category, the unpack (TypeError for zero or one top, else ValueError), non-gaussian bilateral filler (AssertionError); the plan is made exactly when all pass |
| BuildProps.PlanFacts | splatnet/partseg3d/models.py:22-112 | a plan comes from a parsed architecture, a shapenet dataset and a gaussian bilateral filler, with one lattice per bilateral block, the arguments' block settings and the variant's class count |
| BuildProps.PlanDataParams | splatnet/partseg3d/models.py:55-100 | the train and test data layers receive the prepared dictionaries as PreparedEntries states, with 'category' = the category id or 'output_mask' = renorm_class |
| BuildProps.BuildCompletes | splatnet/partseg3d/models.py:116-216 | once the plan is made, the build completes exactly when the merge into every block is possible |
| BuildProps.NoSkipsCompletes | splatnet/partseg3d/models.py:191-192 | with no skip specs (None or empty) every plan completes |
| BuildProps.BuildAsWrittenFails | splatnet/partseg3d/models.py:86-99 | as written, every non-deploy partseg_seq build that gets past the dataset settings raises ValueError |
| BuildProps.BuildAsWrittenAgrees | splatnet/partseg3d/models.py:316-338 | the correction changes nothing for the combined variant or for deploy |
| BuildProps.PlanIgnoresTops | splatnet/partseg3d/models.py:96-97 | a deploy net does not depend on the train layer's top count |

## Left out

- Caffe itself is not modelled: `NetSpec`, the layer constructors, `to_proto` and the
  `create_prototxt`/`get_prototxt`/`save_path` output are a foreign library plus file I/O. The net is
  the ordered map described above.
- The fixed layer parameters are implied by the layer type, not stored: kernel size, stride, pad,
  bias fillers, learning-rate and decay multipliers, group, bias term, normalisation and offset type.
- `parse_channel_scale` and `map_channel_scale` (splatnet.utils) are not part of this model. They are
  the function parameters of `Builder.Channels`.
- The splatnet.configs tables are not part of this model. They are the `Builder.Catalog` parameter.
- `eval` of an unrecognised convolution filler (lines 110, 348) is not modelled: the string is kept
  as `Evaluated(expr)`.
- The gaussian std is kept as the text `float()` would read (lines 108, 112, 346, 350). A std text that
  `float()` rejects is not modelled as an error.
- The `float`/`int`/`bool` casts of dictionary values (lines 64-70, 291-300) are not modelled. Values
  are kept as given, because the conversions are numeric and depend on the value's runtime type.
- `ReLU(in_place=True)` is recorded as a ReLU layer named `relu{i}`. The in-place blob sharing is a
  Caffe matter.
- `Text.ParseInt`: Python's `int()` is modelled for ASCII whitespace, an optional sign and ASCII
  digits. Underscores between digits and non-ASCII digits are not modelled. No piece that reaches
  `int()` here can hold an underscore, because every piece comes from `split('_')`.
- Line 469 sets `renorm_class = False` before the head, so lines 470-477 never run. The model has
  only the branch that runs, and the ProbRenorm/LogLoss head is not modelled.
- What the emitted layers compute (permutohedral filtering, batch normalisation, softmax, pooling)
  lives in the framework's compiled library and is not modelled.
- `Builder.Head`: its own contract only states validity. The wiring it promises is `BuilderProps.HeadLayers`.
- `Arch.CountBilateral`: its own contract only bounds the count. Its value is pinned by the pass
  lemmas (`BlockProps.RunFacts`).

## Findings

| source | as written | input that shows it | evidently intended | confidence | as-written member | corrected member |
|---|---|---|---|---|---|---|
| splatnet/partseg3d/models.py:86-99 | partseg_seq creates the train data layer with `ntop=3` but unpacks it into two names (`n.data, n.label = datalayer_train`), which raises ValueError | any non-deploy `partseg_seq` call on 'shapenet' with a known category, e.g. the defaults with `deploy=False` | a train layer with two tops, data and label, matching the test layer's `top=['data', 'label']` at line 89 | not executed | BuildProps.BuildAsWrittenFails | BuilderProps.TrainTopsMatch |
