# GSRNet, at the level of shapes

A Dafny model of the discrete structure of GSRNet, a guided thermal super-resolution network. A
low-resolution thermal map is resized to the size of a visible-light guide image. Both go down a
U-Net of L scales in two streams. At every scale a windowed cross-attention block fuses the two
streams into a skip connection. On the way up, the skips are concatenated back in reverse order.
The network adds a tanh-bounded single-channel correction to the resized input.

Tensors are modelled by their shape, (B, C, H, W) for a feature map and (B_, N, C) for a window
batch, and by a symbolic dataflow term (`Tensors.Node`) that records which inputs and which
sub-modules produced them. Every layer is a shape transformer that can fail with the error torch or
the model raises. With this, the model states:

- the constructor's validation, in the order the source raises;
- how many layers of each kind the constructor builds, and how their channels pair up;
- the shape checks of the cross-attention;
- the channel layout of the head split and the head merge;
- the sequencing of a cross-attention block: partition, attention, feed-forward, merge, a single
  backward half-window shift, and again;
- the halving and doubling of the spatial size across scales;
- the last-in-first-out skip stack of the forward pass;
- that the attention output reaches only the skips and the bottleneck, never the descending streams.

The second part is the checkpoint key remapping of the evaluation script. It keeps only the entries
whose name starts with `"module."`. It renames each kept entry with Python's `str.replace`, which
removes every non-overlapping occurrence in one left-to-right pass. It carries the values over under
the new names in dict-insertion order, so a later entry wins over an earlier one of the same name.

Modules:

| module | content |
|---|---|
| `Wrappers` | `Option` and `Result` |
| `Arithmetic` | shared facts about multiplication and division |
| `Tensors` | shapes, dataflow terms and errors |
| `Layers` | torch layers and tensor operations as shape transformers |
| `WindowGeometry` | the window helpers, as shapes |
| `HeadLayout` | index maps of the head split and merge |
| `Attention` | `WindowCrossAttention` and `FeedForward` |
| `ConvBlocks` | `ConvBlock` |
| `CrossAttentionBlocks` | `CrossAttentionBlock` |
| `Network` | the configuration, the constructor's plan, the class `GSRNet` and its forward pass |
| `NetworkProofs` | shape and provenance lemmas about the whole network |
| `Checkpoint` | the key remapping |

`GSRNet` is a class. Its constructor fills one sequence field per `nn.ModuleList`, each with its own
loop. `Forward` runs the downward loop, which pushes a skip per scale, and the upward loop, which pops
the skips. Each method is proved equal to a specification function (`Plan`, `DownFrom`, `UpFrom`,
`Prediction`). The lemmas in `NetworkProofs` are about those functions. The key remapping is a
`for` loop over the checkpoint's items, proved equal to the function `Remapped`.

In these places the code behaves as follows, and the model with it:

- Keys without the `"module."` prefix are dropped, not passed through (eval.py:24).
- Unequal per-scale lists raise through an `assert` (model.py:166).
- Empty per-scale lists fail with an `IndexError` at model.py:168, before any other check.
- With zero heads, the divisibility test at model.py:36 divides by zero.
- The upsample mode is checked only when there is an upsampling step, at L >= 2 (model.py:190-191).

`CrossAttentionBlocks.GuideSizeNotChecked` follows from the code together with the shapes the model
gives the window helpers. A cross-attention block merges both streams back at the image size of x
(model.py:106, 115, 128). If `window_merge` derives its batch as the window count divided by the
tiles of the requested size, as modelled here, then a guide of another size cut into the same number
of windows passes and comes back reshaped to x's size. Whether the real `window_merge` derives its
batch this way is not modelled. Inside GSRNet both streams always have the same size, so this does not surface
there.

## Model

| member | source | states |
|---|---|---|
| Layers.ConvSize | model.py:136-141 | a convolution succeeds iff kernel <= size + 2·padding, and its output size n satisfies (n-1)·stride <= size + 2p - k < n·stride (floor division) |
| Layers.PoolSize | model.py:170-171 | max pooling succeeds iff kernel <= size, with the floor output size |
| Layers.TransposedSize | model.py:203 | a transposed convolution's output size is (size-1)·stride + kernel, and it succeeds iff that is positive |
| Layers.ApplyLayer | model.py:147-148 | a layer that succeeds keeps the batch and records itself as the last step of the dataflow term |
| Layers.StackPrefix | model.py:145-149 | the first k layers of a module keep the batch and record exactly k applications of that module |
| Layers.StackForward | model.py:145-149 | a module that succeeds keeps the batch and records each of its layers once, in order |
| Layers.StackFailureSticks | model.py:147-148 | once a layer refuses its input, the whole module fails with that error |
| Layers.StackedProvenance | model.py:147-148 | layers of one module add no attention and no shift, and extend the stream's own trail by that module k times |
| Layers.Resized | model.py:211 | F.interpolate succeeds iff input and requested size both have rows and columns, else fails with InputTooSmall; it keeps batch and channels and takes the requested height and width |
| Layers.BroadcastDim | model.py:221 | one dimension broadcasts iff the sizes are equal or one is 1, and the result is the non-1 size (either side) |
| Layers.Broadcast | model.py:241 | maps of equal shape combine elementwise at that shape |
| Layers.Maximum | model.py:221 | torch.max of two maps of one shape succeeds at that shape |
| Layers.Sum | model.py:241 | the residual sum of two maps of one shape succeeds at that shape |
| Layers.Concatenated | model.py:235 | torch.cat on dim 1 succeeds iff batch, height and width agree; the result has a's batch, height and width, the sum of the channel counts, and both inputs as its term |
| Layers.Tanhed | model.py:239 | tanh keeps the shape |
| WindowGeometry.Tiles | model.py:107 | the number of windows of one image times the window's element count is H·W |
| WindowGeometry.WindowPartition | model.py:107-108 | partition succeeds iff the window tiles H and W exactly; then B_·N = B·H·W, N = wh·ww and C is kept |
| WindowGeometry.WindowMerge | model.py:114-115 | merge succeeds iff the window tiles the target size, N = wh·ww and B_ is a multiple of the tile count; then the map has the target H, W and the batch B_/tiles |
| WindowGeometry.HalfWindowShift | model.py:117-118 | the half-window shift keeps the shape |
| WindowGeometry.MergeRestoresShape | model.py:106-115 | any window batch of the shape a map partitions into merges back, at that map's size, to that map's shape |
| WindowGeometry.MergeAfterPartition | model.py:107-114 | partition then merge at the map's own size gives the map's shape back |
| WindowGeometry.PartitionAfterMerge | model.py:114-120 | merge then partition gives back the window batch's shape |
| Attention.WindowCrossAttention.HeadDim | model.py:49 | C // heads times heads is C, for a constructed attention |
| Attention.NewWindowCrossAttention | model.py:36-37 | construction succeeds iff heads > 0 and heads divides C; zero heads raise ZeroDivisionError, otherwise a non-divisor raises ValueError |
| Attention.AttentionForward | model.py:39-77 | differing (B_, N, C) raise first, then C other than the configured count; success iff shapes match, C matches and the position bias fits N; each output keeps its stream's shape, and output 1 attends from x to y, output 2 from y to x |
| Attention.FeedForwardApply | model.py:87-93 | the feed-forward layer accepts exactly its channel count and keeps the shape |
| Attention.ShippedHeadsDivide | model.py:36-37 | 8 heads divide 64, 128 and 256 channels, with 8, 16 and 32 channels per head |
| HeadLayout.QkvChannel | model.py:49 | the channel the reshape to (3, heads, C/heads) reads at (part, head, slot) lies among the 3C qkv channels |
| HeadLayout.SplitChannel | model.py:49-50 | every qkv channel unravels to a valid (part, head, slot) |
| HeadLayout.SplitOfQkv | model.py:49-53 | channel s·C + h·(C/H) + d goes to part s, head h, slot d |
| HeadLayout.QkvOfSplit | model.py:49-53 | every qkv channel is read back at the place it unravels to, so the split is a bijection |
| HeadLayout.MergeOfSplit | model.py:65-66 | channel c of one part goes to a head and slot that the merge returns to channel c |
| HeadLayout.SplitHeads | model.py:49-50 | the split row of one window element is 3 parts of heads vectors of C/heads values |
| HeadLayout.MergeHeads | model.py:65-66 | the merged row has heads·(C/heads) values |
| HeadLayout.MergeHeadsPlaces | model.py:65-66 | head h, slot d of the merge is channel h·(C/heads) + d |
| HeadLayout.SplitHeadsPlaces | model.py:49-53 | each value of the qkv row appears at the part, head and slot its channel unravels to |
| HeadLayout.MergeAfterSplit | model.py:49-66 | splitting a qkv row and merging one part's heads gives back that part's C values, in their order |
| HeadLayout.MergedChannel | model.py:65-66 | channel c of the merge of part s holds qkv value s·C + c |
| ConvBlocks.Repeated | model.py:139-143 | the layer list grows by the stage's length per repetition |
| ConvBlocks.NewConvBlock | model.py:133-143 | the constructor's loop appends exactly the layer list ConvBlockLayers describes |
| ConvBlocks.ConvBlockForward | model.py:145-149 | the forward loop equals applying the layers in order, stopping at the first that refuses its input |
| ConvBlocks.ConvBlockLayout | model.py:136-141 | without a norm layer, num_layers >= 1 gives 2·num_layers-1 layers: conv in→hidden, then LeakyReLU and conv hidden→hidden alternately |
| ConvBlocks.ConvBlockLayoutWithNorm | model.py:136-143 | with a norm layer, every convolution is followed by it: 3·num_layers-1 layers |
| ConvBlocks.ConvBlockHiddenTail | model.py:136-143 | the first layer maps in→hidden, and every later layer is LeakyReLU, the norm layer or conv hidden→hidden, for any num_layers |
| ConvBlocks.ConvBlockTailUpTo | model.py:139-143 | the same after any number of loop iterations |
| ConvBlocks.ConvBlockWellFormed | model.py:136-141 | every layer of a ConvBlock has a positive stride |
| ConvBlocks.HiddenPrefix | model.py:145-148 | on a map with the input channel count and a non-empty image, every prefix of the block succeeds at (B, hidden, H, W) |
| ConvBlocks.ConvBlockShape | model.py:132-149 | a ConvBlock succeeds iff C = in and H, W > 0; it then outputs (B, hidden, H, W), and its term is its layers in order |
| CrossAttentionBlocks.NewCrossAttentionBlock | model.py:96-103 | the block builds iff its attention does, with the first attention's error, and holds two attentions and two feed-forward layers for its window and channels |
| CrossAttentionBlocks.BlockSucceedsIff | model.py:105-130 | the block succeeds iff the window tiles both maps, both have the block's channels and both cut into equally many windows; both outputs then have x's shape, and their terms are the two passes in order |
| CrossAttentionBlocks.BlockForward | model.py:104-130 | the block's forward pass; what it does is stated by BlockSucceedsIff, BlockKeepsShape, BlockTrail and BlockShiftsOnce |
| CrossAttentionBlocks.BlockKeepsShape | model.py:105-130 | both outputs of a block that succeeds have the shape of x |
| CrossAttentionBlocks.GuideSizeNotChecked | model.py:105-128 | a y of another shape with the same window count passes, and comes back at x's shape |
| CrossAttentionBlocks.PassProvenance | model.py:107-115 | one pass adds its attention and its feed-forward layer to the stream's own trail, and mixes the shifts of both streams |
| CrossAttentionBlocks.BlockTrail | model.py:110-125 | each stream passes attention 1, feed_forward1, attention 2 and feed_forward2 in that order; the same feed-forward instances serve both streams |
| CrossAttentionBlocks.BlockShiftsOnce | model.py:117-128 | from unshifted inputs, every path to either output crosses exactly one backward half-window shift, and none forward |
| Network.BlocksError | model.py:184-186 | the attention blocks from index `from` on build iff heads > 0 and divide every channel count; otherwise they fail with ZeroHeads or HeadsNotDivisor |
| Network.ConfigError | model.py:166-208 | GSRNet(...) raises nothing exactly for the configurations WellConfigured describes |
| Network.UpsampleLayer | model.py:201-208 | get_upsample_layer with the bilinear branch built as evidently intended: succeeds iff the mode is 'conv_transpose' or 'bilinear', and otherwise raises ValueError |
| Network.UpsampleLayerAsWritten | model.py:201-208 | get_upsample_layer as written: only 'conv_transpose' builds, 'bilinear' raises the TypeError of nn.Sequential, any other mode ValueError; where it builds, it builds what UpsampleLayer does |
| Network.ConfigErrorAsWritten | model.py:166-208 | GSRNet(...) as written raises nothing exactly for a well-configured network that has one scale or uses 'conv_transpose'; it differs from ConfigError only by the TypeError of a bilinear network |
| Network.Plan | model.py:153-196 | the layers the constructor builds, field by field; their counts and channel pairing are stated by PlanCounts and PlanChannelPairing |
| Network.PlanWellFormed | model.py:168-196 | the layers the constructor builds have matching list lengths and can all run |
| Network.Fused | model.py:220-221 | a block followed by the elementwise maximum of its outputs; FusedValue and FusedShape state its result |
| Network.DownStep | model.py:219-225 | one downward iteration pushes exactly one skip and keeps the earlier ones |
| Network.DownFrom | model.py:218-225 | the downward loop from scale i pushes one skip per remaining scale |
| Network.Descent | model.py:214-225 | the first ConvBlocks and the downward loop leave L-1 skips |
| Network.DownwardPath | model.py:214-228 | the downward path leaves L-1 skips beside the deepest fusion |
| Network.UpStep | model.py:233-236 | one upward iteration: upsample, concatenate res_list[-i-1], convolve; UpStepShape states its shapes |
| Network.UpwardPath | model.py:230-239 | the upward part of forward ends in tanh |
| Network.Prediction | model.py:210-241 | the result of forward is the resized input plus a tanh term; PredictionShape and EmptyInputRefused state when it succeeds and at which shape |
| Network.DownPools | model.py:169-171 | the loop builds k max poolings of kernel 2 and stride 2 |
| Network.DownConvBlocks | model.py:172-174 | the loop builds L-1 down ConvBlocks, the i-th from channels[i] to channels[i+1] |
| Network.FusionBlocks | model.py:184-186 | the loop builds L attention blocks, the i-th for channels[i] |
| Network.UpSamplers | model.py:189-191 | the loop over i = L-2 down to 0 builds, as up step L-2-i, the upsampler from channels[i+1] to channels[i] |
| Network.UpConvBlocks | model.py:192-194 | the loop builds, as up step L-2-i, the ConvBlock from 2·channels[i] to channels[i] |
| Network.GSRNet.constructor | model.py:153-196 | for a configuration that raises nothing, the object's fields are exactly the layers Plan describes |
| Network.GSRNet.Forward | model.py:210-241 | forward equals Prediction: resize (which refuses an empty size), downward path, upward path, residual sum |
| Network.GSRNet.Encode | model.py:214-228 | the downward part of forward equals DownwardPath |
| Network.GSRNet.Descend | model.py:214-225 | the first ConvBlocks and the downward loop equal Descent |
| Network.GSRNet.Decode | model.py:230-239 | the upward part of forward equals UpwardPath |
| Network.GSRNet.Downward | model.py:218-225 | the downward loop, with its pushes onto res_list, equals DownFrom |
| Network.GSRNet.Upward | model.py:233-236 | the upward loop, with its reads of res_list[-i-1], equals UpFrom |
| Network.Build | model.py:153-208 | construction fails exactly with the error ConfigError names, and otherwise yields a fresh valid network for the configuration |
| NetworkProofs.ConfigErrorCauses | model.py:166-208 | each constructor error is raised exactly when its check is the first to fail: list lengths, empty lists, zero heads, non-divisor heads, unknown mode (only at L >= 2) |
| NetworkProofs.SingleScaleIgnoresMode | model.py:189-191 | a single-scale network never reads the upsample mode |
| NetworkProofs.PlanCounts | model.py:168-194 | for L scales: per stream L-1 pools (2, 2) and L-1 down ConvBlocks; L attention blocks, L-1 upsamplers and L-1 up ConvBlocks |
| NetworkProofs.PlanChannelPairing | model.py:173-194 | down ConvBlock i maps channels[i]→channels[i+1]; up step i upsamples channels[L-1-i]→channels[L-2-i], and its ConvBlock expects channels[L-2-i] + channels[L-2-i] |
| NetworkProofs.UpsampleDoubles | model.py:201-206 | either upsampler succeeds iff C = in and H, W > 0, and doubles H and W with the output channels |
| NetworkProofs.DoubledIsProduct | model.py:222-223 | halving at each step down means scale i is the deepest size times 2^(L-1-i) |
| NetworkProofs.DoubledMultiple | model.py:222-223 | doubling keeps a multiple of the window a multiple of it |
| NetworkProofs.ScaleFits | model.py:220 | the window tiles every scale of a guide sized unit·2^(L-1) |
| NetworkProofs.ScaleHalves | model.py:222-223 | each scale is twice the next deeper one in height and width |
| NetworkProofs.FusedShape | model.py:220-221 | the fusion at scale i of two maps of that scale succeeds at that shape, with the maximum of the block's outputs as its term |
| NetworkProofs.DownStepShape | model.py:219-225 | one downward iteration takes both streams from scale i to scale i+1 and pushes a skip of scale i |
| NetworkProofs.StreamDescends | model.py:222-225 | pooling and the down ConvBlock take one stream from scale i to scale i+1, through exactly those layers |
| NetworkProofs.SkipsExtend | model.py:221 | pushing a skip of the next scale keeps skip j at scale j |
| NetworkProofs.PlanDownStepsScale | model.py:219-225 | every downward iteration of the built network takes scale j to scale j+1 |
| NetworkProofs.DownShapeStep | model.py:219-225 | one iteration of the downward loop hands the rest of the loop a state of the next scale |
| NetworkProofs.DownShape | model.py:218-225 | the downward loop runs to the deepest scale, with skip j at scale j |
| NetworkProofs.UpStepShape | model.py:233-236 | up step i takes the map from scale L-1-i to scale L-2-i: upsampling, concatenation with the popped skip and ConvBlock all succeed |
| NetworkProofs.IterateKeeps | model.py:233-236 | a loop whose every step keeps an invariant runs to the end and ends in it |
| NetworkProofs.PlanUpStepsScale | model.py:233-236 | every upward iteration of the built network keeps "before step j the map is at scale L-1-j" |
| NetworkProofs.UpShape | model.py:233-236 | the upward loop from the deepest scale succeeds and ends at the first scale's shape |
| NetworkProofs.UnitOf | model.py:211 | a guide size that is a multiple of window·2^(L-1) is unit·2^(L-1), for a multiple unit of the window |
| NetworkProofs.DownwardPathShape | model.py:214-228 | from inputs at the first scale, the downward path succeeds with the deepest fusion at the deepest scale and skip j at scale j |
| NetworkProofs.TopDownShape | model.py:215-216 | the first ConvBlock of a stream takes 1 or 3 channels to channels[0] at the same size |
| NetworkProofs.UpwardPathShape | model.py:230-239 | the upward path succeeds with one channel at the first scale's size, ending in tanh |
| NetworkProofs.BottomUpShape | model.py:231 | the bottom ConvBlock keeps the deepest scale's shape |
| NetworkProofs.ProjectionShape | model.py:238 | the 1x1 projection maps channels[0] to one channel at the same size |
| NetworkProofs.PredictionShape | model.py:210-241 | for a non-empty low-resolution map, forward succeeds with shape (B, 1, H_guide, W_guide) when H and W of the guide are multiples of the window's size times 2^(L-1); the result is the resized input plus a tanh term |
| NetworkProofs.EmptyInputRefused | model.py:211 | a low-resolution map or guide with no rows or no columns makes forward fail at the resize |
| NetworkProofs.PlanNumbered | model.py:184-186 | attention block i of the network is numbered i |
| NetworkProofs.FusedProvenance | model.py:220-221 | the skip fused from unattended streams by block j was shifted exactly once and last touched on x's path by block j's feed_forward2 |
| NetworkProofs.FusedValue | model.py:220-221 | a fusion that succeeds is the maximum of the block's two output terms, at x's shape |
| NetworkProofs.DownStepProvenance | model.py:219-225 | the descending streams come from the conv outputs, not the attention outputs: a step leaves them as attended and as shifted as before, and the attention goes into the skip |
| NetworkProofs.DescentProvenance | model.py:222-225 | pooling and a ConvBlock add no attention and no shift |
| NetworkProofs.DownProvenance | model.py:218-225 | from unattended streams, the streams stay unattended to the bottom, and skip j is block j's fusion |
| NetworkProofs.SkipsLastInFirstOut | model.py:218-236 | the deepest fusion comes from the last block, and up step i reads res_list[-i-1], the fusion of block L-2-i |
| NetworkProofs.StackProvenance | model.py:215-216 | a ConvBlock leaves an unattended map unattended |
| NetworkProofs.EncodingProvenance | model.py:218-228 | from unattended streams, the bottleneck fusion is the last block's, and popped skip i is block L-2-i's |
| NetworkProofs.DeepestProvenance | model.py:227-228 | the deepest fusion is the last block's |
| NetworkProofs.PoppedFused | model.py:235 | skips pushed in scale order are popped in reverse scale order |
| NetworkProofs.DownwardPathSteps | model.py:214-228 | a downward path that succeeds is the first ConvBlocks, the downward loop and the deepest fusion, each of which succeeds |
| NetworkProofs.ShippedBuilds | opt.py:9-17 | the shipped configuration passes the constructor's own checks exactly for the two mode names, and raises ValueError for any other |
| NetworkProofs.ShippedBuildsAsWritten | opt.py:9-17 | as written, the shipped configuration builds exactly for 'conv_transpose'; 'bilinear' raises TypeError and any other mode ValueError |
| NetworkProofs.ShippedPredicts | opt.py:9-17 | at the shipped 448 x 640 resolution, forward succeeds with shape (B, 1, 448, 640) for any batch and any non-empty low-resolution size, for either upsampling branch of the corrected model; of the two modes only 'conv_transpose' builds as written |
| Checkpoint.Replace | eval.py:25 | Python's str.replace as one left-to-right scan; the lemmas below state what it does |
| Checkpoint.NewKey | eval.py:25 | the name a kept entry is stored under; LeadingPrefixOnly, InnerOccurrenceRemoved and RemovalCanSplice state what it is |
| Checkpoint.ReplaceWithoutMatch | eval.py:25 | str.replace leaves a string without an occurrence unchanged |
| Checkpoint.ReplaceCopiesNonMatch | eval.py:25 | where no occurrence starts, the scan copies one character and continues |
| Checkpoint.ReplaceAtStart | eval.py:25 | an occurrence at the start is replaced, and the scan resumes right after it |
| Checkpoint.ReplaceAtFirstMatch | eval.py:25 | the leftmost occurrence is replaced, everything before it copied, and the scan resumes after it |
| Checkpoint.RemovalShrinks | eval.py:25 | removal never lengthens a key, and shortens it whenever "module." occurs |
| Checkpoint.RemovalIsIdentityIff | eval.py:25 | removal leaves a key unchanged iff the pattern does not occur in it |
| Checkpoint.LeadingPrefixOnly | eval.py:24-25 | a key whose only occurrence of "module." is the leading one loses exactly its first 7 characters |
| Checkpoint.InnerOccurrenceRemoved | eval.py:25 | an inner occurrence is removed as well as the leading one |
| Checkpoint.RemovalCanSplice | eval.py:25 | "module.modmodule.ule.w" becomes "module.w": the new key can still contain "module." |
| Checkpoint.OuterAndInnerRemoved | eval.py:25 | a leading occurrence and the next one after it are both removed |
| Checkpoint.LeadingRemoved | eval.py:25 | removal drops a leading occurrence |
| Checkpoint.InnerRemoved | eval.py:25 | removal drops the first occurrence after a stretch where none starts |
| Checkpoint.Lookup | eval.py:26 | a name is found iff it is a key of the dict, and what is found is the value of that name's entry |
| Checkpoint.Insert | eval.py:26 | `d[k] = v` keeps an existing key's place and appends a new key at the end |
| Checkpoint.InsertLookup | eval.py:26 | after `d[k] = v`, k maps to v and every other key to its old value |
| Checkpoint.InsertKeepsDistinct | eval.py:26 | assignment never duplicates a name |
| Checkpoint.Renamed | eval.py:23-26 | there are no more renamed entries than checkpoint entries |
| Checkpoint.Remapped | eval.py:22-26 | the new state dict after the loop; RemappedKeys, RemappedLastWins, RemappedDistinct, RemappedSize and RemappedWithoutCollisions state what it holds |
| Checkpoint.RemapStateDict | eval.py:22-26 | the loop builds exactly Remapped(checkpoint) |
| Checkpoint.RemappedDistinct | eval.py:22-26 | the new state dict never holds a name twice |
| Checkpoint.RemappedKeys | eval.py:23-26 | a name is in the result iff some entry starting with "module." is renamed to it; every other entry is dropped |
| Checkpoint.RemappedLastWins | eval.py:23-26 | the value under a name is, unchanged, the value of the last kept entry renamed to it |
| Checkpoint.RemappedSize | eval.py:23-26 | the result has at most as many entries as there are prefixed keys |
| Checkpoint.RemappedWithoutCollisions | eval.py:23-26 | when no two kept keys strip to the same name, the result is the kept entries, renamed, in checkpoint order |
| Checkpoint.NoPrefixedKeyGivesEmpty | eval.py:24 | a checkpoint without a "module."-prefixed key yields an empty state dict |

## Left out

- Numeric content of every layer is not modelled, because it is floating point inside torch. This covers the linear projections, the 1/√C scaling, the bias addition, softmax, LayerNorm, GELU, dropout, convolution and pooling values, bilinear interpolation and tanh. Tensors carry only their shape and a dataflow term.
- The window helpers in utils.py are not modelled. The model gives them the shapes their callers rely on: partition takes (B, C, H, W) to (B·(H/wh)·(W/ww), wh·ww, C), merge goes back at a given size, and the shift keeps the shape. It assumes they fail when the window does not tile the map.
- The losses and metrics in utils.py (`calc_loss`, `psnr`, `ssim`) are not part of this model.
- Network.UpsampleLayer: the model gives the bilinear branch its evident layers, a 2x bilinear upsampling followed by a 1x1 convolution. The program's `nn.Sequential` call at model.py:205 refuses the list it is handed with a TypeError, so as written a bilinear network of two or more scales never builds. `Network.UpsampleLayerAsWritten` and `Network.ConfigErrorAsWritten` model that behaviour, and "## Findings" records it.
- NetworkProofs.ShippedPredicts: its 'bilinear' case holds of the corrected upsampling branch only. As written, the program cannot construct that network (`NetworkProofs.ShippedBuildsAsWritten`); only its 'conv_transpose' case is a statement about the program as it stands.
- NetworkProofs.ShippedBuilds: it states the constructor's own checks, under which both mode names pass. Under torch, 'bilinear' then fails at model.py:205, as `NetworkProofs.ShippedBuildsAsWritten` states.
- ConvBlocks.NewConvBlock: `norm_layer` is modelled as present or absent, as a shape-preserving layer. That one module instance would be shared by all positions is not modelled; GSRNet never passes a norm layer.
- Network.GSRNet.constructor: it requires a configuration that raises nothing. The raising paths are modelled by `Network.Build` and `Network.ConfigError`.
- Dropout rates are not modelled, including torch's range check on them; they only scale values.
- Network.Config: `image_size` is stored but never read by the code, so the model keeps it without using it.
- Network.Config: the head count, the channel counts and the window sizes are natural numbers, so a negative value cannot be expressed. Torch raises a RuntimeError for such values when it allocates the first weight: the Conv2d of the first ConvBlock (model.py:136, reached from model.py:168) for a channel count, and `torch.randn` at model.py:22-25 for the heads and for a window with a negative element count. The depths stay integers, because a negative depth only empties a `range`.
- The parameter-count print at model.py:198-199 is not modelled, being output only.
- Device placement and DataParallel wrapping are not modelled, being outside the network's logic.
- train.py is not part of this model; it is training-loop orchestration.
- The rest of eval.py is not modelled: `torch.load`, `load_state_dict`, the image writes and the metric averaging. Only the key remapping at eval.py:22-26 is.
- NetworkProofs.ShippedBuilds and NetworkProofs.ShippedPredicts leave the upsample mode open. opt.py supplies every other constructor argument but no `upsample_mode`.
- NetworkProofs.PredictionShape: it requires the guide's height and width to be multiples of the window's size times 2^(L-1), not only of 2^(L-1). Every scale must be tiled exactly by the window; at the deepest scale that is the stronger condition.
- Torch's 64-bit size arithmetic is not modelled; sizes are unbounded naturals, and no realistic size comes near the limit.
- Python's integer and float comparison at model.py:36 is modelled as exact divisibility. It is exact for any channel count a model can allocate.
- Checkpoint.Replace: it is defined for a non-empty pattern only. The only pattern used is `"module."`.
- Strings are sequences of characters; Python's code-point semantics are not otherwise modelled.

## Findings

| source | as written | input that shows it | evidently intended | confidence | as-written member | corrected member |
|---|---|---|---|---|---|---|
| model.py:204-206 | the bilinear branch hands nn.Sequential a single list of two modules; nn.Sequential registers each argument as a module and raises TypeError for a list | upsample_mode 'bilinear' with two or more scales, such as the three scales of opt.py:15-17 | the two modules as separate arguments: a 2x bilinear upsampling followed by a 1x1 convolution from num_channels_in to num_channels_out | not executed; follows from nn.Sequential's signature | Network.UpsampleLayerAsWritten, NetworkProofs.ShippedBuildsAsWritten | Network.UpsampleLayer, NetworkProofs.UpsampleDoubles |
