/**
 * GSRNet: the configuration it is built from, the layers its constructor creates, and its forward
 * pass, on shapes. The constructor validates the configuration in the order the source raises:
 * the per-scale list lengths, the presence of a first scale, the heads of every attention block,
 * and, only when there is an upsampling step, the upsample mode.
 */
module Network {
  import opened Wrappers
  import opened Tensors
  import opened Layers
  import opened WindowGeometry
  import opened CrossAttentionBlocks
  import opened ConvBlocks

  /** The constructor arguments that shape the network (the dropout rate only scales values). */
  datatype Config = Config(
    imageSize: (nat, nat), window: WindowSize, heads: nat,
    channels: seq<nat>, downDepths: seq<int>, upDepths: seq<int>, upsampleMode: string)

  predicate KnownMode(mode: string) {
    mode == "conv_transpose" || mode == "bilinear"
  }

  /** The configurations the constructor accepts. */
  predicate WellConfigured(cfg: Config) {
    |cfg.channels| == |cfg.downDepths| == |cfg.upDepths| && |cfg.channels| >= 1 && cfg.heads > 0 &&
    (forall i :: 0 <= i < |cfg.channels| ==> cfg.channels[i] % cfg.heads == 0) &&
    (|cfg.channels| >= 2 ==> KnownMode(cfg.upsampleMode))
  }

  /** The error of the first attention block, from the `from`-th on, whose construction fails. */
  function BlocksError(cfg: Config, from: nat): (r: Option<Error>)
    requires from <= |cfg.channels|
    ensures r.None? <==>
      from == |cfg.channels| ||
      (cfg.heads > 0 && forall i :: from <= i < |cfg.channels| ==> cfg.channels[i] % cfg.heads == 0)
    ensures r.Some? ==> r.value == if cfg.heads == 0 then ZeroHeads else HeadsNotDivisor
    decreases |cfg.channels| - from
  {
    if from == |cfg.channels| then None
    else
      var b := NewCrossAttentionBlock(from, cfg.window, cfg.channels[from], cfg.heads);
      if b.Failure? then Some(b.error) else BlocksError(cfg, from + 1)
  }

  /** What GSRNet(...) raises for `cfg`, if anything. */
  function ConfigError(cfg: Config): (r: Option<Error>)
    ensures r.None? <==> WellConfigured(cfg)
  {
    var L := |cfg.channels|;
    if !(L == |cfg.downDepths| == |cfg.upDepths|) then Some(ListLengthMismatch)
    else if L == 0 then Some(NoScales)
    else if BlocksError(cfg, 0).Some? then BlocksError(cfg, 0)
    else if L >= 2 && !KnownMode(cfg.upsampleMode) then Some(UnknownUpsampleMode)
    else None
  }

  /**
   * get_upsample_layer with its bilinear branch built as evidently intended: a transposed
   * convolution, or a bilinear doubling followed by a 1x1 convolution. The rest of the model uses this.
   */
  function UpsampleLayer(mode: string, owner: Component, cin: nat, cout: nat): (r: Result<LayerStack, Error>)
    ensures r.Success? <==> KnownMode(mode)
    ensures r.Failure? ==> r.error == UnknownUpsampleMode
    ensures r.Success? ==> r.value.owner == owner && StackWellFormed(r.value)
  {
    if mode == "conv_transpose" then Success(LayerStack(owner, [ConvTranspose2d(cin, cout, 2, 2)]))
    else if mode == "bilinear" then Success(LayerStack(owner, [Upsample2x, Conv2d(cin, cout, 1, 1, 0)]))
    else Failure(UnknownUpsampleMode)
  }

  /**
   * get_upsample_layer as written. Its bilinear branch hands a list to nn.Sequential, which takes
   * modules as separate arguments and raises TypeError for anything else, so only the transposed
   * convolution can be built. Where it builds, it builds what UpsampleLayer does.
   */
  function UpsampleLayerAsWritten(mode: string, owner: Component, cin: nat, cout: nat): (r: Result<LayerStack, Error>)
    ensures r.Success? <==> mode == "conv_transpose"
    ensures mode == "bilinear" ==> r == Failure(UpsampleNotModule)
    ensures !KnownMode(mode) ==> r == Failure(UnknownUpsampleMode)
    ensures mode != "bilinear" ==> r == UpsampleLayer(mode, owner, cin, cout)
  {
    if mode == "conv_transpose" then Success(LayerStack(owner, [ConvTranspose2d(cin, cout, 2, 2)]))
    else if mode == "bilinear" then Failure(UpsampleNotModule)
    else Failure(UnknownUpsampleMode)
  }

  /**
   * What GSRNet(...) as written raises for `cfg`: the same checks in the same order, except that the
   * first upsampling step of a bilinear network raises the TypeError of nn.Sequential.
   */
  function ConfigErrorAsWritten(cfg: Config): (r: Option<Error>)
    ensures r.None? <==> WellConfigured(cfg) && (|cfg.channels| >= 2 ==> cfg.upsampleMode == "conv_transpose")
    ensures r != ConfigError(cfg) ==>
      ConfigError(cfg).None? && |cfg.channels| >= 2 && cfg.upsampleMode == "bilinear" && r == Some(UpsampleNotModule)
  {
    var L := |cfg.channels|;
    if !(L == |cfg.downDepths| == |cfg.upDepths|) then Some(ListLengthMismatch)
    else if L == 0 then Some(NoScales)
    else if BlocksError(cfg, 0).Some? then BlocksError(cfg, 0)
    else if L == 1 then None
    else
      // the first pass of the loop at model.py:190-191 builds the deepest upsampling step
      var first := UpsampleLayerAsWritten(cfg.upsampleMode, UpSample(0), cfg.channels[L - 1], cfg.channels[L - 2]);
      if first.Failure? then Some(first.error) else None
  }

  /** Everything the constructor creates, field by field. */
  datatype NetLayers = NetLayers(
    topDownConvIr: LayerStack, downPoolsIr: seq<Layer>, downConvsIr: seq<LayerStack>,
    topDownConvVi: LayerStack, downPoolsVi: seq<Layer>, downConvsVi: seq<LayerStack>,
    blocks: seq<CrossAttentionBlock>, bottomUpConv: LayerStack,
    upSamples: seq<LayerStack>, upConvs: seq<LayerStack>, projection: Layer)

  /** Layer lists of matching lengths, all of whose layers can run. */
  predicate NetWellFormed(n: NetLayers) {
    var k := |n.blocks| - 1;
    k >= 0 &&
    |n.downPoolsIr| == k && |n.downPoolsVi| == k && |n.downConvsIr| == k && |n.downConvsVi| == k &&
    |n.upSamples| == k && |n.upConvs| == k &&
    StackWellFormed(n.topDownConvIr) && StackWellFormed(n.topDownConvVi) &&
    StackWellFormed(n.bottomUpConv) && WellFormed(n.projection) &&
    (forall i :: 0 <= i < |n.blocks| ==> n.blocks[i].Valid()) &&
    (forall i :: 0 <= i < k ==> WellFormed(n.downPoolsIr[i]) && WellFormed(n.downPoolsVi[i])) &&
    (forall i :: 0 <= i < k ==> StackWellFormed(n.downConvsIr[i]) && StackWellFormed(n.downConvsVi[i])) &&
    (forall i :: 0 <= i < k ==> StackWellFormed(n.upSamples[i]) && StackWellFormed(n.upConvs[i]))
  }

  // ---------------------------------------------------------------------------------------------
  // The layers the constructor creates, one by one

  function InChannels(s: Stream): nat {
    match s
    case Ir => 1
    case Vi => 3
  }

  function TopDownConvOf(cfg: Config, s: Stream): LayerStack
    requires WellConfigured(cfg)
  {
    LayerStack(TopDownConv(s), ConvBlockLayers(InChannels(s), cfg.channels[0], cfg.downDepths[0], false))
  }

  /** The i-th down ConvBlock of a stream, entered at scale i + 1 from the channels of scale i. */
  function DownConvOf(cfg: Config, s: Stream, i: nat): LayerStack
    requires WellConfigured(cfg) && i + 1 < |cfg.channels|
  {
    LayerStack(DownConv(s, i), ConvBlockLayers(cfg.channels[i], cfg.channels[i + 1], cfg.downDepths[i + 1], false))
  }

  function BlockOf(cfg: Config, i: nat): CrossAttentionBlock
    requires WellConfigured(cfg) && i < |cfg.channels|
  {
    NewCrossAttentionBlock(i, cfg.window, cfg.channels[i], cfg.heads).value
  }

  function BottomUpConvOf(cfg: Config): LayerStack
    requires WellConfigured(cfg)
  {
    var last := |cfg.channels| - 1;
    LayerStack(BottomUpConv, ConvBlockLayers(cfg.channels[last], cfg.channels[last], cfg.upDepths[last], false))
  }

  /** Up step i leaves scale L-1-i for scale L-2-i. */
  function UpSampleOf(cfg: Config, i: nat): LayerStack
    requires WellConfigured(cfg) && i + 1 < |cfg.channels|
  {
    var L := |cfg.channels|;
    UpsampleLayer(cfg.upsampleMode, UpSample(i), cfg.channels[L - 1 - i], cfg.channels[L - 2 - i]).value
  }

  function UpConvOf(cfg: Config, i: nat): LayerStack
    requires WellConfigured(cfg) && i + 1 < |cfg.channels|
  {
    var L := |cfg.channels|;
    LayerStack(UpConv(i), ConvBlockLayers(2 * cfg.channels[L - 2 - i], cfg.channels[L - 2 - i], cfg.upDepths[L - 2 - i], false))
  }

  function ProjectionOf(cfg: Config): Layer
    requires WellConfigured(cfg)
  {
    Conv2d(cfg.channels[0], 1, 1, 1, 0)
  }

  /** The layers GSRNet(cfg) holds once constructed. */
  function Plan(cfg: Config): NetLayers
    requires WellConfigured(cfg)
  {
    var k := |cfg.channels| - 1;
    NetLayers(
      TopDownConvOf(cfg, Ir), seq(k, _ => MaxPool2d(2, 2)), seq(k, i requires 0 <= i < k => DownConvOf(cfg, Ir, i)),
      TopDownConvOf(cfg, Vi), seq(k, _ => MaxPool2d(2, 2)), seq(k, i requires 0 <= i < k => DownConvOf(cfg, Vi, i)),
      seq(k + 1, i requires 0 <= i < k + 1 => BlockOf(cfg, i)), BottomUpConvOf(cfg),
      seq(k, i requires 0 <= i < k => UpSampleOf(cfg, i)), seq(k, i requires 0 <= i < k => UpConvOf(cfg, i)),
      ProjectionOf(cfg))
  }

  lemma PlanWellFormed(cfg: Config)
    requires WellConfigured(cfg)
    ensures NetWellFormed(Plan(cfg))
  {
    var n := Plan(cfg);
    var k := |cfg.channels| - 1;
    ConvBlockWellFormed(TopDownConv(Ir), 1, cfg.channels[0], cfg.downDepths[0], false);
    ConvBlockWellFormed(TopDownConv(Vi), 3, cfg.channels[0], cfg.downDepths[0], false);
    ConvBlockWellFormed(BottomUpConv, cfg.channels[k], cfg.channels[k], cfg.upDepths[k], false);
    forall i | 0 <= i < k
      ensures StackWellFormed(n.downConvsIr[i]) && StackWellFormed(n.downConvsVi[i])
      ensures StackWellFormed(n.upSamples[i]) && StackWellFormed(n.upConvs[i])
    {
      ConvBlockWellFormed(DownConv(Ir, i), cfg.channels[i], cfg.channels[i + 1], cfg.downDepths[i + 1], false);
      ConvBlockWellFormed(DownConv(Vi, i), cfg.channels[i], cfg.channels[i + 1], cfg.downDepths[i + 1], false);
      ConvBlockWellFormed(UpConv(i), 2 * cfg.channels[k - 1 - i], cfg.channels[k - 1 - i], cfg.upDepths[k - 1 - i], false);
    }
  }

  // ---------------------------------------------------------------------------------------------
  // The forward pass as a specification

  /** The two streams and the skips pushed so far, on the way down. */
  datatype DownState = DownState(x: Feature, y: Feature, skips: seq<Feature>)

  /** A cross-attention block followed by the element-wise maximum of its two outputs. */
  function Fused(b: CrossAttentionBlock, x: Feature, y: Feature): Result<Feature, Error>
    requires b.Valid()
  {
    var res :- BlockForward(b, x, y);
    Maximum(res.x, res.y)
  }

  /** One iteration of the downward loop at scale i. */
  function DownStep(n: NetLayers, i: nat, s: DownState): (r: Result<DownState, Error>)
    requires NetWellFormed(n) && i < |n.blocks| - 1
    ensures r.Success? ==> |r.value.skips| == |s.skips| + 1 && r.value.skips[..|s.skips|] == s.skips
  {
    var skip :- Fused(n.blocks[i], s.x, s.y);
    var x1 :- ApplyLayer(DownPool(Ir, i), 0, n.downPoolsIr[i], s.x);
    var y1 :- ApplyLayer(DownPool(Vi, i), 0, n.downPoolsVi[i], s.y);
    var x2 :- StackForward(n.downConvsIr[i], x1);
    var y2 :- StackForward(n.downConvsVi[i], y1);
    Success(DownState(x2, y2, s.skips + [skip]))
  }

  /** The iterations of the downward loop from scale i on. */
  function DownFrom(n: NetLayers, s: DownState, i: nat): (r: Result<DownState, Error>)
    requires NetWellFormed(n) && i <= |n.blocks| - 1
    ensures r.Success? ==> |r.value.skips| == |s.skips| + (|n.blocks| - 1 - i)
    decreases |n.blocks| - 1 - i
  {
    if i == |n.blocks| - 1 then Success(s)
    else
      var t :- DownStep(n, i, s);
      DownFrom(n, t, i + 1)
  }

  /** The skip the i-th upward iteration reads: the (i+1)-th from the end, res_list[-i-1]. */
  function Popped(skips: seq<Feature>, i: nat): Feature
    requires i < |skips|
  {
    skips[|skips| - 1 - i]
  }

  /** One iteration of the upward loop: upsample, concatenate the popped skip, convolve. */
  function UpStep(n: NetLayers, i: nat, z: Feature, skips: seq<Feature>): Result<Feature, Error>
    requires NetWellFormed(n) && i < |n.blocks| - 1 && i < |skips|
  {
    var u :- StackForward(n.upSamples[i], z);
    var c :- Concatenated(u, Popped(skips, i));
    StackForward(n.upConvs[i], c)
  }

  /**
   * The iterations i, i+1, ..., last-1 of a loop whose body is `step`, from state z: the first
   * failure ends the loop and is its result.
   */
  function Iterate<S>(step: (nat, S) -> Result<S, Error>, z: S, i: nat, last: nat): Result<S, Error>
    decreases last - i
  {
    if i >= last then Success(z)
    else
      var w :- step(i, z);
      Iterate(step, w, i + 1, last)
  }

  /** The body of the upward loop over the skips of one forward pass. */
  function UpBody(n: NetLayers, skips: seq<Feature>): (nat, Feature) -> Result<Feature, Error>
    requires NetWellFormed(n) && |n.blocks| - 1 == |skips|
  {
    (i: nat, z: Feature) => if i < |skips| then UpStep(n, i, z, skips) else Success(z)
  }

  /** The iterations of the upward loop from step i on. */
  function UpFrom(n: NetLayers, z: Feature, skips: seq<Feature>, i: nat): Result<Feature, Error>
    requires NetWellFormed(n) && i <= |n.blocks| - 1 == |skips|
  {
    Iterate(UpBody(n, skips), z, i, |skips|)
  }

  /** The fused map of the deepest scale and the skips pushed on the way down to it. */
  datatype Encoding = Encoding(fused: Feature, skips: seq<Feature>)

  /** The downward path of forward: the first ConvBlocks, the downward loop, the deepest fusion. */
  function DownwardPath(n: NetLayers, original: Feature, guide: Feature): (r: Result<Encoding, Error>)
    requires NetWellFormed(n)
    ensures r.Success? ==> |r.value.skips| == |n.blocks| - 1
  {
    var down :- Descent(n, original, guide);
    var z :- Fused(n.blocks[|n.blocks| - 1], down.x, down.y);
    Success(Encoding(z, down.skips))
  }

  /** The first ConvBlocks of both streams, then the downward loop. */
  function Descent(n: NetLayers, original: Feature, guide: Feature): (r: Result<DownState, Error>)
    requires NetWellFormed(n)
    ensures r.Success? ==> |r.value.skips| == |n.blocks| - 1
  {
    var x :- StackForward(n.topDownConvIr, original);
    var y :- StackForward(n.topDownConvVi, guide);
    DownFrom(n, DownState(x, y, []), 0)
  }

  /** The upward path of forward: the bottom ConvBlock, the upward loop, the projection and tanh. */
  function UpwardPath(n: NetLayers, e: Encoding): (r: Result<Feature, Error>)
    requires NetWellFormed(n) && |e.skips| == |n.blocks| - 1
    ensures r.Success? ==> r.value.node.Tanh?
  {
    var z1 :- StackForward(n.bottomUpConv, e.fused);
    var z2 :- UpFrom(n, z1, e.skips, 0);
    var z3 :- ApplyLayer(Projection, 0, n.projection, z2);
    Success(Tanhed(z3))
  }

  /** GSRNet.forward(lowRes, guide): the resized low-resolution map plus the network's correction. */
  function Prediction(n: NetLayers, lowRes: Feature, guide: Feature): (r: Result<Feature, Error>)
    requires NetWellFormed(n)
    ensures r.Success? ==> r.value.node.Add? && r.value.node.left == Resize(lowRes.node) && r.value.node.right.Tanh?
  {
    var original :- Resized(lowRes, guide.shape.height, guide.shape.width);
    var e :- DownwardPath(n, original, guide);
    var correction :- UpwardPath(n, e);
    Sum(original, correction)
  }

  // ---------------------------------------------------------------------------------------------
  // The module lists of the constructor, one loop each

  /** `for i in range(1, L)`: one 2x2 max pooling per step down. */
  method DownPools(k: nat) returns (pools: seq<Layer>)
    ensures pools == seq(k, _ => MaxPool2d(2, 2))
  {
    pools := [];
    var i := 1;
    while i <= k
      invariant 1 <= i <= k + 1 && pools == seq(i - 1, _ => MaxPool2d(2, 2))
    {
      pools := pools + [MaxPool2d(2, 2)];
      i := i + 1;
    }
  }

  /** `for i in range(1, L)`: the ConvBlock from channels[i-1] to channels[i], for one stream. */
  method DownConvBlocks(cfg: Config, s: Stream) returns (convs: seq<LayerStack>)
    requires WellConfigured(cfg)
    ensures |convs| == |cfg.channels| - 1
    ensures forall j :: 0 <= j < |convs| ==> convs[j] == DownConvOf(cfg, s, j)
  {
    var L := |cfg.channels|;
    convs := [];
    var i := 1;
    while i < L
      invariant 1 <= i <= L && |convs| == i - 1
      invariant forall j :: 0 <= j < i - 1 ==> convs[j] == DownConvOf(cfg, s, j)
    {
      var block := NewConvBlock(DownConv(s, i - 1), cfg.channels[i - 1], cfg.channels[i], cfg.downDepths[i], false);
      convs := convs + [block];
      i := i + 1;
    }
  }

  /** `for i in range(L)`: one cross-attention block per scale. */
  method FusionBlocks(cfg: Config) returns (fusion: seq<CrossAttentionBlock>)
    requires WellConfigured(cfg)
    ensures |fusion| == |cfg.channels|
    ensures forall j :: 0 <= j < |fusion| ==> fusion[j] == BlockOf(cfg, j)
  {
    var L := |cfg.channels|;
    fusion := [];
    var i := 0;
    while i < L
      invariant 0 <= i <= L && |fusion| == i
      invariant forall j :: 0 <= j < i ==> fusion[j] == BlockOf(cfg, j)
    {
      var block := NewCrossAttentionBlock(i, cfg.window, cfg.channels[i], cfg.heads);
      fusion := fusion + [block.value];
      i := i + 1;
    }
  }

  /** `for i in range(L - 2, -1, -1)`: the upsampler back to scale i is up step L - 2 - i. */
  method UpSamplers(cfg: Config) returns (ups: seq<LayerStack>)
    requires WellConfigured(cfg)
    ensures |ups| == |cfg.channels| - 1
    ensures forall j :: 0 <= j < |ups| ==> ups[j] == UpSampleOf(cfg, j)
  {
    var L := |cfg.channels|;
    ups := [];
    var i := L - 2;
    while i >= 0
      invariant -1 <= i <= L - 2 && |ups| == L - 2 - i
      invariant forall j :: 0 <= j < L - 2 - i ==> ups[j] == UpSampleOf(cfg, j)
    {
      var up := UpsampleLayer(cfg.upsampleMode, UpSample(L - 2 - i), cfg.channels[i + 1], cfg.channels[i]);
      ups := ups + [up.value];
      i := i - 1;
    }
  }

  /** `for i in range(L - 2, -1, -1)`: the ConvBlock after the concatenation at scale i. */
  method UpConvBlocks(cfg: Config) returns (upBlocks: seq<LayerStack>)
    requires WellConfigured(cfg)
    ensures |upBlocks| == |cfg.channels| - 1
    ensures forall j :: 0 <= j < |upBlocks| ==> upBlocks[j] == UpConvOf(cfg, j)
  {
    var L := |cfg.channels|;
    upBlocks := [];
    var i := L - 2;
    while i >= 0
      invariant -1 <= i <= L - 2 && |upBlocks| == L - 2 - i
      invariant forall j :: 0 <= j < L - 2 - i ==> upBlocks[j] == UpConvOf(cfg, j)
    {
      var block := NewConvBlock(UpConv(L - 2 - i), 2 * cfg.channels[i], cfg.channels[i], cfg.upDepths[i], false);
      upBlocks := upBlocks + [block];
      i := i - 1;
    }
  }

  // ---------------------------------------------------------------------------------------------
  // The network object

  class GSRNet {
    const config: Config
    var topDownConvIr: LayerStack
    var downPoolsIr: seq<Layer>
    var downConvsIr: seq<LayerStack>
    var topDownConvVi: LayerStack
    var downPoolsVi: seq<Layer>
    var downConvsVi: seq<LayerStack>
    var blocks: seq<CrossAttentionBlock>
    var bottomUpConv: LayerStack
    var upSamples: seq<LayerStack>
    var upConvs: seq<LayerStack>
    var projection: Layer

    function Layers(): NetLayers
      reads this
    {
      NetLayers(topDownConvIr, downPoolsIr, downConvsIr, topDownConvVi, downPoolsVi, downConvsVi,
                blocks, bottomUpConv, upSamples, upConvs, projection)
    }

    /** The object holds the layers its configuration calls for. */
    predicate Valid()
      reads this
    {
      WellConfigured(config) && Layers() == Plan(config) && NetWellFormed(Layers())
    }

    /**
     * GSRNet.__init__ for a configuration it accepts: each module list is filled by its own loop, in
     * the order of the source, and the lists are then stored.
     */
    constructor (cfg: Config)
      requires ConfigError(cfg) == None
      ensures config == cfg && Valid()
    {
      var L := |cfg.channels|;
      var topIr := NewConvBlock(TopDownConv(Ir), 1, cfg.channels[0], cfg.downDepths[0], false);
      var poolsIr := DownPools(L - 1);
      var convsIr := DownConvBlocks(cfg, Ir);
      var topVi := NewConvBlock(TopDownConv(Vi), 3, cfg.channels[0], cfg.downDepths[0], false);
      var poolsVi := DownPools(L - 1);
      var convsVi := DownConvBlocks(cfg, Vi);
      var fusion := FusionBlocks(cfg);
      var bottom := NewConvBlock(BottomUpConv, cfg.channels[L - 1], cfg.channels[L - 1], cfg.upDepths[L - 1], false);
      var ups := UpSamplers(cfg);
      var upBlocks := UpConvBlocks(cfg);

      config := cfg;
      topDownConvIr, downPoolsIr, downConvsIr := topIr, poolsIr, convsIr;
      topDownConvVi, downPoolsVi, downConvsVi := topVi, poolsVi, convsVi;
      blocks, bottomUpConv, upSamples, upConvs := fusion, bottom, ups, upBlocks;
      projection := Conv2d(cfg.channels[0], 1, 1, 1, 0);
      PlanWellFormed(cfg);
    }

    /** GSRNet.forward: the downward loop pushes a skip per scale, the upward loop pops them. */
    method Forward(lowRes: Feature, guide: Feature) returns (r: Result<Feature, Error>)
      requires Valid()
      ensures r == Prediction(Layers(), lowRes, guide)
    {
      var resized := Resized(lowRes, guide.shape.height, guide.shape.width);
      if resized.Failure? {
        return Failure(resized.error);
      }
      var original := resized.value;
      var e := Encode(original, guide);
      if e.Failure? {
        return Failure(e.error);
      }
      var correction := Decode(e.value);
      if correction.Failure? {
        return Failure(correction.error);
      }
      r := Sum(original, correction.value);
    }

    /** The downward path of forward: the first ConvBlocks, the downward loop, the deepest fusion. */
    method Encode(original: Feature, guide: Feature) returns (r: Result<Encoding, Error>)
      requires Valid()
      ensures r == DownwardPath(Layers(), original, guide)
    {
      var down := Descend(original, guide);
      if down.Failure? {
        return Failure(down.error);
      }
      var z := Fused(blocks[|blocks| - 1], down.value.x, down.value.y);
      if z.Failure? {
        return Failure(z.error);
      }
      r := Success(Encoding(z.value, down.value.skips));
    }

    /** The first ConvBlocks of both streams, then the downward loop. */
    method Descend(original: Feature, guide: Feature) returns (r: Result<DownState, Error>)
      requires Valid()
      ensures r == Descent(Layers(), original, guide)
    {
      var x := ConvBlockForward(topDownConvIr, original);
      if x.Failure? {
        return Failure(x.error);
      }
      var y := ConvBlockForward(topDownConvVi, guide);
      if y.Failure? {
        return Failure(y.error);
      }
      r := Downward(x.value, y.value);
    }

    /** The upward path of forward: the bottom ConvBlock, the upward loop, the projection and tanh. */
    method Decode(e: Encoding) returns (r: Result<Feature, Error>)
      requires Valid() && |e.skips| == |blocks| - 1
      ensures r == UpwardPath(Layers(), e)
    {
      var bottom := ConvBlockForward(bottomUpConv, e.fused);
      if bottom.Failure? {
        return Failure(bottom.error);
      }
      var up := Upward(bottom.value, e.skips);
      if up.Failure? {
        return Failure(up.error);
      }
      var projected := ApplyLayer(Projection, 0, projection, up.value);
      if projected.Failure? {
        return Failure(projected.error);
      }
      r := Success(Tanhed(projected.value));
    }

    /** The downward loop of forward: fuse, push the skip, pool and convolve, scale by scale. */
    method Downward(x0: Feature, y0: Feature) returns (r: Result<DownState, Error>)
      requires Valid()
      ensures r == DownFrom(Layers(), DownState(x0, y0, []), 0)
    {
      var n := Layers();
      var x, y := x0, y0;
      var resList: seq<Feature> := [];
      var last := |blocks| - 1;
      var i := 0;
      while i < last
        invariant 0 <= i <= last && |resList| == i
        invariant DownFrom(n, DownState(x, y, resList), i) == DownFrom(n, DownState(x0, y0, []), 0)
      {
        var skip := Fused(blocks[i], x, y);
        if skip.Failure? {
          return Failure(skip.error);
        }
        var px := ApplyLayer(DownPool(Ir, i), 0, downPoolsIr[i], x);
        var py := if px.Success? then ApplyLayer(DownPool(Vi, i), 0, downPoolsVi[i], y) else Failure(px.error);
        if py.Failure? {
          return Failure(py.error);
        }
        var cx := ConvBlockForward(downConvsIr[i], px.value);
        if cx.Failure? {
          return Failure(cx.error);
        }
        var cy := ConvBlockForward(downConvsVi[i], py.value);
        if cy.Failure? {
          return Failure(cy.error);
        }
        resList := resList + [skip.value];
        x, y := cx.value, cy.value;
        i := i + 1;
      }
      r := Success(DownState(x, y, resList));
    }

    /** The upward loop of forward: upsample, concatenate the skip popped from the end, convolve. */
    method Upward(z0: Feature, skips: seq<Feature>) returns (r: Result<Feature, Error>)
      requires Valid() && |skips| == |blocks| - 1
      ensures r == UpFrom(Layers(), z0, skips, 0)
    {
      var n := Layers();
      var last := |blocks| - 1;
      var z := z0;
      var i := 0;
      while i < last
        invariant 0 <= i <= last
        invariant UpFrom(n, z, skips, i) == UpFrom(n, z0, skips, 0)
      {
        var u := ConvBlockForward(upSamples[i], z);
        var c := if u.Success? then Concatenated(u.value, Popped(skips, i)) else Failure(u.error);
        if c.Failure? {
          assert UpStep(n, i, z, skips) == Failure(c.error);
          return Failure(c.error);
        }
        var next := ConvBlockForward(upConvs[i], c.value);
        assert UpStep(n, i, z, skips) == next;
        if next.Failure? {
          return Failure(next.error);
        }
        z := next.value;
        i := i + 1;
      }
      r := Success(z);
    }
  }

  /** Builds the network, or reports what its constructor raises. */
  method Build(cfg: Config) returns (r: Result<GSRNet, Error>)
    ensures r.Failure? ==> ConfigError(cfg) == Some(r.error)
    ensures r.Success? ==> ConfigError(cfg) == None && fresh(r.value) && r.value.config == cfg && r.value.Valid()
  {
    var e := ConfigError(cfg);
    if e.Some? {
      return Failure(e.value);
    }
    var net := new GSRNet(cfg);
    r := Success(net);
  }
}
