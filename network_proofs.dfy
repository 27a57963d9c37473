/**
 * What GSRNet promises as a whole: which configurations it rejects and why, how many layers of
 * each kind it builds and how their channels pair up, that a guide whose sizes are multiples of the
 * window times 2^(L-1) yields a prediction of the resized low-resolution map's shape, and that the
 * skips pushed on the way down are read back last-in first-out.
 */
module NetworkProofs {
  import opened Wrappers
  import opened Tensors
  import opened Layers
  import opened WindowGeometry
  import opened CrossAttentionBlocks
  import opened ConvBlocks
  import opened Network
  import opened Arithmetic

  // ---------------------------------------------------------------------------------------------
  // Construction

  /** The constructor raises each error exactly when its check is the first to fail. */
  lemma ConfigErrorCauses(cfg: Config)
    ensures var L := |cfg.channels|;
      var lengthsAgree := L == |cfg.downDepths| == |cfg.upDepths|;
      var headsDivide := cfg.heads > 0 && forall i :: 0 <= i < L ==> cfg.channels[i] % cfg.heads == 0;
      (ConfigError(cfg) == Some(ListLengthMismatch) <==> !lengthsAgree) &&
      (ConfigError(cfg) == Some(NoScales) <==> lengthsAgree && L == 0) &&
      (ConfigError(cfg) == Some(ZeroHeads) <==> lengthsAgree && L > 0 && cfg.heads == 0) &&
      (ConfigError(cfg) == Some(HeadsNotDivisor) <==> lengthsAgree && L > 0 && cfg.heads > 0 && !headsDivide) &&
      (ConfigError(cfg) == Some(UnknownUpsampleMode) <==>
        lengthsAgree && L > 0 && headsDivide && L >= 2 && !KnownMode(cfg.upsampleMode))
  {
  }

  /** A network of a single scale never reads its upsample mode. */
  lemma SingleScaleIgnoresMode(cfg: Config, mode: string)
    requires |cfg.channels| == 1
    ensures ConfigError(cfg) == ConfigError(cfg.(upsampleMode := mode))
  {
    var cfg' := cfg.(upsampleMode := mode);
    if |cfg.downDepths| == 1 == |cfg.upDepths| {
      assert BlocksError(cfg, 0) == BlocksError(cfg', 0);
    }
  }

  /**
   * For L scales the network holds, per stream, L-1 pools of kernel and stride 2 and L-1 down
   * ConvBlocks, plus L attention blocks, L-1 upsamplers and L-1 up ConvBlocks.
   */
  lemma PlanCounts(cfg: Config)
    requires WellConfigured(cfg)
    ensures var n := Plan(cfg); var L := |cfg.channels|;
      |n.downPoolsIr| == |n.downPoolsVi| == L - 1 &&
      |n.downConvsIr| == |n.downConvsVi| == L - 1 &&
      |n.blocks| == L && |n.upSamples| == L - 1 && |n.upConvs| == L - 1 &&
      (forall i :: 0 <= i < L - 1 ==> n.downPoolsIr[i] == MaxPool2d(2, 2) == n.downPoolsVi[i])
  {
  }

  /**
   * Down ConvBlock i enters scale i + 1 from the channels of scale i; up step i leaves the channels
   * of scale L-1-i for those of scale L-2-i, and its ConvBlock takes twice the latter, the upsampled
   * map and the skip of scale L-2-i side by side.
   */
  lemma PlanChannelPairing(cfg: Config, i: nat)
    requires WellConfigured(cfg) && i + 1 < |cfg.channels|
    ensures var n := Plan(cfg); var L := |cfg.channels|; var c := cfg.channels;
      n.downConvsIr[i].layers[0] == Conv3(c[i], c[i + 1]) &&
      n.downConvsVi[i].layers[0] == Conv3(c[i], c[i + 1]) &&
      n.upSamples[i] == UpsampleLayer(cfg.upsampleMode, UpSample(i), c[L - 1 - i], c[L - 2 - i]).value &&
      n.upConvs[i].layers[0] == Conv3(c[L - 2 - i] + c[L - 2 - i], c[L - 2 - i])
  {
    var c := cfg.channels;
    var L := |c|;
    ConvBlockHiddenTail(c[i], c[i + 1], cfg.downDepths[i + 1], false);
    ConvBlockHiddenTail(2 * c[L - 2 - i], c[L - 2 - i], cfg.upDepths[L - 2 - i], false);
  }

  /** Either upsampler doubles the height and width and maps cin channels to cout. */
  lemma UpsampleDoubles(mode: string, owner: Component, cin: nat, cout: nat, x: Feature)
    requires KnownMode(mode)
    ensures var r := StackForward(UpsampleLayer(mode, owner, cin, cout).value, x);
      (r.Success? <==> x.shape.channels == cin && x.shape.height > 0 && x.shape.width > 0) &&
      (r.Success? ==> r.value.shape == MapShape(x.shape.batch, cout, 2 * x.shape.height, 2 * x.shape.width))
  {
    var st := UpsampleLayer(mode, owner, cin, cout).value;
    assert StackPrefix(st, x, 0) == Success(x);
    var s := x.shape;
    if mode == "conv_transpose" {
      assert StackForward(st, x) == ApplyLayer(owner, 0, ConvTranspose2d(cin, cout, 2, 2), x);
      assert TransposedSize(s.height, 2, 2).Success? <==> s.height > 0;
      assert TransposedSize(s.width, 2, 2).Success? <==> s.width > 0;
    } else {
      var first := ApplyLayer(owner, 0, Upsample2x, x);
      assert StackPrefix(st, x, 1) == first;
      assert StackForward(st, x) == if first.Success? then ApplyLayer(owner, 1, Conv2d(cin, cout, 1, 1, 0), first.value) else first;
      if first.Success? {
        assert ConvSize(2 * s.height, 1, 1, 0) == Success(2 * s.height);
        assert ConvSize(2 * s.width, 1, 1, 0) == Success(2 * s.width);
      }
    }
  }

  // ---------------------------------------------------------------------------------------------
  // Shapes through the scales

  function Pow2(k: nat): (r: nat)
    ensures r >= 1
  {
    if k == 0 then 1 else 2 * Pow2(k - 1)
  }

  /** `u` doubled `k` times. */
  function Doubled(u: nat, k: nat): (r: nat)
    ensures u > 0 ==> r > 0
  {
    if k == 0 then u else 2 * Doubled(u, k - 1)
  }

  lemma {:induction false} DoubledIsProduct(u: nat, k: nat)
    ensures Doubled(u, k) == u * Pow2(k)
  {
    if k > 0 {
      DoubledIsProduct(u, k - 1);
      assert u * (2 * Pow2(k - 1)) == 2 * (u * Pow2(k - 1));
    }
  }

  lemma {:induction false} DoubledMultiple(u: nat, k: nat, w: nat)
    requires w > 0 && u % w == 0
    ensures Doubled(u, k) % w == 0
  {
    if k > 0 {
      DoubledMultiple(u, k - 1, w);
      TwiceMultiple(Doubled(u, k - 1), w);
    }
  }

  lemma TwiceMultiple(a: nat, w: nat)
    requires w > 0 && a % w == 0
    ensures (2 * a) % w == 0
  {
    var q := a / w;
    assert a == q * w;
    assert 2 * a == (2 * q) * w;
    MulDivCancel(2 * q, w);
  }

  /**
   * The shape of both streams at scale i when the guide is unitH * 2^(L-1) high and
   * unitW * 2^(L-1) wide.
   */
  function ScaleShape(cfg: Config, batch: nat, unitH: nat, unitW: nat, i: nat): MapShape
    requires i < |cfg.channels|
  {
    var k := |cfg.channels| - 1 - i;
    MapShape(batch, cfg.channels[i], Doubled(unitH, k), Doubled(unitW, k))
  }

  /** The deepest scale is a positive multiple of the window. */
  predicate WindowUnit(ws: WindowSize, unitH: nat, unitW: nat) {
    ws.height > 0 && ws.width > 0 && unitH > 0 && unitW > 0 &&
    unitH % ws.height == 0 && unitW % ws.width == 0
  }

  lemma ScaleFits(cfg: Config, batch: nat, unitH: nat, unitW: nat, i: nat)
    requires i < |cfg.channels| && WindowUnit(cfg.window, unitH, unitW)
    ensures Fits(ScaleShape(cfg, batch, unitH, unitW, i), cfg.window)
  {
    var k := |cfg.channels| - 1 - i;
    DoubledMultiple(unitH, k, cfg.window.height);
    DoubledMultiple(unitW, k, cfg.window.width);
  }

  lemma ScaleHalves(cfg: Config, batch: nat, unitH: nat, unitW: nat, i: nat)
    requires i + 1 < |cfg.channels|
    ensures ScaleShape(cfg, batch, unitH, unitW, i).height == 2 * ScaleShape(cfg, batch, unitH, unitW, i + 1).height
    ensures ScaleShape(cfg, batch, unitH, unitW, i).width == 2 * ScaleShape(cfg, batch, unitH, unitW, i + 1).width
  {
    assert |cfg.channels| - 1 - i == (|cfg.channels| - 1 - (i + 1)) + 1;
  }

  /** The term of the skip pushed at scale i, from the streams entering that scale. */
  function SkipNode(cfg: Config, i: nat, x: Node, y: Node): Node
    requires WellConfigured(cfg) && i < |cfg.channels|
  {
    var fused := BlockNodes(BlockOf(cfg, i), x, y);
    Max(fused.x, fused.y)
  }

  /** The fusion at scale i of two streams of that scale's shape succeeds and keeps the shape. */
  lemma FusedShape(cfg: Config, batch: nat, unitH: nat, unitW: nat, i: nat, x: Feature, y: Feature)
    requires WellConfigured(cfg) && WindowUnit(cfg.window, unitH, unitW) && i < |cfg.channels|
    requires x.shape == ScaleShape(cfg, batch, unitH, unitW, i) == y.shape
    ensures NetWellFormed(Plan(cfg))
    ensures Fused(Plan(cfg).blocks[i], x, y) == Success(Feature(x.shape, SkipNode(cfg, i, x.node, y.node)))
  {
    var n := Plan(cfg);
    PlanWellFormed(cfg);
    assert n.blocks[i] == BlockOf(cfg, i);
    ScaleFits(cfg, batch, unitH, unitW, i);
    BlockSucceedsIff(n.blocks[i], x, y);
  }

  /**
   * One downward iteration at a scale of the expected shape succeeds: the skip keeps that scale's
   * shape, and the streams go on to the next scale through the pool and the down ConvBlock only.
   */
  lemma DownStepShape(cfg: Config, batch: nat, unitH: nat, unitW: nat, s: DownState, i: nat)
    requires WellConfigured(cfg) && WindowUnit(cfg.window, unitH, unitW) && i + 1 < |cfg.channels|
    requires s.x.shape == ScaleShape(cfg, batch, unitH, unitW, i) == s.y.shape
    ensures NetWellFormed(Plan(cfg))
    ensures var r := DownStep(Plan(cfg), i, s); var n := Plan(cfg);
      r.Success? &&
      r.value.x.shape == ScaleShape(cfg, batch, unitH, unitW, i + 1) == r.value.y.shape &&
      r.value.skips == s.skips + [Feature(s.x.shape, SkipNode(cfg, i, s.x.node, s.y.node))] &&
      r.value.x.node == Stacked(DownConv(Ir, i), |n.downConvsIr[i].layers|, Apply(DownPool(Ir, i), 0, s.x.node)) &&
      r.value.y.node == Stacked(DownConv(Vi, i), |n.downConvsVi[i].layers|, Apply(DownPool(Vi, i), 0, s.y.node))
  {
    var n := Plan(cfg);
    PlanWellFormed(cfg);
    FusedShape(cfg, batch, unitH, unitW, i, s.x, s.y);
    assert n.downPoolsIr[i] == MaxPool2d(2, 2) == n.downPoolsVi[i];
    assert n.downConvsIr[i] == DownConvOf(cfg, Ir, i) && n.downConvsVi[i] == DownConvOf(cfg, Vi, i);
    var gx := StreamDescends(cfg, batch, unitH, unitW, Ir, i, s.x);
    var gy := StreamDescends(cfg, batch, unitH, unitW, Vi, i, s.y);
  }

  /** The pool and the down ConvBlock of one stream take a map of scale i to scale i + 1. */
  lemma StreamDescends(cfg: Config, batch: nat, unitH: nat, unitW: nat, st: Stream, i: nat, x: Feature)
    returns (g: Feature)
    requires WellConfigured(cfg) && WindowUnit(cfg.window, unitH, unitW) && i + 1 < |cfg.channels|
    requires x.shape == ScaleShape(cfg, batch, unitH, unitW, i)
    ensures StackWellFormed(DownConvOf(cfg, st, i))
    ensures var p := ApplyLayer(DownPool(st, i), 0, MaxPool2d(2, 2), x);
      p.Success? && StackForward(DownConvOf(cfg, st, i), p.value) == Success(g)
    ensures g.shape == ScaleShape(cfg, batch, unitH, unitW, i + 1)
    ensures g.node == Stacked(DownConv(st, i), |DownConvOf(cfg, st, i).layers|, Apply(DownPool(st, i), 0, x.node))
  {
    ScaleHalves(cfg, batch, unitH, unitW, i);
    var next := ScaleShape(cfg, batch, unitH, unitW, i + 1);
    assert PoolSize(2 * next.height, 2, 2) == Success(next.height);
    assert PoolSize(2 * next.width, 2, 2) == Success(next.width);
    var p := ApplyLayer(DownPool(st, i), 0, MaxPool2d(2, 2), x);
    assert p == Success(Feature(MapShape(batch, cfg.channels[i], next.height, next.width), Apply(DownPool(st, i), 0, x.node)));
    var c := cfg.channels;
    ConvBlockShape(DownConv(st, i), c[i], c[i + 1], cfg.downDepths[i + 1], false, p.value);
    g := StackForward(DownConvOf(cfg, st, i), p.value).value;
  }

  /** Skip j has the shape of scale j. */
  predicate SkipsAtScales(cfg: Config, batch: nat, unitH: nat, unitW: nat, skips: seq<Feature>)
    requires |skips| <= |cfg.channels|
  {
    forall j :: 0 <= j < |skips| ==> skips[j].shape == ScaleShape(cfg, batch, unitH, unitW, j)
  }

  /** Every downward iteration of `n` takes streams of scale j to scale j + 1 and pushes a skip of scale j. */
  ghost predicate DownStepsScale(cfg: Config, batch: nat, unitH: nat, unitW: nat, n: NetLayers)
    requires NetWellFormed(n) && |n.blocks| == |cfg.channels|
  {
    forall j: nat, s: DownState {:trigger DownStepScales(cfg, batch, unitH, unitW, n, j, s)} ::
      j < |cfg.channels| - 1 && s.x.shape == ScaleShape(cfg, batch, unitH, unitW, j) == s.y.shape ==>
        DownStepScales(cfg, batch, unitH, unitW, n, j, s)
  }

  /** Down step j takes streams of scale j to scale j + 1 and pushes a skip of scale j. */
  predicate DownStepScales(cfg: Config, batch: nat, unitH: nat, unitW: nat, n: NetLayers, j: nat, s: DownState)
    requires NetWellFormed(n) && |n.blocks| == |cfg.channels| && j < |cfg.channels| - 1
  {
    var r := DownStep(n, j, s);
    r.Success? && r.value.x.shape == ScaleShape(cfg, batch, unitH, unitW, j + 1) == r.value.y.shape &&
    r.value.skips[|s.skips|].shape == s.x.shape
  }

  lemma SkipsExtend(cfg: Config, batch: nat, unitH: nat, unitW: nat, skips: seq<Feature>, f: Feature)
    requires |skips| < |cfg.channels| && SkipsAtScales(cfg, batch, unitH, unitW, skips)
    requires f.shape == ScaleShape(cfg, batch, unitH, unitW, |skips|)
    ensures SkipsAtScales(cfg, batch, unitH, unitW, skips + [f])
  {
  }

  lemma PlanDownStepsScale(cfg: Config, batch: nat, unitH: nat, unitW: nat)
    requires WellConfigured(cfg) && WindowUnit(cfg.window, unitH, unitW)
    ensures NetWellFormed(Plan(cfg)) && DownStepsScale(cfg, batch, unitH, unitW, Plan(cfg))
  {
    PlanWellFormed(cfg);
    forall j: nat, s: DownState | j < |cfg.channels| - 1 && s.x.shape == ScaleShape(cfg, batch, unitH, unitW, j) == s.y.shape
      ensures DownStepScales(cfg, batch, unitH, unitW, Plan(cfg), j, s)
    {
      DownStepShape(cfg, batch, unitH, unitW, s, j);
    }
  }

  /** One downward iteration from scale i hands the loop a state of scale i + 1. */
  lemma DownShapeStep(cfg: Config, batch: nat, unitH: nat, unitW: nat, n: NetLayers, s: DownState, i: nat)
    returns (t: DownState)
    requires NetWellFormed(n) && |n.blocks| == |cfg.channels| && DownStepsScale(cfg, batch, unitH, unitW, n)
    requires i < |cfg.channels| - 1 && s.x.shape == ScaleShape(cfg, batch, unitH, unitW, i) == s.y.shape
    requires |s.skips| == i && SkipsAtScales(cfg, batch, unitH, unitW, s.skips)
    ensures DownFrom(n, s, i) == DownFrom(n, t, i + 1)
    ensures t.x.shape == ScaleShape(cfg, batch, unitH, unitW, i + 1) == t.y.shape
    ensures |t.skips| == i + 1 && SkipsAtScales(cfg, batch, unitH, unitW, t.skips)
  {
    assert DownStepScales(cfg, batch, unitH, unitW, n, i, s);
    t := DownStep(n, i, s).value;
    assert t.skips == s.skips + [t.skips[i]];
    SkipsExtend(cfg, batch, unitH, unitW, s.skips, t.skips[i]);
  }

  /** The downward loop from a scale of the expected shape runs to the deepest scale. */
  lemma {:induction false} DownShape(cfg: Config, batch: nat, unitH: nat, unitW: nat, n: NetLayers, s: DownState, i: nat)
    requires NetWellFormed(n) && |n.blocks| == |cfg.channels| && DownStepsScale(cfg, batch, unitH, unitW, n)
    requires i < |cfg.channels| && s.x.shape == ScaleShape(cfg, batch, unitH, unitW, i) == s.y.shape
    requires |s.skips| == i && SkipsAtScales(cfg, batch, unitH, unitW, s.skips)
    ensures var r := DownFrom(n, s, i); var last := |cfg.channels| - 1;
      r.Success? && r.value.x.shape == ScaleShape(cfg, batch, unitH, unitW, last) == r.value.y.shape &&
      |r.value.skips| == last && SkipsAtScales(cfg, batch, unitH, unitW, r.value.skips)
    decreases |cfg.channels| - i
  {
    if i < |cfg.channels| - 1 {
      var t := DownShapeStep(cfg, batch, unitH, unitW, n, s, i);
      DownShape(cfg, batch, unitH, unitW, n, t, i + 1);
    }
  }

  /**
   * Up step i at the expected shape succeeds and reaches scale L-2-i: the upsampler doubles the map
   * to the size of the skip it is concatenated with, and the up ConvBlock takes both.
   */
  lemma UpStepShape(cfg: Config, batch: nat, unitH: nat, unitW: nat, z: Feature, skips: seq<Feature>, i: nat)
    requires WellConfigured(cfg) && unitH > 0 && unitW > 0 && i + 1 < |cfg.channels|
    requires |skips| == |cfg.channels| - 1 && SkipsAtScales(cfg, batch, unitH, unitW, skips)
    requires z.shape == ScaleShape(cfg, batch, unitH, unitW, |cfg.channels| - 1 - i)
    ensures NetWellFormed(Plan(cfg))
    ensures var r := UpStep(Plan(cfg), i, z, skips);
      r.Success? && r.value.shape == ScaleShape(cfg, batch, unitH, unitW, |cfg.channels| - 2 - i)
  {
    var n := Plan(cfg);
    PlanWellFormed(cfg);
    var c := cfg.channels;
    var k := |c| - 2 - i;
    ScaleHalves(cfg, batch, unitH, unitW, k);
    UpsampleDoubles(cfg.upsampleMode, UpSample(i), c[k + 1], c[k], z);
    var u := StackForward(n.upSamples[i], z);
    assert u.Success? && u.value.shape == MapShape(batch, c[k], skips[k].shape.height, skips[k].shape.width);
    assert Popped(skips, i) == skips[k];
    var cat := Concatenated(u.value, skips[k]);
    assert cat.Success? && cat.value.shape == MapShape(batch, 2 * c[k], skips[k].shape.height, skips[k].shape.width);
    ConvBlockShape(UpConv(i), 2 * c[k], c[k], cfg.upDepths[k], false, cat.value);
  }

  /** The upward loop's invariant: before step j the map is at scale L-1-j. */
  function UpInvariant(cfg: Config, batch: nat, unitH: nat, unitW: nat): (nat, Feature) -> bool
  {
    (j: nat, z: Feature) => j < |cfg.channels| && z.shape == ScaleShape(cfg, batch, unitH, unitW, |cfg.channels| - 1 - j)
  }

  /** Every step before `last` keeps `inv`. */
  ghost predicate StepsKeep<S(!new)>(step: (nat, S) -> Result<S, Error>, inv: (nat, S) -> bool, last: nat)
  {
    forall j: nat, z: S :: j < last && inv(j, z) ==> step(j, z).Success? && inv(j + 1, step(j, z).value)
  }

  lemma {:induction false} IterateKeeps<S(!new)>(step: (nat, S) -> Result<S, Error>, inv: (nat, S) -> bool, z: S, i: nat, last: nat)
    requires i <= last && inv(i, z) && StepsKeep(step, inv, last)
    ensures Iterate(step, z, i, last).Success? && inv(last, Iterate(step, z, i, last).value)
    decreases last - i
  {
    if i < last {
      IterateKeeps(step, inv, step(i, z).value, i + 1, last);
    }
  }

  lemma PlanUpStepsScale(cfg: Config, batch: nat, unitH: nat, unitW: nat, skips: seq<Feature>)
    requires WellConfigured(cfg) && unitH > 0 && unitW > 0
    requires |skips| == |cfg.channels| - 1 && SkipsAtScales(cfg, batch, unitH, unitW, skips)
    ensures NetWellFormed(Plan(cfg)) && StepsKeep(UpBody(Plan(cfg), skips), UpInvariant(cfg, batch, unitH, unitW), |skips|)
  {
    PlanWellFormed(cfg);
    var step, inv := UpBody(Plan(cfg), skips), UpInvariant(cfg, batch, unitH, unitW);
    forall j: nat, z: Feature | j < |skips| && inv(j, z)
      ensures step(j, z).Success? && inv(j + 1, step(j, z).value)
    {
      UpStepShape(cfg, batch, unitH, unitW, z, skips, j);
    }
  }

  lemma UpShape(cfg: Config, batch: nat, unitH: nat, unitW: nat, n: NetLayers, z: Feature, skips: seq<Feature>)
    requires NetWellFormed(n) && |n.blocks| == |cfg.channels| && |skips| == |cfg.channels| - 1
    requires StepsKeep(UpBody(n, skips), UpInvariant(cfg, batch, unitH, unitW), |skips|)
    requires z.shape == ScaleShape(cfg, batch, unitH, unitW, |cfg.channels| - 1)
    ensures var r := UpFrom(n, z, skips, 0);
      r.Success? && r.value.shape == ScaleShape(cfg, batch, unitH, unitW, 0)
  {
    IterateKeeps(UpBody(n, skips), UpInvariant(cfg, batch, unitH, unitW), z, 0, |skips|);
  }

  /** A size that is a positive multiple of window * 2^(L-1) is unit * 2^(L-1) for a positive multiple unit of the window. */
  lemma UnitOf(size: nat, window: nat, p: nat) returns (unit: nat)
    requires window > 0 && p > 0 && size > 0 && size % (window * p) == 0
    ensures unit > 0 && unit % window == 0 && size == unit * p
  {
    var q := size / (window * p);
    assert size == q * (window * p);
    unit := q * window;
    assert size == unit * p;
    MulDivCancel(q, window);
  }

  /**
   * The downward path at a first scale of the expected shape: both first ConvBlocks succeed, the loop
   * reaches the deepest scale, and the deepest fusion keeps that scale's shape.
   */
  lemma DownwardPathShape(cfg: Config, batch: nat, unitH: nat, unitW: nat, original: Feature, guide: Feature)
    requires WellConfigured(cfg) && WindowUnit(cfg.window, unitH, unitW)
    requires original.shape == ScaleShape(cfg, batch, unitH, unitW, 0).(channels := 1)
    requires guide.shape == ScaleShape(cfg, batch, unitH, unitW, 0).(channels := 3)
    ensures NetWellFormed(Plan(cfg))
    ensures var r := DownwardPath(Plan(cfg), original, guide); var last := |cfg.channels| - 1;
      r.Success? && r.value.fused.shape == ScaleShape(cfg, batch, unitH, unitW, last) &&
      |r.value.skips| == last && SkipsAtScales(cfg, batch, unitH, unitW, r.value.skips)
  {
    var n := Plan(cfg);
    PlanWellFormed(cfg);
    var last := |cfg.channels| - 1;
    var x := TopDownShape(cfg, batch, unitH, unitW, Ir, original);
    var y := TopDownShape(cfg, batch, unitH, unitW, Vi, guide);
    PlanDownStepsScale(cfg, batch, unitH, unitW);
    DownShape(cfg, batch, unitH, unitW, n, DownState(x, y, []), 0);
    var down := DownFrom(n, DownState(x, y, []), 0).value;
    FusedShape(cfg, batch, unitH, unitW, last, down.x, down.y);
  }

  /** A stream's first ConvBlock takes the input at the first scale's size to the first scale's shape. */
  lemma TopDownShape(cfg: Config, batch: nat, unitH: nat, unitW: nat, s: Stream, f: Feature) returns (g: Feature)
    requires WellConfigured(cfg) && unitH > 0 && unitW > 0
    requires f.shape == ScaleShape(cfg, batch, unitH, unitW, 0).(channels := InChannels(s))
    ensures StackWellFormed(TopDownConvOf(cfg, s)) && StackForward(TopDownConvOf(cfg, s), f) == Success(g)
    ensures g.shape == ScaleShape(cfg, batch, unitH, unitW, 0)
  {
    var last := |cfg.channels| - 1;
    ConvBlockShape(TopDownConv(s), InChannels(s), cfg.channels[0], cfg.downDepths[0], false, f);
    g := StackForward(TopDownConvOf(cfg, s), f).value;
  }

  /**
   * The upward path from a deepest fusion and skips of the expected shapes: the loop climbs back to
   * the first scale and the projection leaves one channel of that scale's size, under a tanh.
   */
  lemma UpwardPathShape(cfg: Config, batch: nat, unitH: nat, unitW: nat, e: Encoding)
    requires WellConfigured(cfg) && unitH > 0 && unitW > 0
    requires e.fused.shape == ScaleShape(cfg, batch, unitH, unitW, |cfg.channels| - 1)
    requires |e.skips| == |cfg.channels| - 1 && SkipsAtScales(cfg, batch, unitH, unitW, e.skips)
    ensures NetWellFormed(Plan(cfg))
    ensures var r := UpwardPath(Plan(cfg), e);
      r.Success? && r.value.shape == ScaleShape(cfg, batch, unitH, unitW, 0).(channels := 1) &&
      r.value.node.Tanh?
  {
    var n := Plan(cfg);
    PlanWellFormed(cfg);
    var z1 := BottomUpShape(cfg, batch, unitH, unitW, e.fused);
    PlanUpStepsScale(cfg, batch, unitH, unitW, e.skips);
    UpShape(cfg, batch, unitH, unitW, n, z1, e.skips);
    var z2 := UpFrom(n, z1, e.skips, 0).value;
    var z3 := ProjectionShape(cfg, z2);
    assert UpwardPath(n, e) == Success(Tanhed(z3));
  }

  /** The bottom ConvBlock keeps the deepest scale's shape. */
  lemma BottomUpShape(cfg: Config, batch: nat, unitH: nat, unitW: nat, f: Feature) returns (g: Feature)
    requires WellConfigured(cfg) && unitH > 0 && unitW > 0
    requires f.shape == ScaleShape(cfg, batch, unitH, unitW, |cfg.channels| - 1)
    ensures StackWellFormed(BottomUpConvOf(cfg)) && StackForward(BottomUpConvOf(cfg), f) == Success(g)
    ensures g.shape == f.shape
  {
    var c := cfg.channels;
    var last := |c| - 1;
    ConvBlockShape(BottomUpConv, c[last], c[last], cfg.upDepths[last], false, f);
    g := StackForward(BottomUpConvOf(cfg), f).value;
  }

  /** The 1x1 projection takes the first scale's channels to one channel of the same size. */
  lemma ProjectionShape(cfg: Config, f: Feature) returns (g: Feature)
    requires WellConfigured(cfg) && f.shape.channels == cfg.channels[0]
    requires f.shape.height > 0 && f.shape.width > 0
    ensures ApplyLayer(Projection, 0, ProjectionOf(cfg), f) == Success(g)
    ensures g.shape == f.shape.(channels := 1)
  {
    assert ConvSize(f.shape.height, 1, 1, 0) == Success(f.shape.height);
    assert ConvSize(f.shape.width, 1, 1, 0) == Success(f.shape.width);
    g := ApplyLayer(Projection, 0, ProjectionOf(cfg), f).value;
  }


  /**
   * With heads that divide every channel count, a non-empty one-channel low-resolution map and a
   * three-channel guide of the same batch whose height and width are multiples of the window times
   * 2^(L-1), the forward pass succeeds. The prediction has the shape of the low-resolution map resized to the
   * guide, (B, 1, H, W), and is that resized map plus a tanh of the network's output.
   */
  lemma PredictionShape(cfg: Config, lowRes: Feature, guide: Feature)
    requires WellConfigured(cfg) && cfg.window.height > 0 && cfg.window.width > 0
    requires lowRes.shape.channels == 1 && guide.shape.channels == 3 && lowRes.shape.batch == guide.shape.batch
    requires lowRes.shape.height > 0 && lowRes.shape.width > 0
    requires guide.shape.height > 0 && guide.shape.width > 0
    requires guide.shape.height % (cfg.window.height * Pow2(|cfg.channels| - 1)) == 0
    requires guide.shape.width % (cfg.window.width * Pow2(|cfg.channels| - 1)) == 0
    ensures NetWellFormed(Plan(cfg))
    ensures var r := Prediction(Plan(cfg), lowRes, guide);
      r.Success? && r.value.shape == MapShape(guide.shape.batch, 1, guide.shape.height, guide.shape.width) &&
      r.value.node.Add? && r.value.node.left == Resize(lowRes.node) && r.value.node.right.Tanh?
  {
    var n := Plan(cfg);
    PlanWellFormed(cfg);
    var last := |cfg.channels| - 1;
    var batch, height, width := guide.shape.batch, guide.shape.height, guide.shape.width;
    var unitH := UnitOf(height, cfg.window.height, Pow2(last));
    var unitW := UnitOf(width, cfg.window.width, Pow2(last));
    DoubledIsProduct(unitH, last);
    DoubledIsProduct(unitW, last);
    var original := Resized(lowRes, height, width).value;
    DownwardPathShape(cfg, batch, unitH, unitW, original, guide);
    var e := DownwardPath(n, original, guide).value;
    UpwardPathShape(cfg, batch, unitH, unitW, e);
  }

  /** A low-resolution map or a guide with no rows or no columns is refused by the resize, first of all. */
  lemma EmptyInputRefused(n: NetLayers, lowRes: Feature, guide: Feature)
    requires NetWellFormed(n)
    requires lowRes.shape.height == 0 || lowRes.shape.width == 0 || guide.shape.height == 0 || guide.shape.width == 0
    ensures Prediction(n, lowRes, guide) == Failure(InputTooSmall)
  {
  }

  // ---------------------------------------------------------------------------------------------
  // Where the attention goes

  /** The constructor numbers each block by its scale. */
  predicate BlocksNumbered(n: NetLayers) {
    forall j :: 0 <= j < |n.blocks| ==> n.blocks[j].index == j
  }

  lemma PlanNumbered(cfg: Config)
    requires WellConfigured(cfg)
    ensures BlocksNumbered(Plan(cfg))
  {
    forall j | 0 <= j < |cfg.channels|
      ensures Plan(cfg).blocks[j].index == j
    {
      assert Plan(cfg).blocks[j] == BlockOf(cfg, j);
    }
  }

  /** A map that no attention has read and no half-window shift has moved. */
  predicate Unattended(n: Node) {
    AttentionFree(n) && ShiftProfile(n) == {[]}
  }

  /**
   * The maximum of the two outputs of block j over unattended streams: shifted exactly once on every
   * path, and last touched, on x's own path, by the second feed-forward of block j.
   */
  predicate FusedAt(n: Node, j: nat) {
    n.Max? && !AttentionFree(n) && ShiftProfile(n) == {[false]} &&
    |OwnTrail(n)| > 0 && OwnTrail(n)[|OwnTrail(n)| - 1] == BlockFeedForward(j, 2)
  }

  lemma FusedProvenance(b: CrossAttentionBlock, x: Node, y: Node)
    requires Unattended(x) && Unattended(y)
    ensures var fused := BlockNodes(b, x, y); FusedAt(Max(fused.x, fused.y), b.index)
  {
    var fused := BlockNodes(b, x, y);
    BlockShiftsOnce(b, x, y);
    BlockTrail(b, x, y);
    var a := Attend(BlockAttention(b.index, 2), 1, Partition(Shift(false, PassNode(b, 1, 1, x, y))),
      Partition(Shift(false, PassNode(b, 1, 2, y, x))));
    assert fused.x == Merge(Apply(BlockFeedForward(b.index, 2), 0, a));
    assert !AttentionFree(a);
    assert !AttentionFree(fused.x);
    assert !AttentionFree(Max(fused.x, fused.y));
  }

  /** A fusion that succeeds is the maximum of the block's two output terms, at the shape of x. */
  lemma FusedValue(b: CrossAttentionBlock, x: Feature, y: Feature)
    requires b.Valid() && Fused(b, x, y).Success?
    ensures var fused := BlockNodes(b, x.node, y.node);
      Fused(b, x, y).value == Feature(x.shape, Max(fused.x, fused.y))
  {
    BlockSucceedsIff(b, x, y);
  }

  /**
   * One downward iteration sends the streams on through pooling and convolution only, so what
   * descends stays as attended and as shifted as it came; the attention ends up in the skip alone.
   */
  lemma DownStepProvenance(n: NetLayers, i: nat, s: DownState)
    requires NetWellFormed(n) && i < |n.blocks| - 1 && DownStep(n, i, s).Success?
    ensures var t := DownStep(n, i, s).value; var fused := BlockNodes(n.blocks[i], s.x.node, s.y.node);
      t.skips[|s.skips|].node == Max(fused.x, fused.y) &&
      AttentionFree(t.x.node) == AttentionFree(s.x.node) && AttentionFree(t.y.node) == AttentionFree(s.y.node) &&
      ShiftProfile(t.x.node) == ShiftProfile(s.x.node) && ShiftProfile(t.y.node) == ShiftProfile(s.y.node)
  {
    FusedValue(n.blocks[i], s.x, s.y);
    var skip := Fused(n.blocks[i], s.x, s.y).value;
    var x1 := ApplyLayer(DownPool(Ir, i), 0, n.downPoolsIr[i], s.x).value;
    var y1 := ApplyLayer(DownPool(Vi, i), 0, n.downPoolsVi[i], s.y).value;
    var x2 := StackForward(n.downConvsIr[i], x1).value;
    var y2 := StackForward(n.downConvsVi[i], y1).value;
    assert DownStep(n, i, s).value == DownState(x2, y2, s.skips + [skip]);
    DescentProvenance(DownPool(Ir, i), n.downPoolsIr[i], n.downConvsIr[i], s.x);
    DescentProvenance(DownPool(Vi, i), n.downPoolsVi[i], n.downConvsVi[i], s.y);
  }

  /** Pooling then a ConvBlock leave a map as attended and as shifted as it was. */
  lemma DescentProvenance(owner: Component, pool: Layer, conv: LayerStack, x: Feature)
    requires WellFormed(pool) && StackWellFormed(conv)
    requires ApplyLayer(owner, 0, pool, x).Success? && StackForward(conv, ApplyLayer(owner, 0, pool, x).value).Success?
    ensures var r := StackForward(conv, ApplyLayer(owner, 0, pool, x).value).value;
      AttentionFree(r.node) == AttentionFree(x.node) && ShiftProfile(r.node) == ShiftProfile(x.node)
  {
    var x1 := ApplyLayer(owner, 0, pool, x).value;
    StackedProvenance(conv.owner, |conv.layers|, x1.node);
  }


  /**
   * From unattended streams at scale i, the downward loop keeps the streams unattended and pushes, at
   * each index j, the fusion of block j.
   */
  lemma {:induction false} DownProvenance(n: NetLayers, s: DownState, i: nat)
    requires NetWellFormed(n) && BlocksNumbered(n) && i <= |n.blocks| - 1 && |s.skips| == i
    requires Unattended(s.x.node) && Unattended(s.y.node) && DownFrom(n, s, i).Success?
    ensures var r := DownFrom(n, s, i).value;
      Unattended(r.x.node) && Unattended(r.y.node) && r.skips[..i] == s.skips &&
      forall j :: i <= j < |r.skips| ==> FusedAt(r.skips[j].node, j)
    decreases |n.blocks| - 1 - i
  {
    if i < |n.blocks| - 1 {
      var t := DownStep(n, i, s).value;
      DownStepProvenance(n, i, s);
      FusedProvenance(n.blocks[i], s.x.node, s.y.node);
      assert DownFrom(n, s, i) == DownFrom(n, t, i + 1);
      DownProvenance(n, t, i + 1);
      var r := DownFrom(n, t, i + 1).value;
      assert r.skips[..i] == r.skips[..i + 1][..i] == t.skips[..i] == s.skips;
      var fused := BlockNodes(n.blocks[i], s.x.node, s.y.node);
      assert r.skips[i] == t.skips[i] && t.skips[i].node == Max(fused.x, fused.y);
      assert FusedAt(r.skips[i].node, i);
      forall j | i <= j < |r.skips|
        ensures FusedAt(r.skips[j].node, j)
      {
        if j > i {
          assert FusedAt(r.skips[j].node, j);
        }
      }
    }
  }

  /**
   * Last in, first out: when the downward path succeeds from the low-resolution map and the guide,
   * the deepest fusion comes from the last block, and the i-th upward iteration reads the fusion of
   * block L-2-i, the scale its upsampler returns to.
   */
  lemma SkipsLastInFirstOut(n: NetLayers, lowRes: Feature, guide: Feature)
    requires NetWellFormed(n) && BlocksNumbered(n) && lowRes.node == LowRes && guide.node == Guide
    requires Resized(lowRes, guide.shape.height, guide.shape.width).Success?
    requires DownwardPath(n, Resized(lowRes, guide.shape.height, guide.shape.width).value, guide).Success?
    ensures var e := DownwardPath(n, Resized(lowRes, guide.shape.height, guide.shape.width).value, guide).value;
      FusedAt(e.fused.node, |n.blocks| - 1) &&
      forall i :: 0 <= i < |e.skips| ==> FusedAt(Popped(e.skips, i).node, |n.blocks| - 2 - i)
  {
    var original := Resized(lowRes, guide.shape.height, guide.shape.width).value;
    var x, y, down := DownwardPathSteps(n, original, guide);
    assert Unattended(Resize(LowRes)) && Unattended(Guide);
    StackProvenance(n.topDownConvIr, original);
    StackProvenance(n.topDownConvVi, guide);
    EncodingProvenance(n, x, y);
  }

  /** A ConvBlock leaves an unattended map unattended. */
  lemma StackProvenance(st: LayerStack, f: Feature)
    requires StackWellFormed(st) && StackForward(st, f).Success? && Unattended(f.node)
    ensures Unattended(StackForward(st, f).value.node)
  {
    StackedProvenance(st.owner, |st.layers|, f.node);
  }

  /** From unattended streams at the first scale: the deepest fusion and the popped skips, by block. */
  lemma EncodingProvenance(n: NetLayers, x: Feature, y: Feature)
    requires NetWellFormed(n) && BlocksNumbered(n) && Unattended(x.node) && Unattended(y.node)
    requires DownFrom(n, DownState(x, y, []), 0).Success?
    requires var down := DownFrom(n, DownState(x, y, []), 0).value;
      Fused(n.blocks[|n.blocks| - 1], down.x, down.y).Success?
    ensures var down := DownFrom(n, DownState(x, y, []), 0).value; var last := |n.blocks| - 1;
      FusedAt(Fused(n.blocks[last], down.x, down.y).value.node, last) &&
      forall i :: 0 <= i < |down.skips| ==> FusedAt(Popped(down.skips, i).node, last - 1 - i)
  {
    var down := DownFrom(n, DownState(x, y, []), 0).value;
    DownProvenance(n, DownState(x, y, []), 0);
    var last := |n.blocks| - 1;
    DeepestProvenance(n.blocks[last], down.x, down.y);
    PoppedFused(down.skips);
  }

  /** The fusion of two unattended streams by block b is FusedAt(_, b.index). */
  lemma DeepestProvenance(b: CrossAttentionBlock, x: Feature, y: Feature)
    requires b.Valid() && Unattended(x.node) && Unattended(y.node) && Fused(b, x, y).Success?
    ensures FusedAt(Fused(b, x, y).value.node, b.index)
  {
    FusedValue(b, x, y);
    FusedProvenance(b, x.node, y.node);
  }

  /** Skips pushed in scale order are popped in reverse scale order. */
  lemma PoppedFused(skips: seq<Feature>)
    requires forall j :: 0 <= j < |skips| ==> FusedAt(skips[j].node, j)
    ensures forall i :: 0 <= i < |skips| ==> FusedAt(Popped(skips, i).node, |skips| - 1 - i)
  {
    forall i | 0 <= i < |skips|
      ensures FusedAt(Popped(skips, i).node, |skips| - 1 - i)
    {
      assert Popped(skips, i) == skips[|skips| - 1 - i];
    }
  }



  /** The stages of a downward path that succeeds, each of which succeeds. */
  lemma DownwardPathSteps(n: NetLayers, original: Feature, guide: Feature) returns (x: Feature, y: Feature, down: DownState)
    requires NetWellFormed(n) && DownwardPath(n, original, guide).Success?
    ensures StackForward(n.topDownConvIr, original) == Success(x)
    ensures StackForward(n.topDownConvVi, guide) == Success(y)
    ensures DownFrom(n, DownState(x, y, []), 0) == Success(down)
    ensures Fused(n.blocks[|n.blocks| - 1], down.x, down.y).Success?
    ensures DownwardPath(n, original, guide).value ==
      Encoding(Fused(n.blocks[|n.blocks| - 1], down.x, down.y).value, down.skips)
  {
    x := StackForward(n.topDownConvIr, original).value;
    y := StackForward(n.topDownConvVi, guide).value;
    down := DownFrom(n, DownState(x, y, []), 0).value;
  }



  // ---------------------------------------------------------------------------------------------
  // The shipped configuration

  /** The training and evaluation configuration, with the upsample mode left open. */
  function Shipped(mode: string): Config {
    Config((448, 640), WindowSize(7, 10), 8, [64, 128, 256], [3, 3, 3], [3, 3, 3], mode)
  }

  /** The shipped configuration builds exactly for the two known upsample modes. */
  lemma ShippedBuilds(mode: string)
    ensures ConfigError(Shipped(mode)).None? <==> KnownMode(mode)
    ensures !KnownMode(mode) ==> ConfigError(Shipped(mode)) == Some(UnknownUpsampleMode)
  {
    assert WellConfigured(Shipped(mode)) <==> KnownMode(mode);
  }

  /**
   * As written, the shipped configuration builds only with transposed convolutions: a bilinear
   * network raises the TypeError of nn.Sequential, and any other mode the ValueError.
   */
  lemma ShippedBuildsAsWritten(mode: string)
    ensures ConfigErrorAsWritten(Shipped(mode)).None? <==> mode == "conv_transpose"
    ensures mode == "bilinear" ==> ConfigErrorAsWritten(Shipped(mode)) == Some(UpsampleNotModule)
    ensures !KnownMode(mode) ==> ConfigErrorAsWritten(Shipped(mode)) == Some(UnknownUpsampleMode)
  {
    ShippedBuilds(mode);
  }

  /**
   * At the shipped 448 x 640 resolution the guide divides into windows at every scale, so the
   * forward pass succeeds for any batch and any non-empty low-resolution size, with one output
   * channel. Of the two modes, only the transposed convolution builds as written; the bilinear
   * case is about the corrected upsampling branch.
   */
  lemma ShippedPredicts(mode: string, lowRes: Feature, guide: Feature)
    requires KnownMode(mode)
    requires lowRes.shape.channels == 1 && guide.shape == MapShape(lowRes.shape.batch, 3, 448, 640)
    requires lowRes.shape.height > 0 && lowRes.shape.width > 0
    ensures ConfigErrorAsWritten(Shipped(mode)).None? <==> mode == "conv_transpose"
    ensures NetWellFormed(Plan(Shipped(mode)))
    ensures var r := Prediction(Plan(Shipped(mode)), lowRes, guide);
      r.Success? && r.value.shape == MapShape(lowRes.shape.batch, 1, 448, 640)
  {
    ShippedBuildsAsWritten(mode);
    var cfg := Shipped(mode);
    assert WellConfigured(cfg);
    assert Pow2(|cfg.channels| - 1) == 4;
    PredictionShape(cfg, lowRes, guide);
  }
}
