/**
 * The torch layers and tensor operations GSRNet is built from, at the level of shapes: what each
 * does to (B, C, H, W), when torch refuses the input, and the dataflow node it records.
 */
module Layers {
  import opened Wrappers
  import opened Tensors

  datatype Layer =
    | Conv2d(inChannels: nat, outChannels: nat, kernel: nat, stride: nat, padding: nat)
    | ConvTranspose2d(inChannels: nat, outChannels: nat, kernel: nat, stride: nat)
    | MaxPool2d(kernel: nat, stride: nat)
    | Upsample2x        // nn.Upsample(scale_factor=2, mode='bilinear')
    | LeakyReLU
    | Norm              // the optional normalisation layer of a ConvBlock, shape-preserving

  /** Every stride a layer was built with is positive (torch refuses any other at construction). */
  predicate WellFormed(l: Layer) {
    match l
    case Conv2d(_, _, _, s, _) => s > 0
    case ConvTranspose2d(_, _, _, s) => s > 0
    case MaxPool2d(_, s) => s > 0
    case _ => true
  }

  /** The output size of a convolution along one axis: floor((size + 2p - k) / s) + 1. */
  function ConvSize(size: nat, kernel: nat, stride: nat, padding: nat): (r: Result<nat, Error>)
    requires stride > 0
    ensures r.Success? <==> kernel <= size + 2 * padding
    ensures r.Success? ==>
      (r.value - 1) * stride <= size + 2 * padding - kernel < r.value * stride
  {
    if size + 2 * padding < kernel then Failure(InputTooSmall)
    else Success((size + 2 * padding - kernel) / stride + 1)
  }

  /** The output size of a max-pooling along one axis (no padding): floor((size - k) / s) + 1. */
  function PoolSize(size: nat, kernel: nat, stride: nat): (r: Result<nat, Error>)
    requires stride > 0
    ensures r.Success? <==> kernel <= size
    ensures r.Success? ==> (r.value - 1) * stride <= size - kernel < r.value * stride
  {
    if size < kernel then Failure(InputTooSmall)
    else Success((size - kernel) / stride + 1)
  }

  /** The output size of a transposed convolution along one axis (no padding): (size - 1) * s + k. */
  function TransposedSize(size: nat, kernel: nat, stride: nat): (r: Result<nat, Error>)
    ensures r.Success? <==> (size - 1) * stride + kernel > 0
    ensures r.Success? ==> r.value + stride == size * stride + kernel
  {
    var out := (size - 1) * stride + kernel;
    if out <= 0 then Failure(InputTooSmall) else Success(out)
  }

  /** One layer applied to a feature map; `owner` and `position` name the layer in the network. */
  function ApplyLayer(owner: Component, position: nat, l: Layer, x: Feature): (r: Result<Feature, Error>)
    requires WellFormed(l)
    ensures r.Success? ==> r.value.shape.batch == x.shape.batch
    ensures r.Success? ==> r.value.node == Apply(owner, position, x.node)
  {
    var s := x.shape;
    var node := Apply(owner, position, x.node);
    match l
    case Conv2d(cin, cout, k, st, p) =>
      if s.channels != cin then Failure(LayerInputMismatch)
      else
        var h :- ConvSize(s.height, k, st, p);
        var w :- ConvSize(s.width, k, st, p);
        Success(Feature(MapShape(s.batch, cout, h, w), node))
    case ConvTranspose2d(cin, cout, k, st) =>
      if s.channels != cin then Failure(LayerInputMismatch)
      else
        var h :- TransposedSize(s.height, k, st);
        var w :- TransposedSize(s.width, k, st);
        Success(Feature(MapShape(s.batch, cout, h, w), node))
    case MaxPool2d(k, st) =>
      var h :- PoolSize(s.height, k, st);
      var w :- PoolSize(s.width, k, st);
      Success(Feature(MapShape(s.batch, s.channels, h, w), node))
    case Upsample2x =>
      if s.height == 0 || s.width == 0 then Failure(InputTooSmall)
      else Success(Feature(MapShape(s.batch, s.channels, 2 * s.height, 2 * s.width), node))
    case LeakyReLU => Success(Feature(s, node))
    case Norm => Success(Feature(s, node))
  }

  /** A sub-module that applies its layers in order: a ConvBlock's `layers`, or a single layer. */
  datatype LayerStack = LayerStack(owner: Component, layers: seq<Layer>)

  predicate StackWellFormed(st: LayerStack) {
    forall i :: 0 <= i < |st.layers| ==> WellFormed(st.layers[i])
  }

  /** The node of `src` after `k` layers of `owner`. */
  function Stacked(owner: Component, k: nat, src: Node): Node {
    if k == 0 then src else Apply(owner, k - 1, Stacked(owner, k - 1, src))
  }

  /** The first `k` layers of `st` applied in order to `x`; the first failure is the result. */
  function StackPrefix(st: LayerStack, x: Feature, k: nat): (r: Result<Feature, Error>)
    requires StackWellFormed(st) && k <= |st.layers|
    ensures r.Success? ==> r.value.shape.batch == x.shape.batch
    ensures r.Success? ==> r.value.node == Stacked(st.owner, k, x.node)
  {
    if k == 0 then Success(x)
    else
      var y :- StackPrefix(st, x, k - 1);
      ApplyLayer(st.owner, k - 1, st.layers[k - 1], y)
  }

  /** The forward pass of a layer stack. */
  function StackForward(st: LayerStack, x: Feature): (r: Result<Feature, Error>)
    requires StackWellFormed(st)
    ensures r.Success? ==> r.value.shape.batch == x.shape.batch
    ensures r.Success? ==> r.value.node == Stacked(st.owner, |st.layers|, x.node)
  {
    StackPrefix(st, x, |st.layers|)
  }

  /** Once a prefix fails, every longer prefix fails with the same error. */
  lemma {:induction false} StackFailureSticks(st: LayerStack, x: Feature, i: nat, j: nat)
    requires StackWellFormed(st) && i <= j <= |st.layers|
    requires StackPrefix(st, x, i).Failure?
    ensures StackPrefix(st, x, j) == StackPrefix(st, x, i)
    decreases j
  {
    if j > i {
      StackFailureSticks(st, x, i, j - 1);
    }
  }

  /** Layers of one sub-module neither add attention nor shift, and extend the stream's own trail. */
  lemma {:induction false} StackedProvenance(owner: Component, k: nat, src: Node)
    ensures AttentionFree(Stacked(owner, k, src)) == AttentionFree(src)
    ensures ShiftProfile(Stacked(owner, k, src)) == ShiftProfile(src)
    ensures OwnTrail(Stacked(owner, k, src)) == OwnTrail(src) + seq(k, _ => owner)
  {
    if k > 0 {
      StackedProvenance(owner, k - 1, src);
      assert seq(k - 1, _ => owner) + [owner] == seq(k, _ => owner);
    }
  }

  // ---------------------------------------------------------------------------------------------
  // Tensor operations

  /**
   * F.interpolate(x, size): the map resized to `height` x `width`. Torch refuses an input or an
   * output with no rows or no columns.
   */
  function Resized(x: Feature, height: nat, width: nat): (r: Result<Feature, Error>)
    ensures r.Success? <==> x.shape.height > 0 && x.shape.width > 0 && height > 0 && width > 0
    ensures r.Failure? ==> r.error == InputTooSmall
    ensures r.Success? ==> r.value.shape == MapShape(x.shape.batch, x.shape.channels, height, width)
    ensures r.Success? ==> r.value.node == Resize(x.node)
  {
    if x.shape.height == 0 || x.shape.width == 0 || height == 0 || width == 0 then Failure(InputTooSmall)
    else Success(Feature(MapShape(x.shape.batch, x.shape.channels, height, width), Resize(x.node)))
  }

  /** Broadcasting of one dimension: equal sizes, or one of them 1. */
  function BroadcastDim(a: nat, b: nat): (r: Option<nat>)
    ensures r.Some? <==> a == b || a == 1 || b == 1
    ensures r.Some? ==> (r.value == a || r.value == b) && (a != 1 ==> r.value == a)
    ensures r.Some? && b != 1 ==> r.value == b
  {
    if a == b || b == 1 then Some(a) else if a == 1 then Some(b) else None
  }

  /** The shape of an elementwise operation on two maps under torch broadcasting. */
  function Broadcast(a: MapShape, b: MapShape): (r: Result<MapShape, Error>)
    ensures a == b ==> r == Success(a)
  {
    var bs := BroadcastDim(a.batch, b.batch);
    var cs := BroadcastDim(a.channels, b.channels);
    var hs := BroadcastDim(a.height, b.height);
    var ws := BroadcastDim(a.width, b.width);
    if bs.Some? && cs.Some? && hs.Some? && ws.Some? then
      Success(MapShape(bs.value, cs.value, hs.value, ws.value))
    else Failure(BroadcastMismatch)
  }

  /** torch.max(a, b). */
  function Maximum(a: Feature, b: Feature): (r: Result<Feature, Error>)
    ensures a.shape == b.shape ==> r == Success(Feature(a.shape, Max(a.node, b.node)))
  {
    var s :- Broadcast(a.shape, b.shape);
    Success(Feature(s, Max(a.node, b.node)))
  }

  /** a + b. */
  function Sum(a: Feature, b: Feature): (r: Result<Feature, Error>)
    ensures a.shape == b.shape ==> r == Success(Feature(a.shape, Add(a.node, b.node)))
  {
    var s :- Broadcast(a.shape, b.shape);
    Success(Feature(s, Add(a.node, b.node)))
  }

  /** torch.cat([a, b], dim=1). */
  function Concatenated(a: Feature, b: Feature): (r: Result<Feature, Error>)
    ensures r.Success? <==>
      a.shape.batch == b.shape.batch && a.shape.height == b.shape.height && a.shape.width == b.shape.width
    ensures r.Success? ==> r.value.shape.channels == a.shape.channels + b.shape.channels
    ensures r.Success? ==>
      r.value == Feature(MapShape(a.shape.batch, a.shape.channels + b.shape.channels, a.shape.height, a.shape.width),
                         Concat(a.node, b.node))
  {
    var sa, sb := a.shape, b.shape;
    if sa.batch != sb.batch || sa.height != sb.height || sa.width != sb.width then Failure(ConcatMismatch)
    else Success(Feature(MapShape(sa.batch, sa.channels + sb.channels, sa.height, sa.width), Concat(a.node, b.node)))
  }

  /** torch.tanh, elementwise. */
  function Tanhed(x: Feature): (r: Feature)
    ensures r.shape == x.shape
  {
    Feature(x.shape, Tanh(x.node))
  }
}
