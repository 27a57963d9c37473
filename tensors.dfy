/**
 * Tensors of the guided super-resolution network, modelled by their shape and by where their data
 * came from. A feature map has shape (B, C, H, W); a window batch has shape (B_, N, C), windows times
 * elements per window times channels. The numbers inside a tensor are not modelled: a `Node` records
 * which inputs and which sub-modules, in which order, produced it.
 */
module Tensors {

  /** The shape (B, C, H, W) of a feature map. */
  datatype MapShape = MapShape(batch: nat, channels: nat, height: nat, width: nat)

  /** The shape (B_, N, C) of a window batch. */
  datatype WindowShape = WindowShape(windows: nat, elements: nat, channels: nat)

  /** The two input modalities: the thermal (low-resolution) stream and the visible (guide) stream. */
  datatype Stream = Ir | Vi

  /** The sub-modules of GSRNet that carry parameters, by their place in the network. */
  datatype Component =
    | TopDownConv(stream: Stream)
    | DownPool(stream: Stream, index: nat)
    | DownConv(stream: Stream, index: nat)
    | BlockAttention(block: nat, pass: nat)
    | BlockFeedForward(block: nat, pass: nat)
    | BottomUpConv
    | UpSample(index: nat)
    | UpConv(index: nat)
    | Projection

  /** The dataflow term a tensor was computed by. */
  datatype Node =
    | LowRes
    | Guide
    | Resize(src: Node)                                   // F.interpolate to the guide's size
    | Apply(owner: Component, position: nat, src: Node)   // layer `position` of a sub-module
    | Partition(src: Node)                                // utils.window_partition
    | Merge(src: Node)                                    // utils.window_merge
    | Shift(forward: bool, src: Node)                     // utils.half_window_shift
    | Attend(owner: Component, stream: nat, own: Node, other: Node)
                                                          // output `stream` (1 or 2) of a cross-attention
    | Max(left: Node, right: Node)                        // torch.max, elementwise
    | Concat(left: Node, right: Node)                     // torch.cat along the channels
    | Tanh(src: Node)
    | Add(left: Node, right: Node)

  datatype Feature = Feature(shape: MapShape, node: Node)

  datatype Windows = Windows(shape: WindowShape, node: Node)

  /** The two streams a dual-stream module takes and returns, thermal first. */
  datatype Pair<T> = Pair(x: T, y: T)

  /** What the source raises, by cause. */
  datatype Error =
    | HeadsNotDivisor        // ValueError: channels not divisible by heads
    | ZeroHeads              // ZeroDivisionError in that same check
    | StreamShapeMismatch    // ValueError: the two attention inputs differ in shape
    | ChannelMismatch        // ValueError: attention input channels differ from the configured count
    | BiasShapeMismatch      // torch: the position bias does not broadcast onto the attention scores
    | WindowMisfit           // the map is not tiled exactly by the window
    | LayerInputMismatch     // torch: a layer gets a channel count other than it was built for
    | InputTooSmall          // torch: the spatial size is too small for a kernel
    | ConcatMismatch         // torch.cat: sizes other than the channels differ
    | BroadcastMismatch      // torch: shapes that do not broadcast
    | ListLengthMismatch     // AssertionError: the per-scale lists differ in length
    | NoScales               // IndexError: the per-scale lists are empty
    | UnknownUpsampleMode    // ValueError: neither 'conv_transpose' nor 'bilinear'
    | UpsampleNotModule      // TypeError: nn.Sequential is handed a list, which is not a Module

  /** No cross-attention output flows into `n`. */
  predicate AttentionFree(n: Node) {
    match n
    case LowRes | Guide => true
    case Attend(_, _, _, _) => false
    case Resize(s) => AttentionFree(s)
    case Apply(_, _, s) => AttentionFree(s)
    case Partition(s) => AttentionFree(s)
    case Merge(s) => AttentionFree(s)
    case Shift(_, s) => AttentionFree(s)
    case Tanh(s) => AttentionFree(s)
    case Max(a, b) => AttentionFree(a) && AttentionFree(b)
    case Concat(a, b) => AttentionFree(a) && AttentionFree(b)
    case Add(a, b) => AttentionFree(a) && AttentionFree(b)
  }

  /**
   * For every path from `n` back to an input, the directions of the half-window shifts met on it,
   * earliest first.
   */
  function ShiftProfile(n: Node): set<seq<bool>> {
    match n
    case LowRes | Guide => {[]}
    case Shift(f, s) => set p | p in ShiftProfile(s) :: p + [f]
    case Resize(s) => ShiftProfile(s)
    case Apply(_, _, s) => ShiftProfile(s)
    case Partition(s) => ShiftProfile(s)
    case Merge(s) => ShiftProfile(s)
    case Tanh(s) => ShiftProfile(s)
    case Attend(_, _, a, b) => ShiftProfile(a) + ShiftProfile(b)
    case Max(a, b) => ShiftProfile(a) + ShiftProfile(b)
    case Concat(a, b) => ShiftProfile(a) + ShiftProfile(b)
    case Add(a, b) => ShiftProfile(a) + ShiftProfile(b)
  }

  /**
   * The sub-modules a stream passes through along its own path: through the stream's own input of a
   * cross-attention and the first operand of a binary operation, earliest first.
   */
  function OwnTrail(n: Node): seq<Component> {
    match n
    case LowRes | Guide => []
    case Apply(c, _, s) => OwnTrail(s) + [c]
    case Attend(c, _, own, _) => OwnTrail(own) + [c]
    case Resize(s) => OwnTrail(s)
    case Partition(s) => OwnTrail(s)
    case Merge(s) => OwnTrail(s)
    case Shift(_, s) => OwnTrail(s)
    case Tanh(s) => OwnTrail(s)
    case Max(a, _) => OwnTrail(a)
    case Concat(a, _) => OwnTrail(a)
    case Add(a, _) => OwnTrail(a)
  }
}
