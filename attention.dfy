/**
 * WindowCrossAttention and FeedForward: construction-time validation and the shape checks of the
 * forward pass. Each attention output keeps the shape of its own stream; output 1 attends from x to
 * y and output 2 from y to x.
 */
module Attention {
  import opened Wrappers
  import opened Tensors
  import opened WindowGeometry
  import Layers

  /** A constructed WindowCrossAttention: the window it expects and its channel and head counts. */
  datatype WindowCrossAttention = WindowCrossAttention(owner: Component, window: WindowSize, channels: nat, heads: nat)
  {
    /** Heads exist and split the channels without remainder. */
    predicate Valid() {
      heads > 0 && channels % heads == 0
    }

    /** The channels per head, C // heads. */
    function HeadDim(): (d: nat)
      requires Valid()
      ensures heads * d == channels
    {
      channels / heads
    }

    /** The number of elements the relative position bias is built for, per side. */
    function BiasElements(): nat {
      Elements(window)
    }
  }

  /**
   * WindowCrossAttention(window, channels, heads): the floor quotient of the channels by the heads
   * must equal the exact quotient; with no heads that comparison divides by zero.
   */
  function NewWindowCrossAttention(owner: Component, window: WindowSize, channels: nat, heads: nat)
    : (r: Result<WindowCrossAttention, Error>)
    ensures r.Success? <==> heads > 0 && channels % heads == 0
    ensures heads == 0 ==> r == Failure(ZeroHeads)
    ensures heads > 0 && channels % heads != 0 ==> r == Failure(HeadsNotDivisor)
    ensures r.Success? ==> r.value == WindowCrossAttention(owner, window, channels, heads) && r.value.Valid()
  {
    if heads == 0 then Failure(ZeroHeads)
    else if (channels / heads) * heads != channels then Failure(HeadsNotDivisor)
    else Success(WindowCrossAttention(owner, window, channels, heads))
  }

  /**
   * The in-place addition of the (1, heads, N', N') position bias to the (B_, heads, N, N) scores
   * keeps the scores' shape: N' equals N, or N' is 1 and broadcasts.
   */
  predicate BiasFits(a: WindowCrossAttention, elements: nat) {
    Layers.BroadcastDim(elements, a.BiasElements()) == Some(elements)
  }

  /** WindowCrossAttention.forward on window batches x and y. */
  function AttentionForward(a: WindowCrossAttention, x: Windows, y: Windows): (r: Result<Pair<Windows>, Error>)
    requires a.Valid()
    ensures x.shape != y.shape ==> r == Failure(StreamShapeMismatch)
    ensures x.shape == y.shape && x.shape.channels != a.channels ==> r == Failure(ChannelMismatch)
    ensures r.Success? <==>
      x.shape == y.shape && x.shape.channels == a.channels &&
      (a.BiasElements() == x.shape.elements || a.BiasElements() == 1)
    ensures r.Success? ==> r.value.x.shape == x.shape && r.value.y.shape == y.shape
    ensures r.Success? ==>
      r.value.x.node == Attend(a.owner, 1, x.node, y.node) &&
      r.value.y.node == Attend(a.owner, 2, y.node, x.node)
  {
    if x.shape != y.shape then Failure(StreamShapeMismatch)
    else if x.shape.channels != a.channels then Failure(ChannelMismatch)
    else if !BiasFits(a, x.shape.elements) then Failure(BiasShapeMismatch)
    else Success(Pair(Windows(x.shape, Attend(a.owner, 1, x.node, y.node)),
                      Windows(y.shape, Attend(a.owner, 2, y.node, x.node))))
  }

  /** A constructed FeedForward: fc1 widens the channels by `expansion`, fc2 narrows them back. */
  datatype FeedForward = FeedForward(owner: Component, channels: nat, expansion: nat)

  /** FeedForward.forward: the residual norm keeps the shape of its input. */
  function FeedForwardApply(f: FeedForward, x: Windows): (r: Result<Windows, Error>)
    ensures r.Success? <==> x.shape.channels == f.channels
    ensures r.Success? ==> r.value.shape == x.shape && r.value.node == Apply(f.owner, 0, x.node)
  {
    if x.shape.channels != f.channels then Failure(LayerInputMismatch)
    else Success(Windows(x.shape, Apply(f.owner, 0, x.node)))
  }

  /** The shipped eight heads divide each shipped channel count. */
  lemma ShippedHeadsDivide(owner: Component, window: WindowSize, channels: nat)
    requires channels == 64 || channels == 128 || channels == 256
    ensures NewWindowCrossAttention(owner, window, channels, 8).Success?
    ensures NewWindowCrossAttention(owner, window, channels, 8).value.HeadDim() == channels / 8
  {
  }
}
