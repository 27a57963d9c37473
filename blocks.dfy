/**
 * CrossAttentionBlock: two cross-attention passes over the two streams, the first on the plain
 * window tiling and the second after a half-window shift, each followed by a feed-forward layer
 * that both streams share and by merging the windows back into maps of the size of x.
 */
module CrossAttentionBlocks {
  import opened Wrappers
  import opened Tensors
  import opened WindowGeometry
  import opened Attention
  import opened Arithmetic

  /** The hidden widening of every FeedForward a block builds. */
  const Expansion: nat := 4

  /** A constructed CrossAttentionBlock, the `index`-th of the network. */
  datatype CrossAttentionBlock = CrossAttentionBlock(
    index: nat, window: WindowSize, channels: nat,
    attention1: WindowCrossAttention, feedForward1: FeedForward,
    attention2: WindowCrossAttention, feedForward2: FeedForward)
  {
    /** Both passes are built for this block's window and channels and named after their pass. */
    predicate Valid() {
      attention1.Valid() && attention2.Valid() &&
      attention1 == WindowCrossAttention(BlockAttention(index, 1), window, channels, attention1.heads) &&
      attention2 == WindowCrossAttention(BlockAttention(index, 2), window, channels, attention2.heads) &&
      feedForward1 == FeedForward(BlockFeedForward(index, 1), channels, Expansion) &&
      feedForward2 == FeedForward(BlockFeedForward(index, 2), channels, Expansion)
    }
  }

  /** CrossAttentionBlock(window, channels, heads): the first attention is built, and checked, first. */
  function NewCrossAttentionBlock(index: nat, window: WindowSize, channels: nat, heads: nat)
    : (r: Result<CrossAttentionBlock, Error>)
    ensures r.Success? <==> heads > 0 && channels % heads == 0
    ensures r.Failure? ==> r.error == NewWindowCrossAttention(BlockAttention(index, 1), window, channels, heads).error
    ensures r.Success? ==>
      r.value.Valid() && r.value.index == index && r.value.window == window && r.value.channels == channels
  {
    var attention1 :- NewWindowCrossAttention(BlockAttention(index, 1), window, channels, heads);
    var feedForward1 := FeedForward(BlockFeedForward(index, 1), channels, Expansion);
    // the second attention gets the same arguments, so it passes the same check
    var attention2 := WindowCrossAttention(BlockAttention(index, 2), window, channels, heads);
    var feedForward2 := FeedForward(BlockFeedForward(index, 2), channels, Expansion);
    Success(CrossAttentionBlock(index, window, channels, attention1, feedForward1, attention2, feedForward2))
  }

  /** CrossAttentionBlock.forward on maps x and y; both are merged back at the image size of x. */
  function BlockForward(b: CrossAttentionBlock, x: Feature, y: Feature): (r: Result<Pair<Feature>, Error>)
    requires b.Valid()
  {
    var height, width := x.shape.height, x.shape.width;
    var px :- WindowPartition(x, b.window);
    var py :- WindowPartition(y, b.window);
    var first :- AttentionForward(b.attention1, px, py);
    var fx :- FeedForwardApply(b.feedForward1, first.x);
    var fy :- FeedForwardApply(b.feedForward1, first.y);
    var mx :- WindowMerge(fx, b.window, height, width);
    var my :- WindowMerge(fy, b.window, height, width);
    var sx := HalfWindowShift(mx, b.window, false);
    var sy := HalfWindowShift(my, b.window, false);
    var qx :- WindowPartition(sx, b.window);
    var qy :- WindowPartition(sy, b.window);
    var second :- AttentionForward(b.attention2, qx, qy);
    var gx :- FeedForwardApply(b.feedForward2, second.x);
    var gy :- FeedForwardApply(b.feedForward2, second.y);
    var ox :- WindowMerge(gx, b.window, height, width);
    var oy :- WindowMerge(gy, b.window, height, width);
    Success(Pair(ox, oy))
  }

  /** The number of windows a map that the window fits is cut into. */
  function WindowCount(s: MapShape, ws: WindowSize): nat
    requires Fits(s, ws)
  {
    s.batch * Tiles(s.height, s.width, ws)
  }

  /** The dataflow term of output `stream` of pass `pass` of block `b`, from the two inputs. */
  function PassNode(b: CrossAttentionBlock, pass: nat, stream: nat, own: Node, other: Node): Node {
    Merge(Apply(BlockFeedForward(b.index, pass), 0,
      Attend(BlockAttention(b.index, pass), stream, Partition(own), Partition(other))))
  }

  /** The two outputs of a block that succeeds, as dataflow terms. */
  function BlockNodes(b: CrossAttentionBlock, x: Node, y: Node): Pair<Node> {
    var mx, my := PassNode(b, 1, 1, x, y), PassNode(b, 1, 2, y, x);
    Pair(PassNode(b, 2, 1, Shift(false, mx), Shift(false, my)),
         PassNode(b, 2, 2, Shift(false, my), Shift(false, mx)))
  }

  /**
   * A block runs exactly when the window tiles both maps, both have the block's channels, and they
   * are cut into equally many windows; then both outputs take the shape of x, and their terms are
   * the two passes one after the other.
   */
  lemma BlockSucceedsIff(b: CrossAttentionBlock, x: Feature, y: Feature)
    requires b.Valid()
    ensures BlockForward(b, x, y).Success? <==>
      Fits(x.shape, b.window) && Fits(y.shape, b.window) &&
      x.shape.channels == b.channels && y.shape.channels == b.channels &&
      WindowCount(x.shape, b.window) == WindowCount(y.shape, b.window)
    ensures BlockForward(b, x, y).Success? ==>
      BlockForward(b, x, y).value ==
        Pair(Feature(x.shape, BlockNodes(b, x.node, y.node).x), Feature(x.shape, BlockNodes(b, x.node, y.node).y))
  {
    var ws := b.window;
    if Fits(x.shape, ws) && Fits(y.shape, ws) && x.shape.channels == b.channels && y.shape.channels == b.channels &&
       WindowCount(x.shape, ws) == WindowCount(y.shape, ws) {
      var px := WindowPartition(x, ws).value;
      var py := WindowPartition(y, ws).value;
      assert px.shape == py.shape;
      var first := AttentionForward(b.attention1, px, py).value;
      var fx := FeedForwardApply(b.feedForward1, first.x).value;
      var fy := FeedForwardApply(b.feedForward1, first.y).value;
      MergeRestoresShape(x, ws, fx);
      MergeRestoresShape(x, ws, fy);
      var sx := HalfWindowShift(WindowMerge(fx, ws, x.shape.height, x.shape.width).value, ws, false);
      var sy := HalfWindowShift(WindowMerge(fy, ws, x.shape.height, x.shape.width).value, ws, false);
      var qx := WindowPartition(sx, ws).value;
      var qy := WindowPartition(sy, ws).value;
      var second := AttentionForward(b.attention2, qx, qy).value;
      var gx := FeedForwardApply(b.feedForward2, second.x).value;
      var gy := FeedForwardApply(b.feedForward2, second.y).value;
      MergeRestoresShape(x, ws, gx);
      MergeRestoresShape(x, ws, gy);
    } else if Fits(x.shape, ws) && Fits(y.shape, ws) && x.shape.channels == b.channels && y.shape.channels == b.channels {
      var px := WindowPartition(x, ws).value;
      var py := WindowPartition(y, ws).value;
      assert px.shape.windows != py.shape.windows by {
        MulCancelWindows(px.shape.windows, WindowCount(x.shape, ws), py.shape.windows, WindowCount(y.shape, ws), Elements(ws));
      }
    }
  }

  lemma MulCancelWindows(a: nat, a': nat, c: nat, c': nat, e: nat)
    requires e > 0 && a * e == a' * e && c * e == c' * e && a' != c'
    ensures a != c
  {
    MulCancel(a, a', e);
    MulCancel(c, c', e);
  }

  /** Both outputs of a block have the shape of x. */
  lemma BlockKeepsShape(b: CrossAttentionBlock, x: Feature, y: Feature)
    requires b.Valid() && BlockForward(b, x, y).Success?
    ensures BlockForward(b, x, y).value.x.shape == x.shape
    ensures BlockForward(b, x, y).value.y.shape == x.shape
  {
    BlockSucceedsIff(b, x, y);
  }

  /**
   * The guide's size is not checked against x: a y of twice the height and half the batch is cut into
   * as many windows, passes, and comes back merged at the size of x.
   */
  lemma GuideSizeNotChecked(b: CrossAttentionBlock, x: Feature, y: Feature)
    requires b.Valid() && b.window == WindowSize(7, 10)
    requires x.shape == MapShape(2, b.channels, 14, 10) && y.shape == MapShape(1, b.channels, 28, 10)
    ensures BlockForward(b, x, y).Success?
    ensures BlockForward(b, x, y).value.y.shape == x.shape != y.shape
  {
    assert Tiles(14, 10, b.window) == 2;
    assert Tiles(28, 10, b.window) == 4;
    BlockSucceedsIff(b, x, y);
  }

  lemma PassProvenance(b: CrossAttentionBlock, pass: nat, stream: nat, own: Node, other: Node)
    ensures OwnTrail(PassNode(b, pass, stream, own, other))
         == OwnTrail(own) + [BlockAttention(b.index, pass), BlockFeedForward(b.index, pass)]
    ensures ShiftProfile(PassNode(b, pass, stream, own, other)) == ShiftProfile(own) + ShiftProfile(other)
  {
    var a := Attend(BlockAttention(b.index, pass), stream, Partition(own), Partition(other));
    var f := Apply(BlockFeedForward(b.index, pass), 0, a);
    assert PassNode(b, pass, stream, own, other) == Merge(f);
    assert OwnTrail(a) == OwnTrail(own) + [BlockAttention(b.index, pass)];
    assert OwnTrail(f) == OwnTrail(a) + [BlockFeedForward(b.index, pass)];
    assert ShiftProfile(f) == ShiftProfile(a) == ShiftProfile(own) + ShiftProfile(other);
    assert OwnTrail(own) + [BlockAttention(b.index, pass)] + [BlockFeedForward(b.index, pass)]
        == OwnTrail(own) + [BlockAttention(b.index, pass), BlockFeedForward(b.index, pass)];
  }

  /**
   * Each stream passes, in order, through the first attention, the first feed-forward layer, the
   * second attention and the second feed-forward layer; the same feed-forward layers serve both.
   */
  lemma BlockTrail(b: CrossAttentionBlock, x: Node, y: Node)
    ensures var passes := [BlockAttention(b.index, 1), BlockFeedForward(b.index, 1),
                           BlockAttention(b.index, 2), BlockFeedForward(b.index, 2)];
      OwnTrail(BlockNodes(b, x, y).x) == OwnTrail(x) + passes &&
      OwnTrail(BlockNodes(b, x, y).y) == OwnTrail(y) + passes
  {
    var mx, my := PassNode(b, 1, 1, x, y), PassNode(b, 1, 2, y, x);
    PassProvenance(b, 1, 1, x, y);
    PassProvenance(b, 1, 2, y, x);
    PassProvenance(b, 2, 1, Shift(false, mx), Shift(false, my));
    PassProvenance(b, 2, 2, Shift(false, my), Shift(false, mx));
  }

  /**
   * Starting from unshifted inputs, every path to either output crosses exactly one half-window
   * shift, the backward one, and nothing shifts it back.
   */
  lemma BlockShiftsOnce(b: CrossAttentionBlock, x: Node, y: Node)
    requires ShiftProfile(x) == {[]} && ShiftProfile(y) == {[]}
    ensures ShiftProfile(BlockNodes(b, x, y).x) == {[false]}
    ensures ShiftProfile(BlockNodes(b, x, y).y) == {[false]}
  {
    var mx, my := PassNode(b, 1, 1, x, y), PassNode(b, 1, 2, y, x);
    PassProvenance(b, 1, 1, x, y);
    PassProvenance(b, 1, 2, y, x);
    PassProvenance(b, 2, 1, Shift(false, mx), Shift(false, my));
    PassProvenance(b, 2, 2, Shift(false, my), Shift(false, mx));
    assert ShiftProfile(Shift(false, mx)) == {[false]} by {
      assert [] + [false] == [false];
    }
    assert ShiftProfile(Shift(false, my)) == {[false]} by {
      assert [] + [false] == [false];
    }
  }
}
