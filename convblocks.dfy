/**
 * ConvBlock: a first 3x3 convolution from the input to the hidden channel count, then for every
 * further layer a LeakyReLU and a 3x3 hidden-to-hidden convolution, each convolution optionally
 * followed by the norm layer. Every convolution has stride 1 and padding 1, so the block keeps the
 * height and width and outputs the hidden channel count.
 */
module ConvBlocks {
  import opened Wrappers
  import opened Tensors
  import opened Layers

  /** nn.Conv2d(cin, cout, 3, 1, 1). */
  function Conv3(cin: nat, cout: nat): Layer {
    Conv2d(cin, cout, 3, 1, 1)
  }

  /** The layers `head` followed by `k` copies of `stage`. */
  function Repeated(head: seq<Layer>, stage: seq<Layer>, k: nat): (r: seq<Layer>)
    ensures |r| == |head| + k * |stage|
  {
    if k == 0 then head else Repeated(head, stage, k - 1) + stage
  }

  /** What norm_layer contributes after each convolution: itself, or nothing when it is None. */
  function NormAfter(norm: bool): seq<Layer> {
    if norm then [Norm] else []
  }

  /** range(numLayers - 1) runs this many times. */
  function Repeats(numLayers: int): nat {
    if numLayers > 1 then numLayers - 1 else 0
  }

  /** The layers ConvBlock(cin, hidden, numLayers, norm_layer) appends, in order. */
  function ConvBlockLayers(cin: nat, hidden: nat, numLayers: int, norm: bool): seq<Layer> {
    Repeated([Conv3(cin, hidden)] + NormAfter(norm), [LeakyReLU, Conv3(hidden, hidden)] + NormAfter(norm),
             Repeats(numLayers))
  }

  /** ConvBlock.__init__: appends the layers one by one. */
  method NewConvBlock(owner: Component, cin: nat, hidden: nat, numLayers: int, norm: bool)
    returns (block: LayerStack)
    ensures block == LayerStack(owner, ConvBlockLayers(cin, hidden, numLayers, norm))
  {
    var layers := [Conv3(cin, hidden)];
    if norm {
      layers := layers + [Norm];
    }
    var i := 0;
    while i < numLayers - 1
      invariant i == 0 || i <= numLayers - 1
      invariant layers == Repeated([Conv3(cin, hidden)] + NormAfter(norm),
                                   [LeakyReLU, Conv3(hidden, hidden)] + NormAfter(norm), i)
    {
      layers := layers + [LeakyReLU];
      layers := layers + [Conv3(hidden, hidden)];
      if norm {
        layers := layers + [Norm];
      }
      i := i + 1;
    }
    assert i == Repeats(numLayers);
    block := LayerStack(owner, layers);
  }

  /** ConvBlock.forward: each layer in turn, until one refuses its input. */
  method ConvBlockForward(block: LayerStack, x: Feature) returns (r: Result<Feature, Error>)
    requires StackWellFormed(block)
    ensures r == StackForward(block, x)
  {
    var current := x;
    var i := 0;
    while i < |block.layers|
      invariant 0 <= i <= |block.layers|
      invariant StackPrefix(block, x, i) == Success(current)
    {
      var next := ApplyLayer(block.owner, i, block.layers[i], current);
      if next.Failure? {
        StackFailureSticks(block, x, i + 1, |block.layers|);
        return next;
      }
      current := next.value;
      i := i + 1;
    }
    r := Success(current);
  }

  /**
   * Without a norm layer a block of numLayers >= 1 holds 2 * numLayers - 1 layers: the in-to-hidden
   * convolution first, then LeakyReLU and hidden-to-hidden convolution alternately.
   */
  lemma {:induction false} ConvBlockLayout(cin: nat, hidden: nat, numLayers: int)
    requires numLayers >= 1
    ensures var ls := ConvBlockLayers(cin, hidden, numLayers, false);
      |ls| == 2 * numLayers - 1 && ls[0] == Conv3(cin, hidden) &&
      (forall i :: 0 < i < |ls| ==> ls[i] == if i % 2 == 1 then LeakyReLU else Conv3(hidden, hidden))
    decreases numLayers
  {
    var ls := ConvBlockLayers(cin, hidden, numLayers, false);
    if numLayers > 1 {
      ConvBlockLayout(cin, hidden, numLayers - 1);
      var front := ConvBlockLayers(cin, hidden, numLayers - 1, false);
      assert ls == front + [LeakyReLU, Conv3(hidden, hidden)];
      forall i | 0 < i < |ls|
        ensures ls[i] == if i % 2 == 1 then LeakyReLU else Conv3(hidden, hidden)
      {
        if i < |front| {
          assert ls[i] == front[i];
        }
      }
    }
  }

  /** With a norm layer every convolution is followed by it: 3 * numLayers - 1 layers for numLayers >= 1. */
  lemma {:induction false} ConvBlockLayoutWithNorm(cin: nat, hidden: nat, numLayers: int)
    requires numLayers >= 1
    ensures var ls := ConvBlockLayers(cin, hidden, numLayers, true);
      |ls| == 3 * numLayers - 1 && ls[0] == Conv3(cin, hidden) &&
      (forall i :: 0 < i < |ls| ==>
        ls[i] == if i % 3 == 1 then Norm else if i % 3 == 2 then LeakyReLU else Conv3(hidden, hidden))
    decreases numLayers
  {
    var ls := ConvBlockLayers(cin, hidden, numLayers, true);
    if numLayers > 1 {
      ConvBlockLayoutWithNorm(cin, hidden, numLayers - 1);
      var front := ConvBlockLayers(cin, hidden, numLayers - 1, true);
      assert ls == front + [LeakyReLU, Conv3(hidden, hidden), Norm];
      forall i | 0 < i < |ls|
        ensures ls[i] == if i % 3 == 1 then Norm else if i % 3 == 2 then LeakyReLU else Conv3(hidden, hidden)
      {
        if i < |front| {
          assert ls[i] == front[i];
        }
      }
    }
  }

  /** Every layer after the first keeps a hidden-channel map's shape. */
  predicate HiddenTail(ls: seq<Layer>, hidden: nat) {
    forall i :: 0 < i < |ls| ==> ls[i] in {LeakyReLU, Norm, Conv3(hidden, hidden)}
  }

  lemma {:induction false} ConvBlockHiddenTail(cin: nat, hidden: nat, numLayers: int, norm: bool)
    ensures var ls := ConvBlockLayers(cin, hidden, numLayers, norm);
      |ls| >= 1 && ls[0] == Conv3(cin, hidden) && HiddenTail(ls, hidden)
  {
    ConvBlockTailUpTo(cin, hidden, Repeats(numLayers), norm);
  }

  lemma {:induction false} ConvBlockTailUpTo(cin: nat, hidden: nat, k: nat, norm: bool)
    ensures var ls := Repeated([Conv3(cin, hidden)] + NormAfter(norm),
                               [LeakyReLU, Conv3(hidden, hidden)] + NormAfter(norm), k);
      |ls| >= 1 && ls[0] == Conv3(cin, hidden) && HiddenTail(ls, hidden)
    decreases k
  {
    var stage := [LeakyReLU, Conv3(hidden, hidden)] + NormAfter(norm);
    var ls := Repeated([Conv3(cin, hidden)] + NormAfter(norm), stage, k);
    if k > 0 {
      ConvBlockTailUpTo(cin, hidden, k - 1, norm);
      var front := Repeated([Conv3(cin, hidden)] + NormAfter(norm), stage, k - 1);
      forall i | 0 < i < |ls|
        ensures ls[i] in {LeakyReLU, Norm, Conv3(hidden, hidden)}
      {
        if i < |front| {
          assert ls[i] == front[i];
        } else {
          assert ls[i] == stage[i - |front|];
        }
      }
    }
  }

  /** The layers of a ConvBlock are all well formed. */
  lemma ConvBlockWellFormed(owner: Component, cin: nat, hidden: nat, numLayers: int, norm: bool)
    ensures StackWellFormed(LayerStack(owner, ConvBlockLayers(cin, hidden, numLayers, norm)))
  {
    ConvBlockHiddenTail(cin, hidden, numLayers, norm);
  }

  /** The first k layers of a block whose first layer maps cin to hidden and whose tail keeps shapes. */
  lemma {:induction false} HiddenPrefix(st: LayerStack, cin: nat, hidden: nat, x: Feature, k: nat)
    requires |st.layers| >= 1 && st.layers[0] == Conv3(cin, hidden) && HiddenTail(st.layers, hidden)
    requires StackWellFormed(st) && 1 <= k <= |st.layers|
    requires x.shape.channels == cin && x.shape.height > 0 && x.shape.width > 0
    ensures StackPrefix(st, x, k).Success?
    ensures StackPrefix(st, x, k).value.shape == MapShape(x.shape.batch, hidden, x.shape.height, x.shape.width)
    decreases k
  {
    if k > 1 {
      HiddenPrefix(st, cin, hidden, x, k - 1);
      assert st.layers[k - 1] in {LeakyReLU, Norm, Conv3(hidden, hidden)};
    }
  }

  /**
   * A ConvBlock accepts exactly the maps with its input channel count and a non-empty image, and
   * returns the hidden channel count at the same batch, height and width.
   */
  lemma ConvBlockShape(owner: Component, cin: nat, hidden: nat, numLayers: int, norm: bool, x: Feature)
    ensures StackWellFormed(LayerStack(owner, ConvBlockLayers(cin, hidden, numLayers, norm)))
    ensures var r := StackForward(LayerStack(owner, ConvBlockLayers(cin, hidden, numLayers, norm)), x);
      (r.Success? <==> x.shape.channels == cin && x.shape.height > 0 && x.shape.width > 0) &&
      (r.Success? ==> r.value.shape == MapShape(x.shape.batch, hidden, x.shape.height, x.shape.width)) &&
      (r.Success? ==> r.value.node == Stacked(owner, |ConvBlockLayers(cin, hidden, numLayers, norm)|, x.node))
  {
    var st := LayerStack(owner, ConvBlockLayers(cin, hidden, numLayers, norm));
    ConvBlockHiddenTail(cin, hidden, numLayers, norm);
    if x.shape.channels == cin && x.shape.height > 0 && x.shape.width > 0 {
      HiddenPrefix(st, cin, hidden, x, |st.layers|);
    } else {
      assert StackPrefix(st, x, 1).Failure?;
      StackFailureSticks(st, x, 1, |st.layers|);
    }
  }
}
