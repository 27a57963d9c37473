/**
 * The three window helpers the attention blocks call, at the level of shapes. A map (B, C, H, W)
 * tiled by windows of wh x ww becomes a window batch (B * (H/wh) * (W/ww), wh * ww, C); merging
 * reverses that for a given image size; the half-window shift keeps the shape. What the helpers do
 * to the individual values is not modelled.
 */
module WindowGeometry {
  import opened Wrappers
  import opened Tensors
  import opened Arithmetic

  /** The (height, width) of a window. */
  datatype WindowSize = WindowSize(height: nat, width: nat)

  /** The number of elements in one window, N = wh * ww. */
  function Elements(ws: WindowSize): nat {
    ws.height * ws.width
  }

  /** An image of `height` x `width` is tiled exactly, by at least one window, of size `ws`. */
  predicate Tiled(height: nat, width: nat, ws: WindowSize) {
    ws.height > 0 && ws.width > 0 && height > 0 && width > 0 &&
    height % ws.height == 0 && width % ws.width == 0
  }

  predicate Fits(s: MapShape, ws: WindowSize) {
    Tiled(s.height, s.width, ws)
  }

  /** The number of windows that tile one image. */
  function Tiles(height: nat, width: nat, ws: WindowSize): (r: nat)
    requires Tiled(height, width, ws)
    ensures r > 0 && r * Elements(ws) == height * width
  {
    MulRegroup(height / ws.height, ws.height, width / ws.width, ws.width);
    (height / ws.height) * (width / ws.width)
  }

  /** utils.window_partition: (B, C, H, W) to (B * tiles, wh * ww, C). */
  function WindowPartition(x: Feature, ws: WindowSize): (r: Result<Windows, Error>)
    ensures r.Success? <==> Fits(x.shape, ws)
    ensures r.Success? ==>
      r.value.shape.windows * Elements(ws) == x.shape.batch * x.shape.height * x.shape.width &&
      r.value.shape.elements == Elements(ws) && r.value.shape.channels == x.shape.channels
    ensures r.Success? ==> r.value.node == Partition(x.node)
  {
    if !Fits(x.shape, ws) then Failure(WindowMisfit)
    else
      var t := Tiles(x.shape.height, x.shape.width, ws);
      assert (x.shape.batch * t) * Elements(ws) == x.shape.batch * (t * Elements(ws));
      Success(Windows(WindowShape(x.shape.batch * t, Elements(ws), x.shape.channels), Partition(x.node)))
  }

  /** utils.window_merge: a window batch back to maps of `height` x `width`. */
  function WindowMerge(w: Windows, ws: WindowSize, height: nat, width: nat): (r: Result<Feature, Error>)
    ensures r.Success? <==>
      Tiled(height, width, ws) && w.shape.elements == Elements(ws) &&
      w.shape.windows % Tiles(height, width, ws) == 0
    ensures r.Success? ==>
      r.value.shape.batch * height * width == w.shape.windows * Elements(ws) &&
      r.value.shape.channels == w.shape.channels &&
      r.value.shape.height == height && r.value.shape.width == width
    ensures r.Success? ==> r.value.node == Merge(w.node)
  {
    if !Tiled(height, width, ws) || w.shape.elements != Elements(ws) then Failure(WindowMisfit)
    else
      var t := Tiles(height, width, ws);
      if w.shape.windows % t != 0 then Failure(WindowMisfit)
      else
        var b := w.shape.windows / t;
        assert b * t == w.shape.windows;
        assert b * height * width == b * (t * Elements(ws));
        Success(Feature(MapShape(b, w.shape.channels, height, width), Merge(w.node)))
  }

  /** utils.half_window_shift: a cyclic shift by half a window, forward or back. */
  function HalfWindowShift(x: Feature, ws: WindowSize, forward: bool): (r: Feature)
    ensures r.shape == x.shape && r.node == Shift(forward, x.node)
  {
    Feature(x.shape, Shift(forward, x.node))
  }

  /**
   * Any window batch of the shape a map partitions into merges, with that map's size, back into a
   * map of the map's shape; in particular the map's own windows do.
   */
  lemma MergeRestoresShape(x: Feature, ws: WindowSize, w: Windows)
    requires Fits(x.shape, ws) && w.shape == WindowPartition(x, ws).value.shape
    ensures WindowMerge(w, ws, x.shape.height, x.shape.width) == Success(Feature(x.shape, Merge(w.node)))
  {
    var t := Tiles(x.shape.height, x.shape.width, ws);
    MulDivCancel(x.shape.batch, t);
    assert w.shape.windows == x.shape.batch * t by {
      assert w.shape.windows * Elements(ws) == (x.shape.batch * t) * Elements(ws);
      MulCancel(w.shape.windows, x.shape.batch * t, Elements(ws));
    }
  }

  lemma MergeAfterPartition(x: Feature, ws: WindowSize)
    requires Fits(x.shape, ws)
    ensures WindowMerge(WindowPartition(x, ws).value, ws, x.shape.height, x.shape.width)
         == Success(Feature(x.shape, Merge(Partition(x.node))))
  {
    MergeRestoresShape(x, ws, WindowPartition(x, ws).value);
  }

  /** Partitioning a merged map gives back a window batch of the shape that was merged. */
  lemma PartitionAfterMerge(w: Windows, ws: WindowSize, height: nat, width: nat)
    requires WindowMerge(w, ws, height, width).Success?
    ensures WindowPartition(WindowMerge(w, ws, height, width).value, ws)
         == Success(Windows(w.shape, Partition(Merge(w.node))))
  {
    var x := WindowMerge(w, ws, height, width).value;
    var p := WindowPartition(x, ws).value;
    assert p.shape.windows * Elements(ws) == w.shape.windows * Elements(ws) by {
      assert p.shape.windows * Elements(ws) == x.shape.batch * height * width;
    }
    MulCancel(p.shape.windows, w.shape.windows, Elements(ws));
  }
}
