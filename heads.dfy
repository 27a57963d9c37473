/**
 * The channel layout of the head split and the head merge in WindowCrossAttention.forward.
 *
 * Split: the 3C channels of the qkv projection of one window element are reshaped to
 * (3, heads, headDim) in row-major order and permuted so that part (q, k or v), then head, then
 * slot index them. Merge: the per-head outputs (heads, headDim) of one element are transposed
 * back next to each other and reshaped to C channels, head after head.
 */
module HeadLayout {
  import opened Arithmetic

  /** Where a qkv channel goes: part 0, 1 or 2 (q, k, v), head, and slot within the head. */
  datatype Slot = Slot(part: nat, head: nat, slot: nat)

  /** The qkv channel that the reshape to (3, heads, headDim) puts at (part, head, slot). */
  function QkvChannel(part: nat, head: nat, slot: nat, heads: nat, headDim: nat): (j: nat)
    requires part < 3 && head < heads && slot < headDim
    ensures j < 3 * heads * headDim
  {
    HeadOffsetBound(head, slot, heads, headDim);
    assert part * (heads * headDim) <= 2 * (heads * headDim) by {
      MulMonotone(part, 2, heads * headDim);
    }
    part * (heads * headDim) + head * headDim + slot
  }

  /** The row-major unravelling of qkv channel `j` over (3, heads, headDim). */
  function SplitChannel(j: nat, heads: nat, headDim: nat): (r: Slot)
    requires heads > 0 && headDim > 0 && j < 3 * heads * headDim
    ensures r.part < 3 && r.head < heads && r.slot < headDim
  {
    var rest := j / headDim;
    DivBelow(j, headDim, 3 * heads);
    DivBelow(rest, heads, 3);
    Slot(rest / heads, rest % heads, j % headDim)
  }

  /** The channel that head `head`, slot `slot` returns to in the merge. */
  function MergeChannel(head: nat, slot: nat, headDim: nat): nat {
    head * headDim + slot
  }

  /** The split sends the channel it reads at (part, head, slot) back to that place. */
  lemma SplitOfQkv(part: nat, head: nat, slot: nat, heads: nat, headDim: nat)
    requires part < 3 && head < heads && slot < headDim
    ensures SplitChannel(QkvChannel(part, head, slot, heads, headDim), heads, headDim) == Slot(part, head, slot)
  {
    var j := QkvChannel(part, head, slot, heads, headDim);
    assert j == (part * heads + head) * headDim + slot;
    DivModUnique(j, headDim, part * heads + head, slot);
    DivModUnique(part * heads + head, heads, part, head);
  }

  /** Every qkv channel is read by the split at exactly the place it unravels to. */
  lemma QkvOfSplit(j: nat, heads: nat, headDim: nat)
    requires heads > 0 && headDim > 0 && j < 3 * heads * headDim
    ensures var s := SplitChannel(j, heads, headDim);
      QkvChannel(s.part, s.head, s.slot, heads, headDim) == j
  {
    var rest := j / headDim;
    var s := SplitChannel(j, heads, headDim);
    assert j == rest * headDim + s.slot;
    assert rest == s.part * heads + s.head;
    assert j == (s.part * heads + s.head) * headDim + s.slot;
  }

  /**
   * The merge inverts the split of any one part: channel c of part `part` goes to head h, slot d,
   * and the merge returns head h, slot d to channel c.
   */
  lemma MergeOfSplit(part: nat, c: nat, heads: nat, headDim: nat)
    requires part < 3 && heads > 0 && headDim > 0 && c < heads * headDim
    ensures part * (heads * headDim) + c < 3 * heads * headDim
    ensures var s := SplitChannel(part * (heads * headDim) + c, heads, headDim);
      s.part == part && MergeChannel(s.head, s.slot, headDim) == c
  {
    var h, d := c / headDim, c % headDim;
    HeadOf(c, heads, headDim);
    assert part * (heads * headDim) + c == QkvChannel(part, h, d, heads, headDim);
    SplitOfQkv(part, h, d, heads, headDim);
  }

  // ---------------------------------------------------------------------------------------------
  // The same layout on the values of one window element

  /** The qkv row of one window element as [part][head][slot]. */
  function SplitHeads<T>(row: seq<T>, heads: nat, headDim: nat): (r: seq<seq<seq<T>>>)
    requires |row| == 3 * heads * headDim
    ensures |r| == 3
    ensures forall s :: 0 <= s < 3 ==> |r[s]| == heads
    ensures forall s, h :: 0 <= s < 3 && 0 <= h < heads ==> |r[s][h]| == headDim
  {
    seq(3, s requires 0 <= s < 3 =>
      seq(heads, h requires 0 <= h < heads =>
        seq(headDim, d requires 0 <= d < headDim => row[QkvChannel(s, h, d, heads, headDim)])))
  }

  /** The per-head vectors of one window element laid side by side, head after head. */
  function MergeHeads<T>(perHead: seq<seq<T>>, headDim: nat): (r: seq<T>)
    requires forall h :: 0 <= h < |perHead| ==> |perHead[h]| == headDim
    ensures |r| == |perHead| * headDim
  {
    if |perHead| == 0 then []
    else MergeHeads(perHead[..|perHead| - 1], headDim) + perHead[|perHead| - 1]
  }

  /** Head h, slot d of the per-head vectors is channel h * headDim + d of the merge. */
  lemma {:induction false} MergeHeadsPlaces<T>(perHead: seq<seq<T>>, headDim: nat, h: nat, d: nat)
    requires forall i :: 0 <= i < |perHead| ==> |perHead[i]| == headDim
    requires h < |perHead| && d < headDim
    ensures MergeChannel(h, d, headDim) < |perHead| * headDim
    ensures MergeHeads(perHead, headDim)[MergeChannel(h, d, headDim)] == perHead[h][d]
    decreases |perHead|
  {
    var last := |perHead| - 1;
    var front := perHead[..last];
    HeadOffsetBound(h, d, |perHead|, headDim);
    if h < last {
      HeadOffsetBound(h, d, last, headDim);
      MergeHeadsPlaces(front, headDim, h, d);
    }
  }

  /** Every value of the qkv row lands at the place its channel unravels to. */
  lemma SplitHeadsPlaces<T>(row: seq<T>, heads: nat, headDim: nat, j: nat)
    requires heads > 0 && headDim > 0 && |row| == 3 * heads * headDim && j < |row|
    ensures var s := SplitChannel(j, heads, headDim);
      SplitHeads(row, heads, headDim)[s.part][s.head][s.slot] == row[j]
  {
    QkvOfSplit(j, heads, headDim);
  }

  /** Merging the heads of one part gives back that part's C channels, in their order. */
  lemma MergeAfterSplit<T>(row: seq<T>, heads: nat, headDim: nat, part: nat)
    requires heads > 0 && headDim > 0 && |row| == 3 * heads * headDim && part < 3
    ensures part * (heads * headDim) + heads * headDim <= |row|
    ensures MergeHeads(SplitHeads(row, heads, headDim)[part], headDim)
         == row[part * (heads * headDim) .. part * (heads * headDim) + heads * headDim]
  {
    var C := heads * headDim;
    assert part * C + C <= 3 * C by {
      MulMonotone(part + 1, 3, C);
    }
    var sp := SplitHeads(row, heads, headDim);
    var m := MergeHeads(sp[part], headDim);
    var want := row[part * C .. part * C + C];
    forall c | 0 <= c < C
      ensures m[c] == want[c]
    {
      MergedChannel(row, heads, headDim, part, c);
    }
  }

  lemma MergedChannel<T>(row: seq<T>, heads: nat, headDim: nat, part: nat, c: nat)
    requires heads > 0 && headDim > 0 && |row| == 3 * heads * headDim && part < 3
    requires c < heads * headDim
    ensures part * (heads * headDim) + c < |row|
    ensures c < |MergeHeads(SplitHeads(row, heads, headDim)[part], headDim)|
    ensures MergeHeads(SplitHeads(row, heads, headDim)[part], headDim)[c] == row[part * (heads * headDim) + c]
  {
    var sp := SplitHeads(row, heads, headDim);
    var h, d := c / headDim, c % headDim;
    HeadOf(c, heads, headDim);
    MergeHeadsPlaces(sp[part], headDim, h, d);
    assert sp[part][h][d] == row[QkvChannel(part, h, d, heads, headDim)];
  }

  // ---------------------------------------------------------------------------------------------
  // Arithmetic helpers

  lemma HeadOffsetBound(head: nat, slot: nat, heads: nat, headDim: nat)
    requires head < heads && slot < headDim
    ensures head * headDim + slot < heads * headDim
  {
    MulMonotone(head + 1, heads, headDim);
  }

  /** Channel c of a C-channel vector sits in head c / headDim at slot c % headDim. */
  lemma HeadOf(c: nat, heads: nat, headDim: nat)
    requires headDim > 0 && c < heads * headDim
    ensures c / headDim < heads && (c / headDim) * headDim + c % headDim == c
  {
    DivBelow(c, headDim, heads);
  }
}
