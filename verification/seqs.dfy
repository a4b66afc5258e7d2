/** Sequence helpers shared by the renderer: flattening a sequence of line
    blocks, and locating a position of the flattened sequence in its block. */
module Seqs {

  /** Concatenates the blocks in order. */
  function Flatten<T>(bs: seq<seq<T>>): seq<T>
  {
    if |bs| == 0 then [] else bs[0] + Flatten(bs[1..])
  }

  /** Number of elements contributed by the first `b` blocks. */
  function Offset<T>(bs: seq<seq<T>>, b: nat): nat
    requires b <= |bs|
    decreases bs, b
  {
    if b == 0 then 0 else Offset(bs, b - 1) + |bs[b - 1]|
  }

  lemma {:induction false} FlattenAppend<T>(xs: seq<seq<T>>, ys: seq<seq<T>>)
    ensures Flatten(xs + ys) == Flatten(xs) + Flatten(ys)
  {
    if |xs| == 0 {
      assert xs + ys == ys;
    } else {
      assert (xs + ys)[1..] == xs[1..] + ys;
      FlattenAppend(xs[1..], ys);
    }
  }

  /** The first `b` blocks flatten to `Offset(bs, b)` elements. */
  lemma {:induction false} OffsetLength<T>(bs: seq<seq<T>>, b: nat)
    requires b <= |bs|
    ensures |Flatten(bs[..b])| == Offset(bs, b)
  {
    if b > 0 {
      OffsetLength(bs, b - 1);
      assert bs[..b] == bs[..b - 1] + [bs[b - 1]];
      FlattenAppend(bs[..b - 1], [bs[b - 1]]);
      assert Flatten([bs[b - 1]]) == bs[b - 1] + Flatten([bs[b - 1]][1..]);
    }
  }

  /** The flattened sequence is the first `b` blocks, then block `b`, then the rest. */
  lemma FlattenSplit<T>(bs: seq<seq<T>>, b: nat)
    requires b < |bs|
    ensures Flatten(bs) == Flatten(bs[..b]) + bs[b] + Flatten(bs[b + 1..])
    ensures |Flatten(bs[..b])| == Offset(bs, b)
  {
    assert bs == bs[..b] + bs[b..];
    FlattenAppend(bs[..b], bs[b..]);
    assert bs[b..][1..] == bs[b + 1..];
    OffsetLength(bs, b);
  }

  /** Element `j` of block `b` sits at position `Offset(bs, b) + j`. */
  lemma FlattenAt<T>(bs: seq<seq<T>>, b: nat, j: nat)
    requires b < |bs| && j < |bs[b]|
    ensures Offset(bs, b) + j < |Flatten(bs)|
    ensures Flatten(bs)[Offset(bs, b) + j] == bs[b][j]
  {
    FlattenSplit(bs, b);
  }

  /** Block `b` occupies a contiguous slice of the flattened sequence. */
  lemma FlattenSlice<T>(bs: seq<seq<T>>, b: nat)
    requires b < |bs|
    ensures Offset(bs, b) + |bs[b]| <= |Flatten(bs)|
    ensures Flatten(bs)[Offset(bs, b)..Offset(bs, b) + |bs[b]|] == bs[b]
  {
    FlattenSplit(bs, b);
  }

  lemma OffsetStep<T>(bs: seq<seq<T>>, b: nat)
    requires b < |bs|
    ensures Offset(bs, b + 1) == Offset(bs, b) + |bs[b]|
  {
  }

  /** Later blocks start no earlier than the end of earlier blocks. */
  lemma {:induction false} OffsetMonotone<T>(bs: seq<seq<T>>, b1: nat, b2: nat)
    requires b1 < b2 <= |bs|
    ensures Offset(bs, b1) + |bs[b1]| <= Offset(bs, b2)
    decreases b2 - b1
  {
    OffsetStep(bs, b1);
    if b1 + 1 < b2 {
      OffsetMonotone(bs, b1 + 1, b2);
      OffsetStep(bs, b1 + 1);
    }
  }

  lemma OffsetBound<T>(bs: seq<seq<T>>, b: nat)
    requires b <= |bs|
    ensures Offset(bs, b) <= |Flatten(bs)|
  {
    if b < |bs| {
      FlattenSplit(bs, b);
    } else {
      assert bs[..b] == bs;
      OffsetLength(bs, b);
    }
  }

  /** Every position of the flattened sequence belongs to exactly one
      (block, index-in-block) pair; this finds it. */
  lemma {:induction false} Locate<T>(bs: seq<seq<T>>, p: nat) returns (b: nat, j: nat)
    requires p < |Flatten(bs)|
    ensures b < |bs| && j < |bs[b]|
    ensures p == Offset(bs, b) + j
    ensures Flatten(bs)[p] == bs[b][j]
  {
    var b0 := 0;
    OffsetLength(bs, |bs|);
    assert bs[..|bs|] == bs;
    // find the last block whose offset is at most p
    while Offset(bs, b0 + 1) <= p
      invariant b0 < |bs|
      invariant Offset(bs, b0) <= p
      decreases |bs| - b0
    {
      if b0 + 1 == |bs| {
        assert false;
      }
      b0 := b0 + 1;
    }
    OffsetStep(bs, b0);
    b, j := b0, p - Offset(bs, b0);
    FlattenAt(bs, b, j);
  }

  /** Whatever follows block `b` in the flattened sequence is the first
      element of a later, non-empty block. */
  lemma NextBlock<T>(bs: seq<seq<T>>, b: nat) returns (c: nat)
    requires b < |bs| && Offset(bs, b) + |bs[b]| < |Flatten(bs)|
    ensures b < c < |bs| && |bs[c]| > 0
    ensures Offset(bs, c) == Offset(bs, b) + |bs[b]|
  {
    var p := Offset(bs, b) + |bs[b]|;
    var j;
    c, j := Locate(bs, p);
    OffsetStep(bs, b);
    if c <= b {
      OffsetMonotone(bs, c, b + 1);
    } else if c > b + 1 {
      OffsetMonotone(bs, b + 1, c);
    }
  }

  // ---------------------------------------------------------------------
  // A flattened sequence between two delimiters.

  /** `first`, then the blocks in order, then `last`. */
  function Framed<T>(first: T, bs: seq<seq<T>>, last: T): (s: seq<T>)
    ensures |s| == |Flatten(bs)| + 2 && s[0] == first && s[|s| - 1] == last
  {
    [first] + Flatten(bs) + [last]
  }

  /** Element `j` of block `b` sits at position `1 + Offset(bs, b) + j`,
      and the whole block lies before the closing delimiter. */
  lemma FramedAt<T>(first: T, bs: seq<seq<T>>, last: T, b: nat, j: nat)
    requires b < |bs| && j < |bs[b]|
    ensures 1 + Offset(bs, b) + |bs[b]| <= |Framed(first, bs, last)| - 1
    ensures Framed(first, bs, last)[1 + Offset(bs, b) + j] == bs[b][j]
  {
    FlattenAt(bs, b, j);
    FlattenSlice(bs, b);
  }

  /** Every position strictly between the delimiters belongs to some block. */
  lemma FramedLocate<T>(first: T, bs: seq<seq<T>>, last: T, k: nat) returns (b: nat, j: nat)
    requires 0 < k < |Framed(first, bs, last)| - 1
    ensures b < |bs| && j < |bs[b]|
    ensures k == 1 + Offset(bs, b) + j
    ensures Framed(first, bs, last)[k] == bs[b][j]
  {
    b, j := Locate(bs, k - 1);
  }

  /** Whatever follows block `b` before the closing delimiter is the first
      element of a later, non-empty block. */
  lemma FramedNext<T>(first: T, bs: seq<seq<T>>, last: T, b: nat) returns (c: nat)
    requires b < |bs| && 1 + Offset(bs, b) + |bs[b]| < |Framed(first, bs, last)| - 1
    ensures b < c < |bs| && |bs[c]| > 0
    ensures Offset(bs, c) == Offset(bs, b) + |bs[b]|
  {
    c := NextBlock(bs, b);
  }
}
