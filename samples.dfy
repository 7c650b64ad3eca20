/**
 * Blocks of captured samples and the operations on them that both recording modes use:
 * the `reduce` that totals their lengths, `TypedArray.prototype.set` and the
 * concatenation `stopRecording` performs before encoding.
 */
module Samples {
  /** One copied `Float32Array` from a script-processor callback. */
  type Block = seq<real>

  /** The samples of a queue of blocks, in order. */
  ghost function Flatten(q: seq<Block>): seq<real>
  {
    if q == [] then [] else q[0] + Flatten(q[1..])
  }

  /** `q.reduce((s, a) => s + a.length, 0)`: the number of samples the queue holds. */
  function TotalLength(q: seq<Block>): (n: nat)
    ensures n == |Flatten(q)|
  {
    if q == [] then 0 else |q[0]| + TotalLength(q[1..])
  }

  /** Flattening distributes over concatenation of queues. */
  lemma {:induction false} FlattenAppend(p: seq<Block>, q: seq<Block>)
    ensures Flatten(p + q) == Flatten(p) + Flatten(q)
  {
    if p == [] {
      assert p + q == q;
    } else {
      assert (p + q)[1..] == p[1..] + q;
      FlattenAppend(p[1..], q);
    }
  }

  /** Appending a block appends its samples. */
  lemma FlattenSnoc(q: seq<Block>, b: Block)
    ensures Flatten(q + [b]) == Flatten(q) + b
  {
    FlattenAppend(q, [b]);
    assert Flatten([b]) == b + Flatten([]);
  }

  /** The blocks fed so far are a prefix of all the blocks, as samples too. */
  lemma FedPrefix(blocks: seq<Block>, i: nat)
    requires i < |blocks|
    ensures Flatten(blocks[..i + 1]) == Flatten(blocks[..i]) + blocks[i]
    ensures Flatten(blocks) == Flatten(blocks[..i + 1]) + Flatten(blocks[i + 1..])
  {
    TakeSplit(blocks, i);
    FlattenSnoc(blocks[..i], blocks[i]);
    FlattenAppend(blocks[..i + 1], blocks[i + 1..]);
  }

  /** Cutting a sequence after its element `i`. */
  lemma TakeSplit<T>(s: seq<T>, i: nat)
    requires i < |s|
    ensures s[..i + 1] == s[..i] + [s[i]]
    ensures s == s[..i + 1] + s[i + 1..]
  {
  }

  /** `out.set(src, offset)` on a `Float32Array`. */
  method SetRange(out: array<real>, offset: nat, src: seq<real>)
    requires offset + |src| <= out.Length
    modifies out
    ensures out[..offset] == old(out[..offset])
    ensures out[offset..offset + |src|] == src
    ensures out[offset + |src|..] == old(out[offset + |src|..])
  {
    forall k | 0 <= k < |src| {
      out[offset + k] := src[k];
    }
  }

  /** A prefix followed by the range written after it is the longer prefix. */
  lemma Glue(a: seq<real>, k: nat, x: seq<real>, b: seq<real>)
    requires k + |b| <= |a| && a[..k] == x && a[k..k + |b|] == b
    ensures a[..k + |b|] == x + b
  {
    assert a[..k + |b|] == a[..k] + a[k..k + |b|];
  }

  /**
   * Lines 142-145 of `stopRecording`: allocate `totalLen` samples and copy every block
   * in at a running offset. The result is the in-order concatenation of the blocks.
   */
  method Concat(blocks: seq<Block>) returns (r: seq<real>)
    ensures r == Flatten(blocks)
    ensures |r| == TotalLength(blocks)
  {
    var totalLen := TotalLength(blocks);
    var out := new real[totalLen];
    var offset := 0;
    for i := 0 to |blocks|
      invariant offset == |Flatten(blocks[..i])| <= totalLen
      invariant out[..offset] == Flatten(blocks[..i])
    {
      FedPrefix(blocks, i);
      SetRange(out, offset, blocks[i]);
      Glue(out[..], offset, Flatten(blocks[..i]), blocks[i]);
      offset := offset + |blocks[i]|;
    }
    assert blocks[..|blocks|] == blocks;
    r := out[..];
  }
}
