/** The byte-level ring of a channel: slots of `elemsize` bytes, taken round a buffer of `bufsize` slots. */
module Bytes {

  type byte = x: int | 0 <= x < 256

  /** The bytes of slot `p`. */
  function SlotBytes(buf: seq<byte>, e: nat, p: nat): (r: seq<byte>)
    requires p * e + e <= |buf|
    ensures |r| == e
  {
    buf[p * e..p * e + e]
  }

  /** Where the `i`-th element from `off` is, in a ring of `n` slots. */
  function Pos(off: nat, i: nat, n: nat): nat {
    if off + i < n then off + i else off + i - n
  }

  lemma PosIsMod(off: nat, i: nat, n: nat)
    requires off < n && i <= n
    ensures Pos(off, i, n) == (off + i) % n < n
  {
    if off + i >= n { assert (off + i) == n + (off + i - n); }
  }

  /** Different elements of the ring are in different slots. */
  lemma PosInjective(off: nat, i: nat, j: nat, n: nat)
    requires off < n && i < n && j < n && i != j
    ensures Pos(off, i, n) != Pos(off, j, n)
  {
  }

  lemma SlotFits(p: nat, e: nat, n: nat)
    requires p < n
    ensures p * e + e <= n * e
  {
    assert p * e + e == (p + 1) * e;
    Monotone(p + 1, n, e);
  }

  lemma Monotone(p: nat, q: nat, e: nat)
    requires p <= q
    ensures p * e <= q * e
  {
    assert q * e == p * e + (q - p) * e;
  }

  /** Slots do not overlap. */
  lemma SlotsApart(p: nat, q: nat, e: nat)
    requires p < q
    ensures p * e + e <= q * e
  {
    SlotFits(p, e, q);
  }

  /** `after` is `before` with slot `p` holding `v`. */
  ghost predicate Written(before: seq<byte>, after: seq<byte>, e: nat, p: nat, v: seq<byte>) {
    && |after| == |before| && |v| == e && p * e + e <= |before|
    && forall x :: 0 <= x < |before| ==> after[x] == if p * e <= x < p * e + e then v[x - p * e] else before[x]
  }

  lemma WrittenSlot(before: seq<byte>, after: seq<byte>, e: nat, p: nat, v: seq<byte>, q: nat, n: nat)
    requires Written(before, after, e, p, v) && p < n && q < n && |before| == n * e
    ensures q * e + e <= |before|
    ensures SlotBytes(after, e, q) == if q == p then v else SlotBytes(before, e, q)
  {
    SlotFits(q, e, n);
    if q < p { SlotsApart(q, p, e); }
    if p < q { SlotsApart(p, q, e); }
  }

  /** The `nbuf` elements from slot `off` on. */
  function RingOf(buf: seq<byte>, e: nat, n: nat, off: nat, nbuf: nat): (r: seq<seq<byte>>)
    requires |buf| == n * e && nbuf <= n && (n > 0 ==> off < n)
    ensures |r| == nbuf
  {
    seq(nbuf, i requires 0 <= i < nbuf => SlotFits(Pos(off, i, n), e, n); SlotBytes(buf, e, Pos(off, i, n)))
  }

  /** Writing the slot after the last element appends to the ring, and overwrites no live slot. */
  lemma RingAppend(before: seq<byte>, after: seq<byte>, e: nat, n: nat, off: nat, nbuf: nat, v: seq<byte>)
    requires |before| == n * e && nbuf < n && off < n
    requires Written(before, after, e, Pos(off, nbuf, n), v)
    ensures RingOf(after, e, n, off, nbuf + 1) == RingOf(before, e, n, off, nbuf) + [v]
  {
    var r, r' := RingOf(before, e, n, off, nbuf), RingOf(after, e, n, off, nbuf + 1);
    forall i | 0 <= i <= nbuf ensures r'[i] == if i < nbuf then r[i] else v {
      WrittenSlot(before, after, e, Pos(off, nbuf, n), v, Pos(off, i, n), n);
      if i < nbuf { PosInjective(off, i, nbuf, n); }
    }
    assert r' == r + [v];
  }

  /** Stepping over the first slot takes the first element off the ring. */
  lemma RingDrop(buf: seq<byte>, e: nat, n: nat, off: nat, nbuf: nat)
    requires |buf| == n * e && 0 < nbuf <= n && off < n
    ensures var off' := if off + 1 == n then 0 else off + 1;
            && RingOf(buf, e, n, off', nbuf - 1) == RingOf(buf, e, n, off, nbuf)[1..]
            && off * e + e <= |buf| && RingOf(buf, e, n, off, nbuf)[0] == SlotBytes(buf, e, off)
  {
    var off' := if off + 1 == n then 0 else off + 1;
    SlotFits(off, e, n);
    var r, r' := RingOf(buf, e, n, off, nbuf), RingOf(buf, e, n, off', nbuf - 1);
    forall i | 0 <= i < nbuf - 1 ensures r'[i] == r[i + 1] {
      assert Pos(off', i, n) == Pos(off, i + 1, n);
    }
    assert r' == r[1..];
  }
}
