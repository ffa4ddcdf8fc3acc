/** channel.c over memory: the ring buffer and the copies that altcopy makes. */
module Channels {
  import opened Util
  import opened Bytes
  import opened Lists
  import CS = ChanSpec

  type Elem = seq<byte>

  datatype AltOp = End | Send | Receive | Skip | NoBlock

  /** A pointer into an array of alternatives. */
  datatype AltPtr = AltPtr(a: array<Alt>, i: nat)

  /** struct Alt; `v` points to `elemsize` bytes, or is nil. */
  datatype Alt = Alt(c: Channel?, v: array?<byte>, op: AltOp, task: Task?, xalt: Option<AltPtr>)

  /** What `n` bytes at `v` hold; nil reads as zeros. */
  ghost function Content(v: array?<byte>, n: nat): (r: Elem)
    requires v == null || n <= v.Length
    reads v
    ensures |r| == n
  {
    if v == null then seq(n, _ => 0) else v[..n]
  }

  /** The bytes at `v` are `x`, if there are any. */
  ghost predicate Holds(v: array?<byte>, x: Elem)
    reads v
  {
    v == null || (|x| <= v.Length && v[..|x|] == x)
  }

  /** amove: memmove, or memset for a nil source, or nothing for a nil destination. */
  method AMove(dst: array?<byte>, at: nat, src: array?<byte>, from: nat, n: nat)
    requires dst == null || at + n <= dst.Length
    requires src == null || from + n <= src.Length
    modifies dst
    ensures dst != null ==> forall x :: 0 <= x < dst.Length ==>
              dst[x] == if at <= x < at + n then (if src == null then 0 else old(src[from + (x - at)])) else old(dst[x])
  {
    if dst == null { return; }
    ghost var was := dst[..];
    var tmp := new byte[n];
    if src == null {
      forall x | 0 <= x < n { tmp[x] := 0; }
    } else {
      forall x | 0 <= x < n { tmp[x] := src[from + x]; }
    }
    forall x | 0 <= x < n { dst[at + x] := tmp[x]; }
    assert forall x :: at <= x < at + n ==> dst[x] == tmp[x - at];
  }

  class Channel {
    const bufsize: nat
    const elemsize: nat
    const buf: array<byte>
    var nbuf: nat
    var off: nat
    var asend: seq<AltPtr>
    var arecv: seq<AltPtr>
    ghost var sent: seq<(Task, Elem)>
    ghost var rcvd: seq<(Task, Elem)>

    /** chancreate. */
    constructor (elemsize: nat, bufsize: nat)
      ensures this.elemsize == elemsize && this.bufsize == bufsize && fresh(buf)
      ensures RingOk() && Ring() == [] && asend == [] && arecv == [] && sent == [] && rcvd == []
    {
      this.elemsize, this.bufsize := elemsize, bufsize;
      buf := new byte[bufsize * elemsize];
      nbuf, off, asend, arecv, sent, rcvd := 0, 0, [], [], [], [];
    }

    ghost predicate RingOk()
      reads this`nbuf, this`off
    {
      buf.Length == bufsize * elemsize && nbuf <= bufsize && (bufsize > 0 ==> off < bufsize)
    }

    /** The elements in the buffer, first in first out. */
    ghost function Ring(): (r: seq<Elem>)
      requires RingOk()
      reads this`nbuf, this`off, buf
      ensures |r| == nbuf && forall i :: 0 <= i < nbuf ==> |r[i]| == elemsize
    {
      RingOf(buf[..], elemsize, bufsize, off, nbuf)
    }

    /** The first element leaves the buffer for `dst`. */
    method TakeInto(dst: array?<byte>)
      requires RingOk() && nbuf > 0 && dst != buf && (dst == null || elemsize <= dst.Length)
      modifies this`nbuf, this`off, dst
      ensures RingOk() && Ring() == old(Ring())[1..] && Holds(dst, old(Ring())[0])
    {
      RingDrop(buf[..], elemsize, bufsize, off, nbuf);
      AMove(dst, 0, buf, off * elemsize, elemsize);
      ghost var x := old(Ring())[0];
      assert dst != null ==> dst[..elemsize] == x;
      nbuf := nbuf - 1;
      off := off + 1;
      if off == bufsize { off := 0; }
    }

    /** The bytes at `src` enter the buffer as its last element. */
    method PutFrom(src: array?<byte>)
      requires RingOk() && nbuf < bufsize && (src == null || elemsize <= src.Length)
      modifies this`nbuf, buf
      ensures RingOk() && Ring() == old(Ring()) + [old(Content(src, elemsize))]
    {
      PosIsMod(off, nbuf, bufsize);
      var p := (off + nbuf) % bufsize;
      SlotFits(p, elemsize, bufsize);
      ghost var before, v := buf[..], Content(src, elemsize);
      AMove(buf, p * elemsize, src, 0, elemsize);
      assert Written(before, buf[..], elemsize, p, v);
      RingAppend(before, buf[..], elemsize, bufsize, off, nbuf, v);
      nbuf := nbuf + 1;
    }

    /** The channel without its queues, as a value. */
    ghost function Contents(): CS.Chan<Task, Elem>
      requires RingOk()
      reads this`nbuf, this`off, this`sent, this`rcvd, buf
    {
      CS.Chan(bufsize, Ring(), {}, {}, sent, rcvd)
    }

    /** A pointer that altcopy may read or write through. */
    ghost predicate Fits(a: Alt) {
      a.c == this && a.task != null && a.v != buf && (a.v == null || elemsize <= a.v.Length)
    }

    /**
     altcopy: `s` moves an element, with `r` on the other side if there is one.  A receiver is
     served first: from the sender when the buffer is empty, else from the buffer.
     */
    method AltCopy(s0: Alt, r0: Option<Alt>) returns (ghost x: Elem)
      requires RingOk() && Fits(s0) && (s0.op == Send || s0.op == Receive)
      requires r0.Some? ==> Fits(r0.value) && r0.value.op == (if s0.op == Send then Receive else Send)
      requires r0.Some? && s0.v != null ==> s0.v != r0.value.v
      requires r0.None? ==> if s0.op == Send then nbuf < bufsize else nbuf > 0
      modifies this`nbuf, this`off, this`sent, this`rcvd, buf
      modifies if s0.op == Receive then s0.v else if r0.Some? then r0.value.v else null
      ensures RingOk()
      ensures r0.None? && s0.op == Send ==>
                Contents() == CS.Put(old(Contents()), s0.task, old(Content(s0.v, elemsize)))
      ensures r0.None? && s0.op == Receive ==>
                (Contents(), x) == CS.Take(old(Contents()), s0.task) && Holds(s0.v, x)
      ensures r0.Some? && s0.op == Send ==>
                && (Contents(), x) == CS.Meet(old(Contents()), s0.task, old(Content(s0.v, elemsize)), r0.value.task)
                && Holds(r0.value.v, x)
      ensures r0.Some? && s0.op == Receive ==>
                && (Contents(), x) ==
                     CS.Meet(old(Contents()), r0.value.task, old(Content(r0.value.v, elemsize)), s0.task)
                && Holds(s0.v, x)
    {
      var s, r := Some(s0), r0;
      if s0.op == Receive { s, r := r0, Some(s0); }
      if s.Some? && r.Some? {
        x := CopyAcross(s.value, r.value);
      } else if r.Some? {
        x := CopyOut(r.value);
      } else {
        x := Content(s.value.v, elemsize);
        CopyIn(s.value);
      }
    }

    /** altcopy with only a sender: `s` puts its element in the buffer. */
    method CopyIn(s: Alt)
      requires RingOk() && nbuf < bufsize && Fits(s)
      modifies this`nbuf, buf, this`sent
      ensures RingOk() && Contents() == CS.Put(old(Contents()), s.task, old(Content(s.v, elemsize)))
    {
      PutFrom(s.v);
      sent := sent + [(s.task, old(Content(s.v, elemsize)))];
    }

    /** altcopy with only a receiver: `r` gets the first element of the buffer. */
    method CopyOut(r: Alt) returns (ghost x: Elem)
      requires RingOk() && nbuf > 0 && Fits(r)
      modifies this`nbuf, this`off, this`rcvd, r.v
      ensures RingOk() && (Contents(), x) == CS.Take(old(Contents()), r.task) && Holds(r.v, x)
    {
      x := Ring()[0];
      TakeInto(r.v);
      rcvd := rcvd + [(r.task, x)];
    }

    /** altcopy with both: directly when the buffer is empty, else receive and then send. */
    method CopyAcross(s: Alt, r: Alt) returns (ghost x: Elem)
      requires RingOk() && Fits(s) && Fits(r) && (s.v == null || s.v != r.v)
      modifies this`nbuf, this`off, this`sent, this`rcvd, buf, r.v
      ensures RingOk() && Holds(r.v, x)
      ensures (Contents(), x) == CS.Meet(old(Contents()), s.task, old(Content(s.v, elemsize)), r.task)
    {
      ghost var v := Content(s.v, elemsize);
      if nbuf == 0 {
        AMove(r.v, 0, s.v, 0, elemsize);
        assert r.v != null ==> r.v[..elemsize] == v;
        x := v;
        assert Ring() == [];
      } else {
        x := Ring()[0];
        TakeInto(r.v);
        PutFrom(s.v);
      }
      sent := sent + [(s.task, v)];
      rcvd := rcvd + [(r.task, x)];
    }
  }
}
