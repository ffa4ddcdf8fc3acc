/** The wait queues of channel.c: arrays of pointers to blocked alternatives, searched and swap-deleted. */
module Queues {
  import opened Util
  import opened Channels
  import CS = ChanSpec

  type Chans = set<Channel>

  function PureOp(op: AltOp): CS.AOp {
    match op case Send => CS.Snd case Receive => CS.Rcv case _ => CS.Nop
  }

  predicate Terminal(op: AltOp) { op == End || op == NoBlock }

  /** The number of alternatives before the terminator. */
  ghost function Len(s: seq<Alt>): (n: nat)
    ensures n <= |s| && (n < |s| ==> Terminal(s[n].op))
    ensures forall i :: 0 <= i < n ==> !Terminal(s[i].op)
  {
    if s == [] || Terminal(s[0].op) then 0 else 1 + Len(s[1..])
  }

  /** chanarray. */
  function Queue(c: Channel, op: AltOp): seq<AltPtr>
    reads c`asend, c`arecv
  {
    match op case Send => c.asend case Receive => c.arecv case _ => []
  }

  function Others(op: AltOp): AltOp {
    match op case Send => Receive case Receive => Send case _ => op
  }

  /** altqueue. */
  method AltQueue(p: AltPtr)
    requires p.i < p.a.Length && p.a[p.i].c != null && (p.a[p.i].op == Send || p.a[p.i].op == Receive)
    modifies p.a[p.i].c`asend, p.a[p.i].c`arecv
    ensures var c, op := p.a[p.i].c, p.a[p.i].op;
            Queue(c, op) == old(Queue(c, op)) + [p] && Queue(c, Others(op)) == old(Queue(c, Others(op)))
  {
    var c := p.a[p.i].c;
    if p.a[p.i].op == Send { c.asend := c.asend + [p]; } else { c.arecv := c.arecv + [p]; }
  }

  /** The search of altdequeue; it always finds the entry, so "cannot find self" is unreachable. */
  method FindSelf(ar: seq<AltPtr>, p: AltPtr) returns (i: nat)
    requires p in ar
    ensures i < |ar| && ar[i] == p
  {
    i := 0;
    while i < |ar| && ar[i] != p
      invariant i <= |ar| && p in ar[i..]
    {
      i := i + 1;
    }
  }

  /** altdequeue: find the entry and swap-delete it. */
  method AltDequeue(p: AltPtr)
    requires p.i < p.a.Length && p.a[p.i].c != null && (p.a[p.i].op == Send || p.a[p.i].op == Receive)
    requires NoDup(Queue(p.a[p.i].c, p.a[p.i].op)) && p in Queue(p.a[p.i].c, p.a[p.i].op)
    modifies p.a[p.i].c`asend, p.a[p.i].c`arecv
    ensures var c, op := p.a[p.i].c, p.a[p.i].op;
            && NoDup(Queue(c, op)) && Elems(Queue(c, op)) == Elems(old(Queue(c, op))) - {p}
            && Queue(c, Others(op)) == old(Queue(c, Others(op)))
  {
    var c, op := p.a[p.i].c, p.a[p.i].op;
    var ar := Queue(c, op);
    var i := FindSelf(ar, p);
    SwapDeleteNoDup(ar, i);
    if op == Send { c.asend := SwapDelete(ar, i); } else { c.arecv := SwapDelete(ar, i); }
  }

  // ---- Which entry is where ----

  datatype Lines = Lines(send: seq<AltPtr>, recv: seq<AltPtr>)

  /** The queues of all channels. */
  ghost function AllQueues(chans: Chans): map<Channel, Lines>
    reads chans`asend, chans`arecv
  {
    map c | c in chans :: Lines(c.asend, c.arecv)
  }

  function Line(l: Lines, op: AltOp): seq<AltPtr> {
    match op case Send => l.send case Receive => l.recv case _ => []
  }

  /** Alternative `i` of array `b` is queued where it belongs and nowhere else. */
  ghost predicate Placed(qs: map<Channel, Lines>, b: array<Alt>, i: nat)
    reads b
  {
    && i < b.Length
    && (b[i].op == Send || b[i].op == Receive ==>
          && b[i].c != null && b[i].c in qs && AltPtr(b, i) in Line(qs[b[i].c], b[i].op))
    && (forall c, op :: c in qs && AltPtr(b, i) in Line(qs[c], op) ==> b[i].c == c && b[i].op == op)
  }

  /** The queues without the first `n` alternatives of `b`. */
  ghost predicate Removed(qs: map<Channel, Lines>, qs': map<Channel, Lines>, b: array<Alt>, n: nat) {
    && qs'.Keys == qs.Keys
    && forall c, op :: c in qs ==>
         && (NoDup(Line(qs[c], op)) ==> NoDup(Line(qs'[c], op)))
         && Elems(Line(qs'[c], op)) == Without(Elems(Line(qs[c], op)), b, n)
  }

  ghost function Without(s: set<AltPtr>, b: array<Alt>, n: nat): set<AltPtr> {
    set p | p in s && !(p.a == b && p.i < n)
  }

  ghost predicate AllNoDup(qs: map<Channel, Lines>) {
    forall c, op :: c in qs ==> NoDup(Line(qs[c], op))
  }

  lemma QueueIsLine(chans: Chans, c: Channel, op: AltOp)
    requires c in chans
    ensures AllQueues(chans).Keys == chans && Queue(c, op) == Line(AllQueues(chans)[c], op)
  {
  }

  /** altalldequeue: withdraw a whole array of alternatives. */
  method AltAllDequeue(b: array<Alt>, ghost chans: Chans)
    requires Len(b[..]) < b.Length && AllNoDup(AllQueues(chans))
    requires forall i :: 0 <= i < Len(b[..]) ==> Placed(AllQueues(chans), b, i)
    modifies chans`asend, chans`arecv
    ensures Removed(old(AllQueues(chans)), AllQueues(chans), b, Len(b[..]))
  {
    ghost var qs, n := AllQueues(chans), Len(b[..]);
    var i := 0;
    RemovedNone(qs, b);
    while !Terminal(b[i].op)
      invariant i <= n && Len(b[..]) == n && Removed(qs, AllQueues(chans), b, i)
      decreases n - i
    {
      assert Placed(qs, b, i);
      DequeueOne(b, i, chans, qs);
      i := i + 1;
    }
  }

  lemma RemovedNone(qs: map<Channel, Lines>, b: array<Alt>)
    ensures Removed(qs, qs, b, 0)
  {
    forall c, op | c in qs ensures Elems(Line(qs[c], op)) == Without(Elems(Line(qs[c], op)), b, 0) {}
  }

  /** One turn of altalldequeue. */
  method DequeueOne(b: array<Alt>, i: nat, ghost chans: Chans, ghost qs: map<Channel, Lines>)
    requires i < b.Length && !Terminal(b[i].op) && Placed(qs, b, i) && AllNoDup(qs)
    requires Removed(qs, AllQueues(chans), b, i)
    modifies chans`asend, chans`arecv
    ensures Removed(qs, AllQueues(chans), b, i + 1)
  {
    ghost var p, mid := AltPtr(b, i), AllQueues(chans);
    if b[i].op != Skip {
      ghost var c, op := b[i].c, b[i].op;
      assert p in Without(Elems(Line(qs[c], op)), b, i);
      assert p in Line(mid[c], op);
      AltDequeue(AltPtr(b, i));
      ghost var now := AllQueues(chans);
      assert Elems(Line(now[c], op)) == Elems(Line(mid[c], op)) - {p};
      assert forall d, o :: d in mid && (d != c || o != op) ==> Line(now[d], o) == Line(mid[d], o);
      DequeuedOne(qs, mid, now, b, i);
    } else {
      DequeuedOne(qs, mid, mid, b, i);
    }
  }

  lemma DequeuedOne(qs: map<Channel, Lines>, mid: map<Channel, Lines>, now: map<Channel, Lines>, b: array<Alt>, i: nat)
    requires Placed(qs, b, i) && Removed(qs, mid, b, i) && now.Keys == mid.Keys
    requires forall c, op :: c in mid ==>
               && (NoDup(Line(mid[c], op)) ==> NoDup(Line(now[c], op)))
               && Elems(Line(now[c], op)) ==
                    if b[i].c == c && b[i].op == op then Elems(Line(mid[c], op)) - {AltPtr(b, i)} else Elems(Line(mid[c], op))
    ensures Removed(qs, now, b, i + 1)
  {
    var p := AltPtr(b, i);
    forall c, op | c in qs
      ensures (NoDup(Line(qs[c], op)) ==> NoDup(Line(now[c], op)))
      ensures Elems(Line(now[c], op)) == Without(Elems(Line(qs[c], op)), b, i + 1)
    {
      assert Elems(Line(mid[c], op)) == Without(Elems(Line(qs[c], op)), b, i);
      if !(b[i].c == c && b[i].op == op) { assert p !in Line(qs[c], op); }
    }
  }

  // ---- Blocking ----

  /** The first `n` alternatives of `a` that do `op` on channel `c`. */
  ghost function Mine(a: array<Alt>, s: seq<Alt>, c: Channel, op: AltOp, n: nat): (r: set<AltPtr>)
    requires n <= |s|
    ensures forall p :: p in r ==> p.a == a && p.i < n && s[p.i].op == op && s[p.i].c == c
    ensures forall i: nat :: i < n && s[i].op == op && s[i].c == c ==> AltPtr(a, i) in r
  {
    set i: nat | i < n && s[i].op == op && s[i].c == c :: AltPtr(a, i)
  }

  /** The queues with the first `n` alternatives of `a` added. */
  ghost predicate Added(qs: map<Channel, Lines>, qs': map<Channel, Lines>, a: array<Alt>, s: seq<Alt>, n: nat)
    requires n <= |s|
  {
    && qs'.Keys == qs.Keys
    && forall c, op :: c in qs && (op == Send || op == Receive) ==>
         && (NoDup(Line(qs[c], op)) ==> NoDup(Line(qs'[c], op)))
         && Elems(Line(qs'[c], op)) == Elems(Line(qs[c], op)) + Mine(a, s, c, op, n)
  }

  /** No alternative of `a` is queued. */
  ghost predicate Unqueued(qs: map<Channel, Lines>, a: array<Alt>) {
    forall c, op, p :: c in qs && p in Line(qs[c], op) ==> p.a != a
  }

  /** The loop of chanalt that queues every alternative but the NOPs. */
  method AltQueueAll(a: array<Alt>, n: nat, ghost chans: Chans)
    requires n <= a.Length && Unqueued(AllQueues(chans), a)
    requires forall i :: 0 <= i < n ==> !Terminal(a[i].op) && (a[i].op != Skip ==> a[i].c != null && a[i].c in chans)
    modifies chans`asend, chans`arecv
    ensures Added(old(AllQueues(chans)), AllQueues(chans), a, a[..], n)
  {
    ghost var qs, s := AllQueues(chans), a[..];
    var i := 0;
    AddedNone(qs, a, s);
    while i < n
      invariant i <= n && Added(qs, AllQueues(chans), a, s, i)
    {
      QueueOne(a, i, chans, qs);
      i := i + 1;
    }
  }

  lemma AddedNone(qs: map<Channel, Lines>, a: array<Alt>, s: seq<Alt>)
    ensures Added(qs, qs, a, s, 0)
  {
    forall c, op | c in qs ensures Elems(Line(qs[c], op)) == Elems(Line(qs[c], op)) + Mine(a, s, c, op, 0) {}
  }

  method QueueOne(a: array<Alt>, i: nat, ghost chans: Chans, ghost qs: map<Channel, Lines>)
    requires i < a.Length && !Terminal(a[i].op) && (a[i].op != Skip ==> a[i].c != null && a[i].c in chans)
    requires Unqueued(qs, a) && Added(qs, AllQueues(chans), a, a[..], i)
    modifies chans`asend, chans`arecv
    ensures Added(qs, AllQueues(chans), a, a[..], i + 1)
  {
    ghost var s, mid := a[..], AllQueues(chans);
    if a[i].op != Skip {
      ghost var c, op := a[i].c, a[i].op;
      AltQueue(AltPtr(a, i));
      ghost var now := AllQueues(chans);
      assert Line(now[c], op) == Line(mid[c], op) + [AltPtr(a, i)];
      assert forall d, o :: d in mid && (d != c || o != op) ==> Line(now[d], o) == Line(mid[d], o);
      QueuedOne(qs, mid, now, a, s, i);
    } else {
      QueuedOne(qs, mid, mid, a, s, i);
    }
  }

  lemma QueuedOne(qs: map<Channel, Lines>, mid: map<Channel, Lines>, now: map<Channel, Lines>, a: array<Alt>, s: seq<Alt>, i: nat)
    requires i < |s| && Unqueued(qs, a) && Added(qs, mid, a, s, i) && now.Keys == mid.Keys
    requires forall c, op :: c in mid && (op == Send || op == Receive) ==>
               Line(now[c], op) == if s[i].c == c && s[i].op == op then Line(mid[c], op) + [AltPtr(a, i)] else Line(mid[c], op)
    ensures Added(qs, now, a, s, i + 1)
  {
    forall c, op | c in qs && (op == Send || op == Receive)
      ensures (NoDup(Line(qs[c], op)) ==> NoDup(Line(now[c], op)))
      ensures Elems(Line(now[c], op)) == Elems(Line(qs[c], op)) + Mine(a, s, c, op, i + 1)
    {
      assert Elems(Line(mid[c], op)) == Elems(Line(qs[c], op)) + Mine(a, s, c, op, i);
      AppendedElem(Line(mid[c], op), AltPtr(a, i));
      MineNext(a, s, c, op, i);
      assert AltPtr(a, i) !in Elems(Line(mid[c], op));
      hide Mine; hide NoDup; hide Elems;
    }
  }

  lemma MineNext(a: array<Alt>, s: seq<Alt>, c: Channel, op: AltOp, i: nat)
    requires i < |s|
    ensures Mine(a, s, c, op, i + 1) ==
            Mine(a, s, c, op, i) + if s[i].c == c && s[i].op == op then {AltPtr(a, i)} else {}
  {
  }

  lemma AppendedElem(q: seq<AltPtr>, p: AltPtr)
    ensures Elems(q + [p]) == Elems(q) + {p}
    ensures NoDup(q) && p !in q ==> NoDup(q + [p])
  {
  }
}
