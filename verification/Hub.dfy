/** chanalt over memory: all channels, all blocked alternatives, and their value in ChanSpec. */
module Hubs {
  import opened Util
  import opened Lists
  import opened Bytes
  import opened Channels
  import opened Queues
  import opened Kernel
  import SchedSpec
  import CS = ChanSpec
  import CP = ChanProofs

  type PureAlt = CS.Alt<Channel?, Elem>
  type PureChan = CS.Chan<Task, Elem>
  type PureState = CS.CS<Channel?, Task, Elem>
  type PureFired = CS.Fired<Channel?, Elem>
  type Sets = map<Task, seq<PureAlt>>

  // ---- Blocked alternatives ----

  /** The alternative that `a` describes, with the element that a send offers. */
  ghost function PureOf(a: Alt): PureAlt
    requires a.op == Send ==> a.c != null && (a.v == null || a.c.elemsize <= a.v.Length)
    reads if a.op == Send then a.v else null
  {
    CS.Alt(a.c, PureOp(a.op), if a.op == Send then Content(a.v, a.c.elemsize) else [])
  }

  /** Alternative `a` may be used: it names a channel in `chans`, and its memory is no ring buffer. */
  ghost predicate Usable(a: Alt, chans: Chans) {
    a.op == Send || a.op == Receive ==>
      && a.c != null && a.c in chans && (a.v == null || a.c.elemsize <= a.v.Length)
      && forall c :: c in chans ==> a.v != c.buf
  }

  /** The memory that the alternatives of `b` send from. */
  ghost function SendMemory(b: array<Alt>): set<array<byte>>
    reads b
  {
    set i | 0 <= i < Len(b[..]) && b[i].op == Send && b[i].v != null :: b[i].v
  }

  /** The memory that the alternatives of `b` receive into. */
  ghost function ReceiveMemory(b: array<Alt>): set<array<byte>>
    reads b
  {
    set i | 0 <= i < Len(b[..]) && b[i].op == Receive && b[i].v != null :: b[i].v
  }

  /** Array `b`, up to its terminator, is the set `p` of task `k`. */
  ghost predicate Mirror(b: array<Alt>, k: Task, p: seq<PureAlt>, chans: Chans)
    reads b, SendMemory(b)
  {
    && |p| == Len(b[..]) < b.Length
    && forall i :: 0 <= i < |p| ==>
         && b[i].task == k && b[i].xalt == Some(AltPtr(b, 0)) && Usable(b[i], chans)
         && p[i] == PureOf(b[i])
  }

  ghost function Waiting(alts: Sets, c: Channel?, op: CS.AOp): set<CS.Entry<Task>> {
    set k, i: nat | k in alts && i < |alts[k]| && alts[k][i].op == op && alts[k][i].c == c :: CS.Entry(k, i)
  }

  lemma WaitingWithout(alts: Sets, k: Task, c: Channel?, op: CS.AOp)
    ensures Waiting(alts - {k}, c, op) == CS.Without(Waiting(alts, c, op), k)
  {
  }

  lemma WaitingWith(alts: Sets, k: Task, p: seq<PureAlt>, c: Channel?, op: CS.AOp)
    requires k !in alts
    ensures Waiting(alts[k := p], c, op) == Waiting(alts, c, op) + CS.NewEntries(k, p, c, op)
  {
    var alts' := alts[k := p];
    forall e | e in Waiting(alts, c, op) ensures e in Waiting(alts', c, op) {
      assert alts'[e.k][e.i] == alts[e.k][e.i];
    }
    forall e | e in CS.NewEntries(k, p, c, op) ensures e in Waiting(alts', c, op) {
      assert alts'[e.k][e.i] == p[e.i];
      assert e == CS.Entry(k, e.i);
    }
  }

  /** The queues hold exactly the pointers to the blocked alternatives, each once. */
  ghost predicate Owned(p: AltPtr, sets: map<Task, array<Alt>>, alts: Sets, c: Channel, op: AltOp) {
    exists k :: k in sets && k in alts && sets[k] == p.a && p.i < |alts[k]| &&
                alts[k][p.i].op == PureOp(op) && alts[k][p.i].c == c
  }

  ghost predicate QueuesAgree(qs: map<Channel, Lines>, sets: map<Task, array<Alt>>, alts: Sets) {
    && AllNoDup(qs)
    && (forall c, op, p :: c in qs && p in Line(qs[c], op) ==> Owned(p, sets, alts, c, op))
    && (forall k, i, op :: k in sets && k in alts && 0 <= i < |alts[k]| && (op == Send || op == Receive) && alts[k][i].op == PureOp(op) ==>
          alts[k][i].c != null && alts[k][i].c in qs && AltPtr(sets[k], i) in Line(qs[alts[k][i].c], op))
  }

  lemma UsableChan(a: Alt, chans: Chans)
    requires Usable(a, chans) && (a.op == Send || a.op == Receive)
    ensures a.c != null && a.c in chans && (a.v == null || a.c.elemsize <= a.v.Length)
    ensures Others(a.op) == Send || Others(a.op) == Receive
  {
  }

  /** A queue holds no pointer exactly when nobody is blocked on that side. */
  lemma EmptyAgrees(qs: map<Channel, Lines>, sets: map<Task, array<Alt>>, alts: Sets, c: Channel, op: AltOp)
    requires QueuesAgree(qs, sets, alts) && sets.Keys == alts.Keys && c in qs && (op == Send || op == Receive)
    ensures Line(qs[c], op) == [] <==> Waiting(alts, c, PureOp(op)) == {}
  {
    var q, w := Line(qs[c], op), Waiting(alts, c, PureOp(op));
    if q != [] {
      var p := q[0];
      assert p in q && Owned(p, sets, alts, c, op);
      var k :| k in sets && k in alts && sets[k] == p.a && p.i < |alts[k]| &&
               alts[k][p.i].op == PureOp(op) && alts[k][p.i].c == c;
      assert CS.Entry(k, p.i) in w;
    }
    if w != {} {
      var e :| e in w;
      assert AltPtr(sets[e.k], e.i) in q;
    }
  }

  lemma OneTask(b: array<Alt>, k: Task, p: seq<PureAlt>, j: Task, q: seq<PureAlt>, chans: Chans)
    requires Mirror(b, k, p, chans) && Mirror(b, j, q, chans) && |p| > 0
    ensures j == k && p == q
  {
    assert b[0].task == k && b[0].task == j;
  }

  /** A blocked alternative is queued where it belongs and nowhere else. */
  lemma IsPlaced(qs: map<Channel, Lines>, sets: map<Task, array<Alt>>, alts: Sets, k: Task, i: nat, chans: Chans)
    requires QueuesAgree(qs, sets, alts) && k in sets && k in alts && i < |alts[k]|
    requires forall j :: j in sets && j in alts ==> Mirror(sets[j], j, alts[j], chans)
    ensures Placed(qs, sets[k], i)
  {
    var b := sets[k];
    assert alts[k][i] == PureOf(b[i]);
    forall c, op | c in qs && AltPtr(b, i) in Line(qs[c], op) ensures b[i].c == c && b[i].op == op {
      var j :| j in sets && j in alts && sets[j] == b && i < |alts[j]| &&
               alts[j][i].op == PureOp(op) && alts[j][i].c == c;
      OneTask(b, j, alts[j], k, alts[k], chans);
    }
  }

  lemma RemoveAgrees(qs: map<Channel, Lines>, qs': map<Channel, Lines>, sets: map<Task, array<Alt>>, alts: Sets, k: Task)
    requires QueuesAgree(qs, sets, alts) && k in sets && k in alts && Removed(qs, qs', sets[k], |alts[k]|)
    requires forall j :: j in sets && j in alts && j != k && |alts[j]| > 0 ==> sets[j] != sets[k]
    ensures QueuesAgree(qs', sets - {k}, alts - {k})
  {
    var sets', alts' := sets - {k}, alts - {k};
    forall c, op, p | c in qs' && p in Line(qs'[c], op) ensures Owned(p, sets', alts', c, op) {
      assert p in Without(Elems(Line(qs[c], op)), sets[k], |alts[k]|);
      var j :| j in sets && j in alts && sets[j] == p.a && p.i < |alts[j]| &&
               alts[j][p.i].op == PureOp(op) && alts[j][p.i].c == c;
      assert j in sets' && alts'[j] == alts[j];
    }
    forall j, i, op | j in sets' && j in alts' && 0 <= i < |alts'[j]| && (op == Send || op == Receive) && alts'[j][i].op == PureOp(op)
      ensures alts'[j][i].c != null && alts'[j][i].c in qs' && AltPtr(sets'[j], i) in Line(qs'[alts'[j][i].c], op)
    {
      assert alts[j][i].op == PureOp(op);
      assert AltPtr(sets[j], i) in Without(Elems(Line(qs[alts[j][i].c], op)), sets[k], |alts[k]|);
    }
  }

  lemma AddAgrees(
    qs: map<Channel, Lines>, qs': map<Channel, Lines>, sets: map<Task, array<Alt>>, alts: Sets,
    me: Task, a: array<Alt>, s: seq<Alt>, p: seq<PureAlt>)
    requires QueuesAgree(qs, sets, alts) && me !in sets && me !in alts && |p| <= |s|
    requires Added(qs, qs', a, s, |p|) && Unqueued(qs, a)
    requires forall i :: 0 <= i < |p| ==> p[i].op == PureOp(s[i].op) && p[i].c == s[i].c &&
                                           (s[i].op == Send || s[i].op == Receive ==> s[i].c != null && s[i].c in qs)
    ensures QueuesAgree(qs', sets[me := a], alts[me := p])
  {
    var sets', alts' := sets[me := a], alts[me := p];
    forall c, op | c in qs' ensures NoDup(Line(qs'[c], op)) {
      assert NoDup(Line(qs[c], op));
    }
    forall c, op, q | c in qs' && q in Line(qs'[c], op) ensures Owned(q, sets', alts', c, op) {
      AddedOwned(qs, qs', sets, alts, me, a, s, p, c, op, q);
    }
    forall j, i, op | j in sets' && j in alts' && 0 <= i < |alts'[j]| && (op == Send || op == Receive) && alts'[j][i].op == PureOp(op)
      ensures alts'[j][i].c != null && alts'[j][i].c in qs' && AltPtr(sets'[j], i) in Line(qs'[alts'[j][i].c], op)
    {
      if j == me {
        assert AltPtr(a, i) in Mine(a, s, s[i].c, op, |p|);
      } else {
        assert alts[j][i].op == PureOp(op);
        assert AltPtr(sets[j], i) in Elems(Line(qs[alts[j][i].c], op));
      }
    }
  }

  lemma AddedOwned(
    qs: map<Channel, Lines>, qs': map<Channel, Lines>, sets: map<Task, array<Alt>>, alts: Sets,
    me: Task, a: array<Alt>, s: seq<Alt>, p: seq<PureAlt>, c: Channel, op: AltOp, q: AltPtr)
    requires QueuesAgree(qs, sets, alts) && me !in sets && me !in alts && |p| <= |s|
    requires Added(qs, qs', a, s, |p|) && c in qs' && q in Line(qs'[c], op)
    requires forall i :: 0 <= i < |p| ==> p[i].op == PureOp(s[i].op) && p[i].c == s[i].c
    ensures Owned(q, sets[me := a], alts[me := p], c, op)
  {
    var sets', alts' := sets[me := a], alts[me := p];
    assert q in Elems(Line(qs[c], op)) + Mine(a, s, c, op, |p|);
    if q in Line(qs[c], op) {
      var j :| j in sets && j in alts && sets[j] == q.a && q.i < |alts[j]| &&
               alts[j][q.i].op == PureOp(op) && alts[j][q.i].c == c;
      assert j in sets' && j in alts' && sets'[j] == q.a && alts'[j] == alts[j];
    } else {
      assert me in sets' && alts'[me] == p;
    }
  }

  // ---- All channels as a value ----

  ghost predicate RingsOk(chans: Chans)
    reads chans`nbuf, chans`off
  {
    forall c :: c in chans ==> c.RingOk()
  }

  ghost function Bufs(chans: Chans): set<array<byte>> {
    set c | c in chans :: c.buf
  }

  ghost function ChanOf(alts: Sets, c: Channel): PureChan
    requires c.RingOk()
    reads c`nbuf, c`off, c`sent, c`rcvd, c.buf
  {
    c.Contents().(asend := Waiting(alts, c, CS.Snd), arecv := Waiting(alts, c, CS.Rcv))
  }

  ghost function ChansOf(alts: Sets, chans: Chans): map<Channel?, PureChan>
    requires RingsOk(chans)
    reads chans`nbuf, chans`off, chans`sent, chans`rcvd, Bufs(chans)
  {
    map c: Channel? | c in chans :: ChanOf(alts, c)
  }

  /** One channel has moved an element and one task has left all queues. */
  lemma ChansMeet(cs: map<Channel?, PureChan>, cs': map<Channel?, PureChan>, alts: Sets, c: Channel?, m: PureChan, k: Task)
    requires c in cs && cs'.Keys == cs.Keys
    requires forall d :: d in cs ==> cs[d].asend == Waiting(alts, d, CS.Snd) && cs[d].arecv == Waiting(alts, d, CS.Rcv)
    requires forall d :: d in cs ==>
               cs'[d] == (if d == c then m else cs[d]).(asend := Waiting(alts - {k}, d, CS.Snd), arecv := Waiting(alts - {k}, d, CS.Rcv))
    requires m.asend == cs[c].asend && m.arecv == cs[c].arecv
    ensures cs' == CS.Withdraw(cs[c := m], k)
  {
    forall d | d in cs ensures cs'[d] == CS.Withdraw(cs[c := m], k)[d] {
      WaitingWithout(alts, k, d, CS.Snd);
      WaitingWithout(alts, k, d, CS.Rcv);
    }
  }

  /** The queues of a channel take no part in a meeting. */
  lemma MeetFrame(ch: PureChan, s: set<CS.Entry<Task>>, r: set<CS.Entry<Task>>, me: Task, a: PureAlt, k: Task, o: PureAlt)
    ensures var m := CS.MeetAt(ch, me, a, k, o);
            CS.MeetAt(ch.(asend := s, arecv := r), me, a, k, o) == (m.0.(asend := s, arecv := r), m.1)
  {
  }

  lemma PutFrame(ch: PureChan, s: set<CS.Entry<Task>>, r: set<CS.Entry<Task>>, me: Task, v: Elem)
    ensures CS.Put(ch.(asend := s, arecv := r), me, v) == CS.Put(ch, me, v).(asend := s, arecv := r)
  {
  }

  lemma TakeFrame(ch: PureChan, s: set<CS.Entry<Task>>, r: set<CS.Entry<Task>>, me: Task)
    requires ch.ring != []
    ensures CS.Take(ch.(asend := s, arecv := r), me) ==
            (CS.Take(ch, me).0.(asend := s, arecv := r), CS.Take(ch, me).1)
  {
  }

  /** What chanalt does up to its task switch: the index it returns, -1, or a switch. */
  datatype Result = Did(i: nat) | Refused | Blocked

  /** The array of the served peer `e` says in its first alternative which one was served. */
  ghost predicate Noted(sets: map<Task, array<Alt>>, e: CS.Entry<Task>)
    reads sets.Values
  {
    e.k in sets && sets[e.k].Length > 0 && sets[e.k][0].xalt == Some(AltPtr(sets[e.k], e.i))
  }

  /** Every served task's array still says which alternative was served. */
  ghost predicate NotesOk(served: map<Task, array<Alt>>, fired: map<Task, PureFired>)
    reads served.Values
  {
    served.Keys == fired.Keys && forall k :: k in served ==> Noted(served, CS.Entry(k, fired[k].i))
  }

  class Hub {
    /** Every channel, the array that each blocked task waits with, and the history variables of ChanSpec. */
    ghost var chans: set<Channel>
    ghost var sets: map<Task, array<Alt>>
    ghost var alts: Sets
    ghost var fired: map<Task, PureFired>
    ghost var hist: map<Task, seq<PureFired>>
    /** The arrays of the tasks that a peer has served and that have not run since. */
    ghost var served: map<Task, array<Alt>>

    /** No channels yet, and nobody waits. */
    constructor ()
      ensures Valid() && ServedOk() && Abs() == CS.CS(map[], map[], map[], map[]) && chans == {}
    {
      chans, sets, alts, fired, hist, served := {}, map[], map[], map[], map[], map[];
    }

    ghost function Abs(): PureState
      requires RingsOk(chans)
      reads this`chans, this`alts, this`fired, this`hist, chans`nbuf, chans`off, chans`sent, chans`rcvd, Bufs(chans)
    {
      CS.CS(ChansOf(alts, chans), alts, fired, hist)
    }

    /** All memory that blocked tasks send from. */
    ghost function Outgoing(): set<array<byte>>
      reads this`sets, sets.Values
    {
      set k, m | k in sets && m in SendMemory(sets[k]) :: m
    }

    /** Blocked tasks wait with their own arrays, and do not share memory. */
    ghost predicate SetsOk()
      reads this`sets, this`alts, this`chans, sets.Values, Outgoing()
    {
      && sets.Keys == alts.Keys
      && (forall k :: k in sets ==> Mirror(sets[k], k, alts[k], chans))
      && (forall j, k :: j in sets && k in sets && j != k ==> SendMemory(sets[j]) !! ReceiveMemory(sets[k]))
    }

    ghost predicate MemoryOk()
      reads this`chans, chans`nbuf, chans`off
    {
      RingsOk(chans) && forall c, d :: c in chans && d in chans && c != d ==> c.buf != d.buf
    }

    ghost predicate Valid()
      reads this`chans, this`sets, this`alts, this`fired, this`hist, chans, Bufs(chans), sets.Values, Outgoing()
    {
      && MemoryOk() && SetsOk() && QueuesAgree(AllQueues(chans), sets, alts) && CP.Inv(Abs())
    }

    /** Blocked tasks are live and in no list. */
    ghost predicate Parked(k: Kernel)
      reads this`sets, k`all, k`lists, k`running, k.lists
    {
      forall t :: t in sets ==> t in k.all && t != k.running && Loose(k.lists, t)
    }

    /** The array `a`, up to its terminator, as the running task `me` is about to use it. */
    ghost predicate Offered(a: array<Alt>, me: Task)
      reads this`sets, this`fired, this`chans, a, sets.Values
    {
      && Len(a[..]) < a.Length && me !in sets && me !in fired
      && (forall i :: 0 <= i < Len(a[..]) ==> Usable(a[i], chans))
      && (forall k :: k in sets ==> sets[k] != a && SendMemory(a) !! ReceiveMemory(sets[k]) && SendMemory(sets[k]) !! ReceiveMemory(a))
    }

    /** The same as a value. */
    ghost function PureAlts(a: array<Alt>): (r: seq<PureAlt>)
      requires forall i :: 0 <= i < Len(a[..]) ==> Usable(a[i], chans)
      reads *
      ensures |r| == Len(a[..]) && forall i :: 0 <= i < |r| ==> Usable(a[i], chans) && r[i] == PureOf(a[i])
    {
      seq(Len(a[..]), i requires 0 <= i < Len(a[..]) && Usable(a[i], chans) reads * => PureOf(a[i]))
    }

    // ---- altcanexec ----

    predicate AltCanExec(a: Alt)
      requires (a.op == Send || a.op == Receive) ==> a.c != null
      reads a.c
    {
      if a.op != Send && a.op != Receive then false
      else if a.c.bufsize == 0 then |Queue(a.c, Others(a.op))| > 0
      else if a.op == Send then a.c.nbuf < a.c.bufsize
      else a.c.nbuf > 0
    }

    /** altcanexec reads in the ring and the queues what ChanSpec says about the whole state. */
    lemma AltCanExecIs(a: Alt)
      requires Valid() && Usable(a, chans) && !Terminal(a.op)
      ensures PureOf(a).op == CS.Nop || a.c in Abs().chans
      ensures (a.op == Send || a.op == Receive ==> a.c != null) && (AltCanExec(a) <==> CS.CanExec(Abs(), PureOf(a)))
    {
      if a.op == Send || a.op == Receive { OtherQueue(a); }
    }

    /** The queue opposite to an alternative, as pointers and as a set of entries. */
    lemma OtherQueue(a: Alt)
      requires Valid() && Usable(a, chans) && (a.op == Send || a.op == Receive)
      ensures a.c in Abs().chans
      ensures Queue(a.c, Others(a.op)) == [] <==> CS.Side(Abs().chans[a.c], CS.Other(PureOp(a.op))) == {}
    {
      hide *;
      ValidParts();
      UsableChan(a, chans);
      QueueIsLine(chans, a.c, Others(a.op));
      EmptyAgrees(AllQueues(chans), sets, alts, a.c, Others(a.op));
      AbsSide(a.c, a.op);
    }

    lemma ValidParts()
      requires Valid()
      ensures MemoryOk() && RingsOk(chans) && SetsOk() && sets.Keys == alts.Keys
      ensures QueuesAgree(AllQueues(chans), sets, alts) && CP.Inv(Abs())
    {
      hide CP.Inv; hide QueuesAgree; hide Mirror;
    }

    lemma AbsSide(c: Channel, op: AltOp)
      requires RingsOk(chans) && c in chans && (op == Send || op == Receive)
      ensures c in Abs().chans && Abs().chans[c] == ChanOf(alts, c)
      ensures CS.Side(Abs().chans[c], CS.Other(PureOp(op))) == Waiting(alts, c, PureOp(Others(op)))
      ensures Others(op) == Send || Others(op) == Receive
    {
    }

    // ---- altexec ----

    /** The blocked alternative `j` of `b`, which task `k` waits with, faces `a`. */
    ghost predicate Faces(a: Alt, k: Task, j: nat)
      reads this`sets, this`alts
    {
      && k in sets && k in alts && j < |alts[k]|
      && alts[k][j].c == a.c && alts[k][j].op == CS.Other(PureOp(a.op))
    }

    /** The memory of `a` is not in use by blocked tasks the other way round. */
    ghost predicate OwnMemory(a: Alt)
      reads this`sets, sets.Values
    {
      && (a.op == Send ==> forall k :: k in sets ==> a.v == null || a.v !in ReceiveMemory(sets[k]))
      && (a.op == Receive ==> forall k :: k in sets ==> a.v == null || a.v !in SendMemory(sets[k]))
    }

    /** What altcopy may rely on. */
    lemma MeetFacts(a: Alt, b: array<Alt>, j: nat, k: Task)
      requires MemoryOk() && SetsOk() && Usable(a, chans) && (a.op == Send || a.op == Receive) && a.task != null
      requires Faces(a, k, j) && sets[k] == b && OwnMemory(a) && j < b.Length
      ensures a.c != null && a.c in chans && a.c.RingOk() && a.c.Fits(a)
      ensures b[j].c == a.c && b[j].op == (if a.op == Send then Receive else Send) && a.c.Fits(b[j]) && Usable(b[j], chans) && b[j].task == k
      ensures a.v != null ==> a.v != b[j].v
      ensures alts[k][j] == PureOf(b[j])
    {
      assert Mirror(b, k, alts[k], chans);
      hide Content;
      assert alts[k][j] == PureOf(b[j]) && Usable(b[j], chans);
      if a.op == Send && a.v != null { assert b[j].v == a.v ==> a.v in ReceiveMemory(b); }
      if a.op == Receive && a.v != null { assert b[j].v == a.v ==> a.v in SendMemory(b); }
    }

    /** Writing into the receiver's memory, or into a ring buffer, touches nothing that another task sends from. */
    lemma Spares(a: Alt, b: array<Alt>, j: nat, k: Task, t: Task)
      requires SetsOk() && (a.op == Send || a.op == Receive) && OwnMemory(a)
      requires k in sets && sets[k] == b && j < Len(b[..]) && (a.op == Send ==> b[j].op == Receive) && t in sets && t != k
      ensures var r := if a.op == Receive then a.v else b[j].v; r == null || r !in SendMemory(sets[t])
      ensures forall c :: c in chans ==> c.buf !in SendMemory(sets[t])
    {
      if a.op == Send && b[j].v != null { assert b[j].v in ReceiveMemory(b); }
      assert Mirror(sets[t], t, alts[t], chans);
    }

    /** A blocked set whose array and whose outgoing elements have not been written. */
    twostate lemma MirrorKept(t: Task)
      requires t in sets && t in alts && old(t in sets && t in alts)
      requires sets[t] == old(sets[t]) && alts[t] == old(alts[t])
      requires old(Mirror(sets[t], t, alts[t], chans)) && sets[t][..] == old(sets[t][..])
      requires forall m, i :: m in old(SendMemory(sets[t])) && 0 <= i < m.Length ==> m[i] == old(m[i])
      ensures Mirror(sets[t], t, alts[t], old(chans))
    {
      var b := sets[t];
      forall m | m in old(SendMemory(sets[t])) ensures m[..] == old(m[..]) {}
      forall i | 0 <= i < |alts[t]| ensures alts[t][i] == PureOf(b[i]) {
        assert b[i] == b[..][i] == old(b[..][i]) == old(b[i]);
        assert old(Usable(b[i], chans) && alts[t][i] == PureOf(b[i]));
      }
    }

    lemma SparesAll(a: Alt, b: array<Alt>, j: nat, k: Task)
      requires SetsOk() && (a.op == Send || a.op == Receive) && OwnMemory(a) && Faces(a, k, j)
      requires sets[k] == b && j < b.Length && (a.op == Send ==> b[j].op == Receive)
      ensures forall t :: t in sets && t != k ==>
                var r := if a.op == Receive then a.v else b[j].v;
                t in alts && Mirror(sets[t], t, alts[t], chans) && (r == null || r !in SendMemory(sets[t]))
                && forall c :: c in chans ==> c.buf !in SendMemory(sets[t])
    {
      LenIs(b, k);
      hide SendMemory; hide ReceiveMemory; hide Mirror; hide OwnMemory;
      forall t | t in sets && t != k
        ensures var r := if a.op == Receive then a.v else b[j].v;
                t in alts && Mirror(sets[t], t, alts[t], chans) && (r == null || r !in SendMemory(sets[t]))
                && forall c :: c in chans ==> c.buf !in SendMemory(sets[t])
      {
        Spares(a, b, j, k, t);
      }
    }

    /** altcopy between `a` and a blocked alternative: everybody else's alternatives stay as they were. */
    method Meet(a: Alt, b: array<Alt>, j: nat, ghost k: Task) returns (ghost x: Elem)
      requires MemoryOk() && SetsOk() && Usable(a, chans) && (a.op == Send || a.op == Receive) && a.task != null
      requires Faces(a, k, j) && sets[k] == b && OwnMemory(a) && j < b.Length
      modifies a.c`nbuf, a.c`off, a.c`sent, a.c`rcvd, a.c.buf
      modifies if a.op == Receive then a.v else b[j].v
      ensures MemoryOk() && forall d :: d in chans && d != a.c ==> d.Contents() == old(d.Contents())
      ensures unchanged(this) && unchanged(chans`asend, chans`arecv) && unchanged(sets.Values)
      ensures forall t :: t in sets && t != k ==> Mirror(sets[t], t, alts[t], chans)
      ensures (a.c.Contents(), x) == CS.MeetAt(old(a.c.Contents()), a.task, old(PureOf(a)), k, alts[k][j])
      ensures Holds(if a.op == Receive then a.v else b[j].v, x)
    {
      hide Mirror; hide Usable; hide OwnMemory; hide Faces; hide SetsOk; hide MemoryOk; hide ReceiveMemory; hide Len;
      hide PureOf; hide Content; hide Holds; hide CS.MeetAt; hide CS.Meet;
      MeetFacts(a, b, j, k);
      SparesAll(a, b, j, k);
      UsableBuf(a, b[j]);
      RingsOf();
      MeetAtIs(a.c.Contents(), a, b[j], k);
      x := a.c.AltCopy(a, Some(b[j]));
      RingsOf();
      forall t | t in sets && t != k ensures Mirror(sets[t], t, alts[t], chans) {
        MirrorKept(t);
      }
    }

    lemma MeetAtIs(ch: PureChan, a: Alt, o: Alt, k: Task)
      requires Usable(a, chans) && Usable(o, chans) && a.task != null && a.c == o.c
      requires a.op == Send || a.op == Receive
      requires o.op == (if a.op == Send then Receive else Send)
      ensures CS.MeetAt(ch, a.task, PureOf(a), k, PureOf(o)) ==
              if a.op == Send then CS.Meet(ch, a.task, Content(a.v, a.c.elemsize), k)
              else CS.Meet(ch, k, Content(o.v, a.c.elemsize), a.task)
    {
    }

    lemma LenIs(b: array<Alt>, k: Task)
      requires SetsOk() && k in sets && sets[k] == b
      ensures |alts[k]| == Len(b[..])
    {
      assert Mirror(b, k, alts[k], chans);
    }

    lemma UsableBuf(a: Alt, o: Alt)
      requires Usable(a, chans) && Usable(o, chans) && (a.op == Send || a.op == Receive) && (o.op == Send || o.op == Receive)
      ensures forall c :: c in chans ==> a.v != c.buf && o.v != c.buf
    {
    }

    lemma RingsOf()
      ensures MemoryOk() ==> RingsOk(chans)
      ensures MemoryOk() <==> (forall c :: c in chans ==> c.RingOk()) && forall c, d :: c in chans && d in chans && c != d ==> c.buf != d.buf
    {
    }

    lemma SparesMine(a: Alt)
      requires SetsOk() && (a.op == Send || a.op == Receive) && OwnMemory(a)
      ensures forall t :: t in sets ==>
                t in alts && Mirror(sets[t], t, alts[t], chans)
                && (a.op == Receive ==> a.v == null || a.v !in SendMemory(sets[t]))
                && forall c :: c in chans ==> c.buf !in SendMemory(sets[t])
    {
      forall t | t in sets ensures t in alts && Mirror(sets[t], t, alts[t], chans) {}
    }

    lemma AloneFacts(a: Alt)
      requires MemoryOk() && Usable(a, chans) && (a.op == Send || a.op == Receive) && a.task != null
      ensures a.c != null && a.c in chans && a.c.RingOk() && a.c.Fits(a) && forall c :: c in chans ==> a.v != c.buf
    {
    }

    lemma PureOfIs(a: Alt)
      requires Usable(a, chans) && (a.op == Send || a.op == Receive)
      ensures a.op == Send ==> PureOf(a).v == Content(a.v, a.c.elemsize)
      ensures PureOf(a).c == a.c && PureOf(a).op == PureOp(a.op)
      ensures PureOf(a).op == CS.Snd <==> a.op == Send
    {
    }

    /** altcopy between `a` and the ring alone. */
    method Alone(a: Alt) returns (ghost x: Elem)
      requires MemoryOk() && SetsOk() && Usable(a, chans) && (a.op == Send || a.op == Receive) && a.task != null
      requires OwnMemory(a) && if a.op == Send then a.c.nbuf < a.c.bufsize else a.c.nbuf > 0
      modifies a.c`nbuf, a.c`off, a.c`sent, a.c`rcvd, a.c.buf
      modifies if a.op == Receive then a.v else null
      ensures MemoryOk() && forall d :: d in chans && d != a.c ==> d.Contents() == old(d.Contents())
      ensures unchanged(this) && unchanged(chans`asend, chans`arecv) && unchanged(sets.Values)
      ensures forall t :: t in sets ==> Mirror(sets[t], t, alts[t], chans)
      ensures a.op == Send ==> a.c.Contents() == CS.Put(old(a.c.Contents()), a.task, old(PureOf(a)).v) && x == old(PureOf(a)).v
      ensures a.op == Receive ==> (a.c.Contents(), x) == CS.Take(old(a.c.Contents()), a.task) && Holds(a.v, x)
    {
      hide Mirror; hide Usable; hide OwnMemory; hide SetsOk; hide MemoryOk; hide ReceiveMemory; hide Len;
      hide PureOf; hide Content; hide Holds; hide CS.Put; hide CS.Take;
      AloneFacts(a);
      SparesMine(a);
      RingsOf();
      PureOfIs(a);
      ghost var v := PureOf(a).v;
      x := a.c.AltCopy(a, None);
      if a.op == Send { x := v; }
      RingsOf();
      forall t | t in sets ensures Mirror(sets[t], t, alts[t], chans) {
        MirrorKept(t);
      }
    }

    /** SetsOk for everybody but task `k`, whose array is left as it was but whose memory may have been written. */
    ghost predicate SetsBut(k: Task)
      reads this`sets, this`alts, this`chans, sets.Values, Outgoing()
    {
      && sets.Keys == alts.Keys && k in sets
      && (forall t :: t in sets && t != k ==> sets[t] != sets[k] && Mirror(sets[t], t, alts[t], chans))
      && (forall j, t :: j in sets && t in sets && j != t && j != k && t != k ==>
            SendMemory(sets[j]) !! ReceiveMemory(sets[t]))
    }

    lemma SetsButIs(k: Task)
      requires SetsOk() && k in sets && |alts[k]| > 0
      ensures SetsBut(k)
    {
      forall t | t in sets && t != k ensures sets[t] != sets[k] {
        assert Mirror(sets[t], t, alts[t], chans) && Mirror(sets[k], k, alts[k], chans);
        assert sets[k][0].task == k && (|alts[t]| > 0 ==> sets[t][0].task == t);
      }
    }

    /** altalldequeue, and the note of the winner in the first alternative. */
    method Unlink(b: array<Alt>, other: AltPtr, ghost k: Task)
      requires SetsBut(k) && sets[k] == b && QueuesAgree(AllQueues(chans), sets, alts)
      requires 0 < Len(b[..]) == |alts[k]| < b.Length
      requires forall i :: 0 <= i < Len(b[..]) ==> Placed(AllQueues(chans), b, i)
      modifies chans`asend, chans`arecv, b
      ensures SetsBut(k) && Removed(old(AllQueues(chans)), AllQueues(chans), b, |alts[k]|)
      ensures b[..] == old(b[..])[0 := old(b[0]).(xalt := Some(other))]
    {
      SetsButParts(k);
      NoDupOf(AllQueues(chans), sets, alts);
      hide QueuesAgree; hide Mirror; hide Placed; hide Removed; hide SetsBut; hide Len; hide AllQueues; hide SetsOk;
      hide AllNoDup;
      AltAllDequeue(b, chans);
      b[0] := b[0].(xalt := Some(other));
      forall t | t in sets && t != k ensures Mirror(sets[t], t, alts[t], chans) {
        MirrorKept(t);
      }
      SetsButIf(k);
    }

    /** The peer leaves all queues, learns which of its alternatives was served, and is served. */
    method Release(b: array<Alt>, other: AltPtr, ghost k: Task, ghost f: PureFired)
      requires SetsBut(k) && sets[k] == b && QueuesAgree(AllQueues(chans), sets, alts)
      requires 0 < Len(b[..]) == |alts[k]| < b.Length
      requires forall i :: 0 <= i < Len(b[..]) ==> Placed(AllQueues(chans), b, i)
      modifies this`sets, this`alts, this`fired, chans`asend, chans`arecv, b
      ensures sets == old(sets) - {k} && alts == old(alts) - {k} && fired == old(fired)[k := f]
      ensures SetsOk() && QueuesAgree(AllQueues(chans), sets, alts)
      ensures b[..] == old(b[..])[0 := old(b[0]).(xalt := Some(other))]
    {
      hide *;
      ghost var qs := AllQueues(chans);
      Unlink(b, other, k);
      SetsButParts(k);
      RemoveAgrees(qs, AllQueues(chans), sets, alts, k);
      Forget(k, f);
    }

    /** The served task is no longer blocked. */
    ghost method Forget(k: Task, f: PureFired)
      requires SetsBut(k)
      modifies this`sets, this`alts, this`fired
      ensures sets == old(sets) - {k} && alts == old(alts) - {k} && fired == old(fired)[k := f]
      ensures SetsOk()
    {
      hide *;
      SetsButParts(k);
      SetsExist(chans);
      sets, alts, fired := sets - {k}, alts - {k}, fired[k := f];
      forall t | t in sets ensures Mirror(sets[t], t, alts[t], chans) {
        MirrorKept(t);
      }
      SetsOkIs();
    }

    lemma SetsButIf(k: Task)
      requires sets.Keys == alts.Keys && k in sets
      requires forall t :: t in sets && t != k ==> sets[t] != sets[k] && Mirror(sets[t], t, alts[t], chans)
      requires forall j, t :: j in sets && t in sets && j != t && j != k && t != k ==> SendMemory(sets[j]) !! ReceiveMemory(sets[t])
      ensures SetsBut(k)
    {
    }

    lemma SetsButParts(k: Task)
      requires SetsBut(k)
      ensures sets.Keys == alts.Keys && k in sets
      ensures forall t :: t in sets && t != k ==> sets[t] != sets[k] && Mirror(sets[t], t, alts[t], chans)
      ensures forall j, t :: j in sets && t in sets && j != t && j != k && t != k ==>
                SendMemory(sets[j]) !! ReceiveMemory(sets[t])
    {
    }

    lemma SetsOkIs()
      requires sets.Keys == alts.Keys
      requires forall t :: t in sets ==> Mirror(sets[t], t, alts[t], chans)
      requires forall j, t :: j in sets && t in sets && j != t ==> SendMemory(sets[j]) !! ReceiveMemory(sets[t])
      ensures SetsOk()
    {
    }

    lemma NoDupOf(qs: map<Channel, Lines>, sets: map<Task, array<Alt>>, alts: Sets)
      requires QueuesAgree(qs, sets, alts)
      ensures AllNoDup(qs)
    {
    }

    /** The pointer picked from a queue is a blocked alternative of exactly one task. */
    lemma Owner(p: AltPtr, c: Channel, op: AltOp) returns (k: Task)
      requires Valid() && c in chans && (op == Send || op == Receive) && p in Queue(c, op)
      ensures k in sets && k in alts && sets[k] == p.a && p.i < |alts[k]|
      ensures alts[k][p.i].op == PureOp(op) && alts[k][p.i].c == c
      ensures CS.Entry(k, p.i) in Waiting(alts, c, PureOp(op))
    {
      QueueIsLine(chans, c, op);
      assert Owned(p, sets, alts, c, op);
      k :| k in sets && k in alts && sets[k] == p.a && p.i < |alts[k]| &&
           alts[k][p.i].op == PureOp(op) && alts[k][p.i].c == c;
    }

    /** What altexec reads through a blocked pointer. */
    lemma BlockedArray(k: Task, j: nat)
      requires Valid() && k in sets && k in alts && j < |alts[k]|
      ensures 0 < Len(sets[k][..]) == |alts[k]| < sets[k].Length
      ensures sets[k][j].task == k && sets[k][j].xalt == Some(AltPtr(sets[k], 0))
      ensures forall i :: 0 <= i < Len(sets[k][..]) ==> Placed(AllQueues(chans), sets[k], i)
      ensures SetsBut(k)
    {
      hide CP.Inv; hide QueuesAgree; hide Placed;
      assert Mirror(sets[k], k, alts[k], chans);
      SetsButIs(k);
      forall i | 0 <= i < Len(sets[k][..]) ensures Placed(AllQueues(chans), sets[k], i) {
        IsPlaced(AllQueues(chans), sets, alts, k, i, chans);
      }
    }

    /** altcopy and altalldequeue against a blocked alternative. */
    method MeetRelease(a: Alt, other: AltPtr, ghost k: Task) returns (ghost x: Elem)
      requires Valid()
      requires Usable(a, chans) && (a.op == Send || a.op == Receive) && a.task != null && OwnMemory(a)
      requires Faces(a, k, other.i) && sets[k] == other.a && other.i < other.a.Length
      modifies this`sets, this`alts, this`fired, chans`asend, chans`arecv, other.a
      modifies a.c`nbuf, a.c`off, a.c`sent, a.c`rcvd, a.c.buf
      modifies if a.op == Receive then a.v else other.a[other.i].v
      ensures MemoryOk() && SetsOk() && QueuesAgree(AllQueues(chans), sets, alts)
      ensures (a.c.Contents(), x) == CS.MeetAt(old(a.c.Contents()), a.task, old(PureOf(a)), k, old(alts[k][other.i]))
      ensures forall d :: d in chans && d != a.c ==> d.Contents() == old(d.Contents())
      ensures Holds(if a.op == Receive then a.v else other.a[other.i].v, x)
      ensures sets == old(sets) - {k} && alts == old(alts) - {k}
      ensures fired == old(fired)[k := CS.Fired(other.i, old(alts[k][other.i]),
                                                if a.op == Send then x else old(alts[k][other.i]).v)]
      ensures other.a[0].xalt == Some(other) && other.a[other.i].task == old(other.a[other.i].task)
    {
      hide *;
      FacesIs(a, k, other.i);
      ghost var o := alts[k][other.i];
      BlockedArray(k, other.i);
      ValidParts();
      SetsButParts(k);
      AloneFacts(a);
      UsableChan(a, chans);
      ghost var b, was, pa := other.a[..], a.c.Contents(), PureOf(a);
      x := Meet(a, other.a, other.i, k);
      assert other.a in sets.Values && other.a[..] == b;
      SetsButIf(k);
      var base := other.a[other.i].xalt.value;
      RingsOf();
      ghost var ch := a.c.Contents();
      assert (ch, x) == CS.MeetAt(was, a.task, pa, k, o);
      Release(base.a, other, k, CS.Fired(other.i, o, if a.op == Send then x else o.v));
      assert a.c.Contents() == ch;
    }

    lemma FacesIs(a: Alt, k: Task, j: nat)
      ensures Faces(a, k, j) <==>
                && k in sets && k in alts && j < |alts[k]|
                && alts[k][j].c == a.c && alts[k][j].op == CS.Other(PureOp(a.op))
    {
    }

    /** The channels of `Abs` before and after, from their contents. */
    lemma MeetChans(
      was: map<Channel?, PureChan>, before: Sets, c: Channel, ch: PureChan, me: Task, pa: PureAlt, k: Task, o: PureAlt, x: Elem)
      requires RingsOk(chans) && c in chans && was.Keys == chans && alts == before - {k}
      requires (c.Contents(), x) == CS.MeetAt(ch, me, pa, k, o)
      requires was[c] == ch.(asend := Waiting(before, c, CS.Snd), arecv := Waiting(before, c, CS.Rcv))
      requires forall d :: d in chans ==> was[d].asend == Waiting(before, d, CS.Snd) && was[d].arecv == Waiting(before, d, CS.Rcv)
      requires forall d :: d in chans && d != c ==>
                 was[d] == d.Contents().(asend := Waiting(before, d, CS.Snd), arecv := Waiting(before, d, CS.Rcv))
      ensures CS.MeetAt(was[c], me, pa, k, o).1 == x
      ensures ChansOf(alts, chans) == CS.Withdraw(was[c := CS.MeetAt(was[c], me, pa, k, o).0], k)
    {
      hide Waiting;
      MeetFrame(ch, Waiting(before, c, CS.Snd), Waiting(before, c, CS.Rcv), me, pa, k, o);
      MeetFrame(was[c], was[c].asend, was[c].arecv, me, pa, k, o);
      ChansMeet(was, ChansOf(alts, chans), before, c, CS.MeetAt(was[c], me, pa, k, o).0, k);
    }

    /** The parts of `Abs` that MeetChans speaks of. */
    lemma ChansParts()
      requires RingsOk(chans)
      ensures ChansOf(alts, chans).Keys == chans
      ensures forall d :: d in chans ==>
                ChansOf(alts, chans)[d] == d.Contents().(asend := Waiting(alts, d, CS.Snd), arecv := Waiting(alts, d, CS.Rcv))
    {
    }

    /** taskready of a served peer; nothing else changes. */
    method Serve(
        kn: Kernel, t: Task, ghost alt: Alt, ghost x: Elem, ghost peer: Option<CS.Entry<Task>>, ghost was: map<Task, array<Alt>>)
      requires Handed(alt, x, peer, was)
      requires MemoryOk() && RingsOk(chans) && SetsOk() && QueuesAgree(AllQueues(chans), sets, alts)
      requires kn.Valid() && t in kn.all && t != kn.running && Loose(kn.lists, t)
      modifies kn.runq, kn.runq.elems`next, kn.runq.elems`prev, t`next, t`prev, t`ready
      ensures MemoryOk() && RingsOk(chans) && SetsOk() && QueuesAgree(AllQueues(chans), sets, alts)
      ensures ChansOf(alts, chans) == old(ChansOf(alts, chans))
      ensures kn.Valid() && kn.Abs() == SchedSpec.ReadyAll(old(kn.Abs()), [t])
      ensures Handed(alt, x, peer, was)
    {
      hide *;
      HandedExist(alt, peer, was);
      kn.SoundParts();
      MemoryExists();
      kn.TaskReady(t);
      Kept();
    }

    lemma MemoryExists()
      ensures forall m :: m in Outgoing() ==> allocated(m)
      ensures forall m :: m in Bufs(chans) ==> allocated(m)
    {
    }

    /** Nothing that the hub depends on has been written. */
    twostate lemma Kept()
      requires old(MemoryOk() && SetsOk() && QueuesAgree(AllQueues(chans), sets, alts))
      requires unchanged(this) && unchanged(chans) && unchanged(sets.Values)
      requires unchanged(Outgoing()) && unchanged(Bufs(chans))
      ensures MemoryOk() && RingsOk(chans) && SetsOk() && QueuesAgree(AllQueues(chans), sets, alts)
      ensures old(RingsOk(chans)) && ChansOf(alts, chans) == old(ChansOf(alts, chans))
    {
    }

    /** altexec against a blocked alternative, up to taskready. */
    method ExecMeet(a: Alt, other: AltPtr, ghost k: Task) returns (ghost x: Elem)
      requires Valid()
      requires Usable(a, chans) && (a.op == Send || a.op == Receive) && a.task != null && OwnMemory(a)
      requires Faces(a, k, other.i) && sets[k] == other.a && other.i < other.a.Length
      modifies this`sets, this`alts, this`fired, chans`asend, chans`arecv, other.a
      modifies a.c`nbuf, a.c`off, a.c`sent, a.c`rcvd, a.c.buf
      modifies if a.op == Receive then a.v else other.a[other.i].v
      ensures MemoryOk() && RingsOk(chans) && SetsOk() && QueuesAgree(AllQueues(chans), sets, alts)
      ensures a.c in old(ChansOf(alts, chans))
      ensures var m := CS.MeetAt(old(ChansOf(alts, chans)[a.c]), a.task, old(PureOf(a)), k, old(alts[k][other.i]));
              x == m.1 && ChansOf(alts, chans) == CS.Withdraw(old(ChansOf(alts, chans))[a.c := m.0], k)
      ensures Holds(if a.op == Receive then a.v else other.a[other.i].v, x)
      ensures sets == old(sets) - {k} && alts == old(alts) - {k}
      ensures fired == old(fired)[k := CS.Fired(other.i, old(alts[k][other.i]),
                                                if a.op == Send then x else old(alts[k][other.i]).v)]
      ensures other.a[0].xalt == Some(other) && other.a[other.i].task == k
    {
      hide *;
      FacesIs(a, k, other.i);
      ValidParts();
      AloneFacts(a);
      UsableChan(a, chans);
      ChansParts();
      BlockedArray(k, other.i);
      ghost var pa, o, was, ch := PureOf(a), alts[k][other.i], ChansOf(alts, chans), a.c.Contents();
      x := MeetRelease(a, other, k);
      RingsOf();
      MeetChans(was, old(alts), a.c, ch, a.task, pa, k, o, x);
    }

    /** The channels of `Abs` after one of them has changed its contents. */
    lemma AloneChans(was: map<Channel?, PureChan>, c: Channel, m: PureChan)
      requires RingsOk(chans) && c in chans && was.Keys == chans
      requires m == c.Contents().(asend := Waiting(alts, c, CS.Snd), arecv := Waiting(alts, c, CS.Rcv))
      requires forall d :: d in chans && d != c ==>
                 was[d] == d.Contents().(asend := Waiting(alts, d, CS.Snd), arecv := Waiting(alts, d, CS.Rcv))
      ensures ChansOf(alts, chans) == was[c := m]
    {
    }

    /** altexec without a peer. */
    method ExecAlone(a: Alt, ghost me: Task) returns (ghost x: Elem)
      requires Valid()
      requires Usable(a, chans) && (a.op == Send || a.op == Receive) && a.task == me && OwnMemory(a)
      requires if a.op == Send then a.c.nbuf < a.c.bufsize else a.c.nbuf > 0
      modifies a.c`nbuf, a.c`off, a.c`sent, a.c`rcvd, a.c.buf
      modifies if a.op == Receive then a.v else null
      ensures MemoryOk() && RingsOk(chans) && SetsOk() && QueuesAgree(AllQueues(chans), sets, alts)
      ensures a.c in old(ChansOf(alts, chans))
      ensures a.op == Send ==> x == old(PureOf(a)).v
      ensures a.op == Send ==>
                ChansOf(alts, chans) == old(ChansOf(alts, chans))[a.c := CS.Put(old(ChansOf(alts, chans)[a.c]), me, x)]
      ensures a.op == Receive ==> old(ChansOf(alts, chans)[a.c]).ring != []
      ensures a.op == Receive ==>
                var m := CS.Take(old(ChansOf(alts, chans)[a.c]), me);
                x == m.1 && ChansOf(alts, chans) == old(ChansOf(alts, chans))[a.c := m.0] && Holds(a.v, x)
    {
      hide *;
      ValidParts();
      AloneFacts(a);
      UsableChan(a, chans);
      ChansParts();
      MemoryExists();
      ghost var was, ch, v := ChansOf(alts, chans), a.c.Contents(), PureOf(a).v;
      RingLength(a.c);
      x := Alone(a);
      AloneSets();
      RingsOf();
      if a.op == Send {
        PutFrame(ch, Waiting(alts, a.c, CS.Snd), Waiting(alts, a.c, CS.Rcv), me, v);
        ghost var m: PureChan := CS.Put(was[a.c], me, v);
        AloneChans(was, a.c, m);
      } else {
        TakeFrame(ch, Waiting(alts, a.c, CS.Snd), Waiting(alts, a.c, CS.Rcv), me);
        ghost var m: PureChan := CS.Take(was[a.c], me).0;
        AloneChans(was, a.c, m);
      }
    }

    lemma RingLength(c: Channel)
      requires c.RingOk()
      ensures c.Contents().ring == c.Ring() && |c.Ring()| == c.nbuf
    {
    }

    /** The arrays of blocked tasks are as they were. */
    twostate lemma AloneSets()
      requires old(SetsOk()) && unchanged(this) && unchanged(sets.Values)
      requires forall t :: t in sets ==> t in alts && Mirror(sets[t], t, alts[t], chans)
      ensures SetsOk()
    {
    }

    /** What CS.Exec does, in the terms of ExecMeet and ExecAlone. */
    lemma ExecIs(cs: PureState, me: Task, p: seq<PureAlt>, i: nat, peer: Option<CS.Entry<Task>>)
      requires i < |p| && p[i].op != CS.Nop && p[i].c in cs.chans && CS.CanExec(cs, p[i]) && CS.PeerOk(cs, p[i], peer)
      ensures peer.None? && p[i].op == CS.Snd ==>
                CS.Exec(cs, me, p, i, peer) == (cs.(chans := cs.chans[p[i].c := CS.Put(cs.chans[p[i].c], me, p[i].v)]), p[i].v)
      ensures peer.None? && p[i].op == CS.Rcv ==>
                && cs.chans[p[i].c].ring != []
                && var m := CS.Take(cs.chans[p[i].c], me);
                   CS.Exec(cs, me, p, i, peer) == (cs.(chans := cs.chans[p[i].c := m.0]), m.1)
      ensures peer.Some? ==>
                var (k, j) := (peer.value.k, peer.value.i);
                var m := CS.MeetAt(cs.chans[p[i].c], me, p[i], k, cs.sets[k][j]);
                CS.Exec(cs, me, p, i, peer) ==
                  (cs.(chans := CS.Withdraw(cs.chans[p[i].c := m.0], k), sets := cs.sets - {k},
                       fired := cs.fired[k := CS.Fired(j, cs.sets[k][j], if p[i].op == CS.Snd then m.1 else cs.sets[k][j].v)]),
                   if p[i].op == CS.Snd then p[i].v else m.1)
    {
    }

    lemma OwnFromOffered(a: array<Alt>, me: Task, i: nat)
      requires Offered(a, me) && i < Len(a[..]) && (a[i].op == Send || a[i].op == Receive)
      ensures Usable(a[i], chans) && OwnMemory(a[i])
    {
      if a[i].op == Send && a[i].v != null { assert a[i].v in SendMemory(a); }
      if a[i].op == Receive && a[i].v != null { assert a[i].v in ReceiveMemory(a); }
    }

    /** With nobody on the other side, the ring has room or an element. */
    lemma RingIsReady(a: Alt)
      requires Valid() && Usable(a, chans) && (a.op == Send || a.op == Receive)
      requires PureOf(a).c in Abs().chans && CS.CanExec(Abs(), PureOf(a)) && Queue(a.c, Others(a.op)) == []
      ensures if a.op == Send then a.c.nbuf < a.c.bufsize else a.c.nbuf > 0
    {
      hide CP.Inv; hide QueuesAgree; hide Mirror;
      OtherQueue(a);
      CP.CopyIsSafe(Abs(), PureOf(a));
    }

    /** All memory that blocked tasks receive into. */
    ghost function Incoming(): set<array<byte>>
      reads this`sets, sets.Values
    {
      set k, m | k in sets && m in ReceiveMemory(sets[k]) :: m
    }

    lemma IncomingHas(k: Task, j: nat)
      requires k in sets && j < Len(sets[k][..])
      ensures sets[k][j].op == Receive && sets[k][j].v != null ==> sets[k][j].v in Incoming()
    {
      if sets[k][j].op == Receive && sets[k][j].v != null { assert sets[k][j].v in ReceiveMemory(sets[k]); }
    }

    /** The memory of the peer's alternative, in its array in `was`. */
    ghost function MemoryAt(was: map<Task, array<Alt>>, peer: Option<CS.Entry<Task>>): array?<byte>
      reads was.Values
    {
      match peer
      case Some(e) => if e.k in was && e.i < was[e.k].Length then was[e.k][e.i].v else null
      case None => null
    }

    /**
     What a finished exchange leaves in memory.  The caller, which did `alt`, has the element if
     it received.  The peer, which waited with its array in `was`, has it otherwise, and that
     array says which alternative was served.
     */
    ghost predicate Handed(alt: Alt, x: Elem, peer: Option<CS.Entry<Task>>, was: map<Task, array<Alt>>)
      reads alt.v, was.Values, MemoryAt(was, peer), this`fired
    {
      && (alt.op == Receive ==> Holds(alt.v, x))
      && match peer
         case Some(e) =>
           Noted(was, e) && (alt.op == Send ==> e.k in fired && Holds(MemoryAt(was, peer), fired[e.k].v))
         case None => true
    }

    lemma HandedAlone(alt: Alt, x: Elem, was: map<Task, array<Alt>>)
      requires alt.op == Receive ==> Holds(alt.v, x)
      ensures Handed(alt, x, None, was)
    {
    }

    lemma HandedWith(alt: Alt, x: Elem, k: Task, other: AltPtr, was: map<Task, array<Alt>>)
      requires k in was && was[k] == other.a && other.i < other.a.Length && other.a[0].xalt == Some(other)
      requires if alt.op == Receive then Holds(alt.v, x) else k in fired && Holds(other.a[other.i].v, fired[k].v)
      ensures Handed(alt, x, Some(CS.Entry(k, other.i)), was)
    {
    }

    lemma HandedSame(alt: Alt, alt': Alt, x: Elem, peer: Option<CS.Entry<Task>>, was: map<Task, array<Alt>>)
      requires Handed(alt, x, peer, was) && alt'.op == alt.op && alt'.v == alt.v
      ensures Handed(alt', x, peer, was)
    {
    }

    lemma HandedIs(alt: Alt, x: Elem, peer: Option<CS.Entry<Task>>, was: map<Task, array<Alt>>)
      requires Handed(alt, x, peer, was)
      ensures alt.op == Receive ==> Holds(alt.v, x)
      ensures peer.Some? ==> peer.value.k in was && Noted(was, peer.value)
    {
    }

    lemma HandedExist(alt: Alt, peer: Option<CS.Entry<Task>>, was: map<Task, array<Alt>>)
      ensures allocated(alt.v) && allocated(MemoryAt(was, peer)) && forall k :: k in was ==> allocated(was[k])
    {
    }

    /** altexec with the peer that `other` points to, up to taskready. */
    method ExecWith(a: Alt, other: AltPtr, ghost k: Task, ghost p: seq<PureAlt>, ghost i: nat) returns (ghost x: Elem)
      requires Valid()
      requires Usable(a, chans) && (a.op == Send || a.op == Receive) && a.task != null && OwnMemory(a)
      requires Faces(a, k, other.i) && sets[k] == other.a && other.i < other.a.Length
      requires i < |p| && p[i] == PureOf(a) && a.c in Abs().chans
      requires CS.CanExec(Abs(), p[i]) && CS.PeerOk(Abs(), p[i], Some(CS.Entry(k, other.i)))
      modifies this`sets, this`alts, this`fired, chans`asend, chans`arecv, other.a
      modifies a.c`nbuf, a.c`off, a.c`sent, a.c`rcvd, a.c.buf
      modifies if a.op == Receive then a.v else other.a[other.i].v
      ensures MemoryOk() && RingsOk(chans) && SetsOk() && QueuesAgree(AllQueues(chans), sets, alts)
      ensures (Abs(), x) == CS.Exec(old(Abs()), a.task, p, i, Some(CS.Entry(k, other.i)))
      ensures Handed(a, x, Some(CS.Entry(k, other.i)), old(sets))
      ensures other.a[other.i].task == k && sets == old(sets) - {k}
    {
      hide *;
      ValidParts();
      HubAbs();
      ghost var cs := Abs();
      FacesIs(a, k, other.i);
      UsableChan(a, chans);
      PureOfIs(a);
      PureSides(a.op);
      ExecIs(cs, a.task, p, i, Some(CS.Entry(k, other.i)));
      ghost var was := sets;
      x := ExecMeet(a, other, k);
      HubAbs();
      x := if a.op == Send then p[i].v else x;
      HandedWith(a, x, k, other, was);
    }

    lemma HubAbs()
      requires RingsOk(chans)
      ensures Abs() == CS.CS(ChansOf(alts, chans), alts, fired, hist)
    {
    }

    lemma PureSides(op: AltOp)
      ensures op == Send ==> PureOp(op) == CS.Snd
      ensures op == Receive ==> PureOp(op) == CS.Rcv
    {
    }

    /** The same with taskready. */
    method ExecServe(kn: Kernel, a: Alt, other: AltPtr, ghost k: Task, ghost p: seq<PureAlt>, ghost i: nat)
        returns (ghost x: Elem)
      requires Valid() && kn.Valid() && k in kn.all && k != kn.running && Loose(kn.lists, k)
      requires Usable(a, chans) && (a.op == Send || a.op == Receive) && a.task != null && OwnMemory(a)
      requires Faces(a, k, other.i) && sets[k] == other.a && other.i < other.a.Length
      requires i < |p| && p[i] == PureOf(a) && a.c in Abs().chans
      requires CS.CanExec(Abs(), p[i]) && CS.PeerOk(Abs(), p[i], Some(CS.Entry(k, other.i)))
      modifies this`sets, this`alts, this`fired, chans`asend, chans`arecv, other.a
      modifies a.c`nbuf, a.c`off, a.c`sent, a.c`rcvd, a.c.buf
      modifies if a.op == Receive then a.v else other.a[other.i].v
      modifies kn.runq, kn.runq.elems`next, kn.runq.elems`prev, k`next, k`prev, k`ready
      ensures MemoryOk() && RingsOk(chans) && SetsOk() && QueuesAgree(AllQueues(chans), sets, alts)
      ensures (Abs(), x) == CS.Exec(old(Abs()), a.task, p, i, Some(CS.Entry(k, other.i)))
      ensures Handed(a, x, Some(CS.Entry(k, other.i)), old(sets)) && sets == old(sets) - {k}
      ensures kn.Valid() && kn.Abs() == SchedSpec.ReadyAll(old(kn.Abs()), [k])
    {
      hide *;
      ValidParts();
      AloneFacts(a);
      UsableChan(a, chans);
      assert kn.Valid() && Loose(kn.lists, k);
      ghost var was := sets;
      x := ExecWith(a, other, k, p, i);
      assert kn.Valid() && Loose(kn.lists, k) && kn.Abs() == old(kn.Abs());
      HubAbs();
      Serve(kn, other.a[other.i].task, a, x, Some(CS.Entry(k, other.i)), was);
      HubAbs();
    }

    /** The peer that altexec picks, and what it may rely on. */
    lemma PeerFacts(kn: Kernel, a: Alt, other: AltPtr) returns (k: Task)
      requires Valid() && Parked(kn) && Usable(a, chans) && (a.op == Send || a.op == Receive)
      requires other in Queue(a.c, Others(a.op))
      ensures Faces(a, k, other.i) && sets[k] == other.a && other.i < Len(other.a[..]) <= other.a.Length
      ensures k in kn.all && k != kn.running && Loose(kn.lists, k)
      ensures a.c in Abs().chans && CS.PeerOk(Abs(), PureOf(a), Some(CS.Entry(k, other.i)))
      ensures other.a[other.i].v != null && a.op == Send ==> other.a[other.i].v in Incoming()
    {
      k := Owner(other, a.c, Others(a.op));
      BlockedArray(k, other.i);
      ValidParts();
      hide Valid; hide CP.Inv; hide QueuesAgree; hide SetsOk; hide Waiting; hide Usable; hide SetsBut; hide Placed; hide Len;
      UsableChan(a, chans);
      AbsSide(a.c, a.op);
      PureSides(a.op);
      OtherOp(a, k, other.i);
      IncomingHas(k, other.i);
    }

    lemma OtherOp(a: Alt, k: Task, j: nat)
      requires SetsOk() && k in sets && k in alts && j < |alts[k]| && (a.op == Send || a.op == Receive)
      requires alts[k][j].op == PureOp(Others(a.op))
      ensures j < sets[k].Length && (a.op == Send ==> sets[k][j].op == Receive)
    {
      assert Mirror(sets[k], k, alts[k], chans);
      assert alts[k][j] == PureOf(sets[k][j]);
    }

    /** altexec: with a random blocked peer if there is one, else alone. */
    method AltExec(kn: Kernel, a: array<Alt>, i: nat, rand: nat, ghost p: seq<PureAlt>)
        returns (ghost peer: Option<CS.Entry<Task>>, ghost x: Elem)
      requires Valid() && kn.Valid() && kn.running != null && Parked(kn) && Offered(a, kn.running)
      requires i < Len(a[..]) && a[i].task == kn.running && (a[i].op == Send || a[i].op == Receive)
      requires i < |p| && p[i] == PureOf(a[i]) && a[i].c in Abs().chans && CS.CanExec(Abs(), p[i])
      modifies this`sets, this`alts, this`fired, chans, Bufs(chans), sets.Values, Incoming()
      modifies if a[i].op == Receive then a[i].v else null
      modifies kn.runq, kn.runq.elems`next, kn.runq.elems`prev, sets.Keys`next, sets.Keys`prev, sets.Keys`ready
      ensures MemoryOk() && RingsOk(chans) && SetsOk() && QueuesAgree(AllQueues(chans), sets, alts)
      ensures CS.PeerOk(old(Abs()), p[i], peer)
      ensures (Abs(), x) == CS.Exec(old(Abs()), old(kn.running), p, i, peer)
      ensures Handed(old(a[i]), x, peer, old(sets))
      ensures sets == if peer.Some? then old(sets) - {peer.value.k} else old(sets)
      ensures kn.Valid()
      ensures kn.Abs() == if peer.Some? then SchedSpec.ReadyAll(old(kn.Abs()), [peer.value.k]) else old(kn.Abs())
    {
      hide *;
      OwnFromOffered(a, kn.running, i);
      UsableChan(a[i], chans);
      ValidParts();
      PureOfIs(a[i]);
      BufHas(a[i].c);
      var c := a[i].c;
      var ar := Queue(c, Others(a[i].op));
      if |ar| > 0 {
        var other := ar[rand % |ar|];
        ghost var k := PeerFacts(kn, a[i], other);
        FacesIs(a[i], k, other.i);
        assert other.a in sets.Values;
        peer := Some(CS.Entry(k, other.i));
        x := ExecServe(kn, a[i], other, k, p, i);
      } else {
        peer := None;
        OtherQueue(a[i]);
        RingIsReady(a[i]);
        ghost var me, cs, alt := kn.running, Abs(), a[i];
        PureSides(a[i].op);
        NoPeer(cs, p[i]);
        HubAbs();
        assert kn.Valid() && kn.running == me;
        x := ExecAlone(a[i], kn.running);
        assert kn.Valid() && kn.Abs() == old(kn.Abs());
        HubAbs();
        ExecIs(cs, me, p, i, None);
        HandedAlone(alt, x, sets);
      }
    }

    lemma NotedKey(was: map<Task, array<Alt>>, e: CS.Entry<Task>)
      requires Noted(was, e)
      ensures e.k in was && e == CS.Entry(e.k, e.i)
    {
    }

    lemma NoPeer(cs: PureState, a: PureAlt)
      requires a.op != CS.Nop && a.c in cs.chans && CS.Side(cs.chans[a.c], CS.Other(a.op)) == {}
      ensures CS.PeerOk(cs, a, None)
    {
    }

    lemma BufHas(c: Channel)
      requires c in chans
      ensures c.buf in Bufs(chans)
    {
    }

    // ---- chanalt ----

    /** The loop that enters the running task and the set in every alternative. */
    method Tag(a: array<Alt>, n: nat, me: Task)
      requires n == Len(a[..]) < a.Length
      modifies a
      ensures Len(a[..]) == n && forall i :: 0 <= i < a.Length ==>
                a[i] == if i < n then old(a[i]).(task := me, xalt := Some(AltPtr(a, 0))) else old(a[i])
    {
      ghost var s := a[..];
      var i := 0;
      while i < n
        invariant i <= n
        invariant forall j :: 0 <= j < a.Length ==>
                    a[j] == if j < i then old(a[j]).(task := me, xalt := Some(AltPtr(a, 0))) else old(a[j])
      {
        a[i] := a[i].(task := me, xalt := Some(AltPtr(a, 0)));
        i := i + 1;
      }
      SameLen(s, a[..]);
    }

    lemma {:induction false} SameLen(s: seq<Alt>, t: seq<Alt>)
      requires |s| == |t| && forall i :: 0 <= i < |s| ==> s[i].op == t[i].op
      ensures Len(s) == Len(t)
    {
      if s != [] { SameLen(s[1..], t[1..]); }
    }

    /** The search for the terminator. */
    method Scan(a: array<Alt>, ghost me: Task, ghost p: seq<PureAlt>) returns (n: nat)
      requires Valid() && Offered(a, me) && p == PureAlts(a)
      ensures Valid() && Offered(a, me) && p == PureAlts(a) && Abs() == old(Abs()) && Len(a[..]) == n < a.Length
    {
      hide *;
      ValidParts();
      OfferedIff(a, me);
      ghost var cs := Abs();
      n := 0;
      while !Terminal(a[n].op)
        invariant Valid() && Offered(a, me) && RingsOk(chans) && Abs() == cs && p == PureAlts(a)
        invariant n <= Len(a[..]) < a.Length
        decreases Len(a[..]) - n
      {
        LenStep(a, n);
        n := n + 1;
      }
      LenStep(a, n);
    }

    lemma LenStep(a: array<Alt>, n: nat)
      requires n <= Len(a[..]) < a.Length
      ensures Terminal(a[n].op) <==> n == Len(a[..])
    {
    }

    ghost function Count(cs: PureState, p: seq<PureAlt>, from: nat): nat
      requires CS.AltsOk(cs, p) && from <= |p|
      decreases |p| - from
    {
      if from == |p| then 0 else (if CS.CanExec(cs, p[from]) then 1 else 0) + Count(cs, p, from + 1)
    }

    lemma {:induction false} CountSome(cs: PureState, p: seq<PureAlt>, from: nat)
      requires CS.AltsOk(cs, p) && from <= |p|
      ensures Count(cs, p, from) == 0 <==> forall i :: from <= i < |p| ==> !CS.CanExec(cs, p[i])
      decreases |p| - from
    {
      if from < |p| { CountSome(cs, p, from + 1); }
    }

    /** Alternative `i` of the offer as a value. */
    lemma OfferedIs(a: array<Alt>, me: Task, i: nat)
      requires Valid() && Offered(a, me) && i < Len(a[..])
      ensures Usable(a[i], chans) && !Terminal(a[i].op)
      ensures CS.AltsOk(Abs(), PureAlts(a))
      ensures i < |PureAlts(a)| && PureAlts(a)[i] == PureOf(a[i])
    {
    }

    lemma OfferedAlts(a: array<Alt>, me: Task)
      requires RingsOk(chans) && Offered(a, me)
      ensures |PureAlts(a)| == Len(a[..]) < a.Length && CS.AltsOk(Abs(), PureAlts(a))
      ensures forall i :: 0 <= i < Len(a[..]) ==> Usable(a[i], chans) && PureAlts(a)[i] == PureOf(a[i])
    {
    }

    /** The first loop over altcanexec. */
    method CountCan(a: array<Alt>, n: nat, ghost me: Task, ghost p: seq<PureAlt>) returns (ncan: nat)
      requires Valid() && Offered(a, me) && n == Len(a[..]) && p == PureAlts(a) && CS.AltsOk(Abs(), p)
      ensures Valid() && Offered(a, me) && p == PureAlts(a) && Abs() == old(Abs()) && Len(a[..]) == n
      ensures ncan == Count(Abs(), p, 0)
    {
      hide *;
      ValidParts();
      OfferedAlts(a, me);
      ghost var cs := Abs();
      ncan := 0;
      var i := 0;
      CountEnd(cs, p);
      while i < n
        invariant i <= n && ncan + Count(cs, p, i) == Count(cs, p, 0)
        invariant Valid() && Offered(a, me) && RingsOk(chans) && Abs() == cs && Len(a[..]) == n && p == PureAlts(a)
      {
        OfferedIs(a, me, i);
        CountStep(cs, p, i);
        AltCanExecIs(a[i]);
        if AltCanExec(a[i]) { ncan := ncan + 1; }
        i := i + 1;
      }
    }

    lemma CountStep(cs: PureState, p: seq<PureAlt>, from: nat)
      requires CS.AltsOk(cs, p) && from < |p|
      ensures p[from].op == CS.Nop || p[from].c in cs.chans
      ensures Count(cs, p, from) == (if CS.CanExec(cs, p[from]) then 1 else 0) + Count(cs, p, from + 1)
    {
    }

    lemma CountEnd(cs: PureState, p: seq<PureAlt>)
      requires CS.AltsOk(cs, p)
      ensures Count(cs, p, |p|) == 0
    {
    }

    /** The second loop: the alternative that rand() picks among those that can be done. */
    method Pick(a: array<Alt>, n: nat, j0: nat, ghost me: Task, ghost p: seq<PureAlt>) returns (i: nat)
      requires Valid() && Offered(a, me) && n == Len(a[..]) && p == PureAlts(a) && CS.AltsOk(Abs(), p)
      requires j0 < Count(Abs(), p, 0)
      ensures Valid() && Offered(a, me) && p == PureAlts(a) && Abs() == old(Abs()) && Len(a[..]) == n
      ensures i < n && |p| == n && (p[i].op == CS.Nop || p[i].c in Abs().chans) && CS.CanExec(Abs(), p[i])
      ensures Count(Abs(), p, i) + j0 == Count(Abs(), p, 0)
      ensures sets == old(sets)
    {
      hide *;
      ValidParts();
      OfferedAlts(a, me);
      ghost var cs := Abs();
      var j: nat := j0;
      i := 0;
      CountEnd(cs, p);
      while true
        invariant i <= n == |p| && j < Count(cs, p, i) && Count(cs, p, i) + j0 == Count(cs, p, 0) + j
        invariant Valid() && Offered(a, me) && RingsOk(chans) && Abs() == cs && Len(a[..]) == n && p == PureAlts(a)
        decreases n - i
      {
        OfferedIs(a, me, i);
        CountStep(cs, p, i);
        AltCanExecIs(a[i]);
        if AltCanExec(a[i]) {
          if j == 0 { return; }
          j := j - 1;
        }
        i := i + 1;
      }
    }

    /** Alternative `i` is the one that `rand` selects among those that can be done. */
    ghost predicate Picked(cs: PureState, p: seq<PureAlt>, i: nat, rand: nat) {
      && CS.AltsOk(cs, p) && i < |p| && 0 < Count(cs, p, 0)
      && Count(cs, p, i) + rand % Count(cs, p, 0) == Count(cs, p, 0)
    }

    /** How many alternatives from `from` on can be done. */
    lemma {:induction false} CountIs(cs: PureState, p: seq<PureAlt>, from: nat)
      requires CS.AltsOk(cs, p) && from <= |p|
      ensures Count(cs, p, from) == |set j: nat | from <= j < |p| && CS.CanExec(cs, p[j])|
      decreases |p| - from
    {
      var s := set j: nat | from <= j < |p| && CS.CanExec(cs, p[j]);
      if from == |p| {
        assert s == {};
      } else {
        CountIs(cs, p, from + 1);
        OneMore(cs, p, from);
      }
    }

    lemma OneMore(cs: PureState, p: seq<PureAlt>, from: nat)
      requires CS.AltsOk(cs, p) && from < |p|
      ensures |set j: nat | from <= j < |p| && CS.CanExec(cs, p[j])| ==
              (if CS.CanExec(cs, p[from]) then 1 else 0) + |set j: nat | from + 1 <= j < |p| && CS.CanExec(cs, p[j])|
    {
      hide CS.CanExec;
      var rest := set j: nat | from + 1 <= j < |p| && CS.CanExec(cs, p[j]);
      assert (set j: nat | from <= j < |p| && CS.CanExec(cs, p[j])) == if CS.CanExec(cs, p[from]) then {from} + rest else rest;
    }

    lemma Split(cs: PureState, p: seq<PureAlt>, i: nat)
      requires CS.AltsOk(cs, p) && i <= |p|
      ensures |set j: nat | j < |p| && CS.CanExec(cs, p[j])| ==
              |set j: nat | j < i && CS.CanExec(cs, p[j])| + |set j: nat | i <= j < |p| && CS.CanExec(cs, p[j])|
    {
      hide CS.CanExec;
      var before, from := set j: nat | j < i && CS.CanExec(cs, p[j]), set j: nat | i <= j < |p| && CS.CanExec(cs, p[j]);
      assert (set j: nat | j < |p| && CS.CanExec(cs, p[j])) == before + from && before !! from;
    }

    /** The alternative that `rand` selects has as many candidates before it as `rand` modulo their number. */
    lemma PickedByRand(cs: PureState, p: seq<PureAlt>, i: nat, rand: nat)
      requires Picked(cs, p, i, rand)
      ensures CS.AltsOk(cs, p) && i < |p|
      ensures var all := set j: nat | j < |p| && CS.CanExec(cs, p[j]);
              |all| > 0 && |set j: nat | j < i && CS.CanExec(cs, p[j])| == rand % |all|
    {
      CountIs(cs, p, 0);
      CountIs(cs, p, i);
      Split(cs, p, i);
      assert (set j: nat | j < |p| && CS.CanExec(cs, p[j])) == set j: nat | 0 <= j < |p| && CS.CanExec(cs, p[j]);
      hide CS.CanExec; hide Count;
    }

    lemma PickedIf(cs: PureState, p: seq<PureAlt>, i: nat, rand: nat, ncan: nat)
      requires CS.AltsOk(cs, p) && i < |p| && 0 < ncan == Count(cs, p, 0) && Count(cs, p, i) + rand % ncan == ncan
      ensures Picked(cs, p, i, rand)
    {
    }

    /** Every alternative carries the running task and a pointer to the first one. */
    ghost predicate Tagged(a: array<Alt>, me: Task)
      reads a
    {
      forall i :: 0 <= i < Len(a[..]) && i < a.Length ==> a[i].task == me && a[i].xalt == Some(AltPtr(a, 0))
    }

    lemma NotQueued(a: array<Alt>, me: Task)
      requires QueuesAgree(AllQueues(chans), sets, alts) && Offered(a, me)
      ensures Unqueued(AllQueues(chans), a)
      ensures AllQueues(chans).Keys == chans
    {
      var qs := AllQueues(chans);
      forall c, op, p | c in qs && p in Line(qs[c], op) ensures p.a != a {
        assert Owned(p, sets, alts, c, op);
      }
    }

    lemma OfferedMirror(a: array<Alt>, me: Task)
      requires Offered(a, me) && Tagged(a, me)
      ensures Mirror(a, me, PureAlts(a), chans) && me !in sets
      ensures forall i :: 0 <= i < Len(a[..]) ==> !Terminal(a[i].op) && (a[i].op != Skip ==> a[i].c != null && a[i].c in chans)
      ensures forall i :: 0 <= i < Len(a[..]) ==>
                PureAlts(a)[i].op == PureOp(a[..][i].op) && PureAlts(a)[i].c == a[..][i].c
      ensures forall k :: k in sets ==> SendMemory(a) !! ReceiveMemory(sets[k]) && SendMemory(sets[k]) !! ReceiveMemory(a)
    {
    }

    /** The channels of `Abs` after a task has joined the queues. */
    lemma ParkChans(cs: PureState, before: Sets, me: Task, p: seq<PureAlt>)
      requires RingsOk(chans) && cs == CS.CS(cs.chans, before, fired, hist) && me !in before && alts == before[me := p]
      requires cs.chans.Keys == chans
      requires forall d :: d in chans ==>
                 cs.chans[d] == d.Contents().(asend := Waiting(before, d, CS.Snd), arecv := Waiting(before, d, CS.Rcv))
      ensures Abs() == CS.Park(cs, me, p)
    {
      var cs' := CS.Park(cs, me, p);
      ChansParts();
      forall d: Channel | d in chans ensures ChansOf(alts, chans)[d] == cs'.chans[d] {
        WaitingWith(before, me, p, d, CS.Snd);
        WaitingWith(before, me, p, d, CS.Rcv);
      }
      assert ChansOf(alts, chans) == cs'.chans;
    }

    /** altqueue for every alternative. */
    method EnqueueAll(a: array<Alt>, n: nat, ghost me: Task, ghost p: seq<PureAlt>)
      requires Valid() && Offered(a, me) && Tagged(a, me) && n == Len(a[..]) && p == PureAlts(a) && me !in alts
      modifies chans`asend, chans`arecv
      ensures MemoryOk() && QueuesAgree(AllQueues(chans), sets[me := a], alts[me := p])
      ensures Mirror(a, me, p, chans) && forall t :: t in sets ==> t in alts && Mirror(sets[t], t, alts[t], chans)
      ensures forall c :: c in chans ==> c.RingOk() && c.Contents() == old(c.Contents())
    {
      hide *;
      ValidParts();
      NotQueued(a, me);
      OfferedMirror(a, me);
      SendExists(a);
      SetsParts();
      RingsOf();
      ghost var qs := AllQueues(chans);
      AltQueueAll(a, n, chans);
      AddAgrees(qs, AllQueues(chans), sets, alts, me, a, a[..], p);
      forall t | t in sets ensures Mirror(sets[t], t, alts[t], chans) { MirrorKept(t); }
      RingsOf();
    }

    /** The task blocks with its array. */
    method ParkAll(a: array<Alt>, n: nat, ghost me: Task, ghost p: seq<PureAlt>)
      requires Valid() && Offered(a, me) && Tagged(a, me) && n == Len(a[..]) && p == PureAlts(a) && me !in alts
      modifies this`sets, this`alts, chans`asend, chans`arecv
      ensures MemoryOk() && RingsOk(chans) && SetsOk() && QueuesAgree(AllQueues(chans), sets, alts)
      ensures sets == old(sets)[me := a] && Abs() == CS.Park(old(Abs()), me, p)
    {
      hide *;
      ValidParts();
      HubAbs();
      ChansParts();
      OfferedMirror(a, me);
      SetsParts();
      SendExists(a);
      ghost var cs := Abs();
      EnqueueAll(a, n, me, p);
      RingsOf();
      sets, alts := sets[me := a], alts[me := p];
      forall t | t in sets ensures Mirror(sets[t], t, alts[t], chans) {
        if t != me { MirrorKept(t); }
      }
      ParkChans(cs, old(alts), me, p);
      SetsOkIs();
    }

    lemma SendExists(a: array<Alt>)
      ensures forall m :: m in SendMemory(a) ==> allocated(m)
      ensures forall t, m :: t in sets && m in SendMemory(sets[t]) ==> allocated(m)
    {
    }

    lemma SetsParts()
      requires SetsOk()
      ensures sets.Keys == alts.Keys
      ensures forall t :: t in sets ==> Mirror(sets[t], t, alts[t], chans)
      ensures forall j, t :: j in sets && t in sets && j != t ==> SendMemory(sets[j]) !! ReceiveMemory(sets[t])
    {
    }

    lemma ValidIf()
      requires MemoryOk() && RingsOk(chans) && SetsOk() && QueuesAgree(AllQueues(chans), sets, alts) && CP.Inv(Abs())
      ensures Valid()
    {
    }

    /** Tagging changes nothing that the offer depends on. */
    twostate lemma TagKeeps(a: array<Alt>)
      requires Len(a[..]) == old(Len(a[..])) && unchanged(this)
      requires forall i :: 0 <= i < a.Length ==>
                 a[i].op == old(a[i]).op && a[i].c == old(a[i]).c && a[i].v == old(a[i]).v
      ensures SendMemory(a) == old(SendMemory(a)) && ReceiveMemory(a) == old(ReceiveMemory(a))
      ensures forall i :: 0 <= i < a.Length ==> Usable(a[i], chans) == old(Usable(a[i], chans))
    {
    }

    twostate lemma TagValues(a: array<Alt>)
      requires Len(a[..]) == old(Len(a[..])) && unchanged(this) && Len(a[..]) <= a.Length
      requires forall i :: 0 <= i < a.Length ==>
                 a[i].op == old(a[i]).op && a[i].c == old(a[i]).c && a[i].v == old(a[i]).v
      requires forall i :: 0 <= i < Len(a[..]) ==> Usable(a[i], chans)
      requires forall m, i :: m in old(SendMemory(a)) && 0 <= i < m.Length ==> m[i] == old(m[i])
      ensures forall i :: 0 <= i < Len(a[..]) ==> old(Usable(a[i], chans)) && PureOf(a[i]) == old(PureOf(a[i]))
    {
      forall i | 0 <= i < Len(a[..]) ensures old(Usable(a[i], chans)) && PureOf(a[i]) == old(PureOf(a[i])) {
        if a[i].op == Send && a[i].v != null {
          assert a[i].v in old(SendMemory(a));
          assert a[i].v[..] == old(a[i].v[..]);
        }
      }
    }

    method TagOffer(a: array<Alt>, n: nat, me: Task)
      requires Valid() && Offered(a, me) && n == Len(a[..])
      modifies a
      ensures Valid() && Abs() == old(Abs()) && Offered(a, me) && Tagged(a, me) && Len(a[..]) == n
      ensures PureAlts(a) == old(PureAlts(a)) && a[n].op == old(a[n].op)
      ensures sets == old(sets)
      ensures ReceiveMemory(a) == old(ReceiveMemory(a)) && Incoming() == old(Incoming())
      ensures forall i :: 0 <= i < n ==> a[i].op == old(a[i]).op && a[i].v == old(a[i]).v
    {
      hide *;
      ValidParts();
      OfferedIff(a, me);
      MemoryExists();
      SendExists(a);
      HubAbs();
      OfferedAlts(a, me);
      ghost var p := PureAlts(a);
      Tag(a, n, me);
      assert unchanged(sets.Values);
      Kept();
      HubAbs();
      ValidIf();
      TagKeeps(a);
      assert forall k :: k in sets ==> ReceiveMemory(sets[k]) == old(ReceiveMemory(sets[k])) && SendMemory(sets[k]) == old(SendMemory(sets[k]));
      OfferedIff(a, me);
      TaggedIf(a, me);
      OfferedAlts(a, me);
      TagValues(a);
      assert PureAlts(a) == p;
    }

    lemma OfferedIff(a: array<Alt>, me: Task)
      ensures Offered(a, me) <==>
                && Len(a[..]) < a.Length && me !in sets && me !in fired
                && (forall i :: 0 <= i < Len(a[..]) ==> Usable(a[i], chans))
                && (forall k :: k in sets ==>
                      sets[k] != a && SendMemory(a) !! ReceiveMemory(sets[k]) && SendMemory(sets[k]) !! ReceiveMemory(a))
    {
    }

    lemma TaggedIf(a: array<Alt>, me: Task)
      requires forall i :: 0 <= i < Len(a[..]) && i < a.Length ==> a[i].task == me && a[i].xalt == Some(AltPtr(a, 0))
      ensures Tagged(a, me)
    {
    }

    lemma ChanAltIs(cs: PureState, me: Task, p: seq<PureAlt>, canblock: bool, i: nat, peer: Option<CS.Entry<Task>>)
      requires CS.AltsOk(cs, p)
      ensures Count(cs, p, 0) == 0 ==>
                && !CS.AnyExec(cs, p) && CS.ChoiceOk(cs, p, i, peer)
                && CS.ChanAlt(cs, me, p, canblock, i, peer) ==
                     if canblock then (CS.Park(cs, me, p), CS.Parked) else (cs, CS.WouldBlock)
      ensures i < |p| && (p[i].op == CS.Nop || p[i].c in cs.chans) && CS.CanExec(cs, p[i]) ==>
                p[i].op != CS.Nop && p[i].c in cs.chans && CS.AnyExec(cs, p)
      ensures i < |p| && (p[i].op == CS.Nop || p[i].c in cs.chans) && CS.CanExec(cs, p[i]) && CS.PeerOk(cs, p[i], peer) ==>
                && CS.ChoiceOk(cs, p, i, peer)
                && var (cs', v) := CS.Exec(cs, me, p, i, peer);
                   CS.ChanAlt(cs, me, p, canblock, i, peer) ==
                     (CS.Returned(cs', me, CS.Fired(i, p[i], v)), CS.Done(i, v))
    {
      CountSome(cs, p, 0);
    }

    lemma ReturnedIs(cs: PureState, me: Task, f: PureFired)
      ensures CS.Returned(cs, me, f) == cs.(hist := cs.hist[me := (if me in cs.hist then cs.hist[me] else []) + [f]])
    {
    }

    /** chanalt when some alternative can be done. */
    method DoOne(kn: Kernel, a: array<Alt>, n: nat, ncan: nat, rand1: nat, rand2: nat, ghost p: seq<PureAlt>)
        returns (i: nat, ghost peer: Option<CS.Entry<Task>>, ghost x: Elem)
      requires Valid() && kn.Valid() && kn.running != null && Parked(kn) && Offered(a, kn.running) && Tagged(a, kn.running)
      requires n == Len(a[..]) && p == PureAlts(a) && CS.AltsOk(Abs(), p) && 0 < ncan == Count(Abs(), p, 0)
      modifies this`sets, this`alts, this`fired, this`hist, chans, Bufs(chans), sets.Values, Incoming(), ReceiveMemory(a)
      modifies kn.runq, kn.runq.elems`next, kn.runq.elems`prev, sets.Keys`next, sets.Keys`prev, sets.Keys`ready
      ensures MemoryOk() && RingsOk(chans) && SetsOk() && QueuesAgree(AllQueues(chans), sets, alts)
      ensures Picked(old(Abs()), p, i, rand1) && i < |p| == n && Finished(old(Abs()), old(kn.running), p, i, peer, Abs(), x)
      ensures Handed(old(a[i]), x, peer, old(sets))
      ensures sets == if peer.Some? then old(sets) - {peer.value.k} else old(sets)
      ensures kn.Valid()
      ensures kn.Abs() == if peer.Some? then SchedSpec.ReadyAll(old(kn.Abs()), [peer.value.k]) else old(kn.Abs())
    {
      hide *;
      ValidParts();
      ghost var me: Task, cs := kn.running, Abs();
      i := Pick(a, n, rand1 % ncan, kn.running, p);
      PickedIs(a, i, me, p);
      OfferedAlts(a, me);
      ChanAltIs(cs, me, p, true, i, None);
      PickedIf(cs, p, i, rand1, ncan);
      peer, x := ExecRecord(kn, a, i, rand2, p);
      FinishedIf(cs, me, p, i, peer, Abs(), x);
    }

    /** chanalt without waiting: alternative `i` has been done, against `peer` if there is one. */
    ghost predicate Finished(
      cs: PureState, me: Task, p: seq<PureAlt>, i: nat, peer: Option<CS.Entry<Task>>, cs': PureState, x: Elem)
    {
      && CS.AltsOk(cs, p) && CS.ChoiceOk(cs, p, i, peer) && CS.AnyExec(cs, p)
      && forall b :: CS.ChanAlt(cs, me, p, b, i, peer) == (cs', CS.Done(i, x))
    }

    lemma FinishedIf(
      cs: PureState, me: Task, p: seq<PureAlt>, i: nat, peer: Option<CS.Entry<Task>>, cs': PureState, x: Elem)
      requires CS.AltsOk(cs, p) && i < |p| && (p[i].op != CS.Nop ==> p[i].c in cs.chans) && CS.CanExec(cs, p[i])
      requires p[i].op != CS.Nop && CS.PeerOk(cs, p[i], peer)
      requires var (cs1, v) := CS.Exec(cs, me, p, i, peer); x == v && cs' == CS.Returned(cs1, me, CS.Fired(i, p[i], x))
      ensures Finished(cs, me, p, i, peer, cs', x)
    {
      hide CS.Exec;
    }

    /** What a finished chanalt does to the record of served tasks. */
    lemma FinishedFired(
      cs: PureState, me: Task, p: seq<PureAlt>, i: nat, peer: Option<CS.Entry<Task>>, cs': PureState, x: Elem)
      requires Finished(cs, me, p, i, peer, cs', x)
      ensures match peer
              case None => cs'.fired == cs.fired
              case Some(e) =>
                && e.k in cs.sets && |cs.sets[e.k]| > 0
                && e.k in cs'.fired && cs'.fired[e.k].i == e.i && cs'.fired == cs.fired[e.k := cs'.fired[e.k]]
    {
      assert CS.ChanAlt(cs, me, p, true, i, peer) == (cs', CS.Done(i, x));
    }

    lemma FinishedIs(
      cs: PureState, me: Task, p: seq<PureAlt>, i: nat, peer: Option<CS.Entry<Task>>, cs': PureState, x: Elem, b: bool)
      requires Finished(cs, me, p, i, peer, cs', x)
      ensures CS.AltsOk(cs, p) && CS.ChoiceOk(cs, p, i, peer)
      ensures CS.ChanAlt(cs, me, p, b, i, peer) == (cs', CS.Done(i, x))
    {
    }

    /** altexec, and the note of what chanalt returns. */
    method ExecRecord(kn: Kernel, a: array<Alt>, i: nat, rand: nat, ghost p: seq<PureAlt>)
        returns (ghost peer: Option<CS.Entry<Task>>, ghost x: Elem)
      requires Valid() && kn.Valid() && kn.running != null && Parked(kn) && Offered(a, kn.running)
      requires i < Len(a[..]) && a[i].task == kn.running && (a[i].op == Send || a[i].op == Receive)
      requires i < |p| && p[i] == PureOf(a[i]) && a[i].c in Abs().chans && CS.CanExec(Abs(), p[i])
      modifies this`sets, this`alts, this`fired, this`hist, chans, Bufs(chans), sets.Values, Incoming()
      modifies if a[i].op == Receive then a[i].v else null
      modifies kn.runq, kn.runq.elems`next, kn.runq.elems`prev, sets.Keys`next, sets.Keys`prev, sets.Keys`ready
      ensures MemoryOk() && RingsOk(chans) && SetsOk() && QueuesAgree(AllQueues(chans), sets, alts)
      ensures CS.PeerOk(old(Abs()), p[i], peer)
      ensures var (cs, v) := CS.Exec(old(Abs()), old(kn.running), p, i, peer);
              x == v && Abs() == CS.Returned(cs, old(kn.running), CS.Fired(i, p[i], x))
      ensures Handed(old(a[i]), x, peer, old(sets))
      ensures sets == if peer.Some? then old(sets) - {peer.value.k} else old(sets)
      ensures kn.Valid()
      ensures kn.Abs() == if peer.Some? then SchedSpec.ReadyAll(old(kn.Abs()), [peer.value.k]) else old(kn.Abs())
    {
      hide *;
      ghost var me: Task, alt, was := kn.running, a[i], sets;
      peer, x := AltExec(kn, a, i, rand, p);
      HandedExist(alt, peer, was);
      Record(me, CS.Fired(i, p[i], x));
    }

    /** chanalt is about to return `f.i`. */
    ghost method Record(me: Task, f: PureFired)
      requires MemoryOk() && RingsOk(chans) && SetsOk() && QueuesAgree(AllQueues(chans), sets, alts)
      modifies this`hist
      ensures MemoryOk() && RingsOk(chans) && SetsOk() && QueuesAgree(AllQueues(chans), sets, alts)
      ensures Abs() == CS.Returned(old(Abs()), me, f)
    {
      hide *;
      MemoryExists();
      HubAbs();
      ReturnedIs(Abs(), me, f);
      hist := hist[me := (if me in hist then hist[me] else []) + [f]];
      HubAbs();
    }

    lemma PickedIs(a: array<Alt>, i: nat, me: Task, p: seq<PureAlt>)
      requires Valid() && Offered(a, me) && Tagged(a, me) && p == PureAlts(a) && i < Len(a[..])
      requires (p[i].op == CS.Nop || p[i].c in Abs().chans) && CS.CanExec(Abs(), p[i])
      ensures i < a.Length && a[i].task == me && (a[i].op == Send || a[i].op == Receive) && p[i] == PureOf(a[i])
      ensures a[i].c in Abs().chans
      ensures a[i].op == Receive && a[i].v != null ==> a[i].v in ReceiveMemory(a)
    {
    }

    /** CP.Inv is kept, so Valid is. */
    lemma StaysValid(cs: PureState, me: Task, p: seq<PureAlt>, b: bool, i: nat, peer: Option<CS.Entry<Task>>)
      requires MemoryOk() && RingsOk(chans) && SetsOk() && QueuesAgree(AllQueues(chans), sets, alts)
      requires CP.Inv(cs) && CS.AltsOk(cs, p) && CS.ChoiceOk(cs, p, i, peer) && me !in cs.sets && me !in cs.fired
      requires Abs() == CS.ChanAlt(cs, me, p, b, i, peer).0
      ensures Valid()
    {
      hide CP.Inv; hide QueuesAgree; hide CS.ChanAlt;
      CP.ChanAltKeepsInv(cs, me, p, b, i, peer);
      ValidIf();
    }

    /** The loops of chanalt that find the terminator, tag the alternatives and count those that can be done. */
    method Prepare(a: array<Alt>, me: Task, ghost p: seq<PureAlt>) returns (n: nat, canblock: bool, ncan: nat)
      requires Valid() && Offered(a, me) && p == PureAlts(a)
      modifies a
      ensures Valid() && Abs() == old(Abs()) && Offered(a, me) && Tagged(a, me) && n == Len(a[..]) == old(Len(a[..])) < a.Length
      ensures p == PureAlts(a) && CS.AltsOk(Abs(), p) && ncan == Count(Abs(), p, 0) && canblock == old(a[Len(a[..])].op == End)
      ensures sets == old(sets)
      ensures ReceiveMemory(a) == old(ReceiveMemory(a)) && Incoming() == old(Incoming())
      ensures forall i :: 0 <= i < n ==> a[i].op == old(a[i]).op && a[i].v == old(a[i]).v
    {
      hide *;
      ValidParts();
      OfferedAlts(a, me);
      n := Scan(a, me, p);
      canblock := a[n].op == End;
      TagOffer(a, n, me);
      ValidParts();
      OfferedAlts(a, me);
      ncan := CountCan(a, n, me, p);
    }

    /** The same with the notes about served tasks. */
    method DoNoted(kn: Kernel, a: array<Alt>, n: nat, ncan: nat, rand1: nat, rand2: nat, ghost p: seq<PureAlt>)
        returns (i: nat, ghost peer: Option<CS.Entry<Task>>, ghost x: Elem)
      requires Valid() && kn.Valid() && kn.running != null && Parked(kn) && Offered(a, kn.running) && Tagged(a, kn.running)
      requires n == Len(a[..]) && p == PureAlts(a) && CS.AltsOk(Abs(), p) && 0 < ncan == Count(Abs(), p, 0)
      requires ServedOk() && Unused(a)
      modifies this, chans, Bufs(chans), sets.Values, Incoming(), ReceiveMemory(a)
      modifies kn.runq, kn.runq.elems`next, kn.runq.elems`prev, sets.Keys`next, sets.Keys`prev, sets.Keys`ready
      ensures Valid() && ServedOk()
      ensures Picked(old(Abs()), p, i, rand1) && i < |p| == n && Finished(old(Abs()), old(kn.running), p, i, peer, Abs(), x)
      ensures Handed(old(a[i]), x, peer, old(sets))
      ensures sets == if peer.Some? then old(sets) - {peer.value.k} else old(sets)
      ensures kn.Valid()
      ensures kn.Abs() == if peer.Some? then SchedSpec.ReadyAll(old(kn.Abs()), [peer.value.k]) else old(kn.Abs())
    {
      hide *;
      ValidParts();
      HubAbs();
      OfferedMe(a, kn.running);
      ServedIs();
      ServedExist();
      ServedApart(a);
      ArraysAreOwn();
      ghost var me: Task, cs, was, before := kn.running, Abs(), sets, fired;
      i, peer, x := DoOne(kn, a, n, ncan, rand1, rand2, p);
      assert ServedWith(was, before) && Unused(a);
      NoteDone(cs, me, p, i, peer, x, was, before, old(a[i]));
    }

    /** chanalt when some alternative can be done; `first` is the offer before it was tagged. */
    method AltNow(
        kn: Kernel, a: array<Alt>, n: nat, ncan: nat, rand1: nat, rand2: nat, ghost p: seq<PureAlt>,
        ghost b: bool, ghost first: seq<Alt>)
        returns (i: nat, ghost peer: Option<CS.Entry<Task>>, ghost x: Elem)
      requires Valid() && kn.Valid() && kn.running != null && Parked(kn) && Offered(a, kn.running) && Tagged(a, kn.running)
      requires n == Len(a[..]) && p == PureAlts(a) && CS.AltsOk(Abs(), p) && 0 < ncan == Count(Abs(), p, 0)
      requires ServedOk() && Unused(a)
      requires |first| == a.Length && forall j :: 0 <= j < n && j < a.Length ==> first[j].op == a[j].op && first[j].v == a[j].v
      modifies this, chans, Bufs(chans), sets.Values, Incoming(), ReceiveMemory(a)
      modifies kn.runq, kn.runq.elems`next, kn.runq.elems`prev, sets.Keys`next, sets.Keys`prev, sets.Keys`ready
      ensures Valid() && kn.Valid() && Parked(kn) && ServedOk()
      ensures CS.ChoiceOk(old(Abs()), p, i, peer) && Picked(old(Abs()), p, i, rand1) && i < n < |first|
      ensures (Abs(), CS.Done(i, x)) == CS.ChanAlt(old(Abs()), old(kn.running), p, b, i, peer)
      ensures Handed(first[i], x, peer, old(sets))
      ensures kn.Abs() == if peer.Some? then SchedSpec.ReadyAll(old(kn.Abs()), [peer.value.k]) else old(kn.Abs())
    {
      hide *;
      ValidParts();
      OfferedMe(a, kn.running);
      ghost var me: Task, cs, was, tagged := kn.running, Abs(), sets, a[..];
      kn.ListsExist();
      i, peer, x := DoNoted(kn, a, n, ncan, rand1, rand2, p);
      ValidParts();
      FinishedIs(cs, me, p, i, peer, Abs(), x, b);
      HandedSame(tagged[i], first[i], x, peer, was);
      ParkedAfter(kn, Did(i), peer);
    }

    lemma OfferedMe(a: array<Alt>, me: Task)
      requires Offered(a, me)
      ensures me !in sets && me !in fired && Len(a[..]) < a.Length
    {
    }

    /** A finished chanalt: its peer, which waited with its array in `was`, is among the served tasks. */
    ghost method NoteDone(
        cs: PureState, me: Task, p: seq<PureAlt>, i: nat, peer: Option<CS.Entry<Task>>, x: Elem,
        was: map<Task, array<Alt>>, before: map<Task, PureFired>, alt: Alt)
      requires MemoryOk() && RingsOk(chans) && SetsOk() && QueuesAgree(AllQueues(chans), sets, alts)
      requires CP.Inv(cs) && me !in cs.sets && me !in cs.fired && before == cs.fired
      requires Finished(cs, me, p, i, peer, Abs(), x) && ServedWith(was, before)
      requires sets == if peer.Some? then was - {peer.value.k} else was
      requires Handed(alt, x, peer, was)
      requires OwnArrays(was, cs.sets)
      modifies this`served
      ensures Valid() && ServedOk() && Abs() == old(Abs()) && Handed(alt, x, peer, was)
    {
      hide *;
      HandedIs(alt, x, peer, was);
      HandedExist(alt, peer, was);
      HubAbs();
      FinishedIs(cs, me, p, i, peer, Abs(), x, true);
      FinishedFired(cs, me, p, i, peer, Abs(), x);
      StaysValid(cs, me, p, true, i, peer);
      match peer {
        case None => NobodyServed(was);
        case Some(e) =>
          NotedKey(was, e);
          OwnArrayOf(was, cs.sets, e.k);
          NoteServed(was, before, e);
      }
    }

    /**
     chanalt up to its task switch, for every outcome of rand(): it refines CS.ChanAlt, keeps
     all the invariants of the channels, and readies the served peer or switches away.  `i` is
     the alternative that the first call of rand() selects among those that can be done.
     */
    method ChanAlt(kn: Kernel, a: array<Alt>, rand1: nat, rand2: nat)
        returns (r: Result, ghost i: nat, ghost peer: Option<CS.Entry<Task>>, ghost x: Elem)
      requires Valid() && kn.Valid() && kn.running != null && Parked(kn) && Offered(a, kn.running)
      requires ServedOk() && Unused(a)
      modifies this, a, chans, Bufs(chans), sets.Values, Incoming(), ReceiveMemory(a)
      modifies kn`running, kn.runq, kn.runq.elems`next, kn.runq.elems`prev, sets.Keys`next, sets.Keys`prev, sets.Keys`ready
      ensures Valid() && kn.Valid() && Parked(kn) && ServedOk()
      ensures CS.AltsOk(old(Abs()), old(PureAlts(a))) && CS.ChoiceOk(old(Abs()), old(PureAlts(a)), i, peer)
      ensures (Abs(), match r case Did(n) => CS.Done(n, x) case Refused => CS.WouldBlock case Blocked => CS.Parked) ==
              CS.ChanAlt(old(Abs()), old(kn.running), old(PureAlts(a)), old(a[Len(a[..])].op == End), i, peer)
      ensures !r.Did? ==> i == 0
      ensures r.Did? ==> Picked(old(Abs()), old(PureAlts(a)), i, rand1)
      ensures r.Did? ==> r.i == i < old(Len(a[..])) && Handed(old(a[i]), x, peer, old(sets))
      ensures r.Did? ==>
                kn.Abs() == if peer.Some? then SchedSpec.ReadyAll(old(kn.Abs()), [peer.value.k]) else old(kn.Abs())
      ensures r.Refused? ==> kn.Abs() == old(kn.Abs())
      ensures r.Blocked? ==> kn.Abs() == SchedSpec.Switch(old(kn.Abs()))
    {
      hide *;
      ValidParts();
      HubAbs();
      OfferedMe(a, kn.running);
      OfferedAlts(a, kn.running);
      ServedExist();
      ServedApart(a);
      ghost var me: Task, cs, p, first := kn.running, Abs(), PureAlts(a), a[..];
      var n, canblock, ncan := Prepare(a, kn.running, p);
      assert kn.Valid() && Parked(kn) && ServedOk();
      if ncan > 0 {
        var j;
        j, peer, x := AltNow(kn, a, n, ncan, rand1, rand2, p, canblock, first);
        r, i := Did(j), j;
      } else {
        i, peer, x := 0, None, [];
        ChanAltIs(cs, me, p, canblock, 0, None);
        r := Wait(kn, a, n, canblock, me, p);
      }
    }

    /** chanalt when no alternative can be done: wait if that is allowed. */
    method Wait(kn: Kernel, a: array<Alt>, n: nat, canblock: bool, ghost me: Task, ghost p: seq<PureAlt>) returns (r: Result)
      requires Valid() && kn.Valid() && kn.running == me && Parked(kn) && ServedOk() && Unused(a)
      requires Offered(a, me) && Tagged(a, me) && n == Len(a[..]) && p == PureAlts(a)
      requires CS.AltsOk(Abs(), p) && Count(Abs(), p, 0) == 0
      modifies this`sets, this`alts, chans`asend, chans`arecv, kn`running
      ensures Valid() && kn.Valid() && Parked(kn) && ServedOk()
      ensures if canblock then
                r == Blocked && kn.Abs() == SchedSpec.Switch(old(kn.Abs())) && Abs() == CS.Park(old(Abs()), me, p)
              else r == Refused && kn.Abs() == old(kn.Abs()) && Abs() == old(Abs())
    {
      hide *;
      ValidParts();
      if canblock {
        BlockNoted(kn, a, n, me, p);
        return Blocked;
      }
      r := Refused;
    }

    /** chanalt when it has to wait: queue everything and switch away. */
    method BlockWith(kn: Kernel, a: array<Alt>, n: nat, ghost me: Task, ghost p: seq<PureAlt>)
      requires Valid() && kn.Valid() && Offered(a, me) && Tagged(a, me) && n == Len(a[..]) && p == PureAlts(a)
      requires CS.AltsOk(Abs(), p) && Count(Abs(), p, 0) == 0
      modifies this`sets, this`alts, chans`asend, chans`arecv, kn`running
      ensures Valid() && kn.Valid() && kn.Abs() == SchedSpec.Switch(old(kn.Abs()))
      ensures sets == old(sets)[me := a] && Abs() == CS.Park(old(Abs()), me, p)
    {
      hide *;
      ValidParts();
      OfferedIff(a, me);
      HubAbs();
      ghost var cs := Abs();
      ChanAltIs(cs, me, p, true, 0, None);
      assert kn.Valid();
      ParkAll(a, n, me, p);
      StaysValid(cs, me, p, true, 0, None);
      kn.SoundParts();
      MemoryExists();
      kn.SwitchOut();
    }

    /** The same with what is kept about served and blocked tasks. */
    method BlockNoted(kn: Kernel, a: array<Alt>, n: nat, ghost me: Task, ghost p: seq<PureAlt>)
      requires Valid() && kn.Valid() && kn.running == me && Parked(kn) && ServedOk() && Unused(a)
      requires Offered(a, me) && Tagged(a, me) && n == Len(a[..]) && p == PureAlts(a)
      requires CS.AltsOk(Abs(), p) && Count(Abs(), p, 0) == 0
      modifies this`sets, this`alts, chans`asend, chans`arecv, kn`running
      ensures Valid() && kn.Valid() && Parked(kn) && ServedOk()
      ensures kn.Abs() == SchedSpec.Switch(old(kn.Abs())) && Abs() == CS.Park(old(Abs()), me, p)
    {
      hide *;
      ServedIs();
      kn.ListsExist();
      ghost var was := sets;
      BlockWith(kn, a, n, me, p);
      OneMoreWaits(was, me, a);
      ParkedAfter(kn, Blocked, None);
    }

    /**
     chanalt after its switch: it returns the index of the alternative that was served, which the
     peer has left in the first alternative of the set.
     */
    method Resumed(kn: Kernel, a: array<Alt>) returns (i: nat)
      requires Valid() && ServedOk() && kn.running != null && kn.running in fired && served[kn.running] == a
      modifies this`fired, this`hist, this`served
      ensures Valid() && ServedOk() && sets == old(sets)
      ensures i == old(fired[kn.running].i) && Abs() == CS.Resume(old(Abs()), kn.running)
    {
      hide *;
      ServedParts();
      NotedIs(served, CS.Entry(kn.running, fired[kn.running].i));
      i := a[0].xalt.value.i;
      TakeResult(kn.running);
    }

    /** Task `me` has been served and goes on. */
    ghost method TakeResult(me: Task)
      requires Valid() && ServedOk() && me in fired
      modifies this`fired, this`hist, this`served
      ensures Valid() && ServedOk() && Abs() == CS.Resume(old(Abs()), me)
    {
      hide *;
      ValidParts();
      HubAbs();
      ghost var cs := Abs();
      CP.ResumeKeepsInv(cs, me);
      ResumeIs(cs, me);
      MemoryExists();
      OneNoteLess(me);
      ServedExist();
      hist := hist[me := (if me in hist then hist[me] else []) + [fired[me]]];
      served, fired := served - {me}, fired - {me};
      HubAbs();
      ValidIf();
      ServedIf();
    }

    lemma ServedIf()
      requires NotesOk(served, fired) && forall k, j :: k in served && j in sets ==> served[k] != sets[j]
      ensures ServedOk()
    {
    }

    lemma ResumeIs(cs: PureState, me: Task)
      requires me in cs.fired
      ensures CS.Resume(cs, me) ==
              cs.(fired := cs.fired - {me}, hist := cs.hist[me := (if me in cs.hist then cs.hist[me] else []) + [cs.fired[me]]])
    {
    }

    // ---- Served tasks that have not run yet ----

    /** The array of every served task still says which alternative was served, and is not in use otherwise. */
    ghost predicate ServedOk()
      reads this`served, this`fired, this`sets, served.Values
    {
      ServedWith(sets, fired)
    }

    ghost predicate ServedWith(waiting: map<Task, array<Alt>>, records: map<Task, PureFired>)
      reads this`served, served.Values
    {
      NotesOk(served, records) && forall k, j :: k in served && j in waiting ==> served[k] != waiting[j]
    }

    /** No served task is still using `a`. */
    ghost predicate Unused(a: array<Alt>)
      reads this`served
    {
      forall k :: k in served ==> served[k] != a
    }

    lemma ServedIs()
      ensures ServedOk() <==> ServedWith(sets, fired)
    {
      hide ServedWith;
    }

    lemma ServedParts()
      ensures ServedOk() ==> served.Keys == fired.Keys && forall k :: k in served ==> Noted(served, CS.Entry(k, fired[k].i))
    {
      hide Noted;
    }

    /** What chanalt writes is not what the notes are in. */
    lemma ServedApart(a: array<Alt>)
      requires ServedOk() && Unused(a)
      ensures a !in served.Values && served.Values !! sets.Values
    {
      hide NotesOk;
    }

    lemma ServedExist()
      ensures forall k :: k in served ==> allocated(served[k])
    {
    }

    lemma NotedIs(m: map<Task, array<Alt>>, e: CS.Entry<Task>)
      requires Noted(m, e)
      ensures e.k in m && m[e.k].Length > 0 && m[e.k][0].xalt == Some(AltPtr(m[e.k], e.i))
    {
    }

    lemma OneMoreNote(before: map<Task, array<Alt>>, b: map<Task, PureFired>, was: map<Task, array<Alt>>, e: CS.Entry<Task>, f: PureFired)
      requires NotesOk(before, b) && Noted(was, e) && f.i == e.i
      ensures e.k in was && NotesOk(before[e.k := was[e.k]], b[e.k := f])
    {
      var after := before[e.k := was[e.k]];
      forall k | k in after ensures Noted(after, CS.Entry(k, b[e.k := f][k].i)) {
        if k != e.k { assert Noted(before, CS.Entry(k, b[k].i)); }
      }
    }

    lemma OneNoteLess(me: Task)
      requires ServedOk()
      ensures NotesOk(served - {me}, fired - {me})
      ensures forall k, j :: k in served - {me} && j in sets ==> (served - {me})[k] != sets[j]
    {
      forall k | k in served - {me} ensures Noted(served - {me}, CS.Entry(k, fired[k].i)) {
        assert Noted(served, CS.Entry(k, fired[k].i));
      }
    }

    /** The peer `e`, which waited with its array in `was`, has been served. */
    ghost method NoteServed(was: map<Task, array<Alt>>, b: map<Task, PureFired>, e: CS.Entry<Task>)
      requires Valid() && ServedWith(was, b) && Noted(was, e)
      requires e.k in fired && fired[e.k].i == e.i && fired == b[e.k := fired[e.k]]
      requires sets == was - {e.k} && OwnArray(was, e.k)
      modifies this`served
      ensures ServedOk() && Valid() && Abs() == old(Abs())
    {
      hide *;
      ValidParts();
      MemoryExists();
      HubAbs();
      NotedKey(was, e);
      NoteMore(was, b, e);
      HubAbs();
      ValidIf();
    }

    /** No other task waits with the array of `k`. */
    ghost predicate OwnArray(was: map<Task, array<Alt>>, k: Task) {
      k in was && forall j :: j in was && j != k ==> was[j] != was[k]
    }

    ghost method NoteMore(was: map<Task, array<Alt>>, b: map<Task, PureFired>, e: CS.Entry<Task>)
      requires ServedWith(was, b) && Noted(was, e) && e.k in fired && fired[e.k].i == e.i && fired == b[e.k := fired[e.k]]
      requires e.k in was && OwnArray(was, e.k) && sets == was - {e.k}
      modifies this`served
      ensures ServedOk() && served == old(served)[e.k := was[e.k]]
    {
      hide Noted; hide NotesOk;
      OneMoreNote(served, b, was, e, fired[e.k]);
      ServedExist();
      ServedStep(was, e.k);
      served := served[e.k := was[e.k]];
    }

    lemma ServedStep(was: map<Task, array<Alt>>, t: Task)
      requires t in was && sets == was - {t} && OwnArray(was, t)
      requires forall k, j :: k in served && j in was ==> served[k] != was[j]
      ensures var after := served[t := was[t]]; forall k, j :: k in after && j in sets ==> after[k] != sets[j]
    {
    }

    /** Nobody has been served. */
    lemma NobodyServed(was: map<Task, array<Alt>>)
      requires ServedWith(was, fired) && sets == was
      ensures ServedOk()
    {
    }

    /** Nor here, but `me` waits now, with `a`. */
    lemma OneMoreWaits(was: map<Task, array<Alt>>, me: Task, a: array<Alt>)
      requires ServedWith(was, fired) && sets == was[me := a] && Unused(a)
      ensures ServedOk()
    {
      hide NotesOk;
    }

    /** No two blocked tasks wait with the same array, unless it offers nothing. */
    ghost predicate OwnArrays(was: map<Task, array<Alt>>, offers: Sets) {
      forall k :: k in was && k in offers && |offers[k]| > 0 ==> OwnArray(was, k)
    }

    lemma ArraysAreOwn()
      requires Valid()
      ensures OwnArrays(sets, alts) && RingsOk(chans) && Abs().sets == alts
    {
      hide CP.Inv; hide QueuesAgree;
      forall j, k | j in sets && k in sets && k in alts && j != k && |alts[k]| > 0 ensures sets[j] != sets[k] {
        assert Mirror(sets[j], j, alts[j], chans) && Mirror(sets[k], k, alts[k], chans);
        assert sets[k][0].task == k && (|alts[j]| > 0 ==> sets[j][0].task == j);
      }
    }

    lemma OwnArrayOf(was: map<Task, array<Alt>>, offers: Sets, k: Task)
      requires OwnArrays(was, offers) && k in was && k in offers && |offers[k]| > 0
      ensures OwnArray(was, k)
    {
    }

    /** The same from what chanalt has done to the scheduler. */
    twostate lemma ParkedAfter(kn: Kernel, new r: Result, new peer: Option<CS.Entry<Task>>)
      requires old(kn.Valid() && Parked(kn)) && old(kn.running) != null && kn.Valid() && kn.lists == old(kn.lists)
      requires forall l :: l in kn.lists && l != kn.runq ==> l.elems == old(l.elems)
      requires sets.Keys == match r
                            case Did(_) => if peer.Some? then old(sets).Keys - {peer.value.k} else old(sets).Keys
                            case Refused => old(sets).Keys
                            case Blocked => old(sets).Keys + {old(kn.running)}
      requires r.Did? ==>
                kn.Abs() == if peer.Some? then SchedSpec.ReadyAll(old(kn.Abs()), [peer.value.k]) else old(kn.Abs())
      requires r.Refused? ==> kn.Abs() == old(kn.Abs())
      requires r.Blocked? ==> kn.Abs() == SchedSpec.Switch(old(kn.Abs()))
      ensures Parked(kn)
    {
      hide Apart; hide Linked; hide Flags; hide Parked;
      StillParked(kn);
    }

    /** Blocked tasks are still live and in no list after chanalt. */
    twostate lemma StillParked(kn: Kernel)
      requires old(Parked(kn)) && kn.lists == old(kn.lists) && kn.all == old(kn.all)
      requires kn.running == null || kn.running == old(kn.running)
      requires forall l :: l in kn.lists && l != kn.runq ==> l.elems == old(l.elems)
      requires forall u :: u in kn.runq.elems ==> u in old(kn.runq.elems) || u !in sets
      requires forall t :: t in sets ==> t in old(sets) || (kn.running == null && t in kn.all && Loose(kn.lists, t))
      ensures Parked(kn)
    {
      forall t | t in sets ensures t in kn.all && t != kn.running && Loose(kn.lists, t) {
        if t in old(sets) {
          LooseFacts(kn.lists, t);
          assert old(Loose(kn.lists, t));
        }
      }
    }

    /** The array of one alternative and a terminator that _chanop builds. */
    method MakeOffer(first: Alt, last: Alt, me: Task) returns (a: array<Alt>)
      requires Valid() && me !in sets && me !in fired
      requires (first.op == Send || first.op == Receive) && Usable(first, chans) && Terminal(last.op)
      requires first.v != null ==> if first.op == Send then first.v !in Incoming() else first.v !in Outgoing()
      ensures fresh(a) && Valid() && Abs() == old(Abs()) && Offered(a, me)
      ensures Len(a[..]) == 1 < a.Length && PureAlts(a) == [old(PureOf(first))] && a[1] == last && a[0] == first
      ensures ReceiveMemory(a) == (if first.op == Receive && first.v != null then {first.v} else {})
    {
      hide *;
      ValidParts();
      MemoryExists();
      SetsParts();
      HubAbs();
      UsableChan(first, chans);
      ghost var pa := PureOf(first);
      a := new Alt[2](i => if i == 0 then first else last);
      Kept();
      HubAbs();
      ValidIf();
      assert a[..] == [first, last];
      OfferOne(a, first, last, me);
      assert PureOf(first) == pa;
    }

    /** _chanop: a set of one alternative, on the stack of the caller. */
    method ChanOp(kn: Kernel, c: Channel, op: AltOp, v: array?<byte>, canblock: bool, rand1: nat, rand2: nat)
        returns (r: Result, ghost peer: Option<CS.Entry<Task>>, ghost x: Elem)
      requires Valid() && kn.Valid() && kn.running != null && Parked(kn) && kn.running !in sets && kn.running !in fired
      requires ServedOk()
      requires (op == Send || op == Receive) && Usable(Alt(c, v, op, null, None), chans)
      requires v != null ==> if op == Send then v !in Incoming() else v !in Outgoing()
      modifies this, chans, Bufs(chans), sets.Values, Incoming(), if op == Receive then v else null
      modifies kn`running, kn.runq, kn.runq.elems`next, kn.runq.elems`prev, sets.Keys`next, sets.Keys`prev, sets.Keys`ready
      ensures Valid() && kn.Valid() && Parked(kn) && ServedOk()
      ensures var p := [old(PureOf(Alt(c, v, op, null, None)))];
              && CS.AltsOk(old(Abs()), p) && CS.ChoiceOk(old(Abs()), p, 0, peer)
              && (Abs(), match r case Did(_) => CS.Done(0, x) case Refused => CS.WouldBlock case Blocked => CS.Parked) ==
                   CS.ChanAlt(old(Abs()), old(kn.running), p, canblock, 0, peer)
      ensures r.Did? ==> Handed(Alt(c, v, op, null, None), x, peer, old(sets))
      ensures r.Did? ==>
                kn.Abs() == if peer.Some? then SchedSpec.ReadyAll(old(kn.Abs()), [peer.value.k]) else old(kn.Abs())
      ensures r.Refused? ==> kn.Abs() == old(kn.Abs())
      ensures r.Blocked? ==> kn.Abs() == SchedSpec.Switch(old(kn.Abs()))
    {
      hide *;
      ValidParts();
      var first, last := Alt(c, v, op, null, None), Alt(null, null, if canblock then End else NoBlock, null, None);
      Terminators(canblock);
      assert kn.Valid() && Parked(kn) && ServedOk();
      ServedExist();
      var a := MakeOffer(first, last, kn.running);
      ghost var i;
      NotInUse(a);
      r, i, peer, x := ChanAlt(kn, a, rand1, rand2);
    }

    lemma NotInUse(a: array<Alt>)
      requires forall k :: k in served ==> served[k] != a
      ensures Unused(a)
    {
    }

    lemma Terminators(canblock: bool)
      ensures Terminal(if canblock then End else NoBlock)
    {
    }

    lemma OfferOne(a: array<Alt>, first: Alt, last: Alt, me: Task)
      requires a[..] == [first, last] && Terminal(last.op) && (first.op == Send || first.op == Receive)
      requires Usable(first, chans) && me !in sets && me !in fired && forall k :: k in sets ==> sets[k] != a
      requires first.v != null ==> if first.op == Send then first.v !in Incoming() else first.v !in Outgoing()
      ensures Len(a[..]) == 1 && Offered(a, me) && PureAlts(a) == [PureOf(first)] && a[1] == last && a[0] == first
      ensures ReceiveMemory(a) == if first.op == Receive && first.v != null then {first.v} else {}
    {
      assert a[..][1..] == [last];
      assert Len([last]) == 0;
      assert a[0] == a[..][0] && a[1] == a[..][1];
    }

    // ---- chancreate ----

    /** The memory that any blocked alternative points to. */
    ghost function Pointed(): set<array<byte>>
      reads this`sets, sets.Values
    {
      set k, i | k in sets && 0 <= i < Len(sets[k][..]) && sets[k][i].v != null :: sets[k][i].v
    }

    lemma PointedExists()
      ensures forall m :: m in Pointed() ==> allocated(m)
    {
    }

    lemma WiderSets(less: Chans, c: Channel)
      requires c.buf !in Pointed() && forall t :: t in sets ==> t in alts && Mirror(sets[t], t, alts[t], less)
      ensures forall t :: t in sets ==> Mirror(sets[t], t, alts[t], less + {c})
    {
      forall t | t in sets ensures Mirror(sets[t], t, alts[t], less + {c}) {
        assert Mirror(sets[t], t, alts[t], less);
        forall i | 0 <= i < |alts[t]| ensures Usable(sets[t][i], less + {c}) {
          assert sets[t][i].v != null ==> sets[t][i].v in Pointed();
        }
      }
    }

    /** Nobody waits on a new channel. */
    lemma NobodyWaits(qs: map<Channel, Lines>, c: Channel)
      requires QueuesAgree(qs, sets, alts) && sets.Keys == alts.Keys && c !in qs
      ensures Waiting(alts, c, CS.Snd) == {} && Waiting(alts, c, CS.Rcv) == {}
      ensures QueuesAgree(qs[c := Lines([], [])], sets, alts)
    {
      assert PureOp(Send) == CS.Snd && PureOp(Receive) == CS.Rcv;
      var qs' := qs[c := Lines([], [])];
      forall d, op, p | d in qs' && p in Line(qs'[d], op) ensures Owned(p, sets, alts, d, op) {
        assert d in qs && p in Line(qs[d], op);
      }
      forall d, op | d in qs' ensures NoDup(Line(qs'[d], op)) {
        if d != c { assert NoDup(Line(qs[d], op)); }
      }
    }

    lemma AddedChan(cs: PureState, more: Chans, c: Channel)
      requires RingsOk(more) && c !in chans && more == chans + {c} && RingsOk(chans)
      requires cs == Abs() && c.Ring() == [] && c.sent == [] && c.rcvd == []
      requires Waiting(alts, c, CS.Snd) == {} && Waiting(alts, c, CS.Rcv) == {}
      ensures CS.CS(ChansOf(alts, more), alts, fired, hist) == CS.AddChan(cs, c, c.bufsize)
    {
      assert ChansOf(alts, more) == cs.chans[c := CS.NewChan(c.bufsize)];
    }

    /** chancreate. */
    method ChanCreate(elemsize: nat, bufsize: nat) returns (c: Channel)
      requires Valid()
      modifies this`chans
      ensures Valid() && fresh(c) && c.elemsize == elemsize && chans == old(chans) + {c}
      ensures c !in old(Abs()).chans && Abs() == CS.AddChan(old(Abs()), c, bufsize)
    {
      hide *;
      ValidParts();
      ChansParts();
      HubAbs();
      MemoryExists();
      PointedExists();
      SetsParts();
      ghost var cs := Abs();
      c := new Channel(elemsize, bufsize);
      Kept();
      HubAbs();
      ValidIf();
      assert c !in chans && c.buf !in Pointed();
      Widen(cs, c);
    }

    ghost method Widen(cs: PureState, c: Channel)
      requires Valid() && cs == Abs() && c !in chans && c.buf !in Pointed() && c.buf !in Bufs(chans)
      requires c.RingOk() && c.Ring() == [] && c.asend == [] && c.arecv == [] && c.sent == [] && c.rcvd == []
      modifies this`chans
      ensures Valid() && chans == old(chans) + {c}
      ensures c !in cs.chans && Abs() == CS.AddChan(cs, c, c.bufsize)
    {
      hide *;
      ValidParts();
      SetsParts();
      RingsOf();
      HubAbs();
      ChansParts();
      ghost var less, more := chans, chans + {c};
      WiderLines(c);
      NobodyWaits(AllQueues(chans), c);
      RingsMore(more, c);
      AddedChan(cs, more, c);
      CP.AddChanKeepsInv(cs, c, c.bufsize);
      SetsExist(more);
      ghost var now := ChansOf(alts, more);
      chans := more;
      assert ChansOf(alts, chans) == now;
      RingsOf();
      HubAbs();
      forall t | t in sets ensures Mirror(sets[t], t, alts[t], less) { MirrorKept(t); }
      assert c.buf !in Pointed();
      WiderSets(less, c);
      SetsOkIs();
      ValidIf();
    }

    lemma SetsExist(more: Chans)
      ensures forall m :: m in Bufs(more) ==> allocated(m)
      ensures forall t, m :: t in sets && m in SendMemory(sets[t]) ==> allocated(m)
    {
    }

    lemma RingsMore(more: Chans, c: Channel)
      requires MemoryOk() && more == chans + {c} && c.RingOk() && c.buf !in Bufs(chans)
      ensures RingsOk(more) && forall d, e :: d in more && e in more && d != e ==> d.buf != e.buf
      ensures c !in chans
    {
    }

    lemma WiderLines(c: Channel)
      requires c !in chans && c.asend == [] && c.arecv == []
      ensures AllQueues(chans).Keys == chans && AllQueues(chans + {c}) == AllQueues(chans)[c := Lines([], [])]
    {
    }
  }
}
