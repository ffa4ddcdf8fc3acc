/**
 What tasks observe: the logs of a channel against the results that chanalt has returned.
 Together with `Fifo` this is conservation end to end: each sender's values enter a channel
 in program order, and what receivers get is what the channel gave out.
 */
module ChanHistory {
  import opened Util
  import opened ChanSpec
  import opened ChanProofs

  /** The elements that the alternatives in `h` moved on channel `c` in direction `op`, in order. */
  function Moves<C(==), V>(h: seq<Fired<C, V>>, c: C, op: AOp): seq<V> {
    if h == [] then []
    else
      var n := |h| - 1;
      if h[n].a.op == op && h[n].a.c == c then Moves(h[..n], c, op) + [h[n].v] else Moves(h[..n], c, op)
  }

  lemma MovesAppend<C, V>(h: seq<Fired<C, V>>, f: Fired<C, V>, c: C, op: AOp)
    ensures Moves(h + [f], c, op) == if f.a.op == op && f.a.c == c then Moves(h, c, op) + [f.v] else Moves(h, c, op)
  {
    assert (h + [f])[..|h|] == h;
  }

  /** What a peer has already moved for `k`, although `k` has not run since. */
  function Pending<C(==), K(==), V>(cs: CS<C, K, V>, k: K): seq<Fired<C, V>> {
    if k in cs.fired then [cs.fired[k]] else []
  }

  function Log<C(==), K(==), V>(cs: CS<C, K, V>, c: C, op: AOp): seq<(K, V)> {
    if c !in cs.chans then []
    else match op case Snd => cs.chans[c].sent case Rcv => cs.chans[c].rcvd case Nop => []
  }

  /**
   Task `k`'s part in the log of channel `c` is exactly what its chanalt calls on `c` have
   returned, followed by the element of the call that has been served but has not resumed.
   */
  ghost predicate Observed<C, K, V>(cs: CS<C, K, V>, k: K, c: C, op: AOp) {
    Of(Log(cs, c, op), k) == Moves(Hist(cs, k) + Pending(cs, k), c, op)
  }

  ghost predicate HistInv<C, K, V>(cs: CS<C, K, V>, k: K, c: C) {
    Observed(cs, k, c, Snd) && Observed(cs, k, c, Rcv)
  }

  /** What task `j` doing `f` adds to the log of channel `c` in direction `op`. */
  function Part<C(==), K, V>(j: K, f: Fired<C, V>, c: C, op: AOp): seq<(K, V)> {
    if f.a.op == op && f.a.c == c then [(j, f.v)] else []
  }

  function If<C, K(==), V>(j: K, f: Fired<C, V>, k: K): seq<Fired<C, V>> {
    if j == k then [f] else []
  }

  /** A log entry and the record of its task grow together. */
  lemma ObservedGrows<C, K, V>(log: seq<(K, V)>, h: seq<Fired<C, V>>, j: K, f: Fired<C, V>, k: K, c: C, op: AOp)
    requires Of(log, k) == Moves(h, c, op)
    ensures Of(log + Part(j, f, c, op), k) == Moves(h + If(j, f, k), c, op)
  {
    OfAppend(log, j, f.v, k);
    MovesAppend(h, f, c, op);
    assert log + [] == log && h + [] == h;
  }

  /** Doing alternative `i` alone: one log entry, one record. */
  lemma AloneParts<C, K, V>(cs: CS<C, K, V>, me: K, alts: seq<Alt<C, V>>, i: nat, c: C, op: AOp)
    requires i < |alts| && (alts[i].op != Nop ==> alts[i].c in cs.chans)
    requires CanExec(cs, alts[i]) && PeerOk(cs, alts[i], None) && op != Nop
    ensures var (cs', v) := Exec(cs, me, alts, i, None);
            Log(cs', c, op) == Log(cs, c, op) + Part(me, Fired(i, alts[i], v), c, op)
  {
  }

  /** Doing alternative `i` with a blocked peer: two log entries, two records. */
  lemma MeetingParts<C, K, V>(cs: CS<C, K, V>, me: K, alts: seq<Alt<C, V>>, i: nat, e: Entry<K>, c: C, op: AOp)
    requires i < |alts| && (alts[i].op != Nop ==> alts[i].c in cs.chans)
    requires CanExec(cs, alts[i]) && PeerOk(cs, alts[i], Some(e)) && op != Nop
    requires EntryOk(cs, alts[i].c, Other(alts[i].op), e)
    ensures var x := Exec(cs, me, alts, i, Some(e));
            Log(x.0, c, op) == Log(cs, c, op) + Part(e.k, x.0.fired[e.k], c, op) + Part(me, Fired(i, alts[i], x.1), c, op)
  {
    var x := Exec(cs, me, alts, i, Some(e));
    if c == alts[i].c {
      var m := MeetAt(cs.chans[c], me, alts[i], e.k, cs.sets[e.k][e.i]);
      assert x.0.chans[c].sent == m.0.sent && x.0.chans[c].rcvd == m.0.rcvd;
    } else if c in cs.chans {
      assert x.0.chans[c].sent == cs.chans[c].sent && x.0.chans[c].rcvd == cs.chans[c].rcvd;
    }
  }

  lemma AloneKeepsHist<C, K, V>(cs: CS<C, K, V>, me: K, alts: seq<Alt<C, V>>, i: nat, k: K, c: C, op: AOp)
    requires i < |alts| && (alts[i].op != Nop ==> alts[i].c in cs.chans)
    requires CanExec(cs, alts[i]) && PeerOk(cs, alts[i], None) && me !in cs.fired
    requires Observed(cs, k, c, op) && op != Nop
    ensures var x := Exec(cs, me, alts, i, None); Observed(Returned(x.0, me, Fired(i, alts[i], x.1)), k, c, op)
  {
    var x := Exec(cs, me, alts, i, None);
    var f := Fired(i, alts[i], x.1);
    AloneParts(cs, me, alts, i, c, op);
    ReturnedRecord(x.0, me, f, k);
    assert Hist(x.0, k) + Pending(x.0, k) == Hist(cs, k) + Pending(cs, k);
    ObservedGrows(Log(cs, c, op), Hist(cs, k) + Pending(cs, k), me, f, k, c, op);
  }

  /** The record of a task that returns `f` grows by `f`. */
  lemma ReturnedRecord<C, K, V>(cs: CS<C, K, V>, me: K, f: Fired<C, V>, k: K)
    requires me !in cs.fired
    ensures var cs' := Returned(cs, me, f);
            Hist(cs', k) + Pending(cs', k) == Hist(cs, k) + Pending(cs, k) + If(me, f, k)
  {
  }

  lemma MeetingRecord<C, K, V>(cs: CS<C, K, V>, me: K, alts: seq<Alt<C, V>>, i: nat, e: Entry<K>, k: K)
    requires i < |alts| && (alts[i].op != Nop ==> alts[i].c in cs.chans)
    requires CanExec(cs, alts[i]) && PeerOk(cs, alts[i], Some(e)) && e.k !in cs.fired
    ensures var x := Exec(cs, me, alts, i, Some(e));
            Hist(x.0, k) + Pending(x.0, k) == Hist(cs, k) + Pending(cs, k) + If(e.k, x.0.fired[e.k], k)
  {
  }

  lemma MeetingKeepsHist<C, K, V>(
    cs: CS<C, K, V>, me: K, alts: seq<Alt<C, V>>, i: nat, e: Entry<K>, k: K, c: C, op: AOp)
    requires i < |alts| && (alts[i].op != Nop ==> alts[i].c in cs.chans)
    requires CanExec(cs, alts[i]) && PeerOk(cs, alts[i], Some(e)) && EntryOk(cs, alts[i].c, Other(alts[i].op), e)
    requires me != e.k && me !in cs.fired && e.k !in cs.fired
    requires Observed(cs, k, c, op) && op != Nop
    ensures var x := Exec(cs, me, alts, i, Some(e)); Observed(Returned(x.0, me, Fired(i, alts[i], x.1)), k, c, op)
  {
    var x := Exec(cs, me, alts, i, Some(e));
    var f, g := Fired(i, alts[i], x.1), x.0.fired[e.k];
    MeetingParts(cs, me, alts, i, e, c, op);
    MeetingRecord(cs, me, alts, i, e, k);
    ReturnedRecord(x.0, me, f, k);
    var h := Hist(cs, k) + Pending(cs, k);
    ObservedGrows(Log(cs, c, op), h, e.k, g, k, c, op);
    ObservedGrows(Log(cs, c, op) + Part(e.k, g, c, op), h + If(e.k, g, k), me, f, k, c, op);
  }

  lemma ChanAltKeepsHist<C, K, V>(
    cs: CS<C, K, V>, me: K, alts: seq<Alt<C, V>>, canblock: bool, i: nat, peer: Option<Entry<K>>, k: K, c: C)
    requires Inv(cs) && AltsOk(cs, alts) && ChoiceOk(cs, alts, i, peer)
    requires me !in cs.sets && me !in cs.fired && HistInv(cs, k, c)
    ensures HistInv(ChanAlt(cs, me, alts, canblock, i, peer).0, k, c)
  {
    if AnyExec(cs, alts) {
      if peer.Some? { PeerIsBlocked(cs, alts[i], peer.value); }
      hide Inv; hide AltsOk; hide Observed; hide Exec; hide AnyExec;
      match peer
      case None =>
        AloneKeepsHist(cs, me, alts, i, k, c, Snd);
        AloneKeepsHist(cs, me, alts, i, k, c, Rcv);
      case Some(e) =>
        MeetingKeepsHist(cs, me, alts, i, e, k, c, Snd);
        MeetingKeepsHist(cs, me, alts, i, e, k, c, Rcv);
    } else if canblock {
      ParkKeepsHist(cs, me, alts, k, c);
    }
  }

  lemma PeerIsBlocked<C, K, V>(cs: CS<C, K, V>, a: Alt<C, V>, e: Entry<K>)
    requires Inv(cs) && a.op != Nop && a.c in cs.chans && PeerOk(cs, a, Some(e))
    ensures EntryOk(cs, a.c, Other(a.op), e) && e.k in cs.sets && e.k !in cs.fired
  {
  }

  lemma ParkKeepsHist<C, K, V>(cs: CS<C, K, V>, me: K, alts: seq<Alt<C, V>>, k: K, c: C)
    requires HistInv(cs, k, c)
    ensures HistInv(Park(cs, me, alts), k, c)
  {
    var cs' := Park(cs, me, alts);
    assert Log(cs', c, Snd) == Log(cs, c, Snd) && Log(cs', c, Rcv) == Log(cs, c, Rcv);
  }

  lemma ResumeKeepsHist<C, K, V>(cs: CS<C, K, V>, me: K, k: K, c: C)
    requires me in cs.fired && HistInv(cs, k, c)
    ensures HistInv(Resume(cs, me), k, c)
  {
    var cs' := Resume(cs, me);
    assert Hist(cs', k) + Pending(cs', k) == Hist(cs, k) + Pending(cs, k);
  }

  /**
   Alt atomicity, the firing step: when chanalt meets a blocked peer, that peer leaves every
   queue of every channel at once, exactly one of its alternatives is recorded as done, and
   the queues and results of all other tasks stay as they were.
   */
  lemma MeetingIsAtomic<C, K, V>(cs: CS<C, K, V>, me: K, alts: seq<Alt<C, V>>, i: nat, e: Entry<K>)
    requires Inv(cs) && i < |alts| && (alts[i].op != Nop ==> alts[i].c in cs.chans)
    requires CanExec(cs, alts[i]) && PeerOk(cs, alts[i], Some(e))
    ensures var cs' := Exec(cs, me, alts, i, Some(e)).0;
            && e.k !in cs'.sets && e.k in cs'.fired
            && cs'.fired[e.k].i == e.i < |cs.sets[e.k]| && cs'.fired[e.k].a == cs.sets[e.k][e.i]
            && cs'.fired[e.k].a.c == alts[i].c && cs'.fired[e.k].a.op == Other(alts[i].op)
            && (forall k :: k in cs.sets && k != e.k ==> k in cs'.sets && cs'.sets[k] == cs.sets[k])
            && (forall k :: k in cs.fired && k != e.k ==> k in cs'.fired && cs'.fired[k] == cs.fired[k])
            && (forall c, x :: c in cs.chans && x in cs.chans[c].asend + cs.chans[c].arecv && x.k != e.k ==>
                  (x in cs'.chans[c].asend <==> x in cs.chans[c].asend) &&
                  (x in cs'.chans[c].arecv <==> x in cs.chans[c].arecv))
            && (forall c, x :: c in cs'.chans && x in cs'.chans[c].asend + cs'.chans[c].arecv ==> x.k != e.k)
            && (forall c :: c in cs.chans && c != alts[i].c ==>
                  && cs'.chans[c].ring == cs.chans[c].ring
                  && cs'.chans[c].sent == cs.chans[c].sent && cs'.chans[c].rcvd == cs.chans[c].rcvd)
  {
    assert EntryOk(cs, alts[i].c, Other(alts[i].op), e);
    var a, o := alts[i], cs.sets[e.k][e.i];
    var m := MeetAt(cs.chans[a.c], me, a, e.k, o);
    MeetAtQueues(cs.chans[a.c], me, a, e.k, o);
    WithdrawIs(cs.chans, a.c, m.0, e.k);
    hide Withdraw; hide MeetAt; hide Inv; hide CanExec;
  }

  lemma MeetAtQueues<C, K, V>(ch: Chan<K, V>, me: K, a: Alt<C, V>, k: K, o: Alt<C, V>)
    ensures MeetAt(ch, me, a, k, o).0.asend == ch.asend && MeetAt(ch, me, a, k, o).0.arecv == ch.arecv
  {
  }

  lemma WithdrawIs<C, K, V>(chans: map<C, Chan<K, V>>, d: C, ch: Chan<K, V>, k: K)
    requires d in chans && ch.asend == chans[d].asend && ch.arecv == chans[d].arecv
    ensures var chans' := Withdraw(chans[d := ch], k);
            && chans'.Keys == chans.Keys
            && (forall c, x :: c in chans && x in chans[c].asend + chans[c].arecv && x.k != k ==>
                  (x in chans'[c].asend <==> x in chans[c].asend) && (x in chans'[c].arecv <==> x in chans[c].arecv))
            && (forall c, x :: c in chans' && x in chans'[c].asend + chans'[c].arecv ==> x.k != k)
            && (forall c :: c in chans && c != d ==>
                  && chans'[c].ring == chans[c].ring
                  && chans'[c].sent == chans[c].sent && chans'[c].rcvd == chans[c].rcvd)
  {
  }
}
