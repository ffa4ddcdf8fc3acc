/** What every step of the channel protocol keeps. */
module ChanProofs {
  import opened Util
  import opened ChanSpec

  // ---- The queues hold exactly the blocked alternatives ----

  ghost predicate EntryOk<C, K, V>(cs: CS<C, K, V>, c: C, op: AOp, e: Entry<K>) {
    e.k in cs.sets && e.i < |cs.sets[e.k]| && cs.sets[e.k][e.i].op == op && cs.sets[e.k][e.i].c == c
  }

  /** Every queued entry is a blocked alternative on the right side of the right channel ... */
  ghost predicate OnlyBlocked<C, K, V>(cs: CS<C, K, V>) {
    && (forall c, e :: c in cs.chans && e in cs.chans[c].asend ==> EntryOk(cs, c, Snd, e))
    && (forall c, e :: c in cs.chans && e in cs.chans[c].arecv ==> EntryOk(cs, c, Rcv, e))
  }

  /** ... and every blocked alternative but a NOP is queued there. */
  ghost predicate AllQueued<C, K, V>(cs: CS<C, K, V>) {
    forall k, i :: k in cs.sets && 0 <= i < |cs.sets[k]| && cs.sets[k][i].op != Nop ==>
      var a := cs.sets[k][i];
      a.c in cs.chans && Entry(k, i) in Side(cs.chans[a.c], a.op)
  }

  // ---- The queues agree with the ring ----

  ghost predicate Agree<K, V>(ch: Chan<K, V>) {
    && |ch.ring| <= ch.bufsize
    && (ch.bufsize > 0 && ch.asend != {} ==> |ch.ring| == ch.bufsize)
    && (ch.bufsize > 0 && ch.arecv != {} ==> ch.ring == [])
    && (ch.bufsize == 0 ==> forall e, f :: e in ch.asend && f in ch.arecv ==> e.k == f.k)
  }

  /** Nothing lost, duplicated or reordered. */
  ghost predicate Fifo<K, V>(ch: Chan<K, V>) {
    Vals(ch.sent) == Vals(ch.rcvd) + ch.ring
  }

  ghost predicate Inv<C, K, V>(cs: CS<C, K, V>) {
    && OnlyBlocked(cs) && AllQueued(cs)
    && (forall c :: c in cs.chans ==> Agree(cs.chans[c]) && Fifo(cs.chans[c]))
    && cs.fired.Keys !! cs.sets.Keys
  }

  /** No two different tasks ever wait for each other on one channel. */
  lemma NobodyWaitsForEachOther<C, K, V>(cs: CS<C, K, V>, c: C, e: Entry<K>, f: Entry<K>)
    requires Inv(cs) && c in cs.chans && e in cs.chans[c].asend && f in cs.chans[c].arecv
    ensures e.k == f.k && cs.chans[c].bufsize == 0
  {
    assert Agree(cs.chans[c]);
  }

  // ---- One channel ----

  lemma MeetKeeps<K, V>(ch: Chan<K, V>, ks: K, v: V, kr: K)
    requires |ch.ring| <= ch.bufsize && Fifo(ch)
    ensures var ch' := Meet(ch, ks, v, kr).0;
            Fifo(ch') && |ch'.ring| == |ch.ring| && ch'.bufsize == ch.bufsize
  {
    ValsAppend(ch.sent, ks, v);
    if ch.ring == [] {
      ValsAppend(ch.rcvd, kr, v);
    } else {
      ValsAppend(ch.rcvd, kr, ch.ring[0]);
      assert ch.ring == [ch.ring[0]] + ch.ring[1..];
      assert Vals(ch.rcvd) + ch.ring + [v] == (Vals(ch.rcvd) + [ch.ring[0]]) + (ch.ring[1..] + [v]);
    }
  }

  lemma PutKeeps<K, V>(ch: Chan<K, V>, ks: K, v: V)
    requires Agree(ch) && Fifo(ch) && |ch.ring| < ch.bufsize && ch.arecv == {}
    ensures Agree(Put(ch, ks, v)) && Fifo(Put(ch, ks, v))
  {
    ValsAppend(ch.sent, ks, v);
    assert Vals(ch.rcvd) + (ch.ring + [v]) == (Vals(ch.rcvd) + ch.ring) + [v];
  }

  lemma TakeKeeps<K, V>(ch: Chan<K, V>, kr: K)
    requires Agree(ch) && Fifo(ch) && ch.ring != [] && ch.asend == {}
    ensures Agree(Take(ch, kr).0) && Fifo(Take(ch, kr).0)
  {
    ValsAppend(ch.rcvd, kr, ch.ring[0]);
    assert ch.ring == [ch.ring[0]] + ch.ring[1..];
    assert Vals(ch.rcvd) + ch.ring == (Vals(ch.rcvd) + [ch.ring[0]]) + ch.ring[1..];
  }

  // ---- Whole steps ----

  /**
   The two facts that the code only comments on ("altcanexec guarantees it"): a waiting peer
   implies that both parties can move, and without one the ring has room or an element.
   */
  lemma CopyIsSafe<C, K, V>(cs: CS<C, K, V>, a: Alt<C, V>)
    requires Inv(cs) && a.op != Nop && a.c in cs.chans && CanExec(cs, a)
    ensures var ch := cs.chans[a.c];
            && (a.op == Snd && ch.arecv != {} ==> ch.ring == [])
            && (a.op == Snd && ch.arecv == {} ==> |ch.ring| < ch.bufsize)
            && (a.op == Rcv && ch.asend != {} ==> |ch.ring| == ch.bufsize)
            && (a.op == Rcv && ch.asend == {} ==> 0 < |ch.ring| <= ch.bufsize)
  {
    assert Agree(cs.chans[a.c]);
  }

  /** Moving elements on one channel without touching its queues. */
  lemma OneChannelKeepsInv<C, K, V>(cs: CS<C, K, V>, c: C, ch: Chan<K, V>)
    requires Inv(cs) && c in cs.chans && Agree(ch) && Fifo(ch)
    requires ch.asend == cs.chans[c].asend && ch.arecv == cs.chans[c].arecv
    ensures Inv(cs.(chans := cs.chans[c := ch]))
  {
    var cs' := cs.(chans := cs.chans[c := ch]);
    assert OnlyBlocked(cs') by {
      forall d, e | d in cs'.chans && e in cs'.chans[d].asend ensures EntryOk(cs', d, Snd, e) {
        assert e in cs.chans[d].asend;
      }
      forall d, e | d in cs'.chans && e in cs'.chans[d].arecv ensures EntryOk(cs', d, Rcv, e) {
        assert e in cs.chans[d].arecv;
      }
    }
    assert AllQueued(cs');
  }

  /** Taking one blocked set out of every queue. */
  lemma WithdrawKeepsInv<C, K, V>(cs: CS<C, K, V>, k: K, f: Fired<C, V>)
    requires Inv(cs) && k in cs.sets
    ensures Inv(cs.(chans := Withdraw(cs.chans, k), sets := cs.sets - {k}, fired := cs.fired[k := f]))
  {
    var cs' := cs.(chans := Withdraw(cs.chans, k), sets := cs.sets - {k}, fired := cs.fired[k := f]);
    assert OnlyBlocked(cs') by {
      forall d, e | d in cs'.chans && e in cs'.chans[d].asend ensures EntryOk(cs', d, Snd, e) {
        assert e in cs.chans[d].asend;
      }
      forall d, e | d in cs'.chans && e in cs'.chans[d].arecv ensures EntryOk(cs', d, Rcv, e) {
        assert e in cs.chans[d].arecv;
      }
    }
    assert AllQueued(cs') by {
      forall j, i | j in cs'.sets && 0 <= i < |cs'.sets[j]| && cs'.sets[j][i].op != Nop
        ensures var a := cs'.sets[j][i];
                a.c in cs'.chans && Entry(j, i) in Side(cs'.chans[a.c], a.op)
      {
        assert cs.sets[j][i].op != Nop;
      }
    }
    forall c | c in cs'.chans ensures Agree(cs'.chans[c]) && Fifo(cs'.chans[c]) {
      assert Agree(cs.chans[c]) && Fifo(cs.chans[c]);
      assert cs'.chans[c].asend <= cs.chans[c].asend && cs'.chans[c].arecv <= cs.chans[c].arecv;
    }
  }

  lemma ExecKeepsInv<C, K, V>(cs: CS<C, K, V>, me: K, alts: seq<Alt<C, V>>, i: nat, peer: Option<Entry<K>>)
    requires Inv(cs) && AltsOk(cs, alts) && i < |alts| && CanExec(cs, alts[i]) && PeerOk(cs, alts[i], peer)
    ensures Inv(Exec(cs, me, alts, i, peer).0)
  {
    var a := alts[i];
    var ch := cs.chans[a.c];
    CopyIsSafe(cs, a);
    assert Agree(ch) && Fifo(ch);
    match peer
    case None =>
      if a.op == Snd {
        PutKeeps(ch, me, a.v);
        OneChannelKeepsInv(cs, a.c, Put(ch, me, a.v));
      } else {
        TakeKeeps(ch, me);
        OneChannelKeepsInv(cs, a.c, Take(ch, me).0);
      }
    case Some(e) =>
      var o := cs.sets[e.k][e.i];
      if a.op == Snd { MeetKeeps(ch, me, a.v, e.k); } else { MeetKeeps(ch, e.k, o.v, me); }
      var m := MeetAt(ch, me, a, e.k, o);
      OneChannelKeepsInv(cs, a.c, m.0);
      WithdrawKeepsInv(cs.(chans := cs.chans[a.c := m.0]), e.k, Fired(e.i, o, if a.op == Snd then m.1 else o.v));
  }

  lemma ParkQueues<C, K, V>(cs: CS<C, K, V>, me: K, alts: seq<Alt<C, V>>)
    requires Inv(cs) && AltsOk(cs, alts) && me !in cs.sets
    ensures OnlyBlocked(Park(cs, me, alts)) && AllQueued(Park(cs, me, alts))
  {
    ParkOnly(cs, me, alts);
    ParkAll(cs, me, alts);
    hide *;
  }

  lemma ParkOnly<C, K, V>(cs: CS<C, K, V>, me: K, alts: seq<Alt<C, V>>)
    requires Inv(cs) && me !in cs.sets
    ensures OnlyBlocked(Park(cs, me, alts))
  {
    var cs' := Park(cs, me, alts);
    forall d, e | d in cs'.chans && e in cs'.chans[d].asend ensures EntryOk(cs', d, Snd, e) {
      assert e in cs.chans[d].asend || e in NewEntries(me, alts, d, Snd);
    }
    forall d, e | d in cs'.chans && e in cs'.chans[d].arecv ensures EntryOk(cs', d, Rcv, e) {
      assert e in cs.chans[d].arecv || e in NewEntries(me, alts, d, Rcv);
    }
  }

  lemma ParkAll<C, K, V>(cs: CS<C, K, V>, me: K, alts: seq<Alt<C, V>>)
    requires Inv(cs) && AltsOk(cs, alts)
    ensures AllQueued(Park(cs, me, alts))
  {
    var cs' := Park(cs, me, alts);
    forall j, i | j in cs'.sets && 0 <= i < |cs'.sets[j]| && cs'.sets[j][i].op != Nop
      ensures var a := cs'.sets[j][i];
              a.c in cs'.chans && Entry(j, i) in Side(cs'.chans[a.c], a.op)
    {
      if j == me {
        var a := alts[i];
        assert Entry(me, i) in NewEntries(me, alts, a.c, a.op);
      } else {
        assert cs.sets[j][i].op != Nop;
      }
    }
  }

  lemma ParkKeepsInv<C, K, V>(cs: CS<C, K, V>, me: K, alts: seq<Alt<C, V>>)
    requires Inv(cs) && AltsOk(cs, alts) && !AnyExec(cs, alts)
    requires me !in cs.sets && me !in cs.fired
    ensures Inv(Park(cs, me, alts))
  {
    ParkQueues(cs, me, alts);
    var cs' := Park(cs, me, alts);
    forall c | c in cs'.chans ensures Agree(cs'.chans[c]) && Fifo(cs'.chans[c]) {
      ParkAgrees(cs, me, alts, c);
    }
    hide AllQueued; hide OnlyBlocked; hide Agree; hide Fifo;
  }

  /** A task queues on a side of a channel only when it cannot move there. */
  lemma ParkAgrees<C, K, V>(cs: CS<C, K, V>, me: K, alts: seq<Alt<C, V>>, c: C)
    requires Inv(cs) && AltsOk(cs, alts) && !AnyExec(cs, alts) && c in cs.chans
    ensures Agree(Park(cs, me, alts).chans[c]) && Fifo(Park(cs, me, alts).chans[c])
  {
    var ch := cs.chans[c];
    var snd, rcv := NewEntries(me, alts, c, Snd), NewEntries(me, alts, c, Rcv);
    assert Agree(ch) && Fifo(ch);
    NewEntriesBlocked(cs, me, alts, c);
    assert Park(cs, me, alts).chans[c] == ch.(asend := ch.asend + snd, arecv := ch.arecv + rcv);
    hide Inv; hide AltsOk; hide AnyExec; hide Park;
    MoreWait(ch, snd, rcv, me);
  }

  lemma NewEntriesBlocked<C, K, V>(cs: CS<C, K, V>, me: K, alts: seq<Alt<C, V>>, c: C)
    requires AltsOk(cs, alts) && !AnyExec(cs, alts) && c in cs.chans
    ensures var ch := cs.chans[c];
            && (NewEntries(me, alts, c, Snd) != {} ==> if ch.bufsize == 0 then ch.arecv == {} else |ch.ring| >= ch.bufsize)
            && (NewEntries(me, alts, c, Rcv) != {} ==> if ch.bufsize == 0 then ch.asend == {} else ch.ring == [])
  {
    if NewEntries(me, alts, c, Snd) != {} {
      var e :| e in NewEntries(me, alts, c, Snd);
      assert !CanExec(cs, alts[e.i]);
    }
    if NewEntries(me, alts, c, Rcv) != {} {
      var e :| e in NewEntries(me, alts, c, Rcv);
      assert !CanExec(cs, alts[e.i]);
    }
  }

  /** More entries of one task on the two sides of a channel where it cannot move. */
  lemma MoreWait<K, V>(ch: Chan<K, V>, snd: set<Entry<K>>, rcv: set<Entry<K>>, me: K)
    requires Agree(ch) && Fifo(ch) && forall e :: e in snd + rcv ==> e.k == me
    requires snd != {} ==> if ch.bufsize == 0 then ch.arecv == {} else |ch.ring| >= ch.bufsize
    requires rcv != {} ==> if ch.bufsize == 0 then ch.asend == {} else ch.ring == []
    ensures var ch' := ch.(asend := ch.asend + snd, arecv := ch.arecv + rcv); Agree(ch') && Fifo(ch')
  {
  }

  lemma ChanAltKeepsInv<C, K, V>(
    cs: CS<C, K, V>, me: K, alts: seq<Alt<C, V>>, canblock: bool, i: nat, peer: Option<Entry<K>>)
    requires Inv(cs) && AltsOk(cs, alts) && ChoiceOk(cs, alts, i, peer)
    requires me !in cs.sets && me !in cs.fired
    ensures Inv(ChanAlt(cs, me, alts, canblock, i, peer).0)
  {
    if AnyExec(cs, alts) {
      ExecKeepsInv(cs, me, alts, i, peer);
      hide Exec;
      HistKeepsInv(Exec(cs, me, alts, i, peer).0, me, Fired(i, alts[i], Exec(cs, me, alts, i, peer).1));
      hide Inv; hide Returned;
    } else if canblock {
      ParkKeepsInv(cs, me, alts);
      hide Inv; hide Park;
    }
  }

  /** The history is not part of the invariant. */
  lemma HistKeepsInv<C, K, V>(cs: CS<C, K, V>, me: K, f: Fired<C, V>)
    requires Inv(cs)
    ensures Inv(Returned(cs, me, f))
  {
    var cs' := Returned(cs, me, f);
    assert OnlyBlocked(cs') by {
      forall c, e | c in cs'.chans && e in cs'.chans[c].asend ensures EntryOk(cs', c, Snd, e) {
        assert EntryOk(cs, c, Snd, e);
      }
      forall c, e | c in cs'.chans && e in cs'.chans[c].arecv ensures EntryOk(cs', c, Rcv, e) {
        assert EntryOk(cs, c, Rcv, e);
      }
    }
  }

  lemma AddChanKeepsInv<C, K, V>(cs: CS<C, K, V>, c: C, bufsize: nat)
    requires Inv(cs) && c !in cs.chans
    ensures Inv(AddChan(cs, c, bufsize))
  {
    var cs' := AddChan(cs, c, bufsize);
    assert OnlyBlocked(cs') by {
      forall d, e | d in cs'.chans && e in cs'.chans[d].asend ensures EntryOk(cs', d, Snd, e) {
        assert d != c && EntryOk(cs, d, Snd, e);
      }
      forall d, e | d in cs'.chans && e in cs'.chans[d].arecv ensures EntryOk(cs', d, Rcv, e) {
        assert d != c && EntryOk(cs, d, Rcv, e);
      }
    }
    assert AllQueued(cs') by {
      forall j, i | j in cs'.sets && 0 <= i < |cs'.sets[j]| && cs'.sets[j][i].op != Nop
        ensures var a := cs'.sets[j][i];
                a.c in cs'.chans && Entry(j, i) in Side(cs'.chans[a.c], a.op)
      {
        assert cs.sets[j][i].op != Nop;
      }
    }
  }

  /** The return of a served task keeps everything. */
  lemma ResumeKeepsInv<C, K, V>(cs: CS<C, K, V>, me: K)
    requires Inv(cs) && me in cs.fired
    ensures Inv(Resume(cs, me))
  {
    var cs' := Resume(cs, me);
    assert OnlyBlocked(cs') by {
      forall c, e | c in cs'.chans && e in cs'.chans[c].asend ensures EntryOk(cs', c, Snd, e) {
        assert EntryOk(cs, c, Snd, e);
      }
      forall c, e | c in cs'.chans && e in cs'.chans[c].arecv ensures EntryOk(cs', c, Rcv, e) {
        assert EntryOk(cs, c, Rcv, e);
      }
    }
  }
}
