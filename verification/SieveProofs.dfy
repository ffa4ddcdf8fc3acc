/** Every step of the sieve keeps its invariant, and some task can always go on. */
module SieveProofs {
  import opened Util
  import opened World
  import opened Places
  import opened PcProofs
  import opened Parts
  import opened Runs
  import opened Primes
  import opened Sieve
  import opened SieveFlow
  import CS = ChanSpec
  import CP = ChanProofs
  import CH = ChanHistory
  import CT = ChanTheorems
  import LT = LockTheorems

  lemma StartInv(goal: int)
    ensures SieveInv(goal, Start())
  {
    InitInv(map[]);
    var x := Start();
    hide Inv;
    assert x.printed == PrimesBelow(0);
    assert 1 in x.locals && TaskFlow(x, 1);
  }

  // ---- What each step does to the world ----

  lemma DispatchView(w: World)
    requires w.s.running.None?
    ensures var w' := DoDispatch(w);
            w'.cs == w.cs && w'.pc == w.pc && w'.s.idgen == w.s.idgen && w'.s.system == w.s.system
    ensures w.s.count != 0 && w.s.runq != [] ==> DoDispatch(w).status == w.status
  {
    DispatchIs(w);
    hide DoDispatch;
    if w.s.count == 0 {
    } else if w.s.runq == [] {
    } else {
    }
  }

  lemma AltView(w: World, alts: seq<CS.Alt<nat, int>>, canblock: bool, i: nat, peer: Option<CS.Entry<Tid>>)
    requires w.s.running.Some? && CS.AltsOk(w.cs, alts) && CS.ChoiceOk(w.cs, alts, i, peer)
    ensures var w' := DoAlt(w, alts, canblock, i, peer);
            && w'.s.idgen == w.s.idgen && w'.s.system == w.s.system
            && w'.pc == if CS.ChanAlt(w.cs, Me(w), alts, canblock, i, peer).1.Parked? then w.pc[Me(w) := InAlt] else w.pc
  {
    var w1 := w.(cs := CS.ChanAlt(w.cs, Me(w), alts, canblock, i, peer).0);
    BlockIs(w1, InAltSet, InAlt);
    WakeIs(w1, if peer.Some? then [peer.value.k] else []);
    hide Wake; hide Block; hide CS.ChanAlt; hide CS.AltsOk; hide CS.ChoiceOk;
  }

  lemma ResumeView(w: World, now: nat)
    requires w.s.running.Some? && Me(w) in w.pc && w.pc[Me(w)].InAlt? && Me(w) in w.cs.fired
    ensures DoReturn(w, now) == w.(pc := w.pc[Me(w) := User], cs := CS.Resume(w.cs, Me(w)))
  {
  }

  // ---- Scheduling: no reachable state is stuck ----

  /** A parked task that receives keeps its upstream neighbour from being parked on that channel. */
  lemma UpstreamReceives(x: Sieve, t: Tid)
    requires CP.Inv(x.w.cs) && Topology(x) && Blocked(x)
    requires t > 1 && t in x.w.cs.sets && t - 1 in x.w.cs.sets && !Sends(x.locals[t])
    ensures t - 1 > 1 && !Sends(x.locals[t - 1])
  {
    var cs, last := x.w.cs, x.w.s.idgen;
    var l, u := x.locals[t], x.locals[t - 1];
    Ends(t, l, last);
    Ends(t - 1, u, last);
    assert cs.sets[t][0] == AltOf(l) && cs.sets[t - 1][0] == AltOf(u);
    if Sends(u) {
      var c := t - 2;
      assert CS.Entry(t, 0) in cs.chans[c].arecv && CS.Entry(t - 1, 0) in cs.chans[c].asend;
      CP.NobodyWaitsForEachOther(cs, c, CS.Entry(t - 1, 0), CS.Entry(t, 0));
    }
  }

  lemma {:induction false} ChainStuck(x: Sieve, t: Tid)
    requires CP.Inv(x.w.cs) && Topology(x) && Blocked(x)
    requires 1 <= t <= x.w.s.idgen && forall u :: 1 <= u <= t ==> u in x.w.cs.sets
    requires !Sends(x.locals[t])
    ensures false
    decreases t
  {
    if t == 1 {
      Ends(1, x.locals[1], x.w.s.idgen);
    } else {
      UpstreamReceives(x, t);
      ChainStuck(x, t - 1);
    }
  }

  /** Some task is not waiting for a peer. */
  lemma SomebodyReady(x: Sieve) returns (t: Tid)
    requires CP.Inv(x.w.cs) && Topology(x) && Blocked(x)
    ensures t in x.locals && t !in x.w.cs.sets
  {
    if u :| u in x.locals && u !in x.w.cs.sets {
      t := u;
    } else {
      var last := x.w.s.idgen;
      assert LocalOk(last, x.locals[last], last);
      ChainStuck(x, last);
    }
  }

  lemma SieveDispatch(goal: int, x: Sieve)
    requires SieveInv(goal, x) && x.w.s.running.None? && x.w.status == Going
    ensures x.w.s.count != 0 && x.w.s.runq != []
  {
    var t := StillReady(goal, x);
    ReadyRuns(x.w, t);
  }

  lemma StillReady(goal: int, x: Sieve) returns (t: Tid)
    requires SieveInv(goal, x)
    ensures t in x.w.at && Ready(x.w, t) && x.w.s.system == {}
  {
    LT.InvPlace(x.w);
    assert CP.Inv(x.w.cs);
    t := SomebodyReady(x);
    hide Topology; hide CP.Inv; hide Flow; hide Output;
    assert PcOk(x.w, t);
    if !Ready(x.w, t) {
      assert x.w.pc[t] == InAlt;
      CT.InAltFacts(x.w, t);
    }
  }

  lemma ReadyRuns(w: World, t: Tid)
    requires Inv(w) && w.status == Going && w.s.running.None? && t in w.at && Ready(w, t) && w.s.system == {}
    ensures w.s.count != 0 && w.s.runq != []
  {
    LT.InvPlace(w);
    ReadyQueued(w, t);
    ExitIsExact(w);
    hide Inv; hide PlaceInv; hide PcInv; hide PartsInv;
  }

  // ---- Steps of one task ----

  ghost predicate Good(goal: int, x: Sieve) {
    Topology(x) && Blocked(x) && Flow(x) && Output(goal, x)
  }

  lemma GoodParts(goal: int, x: Sieve)
    ensures Good(goal, x) <==> Topology(x) && Blocked(x) && Flow(x) && Output(goal, x)
  {
  }

  /** The flow of a task depends on nothing but its own channels. */
  ghost predicate SameChannels(cs: CS.CS<nat, Tid, int>, cs': CS.CS<nat, Tid, int>, t: Tid) {
    Came(cs', t) == Came(cs, t) && Went(cs', t) == Went(cs, t) && Moved(cs', t) == Moved(cs, t)
  }

  lemma KeepFlow(x: Sieve, w': World)
    requires Flow(x) && forall t :: t in x.locals ==> SameChannels(x.w.cs, w'.cs, t)
    ensures Flow(x.(w := w'))
  {
    var x' := x.(w := w');
    hide FlowOk; hide Came; hide Went; hide Moved;
    forall t | t in x'.locals ensures TaskFlow(x', t) {
      assert TaskFlow(x, t) && SameChannels(x.w.cs, w'.cs, t);
    }
  }

  lemma KeepWiring(goal: int, x: Sieve, w': World)
    requires Topology(x) && Output(goal, x)
    requires w'.cs.chans.Keys == x.w.cs.chans.Keys && w'.s.idgen == x.w.s.idgen && w'.status == x.w.status
    ensures Topology(x.(w := w')) && Output(goal, x.(w := w'))
  {
    hide LocalOk; hide PrimesBelow;
  }

  lemma KeepBlocked(x: Sieve, w': World)
    requires Blocked(x) && w'.cs == x.w.cs && w'.pc == x.w.pc && w'.s.system == x.w.s.system
    ensures Blocked(x.(w := w'))
  {
  }

  lemma SameCS(cs: CS.CS<nat, Tid, int>, t: Tid)
    ensures SameChannels(cs, cs, t)
  {
  }

  lemma SameView(goal: int, x: Sieve, w': World)
    requires Good(goal, x) && w'.cs == x.w.cs && w'.pc == x.w.pc && w'.s.idgen == x.w.s.idgen
    requires w'.s.system == x.w.s.system && w'.status == x.w.status
    ensures Good(goal, x.(w := w'))
  {
    hide *;
    GoodParts(goal, x);
    KeepWiring(goal, x, w');
    KeepBlocked(x, w');
    KeepFlow(x, w') by { forall t ensures SameChannels(x.w.cs, w'.cs, t) { SameCS(x.w.cs, t); } }
    GoodParts(goal, x.(w := w'));
  }

  /** Parking leaves all that has flowed. */
  lemma ParkFlow(cs: CS.CS<nat, Tid, int>, me: Tid, alts: seq<CS.Alt<nat, int>>, t: Tid)
    ensures var cs' := CS.Park(cs, me, alts);
            SameChannels(cs, cs', t)
  {
    var cs' := CS.Park(cs, me, alts);
    assert t >= 2 ==> CH.Log(cs', t - 2, CS.Rcv) == CH.Log(cs, t - 2, CS.Rcv);
    assert t >= 1 ==> CH.Log(cs', t - 1, CS.Snd) == CH.Log(cs, t - 1, CS.Snd);
  }

  lemma ParkBlocked(x: Sieve, me: Tid, w': World)
    requires Blocked(x) && me in x.locals && Talks(x.locals[me])
    requires w'.cs == CS.Park(x.w.cs, me, [AltOf(x.locals[me])]) && w'.pc == x.w.pc[me := InAlt]
    requires w'.s.system == x.w.s.system
    ensures Blocked(x.(w := w')) && w'.cs.chans.Keys == x.w.cs.chans.Keys
  {
    hide AltOf;
  }

  lemma ParkStep(goal: int, x: Sieve, me: Tid, w': World)
    requires Good(goal, x) && me in x.locals && Talks(x.locals[me])
    requires w'.cs == CS.Park(x.w.cs, me, [AltOf(x.locals[me])]) && w'.pc == x.w.pc[me := InAlt]
    requires w'.s.idgen == x.w.s.idgen && w'.s.system == x.w.s.system && w'.status == x.w.status
    ensures Good(goal, x.(w := w'))
  {
    hide *;
    GoodParts(goal, x);
    ParkBlocked(x, me, w');
    KeepWiring(goal, x, w');
    forall t | t in x.locals ensures SameChannels(x.w.cs, w'.cs, t) {
      ParkFlow(x.w.cs, me, [AltOf(x.locals[me])], t);
    }
    KeepFlow(x, w');
    GoodParts(goal, x.(w := w'));
  }

  /** Moving on after a send or receive keeps the wiring and the record of what was printed. */
  lemma AfterWiring(goal: int, x: Sieve, me: Tid, v: int, w': World)
    requires Topology(x) && Output(goal, x) && me in x.locals && Talks(x.locals[me])
    requires w'.cs.chans.Keys == x.w.cs.chans.Keys && w'.s.idgen == x.w.s.idgen && w'.status == x.w.status
    ensures var x' := x.(w := w', locals := x.locals[me := After(x.locals[me], v)]);
            Topology(x') && Output(goal, x')
  {
    var x' := x.(w := w', locals := x.locals[me := After(x.locals[me], v)]);
    hide PrimesBelow;
    assert LocalOk(me, x.locals[me], x.w.s.idgen);
    assert LocalOk(me, x'.locals[me], x.w.s.idgen);
    assert Growing(x'.locals[me]) == Growing(x.locals[me]);
    hide LocalOk; hide After;
  }

  lemma ResumeFlow(cs: CS.CS<nat, Tid, int>, me: Tid, t: Tid)
    requires me in cs.fired
    ensures var cs' := CS.Resume(cs, me);
            && Came(cs', t) == Came(cs, t) && Went(cs', t) == Went(cs, t)
            && Moved(cs', t) == (if t == me then None else Moved(cs, t))
  {
  }

  lemma ResumeMine(x: Sieve, me: Tid, w': World, t: Tid)
    requires Flow(x) && me in x.w.cs.fired && me in x.locals && Talks(x.locals[me]) && t in x.locals
    requires w'.cs == CS.Resume(x.w.cs, me)
    ensures TaskFlow(x.(w := w', locals := x.locals[me := After(x.locals[me], x.w.cs.fired[me].v)]), t)
  {
    var l, v := x.locals[me], x.w.cs.fired[me].v;
    var x' := x.(w := w', locals := x.locals[me := After(l, v)]);
    ResumeFlow(x.w.cs, me, t);
    assert TaskFlow(x, t);
    hide FlowOk; hide CS.Resume; hide Came; hide Went; hide Flow; hide After;
    if t == me {
      FinishFlow(l, Came(x.w.cs, me), Went(x.w.cs, me), v);
    }
  }

  lemma ResumeAll(x: Sieve, me: Tid, w': World)
    requires Flow(x) && me in x.w.cs.fired && me in x.locals && Talks(x.locals[me])
    requires w'.cs == CS.Resume(x.w.cs, me)
    ensures Flow(x.(w := w', locals := x.locals[me := After(x.locals[me], x.w.cs.fired[me].v)]))
  {
    var x' := x.(w := w', locals := x.locals[me := After(x.locals[me], x.w.cs.fired[me].v)]);
    hide TaskFlow; hide CS.Resume; hide After; hide Talks;
    forall t | t in x'.locals ensures TaskFlow(x', t) {
      ResumeMine(x, me, w', t);
    }
  }

  lemma ResumeBlocked(x: Sieve, me: Tid, w': World)
    requires Blocked(x) && me in x.w.cs.fired && me !in x.w.cs.sets && me in x.locals && Talks(x.locals[me])
    requires w'.cs == CS.Resume(x.w.cs, me) && w'.pc == x.w.pc[me := User] && w'.s.system == x.w.s.system
    ensures Blocked(x.(w := w', locals := x.locals[me := After(x.locals[me], x.w.cs.fired[me].v)]))
    ensures w'.cs.chans.Keys == x.w.cs.chans.Keys
  {
    hide AltOf; hide After;
  }

  lemma ResumeStep(goal: int, x: Sieve, me: Tid, w': World)
    requires Good(goal, x) && me in x.w.cs.fired && me !in x.w.cs.sets && me in x.locals
    requires Talks(x.locals[me]) && w'.cs == CS.Resume(x.w.cs, me) && w'.pc == x.w.pc[me := User]
    requires w'.s.idgen == x.w.s.idgen && w'.s.system == x.w.s.system && w'.status == x.w.status
    ensures Good(goal, x.(w := w', locals := x.locals[me := After(x.locals[me], x.w.cs.fired[me].v)]))
  {
    var l, v := x.locals[me], x.w.cs.fired[me].v;
    var x' := x.(w := w', locals := x.locals[me := After(l, v)]);
    hide *;
    GoodParts(goal, x);
    ResumeBlocked(x, me, w');
    AfterWiring(goal, x, me, v, w');
    ResumeAll(x, me, w');
    GoodParts(goal, x');
  }

  /** One task has sent or received at once. */
  lemma DoneStep(goal: int, x: Sieve, me: Tid, v: int, peer: Option<CS.Entry<Tid>>, w': World)
    requires Good(goal, x) && me !in x.w.cs.fired && me !in x.w.cs.sets && me in x.locals && Talks(x.locals[me])
    requires Served(x.w.cs, w'.cs, AltOf(x.locals[me]), v, peer)
    requires w'.pc == x.w.pc && w'.s.idgen == x.w.s.idgen && w'.s.system == x.w.s.system && w'.status == x.w.status
    ensures Good(goal, x.(w := w', locals := x.locals[me := After(x.locals[me], v)]))
  {
    var l := x.locals[me];
    var x' := x.(w := w', locals := x.locals[me := After(l, v)]);
    AfterWiring(goal, x, me, v, w');
    DoneBlocked(x, me, v, peer, w');
    hide PrimesBelow; hide Output; hide FlowOk; hide Served; hide LocalOk; hide Blocked;
    forall t | t in x'.locals ensures TaskFlow(x', t) {
      DoneFlow(x, me, v, peer, w', t);
    }
  }

  lemma DoneBlocked(x: Sieve, me: Tid, v: int, peer: Option<CS.Entry<Tid>>, w': World)
    requires Blocked(x) && me !in x.w.cs.fired && me !in x.w.cs.sets && me in x.locals && Talks(x.locals[me])
    requires Served(x.w.cs, w'.cs, AltOf(x.locals[me]), v, peer)
    requires w'.pc == x.w.pc && w'.s.system == x.w.s.system
    ensures Blocked(x.(w := w', locals := x.locals[me := After(x.locals[me], v)]))
  {
    hide AltOf; hide After; hide Flowed;
  }

  lemma DoneFlow(x: Sieve, me: Tid, v: int, peer: Option<CS.Entry<Tid>>, w': World, t: Tid)
    requires Topology(x) && Blocked(x) && Flow(x)
    requires me !in x.w.cs.fired && me !in x.w.cs.sets && me in x.locals && Talks(x.locals[me])
    requires Served(x.w.cs, w'.cs, AltOf(x.locals[me]), v, peer) && t in x.locals
    ensures TaskFlow(x.(w := w', locals := x.locals[me := After(x.locals[me], v)]), t)
  {
    var last, cs, cs', pl := x.w.s.idgen, x.w.cs, w'.cs, x.locals[me];
    if peer.Some? {
      assert peer.value.k in x.locals && cs.sets[peer.value.k] == [AltOf(x.locals[peer.value.k])];
      pl := x.locals[peer.value.k];
    }
    assert TaskFlow(x, t) && LocalOk(me, x.locals[me], last);
    hide FlowOk; hide LocalOk; hide AltOf; hide After; hide Flowed; hide Came; hide Went; hide Flow; hide Blocked;
    EachFlow(cs, cs', x.locals, me, v, peer, pl, t, last);
  }

  /** The mover, its peer, and everybody else. */
  lemma EachFlow(
    cs: CS.CS<nat, Tid, int>, cs': CS.CS<nat, Tid, int>, locals: map<Tid, Local>, me: Tid, v: int,
    peer: Option<CS.Entry<Tid>>, pl: Local, t: Tid, last: nat)
    requires me in locals && t in locals && Talks(locals[me]) && LocalOk(me, locals[me], last)
    requires me !in cs.fired && me !in cs.sets && Served(cs, cs', AltOf(locals[me]), v, peer)
    requires peer.Some? ==> peer.value.k in locals && pl == locals[peer.value.k] && Talks(pl)
    requires peer.Some? ==> LocalOk(peer.value.k, pl, last) && cs'.fired[peer.value.k].a == AltOf(pl)
    requires FlowOk(locals[t], Moved(cs, t), Came(cs, t), Went(cs, t))
    ensures FlowOk(locals[me := After(locals[me], v)][t], Moved(cs', t), Came(cs', t), Went(cs', t))
  {
    hide FlowOk; hide LocalOk; hide AltOf; hide After; hide Flowed; hide Came; hide Went;
    if t == me {
      MyFlow(cs, cs', me, locals[me], v, peer, last);
    } else if peer.Some? && t == peer.value.k {
      PeerFlow(cs, cs', AltOf(locals[me]), v, peer.value, pl, last);
    } else {
      OtherFlow(cs, cs', me, locals[me], v, peer, pl, t, last);
    }
  }
}
