/** How the numbers flow through the sieve when one task sends or receives. */
module SieveFlow {
  import opened Util
  import opened World
  import opened Runs
  import opened Primes
  import opened Sieve
  import CS = ChanSpec
  import CP = ChanProofs
  import CH = ChanHistory

  // ---- One task ----

  /** A peer moves `y` for a waiting task. */
  lemma CommitFlow(l: Local, r: seq<int>, s: seq<int>, y: int)
    requires FlowOk(l, None, r, s) && Talks(l) && (Sends(l) ==> y == AltOf(l).v)
    requires l.Feed? ==> l.i >= 2
    ensures FlowOk(l, Some(y), if Sends(l) then r else r + [y], if Sends(l) then s + [y] else s)
  {
    match l
    case Feed(_, i) => assert Survives(i, []);
    case First(_) =>
    case Recv(_, _, _) => assert Front(r + [y]) == r;
    case Have(_, p, _, i) =>
      assert Front(r) + [i] == r;
      FilterAppend(p, Front(r), i);
  }

  /** The task goes on after its send or receive. */
  lemma FinishFlow(l: Local, r: seq<int>, s: seq<int>, y: int)
    requires FlowOk(l, Some(y), r, s) && Talks(l)
    ensures FlowOk(After(l, y), None, r, s)
  {
    if l.Recv? {
      assert Front(r) + [y] == r;
      FilterAppend(l.p, Front(r), y);
    }
  }

  // ---- One channel ----

  /** What task `k` doing `f` adds to the values in direction `op` of channel `c`. */
  function Adds(f: CS.Fired<nat, int>, c: nat, op: CS.AOp): seq<int> {
    if f.a.op == op && f.a.c == c then [f.v] else []
  }

  lemma ValsPart(log: seq<(Tid, int)>, k: Tid, f: CS.Fired<nat, int>, c: nat, op: CS.AOp)
    ensures Vals(log + CH.Part(k, f, c, op)) == Vals(log) + Adds(f, c, op)
  {
    ValsAppend(log, k, f.v);
    assert log + [] == log;
    assert Vals(log) + [] == Vals(log);
  }

  function Flowed(cs: CS.CS<nat, Tid, int>, c: nat, op: CS.AOp): seq<int> {
    Vals(CH.Log(cs, c, op))
  }

  lemma AloneFlow(cs: CS.CS<nat, Tid, int>, me: Tid, a: CS.Alt<nat, int>, c: nat, op: CS.AOp)
    requires a.op != CS.Nop && a.c in cs.chans && CS.CanExec(cs, a) && CS.PeerOk(cs, a, None) && op != CS.Nop
    ensures var x := CS.Exec(cs, me, [a], 0, None);
            Flowed(x.0, c, op) == Flowed(cs, c, op) + Adds(CS.Fired(0, a, x.1), c, op)
  {
    var x := CS.Exec(cs, me, [a], 0, None);
    CH.AloneParts(cs, me, [a], 0, c, op);
    ValsPart(CH.Log(cs, c, op), me, CS.Fired(0, a, x.1), c, op);
  }

  lemma MeetingFlow(cs: CS.CS<nat, Tid, int>, me: Tid, a: CS.Alt<nat, int>, e: CS.Entry<Tid>, c: nat, op: CS.AOp)
    requires a.op != CS.Nop && a.c in cs.chans && CS.CanExec(cs, a) && CS.PeerOk(cs, a, Some(e)) && op != CS.Nop
    requires CP.EntryOk(cs, a.c, CS.Other(a.op), e)
    ensures var x := CS.Exec(cs, me, [a], 0, Some(e));
            Flowed(x.0, c, op) == Flowed(cs, c, op) + Adds(x.0.fired[e.k], c, op) + Adds(CS.Fired(0, a, x.1), c, op)
  {
    var x := CS.Exec(cs, me, [a], 0, Some(e));
    CH.MeetingParts(cs, me, [a], 0, e, c, op);
    var log := CH.Log(cs, c, op);
    ValsPart(log, e.k, x.0.fired[e.k], c, op);
    ValsPart(log + CH.Part(e.k, x.0.fired[e.k], c, op), me, CS.Fired(0, a, x.1), c, op);
  }

  /** What `peer` contributes, if there is one. */
  function PeerAdds(cs': CS.CS<nat, Tid, int>, peer: Option<CS.Entry<Tid>>, c: nat, op: CS.AOp): seq<int> {
    if peer.Some? && peer.value.k in cs'.fired then Adds(cs'.fired[peer.value.k], c, op) else []
  }

  /** Task `me` has done `a`, alone or with `peer`, and `v` has moved. */
  ghost predicate Served(
    cs: CS.CS<nat, Tid, int>, cs': CS.CS<nat, Tid, int>, a: CS.Alt<nat, int>, v: int, peer: Option<CS.Entry<Tid>>)
  {
    && cs'.chans.Keys == cs.chans.Keys
    && (a.op == CS.Snd ==> v == a.v)
    && (match peer
        case None => cs'.sets == cs.sets && cs'.fired == cs.fired
        case Some(e) =>
          && e.k in cs.sets && e.i < |cs.sets[e.k]| && e.k !in cs.fired && cs'.sets == cs.sets - {e.k}
          && e.k in cs'.fired && cs'.fired == cs.fired[e.k := cs'.fired[e.k]]
          && cs'.fired[e.k].i == e.i
          && var f := cs'.fired[e.k];
             f.a == cs.sets[e.k][e.i] && f.a.c == a.c && f.a.op == CS.Other(a.op) && (f.a.op == CS.Snd ==> f.v == f.a.v))
    && (forall c: nat, op: CS.AOp :: op != CS.Nop ==>
          Flowed(cs', c, op) == Flowed(cs, c, op) + PeerAdds(cs', peer, c, op) + Adds(CS.Fired(0, a, v), c, op))
  }

  lemma ExecFlows(cs: CS.CS<nat, Tid, int>, me: Tid, a: CS.Alt<nat, int>, peer: Option<CS.Entry<Tid>>, c: nat, op: CS.AOp)
    requires a.op != CS.Nop && a.c in cs.chans && CS.CanExec(cs, a) && CS.PeerOk(cs, a, peer) && op != CS.Nop
    requires peer.Some? ==> CP.EntryOk(cs, a.c, CS.Other(a.op), peer.value)
    ensures var x := CS.Exec(cs, me, [a], 0, peer);
            Flowed(x.0, c, op) == Flowed(cs, c, op) + PeerAdds(x.0, peer, c, op) + Adds(CS.Fired(0, a, x.1), c, op)
  {
    if peer.Some? {
      MeetingFlow(cs, me, a, peer.value, c, op);
    } else {
      AloneFlow(cs, me, a, c, op);
      assert Flowed(cs, c, op) + [] == Flowed(cs, c, op);
    }
  }

  lemma ExecServes(cs: CS.CS<nat, Tid, int>, me: Tid, a: CS.Alt<nat, int>, peer: Option<CS.Entry<Tid>>)
    requires CP.Inv(cs) && a.op != CS.Nop && a.c in cs.chans && CS.CanExec(cs, a) && CS.PeerOk(cs, a, peer)
    ensures var x := CS.Exec(cs, me, [a], 0, peer); Served(cs, x.0, a, x.1, peer)
  {
    var x := CS.Exec(cs, me, [a], 0, peer);
    if peer.Some? {
      assert CP.EntryOk(cs, a.c, CS.Other(a.op), peer.value);
      ExecMeets(cs, me, a, peer.value);
    } else {
      ExecAlone(cs, me, a);
    }
    hide CS.Exec; hide CP.Inv; hide CS.CanExec; hide Flowed; hide Adds; hide PeerAdds;
    forall c: nat, op: CS.AOp | op != CS.Nop
      ensures Flowed(x.0, c, op) == Flowed(cs, c, op) + PeerAdds(x.0, peer, c, op) + Adds(CS.Fired(0, a, x.1), c, op)
    {
      ExecFlows(cs, me, a, peer, c, op);
    }
  }

  lemma ExecAlone(cs: CS.CS<nat, Tid, int>, me: Tid, a: CS.Alt<nat, int>)
    requires a.op != CS.Nop && a.c in cs.chans && CS.CanExec(cs, a) && CS.PeerOk(cs, a, None)
    ensures var x := CS.Exec(cs, me, [a], 0, None);
            && x.0.chans.Keys == cs.chans.Keys && (a.op == CS.Snd ==> x.1 == a.v)
            && x.0.sets == cs.sets && x.0.fired == cs.fired
  {
  }

  lemma ExecMeets(cs: CS.CS<nat, Tid, int>, me: Tid, a: CS.Alt<nat, int>, e: CS.Entry<Tid>)
    requires a.op != CS.Nop && a.c in cs.chans && CS.CanExec(cs, a) && CS.PeerOk(cs, a, Some(e))
    requires CP.EntryOk(cs, a.c, CS.Other(a.op), e) && cs.fired.Keys !! cs.sets.Keys
    ensures var x := CS.Exec(cs, me, [a], 0, Some(e));
            && x.0.chans.Keys == cs.chans.Keys && (a.op == CS.Snd ==> x.1 == a.v)
            && e.k in cs.sets && e.i < |cs.sets[e.k]| && e.k !in cs.fired && x.0.sets == cs.sets - {e.k}
            && e.k in x.0.fired && x.0.fired == cs.fired[e.k := x.0.fired[e.k]]
            && x.0.fired[e.k].i == e.i
            && var f := x.0.fired[e.k];
               f.a == cs.sets[e.k][e.i] && f.a.c == a.c && f.a.op == CS.Other(a.op) && (f.a.op == CS.Snd ==> f.v == f.a.v)
  {
  }

  // ---- The tasks at the two ends of the channel, and the rest ----

  /** The task that talks on a channel is at the right end of it. */
  lemma Ends(t: Tid, l: Local, last: nat)
    requires LocalOk(t, l, last) && Talks(l)
    ensures AltOf(l).op == (if Sends(l) then CS.Snd else CS.Rcv)
    ensures Sends(l) ==> AltOf(l).c == t - 1
    ensures !Sends(l) ==> t >= 2 && AltOf(l).c == t - 2
    ensures l.Feed? ==> l.i >= 2
  {
  }

  lemma MyFlow(cs: CS.CS<nat, Tid, int>, cs': CS.CS<nat, Tid, int>, me: Tid, l: Local, v: int, peer: Option<CS.Entry<Tid>>, last: nat)
    requires LocalOk(me, l, last) && Talks(l) && Served(cs, cs', AltOf(l), v, peer)
    requires FlowOk(l, None, Came(cs, me), Went(cs, me))
    ensures FlowOk(After(l, v), None, Came(cs', me), Went(cs', me))
  {
    Ends(me, l, last);
    OwnFlow(cs, cs', me, l, v, peer, last);
    hide LocalOk; hide Served; hide FlowOk; hide Came; hide Went;
    CommitFlow(l, Came(cs, me), Went(cs, me), v);
    FinishFlow(l, Came(cs', me), Went(cs', me), v);
  }

  lemma SendValues(
    cs: CS.CS<nat, Tid, int>, cs': CS.CS<nat, Tid, int>, a: CS.Alt<nat, int>, v: int, peer: Option<CS.Entry<Tid>>)
    requires Served(cs, cs', a, v, peer)
    ensures a.op == CS.Snd ==> v == a.v
    ensures peer.Some? ==> peer.value.k in cs'.fired
    ensures peer.Some? ==> cs'.fired[peer.value.k].a.c == a.c && cs'.fired[peer.value.k].a.op == CS.Other(a.op)
    ensures peer.Some? && cs'.fired[peer.value.k].a.op == CS.Snd ==>
              cs'.fired[peer.value.k].v == cs'.fired[peer.value.k].a.v
  {
    hide Flowed;
  }

  /** What one end of a channel gains: the element of whoever is at that end, if anybody. */
  function Gain(
    cs': CS.CS<nat, Tid, int>, a: CS.Alt<nat, int>, v: int, peer: Option<CS.Entry<Tid>>, c: nat, op: CS.AOp): seq<int>
  {
    if a.c != c then []
    else if a.op == op then [v]
    else if peer.Some? && peer.value.k in cs'.fired then [cs'.fired[peer.value.k].v]
    else []
  }

  lemma EndGains(
    cs: CS.CS<nat, Tid, int>, cs': CS.CS<nat, Tid, int>, a: CS.Alt<nat, int>, v: int, peer: Option<CS.Entry<Tid>>,
    c: nat, op: CS.AOp)
    requires Served(cs, cs', a, v, peer) && a.op != CS.Nop && op != CS.Nop
    ensures Flowed(cs', c, op) == Flowed(cs, c, op) + Gain(cs', a, v, peer, c, op)
  {
    SendValues(cs, cs', a, v, peer);
    var s := Flowed(cs, c, op);
    assert Flowed(cs', c, op) == s + PeerAdds(cs', peer, c, op) + Adds(CS.Fired(0, a, v), c, op);
    hide Flowed; hide Served;
    GainIs(s, cs', a, v, peer, c, op);
  }

  lemma GainIs(
    s: seq<int>, cs': CS.CS<nat, Tid, int>, a: CS.Alt<nat, int>, v: int, peer: Option<CS.Entry<Tid>>, c: nat, op: CS.AOp)
    requires a.op != CS.Nop && op != CS.Nop
    requires peer.Some? ==> peer.value.k in cs'.fired
    requires peer.Some? ==> cs'.fired[peer.value.k].a.c == a.c && cs'.fired[peer.value.k].a.op == CS.Other(a.op)
    ensures s + PeerAdds(cs', peer, c, op) + Adds(CS.Fired(0, a, v), c, op) == s + Gain(cs', a, v, peer, c, op)
  {
  }

  /** What has left a task's incoming channel, and what has entered its outgoing one. */
  lemma EndsGrow(
    cs: CS.CS<nat, Tid, int>, cs': CS.CS<nat, Tid, int>, a: CS.Alt<nat, int>, v: int, peer: Option<CS.Entry<Tid>>, t: Tid)
    requires Served(cs, cs', a, v, peer) && a.op != CS.Nop
    ensures t >= 1 ==> Went(cs', t) == Went(cs, t) + Gain(cs', a, v, peer, t - 1, CS.Snd)
    ensures t >= 2 ==> Came(cs', t) == Came(cs, t) + Gain(cs', a, v, peer, t - 2, CS.Rcv)
    ensures t < 2 ==> Came(cs', t) == Came(cs, t)
    ensures t < 1 ==> Went(cs', t) == Went(cs, t)
  {
    hide *;
    EndsAre(cs, t);
    EndsAre(cs', t);
    if t >= 1 { EndGains(cs, cs', a, v, peer, t - 1, CS.Snd); }
    if t >= 2 { EndGains(cs, cs', a, v, peer, t - 2, CS.Rcv); }
  }

  lemma EndsAre(cs: CS.CS<nat, Tid, int>, t: Tid)
    ensures Came(cs, t) == if t >= 2 then Flowed(cs, t - 2, CS.Rcv) else []
    ensures Went(cs, t) == if t >= 1 then Flowed(cs, t - 1, CS.Snd) else []
  {
  }

  lemma OwnFlow(cs: CS.CS<nat, Tid, int>, cs': CS.CS<nat, Tid, int>, me: Tid, l: Local, v: int, peer: Option<CS.Entry<Tid>>, last: nat)
    requires LocalOk(me, l, last) && Talks(l) && Served(cs, cs', AltOf(l), v, peer)
    ensures Came(cs', me) == if Sends(l) then Came(cs, me) else Came(cs, me) + [v]
    ensures Went(cs', me) == if Sends(l) then Went(cs, me) + [v] else Went(cs, me)
    ensures Sends(l) ==> v == AltOf(l).v
  {
    Ends(me, l, last);
    SendValues(cs, cs', AltOf(l), v, peer);
    EndsGrow(cs, cs', AltOf(l), v, peer, me);
    hide Served; hide Came; hide Went; hide LocalOk; hide AltOf; hide Sends; hide Talks;
  }

  lemma PeerFlow(cs: CS.CS<nat, Tid, int>, cs': CS.CS<nat, Tid, int>, a: CS.Alt<nat, int>, v: int, e: CS.Entry<Tid>, l: Local, last: nat)
    requires LocalOk(e.k, l, last) && Talks(l) && Served(cs, cs', a, v, Some(e)) && cs'.fired[e.k].a == AltOf(l)
    requires FlowOk(l, None, Came(cs, e.k), Went(cs, e.k))
    ensures FlowOk(l, Some(cs'.fired[e.k].v), Came(cs', e.k), Went(cs', e.k))
  {
    Ends(e.k, l, last);
    TheirFlow(cs, cs', a, v, e, l, last);
    var y := cs'.fired[e.k].v;
    hide LocalOk; hide Served; hide FlowOk; hide Came; hide Went;
    CommitFlow(l, Came(cs, e.k), Went(cs, e.k), y);
  }

  lemma TheirFlow(cs: CS.CS<nat, Tid, int>, cs': CS.CS<nat, Tid, int>, a: CS.Alt<nat, int>, v: int, e: CS.Entry<Tid>, l: Local, last: nat)
    requires LocalOk(e.k, l, last) && Talks(l) && Served(cs, cs', a, v, Some(e)) && cs'.fired[e.k].a == AltOf(l)
    ensures var y := cs'.fired[e.k].v;
            && Came(cs', e.k) == (if Sends(l) then Came(cs, e.k) else Came(cs, e.k) + [y])
            && Went(cs', e.k) == (if Sends(l) then Went(cs, e.k) + [y] else Went(cs, e.k))
            && (Sends(l) ==> y == AltOf(l).v)
  {
    Ends(e.k, l, last);
    SendValues(cs, cs', a, v, Some(e));
    assert a.op != CS.Nop;
    EndsGrow(cs, cs', a, v, Some(e), e.k);
    hide Served; hide Came; hide Went; hide LocalOk; hide AltOf; hide Sends; hide Talks;
  }

  /** A task at neither end of the channel. */
  lemma OtherFlow(cs: CS.CS<nat, Tid, int>, cs': CS.CS<nat, Tid, int>, me: Tid, l: Local, v: int, peer: Option<CS.Entry<Tid>>, pl: Local, t: Tid, last: nat)
    requires LocalOk(me, l, last) && Talks(l) && Served(cs, cs', AltOf(l), v, peer) && t != me
    requires peer.Some? ==> LocalOk(peer.value.k, pl, last) && Talks(pl) && cs'.fired[peer.value.k].a == AltOf(pl) && t != peer.value.k
    ensures Came(cs', t) == Came(cs, t) && Went(cs', t) == Went(cs, t)
  {
    Ends(me, l, last);
    SendValues(cs, cs', AltOf(l), v, peer);
    if peer.Some? { Ends(peer.value.k, pl, last); }
    EndsGrow(cs, cs', AltOf(l), v, peer, t);
    hide Served; hide Came; hide Went; hide LocalOk; hide AltOf; hide Sends; hide Talks;
  }
}
