/** The sieve prints the primes, in order, whatever the scheduler, rand() and the channel sizes do; and it never gets stuck. */
module SieveTheorems {
  import opened Util
  import opened World
  import opened Runs
  import opened Primes
  import opened Sieve
  import opened SieveFlow
  import opened SieveProofs
  import CS = ChanSpec
  import CP = ChanProofs
  import CH = ChanHistory

  // ---- What flows through each channel ----

  lemma {:induction false} FilterPrefix(p: int, u: seq<int>, s: seq<int>)
    requires u <= s
    ensures Filter(p, u) <= Filter(p, s)
    decreases |s|
  {
    if u != s {
      var n := |s| - 1;
      assert u <= s[..n];
      FilterPrefix(p, u, s[..n]);
    }
  }

  /** A stage has passed on part of what its prime does not divide. */
  lemma SentIsFiltered(l: Local, f: Option<int>, r: seq<int>, s: seq<int>)
    requires FlowOk(l, f, r, s) && HasPrinted(l)
    ensures s <= Filter(l.p, r)
  {
    if r != [] {
      assert Front(r) <= r;
      FilterPrefix(l.p, Front(r), r);
    }
  }

  /** What has left a channel is the beginning of what has entered it. */
  lemma LeftEntered(cs: CS.CS<nat, Tid, int>, c: nat)
    requires CP.Inv(cs) && c in cs.chans
    ensures Flowed(cs, c, CS.Rcv) <= Flowed(cs, c, CS.Snd)
  {
    assert CP.Fifo(cs.chans[c]);
  }

  /** The task that sends on channel `c > 0`. */
  lemma Sender(goal: int, x: Sieve, c: nat)
    requires Topology(x) && Output(goal, x) && 0 < c < x.nchan
    ensures c + 1 in x.locals && HasPrinted(x.locals[c + 1])
    ensures c <= |x.printed| && x.printed[c - 1] == x.locals[c + 1].p
  {
    hide PrimesBelow;
    assert LocalOk(c + 1, x.locals[c + 1], x.w.s.idgen);
    assert x.printed[(c + 1) - 2] == x.printed[c - 1];
  }

  lemma FirstChannel(goal: int, x: Sieve)
    requires Topology(x) && Flow(x) && 0 < x.nchan
    ensures IsStream(Flowed(x.w.cs, 0, CS.Snd), [])
  {
    assert LocalOk(1, x.locals[1], x.w.s.idgen) && TaskFlow(x, 1);
    var i := if x.locals[1].Feed? then (if Moved(x.w.cs, 1).Some? then x.locals[1].i + 1 else x.locals[1].i) else 0;
    assert Flowed(x.w.cs, 0, CS.Snd) == Survivors(i, []);
  }

  /** One stage: what enters, what arrives, and what is passed on. */
  lemma NextStream(sent: seq<int>, came: seq<int>, went: seq<int>, ps: seq<int>, p: int)
    requires IsStream(sent, ps) && came <= sent && went <= Filter(p, came)
    ensures IsStream(went, ps + [p])
  {
    hide IsStream; hide Filter;
    FilterPrefix(p, came, sent);
    StreamFilter(p, sent, ps);
    StreamPrefix(Filter(p, sent), went, ps + [p]);
  }

  lemma ChannelExists(x: Sieve, c: nat)
    requires Topology(x)
    ensures c in x.w.cs.chans <==> c < x.nchan
  {
  }

  /**
   Channel `c` carries, in order, the beginning of the numbers from 2 up that none of the
   first `c` primes printed divides.
   */
  lemma {:induction false} ChannelStream(goal: int, x: Sieve, c: nat)
    requires CP.Inv(x.w.cs) && Topology(x) && Flow(x) && Output(goal, x) && c < x.nchan
    ensures c <= |x.printed| && IsStream(Flowed(x.w.cs, c, CS.Snd), x.printed[..c])
  {
    hide *;
    if c == 0 {
      FirstChannel(goal, x);
      assert x.printed[..0] == [];
    } else {
      Sender(goal, x, c);
      ChannelStream(goal, x, c - 1);
      var cs, p, ps := x.w.cs, x.printed[c - 1], x.printed[..c - 1];
      ChannelExists(x, c - 1);
      LeftEntered(cs, c - 1);
      TaskSent(x, c + 1);
      NextStream(Flowed(cs, c - 1, CS.Snd), Flowed(cs, c - 1, CS.Rcv), Flowed(cs, c, CS.Snd), ps, p);
      assert ps + [p] == x.printed[..c];
    }
  }

  lemma TaskSent(x: Sieve, t: Tid)
    requires Flow(x) && t in x.locals && HasPrinted(x.locals[t]) && t >= 2
    ensures Flowed(x.w.cs, t - 1, CS.Snd) <= Filter(x.locals[t].p, Flowed(x.w.cs, t - 2, CS.Rcv))
  {
    assert TaskFlow(x, t);
    hide FlowOk;
    SentIsFiltered(x.locals[t], Moved(x.w.cs, t), Came(x.w.cs, t), Went(x.w.cs, t));
  }

  /** The number that the last task has received is the next prime. */
  lemma CheckIsPrime(goal: int, x: Sieve, t: Tid)
    requires CP.Inv(x.w.cs) && Topology(x) && Flow(x) && Output(goal, x)
    requires t in x.locals && x.locals[t].Check?
    ensures var p := x.locals[t].p;
            IsPrime(p) && x.printed == PrimesBelow(p) && x.printed + [p] == PrimesBelow(p + 1)
  {
    hide *;
    var c, p := LastChannel(goal, x, t);
    ChannelStream(goal, x, c);
    LeftEntered(x.w.cs, c);
    assert x.printed[..c] == x.printed;
    var m := PrintedSoFar(goal, x);
    HeadIsNextPrime(Flowed(x.w.cs, c, CS.Snd), x.printed, m);
  }

  lemma PrintedSoFar(goal: int, x: Sieve) returns (m: int)
    requires Output(goal, x)
    ensures x.printed == PrimesBelow(m)
  {
    m :| x.printed == PrimesBelow(m);
  }

  lemma LastChannel(goal: int, x: Sieve, t: Tid) returns (c: nat, p: int)
    requires Topology(x) && Flow(x) && Output(goal, x) && t in x.locals && x.locals[t].Check?
    ensures p == x.locals[t].p && c < x.nchan && c == |x.printed| && c in x.w.cs.chans
    ensures Flowed(x.w.cs, c, CS.Rcv) == [p]
  {
    hide PrimesBelow;
    assert LocalOk(t, x.locals[t], x.w.s.idgen) && TaskFlow(x, t);
    c, p := t - 2, x.locals[t].p;
  }

  // ---- Creating a channel, creating a task, exiting ----

  lemma NewChannelFlow(cs: CS.CS<nat, Tid, int>, c: nat, b: nat, t: Tid)
    requires c !in cs.chans
    ensures SameChannels(cs, CS.AddChan(cs, c, b), t)
  {
    var cs' := CS.AddChan(cs, c, b);
    assert t >= 2 ==> Vals(CH.Log(cs', t - 2, CS.Rcv)) == Vals(CH.Log(cs, t - 2, CS.Rcv));
    assert t >= 1 ==> Vals(CH.Log(cs', t - 1, CS.Snd)) == Vals(CH.Log(cs, t - 1, CS.Snd));
  }

  ghost function WithChannel(x: Sieve, me: Tid, w': World): Sieve
    requires me in x.locals
  {
    x.(w := w', locals := x.locals[me := GotChannel(x.locals[me], x.nchan)], nchan := x.nchan + 1,
       printed := x.printed + Prints(x.locals[me]))
  }

  lemma AtChannel(x: Sieve, me: Tid)
    requires Topology(x) && me in x.locals && (x.locals[me].Begin? || x.locals[me].Check?)
    ensures me == x.w.s.idgen && LocalOk(me, GotChannel(x.locals[me], x.nchan), me)
    ensures x.nchan == me - 1 && (x.locals[me].Begin? <==> me == 1)
  {
    assert LocalOk(me, x.locals[me], x.w.s.idgen);
  }

  lemma ChannelTopology(x: Sieve, me: Tid, w': World)
    requires Topology(x) && me in x.locals && me == x.w.s.idgen && x.nchan == me - 1
    requires LocalOk(me, GotChannel(x.locals[me], x.nchan), me) && (x.locals[me].Begin? || x.locals[me].Check?)
    requires w'.cs.chans.Keys == x.w.cs.chans.Keys + {x.nchan} && w'.s.idgen == x.w.s.idgen
    ensures Topology(WithChannel(x, me, w'))
  {
    hide LocalOk;
    assert Growing(GotChannel(x.locals[me], x.nchan));
    hide Growing; hide GotChannel;
  }

  lemma ChannelBlocked(x: Sieve, me: Tid, w': World)
    requires Blocked(x) && me in x.locals && me !in x.w.cs.fired && me !in x.w.cs.sets
    requires w'.cs.sets == x.w.cs.sets && w'.cs.fired == x.w.cs.fired && w'.pc == x.w.pc && w'.s.system == x.w.s.system
    ensures Blocked(WithChannel(x, me, w'))
  {
    hide AltOf; hide GotChannel;
  }

  lemma ChannelTasks(x: Sieve, me: Tid, b: nat, w': World)
    requires Topology(x) && Flow(x) && me in x.locals && (x.locals[me].Begin? || x.locals[me].Check?)
    requires w'.cs == CS.AddChan(x.w.cs, x.nchan, b)
    ensures Flow(WithChannel(x, me, w'))
  {
    var x' := WithChannel(x, me, w');
    ChannelExists(x, x.nchan);
    NothingSent(x, me);
    hide Topology; hide LocalOk; hide CS.AddChan; hide TaskFlow;
    forall t | t in x'.locals ensures TaskFlow(x', t) {
      NewChannelFlow(x.w.cs, x.nchan, b, t);
      ChannelTask(x, me, w', t);
    }
  }

  lemma ChannelTask(x: Sieve, me: Tid, w': World, t: Tid)
    requires me in x.locals && (x.locals[me].Begin? || x.locals[me].Check?) && Went(x.w.cs, me) == []
    requires t in x.locals && TaskFlow(x, t) && SameChannels(x.w.cs, w'.cs, t)
    ensures TaskFlow(WithChannel(x, me, w'), t)
  {
    hide Came; hide Went; hide Moved;
  }

  /** A task that has no outgoing channel yet has sent nothing. */
  lemma NothingSent(x: Sieve, me: Tid)
    requires Topology(x) && me in x.locals && (x.locals[me].Begin? || x.locals[me].Check?)
    ensures Went(x.w.cs, me) == []
  {
    assert LocalOk(me, x.locals[me], x.w.s.idgen);
  }

  lemma ChannelOutput(goal: int, x: Sieve, me: Tid, w': World)
    requires CP.Inv(x.w.cs) && Topology(x) && Flow(x) && Output(goal, x)
    requires me in x.locals && (x.locals[me].Begin? || (x.locals[me].Check? && x.locals[me].p <= goal))
    requires w'.status == x.w.status == Going
    ensures Output(goal, WithChannel(x, me, w'))
  {
    hide *;
    var m := NextPrinted(goal, x, me);
    AtChannel(x, me);
    PrintsOne(goal, x, me, w', m);
  }

  lemma PrintsOne(goal: int, x: Sieve, me: Tid, w': World, m: int)
    requires me in x.locals && Output(goal, x) && x.printed + Prints(x.locals[me]) == PrimesBelow(m)
    requires (x.locals[me].Begin? || (x.locals[me].Check? && x.locals[me].p <= goal))
    requires x.nchan == me - 1 && (x.locals[me].Begin? <==> me == 1) && w'.status == x.w.status == Going
    ensures Output(goal, WithChannel(x, me, w'))
  {
    hide PrimesBelow;
  }

  lemma NextPrinted(goal: int, x: Sieve, me: Tid) returns (m: int)
    requires CP.Inv(x.w.cs) && Topology(x) && Flow(x) && Output(goal, x)
    requires me in x.locals && (x.locals[me].Begin? || x.locals[me].Check?)
    ensures x.printed + Prints(x.locals[me]) == PrimesBelow(m)
  {
    if x.locals[me].Check? {
      CheckIsPrime(goal, x, me);
      m := x.locals[me].p + 1;
    } else {
      m := PrintedSoFar(goal, x);
      assert x.printed + [] == x.printed;
    }
  }

  lemma ChannelStep(goal: int, x: Sieve, me: Tid, b: nat, w': World)
    requires Good(goal, x) && CP.Inv(x.w.cs) && me !in x.w.cs.fired && me !in x.w.cs.sets
    requires me in x.locals && (x.locals[me].Begin? || (x.locals[me].Check? && x.locals[me].p <= goal))
    requires w' == DoChanCreate(x.w, x.nchan, b) && w'.status == Going
    ensures Good(goal, WithChannel(x, me, w'))
  {
    hide *;
    GoodParts(goal, x);
    CreateView(x.w, x.nchan, b);
    AtChannel(x, me);
    ChannelTopology(x, me, w');
    ChannelBlocked(x, me, w');
    ChannelTasks(x, me, b, w');
    ChannelOutput(goal, x, me, w');
    GoodParts(goal, WithChannel(x, me, w'));
  }

  lemma CreateView(w: World, c: nat, b: nat)
    ensures var w' := DoChanCreate(w, c, b);
            && w'.cs == CS.AddChan(w.cs, c, b) && w'.cs.sets == w.cs.sets && w'.cs.fired == w.cs.fired
            && w'.cs.chans.Keys == w.cs.chans.Keys + {c}
            && w'.pc == w.pc && w'.s == w.s && w'.status == w.status
  {
  }

  ghost function WithTask(x: Sieve, me: Tid, w': World): Sieve
    requires me in x.locals
  {
    x.(w := w', locals := x.locals[me := Forked(x.locals[me])][x.w.s.idgen + 1 := First(Handed(x.locals[me]))])
  }

  lemma AtTask(x: Sieve, me: Tid)
    requires Topology(x) && me in x.locals && Growing(x.locals[me])
    ensures me == x.w.s.idgen == x.nchan && me + 1 !in x.locals && me >= 1
    ensures LocalOk(me, Forked(x.locals[me]), me + 1) && LocalOk(me + 1, First(Handed(x.locals[me])), me + 1)
  {
    assert LocalOk(me, x.locals[me], x.w.s.idgen);
  }

  /** The tasks before the last one stay as they are when the chain grows. */
  lemma LocalKept(t: Tid, l: Local, last: nat)
    requires LocalOk(t, l, last) && t != last
    ensures LocalOk(t, l, last + 1)
  {
  }

  lemma TaskTopology(x: Sieve, me: Tid, w': World)
    requires Topology(x) && me in x.locals && Growing(x.locals[me]) && me == x.w.s.idgen == x.nchan && me + 1 !in x.locals
    requires LocalOk(me, Forked(x.locals[me]), me + 1) && LocalOk(me + 1, First(Handed(x.locals[me])), me + 1)
    requires w'.cs == x.w.cs && w'.s.idgen == x.w.s.idgen + 1
    ensures Topology(WithTask(x, me, w'))
  {
    var x' := WithTask(x, me, w');
    hide LocalOk; hide Forked; hide Handed;
    forall t: Tid | t in x'.locals ensures LocalOk(t, x'.locals[t], me + 1) {
      if t != me && t != me + 1 { LocalKept(t, x.locals[t], me); }
    }
  }

  lemma TaskBlocked(x: Sieve, me: Tid, w': World)
    requires Blocked(x) && me in x.locals && x.w.s.idgen + 1 !in x.locals
    requires me !in x.w.cs.fired && me !in x.w.cs.sets
    requires w'.cs == x.w.cs && w'.pc == x.w.pc[x.w.s.idgen + 1 := User] && w'.s.system == x.w.s.system
    ensures Blocked(WithTask(x, me, w'))
  {
    hide AltOf; hide Forked;
  }

  /** Nothing has left the channel that is handed to a new task. */
  lemma HandedIsFresh(x: Sieve, me: Tid)
    requires CP.Inv(x.w.cs) && Topology(x) && Flow(x) && me in x.locals && Growing(x.locals[me])
    ensures Came(x.w.cs, me + 1) == []
  {
    hide *;
    AtTask(x, me);
    ChannelExists(x, me - 1);
    LeftEntered(x.w.cs, me - 1);
    GrowerFlow(x, me);
    EndsAre(x.w.cs, me + 1);
  }

  lemma GrowerFlow(x: Sieve, me: Tid)
    requires Flow(x) && me in x.locals && Growing(x.locals[me]) && me >= 1
    ensures Went(x.w.cs, me) == Flowed(x.w.cs, me - 1, CS.Snd) == []
    ensures x.locals[me].Grow? ==> Came(x.w.cs, me) == [x.locals[me].p]
  {
    assert TaskFlow(x, me);
  }

  lemma FirstFlow(l: Local, r: seq<int>)
    requires Growing(l) && (l.Grow? ==> r == [l.p] && l.p >= 2)
    ensures FlowOk(Forked(l), None, r, [])
    ensures FlowOk(First(Handed(l)), None, [], [])
  {
    if l.Grow? { assert Filter(l.p, r) == Filter(l.p, []); }
  }

  lemma TaskFlows(goal: int, x: Sieve, me: Tid, w': World)
    requires CP.Inv(x.w.cs) && Topology(x) && Blocked(x) && Flow(x) && Output(goal, x)
    requires me in x.locals && Growing(x.locals[me]) && me !in x.w.cs.fired && w'.cs == x.w.cs
    ensures Flow(WithTask(x, me, w'))
  {
    hide *;
    HandedIsFresh(x, me);
    AtTask(x, me);
    GrowerFlow(x, me);
    PrintedIsPrime(goal, x, me);
    GrowPrints(x.locals[me]);
    FirstFlow(x.locals[me], Came(x.w.cs, me));
    NobodyMoved(x, me + 1);
    NewTaskFlow(x, me, w');
  }

  lemma GrowPrints(l: Local)
    ensures l.Grow? ==> HasPrinted(l)
  {
  }

  lemma NobodyMoved(x: Sieve, t: Tid)
    requires Topology(x) && Blocked(x) && t !in x.locals && t >= 1
    ensures Moved(x.w.cs, t) == None
    ensures t > x.w.s.idgen ==> Went(x.w.cs, t) == []
  {
    assert t > x.w.s.idgen ==> t - 1 !in x.w.cs.chans || t == x.w.s.idgen + 1;
    if t == x.w.s.idgen + 1 { assert x.w.s.idgen !in x.w.cs.chans; }
  }

  lemma NewTaskFlow(x: Sieve, me: Tid, w': World)
    requires Flow(x) && me in x.locals && me == x.w.s.idgen && me !in x.w.cs.fired && w'.cs == x.w.cs
    requires Came(x.w.cs, me + 1) == [] && Went(x.w.cs, me) == []
    requires Moved(x.w.cs, me + 1) == None && Went(x.w.cs, me + 1) == []
    requires FlowOk(Forked(x.locals[me]), None, Came(x.w.cs, me), [])
    requires FlowOk(First(Handed(x.locals[me])), None, [], [])
    ensures Flow(WithTask(x, me, w'))
  {
    var x' := WithTask(x, me, w');
    hide FlowOk; hide Came; hide Went; hide Forked; hide Handed;
    forall t | t in x'.locals ensures TaskFlow(x', t) {
      if t != me && t != me + 1 { assert TaskFlow(x, t); }
    }
  }

  lemma PrintedIsPrime(goal: int, x: Sieve, me: Tid)
    requires Output(goal, x) && me in x.locals
    ensures HasPrinted(x.locals[me]) ==> x.locals[me].p >= 2
  {
    var m := PrintedSoFar(goal, x);
    PrimesBelowIs(m);
    assert HasPrinted(x.locals[me]) ==> x.printed[me - 2] in x.printed;
  }

  lemma TaskOutput(goal: int, x: Sieve, me: Tid, w': World)
    requires Output(goal, x) && me in x.locals && w'.status == x.w.status && x.w.s.idgen + 1 !in x.locals
    ensures Output(goal, WithTask(x, me, w'))
  {
    hide PrimesBelow;
    assert HasPrinted(Forked(x.locals[me])) ==> HasPrinted(x.locals[me]) && Forked(x.locals[me]).p == x.locals[me].p;
    hide Forked;
  }
}
