/** The two theorems about every run of the sieve: what it prints, and that it never gets stuck. */
module SieveRuns {
  import opened Util
  import opened World
  import opened Places
  import opened PcProofs
  import opened Parts
  import opened Runs
  import opened Primes
  import opened Sieve
  import opened SieveFlow
  import opened SieveProofs
  import opened SieveTheorems
  import CS = ChanSpec
  import CP = ChanProofs
  import LT = LockTheorems

  lemma SieveParts(goal: int, x: Sieve)
    ensures SieveInv(goal, x) <==> Inv(x.w) && Good(goal, x)
    ensures SieveInv(goal, x) ==> CP.Inv(x.w.cs) && Topology(x) && Blocked(x) && Flow(x) && Output(goal, x)
  {
    if SieveInv(goal, x) { LT.InvPlace(x.w); }
    hide Inv; hide Topology; hide Blocked; hide Flow; hide Output; hide PlaceInv; hide PcInv; hide CP.Inv;
  }

  /** The running task is in the chain, and unless it is inside chanalt no peer can serve it. */
  lemma Mine(goal: int, x: Sieve)
    requires SieveInv(goal, x) && x.w.s.running.Some?
    ensures var me := Me(x.w);
            && me in x.locals && me in x.w.pc && me !in x.w.cs.sets
            && (x.w.pc[me] == InAlt ==> me in x.w.cs.fired && Talks(x.locals[me]))
            && (x.w.pc[me] != InAlt ==> x.w.pc[me] == User && me !in x.w.cs.fired)
  {
    LT.InvPlace(x.w);
    RunningNotQueued(x.w, 0);
    MeReady(x.w);
    hide Inv; hide PlaceInv; hide PcInv; hide Topology; hide Flow; hide Output; hide LocalOk; hide AltOf;
  }

  lemma IdleStep(goal: int, buffer: nat, x: Sieve, op: Op)
    requires SieveInv(goal, x) && MayStep(goal, buffer, x, op) && x.w.s.running.None?
    ensures Good(goal, NextSieve(goal, buffer, x, op))
  {
    IdleIsDispatch(goal, buffer, x, op);
    hide *;
    SieveParts(goal, x);
    SieveDispatch(goal, x);
    DispatchView(x.w);
    SameView(goal, x, DoDispatch(x.w));
  }

  lemma IdleIsDispatch(goal: int, buffer: nat, x: Sieve, op: Op)
    requires MayStep(goal, buffer, x, op) && x.w.s.running.None?
    ensures op == SchedDispatch && x.w.status == Going
    ensures NextSieve(goal, buffer, x, op) == x.(w := DoDispatch(x.w))
  {
    hide DoDispatch;
  }

  lemma ReturnIs(goal: int, buffer: nat, x: Sieve, op: Op)
    requires MayStep(goal, buffer, x, op) && x.w.s.running.Some? && x.w.pc[Me(x.w)].InAlt?
    ensures Me(x.w) in x.w.cs.fired && Me(x.w) in x.locals && Talks(x.locals[Me(x.w)])
    ensures var me := Me(x.w);
            var w' := x.w.(pc := x.w.pc[me := User], cs := CS.Resume(x.w.cs, me));
            NextSieve(goal, buffer, x, op) ==
              x.(w := w', locals := x.locals[me := After(x.locals[me], x.w.cs.fired[me].v)])
  {
    ResumeView(x.w, op.now);
    hide DoReturn; hide CS.Resume; hide After; hide Talks;
  }

  lemma ReturnStep(goal: int, buffer: nat, x: Sieve, op: Op)
    requires SieveInv(goal, x) && MayStep(goal, buffer, x, op) && x.w.s.running.Some? && x.w.pc[Me(x.w)].InAlt?
    ensures Good(goal, NextSieve(goal, buffer, x, op))
  {
    ReturnIs(goal, buffer, x, op);
    var me := Me(x.w);
    hide *;
    Mine(goal, x);
    SieveParts(goal, x);
    ResumeStep(goal, x, me, x.w.(pc := x.w.pc[me := User], cs := CS.Resume(x.w.cs, me)));
  }

  lemma CreateIs(goal: int, buffer: nat, x: Sieve, op: Op)
    requires MayStep(goal, buffer, x, op) && op.ChanCreate?
    ensures x.w.s.running.Some? && Me(x.w) in x.locals && Me(x.w) in x.w.pc && x.w.status == Going
    ensures var me := Me(x.w);
            && x.w.pc[me] == User
            && (x.locals[me].Begin? || (x.locals[me].Check? && x.locals[me].p <= goal))
            && NextSieve(goal, buffer, x, op) == WithChannel(x, me, DoChanCreate(x.w, x.nchan, buffer))
  {
    hide DoChanCreate;
  }

  lemma ForkIs(goal: int, buffer: nat, x: Sieve, op: Op)
    requires MayStep(goal, buffer, x, op) && op.TaskCreate?
    ensures x.w.s.running.Some? && Me(x.w) in x.locals && Me(x.w) in x.w.pc && x.w.status == Going
    ensures x.w.pc[Me(x.w)] == User && Growing(x.locals[Me(x.w)])
    ensures NextSieve(goal, buffer, x, op) == WithTask(x, Me(x.w), Spawn(x.w, User))
  {
    hide Spawn; hide Forked; hide Handed;
  }

  lemma ExitIs(goal: int, buffer: nat, x: Sieve, op: Op)
    requires MayStep(goal, buffer, x, op) && op.TaskExitAll?
    ensures x.w.s.running.Some? && Me(x.w) in x.locals && Me(x.w) in x.w.pc && x.w.status == Going
    ensures x.locals[Me(x.w)].Check? && x.locals[Me(x.w)].p > goal
    ensures NextSieve(goal, buffer, x, op) == x.(w := x.w.(status := Exited(0)))
  {
  }

  lemma CreateStep(goal: int, buffer: nat, x: Sieve, op: Op)
    requires SieveInv(goal, x) && MayStep(goal, buffer, x, op) && op.ChanCreate?
    ensures Good(goal, NextSieve(goal, buffer, x, op))
  {
    hide *;
    CreateIs(goal, buffer, x, op);
    Mine(goal, x);
    SieveParts(goal, x);
    CreateView(x.w, x.nchan, buffer);
    ChannelStep(goal, x, Me(x.w), buffer, DoChanCreate(x.w, x.nchan, buffer));
  }

  lemma SpawnView(w: World)
    ensures var w' := Spawn(w, User);
            && w'.cs == w.cs && w'.s.idgen == w.s.idgen + 1 && w'.pc == w.pc[w.s.idgen + 1 := User]
            && w'.s.system == w.s.system && w'.status == w.status
  {
  }

  lemma ForkStep(goal: int, buffer: nat, x: Sieve, op: Op)
    requires SieveInv(goal, x) && MayStep(goal, buffer, x, op) && op.TaskCreate?
    ensures Good(goal, NextSieve(goal, buffer, x, op))
  {
    hide *;
    ForkIs(goal, buffer, x, op);
    Mine(goal, x);
    SieveParts(goal, x);
    SpawnView(x.w);
    var me, w' := Me(x.w), Spawn(x.w, User);
    AtTask(x, me);
    TaskTopology(x, me, w');
    TaskBlocked(x, me, w');
    TaskFlows(goal, x, me, w');
    TaskOutput(goal, x, me, w');
    GoodParts(goal, WithTask(x, me, w'));
  }

  lemma ExitStep(goal: int, buffer: nat, x: Sieve, op: Op)
    requires SieveInv(goal, x) && MayStep(goal, buffer, x, op) && op.TaskExitAll?
    ensures Good(goal, NextSieve(goal, buffer, x, op))
  {
    hide *;
    ExitIs(goal, buffer, x, op);
    SieveParts(goal, x);
    var me := Me(x.w);
    CheckIsPrime(goal, x, me);
    AllPrinted(goal, x);
    AllUpTo(x.printed, x.locals[me].p, goal);
    ExitView(goal, x);
  }

  lemma AllPrinted(goal: int, x: Sieve)
    requires Output(goal, x)
    ensures forall p :: p in x.printed ==> p <= goal
  {
  }

  lemma ExitView(goal: int, x: Sieve)
    requires Good(goal, x) && x.printed == PrimesBelow(goal + 1)
    ensures Good(goal, x.(w := x.w.(status := Exited(0))))
  {
    var w' := x.w.(status := Exited(0));
    hide *;
    GoodParts(goal, x);
    ExitOutput(goal, x);
    KeepBlocked(x, w');
    KeepFlow(x, w') by { forall t ensures SameChannels(x.w.cs, w'.cs, t) { SameCS(x.w.cs, t); } }
    GoodParts(goal, x.(w := w'));
  }

  lemma ExitOutput(goal: int, x: Sieve)
    requires Topology(x) && Output(goal, x) && x.printed == PrimesBelow(goal + 1)
    ensures Topology(x.(w := x.w.(status := Exited(0)))) && Output(goal, x.(w := x.w.(status := Exited(0))))
  {
    hide LocalOk; hide PrimesBelow;
  }

  // ---- Sending and receiving ----

  /** chanalt with a single alternative. */
  lemma SingleAlt(cs: CS.CS<nat, Tid, int>, me: Tid, a: CS.Alt<nat, int>, i: nat, peer: Option<CS.Entry<Tid>>)
    requires CP.Inv(cs) && a.op != CS.Nop && a.c in cs.chans && CS.AltsOk(cs, [a]) && CS.ChoiceOk(cs, [a], i, peer)
    requires me !in cs.sets && me !in cs.fired
    ensures var (cs', out) := CS.ChanAlt(cs, me, [a], true, i, peer);
            if out.Done? then Served(cs, cs', a, out.v, peer) else out.Parked? && cs' == CS.Park(cs, me, [a])
  {
    if CS.AnyExec(cs, [a]) {
      assert i == 0 && CS.CanExec(cs, a) && CS.PeerOk(cs, a, peer);
      ExecServes(cs, me, a, peer);
      var x := CS.Exec(cs, me, [a], 0, peer);
      hide CS.Exec; hide CP.Inv; hide CS.CanExec; hide CS.PeerOk;
      ServedReturned(cs, x.0, me, CS.Fired(0, a, x.1), a, x.1, peer);
    }
  }

  /** The record of what chanalt returned is not part of what has moved. */
  lemma ServedReturned(
    cs: CS.CS<nat, Tid, int>, cs': CS.CS<nat, Tid, int>, me: Tid, f: CS.Fired<nat, int>,
    a: CS.Alt<nat, int>, v: int, peer: Option<CS.Entry<Tid>>)
    requires Served(cs, cs', a, v, peer)
    ensures Served(cs, CS.Returned(cs', me, f), a, v, peer)
  {
    var r := CS.Returned(cs', me, f);
    assert forall c: nat, op: CS.AOp :: Flowed(r, c, op) == Flowed(cs', c, op);
    hide Flowed; hide Adds;
  }

  lemma TalkIs(goal: int, buffer: nat, x: Sieve, op: Op)
    requires MayStep(goal, buffer, x, op) && op.ChanAlt?
    ensures x.w.s.running.Some? && Me(x.w) in x.locals && Me(x.w) in x.w.pc && x.w.status == Going
    ensures x.w.pc[Me(x.w)] == User && Talks(x.locals[Me(x.w)])
    ensures op.alts == [AltOf(x.locals[Me(x.w)])] && op.canblock
    ensures CS.AltsOk(x.w.cs, op.alts) && CS.ChoiceOk(x.w.cs, op.alts, op.i, op.peer)
    ensures var w' := DoAlt(x.w, op.alts, op.canblock, op.i, op.peer);
            var out := CS.ChanAlt(x.w.cs, Me(x.w), op.alts, op.canblock, op.i, op.peer).1;
            NextSieve(goal, buffer, x, op) ==
              if out.Done? then x.(w := w', locals := x.locals[Me(x.w) := After(x.locals[Me(x.w)], out.v)])
              else x.(w := w')
  {
    hide DoAlt; hide CS.ChanAlt; hide AltOf; hide After; hide CS.AltsOk; hide CS.ChoiceOk;
  }

  lemma MyChannel(x: Sieve, me: Tid)
    requires me in x.locals && Talks(x.locals[me]) && CS.AltsOk(x.w.cs, [AltOf(x.locals[me])])
    ensures AltOf(x.locals[me]).op != CS.Nop && AltOf(x.locals[me]).c in x.w.cs.chans
  {
    assert [AltOf(x.locals[me])][0].op != CS.Nop;
  }

  lemma TalkStep(goal: int, buffer: nat, x: Sieve, op: Op)
    requires SieveInv(goal, x) && MayStep(goal, buffer, x, op) && op.ChanAlt?
    ensures Good(goal, NextSieve(goal, buffer, x, op))
  {
    hide *;
    TalkIs(goal, buffer, x, op);
    Mine(goal, x);
    SieveParts(goal, x);
    var me := Me(x.w);
    MyChannel(x, me);
    AltEffect(x.w, op.alts, op.canblock, op.i, op.peer);
    AltView(x.w, op.alts, op.canblock, op.i, op.peer);
    SingleAlt(x.w.cs, me, AltOf(x.locals[me]), op.i, op.peer);
    var w' := DoAlt(x.w, op.alts, op.canblock, op.i, op.peer);
    var out := CS.ChanAlt(x.w.cs, me, op.alts, op.canblock, op.i, op.peer).1;
    if out.Done? {
      DoneStep(goal, x, me, out.v, op.peer, w');
    } else {
      ParkStep(goal, x, me, w');
    }
  }

  lemma Kinds(goal: int, buffer: nat, x: Sieve, op: Op)
    requires MayStep(goal, buffer, x, op) && x.w.s.running.Some? && !x.w.pc[Me(x.w)].InAlt?
    ensures op.ChanCreate? || op.TaskCreate? || op.TaskExitAll? || op.ChanAlt?
  {
  }

  /** Every step keeps the invariant of the sieve. */
  lemma StepSieve(goal: int, buffer: nat, x: Sieve, op: Op)
    requires SieveInv(goal, x) && MayStep(goal, buffer, x, op)
    ensures SieveInv(goal, NextSieve(goal, buffer, x, op))
    ensures NextSieve(goal, buffer, x, op).w == Next(x.w, op)
  {
    WorldStep(goal, buffer, x, op);
    hide *;
    SieveParts(goal, x);
    StepInv(x.w, op);
    if x.w.s.running.None? {
      IdleStep(goal, buffer, x, op);
    } else if x.w.pc[Me(x.w)].InAlt? {
      ReturnStep(goal, buffer, x, op);
    } else {
      Kinds(goal, buffer, x, op);
      if op.ChanCreate? {
        CreateStep(goal, buffer, x, op);
      } else if op.TaskCreate? {
        ForkStep(goal, buffer, x, op);
      } else if op.TaskExitAll? {
        ExitStep(goal, buffer, x, op);
      } else {
        TalkStep(goal, buffer, x, op);
      }
    }
    SieveParts(goal, NextSieve(goal, buffer, x, op));
  }

  lemma WorldStep(goal: int, buffer: nat, x: Sieve, op: Op)
    requires MayStep(goal, buffer, x, op)
    ensures Enabled(x.w, op) && NextSieve(goal, buffer, x, op).w == Next(x.w, op)
    ensures x.w.s.running.Some? ==> Me(x.w) in x.w.pc
  {
    hide Next; hide Enabled;
  }

  // ---- Progress ----

  /** rand() always has a peer to pick when there is one. */
  lemma SomePeer(cs: CS.CS<nat, Tid, int>, a: CS.Alt<nat, int>) returns (peer: Option<CS.Entry<Tid>>)
    requires CP.Inv(cs) && a.op != CS.Nop && a.c in cs.chans
    ensures CS.PeerOk(cs, a, peer)
  {
    var opp := CS.Side(cs.chans[a.c], CS.Other(a.op));
    if e :| e in opp {
      assert CP.EntryOk(cs, a.c, CS.Other(a.op), e);
      peer := Some(e);
    } else {
      peer := None;
    }
  }

  lemma ItsChannel(x: Sieve, me: Tid)
    requires Topology(x) && me in x.locals && Talks(x.locals[me])
    ensures AltOf(x.locals[me]).op != CS.Nop && AltOf(x.locals[me]).c in x.w.cs.chans
    ensures CS.AltsOk(x.w.cs, [AltOf(x.locals[me])])
  {
    assert LocalOk(me, x.locals[me], x.w.s.idgen);
    Ends(me, x.locals[me], x.w.s.idgen);
  }

  lemma TalkOp(goal: int, buffer: nat, x: Sieve) returns (op: Op)
    requires Topology(x) && CP.Inv(x.w.cs) && x.w.status == Going && x.w.s.running.Some?
    requires Me(x.w) in x.locals && Me(x.w) in x.w.pc && x.w.pc[Me(x.w)] == User && Talks(x.locals[Me(x.w)])
    ensures MayStep(goal, buffer, x, op)
  {
    var a := AltOf(x.locals[Me(x.w)]);
    ItsChannel(x, Me(x.w));
    var peer := SomePeer(x.w.cs, a);
    op := ChanAlt([a], true, 0, peer);
    hide CP.Inv; hide Topology; hide AltOf; hide CS.PeerOk; hide CS.CanExec; hide Talks;
    assert CS.ChoiceOk(x.w.cs, [a], 0, peer) by {
      assert CS.AnyExec(x.w.cs, [a]) ==> CS.CanExec(x.w.cs, a);
      hide CS.AltsOk;
    }
    TalkMayStep(goal, buffer, x, op);
  }

  lemma TalkMayStep(goal: int, buffer: nat, x: Sieve, op: Op)
    requires x.w.status == Going && x.w.s.running.Some? && op.ChanAlt? && op.canblock
    requires Me(x.w) in x.locals && Me(x.w) in x.w.pc && x.w.pc[Me(x.w)] == User && Talks(x.locals[Me(x.w)])
    requires op.alts == [AltOf(x.locals[Me(x.w)])]
    requires CS.AltsOk(x.w.cs, op.alts) && CS.ChoiceOk(x.w.cs, op.alts, op.i, op.peer)
    ensures MayStep(goal, buffer, x, op)
  {
    hide CS.AltsOk; hide CS.ChoiceOk; hide AltOf;
  }

  lemma OtherOp(goal: int, buffer: nat, x: Sieve) returns (op: Op)
    requires x.w.status == Going && x.w.s.running.Some? && x.nchan !in x.w.cs.chans
    requires Me(x.w) in x.locals && Me(x.w) in x.w.pc && x.w.pc[Me(x.w)] == User && !Talks(x.locals[Me(x.w)])
    ensures MayStep(goal, buffer, x, op)
  {
    var l := x.locals[Me(x.w)];
    if Growing(l) {
      op := TaskCreate;
    } else if l.Check? && l.p > goal {
      op := TaskExitAll(0);
    } else {
      op := ChanCreate(x.nchan, buffer);
    }
  }

  /** Unless it has exited, the program can go on. */
  lemma CanGoOn(goal: int, buffer: nat, x: Sieve) returns (op: Op)
    requires SieveInv(goal, x) && x.w.status == Going
    ensures MayStep(goal, buffer, x, op)
  {
    if x.w.s.running.None? {
      op := SchedDispatch;
    } else {
      hide *;
      Mine(goal, x);
      SieveParts(goal, x);
      ChannelExists(x, x.nchan);
      var me := Me(x.w);
      if x.w.pc[me] == InAlt {
        op := Return(x.w.clock);
        ReturnMayStep(goal, buffer, x);
      } else if Talks(x.locals[me]) {
        op := TalkOp(goal, buffer, x);
      } else {
        op := OtherOp(goal, buffer, x);
      }
    }
  }

  lemma ReturnMayStep(goal: int, buffer: nat, x: Sieve)
    requires x.w.status == Going && x.w.s.running.Some? && Me(x.w) in x.locals && Me(x.w) in x.w.pc
    requires x.w.pc[Me(x.w)] == InAlt && Me(x.w) in x.w.cs.fired && Talks(x.locals[Me(x.w)])
    ensures MayStep(goal, buffer, x, Return(x.w.clock))
  {
  }

  // ---- Every run ----

  lemma {:induction false} SieveRunInv(goal: int, buffer: nat, xs: seq<Sieve>, ops: seq<Op>, i: nat)
    requires IsSieveRun(goal, buffer, xs, ops) && i < |xs|
    ensures SieveInv(goal, xs[i])
  {
    hide SieveInv; hide MayStep; hide NextSieve; hide Start;
    if i == 0 {
      StartInv(goal);
    } else {
      SieveRunInv(goal, buffer, xs, ops, i - 1);
      StepSieve(goal, buffer, xs[i - 1], ops[i - 1]);
    }
  }

  /** A run of the sieve is a run of the library, so every theorem about the library holds in it. */
  lemma SieveIsRun(goal: int, buffer: nat, xs: seq<Sieve>, ops: seq<Op>)
    requires IsSieveRun(goal, buffer, xs, ops)
    ensures IsRun(map[], seq(|xs|, i requires 0 <= i < |xs| => xs[i].w), ops)
  {
    var ws := seq(|xs|, i requires 0 <= i < |xs| => xs[i].w);
    hide MayStep; hide NextSieve; hide Enabled; hide Next;
    forall i | 0 <= i < |ops| ensures Enabled(ws[i], ops[i]) && ws[i + 1] == Next(ws[i], ops[i]) {
      WorldStep(goal, buffer, xs[i], ops[i]);
    }
  }

  /**
   Correctness, for every interleaving, every choice of rand(), every channel size and every
   goal: at each moment the sieve has printed exactly the primes up to some bound, in
   increasing order, none beyond the goal; and when it exits these are all primes up to the
   goal.  It ends in no other way.
   */
  lemma PrintsThePrimes(goal: int, buffer: nat, xs: seq<Sieve>, ops: seq<Op>, i: nat) returns (bound: int)
    requires IsSieveRun(goal, buffer, xs, ops) && i < |xs|
    ensures var out := xs[i].printed;
            && (forall a, b :: 0 <= a < b < |out| ==> out[a] < out[b])
            && (forall p :: p in out <==> IsPrime(p) && p < bound)
            && (forall p :: p in out ==> p <= goal)
            && xs[i].w.status in {Going, Exited(0)}
            && (xs[i].w.status == Exited(0) ==> bound == goal + 1)
  {
    var x := xs[i];
    SieveRunInv(goal, buffer, xs, ops, i);
    hide *;
    SieveParts(goal, x);
    bound := Bound(goal, x);
    PrimesBelowIs(bound);
    PrimesAscend(bound);
  }

  lemma Bound(goal: int, x: Sieve) returns (bound: int)
    requires Output(goal, x)
    ensures x.printed == PrimesBelow(bound) && (forall p :: p in x.printed ==> p <= goal)
    ensures x.w.status in {Going, Exited(0)} && (x.w.status == Exited(0) ==> bound == goal + 1)
  {
    if x.w.status == Exited(0) { bound := goal + 1; } else { bound :| x.printed == PrimesBelow(bound); }
  }

  /**
   Deadlock freedom: in no reachable state does the scheduler find all tasks asleep, and until
   the program exits there is always a next step.
   */
  lemma NeverStuck(goal: int, buffer: nat, xs: seq<Sieve>, ops: seq<Op>, i: nat)
    requires IsSieveRun(goal, buffer, xs, ops) && i < |xs| && xs[i].w.status == Going
    ensures xs[i].w.s.running.None? ==> xs[i].w.s.runq != [] && xs[i].w.s.count != 0
    ensures exists op :: MayStep(goal, buffer, xs[i], op)
  {
    SieveRunInv(goal, buffer, xs, ops, i);
    hide *;
    if xs[i].w.s.running.None? { SieveDispatch(goal, xs[i]); }
    var op := CanGoOn(goal, buffer, xs[i]);
  }
}
