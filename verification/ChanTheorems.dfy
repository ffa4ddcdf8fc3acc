/** Channels in every run of the library: conservation end to end, and the atomicity of alternatives. */
module ChanTheorems {
  import opened Util
  import opened World
  import opened Places
  import opened PcProofs
  import opened Parts
  import opened Runs
  import LT = LockTheorems
  import CS = ChanSpec
  import CP = ChanProofs
  import CH = ChanHistory

  // ---- Conservation ----

  lemma ReturnChan(w: World, now: nat)
    requires w.s.running.Some? && Me(w) in w.pc
    ensures DoReturn(w, now).cs ==
            if w.pc[Me(w)].InAlt? && Me(w) in w.cs.fired then CS.Resume(w.cs, Me(w)) else w.cs
  {
    if w.pc[Me(w)].InSleep? {
      RelockChan(w, w.pc[Me(w)].r);
      hide DoRelock;
    } else {
      assert DoReturn(w, now) == Abort(w) || DoReturn(w, now) == Continue(w) ||
             w.pc[Me(w)].InAlt? || w.pc[Me(w)].InDelay?;
    }
  }

  lemma RelockChan(w: World, r: nat)
    requires w.s.running.Some?
    ensures DoRelock(w, r).cs == w.cs
  {
  }

  lemma QChan(w: World, l: nat, block: bool, r: nat)
    ensures w.s.running.Some? ==> DoQLock(w, l, block).cs == w.cs && DoSleep(w, r).cs == w.cs
    ensures DoQUnlock(w, l).cs == w.cs
  {
  }

  lemma RWChan(w: World, l: nat, block: bool)
    requires w.s.running.Some?
    ensures DoRLock(w, l, block).cs == w.cs && DoWLock(w, l, block).cs == w.cs
  {
  }

  lemma RWUnlockChan(w: World, l: nat)
    requires w.s.running.Some?
    ensures DoRUnlock(w, l).cs == w.cs && DoWUnlock(w, l).cs == w.cs
  {
  }

  lemma QOpChan(w: World, op: Op)
    requires Enabled(w, op) && (op.QLockOp? || op.QUnlockOp? || op.TaskSleep?)
    ensures Next(w, op).cs == w.cs
  {
    hide *;
    StepIs(w, op);
    CallIs(w, op);
    match op
    case QLockOp(l, block) => QChan(w, l, block, 0);
    case QUnlockOp(l) => QChan(w, l, false, 0);
    case TaskSleep(r) => QChan(w, 0, false, r);
  }

  lemma RWOpChan(w: World, op: Op)
    requires Enabled(w, op) && (op.RLockOp? || op.WLockOp? || op.RUnlockOp? || op.WUnlockOp?)
    ensures Next(w, op).cs == w.cs
  {
    hide *;
    StepIs(w, op);
    CallIs(w, op);
    match op
    case RLockOp(l, block) => RWChan(w, l, block);
    case WLockOp(l, block) => RWChan(w, l, block);
    case RUnlockOp(l) => RWUnlockChan(w, l);
    case WUnlockOp(l) => RWUnlockChan(w, l);
  }

  /** The channels change only through chancreate, chanalt and the return from chanalt. */
  lemma ChanOnly(w: World, op: Op)
    requires Enabled(w, op) && !op.ChanCreate? && !op.ChanAlt? && !(op.Return? && w.pc[Me(w)].InAlt?)
    ensures Next(w, op).cs == w.cs
  {
    hide *;
    StepIs(w, op);
    AloneOps(op);
    if op != SchedDispatch { CallIs(w, op); }
    if LeavesPartsAlone(op) {
      OtherApart(w, op);
    } else if op.Return? {
      ReturnChan(w, op.now);
    } else if op.QLockOp? || op.QUnlockOp? || op.TaskSleep? {
      QOpChan(w, op);
    } else {
      RWOpChan(w, op);
    }
  }

  lemma StepHist(w: World, op: Op, k: Tid, c: nat)
    requires Inv(w) && Enabled(w, op) && CH.HistInv(w.cs, k, c)
    ensures CH.HistInv(Next(w, op).cs, k, c)
  {
    hide *;
    LT.InvPlace(w);
    PartsOf(w);
    StepIs(w, op);
    if op == SchedDispatch {
      ChanOnly(w, op);
    } else {
      CallIs(w, op);
      RunningNotQueued(w, 0);
      MeReady(w);
      CallerNotFired(w);
      CallHist(w, op, k, c);
    }
  }

  lemma PartsOf(w: World)
    requires PartsInv(w)
    ensures CP.Inv(w.cs)
  {
  }

  lemma CallHist(w: World, op: Op, k: Tid, c: nat)
    requires CP.Inv(w.cs) && Enabled(w, op) && op != SchedDispatch && CH.HistInv(w.cs, k, c)
    requires w.s.running.Some? && Me(w) in w.pc && (!op.Return? ==> Me(w) !in w.cs.sets && Me(w) !in w.cs.fired)
    ensures CH.HistInv(Next(w, op).cs, k, c)
  {
    hide *;
    StepIs(w, op);
    CallIs(w, op);
    if op.ChanCreate? {
      NewChanIs(w, op.c, op.bufsize);
      NewChanHist(w.cs, op.c, op.bufsize, k, c);
    } else if op.ChanAlt? {
      AltHist(w, op, k, c);
    } else if op.Return? && w.pc[Me(w)].InAlt? {
      ReturnHist(w, op, k, c);
    } else {
      ChanOnly(w, op);
    }
  }

  lemma NewChanIs(w: World, c: nat, bufsize: nat)
    ensures DoChanCreate(w, c, bufsize).cs == CS.AddChan(w.cs, c, bufsize)
  {
  }

  lemma AltHist(w: World, op: Op, k: Tid, c: nat)
    requires CP.Inv(w.cs) && Enabled(w, op) && op.ChanAlt? && CH.HistInv(w.cs, k, c)
    requires w.s.running.Some? && Me(w) !in w.cs.sets && Me(w) !in w.cs.fired
    ensures CH.HistInv(Next(w, op).cs, k, c)
  {
    hide *;
    StepIs(w, op);
    CallIs(w, op);
    AltEffect(w, op.alts, op.canblock, op.i, op.peer);
    CH.ChanAltKeepsHist(w.cs, Me(w), op.alts, op.canblock, op.i, op.peer, k, c);
  }

  lemma ReturnHist(w: World, op: Op, k: Tid, c: nat)
    requires w.s.running.Some? && Me(w) in w.pc
    requires Enabled(w, op) && op.Return? && w.pc[Me(w)].InAlt? && CH.HistInv(w.cs, k, c)
    ensures CH.HistInv(Next(w, op).cs, k, c)
  {
    hide *;
    StepIs(w, op);
    CallIs(w, op);
    ReturnChan(w, op.now);
    if Me(w) in w.cs.fired { CH.ResumeKeepsHist(w.cs, Me(w), k, c); }
  }

  lemma NewChanHist(cs: CS.CS<nat, Tid, int>, d: nat, bufsize: nat, k: Tid, c: nat)
    requires d !in cs.chans && CH.HistInv(cs, k, c)
    ensures CH.HistInv(CS.AddChan(cs, d, bufsize), k, c)
  {
    var cs' := CS.AddChan(cs, d, bufsize);
    assert CH.Log(cs', c, CS.Snd) == CH.Log(cs, c, CS.Snd);
    assert CH.Log(cs', c, CS.Rcv) == CH.Log(cs, c, CS.Rcv);
  }

  lemma {:induction false} RunHist(rzl: map<nat, nat>, ws: seq<World>, ops: seq<Op>, i: nat, k: Tid, c: nat)
    requires IsRun(rzl, ws, ops) && i < |ws|
    ensures CH.HistInv(ws[i].cs, k, c)
  {
    hide *;
    RunStart(rzl, ws, ops);
    if i > 0 {
      StepAt(ws, ops, i - 1);
      RunHist(rzl, ws, ops, i - 1, k, c);
      StepHist(ws[i - 1], ops[i - 1], k, c);
    } else {
      NothingMoved(rzl, k, c);
    }
  }

  lemma RunStart(rzl: map<nat, nat>, ws: seq<World>, ops: seq<Op>)
    requires IsRun(rzl, ws, ops)
    ensures Steps(ws, ops) && |ws| == |ops| + 1 && ws[0] == Init(rzl) && Inv(ws[0])
  {
    InitInv(rzl);
    hide Inv; hide Init;
  }

  lemma NothingMoved(rzl: map<nat, nat>, k: Tid, c: nat)
    ensures CH.HistInv(Init(rzl).cs, k, c)
  {
  }

  /**
   Conservation: in every run, for every channel, the elements committed by senders are those
   delivered to receivers followed by the ring; and what task `k` has put in or taken out is,
   in its program order, what its calls have returned plus at most one call that a peer has
   served and that has not returned yet.
   */
  lemma Conservation(rzl: map<nat, nat>, ws: seq<World>, ops: seq<Op>, i: nat, k: Tid, c: nat)
    requires IsRun(rzl, ws, ops) && i < |ws| && c in ws[i].cs.chans
    ensures var cs := ws[i].cs;
            var ch := cs.chans[c];
            && Vals(ch.sent) == Vals(ch.rcvd) + ch.ring
            && Of(ch.sent, k) == CH.Moves(CS.Hist(cs, k) + CH.Pending(cs, k), c, CS.Snd)
            && Of(ch.rcvd, k) == CH.Moves(CS.Hist(cs, k) + CH.Pending(cs, k), c, CS.Rcv)
            && |CH.Pending(cs, k)| <= 1
  {
    RunHist(rzl, ws, ops, i, k, c);
    RunInv(rzl, ws, ops, i);
    LT.InvPlace(ws[i]);
    assert CP.Inv(ws[i].cs) && CP.Fifo(ws[i].cs.chans[c]);
  }

  // ---- Alternatives ----

  /**
   A task inside chanalt is either parked, with every alternative but the NOPs queued exactly
   where it belongs and nothing moved, or served, ready, with no entry left anywhere.
   */
  lemma ParkedOrServed(w: World, t: Tid)
    requires Inv(w) && t in w.pc && w.pc[t] == InAlt
    ensures t in w.cs.sets <==> t !in w.cs.fired
    ensures t in w.cs.sets ==> w.at[t] == InAltSet && forall c, e: CS.Entry<Tid> :: c in w.cs.chans && e.k == t ==>
              (e in w.cs.chans[c].asend <==> e.i < |w.cs.sets[t]| && w.cs.sets[t][e.i].op == CS.Snd && w.cs.sets[t][e.i].c == c) &&
              (e in w.cs.chans[c].arecv <==> e.i < |w.cs.sets[t]| && w.cs.sets[t][e.i].op == CS.Rcv && w.cs.sets[t][e.i].c == c)
    ensures t in w.cs.fired ==> Ready(w, t) && forall c, e: CS.Entry<Tid> :: c in w.cs.chans && e.k == t ==>
              e !in w.cs.chans[c].asend && e !in w.cs.chans[c].arecv
  {
    LT.InvPlace(w);
    InAltFacts(w, t);
    assert CP.Inv(w.cs);
    hide Inv; hide PlaceInv; hide PcInv; hide PartsInv;
    Entries(w.cs, t);
  }

  lemma InAltFacts(w: World, t: Tid)
    requires PlaceInv(w) && PcInv(w) && t in w.pc && w.pc[t] == InAlt
    ensures t in w.at && (t in w.cs.sets <==> w.at[t] == InAltSet) && (t in w.cs.fired <==> Ready(w, t))
    ensures Ready(w, t) <==> w.at[t] != InAltSet
  {
    assert PcOk(w, t);
    assert In(w, t, InAltSet) <==> w.at[t] == InAltSet;
  }

  lemma Entries(cs: CS.CS<nat, Tid, int>, t: Tid)
    requires CP.Inv(cs)
    ensures t in cs.sets ==> forall c, e: CS.Entry<Tid> :: c in cs.chans && e.k == t ==>
              (e in cs.chans[c].asend <==> e.i < |cs.sets[t]| && cs.sets[t][e.i].op == CS.Snd && cs.sets[t][e.i].c == c) &&
              (e in cs.chans[c].arecv <==> e.i < |cs.sets[t]| && cs.sets[t][e.i].op == CS.Rcv && cs.sets[t][e.i].c == c)
    ensures t !in cs.sets ==> forall c, e: CS.Entry<Tid> :: c in cs.chans && e.k == t ==>
              e !in cs.chans[c].asend && e !in cs.chans[c].arecv
  {
    forall c, e: CS.Entry<Tid> | c in cs.chans && e.k == t
      ensures e in cs.chans[c].asend ==> CP.EntryOk(cs, c, CS.Snd, e)
      ensures e in cs.chans[c].arecv ==> CP.EntryOk(cs, c, CS.Rcv, e)
      ensures t in cs.sets && e.i < |cs.sets[t]| && cs.sets[t][e.i].op == CS.Snd && cs.sets[t][e.i].c == c ==> e in cs.chans[c].asend
      ensures t in cs.sets && e.i < |cs.sets[t]| && cs.sets[t][e.i].op == CS.Rcv && cs.sets[t][e.i].c == c ==> e in cs.chans[c].arecv
    {
      assert e == CS.Entry(t, e.i);
    }
  }

  /** Step `op` is a chanalt that picks an entry of task `t`. */
  ghost predicate Serves(w: World, op: Op, t: Tid) {
    && op.ChanAlt? && CS.AltsOk(w.cs, op.alts) && CS.AnyExec(w.cs, op.alts)
    && op.peer.Some? && op.peer.value.k == t
  }

  lemma ServesIs(w: World, op: Op, t: Tid)
    ensures op.ChanAlt? && CS.AltsOk(w.cs, op.alts) ==>
              (Serves(w, op, t) <==> CS.AnyExec(w.cs, op.alts) && op.peer.Some? && op.peer.value.k == t)
    ensures Serves(w, op, t) ==> op.ChanAlt? && op.peer.Some? && op.peer.value.k == t
  {
  }

  /**
   What one step does to a parked task: nothing, or a peer serves it.  Then exactly one of its
   alternatives is recorded, it leaves every queue, and it becomes ready once, in that step.
   */
  lemma ServedAtOnce(w: World, op: Op, t: Tid)
    requires Inv(w) && Enabled(w, op) && t in w.cs.sets
    ensures var w' := Next(w, op);
            if Serves(w, op, t) then
              && op.ChanAlt? && op.peer.Some? && t !in w'.cs.sets && t in w'.cs.fired
              && w'.cs.fired[t].i == op.peer.value.i < |w.cs.sets[t]|
              && w'.cs.fired[t].a == w.cs.sets[t][op.peer.value.i]
              && w'.s.runq == w.s.runq + [t] && t !in w.s.runq
            else
              t in w'.cs.sets && w'.cs.sets[t] == w.cs.sets[t] && t !in w'.cs.fired
    ensures CS.Hist(Next(w, op).cs, t) == CS.Hist(w.cs, t)
  {
    hide *;
    LT.InvPlace(w);
    ParkedFacts(w, t);
    StepIs(w, op);
    ServesIs(w, op, t);
    if op == SchedDispatch {
      ChanOnly(w, op);
    } else {
      CallIs(w, op);
      if op.ChanAlt? {
        AltOn(w, op, t);
      } else {
        QuietOn(w, op, t);
      }
    }
  }

  lemma ParkedFacts(w: World, t: Tid)
    requires PlaceInv(w) && PartsInv(w) && t in w.cs.sets
    ensures t !in w.cs.fired && w.s.running != Some(t) && t !in w.s.runq
  {
    assert CP.Inv(w.cs);
    assert In(w, t, InAltSet) && !In(w, t, Running) && !In(w, t, RunQueue);
  }

  /** A call that is not chanalt leaves a parked task alone. */
  lemma QuietOn(w: World, op: Op, t: Tid)
    requires Enabled(w, op) && !op.ChanAlt? && op != SchedDispatch && w.s.running.Some? && Me(w) in w.pc
    requires t in w.cs.sets && t !in w.cs.fired && w.s.running != Some(t)
    ensures var w' := Next(w, op);
            t in w'.cs.sets && w'.cs.sets[t] == w.cs.sets[t] && t !in w'.cs.fired && CS.Hist(w'.cs, t) == CS.Hist(w.cs, t)
  {
    hide *;
    StepIs(w, op);
    CallIs(w, op);
    if op.ChanCreate? {
      NewChanIs(w, op.c, op.bufsize);
      AddChanOn(w.cs, op.c, op.bufsize, t);
    } else if op.Return? && w.pc[Me(w)].InAlt? {
      ReturnChan(w, op.now);
      RunningIs(w);
      if Me(w) in w.cs.fired { ResumeOn(w.cs, Me(w), t); }
    } else {
      ChanOnly(w, op);
    }
  }

  lemma RunningIs(w: World)
    requires w.s.running.Some?
    ensures w.s.running == Some(Me(w))
  {
  }

  lemma AddChanOn(cs: CS.CS<nat, Tid, int>, c: nat, bufsize: nat, t: Tid)
    ensures var cs' := CS.AddChan(cs, c, bufsize);
            cs'.sets == cs.sets && cs'.fired == cs.fired && CS.Hist(cs', t) == CS.Hist(cs, t)
  {
  }

  lemma ResumeOn(cs: CS.CS<nat, Tid, int>, me: Tid, t: Tid)
    requires me in cs.fired && me != t
    ensures var cs' := CS.Resume(cs, me);
            cs'.sets == cs.sets && cs'.fired == cs.fired - {me} && CS.Hist(cs', t) == CS.Hist(cs, t)
  {
  }

  lemma AltRunq(w: World, alts: seq<CS.Alt<nat, int>>, canblock: bool, i: nat, peer: Option<CS.Entry<Tid>>)
    requires w.s.running.Some? && CS.AltsOk(w.cs, alts) && CS.ChoiceOk(w.cs, alts, i, peer)
    ensures DoAlt(w, alts, canblock, i, peer).s.runq ==
            w.s.runq + (if CS.AnyExec(w.cs, alts) && peer.Some? then [peer.value.k] else [])
  {
    assert w.s.runq + [] == w.s.runq;
  }

  lemma ChanAltOn(
    cs: CS.CS<nat, Tid, int>, me: Tid, alts: seq<CS.Alt<nat, int>>, canblock: bool,
    i: nat, peer: Option<CS.Entry<Tid>>, t: Tid)
    requires CS.AltsOk(cs, alts) && CS.ChoiceOk(cs, alts, i, peer) && t in cs.sets && t !in cs.fired && me != t
    ensures var cs' := CS.ChanAlt(cs, me, alts, canblock, i, peer).0;
            if CS.AnyExec(cs, alts) && peer.Some? && peer.value.k == t then
              && t !in cs'.sets && t in cs'.fired
              && cs'.fired[t].i == peer.value.i < |cs.sets[t]|
              && cs'.fired[t].a == cs.sets[t][peer.value.i]
            else
              t in cs'.sets && cs'.sets[t] == cs.sets[t] && t !in cs'.fired
    ensures CS.Hist(CS.ChanAlt(cs, me, alts, canblock, i, peer).0, t) == CS.Hist(cs, t)
  {
  }

  lemma AltOn(w: World, op: Op, t: Tid)
    requires Enabled(w, op) && op.ChanAlt? && t in w.cs.sets && t !in w.cs.fired
    requires w.s.running != Some(t) && t !in w.s.runq
    ensures var w' := Next(w, op);
            if CS.AnyExec(w.cs, op.alts) && op.peer.Some? && op.peer.value.k == t then
              && t !in w'.cs.sets && t in w'.cs.fired
              && w'.cs.fired[t].i == op.peer.value.i < |w.cs.sets[t]|
              && w'.cs.fired[t].a == w.cs.sets[t][op.peer.value.i]
              && w'.s.runq == w.s.runq + [t] && t !in w.s.runq
            else
              t in w'.cs.sets && w'.cs.sets[t] == w.cs.sets[t] && t !in w'.cs.fired
    ensures CS.Hist(Next(w, op).cs, t) == CS.Hist(w.cs, t)
  {
    hide *;
    StepIs(w, op);
    CallIs(w, op);
    RunningIs(w);
    AltEffect(w, op.alts, op.canblock, op.i, op.peer);
    AltRunq(w, op.alts, op.canblock, op.i, op.peer);
    ChanAltOn(w.cs, Me(w), op.alts, op.canblock, op.i, op.peer, t);
  }

  /** A served task keeps its result until it runs, and then chanalt returns exactly that. */
  lemma ResultIsKept(w: World, op: Op, t: Tid)
    requires Inv(w) && Enabled(w, op) && t in w.cs.fired
    ensures var w' := Next(w, op);
            if op.Return? && Me(w) == t then
              ReturnValue(w, op.now) == w.cs.fired[t].i && CS.Hist(w'.cs, t) == CS.Hist(w.cs, t) + [w.cs.fired[t]]
            else
              t in w'.cs.fired && w'.cs.fired[t] == w.cs.fired[t] && CS.Hist(w'.cs, t) == CS.Hist(w.cs, t)
  {
    hide *;
    LT.InvPlace(w);
    FiredFacts(w, t);
    if op != SchedDispatch { CallIs(w, op); }
    if op.ChanAlt? {
      AltOff(w, op, t);
    } else if op.Return? {
      ReturnOff(w, op, t);
    } else {
      OtherOff(w, op, t);
    }
  }

  lemma OtherOff(w: World, op: Op, t: Tid)
    requires Enabled(w, op) && !op.ChanAlt? && !op.Return? && t in w.cs.fired
    ensures var w' := Next(w, op);
            t in w'.cs.fired && w'.cs.fired[t] == w.cs.fired[t] && CS.Hist(w'.cs, t) == CS.Hist(w.cs, t)
  {
    hide *;
    StepIs(w, op);
    if op.ChanCreate? {
      NewChanIs(w, op.c, op.bufsize);
      AddChanOn(w.cs, op.c, op.bufsize, t);
    } else {
      ChanOnly(w, op);
    }
  }

  lemma ReturnOff(w: World, op: Op, t: Tid)
    requires Enabled(w, op) && op.Return? && t in w.cs.fired && t in w.pc && w.pc[t] == InAlt
    ensures var w' := Next(w, op);
            if Me(w) == t then
              ReturnValue(w, op.now) == w.cs.fired[t].i && CS.Hist(w'.cs, t) == CS.Hist(w.cs, t) + [w.cs.fired[t]]
            else
              t in w'.cs.fired && w'.cs.fired[t] == w.cs.fired[t] && CS.Hist(w'.cs, t) == CS.Hist(w.cs, t)
  {
    ReturnChan(w, op.now);
    hide DoReturn;
  }

  lemma FiredFacts(w: World, t: Tid)
    requires PcInv(w) && PartsInv(w) && t in w.cs.fired
    ensures t !in w.cs.sets && t in w.pc && w.pc[t] == InAlt
  {
    assert CP.Inv(w.cs);
  }

  lemma ChanAltOff(
    cs: CS.CS<nat, Tid, int>, me: Tid, alts: seq<CS.Alt<nat, int>>, canblock: bool,
    i: nat, peer: Option<CS.Entry<Tid>>, t: Tid)
    requires CS.AltsOk(cs, alts) && CS.ChoiceOk(cs, alts, i, peer) && t !in cs.sets && t in cs.fired && me != t
    ensures var cs' := CS.ChanAlt(cs, me, alts, canblock, i, peer).0;
            t in cs'.fired && cs'.fired[t] == cs.fired[t] && CS.Hist(cs', t) == CS.Hist(cs, t)
  {
  }

  lemma AltOff(w: World, op: Op, t: Tid)
    requires Enabled(w, op) && op.ChanAlt? && t in w.cs.fired && t !in w.cs.sets && t in w.pc && w.pc[t] == InAlt
    ensures var w' := Next(w, op);
            t in w'.cs.fired && w'.cs.fired[t] == w.cs.fired[t] && CS.Hist(w'.cs, t) == CS.Hist(w.cs, t)
  {
    AltEffect(w, op.alts, op.canblock, op.i, op.peer);
    ChanAltOff(w.cs, Me(w), op.alts, op.canblock, op.i, op.peer, t);
    hide DoAlt; hide CS.ChanAlt; hide CS.AltsOk; hide CS.ChoiceOk; hide CS.AnyExec;
  }

  // ---- The whole of one blocking chanalt ----

  /** The step of a run in which a parked task is served. */
  lemma {:induction false} FindServed(ws: seq<World>, ops: seq<Op>, i: nat, j: nat, t: Tid) returns (m: nat)
    requires Steps(ws, ops) && Inv(ws[0]) && i <= j < |ws| && t in ws[i].cs.sets && t !in ws[j].cs.sets
    ensures i <= m < j && Serves(ws[m], ops[m], t)
    ensures forall n :: i <= n <= m ==> t in ws[n].cs.sets && ws[n].cs.sets[t] == ws[i].cs.sets[t] && t !in ws[n].cs.fired
    ensures forall n :: i <= n < m ==> !Serves(ws[n], ops[n], t)
    ensures CS.Hist(ws[m + 1].cs, t) == CS.Hist(ws[i].cs, t)
    decreases j - i
  {
    hide *;
    StepAt(ws, ops, i);
    LT.InvPlace(ws[i]);
    ParkedFacts(ws[i], t);
    ServedAtOnce(ws[i], ops[i], t);
    if Serves(ws[i], ops[i], t) {
      m := i;
    } else {
      m := FindServed(ws, ops, i + 1, j, t);
    }
  }

  /** Only a parked task is served. */
  lemma OnlyParkedServed(w: World, op: Op, t: Tid)
    requires Enabled(w, op) && Serves(w, op, t)
    ensures t in w.cs.sets
  {
  }

  lemma {:induction false} RecordKept(ws: seq<World>, ops: seq<Op>, m: nat, j: nat, t: Tid)
    requires Steps(ws, ops) && Inv(ws[0]) && m <= j < |ws| && t in ws[m].cs.fired
    requires forall n :: m <= n < j ==> ws[n].s.running != Some(t)
    ensures forall n :: m <= n <= j ==>
              t !in ws[n].cs.sets && t in ws[n].cs.fired && ws[n].cs.fired[t] == ws[m].cs.fired[t]
    ensures CS.Hist(ws[j].cs, t) == CS.Hist(ws[m].cs, t)
    decreases j
  {
    hide *;
    if m < j {
      RecordKept(ws, ops, m, j - 1, t);
      StepAt(ws, ops, j - 1);
      NotReturning(ws[j - 1], ops[j - 1], t);
      ResultIsKept(ws[j - 1], ops[j - 1], t);
    }
    StepAt(ws, ops, j);
    LT.InvPlace(ws[j]);
    FiredFacts(ws[j], t);
  }

  lemma NotReturning(w: World, op: Op, t: Tid)
    requires Enabled(w, op) && w.s.running != Some(t)
    ensures op.Return? ==> w.s.running.Some? && Me(w) != t
  {
    hide MayCall;
  }

  /** A chanalt call whose task is parked afterwards. */
  lemma ParkingCall(w: World, op: Op)
    requires Inv(w) && Enabled(w, op) && op.ChanAlt? && w.s.running.Some? && Me(w) in Next(w, op).cs.sets
    ensures Next(w, op).cs.sets[Me(w)] == op.alts && CS.Hist(Next(w, op).cs, Me(w)) == CS.Hist(w.cs, Me(w))
  {
    hide *;
    StepIs(w, op);
    CallIs(w, op);
    LT.InvPlace(w);
    RunningNotQueued(w, 0);
    AltEffect(w, op.alts, op.canblock, op.i, op.peer);
    ParkIs(w.cs, Me(w), op.alts, op.canblock, op.i, op.peer);
  }

  lemma ParkIs(
    cs: CS.CS<nat, Tid, int>, me: Tid, alts: seq<CS.Alt<nat, int>>, canblock: bool, i: nat, peer: Option<CS.Entry<Tid>>)
    requires CS.AltsOk(cs, alts) && CS.ChoiceOk(cs, alts, i, peer) && me !in cs.sets
    ensures var cs' := CS.ChanAlt(cs, me, alts, canblock, i, peer).0;
            me in cs'.sets ==> cs'.sets[me] == alts && CS.Hist(cs', me) == CS.Hist(cs, me)
  {
  }

  /** The second half of a chanalt call finds a record. */
  lemma ReturnIsServed(w: World, now: nat)
    requires Inv(w) && Enabled(w, Return(now)) && w.s.running.Some? && Me(w) in w.pc && w.pc[Me(w)] == InAlt
    ensures Me(w) in w.cs.fired && Me(w) !in w.cs.sets
  {
    LT.InvPlace(w);
    MeReady(w);
    RunningNotQueued(w, 0);
    hide Inv; hide PlaceInv; hide PcInv; hide PartsInv;
  }

  lemma ParkedPc(w: World, t: Tid)
    requires Inv(w) && t in w.cs.sets
    ensures t in w.pc && w.pc[t] == InAlt
  {
    hide *;
    LT.InvPlace(w);
    ReadyLocated(w);
    SetPc(w, t);
  }

  lemma SetPc(w: World, t: Tid)
    requires PcInv(w) && SetsOk(w) && t in w.cs.sets
    ensures t in w.pc && w.pc[t] == InAlt
  {
    assert PcOk(w, t);
  }

  /**
   A blocking chanalt is atomic.  Between the step that parks a task and the one in which its
   call returns there is exactly one step that serves it.  Before that step the set is what was
   offered and nothing has moved; in it one of the entries moves an element and the task
   becomes ready; after it the record does not change; and the call returns that entry's
   index, as the one thing that is added to the history of the task.
   */
  lemma AltIsAtomic(ws: seq<World>, ops: seq<Op>, i: nat, j: nat, t: Tid, now: nat) returns (m: nat)
    requires Steps(ws, ops) && Inv(ws[0]) && i < j < |ops|
    requires ops[i].ChanAlt? && ws[i].s.running == Some(t) && t in ws[i + 1].cs.sets
    requires ops[j] == Return(now) && ws[j].s.running == Some(t)
    requires forall n :: i < n < j ==> ws[n].s.running != Some(t)
    ensures i < m < j && forall n :: i < n < j ==> (Serves(ws[n], ops[n], t) <==> n == m)
    ensures forall n :: i < n <= m ==> t in ws[n].cs.sets && ws[n].cs.sets[t] == ops[i].alts && t !in ws[n].cs.fired
    ensures t in ws[m + 1].cs.fired && ws[m + 1].s.runq == ws[m].s.runq + [t]
    ensures var f := ws[m + 1].cs.fired[t];
            && ops[m].ChanAlt? && ops[m].peer == Some(CS.Entry(t, f.i))
            && f.i < |ops[i].alts| && f.a == ops[i].alts[f.i]
            && (forall n :: m < n <= j ==> t !in ws[n].cs.sets && t in ws[n].cs.fired && ws[n].cs.fired[t] == f)
            && t in ws[j].pc && ReturnValue(ws[j], now) == f.i
            && CS.Hist(ws[j + 1].cs, t) == CS.Hist(ws[i].cs, t) + [f]
  {
    hide *;
    LT.StepOf(ws, ops, i);
    RunningIs(ws[i]);
    RunningIs(ws[j]);
    StepAt(ws, ops, i);
    StepAt(ws, ops, i + 1);
    StepAt(ws, ops, j);
    ParkingCall(ws[i], ops[i]);
    ParkedPc(ws[i + 1], t);
    PcStays(ws, ops, i + 1, j, t);
    ReturnIsServed(ws[j], now);
    m := FindServed(ws, ops, i + 1, j, t);
    StepAt(ws, ops, m);
    ServesIs(ws[m], ops[m], t);
    ServedAtOnce(ws[m], ops[m], t);
    RecordKept(ws, ops, m + 1, j, t);
    forall n | m < n < j ensures !Serves(ws[n], ops[n], t) {
      StepAt(ws, ops, n);
      if Serves(ws[n], ops[n], t) { OnlyParkedServed(ws[n], ops[n], t); }
    }
    ResultIsKept(ws[j], ops[j], t);
  }

  // ---- Corner cases ----

  /** In every reachable state the wait queues of a channel agree with its ring. */
  lemma QueuesMatchRing(rzl: map<nat, nat>, ws: seq<World>, ops: seq<Op>, i: nat, c: nat)
    requires IsRun(rzl, ws, ops) && i < |ws| && c in ws[i].cs.chans
    ensures var ch := ws[i].cs.chans[c];
            && |ch.ring| <= ch.bufsize
            && (ch.asend != {} ==> |ch.ring| == ch.bufsize)
            && (ch.arecv != {} ==> ch.ring == [])
            && (forall e, f :: e in ch.asend && f in ch.arecv ==> e.k == f.k && ch.bufsize == 0)
  {
    RunInv(rzl, ws, ops, i);
    LT.InvPlace(ws[i]);
    assert CP.Inv(ws[i].cs) && CP.Agree(ws[i].cs.chans[c]);
  }

  /** A set without a send or a receive. */
  ghost predicate OnlyNops(alts: seq<CS.Alt<nat, int>>) {
    forall i :: 0 <= i < |alts| ==> alts[i].op == CS.Nop
  }

  lemma NopsAreNoPeer(cs: CS.CS<nat, Tid, int>, a: CS.Alt<nat, int>, e: CS.Entry<Tid>)
    requires CP.Inv(cs) && a.op != CS.Nop && a.c in cs.chans && CS.PeerOk(cs, a, Some(e))
    ensures e.k in cs.sets && !OnlyNops(cs.sets[e.k])
  {
    assert CP.EntryOk(cs, a.c, CS.Other(a.op), e);
    assert cs.sets[e.k][e.i].op != CS.Nop;
  }

  lemma NopsNotServed(w: World, op: Op, t: Tid)
    requires CP.Inv(w.cs) && Enabled(w, op) && Serves(w, op, t)
    ensures t in w.cs.sets && !OnlyNops(w.cs.sets[t])
  {
    ServesIs(w, op, t);
    NopsAreNoPeer(w.cs, op.alts[op.i], op.peer.value);
  }

  lemma StillBlocked(w: World, op: Op, t: Tid)
    requires Inv(w) && Enabled(w, op) && t in w.cs.sets && OnlyNops(w.cs.sets[t])
    ensures t in Next(w, op).cs.sets && OnlyNops(Next(w, op).cs.sets[t])
  {
    hide *;
    ServedAtOnce(w, op, t);
    LT.InvPlace(w);
    PartsOf(w);
    if Serves(w, op, t) { NopsNotServed(w, op, t); }
  }

  /** A task that blocks on nothing but NOPs is never served. */
  lemma {:induction false} NopsBlockForever(ws: seq<World>, ops: seq<Op>, i: nat, j: nat, t: Tid)
    requires Steps(ws, ops) && Inv(ws[0]) && i <= j < |ws| && t in ws[i].cs.sets && OnlyNops(ws[i].cs.sets[t])
    ensures t in ws[j].cs.sets && OnlyNops(ws[j].cs.sets[t])
    decreases j
  {
    hide *;
    if i < j {
      NopsBlockForever(ws, ops, i, j - 1, t);
      StepAt(ws, ops, j - 1);
      StillBlocked(ws[j - 1], ops[j - 1], t);
    }
  }
}
