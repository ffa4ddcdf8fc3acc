/** Every lock and every channel of the library keeps its own invariant in every run. */
module Parts {
  import opened Util
  import opened LockSpec
  import opened SchedSpec
  import opened FdSpec
  import opened World
  import opened Places
  import opened PcProofs
  import LR = LockRuns
  import CS = ChanSpec
  import CP = ChanProofs

  ghost predicate QLocksOk(w: World) { forall l :: QInv(QL(w, l)) }

  ghost predicate RWLocksOk(w: World) { forall l :: RWInv(RW(w, l)) }

  ghost predicate PartsInv(w: World) {
    QLocksOk(w) && RWLocksOk(w) && CP.Inv(w.cs)
  }

  lemma SameParts(w: World, w': World)
    requires PartsInv(w) && w'.ql == w.ql && w'.rw == w.rw && w'.cs == w.cs
    ensures PartsInv(w')
  {
    forall l ensures QInv(QL(w', l)) { assert QL(w', l) == QL(w, l); }
    forall l ensures RWInv(RW(w', l)) { assert RW(w', l) == RW(w, l); }
  }

  lemma QParts(w: World, w': World, l: nat, lk: QLock<Tid>)
    requires PartsInv(w) && QInv(lk) && w'.ql == w.ql[l := lk] && w'.rw == w.rw && w'.cs == w.cs
    ensures PartsInv(w')
  {
    forall m ensures QInv(QL(w', m)) { assert m != l ==> QL(w', m) == QL(w, m); }
    forall m ensures RWInv(RW(w', m)) { assert RW(w', m) == RW(w, m); }
  }

  /** One lock of the world makes the move that module LockRuns allows. */
  lemma RWParts(w: World, w': World, l: nat, c: LR.RWCall<Tid>)
    requires PartsInv(w) && LR.RWAllowed(RW(w, l), c)
    requires w'.rw == w.rw[l := LR.RWNext(RW(w, l), c)] && w'.ql == w.ql && w'.cs == w.cs
    ensures PartsInv(w')
  {
    assert RWInv(RW(w, l));
    LR.RWStepKeepsInv(RW(w, l), c);
    forall m ensures QInv(QL(w', m)) { assert QL(w', m) == QL(w, m); }
    forall m ensures RWInv(RW(w', m)) { assert m != l ==> RW(w', m) == RW(w, m); }
  }

  lemma ChanParts(w: World, w': World)
    requires PartsInv(w) && CP.Inv(w'.cs) && w'.ql == w.ql && w'.rw == w.rw
    ensures PartsInv(w')
  {
    forall l ensures QInv(QL(w', l)) { assert QL(w', l) == QL(w, l); }
    forall l ensures RWInv(RW(w', l)) { assert RW(w', l) == RW(w, l); }
  }

  lemma QUnlockParts(w: World, l: nat)
    requires PartsInv(w) && QL(w, l).owner.Some?
    ensures PartsInv(DoQUnlock(w, l)) && DoQUnlock(w, l).status == w.status
  {
    QParts(w, DoQUnlock(w, l), l, QRelease(QL(w, l)).value.0);
  }

  lemma SleepParts(w: World, r: nat)
    requires PartsInv(w) && w.s.running.Some? && (r in w.rzl ==> QL(w, w.rzl[r]).owner.Some?)
    ensures PartsInv(DoSleep(w, r)) && DoSleep(w, r).status == w.status
  {
    hide *;
    SleepEffect(w, r);
    if r in w.rzl {
      QUnlockParts(w, w.rzl[r]);
      SameParts(DoQUnlock(w, w.rzl[r]), DoSleep(w, r));
    } else {
      SameParts(w, DoSleep(w, r));
    }
  }

  lemma SleepEffect(w: World, r: nat)
    requires w.s.running.Some? && (r in w.rzl ==> QL(w, w.rzl[r]).owner.Some?)
    ensures var w', u := DoSleep(w, r), if r in w.rzl then DoQUnlock(w, w.rzl[r]) else w;
            w'.ql == u.ql && w'.rw == u.rw && w'.cs == u.cs && w'.status == u.status == w.status
  {
    if r in w.rzl {
      var l, w1 := w.rzl[r], w.(rz := w.rz[r := RZ(w, r) + [Me(w)]]);
      assert QL(w1, l) == QL(w, l);
      UnlockEffect(w, l);
      UnlockEffect(w1, l);
      hide DoQUnlock; hide QL;
    }
  }

  lemma UnlockEffect(w: World, l: nat)
    requires QL(w, l).owner.Some?
    ensures DoQUnlock(w, l) == Wake(w.(ql := w.ql[l := QRelease(QL(w, l)).value.0]), QRelease(QL(w, l)).value.1)
    ensures w.s.running.Some? ==> DoQUnlock(w, l).s.running == w.s.running
  {
  }

  /** A running task is in no queue. */
  lemma RunningNotQueued(w: World, l: nat)
    requires PlaceInv(w) && w.s.running.Some?
    ensures Me(w) !in RW(w, l).rwaiting && Me(w) !in RW(w, l).wwaiting && Me(w) !in w.cs.sets
  {
    assert In(w, Me(w), Running);
    assert !In(w, Me(w), OnRLock(l)) && !In(w, Me(w), OnWLock(l)) && !In(w, Me(w), InAltSet);
  }

  lemma RelockParts(w: World, r: nat)
    requires PartsInv(w) && w.s.running.Some?
    ensures PartsInv(DoRelock(w, r))
  {
    if r in w.rzl {
      var l := w.rzl[r];
      QParts(w, DoRelock(w, r), l, QTry(QL(w, l), Me(w), true).0);
    } else {
      SameParts(w, DoRelock(w, r));
    }
  }

  lemma ReturnParts(w: World, now: nat)
    requires PartsInv(w) && w.s.running.Some? && Me(w) in w.pc
    ensures PartsInv(DoReturn(w, now))
  {
    var w', pc := DoReturn(w, now), w.pc[Me(w)];
    if pc.InSleep? {
      RelockParts(w, pc.r);
      hide PartsInv; hide DoRelock;
    } else {
      ReturnShape(w, now);
      ReturnApart(w, w', now);
      hide PartsInv; hide DoReturn;
    }
  }

  lemma ReturnApart(w: World, w': World, now: nat)
    requires PartsInv(w) && w.s.running.Some? && Me(w) in w.pc
    requires w' == Abort(w) || w' == Continue(w) || w' == Continue(w.(clock := now)) ||
             (Me(w) in w.cs.fired && w' == Continue(w.(cs := CS.Resume(w.cs, Me(w)))))
    ensures PartsInv(w')
  {
    if w'.cs == w.cs {
      hide PartsInv;
      SameParts(w, w');
    } else {
      CP.ResumeKeepsInv(w.cs, Me(w));
      hide CP.Inv;
      ChanParts(w, w');
    }
  }

  lemma NewChanParts(w: World, c: nat, bufsize: nat)
    requires PartsInv(w) && c !in w.cs.chans
    ensures PartsInv(DoChanCreate(w, c, bufsize)) && DoChanCreate(w, c, bufsize).status == w.status
  {
    CP.AddChanKeepsInv(w.cs, c, bufsize);
    ChanParts(w, DoChanCreate(w, c, bufsize));
  }

  lemma AltEffect(w: World, alts: seq<CS.Alt<nat, int>>, canblock: bool, i: nat, peer: Option<CS.Entry<Tid>>)
    requires w.s.running.Some? && CS.AltsOk(w.cs, alts) && CS.ChoiceOk(w.cs, alts, i, peer)
    ensures var w' := DoAlt(w, alts, canblock, i, peer);
            && w'.cs == CS.ChanAlt(w.cs, Me(w), alts, canblock, i, peer).0
            && w'.ql == w.ql && w'.rw == w.rw && w'.status == w.status
  {
    AltFires(w.cs, Me(w), alts, canblock, i, peer);
    var w1 := w.(cs := CS.ChanAlt(w.cs, Me(w), alts, canblock, i, peer).0);
    BlockIs(w1, InAltSet, InAlt);
    WakeIs(w1, if peer.Some? then [peer.value.k] else []);
    hide CS.ChanAlt; hide CS.AltsOk; hide CS.ChoiceOk; hide Wake; hide Block;
  }

  lemma AltParts(w: World, alts: seq<CS.Alt<nat, int>>, canblock: bool, i: nat, peer: Option<CS.Entry<Tid>>)
    requires PartsInv(w) && w.s.running.Some? && Me(w) !in w.cs.sets && Me(w) !in w.cs.fired
    requires CS.AltsOk(w.cs, alts) && CS.ChoiceOk(w.cs, alts, i, peer)
    ensures PartsInv(DoAlt(w, alts, canblock, i, peer)) && DoAlt(w, alts, canblock, i, peer).status == w.status
  {
    hide CP.Inv; hide CS.ChanAlt; hide CS.AltsOk; hide CS.ChoiceOk; hide DoAlt; hide QLocksOk; hide RWLocksOk;
    CP.ChanAltKeepsInv(w.cs, Me(w), alts, canblock, i, peer);
    AltEffect(w, alts, canblock, i, peer);
    ChanParts(w, DoAlt(w, alts, canblock, i, peer));
  }

  /** Steps that leave all locks and channels alone. */
  ghost predicate Apart(w: World, w': World) {
    w'.ql == w.ql && w'.rw == w.rw && w'.cs == w.cs && (w.status == Going ==> w'.status != Aborted)
  }

  lemma SchedApart(w: World, val: int)
    ensures Apart(w, DoDispatch(w)) && Apart(w, Spawn(w, User)) && Apart(w, DoExitAll(w, val))
  {
    DispatchIs(w);
    hide DoDispatch;
  }

  lemma WakeupApart(w: World, r: nat, all: bool)
    ensures Apart(w, DoWakeup(w, r, all))
  {
  }

  lemma RunningApart(w: World, val: int)
    requires w.s.running.Some?
    ensures Apart(w, DoSystem(w)) && Apart(w, YieldAt(w, InYield(w.s.nswitch, |w.s.runq|)))
    ensures Me(w) in w.s.all ==> Apart(w, DoExit(w, val))
  {
  }

  lemma DelayApart(w: World, ms: nat, now: nat)
    requires w.s.running.Some?
    ensures Apart(w, DoDelay(w, ms, now))
  {
  }

  lemma FdWaitApart(w: World, fd: int, ev: int)
    requires w.s.running.Some?
    ensures var w' := DoFdWait(w, fd, ev); w'.ql == w.ql && w'.rw == w.rw && w'.cs == w.cs
    ensures w.status == Going ==> (DoFdWait(w, fd, ev).status == Aborted <==> |w.fd.slots| >= MaxFd)
  {
    StartFdApart(w);
    hide StartFd;
  }

  lemma StartFdApart(w: World)
    ensures var w' := StartFd(w);
            && w'.ql == w.ql && w'.rw == w.rw && w'.cs == w.cs && w'.status == w.status
            && w'.s.running == w.s.running && w'.fd.slots == w.fd.slots
  {
  }

  lemma YieldApart(w: World, w1: World, pc: Pc)
    requires w1.s.running.Some? && w1.ql == w.ql && w1.rw == w.rw && w1.cs == w.cs && w1.status == w.status
    ensures Apart(w, YieldAt(w1, pc))
  {
  }

  lemma FdPassApart(w: World, rev: seq<int>, now: nat)
    requires w.s.running.Some? && Me(w) in w.pc && |rev| == |w.fd.slots|
    ensures Apart(w, DoFdPass(w, rev, now))
  {
    hide YieldAt; hide DoPoll; hide Apart;
    var n, w1, w2 := w.s.nswitch, w.(s := MarkSystem(w.s)), DoPoll(w, rev, now);
    YieldApart(w, w1, FdYield(n, |w1.s.runq|));
    YieldApart(w, w, FdYield(n, |w.s.runq|));
    YieldApart(w, w2, FdYield(n, |w2.s.runq|));
  }

  predicate LeavesPartsAlone(op: Op) {
    op == SchedDispatch || op.TaskCreate? || op.TaskSystem? || op.TaskYield? || op.TaskExit? ||
    op.TaskExitAll? || op.TaskWakeup? || op.TaskDelay? || op.FdWait? || op.FdPass?
  }

  lemma OtherApart(w: World, op: Op)
    requires Enabled(w, op) && LeavesPartsAlone(op)
    ensures Next(w, op).ql == w.ql && Next(w, op).rw == w.rw && Next(w, op).cs == w.cs
    ensures Next(w, op).status == Aborted <==> op.FdWait? && |w.fd.slots| >= MaxFd
  {
    hide *;
    StepIs(w, op);
    AloneOps(op);
    if op == SchedDispatch {
      SchedApart(w, 0);
      ApartIs(w, DoDispatch(w));
    } else {
      CallIs(w, op);
      RunningOpApart(w, op);
      if !op.FdWait? { ApartIs(w, Next(w, op)); }
    }
  }

  lemma AloneOps(op: Op)
    ensures LeavesPartsAlone(op) <==>
              op == SchedDispatch || op.TaskCreate? || op.TaskSystem? || op.TaskYield? || op.TaskExit? ||
              op.TaskExitAll? || op.TaskWakeup? || op.TaskDelay? || op.FdWait? || op.FdPass?
  {
  }

  lemma ApartIs(w: World, w': World)
    requires Apart(w, w') && w.status == Going
    ensures w'.ql == w.ql && w'.rw == w.rw && w'.cs == w.cs && w'.status != Aborted
  {
  }

  lemma RunningOpApart(w: World, op: Op)
    requires Enabled(w, op) && LeavesPartsAlone(op) && op != SchedDispatch
    ensures if op.FdWait? then
              var w' := Next(w, op);
              w'.ql == w.ql && w'.rw == w.rw && w'.cs == w.cs && (w'.status == Aborted <==> |w.fd.slots| >= MaxFd)
            else Apart(w, Next(w, op))
  {
    hide *;
    StepIs(w, op);
    CallIs(w, op);
    AloneOps(op);
    match op
    case TaskCreate => SchedApart(w, 0);
    case TaskSystem => RunningApart(w, 0);
    case TaskYield => RunningApart(w, 0);
    case TaskExit(v) => RunningApart(w, v);
    case TaskExitAll(v) => SchedApart(w, v);
    case TaskWakeup(r, all) => WakeupApart(w, r, all);
    case TaskDelay(ms, now) => DelayApart(w, ms, now);
    case FdWait(fd, rw) => FdWaitApart(w, fd, Bits(rw));
    case FdPass(rev, _, now2) => FdPassApart(w, rev, now2);
  }

  lemma QLockOpParts(w: World, l: nat, block: bool)
    requires PartsInv(w) && w.s.running.Some?
    ensures PartsInv(DoQLock(w, l, block)) && DoQLock(w, l, block).status == w.status
  {
    QParts(w, DoQLock(w, l, block), l, QTry(QL(w, l), Me(w), block).0);
  }

  lemma RLockParts(w: World, l: nat, block: bool)
    requires PartsInv(w) && w.s.running.Some? && Me(w) !in RW(w, l).rwaiting && Me(w) !in RW(w, l).wwaiting
    ensures PartsInv(DoRLock(w, l, block)) && DoRLock(w, l, block).status == w.status
  {
    RWParts(w, DoRLock(w, l, block), l, LR.RAcquire(Me(w), block));
  }

  lemma WLockParts(w: World, l: nat, block: bool)
    requires PartsInv(w) && w.s.running.Some? && Me(w) !in RW(w, l).rwaiting && Me(w) !in RW(w, l).wwaiting
    ensures PartsInv(DoWLock(w, l, block)) && DoWLock(w, l, block).status == w.status
  {
    RWParts(w, DoWLock(w, l, block), l, LR.WAcquire(Me(w), block));
  }

  lemma RUnlockParts(w: World, l: nat)
    requires PartsInv(w) && w.s.running.Some? && Me(w) !in RW(w, l).rwaiting && Me(w) !in RW(w, l).wwaiting
    requires Me(w) in RW(w, l).holders
    ensures PartsInv(DoRUnlock(w, l)) && DoRUnlock(w, l).status == w.status
  {
    RWParts(w, DoRUnlock(w, l), l, LR.RUnlock(Me(w)));
  }

  lemma WUnlockParts(w: World, l: nat)
    requires PartsInv(w) && w.s.running.Some? && Me(w) !in RW(w, l).rwaiting && Me(w) !in RW(w, l).wwaiting
    requires RW(w, l).writer == Some(Me(w)) && w.status == Going
    ensures PartsInv(DoWUnlock(w, l)) && DoWUnlock(w, l).status == Going
  {
    assert RWInv(RW(w, l));
    LR.RWStepKeepsInv(RW(w, l), LR.WUnlock(Me(w)));
    RWParts(w, DoWUnlock(w, l), l, LR.WUnlock(Me(w)));
  }

  lemma RWStepParts(w: World, op: Op)
    requires PlaceInv(w) && PartsInv(w) && Enabled(w, op)
    requires op.RLockOp? || op.WLockOp? || op.RUnlockOp? || op.WUnlockOp?
    ensures PartsInv(Next(w, op)) && Next(w, op).status == Going
  {
    hide *;
    StepIs(w, op);
    CallIs(w, op);
    RunningNotQueued(w, op.l);
    match op
    case RLockOp(l, block) => RLockParts(w, l, block);
    case WLockOp(l, block) => WLockParts(w, l, block);
    case RUnlockOp(l) => RUnlockParts(w, l);
    case WUnlockOp(l) => WUnlockParts(w, l);
  }

  lemma QStepParts(w: World, op: Op)
    requires PartsInv(w) && Enabled(w, op) && (op.QLockOp? || op.QUnlockOp? || op.TaskSleep?)
    ensures PartsInv(Next(w, op)) && Next(w, op).status == Going
  {
    hide *;
    StepIs(w, op);
    CallIs(w, op);
    match op
    case QLockOp(l, block) => QLockOpParts(w, l, block);
    case QUnlockOp(l) => QUnlockParts(w, l);
    case TaskSleep(r) => SleepParts(w, r);
  }

  lemma ChanStepParts(w: World, op: Op)
    requires PlaceInv(w) && PcInv(w) && PartsInv(w) && Enabled(w, op)
    requires op.ChanCreate? || op.ChanAlt? || op.Return?
    ensures PartsInv(Next(w, op)) && Next(w, op).status == Going
  {
    hide *;
    StepIs(w, op);
    CallIs(w, op);
    RunningNotQueued(w, 0);
    MeReady(w);
    CallerNotFired(w);
    match op
    case ChanCreate(c, b) => NewChanParts(w, c, b);
    case ChanAlt(alts, canblock, i, peer) => AltParts(w, alts, canblock, i, peer);
    case Return(now) =>
      ReturnPc(w, now);
      ReturnParts(w, now);
  }

  /**
   Every step keeps every lock and channel invariant.  Under the client discipline no step
   aborts, except fdwait with a full poll table: the "oops" of _qlock, the aborts of qunlock
   and wunlock and a resumption without a fired alternative are all unreachable.
   */
  lemma StepParts(w: World, op: Op)
    requires PlaceInv(w) && PcInv(w) && PartsInv(w) && Enabled(w, op)
    ensures PartsInv(Next(w, op))
    ensures Next(w, op).status == Aborted <==> op.FdWait? && |w.fd.slots| >= MaxFd
  {
    hide PlaceInv; hide PcInv; hide PartsInv; hide Next; hide Enabled;
    if LeavesPartsAlone(op) {
      OtherApart(w, op);
      SameParts(w, Next(w, op));
    } else if op.ChanCreate? || op.ChanAlt? || op.Return? {
      ChanStepParts(w, op);
    } else if op.QLockOp? || op.QUnlockOp? || op.TaskSleep? {
      QStepParts(w, op);
    } else {
      RWStepParts(w, op);
    }
  }

  // ---- The program positions ----

  lemma SimplePc(w: World, c: nat, bufsize: nat, val: int)
    requires PcInv(w) && w.s.running.Some? && Me(w) !in w.cs.fired
    ensures PcInv(DoExitAll(w, val)) && PcInv(DoChanCreate(w, c, bufsize))
  {
    MeReady(w);
    StatusPc(w, Exited(val));
    PlainPc(w, DoChanCreate(w, c, bufsize), Me(w));
  }

  lemma QLockOpPc(w: World, l: nat, block: bool)
    requires PcInv(w) && w.s.running.Some? && Me(w) !in w.cs.fired && Me(w) in w.pc && UserPc(w.pc[Me(w)])
    ensures PcInv(DoQLock(w, l, block))
  {
    QLockPc(w, l, block, InQLock(l));
  }

  /** The caller of a lock operation, and who waits for that lock. */
  lemma RWCaller(w: World, l: nat)
    requires PlaceInv(w) && PcInv(w) && PartsInv(w) && w.s.running.Some?
    ensures RWInv(RW(w, l)) && Me(w) in w.pc
    ensures ListOk(w, OnWLock(l), RW(w, l).wwaiting) && ListOk(w, OnRLock(l), RW(w, l).rwaiting)
  {
    assert RWInv(RW(w, l));
    MeReady(w);
    Located(w, OnWLock(l));
    Located(w, OnRLock(l));
  }

  lemma RWWakingPc(w: World, op: Op)
    requires PlaceInv(w) && PcInv(w) && PartsInv(w) && Enabled(w, op)
    requires op.RUnlockOp? || op.WUnlockOp?
    ensures PcInv(Next(w, op))
  {
    hide *;
    StepIs(w, op);
    CallIs(w, op);
    RWCaller(w, op.l);
    if op.RUnlockOp? { RUnlockPc(w, op.l); } else { WUnlockPc(w, op.l); }
  }

  lemma WakingStepPc(w: World, op: Op)
    requires PlaceInv(w) && PcInv(w) && Enabled(w, op)
    requires op.QUnlockOp? || op.TaskSleep? || op.TaskWakeup?
    ensures PcInv(Next(w, op))
  {
    hide *;
    StepIs(w, op);
    CallIs(w, op);
    CallerNotFired(w);
    match op
    case QUnlockOp(l) =>
      WaitersLocated(w, l);
      QUnlockPc(w, l);
    case TaskSleep(r) =>
      if r in w.rzl { WaitersLocated(w, w.rzl[r]); }
      SleepPc(w, r);
    case TaskWakeup(r, all) =>
      WaitersLocated(w, r);
      WakeupPc(w, r, all);
  }

  /** The next task id is not in use, also not by a task that a peer has served. */
  lemma FreshFired(w: World)
    requires PcInv(w) && FreshId(w)
    ensures w.s.idgen + 1 !in w.cs.fired
  {
  }

  predicate MayBlock(op: Op) {
    op.QLockOp? || op.RLockOp? || op.WLockOp? || op.TaskDelay? || op.FdWait? || op.FdPass?
  }

  lemma BlockingOps(op: Op)
    ensures MayBlock(op) <==>
              op.QLockOp? || op.RLockOp? || op.WLockOp? || op.TaskDelay? || op.FdWait? || op.FdPass?
  {
  }

  lemma CallerNotFired(w: World)
    requires PcInv(w) && w.s.running.Some? && Me(w) in w.pc
    ensures UserPc(w.pc[Me(w)]) || FdPc(w.pc[Me(w)]) ==> Me(w) !in w.cs.fired
  {
  }

  lemma LockStepPc(w: World, op: Op)
    requires PcInv(w) && Enabled(w, op) && (op.QLockOp? || op.RLockOp? || op.WLockOp?)
    ensures PcInv(Next(w, op))
  {
    hide *;
    StepIs(w, op);
    CallIs(w, op);
    CallerNotFired(w);
    match op
    case QLockOp(l, block) => QLockOpPc(w, l, block);
    case RLockOp(l, block) => RLockPc(w, l, block);
    case WLockOp(l, block) => WLockPc(w, l, block);
  }

  lemma FdStepPc(w: World, op: Op)
    requires PlaceInv(w) && PcInv(w) && Enabled(w, op) && (op.TaskDelay? || op.FdWait? || op.FdPass?)
    ensures PcInv(Next(w, op))
  {
    hide *;
    StepIs(w, op);
    CallIs(w, op);
    ReadyLocated(w);
    FreshFired(w);
    CallerNotFired(w);
    match op
    case TaskDelay(ms, now) => DelayPc(w, ms, now);
    case FdWait(fd, rw) => FdWaitPc(w, fd, Bits(rw));
    case FdPass(rev, _, now2) => FdPassPc(w, rev, now2);
  }

  lemma OtherStepPc(w: World, op: Op)
    requires PlaceInv(w) && PcInv(w) && PartsInv(w) && Enabled(w, op) && !MayBlock(op)
    requires !op.QUnlockOp? && !op.RUnlockOp? && !op.WUnlockOp? && !op.TaskSleep? && !op.TaskWakeup?
    ensures PcInv(Next(w, op))
  {
    hide *;
    StepIs(w, op);
    BlockingOps(op);
    ReadyLocated(w);
    FreshFired(w);
    if op != SchedDispatch {
      CallIs(w, op);
      CallerNotFired(w);
    }
    match op
    case SchedDispatch => DispatchPc(w);
    case TaskCreate => SpawnPc(w, User);
    case TaskSystem => SystemPc(w);
    case TaskYield => YieldPc(w, InYield(w.s.nswitch, |w.s.runq|));
    case TaskExit(v) => ExitPc(w, v);
    case TaskExitAll(v) => SimplePc(w, 0, 0, v);
    case ChanCreate(c, b) => SimplePc(w, c, b, 0);
    case ChanAlt(alts, canblock, i, peer) => AltPc(w, alts, canblock, i, peer);
    case Return(now) => ReturnPc(w, now);
  }

  lemma StepPcInv(w: World, op: Op)
    requires PlaceInv(w) && PcInv(w) && PartsInv(w) && Enabled(w, op)
    ensures PcInv(Next(w, op))
  {
    hide PlaceInv; hide PcInv; hide PartsInv; hide Next; hide Enabled;
    if op.QUnlockOp? || op.TaskSleep? || op.TaskWakeup? {
      WakingStepPc(w, op);
    } else if op.RUnlockOp? || op.WUnlockOp? {
      RWWakingPc(w, op);
    } else if op.QLockOp? || op.RLockOp? || op.WLockOp? {
      LockStepPc(w, op);
    } else if MayBlock(op) {
      FdStepPc(w, op);
    } else {
      OtherStepPc(w, op);
    }
  }
}
