/**
 Every lock in every run of the library goes through a run of module LockRuns, so its
 fairness theorems hold there; and what a task may rely on when a blocking call returns.
 */
module LockTheorems {
  import opened Util
  import opened LockSpec
  import opened FdSpec
  import opened World
  import opened Places
  import opened PcProofs
  import opened Parts
  import opened Runs
  import LR = LockRuns
  import CS = ChanSpec

  // ---- What a step of the library is for one lock ----

  function QCallOf(w: World, op: Op, l: nat): seq<LR.QCall<Tid>> {
    if w.s.running.None? then []
    else
      match op
      case QLockOp(m, block) => if m == l then [LR.QAcquire(Me(w), block)] else []
      case QUnlockOp(m) => if m == l then [LR.QUnlock] else []
      case TaskSleep(r) => if r in w.rzl && w.rzl[r] == l then [LR.QUnlock] else []
      case Return(_) =>
        if Me(w) in w.pc && w.pc[Me(w)].InSleep? && w.pc[Me(w)].r in w.rzl && w.rzl[w.pc[Me(w)].r] == l
        then [LR.QAcquire(Me(w), true)] else []
      case _ => []
  }

  function RWCallOf(w: World, op: Op, l: nat): seq<LR.RWCall<Tid>> {
    if w.s.running.None? then []
    else
      match op
      case RLockOp(m, block) => if m == l then [LR.RAcquire(Me(w), block)] else []
      case WLockOp(m, block) => if m == l then [LR.WAcquire(Me(w), block)] else []
      case RUnlockOp(m) => if m == l then [LR.RUnlock(Me(w))] else []
      case WUnlockOp(m) => if m == l then [LR.WUnlock(Me(w))] else []
      case _ => []
  }

  function RzCallOf(w: World, op: Op, r: nat): seq<LR.RzCall<Tid>> {
    if w.s.running.None? then []
    else
      match op
      case TaskSleep(q) => if q == r then [LR.RzSleep(Me(w))] else []
      case TaskWakeup(q, all) => if q == r then [LR.RzWake(all)] else []
      case _ => []
  }

  lemma RWSame(w: World, op: Op)
    requires Enabled(w, op) && (op.QLockOp? || op.QUnlockOp? || op.TaskSleep? || op.ChanCreate? || op.Return?)
    ensures Next(w, op).rw == w.rw
  {
    if op.Return? {
      ReturnSame(w, op.now);
      hide DoReturn;
    } else if op.QLockOp? {
      assert Next(w, op) == DoQLock(w, op.l, op.block);
    } else if op.TaskSleep? {
      assert Next(w, op) == DoSleep(w, op.r);
    }
  }

  lemma RelockSame(w: World, r: nat)
    requires w.s.running.Some?
    ensures DoRelock(w, r).rw == w.rw && DoRelock(w, r).rz == w.rz
  {
    if r !in w.rzl {
      assert DoRelock(w, r) == Continue(w);
    }
  }

  lemma ReturnSame(w: World, now: nat)
    requires w.s.running.Some? && Me(w) in w.pc
    ensures DoReturn(w, now).rw == w.rw && DoReturn(w, now).rz == w.rz
    ensures !w.pc[Me(w)].InSleep? ==> DoReturn(w, now).ql == w.ql
  {
    if w.pc[Me(w)].InSleep? {
      RelockSame(w, w.pc[Me(w)].r);
      hide DoRelock;
    } else {
      assert DoReturn(w, now) == Abort(w) || DoReturn(w, now) == Continue(w) ||
             w.pc[Me(w)].InAlt? || w.pc[Me(w)].InDelay?;
    }
  }

  lemma RWOpSame(w: World, op: Op)
    requires Enabled(w, op) && (op.RLockOp? || op.WLockOp? || op.RUnlockOp? || op.WUnlockOp?)
    ensures Next(w, op).ql == w.ql && Next(w, op).rz == w.rz
  {
    hide RRelease; hide WRelease; hide RTry; hide WTry;
  }

  lemma AltSame(w: World, op: Op)
    requires Enabled(w, op) && op.ChanAlt?
    ensures Next(w, op).ql == w.ql && Next(w, op).rw == w.rw && Next(w, op).rz == w.rz
  {
    AltShape(w, op.alts, op.canblock, op.i, op.peer);
    hide DoAlt; hide CS.AltsOk; hide CS.ChoiceOk;
  }

  lemma QLockCall(w: World, l: nat, block: bool, m: nat)
    requires w.s.running.Some?
    ensures QL(DoQLock(w, m, block), l) == if m == l then LR.QNext(QL(w, l), LR.QAcquire(Me(w), block)) else QL(w, l)
  {
  }

  lemma QUnlockCall(w: World, l: nat, m: nat)
    requires QL(w, m).owner.Some?
    ensures QL(DoQUnlock(w, m), l) == if m == l then LR.QNext(QL(w, l), LR.QUnlock) else QL(w, l)
  {
  }

  lemma SleepCall(w: World, l: nat, r: nat)
    requires w.s.running.Some? && (r in w.rzl ==> QL(w, w.rzl[r]).owner.Some?)
    ensures QL(DoSleep(w, r), l) ==
            if r in w.rzl && w.rzl[r] == l then LR.QNext(QL(w, l), LR.QUnlock) else QL(w, l)
  {
  }

  lemma RelockCall(w: World, l: nat, r: nat)
    requires w.s.running.Some?
    ensures QL(DoRelock(w, r), l) ==
            if r in w.rzl && w.rzl[r] == l then LR.QNext(QL(w, l), LR.QAcquire(Me(w), true)) else QL(w, l)
  {
  }

  lemma ReturnCall(w: World, l: nat, now: nat)
    requires Enabled(w, Return(now))
    ensures var cs := QCallOf(w, Return(now), l);
            if cs == [] then QL(DoReturn(w, now), l) == QL(w, l)
            else LR.QAllowed(QL(w, l), cs[0]) && QL(DoReturn(w, now), l) == LR.QNext(QL(w, l), cs[0])
  {
    ReturnSame(w, now);
    if w.pc[Me(w)].InSleep? { RelockCall(w, l, w.pc[Me(w)].r); }
    hide DoRelock;
  }

  /** A step of the library either leaves lock `l` alone or is one allowed call on it. */
  lemma QProject(w: World, op: Op, l: nat)
    requires Enabled(w, op)
    ensures var cs := QCallOf(w, op, l);
            if cs == [] then QL(Next(w, op), l) == QL(w, l)
            else |cs| == 1 && LR.QAllowed(QL(w, l), cs[0]) && QL(Next(w, op), l) == LR.QNext(QL(w, l), cs[0])
  {
    if LeavesPartsAlone(op) {
      OtherApart(w, op);
    } else if op.RLockOp? || op.WLockOp? || op.RUnlockOp? || op.WUnlockOp? {
      RWOpSame(w, op);
    } else if op.ChanAlt? {
      AltSame(w, op);
    } else {
      hide DoQLock; hide DoQUnlock; hide DoSleep; hide DoReturn;
      match op
      case QLockOp(m, block) => QLockCall(w, l, block, m);
      case QUnlockOp(m) => QUnlockCall(w, l, m);
      case TaskSleep(r) => SleepCall(w, l, r);
      case Return(now) => ReturnCall(w, l, now);
      case ChanCreate(_, _) =>
    }
  }

  lemma RLockCall(w: World, l: nat, block: bool, m: nat)
    requires w.s.running.Some?
    ensures RW(DoRLock(w, m, block), l) == if m == l then LR.RWNext(RW(w, l), LR.RAcquire(Me(w), block)) else RW(w, l)
  {
    assert DoRLock(w, m, block).rw == w.rw[m := RTry(RW(w, m), Me(w), block).0];
    hide DoRLock;
  }

  lemma WLockCall(w: World, l: nat, block: bool, m: nat)
    requires w.s.running.Some?
    ensures RW(DoWLock(w, m, block), l) == if m == l then LR.RWNext(RW(w, l), LR.WAcquire(Me(w), block)) else RW(w, l)
  {
    assert DoWLock(w, m, block).rw == w.rw[m := WTry(RW(w, m), Me(w), block).0];
    hide DoWLock;
  }

  lemma RUnlockCall(w: World, l: nat, m: nat)
    requires w.s.running.Some?
    ensures RW(DoRUnlock(w, m), l) == if m == l then LR.RWNext(RW(w, l), LR.RUnlock(Me(w))) else RW(w, l)
  {
  }

  lemma WUnlockCall(w: World, l: nat, m: nat)
    requires w.s.running.Some?
    ensures RW(DoWUnlock(w, m), l) == if m == l then LR.RWNext(RW(w, l), LR.WUnlock(Me(w))) else RW(w, l)
  {
  }

  lemma RWUnlockProject(w: World, op: Op, l: nat)
    requires Enabled(w, op) && (op.RUnlockOp? || op.WUnlockOp?)
    requires Me(w) !in RW(w, l).rwaiting && Me(w) !in RW(w, l).wwaiting
    ensures var cs := RWCallOf(w, op, l);
            if cs == [] then RW(Next(w, op), l) == RW(w, l)
            else |cs| == 1 && LR.RWAllowed(RW(w, l), cs[0]) && RW(Next(w, op), l) == LR.RWNext(RW(w, l), cs[0])
  {
    hide DoRUnlock; hide DoWUnlock; hide RW; hide LR.RWNext;
    RUnlockCall(w, l, op.l);
    WUnlockCall(w, l, op.l);
  }

  lemma RWLockProject(w: World, op: Op, l: nat)
    requires Enabled(w, op) && (op.RLockOp? || op.WLockOp?)
    requires Me(w) !in RW(w, l).rwaiting && Me(w) !in RW(w, l).wwaiting
    ensures var cs := RWCallOf(w, op, l);
            if cs == [] then RW(Next(w, op), l) == RW(w, l)
            else |cs| == 1 && LR.RWAllowed(RW(w, l), cs[0]) && RW(Next(w, op), l) == LR.RWNext(RW(w, l), cs[0])
  {
    hide DoRLock; hide DoWLock; hide RW; hide LR.RWNext;
    RLockCall(w, l, op.block, op.l);
    WLockCall(w, l, op.block, op.l);
  }

  /** A step of the library either leaves reader-writer lock `l` alone or is one allowed call on it. */
  lemma RWProject(w: World, op: Op, l: nat)
    requires PlaceInv(w) && Enabled(w, op)
    ensures var cs := RWCallOf(w, op, l);
            if cs == [] then RW(Next(w, op), l) == RW(w, l)
            else |cs| == 1 && LR.RWAllowed(RW(w, l), cs[0]) && RW(Next(w, op), l) == LR.RWNext(RW(w, l), cs[0])
  {
    if w.s.running.Some? { RunningNotQueued(w, l); }
    hide PlaceInv;
    if op.RLockOp? || op.WLockOp? {
      RWLockProject(w, op, l);
    } else if op.RUnlockOp? || op.WUnlockOp? {
      RWUnlockProject(w, op, l);
    } else {
      assert RWCallOf(w, op, l) == [];
      hide RWCallOf;
      if LeavesPartsAlone(op) { OtherApart(w, op); } else if op.ChanAlt? { AltSame(w, op); } else { RWSame(w, op); }
      hide Next;
    }
  }

  lemma SleepRz(w: World, r: nat, q: nat)
    requires w.s.running.Some? && w.status == Going && (q in w.rzl ==> QL(w, w.rzl[q]).owner.Some?)
    ensures RZ(DoSleep(w, q), r) == if q == r then RZ(w, r) + [Me(w)] else RZ(w, r)
  {
  }

  lemma WakeupRz(w: World, r: nat, q: nat, all: bool)
    ensures RZ(DoWakeup(w, q, all), r) == if q == r then Wakeup(RZ(w, r), all).0 else RZ(w, r)
    ensures DoWakeup(w, q, all).s.runq == w.s.runq + Wakeup(RZ(w, q), all).1
  {
  }

  lemma RestRz(w: World, r: nat, val: int, c: nat, bufsize: nat)
    ensures RZ(DoDispatch(w), r) == RZ(w, r) && RZ(Spawn(w, User), r) == RZ(w, r)
    ensures RZ(DoExitAll(w, val), r) == RZ(w, r) && RZ(DoChanCreate(w, c, bufsize), r) == RZ(w, r)
    ensures w.s.running.Some? ==> RZ(DoSystem(w), r) == RZ(w, r) && RZ(YieldAt(w, InYield(w.s.nswitch, |w.s.runq|)), r) == RZ(w, r)
    ensures w.s.running.Some? && Me(w) in w.s.all ==> RZ(DoExit(w, val), r) == RZ(w, r)
  {
  }

  lemma DelayRz(w: World, r: nat, ms: nat, now: nat)
    requires w.s.running.Some?
    ensures RZ(DoDelay(w, ms, now), r) == RZ(w, r)
  {
    hide Delay;
  }

  lemma FdWaitRz(w: World, r: nat, fd: int, ev: int)
    requires w.s.running.Some?
    ensures RZ(DoFdWait(w, fd, ev), r) == RZ(w, r)
  {
  }

  lemma PassRz(w: World, r: nat, rev: seq<int>, now: nat)
    requires w.s.running.Some? && Me(w) in w.pc && |rev| == |w.fd.slots|
    ensures RZ(DoFdPass(w, rev, now), r) == RZ(w, r)
  {
  }

  lemma QRz(w: World, r: nat, l: nat, block: bool)
    requires w.s.running.Some?
    ensures RZ(DoQLock(w, l, block), r) == RZ(w, r) && RZ(DoQUnlock(w, l), r) == RZ(w, r)
  {
  }

  lemma RzProject(w: World, op: Op, r: nat)
    requires Enabled(w, op)
    ensures var cs := RzCallOf(w, op, r);
            if cs == [] then RZ(Next(w, op), r) == RZ(w, r)
            else |cs| == 1 && RZ(Next(w, op), r) == LR.RzNext(RZ(w, r), cs[0])
  {
    if op.TaskSleep? {
      SleepRz(w, r, op.r);
      hide DoSleep;
    } else if op.TaskWakeup? {
      WakeupRz(w, r, op.r, op.all);
      hide DoWakeup;
    } else {
      assert RzCallOf(w, op, r) == [];
      hide RzCallOf;
      NoRendez(w, op, r);
      hide Next;
    }
  }

  /** Calls that have nothing to do with rendezvous points. */
  lemma NoRendez(w: World, op: Op, r: nat)
    requires Enabled(w, op) && !op.TaskSleep? && !op.TaskWakeup?
    ensures RZ(Next(w, op), r) == RZ(w, r)
  {
    if op.ChanAlt? {
      AltSame(w, op);
      hide Next;
    } else if op.RLockOp? || op.WLockOp? || op.RUnlockOp? || op.WUnlockOp? {
      RWOpSame(w, op);
      hide Next;
    } else if op.TaskDelay? || op.FdWait? || op.FdPass? {
      TimerOpRz(w, op, r);
      hide Next;
    } else if op.QLockOp? || op.QUnlockOp? || op.Return? {
      QOpRz(w, op, r);
      hide Next;
    } else {
      RestOpRz(w, op, r);
      hide Next;
    }
  }

  lemma TimerOpRz(w: World, op: Op, r: nat)
    requires Enabled(w, op) && (op.TaskDelay? || op.FdWait? || op.FdPass?)
    ensures RZ(Next(w, op), r) == RZ(w, r)
  {
    hide DoDelay; hide DoFdWait; hide DoFdPass; hide RZ;
    match op
    case TaskDelay(ms, now) => DelayRz(w, r, ms, now);
    case FdWait(fd, rw) => FdWaitRz(w, r, fd, Bits(rw));
    case FdPass(rev, _, now2) => PassRz(w, r, rev, now2);
  }

  lemma QOpRz(w: World, op: Op, r: nat)
    requires Enabled(w, op) && (op.QLockOp? || op.QUnlockOp? || op.Return?)
    ensures RZ(Next(w, op), r) == RZ(w, r)
  {
    hide DoQLock; hide DoQUnlock; hide DoReturn;
    match op
    case QLockOp(l, block) => QRz(w, r, l, block); hide RZ;
    case QUnlockOp(l) => QRz(w, r, l, false); hide RZ;
    case Return(now) => ReturnSame(w, now);
  }

  lemma RestOpRz(w: World, op: Op, r: nat)
    requires Enabled(w, op)
    requires op.ChanCreate? || op.TaskExit? || op.TaskExitAll? || op.SchedDispatch? || op.TaskCreate? || op.TaskSystem? || op.TaskYield?
    ensures RZ(Next(w, op), r) == RZ(w, r)
  {
    hide DoDispatch; hide Spawn; hide DoSystem; hide YieldAt; hide DoExit; hide DoExitAll; hide DoChanCreate; hide RZ;
    if op.ChanCreate? {
      RestRz(w, r, 0, op.c, op.bufsize);
    } else {
      RestRz(w, r, if op.TaskExit? || op.TaskExitAll? then op.val else 0, 0, 0);
    }
  }

  // ---- Runs ----

  function QCalls(ws: seq<World>, ops: seq<Op>, l: nat): seq<LR.QCall<Tid>>
    requires |ws| == |ops| + 1
  {
    if ops == [] then [] else QCallOf(ws[0], ops[0], l) + QCalls(ws[1..], ops[1..], l)
  }

  function RWCalls(ws: seq<World>, ops: seq<Op>, l: nat): seq<LR.RWCall<Tid>>
    requires |ws| == |ops| + 1
  {
    if ops == [] then [] else RWCallOf(ws[0], ops[0], l) + RWCalls(ws[1..], ops[1..], l)
  }

  function RzCalls(ws: seq<World>, ops: seq<Op>, r: nat): seq<LR.RzCall<Tid>>
    requires |ws| == |ops| + 1
  {
    if ops == [] then [] else RzCallOf(ws[0], ops[0], r) + RzCalls(ws[1..], ops[1..], r)
  }

  lemma StepsTail(ws: seq<World>, ops: seq<Op>)
    requires Steps(ws, ops) && ops != []
    ensures Steps(ws[1..], ops[1..]) && Enabled(ws[0], ops[0]) && ws[1] == Next(ws[0], ops[0])
    ensures |ws| == |ops| + 1
  {
    assert Enabled(ws[0], ops[0]);
    hide Enabled; hide Next;
    forall i | 0 <= i < |ops[1..]| ensures Enabled(ws[1..][i], ops[1..][i]) && ws[1..][i + 1] == Next(ws[1..][i], ops[1..][i]) {
      assert Enabled(ws[i + 1], ops[i + 1]);
    }
  }

  /** The first step of a run, for reader-writer lock `l`. */
  lemma FirstStep(ws: seq<World>, ops: seq<Op>, l: nat)
    requires Steps(ws, ops) && Inv(ws[0]) && |ws| == |ops| + 1 && ops != []
    ensures Steps(ws[1..], ops[1..]) && Inv(ws[1])
    ensures var cs := RWCallOf(ws[0], ops[0], l);
            if cs == [] then RW(ws[1], l) == RW(ws[0], l)
            else |cs| == 1 && LR.RWAllowed(RW(ws[0], l), cs[0]) && RW(ws[1], l) == LR.RWNext(RW(ws[0], l), cs[0])
  {
    StepsTail(ws, ops);
    assert Enabled(ws[0], ops[0]) && ws[1] == Next(ws[0], ops[0]);
    hide Inv; hide Steps; hide Enabled; hide Next; hide RW; hide RWCallOf; hide LR.RWNext; hide LR.RWAllowed;
    StepInv(ws[0], ops[0]);
    InvPlace(ws[0]);
    RWProject(ws[0], ops[0], l);
  }

  /** Every stretch of a run of the library is, for each QLock, a run of that lock. */
  lemma {:induction false} QRunProject(ws: seq<World>, ops: seq<Op>, l: nat)
    requires Steps(ws, ops) && |ws| == |ops| + 1
    ensures LR.QRun(QL(ws[0], l), QCalls(ws, ops, l))
    ensures LR.QAfter(QL(ws[0], l), QCalls(ws, ops, l)) == QL(ws[|ops|], l)
    decreases |ops|
  {
    if ops != [] {
      StepsTail(ws, ops);
      QProject(ws[0], ops[0], l);
      hide Steps; hide Enabled; hide Next; hide QL; hide QCallOf;
      QRunProject(ws[1..], ops[1..], l);
      var c := QCallOf(ws[0], ops[0], l);
      if c != [] { assert (c + QCalls(ws[1..], ops[1..], l))[1..] == QCalls(ws[1..], ops[1..], l); }
      else { assert c + QCalls(ws[1..], ops[1..], l) == QCalls(ws[1..], ops[1..], l); }
    }
  }

  /**
   QLock in the library: along any run from start-up, the tasks that asked for the lock are
   granted it in the order in which they asked, the rest being those that still wait.
   */
  lemma QLockFifo(rzl: map<nat, nat>, ws: seq<World>, ops: seq<Op>, l: nat)
    requires IsRun(rzl, ws, ops) && |ws| == |ops| + 1
    ensures LR.QRequests(QLock(None, []), QCalls(ws, ops, l)) ==
            LR.QGrants(QLock(None, []), QCalls(ws, ops, l)) + QL(ws[|ops|], l).waiting
  {
    var free: QLock<Tid> := QLock(None, []);
    assert QL(ws[0], l) == free;
    QRunProject(ws, ops, l);
    hide Steps; hide IsRun; hide QL;
    LR.QLockIsFifo(free, QCalls(ws, ops, l));
    assert [] + LR.QRequests(free, QCalls(ws, ops, l)) == LR.QRequests(free, QCalls(ws, ops, l));
  }

  /** Every stretch of a run of the library is, for each RWLock, a run of that lock. */
  lemma {:induction false} RWRunProject(ws: seq<World>, ops: seq<Op>, l: nat)
    requires Steps(ws, ops) && Inv(ws[0]) && |ws| == |ops| + 1
    ensures LR.RWRun(RW(ws[0], l), RWCalls(ws, ops, l))
    ensures LR.RWAfter(RW(ws[0], l), RWCalls(ws, ops, l)) == RW(ws[|ops|], l)
    decreases |ops|
  {
    if ops == [] {
      hide RW; hide Steps; hide Inv;
    } else {
      FirstStep(ws, ops, l);
      hide *;
      RWCallsFirst(ws, ops, l);
      RWRunProject(ws[1..], ops[1..], l);
      RWRunMore(RW(ws[0], l), RWCallOf(ws[0], ops[0], l), RWCalls(ws[1..], ops[1..], l), RW(ws[1], l));
    }
  }

  lemma RWRunMore(k: RWLock<Tid>, c: seq<LR.RWCall<Tid>>, cs: seq<LR.RWCall<Tid>>, k1: RWLock<Tid>)
    requires if c == [] then k1 == k else |c| == 1 && LR.RWAllowed(k, c[0]) && k1 == LR.RWNext(k, c[0])
    requires LR.RWRun(k1, cs)
    ensures LR.RWRun(k, c + cs) && LR.RWAfter(k, c + cs) == LR.RWAfter(k1, cs)
  {
    if c == [] { assert c + cs == cs; } else { assert (c + cs)[1..] == cs; }
    hide LR.RWNext; hide LR.RWAllowed;
  }

  lemma InvPlace(w: World)
    requires Inv(w)
    ensures PlaceInv(w) && PcInv(w) && PartsInv(w)
  {
    hide PlaceInv; hide PcInv; hide PartsInv;
  }

  lemma RWCallsFirst(ws: seq<World>, ops: seq<Op>, l: nat)
    requires |ws| == |ops| + 1 && ops != []
    ensures RWCalls(ws, ops, l) == RWCallOf(ws[0], ops[0], l) + RWCalls(ws[1..], ops[1..], l)
  {
  }

  lemma NoCalls(ws: seq<World>, l: nat, t: Tid)
    requires |ws| == 1
    ensures t in RW(ws[0], l).rwaiting ==> LR.ReaderWaits(RW(ws[0], l), RWCalls(ws, [], l), t)
    ensures t in RW(ws[0], l).wwaiting ==> LR.WriterWaits(RW(ws[0], l), RWCalls(ws, [], l), t)
  {
  }

  lemma TailStates(ws: seq<World>)
    requires |ws| > 1
    ensures ws[1..][0] == ws[1] && |ws[1..]| == |ws| - 1
    ensures forall i :: 0 <= i < |ws[1..]| ==> ws[1..][i] == ws[i + 1]
  {
  }

  /** Waiting for a read lock in every state of the library is waiting in every state of the lock. */
  lemma {:induction false} ReaderWaitsProject(ws: seq<World>, ops: seq<Op>, l: nat, r: Tid)
    requires Steps(ws, ops) && Inv(ws[0]) && |ws| == |ops| + 1
    requires forall i :: 0 <= i < |ws| ==> r in RW(ws[i], l).rwaiting
    ensures LR.ReaderWaits(RW(ws[0], l), RWCalls(ws, ops, l), r)
    decreases |ops|
  {
    hide *;
    assert r in RW(ws[0], l).rwaiting;
    if ops == [] {
      NoCalls(ws, l, r);
    } else {
      FirstStep(ws, ops, l);
      RWCallsFirst(ws, ops, l);
      TailStates(ws);
      ReaderWaitsProject(ws[1..], ops[1..], l, r);
      LR.ReaderWaitsMore(RW(ws[0], l), RWCallOf(ws[0], ops[0], l), RWCalls(ws[1..], ops[1..], l), RW(ws[1], l), r);
    }
  }

  lemma {:induction false} WriterWaitsProject(ws: seq<World>, ops: seq<Op>, l: nat, t: Tid)
    requires Steps(ws, ops) && Inv(ws[0]) && |ws| == |ops| + 1
    requires forall i :: 0 <= i < |ws| ==> t in RW(ws[i], l).wwaiting
    ensures LR.WriterWaits(RW(ws[0], l), RWCalls(ws, ops, l), t)
    decreases |ops|
  {
    hide *;
    assert t in RW(ws[0], l).wwaiting;
    if ops == [] {
      NoCalls(ws, l, t);
    } else {
      FirstStep(ws, ops, l);
      RWCallsFirst(ws, ops, l);
      TailStates(ws);
      WriterWaitsProject(ws[1..], ops[1..], l, t);
      LR.WriterWaitsMore(RW(ws[0], l), RWCallOf(ws[0], ops[0], l), RWCalls(ws[1..], ops[1..], l), RW(ws[1], l), t);
    }
  }

  lemma LockFacts(w: World, l: nat)
    requires Inv(w)
    ensures RWInv(RW(w, l)) && NoDup(RW(w, l).wwaiting) && NoDup(RW(w, l).rwaiting)
  {
    assert RWInv(RW(w, l));
    assert NoDup(Queue(w, OnWLock(l))) && NoDup(Queue(w, OnRLock(l)));
  }

  /** While a task of the library waits for a read lock, at most one more writer is let in. */
  lemma ReaderBound(ws: seq<World>, ops: seq<Op>, l: nat, r: Tid)
    requires Steps(ws, ops) && Inv(ws[0]) && |ws| == |ops| + 1
    requires forall i :: 0 <= i < |ws| ==> r in RW(ws[i], l).rwaiting
    ensures LR.WriterGrants(RW(ws[0], l), RWCalls(ws, ops, l)) <= (if RW(ws[0], l).writer.None? then 1 else 0)
  {
    LockFacts(ws[0], l);
    hide Inv; hide Steps;
    RWRunProject(ws, ops, l);
    ReaderWaitsProject(ws, ops, l, r);
    LR.ReaderOvertaking(RW(ws[0], l), RWCalls(ws, ops, l), r);
  }

  /**
   A task of the library that waits for the write lock at position `k` is granted it, when it
   leaves the queue, after exactly `k` other writers and at most `k + 1` batches of readers.
   */
  lemma WriterBound(ws: seq<World>, ops: seq<Op>, op: Op, l: nat, t: Tid, k: nat)
    requires Steps(ws, ops) && Inv(ws[0]) && |ws| == |ops| + 1
    requires k < |RW(ws[0], l).wwaiting| && RW(ws[0], l).wwaiting[k] == t
    requires forall i :: 0 <= i < |ws| ==> t in RW(ws[i], l).wwaiting
    requires Enabled(ws[|ops|], op) && t !in RW(Next(ws[|ops|], op), l).wwaiting
    ensures RW(Next(ws[|ops|], op), l).writer == Some(t)
    ensures LR.WriterGrants(RW(ws[0], l), RWCalls(ws, ops, l)) == k
    ensures LR.ReaderBatches(RW(ws[0], l), RWCalls(ws, ops, l)) <= k + 1
  {
    LockFacts(ws[0], l);
    hide Inv; hide Steps; hide RW; hide Next; hide Enabled; hide RWCallOf;
    var e := ws[|ops|];
    assert t in RW(e, l).wwaiting;
    StepsInv(ws, ops, |ops|);
    InvPlace(e);
    RWProject(e, op, l);
    RWRunProject(ws, ops, l);
    WriterWaitsProject(ws, ops, l, t);
    LR.WriterOvertaking(RW(ws[0], l), RWCalls(ws, ops, l), RWCallOf(e, op, l)[0], t, k);
  }

  lemma {:induction false} RzRunProject(ws: seq<World>, ops: seq<Op>, r: nat)
    requires Steps(ws, ops) && |ws| == |ops| + 1
    ensures LR.RzAfter(RZ(ws[0], r), RzCalls(ws, ops, r)) == RZ(ws[|ops|], r)
    decreases |ops|
  {
    if ops != [] {
      StepsTail(ws, ops);
      RzProject(ws[0], ops[0], r);
      hide Steps; hide Enabled; hide Next; hide RZ; hide RzCallOf;
      RzRunProject(ws[1..], ops[1..], r);
      var c := RzCallOf(ws[0], ops[0], r);
      if c != [] { assert (c + RzCalls(ws[1..], ops[1..], r))[1..] == RzCalls(ws[1..], ops[1..], r); }
      else { assert c + RzCalls(ws[1..], ops[1..], r) == RzCalls(ws[1..], ops[1..], r); }
    }
  }

  /** Rendez in the library: sleepers are woken in the order in which they went to sleep, none is lost. */
  lemma RendezFifo(rzl: map<nat, nat>, ws: seq<World>, ops: seq<Op>, r: nat)
    requires IsRun(rzl, ws, ops) && |ws| == |ops| + 1
    ensures LR.RzSleeps(RzCalls(ws, ops, r)) == LR.RzWakes([], RzCalls(ws, ops, r)) + RZ(ws[|ops|], r)
  {
    assert RZ(ws[0], r) == [];
    RzRunProject(ws, ops, r);
    hide Steps; hide IsRun; hide RZ;
    LR.RendezIsFifo([], RzCalls(ws, ops, r));
    assert [] + LR.RzSleeps(RzCalls(ws, ops, r)) == LR.RzSleeps(RzCalls(ws, ops, r));
  }

  /** Step `op` is a wakeup of rendezvous point `r` that picks task `t`. */
  predicate Picks(w: World, op: Op, r: nat, t: Tid) {
    op.TaskWakeup? && op.r == r && t in Wakeup(RZ(w, r), op.all).1
  }

  /** tasksleep joins the sleepers, first or not, in the very step that releases the lock. */
  lemma SleepEnqueues(w: World, r: nat)
    requires Enabled(w, TaskSleep(r))
    ensures w.s.running.Some?
    ensures var w' := Next(w, TaskSleep(r));
            && RZ(w', r) == RZ(w, r) + [Me(w)]
            && (r in w.rzl ==> QL(w', w.rzl[r]) == LR.QNext(QL(w, w.rzl[r]), LR.QUnlock))
  {
    SleepRz(w, r, r);
    if r in w.rzl { SleepCall(w, w.rzl[r], r); }
    hide DoSleep; hide RZ; hide QL;
  }

  /** Only a wakeup that picks it takes a sleeper off the queue. */
  lemma SleeperStays(w: World, op: Op, r: nat, t: Tid)
    requires Enabled(w, op) && t in RZ(w, r) && !Picks(w, op, r, t)
    ensures t in RZ(Next(w, op), r)
  {
    RzProject(w, op, r);
    hide Next; hide Enabled; hide RZ;
    if op.TaskWakeup? && op.r == r {
      assert RZ(w, r) == Wakeup(RZ(w, r), op.all).1 + Wakeup(RZ(w, r), op.all).0;
    }
  }

  /** A wakeup that picks a sleeper takes it off the queue and puts it on the run queue. */
  lemma PickedIsReady(w: World, op: Op, r: nat, t: Tid)
    requires Inv(w) && Enabled(w, op) && Picks(w, op, r, t)
    ensures t !in RZ(Next(w, op), r) && t in Next(w, op).s.runq
  {
    RendezOnce(w, r);
    WakeupRz(w, r, r, op.all);
    WakeupSplits(RZ(w, r), op.all);
    WakeupIs(w, op);
    hide *;
  }

  lemma WakeupIs(w: World, op: Op)
    requires Enabled(w, op) && op.TaskWakeup?
    ensures Next(w, op) == DoWakeup(w, op.r, op.all)
  {
    hide DoWakeup;
  }

  lemma WakeupSplits(q: seq<Tid>, all: bool)
    requires NoDup(q)
    ensures q == Wakeup(q, all).1 + Wakeup(q, all).0
    ensures forall t :: t in Wakeup(q, all).1 ==> t !in Wakeup(q, all).0
  {
    NoDupSplit(q, |Wakeup(q, all).1|);
  }

  lemma RendezOnce(w: World, r: nat)
    requires Inv(w)
    ensures NoDup(RZ(w, r))
  {
    assert NoDup(Queue(w, OnRendez(r)));
  }

  lemma StepOf(ws: seq<World>, ops: seq<Op>, i: nat)
    requires Steps(ws, ops)
    ensures |ws| == |ops| + 1 && (i < |ops| ==> Enabled(ws[i], ops[i]) && ws[i + 1] == Next(ws[i], ops[i]))
  {
    hide Enabled; hide Next;
  }

  lemma {:induction false} SleeperStaysAlong(ws: seq<World>, ops: seq<Op>, i: nat, j: nat, r: nat, t: Tid)
    requires Steps(ws, ops) && i <= j < |ws| && t in RZ(ws[i], r)
    requires forall m :: i <= m < j ==> !Picks(ws[m], ops[m], r, t)
    ensures t in RZ(ws[j], r)
    decreases j
  {
    hide *;
    if i < j {
      StepOf(ws, ops, j - 1);
      SleeperStaysAlong(ws, ops, i, j - 1, r, t);
      SleeperStays(ws[j - 1], ops[j - 1], r, t);
    }
  }

  /**
   No wakeup is lost: from the step in which tasksleep releases the lock, its caller is on the
   queue for as long as no wakeup picks it.
   */
  lemma NoLostWakeup(ws: seq<World>, ops: seq<Op>, i: nat, j: nat, r: nat)
    requires Steps(ws, ops) && i < j < |ws| && ops[i] == TaskSleep(r) && ws[i].s.running.Some?
    requires forall m :: i < m < j ==> !Picks(ws[m], ops[m], r, Me(ws[i]))
    ensures Me(ws[i]) in RZ(ws[j], r)
    ensures r in ws[i].rzl ==> QL(ws[i + 1], ws[i].rzl[r]) == LR.QNext(QL(ws[i], ws[i].rzl[r]), LR.QUnlock)
  {
    hide *;
    StepOf(ws, ops, i);
    SleepEnqueues(ws[i], r);
    SleeperStaysAlong(ws, ops, i + 1, j, r, Me(ws[i]));
  }

  // ---- What a task may rely on when a blocking call returns ----

  /** The second half of qlock, rlock and wlock runs with the lock held. */
  lemma ReturnsWithLock(w: World, now: nat)
    requires Inv(w) && Enabled(w, Return(now))
    ensures match w.pc[Me(w)]
            case InQLock(l) => QL(w, l).owner == Some(Me(w))
            case InRLock(l) => Me(w) in RW(w, l).holders
            case InWLock(l) => RW(w, l).writer == Some(Me(w))
            case _ => true
  {
    InvPlace(w);
    hide Inv; hide PlaceInv; hide PartsInv;
    MeReady(w);
  }

  /** Whenever tasksleep returns on a rendezvous with a lock, its caller owns that lock. */
  lemma SleepReturnsWithLock(w: World, now: nat, r: nat)
    requires Inv(w) && Enabled(w, Return(now)) && r in w.rzl
    requires w.pc[Me(w)] == InSleep(r) || w.pc[Me(w)] == InRelock(r)
    ensures var w' := Next(w, Return(now));
            Me(w) in w'.pc && (w'.pc[Me(w)] == User ==> QL(w', w.rzl[r]).owner == Some(Me(w)))
  {
    hide Inv; hide PlaceInv; hide PartsInv; hide PcInv;
    InvPlace(w);
    MeReady(w);
    if w.pc[Me(w)] == InSleep(r) {
      RelockOwns(w, r);
      hide DoRelock; hide Claim;
    }
  }

  lemma RelockOwns(w: World, r: nat)
    requires w.s.running.Some? && r in w.rzl
    ensures var w' := DoRelock(w, r);
            Me(w) in w'.pc && (w'.pc[Me(w)] == User ==> QL(w', w.rzl[r]).owner == Some(Me(w)))
  {
  }
}
