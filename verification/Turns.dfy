/**
 Turns on the processor: what one step does to the run queue and to the tasks that are not
 running.  The run queue is a conveyor: it only grows at its end and is served at its head.
 */
module Turns {
  import opened Util
  import opened LockSpec
  import opened SchedSpec
  import opened FdSpec
  import opened FdProofs
  import opened World
  import opened Places
  import opened PcProofs
  import CS = ChanSpec

  predicate IsYield(pc: Pc) { pc.InYield? || pc.FdYield? }

  /**
   The running task makes a step: `us` become ready in this order, then perhaps the task
   itself if it yields.  Nobody else's program position changes.
   */
  ghost predicate Turn(w: World, w': World, us: seq<Tid>, yielded: bool) {
    && w.s.running.Some? && w.at.Keys == w.pc.Keys
    && w'.s.nswitch == w.s.nswitch && w'.s.log == w.s.log
    && w'.s.runq == w.s.runq + us + (if yielded then [Me(w)] else [])
    && (forall t :: t in w.pc && t != Me(w) ==> t in w'.pc && w'.pc[t] == w.pc[t])
    && (forall u :: u in us ==> u in w'.pc && !IsYield(w'.pc[u]))
    && (if yielded then
          && w'.s.running.None? && Me(w) in w'.pc && IsYield(w'.pc[Me(w)])
          && w'.pc[Me(w)].n == w.s.nswitch && w'.pc[Me(w)].ahead == |w.s.runq| + |us|
        else
          w'.s.running.None? || (w'.s.running == w.s.running && Me(w) in w'.pc && !IsYield(w'.pc[Me(w)])))
  }

  /** A step in which nobody becomes ready. */
  lemma QuietTurn(w: World, w': World)
    requires w.s.running.Some? && w.at.Keys == w.pc.Keys
    requires w'.s.nswitch == w.s.nswitch && w'.s.log == w.s.log && w'.s.runq == w.s.runq
    requires forall t :: t in w.pc && t != Me(w) ==> t in w'.pc && w'.pc[t] == w.pc[t]
    requires w'.s.running.None? || (w'.s.running == w.s.running && Me(w) in w'.pc && !IsYield(w'.pc[Me(w)]))
    ensures Turn(w, w', [], false)
  {
  }

  /** Waking tasks that wait somewhere. */
  lemma WakeTurn(w: World, w': World, us: seq<Tid>)
    requires w.s.running.Some? && w.at.Keys == w.pc.Keys && Me(w) in w.pc
    requires w'.s.nswitch == w.s.nswitch && w'.s.log == w.s.log && w'.s.runq == w.s.runq + us
    requires w'.pc.Keys == w.pc.Keys
    requires w'.s.running.None? || (w'.s.running == w.s.running && !IsYield(w'.pc[Me(w)]))
    requires forall t :: t in w.pc && t != Me(w) ==> w'.pc[t] == w.pc[t]
    requires forall u :: u in us ==> u in w.at && u != Me(w) && !Ready(w, u) && PcOk(w, u)
    ensures Turn(w, w', us, false)
  {
  }

  lemma AltTurn(w: World, alts: seq<CS.Alt<nat, int>>, canblock: bool, i: nat, peer: Option<CS.Entry<Tid>>) returns (us: seq<Tid>)
    requires PcInv(w) && w.s.running.Some? && UserPc(w.pc[Me(w)])
    requires CS.AltsOk(w.cs, alts) && CS.ChoiceOk(w.cs, alts, i, peer)
    requires SetsOk(w)
    ensures Turn(w, DoAlt(w, alts, canblock, i, peer), us, false)
  {
    var w' := DoAlt(w, alts, canblock, i, peer);
    var w1 := w.(cs := w'.cs);
    AltShape(w, alts, canblock, i, peer);
    MeReady(w);
    PcsOf(w);
    BlockIs(w1, InAltSet, InAlt);
    WakeIs(w1, if peer.Some? then [peer.value.k] else []);
    hide PcInv; hide DoAlt; hide Wake; hide Block; hide Turn;
    if w' == w1 || w' == Block(w1, InAltSet, InAlt) {
      us := [];
      QuietTurn(w, w');
    } else {
      us := [peer.value.k];
      WakeTurn(w, w', us);
    }
  }

  lemma PcsOf(w: World)
    requires PcInv(w)
    ensures w.at.Keys == w.pc.Keys && forall t :: t in w.at ==> PcOk(w, t)
  {
    hide PcOk;
  }

  lemma QUnlockTurn(w: World, l: nat) returns (us: seq<Tid>)
    requires PcInv(w) && w.s.running.Some? && UserPc(w.pc[Me(w)]) && QL(w, l).owner.Some?
    requires ListOk(w, OnQLock(l), QL(w, l).waiting)
    ensures Turn(w, DoQUnlock(w, l), us, false)
  {
    us := QRelease(QL(w, l)).value.1;
    WakeTurn(w, DoQUnlock(w, l), us);
  }

  lemma RUnlockTurn(w: World, l: nat) returns (us: seq<Tid>)
    requires PcInv(w) && w.s.running.Some? && UserPc(w.pc[Me(w)])
    requires ListOk(w, OnWLock(l), RW(w, l).wwaiting)
    ensures Turn(w, DoRUnlock(w, l), us, false)
  {
    us := RRelease(RW(w, l), Me(w)).1;
    WakeTurn(w, DoRUnlock(w, l), us);
  }

  lemma WUnlockTurn(w: World, l: nat) returns (us: seq<Tid>)
    requires PcInv(w) && w.s.running.Some? && UserPc(w.pc[Me(w)])
    requires ListOk(w, OnWLock(l), RW(w, l).wwaiting) && ListOk(w, OnRLock(l), RW(w, l).rwaiting)
    ensures Turn(w, DoWUnlock(w, l), us, false)
  {
    match WRelease(RW(w, l))
    case None =>
      us := [];
      QuietTurn(w, DoWUnlock(w, l));
    case Some(r) =>
      us := r.1;
      WakeTurn(w, DoWUnlock(w, l), us);
  }

  lemma SleepTurn(w: World, r: nat) returns (us: seq<Tid>)
    requires PcInv(w) && w.s.running.Some? && UserPc(w.pc[Me(w)]) && w.status == Going
    requires r in w.rzl ==> QL(w, w.rzl[r]).owner.Some?
    requires r in w.rzl ==> ListOk(w, OnQLock(w.rzl[r]), QL(w, w.rzl[r]).waiting)
    ensures Turn(w, DoSleep(w, r), us, false)
  {
    if r in w.rzl {
      us := QRelease(QL(w, w.rzl[r])).value.1;
      WakeTurn(w, DoSleep(w, r), us);
    } else {
      us := [];
      QuietTurn(w, DoSleep(w, r));
    }
  }

  lemma WakeupTurn(w: World, r: nat, all: bool) returns (us: seq<Tid>)
    requires PcInv(w) && w.s.running.Some? && UserPc(w.pc[Me(w)])
    requires ListOk(w, OnRendez(r), RZ(w, r))
    ensures Turn(w, DoWakeup(w, r, all), us, false)
  {
    us := Wakeup(RZ(w, r), all).1;
    WakeTurn(w, DoWakeup(w, r, all), us);
  }

  lemma SpawnTurn(w: World, pc: Pc) returns (us: seq<Tid>)
    requires PcInv(w) && w.s.running.Some? && UserPc(w.pc[Me(w)]) && (pc == User || pc == FdFresh)
    requires FreshId(w)
    ensures Turn(w, Spawn(w, pc), us, false)
  {
    us := [w.s.idgen + 1];
  }

  /** `w1` is `w` with fdtask started if it was not. */
  ghost predicate Started(w: World, w1: World, us: seq<Tid>) {
    && w1.s.runq == w.s.runq + us && w1.s.running == w.s.running
    && w1.s.nswitch == w.s.nswitch && w1.s.log == w.s.log
    && (forall t :: t in w.pc ==> t in w1.pc && w1.pc[t] == w.pc[t])
    && (forall u :: u in us ==> u in w1.pc && w1.pc[u] == FdFresh && u !in w.pc)
  }

  lemma StartFdEffect(w: World) returns (us: seq<Tid>)
    requires w.at.Keys == w.pc.Keys && FreshId(w)
    ensures Started(w, StartFd(w), us)
  {
    us := if w.fd.started then [] else [w.s.idgen + 1];
  }

  lemma StartedTurn(w: World, w1: World, w': World, us: seq<Tid>)
    requires w.s.running.Some? && w.at.Keys == w.pc.Keys && Me(w) in w.pc && UserPc(w.pc[Me(w)])
    requires Started(w, w1, us)
    requires w'.s.runq == w1.s.runq && w'.s.nswitch == w1.s.nswitch && w'.s.log == w1.s.log
    requires w'.pc.Keys == w1.pc.Keys && forall t :: t in w'.pc && t != Me(w) ==> w'.pc[t] == w1.pc[t]
    requires w'.s.running.None? || (w'.s.running == w.s.running && w'.pc == w1.pc)
    ensures Turn(w, w', us, false)
  {
    assert w.s.runq + us + [] == w'.s.runq;
  }

  lemma DelayTurn(w: World, ms: nat, now: nat) returns (us: seq<Tid>)
    requires PcInv(w) && w.s.running.Some? && UserPc(w.pc[Me(w)])
    requires FreshId(w)
    ensures Turn(w, DoDelay(w, ms, now), us, false)
  {
    us := StartFdEffect(w);
    var w1, w' := StartFd(w), DoDelay(w, ms, now);
    hide StartFd;
    assert w1.s.running == w.s.running && w1.pc.Keys >= {Me(w)};
    hide Started;
    hide Turn;
    StartedTurn(w, w1, w', us);
  }

  lemma FdWaitTurn(w: World, fd: int, events: int) returns (us: seq<Tid>)
    requires PcInv(w) && w.s.running.Some? && UserPc(w.pc[Me(w)])
    requires FreshId(w)
    ensures Turn(w, DoFdWait(w, fd, events), us, false)
  {
    us := StartFdEffect(w);
    var w1, w' := StartFd(w), DoFdWait(w, fd, events);
    hide StartFd;
    assert w1.s.running == w.s.running && w1.pc.Keys >= {Me(w)};
    EnterShape(w1, fd, events);
    hide Started; hide Turn; hide PcInv; hide EnterPollTable;
    StartedTurn(w, w1, w', us);
  }

  lemma EnterShape(w: World, fd: int, events: int)
    requires w.s.running.Some?
    ensures var w' := EnterPollTable(w, fd, events);
            || w' == Abort(w)
            || (w'.s == Switch(w.s) && w'.pc == w.pc[Me(w) := InFdWait])
  {
  }

  /** The tasks that one pass of the poll loop readies. */
  lemma PollRunq(w: World, rev: seq<int>, now: nat) returns (us: seq<Tid>)
    requires PlaceInv(w) && |rev| == |w.fd.slots|
    ensures DoPoll(w, rev, now).s.runq == w.s.runq + us
    ensures forall u :: u in us ==> u in w.at && (w.at[u] == Polling || w.at[u] == Asleep)
  {
    var slots := SetRevents(w.fd.slots, rev);
    var (kept, gone) := Sweep(slots, 0);
    var n := Due(w.fd.sleeping, now);
    var w1 := Wake(w.(fd := w.fd.(slots := kept)), Polled(gone));
    us := Polled(gone) + Names(w.fd.sleeping[..n]);
    WakeSleepersWakesDue(w1.fd, w1.s, now);
    assert w.s.runq + us == w.s.runq + Polled(gone) + Names(w.fd.sleeping[..n]);
    forall u | u in us ensures u in w.at && (w.at[u] == Polling || w.at[u] == Asleep) {
      assert Polled(slots) == Queue(w, Polling);
      assert NoDup(Queue(w, Polling));
      SweepTasks(slots, 0);
      if u in Polled(gone) {
        assert u in Elems(Polled(gone));
        assert u in Elems(Polled(slots));
        assert In(w, u, Polling);
      } else {
        var i :| 0 <= i < n && Names(w.fd.sleeping[..n])[i] == u;
        assert Names(w.fd.sleeping)[i] == u;
        assert In(w, u, Asleep);
      }
    }
  }

  lemma PollTurn(w: World, rev: seq<int>, now: nat, us: seq<Tid>)
    requires PcInv(w) && w.s.running.Some? && |rev| == |w.fd.slots| && w.pc[Me(w)].FdYield?
    requires DoPoll(w, rev, now).s.runq == w.s.runq + us
    requires forall u :: u in us ==> u in w.at && (w.at[u] == Polling || w.at[u] == Asleep)
    ensures var w1 := DoPoll(w, rev, now);
            Turn(w, YieldAt(w1, FdYield(w.s.nswitch, |w1.s.runq|)), us, true)
  {
    forall u | u in us ensures u in w.pc && !IsYield(w.pc[u]) && u != Me(w) {
      assert PcOk(w, u);
    }
    var w1 := DoPoll(w, rev, now);
    assert w.s.runq + us + [Me(w)] == w1.s.runq + [Me(w)];
  }

  lemma FdPassTurn(w: World, rev: seq<int>, now: nat) returns (us: seq<Tid>)
    requires PlaceInv(w) && PcInv(w) && w.s.running.Some? && FdPc(w.pc[Me(w)]) && |rev| == |w.fd.slots|
    ensures Turn(w, DoFdPass(w, rev, now), us, true)
  {
    us := [];
    if w.pc[Me(w)].FdFresh? {
      FreshTurn(w);
      hide Turn; hide PlaceInv; hide PcInv; hide YieldAt;
    } else if ReturnValue(w, now) <= 0 {
      us := PollRunq(w, rev, now);
      PollTurn(w, rev, now, us);
      hide Turn; hide PlaceInv; hide PcInv; hide YieldAt; hide DoPoll;
    } else {
      BusyTurn(w);
      hide Turn; hide PlaceInv; hide PcInv; hide YieldAt;
    }
  }

  /** The first turn of fdtask, and one that finds other tasks ready. */
  lemma FreshTurn(w: World)
    requires PcInv(w) && w.s.running.Some?
    ensures var w1 := w.(s := MarkSystem(w.s)); Turn(w, YieldAt(w1, FdYield(w.s.nswitch, |w1.s.runq|)), [], true)
  {
    assert w.s.runq + [] + [Me(w)] == w.s.runq + [Me(w)];
  }

  lemma BusyTurn(w: World)
    requires PcInv(w) && w.s.running.Some?
    ensures Turn(w, YieldAt(w, FdYield(w.s.nswitch, |w.s.runq|)), [], true)
  {
    assert w.s.runq + [] + [Me(w)] == w.s.runq + [Me(w)];
  }

  lemma RelockTurn(w: World, r: nat)
    requires PcInv(w) && w.s.running.Some?
    ensures Turn(w, DoRelock(w, r), [], false)
  {
    QuietTurn(w, DoRelock(w, r));
  }

  lemma ReturnEffect(w: World, now: nat)
    requires w.s.running.Some? && Me(w) in w.pc && !w.pc[Me(w)].InSleep?
    requires w.status == Going && DoReturn(w, now).status == Going
    ensures DoReturn(w, now).s == w.s && DoReturn(w, now).pc == w.pc[Me(w) := User]
  {
    ReturnShape(w, now);
    hide DoReturn; hide CS.Resume;
  }

  lemma ReturnTurn(w: World, now: nat)
    requires PcInv(w) && w.s.running.Some? && w.status == Going
    requires DoReturn(w, now).status == Going
    ensures Turn(w, DoReturn(w, now), [], false)
  {
    if w.pc[Me(w)].InSleep? {
      RelockTurn(w, w.pc[Me(w)].r);
    } else {
      ReturnEffect(w, now);
      QuietTurn(w, DoReturn(w, now));
    }
  }

  lemma QLockTurn(w: World, l: nat, block: bool)
    requires PcInv(w) && w.s.running.Some? && UserPc(w.pc[Me(w)])
    ensures Turn(w, DoQLock(w, l, block), [], false)
  {
    QuietTurn(w, DoQLock(w, l, block));
  }

  lemma RLockTurn(w: World, l: nat, block: bool)
    requires PcInv(w) && w.s.running.Some? && UserPc(w.pc[Me(w)])
    ensures Turn(w, DoRLock(w, l, block), [], false)
  {
    QuietTurn(w, DoRLock(w, l, block));
  }

  lemma WLockTurn(w: World, l: nat, block: bool)
    requires PcInv(w) && w.s.running.Some? && UserPc(w.pc[Me(w)])
    ensures Turn(w, DoWLock(w, l, block), [], false)
  {
    QuietTurn(w, DoWLock(w, l, block));
  }

  lemma ExitTurn(w: World, val: int)
    requires PcInv(w) && w.s.running.Some? && UserPc(w.pc[Me(w)]) && Me(w) in w.s.all
    ensures Turn(w, DoExit(w, val), [], false)
  {
    QuietTurn(w, DoExit(w, val));
  }

  lemma YieldTurn(w: World)
    requires PcInv(w) && w.s.running.Some? && UserPc(w.pc[Me(w)])
    ensures Turn(w, YieldAt(w, InYield(w.s.nswitch, |w.s.runq|)), [], true)
  {
    assert w.s.runq + [] + [Me(w)] == w.s.runq + [Me(w)];
  }

  lemma SimpleTurns(w: World, c: nat, bufsize: nat, val: int)
    requires PcInv(w) && w.s.running.Some? && UserPc(w.pc[Me(w)])
    ensures Turn(w, DoSystem(w), [], false)
    ensures Turn(w, DoExitAll(w, val), [], false)
    ensures Turn(w, DoChanCreate(w, c, bufsize), [], false)
  {
  }

  predicate Wakes(op: Op) {
    op.QUnlockOp? || op.RUnlockOp? || op.WUnlockOp? || op.TaskSleep? || op.TaskWakeup?
  }

  lemma WakingStepTurn(w: World, op: Op) returns (us: seq<Tid>)
    requires PlaceInv(w) && PcInv(w) && Enabled(w, op) && Wakes(op)
    ensures Turn(w, Next(w, op), us, false)
  {
    hide *;
    WakesCall(op);
    StepIs(w, op);
    CallIs(w, op);
    match op
    case QUnlockOp(l) =>
      WaitersLocated(w, l);
      us := QUnlockTurn(w, l);
    case RUnlockOp(l) =>
      WaitersLocated(w, l);
      us := RUnlockTurn(w, l);
    case WUnlockOp(l) =>
      WaitersLocated(w, l);
      us := WUnlockTurn(w, l);
    case TaskSleep(r) =>
      if r in w.rzl { WaitersLocated(w, w.rzl[r]); }
      us := SleepTurn(w, r);
    case TaskWakeup(r, all) =>
      WaitersLocated(w, r);
      us := WakeupTurn(w, r, all);
  }

  lemma OtherStepTurn(w: World, op: Op) returns (us: seq<Tid>)
    requires PlaceInv(w) && PcInv(w) && Enabled(w, op) && op != SchedDispatch && !Wakes(op)
    ensures Turn(w, Next(w, op), us, op.TaskYield? || op.FdPass?)
  {
    hide *;
    WakesCall(op);
    StepIs(w, op);
    CallIs(w, op);
    us := [];
    ReadyLocated(w);
    match op
    case TaskCreate => us := SpawnTurn(w, User);
    case TaskSystem => SimpleTurns(w, 0, 0, 0);
    case TaskYield => YieldTurn(w);
    case TaskExit(v) => ExitTurn(w, v);
    case TaskExitAll(v) => SimpleTurns(w, 0, 0, v);
    case ChanCreate(c, b) => SimpleTurns(w, c, b, 0);
    case ChanAlt(alts, canblock, i, peer) => us := AltTurn(w, alts, canblock, i, peer);
    case QLockOp(l, block) => QLockTurn(w, l, block);
    case RLockOp(l, block) => RLockTurn(w, l, block);
    case WLockOp(l, block) => WLockTurn(w, l, block);
    case TaskDelay(ms, now) => us := DelayTurn(w, ms, now);
    case FdWait(fd, rw) => us := FdWaitTurn(w, fd, Bits(rw));
    case Return(now) =>
      ReturnPc(w, now);
      ReturnTurn(w, now);
    case FdPass(rev, _, now2) => us := FdPassTurn(w, rev, now2);
  }

  /** Every step but a dispatch is a turn of the running task. */
  lemma StepTurn(w: World, op: Op) returns (us: seq<Tid>)
    requires PlaceInv(w) && PcInv(w) && Enabled(w, op) && op != SchedDispatch
    ensures Turn(w, Next(w, op), us, op.TaskYield? || op.FdPass?)
  {
    hide *;
    if Wakes(op) {
      us := WakingStepTurn(w, op);
      WakesNotYield(op);
    } else {
      us := OtherStepTurn(w, op);
    }
  }

  lemma WakesCall(op: Op)
    ensures Wakes(op) <==> op.QUnlockOp? || op.RUnlockOp? || op.WUnlockOp? || op.TaskSleep? || op.TaskWakeup?
  {
  }

  lemma WakesNotYield(op: Op)
    requires Wakes(op)
    ensures !op.TaskYield? && !op.FdPass?
  {
  }

  // ---- The value of taskyield ----

  /** A yielding task at position `p`: how many dispatches separate it from its turn. */
  ghost predicate QueuedOk(w: World, p: nat)
    requires p < |w.s.runq| && w.s.runq[p] in w.pc
  {
    var pc := w.pc[w.s.runq[p]];
    IsYield(pc) ==>
      && pc.n <= w.s.nswitch && p + w.s.nswitch == pc.n + pc.ahead
      && (pc.n == w.s.nswitch ==> p == |w.s.runq| - 1 && w.s.running.None?)
  }

  ghost predicate YieldInv(w: World) {
    && w.s.nswitch == |w.s.log|
    && (forall p :: 0 <= p < |w.s.runq| ==> w.s.runq[p] in w.pc && QueuedOk(w, p))
    && (w.s.running.Some? ==>
          && Me(w) in w.pc && w.s.log != [] && w.s.log[|w.s.log| - 1] == Me(w)
          && (IsYield(w.pc[Me(w)]) ==>
                var pc := w.pc[Me(w)];
                w.s.nswitch == pc.n + pc.ahead + 1 && (pc.ahead == 0 ==> w.s.runq == [])))
  }

  lemma TurnKeepsYield(w: World, w': World, us: seq<Tid>, yielded: bool)
    requires YieldInv(w) && Turn(w, w', us, yielded) && Me(w) !in w.s.runq
    ensures YieldInv(w')
  {
    forall p | 0 <= p < |w'.s.runq| ensures w'.s.runq[p] in w'.pc && QueuedOk(w', p) {
      if p < |w.s.runq| {
        assert w'.s.runq[p] == w.s.runq[p] && QueuedOk(w, p);
      } else if p < |w.s.runq| + |us| {
        assert w'.s.runq[p] == us[p - |w.s.runq|];
      } else {
        assert w'.s.runq[p] == Me(w);
      }
    }
  }

  lemma DispatchKeepsYield(w: World)
    requires YieldInv(w) && w.s.running.None?
    ensures YieldInv(DoDispatch(w))
  {
    var w' := DoDispatch(w);
    if w.s.count != 0 && w.s.runq != [] {
      assert QueuedOk(w, 0);
      forall p | 0 <= p < |w'.s.runq| ensures w'.s.runq[p] in w'.pc && QueuedOk(w', p) {
        assert w'.s.runq[p] == w.s.runq[p + 1] && QueuedOk(w, p + 1);
      }
    } else {
      forall p | 0 <= p < |w'.s.runq| ensures w'.s.runq[p] in w'.pc && QueuedOk(w', p) {
        assert QueuedOk(w, p);
      }
    }
  }

  lemma StepYield(w: World, op: Op)
    requires PlaceInv(w) && PcInv(w) && YieldInv(w) && Enabled(w, op)
    ensures YieldInv(Next(w, op))
  {
    if op == SchedDispatch {
      DispatchKeepsYield(w);
    } else {
      var us := StepTurn(w, op);
      assert In(w, Me(w), Running) && !In(w, Me(w), RunQueue);
      TurnKeepsYield(w, Next(w, op), us, op.TaskYield? || op.FdPass?);
    }
  }

  // ---- The conveyor ----

  /** What has been dispatched, followed by what is going to be dispatched next. */
  function Conveyor(w: World): seq<Tid> { w.s.log + w.s.runq }

  lemma DispatchConveyor(w: World)
    requires w.s.running.None?
    ensures Conveyor(w) <= Conveyor(DoDispatch(w)) && w.s.log <= DoDispatch(w).s.log && DoDispatch(w).pc == w.pc
  {
    if w.s.runq != [] {
      assert w.s.log + w.s.runq == (w.s.log + [w.s.runq[0]]) + w.s.runq[1..];
    }
  }

  lemma TurnConveyor(w: World, w': World, us: seq<Tid>, yielded: bool)
    requires Turn(w, w', us, yielded)
    ensures Conveyor(w) <= Conveyor(w')
  {
    assert Conveyor(w') == Conveyor(w) + (us + (if yielded then [Me(w)] else []));
  }

  /** The conveyor only grows at its end, and only the running task's program position moves. */
  lemma StepConveyor(w: World, op: Op)
    requires PlaceInv(w) && PcInv(w) && Enabled(w, op)
    ensures Conveyor(w) <= Conveyor(Next(w, op)) && w.s.log <= Next(w, op).s.log
    ensures forall t :: t in w.pc && w.s.running != Some(t) ==>
              t in Next(w, op).pc && Next(w, op).pc[t] == w.pc[t]
  {
    if op == SchedDispatch {
      DispatchConveyor(w);
    } else {
      var us := StepTurn(w, op);
      TurnConveyor(w, Next(w, op), us, op.TaskYield? || op.FdPass?);
    }
  }
}
