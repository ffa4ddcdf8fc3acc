/** The timers in every run of the library: how long a task sleeps, when poll wakes up, and who is woken first. */
module TimerTheorems {
  import opened Util
  import opened FdSpec
  import opened FdProofs
  import opened World
  import opened Places
  import opened Runs
  import Timers
  import LT = LockTheorems
  import CS = ChanSpec

  // ---- taskdelay ----

  /** A task that goes on after taskdelay has slept its time. */
  lemma DelayIsLongEnough(w: World, now: nat)
    requires Inv(w) && Enabled(w, Return(now)) && w.pc[Me(w)].InDelay?
    ensures var pc := w.pc[Me(w)];
            && pc.start + pc.ms * 1000000 <= now
            && ReturnValue(w, now) == ((now - pc.start) / 1000000) % 0x1_0000_0000
            && ((now - pc.start) / 1000000 < 0x1_0000_0000 ==> ReturnValue(w, now) >= pc.ms)
  {
    InvClock(w);
    var pc := w.pc[Me(w)];
    assert pc.start + pc.ms * NsPerMs <= now;
    hide *;
    DelayAtLeast(pc.start, pc.ms, now);
    DelayValue(w, now);
  }

  lemma InvClock(w: World)
    requires Inv(w)
    ensures w.s.running.Some? && Me(w) in w.pc && w.pc[Me(w)].InDelay? ==>
              w.pc[Me(w)].start + w.pc[Me(w)].ms * NsPerMs <= w.clock
  {
    if w.s.running.Some? && Me(w) in w.pc {
      LT.InvPlace(w);
      assert In(w, Me(w), Running);
      assert Timers.DelayOk(w, Me(w));
    }
  }

  lemma DelayValue(w: World, now: nat)
    requires w.s.running.Some? && Me(w) in w.pc && w.pc[Me(w)].InDelay? && w.pc[Me(w)].start <= now
    ensures ReturnValue(w, now) == DelayResult(w.pc[Me(w)].start, now)
    ensures DelayResult(w.pc[Me(w)].start, now) == ((now - w.pc[Me(w)].start) / 1000000) % 0x1_0000_0000
  {
  }

  // ---- The timeout of poll ----

  lemma SleepersSorted(w: World)
    requires Inv(w)
    ensures Sorted(w.fd.sleeping)
  {
    assert Timers.TimerInv(w);
  }

  /**
   In every run, whenever fdtask polls: the timeout it hands to poll is -1, none at all, exactly when
   nobody sleeps.  Otherwise it is at most five seconds, is 0 exactly when the first sleeper is less
   than a millisecond away, and a poll that keeps to it comes back before any alarm still to come has passed.
   */
  lemma PollsInTime(rzl: map<nat, nat>, ws: seq<World>, ops: seq<Op>, i: nat)
    requires IsRun(rzl, ws, ops) && i < |ops| && ops[i].FdPass?
    ensures var (s, now1, now2) := (ws[i].fd.sleeping, ops[i].now1, ops[i].now2);
            var ms := Timeout(s, now1);
            && (ms == -1 <==> s == [])
            && (s != [] ==> 0 <= ms <= 5000 && (ms == 0 <==> s[0].alarm < now1 + 1000000))
            && (now2 <= now1 + ms * 1000000 ==> forall k :: 0 <= k < |s| && s[k].alarm > now1 ==> now2 <= s[k].alarm)
  {
    assert i < |ws| by { hide Enabled; hide Next; hide Init; }
    RunInv(rzl, ws, ops, i);
    SleepersSorted(ws[i]);
    hide *;
    TimeoutIsSafe(ws[i].fd.sleeping, ops[i].now1);
  }

  // ---- The list of sleepers along a run ----

  /** How many sleepers a step wakes. */
  function Woken(w: World, op: Op): nat {
    if op.FdPass? && w.s.running.Some? && Me(w) in w.pc && w.pc[Me(w)].FdYield? && ReturnValue(w, op.now2) <= 0
    then Due(w.fd.sleeping, op.now2) else 0
  }

  lemma LockFd(w: World, l: nat, block: bool)
    requires w.s.running.Some?
    ensures DoQLock(w, l, block).fd == w.fd && DoRLock(w, l, block).fd == w.fd && DoWLock(w, l, block).fd == w.fd
  {
  }

  lemma UnlockFd(w: World, l: nat)
    requires w.s.running.Some?
    ensures DoQUnlock(w, l).fd == w.fd && DoRUnlock(w, l).fd == w.fd && DoWUnlock(w, l).fd == w.fd
  {
  }

  lemma RendezFd(w: World, r: nat, all: bool)
    requires w.s.running.Some?
    ensures DoSleep(w, r).fd == w.fd && DoWakeup(w, r, all).fd == w.fd
  {
    if r in w.rzl { UnlockFd(w.(rz := w.rz[r := RZ(w, r) + [Me(w)]]), w.rzl[r]); }
    hide DoQUnlock;
  }

  lemma SchedFd(w: World, c: nat, bufsize: nat, val: int)
    ensures Spawn(w, User).fd == w.fd && DoChanCreate(w, c, bufsize).fd == w.fd && DoExitAll(w, val).fd == w.fd
  {
  }

  lemma DispatchFd(w: World)
    ensures DoDispatch(w).fd == w.fd
  {
    DispatchIs(w);
    hide DoDispatch;
  }

  lemma RunningFd(w: World, val: int)
    requires w.s.running.Some?
    ensures DoSystem(w).fd == w.fd && YieldAt(w, InYield(w.s.nswitch, |w.s.runq|)).fd == w.fd
    ensures Me(w) in w.s.all ==> DoExit(w, val).fd == w.fd
  {
  }

  lemma AltFd(w: World, alts: seq<CS.Alt<nat, int>>, canblock: bool, i: nat, peer: Option<CS.Entry<Tid>>)
    requires w.s.running.Some? && CS.AltsOk(w.cs, alts) && CS.ChoiceOk(w.cs, alts, i, peer)
    ensures DoAlt(w, alts, canblock, i, peer).fd == w.fd
  {
    hide CS.ChanAlt; hide CS.AltsOk; hide CS.ChoiceOk;
  }

  lemma ReturnFd(w: World, now: nat)
    requires w.s.running.Some? && Me(w) in w.pc
    ensures DoReturn(w, now).fd == w.fd
  {
    if w.pc[Me(w)].InSleep? {
      RelockFd(w, w.pc[Me(w)].r);
      hide DoRelock;
    }
  }

  lemma RelockFd(w: World, r: nat)
    requires w.s.running.Some?
    ensures DoRelock(w, r).fd == w.fd
  {
  }

  lemma FdWaitFd(w: World, fd: int, events: int)
    requires w.s.running.Some?
    ensures DoFdWait(w, fd, events).fd.sleeping == w.fd.sleeping
  {
  }

  lemma DelayFd(w: World, ms: nat, now: nat)
    requires w.s.running.Some?
    ensures DoDelay(w, ms, now).fd.sleeping == Insert(w.fd.sleeping, Sleeper(Me(w), now + ms * NsPerMs))
  {
    hide Insert;
  }

  lemma PollFd(w: World, rev: seq<int>, now: nat)
    requires |rev| == |w.fd.slots|
    ensures DoPoll(w, rev, now).fd.sleeping == w.fd.sleeping[Due(w.fd.sleeping, now)..]
  {
    var kept := Sweep(SetRevents(w.fd.slots, rev), 0);
    var w1 := Wake(w.(fd := w.fd.(slots := kept.0)), Polled(kept.1));
    WakeSleepersWakesDue(w1.fd, w1.s, now);
    hide WakeSleepers; hide Sweep; hide SetRevents; hide Due;
  }

  lemma PassFd(w: World, op: Op)
    requires op.FdPass? && w.s.running.Some? && Me(w) in w.pc && |op.rev| == |w.fd.slots| && FdPc(w.pc[Me(w)])
    ensures DoFdPass(w, op.rev, op.now2).fd.sleeping == w.fd.sleeping[Woken(w, op)..]
  {
    PollFd(w, op.rev, op.now2);
    hide DoPoll; hide Due; hide ReturnValue;
    assert w.fd.sleeping[0..] == w.fd.sleeping;
  }

  /** A step wakes sleepers at the head of the list, or lets one in at its place. */
  lemma StepSleepers(w: World, op: Op)
    requires Enabled(w, op)
    ensures if op.TaskDelay? then
              && w.s.running.Some?
              && Next(w, op).fd.sleeping == Insert(w.fd.sleeping, Sleeper(Me(w), op.now + op.ms * NsPerMs))
            else
              Woken(w, op) <= |w.fd.sleeping| && Next(w, op).fd.sleeping == w.fd.sleeping[Woken(w, op)..]
  {
    hide *;
    StepIs(w, op);
    WokenIs(w, op);
    assert w.fd.sleeping[0..] == w.fd.sleeping;
    if op == SchedDispatch {
      DispatchFd(w);
    } else {
      CallIs(w, op);
      match op
      case TaskDelay(ms, now) => DelayFd(w, ms, now);
      case FdPass(_, _, _) => PassFd(w, op);
      case FdWait(fd, rw) => FdWaitFd(w, fd, Bits(rw));
      case Return(now) => ReturnFd(w, now);
      case ChanAlt(alts, canblock, i, peer) => AltFd(w, alts, canblock, i, peer);
      case QLockOp(l, block) => LockFd(w, l, block);
      case RLockOp(l, block) => LockFd(w, l, block);
      case WLockOp(l, block) => LockFd(w, l, block);
      case QUnlockOp(l) => UnlockFd(w, l);
      case RUnlockOp(l) => UnlockFd(w, l);
      case WUnlockOp(l) => UnlockFd(w, l);
      case TaskSleep(r) => RendezFd(w, r, false);
      case TaskWakeup(r, all) => RendezFd(w, r, all);
      case TaskSystem => RunningFd(w, 0);
      case TaskYield => RunningFd(w, 0);
      case TaskExit(v) => RunningFd(w, v);
      case TaskExitAll(v) => SchedFd(w, 0, 0, v);
      case ChanCreate(c, b) => SchedFd(w, c, b, 0);
      case TaskCreate => SchedFd(w, 0, 0, 0);
    }
  }

  lemma WokenIs(w: World, op: Op)
    ensures Woken(w, op) <= |w.fd.sleeping| && (!op.FdPass? ==> Woken(w, op) == 0)
  {
  }

  // ---- Equal alarms ----

  /** Task `u` is ahead of task `t` in a list of sleepers. */
  ghost predicate Ahead(s: seq<Sleeper<Tid>>, u: Tid, t: Tid) {
    exists p, q :: 0 <= p < q < |s| && s[p].t == u && s[q].t == t
  }

  lemma InsertKeepsAhead(s: seq<Sleeper<Tid>>, x: Sleeper<Tid>, u: Tid, t: Tid)
    requires Ahead(s, u, t)
    ensures Ahead(Insert(s, x), u, t)
  {
    var p, q :| 0 <= p < q < |s| && s[p].t == u && s[q].t == t;
    var i, r := InsertPos(s, x.alarm), Insert(s, x);
    var p', q' := if p < i then p else p + 1, if q < i then q else q + 1;
    assert r[p'] == s[p] && r[q'] == s[q];
  }

  lemma DropKeepsAhead(s: seq<Sleeper<Tid>>, n: nat, u: Tid, t: Tid)
    requires Ahead(s, u, t) && NoDup(Names(s)) && n <= |s| && u in Names(s[n..])
    ensures Ahead(s[n..], u, t)
  {
    var p, q :| 0 <= p < q < |s| && s[p].t == u && s[q].t == t;
    var i :| 0 <= i < |s| - n && Names(s[n..])[i] == u;
    assert Names(s)[n + i] == u == Names(s)[p];
    assert s[n..][p - n] == s[p] && s[n..][q - n] == s[q];
  }

  /** A newcomer goes ahead of everybody who is due at the same time. */
  lemma NewcomerAhead(s: seq<Sleeper<Tid>>, x: Sleeper<Tid>, j: nat)
    requires Sorted(s) && j < |s| && s[j].alarm == x.alarm
    ensures Ahead(Insert(s, x), x.t, s[j].t)
  {
    InsertSorted(s, x);
    var r := Insert(s, x);
    assert r[InsertPos(s, x.alarm)] == x && r[j + 1] == s[j];
  }

  lemma StepAhead(w: World, op: Op, u: Tid, t: Tid)
    requires Inv(w) && Enabled(w, op) && Ahead(w.fd.sleeping, u, t) && u in Names(Next(w, op).fd.sleeping)
    ensures Ahead(Next(w, op).fd.sleeping, u, t)
  {
    hide *;
    StepSleepers(w, op);
    if op.TaskDelay? {
      InsertKeepsAhead(w.fd.sleeping, Sleeper(Me(w), op.now + op.ms * NsPerMs), u, t);
    } else {
      LT.InvPlace(w);
      SleepersOnce(w);
      DropKeepsAhead(w.fd.sleeping, Woken(w, op), u, t);
    }
  }

  /**
   Equal alarms, along a run: a task that goes to sleep at step `i` until the same time as one
   that already sleeps is ahead of that one for as long as it sleeps, and so is woken first.
   */
  lemma {:induction false} LaterSleeperFirst(ws: seq<World>, ops: seq<Op>, i: nat, k: nat, p: nat)
    requires Steps(ws, ops) && Inv(ws[0]) && i < k < |ws| && ops[i].TaskDelay? && ws[i].s.running.Some?
    requires p < |ws[i].fd.sleeping| && ws[i].fd.sleeping[p].alarm == ops[i].now + ops[i].ms * NsPerMs
    requires forall n :: i < n <= k ==> Me(ws[i]) in Names(ws[n].fd.sleeping)
    ensures Ahead(ws[k].fd.sleeping, Me(ws[i]), ws[i].fd.sleeping[p].t)
    decreases k
  {
    hide *;
    StepAt(ws, ops, i);
    StepAt(ws, ops, k - 1);
    if k == i + 1 {
      StepSleepers(ws[i], ops[i]);
      SleepersSorted(ws[i]);
      NewcomerAhead(ws[i].fd.sleeping, Sleeper(Me(ws[i]), ops[i].now + ops[i].ms * NsPerMs), p);
    } else {
      LaterSleeperFirst(ws, ops, i, k - 1, p);
      StepAhead(ws[k - 1], ops[k - 1], Me(ws[i]), ws[i].fd.sleeping[p].t);
    }
  }
}
