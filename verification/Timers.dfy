/**
 Task accounting and timers over whole runs: what the task count means, how long a sleeper
 sleeps, when fdtask may call poll, and that the timer task is always there once started.
 */
module Timers {
  import opened Util
  import opened FdSpec
  import opened FdProofs
  import opened World
  import opened Places
  import opened PcProofs
  import CS = ChanSpec

  /**
   The count is the number of live non-system tasks, plus one while some of them sleep;
   `counted` is the number of non-system sleepers.
   */
  ghost predicate AccInv(w: World) {
    && w.fd.counted == Counted(Names(w.fd.sleeping), w.s.system)
    && w.s.count == |w.at.Keys - w.s.system| + (if w.fd.counted > 0 then 1 else 0)
  }

  ghost predicate AlarmOk(w: World, x: Sleeper<Tid>) {
    x.t in w.pc && w.pc[x.t].InDelay? && x.alarm == w.pc[x.t].start + w.pc[x.t].ms * NsPerMs
  }

  ghost predicate DelayOk(w: World, t: Tid)
    requires t in w.pc
  {
    w.pc[t].InDelay? ==>
      && w.pc[t].start <= w.clock
      && (t in w.at && Ready(w, t) ==> w.pc[t].start + w.pc[t].ms * NsPerMs <= w.clock)
  }

  /** Sleepers are in order of their alarms, and a task that has been woken has slept long enough. */
  ghost predicate TimerInv(w: World) {
    && Sorted(w.fd.sleeping)
    && (forall i :: 0 <= i < |w.fd.sleeping| ==> AlarmOk(w, w.fd.sleeping[i]))
    && (forall t :: t in w.pc ==> DelayOk(w, t))
    && (w.fd.started ==> exists t :: t in w.pc && FdPc(w.pc[t]))
  }

  // ---- Steps that have nothing to do with timers or accounting ----

  ghost predicate NoTimer(w: World, w': World) {
    && w'.fd.sleeping == w.fd.sleeping && w'.fd.counted == w.fd.counted && w'.fd.started == w.fd.started
    && w.clock <= w'.clock
    && w'.at.Keys == w.at.Keys && w'.pc.Keys == w.pc.Keys && w'.s.system == w.s.system && w'.s.count == w.s.count
    && (forall t :: t in w.at && w.at[t] == Asleep ==> w'.at[t] == Asleep)
    && (forall t :: t in w.pc ==>
          w'.pc[t] == w.pc[t] ||
          (t in w.at && w.at[t] == Running && !w'.pc[t].InDelay? && (FdPc(w.pc[t]) ==> FdPc(w'.pc[t]))))
  }

  lemma NoTimerKeeps(w: World, w': World)
    requires PcInv(w) && AccInv(w) && TimerInv(w) && NoTimer(w, w') && ListOk(w, Asleep, Names(w.fd.sleeping))
    ensures AccInv(w') && TimerInv(w')
  {
    forall i | 0 <= i < |w'.fd.sleeping| ensures AlarmOk(w', w'.fd.sleeping[i]) {
      assert AlarmOk(w, w.fd.sleeping[i]);
      assert w.fd.sleeping[i].t == Names(w.fd.sleeping)[i];
    }
    forall t | t in w'.pc ensures DelayOk(w', t) {
      assert DelayOk(w, t) && PcOk(w, t);
    }
    if w.fd.started {
      var t :| t in w.pc && FdPc(w.pc[t]);
      assert FdPc(w'.pc[t]);
    }
  }

  lemma DispatchNoTimer(w: World)
    requires PcInv(w) && w.s.running.None? && ListOk(w, RunQueue, w.s.runq)
    ensures NoTimer(w, DoDispatch(w))
  {
    DispatchIs(w);
    if w.s.runq != [] { assert w.s.runq[0] in w.s.runq; }
    hide DoDispatch; hide PcInv;
  }

  lemma SimpleNoTimer(w: World, c: nat, bufsize: nat, val: int)
    requires PcInv(w) && w.s.running.Some? && UserPc(w.pc[Me(w)])
    ensures NoTimer(w, DoExitAll(w, val)) && NoTimer(w, DoChanCreate(w, c, bufsize))
  {
  }

  lemma YieldNoTimer(w: World, pc: Pc)
    requires PcInv(w) && w.s.running.Some? && !pc.InDelay? && (FdPc(w.pc[Me(w)]) ==> FdPc(pc))
    ensures NoTimer(w, YieldAt(w, pc))
  {
  }

  lemma AltNoTimer(w: World, alts: seq<CS.Alt<nat, int>>, canblock: bool, i: nat, peer: Option<CS.Entry<Tid>>)
    requires PcInv(w) && w.s.running.Some? && UserPc(w.pc[Me(w)]) && SetsOk(w)
    requires CS.AltsOk(w.cs, alts) && CS.ChoiceOk(w.cs, alts, i, peer)
    ensures NoTimer(w, DoAlt(w, alts, canblock, i, peer))
  {
    MeReady(w);
    AltShape(w, alts, canblock, i, peer);
    var w' := DoAlt(w, alts, canblock, i, peer);
    hide PcInv; hide DoAlt; hide CS.AltsOk; hide CS.ChoiceOk; hide NoTimer;
    if w'.cs.fired == w.cs.fired && (w' == w.(cs := w'.cs) || w' == Block(w.(cs := w'.cs), InAltSet, InAlt)) {
      UnservedNoTimer(w, w');
    } else {
      ServedNoTimer(w, w', peer.value.k);
    }
  }

  lemma UnservedNoTimer(w: World, w': World)
    requires w.s.running.Some? && Me(w) in w.at && w.at[Me(w)] == Running && Me(w) in w.pc && UserPc(w.pc[Me(w)])
    requires var w1 := w.(cs := w'.cs); w' == w1 || w' == Block(w1, InAltSet, InAlt)
    ensures NoTimer(w, w')
  {
  }

  lemma ServedNoTimer(w: World, w': World, k: Tid)
    requires SetsOk(w) && k in w.cs.sets && w' == Wake(w.(cs := w'.cs), [k])
    ensures NoTimer(w, w')
  {
  }

  lemma QLockNoTimer(w: World, l: nat, block: bool)
    requires PcInv(w) && w.s.running.Some? && UserPc(w.pc[Me(w)])
    ensures NoTimer(w, DoQLock(w, l, block))
  {
  }

  lemma QUnlockNoTimer(w: World, l: nat)
    requires PcInv(w) && w.s.running.Some? && UserPc(w.pc[Me(w)]) && ListOk(w, OnQLock(l), QL(w, l).waiting)
    ensures NoTimer(w, DoQUnlock(w, l))
  {
  }

  lemma RLockNoTimer(w: World, l: nat, block: bool)
    requires PcInv(w) && w.s.running.Some? && UserPc(w.pc[Me(w)])
    ensures NoTimer(w, DoRLock(w, l, block))
  {
  }

  lemma WLockNoTimer(w: World, l: nat, block: bool)
    requires PcInv(w) && w.s.running.Some? && UserPc(w.pc[Me(w)])
    ensures NoTimer(w, DoWLock(w, l, block))
  {
  }

  lemma RUnlockNoTimer(w: World, l: nat)
    requires PcInv(w) && w.s.running.Some? && UserPc(w.pc[Me(w)]) && ListOk(w, OnWLock(l), RW(w, l).wwaiting)
    ensures NoTimer(w, DoRUnlock(w, l))
  {
  }

  lemma WUnlockNoTimer(w: World, l: nat)
    requires PcInv(w) && w.s.running.Some? && UserPc(w.pc[Me(w)]) && ListOk(w, OnWLock(l), RW(w, l).wwaiting)
    requires ListOk(w, OnRLock(l), RW(w, l).rwaiting)
    ensures NoTimer(w, DoWUnlock(w, l))
  {
  }

  lemma SleepNoTimer(w: World, r: nat)
    requires PcInv(w) && w.s.running.Some? && UserPc(w.pc[Me(w)])
    requires r in w.rzl ==> ListOk(w, OnQLock(w.rzl[r]), QL(w, w.rzl[r]).waiting)
    ensures NoTimer(w, DoSleep(w, r))
  {
    MeReady(w);
    hide PcInv;
  }

  lemma WakeupNoTimer(w: World, r: nat, all: bool)
    requires PcInv(w) && w.s.running.Some? && UserPc(w.pc[Me(w)]) && ListOk(w, OnRendez(r), RZ(w, r))
    ensures NoTimer(w, DoWakeup(w, r, all))
  {
  }

  lemma RelockNoTimer(w: World, r: nat)
    requires PcInv(w) && w.s.running.Some? && !FdPc(w.pc[Me(w)])
    ensures NoTimer(w, DoRelock(w, r))
  {
  }

  lemma ReturnNoTimer(w: World, now: nat)
    requires PcInv(w) && w.s.running.Some? && !FdPc(w.pc[Me(w)]) && w.clock <= now
    ensures NoTimer(w, DoReturn(w, now))
  {
    if w.pc[Me(w)].InSleep? {
      RelockNoTimer(w, w.pc[Me(w)].r);
      hide DoRelock; hide NoTimer; hide PcInv;
    } else {
      MeReady(w);
      ReturnShape(w, now);
      hide PcInv; hide DoReturn; hide CS.Resume;
      GoesOnNoTimer(w, DoReturn(w, now), now);
    }
  }

  lemma GoesOnNoTimer(w: World, w': World, now: nat)
    requires w.s.running.Some? && Me(w) in w.at && w.at[Me(w)] == Running && Me(w) in w.pc && !FdPc(w.pc[Me(w)])
    requires w.clock <= now
    requires w' == Abort(w) || w' == Continue(w) || w' == Continue(w.(clock := now)) || w' == Continue(w.(cs := w'.cs))
    ensures NoTimer(w, w')
  {
  }

  // ---- Accounting ----

  lemma CountedSame(names: seq<Tid>, s: set<Tid>, s': set<Tid>)
    requires forall t :: t in names ==> (t in s <==> t in s')
    ensures Counted(names, s) == Counted(names, s')
  {
    if names != [] {
      assert names[0] in names;
      CountedSame(names[1..], s, s');
    }
  }

  lemma CountedConcat(u: seq<Tid>, v: seq<Tid>, s: set<Tid>)
    ensures Counted(u + v, s) == Counted(u, s) + Counted(v, s)
  {
    if u == [] {
      assert u + v == v;
    } else {
      assert (u + v)[1..] == u[1..] + v;
      CountedConcat(u[1..], v, s);
    }
  }

  lemma CountedInsert(sl: seq<Sleeper<Tid>>, x: Sleeper<Tid>, s: set<Tid>)
    ensures Counted(Names(Insert(sl, x)), s) == Counted(Names(sl), s) + (if x.t in s then 0 else 1)
  {
    var i := InsertPos(sl, x.alarm);
    var a, b := Names(sl)[..i], Names(sl)[i..];
    assert Names(Insert(sl, x)) == a + ([x.t] + b);
    assert Names(sl) == a + b;
    CountedConcat(a, b, s);
    CountedConcat(a, [x.t] + b, s);
    assert ([x.t] + b)[1..] == b;
  }

  lemma SpawnAcc(w: World, pc: Pc)
    requires AccInv(w) && FreshId(w) && w.s.system <= w.at.Keys
    ensures AccInv(Spawn(w, pc))
  {
    var n := w.s.idgen + 1;
    assert Spawn(w, pc).at.Keys - w.s.system == (w.at.Keys - w.s.system) + {n};
  }

  lemma SpawnTimer(w: World, pc: Pc)
    requires TimerInv(w) && FreshId(w) && w.at.Keys == w.pc.Keys && (pc == User || pc == FdFresh)
    ensures TimerInv(Spawn(w, pc))
    ensures pc == FdFresh ==> exists t :: t in Spawn(w, pc).pc && FdPc(Spawn(w, pc).pc[t])
  {
    var w', n := Spawn(w, pc), w.s.idgen + 1;
    forall i | 0 <= i < |w'.fd.sleeping| ensures AlarmOk(w', w'.fd.sleeping[i]) {
      assert AlarmOk(w, w.fd.sleeping[i]);
    }
    forall t | t in w'.pc ensures DelayOk(w', t) {
      assert t != n ==> DelayOk(w, t);
    }
    if w.fd.started {
      var t :| t in w.pc && FdPc(w.pc[t]);
      assert t in w'.pc && FdPc(w'.pc[t]);
    }
    if pc == FdFresh {
      assert n in w'.pc && FdPc(w'.pc[n]);
    }
  }

  lemma MarkStarted(w: World)
    requires AccInv(w) && TimerInv(w) && exists t :: t in w.pc && FdPc(w.pc[t])
    ensures AccInv(w.(fd := w.fd.(started := true))) && TimerInv(w.(fd := w.fd.(started := true)))
  {
    var w' := w.(fd := w.fd.(started := true));
    forall i | 0 <= i < |w'.fd.sleeping| ensures AlarmOk(w', w'.fd.sleeping[i]) {
      assert AlarmOk(w, w.fd.sleeping[i]);
    }
    forall t | t in w'.pc ensures DelayOk(w', t) {
      assert DelayOk(w, t);
    }
  }

  lemma StartFdKeeps(w: World)
    requires AccInv(w) && TimerInv(w) && FreshId(w) && w.at.Keys == w.pc.Keys && w.s.system <= w.at.Keys
    ensures AccInv(StartFd(w)) && TimerInv(StartFd(w))
  {
    if !w.fd.started {
      var w1 := Spawn(w, FdFresh);
      assert StartFd(w) == w1.(fd := w1.fd.(started := true));
      SpawnAcc(w, FdFresh);
      SpawnTimer(w, FdFresh);
      hide Spawn; hide StartFd; hide AccInv; hide TimerInv;
      MarkStarted(w1);
    }
  }

  lemma SystemAcc(w: World)
    requires AccInv(w) && w.s.running.Some? && Me(w) in w.at && Me(w) !in Names(w.fd.sleeping)
    ensures AccInv(DoSystem(w))
  {
    if Me(w) !in w.s.system {
      CountedSame(Names(w.fd.sleeping), w.s.system, w.s.system + {Me(w)});
      assert w.at.Keys - (w.s.system + {Me(w)}) == (w.at.Keys - w.s.system) - {Me(w)};
    }
  }

  lemma ExitAcc(w: World, val: int)
    requires AccInv(w) && w.s.running.Some? && Me(w) in w.at && Me(w) in w.s.all && Me(w) !in Names(w.fd.sleeping)
    ensures AccInv(DoExit(w, val))
  {
    CountedSame(Names(w.fd.sleeping), w.s.system, w.s.system - {Me(w)});
    var w' := DoExit(w, val);
    assert w'.at.Keys - w'.s.system == (w.at.Keys - w.s.system) - {Me(w)};
  }

  /** Steps that change accounting but no timer. */
  lemma SystemTimer(w: World)
    requires TimerInv(w) && w.s.running.Some?
    ensures TimerInv(DoSystem(w))
  {
    var w' := DoSystem(w);
    forall i | 0 <= i < |w'.fd.sleeping| ensures AlarmOk(w', w'.fd.sleeping[i]) {
      assert AlarmOk(w, w.fd.sleeping[i]);
    }
    forall t | t in w'.pc ensures DelayOk(w', t) {
      assert DelayOk(w, t);
    }
  }

  lemma ExitTimer(w: World, val: int)
    requires TimerInv(w) && w.s.running.Some? && Me(w) in w.s.all && Me(w) in w.pc && UserPc(w.pc[Me(w)])
    requires Me(w) !in Names(w.fd.sleeping)
    ensures TimerInv(DoExit(w, val))
  {
    var w' := DoExit(w, val);
    forall i | 0 <= i < |w'.fd.sleeping| ensures AlarmOk(w', w'.fd.sleeping[i]) {
      assert AlarmOk(w, w.fd.sleeping[i]);
      assert Names(w.fd.sleeping)[i] == w.fd.sleeping[i].t;
    }
    forall t | t in w'.pc ensures DelayOk(w', t) {
      assert DelayOk(w, t);
    }
    if w.fd.started {
      var t :| t in w.pc && FdPc(w.pc[t]);
      assert t in w'.pc && FdPc(w'.pc[t]);
    }
  }

  // ---- taskdelay ----

  /** taskdelay after it has made sure that fdtask exists. */
  ghost function EnterSleep(w: World, ms: nat, now: nat): World
    requires w.s.running.Some?
  {
    var (fd', s') := Delay(w.fd, w.s, Me(w), now + ms * NsPerMs);
    Block(w.(fd := fd', s := s', clock := now), Asleep, InDelay(now, ms))
  }

  lemma DelayAcc(w: World, ms: nat, now: nat)
    requires AccInv(w) && w.s.running.Some? && Me(w) in w.at
    ensures AccInv(EnterSleep(w, ms, now))
  {
    CountedInsert(w.fd.sleeping, Sleeper(Me(w), now + ms * NsPerMs), w.s.system);
    assert EnterSleep(w, ms, now).at.Keys == w.at.Keys;
  }

  lemma SleeperAlarms(w: World, ms: nat, now: nat)
    requires TimerInv(w) && w.s.running.Some? && Me(w) !in Names(w.fd.sleeping)
    ensures var w' := EnterSleep(w, ms, now);
            forall i :: 0 <= i < |w'.fd.sleeping| ==> AlarmOk(w', w'.fd.sleeping[i])
  {
    var w', x := EnterSleep(w, ms, now), Sleeper(Me(w), now + ms * NsPerMs);
    InsertAt(w.fd.sleeping, x);
    var p := InsertPos(w.fd.sleeping, x.alarm);
    forall i | 0 <= i < |w'.fd.sleeping| ensures AlarmOk(w', w'.fd.sleeping[i]) {
      if i != p {
        var j := if i < p then i else i - 1;
        assert w'.fd.sleeping[i] == w.fd.sleeping[j];
        assert AlarmOk(w, w.fd.sleeping[j]);
        assert Names(w.fd.sleeping)[j] == w.fd.sleeping[j].t;
      }
    }
  }

  lemma DelayTimer(w: World, ms: nat, now: nat)
    requires TimerInv(w) && w.s.running.Some? && Me(w) in w.pc && UserPc(w.pc[Me(w)]) && w.clock <= now
    requires Me(w) !in Names(w.fd.sleeping)
    ensures TimerInv(EnterSleep(w, ms, now))
  {
    var w', x := EnterSleep(w, ms, now), Sleeper(Me(w), now + ms * NsPerMs);
    InsertSorted(w.fd.sleeping, x);
    SleeperAlarms(w, ms, now);
    assert w'.fd.sleeping == Insert(w.fd.sleeping, x);
    hide AlarmOk; hide Insert; hide Sorted;
    forall t | t in w'.pc ensures DelayOk(w', t) {
      assert DelayOk(w, t);
    }
    if w.fd.started {
      var t :| t in w.pc && FdPc(w.pc[t]);
      assert t in w'.pc && FdPc(w'.pc[t]);
    }
  }

  lemma DelayKeeps(w: World, ms: nat, now: nat)
    requires AccInv(w) && TimerInv(w) && PcInv(w) && FreshId(w) && w.s.system <= w.at.Keys
    requires w.s.running.Some? && UserPc(w.pc[Me(w)]) && w.clock <= now && Me(w) !in Names(w.fd.sleeping)
    ensures AccInv(DoDelay(w, ms, now)) && TimerInv(DoDelay(w, ms, now))
  {
    StartFdKeeps(w);
    var w1 := StartFd(w);
    assert w1.fd.sleeping == w.fd.sleeping && w1.clock == w.clock && Me(w) in w1.at && w1.pc[Me(w)] == User && Me(w1) == Me(w);
    assert DoDelay(w, ms, now) == EnterSleep(w1, ms, now);
    hide AccInv; hide TimerInv; hide EnterSleep; hide DoDelay; hide StartFd;
    DelayAcc(w1, ms, now);
    DelayTimer(w1, ms, now);
  }

  lemma PollMeNoTimer(w: World, fd: int, ev: int)
    requires PcInv(w) && w.s.running.Some? && UserPc(w.pc[Me(w)])
    ensures NoTimer(w, EnterPollTable(w, fd, ev))
  {
    MeReady(w);
    BlockIs(w.(fd := w.fd.(slots := w.fd.slots + [Slot(Me(w), fd, ev, 0)])), Polling, InFdWait);
    hide PcInv; hide Block;
  }

  // ---- fdtask ----

  lemma SweepNoTimer(w: World, rev: seq<int>)
    requires PcInv(w) && PlaceInv(w) && |rev| == |w.fd.slots|
    ensures var (kept, gone) := Sweep(SetRevents(w.fd.slots, rev), 0);
            NoTimer(w, Wake(w.(fd := w.fd.(slots := kept)), Polled(gone)))
  {
    var slots := SetRevents(w.fd.slots, rev);
    var (kept, gone) := Sweep(slots, 0);
    assert Polled(slots) == Queue(w, Polling);
    assert NoDup(Queue(w, Polling));
    SweepTasks(slots, 0);
    forall t | t in Polled(gone) ensures t in w.at && w.at[t] == Polling {
      assert t in Elems(Polled(gone));
      assert t in Elems(Polled(slots));
      assert In(w, t, Polling);
    }
  }

  /** The wake-up loop. */
  ghost function WakeUpdate(w: World, now: nat): World {
    var (fd', s') := WakeSleepers(w.fd, w.s, now);
    var us := Names(w.fd.sleeping[..Due(w.fd.sleeping, now)]);
    w.(fd := fd', s := s', clock := now, at := map t | t in w.at :: if t in us then RunQueue else w.at[t])
  }

  lemma WakeAcc(w: World, now: nat)
    requires AccInv(w)
    ensures AccInv(WakeUpdate(w, now))
  {
    WakeSleepersCounts(w.fd, w.s, now);
    WakeSleepersFrame(w.fd, w.s, now);
    assert WakeUpdate(w, now).at.Keys == w.at.Keys;
  }

  /** A sleeper is readied exactly when its alarm has passed. */
  lemma WakeTimer(w: World, now: nat)
    requires TimerInv(w) && w.clock <= now && w.at.Keys == w.pc.Keys
    requires forall t :: t in w.at ==> (w.at[t] == Asleep <==> t in Names(w.fd.sleeping))
    ensures TimerInv(WakeUpdate(w, now))
  {
    var w', n := WakeUpdate(w, now), Due(w.fd.sleeping, now);
    WakeSleepersWakesDue(w.fd, w.s, now);
    WakeSleepersFrame(w.fd, w.s, now);
    hide WakeSleepers;
    assert w'.fd.sleeping == w.fd.sleeping[n..];
    forall i | 0 <= i < |w'.fd.sleeping| ensures AlarmOk(w', w'.fd.sleeping[i]) {
      assert AlarmOk(w, w.fd.sleeping[n + i]);
    }
    forall t | t in w'.pc ensures DelayOk(w', t) {
      WokenDelay(w, now, t);
    }
    hide WakeUpdate; hide AlarmOk; hide DelayOk;
  }

  /** A task that this pass wakes has reached its alarm. */
  lemma WokenDelay(w: World, now: nat, t: Tid)
    requires TimerInv(w) && w.clock <= now && w.at.Keys == w.pc.Keys && t in w.pc
    requires forall t :: t in w.at ==> (w.at[t] == Asleep <==> t in Names(w.fd.sleeping))
    ensures t in WakeUpdate(w, now).pc && DelayOk(WakeUpdate(w, now), t)
  {
    var n := Due(w.fd.sleeping, now);
    var us := Names(w.fd.sleeping[..n]);
    WakeSleepersFrame(w.fd, w.s, now);
    assert DelayOk(w, t);
    hide WakeSleepers;
    if t in us {
      var i :| 0 <= i < n && us[i] == t;
      assert AlarmOk(w, w.fd.sleeping[i]);
    }
  }

  // ---- All steps ----

  ghost predicate ClockInv(w: World) { AccInv(w) && TimerInv(w) }

  /** Nobody awake is in the list of sleepers. */
  lemma AsleepOk(w: World)
    requires PlaceInv(w)
    ensures ListOk(w, Asleep, Names(w.fd.sleeping))
    ensures forall t :: t in w.at ==> (w.at[t] == Asleep <==> t in Names(w.fd.sleeping))
    ensures w.s.system <= w.at.Keys
    ensures w.s.running.Some? ==> Me(w) !in Names(w.fd.sleeping)
  {
    forall t | t in Names(w.fd.sleeping) || t in w.at ensures t in w.at && (w.at[t] == Asleep <==> t in Names(w.fd.sleeping)) {
      assert In(w, t, Asleep) <==> t in w.at && w.at[t] == Asleep;
    }
    if w.s.running.Some? {
      assert In(w, Me(w), Running) && !In(w, Me(w), Asleep);
    }
  }

  lemma QuietStep(w: World, w': World)
    requires PlaceInv(w) && PcInv(w) && ClockInv(w) && NoTimer(w, w')
    ensures ClockInv(w')
  {
    AsleepOk(w);
    hide PlaceInv; hide AccInv; hide TimerInv; hide NoTimer; hide ListOk; hide PcInv;
    NoTimerKeeps(w, w');
  }

  lemma PollClock(w: World, rev: seq<int>, now: nat)
    requires PlaceInv(w) && PcInv(w) && ClockInv(w) && |rev| == |w.fd.slots| && w.clock <= now
    ensures ClockInv(DoPoll(w, rev, now))
  {
    var (kept, gone) := Sweep(SetRevents(w.fd.slots, rev), 0);
    var w1 := Wake(w.(fd := w.fd.(slots := kept)), Polled(gone));
    assert DoPoll(w, rev, now) == WakeUpdate(w1, now);
    SweepPlaces(w, rev);
    SweepNoTimer(w, rev);
    assert w1.clock == w.clock && w1.at.Keys == w1.pc.Keys;
    hide PlaceInv; hide PcInv; hide ClockInv; hide NoTimer; hide WakeUpdate; hide DoPoll; hide Wake;
    QuietStep(w, w1);
    AsleepOk(w1);
    PollEnd(w1, now);
  }

  lemma PollEnd(w: World, now: nat)
    requires ClockInv(w) && w.clock <= now && w.at.Keys == w.pc.Keys
    requires forall t :: t in w.at ==> (w.at[t] == Asleep <==> t in Names(w.fd.sleeping))
    ensures ClockInv(WakeUpdate(w, now))
  {
    hide AccInv; hide TimerInv; hide WakeUpdate;
    WakeAcc(w, now);
    WakeTimer(w, now);
  }

  lemma YieldClock(w: World, pc: Pc)
    requires PlaceInv(w) && PcInv(w) && ClockInv(w)
    requires w.s.running.Some? && !pc.InDelay? && (FdPc(w.pc[Me(w)]) ==> FdPc(pc))
    ensures ClockInv(YieldAt(w, pc))
  {
    YieldNoTimer(w, pc);
    QuietStep(w, YieldAt(w, pc));
  }

  lemma SystemClock(w: World)
    requires PlaceInv(w) && PcInv(w) && ClockInv(w) && w.s.running.Some?
    ensures ClockInv(DoSystem(w))
  {
    AsleepOk(w);
    MeReady(w);
    hide PlaceInv; hide PcInv; hide AccInv; hide TimerInv; hide DoSystem;
    SystemAcc(w);
    SystemTimer(w);
  }

  /** A pass of fdtask that polls. */
  lemma IdlePassClock(w: World, rev: seq<int>, now: nat)
    requires PlaceInv(w) && PcInv(w) && ClockInv(w)
    requires w.s.running.Some? && FdPc(w.pc[Me(w)]) && |rev| == |w.fd.slots| && w.clock <= now
    ensures var w1 := DoPoll(w, rev, now);
            w1.s.running.Some? && ClockInv(YieldAt(w1, FdYield(w.s.nswitch, |w1.s.runq|)))
  {
    var w1 := DoPoll(w, rev, now);
    MeReady(w);
    PollClock(w, rev, now);
    PollPlaces(w, rev, now);
    forall t | t in w.at { WokenByPoll(w, rev, now, t); }
    PollPc(w, rev, now);
    hide PlaceInv; hide PcInv; hide ClockInv; hide YieldAt; hide DoPoll;
    YieldClock(w1, FdYield(w.s.nswitch, |w1.s.runq|));
  }

  lemma FdPassClock(w: World, rev: seq<int>, now: nat)
    requires PlaceInv(w) && PcInv(w) && ClockInv(w)
    requires w.s.running.Some? && FdPc(w.pc[Me(w)]) && |rev| == |w.fd.slots| && w.clock <= now
    ensures ClockInv(DoFdPass(w, rev, now))
  {
    var n := w.s.nswitch;
    if w.pc[Me(w)].FdFresh? {
      FreshPassClock(w);
      hide PlaceInv; hide PcInv; hide ClockInv; hide YieldAt;
    } else if ReturnValue(w, now) > 0 {
      hide PlaceInv; hide PcInv; hide ClockInv; hide YieldAt;
      YieldClock(w, FdYield(n, |w.s.runq|));
    } else {
      IdlePassClock(w, rev, now);
      hide PlaceInv; hide PcInv; hide ClockInv; hide YieldAt; hide DoPoll;
    }
  }

  /** The first turn of fdtask. */
  lemma FreshPassClock(w: World)
    requires PlaceInv(w) && PcInv(w) && ClockInv(w) && w.s.running.Some? && w.pc[Me(w)].FdFresh?
    ensures var w1 := DoSystem(w); ClockInv(YieldAt(w1, FdYield(w.s.nswitch, |w1.s.runq|)))
  {
    hide *;
    MeReady(w);
    SystemClock(w);
    SystemPlaces(w);
    SystemPc(w);
    SystemIs(w);
    YieldPcs(w.s.nswitch, |DoSystem(w).s.runq|);
    YieldClock(DoSystem(w), FdYield(w.s.nswitch, |DoSystem(w).s.runq|));
  }

  lemma SystemIs(w: World)
    requires w.s.running.Some?
    ensures DoSystem(w).s.running == w.s.running && DoSystem(w).pc == w.pc
  {
  }

  lemma StartFdFrame(w: World)
    requires FreshId(w) && w.at.Keys == w.pc.Keys
    ensures var w1 := StartFd(w);
            && w1.s.running == w.s.running && w1.fd.sleeping == w.fd.sleeping && w1.clock == w.clock
            && forall t :: t in w.pc ==> t in w1.pc && w1.pc[t] == w.pc[t]
  {
  }

  lemma FdWaitClock(w: World, fd: int, ev: int)
    requires PlaceInv(w) && PcInv(w) && ClockInv(w) && w.s.running.Some? && UserPc(w.pc[Me(w)])
    ensures ClockInv(DoFdWait(w, fd, ev))
  {
    AsleepOk(w);
    Located(w, Asleep);
    MeReady(w);
    StartFdFrame(w);
    var w1 := StartFd(w);
    assert w.at.Keys == w.pc.Keys;
    hide PlaceInv; hide PcInv; hide AccInv; hide TimerInv; hide StartFd; hide EnterPollTable; hide NoTimer; hide ListOk;
    StartFdPlaces(w);
    StartFdPc(w);
    StartFdKeeps(w);
    PollMeNoTimer(w1, fd, ev);
    QuietStep(w1, EnterPollTable(w1, fd, ev));
  }

  /** Steps of the lock and channel primitives. */
  lemma WakingClock(w: World, op: Op)
    requires PlaceInv(w) && PcInv(w) && ClockInv(w) && Enabled(w, op)
    requires op.QUnlockOp? || op.RUnlockOp? || op.WUnlockOp? || op.TaskSleep? || op.TaskWakeup?
    ensures ClockInv(Next(w, op))
  {
    hide *;
    StepIs(w, op);
    CallIs(w, op);
    match op {
      case QUnlockOp(l) =>
        WaitersLocated(w, l);
        QUnlockNoTimer(w, l);
      case RUnlockOp(l) =>
        WaitersLocated(w, l);
        RUnlockNoTimer(w, l);
      case WUnlockOp(l) =>
        WaitersLocated(w, l);
        WUnlockNoTimer(w, l);
      case TaskSleep(r) =>
        if r in w.rzl { WaitersLocated(w, w.rzl[r]); }
        SleepNoTimer(w, r);
      case TaskWakeup(r, all) =>
        WaitersLocated(w, r);
        WakeupNoTimer(w, r, all);
    }
    QuietStep(w, Next(w, op));
  }

  lemma LockClock(w: World, l: nat, block: bool)
    requires PlaceInv(w) && PcInv(w) && ClockInv(w) && w.s.running.Some? && UserPc(w.pc[Me(w)])
    ensures ClockInv(DoQLock(w, l, block)) && ClockInv(DoRLock(w, l, block)) && ClockInv(DoWLock(w, l, block))
  {
    QLockNoTimer(w, l, block);
    RLockNoTimer(w, l, block);
    WLockNoTimer(w, l, block);
    hide PlaceInv; hide PcInv; hide ClockInv; hide NoTimer; hide DoQLock; hide DoRLock; hide DoWLock;
    QuietStep(w, DoQLock(w, l, block));
    QuietStep(w, DoRLock(w, l, block));
    QuietStep(w, DoWLock(w, l, block));
  }

  lemma DispatchClock(w: World)
    requires PlaceInv(w) && PcInv(w) && ClockInv(w) && w.s.running.None?
    ensures ClockInv(DoDispatch(w))
  {
    Located(w, RunQueue);
    hide PlaceInv; hide PcInv; hide ClockInv; hide NoTimer; hide DoDispatch; hide ListOk;
    DispatchNoTimer(w);
    QuietStep(w, DoDispatch(w));
  }

  lemma SimpleClock(w: World, c: nat, bufsize: nat, val: int)
    requires PlaceInv(w) && PcInv(w) && ClockInv(w) && w.s.running.Some? && UserPc(w.pc[Me(w)])
    ensures ClockInv(DoExitAll(w, val)) && ClockInv(DoChanCreate(w, c, bufsize))
  {
    hide PlaceInv; hide PcInv; hide ClockInv; hide NoTimer; hide DoExitAll; hide DoChanCreate;
    SimpleNoTimer(w, c, bufsize, val);
    QuietStep(w, DoExitAll(w, val));
    QuietStep(w, DoChanCreate(w, c, bufsize));
  }

  lemma AltClock(w: World, alts: seq<CS.Alt<nat, int>>, canblock: bool, i: nat, peer: Option<CS.Entry<Tid>>)
    requires PlaceInv(w) && PcInv(w) && ClockInv(w) && w.s.running.Some? && UserPc(w.pc[Me(w)])
    requires CS.AltsOk(w.cs, alts) && CS.ChoiceOk(w.cs, alts, i, peer)
    ensures ClockInv(DoAlt(w, alts, canblock, i, peer))
  {
    Located(w, RunQueue);
    hide PlaceInv; hide PcInv; hide ClockInv; hide NoTimer; hide DoAlt; hide SetsOk; hide CS.AltsOk; hide CS.ChoiceOk;
    AltNoTimer(w, alts, canblock, i, peer);
    QuietStep(w, DoAlt(w, alts, canblock, i, peer));
  }

  lemma ReturnClock(w: World, now: nat)
    requires PlaceInv(w) && PcInv(w) && ClockInv(w) && w.s.running.Some? && !FdPc(w.pc[Me(w)]) && w.clock <= now
    ensures ClockInv(DoReturn(w, now))
  {
    MeReady(w);
    hide PlaceInv; hide PcInv; hide ClockInv; hide NoTimer; hide DoReturn;
    ReturnNoTimer(w, now);
    QuietStep(w, DoReturn(w, now));
  }

  lemma SpawnClock(w: World)
    requires PlaceInv(w) && PcInv(w) && ClockInv(w)
    ensures ClockInv(Spawn(w, User))
  {
    AsleepOk(w);
    Located(w, Asleep);
    hide PlaceInv; hide AccInv; hide TimerInv; hide Spawn;
    SpawnAcc(w, User);
    SpawnTimer(w, User);
  }

  lemma ExitClock(w: World, val: int)
    requires PlaceInv(w) && PcInv(w) && ClockInv(w) && w.s.running.Some? && UserPc(w.pc[Me(w)]) && Me(w) in w.s.all
    ensures ClockInv(DoExit(w, val))
  {
    AsleepOk(w);
    MeReady(w);
    hide PlaceInv; hide PcInv; hide AccInv; hide TimerInv; hide DoExit;
    ExitAcc(w, val);
    ExitTimer(w, val);
  }

  lemma DelayClock(w: World, ms: nat, now: nat)
    requires PlaceInv(w) && PcInv(w) && ClockInv(w) && w.s.running.Some? && UserPc(w.pc[Me(w)]) && w.clock <= now
    ensures ClockInv(DoDelay(w, ms, now))
  {
    AsleepOk(w);
    Located(w, Asleep);
    hide PlaceInv; hide AccInv; hide TimerInv; hide DoDelay;
    DelayKeeps(w, ms, now);
  }

  lemma YieldPcs(n: nat, ahead: nat)
    ensures !InYield(n, ahead).InDelay? && !FdPc(InYield(n, ahead)) && FdPc(FdYield(n, ahead))
  {
  }

  /** Every step keeps the accounting and the timers right. */
  lemma StepClock(w: World, op: Op)
    requires PlaceInv(w) && PcInv(w) && ClockInv(w) && Enabled(w, op)
    ensures ClockInv(Next(w, op))
  {
    hide *;
    StepIs(w, op);
    if op != SchedDispatch { CallIs(w, op); }
    YieldPcs(w.s.nswitch, |w.s.runq|);
    match op
    case SchedDispatch => DispatchClock(w);
    case TaskCreate => SpawnClock(w);
    case TaskSystem => SystemClock(w);
    case TaskYield => YieldClock(w, InYield(w.s.nswitch, |w.s.runq|));
    case TaskExit(v) => ExitClock(w, v);
    case TaskExitAll(v) => SimpleClock(w, 0, 0, v);
    case ChanCreate(c, b) => SimpleClock(w, c, b, 0);
    case ChanAlt(alts, canblock, i, peer) => AltClock(w, alts, canblock, i, peer);
    case QLockOp(l, block) => LockClock(w, l, block);
    case RLockOp(l, block) => LockClock(w, l, block);
    case WLockOp(l, block) => LockClock(w, l, block);
    case TaskDelay(ms, now) => DelayClock(w, ms, now);
    case FdWait(fd, rw) => FdWaitClock(w, fd, Bits(rw));
    case Return(now) => ReturnClock(w, now);
    case FdPass(rev, _, now2) => FdPassClock(w, rev, now2);
    case _ => WakingClock(w, op);
  }
}
