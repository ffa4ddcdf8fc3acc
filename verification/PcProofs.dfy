/**
 What a task waits for is what it is in the middle of, and what it has been woken with: when
 the second half of a blocking call runs, the lock is owned, the read lock is held, the
 alternative has fired.  This makes the aborts after resumption unreachable.
 */
module PcProofs {
  import opened Util
  import opened LockSpec
  import opened SchedSpec
  import opened FdSpec
  import opened FdProofs
  import opened World
  import opened Places
  import CS = ChanSpec

  predicate Ready(w: World, t: Tid)
    requires t in w.at
  {
    w.at[t] == RunQueue || w.at[t] == Running
  }

  /** What task `t` relies on when it goes on with the second half of its call. */
  predicate Claim(w: World, t: Tid)
    requires t in w.pc
  {
    match w.pc[t]
    case InQLock(l) => QL(w, l).owner == Some(t)
    case InRelock(r) => r in w.rzl && QL(w, w.rzl[r]).owner == Some(t)
    case InRLock(l) => t in RW(w, l).holders
    case InWLock(l) => RW(w, l).writer == Some(t)
    case InAlt => t in w.cs.fired
    case _ => true
  }

  /** The place where a task that has not been woken waits. */
  predicate WaitsAt(w: World, pc: Pc, p: Place) {
    match pc
    case InQLock(l) => p == OnQLock(l)
    case InRelock(r) => r in w.rzl && p == OnQLock(w.rzl[r])
    case InRLock(l) => p == OnRLock(l)
    case InWLock(l) => p == OnWLock(l)
    case InSleep(r) => p == OnRendez(r)
    case InAlt => p == InAltSet
    case InDelay(_, _) => p == Asleep
    case InFdWait => p == Polling
    case _ => false
  }

  predicate PcOk(w: World, t: Tid)
    requires t in w.at && t in w.pc
  {
    if Ready(w, t) then Claim(w, t) else WaitsAt(w, w.pc[t], w.at[t])
  }

  ghost predicate PcInv(w: World) {
    && w.at.Keys == w.pc.Keys
    && (w.s.running.Some? ==> Me(w) in w.at && w.at[Me(w)] == Running)
    && (forall t :: t in w.at ==> PcOk(w, t))
    && (forall t :: t in w.cs.fired ==> t in w.at && w.pc[t] == InAlt && Ready(w, t))
  }

  /** A task other than the running one: still where it was with its claim kept, or woken with a claim. */
  ghost predicate Kept(w: World, w': World, t: Tid)
    requires w.at.Keys == w.pc.Keys && w'.at.Keys == w'.pc.Keys && t in w'.at
  {
    && t in w.at && w'.pc[t] == w.pc[t]
    && if w'.at[t] == w.at[t] || (Ready(w, t) && Ready(w', t)) then Ready(w, t) && Claim(w, t) ==> Claim(w', t)
       else w'.at[t] == RunQueue && Claim(w', t)
  }

  lemma StepPc(w: World, w': World, me: Tid)
    requires PcInv(w) && w'.rzl == w.rzl && w'.at.Keys == w'.pc.Keys
    requires w'.s.running.Some? ==> Me(w') in w'.at && w'.at[Me(w')] == Running
    requires forall t :: t in w'.at && t != me ==> Kept(w, w', t)
    requires me in w'.at ==> PcOk(w', me)
    requires forall t :: t in w'.cs.fired ==> t in w'.at && w'.pc[t] == InAlt && Ready(w', t)
    ensures PcInv(w')
  {
    forall t | t in w'.at ensures PcOk(w', t) {
      if t != me {
        assert Kept(w, w', t) && PcOk(w, t);
      }
    }
  }

  /** The running task is at its place and has nothing pending. */
  lemma MeReady(w: World)
    requires PcInv(w) && w.s.running.Some?
    ensures Me(w) in w.at && w.at[Me(w)] == Running && Me(w) in w.pc && Claim(w, Me(w))
    ensures w.pc[Me(w)] != InAlt ==> Me(w) !in w.cs.fired
  {
    assert PcOk(w, Me(w));
  }

  /** Steps that change neither locks nor alternatives. */
  lemma PlainPc(w: World, w': World, me: Tid)
    requires w'.at.Keys == w'.pc.Keys
    requires w'.s.running.Some? ==> Me(w') in w'.at && w'.at[Me(w')] == Running
    requires PcInv(w) && w'.rzl == w.rzl && w'.ql == w.ql && w'.rw == w.rw && w'.cs.fired == w.cs.fired
    requires forall t :: t in w'.at && t != me ==>
               t in w.at && w'.pc[t] == w.pc[t] &&
               (w'.at[t] == w.at[t] || (Ready(w, t) && Ready(w', t)) ||
                (w'.at[t] == RunQueue && (w.pc[t].InSleep? || w.pc[t].InDelay? || w.pc[t].InFdWait?)))
    requires forall t :: t in w.at && t != me ==> t in w'.at
    requires me in w'.at ==> PcOk(w', me) && me !in w.cs.fired
    ensures me !in w.cs.fired ==> PcInv(w')
  {
    if me !in w.cs.fired {
      forall t | t in w'.at && t != me ensures Kept(w, w', t) {
        assert PcOk(w, t);
      }
      StepPc(w, w', me);
    }
  }

  /** The second half of a call other than tasksleep: abort, or go on. */
  lemma ReturnShape(w: World, now: nat)
    requires w.s.running.Some? && Me(w) in w.pc && !w.pc[Me(w)].InSleep?
    ensures var w' := DoReturn(w, now);
            || w' == Abort(w) || w' == Continue(w) || w' == Continue(w.(clock := now))
            || (Me(w) in w.cs.fired && w.pc[Me(w)].InAlt? && w' == Continue(w.(cs := CS.Resume(w.cs, Me(w)))))
  {
    hide Abort; hide Continue; hide CS.Resume;
  }

  // ---- Scheduling ----

  /** Steps that end the program. */
  lemma StatusPc(w: World, status: Status)
    requires PcInv(w)
    ensures PcInv(w.(status := status))
  {
    forall t | t in w.at ensures PcOk(w.(status := status), t) {
      assert PcOk(w, t);
    }
  }

  lemma RunPc(w: World)
    requires PcInv(w) && w.s.running.None? && w.s.count != 0 && w.s.runq != []
    requires w.s.runq[0] in w.at && w.at[w.s.runq[0]] == RunQueue
    ensures PcInv(DoDispatch(w))
  {
    var w' := DoDispatch(w);
    forall t | t in w'.at ensures PcOk(w', t) {
      assert PcOk(w, t);
    }
  }

  lemma DispatchPc(w: World)
    requires PcInv(w) && w.s.running.None?
    requires ListOk(w, RunQueue, w.s.runq)
    ensures PcInv(DoDispatch(w))
  {
    if w.s.count != 0 && w.s.runq != [] {
      RunPc(w);
    } else {
      StatusPc(w, DoDispatch(w).status);
    }
  }

  lemma SpawnPc(w: World, pc: Pc)
    requires PcInv(w) && (pc == User || pc == FdFresh)
    requires FreshId(w) && w.s.idgen + 1 !in w.cs.fired
    ensures PcInv(Spawn(w, pc))
  {
    var n := w.s.idgen + 1;
    PlainPc(w, Spawn(w, pc), n);
  }

  lemma YieldPc(w: World, pc: Pc)
    requires PcInv(w) && w.s.running.Some? && Me(w) !in w.cs.fired
    requires pc.InYield? || pc.FdYield?
    ensures PcInv(YieldAt(w, pc))
  {
    MeReady(w);
    PlainPc(w, YieldAt(w, pc), Me(w));
  }

  lemma ExitPc(w: World, val: int)
    requires PcInv(w) && w.s.running.Some? && Me(w) in w.s.all && Me(w) !in w.cs.fired
    ensures PcInv(DoExit(w, val))
  {
    PlainPc(w, DoExit(w, val), Me(w));
  }

  lemma SystemPc(w: World)
    requires PcInv(w) && w.s.running.Some? && Me(w) !in w.cs.fired
    ensures PcInv(DoSystem(w))
  {
    MeReady(w);
    PlainPc(w, w.(s := MarkSystem(w.s)), Me(w));
  }

  // ---- QLock and Rendez ----

  /** Changing one lock, and waking the task that it is handed to. */
  lemma OneQLock(w: World, w': World, l: nat, me: Tid)
    requires PcInv(w) && me in w.at && w'.at.Keys == w.at.Keys == w'.pc.Keys
    requires w'.s.running.Some? ==> Me(w') in w'.at && w'.at[Me(w')] == Running
    requires w'.cs == w.cs && w'.rw == w.rw && w'.rzl == w.rzl
    requires forall m: nat :: m != l ==> QL(w', m) == QL(w, m)
    requires PcOk(w', me) && me !in w.cs.fired
    requires forall t :: t in w.at && t != me ==>
               && w'.pc[t] == w.pc[t]
               && (w'.at[t] == w.at[t] || (w.at[t] == OnQLock(l) && w'.at[t] == RunQueue && QL(w', l).owner == Some(t)))
               && (Ready(w, t) && QL(w, l).owner == Some(t) ==> QL(w', l).owner == Some(t))
    ensures PcInv(w')
  {
    forall t | t in w'.at && t != me ensures Kept(w, w', t) {
      assert PcOk(w, t);
    }
    StepPc(w, w', me);
  }

  /** _qlock, for qlock and for the second half of tasksleep. */
  lemma QLockPc(w: World, l: nat, block: bool, pc: Pc)
    requires PcInv(w) && w.s.running.Some? && Me(w) !in w.cs.fired
    requires pc == InQLock(l) || (pc.InRelock? && pc.r in w.rzl && w.rzl[pc.r] == l)
    requires Me(w) in w.pc ==> w.pc[Me(w)] == User || w.pc[Me(w)].InSleep?
    ensures var (l', got) := QTry(QL(w, l), Me(w), block);
            var w1 := w.(ql := w.ql[l := l']);
            PcInv(if got == Queued then Block(w1, OnQLock(l), pc) else w1)
  {
    var (lk, got) := QTry(QL(w, l), Me(w), block);
    QTryPc(w, l, lk, got == Queued, pc);
    hide PcInv; hide QL;
  }

  /** _qlock: the lock has become `lk`, and the caller waits for it if `queued`. */
  lemma QTryPc(w: World, l: nat, lk: QLock<Tid>, queued: bool, pc: Pc)
    requires PcInv(w) && w.s.running.Some? && Me(w) !in w.cs.fired
    requires pc == InQLock(l) || (pc.InRelock? && pc.r in w.rzl && w.rzl[pc.r] == l)
    requires Me(w) in w.pc ==> w.pc[Me(w)] == User || w.pc[Me(w)].InSleep?
    requires lk.owner == QL(w, l).owner || QL(w, l).owner.None?
    ensures var w1 := w.(ql := w.ql[l := lk]); PcInv(if queued then Block(w1, OnQLock(l), pc) else w1)
  {
    var w1 := w.(ql := w.ql[l := lk]);
    MeReady(w);
    assert QL(w1, l) == lk && forall m: nat :: m != l ==> QL(w1, m) == QL(w, m);
    var w' := if queued then Block(w1, OnQLock(l), pc) else w1;
    QLOf(w', w1);
    assert PcOk(w', Me(w));
    BlockIs(w1, OnQLock(l), pc);
    hide PcInv; hide PcOk; hide QL; hide Block;
    OneQLock(w, w', l, Me(w));
  }

  lemma QLOf(w: World, w1: World)
    requires w.ql == w1.ql
    ensures forall m :: QL(w, m) == QL(w1, m)
  {
  }

  lemma QUnlockPc(w: World, l: nat)
    requires PcInv(w) && w.s.running.Some? && QL(w, l).owner == Some(Me(w))
    requires Me(w) in w.pc && UserPc(w.pc[Me(w)])
    requires ListOk(w, OnQLock(l), QL(w, l).waiting)
    ensures PcInv(DoQUnlock(w, l))
  {
    MeReady(w);
    OneQLock(w, DoQUnlock(w, l), l, Me(w));
  }

  lemma SleepPc(w: World, r: nat)
    requires PcInv(w) && w.s.running.Some? && w.status == Going
    requires Me(w) in w.pc && UserPc(w.pc[Me(w)])
    requires r in w.rzl ==> QL(w, w.rzl[r]).owner == Some(Me(w))
    requires r in w.rzl ==> ListOk(w, OnQLock(w.rzl[r]), QL(w, w.rzl[r]).waiting)
    ensures PcInv(DoSleep(w, r))
  {
    MeReady(w);
    var w' := DoSleep(w, r);
    if r in w.rzl {
      var l := w.rzl[r];
      QUnlockPc(w, l);
      PlainPc(DoQUnlock(w, l), w', Me(w));
    } else {
      PlainPc(w, w', Me(w));
    }
  }

  lemma WakeupPc(w: World, r: nat, all: bool)
    requires PcInv(w) && w.s.running.Some? && Me(w) !in w.cs.fired
    requires ListOk(w, OnRendez(r), RZ(w, r))
    ensures PcInv(DoWakeup(w, r, all))
  {
    MeReady(w);
    var w', us := DoWakeup(w, r, all), Wakeup(RZ(w, r), all).1;
    forall t | t in us ensures t in w.at && w.at[t] == OnRendez(r) && w.pc[t].InSleep? {
      assert t in RZ(w, r) && PcOk(w, t);
    }
    PlainPc(w, w', Me(w));
  }

  // ---- RWLock ----

  lemma OneRWLock(w: World, w': World, l: nat, me: Tid)
    requires PcInv(w) && me in w.at && w'.at.Keys == w.at.Keys == w'.pc.Keys
    requires w'.s.running.Some? ==> Me(w') in w'.at && w'.at[Me(w')] == Running
    requires w'.cs == w.cs && w'.ql == w.ql && w'.rzl == w.rzl
    requires forall m: nat :: m != l ==> RW(w', m) == RW(w, m)
    requires PcOk(w', me) && me !in w.cs.fired
    requires forall t :: t in w.at && t != me ==>
               && w'.pc[t] == w.pc[t]
               && (w'.at[t] == w.at[t] ||
                   (w.at[t] == OnRLock(l) && w'.at[t] == RunQueue && t in RW(w', l).holders) ||
                   (w.at[t] == OnWLock(l) && w'.at[t] == RunQueue && RW(w', l).writer == Some(t)))
               && (Ready(w, t) && t in RW(w, l).holders ==> t in RW(w', l).holders)
               && (Ready(w, t) && RW(w, l).writer == Some(t) ==> RW(w', l).writer == Some(t))
    ensures PcInv(w')
  {
    forall t | t in w'.at && t != me ensures Kept(w, w', t) {
      assert PcOk(w, t);
    }
    StepPc(w, w', me);
  }

  /** _rlock and _wlock: the lock has become `lk`, and the caller waits for it if `queued`. */
  lemma RWTryPc(w: World, l: nat, lk: RWLock<Tid>, queued: bool, p: Place, pc: Pc)
    requires PcInv(w) && w.s.running.Some? && Me(w) in w.pc && UserPc(w.pc[Me(w)])
    requires lk.writer == RW(w, l).writer || RW(w, l).writer.None?
    requires forall t :: t in RW(w, l).holders ==> t in lk.holders
    requires (p == OnRLock(l) && pc == InRLock(l)) || (p == OnWLock(l) && pc == InWLock(l))
    ensures var w1 := w.(rw := w.rw[l := lk]); PcInv(if queued then Block(w1, p, pc) else w1)
  {
    var w1 := w.(rw := w.rw[l := lk]);
    MeReady(w);
    assert RW(w1, l) == lk && forall m: nat :: m != l ==> RW(w1, m) == RW(w, m);
    var w' := if queued then Block(w1, p, pc) else w1;
    RWOf(w', w1);
    assert PcOk(w', Me(w));
    BlockIs(w1, p, pc);
    hide PcInv; hide PcOk; hide RW; hide Block;
    OneRWLock(w, w', l, Me(w));
  }

  lemma RWOf(w: World, w1: World)
    requires w.rw == w1.rw
    ensures forall m :: RW(w, m) == RW(w1, m)
  {
  }

  lemma RLockPc(w: World, l: nat, block: bool)
    requires PcInv(w) && w.s.running.Some? && Me(w) in w.pc && UserPc(w.pc[Me(w)])
    ensures PcInv(DoRLock(w, l, block))
  {
    var (lk, got) := RTry(RW(w, l), Me(w), block);
    RWTryPc(w, l, lk, got == Queued, OnRLock(l), InRLock(l));
    hide PcInv; hide RW;
  }

  lemma WLockPc(w: World, l: nat, block: bool)
    requires PcInv(w) && w.s.running.Some? && Me(w) in w.pc && UserPc(w.pc[Me(w)])
    ensures PcInv(DoWLock(w, l, block))
  {
    var (lk, got) := WTry(RW(w, l), Me(w), block);
    RWTryPc(w, l, lk, got == Queued, OnWLock(l), InWLock(l));
    hide PcInv; hide RW;
  }

  lemma RUnlockPc(w: World, l: nat)
    requires PcInv(w) && w.s.running.Some? && Me(w) in w.pc && UserPc(w.pc[Me(w)])
    requires RWInv(RW(w, l)) && Me(w) in RW(w, l).holders
    requires ListOk(w, OnWLock(l), RW(w, l).wwaiting)
    ensures PcInv(DoRUnlock(w, l))
  {
    MeReady(w);
    OneRWLock(w, DoRUnlock(w, l), l, Me(w));
  }

  lemma WUnlockPc(w: World, l: nat)
    requires PcInv(w) && w.s.running.Some? && Me(w) in w.pc && UserPc(w.pc[Me(w)])
    requires RWInv(RW(w, l)) && RW(w, l).writer == Some(Me(w))
    requires ListOk(w, OnWLock(l), RW(w, l).wwaiting) && ListOk(w, OnRLock(l), RW(w, l).rwaiting)
    ensures PcInv(DoWUnlock(w, l))
  {
    MeReady(w);
    OneRWLock(w, DoWUnlock(w, l), l, Me(w));
  }

  // ---- Channels ----

  lemma AltPc(w: World, alts: seq<CS.Alt<nat, int>>, canblock: bool, i: nat, peer: Option<CS.Entry<Tid>>)
    requires PcInv(w) && w.s.running.Some? && Me(w) in w.pc && UserPc(w.pc[Me(w)])
    requires CS.AltsOk(w.cs, alts) && CS.ChoiceOk(w.cs, alts, i, peer)
    requires SetsOk(w)
    ensures PcInv(DoAlt(w, alts, canblock, i, peer))
  {
    MeReady(w);
    assert PcOk(w, Me(w));
    AltShape(w, alts, canblock, i, peer);
    var w' := DoAlt(w, alts, canblock, i, peer);
    hide DoAlt; hide CS.AltsOk; hide CS.ChoiceOk; hide PcOk;
    if w'.cs.fired.Keys == w.cs.fired.Keys {
      UnservedPc(w, w');
    } else {
      ServePc(w, w', peer.value.k);
    }
  }

  /** A step by chanalt serves one blocked peer, or nobody. */
  lemma AltShape(w: World, alts: seq<CS.Alt<nat, int>>, canblock: bool, i: nat, peer: Option<CS.Entry<Tid>>)
    requires w.s.running.Some? && CS.AltsOk(w.cs, alts) && CS.ChoiceOk(w.cs, alts, i, peer)
    ensures var w' := DoAlt(w, alts, canblock, i, peer);
            var w1 := w.(cs := w'.cs);
            || (w'.cs.fired == w.cs.fired && (w' == w1 || w' == Block(w1, InAltSet, InAlt)))
            || (peer.Some? && peer.value.k in w.cs.sets && w' == Wake(w1, [peer.value.k]) &&
                w'.cs.fired.Keys == w.cs.fired.Keys + {peer.value.k})
  {
    AltFires(w.cs, Me(w), alts, canblock, i, peer);
    hide Wake; hide Block; hide CS.ChanAlt; hide CS.AltsOk; hide CS.ChoiceOk;
  }

  lemma AltFires(
    cs: CS.CS<nat, Tid, int>, me: Tid, alts: seq<CS.Alt<nat, int>>, canblock: bool, i: nat, peer: Option<CS.Entry<Tid>>)
    requires CS.AltsOk(cs, alts) && CS.ChoiceOk(cs, alts, i, peer)
    ensures var (cs', out) := CS.ChanAlt(cs, me, alts, canblock, i, peer);
            if out.Done? && peer.Some? then peer.value.k in cs.sets && cs'.fired.Keys == cs.fired.Keys + {peer.value.k}
            else cs'.fired == cs.fired && (out.WouldBlock? ==> cs' == cs)
  {
  }

  lemma UnservedPc(w: World, w': World)
    requires PcInv(w) && w.s.running.Some? && Me(w) !in w.cs.fired && w'.cs.fired == w.cs.fired
    requires var w1 := w.(cs := w'.cs); w' == w1 || w' == Block(w1, InAltSet, InAlt)
    requires PcOk(w, Me(w)) && UserPc(w.pc[Me(w)])
    ensures PcInv(w')
  {
    PlainPc(w, w', Me(w));
  }

  lemma ServePc(w: World, w': World, k: Tid)
    requires PcInv(w) && k in w.cs.sets && k in w.at && w.at[k] == InAltSet
    requires w' == Wake(w.(cs := w'.cs), [k]) && w'.cs.fired.Keys == w.cs.fired.Keys + {k}
    ensures PcInv(w')
  {
    assert PcOk(w, k);
    forall t | t in w'.cs.fired ensures t in w'.at && w'.pc[t] == InAlt && Ready(w', t) {
      assert t in w.cs.fired.Keys || t == k;
    }
    forall t | t in w'.at ensures Kept(w, w', t) {
      assert PcOk(w, t);
      ServedKept(w, w', k, t);
    }
    hide Kept; hide PcInv;
    StepPc(w, w', k);
  }

  lemma ServedKept(w: World, w': World, k: Tid, t: Tid)
    requires w.at.Keys == w.pc.Keys && t in w.at && PcOk(w, t) && k in w.at && w.at[k] == InAltSet && PcOk(w, k)
    requires w' == Wake(w.(cs := w'.cs), [k]) && w'.cs.fired.Keys == w.cs.fired.Keys + {k}
    ensures t in w'.at && w'.at.Keys == w'.pc.Keys && Kept(w, w', t)
  {
    assert t in w'.cs.fired.Keys <==> t in w.cs.fired.Keys || t == k;
  }

  // ---- Timers ----

  lemma StartFdPc(w: World)
    requires PcInv(w) && w.s.running.Some? && Me(w) !in w.cs.fired
    requires FreshId(w) && w.s.idgen + 1 !in w.cs.fired
    ensures PcInv(StartFd(w))
  {
    if !w.fd.started {
      SpawnPc(w, FdFresh);
      var w1 := Spawn(w, FdFresh);
      MeReady(w1);
      PlainPc(w1, StartFd(w), Me(w));
    }
  }

  lemma DelayPc(w: World, ms: nat, now: nat)
    requires PcInv(w) && w.s.running.Some? && Me(w) !in w.cs.fired
    requires FreshId(w) && w.s.idgen + 1 !in w.cs.fired
    ensures PcInv(DoDelay(w, ms, now))
  {
    StartFdPc(w);
    var w1, w' := StartFd(w), DoDelay(w, ms, now);
    assert w1.s.running == w.s.running && w1.cs == w.cs;
    assert w'.s.running.None? && w'.pc == w1.pc[Me(w) := InDelay(now, ms)] && w'.at == w1.at[Me(w) := Asleep];
    assert w'.rzl == w1.rzl && w'.ql == w1.ql && w'.rw == w1.rw && w'.cs == w1.cs;
    hide StartFd; hide DoDelay;
    MeReady(w1);
    PlainPc(w1, w', Me(w));
  }

  lemma FdWaitPc(w: World, fd: int, events: int)
    requires PcInv(w) && w.s.running.Some? && Me(w) !in w.cs.fired
    requires FreshId(w) && w.s.idgen + 1 !in w.cs.fired
    ensures PcInv(DoFdWait(w, fd, events))
  {
    StartFdPc(w);
    var w1 := StartFd(w);
    if |w1.fd.slots| >= MaxFd {
      StatusPc(w1, Aborted);
    } else {
      MeReady(w1);
      PlainPc(w1, EnterPollTable(w1, fd, events), Me(w));
    }
  }

  lemma PollPc(w: World, rev: seq<int>, now: nat)
    requires PcInv(w) && w.s.running.Some? && Me(w) !in w.cs.fired && |rev| == |w.fd.slots|
    requires var at' := DoPoll(w, rev, now).at;
             forall t :: t in w.at && at'[t] != w.at[t] ==> at'[t] == RunQueue && (w.at[t] == Polling || w.at[t] == Asleep)
    ensures PcInv(DoPoll(w, rev, now))
  {
    MeReady(w);
    var w' := DoPoll(w, rev, now);
    WakeSleepersFrame(w.fd, w.s, now);
    forall t | t in w'.at && w'.at[t] != w.at[t]
      ensures w'.at[t] == RunQueue && (w.pc[t].InFdWait? || w.pc[t].InDelay?)
    {
      assert PcOk(w, t);
    }
    PlainPc(w, w', Me(w));
  }

  /** One pass of fdtask wakes only tasks that wait for it. */
  lemma WokenByPoll(w: World, rev: seq<int>, now: nat, t: Tid)
    requires PlaceInv(w) && |rev| == |w.fd.slots| && t in DoPoll(w, rev, now).at
    ensures t in w.at
    ensures DoPoll(w, rev, now).at[t] != w.at[t] ==>
              DoPoll(w, rev, now).at[t] == RunQueue && (w.at[t] == Polling || w.at[t] == Asleep)
  {
    var slots := SetRevents(w.fd.slots, rev);
    var (kept, gone) := Sweep(slots, 0);
    assert Polled(slots) == Queue(w, Polling);
    assert NoDup(Queue(w, Polling));
    SweepTasks(slots, 0);
    if t in Polled(gone) {
      assert t in Elems(Polled(gone));
      assert t in Elems(Polled(slots));
      assert In(w, t, Polling);
    }
    var n := Due(w.fd.sleeping, now);
    if t in Names(w.fd.sleeping[..n]) {
      var i :| 0 <= i < n && Names(w.fd.sleeping[..n])[i] == t;
      assert Names(w.fd.sleeping)[i] == t;
      assert In(w, t, Asleep);
    }
  }

  lemma FdPassPc(w: World, rev: seq<int>, now: nat)
    requires PcInv(w) && PlaceInv(w) && w.s.running.Some? && Me(w) in w.pc && FdPc(w.pc[Me(w)]) && |rev| == |w.fd.slots|
    ensures PcInv(DoFdPass(w, rev, now))
  {
    var n := w.s.nswitch;
    MeReady(w);
    if w.pc[Me(w)].FdFresh? {
      var w1 := w.(s := MarkSystem(w.s));
      SystemPc(w);
      YieldPc(w1, FdYield(n, |w1.s.runq|));
    } else if ReturnValue(w, now) > 0 {
      YieldPc(w, FdYield(n, |w.s.runq|));
    } else {
      var w1 := DoPoll(w, rev, now);
      forall t | t in w.at { WokenByPoll(w, rev, now, t); }
      PollPc(w, rev, now);
      MeReady(w1);
      YieldPc(w1, FdYield(n, |w1.s.runq|));
    }
  }

  // ---- Second halves ----

  lemma ContinuePc(w: World, w1: World)
    requires PcInv(w) && w.s.running.Some?
    requires w1 == w.(cs := w1.cs, clock := w1.clock) && w1.cs.sets == w.cs.sets
    requires w1.cs.fired == w.cs.fired - {Me(w)}
    ensures PcInv(Continue(w1))
  {
    MeReady(w);
    var w' := Continue(w1);
    forall t | t in w'.at && t != Me(w) ensures Kept(w, w', t) {
      assert PcOk(w, t);
    }
    StepPc(w, w', Me(w));
  }

  lemma RelockPc(w: World, r: nat)
    requires PcInv(w) && w.s.running.Some? && Me(w) in w.pc && w.pc[Me(w)] == InSleep(r)
    ensures PcInv(DoRelock(w, r))
  {
    MeReady(w);
    if r in w.rzl {
      var l := w.rzl[r];
      QLockPc(w, l, true, InRelock(r));
      var (l', got) := QTry(QL(w, l), Me(w), true);
      if got != Queued {
        var w1 := w.(ql := w.ql[l := l']);
        assert w1.cs.fired == w1.cs.fired - {Me(w)};
        ContinuePc(w1, w1);
      }
    } else {
      assert w.cs.fired == w.cs.fired - {Me(w)};
      ContinuePc(w, w);
    }
  }

  /** The second half of a call keeps the invariant, and none of its aborts is reachable. */
  lemma ReturnPc(w: World, now: nat)
    requires PcInv(w) && w.s.running.Some? && Me(w) in w.pc && w.status == Going
    ensures PcInv(DoReturn(w, now)) && DoReturn(w, now).status == Going
  {
    MeReady(w);
    var pc := w.pc[Me(w)];
    if pc.InSleep? {
      RelockPc(w, pc.r);
    } else if pc.InAlt? {
      ContinuePc(w, w.(cs := CS.Resume(w.cs, Me(w))));
    } else {
      assert w.cs.fired == w.cs.fired - {Me(w)};
      ContinuePc(w, if pc.InDelay? then w.(clock := now) else w);
    }
  }
}
