/** Global ownership: every live task is in exactly one place, and only there. */
module Places {
  import opened Util
  import opened LockSpec
  import opened SchedSpec
  import opened FdSpec
  import opened FdProofs
  import opened World
  import CS = ChanSpec

  /** The list of tasks at a place; alt sets are looked up by task instead. */
  function Queue(w: World, p: Place): seq<Tid> {
    match p
    case Running => if w.s.running.Some? then [w.s.running.value] else []
    case RunQueue => w.s.runq
    case OnQLock(l) => QL(w, l).waiting
    case OnRLock(l) => RW(w, l).rwaiting
    case OnWLock(l) => RW(w, l).wwaiting
    case OnRendez(r) => RZ(w, r)
    case Asleep => Names(w.fd.sleeping)
    case Polling => Polled(w.fd.slots)
    case InAltSet => []
  }

  predicate In(w: World, t: Tid, p: Place) {
    if p == InAltSet then t in w.cs.sets else t in Queue(w, p)
  }

  /** The queues hold exactly the live tasks, each once, each where `at` says it is. */
  ghost predicate PlaceInv(w: World) {
    && (forall t: Tid, p: Place :: In(w, t, p) <==> t in w.at && w.at[t] == p)
    && (forall p: Place :: NoDup(Queue(w, p)))
    && w.at.Keys == w.pc.Keys == Elems(w.s.all) && NoDup(w.s.all)
    && (forall t :: t in w.at ==> t <= w.s.idgen)
    && w.s.system <= w.at.Keys
  }

  /** The partition, without the history variable: no task is in two places, and none is in a queue after it has been freed. */
  lemma OnePlaceEach(w: World, t: Tid)
    requires PlaceInv(w)
    ensures t in w.s.all <==> exists p :: In(w, t, p)
    ensures forall p, q :: In(w, t, p) && In(w, t, q) ==> p == q
    ensures forall p :: multiset(Queue(w, p))[t] <= 1
  {
    if t in w.s.all {
      assert t in Elems(w.s.all);
      assert In(w, t, w.at[t]);
    }
    forall p ensures multiset(Queue(w, p))[t] <= 1 {
      CountOnce(Queue(w, p), t);
    }
  }

  /** Every task in the list at `p` is live and is where the history variable says. */
  ghost predicate ListOk(w: World, p: Place, list: seq<Tid>) {
    forall t :: t in list ==> t in w.at && w.at[t] == p
  }

  ghost predicate SetsOk(w: World) {
    forall t :: t in w.cs.sets ==> t in w.at && w.at[t] == InAltSet
  }

  predicate FreshId(w: World) { w.s.idgen + 1 !in w.at }

  lemma Located(w: World, p: Place)
    requires PlaceInv(w)
    ensures ListOk(w, p, Queue(w, p)) && SetsOk(w) && FreshId(w)
  {
    forall t | t in Queue(w, p) ensures t in w.at && w.at[t] == p {
      assert In(w, t, p);
    }
    forall t | t in w.cs.sets ensures t in w.at && w.at[t] == InAltSet {
      assert In(w, t, InAltSet);
    }
  }

  /** The same for the queues of lock and rendezvous point number `l`. */
  lemma WaitersLocated(w: World, l: nat)
    requires PlaceInv(w)
    ensures ListOk(w, OnQLock(l), QL(w, l).waiting) && ListOk(w, OnRendez(l), RZ(w, l))
    ensures ListOk(w, OnRLock(l), RW(w, l).rwaiting) && ListOk(w, OnWLock(l), RW(w, l).wwaiting)
  {
    Located(w, OnQLock(l));
    Located(w, OnRendez(l));
    Located(w, OnRLock(l));
    Located(w, OnWLock(l));
    hide PlaceInv; hide ListOk;
  }

  lemma ReadyLocated(w: World)
    requires PlaceInv(w)
    ensures ListOk(w, RunQueue, w.s.runq) && SetsOk(w) && FreshId(w)
  {
    Located(w, RunQueue);
    hide PlaceInv; hide ListOk;
  }

  lemma CountOnce<T>(s: seq<T>, x: T)
    requires NoDup(s)
    ensures multiset(s)[x] <= 1
  {
    if s != [] {
      var n := |s| - 1;
      NoDupSplit(s, n);
      CountOnce(s[..n], x);
      assert s == s[..n] + [s[n]];
    }
  }

  /** The lists and alt sets of `w'` are those of `w`. */
  ghost predicate SameQueues(w: World, w': World) {
    && w'.at == w.at && w'.pc.Keys == w.pc.Keys
    && w'.s.all == w.s.all && w'.s.idgen == w.s.idgen && w'.s.system <= w.at.Keys
    && (forall p: Place :: Queue(w', p) == Queue(w, p))
    && w'.cs.sets.Keys == w.cs.sets.Keys
  }

  lemma SamePlaces(w: World, w': World)
    requires PlaceInv(w) && SameQueues(w, w')
    ensures PlaceInv(w')
  {
    forall p: Place ensures NoDup(Queue(w', p)) {
      assert Queue(w', p) == Queue(w, p);
    }
    forall t: Tid, p: Place ensures In(w', t, p) <==> t in w'.at && w'.at[t] == p {
      assert Queue(w', p) == Queue(w, p);
      assert In(w', t, p) <==> In(w, t, p);
    }
  }

  /** `w1` is `w0` with the tasks `us` taken out of the queues where they waited. */
  ghost predicate TakenOut(w0: World, w1: World, us: seq<Tid>) {
    && w1.at == w0.at && w1.pc == w0.pc && w1.s == w0.s
    && NoDup(us) && (forall u :: u in us ==> u in w0.at && w0.at[u] != Running && w0.at[u] != RunQueue)
    && (forall t: Tid, p: Place :: In(w1, t, p) <==> In(w0, t, p) && t !in us)
    && (forall p: Place :: NoDup(Queue(w1, p)))
  }

  lemma WakePlaces(w0: World, w1: World, us: seq<Tid>)
    requires PlaceInv(w0) && TakenOut(w0, w1, us)
    ensures PlaceInv(Wake(w1, us))
  {
    var w' := Wake(w1, us);
    forall u | u in us ensures u !in w1.s.runq {
      assert In(w1, u, RunQueue) <==> u in w1.s.runq;
    }
    assert NoDup(Queue(w1, RunQueue));
    NoDupConcat(w1.s.runq, us);
    forall p: Place ensures NoDup(Queue(w', p)) {
      assert p != RunQueue ==> Queue(w', p) == Queue(w1, p);
    }
    forall t: Tid, p: Place ensures In(w', t, p) <==> t in w'.at && w'.at[t] == p {
      assert p != RunQueue ==> (In(w', t, p) <==> In(w1, t, p));
      assert In(w', t, RunQueue) <==> t in w1.s.runq || t in us;
      assert In(w1, t, p) <==> In(w0, t, p) && t !in us;
      assert In(w1, t, RunQueue) <==> t in w1.s.runq;
    }
  }

  /** `w1` is `w0` with the running task added to the queue of place `p`. */
  ghost predicate PutIn(w0: World, w1: World, p: Place) {
    && w1.at == w0.at && w1.pc == w0.pc
    && w1.s.running == w0.s.running && w0.s.running.Some? && p != Running
    && w1.s.all == w0.s.all && w1.s.idgen == w0.s.idgen && w1.s.system == w0.s.system
    && (forall t: Tid, q: Place :: In(w1, t, q) <==> In(w0, t, q) || (t == Me(w0) && q == p))
    && (forall q: Place :: NoDup(Queue(w1, q)))
  }

  lemma BlockPlaces(w0: World, w1: World, p: Place, pc: Pc)
    requires PlaceInv(w0) && PutIn(w0, w1, p)
    ensures PlaceInv(Block(w1, p, pc))
  {
    var w', me := Block(w1, p, pc), Me(w0);
    assert In(w0, me, Running);
    forall q: Place ensures NoDup(Queue(w', q)) {
      assert q != Running ==> Queue(w', q) == Queue(w1, q);
    }
    forall t: Tid, q: Place ensures In(w', t, q) <==> t in w'.at && w'.at[t] == q {
      assert q != Running ==> (In(w', t, q) <==> In(w1, t, q));
      assert In(w0, t, q) <==> t in w0.at && w0.at[t] == q;
      assert In(w1, t, q) <==> In(w0, t, q) || (t == me && q == p);
      assert In(w0, t, Running) <==> t == me;
    }
  }

  /** Putting the running task at the end of a list keeps that list free of repetitions. */
  lemma AppendMe(w: World, p: Place)
    requires PlaceInv(w) && w.s.running.Some? && p != Running && p != InAltSet
    ensures Me(w) !in Queue(w, p) && NoDup(Queue(w, p) + [Me(w)])
  {
    assert In(w, Me(w), Running);
    assert !In(w, Me(w), p);
    assert NoDup(Queue(w, p));
    NoDupConcat(Queue(w, p), [Me(w)]);
  }

  // ---- Each call ----

  lemma DispatchQueue(w: World, p: Place)
    requires PlaceInv(w) && w.s.running.None? && w.s.count != 0 && w.s.runq != []
    ensures NoDup(Queue(DoDispatch(w), p))
  {
    assert NoDup(Queue(w, p)) && NoDup(Queue(w, RunQueue));
    NoDupSplit(w.s.runq, 1);
    assert p != RunQueue && p != Running ==> Queue(DoDispatch(w), p) == Queue(w, p);
    hide PlaceInv;
  }

  lemma DispatchIn(w: World, t: Tid, p: Place)
    requires PlaceInv(w) && w.s.running.None? && w.s.count != 0 && w.s.runq != []
    ensures var w' := DoDispatch(w); In(w', t, p) <==> t in w'.at && w'.at[t] == p
  {
    assert In(w, t, p) <==> t in w.at && w.at[t] == p;
    assert In(w, t, RunQueue) <==> t in w.at && w.at[t] == RunQueue;
    assert In(w, t, Running) <==> t in w.at && w.at[t] == Running;
    assert In(w, w.s.runq[0], RunQueue) <==> w.s.runq[0] in w.at && w.at[w.s.runq[0]] == RunQueue;
    assert NoDup(Queue(w, RunQueue));
    hide PlaceInv;
    NoDupSplit(w.s.runq, 1);
    assert w.s.runq[..1] == [w.s.runq[0]];
    hide NoDup;
  }

  lemma DispatchPlaces(w: World)
    requires PlaceInv(w) && w.s.running.None?
    ensures PlaceInv(DoDispatch(w))
  {
    var w' := DoDispatch(w);
    if w.s.count != 0 && w.s.runq != [] {
      forall p: Place ensures NoDup(Queue(w', p)) {
        DispatchQueue(w, p);
      }
      forall t: Tid, p: Place ensures In(w', t, p) <==> t in w'.at && w'.at[t] == p {
        DispatchIn(w, t, p);
      }
      assert In(w, w.s.runq[0], RunQueue);
      hide In; hide Queue;
    } else {
      SamePlaces(w, w');
    }
  }

  lemma SpawnPlaces(w: World, pc: Pc)
    requires PlaceInv(w)
    ensures PlaceInv(Spawn(w, pc))
  {
    var w', n := Spawn(w, pc), w.s.idgen + 1;
    assert n !in Elems(w.s.all);
    NoDupConcat(w.s.all, [n]);
    assert Elems(w'.s.all) == Elems(w.s.all) + {n};
    forall p: Place ensures NoDup(Queue(w', p)) {
      SpawnQueue(w, pc, p);
    }
    forall t: Tid, p: Place ensures In(w', t, p) <==> t in w'.at && w'.at[t] == p {
      SpawnIn(w, pc, t, p);
    }
    hide In; hide Queue; hide NoDup;
  }

  lemma SpawnQueue(w: World, pc: Pc, p: Place)
    requires PlaceInv(w)
    ensures NoDup(Queue(Spawn(w, pc), p))
  {
    var n := w.s.idgen + 1;
    assert NoDup(Queue(w, RunQueue)) && NoDup(Queue(w, p)) && !In(w, n, RunQueue);
    hide PlaceInv;
    NoDupConcat(w.s.runq, [n]);
    assert p != RunQueue ==> Queue(Spawn(w, pc), p) == Queue(w, p);
  }

  lemma SpawnIn(w: World, pc: Pc, t: Tid, p: Place)
    requires PlaceInv(w)
    ensures var w' := Spawn(w, pc); In(w', t, p) <==> t in w'.at && w'.at[t] == p
  {
    var n := w.s.idgen + 1;
    assert In(w, t, p) <==> t in w.at && w.at[t] == p;
    assert !In(w, n, p) && n !in w.at;
    hide PlaceInv;
  }

  lemma YieldPlaces(w: World, pc: Pc)
    requires PlaceInv(w) && w.s.running.Some?
    ensures PlaceInv(YieldAt(w, pc))
  {
    var w1 := w.(s := ReadyAll(w.s, [Me(w)]));
    AppendMe(w, RunQueue);
    forall q: Place ensures NoDup(Queue(w1, q)) {
      assert q != RunQueue ==> Queue(w1, q) == Queue(w, q);
    }
    forall t: Tid, q: Place ensures In(w1, t, q) <==> In(w, t, q) || (t == Me(w) && q == RunQueue) {
      assert q != RunQueue ==> (In(w1, t, q) <==> In(w, t, q));
    }
    BlockPlaces(w, w1, RunQueue, pc);
  }

  lemma ExitPlaces(w: World, val: int)
    requires PlaceInv(w) && w.s.running.Some? && Me(w) in w.s.all
    ensures PlaceInv(DoExit(w, val))
  {
    var w', me := DoExit(w, val), Me(w);
    SwapDeleteNoDup(w.s.all, IndexOf(w.s.all, me));
    assert In(w, me, Running);
    forall p: Place ensures NoDup(Queue(w', p)) {
      assert p != Running ==> Queue(w', p) == Queue(w, p);
    }
    forall t: Tid, p: Place ensures In(w', t, p) <==> t in w'.at && w'.at[t] == p {
      assert In(w, t, p) <==> t in w.at && w.at[t] == p;
      assert In(w, t, Running) <==> t == me;
      assert p != Running ==> (In(w', t, p) <==> In(w, t, p));
    }
  }

  /** Appending the running task to the list at `p`, everything else as it was. */
  lemma QueueMe(w: World, w1: World, p: Place, pc: Pc)
    requires PlaceInv(w) && w.s.running.Some? && p != Running && p != RunQueue && p != InAltSet
    requires w1.at == w.at && w1.pc == w.pc && w1.s == w.s && w1.cs == w.cs
    requires Queue(w1, p) == Queue(w, p) + [Me(w)]
    requires forall q: Place :: q != p ==> Queue(w1, q) == Queue(w, q)
    ensures PlaceInv(Block(w1, p, pc))
  {
    AppendMe(w, p);
    forall q: Place ensures NoDup(Queue(w1, q)) {
      assert NoDup(Queue(w, q));
    }
    forall t: Tid, q: Place ensures In(w1, t, q) <==> In(w, t, q) || (t == Me(w) && q == p) {
      assert q != p ==> Queue(w1, q) == Queue(w, q);
    }
    BlockPlaces(w, w1, p, pc);
  }

  /** Taking the tasks `us` off the front of the list at `p` and making them ready, everything else as it was. */
  lemma WakeHead(w: World, w1: World, p: Place, us: seq<Tid>)
    requires PlaceInv(w) && p != Running && p != RunQueue && p != InAltSet
    requires w1.at == w.at && w1.pc == w.pc && w1.s == w.s && w1.cs == w.cs
    requires Queue(w, p) == us + Queue(w1, p)
    requires forall q: Place :: q != p ==> Queue(w1, q) == Queue(w, q)
    ensures PlaceInv(Wake(w1, us))
  {
    assert NoDup(Queue(w, p));
    NoDupParts(us, Queue(w1, p));
    forall u | u in us ensures u in w.at && w.at[u] == p {
      assert In(w, u, p);
    }
    forall q: Place ensures NoDup(Queue(w1, q)) {
      assert NoDup(Queue(w, q));
    }
    forall t: Tid, q: Place ensures In(w1, t, q) <==> In(w, t, q) && t !in us {
      assert In(w, t, q) <==> t in w.at && w.at[t] == q;
      assert q != p ==> Queue(w1, q) == Queue(w, q);
    }
    WakePlaces(w, w1, us);
  }

  lemma QLockPlaces(w: World, l: nat, block: bool, pc: Pc)
    requires PlaceInv(w) && w.s.running.Some?
    ensures var (l', got) := QTry(QL(w, l), Me(w), block);
            var w1 := w.(ql := w.ql[l := l']);
            PlaceInv(if got == Queued then Block(w1, OnQLock(l), pc) else w1)
  {
    var (l', got) := QTry(QL(w, l), Me(w), block);
    var w1 := w.(ql := w.ql[l := l']);
    if got == Queued {
      QueueMe(w, w1, OnQLock(l), pc);
    } else {
      SamePlaces(w, w1);
    }
  }

  lemma QUnlockPlaces(w: World, l: nat)
    requires PlaceInv(w)
    ensures PlaceInv(DoQUnlock(w, l))
  {
    var lk := QL(w, l);
    match QRelease(lk)
    case None => SamePlaces(w, Abort(w));
    case Some(r) =>
      var w1 := w.(ql := w.ql[l := r.0]);
      assert lk.waiting == r.1 + r.0.waiting;
      WakeHead(w, w1, OnQLock(l), r.1);
  }

  /** Changing one reader-writer lock changes at most its own two queues. */
  lemma RWQueues(w: World, l: nat, lk: RWLock<Tid>, p: Place)
    ensures Queue(w.(rw := w.rw[l := lk]), p) ==
            if p == OnRLock(l) then lk.rwaiting else if p == OnWLock(l) then lk.wwaiting else Queue(w, p)
  {
  }

  lemma RLockPlaces(w: World, l: nat, block: bool)
    requires PlaceInv(w) && w.s.running.Some?
    ensures PlaceInv(DoRLock(w, l, block))
  {
    var (l', got) := RTry(RW(w, l), Me(w), block);
    var w1 := w.(rw := w.rw[l := l']);
    forall p { RWQueues(w, l, l', p); }
    if got == Queued {
      QueueMe(w, w1, OnRLock(l), InRLock(l));
    } else {
      SamePlaces(w, w1);
    }
  }

  lemma WLockPlaces(w: World, l: nat, block: bool)
    requires PlaceInv(w) && w.s.running.Some?
    ensures PlaceInv(DoWLock(w, l, block))
  {
    var (l', got) := WTry(RW(w, l), Me(w), block);
    var w1 := w.(rw := w.rw[l := l']);
    forall p { RWQueues(w, l, l', p); }
    if got == Queued {
      QueueMe(w, w1, OnWLock(l), InWLock(l));
    } else {
      SamePlaces(w, w1);
    }
  }

  /** Handing a reader-writer lock to the tasks `us` at the head of one of its queues. */
  lemma HandOver(w: World, l: nat, lk: RWLock<Tid>, us: seq<Tid>)
    requires PlaceInv(w)
    requires (RW(w, l).rwaiting == lk.rwaiting && RW(w, l).wwaiting == us + lk.wwaiting)
          || (RW(w, l).wwaiting == lk.wwaiting && RW(w, l).rwaiting == us + lk.rwaiting)
    ensures PlaceInv(Wake(w.(rw := w.rw[l := lk]), us))
  {
    var w1 := w.(rw := w.rw[l := lk]);
    forall p { RWQueues(w, l, lk, p); }
    if RW(w, l).rwaiting == lk.rwaiting && RW(w, l).wwaiting == us + lk.wwaiting {
      WakeHead(w, w1, OnWLock(l), us);
    } else {
      WakeHead(w, w1, OnRLock(l), us);
    }
  }

  lemma RUnlockPlaces(w: World, l: nat)
    requires PlaceInv(w) && w.s.running.Some?
    ensures PlaceInv(DoRUnlock(w, l))
  {
    var (l', us) := RRelease(RW(w, l), Me(w));
    assert RW(w, l).wwaiting == us + l'.wwaiting;
    HandOver(w, l, l', us);
  }

  lemma WUnlockPlaces(w: World, l: nat)
    requires PlaceInv(w)
    ensures PlaceInv(DoWUnlock(w, l))
  {
    match WRelease(RW(w, l))
    case None => SamePlaces(w, Abort(w));
    case Some(r) =>
      assert RW(w, l).rwaiting == [] ==> RW(w, l).wwaiting == r.1 + r.0.wwaiting;
      assert RW(w, l).rwaiting != [] ==> RW(w, l).rwaiting == r.1 + r.0.rwaiting;
      HandOver(w, l, r.0, r.1);
  }

  lemma WakeupPlaces(w: World, r: nat, all: bool)
    requires PlaceInv(w)
    ensures PlaceInv(DoWakeup(w, r, all))
  {
    var (still, us) := Wakeup(RZ(w, r), all);
    assert RZ(w, r) == us + still;
    WakeHead(w, w.(rz := w.rz[r := still]), OnRendez(r), us);
  }

  lemma PollMe(w: World, fd: int, events: int)
    requires PlaceInv(w) && w.s.running.Some?
    ensures PlaceInv(EnterPollTable(w, fd, events))
  {
    if |w.fd.slots| >= MaxFd {
      SamePlaces(w, Abort(w));
    } else {
      var slots := w.fd.slots + [Slot(Me(w), fd, events, 0)];
      assert Polled(slots) == Polled(w.fd.slots) + [Me(w)];
      QueueMe(w, w.(fd := w.fd.(slots := slots)), Polling, InFdWait);
    }
  }

  lemma FdWaitPlaces(w: World, fd: int, events: int)
    requires PlaceInv(w) && w.s.running.Some?
    ensures PlaceInv(DoFdWait(w, fd, events))
  {
    StartFdPlaces(w);
    PollMe(StartFd(w), fd, events);
  }

  lemma StartFdPlaces(w: World)
    requires PlaceInv(w)
    ensures PlaceInv(StartFd(w))
  {
    if !w.fd.started {
      SpawnPlaces(w, FdFresh);
      SamePlaces(Spawn(w, FdFresh), StartFd(w));
    }
  }

  /** A sleeper inserted in the middle of its list. */
  lemma SleepMe(w: World, w1: World, x: Sleeper<Tid>, pc: Pc)
    requires PlaceInv(w) && w.s.running.Some? && x.t == Me(w)
    requires w1.fd.sleeping == Insert(w.fd.sleeping, x) && w1.fd.slots == w.fd.slots
    requires w1.at == w.at && w1.pc == w.pc && w1.cs == w.cs && w1.ql == w.ql && w1.rw == w.rw && w1.rz == w.rz
    requires w1.s == w.s.(count := w1.s.count)
    ensures PlaceInv(Block(w1, Asleep, pc))
  {
    AppendMe(w, Asleep);
    InsertNames(w.fd.sleeping, x);
    forall q: Place ensures NoDup(Queue(w1, q)) {
      assert NoDup(Queue(w, q));
      assert q != Asleep ==> Queue(w1, q) == Queue(w, q);
    }
    forall t: Tid, q: Place ensures In(w1, t, q) <==> In(w, t, q) || (t == x.t && q == Asleep) {
      assert q != Asleep ==> (In(w1, t, q) <==> In(w, t, q));
      assert t in Elems(Queue(w1, Asleep)) <==> t in Elems(Queue(w, Asleep)) + {x.t};
    }
    BlockPlaces(w, w1, Asleep, pc);
  }

  lemma DelayPlaces(w: World, ms: nat, now: nat)
    requires PlaceInv(w) && w.s.running.Some?
    ensures PlaceInv(DoDelay(w, ms, now))
  {
    StartFdPlaces(w);
    var w1 := StartFd(w).(clock := now);
    SamePlaces(StartFd(w), w1);
    hide PlaceInv; hide StartFd;
    EnterPlaces(w, w1, ms, now);
  }

  lemma EnterPlaces(w: World, w1: World, ms: nat, now: nat)
    requires PlaceInv(w1) && w.s.running.Some? && w1 == StartFd(w).(clock := now)
    ensures PlaceInv(DoDelay(w, ms, now))
  {
    hide PlaceInv;
    StartFdRuns(w);
    hide StartFd; hide Insert;
    var (fd', s') := Delay(w1.fd, w1.s, Me(w), now + ms * NsPerMs);
    SleepMe(w1, w1.(fd := fd', s := s'), Sleeper(Me(w), now + ms * NsPerMs), InDelay(now, ms));
  }

  lemma StartFdRuns(w: World)
    ensures StartFd(w).s.running == w.s.running
  {
  }

  /** tasksleep: the caller joins the queue, then hands its lock over, then is switched out. */
  lemma SleepPlaces(w: World, r: nat)
    requires PlaceInv(w) && w.s.running.Some? && w.status == Going
    requires r in w.rzl ==> QL(w, w.rzl[r]).owner.Some?
    ensures PlaceInv(DoSleep(w, r))
  {
    var rz' := w.rz[r := RZ(w, r) + [Me(w)]];
    if r !in w.rzl {
      QueueMe(w, w.(rz := rz'), OnRendez(r), InSleep(r));
    } else {
      var w0 := DoQUnlock(w, w.rzl[r]);
      QUnlockPlaces(w, w.rzl[r]);
      assert w0.(rz := rz') == DoQUnlock(w.(rz := rz'), w.rzl[r]);
      assert w0.status == Going && Me(w0) == Me(w);
      QueueMe(w0, w0.(rz := rz'), OnRendez(r), InSleep(r));
    }
  }

  // ---- Channels ----

  lemma AltPlaces(w: World, alts: seq<CS.Alt<nat, int>>, canblock: bool, i: nat, peer: Option<CS.Entry<Tid>>)
    requires PlaceInv(w) && w.s.running.Some?
    requires CS.AltsOk(w.cs, alts) && CS.ChoiceOk(w.cs, alts, i, peer)
    ensures PlaceInv(DoAlt(w, alts, canblock, i, peer))
  {
    var (cs', out) := CS.ChanAlt(w.cs, Me(w), alts, canblock, i, peer);
    var w1 := w.(cs := cs');
    SetsAfter(w.cs, Me(w), alts, canblock, i, peer);
    hide CS.ChanAlt; hide CS.AltsOk; hide CS.ChoiceOk; hide PlaceInv; hide Wake; hide Block;
    match out
    case Done(_, _) =>
      match peer {
        case Some(e) => ServePlaces(w, w1, e.k);
        case None => SamePlaces(w, w1);
      }
    case WouldBlock =>
    case Parked => ParkPlaces(w, w1);
  }

  /** Who is blocked after chanalt. */
  lemma SetsAfter(
    cs: CS.CS<nat, Tid, int>, me: Tid, alts: seq<CS.Alt<nat, int>>, canblock: bool, i: nat, peer: Option<CS.Entry<Tid>>)
    requires CS.AltsOk(cs, alts) && CS.ChoiceOk(cs, alts, i, peer)
    ensures var (cs', out) := CS.ChanAlt(cs, me, alts, canblock, i, peer);
            match out
            case Done(_, _) =>
              cs'.sets.Keys == (match peer case Some(e) => cs.sets.Keys - {e.k} case None => cs.sets.Keys) &&
              (peer.Some? ==> peer.value.k in cs.sets) && (peer.None? ==> cs'.sets == cs.sets)
            case WouldBlock => true
            case Parked => cs'.sets.Keys == cs.sets.Keys + {me}
  {
  }

  /** A blocked alt set disappears and its task becomes ready. */
  lemma ServePlaces(w: World, w1: World, k: Tid)
    requires PlaceInv(w) && k in w.cs.sets && w1 == w.(cs := w1.cs) && w1.cs.sets.Keys == w.cs.sets.Keys - {k}
    ensures PlaceInv(Wake(w1, [k]))
  {
    assert In(w, k, InAltSet);
    forall q: Place ensures NoDup(Queue(w1, q)) {
      assert Queue(w1, q) == Queue(w, q);
    }
    forall t: Tid, q: Place ensures In(w1, t, q) <==> In(w, t, q) && t !in [k] {
      assert In(w, t, q) <==> t in w.at && w.at[t] == q;
      assert Queue(w1, q) == Queue(w, q);
      assert t in w1.cs.sets.Keys <==> t in w.cs.sets.Keys && t != k;
    }
    WakePlaces(w, w1, [k]);
  }

  /** The running task becomes blocked in an alt set. */
  lemma ParkPlaces(w: World, w1: World)
    requires PlaceInv(w) && w.s.running.Some? && w1 == w.(cs := w1.cs) && w1.cs.sets.Keys == w.cs.sets.Keys + {Me(w)}
    ensures PlaceInv(Block(w1, InAltSet, InAlt))
  {
    forall q: Place ensures NoDup(Queue(w1, q)) {
      assert Queue(w1, q) == Queue(w, q);
    }
    forall t: Tid, q: Place ensures In(w1, t, q) <==> In(w, t, q) || (t == Me(w) && q == InAltSet) {
      assert Queue(w1, q) == Queue(w, q);
      assert t in w1.cs.sets.Keys <==> t in w.cs.sets.Keys || t == Me(w);
    }
    BlockPlaces(w, w1, InAltSet, InAlt);
  }

  // ---- fdtask ----

  /** The compaction loop: the tasks it takes out of the poll table become ready. */
  lemma SweepPlaces(w: World, rev: seq<int>)
    requires PlaceInv(w) && |rev| == |w.fd.slots|
    ensures var (kept, gone) := Sweep(SetRevents(w.fd.slots, rev), 0);
            PlaceInv(Wake(w.(fd := w.fd.(slots := kept)), Polled(gone)))
  {
    var slots := SetRevents(w.fd.slots, rev);
    var (kept, gone) := Sweep(slots, 0);
    var w1, us := w.(fd := w.fd.(slots := kept)), Polled(gone);
    assert Polled(slots) == Queue(w, Polling);
    assert NoDup(Queue(w, Polling));
    SweepTasks(slots, 0);
    assert forall t :: t in Queue(w, Polling) <==> t in Polled(kept) || t in us by {
      forall t ensures t in Queue(w, Polling) <==> t in Polled(kept) || t in us {
        assert t in Elems(Polled(slots)) <==> t in Elems(Polled(kept)) + Elems(us);
      }
    }
    assert forall t :: t in us ==> t !in Polled(kept) by {
      forall t | t in us ensures t !in Polled(kept) {
        assert t in Elems(us) && t !in Elems(us) * Elems(Polled(kept));
      }
    }
    forall u | u in us ensures u in w.at && w.at[u] == Polling {
      assert In(w, u, Polling);
    }
    forall q: Place ensures NoDup(Queue(w1, q)) {
      assert NoDup(Queue(w, q));
      assert q != Polling ==> Queue(w1, q) == Queue(w, q);
    }
    forall t: Tid, q: Place ensures In(w1, t, q) <==> In(w, t, q) && t !in us {
      assert In(w, t, q) <==> t in w.at && w.at[t] == q;
      assert q != Polling ==> Queue(w1, q) == Queue(w, q);
    }
    WakePlaces(w, w1, us);
  }

  /** Making the tasks at the head of the list of sleepers ready. */
  lemma SleepersOut(w: World, fd: Fd<Tid>, us: seq<Tid>)
    requires PlaceInv(w) && fd.slots == w.fd.slots && Names(w.fd.sleeping) == us + Names(fd.sleeping)
    ensures PlaceInv(Wake(w.(fd := fd), us))
  {
    WakeHead(w, w.(fd := fd), Asleep, us);
  }

  /** The wake-up loop: the sleepers that are due become ready. */
  lemma WakeSleepersPlaces(w: World, now: nat)
    requires PlaceInv(w)
    ensures var (fd', s') := WakeSleepers(w.fd, w.s, now);
            var us := Names(w.fd.sleeping[..Due(w.fd.sleeping, now)]);
            PlaceInv(w.(fd := fd', s := s', clock := now, at := map t | t in w.at :: if t in us then RunQueue else w.at[t]))
  {
    var r := WakeSleepers(w.fd, w.s, now);
    var n := Due(w.fd.sleeping, now);
    var us := Names(w.fd.sleeping[..n]);
    WakeSleepersFrame(w.fd, w.s, now);
    WakeSleepersWakesDue(w.fd, w.s, now);
    assert Names(w.fd.sleeping) == us + Names(w.fd.sleeping[n..]);
    SleepersOut(w, r.0, us);
    CountPlaces(Wake(w.(fd := r.0), us), r.1, now);
  }

  /** Neither the task count nor the clock has to do with places. */
  lemma CountPlaces(w: World, s': Sched<Tid>, now: nat)
    requires PlaceInv(w) && s' == w.s.(count := s'.count)
    ensures PlaceInv(w.(s := s', clock := now))
  {
    SamePlaces(w, w.(s := s', clock := now));
  }

  lemma PollPlaces(w: World, rev: seq<int>, now: nat)
    requires PlaceInv(w) && |rev| == |w.fd.slots|
    ensures PlaceInv(DoPoll(w, rev, now))
  {
    var (kept, gone) := Sweep(SetRevents(w.fd.slots, rev), 0);
    var w1 := Wake(w.(fd := w.fd.(slots := kept)), Polled(gone));
    SweepPlaces(w, rev);
    WakeSleepersPlaces(w1, now);
  }

  lemma FdPassPlaces(w: World, rev: seq<int>, now: nat)
    requires PlaceInv(w) && w.s.running.Some? && Me(w) in w.pc && |rev| == |w.fd.slots|
    ensures PlaceInv(DoFdPass(w, rev, now))
  {
    var n := w.s.nswitch;
    if w.pc[Me(w)].FdFresh? {
      var w1 := w.(s := MarkSystem(w.s));
      SystemPlaces(w);
      YieldPlaces(w1, FdYield(n, |w1.s.runq|));
    } else if ReturnValue(w, now) > 0 {
      YieldPlaces(w, FdYield(n, |w.s.runq|));
    } else {
      var w1 := DoPoll(w, rev, now);
      PollPlaces(w, rev, now);
      YieldPlaces(w1, FdYield(n, |w1.s.runq|));
    }
  }

  lemma SystemPlaces(w: World)
    requires PlaceInv(w) && w.s.running.Some?
    ensures PlaceInv(DoSystem(w))
  {
    assert In(w, Me(w), Running);
    SamePlaces(w, w.(s := MarkSystem(w.s)));
  }

  // ---- All of them ----

  lemma ContinuePlaces(w: World, w1: World)
    requires PlaceInv(w) && w.s.running.Some?
    requires w1 == w.(cs := w1.cs, clock := w1.clock) && w1.cs.sets == w.cs.sets
    ensures PlaceInv(Continue(w1))
  {
    assert In(w, Me(w), Running);
    SamePlaces(w, Continue(w1));
  }

  lemma RelockPlaces(w: World, r: nat)
    requires PlaceInv(w) && w.s.running.Some?
    ensures PlaceInv(DoRelock(w, r))
  {
    if r in w.rzl {
      var l := w.rzl[r];
      QLockPlaces(w, l, true, InRelock(r));
      var (l', got) := QTry(QL(w, l), Me(w), true);
      if got != Queued {
        ContinuePlaces(w.(ql := w.ql[l := l']), w.(ql := w.ql[l := l']));
      }
    } else {
      ContinuePlaces(w, w);
    }
  }

  lemma AbortPlaces(w: World)
    requires PlaceInv(w)
    ensures PlaceInv(Abort(w))
  {
    SamePlaces(w, Abort(w));
  }

  lemma ReturnPlaces(w: World, now: nat)
    requires PlaceInv(w) && w.s.running.Some? && Me(w) in w.pc
    ensures PlaceInv(DoReturn(w, now))
  {
    var pc, w' := w.pc[Me(w)], DoReturn(w, now);
    if pc.InSleep? {
      RelockPlaces(w, pc.r);
    } else if w' == Abort(w) {
      AbortPlaces(w);
    } else if pc.InAlt? {
      ContinuePlaces(w, w.(cs := CS.Resume(w.cs, Me(w))));
    } else if pc.InDelay? {
      ContinuePlaces(w, w.(clock := now));
    } else {
      ContinuePlaces(w, w);
    }
  }

  lemma SimplePlaces(w: World, c: nat, bufsize: nat, val: int)
    requires PlaceInv(w)
    ensures PlaceInv(DoExitAll(w, val)) && PlaceInv(DoChanCreate(w, c, bufsize))
  {
    SamePlaces(w, DoExitAll(w, val));
    SamePlaces(w, DoChanCreate(w, c, bufsize));
  }

  lemma QLockOpPlaces(w: World, l: nat, block: bool)
    requires PlaceInv(w) && w.s.running.Some?
    ensures PlaceInv(DoQLock(w, l, block))
  {
    QLockPlaces(w, l, block, InQLock(l));
  }

  /** Every step of every program keeps the partition. */
  lemma StepPlaces(w: World, op: Op)
    requires PlaceInv(w) && Enabled(w, op)
    ensures PlaceInv(Next(w, op))
  {
    hide *;
    StepIs(w, op);
    if op != SchedDispatch { CallIs(w, op); }
    match op
    case SchedDispatch => DispatchPlaces(w);
    case TaskCreate => SpawnPlaces(w, User);
    case TaskSystem => SystemPlaces(w);
    case TaskYield => YieldPlaces(w, InYield(w.s.nswitch, |w.s.runq|));
    case TaskExit(v) => ExitPlaces(w, v);
    case TaskExitAll(v) => SimplePlaces(w, 0, 0, v);
    case ChanCreate(c, b) => SimplePlaces(w, c, b, 0);
    case ChanAlt(alts, canblock, i, peer) => AltPlaces(w, alts, canblock, i, peer);
    case QLockOp(l, block) => QLockOpPlaces(w, l, block);
    case QUnlockOp(l) => QUnlockPlaces(w, l);
    case RLockOp(l, block) => RLockPlaces(w, l, block);
    case WLockOp(l, block) => WLockPlaces(w, l, block);
    case RUnlockOp(l) => RUnlockPlaces(w, l);
    case WUnlockOp(l) => WUnlockPlaces(w, l);
    case TaskSleep(r) => SleepPlaces(w, r);
    case TaskWakeup(r, all) => WakeupPlaces(w, r, all);
    case TaskDelay(ms, now) => DelayPlaces(w, ms, now);
    case FdWait(fd, rw) => FdWaitPlaces(w, fd, Bits(rw));
    case Return(now) => ReturnPlaces(w, now);
    case FdPass(rev, _, now2) => FdPassPlaces(w, rev, now2);
  }
}
