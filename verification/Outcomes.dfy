/**
 What each call does to the library's state, said in the fields of that state: who runs on, who is
 queued where and at what program position, and that nothing else changes.
 */
module Outcomes {
  import opened Util
  import opened LockSpec
  import opened SchedSpec
  import opened FdSpec
  import opened FdProofs
  import opened World
  import opened Places
  import opened Timers
  import opened Turns
  import opened PcProofs
  import opened Runs
  import LT = LockTheorems
  import CS = ChanSpec

  /** The running task has switched out: it waits at `p` and will go on at `pc`. */
  ghost predicate SwitchedOut(w: World, w': World, p: Place, pc: Pc)
    requires w.s.running.Some?
  {
    w'.s == w.s.(running := None) && w'.at == w.at[Me(w) := p] && w'.pc == w.pc[Me(w) := pc]
  }

  /** The running task goes on, and the tasks `us` have been made ready, in this order. */
  ghost predicate Readied(w: World, w': World, us: seq<Tid>) {
    && w'.s == w.s.(runq := w.s.runq + us) && w'.pc == w.pc && w'.at.Keys == w.at.Keys
    && forall t :: t in w.at ==> w'.at[t] == if t in us then RunQueue else w.at[t]
  }

  /** The running task goes on, and no task is moved. */
  ghost predicate RunsOn(w: World, w': World) {
    w'.s == w.s && w'.at == w.at && w'.pc == w.pc
  }

  /** `w` with the scheduler, the places and the program positions of `w'`. */
  function With(w: World, w': World): World {
    w.(s := w'.s, at := w'.at, pc := w'.pc)
  }

  ghost predicate OtherQLocks(w: World, w': World, l: nat) {
    w' == With(w, w').(ql := w'.ql) && forall m :: m != l ==> QL(w', m) == QL(w, m)
  }

  ghost predicate OtherRWLocks(w: World, w': World, l: nat) {
    w' == With(w, w').(rw := w'.rw) && forall m :: m != l ==> RW(w', m) == RW(w, m)
  }

  // ---- Locks ----

  lemma SetQL(w: World, w': World, l: nat, q: QLock<Tid>)
    requires w' == With(w, w').(ql := w.ql[l := q])
    ensures OtherQLocks(w, w', l) && QL(w', l) == q
  {
  }

  lemma SetRW(w: World, w': World, l: nat, k: RWLock<Tid>)
    requires w' == With(w, w').(rw := w.rw[l := k])
    ensures OtherRWLocks(w, w', l) && RW(w', l) == k
  {
  }

  /** qlock and canqlock: take a free lock, else wait in line, else, if not to block, do nothing. */
  lemma QLockOutcome(w: World, l: nat, block: bool)
    requires Enabled(w, QLockOp(l, block))
    ensures var (w', me, q) := (Next(w, QLockOp(l, block)), Me(w), QL(w, l));
            && OtherQLocks(w, w', l)
            && if q.owner.None? then RunsOn(w, w') && QL(w', l) == QLock(Some(me), q.waiting)
               else if block then
                 SwitchedOut(w, w', OnQLock(l), InQLock(l)) && QL(w', l) == QLock(q.owner, q.waiting + [me])
               else RunsOn(w, w') && QL(w', l) == q
  {
    StepIs(w, QLockOp(l, block));
    CallIs(w, QLockOp(l, block));
    var w' := Next(w, QLockOp(l, block));
    hide Next; hide Enabled; hide OtherQLocks; hide QL;
    SetQL(w, w', l, QTry(QL(w, l), Me(w), block).0);
  }

  /** rlock and canrlock: readers share the lock while no writer has it or waits for it. */
  lemma RLockOutcome(w: World, l: nat, block: bool)
    requires Enabled(w, RLockOp(l, block))
    ensures var (w', me, k) := (Next(w, RLockOp(l, block)), Me(w), RW(w, l));
            && OtherRWLocks(w, w', l)
            && if k.writer.None? && k.wwaiting == [] then
                 RunsOn(w, w') && RW(w', l) == k.(readers := k.readers + 1, holders := k.holders + multiset{me})
               else if block then
                 SwitchedOut(w, w', OnRLock(l), InRLock(l)) && RW(w', l) == k.(rwaiting := k.rwaiting + [me])
               else RunsOn(w, w') && RW(w', l) == k
  {
    StepIs(w, RLockOp(l, block));
    CallIs(w, RLockOp(l, block));
    var w' := Next(w, RLockOp(l, block));
    hide Next; hide Enabled; hide OtherRWLocks; hide RW;
    SetRW(w, w', l, RTry(RW(w, l), Me(w), block).0);
  }

  /** wlock and canwlock: a writer needs the lock for itself. */
  lemma WLockOutcome(w: World, l: nat, block: bool)
    requires Enabled(w, WLockOp(l, block))
    ensures var (w', me, k) := (Next(w, WLockOp(l, block)), Me(w), RW(w, l));
            && OtherRWLocks(w, w', l)
            && if k.writer.None? && k.readers == 0 then
                 RunsOn(w, w') && RW(w', l) == k.(writer := Some(me))
               else if block then
                 SwitchedOut(w, w', OnWLock(l), InWLock(l)) && RW(w', l) == k.(wwaiting := k.wwaiting + [me])
               else RunsOn(w, w') && RW(w', l) == k
  {
    StepIs(w, WLockOp(l, block));
    CallIs(w, WLockOp(l, block));
    var w' := Next(w, WLockOp(l, block));
    hide Next; hide Enabled; hide OtherRWLocks; hide RW;
    SetRW(w, w', l, WTry(RW(w, l), Me(w), block).0);
  }

  /** qunlock: the first task in line owns the lock now and is ready. */
  lemma QUnlockOutcome(w: World, l: nat)
    requires Enabled(w, QUnlockOp(l))
    ensures var (w', q) := (Next(w, QUnlockOp(l)), QL(w, l));
            && OtherQLocks(w, w', l)
            && if q.waiting == [] then Readied(w, w', []) && QL(w', l) == QLock(None, [])
               else Readied(w, w', [q.waiting[0]]) && QL(w', l) == QLock(Some(q.waiting[0]), q.waiting[1..])
  {
    StepIs(w, QUnlockOp(l));
    CallIs(w, QUnlockOp(l));
    var w' := Next(w, QUnlockOp(l));
    hide Next; hide Enabled; hide OtherQLocks; hide QL;
    SetQL(w, w', l, QRelease(QL(w, l)).value.0);
  }

  /** runlock: the last reader lets the first writer in. */
  lemma RUnlockOutcome(w: World, l: nat)
    requires Enabled(w, RUnlockOp(l))
    ensures var (w', k) := (Next(w, RUnlockOp(l)), RW(w, l));
            var rest := k.holders - multiset{Me(w)};
            && OtherRWLocks(w, w', l)
            && if k.readers == 1 && k.wwaiting != [] then
                 && Readied(w, w', [k.wwaiting[0]])
                 && RW(w', l) == RWLock(0, Some(k.wwaiting[0]), k.rwaiting, k.wwaiting[1..], rest)
               else Readied(w, w', []) && RW(w', l) == k.(readers := k.readers - 1, holders := rest)
  {
    StepIs(w, RUnlockOp(l));
    CallIs(w, RUnlockOp(l));
    var w' := Next(w, RUnlockOp(l));
    hide Next; hide Enabled; hide OtherRWLocks; hide RW;
    SetRW(w, w', l, RRelease(RW(w, l), Me(w)).0);
  }

  /** wunlock: all waiting readers get in, or else the first writer; it never aborts. */
  lemma WUnlockOutcome(w: World, l: nat)
    requires Inv(w) && Enabled(w, WUnlockOp(l))
    ensures var (w', k) := (Next(w, WUnlockOp(l)), RW(w, l));
            && OtherRWLocks(w, w', l)
            && if k.rwaiting != [] then
                 && Readied(w, w', k.rwaiting)
                 && RW(w', l) == RWLock(|k.rwaiting|, None, [], k.wwaiting, multiset(k.rwaiting))
               else if k.wwaiting != [] then
                 && Readied(w, w', [k.wwaiting[0]])
                 && RW(w', l) == RWLock(0, Some(k.wwaiting[0]), [], k.wwaiting[1..], multiset{})
               else Readied(w, w', []) && RW(w', l) == RWLock(0, None, [], [], multiset{})
  {
    StepIs(w, WUnlockOp(l));
    CallIs(w, WUnlockOp(l));
    WriterAlone(w, l);
    HandedOver(RW(w, l));
    hide *;
    WUnlockDoes(w, l, RW(w, l));
  }

  lemma WUnlockDoes(w: World, l: nat, k: RWLock<Tid>)
    requires k == RW(w, l) && WRelease(k).Some?
    ensures var (w', r) := (DoWUnlock(w, l), WRelease(k).value);
            OtherRWLocks(w, w', l) && RW(w', l) == r.0 && Readied(w, w', r.1)
  {
    var r := WRelease(k).value;
    assert DoWUnlock(w, l) == Wake(w.(rw := w.rw[l := r.0]), r.1);
    WakeIs(w.(rw := w.rw[l := r.0]), r.1);
    hide Wake; hide WRelease; hide DoWUnlock; hide RW; hide OtherRWLocks;
    SetRW(w, Wake(w.(rw := w.rw[l := r.0]), r.1), l, r.0);
  }

  lemma HandedOver(k: RWLock<Tid>)
    requires k.writer.Some? && k.readers == 0 && k.holders == multiset{}
    ensures WRelease(k) == Some(
              if k.rwaiting != [] then (RWLock(|k.rwaiting|, None, [], k.wwaiting, multiset(k.rwaiting)), k.rwaiting)
              else if k.wwaiting != [] then (RWLock(0, Some(k.wwaiting[0]), [], k.wwaiting[1..], multiset{}), [k.wwaiting[0]])
              else (RWLock(0, None, [], [], multiset{}), []))
  {
    assert k.holders + multiset(k.rwaiting) == multiset(k.rwaiting);
    assert |k.rwaiting| == 0 ==> k.rwaiting == [];
    if k.rwaiting == [] { assert multiset(k.rwaiting) == multiset{}; }
  }

  lemma WriterAlone(w: World, l: nat)
    requires Inv(w)
    ensures RW(w, l).writer.Some? ==> RW(w, l).readers == 0 && RW(w, l).holders == multiset{}
  {
    assert RWInv(RW(w, l)) by { hide PlaceInv; hide PcInv; hide ClockInv; hide YieldInv; hide RWInv; }
  }

  /** A blocking lock call that goes on at once has the lock. */
  lemma GoesOnWithLock(w: World, l: nat)
    ensures Enabled(w, QLockOp(l, true)) && Next(w, QLockOp(l, true)).s.running.Some? ==>
              QL(Next(w, QLockOp(l, true)), l).owner == Some(Me(w))
    ensures Enabled(w, RLockOp(l, true)) && Next(w, RLockOp(l, true)).s.running.Some? ==>
              Me(w) in RW(Next(w, RLockOp(l, true)), l).holders
    ensures Enabled(w, WLockOp(l, true)) && Next(w, WLockOp(l, true)).s.running.Some? ==>
              RW(Next(w, WLockOp(l, true)), l).writer == Some(Me(w))
  {
    if Enabled(w, QLockOp(l, true)) { QLockOutcome(w, l, true); }
    if Enabled(w, RLockOp(l, true)) { RLockOutcome(w, l, true); }
    if Enabled(w, WLockOp(l, true)) { WLockOutcome(w, l, true); }
    hide Next; hide Enabled; hide QL; hide RW; hide OtherQLocks; hide OtherRWLocks;
  }

  // ---- Rendezvous points ----

  /** tasksleep up to its switch: the caller is last in line, and its lock is handed on. */
  lemma SleepOutcome(w: World, r: nat)
    requires Enabled(w, TaskSleep(r))
    ensures var (w', me) := (Next(w, TaskSleep(r)), Me(w));
            && w'.s.running.None? && w'.pc == w.pc[me := InSleep(r)]
            && RZ(w', r) == RZ(w, r) + [me] && (forall k :: k != r ==> RZ(w', k) == RZ(w, k))
            && w' == With(w, w').(ql := w'.ql, rz := w'.rz)
            && (forall l :: !(r in w.rzl && l == w.rzl[r]) ==> QL(w', l) == QL(w, l))
            && (r in w.rzl ==>
                  var (q, q') := (QL(w, w.rzl[r]), QL(w', w.rzl[r]));
                  if q.waiting == [] then q' == QLock(None, []) else q' == QLock(Some(q.waiting[0]), q.waiting[1..]))
            && w'.s.runq == w.s.runq + (if r in w.rzl && QL(w, w.rzl[r]).waiting != [] then [QL(w, w.rzl[r]).waiting[0]] else [])
  {
    StepIs(w, TaskSleep(r));
    CallIs(w, TaskSleep(r));
    hide Next; hide Enabled;
  }

  /** taskwakeup and taskwakeupall: the first sleeper, or every sleeper, is ready. */
  lemma WakeupOutcome(w: World, r: nat, all: bool)
    requires Enabled(w, TaskWakeup(r, all))
    ensures var (w', q) := (Next(w, TaskWakeup(r, all)), RZ(w, r));
            var n := if all then |q| else if q == [] then 0 else 1;
            && Readied(w, w', q[..n]) && RZ(w', r) == q[n..]
            && (forall k :: k != r ==> RZ(w', k) == RZ(w, k)) && w' == With(w, w').(rz := w'.rz)
  {
    StepIs(w, TaskWakeup(r, all));
    CallIs(w, TaskWakeup(r, all));
    hide Next; hide Enabled;
    var q := RZ(w, r);
    assert q[..|q|] == q;
  }

  /** tasksleep after its switch: it takes the lock again as qlock does. */
  lemma RelockOutcome(w: World, now: nat)
    requires Enabled(w, Return(now)) && w.pc[Me(w)].InSleep?
    ensures var (w', me, r) := (Next(w, Return(now)), Me(w), w.pc[Me(w)].r);
            if r !in w.rzl then w' == w.(pc := w.pc[me := User])
            else
              var l := w.rzl[r];
              var q := QL(w, l);
              && OtherQLocks(w, w', l)
              && if q.owner.None? then
                   w'.s == w.s && w'.at == w.at && w'.pc == w.pc[me := User] && QL(w', l) == QLock(Some(me), q.waiting)
                 else SwitchedOut(w, w', OnQLock(l), InRelock(r)) && QL(w', l) == QLock(q.owner, q.waiting + [me])
  {
    StepIs(w, Return(now));
    CallIs(w, Return(now));
    var w', r := Next(w, Return(now)), w.pc[Me(w)].r;
    hide Next; hide Enabled; hide OtherQLocks; hide QL;
    if r in w.rzl { SetQL(w, w', w.rzl[r], QTry(QL(w, w.rzl[r]), Me(w), true).0); }
  }

  // ---- Tasks ----

  /** taskcreate: a task with the next number, which no live task has, is last in the run queue. */
  lemma CreateOutcome(w: World)
    requires Inv(w) && Enabled(w, TaskCreate)
    ensures var (w', t) := (Next(w, TaskCreate), w.s.idgen + 1);
            && t !in w.pc && t !in w.s.all
            && w' == With(w, w') && w'.pc == w.pc[t := User] && w'.at == w.at[t := RunQueue]
            && w'.s == w.s.(idgen := t, count := w.s.count + 1, all := w.s.all + [t], runq := w.s.runq + [t])
  {
    hide *;
    StepIs(w, TaskCreate);
    FreshTask(w);
    SpawnIs(w, User);
  }

  lemma SpawnIs(w: World, pc: Pc)
    ensures var (w', t) := (Spawn(w, pc), w.s.idgen + 1);
            && w' == With(w, w') && w'.pc == w.pc[t := pc] && w'.at == w.at[t := RunQueue]
            && w'.s == w.s.(idgen := t, count := w.s.count + 1, all := w.s.all + [t], runq := w.s.runq + [t])
  {
  }

  lemma FreshTask(w: World)
    requires Inv(w)
    ensures w.s.idgen + 1 !in w.pc && w.s.idgen + 1 !in w.s.all
  {
    LT.InvPlace(w);
    hide Inv;
    assert w.s.idgen + 1 in w.s.all <==> w.s.idgen + 1 in Elems(w.s.all);
  }

  /** tasksystem: the caller is a system task, and is no longer counted. */
  lemma SystemOutcome(w: World)
    requires Enabled(w, TaskSystem)
    ensures var w' := Next(w, TaskSystem);
            && w'.s.system == w.s.system + {Me(w)}
            && w' == w.(s := w.s.(system := w.s.system + {Me(w)}, count := w'.s.count))
            && w'.s.count == w.s.count - (if Me(w) in w.s.system then 0 else 1)
  {
    StepIs(w, TaskSystem);
    CallIs(w, TaskSystem);
    hide Next; hide Enabled;
  }

  /** taskyield up to its switch: the caller is last in the run queue, and remembers the count of switches. */
  lemma YieldOutcome(w: World)
    requires Inv(w) && Enabled(w, TaskYield)
    ensures var (w', me) := (Next(w, TaskYield), Me(w));
            && w'.s == w.s.(running := None, runq := w.s.runq + [me])
            && w'.pc == w.pc[me := InYield(w.s.nswitch, |w.s.runq|)]
            && w' == With(w, w') && me in w'.at && w'.at[me] == RunQueue
            && w'.at == w.at[me := RunQueue]
  {
    StepIs(w, TaskYield);
    CallIs(w, TaskYield);
    LT.InvPlace(w);
    assert Me(w) in w.at;
    hide Next; hide Enabled; hide Inv; hide PlaceInv; hide PcInv;
  }

  /** taskexit: the caller is gone, is no longer counted, and has left its exit value. */
  lemma ExitOutcome(w: World, val: int)
    requires Inv(w) && Enabled(w, TaskExit(val))
    ensures var (w', me) := (Next(w, TaskExit(val)), Me(w));
            && w'.s.exitval == val && w'.s.running.None? && w'.pc == w.pc - {me} && w'.at == w.at - {me}
            && Elems(w'.s.all) == Elems(w.s.all) - {me} && w'.s.system == w.s.system - {me}
            && w'.s.count == w.s.count - (if me in w.s.system then 0 else 1)
            && w' == With(w, w') && w'.s == w.s.(exitval := val, running := None, all := w'.s.all, system := w'.s.system, count := w'.s.count)
  {
    StepIs(w, TaskExit(val));
    CallIs(w, TaskExit(val));
    LT.InvPlace(w);
    assert NoDup(w.s.all);
    hide Next; hide Enabled; hide Inv; hide PlaceInv; hide PcInv;
    SwapDeleteNoDup(w.s.all, IndexOf(w.s.all, Me(w)));
    hide SwapDelete; hide NoDup; hide Elems; hide IndexOf;
  }

  /** taskexitall: the program exits with the given value, and nothing else happens. */
  lemma ExitAllOutcome(w: World, val: int)
    requires Enabled(w, TaskExitAll(val))
    ensures Next(w, TaskExitAll(val)) == w.(status := Exited(val))
  {
  }

  /** The scheduler: exit when nobody is counted, else run the head of the queue. */
  lemma DispatchOutcome(w: World)
    requires Enabled(w, SchedDispatch)
    ensures var (w', q) := (Next(w, SchedDispatch), w.s.runq);
            if w.s.count == 0 then w' == w.(status := Exited(w.s.exitval))
            else if q == [] then w' == w.(status := Stalled)
            else
              && w'.s == w.s.(running := Some(q[0]), runq := q[1..], nswitch := w.s.nswitch + 1, log := w.s.log + [q[0]])
              && w' == With(w, w') && w'.pc == w.pc && w'.at == w.at[q[0] := Running]
  {
    StepIs(w, SchedDispatch);
    DispatchIs(w);
    hide Next; hide Enabled; hide DoDispatch;
  }

  // ---- Channels ----

  /** chancreate: an empty channel with room for `bufsize` elements, which nobody waits on. */
  lemma ChanCreateOutcome(w: World, c: nat, bufsize: nat)
    requires Enabled(w, ChanCreate(c, bufsize))
    ensures var w' := Next(w, ChanCreate(c, bufsize));
            w' == w.(cs := w.cs.(chans := w.cs.chans[c := CS.Chan(bufsize, [], {}, {}, [], [])]))
  {
  }

  /** Some alternative can proceed at once. */
  ghost predicate SomeCan(w: World, alts: seq<CS.Alt<nat, int>>)
    requires CS.AltsOk(w.cs, alts)
  {
    exists j :: 0 <= j < |alts| && alts[j].op != CS.Nop &&
      var ch := w.cs.chans[alts[j].c];
      if alts[j].op == CS.Snd then (if ch.bufsize == 0 then ch.arecv != {} else |ch.ring| < ch.bufsize)
      else if ch.bufsize == 0 then ch.asend != {} else |ch.ring| > 0
  }

  lemma SomeCanIs(w: World, alts: seq<CS.Alt<nat, int>>)
    requires CS.AltsOk(w.cs, alts)
    ensures SomeCan(w, alts) <==> CS.AnyExec(w.cs, alts)
  {
    if SomeCan(w, alts) {
      var j :| 0 <= j < |alts| && alts[j].op != CS.Nop &&
        var ch := w.cs.chans[alts[j].c];
        if alts[j].op == CS.Snd then (if ch.bufsize == 0 then ch.arecv != {} else |ch.ring| < ch.bufsize)
        else if ch.bufsize == 0 then ch.asend != {} else |ch.ring| > 0;
      assert CS.CanExec(w.cs, alts[j]);
    }
  }

  /** The caller has done alternative `i`, and the peer, if there is one, is ready. */
  ghost predicate AltDone(w: World, w': World, alts: seq<CS.Alt<nat, int>>, i: nat, peer: Option<CS.Entry<Tid>>)
    requires w.s.running.Some?
  {
    && w' == With(w, w').(cs := w'.cs)
    && w'.s == w.s.(runq := w.s.runq + (if peer.Some? then [peer.value.k] else [])) && w'.pc == w.pc
    && Me(w) in w'.cs.hist && i < |alts|
    && var h := w'.cs.hist[Me(w)];
       h != [] && h[..|h| - 1] == CS.Hist(w.cs, Me(w)) && h[|h| - 1].i == i && h[|h| - 1].a == alts[i]
  }

  /** The caller waits on both sides of every channel, as its alternatives say. */
  ghost predicate AltParked(w: World, w': World, alts: seq<CS.Alt<nat, int>>)
    requires w.s.running.Some?
  {
    && SwitchedOut(w, w', InAltSet, InAlt) && w' == With(w, w').(cs := w'.cs)
    && w'.cs == w.cs.(chans := w'.cs.chans, sets := w.cs.sets[Me(w) := alts]) && w'.cs.chans.Keys == w.cs.chans.Keys
    && forall c :: c in w.cs.chans ==>
         var (ch, ch') := (w.cs.chans[c], w'.cs.chans[c]);
         && ch' == ch.(asend := ch'.asend, arecv := ch'.arecv)
         && (forall e: CS.Entry<Tid> :: e in ch'.asend <==> e in ch.asend || Enters(w, alts, c, CS.Snd, e))
         && (forall e: CS.Entry<Tid> :: e in ch'.arecv <==> e in ch.arecv || Enters(w, alts, c, CS.Rcv, e))
  }

  predicate Enters(w: World, alts: seq<CS.Alt<nat, int>>, c: nat, op: CS.AOp, e: CS.Entry<Tid>)
    requires w.s.running.Some?
  {
    e.k == Me(w) && e.i < |alts| && alts[e.i].op == op && alts[e.i].c == c
  }

  /**
   chanalt before its switch: when an alternative can proceed the caller runs on and one has been
   done; otherwise it blocks, on every alternative, exactly if it may, and else nothing happens.
   */
  lemma AltOutcome(w: World, alts: seq<CS.Alt<nat, int>>, canblock: bool, i: nat, peer: Option<CS.Entry<Tid>>)
    requires Enabled(w, ChanAlt(alts, canblock, i, peer))
    ensures CS.AltsOk(w.cs, alts)
    ensures var w' := Next(w, ChanAlt(alts, canblock, i, peer));
            if SomeCan(w, alts) then AltDone(w, w', alts, i, peer)
            else if canblock then AltParked(w, w', alts)
            else w' == w
  {
    hide *;
    StepIs(w, ChanAlt(alts, canblock, i, peer));
    CallIs(w, ChanAlt(alts, canblock, i, peer));
    SomeCanIs(w, alts);
    if CS.AnyExec(w.cs, alts) { AltDoes(w, alts, canblock, i, peer); } else { AltWaits(w, alts, canblock, i, peer); }
  }

  lemma AltDoes(w: World, alts: seq<CS.Alt<nat, int>>, canblock: bool, i: nat, peer: Option<CS.Entry<Tid>>)
    requires w.s.running.Some? && CS.AltsOk(w.cs, alts) && CS.ChoiceOk(w.cs, alts, i, peer) && CS.AnyExec(w.cs, alts)
    ensures AltDone(w, DoAlt(w, alts, canblock, i, peer), alts, i, peer)
  {
    assert i < |alts|;
    assert CS.Exec(w.cs, Me(w), alts, i, peer).0.hist == w.cs.hist;
    hide CS.AnyExec; hide CS.PeerOk; hide CS.CanExec; hide CS.Exec; hide CS.AltsOk;
  }

  lemma AltWaits(w: World, alts: seq<CS.Alt<nat, int>>, canblock: bool, i: nat, peer: Option<CS.Entry<Tid>>)
    requires w.s.running.Some? && CS.AltsOk(w.cs, alts) && CS.ChoiceOk(w.cs, alts, i, peer) && !CS.AnyExec(w.cs, alts)
    ensures var w' := DoAlt(w, alts, canblock, i, peer); if canblock then AltParked(w, w', alts) else w' == w
  {
    hide CS.AnyExec; hide CS.PeerOk; hide CS.CanExec; hide CS.Exec; hide CS.AltsOk; hide CS.ChoiceOk;
    if canblock {
      assert DoAlt(w, alts, canblock, i, peer) == Block(w.(cs := CS.Park(w.cs, Me(w), alts)), InAltSet, InAlt);
      hide DoAlt;
    }
  }

  // ---- Timers and descriptors ----

  /** The state once fdtask has been started. */
  function Started(w: World): World {
    if w.fd.started then w
    else
      var t := w.s.idgen + 1;
      w.(s := w.s.(idgen := t, count := w.s.count + 1, all := w.s.all + [t], runq := w.s.runq + [t]),
         pc := w.pc[t := FdFresh], at := w.at[t := RunQueue], fd := w.fd.(started := true))
  }

  lemma StartedIs(w: World)
    ensures StartFd(w) == Started(w)
    ensures Started(w).s == w.s.(idgen := Started(w).s.idgen, count := Started(w).s.count, all := Started(w).s.all, runq := Started(w).s.runq)
    ensures Started(w).fd == w.fd.(started := true)
    ensures Started(w).s.running == w.s.running && Started(w).s.system == w.s.system
  {
  }

  /** fdwait: the caller waits in the table for the events it asks for; a full table aborts. */
  lemma FdWaitOutcome(w: World, fd: int, rw: char)
    requires Enabled(w, FdWait(fd, rw))
    ensures var (w0, w', me) := (Started(w), Next(w, FdWait(fd, rw)), Me(w));
            if |w.fd.slots| >= 1024 then w' == w0.(status := Aborted)
            else
              && SwitchedOut(w0, w', Polling, InFdWait)
              && w' == With(w0, w').(fd := w0.fd.(slots := w'.fd.slots))
              && |w'.fd.slots| == |w.fd.slots| + 1 && w'.fd.slots[..|w.fd.slots|] == w.fd.slots
              && var x := w'.fd.slots[|w.fd.slots|];
                 x.t == me && x.fd == fd && x.revents == 0
                 && x.events == (if rw == 'r' then 1 else if rw == 'w' then 4 else 0)
  {
    StepIs(w, FdWait(fd, rw));
    CallIs(w, FdWait(fd, rw));
    StartedIs(w);
    hide Next; hide Enabled; hide Started; hide StartFd;
  }

  /** taskdelay up to its switch: the caller is in line for its alarm, and one more count is kept while anybody counted sleeps. */
  lemma DelayOutcome(w: World, ms: nat, now: nat)
    requires Enabled(w, TaskDelay(ms, now))
    ensures var (w0, w', me) := (Started(w), Next(w, TaskDelay(ms, now)), Me(w));
            var counts := me !in w.s.system;
            && w'.s == w0.s.(running := None, count := w0.s.count + (if counts && w.fd.counted == 0 then 1 else 0))
            && w'.pc == w0.pc[me := InDelay(now, ms)] && w'.at == w0.at[me := Asleep] && w'.clock == now
            && w' == With(w0, w').(fd := w'.fd, clock := now)
            && w'.fd == w0.fd.(sleeping := w'.fd.sleeping, counted := w.fd.counted + (if counts then 1 else 0))
            && multiset(w'.fd.sleeping) == multiset(w.fd.sleeping) + multiset{Sleeper(me, now + ms * 1000000)}
  {
    StepIs(w, TaskDelay(ms, now));
    CallIs(w, TaskDelay(ms, now));
    hide *;
    StartedIs(w);
    DelayDoes(w, Started(w), ms, now);
  }

  lemma DelayFields(f: Fd<Tid>, s: Sched<Tid>, me: Tid, when: nat)
    ensures var ((f', s'), counts) := (Delay(f, s, me, when), me !in s.system);
            && f' == f.(sleeping := f'.sleeping, counted := f.counted + (if counts then 1 else 0))
            && s' == s.(count := s.count + (if counts && f.counted == 0 then 1 else 0))
            && multiset(f'.sleeping) == multiset(f.sleeping) + multiset{Sleeper(me, when)}
  {
    InsertAdds(f.sleeping, Sleeper(me, when));
    hide Insert;
  }

  lemma DelayDoes(w: World, w0: World, ms: nat, now: nat)
    requires w.s.running.Some? && StartFd(w) == w0 && w0.s.running == w.s.running && w0.s.system == w.s.system
    requires w0.fd == w.fd.(started := true)
    ensures var (w', me) := (DoDelay(w, ms, now), Me(w));
            var counts := me !in w.s.system;
            && w'.s == w0.s.(running := None, count := w0.s.count + (if counts && w.fd.counted == 0 then 1 else 0))
            && w'.pc == w0.pc[me := InDelay(now, ms)] && w'.at == w0.at[me := Asleep] && w'.clock == now
            && w' == With(w0, w').(fd := w'.fd, clock := now)
            && w'.fd == w0.fd.(sleeping := w'.fd.sleeping, counted := w.fd.counted + (if counts then 1 else 0))
            && multiset(w'.fd.sleeping) == multiset(w.fd.sleeping) + multiset{Sleeper(me, now + ms * 1000000)}
  {
    DelayFields(w0.fd, w0.s, Me(w), now + ms * NsPerMs);
    hide StartFd; hide Delay;
  }
}
