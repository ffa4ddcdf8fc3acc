/**
 The whole library as one transition system.  Tasks are cooperative: between two task
 switches a task runs alone, so each call is one step, and a call that blocks is two, cut at
 its taskswitch.  Programs are arbitrary: at each turn the running task may make any call
 that the client discipline of `Enabled` allows.
 */
module World {
  import opened Util
  import opened LockSpec
  import opened SchedSpec
  import opened FdSpec
  import opened FdProofs
  import CS = ChanSpec

  type Tid = nat

  /** What the running code of a task is in the middle of when it is switched out. */
  datatype Pc =
    | User
    | InYield(n: nat, ahead: nat)        // n: tasknswitch at the call; ahead: ready tasks then
    | InQLock(l: nat) | InRLock(l: nat) | InWLock(l: nat)
    | InSleep(r: nat) | InRelock(r: nat) // tasksleep before and inside its second qlock
    | InAlt
    | InDelay(start: nat, ms: nat)
    | InFdWait
    | FdFresh | FdYield(n: nat, ahead: nat) // fdtask before its first turn, and in its taskyield

  datatype Place =
    | Running | RunQueue
    | OnQLock(l: nat) | OnRLock(l: nat) | OnWLock(l: nat) | OnRendez(r: nat)
    | Asleep | Polling | InAltSet

  datatype Status = Going | Exited(val: int) | Stalled | Aborted

  /**
   `rzl` gives the lock of those rendezvous points that have one.  `at` is a history variable:
   where each live task is.
   */
  datatype World = World(
    status: Status, s: Sched<Tid>, cs: CS.CS<nat, Tid, int>,
    ql: map<nat, QLock<Tid>>, rw: map<nat, RWLock<Tid>>, rz: map<nat, seq<Tid>>, rzl: map<nat, nat>,
    fd: Fd<Tid>, clock: nat, pc: map<Tid, Pc>, at: map<Tid, Place>)

  /** Locks need no creation: zeroed memory is a free lock. */
  function QL(w: World, l: nat): QLock<Tid> { if l in w.ql then w.ql[l] else QLock(None, []) }

  function RW(w: World, l: nat): RWLock<Tid> {
    if l in w.rw then w.rw[l] else RWLock(0, None, [], [], multiset{})
  }

  function RZ(w: World, r: nat): seq<Tid> { if r in w.rz then w.rz[r] else [] }

  /** The state in which main enters the scheduler: one task, taskmain, is ready. */
  function Init(rzl: map<nat, nat>): World {
    World(Going, Sched(None, [1], 0, [], [1], {}, 1, 0, 1), CS.CS(map[], map[], map[], map[]),
          map[], map[], map[], rzl, Fd([], 0, [], false), 0, map[1 := User], map[1 := RunQueue])
  }

  datatype Op =
    | SchedDispatch
    | TaskCreate | TaskSystem | TaskYield | TaskExit(val: int) | TaskExitAll(val: int)
    | ChanCreate(c: nat, bufsize: nat)
    | ChanAlt(alts: seq<CS.Alt<nat, int>>, canblock: bool, i: nat, peer: Option<CS.Entry<Tid>>)
    | QLockOp(l: nat, block: bool) | QUnlockOp(l: nat)
    | RLockOp(l: nat, block: bool) | WLockOp(l: nat, block: bool) | RUnlockOp(l: nat) | WUnlockOp(l: nat)
    | TaskSleep(r: nat) | TaskWakeup(r: nat, all: bool)
    | TaskDelay(ms: nat, now: nat) | FdWait(fd: int, rw: char)
    | Return(now: nat)                                  // the part of a call after its taskswitch
    | FdPass(rev: seq<int>, now1: nat, now2: nat)       // one turn of fdtask

  // ---- Building blocks ----

  function Me(w: World): Tid
    requires w.s.running.Some?
  {
    w.s.running.value
  }

  /** taskready for each of `us`. */
  function Wake(w: World, us: seq<Tid>): World {
    w.(s := ReadyAll(w.s, us), at := map t | t in w.at :: if t in us then RunQueue else w.at[t])
  }

  /** taskswitch in the middle of a call: the task waits at `p` and will go on at `pc`. */
  function Block(w: World, p: Place, pc: Pc): World
    requires w.s.running.Some?
  {
    w.(s := Switch(w.s), at := w.at[Me(w) := p], pc := w.pc[Me(w) := pc])
  }

  function Continue(w: World): World
    requires w.s.running.Some?
  {
    w.(pc := w.pc[Me(w) := User])
  }

  function Abort(w: World): World { w.(status := Aborted) }

  /** taskcreate of a task that starts at `pc`. */
  function Spawn(w: World, pc: Pc): World {
    var t := w.s.idgen + 1;
    w.(s := Create(w.s, t), pc := w.pc[t := pc], at := w.at[t := RunQueue])
  }

  /** taskyield up to its switch. */
  function YieldAt(w: World, pc: Pc): World
    requires w.s.running.Some?
  {
    Block(w.(s := ReadyAll(w.s, [Me(w)])), RunQueue, pc)
  }

  // ---- The steps ----

  function DoDispatch(w: World): World {
    match Dispatch(w.s)
    case ProgramExit(v) => w.(status := Exited(v))
    case NoRunnable => w.(status := Stalled)
    case Run(s') => w.(s := s', at := w.at[s'.running.value := Running])
  }

  ghost function DoExit(w: World, val: int): World
    requires w.s.running.Some? && Me(w) in w.s.all
  {
    w.(s := Reap(Switch(w.s.(exitval := val)), Me(w)), at := w.at - {Me(w)}, pc := w.pc - {Me(w)})
  }

  ghost function DoAlt(w: World, alts: seq<CS.Alt<nat, int>>, canblock: bool, i: nat, peer: Option<CS.Entry<Tid>>): World
    requires w.s.running.Some? && CS.AltsOk(w.cs, alts) && CS.ChoiceOk(w.cs, alts, i, peer)
  {
    var (cs', out) := CS.ChanAlt(w.cs, Me(w), alts, canblock, i, peer);
    match out
    case Done(_, _) =>
      (match peer case Some(e) => Wake(w.(cs := cs'), [e.k]) case None => w.(cs := cs'))
    case WouldBlock => w
    case Parked => Block(w.(cs := cs'), InAltSet, InAlt)
  }

  function DoQLock(w: World, l: nat, block: bool): World
    requires w.s.running.Some?
  {
    var (l', got) := QTry(QL(w, l), Me(w), block);
    var w' := w.(ql := w.ql[l := l']);
    if got == Queued then Block(w', OnQLock(l), InQLock(l)) else w'
  }

  function DoQUnlock(w: World, l: nat): World {
    match QRelease(QL(w, l))
    case None => Abort(w)
    case Some(r) => Wake(w.(ql := w.ql[l := r.0]), r.1)
  }

  function DoRLock(w: World, l: nat, block: bool): World
    requires w.s.running.Some?
  {
    var (l', got) := RTry(RW(w, l), Me(w), block);
    var w' := w.(rw := w.rw[l := l']);
    if got == Queued then Block(w', OnRLock(l), InRLock(l)) else w'
  }

  function DoWLock(w: World, l: nat, block: bool): World
    requires w.s.running.Some?
  {
    var (l', got) := WTry(RW(w, l), Me(w), block);
    var w' := w.(rw := w.rw[l := l']);
    if got == Queued then Block(w', OnWLock(l), InWLock(l)) else w'
  }

  function DoRUnlock(w: World, l: nat): World
    requires w.s.running.Some?
  {
    var (l', us) := RRelease(RW(w, l), Me(w));
    Wake(w.(rw := w.rw[l := l']), us)
  }

  function DoWUnlock(w: World, l: nat): World {
    match WRelease(RW(w, l))
    case None => Abort(w)
    case Some(r) => Wake(w.(rw := w.rw[l := r.0]), r.1)
  }

  function DoSleep(w: World, r: nat): World
    requires w.s.running.Some?
  {
    var w1 := w.(rz := w.rz[r := RZ(w, r) + [Me(w)]]);
    var w2 := if r in w.rzl then DoQUnlock(w1, w.rzl[r]) else w1;
    if w2.status != Going then w2 else Block(w2, OnRendez(r), InSleep(r))
  }

  function DoWakeup(w: World, r: nat, all: bool): World {
    var (still, us) := Wakeup(RZ(w, r), all);
    Wake(w.(rz := w.rz[r := still]), us)
  }

  /** taskdelay and fdwait start fdtask on first use. */
  function StartFd(w: World): World {
    if w.fd.started then w else Spawn(w, FdFresh).(fd := w.fd.(started := true))
  }

  ghost function DoDelay(w: World, ms: nat, now: nat): World
    requires w.s.running.Some?
  {
    var w1 := StartFd(w).(clock := now);
    var (fd', s') := Delay(w1.fd, w1.s, Me(w), now + ms * NsPerMs);
    Block(w1.(fd := fd', s := s'), Asleep, InDelay(now, ms))
  }

  function DoFdWait(w: World, fd: int, events: int): World
    requires w.s.running.Some?
  {
    EnterPollTable(StartFd(w), fd, events)
  }

  function EnterPollTable(w: World, fd: int, events: int): World
    requires w.s.running.Some?
  {
    if |w.fd.slots| >= MaxFd then Abort(w)
    else Block(w.(fd := w.fd.(slots := w.fd.slots + [Slot(Me(w), fd, events, 0)])), Polling, InFdWait)
  }

  /** tasksleep after its switch: take the lock again, perhaps blocking. */
  function DoRelock(w: World, r: nat): World
    requires w.s.running.Some?
  {
    if r !in w.rzl then Continue(w)
    else
      var l := w.rzl[r];
      var (l', got) := QTry(QL(w, l), Me(w), true);
      var w' := w.(ql := w.ql[l := l']);
      if got == Queued then Block(w', OnQLock(l), InRelock(r)) else Continue(w')
  }

  function DoReturn(w: World, now: nat): World
    requires w.s.running.Some? && Me(w) in w.pc
  {
    match w.pc[Me(w)]
    case InQLock(l) => if QL(w, l).owner != Some(Me(w)) then Abort(w) else Continue(w)
    case InRelock(r) =>
      if r !in w.rzl || QL(w, w.rzl[r]).owner != Some(Me(w)) then Abort(w) else Continue(w)
    case InSleep(r) => DoRelock(w, r)
    case InAlt => if Me(w) in w.cs.fired then Continue(w.(cs := CS.Resume(w.cs, Me(w)))) else Abort(w)
    case InDelay(_, _) => Continue(w.(clock := now))
    case _ => Continue(w)
  }

  /** What the call returns to its task. */
  function ReturnValue(w: World, now: nat): int
    requires w.s.running.Some? && Me(w) in w.pc
  {
    match w.pc[Me(w)]
    case InYield(n, _) => w.s.nswitch - n - 1
    case FdYield(n, _) => w.s.nswitch - n - 1
    case InAlt => if Me(w) in w.cs.fired then w.cs.fired[Me(w)].i else 0
    case InDelay(start, _) => if start <= now then DelayResult(start, now) else 0
    case _ => 1
  }

  /** The part of fdtask's loop after its taskyield has returned 0. */
  ghost function DoPoll(w: World, rev: seq<int>, now: nat): (r: World)
    requires |rev| == |w.fd.slots|
    ensures r.s == w.s.(runq := r.s.runq, count := r.s.count)
    ensures r == w.(s := r.s, fd := r.fd, clock := r.clock, at := r.at) && r.at.Keys == w.at.Keys
  {
    var (kept, gone) := Sweep(SetRevents(w.fd.slots, rev), 0);
    var w1 := Wake(w.(fd := w.fd.(slots := kept)), Polled(gone));
    var (fd', s') := WakeSleepers(w1.fd, w1.s, now);
    WakeSleepersFrame(w1.fd, w1.s, now);
    var us := Names(w.fd.sleeping[..Due(w.fd.sleeping, now)]);
    w1.(fd := fd', s := s', clock := now, at := map t | t in w1.at :: if t in us then RunQueue else w1.at[t])
  }

  ghost function DoFdPass(w: World, rev: seq<int>, now: nat): World
    requires w.s.running.Some? && Me(w) in w.pc && |rev| == |w.fd.slots|
  {
    var n := w.s.nswitch;
    if w.pc[Me(w)].FdFresh? then
      var w1 := w.(s := MarkSystem(w.s));
      YieldAt(w1, FdYield(n, |w1.s.runq|))
    else if ReturnValue(w, now) > 0 then YieldAt(w, FdYield(n, |w.s.runq|))
    else
      var w1 := DoPoll(w, rev, now);
      YieldAt(w1, FdYield(n, |w1.s.runq|))
  }

  ghost function DoSystem(w: World): World
    requires w.s.running.Some?
  {
    w.(s := MarkSystem(w.s))
  }

  function DoExitAll(w: World, val: int): World { w.(status := Exited(val)) }

  function DoChanCreate(w: World, c: nat, bufsize: nat): World {
    w.(cs := CS.AddChan(w.cs, c, bufsize))
  }

  // ---- Runs ----

  /** The client discipline, and the choices left to the outside world. */
  ghost predicate Enabled(w: World, op: Op) {
    && w.status == Going
    && match op
       case SchedDispatch => w.s.running.None?
       case Return(now) => w.s.running.Some? && Me(w) in w.pc && !UserPc(w.pc[Me(w)]) && !FdPc(w.pc[Me(w)]) && w.clock <= now
       case FdPass(rev, now1, now2) =>
         && w.s.running.Some? && Me(w) in w.pc && FdPc(w.pc[Me(w)])
         && |rev| == |w.fd.slots| && w.clock <= now1 <= now2
       case _ => w.s.running.Some? && Me(w) in w.pc && UserPc(w.pc[Me(w)]) && MayCall(w, op)
  }

  predicate UserPc(pc: Pc) { pc.User? }

  predicate FdPc(pc: Pc) { pc.FdFresh? || pc.FdYield? }

  ghost predicate MayCall(w: World, op: Op)
    requires w.s.running.Some?
  {
    match op
    case TaskExit(_) => Me(w) in w.s.all
    case ChanCreate(c, _) => c !in w.cs.chans
    case ChanAlt(alts, _, i, peer) => CS.AltsOk(w.cs, alts) && CS.ChoiceOk(w.cs, alts, i, peer)
    case QUnlockOp(l) => QL(w, l).owner == Some(Me(w))
    case RUnlockOp(l) => Me(w) in RW(w, l).holders
    case WUnlockOp(l) => RW(w, l).writer == Some(Me(w))
    case TaskSleep(r) => r in w.rzl ==> QL(w, w.rzl[r]).owner == Some(Me(w))
    case TaskDelay(_, now) => w.clock <= now
    case _ => true
  }

  ghost function Next(w: World, op: Op): World
    requires Enabled(w, op)
  {
    match op
    case SchedDispatch => DoDispatch(w)
    case TaskCreate => Spawn(w, User)
    case TaskSystem => DoSystem(w)
    case TaskYield => YieldAt(w, InYield(w.s.nswitch, |w.s.runq|))
    case TaskExit(v) => DoExit(w, v)
    case TaskExitAll(v) => DoExitAll(w, v)
    case ChanCreate(c, b) => DoChanCreate(w, c, b)
    case ChanAlt(alts, canblock, i, peer) => DoAlt(w, alts, canblock, i, peer)
    case QLockOp(l, block) => DoQLock(w, l, block)
    case QUnlockOp(l) => DoQUnlock(w, l)
    case RLockOp(l, block) => DoRLock(w, l, block)
    case WLockOp(l, block) => DoWLock(w, l, block)
    case RUnlockOp(l) => DoRUnlock(w, l)
    case WUnlockOp(l) => DoWUnlock(w, l)
    case TaskSleep(r) => DoSleep(w, r)
    case TaskWakeup(r, all) => DoWakeup(w, r, all)
    case TaskDelay(ms, now) => DoDelay(w, ms, now)
    case FdWait(fd, rw) => DoFdWait(w, fd, Bits(rw))
    case Return(now) => DoReturn(w, now)
    case FdPass(rev, _, now2) => DoFdPass(w, rev, now2)
  }

  // ---- The building blocks, field by field ----

  lemma DispatchIs(w: World)
    ensures w.s.count == 0 ==> DoDispatch(w) == w.(status := Exited(w.s.exitval))
    ensures w.s.count != 0 && w.s.runq == [] ==> DoDispatch(w) == w.(status := Stalled)
    ensures w.s.count != 0 && w.s.runq != [] ==>
              DoDispatch(w) ==
              w.(s := w.s.(running := Some(w.s.runq[0]), runq := w.s.runq[1..], nswitch := w.s.nswitch + 1,
                           log := w.s.log + [w.s.runq[0]]),
                 at := w.at[w.s.runq[0] := Running])
  {
  }

  lemma BlockIs(w: World, p: Place, pc: Pc)
    requires w.s.running.Some?
    ensures var w' := Block(w, p, pc);
            && w'.s == w.s.(running := None) && w'.at == w.at[Me(w) := p] && w'.pc == w.pc[Me(w) := pc]
            && w'.ql == w.ql && w'.rw == w.rw && w'.rz == w.rz && w'.rzl == w.rzl && w'.cs == w.cs
            && w'.fd == w.fd && w'.clock == w.clock && w'.status == w.status
  {
  }

  lemma WakeIs(w: World, us: seq<Tid>)
    ensures var w' := Wake(w, us);
            && w'.s == w.s.(runq := w.s.runq + us) && w'.pc == w.pc && w'.at.Keys == w.at.Keys
            && (forall t :: t in w.at ==> w'.at[t] == if t in us then RunQueue else w.at[t])
            && w'.ql == w.ql && w'.rw == w.rw && w'.rz == w.rz && w'.rzl == w.rzl && w'.cs == w.cs
            && w'.fd == w.fd && w'.clock == w.clock && w'.status == w.status
  {
  }

  /** A step of the running task is a call, the second half of one, or a turn of fdtask. */
  lemma CallIs(w: World, op: Op)
    requires Enabled(w, op) && op != SchedDispatch
    ensures w.s.running.Some? && Me(w) in w.pc && w.status == Going
    ensures if op.Return? then !UserPc(w.pc[Me(w)]) && !FdPc(w.pc[Me(w)]) && w.clock <= op.now
            else if op.FdPass? then FdPc(w.pc[Me(w)]) && |op.rev| == |w.fd.slots| && w.clock <= op.now1 <= op.now2
            else UserPc(w.pc[Me(w)]) && !FdPc(w.pc[Me(w)])
    ensures match op
            case TaskExit(_) => Me(w) in w.s.all
            case ChanCreate(c, _) => c !in w.cs.chans
            case ChanAlt(alts, _, i, peer) => CS.AltsOk(w.cs, alts) && CS.ChoiceOk(w.cs, alts, i, peer)
            case QUnlockOp(l) => QL(w, l).owner == Some(Me(w))
            case RUnlockOp(l) => Me(w) in RW(w, l).holders
            case WUnlockOp(l) => RW(w, l).writer == Some(Me(w))
            case TaskSleep(r) => r in w.rzl ==> QL(w, w.rzl[r]).owner == Some(Me(w))
            case TaskDelay(_, now) => w.clock <= now
            case _ => true
  {
    hide CS.AltsOk; hide CS.ChoiceOk; hide QL; hide RW;
  }

  /** One step, by the function that makes it. */
  lemma StepIs(w: World, op: Op)
    requires Enabled(w, op)
    ensures match op
            case SchedDispatch => w.s.running.None? && w.status == Going && Next(w, op) == DoDispatch(w)
            case TaskCreate => Next(w, op) == Spawn(w, User)
            case TaskSystem => Next(w, op) == DoSystem(w)
            case TaskYield => Next(w, op) == YieldAt(w, InYield(w.s.nswitch, |w.s.runq|))
            case TaskExit(v) => Next(w, op) == DoExit(w, v)
            case TaskExitAll(v) => Next(w, op) == DoExitAll(w, v)
            case ChanCreate(c, b) => Next(w, op) == DoChanCreate(w, c, b)
            case ChanAlt(alts, canblock, i, peer) => Next(w, op) == DoAlt(w, alts, canblock, i, peer)
            case QLockOp(l, block) => Next(w, op) == DoQLock(w, l, block)
            case QUnlockOp(l) => Next(w, op) == DoQUnlock(w, l)
            case RLockOp(l, block) => Next(w, op) == DoRLock(w, l, block)
            case WLockOp(l, block) => Next(w, op) == DoWLock(w, l, block)
            case RUnlockOp(l) => Next(w, op) == DoRUnlock(w, l)
            case WUnlockOp(l) => Next(w, op) == DoWUnlock(w, l)
            case TaskSleep(r) => Next(w, op) == DoSleep(w, r)
            case TaskWakeup(r, all) => Next(w, op) == DoWakeup(w, r, all)
            case TaskDelay(ms, now) => Next(w, op) == DoDelay(w, ms, now)
            case FdWait(fd, rw) => Next(w, op) == DoFdWait(w, fd, Bits(rw))
            case Return(now) => Next(w, op) == DoReturn(w, now)
            case FdPass(rev, _, now2) => Next(w, op) == DoFdPass(w, rev, now2)
  {
    hide DoDispatch; hide Spawn; hide DoSystem; hide YieldAt; hide DoExit; hide DoExitAll; hide DoChanCreate; hide DoAlt;
    hide DoQLock; hide DoQUnlock; hide DoRLock; hide DoWLock; hide DoRUnlock; hide DoWUnlock; hide DoSleep; hide DoWakeup;
    hide DoDelay; hide DoFdWait; hide DoReturn; hide DoFdPass;
  }

  /** A stretch of a run: the states and the steps between them. */
  ghost predicate Steps(ws: seq<World>, ops: seq<Op>) {
    && |ws| == |ops| + 1
    && forall i :: 0 <= i < |ops| ==> Enabled(ws[i], ops[i]) && ws[i + 1] == Next(ws[i], ops[i])
  }

  /** A finite run of the library from start-up. */
  ghost predicate IsRun(rzl: map<nat, nat>, ws: seq<World>, ops: seq<Op>) {
    Steps(ws, ops) && ws[0] == Init(rzl)
  }
}
