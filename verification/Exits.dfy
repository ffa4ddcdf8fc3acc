/** Who is a system task, and when and with what value the program exits, in every run of the library. */
module Exits {
  import opened Util
  import opened World
  import opened Places
  import opened PcProofs
  import opened Runs
  import opened Outcomes
  import LT = LockTheorems
  import CS = ChanSpec

  /** fdtask after its first turn is a system task. */
  ghost predicate FdSystem(w: World) {
    forall t :: t in w.pc && w.pc[t].FdYield? ==> t in w.s.system
  }

  /** The running task becomes a system task in this step, or is one already: it calls tasksystem, or is fdtask. */
  predicate Marks(w: World, op: Op, t: Tid) {
    (op.TaskSystem? || op.FdPass?) && w.s.running == Some(t)
  }

  /** No task is marked, exits or enters fdtask's loop, and the program goes on. */
  ghost predicate Quiet(w: World, w': World) {
    && w'.s.system == w.s.system && w'.s.exitval == w.s.exitval && w.s.idgen <= w'.s.idgen
    && (forall t :: t in w'.pc && w'.pc[t].FdYield? ==> t in w.pc && w.pc[t].FdYield?)
    && (forall t :: t in w'.pc ==> t in w.pc || t > w.s.idgen)
    && (w'.status.Exited? ==> w.status == w'.status)
  }

  lemma QLockQuiet(w: World, l: nat, block: bool)
    requires Enabled(w, QLockOp(l, block))
    ensures Quiet(w, Next(w, QLockOp(l, block)))
  {
    QLockOutcome(w, l, block);
    CallIs(w, QLockOp(l, block));
    hide Next; hide Enabled; hide QL;
  }

  lemma RLockQuiet(w: World, l: nat, block: bool)
    requires Enabled(w, RLockOp(l, block))
    ensures Quiet(w, Next(w, RLockOp(l, block)))
  {
    RLockOutcome(w, l, block);
    CallIs(w, RLockOp(l, block));
    hide Next; hide Enabled; hide RW;
  }

  lemma WLockQuiet(w: World, l: nat, block: bool)
    requires Enabled(w, WLockOp(l, block))
    ensures Quiet(w, Next(w, WLockOp(l, block)))
  {
    WLockOutcome(w, l, block);
    CallIs(w, WLockOp(l, block));
    hide Next; hide Enabled; hide RW;
  }

  lemma QUnlockQuiet(w: World, l: nat)
    requires Enabled(w, QUnlockOp(l))
    ensures Quiet(w, Next(w, QUnlockOp(l)))
  {
    QUnlockOutcome(w, l);
    hide Next; hide Enabled; hide QL;
  }

  lemma RUnlockQuiet(w: World, l: nat)
    requires Enabled(w, RUnlockOp(l))
    ensures Quiet(w, Next(w, RUnlockOp(l)))
  {
    RUnlockOutcome(w, l);
    hide Next; hide Enabled; hide RW;
  }

  lemma WUnlockQuiet(w: World, l: nat)
    requires Inv(w) && Enabled(w, WUnlockOp(l))
    ensures Quiet(w, Next(w, WUnlockOp(l)))
  {
    WUnlockOutcome(w, l);
    hide Next; hide Enabled; hide RW; hide Inv;
  }

  lemma WakeupQuiet(w: World, r: nat, all: bool)
    requires Enabled(w, TaskWakeup(r, all))
    ensures Quiet(w, Next(w, TaskWakeup(r, all)))
  {
    WakeupOutcome(w, r, all);
    hide Next; hide Enabled; hide RZ;
  }

  lemma SleepQuiet(w: World, r: nat)
    requires Enabled(w, TaskSleep(r))
    ensures Quiet(w, Next(w, TaskSleep(r)))
  {
    SleepOutcome(w, r);
    CallIs(w, TaskSleep(r));
    hide Next; hide Enabled; hide QL; hide RZ;
  }

  lemma RelockQuiet(w: World, now: nat)
    requires Enabled(w, Return(now)) && w.pc[Me(w)].InSleep?
    ensures Quiet(w, Next(w, Return(now)))
  {
    RelockOutcome(w, now);
    CallIs(w, Return(now));
    hide Next; hide Enabled; hide QL;
  }

  lemma ReturnQuiet(w: World, now: nat)
    requires Enabled(w, Return(now))
    ensures Quiet(w, Next(w, Return(now)))
  {
    hide *;
    CallIs(w, Return(now));
    StepIs(w, Return(now));
    if w.pc[Me(w)].InSleep? { RelockQuiet(w, now); } else { GoesOnQuiet(w, now); }
  }

  lemma GoesOnQuiet(w: World, now: nat)
    requires w.s.running.Some? && Me(w) in w.pc && !w.pc[Me(w)].InSleep?
    ensures Quiet(w, DoReturn(w, now))
  {
    hide QL; hide DoRelock; hide CS.Resume; hide Continue; hide Quiet;
    ContinueQuiet(w, w);
    match w.pc[Me(w)]
    case InAlt => if Me(w) in w.cs.fired { ContinueQuiet(w, w.(cs := CS.Resume(w.cs, Me(w)))); }
    case InDelay(_, _) => ContinueQuiet(w, w.(clock := now));
    case _ =>
  }

  lemma ContinueQuiet(w: World, w1: World)
    requires w.s.running.Some? && Me(w) in w.pc && w1 == w.(cs := w1.cs, clock := w1.clock)
    ensures Quiet(w, Continue(w1)) && Quiet(w, Abort(w))
  {
  }

  lemma CreateQuiet(w: World)
    requires Inv(w) && Enabled(w, TaskCreate)
    ensures Quiet(w, Next(w, TaskCreate))
  {
    CreateOutcome(w);
    hide Next; hide Enabled; hide Inv;
  }

  lemma ChanCreateQuiet(w: World, c: nat, bufsize: nat)
    requires Enabled(w, ChanCreate(c, bufsize))
    ensures Quiet(w, Next(w, ChanCreate(c, bufsize)))
  {
    ChanCreateOutcome(w, c, bufsize);
    hide Next; hide Enabled;
  }

  lemma YieldQuiet(w: World)
    requires Inv(w) && Enabled(w, TaskYield)
    ensures Quiet(w, Next(w, TaskYield))
  {
    YieldOutcome(w);
    CallIs(w, TaskYield);
    hide Next; hide Enabled; hide Inv;
  }

  lemma AltQuiet(w: World, op: Op)
    requires Enabled(w, op) && op.ChanAlt?
    ensures Quiet(w, Next(w, op))
  {
    AltOutcome(w, op.alts, op.canblock, op.i, op.peer);
    CallIs(w, op);
    hide Next; hide Enabled; hide SomeCan; hide CS.AltsOk; hide CS.ChoiceOk; hide Enters;
  }

  lemma StartedQuiet(w: World)
    ensures Quiet(w, Started(w)) && (w.s.running.Some? ==> Started(w).s.running == w.s.running)
    ensures w.pc.Keys <= Started(w).pc.Keys && Started(w).status == w.status
  {
  }

  lemma QuietTwice(w: World, w1: World, w2: World)
    requires Quiet(w, w1) && Quiet(w1, w2)
    ensures Quiet(w, w2)
  {
  }

  lemma FdWaitQuiet(w: World, fd: int, rw: char)
    requires Enabled(w, FdWait(fd, rw))
    ensures Quiet(w, Next(w, FdWait(fd, rw)))
  {
    FdWaitOutcome(w, fd, rw);
    CallIs(w, FdWait(fd, rw));
    StartedQuiet(w);
    hide Next; hide Enabled; hide Started;
    assert Quiet(Started(w), Next(w, FdWait(fd, rw)));
    QuietTwice(w, Started(w), Next(w, FdWait(fd, rw)));
  }

  lemma DelayQuiet(w: World, ms: nat, now: nat)
    requires Enabled(w, TaskDelay(ms, now))
    ensures Quiet(w, Next(w, TaskDelay(ms, now)))
  {
    DelayOutcome(w, ms, now);
    CallIs(w, TaskDelay(ms, now));
    StartedQuiet(w);
    hide Next; hide Enabled; hide Started;
    assert Quiet(Started(w), Next(w, TaskDelay(ms, now)));
    QuietTwice(w, Started(w), Next(w, TaskDelay(ms, now)));
  }

  /** Every step but these is quiet. */
  predicate Loud(op: Op) {
    op == SchedDispatch || op.TaskSystem? || op.TaskExit? || op.TaskExitAll? || op.FdPass?
  }

  lemma StepQuiet(w: World, op: Op)
    requires Inv(w) && Enabled(w, op) && !Loud(op)
    ensures Quiet(w, Next(w, op))
  {
    assert op != SchedDispatch && !op.TaskSystem? && !op.TaskExit? && !op.TaskExitAll? && !op.FdPass?;
    hide *;
    match op
    case TaskCreate => CreateQuiet(w);
    case TaskYield => YieldQuiet(w);
    case ChanCreate(c, b) => ChanCreateQuiet(w, c, b);
    case ChanAlt(_, _, _, _) => AltQuiet(w, op);
    case QLockOp(l, block) => QLockQuiet(w, l, block);
    case RLockOp(l, block) => RLockQuiet(w, l, block);
    case WLockOp(l, block) => WLockQuiet(w, l, block);
    case QUnlockOp(l) => QUnlockQuiet(w, l);
    case RUnlockOp(l) => RUnlockQuiet(w, l);
    case WUnlockOp(l) => WUnlockQuiet(w, l);
    case TaskWakeup(r, all) => WakeupQuiet(w, r, all);
    case TaskSleep(r) => SleepQuiet(w, r);
    case TaskDelay(ms, now) => DelayQuiet(w, ms, now);
    case FdWait(fd, rw) => FdWaitQuiet(w, fd, rw);
    case Return(now) => ReturnQuiet(w, now);
  }

  // ---- fdtask ----

  /** A turn of fdtask from `w` to `w'`, after which it is a system task if it was or if `marks`. */
  ghost predicate Turn(w: World, w': World, marks: bool)
    requires w.s.running.Some?
  {
    && w'.s.system == (if marks then w.s.system + {Me(w)} else w.s.system)
    && w'.s.exitval == w.s.exitval && w'.s.idgen == w.s.idgen && w'.status == w.status
    && w'.pc.Keys == w.pc.Keys + {Me(w)} && (forall t :: t in w.pc && t != Me(w) ==> w'.pc[t] == w.pc[t])
    && w'.pc[Me(w)].FdYield?
  }

  lemma YieldTurn(w: World, w1: World, n: nat, ahead: nat)
    requires w.s.running.Some? && w1.pc == w.pc && w1.status == w.status
    requires w1.s == w.s.(runq := w1.s.runq, count := w1.s.count, system := w1.s.system)
    requires w1.s.system == w.s.system || w1.s.system == w.s.system + {Me(w)}
    ensures Turn(w, YieldAt(w1, FdYield(n, ahead)), w1.s.system != w.s.system)
  {
  }

  /** A turn of fdtask: on its first turn it becomes a system task; each turn ends in its taskyield. */
  lemma PassMarks(w: World, op: Op)
    requires Enabled(w, op) && op.FdPass?
    ensures w.s.running.Some? && Me(w) in w.pc && FdPc(w.pc[Me(w)])
    ensures Turn(w, Next(w, op), w.pc[Me(w)].FdFresh?)
  {
    hide *;
    CallIs(w, op);
    StepIs(w, op);
    TurnIs(w, op.rev, op.now2);
  }

  lemma TurnIs(w: World, rev: seq<int>, now: nat)
    requires w.s.running.Some? && Me(w) in w.pc && FdPc(w.pc[Me(w)]) && |rev| == |w.fd.slots|
    ensures Turn(w, DoFdPass(w, rev, now), w.pc[Me(w)].FdFresh?)
  {
    hide DoPoll; hide ReturnValue; hide Turn; hide YieldAt;
    var n := w.s.nswitch;
    var w1 := if w.pc[Me(w)].FdFresh? then DoSystem(w) else if ReturnValue(w, now) > 0 then w else DoPoll(w, rev, now);
    YieldTurn(w, w1, n, |w1.s.runq|);
    TurnMarks(w, DoFdPass(w, rev, now));
  }

  lemma TurnMarks(w: World, w': World)
    requires w.s.running.Some?
    ensures Me(w) in w.s.system ==> (Turn(w, w', true) <==> Turn(w, w', false))
  {
    assert Me(w) in w.s.system ==> w.s.system + {Me(w)} == w.s.system;
  }

  // ---- One step ----

  /** Who is a system task after a step, and which value the program would exit with. */
  ghost predicate Marked(w: World, op: Op, w': World) {
    && FdSystem(w') && w.s.idgen <= w'.s.idgen
    && w'.s.exitval == (if op.TaskExit? then op.val else w.s.exitval)
    && (forall t :: t in w'.pc ==> t in w.pc || t > w.s.idgen)
    && (forall t :: t in w'.pc ==> (t in w'.s.system <==> t in w.s.system || Marks(w, op, t)))
  }

  lemma QuietMarked(w: World, op: Op, w': World)
    requires FdSystem(w) && Quiet(w, w') && !Loud(op)
    ensures Marked(w, op, w')
  {
  }

  lemma PassMarked(w: World, op: Op, w': World)
    requires FdSystem(w) && op.FdPass? && w.s.running.Some? && Me(w) in w.pc && FdPc(w.pc[Me(w)])
    requires Turn(w, w', w.pc[Me(w)].FdFresh?)
    ensures Marked(w, op, w')
  {
  }

  lemma DispatchMarked(w: World)
    requires Enabled(w, SchedDispatch) && FdSystem(w)
    ensures Marked(w, SchedDispatch, Next(w, SchedDispatch))
  {
    DispatchOutcome(w);
    StepIs(w, SchedDispatch);
    hide Next; hide Enabled; hide DoDispatch;
  }

  lemma SystemMarked(w: World)
    requires Enabled(w, TaskSystem) && FdSystem(w)
    ensures Marked(w, TaskSystem, Next(w, TaskSystem))
  {
    SystemOutcome(w);
    CallIs(w, TaskSystem);
    hide Next; hide Enabled;
  }

  lemma ExitMarked(w: World, val: int)
    requires Inv(w) && Enabled(w, TaskExit(val)) && FdSystem(w)
    ensures Marked(w, TaskExit(val), Next(w, TaskExit(val)))
  {
    hide *;
    ExitOutcome(w, val);
    CallIs(w, TaskExit(val));
    GoneMarked(w, val, Next(w, TaskExit(val)));
  }

  lemma GoneMarked(w: World, val: int, w': World)
    requires FdSystem(w) && w.s.running.Some? && w'.s.exitval == val && w'.s.idgen == w.s.idgen
    requires w'.pc == w.pc - {Me(w)} && w'.s.system == w.s.system - {Me(w)}
    ensures Marked(w, TaskExit(val), w')
  {
  }

  lemma ExitAllMarked(w: World, val: int)
    requires Enabled(w, TaskExitAll(val)) && FdSystem(w)
    ensures Marked(w, TaskExitAll(val), Next(w, TaskExitAll(val)))
  {
    ExitAllOutcome(w, val);
    hide Next; hide Enabled;
  }

  lemma StepMarks(w: World, op: Op)
    requires Inv(w) && Enabled(w, op) && FdSystem(w)
    ensures Marked(w, op, Next(w, op))
  {
    assert Loud(op) <==> op == SchedDispatch || op.TaskSystem? || op.TaskExit? || op.TaskExitAll? || op.FdPass?;
    hide *;
    if !Loud(op) {
      StepQuiet(w, op);
      QuietMarked(w, op, Next(w, op));
    } else {
      match op
      case SchedDispatch => DispatchMarked(w);
      case TaskSystem => SystemMarked(w);
      case TaskExit(v) => ExitMarked(w, v);
      case TaskExitAll(v) => ExitAllMarked(w, v);
      case FdPass(_, _, _) =>
        PassMarks(w, op);
        PassMarked(w, op, Next(w, op));
    }
  }

  // ---- Runs ----

  lemma {:induction false} RunFdSystem(rzl: map<nat, nat>, ws: seq<World>, ops: seq<Op>, i: nat)
    requires IsRun(rzl, ws, ops) && i < |ws|
    ensures FdSystem(ws[i])
  {
    hide *;
    RunAt(rzl, ws, ops, 0);
    StartSystem(rzl);
    if i > 0 {
      RunFdSystem(rzl, ws, ops, i - 1);
      RunAt(rzl, ws, ops, i - 1);
      StepMarks(ws[i - 1], ops[i - 1]);
      MarkedIs(ws[i - 1], ops[i - 1], ws[i]);
    }
  }

  lemma StartSystem(rzl: map<nat, nat>)
    ensures FdSystem(Init(rzl)) && Init(rzl).s.system == {} && Init(rzl).s.exitval == 0 && Init(rzl).status == Going
  {
  }

  lemma RunAt(rzl: map<nat, nat>, ws: seq<World>, ops: seq<Op>, i: nat)
    requires IsRun(rzl, ws, ops) && i < |ws|
    ensures |ws| == |ops| + 1 && ws[0] == Init(rzl) && Inv(ws[i])
    ensures i < |ops| ==> Enabled(ws[i], ops[i]) && ws[i + 1] == Next(ws[i], ops[i])
  {
    RunInv(rzl, ws, ops, i);
    hide Inv; hide Init; hide Next; hide Enabled;
  }

  lemma {:induction false} IdsGrow(rzl: map<nat, nat>, ws: seq<World>, ops: seq<Op>, i: nat, j: nat)
    requires IsRun(rzl, ws, ops) && i <= j < |ws|
    ensures ws[i].s.idgen <= ws[j].s.idgen
    decreases j
  {
    hide *;
    if i < j {
      IdsGrow(rzl, ws, ops, i, j - 1);
      RunAt(rzl, ws, ops, j - 1);
      RunFdSystem(rzl, ws, ops, j - 1);
      StepMarks(ws[j - 1], ops[j - 1]);
      MarkedIs(ws[j - 1], ops[j - 1], ws[j]);
    }
  }

  lemma MarkedIs(w: World, op: Op, w': World)
    requires Marked(w, op, w')
    ensures FdSystem(w') && w.s.idgen <= w'.s.idgen && w'.s.exitval == (if op.TaskExit? then op.val else w.s.exitval)
  {
  }

  /** A live task has been a number given out so far. */
  lemma IdGiven(w: World, t: Tid)
    requires Inv(w) && (t in w.pc || w.s.running == Some(t))
    ensures t <= w.s.idgen
  {
    LT.InvPlace(w);
    hide Inv;
    assert In(w, t, Running) <==> t in w.at && w.at[t] == Running;
    hide PcInv;
  }

  /** In every run the live system tasks are exactly the live tasks that have called tasksystem, and fdtask from its first turn on. */
  lemma {:induction false} SystemTasks(rzl: map<nat, nat>, ws: seq<World>, ops: seq<Op>, i: nat)
    requires IsRun(rzl, ws, ops) && i < |ws| && |ws| == |ops| + 1
    ensures forall t :: t in ws[i].pc ==> (t in ws[i].s.system <==> exists j :: 0 <= j < i && Marks(ws[j], ops[j], t))
  {
    hide *;
    RunAt(rzl, ws, ops, 0);
    StartSystem(rzl);
    if i > 0 {
      SystemTasks(rzl, ws, ops, i - 1);
      RunAt(rzl, ws, ops, i - 1);
      RunFdSystem(rzl, ws, ops, i - 1);
      StepMarks(ws[i - 1], ops[i - 1]);
      forall t | t in ws[i].pc ensures t in ws[i].s.system <==> exists j :: 0 <= j < i && Marks(ws[j], ops[j], t) {
        MarkedTask(ws[i - 1], ops[i - 1], ws[i], t);
        forall j | 0 <= j < i - 1 && Marks(ws[j], ops[j], t) ensures t in ws[i - 1].pc {
          MarksRunning(ws[j], ops[j], t);
          RunAt(rzl, ws, ops, j);
          IdGiven(ws[j], t);
          IdsGrow(rzl, ws, ops, j, i - 1);
        }
        if t !in ws[i - 1].pc { NotYet(ws[i - 1], t); }
      }
    }
  }

  lemma NotYet(w: World, t: Tid)
    requires Inv(w) && t !in w.pc
    ensures t !in w.s.system
  {
    LT.InvPlace(w);
    hide Inv; hide PcInv;
  }

  lemma MarksRunning(w: World, op: Op, t: Tid)
    requires Marks(w, op, t)
    ensures w.s.running == Some(t)
  {
  }

  lemma MarkedTask(w: World, op: Op, w': World, t: Tid)
    requires Marked(w, op, w') && t in w'.pc
    ensures t in w.pc || t > w.s.idgen
    ensures t in w'.s.system <==> t in w.s.system || Marks(w, op, t)
  {
  }

  /** The value given to the last taskexit so far, or 0. */
  function LastExit(ops: seq<Op>): int {
    if ops == [] then 0
    else
      var n := |ops| - 1;
      if ops[n].TaskExit? then ops[n].val else LastExit(ops[..n])
  }

  lemma LastExitIs(ops: seq<Op>, i: nat)
    requires i <= |ops|
    ensures LastExit(ops[..i]) ==
              if i == 0 then 0 else if ops[i - 1].TaskExit? then ops[i - 1].val else LastExit(ops[..i - 1])
  {
    assert i > 0 ==> ops[..i][..i - 1] == ops[..i - 1];
  }

  lemma {:induction false} ExitValue(rzl: map<nat, nat>, ws: seq<World>, ops: seq<Op>, i: nat)
    requires IsRun(rzl, ws, ops) && i < |ws| && |ws| == |ops| + 1
    ensures ws[i].s.exitval == LastExit(ops[..i])
  {
    hide *;
    RunAt(rzl, ws, ops, 0);
    StartSystem(rzl);
    LastExitIs(ops, i);
    if i > 0 {
      ExitValue(rzl, ws, ops, i - 1);
      RunAt(rzl, ws, ops, i - 1);
      RunFdSystem(rzl, ws, ops, i - 1);
      StepMarks(ws[i - 1], ops[i - 1]);
      MarkedIs(ws[i - 1], ops[i - 1], ws[i]);
    }
  }

  /**
   The exit status of the program: it exits in exactly two ways, by taskexitall with its argument, or
   through the scheduler, when every live task is a system task, with the value of the last taskexit.
   */
  lemma ExitStatus(rzl: map<nat, nat>, ws: seq<World>, ops: seq<Op>, i: nat)
    requires IsRun(rzl, ws, ops) && i < |ops| && |ws| == |ops| + 1
    ensures ws[i + 1].status.Exited? <==>
              ops[i].TaskExitAll? || (ops[i] == SchedDispatch && ws[i].pc.Keys <= ws[i].s.system)
    ensures ws[i + 1].status.Exited? ==>
              ws[i + 1].status.val == if ops[i].TaskExitAll? then ops[i].val else LastExit(ops[..i])
  {
    hide *;
    RunAt(rzl, ws, ops, i);
    ExitValue(rzl, ws, ops, i);
    RunFdSystem(rzl, ws, ops, i);
    StepExits(ws[i], ops[i]);
  }

  lemma StepExits(w: World, op: Op)
    requires Inv(w) && Enabled(w, op)
    ensures Next(w, op).status.Exited? <==> op.TaskExitAll? || (op == SchedDispatch && w.pc.Keys <= w.s.system)
    ensures Next(w, op).status.Exited? ==>
              Next(w, op).status.val == if op.TaskExitAll? then op.val else w.s.exitval
  {
    assert Loud(op) <==> op == SchedDispatch || op.TaskSystem? || op.TaskExit? || op.TaskExitAll? || op.FdPass?;
    hide *;
    SameKeys(w);
    if !Loud(op) {
      StepQuiet(w, op);
      QuietGoes(w, op);
    } else if op == SchedDispatch {
      ExitIsExact(w);
      DispatchOutcome(w);
    } else {
      CallIs(w, op);
      match op
      case TaskSystem => SystemOutcome(w);
      case TaskExit(v) => ExitOutcome(w, v);
      case TaskExitAll(v) => ExitAllOutcome(w, v);
      case FdPass(_, _, _) => PassGoes(w, op);
    }
  }

  lemma SameKeys(w: World)
    requires Inv(w)
    ensures w.pc.Keys == w.at.Keys
  {
    LT.InvPlace(w);
    hide Inv; hide PcInv;
  }

  lemma QuietGoes(w: World, op: Op)
    requires Enabled(w, op) && Quiet(w, Next(w, op))
    ensures !Next(w, op).status.Exited?
  {
    hide Next;
  }

  lemma PassGoes(w: World, op: Op)
    requires Enabled(w, op) && op.FdPass?
    ensures Next(w, op).status == w.status == Going
  {
    PassMarks(w, op);
    hide Next;
  }

  /** fdtask does not keep the program alive: once every other task has exited, the scheduler exits, with the value of the last taskexit. */
  lemma ExitsBesideFdTask(rzl: map<nat, nat>, ws: seq<World>, ops: seq<Op>, i: nat)
    requires IsRun(rzl, ws, ops) && i < |ws| && |ws| == |ops| + 1
    requires Enabled(ws[i], SchedDispatch) && forall t :: t in ws[i].pc ==> ws[i].pc[t].FdYield?
    ensures Next(ws[i], SchedDispatch).status == Exited(LastExit(ops[..i]))
  {
    RunFdSystem(rzl, ws, ops, i);
    assert ws[i].pc.Keys <= ws[i].s.system by { hide IsRun; hide Enabled; }
    hide *;
    RunAt(rzl, ws, ops, i);
    ExitValue(rzl, ws, ops, i);
    StepExits(ws[i], SchedDispatch);
  }

  /** taskexit exits the program, with the value it is given, if and only if every other live task is a system task. */
  lemma LastTaskExits(w: World, val: int)
    requires Inv(w) && Enabled(w, TaskExit(val))
    ensures var w' := Next(w, TaskExit(val));
            && Enabled(w', SchedDispatch)
            && (Next(w', SchedDispatch).status.Exited? <==> w.pc.Keys - {Me(w)} <= w.s.system)
            && (Next(w', SchedDispatch).status.Exited? ==> Next(w', SchedDispatch).status == Exited(val))
  {
    hide *;
    var w' := Next(w, TaskExit(val));
    CallIs(w, TaskExit(val));
    ExitOutcome(w, val);
    StepInv(w, TaskExit(val));
    StillGoing(w, w');
    MayDispatch(w');
    StepExits(w', SchedDispatch);
    assert w'.pc.Keys == w.pc.Keys - {Me(w)};
  }

  lemma StillGoing(w: World, w': World)
    requires w' == With(w, w')
    ensures w'.status == w.status
  {
  }

  lemma MayDispatch(w: World)
    ensures Enabled(w, SchedDispatch) <==> w.status == Going && w.s.running.None?
  {
  }
}
