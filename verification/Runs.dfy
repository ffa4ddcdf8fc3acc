/** What holds in every run of every program on the library. */
module Runs {
  import opened Util
  import opened FdSpec
  import opened FdProofs
  import opened World
  import opened Places
  import opened PcProofs
  import opened Parts
  import opened Turns
  import opened Timers

  ghost predicate Inv(w: World) {
    PlaceInv(w) && PcInv(w) && PartsInv(w) && ClockInv(w) && YieldInv(w)
  }

  lemma InitInv(rzl: map<nat, nat>)
    ensures Inv(Init(rzl))
  {
    InitPlaces(rzl);
    InitParts(rzl);
    hide PlaceInv; hide PcInv; hide PartsInv; hide ClockInv; hide YieldInv;
  }

  lemma InitPlaces(rzl: map<nat, nat>)
    ensures PlaceInv(Init(rzl)) && PcInv(Init(rzl))
  {
    var w := Init(rzl);
    forall t: Tid, p: Place ensures In(w, t, p) <==> t in w.at && w.at[t] == p {}
    assert Elems(w.s.all) == {1};
  }

  lemma InitParts(rzl: map<nat, nat>)
    ensures PartsInv(Init(rzl)) && ClockInv(Init(rzl)) && YieldInv(Init(rzl))
  {
    var w := Init(rzl);
    assert w.at.Keys - w.s.system == {1};
  }

  lemma StepInv(w: World, op: Op)
    requires Inv(w) && Enabled(w, op)
    ensures Inv(Next(w, op))
  {
    hide PlaceInv; hide PcInv; hide PartsInv; hide ClockInv; hide YieldInv; hide Enabled; hide Next;
    StepPlaces(w, op);
    StepPcInv(w, op);
    StepParts(w, op);
    StepClock(w, op);
    StepYield(w, op);
  }

  /** The invariant holds all along a run. */
  lemma {:induction false} StepsInv(ws: seq<World>, ops: seq<Op>, i: nat)
    requires Steps(ws, ops) && Inv(ws[0]) && i < |ws|
    ensures Inv(ws[i])
  {
    hide Inv; hide Enabled; hide Next;
    if i > 0 {
      StepsInv(ws, ops, i - 1);
      StepInv(ws[i - 1], ops[i - 1]);
    }
  }

  lemma RunInv(rzl: map<nat, nat>, ws: seq<World>, ops: seq<Op>, i: nat)
    requires IsRun(rzl, ws, ops) && i < |ws|
    ensures Inv(ws[i])
  {
    InitInv(rzl);
    hide Inv;
    StepsInv(ws, ops, i);
  }

  // ---- Scheduling ----

  /** The live tasks that are not system tasks, and those of them that sleep in taskdelay. */
  ghost function Working(w: World): set<Tid> { w.at.Keys - w.s.system }

  ghost function Sleeping(w: World): set<Tid> {
    set t | t in Working(w) && t in w.at && w.at[t] == Asleep
  }

  /**
   The accounting in every reachable state: taskcount is the number of live non-system tasks,
   plus one while some of them sleep, and sleepingcounted is the number of those.
   */
  lemma Accounting(rzl: map<nat, nat>, ws: seq<World>, ops: seq<Op>, i: nat)
    requires IsRun(rzl, ws, ops) && i < |ws|
    ensures var w := ws[i];
            && w.s.count == |Working(w)| + (if Sleeping(w) != {} then 1 else 0)
            && w.fd.counted == |Sleeping(w)|
  {
    RunInv(rzl, ws, ops, i);
    hide Inv; hide IsRun;
    CountsAgree(ws[i]);
  }

  lemma CountsAgree(w: World)
    requires Inv(w)
    ensures w.s.count == |Working(w)| + (if Sleeping(w) != {} then 1 else 0)
    ensures w.fd.counted == |Sleeping(w)|
  {
    SleepersOnce(w);
    hide PlaceInv; hide PcInv; hide PartsInv; hide YieldInv; hide Sleeping;
    CountedSize(Names(w.fd.sleeping), w.s.system);
  }

  lemma SleepersOnce(w: World)
    requires PlaceInv(w)
    ensures NoDup(Names(w.fd.sleeping)) && Sleeping(w) == Elems(Names(w.fd.sleeping)) - w.s.system
  {
    AsleepOk(w);
    assert NoDup(Queue(w, Asleep));
    hide PlaceInv;
  }

  lemma {:induction false} CountedSize(names: seq<Tid>, system: set<Tid>)
    requires NoDup(names)
    ensures Counted(names, system) == |Elems(names) - system|
  {
    if names != [] {
      var t := names[0];
      NoDupSplit(names, 1);
      CountedSize(names[1..], system);
      SizeStep(names, system);
      hide NoDup; hide Elems;
    }
  }

  lemma SizeStep(names: seq<Tid>, system: set<Tid>)
    requires NoDup(names) && names != []
    ensures |Elems(names) - system| == (if names[0] in system then 0 else 1) + |Elems(names[1..]) - system|
  {
    var t, rest := names[0], Elems(names[1..]);
    assert t !in rest;
    assert Elems(names) == {t} + rest;
    hide NoDup; hide Elems;
    if t in system {
      assert {t} + rest - system == rest - system;
    } else {
      assert {t} + rest - system == {t} + (rest - system);
    }
  }

  /**
   The program exits through the scheduler exactly when no non-system task is live: the extra
   count kept for sleepers never changes that decision.
   */
  lemma ExitIsExact(w: World)
    requires Inv(w) && Enabled(w, SchedDispatch)
    ensures Next(w, SchedDispatch).status.Exited? <==> w.at.Keys <= w.s.system
  {
    DispatchIs(w);
    var live := w.at.Keys - w.s.system;
    assert w.at.Keys <= w.s.system <==> live == {};
    assert w.s.count == |live| + (if w.fd.counted > 0 then 1 else 0) && w.fd.counted == Counted(Names(w.fd.sleeping), w.s.system);
    AsleepOk(w);
    hide Inv; hide DoDispatch;
    if live == {} { NoneCounted(Names(w.fd.sleeping), w.s.system); }
  }

  lemma NoneCounted(names: seq<Tid>, system: set<Tid>)
    requires forall t :: t in names ==> t in system
    ensures Counted(names, system) == 0
  {
    if names != [] {
      assert names[0] in names;
      NoneCounted(names[1..], system);
    }
  }

  /** Once the timer task exists the scheduler always finds something to run. */
  lemma NeverStallsWithTimer(w: World)
    requires Inv(w) && w.fd.started && Enabled(w, SchedDispatch)
    ensures w.s.runq != [] && Next(w, SchedDispatch).status != Stalled
  {
    hide DoDispatch;
    var t :| t in w.pc && FdPc(w.pc[t]);
    FdReady(w, t);
    ReadyQueued(w, t);
    NotStalled(w);
  }

  /** fdtask waits for nothing. */
  lemma FdReady(w: World, t: Tid)
    requires PcInv(w) && t in w.pc && FdPc(w.pc[t])
    ensures t in w.at && Ready(w, t)
  {
    assert PcOk(w, t);
  }

  lemma NotStalled(w: World)
    ensures w.s.runq != [] && w.status == Going ==> DoDispatch(w).status != Stalled
  {
  }

  /** Where the ready tasks are. */
  lemma ReadyQueued(w: World, t: Tid)
    requires PlaceInv(w) && t in w.at
    ensures Ready(w, t) <==> t in w.s.runq || w.s.running == Some(t)
  {
    assert In(w, t, RunQueue) <==> w.at[t] == RunQueue;
    assert In(w, t, Running) <==> w.at[t] == Running;
  }

  lemma IdleQueue(w: World)
    requires YieldInv(w) && w.s.running.Some? && Me(w) in w.pc && w.pc[Me(w)].FdYield?
    ensures ReturnValue(w, 0) == w.pc[Me(w)].ahead && (ReturnValue(w, 0) <= 0 ==> w.s.runq == [])
  {
  }

  /** fdtask polls only when every other live task is blocked. */
  lemma PollsOnlyWhenIdle(w: World, rev: seq<int>, now1: nat, now2: nat)
    requires Inv(w) && Enabled(w, FdPass(rev, now1, now2)) && w.pc[Me(w)].FdYield?
    requires ReturnValue(w, now2) <= 0
    ensures w.s.runq == [] && ReturnValue(w, now2) == 0
    ensures forall t :: t in w.at && t != Me(w) ==> !Ready(w, t)
  {
    hide PlaceInv; hide PcInv; hide PartsInv; hide ClockInv; hide YieldInv; hide Ready;
    IdleQueue(w);
    forall t | t in w.at && t != Me(w) ensures !Ready(w, t) {
      ReadyQueued(w, t);
    }
  }

  /** One step of a run, and the parts of the invariant there. */
  lemma StepAt(ws: seq<World>, ops: seq<Op>, i: nat)
    requires Steps(ws, ops) && Inv(ws[0]) && i < |ws|
    ensures |ws| == |ops| + 1 && (i < |ops| ==> Enabled(ws[i], ops[i]) && ws[i + 1] == Next(ws[i], ops[i]))
    ensures Inv(ws[i]) && PlaceInv(ws[i]) && PcInv(ws[i]) && YieldInv(ws[i])
  {
    StepsInv(ws, ops, i);
    hide PlaceInv; hide PcInv; hide PartsInv; hide ClockInv; hide YieldInv; hide Enabled; hide Next;
  }

  /**
   The conveyor along a run: whatever was queued is dispatched in queue order, before
   anything that becomes ready later.
   */
  lemma {:induction false} ConveyorGrows(ws: seq<World>, ops: seq<Op>, i: nat, j: nat)
    requires Steps(ws, ops) && Inv(ws[0]) && i <= j < |ws|
    ensures Conveyor(ws[i]) <= Conveyor(ws[j]) && ws[i].s.log <= ws[j].s.log
    decreases j
  {
    hide *;
    if i < j {
      ConveyorGrows(ws, ops, i, j - 1);
      StepAt(ws, ops, j - 1);
      StepConveyor(ws[j - 1], ops[j - 1]);
    }
  }

  /** The dispatch count is the length of the log. */
  lemma LogLength(w: World)
    requires YieldInv(w)
    ensures w.s.nswitch == |w.s.log|
  {
  }

  lemma ConveyorAt(w: World, n: nat)
    requires n < |w.s.log| + |w.s.runq|
    ensures |Conveyor(w)| == |w.s.log| + |w.s.runq|
    ensures Conveyor(w)[n] == if n < |w.s.log| then w.s.log[n] else w.s.runq[n - |w.s.log|]
  {
  }

  /** The task at position `k` of the run queue is the one that the (k+1)-th dispatch from now runs. */
  lemma ServedInOrder(ws: seq<World>, ops: seq<Op>, i: nat, j: nat, k: nat)
    requires Steps(ws, ops) && Inv(ws[0]) && i <= j < |ws| && k < |ws[i].s.runq|
    requires ws[j].s.nswitch > ws[i].s.nswitch + k
    ensures ws[i].s.nswitch + k < |ws[j].s.log| && ws[j].s.log[ws[i].s.nswitch + k] == ws[i].s.runq[k]
  {
    hide *;
    ConveyorGrows(ws, ops, i, j);
    StepAt(ws, ops, i);
    StepAt(ws, ops, j);
    LogLength(ws[i]);
    LogLength(ws[j]);
    var n := ws[i].s.nswitch + k;
    ConveyorAt(ws[i], n);
    ConveyorAt(ws[j], n);
    assert Conveyor(ws[j])[n] == Conveyor(ws[i])[n];
  }

  /** The program position of a task does not move while others run. */
  lemma {:induction false} PcStays(ws: seq<World>, ops: seq<Op>, i: nat, j: nat, t: Tid)
    requires Steps(ws, ops) && Inv(ws[0]) && i <= j < |ws| && t in ws[i].pc
    requires forall m :: i <= m < j ==> ws[m].s.running != Some(t)
    ensures t in ws[j].pc && ws[j].pc[t] == ws[i].pc[t]
    decreases j
  {
    hide *;
    if i < j {
      PcStays(ws, ops, i, j - 1, t);
      StepAt(ws, ops, j - 1);
      StepConveyor(ws[j - 1], ops[j - 1]);
    }
  }

  lemma YieldSets(w: World)
    requires Enabled(w, TaskYield)
    ensures var w' := Next(w, TaskYield);
            && w.s.running.Some? && w'.s.running.None? && w'.s.log == w.s.log
            && Me(w) in w'.pc && w'.pc[Me(w)] == InYield(w.s.nswitch, |w.s.runq|)
            && w'.s.runq == w.s.runq + [Me(w)]
  {
  }

  /** When a yielding task runs again, exactly the tasks that were ahead of it have run in between. */
  lemma YieldResumes(w: World, now: nat, n: nat, k: nat)
    requires YieldInv(w) && Enabled(w, Return(now)) && w.s.running.Some? && Me(w) in w.pc && w.pc[Me(w)] == InYield(n, k)
    ensures ReturnValue(w, now) == k && |w.s.log| == n + k + 1
  {
  }

  /**
   taskyield is exact: it returns the number of tasks that were ready at the call, and those
   tasks, in queue order, are precisely the ones dispatched before the caller goes on.
   */
  lemma YieldIsExact(ws: seq<World>, ops: seq<Op>, i: nat, j: nat, now: nat)
    requires Steps(ws, ops) && Inv(ws[0]) && i < j < |ops| && |ws| == |ops| + 1
    requires ops[i] == TaskYield && ops[j] == Return(now)
    requires ws[i].s.running.Some? && ws[j].s.running == ws[i].s.running
    requires forall m :: i < m < j ==> ws[m].s.running != ws[i].s.running
    ensures Me(ws[j]) in ws[j].pc && ReturnValue(ws[j], now) == |ws[i].s.runq|
    ensures var n := |ws[i].s.log|;
            n <= |ws[j].s.log| && ws[j].s.log[n..] == ws[i].s.runq + [Me(ws[i])]
    ensures NoDup(ws[i].s.runq + [Me(ws[i])])
  {
    hide *;
    var w, w1, w2 := ws[i], ws[i + 1], ws[j];
    var t := w.s.running.value;
    MeIs(w);
    MeIs(w2);
    StepAt(ws, ops, i);
    StepAt(ws, ops, j);
    YieldSets(w);
    PcStays(ws, ops, i + 1, j, t);
    ConveyorGrows(ws, ops, i + 1, j);
    YieldNoDup(w);
    LogLength(w);
    YieldResumes(w2, now, w.s.nswitch, |w.s.runq|);
    var n, c := |w.s.log|, w.s.runq + [t];
    forall k | 0 <= k < |c| ensures w2.s.log[n + k] == c[k] {
      ConveyorAt(w1, n + k);
      ConveyorAt(w2, n + k);
      assert Conveyor(w2)[n + k] == Conveyor(w1)[n + k];
    }
    assert w2.s.log[n..] == c;
  }

  lemma MeIs(w: World)
    requires w.s.running.Some?
    ensures Me(w) == w.s.running.value
  {
  }

  lemma YieldNoDup(w: World)
    requires PlaceInv(w) && w.s.running.Some?
    ensures NoDup(w.s.runq + [Me(w)])
  {
    AppendMe(w, RunQueue);
  }
}
