/** The scheduler of task.c over its globals: run queue, registry, accounting. */
module Kernel {
  import opened Util
  import opened SchedSpec
  import opened Lists

  function Opt(t: Task?): Option<Task> { if t == null then None else Some(t) }

  datatype Choice = ExitProgram(val: int) | Stall | Switched

  lemma DropFirst<T>(q: seq<T>)
    requires q != []
    ensures q[..0] + q[0 + 1..] == q[1..]
  {
  }

  /** `system` holds the registered tasks that are marked so, and no task is exiting. */
  ghost predicate Flags(all: seq<Task>, system: set<Task>)
    reads all`system, all`exiting
  {
    system <= Elems(all) && forall t :: t in all ==> (t.system <==> t in system) && !t.exiting
  }

  /** The same while task `t` is exiting. */
  ghost predicate FlagsBut(all: seq<Task>, system: set<Task>, t: Task)
    reads all`system, (set u | u in all && u != t)`exiting
  {
    system <= Elems(all) && forall u :: u in all ==> (u.system <==> u in system) && (u != t ==> !u.exiting)
  }

  lemma FlagsOf(all: seq<Task>, system: set<Task>, t: Task)
    requires Flags(all, system)
    ensures FlagsBut(all, system, t)
  {
  }

  lemma SystemFlag(all: seq<Task>, system: set<Task>, t: Task)
    requires FlagsBut(all, system, t) && t in all
    ensures t.system <==> t in system
  {
  }

  lemma DropFlags(all: seq<Task>, rest: seq<Task>, system: set<Task>, t: Task)
    requires FlagsBut(all, system, t) && Elems(rest) == Elems(all) - {t}
    ensures Flags(rest, system - {t})
  {
    forall u | u in rest ensures u in all && u != t {
      assert u in Elems(rest);
    }
  }

  /** One more registered task. */
  lemma Widen(lists: set<Tasklist>, all: seq<Task>, system: set<Task>, t: Task)
    requires Apart(lists, Elems(all)) && Flags(all, system) && t !in all && !t.system && !t.exiting
    ensures Apart(lists, Elems(all + [t])) && Flags(all + [t], system) && Loose(lists, t)
  {
    hide Linked;
    ApartFacts(lists, Elems(all));
    ApartFacts(lists, Elems(all + [t]));
    hide Apart;
    assert forall u :: u in Elems(all + [t]) <==> u in Elems(all) || u == t;
    forall l | l in lists ensures t !in l.elems {
      assert t !in Elems(all);
    }
  }

  /** One registered task less, that is in no list. */
  lemma Narrow(lists: set<Tasklist>, all: seq<Task>, system: set<Task>, i: nat)
    requires i < |all| && NoDup(all) && Apart(lists, Elems(all)) && Loose(lists, all[i])
    ensures var rest := SwapDelete(all, i);
            && Apart(lists, Elems(rest)) && all[i] !in rest && Elems(rest) == Elems(all) - {all[i]}
  {
    hide Linked;
    SwapDeleteNoDup(all, i);
    ApartFacts(lists, Elems(all));
    ApartFacts(lists, Elems(SwapDelete(all, i)));
    hide Apart; hide SwapDelete;
    assert all[i] !in Elems(SwapDelete(all, i));
  }

  class Kernel {
    const runq: Tasklist
    var running: Task?
    var tasknswitch: nat
    var taskcount: int
    var taskexitval: int
    var taskidgen: nat
    var alltask: array<Task?>
    var nalltask: nat

    /** The registry, the system tasks, every list of the program, and the tasks dispatched so far. */
    ghost var all: seq<Task>
    ghost var system: set<Task>
    ghost var lists: set<Tasklist>
    ghost var log: seq<Task>

    ghost function Abs(): Sched<Task>
      reads this, runq
    {
      Sched(Opt(running), runq.elems, tasknswitch, log, all, system, taskcount, taskexitval, taskidgen)
    }

    /**
     The registry: slot `k` holds the task that says so, hence no task twice, and there is
     always room for the number of tasks rounded up to a multiple of 64.
     */
    ghost predicate RegistryOk()
      reads this`all, this`nalltask, this`alltask, alltask, all`alltaskslot
    {
      && |all| == nalltask <= alltask.Length && alltask.Length % 64 == 0
      && forall k :: 0 <= k < nalltask ==> alltask[k] == all[k] && all[k].alltaskslot == k
    }

    ghost predicate FlagsOk()
      reads this`all, this`system, all`system, all`exiting
    {
      Flags(all, system)
    }

    ghost predicate ListsOk()
      reads this`all, this`lists, lists, all`next, all`prev
    {
      runq in lists && Apart(lists, Elems(all))
    }

    /** Everything but where the running task is. */
    ghost predicate Sound()
      reads this, alltask, lists, all`next, all`prev, all`system, all`exiting, all`alltaskslot
    {
      RegistryOk() && FlagsOk() && ListsOk() && (running != null ==> running in all)
    }

    ghost predicate Valid()
      reads this, alltask, lists, all`next, all`prev, all`system, all`exiting, all`alltaskslot
    {
      Sound() && (running != null ==> Loose(lists, running))
    }

    constructor ()
      ensures Valid() && Abs() == Sched(None, [], 0, [], [], {}, 0, 0, 0)
      ensures fresh(runq) && fresh(alltask) && lists == {runq}
    {
      runq := new Tasklist();
      alltask := new Task?[0];
      running, tasknswitch, taskcount, taskexitval, taskidgen, nalltask := null, 0, 0, 0, 0, 0;
      all, system, log := [], {}, [];
      new;
      lists := {runq};
    }

    /** A list that has just been created, empty, becomes one of the lists of the program. */
    ghost method AddList(l: Tasklist)
      requires Valid() && l.Valid() && l.elems == [] && l !in lists
      modifies this`lists
      ensures Valid() && lists == old(lists) + {l} && Abs() == old(Abs())
    {
      hide Linked;
      lists := lists + {l};
    }

    lemma ReadyIs(s: Sched<Task>, t: Task)
      ensures ReadyAll(s, [t]) == s.(runq := s.runq + [t])
    {
    }

    /** taskready. */
    method TaskReady(t: Task)
      requires Sound() && t in all && Loose(lists, t)
      modifies runq, runq.elems`next, runq.elems`prev, t`next, t`prev, t`ready
      ensures Sound() && Abs() == ReadyAll(old(Abs()), [t])
      ensures t.ready && runq.elems == old(runq.elems) + [t]
      ensures old(Valid()) && t != running ==> Valid()
    {
      hide *;
      SoundParts();
      AbsIs();
      IsRegistered(t);
      if running != null { LooseFacts(lists, running); }
      t.ready := true;
      runq.Add(t, lists, Elems(all));
      if running != null && t != running && old(Valid()) { LooseFacts(lists, running); }
      SoundParts();
      AbsIs();
      ReadyIs(old(Abs()), t);
    }

    /** fd.c keeps an extra count of its own in taskcount. */
    method AddCount(d: int)
      requires Sound()
      modifies this`taskcount
      ensures Sound() && (old(Valid()) ==> Valid()) && Abs() == old(Abs()).(count := old(taskcount) + d)
    {
      taskcount := taskcount + d;
    }

    /** taskswitch away from a task that is not exiting. */
    method SwitchOut()
      requires Sound()
      modifies this`running
      ensures Valid() && Abs() == Switch(old(Abs()))
    {
      running := null;
    }

    /** taskyield up to its switch. */
    method TaskYield() returns (n: nat)
      requires Valid() && running != null
      modifies this`running, runq, runq.elems`next, runq.elems`prev, running`next, running`prev, running`ready
      ensures Valid() && Abs() == Switch(ReadyAll(old(Abs()), [old(running)])) && n == tasknswitch
    {
      n := tasknswitch;
      TaskReady(running);
      SwitchOut();
    }

    /** tasksystem. */
    method TaskSystem()
      requires Valid() && running != null
      modifies this`taskcount, this`system, running`system
      ensures Valid() && Abs() == MarkSystem(old(Abs()))
      ensures running.system && system == old(system) + {running}
      ensures taskcount == old(taskcount) - if old(running.system) then 0 else 1
    {
      if !running.system {
        running.system := true;
        taskcount := taskcount - 1;
        system := system + {running};
      }
    }

    /** The scheduler loop from its head to the switch into the task it picks. */
    method Schedule() returns (r: Choice)
      requires Valid() && running == null
      modifies this`running, this`tasknswitch, this`log, runq, runq.elems`next, runq.elems`prev, runq.elems`ready
      ensures Valid()
      ensures match Dispatch(old(Abs()))
              case ProgramExit(v) => r == ExitProgram(v) && Abs() == old(Abs())
              case NoRunnable => r == Stall && Abs() == old(Abs())
              case Run(s') => r == Switched && Abs() == s'
    {
      if taskcount == 0 { return ExitProgram(taskexitval); }
      HeadIsFirst();
      hide *;
      var t := runq.head;
      if t == null { return Stall; }
      RunTask(t);
      r := Switched;
    }

    lemma HeadIsFirst()
      requires Sound()
      ensures runq.head == if runq.elems == [] then null else runq.elems[0]
      ensures Dispatch(Abs()) ==
              if taskcount == 0 then ProgramExit(taskexitval)
              else if runq.elems == [] then NoRunnable
              else Run(Abs().(running := Some(runq.elems[0]), runq := runq.elems[1..],
                              nswitch := tasknswitch + 1, log := log + [runq.elems[0]]))
    {
      hide Linked;
    }

    lemma AbsIs()
      ensures Abs() == Sched(Opt(running), runq.elems, tasknswitch, log, all, system, taskcount, taskexitval, taskidgen)
      ensures running != null ==> Opt(running) == Some(running)
      ensures running == null ==> Opt(running) == None
    {
    }

    lemma InQueue(t: Task)
      requires ListsOk() && t in runq.elems
      ensures t in all
    {
      ApartFacts(lists, Elems(all));
      hide Apart;
      assert t in Elems(all);
    }

    lemma SoundParts()
      ensures Sound() <==> RegistryOk() && FlagsOk() && ListsOk() && (running != null ==> running in all)
      ensures Valid() <==> Sound() && (running != null ==> Loose(lists, running))
      ensures ListsOk() <==> runq in lists && Apart(lists, Elems(all))
      ensures FlagsOk() <==> Flags(all, system)
      ensures Sound() ==> Apart(lists, Elems(all)) && Flags(all, system)
    {
    }

    /** The scheduler takes the first ready task off the queue and runs it. */
    method RunTask(t: Task)
      requires Valid() && running == null && runq.elems != [] && t == runq.elems[0]
      modifies this`running, this`tasknswitch, this`log, runq, runq.elems`next, runq.elems`prev, runq.elems`ready
      ensures Valid()
      ensures Abs() == old(Abs()).(running := Some(t), runq := old(runq.elems[1..]),
                                   nswitch := old(tasknswitch) + 1, log := old(log) + [t])
    {
      hide *;
      SoundParts();
      AbsIs();
      InQueue(t);
      runq.Del(t, 0, lists, Elems(all));
      SoundParts();
      StartTask(t);
      DropFirst(old(runq.elems));
      AbsIs();
    }

    method StartTask(t: Task)
      requires Sound() && running == null && t in all && Loose(lists, t)
      modifies this`running, this`tasknswitch, this`log, t`ready
      ensures Valid()
      ensures Abs() == old(Abs()).(running := Some(t), nswitch := old(tasknswitch) + 1, log := old(log) + [t])
    {
      hide Apart;
      t.ready := false;
      running := t;
      tasknswitch := tasknswitch + 1;
      log := log + [t];
    }

    /** Slots make the registry free of repetitions. */
    lemma NoTwice()
      requires RegistryOk()
      ensures NoDup(all)
      ensures forall k :: 0 <= k < |all| ==> IndexOf(all, all[k]) == k
    {
      forall k | 0 <= k < |all| ensures IndexOf(all, all[k]) == k {
        var j := IndexOf(all, all[k]);
        assert all[j] == all[k];
      }
    }

    /** realloc of the registry, when the tasks fill it to a multiple of 64: it may grow or shrink. */
    method Resize()
      requires RegistryOk() && nalltask % 64 == 0
      modifies this`alltask
      ensures RegistryOk() && fresh(alltask) && alltask.Length == nalltask + 64
    {
      var a := new Task?[nalltask + 64];
      forall k | 0 <= k < nalltask { a[k] := alltask[k]; }
      alltask := a;
    }

    /** Enter a task in the registry. */
    method Register(t: Task)
      requires RegistryOk() && t !in all
      modifies this`alltask, this`nalltask, this`all, alltask, t`alltaskslot
      ensures RegistryOk() && all == old(all) + [t]
      ensures alltask == old(alltask) || fresh(alltask)
    {
      if nalltask % 64 == 0 { Resize(); }
      t.alltaskslot := nalltask;
      alltask[nalltask] := t;
      nalltask := nalltask + 1;
      all := all + [t];
    }

    /** addtask of the running task to another list. */
    method Enlist(l: Tasklist)
      requires Valid() && running != null && l in lists && l != runq
      modifies l, l.elems`next, l.elems`prev, running`next, running`prev
      ensures Sound() && l.elems == old(l.elems) + [running] && Abs() == old(Abs())
    {
      hide *;
      SoundParts();
      AbsIs();
      IsRegistered(running);
      l.Add(running, lists, Elems(all));
      SoundParts();
      AbsIs();
    }

    /** The same at position `i`, before `at`. */
    method EnlistAt(l: Tasklist, at: Task?, ghost i: nat)
      requires Valid() && running != null && l in lists && l != runq
      requires i <= |l.elems| && at == if i == |l.elems| then null else l.elems[i]
      modifies l, l.elems`next, l.elems`prev, running`next, running`prev
      ensures Sound() && l.elems == old(l.elems[..i]) + [running] + old(l.elems[i..]) && Abs() == old(Abs())
    {
      hide *;
      SoundParts();
      AbsIs();
      IsRegistered(running);
      l.Insert(running, at, i, lists, Elems(all));
      SoundParts();
      AbsIs();
    }

    /** The same followed by taskswitch. */
    method Block(l: Tasklist)
      requires Valid() && running != null && l in lists && l != runq
      modifies this`running, l, l.elems`next, l.elems`prev, running`next, running`prev
      ensures Valid() && l.elems == old(l.elems) + [old(running)] && Abs() == Switch(old(Abs()))
    {
      hide *;
      Enlist(l);
      SwitchOut();
    }

    /** A live task that was in no list and did not run is still so when only `movers` have changed lists. */
    twostate lemma StillIdle(u: Task, new movers: set<Task>)
      requires u in old(all) && u != old(running) && old(Loose(lists, u)) && u !in movers
      requires lists == old(lists) && forall x :: x in old(all) ==> x in all
      requires running == null || running == old(running)
      requires forall l, x :: l in lists && x in l.elems ==> x in old(l.elems) || x in movers
      ensures u in all && u != running && Loose(lists, u)
    {
      LooseFacts(lists, u);
    }

    lemma ListsExist()
      ensures forall l :: l in lists ==> allocated(l)
    {
    }

    lemma IsRegistered(t: Task)
      requires t in all
      ensures t in Elems(all)
    {
    }

    lemma HeadOf(l: Tasklist)
      requires Sound() && l in lists
      ensures l.head == if l.elems == [] then null else l.elems[0]
      ensures l.elems != [] ==> l.elems[0] in all && (Valid() ==> l.elems[0] != running)
    {
      ApartFacts(lists, Elems(all));
      hide Linked; hide Apart;
      if l.elems != [] {
        assert l.elems[0] in l.elems;
        assert l.elems[0] in Elems(all);
      }
    }

    /** deltask of the first task of another list, and taskready. */
    method WakeHead(l: Tasklist) returns (t: Task)
      requires Sound() && l in lists && l != runq && l.elems != []
      modifies l, l.elems`next, l.elems`prev, l.elems`ready, runq, runq.elems`next, runq.elems`prev
      ensures Sound() && (old(Valid()) ==> Valid())
      ensures t == old(l.elems[0]) && l.elems == old(l.elems[1..]) && Abs() == ReadyAll(old(Abs()), [t])
    {
      hide *;
      HeadOf(l);
      t := l.head;
      ghost var was := l.elems;
      Unlist(l, t);
      SoundParts();
      AbsIs();
      assert t in was;
      TaskReady(t);
    }

    /** deltask of the first task of another list. */
    method Unlist(l: Tasklist, t: Task)
      requires Sound() && l in lists && l != runq && l.elems != [] && t == l.elems[0]
      modifies l, l.elems`next, l.elems`prev
      ensures Sound() && (old(Valid()) ==> Valid()) && Loose(lists, t)
      ensures l.elems == old(l.elems[1..]) && Abs() == old(Abs())
    {
      hide *;
      SoundParts();
      AbsIs();
      DropFirst(l.elems);
      if running != null { LooseFacts(lists, running); }
      l.Del(t, 0, lists, Elems(all));
      if running != null && old(Valid()) {
        assert forall u :: u in l.elems ==> u in old(l.elems);
        LooseFacts(lists, running);
      }
      SoundParts();
      AbsIs();
    }

    lemma CreateIs(s: Sched<Task>, t: Task)
      ensures Create(s, t) == ReadyAll(s.(count := s.count + 1, all := s.all + [t], idgen := s.idgen + 1), [t])
    {
    }

    /** taskcreate. */
    method TaskCreate() returns (t: Task)
      requires Valid()
      modifies this`taskcount, this`taskidgen, this`alltask, this`nalltask, this`all, alltask
      modifies runq, runq.elems`next, runq.elems`prev
      ensures Valid() && fresh(t) && Abs() == Create(old(Abs()), t)
      ensures t.id == taskidgen == old(taskidgen) + 1 && t.ready && t !in system
      ensures taskcount == old(taskcount) + 1 && all == old(all) + [t] && runq.elems == old(runq.elems) + [t]
      ensures alltask == old(alltask) || fresh(alltask)
    {
      hide *;
      SoundParts();
      AbsIs();
      assert Apart(lists, Elems(all));
      taskidgen := taskidgen + 1;
      t := new Task(taskidgen);
      assert Apart(lists, Elems(all)) && Flags(all, system);
      taskcount := taskcount + 1;
      Register(t);
      Widen(lists, old(all), system, t);
      SoundParts();
      AbsIs();
      TaskReady(t);
      CreateIs(old(Abs()), t);
    }

    /** taskexit: the running task leaves, and the scheduler cleans up after it. */
    method TaskExit(val: int)
      requires Valid() && running != null
      modifies this`taskexitval, this`running, this`taskcount, this`nalltask, this`all, this`system
      modifies running`exiting, alltask, all`alltaskslot
      ensures Valid() && Abs() == Reap(Switch(old(Abs()).(exitval := val)), old(running))
      ensures old(running) !in all && Loose(lists, old(running))
    {
      hide *;
      SoundParts();
      AbsIs();
      taskexitval := val;
      var t := running;
      FlagsOf(all, system, t);
      t.exiting := true;
      running := null;
      CleanUp(t);
      SoundParts();
      AbsIs();
      ReapIs(old(Abs()), val, t);
    }

    lemma ReapIs(s: Sched<Task>, val: int, t: Task)
      requires t in s.all
      ensures Reap(Switch(s.(exitval := val)), t) ==
              s.(running := None, exitval := val, count := if t in s.system then s.count else s.count - 1,
                 all := SwapDelete(s.all, IndexOf(s.all, t)), system := s.system - {t})
    {
    }

    /** Drop task `t` from the registry: the last one takes its slot. */
    method Unregister(t: Task)
      requires RegistryOk() && t in all
      modifies this`nalltask, this`all, alltask, all`alltaskslot
      ensures RegistryOk() && all == SwapDelete(old(all), IndexOf(old(all), t))
    {
      NoTwice();
      var i := t.alltaskslot;
      nalltask := nalltask - 1;
      alltask[i] := alltask[nalltask];
      alltask[i].alltaskslot := i;
      all := SwapDelete(all, i);
    }

    method CleanUp(t: Task)
      requires RegistryOk() && t in all && t.exiting && Apart(lists, Elems(all)) && Loose(lists, t)
      requires FlagsBut(all, system, t)
      modifies this`taskcount, this`nalltask, this`all, this`system, alltask, all`alltaskslot
      ensures RegistryOk() && FlagsOk() && Apart(lists, Elems(all)) && t !in all
      ensures all == SwapDelete(old(all), IndexOf(old(all), t)) && system == old(system) - {t}
      ensures taskcount == if t in old(system) then old(taskcount) else old(taskcount) - 1
    {
      hide *;
      SoundParts();
      SystemFlag(all, system, t);
      if !t.system { taskcount := taskcount - 1; }
      NoTwice();
      ghost var rest := SwapDelete(all, IndexOf(all, t));
      Narrow(lists, all, system, IndexOf(all, t));
      assert Apart(lists, Elems(rest));
      Unregister(t);
      assert Apart(lists, Elems(rest));
      DropFlags(old(all), all, system, t);
      system := system - {t};
      SoundParts();
    }
  }
}
