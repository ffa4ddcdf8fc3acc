/** The timer and poll task of fd.c over the shared lists, refining FdSpec. */
module Poller {
  import opened Util
  import opened SchedSpec
  import opened Lists
  import opened Kernel
  import opened FdSpec
  import opened FdProofs

  datatype PollFd = PollFd(fd: int, events: int, revents: int)

  ghost function SleepersOf(s: seq<Task>): (r: seq<Sleeper<Task>>)
    reads s`alarmtime
    ensures |r| == |s| && forall i :: 0 <= i < |s| ==> r[i] == Sleeper(s[i], s[i].alarmtime)
  {
    if s == [] then [] else [Sleeper(s[0], s[0].alarmtime)] + SleepersOf(s[1..])
  }

  function SlotAt(t: Task?, p: PollFd): Slot<Task>
    requires t != null
  {
    var u: Task := t;
    Slot(u, p.fd, p.events, p.revents)
  }

  /** The first `n` positions of the parallel arrays. */
  ghost function SlotsOf(polltask: seq<Task?>, pollfd: seq<PollFd>, n: nat): (r: seq<Slot<Task>>)
    requires n <= |polltask| && n <= |pollfd| && forall i :: 0 <= i < n ==> polltask[i] != null
    ensures |r| == n && forall i :: 0 <= i < n ==> r[i] == SlotAt(polltask[i], pollfd[i])
  {
    seq(n, i requires 0 <= i < n => SlotAt(polltask[i], pollfd[i]))
  }

  class Poller {
    const sleeping: Tasklist
    const pollfd: array<PollFd>
    const polltask: array<Task?>
    var npollfd: nat
    var sleepingcounted: int
    var startedfdtask: bool

    constructor (k: Kernel)
      requires k.Valid()
      modifies k`lists
      ensures k.Valid() && fresh(sleeping) && fresh(pollfd) && fresh(polltask) && k.Abs() == old(k.Abs())
      ensures k.lists == old(k.lists) + {sleeping} && In(k) && TableOk() && Abs() == Fd([], 0, [], false)
    {
      sleeping := new Tasklist();
      pollfd := new PollFd[MaxFd](i => PollFd(0, 0, 0));
      polltask := new Task?[MaxFd];
      npollfd, sleepingcounted, startedfdtask := 0, 0, false;
      new;
      hide Tasklist.Valid;
      k.AddList(sleeping);
    }

    ghost predicate In(k: Kernel)
      reads k`lists, k`alltask
    {
      sleeping in k.lists && sleeping != k.runq && polltask != k.alltask
    }

    ghost predicate TableOk()
      reads this`npollfd, polltask
    {
      && npollfd <= pollfd.Length == polltask.Length == MaxFd
      && forall i :: 0 <= i < npollfd ==> polltask[i] != null
    }

    ghost function Slots(): seq<Slot<Task>>
      requires TableOk()
      reads this`npollfd, polltask, pollfd
    {
      SlotsOf(polltask[..], pollfd[..], npollfd)
    }

    ghost function Abs(): Fd<Task>
      requires TableOk()
      reads this, polltask, pollfd, sleeping, sleeping.elems`alarmtime
    {
      Fd(SleepersOf(sleeping.elems), sleepingcounted, Slots(), startedfdtask)
    }

    // ---- taskdelay ----

    /** The search loop of taskdelay: the first sleeper that is due no earlier than `when`. */
    method Find(k: Kernel, when: nat) returns (t: Task?, ghost i: nat)
      requires k.Sound() && In(k)
      ensures i == InsertPos(SleepersOf(sleeping.elems), when)
      ensures i <= |sleeping.elems| && t == if i == |sleeping.elems| then null else sleeping.elems[i]
      ensures if t == null then forall u :: u in sleeping.elems ==> u.alarmtime < when
              else t in sleeping.elems && when <= t.alarmtime
    {
      SleepingLinks(k);
      hide *;
      ghost var s := SleepersOf(sleeping.elems);
      t, i := sleeping.head, 0;
      while t != null && t.alarmtime < when
        invariant i <= |sleeping.elems| && t == if i == |sleeping.elems| then null else sleeping.elems[i]
        invariant forall j :: 0 <= j < i ==> s[j].alarm < when
        decreases |sleeping.elems| - i
      {
        t, i := t.next, i + 1;
      }
      PosIs(s, when, i);
    }

    lemma SleepingLinks(k: Kernel)
      requires k.Sound() && In(k)
      ensures sleeping.head == if sleeping.elems == [] then null else sleeping.elems[0]
      ensures forall i :: 0 <= i < |sleeping.elems| ==>
                sleeping.elems[i].next == if i + 1 == |sleeping.elems| then null else sleeping.elems[i + 1]
    {
    }

    lemma PosIs(s: seq<Sleeper<Task>>, when: nat, i: nat)
      requires i <= |s| && (forall j :: 0 <= j < i ==> s[j].alarm < when) && (i < |s| ==> when <= s[i].alarm)
      ensures InsertPos(s, when) == i
    {
    }

    /** taskdelay and fdwait start fdtask on first use. */
    method StartFdTask(k: Kernel)
      requires k.Valid() && In(k) && TableOk()
      modifies this`startedfdtask, k`taskcount, k`taskidgen, k`alltask, k`nalltask, k`all, k.alltask
      modifies k.runq, k.runq.elems`next, k.runq.elems`prev
      ensures k.Valid() && startedfdtask && TableOk() && In(k)
      ensures old(startedfdtask) ==> k.Abs() == old(k.Abs())
      ensures !old(startedfdtask) ==> |k.all| > 0 && k.Abs() == Create(old(k.Abs()), k.all[|k.all| - 1])
      ensures !old(startedfdtask) ==> fresh(k.all[|k.all| - 1]) && k.all[|k.all| - 1] !in old(k.all)
    {
      if !startedfdtask {
        startedfdtask := true;
        var t := k.TaskCreate();
        CreateAll(old(k.Abs()), t);
      }
    }

    /** The same while tasks wait in the poll table. */
    method StartFdWaiting(k: Kernel)
      requires k.Valid() && In(k) && Waiting(k) && TableOk()
      modifies this`startedfdtask, k`taskcount, k`taskidgen, k`alltask, k`nalltask, k`all, k.alltask
      modifies k.runq, k.runq.elems`next, k.runq.elems`prev
      ensures k.Valid() && startedfdtask && TableOk() && In(k) && Waiting(k)
      ensures old(startedfdtask) ==> k.Abs() == old(k.Abs())
      ensures !old(startedfdtask) ==> |k.all| > 0 && k.Abs() == Create(old(k.Abs()), k.all[|k.all| - 1])
      ensures !old(startedfdtask) ==> fresh(k.all[|k.all| - 1]) && k.all[|k.all| - 1] !in old(k.all)
    {
      hide *;
      SleepingLoose(k);
      k.ListsExist();
      k.AbsIs();
      TableSize();
      WaitersLive(k);
      ghost var s := k.Abs();
      StartFdTask(k);
      k.AbsIs();
      if !old(startedfdtask) {
        ghost var t := k.all[|k.all| - 1];
        CreatedIs(s, t);
        assert forall i :: 0 <= i < npollfd ==> polltask[i] == old(polltask[i]);
        StillWaiting(k, {t});
      } else {
        StillWaiting(k, {});
      }
    }

    /** The tasks in the table are registered. */
    lemma WaitersLive(k: Kernel)
      requires Waiting(k)
      ensures forall i :: 0 <= i < npollfd ==> polltask[i] in k.all
    {
    }

    lemma CreatedIs(s: Sched<Task>, t: Task)
      ensures var s' := Create(s, t); s'.all == s.all + [t] && s'.runq == s.runq + [t] && s'.running == s.running
    {
    }

    lemma CreateAll(s: Sched<Task>, t: Task)
      ensures Create(s, t).all == s.all + [t]
    {
    }

    /** The sleeper enters the list where the search stopped. */
    method Link(k: Kernel, when: nat)
      requires k.Valid() && k.running != null && In(k)
      modifies k.running`alarmtime, sleeping, sleeping.elems`next, sleeping.elems`prev, k.running`next, k.running`prev
      ensures k.Sound() && k.Abs() == old(k.Abs())
      ensures SleepersOf(sleeping.elems) == Insert(old(SleepersOf(sleeping.elems)), Sleeper(k.running, when))
      ensures forall u :: u in sleeping.elems ==> u in old(sleeping.elems) || u == k.running
    {
      hide *;
      SleepingLoose(k);
      k.SoundParts();
      var t, i := Find(k, when);
      ghost var s := sleeping.elems;
      ghost var before := SleepersOf(s);
      k.running.alarmtime := when;
      assert forall j :: 0 <= j < |s| ==> s[j].alarmtime == before[j].alarm;
      assert k.Valid() && k.Abs() == old(k.Abs());
      k.EnlistAt(sleeping, t, i);
      ghost var x: Sleeper<Task> := Sleeper(k.running, when);
      InsertIs(before, x);
      ghost var after := SleepersOf(sleeping.elems);
      assert after == before[..i] + [x] + before[i..];
    }

    lemma SleepingLoose(k: Kernel)
      requires k.Valid() && In(k)
      ensures sleeping in k.lists && sleeping != k.runq && polltask != k.alltask
      ensures k.running != null ==> k.running !in sleeping.elems
    {
    }

    lemma InsertIs(s: seq<Sleeper<Task>>, x: Sleeper<Task>)
      ensures var i := InsertPos(s, x.alarm); Insert(s, x) == s[..i] + [x] + s[i..]
    {
    }

    /** taskdelay from its search on, up to its task switch. */
    method EnterSleep(k: Kernel, when: nat)
      requires k.Valid() && k.running != null && In(k) && TableOk()
      modifies this`sleepingcounted, k`taskcount, k`running, k.running`alarmtime
      modifies sleeping, sleeping.elems`next, sleeping.elems`prev, k.running`next, k.running`prev
      ensures k.Valid() && TableOk()
      ensures var (f, s) := Delay(old(Abs()), old(k.Abs()), old(k.running), when); Abs() == f && k.Abs() == Switch(s)
      ensures forall u :: u in sleeping.elems ==> u in old(sleeping.elems) || u == old(k.running)
    {
      hide *;
      var me := k.running;
      ghost var f, s := Abs(), k.Abs();
      AbsIs();
      k.AbsIs();
      k.SoundParts();
      Link(k, when);
      assert k.Abs() == s && Slots() == f.slots;
      CountSleeper(k, me);
      AbsIs();
      DelayIs(f, s, me, when);
      k.SwitchOut();
    }

    /** The same while tasks wait in the poll table. */
    method EnterSleepWaiting(k: Kernel, when: nat)
      requires k.Valid() && k.running != null && In(k) && Waiting(k) && TableOk()
      modifies this`sleepingcounted, k`taskcount, k`running, k.running`alarmtime
      modifies sleeping, sleeping.elems`next, sleeping.elems`prev, k.running`next, k.running`prev
      ensures k.Valid() && TableOk() && Waiting(k)
      ensures var (f, s) := Delay(old(Abs()), old(k.Abs()), old(k.running), when); Abs() == f && k.Abs() == Switch(s)
    {
      hide *;
      WaitersAwake(k);
      SleepingLoose(k);
      k.ListsExist();
      k.AbsIs();
      TableSize();
      ghost var me: Task, f, s := k.running, Abs(), k.Abs();
      DelaySched(f, s, me, when);
      EnterSleep(k, when);
      k.AbsIs();
      SwitchIs(Delay(f, s, me, when).1);
      assert forall i :: 0 <= i < npollfd ==> polltask[i] == old(polltask[i]);
      StillWaiting(k, {me});
    }

    lemma DelaySched(f: Fd<Task>, s: Sched<Task>, me: Task, when: nat)
      ensures Delay(f, s, me, when).1.all == s.all
    {
    }

    lemma SwitchIs(s: Sched<Task>)
      ensures Switch(s) == s.(running := None)
    {
    }

    /** A non-system sleeper counts, and the first one counts as a task of its own. */
    method CountSleeper(k: Kernel, me: Task)
      requires k.Sound() && me in k.all
      modifies this`sleepingcounted, k`taskcount
      ensures k.Sound()
      ensures sleepingcounted == if me in k.system then old(sleepingcounted) else old(sleepingcounted) + 1
      ensures k.Abs() == if me !in k.system && old(sleepingcounted) == 0
                         then old(k.Abs()).(count := old(k.taskcount) + 1) else old(k.Abs())
    {
      hide *;
      SystemFlagOf(k, me);
      if !me.system {
        if sleepingcounted == 0 { k.AddCount(1); }
        sleepingcounted := sleepingcounted + 1;
      }
    }

    lemma AbsIs()
      requires TableOk()
      ensures Abs() == Fd(SleepersOf(sleeping.elems), sleepingcounted, Slots(), startedfdtask)
    {
    }

    lemma SystemFlagOf(k: Kernel, t: Task)
      requires k.Sound() && t in k.all
      ensures t.system <==> t in k.system
    {
    }

    lemma DelayIs(f: Fd<Task>, s: Sched<Task>, me: Task, when: nat)
      ensures Delay(f, s, me, when) ==
              (f.(sleeping := Insert(f.sleeping, Sleeper(me, when)),
                  counted := if me in s.system then f.counted else f.counted + 1),
               if me !in s.system && f.counted == 0 then s.(count := s.count + 1) else s)
    {
    }

    /** taskdelay up to its task switch, with the clock read at `now`. */
    method TaskDelay(k: Kernel, ms: nat, now: nat)
      requires k.Valid() && k.running != null && In(k) && Waiting(k) && TableOk()
      modifies this`startedfdtask, k`taskidgen, k`alltask, k`nalltask, k`all, k.alltask
      modifies k.runq, k.runq.elems`next, k.runq.elems`prev
      modifies this`sleepingcounted, k`taskcount, k`running, k.running`alarmtime
      modifies sleeping, sleeping.elems`next, sleeping.elems`prev, k.running`next, k.running`prev
      ensures k.Valid() && TableOk() && Waiting(k)
      ensures old(startedfdtask) ==>
                var (f, s) := Delay(old(Abs()), old(k.Abs()), old(k.running), now + ms * NsPerMs);
                Abs() == f && k.Abs() == Switch(s)
      ensures !old(startedfdtask) ==>
                |k.all| > 0 &&
                var s0 := Create(old(k.Abs()), k.all[|k.all| - 1]);
                var (f, s) := Delay(old(Abs()).(started := true), s0, old(k.running), now + ms * NsPerMs);
                Abs() == f && k.Abs() == Switch(s)
    {
      hide *;
      AbsIs();
      SleepingLoose(k);
      StartFdWaiting(k);
      assert Slots() == old(Slots()) && SleepersOf(sleeping.elems) == old(SleepersOf(sleeping.elems));
      AbsIs();
      EnterSleepWaiting(k, now + ms * NsPerMs);
    }

    // ---- The loop that readies the sleepers whose alarm has passed ----

    lemma WakeFirstIs(f: Fd<Task>, s: Sched<Task>)
      requires f.sleeping != []
      ensures var t := f.sleeping[0].t;
              var n := if t in s.system then f.counted else f.counted - 1;
              WakeFirst(f, s) ==
                (f.(sleeping := f.sleeping[1..], counted := n),
                 ReadyAll(s.(count := if t !in s.system && n == 0 then s.count - 1 else s.count), [t]))
    {
    }

    /** A sleeper that wakes stops counting, and so does the extra task with the last one. */
    method UncountSleeper(k: Kernel, t: Task)
      requires k.Sound() && t in k.all
      modifies this`sleepingcounted, k`taskcount
      ensures k.Sound() && (old(k.Valid()) ==> k.Valid())
      ensures sleepingcounted == if t in k.system then old(sleepingcounted) else old(sleepingcounted) - 1
      ensures k.Abs() == if t !in k.system && sleepingcounted == 0
                         then old(k.Abs()).(count := old(k.taskcount) - 1) else old(k.Abs())
    {
      hide *;
      SystemFlagOf(k, t);
      if !t.system {
        sleepingcounted := sleepingcounted - 1;
        if sleepingcounted == 0 { k.AddCount(-1); }
      }
    }

    /** The first sleeper leaves the list and stops counting. */
    method DropFirstSleeper(k: Kernel) returns (t: Task)
      requires k.Valid() && In(k) && sleeping.elems != []
      modifies this`sleepingcounted, k`taskcount, sleeping, sleeping.elems`next, sleeping.elems`prev
      ensures k.Valid() && t == old(sleeping.elems[0]) && t in k.all && t != k.running && Loose(k.lists, t)
      ensures sleeping.elems == old(sleeping.elems[1..])
      ensures SleepersOf(sleeping.elems) == old(SleepersOf(sleeping.elems))[1..]
      ensures sleepingcounted == if t in k.system then old(sleepingcounted) else old(sleepingcounted) - 1
      ensures k.Abs() == if t !in k.system && sleepingcounted == 0
                         then old(k.Abs()).(count := old(k.taskcount) - 1) else old(k.Abs())
    {
      hide *;
      k.SoundParts();
      SleepingLoose(k);
      k.HeadOf(sleeping);
      t := sleeping.head;
      ghost var was := sleeping.elems;
      SleepersTail(was);
      k.Unlist(sleeping, t);
      assert t in was;
      UncountSleeper(k, t);
    }

    /** Ready the first sleeper. */
    method WakeOne(k: Kernel)
      requires k.Valid() && In(k) && TableOk() && sleeping.elems != []
      modifies this`sleepingcounted, k`taskcount, sleeping, sleeping.elems`next, sleeping.elems`prev, sleeping.elems`ready
      modifies k.runq, k.runq.elems`next, k.runq.elems`prev
      ensures k.Valid() && TableOk() && sleeping.elems == old(sleeping.elems[1..])
      ensures k.runq.elems == old(k.runq.elems) + [old(sleeping.elems[0])]
      ensures (Abs(), k.Abs()) == WakeFirst(old(Abs()), old(k.Abs()))
    {
      hide *;
      ghost var f, s := Abs(), k.Abs();
      AbsIs();
      k.AbsIs();
      SleepersTail(sleeping.elems);
      SleepingLoose(k);
      var t := DropFirstSleeper(k);
      assert Slots() == f.slots;
      ghost var s1 := k.Abs();
      k.SoundParts();
      k.AbsIs();
      k.TaskReady(t);
      AbsIs();
      k.AbsIs();
      k.ReadyIs(s1, t);
      WakeFirstIs(f, s);
    }

    lemma SleepersTail(s: seq<Task>)
      requires s != []
      ensures SleepersOf(s[1..]) == SleepersOf(s)[1..] && SleepersOf(s)[0].t == s[0]
    {
    }

    lemma WakeStep(f: Fd<Task>, s: Sched<Task>, now: nat)
      ensures f.sleeping == [] || now < f.sleeping[0].alarm ==> WakeSleepers(f, s, now) == (f, s)
      ensures f.sleeping != [] && f.sleeping[0].alarm <= now ==>
                WakeSleepers(f, s, now) == WakeSleepers(WakeFirst(f, s).0, WakeFirst(f, s).1, now)
    {
    }

    /** The head of the list of sleepers, as a pointer and as a value. */
    lemma HeadIs(k: Kernel)
      requires k.Valid() && In(k)
      ensures sleeping.head == if sleeping.elems == [] then null else sleeping.elems[0]
      ensures |SleepersOf(sleeping.elems)| == |sleeping.elems|
      ensures sleeping.head != null ==> SleepersOf(sleeping.elems)[0].alarm == sleeping.head.alarmtime
    {
      k.HeadOf(sleeping);
    }

    method WakeAll(k: Kernel, now: nat)
      requires k.Valid() && In(k) && TableOk()
      modifies this`sleepingcounted, k`taskcount, sleeping, sleeping.elems`next, sleeping.elems`prev, sleeping.elems`ready
      modifies k.runq, k.runq.elems`next, k.runq.elems`prev
      ensures k.Valid() && TableOk()
      ensures (Abs(), k.Abs()) == WakeSleepers(old(Abs()), old(k.Abs()), now)
      ensures forall u :: u in sleeping.elems ==> u in old(sleeping.elems)
      ensures forall u :: u in k.runq.elems ==> u in old(k.runq.elems) || u in old(sleeping.elems)
    {
      hide *;
      ghost var sleepers, f, s, runq := sleeping.elems, Abs(), k.Abs(), k.runq.elems;
      ghost var n := 0;
      assert sleepers[..0] == [];
      while sleeping.head != null && now >= sleeping.head.alarmtime
        invariant k.Valid() && In(k) && TableOk() && n <= |sleepers|
        invariant sleeping.elems == sleepers[n..] && k.runq.elems == runq + sleepers[..n]
        invariant WakeSleepers(Abs(), k.Abs(), now) == WakeSleepers(f, s, now)
        decreases |sleepers| - n
      {
        AbsIs();
        HeadIs(k);
        WakeStep(Abs(), k.Abs(), now);
        Among(runq, sleepers, n);
        WakeOne(k);
        n := n + 1;
      }
      AbsIs();
      HeadIs(k);
      WakeStep(Abs(), k.Abs(), now);
      Among(runq, sleepers, n);
    }

    /** Where the tasks are while the list of sleepers is being emptied into the run queue. */
    lemma Among(runq: seq<Task>, sleepers: seq<Task>, n: nat)
      requires n <= |sleepers|
      ensures forall u :: u in runq + sleepers[..n] ==> u in runq || u in sleepers
      ensures forall u :: u in sleepers[n..] ==> u in sleepers
    {
    }

    lemma ListOf(s: seq<Task>)
      ensures forall u :: u in Elems(s) <==> u in s
    {
    }

    /** The same while tasks wait in the poll table. */
    method WakeAllWaiting(k: Kernel, now: nat)
      requires k.Valid() && In(k) && Waiting(k) && TableOk()
      modifies this`sleepingcounted, k`taskcount, sleeping, sleeping.elems`next, sleeping.elems`prev, sleeping.elems`ready
      modifies k.runq, k.runq.elems`next, k.runq.elems`prev
      ensures k.Valid() && TableOk() && Waiting(k)
      ensures (Abs(), k.Abs()) == WakeSleepers(old(Abs()), old(k.Abs()), now)
    {
      hide *;
      WaitersAwake(k);
      SleepingLoose(k);
      k.ListsExist();
      ghost var sleepers := sleeping.elems;
      ListOf(sleepers);
      TableSize();
      WakeAll(k, now);
      assert forall i :: 0 <= i < npollfd ==> polltask[i] == old(polltask[i]);
      assert forall i :: 0 <= i < npollfd ==> polltask[i] !in sleepers;
      assert forall i :: 0 <= i < npollfd && polltask[i] != null ==> polltask[i] !in Elems(sleepers);
      StillWaiting(k, Elems(sleepers));
    }

    // ---- poll ----

    /** The timeout computed from the head of the list. */
    method PollTimeout(k: Kernel, now: nat) returns (ms: int)
      requires k.Valid() && In(k)
      ensures ms == Timeout(SleepersOf(sleeping.elems), now) && (ms == -1 <==> sleeping.elems == [])
    {
      HeadIs(k);
      hide Linked; hide Apart;
      var t := sleeping.head;
      if t == null { return -1; }
      if now >= t.alarmtime {
        ms := 0;
      } else if now + 5 * 1000 * 1000 * 1000 >= t.alarmtime {
        ms := (t.alarmtime - now) / 1000000;
      } else {
        ms := 5000;
      }
    }

    // ---- The poll table ----

    /** Every task in the table is live, there once, in no list, and not running. */
    ghost predicate Waiting(k: Kernel)
      reads this`npollfd, polltask, k`all, k`lists, k`running, k.lists
    {
      && TableOk()
      && (forall i :: 0 <= i < npollfd ==>
            polltask[i] in k.all && polltask[i] != k.running && Loose(k.lists, polltask[i]))
      && (forall i, j :: 0 <= i < j < npollfd ==> polltask[i] != polltask[j])
    }

    /** The table is still right when only `movers`, none of them in it, have changed lists. */
    twostate lemma StillWaiting(k: Kernel, new movers: set<Task>)
      requires old(Waiting(k)) && npollfd == old(npollfd) && unchanged(polltask)
      requires forall i :: 0 <= i < npollfd && polltask[i] != null ==> polltask[i] !in movers
      requires k.lists == old(k.lists) && forall x :: x in old(k.all) ==> x in k.all
      requires k.running == null || k.running == old(k.running)
      requires forall l, x :: l in k.lists && x in l.elems ==> x in old(l.elems) || x in movers
      ensures Waiting(k)
    {
      hide Loose;
      forall i | 0 <= i < npollfd
        ensures polltask[i] in k.all && polltask[i] != k.running && Loose(k.lists, polltask[i])
      {
        k.StillIdle(polltask[i], movers);
      }
    }

    /** Nobody in the table sleeps. */
    lemma WaitersAwake(k: Kernel)
      requires Waiting(k) && In(k)
      ensures forall i :: 0 <= i < npollfd ==> polltask[i] !in sleeping.elems && polltask[i] != k.running
    {
    }

    /** fdwait from its table check on, up to its task switch; false stands for its abort. */
    method EnterTable(k: Kernel, fd: int, rw: char) returns (ok: bool)
      requires k.Valid() && k.running != null && In(k) && Waiting(k)
      modifies this`npollfd, pollfd, polltask, k`running
      ensures ok <==> |old(Slots())| < MaxFd
      ensures k.Valid() && Waiting(k)
      ensures !ok ==> Slots() == old(Slots()) && k.Abs() == old(k.Abs())
      ensures ok ==> Slots() == old(Slots()) + [Slot(old(k.running), fd, Bits(rw), 0)] && k.Abs() == Switch(old(k.Abs()))
      ensures ok ==> npollfd == old(npollfd) + 1 <= 1024 && polltask[old(npollfd)] == old(k.running)
      ensures ok ==> pollfd[old(npollfd)].fd == fd && pollfd[old(npollfd)].revents == 0
      ensures ok ==> (rw == 'r' ==> pollfd[old(npollfd)].events == PollIn)
                     && (rw == 'w' ==> pollfd[old(npollfd)].events == PollOut)
                     && (rw != 'r' && rw != 'w' ==> pollfd[old(npollfd)].events == 0)
    {
      if npollfd >= MaxFd { return false; }
      ghost var was := Slots();
      var bits := 0;
      match rw {
        case 'r' => bits := PollIn;
        case 'w' => bits := PollOut;
        case _ =>
      }
      AddSlot(k.running, PollFd(fd, bits, 0));
      hide Slots; hide SlotsOf; hide Apart; hide Linked;
      k.SwitchOut();
      ok := true;
    }

    /** fdwait up to its task switch, with fdtask started on first use. */
    method FdWait(k: Kernel, fd: int, rw: char) returns (ok: bool)
      requires k.Valid() && k.running != null && In(k) && Waiting(k) && TableOk()
      modifies this`startedfdtask, k`taskcount, k`taskidgen, k`alltask, k`nalltask, k`all, k.alltask
      modifies k.runq, k.runq.elems`next, k.runq.elems`prev
      modifies this`npollfd, pollfd, polltask, k`running
      ensures k.Valid() && Waiting(k) && startedfdtask && (ok <==> |old(Slots())| < MaxFd)
      ensures old(startedfdtask) ==> k.Abs() == if ok then Switch(old(k.Abs())) else old(k.Abs())
      ensures !old(startedfdtask) ==>
                |k.all| > 0 && fresh(k.all[|k.all| - 1]) &&
                var s0 := Create(old(k.Abs()), k.all[|k.all| - 1]);
                k.Abs() == if ok then Switch(s0) else s0
      ensures !ok ==> Slots() == old(Slots())
      ensures ok ==>
                && |Slots()| == |old(Slots())| + 1 && Slots()[..|old(Slots())|] == old(Slots())
                && var x := Slots()[|old(Slots())|];
                   x.t == old(k.running) && x.fd == fd && x.revents == 0
                   && x.events == (if rw == 'r' then PollIn else if rw == 'w' then PollOut else 0)
    {
      hide *;
      AbsIs();
      SleepingLoose(k);
      StartFdWaiting(k);
      assert Slots() == old(Slots());
      BitsAre(rw);
      ok := EnterTable(k, fd, rw);
    }

    lemma BitsAre(rw: char)
      ensures Bits(rw) == if rw == 'r' then PollIn else if rw == 'w' then PollOut else 0
    {
    }

    method AddSlot(t: Task, p: PollFd)
      requires TableOk() && npollfd < MaxFd
      modifies this`npollfd, pollfd, polltask
      ensures TableOk() && npollfd == old(npollfd) + 1 && Slots() == old(Slots()) + [SlotAt(t, p)]
      ensures pollfd[old(npollfd)] == p && polltask[old(npollfd)] == t && forall i :: 0 <= i < old(npollfd) ==> polltask[i] == old(polltask[i])
    {
      polltask[npollfd] := t;
      pollfd[npollfd] := p;
      npollfd := npollfd + 1;
    }

    /** Drop position `i`: the last position is copied over it, in both arrays. */
    method DropSlot(i: nat)
      requires TableOk() && i < npollfd
      modifies this`npollfd, pollfd, polltask
      ensures TableOk() && npollfd == old(npollfd) - 1 && Slots() == SwapDelete(old(Slots()), i)
      ensures forall j :: 0 <= j < npollfd ==> polltask[j] == old(if j == i then polltask[npollfd - 1] else polltask[j])
    {
      npollfd := npollfd - 1;
      pollfd[i] := pollfd[npollfd];
      polltask[i] := polltask[npollfd];
    }

    /** Ready the task at position `i`, and drop the position. */
    method ReadySlot(k: Kernel, i: nat, t: Task)
      requires k.Valid() && In(k) && Waiting(k) && i < npollfd && t == polltask[i]
      modifies this`npollfd, pollfd, polltask
      modifies k.runq, k.runq.elems`next, k.runq.elems`prev, t`next, t`prev, t`ready
      ensures k.Valid() && Waiting(k) && TableOk() && Slots() == SwapDelete(old(Slots()), i)
      ensures npollfd == old(npollfd) - 1
      ensures k.Abs() == ReadyAll(old(k.Abs()), [t])
      ensures k.runq.elems == old(k.runq.elems) + [t]
    {
      hide Slots; hide SlotsOf; hide Apart; hide Linked; hide SwapDelete;
      k.TaskReady(t);
      DropSlot(i);
    }

    lemma SlotIs(i: nat)
      requires TableOk() && i < npollfd
      ensures |Slots()| == npollfd && Slots()[i].t == polltask[i] && Slots()[i].revents == pollfd[i].revents
    {
    }

    lemma SweepStep(slots: seq<Slot<Task>>, i: nat)
      ensures i >= |slots| ==> Sweep(slots, i) == (slots, [])
      ensures i < |slots| && slots[i].revents == 0 ==> Sweep(slots, i) == Sweep(slots, i + 1)
      ensures i < |slots| && slots[i].revents != 0 ==>
                var (kept, gone) := Sweep(SwapDelete(slots, i), i);
                Sweep(slots, i) == (kept, [slots[i]] + gone)
    {
    }

    /** Where the loops stand: what is left to do, and what has been done to the scheduler. */
    ghost predicate Swept(k: Kernel, slots: seq<Slot<Task>>, s: Sched<Task>, i: nat, gone: seq<Slot<Task>>)
      requires TableOk()
      reads this`npollfd, polltask, pollfd, k, k.runq
    {
      && Sweep(slots, 0) == (Sweep(Slots(), i).0, gone + Sweep(Slots(), i).1)
      && k.Abs() == ReadyAll(s, Polled(gone)) && k.runq.elems == s.runq + Polled(gone)
    }

    lemma SweptMore(s: Sched<Task>, gone: seq<Slot<Task>>, x: Slot<Task>)
      ensures ReadyAll(ReadyAll(s, Polled(gone)), [x.t]) == ReadyAll(s, Polled(gone + [x]))
      ensures s.runq + Polled(gone) + [x.t] == s.runq + Polled(gone + [x])
    {
      assert Polled(gone + [x]) == Polled(gone) + [x.t];
      assert s.runq + Polled(gone) + [x.t] == s.runq + Polled(gone + [x]);
    }

    lemma SweptIs(k: Kernel, slots: seq<Slot<Task>>, s: Sched<Task>, i: nat, gone: seq<Slot<Task>>)
      requires TableOk()
      ensures Swept(k, slots, s, i, gone) <==>
                && Sweep(slots, 0) == (Sweep(Slots(), i).0, gone + Sweep(Slots(), i).1)
                && k.Abs() == ReadyAll(s, Polled(gone)) && k.runq.elems == s.runq + Polled(gone)
    {
    }

    lemma WaitingIs(k: Kernel, i: nat)
      requires Waiting(k) && i < npollfd
      ensures TableOk() && i < npollfd <= polltask.Length == pollfd.Length && polltask[i] != null
    {
    }

    /** One turn of the inner loop. */
    method SweepOne(k: Kernel, i: nat, ghost slots: seq<Slot<Task>>, ghost s: Sched<Task>, ghost gone: seq<Slot<Task>>)
        returns (ghost gone': seq<Slot<Task>>)
      requires k.Valid() && In(k) && Waiting(k) && i < npollfd && pollfd[i].revents != 0
      requires Swept(k, slots, s, i, gone)
      modifies this`npollfd, pollfd, polltask, k.runq, k.runq.elems`next, k.runq.elems`prev
      modifies Polled(Slots())`next, Polled(Slots())`prev, Polled(Slots())`ready
      ensures k.Valid() && Waiting(k) && TableOk() && Swept(k, slots, s, i, gone') && npollfd == old(npollfd) - 1
      ensures gone' == gone + [old(Slots()[i])]
      ensures Slots() == SwapDelete(old(Slots()), i)
    {
      hide *;
      WaitingIs(k, i);
      SlotIs(i);
      ghost var was, x := Slots(), Slots()[i];
      SweptIs(k, slots, s, i, gone);
      SweepStep(was, i);
      SweptMore(s, gone, x);
      gone' := gone + [x];
      var t := polltask[i];
      assert Polled(was)[i] == t;
      ReadySlot(k, i, t);
      assert gone + ([x] + Sweep(Slots(), i).1) == gone' + Sweep(Slots(), i).1;
      SweptIs(k, slots, s, i, gone');
    }

    lemma TableSize()
      requires TableOk()
      ensures npollfd <= pollfd.Length == polltask.Length
    {
    }

    lemma SweepStart(k: Kernel)
      requires Waiting(k)
      ensures TableOk() && Swept(k, Slots(), k.Abs(), 0, [])
    {
      assert Polled<Task>([]) == [];
      assert k.runq.elems + [] == k.runq.elems;
      assert [] + Sweep(Slots(), 0).1 == Sweep(Slots(), 0).1;
    }

    lemma SweepEnd(k: Kernel, slots: seq<Slot<Task>>, s: Sched<Task>, i: nat, gone: seq<Slot<Task>>)
      requires TableOk() && Swept(k, slots, s, i, gone) && i >= npollfd
      ensures var (kept, out) := Sweep(slots, 0); Slots() == kept && gone == out && k.Abs() == ReadyAll(s, Polled(out))
    {
      SweepStep(Slots(), i);
    }

    lemma SweepSkip(k: Kernel, slots: seq<Slot<Task>>, s: Sched<Task>, i: nat, gone: seq<Slot<Task>>)
      requires TableOk() && Swept(k, slots, s, i, gone) && (i < npollfd ==> pollfd[i].revents == 0)
      ensures Swept(k, slots, s, i + 1, gone)
    {
      SweepStep(Slots(), i);
      SweepStep(Slots(), i + 1);
    }

    /** Tasks that are in the table now, or have been moved to the run queue, were in it at the start. */
    lemma Movers(runq: seq<Task>, names: seq<Task>, gone: seq<Slot<Task>>)
      requires forall x :: x in gone ==> x.t in names
      ensures forall u :: u in runq + Polled(gone) ==> u in runq || u in names
    {
      forall u | u in Polled(gone) ensures u in names {
        var j :| 0 <= j < |gone| && Polled(gone)[j] == u;
        assert gone[j] in gone;
      }
    }

    lemma StillNamed(slots: seq<Slot<Task>>, i: nat, names: seq<Task>)
      requires i < |slots| && forall u :: u in Polled(slots) ==> u in names
      ensures slots[i].t in names && forall u :: u in Polled(SwapDelete(slots, i)) ==> u in names
    {
      var d := SwapDelete(slots, i);
      assert Polled(slots)[i] in Polled(slots);
      forall u | u in Polled(d) ensures u in names {
        var j :| 0 <= j < |d| && Polled(d)[j] == u;
        assert d[j] == if j == i then slots[|slots| - 1] else slots[j];
        assert Polled(slots)[if j == i then |slots| - 1 else j] in Polled(slots);
      }
    }

    /** The compaction loops of fdtask after poll. */
    method SweepTable(k: Kernel)
      requires k.Valid() && In(k) && Waiting(k)
      modifies this`npollfd, pollfd, polltask, k.runq, k.runq.elems`next, k.runq.elems`prev
      modifies Polled(Slots())`next, Polled(Slots())`prev, Polled(Slots())`ready
      ensures k.Valid() && Waiting(k)
      ensures var (kept, gone) := Sweep(old(Slots()), 0);
              Slots() == kept && k.Abs() == ReadyAll(old(k.Abs()), Polled(gone))
    {
      hide *;
      SweepStart(k);
      ghost var slots, s, names, runq := Slots(), k.Abs(), Polled(Slots()), k.runq.elems;
      k.AbsIs();
      ghost var gone: seq<Slot<Task>> := [];
      var i := 0;
      while i < npollfd
        invariant k.Valid() && In(k) && Waiting(k) && TableOk() && Swept(k, slots, s, i, gone)
        invariant forall u :: u in Polled(Slots()) ==> u in names
        invariant forall x :: x in gone ==> x.t in names
        decreases npollfd - i
      {
        TableSize();
        ghost var n := npollfd;
        while i < npollfd && pollfd[i].revents != 0
          invariant k.Valid() && In(k) && Waiting(k) && TableOk() && Swept(k, slots, s, i, gone)
          invariant forall u :: u in Polled(Slots()) ==> u in names
          invariant forall x :: x in gone ==> x.t in names
          invariant npollfd <= n <= pollfd.Length
          decreases npollfd
        {
          SlotIs(i);
          StillNamed(Slots(), i, names);
          Movers(runq, names, gone);
          SweptIs(k, slots, s, i, gone);
          assert forall u :: u in k.runq.elems ==> u in runq || u in names;
          assert forall j :: 0 <= j < |k.runq.elems| ==> k.runq.elems[j] in runq || k.runq.elems[j] in names;
          assert forall j :: 0 <= j < |Polled(Slots())| ==> Polled(Slots())[j] in names;
          gone := SweepOne(k, i, slots, s, gone);
        }
        SweepSkip(k, slots, s, i, gone);
        i := i + 1;
      }
      SweepEnd(k, slots, s, i, gone);
    }

    /** What poll does to the table. */
    method SetEvents(rev: seq<int>)
      requires TableOk() && |rev| == npollfd
      modifies pollfd
      ensures TableOk() && Slots() == SetRevents(old(Slots()), rev)
    {
      var i := 0;
      while i < npollfd
        invariant i <= npollfd
        invariant forall j :: 0 <= j < i ==> pollfd[j] == old(pollfd[j]).(revents := rev[j])
        invariant forall j :: i <= j < npollfd ==> pollfd[j] == old(pollfd[j])
      {
        pollfd[i] := pollfd[i].(revents := rev[i]);
        i := i + 1;
      }
      assert Slots() == SetRevents(old(Slots()), rev);
    }

    lemma NamesKept(slots: seq<Slot<Task>>, rev: seq<int>)
      requires |rev| == |slots|
      ensures Polled(SetRevents(slots, rev)) == Polled(slots)
    {
    }

    lemma SweptNames(slots: seq<Slot<Task>>)
      ensures forall u :: u in Polled(Sweep(slots, 0).1) ==> u in Polled(slots)
    {
      SweepIsExact(slots, 0);
      var gone := Sweep(slots, 0).1;
      forall u | u in Polled(gone) ensures u in Polled(slots) {
        var j :| 0 <= j < |gone| && Polled(gone)[j] == u;
        assert gone[j] in multiset(slots);
        var i :| 0 <= i < |slots| && slots[i] == gone[j];
        assert Polled(slots)[i] == u;
      }
    }

    /** poll reports `rev`, and the tasks with events are readied. */
    method SweepEvents(k: Kernel, rev: seq<int>)
      requires k.Valid() && In(k) && Waiting(k) && |rev| == npollfd
      modifies this`npollfd, pollfd, polltask, k.runq, k.runq.elems`next, k.runq.elems`prev
      modifies Polled(Slots())`next, Polled(Slots())`prev, Polled(Slots())`ready
      ensures k.Valid() && TableOk() && Waiting(k) && |rev| == |old(Slots())|
      ensures var (kept, gone) := Sweep(SetRevents(old(Slots()), rev), 0);
              Slots() == kept && k.Abs() == ReadyAll(old(k.Abs()), Polled(gone))
      ensures forall u :: u in k.runq.elems ==> u in old(k.runq.elems) || u in old(Polled(Slots()))
    {
      hide *;
      SweepStart(k);
      TableSize();
      k.AbsIs();
      ghost var slots, s := Slots(), k.Abs();
      SlotCount();
      SetEvents(rev);
      NamesKept(slots, rev);
      ghost var gone := Sweep(Slots(), 0).1;
      SweptNames(Slots());
      assert k.Valid() && Waiting(k) && k.Abs() == s;
      SweepTable(k);
      SweepStart(k);
      k.AbsIs();
      RunqOf(s, Polled(gone));
    }

    /** The part of fdtask's loop from poll on, where poll reports `rev` and the clock then reads `now`. */
    method PollPass(k: Kernel, rev: seq<int>, now: nat)
      requires k.Valid() && In(k) && Waiting(k) && |rev| == npollfd
      modifies this`npollfd, this`sleepingcounted, pollfd, polltask, k`taskcount
      modifies k.runq, k.runq.elems`next, k.runq.elems`prev
      modifies Polled(Slots())`next, Polled(Slots())`prev, Polled(Slots())`ready
      modifies sleeping, sleeping.elems`next, sleeping.elems`prev, sleeping.elems`ready
      ensures k.Valid() && TableOk() && Waiting(k) && |rev| == |old(Slots())|
      ensures var (kept, gone) := Sweep(SetRevents(old(Slots()), rev), 0);
              (Abs(), k.Abs()) ==
                WakeSleepers(old(Abs()).(slots := kept), ReadyAll(old(k.Abs()), Polled(gone)), now)
      ensures EventsLeave(old(Slots()), rev, Slots()) && old(k.runq.elems) <= k.runq.elems
      ensures forall i :: 0 <= i < |rev| && rev[i] != 0 ==> old(Slots())[i].t in k.runq.elems
      ensures old(Sorted(Abs().sleeping)) ==>
                var (f, q) := (old(Abs()), k.runq.elems);
                && DueLeave(f.sleeping, now, Abs().sleeping)
                && (forall i :: 0 <= i < |f.sleeping| && f.sleeping[i].alarm <= now ==> f.sleeping[i].t in q)
                && (forall j :: 0 <= j < |q| ==> q[j] in old(k.runq.elems) || WokenBy(f, rev, now, q[j]))
    {
      hide *;
      SweepStart(k);
      PassSlots(k);
      k.AbsIs();
      PassDecides(Abs(), k.Abs(), rev, now);
      SleepingLoose(k);
      AbsIs();
      ghost var runq, names, sleepers := k.runq.elems, Polled(Slots()), sleeping.elems;
      SweepEvents(k, rev);
      assert sleeping.elems == sleepers;
      assert forall i :: 0 <= i < |k.runq.elems| ==> k.runq.elems[i] in runq || k.runq.elems[i] in names;
      assert SleepersOf(sleeping.elems) == old(SleepersOf(sleeping.elems));
      AbsIs();
      WakeAllWaiting(k, now);
      k.AbsIs();
      AbsIs();
      TableSlots();
    }

    lemma PassSlots(k: Kernel)
      requires Waiting(k)
      ensures TableOk() && NoDup(Polled(Slots())) && Abs().slots == Slots() && |Slots()| == npollfd
    {
    }

    lemma TableSlots()
      requires TableOk()
      ensures Abs().slots == Slots()
    {
    }

    lemma SlotCount()
      requires TableOk()
      ensures |Slots()| == npollfd
    {
    }

    lemma RunqOf(s: Sched<Task>, us: seq<Task>)
      ensures ReadyAll(s, us) == s.(runq := s.runq + us)
      ensures forall u :: u in s.runq + us ==> u in s.runq || u in us
    {
    }
  }
}
