/** qlock.c and rendez.c over the shared lists, each method refining its function in LockSpec. */
module Locks {
  import opened Util
  import opened SchedSpec
  import opened Lists
  import opened Kernel
  import LS = LockSpec

  class QLock {
    var owner: Task?
    const waiting: Tasklist

    constructor (k: Kernel)
      requires k.Valid()
      modifies k`lists
      ensures k.Valid() && fresh(waiting) && k.lists == old(k.lists) + {waiting} && k.Abs() == old(k.Abs())
      ensures Abs() == LS.QLock(None, [])
    {
      owner := null;
      waiting := new Tasklist();
      new;
      k.AddList(waiting);
    }

    ghost function Abs(): LS.QLock<Task>
      reads this, waiting
    {
      LS.QLock(Opt(owner), waiting.elems)
    }

    /** Its list is a list of the program, and not the run queue. */
    ghost predicate In(k: Kernel)
      reads k`lists
    {
      waiting in k.lists && waiting != k.runq
    }

    /** _qlock up to its task switch. */
    method Acquire(k: Kernel, block: bool) returns (got: LS.Attempt)
      requires k.Valid() && k.running != null && In(k)
      modifies this`owner, k`running, waiting, waiting.elems`next, waiting.elems`prev, k.running`next, k.running`prev
      ensures k.Valid() && (Abs(), got) == LS.QTry(old(Abs()), old(k.running), block)
      ensures got.Got? <==> old(owner) == null
      ensures got.Refused? <==> old(owner) != null && !block
      ensures owner == if got.Got? then old(k.running) else old(owner)
      ensures waiting.elems == old(waiting.elems) + if got.Queued? then [old(k.running)] else []
      ensures k.Abs() == if got.Queued? then Switch(old(k.Abs())) else old(k.Abs())
    {
      if owner == null {
        owner := k.running;
        return LS.Got;
      }
      if !block { return LS.Refused; }
      k.Block(waiting);
      got := LS.Queued;
    }

    /** _qlock after its switch: whether the task may go on, instead of the abort. */
    method Resumed(k: Kernel) returns (ok: bool)
      requires k.Valid() && k.running != null
      ensures ok <==> Abs().owner == Some(k.running)
    {
      ok := owner == k.running;
    }

    /** qunlock; false stands for its abort. */
    method Release(k: Kernel) returns (ok: bool)
      requires k.Sound() && In(k)
      modifies this`owner, waiting, waiting.elems`next, waiting.elems`prev, waiting.elems`ready
      modifies k.runq, k.runq.elems`next, k.runq.elems`prev
      ensures k.Sound() && (old(k.Valid()) ==> k.Valid())
      ensures match LS.QRelease(old(Abs()))
              case None => !ok && Abs() == old(Abs()) && k.Abs() == old(k.Abs())
              case Some(r) => ok && Abs() == r.0 && k.Abs() == ReadyAll(old(k.Abs()), r.1)
    {
      if owner == null { return false; }
      k.HeadOf(waiting);
      owner := waiting.head;
      if owner != null {
        var t := k.WakeHead(waiting);
      } else {
        Nobody(k.Abs());
      }
      ok := true;
    }
  }

  class RWLock {
    var readers: int
    var writer: Task?
    const rwaiting: Tasklist
    const wwaiting: Tasklist
    ghost var holders: multiset<Task>

    constructor (k: Kernel)
      requires k.Valid()
      modifies k`lists
      ensures k.Valid() && fresh(rwaiting) && fresh(wwaiting) && k.Abs() == old(k.Abs())
      ensures k.lists == old(k.lists) + {rwaiting, wwaiting} && rwaiting != wwaiting
      ensures Abs() == LS.RWLock(0, None, [], [], multiset{})
    {
      readers, writer, holders := 0, null, multiset{};
      rwaiting := new Tasklist();
      wwaiting := new Tasklist();
      new;
      hide Tasklist.Valid;
      k.AddList(rwaiting);
      k.AddList(wwaiting);
    }

    ghost function Abs(): LS.RWLock<Task>
      reads this, rwaiting, wwaiting
    {
      LS.RWLock(readers, Opt(writer), rwaiting.elems, wwaiting.elems, holders)
    }

    ghost predicate In(k: Kernel)
      reads k`lists
    {
      rwaiting in k.lists && wwaiting in k.lists && rwaiting != wwaiting && rwaiting != k.runq && wwaiting != k.runq
    }

    /** _rlock up to its task switch. */
    method RAcquire(k: Kernel, block: bool) returns (got: LS.Attempt)
      requires k.Valid() && k.running != null && In(k)
      modifies this`readers, this`holders, k`running, rwaiting, rwaiting.elems`next, rwaiting.elems`prev
      modifies k.running`next, k.running`prev
      ensures k.Valid() && (Abs(), got) == LS.RTry(old(Abs()), old(k.running), block)
      ensures got.Got? <==> old(writer) == null && old(wwaiting.elems) == []
      ensures got.Refused? <==> !(old(writer) == null && old(wwaiting.elems) == []) && !block
      ensures readers == old(readers) + if got.Got? then 1 else 0
      ensures rwaiting.elems == old(rwaiting.elems) + if got.Queued? then [old(k.running)] else []
      ensures k.Abs() == if got.Queued? then Switch(old(k.Abs())) else old(k.Abs())
    {
      k.HeadOf(wwaiting);
      if writer == null && wwaiting.head == null {
        readers := readers + 1;
        holders := holders + multiset{k.running};
        return LS.Got;
      }
      if !block { return LS.Refused; }
      k.Block(rwaiting);
      got := LS.Queued;
    }

    /** _wlock up to its task switch. */
    method WAcquire(k: Kernel, block: bool) returns (got: LS.Attempt)
      requires k.Valid() && k.running != null && In(k)
      modifies this`writer, k`running, wwaiting, wwaiting.elems`next, wwaiting.elems`prev
      modifies k.running`next, k.running`prev
      ensures k.Valid() && (Abs(), got) == LS.WTry(old(Abs()), old(k.running), block)
      ensures got.Got? <==> old(writer) == null && readers == 0
      ensures got.Refused? <==> !(old(writer) == null && readers == 0) && !block
      ensures writer == if got.Got? then old(k.running) else old(writer)
      ensures wwaiting.elems == old(wwaiting.elems) + if got.Queued? then [old(k.running)] else []
      ensures k.Abs() == if got.Queued? then Switch(old(k.Abs())) else old(k.Abs())
    {
      if writer == null && readers == 0 {
        writer := k.running;
        return LS.Got;
      }
      if !block { return LS.Refused; }
      k.Block(wwaiting);
      got := LS.Queued;
    }

    /** The lock goes to the first waiting writer, if there is one. */
    method GrantWriter(k: Kernel)
      requires k.Valid() && In(k)
      modifies this`writer, wwaiting, wwaiting.elems`next, wwaiting.elems`prev, wwaiting.elems`ready
      modifies k.runq, k.runq.elems`next, k.runq.elems`prev
      ensures k.Valid()
      ensures var (l, us) := LS.GrantWriter(old(Abs())); Abs() == l && k.Abs() == ReadyAll(old(k.Abs()), us)
    {
      hide *;
      InIs(k);
      AbsIs();
      k.SoundParts();
      k.HeadOf(wwaiting);
      GrantIs(Abs());
      Nobody(k.Abs());
      var t := wwaiting.head;
      if t != null {
        t := k.WakeHead(wwaiting);
        writer := t;
        OptIs(writer);
        AbsIs();
      }
    }

    /** runlock. */
    method RRelease(k: Kernel)
      requires k.Valid() && k.running != null && In(k)
      modifies this`readers, this`writer, this`holders
      modifies wwaiting, wwaiting.elems`next, wwaiting.elems`prev, wwaiting.elems`ready
      modifies k.runq, k.runq.elems`next, k.runq.elems`prev
      ensures k.Valid()
      ensures var (l, us) := LS.RRelease(old(Abs()), k.running); Abs() == l && k.Abs() == ReadyAll(old(k.Abs()), us)
    {
      hide *;
      AbsIs();
      InIs(k);
      RReleaseIs(Abs(), k.running);
      Nobody(k.Abs());
      readers := readers - 1;
      holders := holders - multiset{k.running};
      InIs(k);
      AbsIs();
      assert k.Valid() && k.Abs() == old(k.Abs());
      if readers == 0 { GrantWriter(k); }
    }

    /** The first waiting reader gets the lock. */
    method AdmitOne(k: Kernel)
      requires k.Valid() && In(k) && rwaiting.elems != []
      modifies this`readers, this`holders, rwaiting, rwaiting.elems`next, rwaiting.elems`prev, rwaiting.elems`ready
      modifies k.runq, k.runq.elems`next, k.runq.elems`prev
      ensures k.Valid() && rwaiting.elems == old(rwaiting.elems[1..])
      ensures k.Abs() == ReadyAll(old(k.Abs()), [old(rwaiting.elems[0])])
      ensures k.runq.elems == old(k.runq.elems) + [old(rwaiting.elems[0])]
      ensures readers == old(readers) + 1 && holders == old(holders) + multiset{old(rwaiting.elems[0])}
      ensures rwaiting.head == null <==> rwaiting.elems == []
    {
      hide *;
      InIs(k);
      k.SoundParts();
      k.AbsIs();
      var t := k.WakeHead(rwaiting);
      RunqOf(old(k.Abs()), [t]);
      k.AbsIs();
      k.HeadOf(rwaiting);
      readers := readers + 1;
      holders := holders + multiset{t};
    }

    /** The loop of wunlock: every waiting reader gets the lock. */
    method AdmitReaders(k: Kernel)
      requires k.Valid() && In(k)
      modifies this`readers, this`holders, rwaiting, rwaiting.elems`next, rwaiting.elems`prev, rwaiting.elems`ready
      modifies k.runq, k.runq.elems`next, k.runq.elems`prev
      ensures k.Valid() && rwaiting.elems == [] && k.Abs() == ReadyAll(old(k.Abs()), old(rwaiting.elems))
      ensures readers == old(readers) + |old(rwaiting.elems)| && holders == old(holders) + multiset(old(rwaiting.elems))
    {
      hide *;
      ghost var waiting, s, runq := rwaiting.elems, k.Abs(), k.runq.elems;
      ghost var n := 0;
      InIs(k);
      k.SoundParts();
      k.HeadOf(rwaiting);
      k.AbsIs();
      Nobody(s);
      assert waiting[..0] == [];
      while rwaiting.head != null
        invariant k.Valid() && In(k) && n <= |waiting| && rwaiting.elems == waiting[n..]
        invariant rwaiting.head == null <==> rwaiting.elems == []
        invariant readers == old(readers) + n && holders == old(holders) + multiset(waiting[..n])
        invariant k.Abs() == ReadyAll(s, waiting[..n]) && k.runq.elems == runq + waiting[..n]
        decreases |waiting| - n
      {
        Among(runq, waiting, n);
        AdmitOne(k);
        OneMore(s, waiting, n);
        n := n + 1;
      }
      assert waiting[..n] == waiting;
    }

    lemma InIs(k: Kernel)
      ensures In(k) <==>
              rwaiting in k.lists && wwaiting in k.lists && rwaiting != wwaiting && rwaiting != k.runq && wwaiting != k.runq
    {
    }

    /** wunlock; false stands for its two aborts. */
    method WRelease(k: Kernel) returns (ok: bool)
      requires k.Valid() && In(k)
      modifies this`readers, this`writer, this`holders
      modifies rwaiting, rwaiting.elems`next, rwaiting.elems`prev, rwaiting.elems`ready
      modifies wwaiting, wwaiting.elems`next, wwaiting.elems`prev, wwaiting.elems`ready
      modifies k.runq, k.runq.elems`next, k.runq.elems`prev
      ensures ok <==> LS.WRelease(old(Abs())).Some?
      ensures ok ==> var (l, us) := LS.WRelease(old(Abs())).value;
                     k.Valid() && Abs() == l && k.Abs() == ReadyAll(old(k.Abs()), us)
    {
      hide *;
      AbsIs();
      InIs(k);
      OptIs(writer);
      WReleaseIs(Abs());
      if writer == null { return false; }
      writer := null;
      if readers != 0 { return false; }
      OptIs(null);
      InIs(k);
      assert k.Valid() && k.Abs() == old(k.Abs());
      k.AbsIs();
      Nobody(k.Abs());
      AdmitReaders(k);
      InIs(k);
      AbsIs();
      k.AbsIs();
      if readers == 0 { GrantWriter(k); }
      ok := true;
    }

    lemma AbsIs()
      ensures Abs() == LS.RWLock(readers, Opt(writer), rwaiting.elems, wwaiting.elems, holders)
    {
    }
  }

  class Rendez {
    var l: QLock?
    const waiting: Tasklist

    constructor (k: Kernel, l: QLock?)
      requires k.Valid()
      modifies k`lists
      ensures k.Valid() && fresh(waiting) && k.lists == old(k.lists) + {waiting} && k.Abs() == old(k.Abs())
      ensures this.l == l && waiting.elems == []
    {
      this.l := l;
      waiting := new Tasklist();
      new;
      hide Tasklist.Valid;
      k.AddList(waiting);
    }

    ghost predicate In(k: Kernel)
      reads this`l, k`lists
    {
      && waiting in k.lists && waiting != k.runq
      && (l != null ==> l.In(k) && l.waiting != waiting)
    }

    /** tasksleep up to its task switch; false stands for the abort of qunlock. */
    method Sleep(k: Kernel) returns (ok: bool)
      requires k.Valid() && k.running != null && In(k)
      modifies k`running, waiting, waiting.elems`next, waiting.elems`prev, k.running`next, k.running`prev
      modifies if l == null then {} else {l, l.waiting}
      modifies (if l == null then [] else l.waiting.elems)`next, (if l == null then [] else l.waiting.elems)`prev
      modifies (if l == null then [] else l.waiting.elems)`ready
      modifies k.runq, k.runq.elems`next, k.runq.elems`prev
      ensures l == old(l) && (ok <==> l == null || LS.QRelease(old(l.Abs())).Some?)
      ensures waiting.elems == old(waiting.elems) + [old(k.running)]
      ensures ok ==> k.Valid()
      ensures ok && l == null ==> k.Abs() == Switch(old(k.Abs()))
      ensures ok && l != null ==> var (q, us) := LS.QRelease(old(l.Abs())).value;
                                  l.Abs() == q && k.Abs() == Switch(ReadyAll(old(k.Abs()), us))
    {
      hide *;
      InIs(k);
      k.Enlist(waiting);
      if l != null {
        assert l.In(k) && l.Abs() == old(l.Abs());
        ok := l.Release(k);
        if !ok { return; }
        assert l.Abs() == LS.QRelease(old(l.Abs())).value.0;
      }
      k.SwitchOut();
      ok := true;
    }

    /** tasksleep after its switch: take the lock again, perhaps blocking. */
    method Relock(k: Kernel) returns (got: LS.Attempt)
      requires k.Valid() && k.running != null && In(k) && l != null
      modifies l`owner, k`running, l.waiting, l.waiting.elems`next, l.waiting.elems`prev, k.running`next, k.running`prev
      ensures k.Valid() && (l.Abs(), got) == LS.QTry(old(l.Abs()), old(k.running), true)
      ensures k.Abs() == if got.Queued? then Switch(old(k.Abs())) else old(k.Abs())
    {
      got := l.Acquire(k, true);
    }

    method WakeOne(k: Kernel)
      requires k.Valid() && In(k) && waiting.elems != []
      modifies waiting, waiting.elems`next, waiting.elems`prev, waiting.elems`ready
      modifies k.runq, k.runq.elems`next, k.runq.elems`prev
      ensures k.Valid() && waiting.elems == old(waiting.elems[1..])
      ensures k.Abs() == ReadyAll(old(k.Abs()), [old(waiting.elems[0])])
      ensures k.runq.elems == old(k.runq.elems) + [old(waiting.elems[0])]
      ensures waiting.head == null <==> waiting.elems == []
    {
      hide *;
      InIs(k);
      k.SoundParts();
      k.AbsIs();
      var t := k.WakeHead(waiting);
      RunqOf(old(k.Abs()), [t]);
      k.SoundParts();
      k.AbsIs();
      k.HeadOf(waiting);
    }

    lemma InIs(k: Kernel)
      ensures In(k) ==> waiting in k.lists && waiting != k.runq
      ensures In(k) && l != null ==> l.In(k) && l.waiting != waiting
    {
    }

    /** _taskwakeup: awaken the first sleeper, or all of them, and count them. */
    method Wakeup(k: Kernel, all: bool) returns (i: nat)
      requires k.Valid() && In(k)
      modifies waiting, waiting.elems`next, waiting.elems`prev, waiting.elems`ready
      modifies k.runq, k.runq.elems`next, k.runq.elems`prev
      ensures k.Valid()
      ensures var (still, us) := LS.Wakeup(old(waiting.elems), all);
              waiting.elems == still && i == |us| && k.Abs() == ReadyAll(old(k.Abs()), us)
      ensures i == if all then |old(waiting.elems)| else if old(waiting.elems) == [] then 0 else 1
    {
      hide *;
      ghost var sleepers, s, runq := waiting.elems, k.Abs(), k.runq.elems;
      InIs(k);
      k.SoundParts();
      k.HeadOf(waiting);
      k.AbsIs();
      Nobody(s);
      i := 0;
      assert sleepers[..0] == [];
      while !(i == 1 && !all) && waiting.head != null
        invariant k.Valid() && In(k) && i <= |sleepers| && waiting.elems == sleepers[i..] && (all || i <= 1)
        invariant waiting.head == null <==> waiting.elems == []
        invariant k.Abs() == ReadyAll(s, sleepers[..i]) && k.runq.elems == runq + sleepers[..i]
        decreases |sleepers| - i
      {
        assert sleepers[i..] != [];
        assert forall u :: u in k.runq.elems ==> u in runq || u in sleepers;
        assert forall u :: u in waiting.elems ==> u in sleepers;
        WakeOne(k);
        OneMore(s, sleepers, i);
        i := i + 1;
      }
      WakeupIs(sleepers, all, i);
      LS.WakeupCount(sleepers);
    }

    lemma WakeupIs(sleepers: seq<Task>, all: bool, i: nat)
      requires i <= |sleepers| && (all || i <= 1) && (!(i == 1 && !all) ==> i == |sleepers|)
      ensures LS.Wakeup(sleepers, all) == (sleepers[i..], sleepers[..i])
    {
      if !all && i == 1 {
        assert sleepers[..1] == [sleepers[0]];
      } else {
        assert sleepers[i..] == [] && sleepers[..i] == sleepers;
      }
    }
  }

  lemma RunqOf(s: Sched<Task>, us: seq<Task>)
    ensures ReadyAll(s, us).runq == s.runq + us
  {
  }

  lemma OptIs(t: Task?)
    ensures Opt(t) == if t == null then None else Some(t)
  {
  }

  // ---- The specification of the reader-writer lock, case by case ----

  lemma GrantIs(l: LS.RWLock<Task>)
    ensures LS.GrantWriter(l) ==
            if l.wwaiting == [] then (l, [])
            else (l.(writer := Some(l.wwaiting[0]), wwaiting := l.wwaiting[1..]), [l.wwaiting[0]])
  {
  }

  lemma RReleaseIs(l: LS.RWLock<Task>, t: Task)
    ensures var l1 := l.(readers := l.readers - 1, holders := l.holders - multiset{t});
            LS.RRelease(l, t) == if l1.readers == 0 then LS.GrantWriter(l1) else (l1, [])
  {
  }

  lemma WReleaseIs(l: LS.RWLock<Task>)
    ensures LS.WRelease(l).Some? <==> l.writer.Some? && l.readers == 0
    ensures LS.WRelease(l).Some? ==>
              var l1 := l.(writer := None, readers := |l.rwaiting|, rwaiting := [],
                           holders := l.holders + multiset(l.rwaiting));
              LS.WRelease(l).value == if l1.readers == 0 then LS.GrantWriter(l1) else (l1, l.rwaiting)
  {
  }

  /** Where the tasks of a list that is being emptied into the run queue are. */
  lemma Among(runq: seq<Task>, waiting: seq<Task>, n: nat)
    requires n <= |waiting|
    ensures forall u :: u in runq + waiting[..n] ==> u in runq || u in waiting
    ensures forall u :: u in waiting[n..] ==> u in waiting
    ensures waiting[n..] != [] <==> n < |waiting|
  {
  }

  lemma OneMore(s: Sched<Task>, waiting: seq<Task>, n: nat)
    requires n < |waiting|
    ensures ReadyAll(ReadyAll(s, waiting[..n]), [waiting[n]]) == ReadyAll(s, waiting[..n + 1])
    ensures multiset(waiting[..n]) + multiset{waiting[n]} == multiset(waiting[..n + 1])
    ensures s.runq + waiting[..n] + [waiting[n]] == s.runq + waiting[..n + 1]
    ensures waiting[n..] != [] && waiting[n..][0] == waiting[n] && waiting[n..][1..] == waiting[n + 1..]
  {
    assert waiting[..n + 1] == waiting[..n] + [waiting[n]];
    assert s.runq + waiting[..n] + [waiting[n]] == s.runq + waiting[..n + 1];
  }

  /** Readying nobody changes nothing. */
  lemma Nobody(s: Sched<Task>)
    ensures ReadyAll(s, []) == s
  {
    assert s.runq + [] == s.runq;
  }
}
