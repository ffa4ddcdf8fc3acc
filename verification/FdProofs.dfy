/** What the timer and poll loops of fd.c promise. */
module FdProofs {
  import opened Util
  import opened SchedSpec
  import opened FdSpec

  lemma InsertAt<T>(s: seq<Sleeper<T>>, x: Sleeper<T>)
    ensures var i, r := InsertPos(s, x.alarm), Insert(s, x);
            && |r| == |s| + 1
            && forall j {:trigger r[j]} :: 0 <= j < |r| ==> r[j] == if j < i then s[j] else if j == i then x else s[j - 1]
  {
  }

  lemma InsertAdds<T>(s: seq<Sleeper<T>>, x: Sleeper<T>)
    ensures multiset(Insert(s, x)) == multiset(s) + multiset{x}
  {
    var i := InsertPos(s, x.alarm);
    assert s == s[..i] + s[i..];
  }

  lemma SplicedSorted<T>(s: seq<Sleeper<T>>, x: Sleeper<T>, i: nat, r: seq<Sleeper<T>>)
    requires Sorted(s) && i <= |s| && |r| == |s| + 1
    requires forall j {:trigger r[j]} :: 0 <= j < |r| ==> r[j] == if j < i then s[j] else if j == i then x else s[j - 1]
    requires forall j :: 0 <= j < i ==> s[j].alarm < x.alarm
    requires i < |s| ==> x.alarm <= s[i].alarm
    ensures Sorted(r)
    ensures forall j :: 0 <= j < |s| && s[j].alarm == x.alarm ==> i <= j && r[j + 1] == s[j]
  {
    forall a, b | 0 <= a < b < |r| ensures r[a].alarm <= r[b].alarm {
      assert i < b ==> x.alarm <= s[i].alarm <= s[b - 1].alarm;
    }
  }

  /** The list stays sorted, and `x` goes in front of every equal alarm. */
  lemma InsertSorted<T>(s: seq<Sleeper<T>>, x: Sleeper<T>)
    requires Sorted(s)
    ensures Sorted(Insert(s, x))
    ensures var i := InsertPos(s, x.alarm);
            && |Insert(s, x)| == |s| + 1 && Insert(s, x)[i] == x
            && (forall j :: 0 <= j < |s| && s[j].alarm == x.alarm ==> i <= j && Insert(s, x)[j + 1] == s[j])
  {
    InsertAt(s, x);
    SplicedSorted(s, x, InsertPos(s, x.alarm), Insert(s, x));
  }

  lemma InsertNames<T>(s: seq<Sleeper<T>>, x: Sleeper<T>)
    requires NoDup(Names(s)) && x.t !in Names(s)
    ensures NoDup(Names(Insert(s, x)))
    ensures Elems(Names(Insert(s, x))) == Elems(Names(s)) + {x.t}
  {
    var i := InsertPos(s, x.alarm);
    var r, n := Names(Insert(s, x)), Names(s);
    assert r == n[..i] + [x.t] + n[i..];
    assert n == n[..i] + n[i..];
    NoDupSplit(n, i);
    NoDupConcat(n[..i], [x.t]);
    NoDupConcat(n[..i] + [x.t], n[i..]);
    forall y ensures y in r <==> y in n || y == x.t {
      assert y in n <==> y in n[..i] || y in n[i..];
    }
  }

  /** With a sorted list the sleepers that are due are exactly a prefix. */
  lemma DueIsExact<T>(s: seq<Sleeper<T>>, now: nat)
    requires Sorted(s)
    ensures forall i :: 0 <= i < |s| ==> (i < Due(s, now) <==> s[i].alarm <= now)
  {
  }

  /**
   The poll timeout is none at all when nobody sleeps.  Otherwise it never exceeds five seconds and
   never reaches past an alarm still to come.
   */
  lemma TimeoutIsSafe<T>(s: seq<Sleeper<T>>, now: nat)
    requires Sorted(s)
    ensures s == [] <==> Timeout(s, now) == -1
    ensures s != [] ==> 0 <= Timeout(s, now) <= 5000
    ensures forall i :: 0 <= i < |s| && s[i].alarm > now ==> now + Timeout(s, now) * NsPerMs <= s[i].alarm
    ensures s != [] && s[0].alarm > now ==>
              Timeout(s, now) == 5000 || s[0].alarm < now + (Timeout(s, now) + 1) * NsPerMs
    ensures (exists i :: 0 <= i < |s| && s[i].alarm <= now) <==> s != [] && s[0].alarm <= now
    ensures s != [] ==> (Timeout(s, now) == 0 <==> s[0].alarm < now + NsPerMs)
  {
    if s != [] && now < s[0].alarm <= now + FiveSeconds {
      var d := s[0].alarm - now;
      assert d / NsPerMs * NsPerMs <= d <= FiveSeconds;
    }
  }

  lemma NamesTake<T>(s: seq<Sleeper<T>>, n: nat)
    requires n < |s|
    ensures Names(s[..n + 1]) == [s[0].t] + Names(s[1..][..n]) && s[1..][n..] == s[n + 1..]
  {
  }

  /** The wake-up loop changes no queue but the list of sleepers and the run queue. */
  lemma {:induction false} WakeSleepersFrame<T>(f: Fd<T>, s: Sched<T>, now: nat)
    ensures var r := WakeSleepers(f, s, now);
            && r.0 == f.(sleeping := r.0.sleeping, counted := r.0.counted)
            && r.1 == s.(runq := r.1.runq, count := r.1.count)
    decreases |f.sleeping|
  {
    if f.sleeping != [] && f.sleeping[0].alarm <= now {
      WakeSleepersFrame(WakeFirst(f, s).0, WakeFirst(f, s).1, now);
    }
  }

  /** The wake-up loop readies exactly the due sleepers, in list order. */
  lemma {:induction false} WakeSleepersWakesDue<T>(f: Fd<T>, s: Sched<T>, now: nat)
    ensures var r := WakeSleepers(f, s, now);
            var n := Due(f.sleeping, now);
            && r.0.sleeping == f.sleeping[n..]
            && r.1.runq == s.runq + Names(f.sleeping[..n])
    decreases |f.sleeping|
  {
    if f.sleeping == [] || now < f.sleeping[0].alarm {
      assert Names(f.sleeping[..0]) == [];
      assert s.runq + [] == s.runq;
    } else {
      var (f1, s1) := WakeFirst(f, s);
      WakeSleepersWakesDue(f1, s1, now);
      RunqGrows(s.runq, f.sleeping, Due(f1.sleeping, now), WakeSleepers(f1, s1, now).1.runq);
    }
  }

  lemma RunqGrows<T>(q: seq<T>, s: seq<Sleeper<T>>, n: nat, r: seq<T>)
    requires n < |s| && r == q + [s[0].t] + Names(s[1..][..n])
    ensures r == q + Names(s[..n + 1]) && s[1..][n..] == s[n + 1..]
  {
    NamesTake(s, n);
  }

  /** The non-system tasks in a list. */
  ghost function Counted<T>(names: seq<T>, system: set<T>): nat {
    if names == [] then 0 else (if names[0] in system then 0 else 1) + Counted(names[1..], system)
  }

  /**
   The accounting of the wake-up loop: `counted` drops by the number of non-system sleepers
   awakened, and the task count drops by one exactly when the last of them has left.
   */
  lemma {:induction false} WakeSleepersCounts<T>(f: Fd<T>, s: Sched<T>, now: nat)
    requires f.counted == Counted(Names(f.sleeping), s.system)
    ensures var (f', s') := WakeSleepers(f, s, now);
            && f'.counted == Counted(Names(f'.sleeping), s.system) <= f.counted
            && s'.count == s.count - (if f.counted > 0 && f'.counted == 0 then 1 else 0)
    decreases |f.sleeping|
  {
    if f.sleeping != [] && f.sleeping[0].alarm <= now {
      assert Names(f.sleeping)[1..] == Names(f.sleeping[1..]);
      WakeSleepersCounts(WakeFirst(f, s).0, WakeFirst(f, s).1, now);
    }
  }

  // ---- The poll table ----

  /**
   The compaction loop, entered at index `i`: it keeps exactly the slots without an event and
   takes out exactly those with one, each once, whole slots at a time.
   */
  lemma {:induction false} SweepIsExact<T>(slots: seq<Slot<T>>, i: nat)
    requires i <= |slots|
    requires forall j :: 0 <= j < i ==> slots[j].revents == 0
    ensures var (kept, gone) := Sweep(slots, i);
            && multiset(kept) + multiset(gone) == multiset(slots)
            && (forall x :: x in kept ==> x.revents == 0)
            && (forall x :: x in gone ==> x.revents != 0)
    decreases |slots|, |slots| - i
  {
    if i < |slots| {
      if slots[i].revents != 0 {
        SwapDeleteRemoves(slots, i);
        SweepIsExact(SwapDelete(slots, i), i);
        var (kept, gone) := Sweep(SwapDelete(slots, i), i);
        assert multiset([slots[i]] + gone) == multiset{slots[i]} + multiset(gone);
      } else {
        SweepIsExact(slots, i + 1);
      }
    }
  }

  lemma {:induction false} SweepTasks<T>(slots: seq<Slot<T>>, i: nat)
    requires NoDup(Polled(slots)) && i <= |slots|
    ensures var (kept, gone) := Sweep(slots, i);
            && NoDup(Polled(kept)) && NoDup(Polled(gone))
            && Elems(Polled(kept)) + Elems(Polled(gone)) == Elems(Polled(slots))
            && Elems(Polled(kept)) !! Elems(Polled(gone))
    decreases |slots|, |slots| - i
  {
    var names := Polled(slots);
    if i < |slots| {
      if slots[i].revents != 0 {
        var rest := SwapDelete(slots, i);
        SwapDeleteNoDup(names, i);
        assert Polled(rest) == SwapDelete(names, i);
        SweepTasks(rest, i);
        var (kept, gone) := Sweep(rest, i);
        assert Polled([slots[i]] + gone) == [names[i]] + Polled(gone);
        assert names[i] !in Elems(Polled(rest));
        NoDupConcat([names[i]], Polled(gone));
        assert Elems([names[i]] + Polled(gone)) == {names[i]} + Elems(Polled(gone));
      } else {
        SweepTasks(slots, i + 1);
      }
    }
  }

  /**
   What taskdelay returns is the time slept exactly as long as that is less than 2^32
   milliseconds; it is then at least the requested delay.
   */
  lemma DelayAtLeast(start: nat, ms: nat, end: nat)
    requires start + ms * NsPerMs <= end
    ensures ms <= (end - start) / NsPerMs
    ensures (end - start) / NsPerMs < TwoTo32 <==> DelayResult(start, end) == (end - start) / NsPerMs
    ensures (end - start) / NsPerMs < TwoTo32 ==> DelayResult(start, end) >= ms
  {
    assert (end - start) >= ms * NsPerMs;
  }

  /** However long the task oversleeps, the result is at least the requested delay only for a delay of zero. */
  lemma DelayGuarantee(ms: nat)
    requires ms < TwoTo32
    ensures (forall start: nat, end: nat :: start + ms * NsPerMs <= end ==> DelayResult(start, end) >= ms) <==> ms == 0
  {
    if ms > 0 {
      assert 0 + ms * NsPerMs <= TwoTo32 * NsPerMs;
      assert DelayResult(0, TwoTo32 * NsPerMs) == 0;
    }
  }

  // ---- poll and the compaction together ----

  lemma PolledIs<T>(s: seq<Slot<T>>)
    ensures forall x :: x in s ==> x.t in Polled(s)
    ensures forall u :: u in Polled(s) ==> exists i :: 0 <= i < |s| && u == s[i].t
  {
    forall x | x in s ensures x.t in Polled(s) {
      var i :| 0 <= i < |s| && s[i] == x;
      assert Polled(s)[i] == x.t;
    }
    forall u | u in Polled(s) ensures exists i :: 0 <= i < |s| && u == s[i].t {
      var i :| 0 <= i < |s| && Polled(s)[i] == u;
    }
  }

  /** Task `t` is woken by a poll that reports `rev`, after which the clock reads `now`. */
  ghost predicate WokenBy<T>(f: Fd<T>, rev: seq<int>, now: nat, t: T)
    requires |rev| == |f.slots|
  {
    || (exists i :: 0 <= i < |f.slots| && rev[i] != 0 && f.slots[i].t == t)
    || (exists k :: 0 <= k < |f.sleeping| && f.sleeping[k].alarm <= now && f.sleeping[k].t == t)
  }

  /** The tasks whose slots have an event are not in the table `left`; the other slots are, as they were, and nothing else is. */
  ghost predicate EventsLeave<T>(slots: seq<Slot<T>>, rev: seq<int>, left: seq<Slot<T>>)
    requires |rev| == |slots|
  {
    && (forall i :: 0 <= i < |slots| ==> if rev[i] != 0 then slots[i].t !in Polled(left) else slots[i].(revents := 0) in left)
    && (forall x :: x in left ==> exists i :: 0 <= i < |slots| && rev[i] == 0 && x == slots[i].(revents := 0))
  }

  /** Of the sleepers exactly those whose alarm is still to come are in the list `left`. */
  ghost predicate DueLeave<T>(s: seq<Sleeper<T>>, now: nat, left: seq<Sleeper<T>>) {
    && (forall k :: 0 <= k < |s| ==> (s[k] in left <==> now < s[k].alarm))
    && (forall x :: x in left ==> x in s)
  }

  /** What poll reports decides, slot by slot, who leaves the table and who stays in it. */
  lemma EventsDecide<T>(slots: seq<Slot<T>>, rev: seq<int>)
    requires |rev| == |slots| && NoDup(Polled(slots))
    ensures var (kept, gone) := Sweep(SetRevents(slots, rev), 0);
            && NoDup(Polled(gone)) && EventsLeave(slots, rev, kept)
            && (forall i :: 0 <= i < |slots| ==> (slots[i].t in Polled(gone) <==> rev[i] != 0))
            && (forall u :: u in Polled(gone) ==> exists i :: 0 <= i < |slots| && rev[i] != 0 && slots[i].t == u)
  {
    var s := SetRevents(slots, rev);
    var (kept, gone) := Sweep(s, 0);
    assert Polled(s) == Polled(slots);
    SweepIsExact(s, 0);
    SweepTasks(s, 0);
    PolledIs(gone);
    PolledIs(kept);
    hide Sweep;
    forall i | 0 <= i < |slots|
      ensures if rev[i] != 0 then slots[i].t in Polled(gone) && slots[i].t !in Polled(kept)
              else slots[i].(revents := 0) in kept && slots[i].t !in Polled(gone)
    {
      EitherKept(s, kept, gone, i);
      assert s[i].t in Elems(Polled(kept)) <==> s[i].t in Polled(kept);
      assert s[i].t in Elems(Polled(gone)) <==> s[i].t in Polled(gone);
    }
    forall x | x in kept ensures exists i :: 0 <= i < |slots| && rev[i] == 0 && x == slots[i].(revents := 0) {
      var i := FromTable(s, kept, gone, x);
      assert rev[i] == 0 && x == slots[i].(revents := 0);
    }
    forall u | u in Polled(gone) ensures exists i :: 0 <= i < |slots| && rev[i] != 0 && slots[i].t == u {
      var j :| 0 <= j < |gone| && u == gone[j].t;
      var i := FromTable(s, kept, gone, gone[j]);
      assert rev[i] != 0 && slots[i].t == u;
    }
  }

  lemma EitherKept<T>(s: seq<Slot<T>>, kept: seq<Slot<T>>, gone: seq<Slot<T>>, i: nat)
    requires multiset(kept) + multiset(gone) == multiset(s) && i < |s|
    requires (forall x :: x in kept ==> x.revents == 0) && (forall x :: x in gone ==> x.revents != 0)
    ensures if s[i].revents != 0 then s[i] in gone else s[i] in kept
  {
    assert s[i] in multiset(s);
    assert s[i] in multiset(kept) || s[i] in multiset(gone);
  }

  lemma FromTable<T>(s: seq<Slot<T>>, kept: seq<Slot<T>>, gone: seq<Slot<T>>, x: Slot<T>) returns (i: nat)
    requires multiset(kept) + multiset(gone) == multiset(s) && (x in kept || x in gone)
    ensures i < |s| && s[i] == x
  {
    assert x in multiset(kept) || x in multiset(gone);
    assert x in multiset(s);
    i :| 0 <= i < |s| && s[i] == x;
  }

  lemma DueDecides<T>(s: seq<Sleeper<T>>, now: nat)
    requires Sorted(s)
    ensures DueLeave(s, now, s[Due(s, now)..])
    ensures forall t :: t in Names(s[..Due(s, now)]) <==> exists k :: 0 <= k < |s| && s[k].alarm <= now && s[k].t == t
  {
    DueIsExact(s, now);
    var n := Due(s, now);
    forall t ensures t in Names(s[..n]) <==> exists k :: 0 <= k < |s| && s[k].alarm <= now && s[k].t == t {
      if t in Names(s[..n]) {
        var k :| 0 <= k < n && Names(s[..n])[k] == t;
        assert s[k].alarm <= now && s[k].t == t;
      }
      if k :| 0 <= k < |s| && s[k].alarm <= now && s[k].t == t {
        assert Names(s[..n])[k] == t;
      }
    }
    forall k | 0 <= k < |s| ensures s[k] in s[n..] <==> now < s[k].alarm {
      if k >= n { assert s[n..][k - n] == s[k]; }
    }
  }

  /** poll, the compaction loop and the wake-up loop, by what they move. */
  lemma PassIs<T>(f: Fd<T>, s: Sched<T>, rev: seq<int>, now: nat)
    requires |rev| == |f.slots|
    ensures var (kept, gone) := Sweep(SetRevents(f.slots, rev), 0);
            var (f', s') := WakeSleepers(f.(slots := kept), ReadyAll(s, Polled(gone)), now);
            && s'.runq == s.runq + Polled(gone) + Names(f.sleeping[..Due(f.sleeping, now)])
            && f'.slots == kept && f'.sleeping == f.sleeping[Due(f.sleeping, now)..]
  {
    var (kept, gone) := Sweep(SetRevents(f.slots, rev), 0);
    var (f1, s1) := (f.(slots := kept), ReadyAll(s, Polled(gone)));
    WakeSleepersWakesDue(f1, s1, now);
    WakeSleepersFrame(f1, s1, now);
    hide WakeSleepers; hide Sweep; hide SetRevents; hide Due;
  }

  lemma WokenAre<T>(f: Fd<T>, rev: seq<int>, now: nat, q: seq<T>, gone: seq<T>, names: seq<T>)
    requires |rev| == |f.slots|
    requires forall u :: u in gone ==> exists i :: 0 <= i < |f.slots| && rev[i] != 0 && f.slots[i].t == u
    requires forall t :: t in names <==> exists k :: 0 <= k < |f.sleeping| && f.sleeping[k].alarm <= now && f.sleeping[k].t == t
    ensures forall j :: 0 <= j < |q + gone + names| ==>
              (q + gone + names)[j] in q || WokenBy(f, rev, now, (q + gone + names)[j])
    ensures forall k :: 0 <= k < |f.sleeping| && f.sleeping[k].alarm <= now ==> f.sleeping[k].t in q + gone + names
  {
    var r := q + gone + names;
    forall j | 0 <= j < |r| ensures r[j] in q || WokenBy(f, rev, now, r[j]) {
      assert r[j] in q || r[j] in gone || r[j] in names;
    }
    forall k | 0 <= k < |f.sleeping| && f.sleeping[k].alarm <= now ensures f.sleeping[k].t in r {
      assert f.sleeping[k].t in names;
    }
  }

  /** The part of fdtask's loop from poll on: what poll reports and the clock decide who is woken, and who goes on waiting. */
  lemma PassDecides<T>(f: Fd<T>, s: Sched<T>, rev: seq<int>, now: nat)
    requires |rev| == |f.slots| && NoDup(Polled(f.slots))
    ensures var (kept, gone) := Sweep(SetRevents(f.slots, rev), 0);
            var (f', s') := WakeSleepers(f.(slots := kept), ReadyAll(s, Polled(gone)), now);
            && s.runq <= s'.runq && EventsLeave(f.slots, rev, f'.slots)
            && (forall i :: 0 <= i < |f.slots| && rev[i] != 0 ==> f.slots[i].t in s'.runq)
            && (Sorted(f.sleeping) ==>
                  && DueLeave(f.sleeping, now, f'.sleeping)
                  && (forall k :: 0 <= k < |f.sleeping| && f.sleeping[k].alarm <= now ==> f.sleeping[k].t in s'.runq)
                  && (forall j :: 0 <= j < |s'.runq| ==> s'.runq[j] in s.runq || WokenBy(f, rev, now, s'.runq[j])))
  {
    hide *;
    PassIs(f, s, rev, now);
    EventsDecide(f.slots, rev);
    if Sorted(f.sleeping) {
      DueDecides(f.sleeping, now);
      WokenAre(f, rev, now, s.runq, Polled(Sweep(SetRevents(f.slots, rev), 0).1), Names(f.sleeping[..Due(f.sleeping, now)]));
    }
  }
}
