/** Timers and the poll table of fd.c on values. */
module FdSpec {
  import opened Util
  import opened SchedSpec

  const MaxFd: nat := 1024
  const NsPerMs: nat := 1000000
  const FiveSeconds: nat := 5 * 1000 * 1000 * 1000
  const TwoTo32: nat := 0x1_0000_0000

  /** The events that poll is asked for, POLLIN and POLLOUT. */
  const PollIn: int := 1
  const PollOut: int := 4

  datatype Sleeper<T> = Sleeper(t: T, alarm: nat)

  /** One position of the parallel arrays pollfd and polltask. */
  datatype Slot<T> = Slot(t: T, fd: int, events: int, revents: int)

  datatype Fd<T> = Fd(sleeping: seq<Sleeper<T>>, counted: int, slots: seq<Slot<T>>, started: bool)

  function Names<T>(s: seq<Sleeper<T>>): (r: seq<T>)
    ensures |r| == |s| && forall i :: 0 <= i < |s| ==> r[i] == s[i].t
  {
    seq(|s|, i requires 0 <= i < |s| => s[i].t)
  }

  function Polled<T>(s: seq<Slot<T>>): (r: seq<T>)
    ensures |r| == |s| && forall i :: 0 <= i < |s| ==> r[i] == s[i].t
  {
    seq(|s|, i requires 0 <= i < |s| => s[i].t)
  }

  ghost predicate Sorted<T>(s: seq<Sleeper<T>>) {
    forall i, j :: 0 <= i < j < |s| ==> s[i].alarm <= s[j].alarm
  }

  // ---- taskdelay ----

  /** Where taskdelay inserts a sleeper: before the first one that is due no earlier. */
  function InsertPos<T>(s: seq<Sleeper<T>>, when: nat): (i: nat)
    ensures i <= |s|
    ensures forall j :: 0 <= j < i ==> s[j].alarm < when
    ensures i < |s| ==> when <= s[i].alarm
  {
    if s == [] || when <= s[0].alarm then 0 else 1 + InsertPos(s[1..], when)
  }

  function Insert<T>(s: seq<Sleeper<T>>, x: Sleeper<T>): seq<Sleeper<T>> {
    var i := InsertPos(s, x.alarm);
    s[..i] + [x] + s[i..]
  }

  /** taskdelay from reading the clock to its task switch, and the accounting it does. */
  ghost function Delay<T>(f: Fd<T>, s: Sched<T>, me: T, when: nat): (Fd<T>, Sched<T>) {
    var f1 := f.(sleeping := Insert(f.sleeping, Sleeper(me, when)));
    if me in s.system then (f1, s)
    else (f1.(counted := f.counted + 1), if f.counted == 0 then s.(count := s.count + 1) else s)
  }

  /** What taskdelay returns: elapsed milliseconds, cut to 32 bits. */
  function DelayResult(start: nat, end: nat): nat
    requires start <= end
  {
    ((end - start) / NsPerMs) % TwoTo32
  }

  // ---- fdwait ----

  /** The events that a task waits for, by the letter it gives. */
  function Bits(rw: char): int {
    if rw == 'r' then PollIn else if rw == 'w' then PollOut else 0
  }

  // ---- fdtask ----

  /** The timeout handed to poll, in milliseconds; -1 means none. */
  function Timeout<T>(s: seq<Sleeper<T>>, now: nat): int {
    if s == [] then -1
    else if now >= s[0].alarm then 0
    else if now + FiveSeconds >= s[0].alarm then (s[0].alarm - now) / NsPerMs
    else 5000
  }

  /** poll: fresh revents for every slot. */
  function SetRevents<T>(slots: seq<Slot<T>>, rev: seq<int>): seq<Slot<T>>
    requires |rev| == |slots|
  {
    seq(|slots|, i requires 0 <= i < |slots| => slots[i].(revents := rev[i]))
  }

  /** The compaction loop from index `i` on: the table it leaves, and the slots it takes out, in order. */
  function Sweep<T>(slots: seq<Slot<T>>, i: nat): (seq<Slot<T>>, seq<Slot<T>>)
    decreases |slots|, |slots| - i
  {
    if i >= |slots| then (slots, [])
    else if slots[i].revents != 0 then
      var (kept, gone) := Sweep(SwapDelete(slots, i), i);
      (kept, [slots[i]] + gone)
    else Sweep(slots, i + 1)
  }

  /** Ready the first sleeper, with the accounting that goes with it. */
  ghost function WakeFirst<T>(f: Fd<T>, s: Sched<T>): (Fd<T>, Sched<T>)
    requires f.sleeping != []
  {
    var t := f.sleeping[0].t;
    var f1 := f.(sleeping := f.sleeping[1..]);
    if t in s.system then (f1, ReadyAll(s, [t]))
    else
      (f1.(counted := f.counted - 1),
       ReadyAll(if f.counted - 1 == 0 then s.(count := s.count - 1) else s, [t]))
  }

  /** The loop that readies the sleepers whose alarm has passed. */
  ghost function WakeSleepers<T>(f: Fd<T>, s: Sched<T>, now: nat): (Fd<T>, Sched<T>)
    decreases |f.sleeping|
  {
    if f.sleeping == [] || now < f.sleeping[0].alarm then (f, s)
    else WakeSleepers(WakeFirst(f, s).0, WakeFirst(f, s).1, now)
  }

  /** How many sleepers at the head of the list are due. */
  function Due<T>(s: seq<Sleeper<T>>, now: nat): (n: nat)
    ensures n <= |s|
    ensures forall i :: 0 <= i < n ==> s[i].alarm <= now
    ensures n < |s| ==> now < s[n].alarm
  {
    if s == [] || now < s[0].alarm then 0 else 1 + Due(s[1..], now)
  }
}
