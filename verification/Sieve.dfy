/**
 The concurrent prime sieve of primes.c as a program on the library: taskmain feeds the numbers
 from 2 up into a chain of tasks, each of which prints the first number it receives, creates
 the next task, and passes on what its number does not divide.
 */
module Sieve {
  import opened Util
  import opened World
  import opened Runs
  import opened Primes
  import CS = ChanSpec
  import CH = ChanHistory

  /** Where the code of a task is, with its local variables: taskmain, then primetask. */
  datatype Local =
    | Begin | Fork(c: nat) | Feed(c: nat, i: int)
    | First(c: nat) | Check(c: nat, p: int) | Grow(c: nat, p: int, nc: nat)
    | Recv(c: nat, p: int, nc: nat) | Have(c: nat, p: int, nc: nat, i: int)

  /** `nchan` counts the channels created so far, which are numbered in that order. */
  datatype Sieve = Sieve(w: World, locals: map<Tid, Local>, nchan: nat, printed: seq<int>)

  function Start(): Sieve {
    Sieve(Init(map[]), map[1 := Begin], 0, [])
  }

  // ---- The program ----

  predicate Talks(l: Local) { l.Feed? || l.First? || l.Recv? || l.Have? }

  predicate Sends(l: Local) { l.Feed? || l.Have? }

  /** The one alternative of chansendul or chanrecvul. */
  function AltOf(l: Local): CS.Alt<nat, int>
    requires Talks(l)
  {
    match l
    case Feed(c, i) => CS.Alt(c, CS.Snd, i)
    case First(c) => CS.Alt(c, CS.Rcv, 0)
    case Recv(c, _, _) => CS.Alt(c, CS.Rcv, 0)
    case Have(_, _, nc, i) => CS.Alt(nc, CS.Snd, i)
  }

  /** What the task does next once its send or receive has moved `v`. */
  function After(l: Local, v: int): Local
    requires Talks(l)
  {
    match l
    case Feed(c, i) => Feed(c, i + 1)
    case First(c) => Check(c, v)
    case Recv(c, p, nc) => if Divides(p, v) then l else Have(c, p, nc, v)
    case Have(c, p, nc, _) => Recv(c, p, nc)
  }

  /** The call that the code of the running task makes next. */
  predicate Calls(goal: int, buffer: nat, nchan: nat, l: Local, op: Op) {
    match l
    case Begin => op == ChanCreate(nchan, buffer)
    case Fork(_) => op == TaskCreate
    case Check(_, p) => if p > goal then op == TaskExitAll(0) else op == ChanCreate(nchan, buffer)
    case Grow(_, _, _) => op == TaskCreate
    case _ => op.ChanAlt? && op.alts == [AltOf(l)] && op.canblock
  }

  ghost predicate MayStep(goal: int, buffer: nat, x: Sieve, op: Op) {
    && Enabled(x.w, op)
    && (x.w.s.running.Some? ==>
          && Me(x.w) in x.locals && Me(x.w) in x.w.pc
          && if x.w.pc[Me(x.w)].InAlt? then op.Return? && Me(x.w) in x.w.cs.fired && Talks(x.locals[Me(x.w)])
             else Calls(goal, buffer, x.nchan, x.locals[Me(x.w)], op))
  }

  /** The running code after chancreate returns channel `c`; a prime has been printed before. */
  function GotChannel(l: Local, c: nat): Local {
    match l
    case Begin => Fork(c)
    case Check(d, p) => Grow(d, p, c)
    case _ => l
  }

  function Prints(l: Local): seq<int> { if l.Check? then [l.p] else [] }

  function Forked(l: Local): Local {
    match l
    case Fork(c) => Feed(c, 2)
    case Grow(c, p, nc) => Recv(c, p, nc)
    case _ => l
  }

  /** The channel handed to a new primetask. */
  function Handed(l: Local): nat {
    match l
    case Fork(c) => c
    case Grow(_, _, nc) => nc
    case _ => 0
  }

  ghost function NextSieve(goal: int, buffer: nat, x: Sieve, op: Op): Sieve
    requires MayStep(goal, buffer, x, op)
  {
    var w' := Next(x.w, op);
    if x.w.s.running.None? then x.(w := w')
    else
      var t := Me(x.w);
      var l := x.locals[t];
      match op
      case ChanCreate(c, _) =>
        x.(w := w', locals := x.locals[t := GotChannel(l, c)], nchan := x.nchan + 1, printed := x.printed + Prints(l))
      case TaskCreate =>
        x.(w := w', locals := x.locals[t := Forked(l)][x.w.s.idgen + 1 := First(Handed(l))])
      case ChanAlt(alts, canblock, i, peer) =>
        var out := CS.ChanAlt(x.w.cs, t, alts, canblock, i, peer).1;
        if out.Done? then x.(w := w', locals := x.locals[t := After(l, out.v)]) else x.(w := w')
      case Return(_) => x.(w := w', locals := x.locals[t := After(l, x.w.cs.fired[t].v)])
      case _ => x.(w := w')
  }

  ghost predicate IsSieveRun(goal: int, buffer: nat, xs: seq<Sieve>, ops: seq<Op>) {
    && |xs| == |ops| + 1 && xs[0] == Start()
    && forall i :: 0 <= i < |ops| ==>
         MayStep(goal, buffer, xs[i], ops[i]) && xs[i + 1] == NextSieve(goal, buffer, xs[i], ops[i])
  }

  // ---- The invariant: who is connected to whom ----

  /** Task `t` receives from channel `t - 2` and sends to channel `t - 1`; only the last one grows. */
  predicate LocalOk(t: Tid, l: Local, last: nat) {
    match l
    case Begin => t == 1 == last
    case Fork(c) => t == 1 == last && c == 0
    case Feed(c, i) => t == 1 < last && c == 0 && i >= 2
    case First(c) => 2 <= t == last && c == t - 2
    case Check(c, _) => 2 <= t == last && c == t - 2
    case Grow(c, _, nc) => 2 <= t == last && c == t - 2 && nc == t - 1
    case Recv(c, _, nc) => 2 <= t < last && c == t - 2 && nc == t - 1
    case Have(c, _, nc, _) => 2 <= t < last && c == t - 2 && nc == t - 1
  }

  predicate Growing(l: Local) { l.Fork? || l.Grow? }

  ghost predicate Topology(x: Sieve) {
    var last := x.w.s.idgen;
    && (forall t: Tid :: t in x.locals <==> 1 <= t <= last)
    && (forall t: Tid :: t in x.locals ==> LocalOk(t, x.locals[t], last))
    && last in x.locals
    && x.nchan == (if Growing(x.locals[last]) then last else last - 1)
    && (forall c: nat :: c in x.w.cs.chans <==> c < x.nchan)
  }

  ghost predicate Blocked(x: Sieve) {
    && x.w.pc.Keys == x.locals.Keys && x.w.s.system == {}
    && (forall t :: t in x.w.pc ==> x.w.pc[t] == User || x.w.pc[t] == InAlt)
    && (forall t :: t in x.w.cs.sets ==>
          t in x.locals && Talks(x.locals[t]) && x.w.cs.sets[t] == [AltOf(x.locals[t])])
    && (forall t :: t in x.w.cs.fired ==>
          t in x.locals && Talks(x.locals[t]) && x.w.cs.fired[t].a == AltOf(x.locals[t]))
  }

  // ---- The invariant: what has flowed ----

  /** Everything that has left the channel that `t` receives from. */
  function Came(cs: CS.CS<nat, Tid, int>, t: Tid): seq<int> {
    if t >= 2 then Vals(CH.Log(cs, t - 2, CS.Rcv)) else []
  }

  /** Everything that has entered the channel that `t` sends to. */
  function Went(cs: CS.CS<nat, Tid, int>, t: Tid): seq<int> {
    if t >= 1 then Vals(CH.Log(cs, t - 1, CS.Snd)) else []
  }

  function Moved(cs: CS.CS<nat, Tid, int>, t: Tid): Option<int> {
    if t in cs.fired then Some(cs.fired[t].v) else None
  }

  function Front(s: seq<int>): seq<int>
    requires s != []
  {
    s[..|s| - 1]
  }

  function Last(s: seq<int>): int
    requires s != []
  {
    s[|s| - 1]
  }

  /**
   A task at `l` has received `r` and sent `s`.  `f` is the element that a peer has already
   moved for it, which is part of `r` or `s`.
   */
  ghost predicate FlowOk(l: Local, f: Option<int>, r: seq<int>, s: seq<int>) {
    match l
    case Begin => s == []
    case Fork(_) => s == []
    case Feed(_, i) => s == Survivors(if f.Some? then i + 1 else i, []) && (f.Some? ==> f.value == i)
    case First(_) => if f.Some? then r == [f.value] else r == []
    case Check(_, p) => r == [p]
    case Grow(_, p, _) => r == [p] && s == []
    case Recv(_, p, _) =>
      && r != [] && r[0] == p
      && if f.Some? then |r| > 1 && Last(r) == f.value && s == Filter(p, Front(r)) else s == Filter(p, r)
    case Have(_, p, _, i) =>
      && |r| > 1 && r[0] == p && Last(r) == i && !Divides(p, i)
      && if f.Some? then f.value == i && s == Filter(p, r) else s == Filter(p, Front(r))
  }

  ghost predicate TaskFlow(x: Sieve, t: Tid)
    requires t in x.locals
  {
    FlowOk(x.locals[t], Moved(x.w.cs, t), Came(x.w.cs, t), Went(x.w.cs, t))
  }

  ghost predicate Flow(x: Sieve) {
    forall t :: t in x.locals ==> TaskFlow(x, t)
  }

  /** The prime of a task that has printed one. */
  predicate HasPrinted(l: Local) { l.Grow? || l.Recv? || l.Have? }

  ghost predicate Output(goal: int, x: Sieve) {
    && |x.printed| == (if x.nchan == 0 then 0 else x.nchan - 1)
    && (forall t :: t in x.locals && HasPrinted(x.locals[t]) ==>
          2 <= t < |x.printed| + 2 && x.printed[t - 2] == x.locals[t].p)
    && (exists m :: x.printed == PrimesBelow(m))
    && (forall p :: p in x.printed ==> p <= goal)
    && x.w.status in {Going, Exited(0)}
    && (x.w.status == Exited(0) ==> x.printed == PrimesBelow(goal + 1))
  }

  ghost predicate SieveInv(goal: int, x: Sieve) {
    Inv(x.w) && Topology(x) && Blocked(x) && Flow(x) && Output(goal, x)
  }
}
