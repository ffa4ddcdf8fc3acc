/** What poll's report and the clock decide in a turn of fdtask, in every run of the library. */
module PollTheorems {
  import opened Util
  import opened FdSpec
  import opened FdProofs
  import opened World
  import opened Places
  import opened Runs
  import opened Outcomes
  import LT = LockTheorems
  import TT = TimerTheorems

  lemma PollDecides(w: World, rev: seq<int>, now: nat)
    requires |rev| == |w.fd.slots| && NoDup(Polled(w.fd.slots)) && Sorted(w.fd.sleeping)
    ensures var w' := DoPoll(w, rev, now);
            && w'.fd == w.fd.(slots := w'.fd.slots, sleeping := w'.fd.sleeping, counted := w'.fd.counted) && w'.clock == now
            && EventsLeave(w.fd.slots, rev, w'.fd.slots) && DueLeave(w.fd.sleeping, now, w'.fd.sleeping)
            && forall t :: t in w'.s.runq <==> t in w.s.runq || WokenBy(w.fd, rev, now, t)
  {
    var (kept, gone) := Sweep(SetRevents(w.fd.slots, rev), 0);
    var w1 := Wake(w.(fd := w.fd.(slots := kept)), Polled(gone));
    PassDecides(w.fd, w.s, rev, now);
    WakeSleepersFrame(w1.fd, w1.s, now);
    hide WakeSleepers; hide Sweep; hide SetRevents; hide WokenBy; hide EventsLeave; hide DueLeave; hide NoDup; hide Sorted;
  }

  /** The yield at the end of a turn. */
  lemma YieldEnds(w: World, w1: World, pc: Pc)
    requires w.s.running.Some? && w1.s.running == w.s.running
    ensures var w' := YieldAt(w1, pc);
            && w'.s == w1.s.(running := None, runq := w1.s.runq + [Me(w)]) && w'.pc == w1.pc[Me(w) := pc]
            && w'.fd == w1.fd && w'.clock == w1.clock && w'.status == w1.status && w'.cs == w1.cs
            && w'.ql == w1.ql && w'.rw == w1.rw && w'.rz == w1.rz && w'.rzl == w1.rzl
  {
  }

  /** A turn of fdtask while others are ready, or its first: it goes to the end of the run queue and does not poll. */
  lemma BusyTurn(w: World, op: Op)
    requires Enabled(w, op) && op.FdPass?
    requires w.pc[Me(w)].FdFresh? || w.s.nswitch - w.pc[Me(w)].n - 1 > 0
    ensures var w' := Next(w, op);
            && w' == With(w, w') && w'.pc == w.pc[Me(w) := FdYield(w.s.nswitch, |w.s.runq|)]
            && w'.s == w.s.(running := None, runq := w.s.runq + [Me(w)], system := w'.s.system, count := w'.s.count)
  {
    hide *;
    CallIs(w, op);
    StepIs(w, op);
    BusyIs(w, op.rev, op.now2);
  }

  lemma BusyIs(w: World, rev: seq<int>, now: nat)
    requires w.s.running.Some? && Me(w) in w.pc && FdPc(w.pc[Me(w)]) && |rev| == |w.fd.slots|
    requires w.pc[Me(w)].FdFresh? || w.s.nswitch - w.pc[Me(w)].n - 1 > 0
    ensures var w' := DoFdPass(w, rev, now);
            && w' == With(w, w') && w'.pc == w.pc[Me(w) := FdYield(w.s.nswitch, |w.s.runq|)]
            && w'.s == w.s.(running := None, runq := w.s.runq + [Me(w)], system := w'.s.system, count := w'.s.count)
  {
    hide DoPoll; hide YieldAt;
    var n := w.s.nswitch;
    var w1 := if w.pc[Me(w)].FdFresh? then DoSystem(w) else w;
    YieldEnds(w, w1, FdYield(n, |w1.s.runq|));
  }

  /**
   A turn of fdtask that polls.  The run queue was empty; it now holds, each once, the tasks for
   whose slot poll reports an event and the sleepers whose alarm has passed, and then fdtask.
   Slots without an event and sleepers not yet due stay as they were.
   */
  lemma PollReadies(w: World, rev: seq<int>, now1: nat, now2: nat)
    requires Inv(w) && Enabled(w, FdPass(rev, now1, now2))
    requires w.pc[Me(w)].FdYield? && w.s.nswitch - w.pc[Me(w)].n - 1 <= 0
    ensures |rev| == |w.fd.slots| && w.s.runq == []
    ensures var (w', me) := (Next(w, FdPass(rev, now1, now2)), Me(w));
            var q := w'.s.runq;
            && NoDup(q) && q != [] && q[|q| - 1] == me && w'.s.running.None? && w'.clock == now2
            && (forall t :: t in q <==> t == me || WokenBy(w.fd, rev, now2, t))
            && EventsLeave(w.fd.slots, rev, w'.fd.slots) && DueLeave(w.fd.sleeping, now2, w'.fd.sleeping)
            && w'.pc == w.pc[me := FdYield(w.s.nswitch, |q| - 1)]
            && w'.cs == w.cs && w'.ql == w.ql && w'.rw == w.rw && w'.rz == w.rz && w'.status == w.status
  {
    hide *;
    var op := FdPass(rev, now1, now2);
    CallIs(w, op);
    StepIs(w, op);
    Polls(w, now2);
    PollsOnlyWhenIdle(w, rev, now1, now2);
    LT.InvPlace(w);
    TT.SleepersSorted(w);
    OnceInTable(w);
    PollDecides(w, rev, now2);
    PollTurn(w, rev, now2);
    StepInv(w, op);
    LT.InvPlace(Next(w, op));
    OnceReady(Next(w, op));
    var q := DoPoll(w, rev, now2).s.runq;
    assert forall t :: t in q + [Me(w)] <==> t in q || t == Me(w);
  }

  lemma Polls(w: World, now: nat)
    requires w.s.running.Some? && Me(w) in w.pc && w.pc[Me(w)].FdYield?
    ensures ReturnValue(w, now) == w.s.nswitch - w.pc[Me(w)].n - 1
  {
  }

  lemma OnceInTable(w: World)
    requires PlaceInv(w)
    ensures NoDup(Polled(w.fd.slots))
  {
    assert NoDup(Queue(w, Polling));
  }

  lemma OnceReady(w: World)
    requires PlaceInv(w)
    ensures NoDup(w.s.runq)
  {
    assert NoDup(Queue(w, RunQueue));
  }

  lemma PollTurn(w: World, rev: seq<int>, now: nat)
    requires w.s.running.Some? && Me(w) in w.pc && w.pc[Me(w)].FdYield? && |rev| == |w.fd.slots| && ReturnValue(w, now) <= 0
    ensures var (w1, w') := (DoPoll(w, rev, now), DoFdPass(w, rev, now));
            && w'.s.runq == w1.s.runq + [Me(w)] && w'.s.running.None? && w'.fd == w1.fd && w'.clock == w1.clock
            && w'.pc == w.pc[Me(w) := FdYield(w.s.nswitch, |w1.s.runq|)] && w'.status == w.status
            && w'.cs == w.cs && w'.ql == w.ql && w'.rw == w.rw && w'.rz == w.rz
  {
    hide DoPoll; hide YieldAt; hide ReturnValue;
    var w1 := DoPoll(w, rev, now);
    YieldEnds(w, w1, FdYield(w.s.nswitch, |w1.s.runq|));
  }
}
