/**
 Runs of one lock: every sequence of calls that the client discipline allows, by any
 tasks in any order.  The fairness bounds of qlock.c and rendez.c are theorems about
 these runs; module World shows that every lock in every run of the library is one.
 */
module LockRuns {
  import opened Util
  import opened LockSpec

  // ---- QLock ----

  datatype QCall<T> = QAcquire(t: T, block: bool) | QUnlock

  function QNext<T(==)>(l: QLock<T>, c: QCall<T>): QLock<T> {
    match c
    case QAcquire(t, block) => QTry(l, t, block).0
    case QUnlock => match QRelease(l) case Some(r) => r.0 case None => l
  }

  /** Only an owned lock is released. */
  ghost predicate QAllowed<T>(l: QLock<T>, c: QCall<T>) {
    c.QUnlock? ==> l.owner.Some?
  }

  function QAfter<T(==)>(l: QLock<T>, cs: seq<QCall<T>>): QLock<T>
    decreases |cs|
  {
    if cs == [] then l else QAfter(QNext(l, cs[0]), cs[1..])
  }

  ghost predicate QRun<T>(l: QLock<T>, cs: seq<QCall<T>>)
    decreases |cs|
  {
    cs == [] || (QAllowed(l, cs[0]) && QRun(QNext(l, cs[0]), cs[1..]))
  }

  /** The task that one call puts in line: it takes the lock or joins the queue. */
  function QRequest<T(==)>(l: QLock<T>, c: QCall<T>): seq<T> {
    if c.QAcquire? && QTry(l, c.t, c.block).1 != Refused then [c.t] else []
  }

  /** The task that becomes owner through one call. */
  function QGrant<T(==)>(l: QLock<T>, c: QCall<T>): seq<T> {
    var l' := QNext(l, c);
    if l'.owner.Some? && (c.QUnlock? || l.owner.None?) then [l'.owner.value] else []
  }

  function QRequests<T(==)>(l: QLock<T>, cs: seq<QCall<T>>): seq<T>
    decreases |cs|
  {
    if cs == [] then [] else QRequest(l, cs[0]) + QRequests(QNext(l, cs[0]), cs[1..])
  }

  function QGrants<T(==)>(l: QLock<T>, cs: seq<QCall<T>>): seq<T>
    decreases |cs|
  {
    if cs == [] then [] else QGrant(l, cs[0]) + QGrants(QNext(l, cs[0]), cs[1..])
  }

  lemma QStep<T>(l: QLock<T>, c: QCall<T>)
    requires QInv(l) && QAllowed(l, c)
    ensures QInv(QNext(l, c))
    ensures l.waiting + QRequest(l, c) == QGrant(l, c) + QNext(l, c).waiting
  {
  }

  /** First come, first served: grants follow requests, and nobody overtakes the queue. */
  lemma {:induction false} QLockIsFifo<T>(l: QLock<T>, cs: seq<QCall<T>>)
    requires QInv(l) && QRun(l, cs)
    ensures QInv(QAfter(l, cs))
    ensures l.waiting + QRequests(l, cs) == QGrants(l, cs) + QAfter(l, cs).waiting
    decreases |cs|
  {
    if cs != [] {
      var c, l' := cs[0], QNext(l, cs[0]);
      QStep(l, c);
      QLockIsFifo(l', cs[1..]);
      QueueCompose(l.waiting, QRequest(l, c), QGrant(l, c), l'.waiting,
                   QRequests(l', cs[1..]), QGrants(l', cs[1..]), QAfter(l, cs).waiting);
    }
  }

  // ---- RWLock ----

  datatype RWCall<T> =
    RAcquire(t: T, block: bool) | WAcquire(t: T, block: bool) | RUnlock(t: T) | WUnlock(t: T)

  /** Only holders release, and a waiting task makes no calls. */
  ghost predicate RWAllowed<T>(l: RWLock<T>, c: RWCall<T>) {
    && c.t !in l.rwaiting && c.t !in l.wwaiting
    && (c.RUnlock? ==> c.t in l.holders)
    && (c.WUnlock? ==> l.writer == Some(c.t))
  }

  function RWNext<T(==)>(l: RWLock<T>, c: RWCall<T>): RWLock<T> {
    match c
    case RAcquire(t, block) => RTry(l, t, block).0
    case WAcquire(t, block) => WTry(l, t, block).0
    case RUnlock(t) => RRelease(l, t).0
    case WUnlock(_) => match WRelease(l) case Some(r) => r.0 case None => l
  }

  /** One call: the invariant is kept, and the two aborts of wunlock are unreachable. */
  lemma RWStepKeepsInv<T>(l: RWLock<T>, c: RWCall<T>)
    requires RWInv(l) && RWAllowed(l, c)
    ensures RWInv(RWNext(l, c))
    ensures c.WUnlock? ==> WRelease(l).Some?
  {
    if c.RUnlock? {
      assert |l.holders - multiset{c.t}| == |l.holders| - 1;
    }
  }

  function RWAfter<T(==)>(l: RWLock<T>, cs: seq<RWCall<T>>): RWLock<T>
    decreases |cs|
  {
    if cs == [] then l else RWAfter(RWNext(l, cs[0]), cs[1..])
  }

  ghost predicate RWRun<T>(l: RWLock<T>, cs: seq<RWCall<T>>)
    decreases |cs|
  {
    cs == [] || (RWAllowed(l, cs[0]) && RWRun(RWNext(l, cs[0]), cs[1..]))
  }

  /** How often a task became the writer. */
  function WriterGrants<T(==)>(l: RWLock<T>, cs: seq<RWCall<T>>): nat
    decreases |cs|
  {
    if cs == [] then 0
    else
      var l' := RWNext(l, cs[0]);
      (if l'.writer.Some? && (l.writer.None? || cs[0].WUnlock?) then 1 else 0)
      + WriterGrants(l', cs[1..])
  }

  /** How often a writer's release let in the waiting readers. */
  function ReaderBatches<T(==)>(l: RWLock<T>, cs: seq<RWCall<T>>): nat
    decreases |cs|
  {
    if cs == [] then 0
    else
      (if cs[0].WUnlock? && l.rwaiting != [] then 1 else 0)
      + ReaderBatches(RWNext(l, cs[0]), cs[1..])
  }

  /** In every state of the run, the last one included, `r` waits for a read lock. */
  ghost predicate ReaderWaits<T>(l: RWLock<T>, cs: seq<RWCall<T>>, r: T)
    decreases |cs|
  {
    r in l.rwaiting && (cs == [] || ReaderWaits(RWNext(l, cs[0]), cs[1..], r))
  }

  /** One more state before a run in which `r` waits throughout; `c` is the call in between, if any. */
  lemma ReaderWaitsMore<T>(l: RWLock<T>, c: seq<RWCall<T>>, cs: seq<RWCall<T>>, l': RWLock<T>, r: T)
    requires r in l.rwaiting && ReaderWaits(l', cs, r) && |c| <= 1
    requires l' == if c == [] then l else RWNext(l, c[0])
    ensures ReaderWaits(l, c + cs, r)
  {
    if c == [] { assert c + cs == cs; } else { assert (c + cs)[1..] == cs; }
  }

  /** A queued reader sees at most one more writer come in, and none while one is in. */
  lemma {:induction false} ReaderOvertaking<T>(l: RWLock<T>, cs: seq<RWCall<T>>, r: T)
    requires RWInv(l) && RWRun(l, cs) && ReaderWaits(l, cs, r)
    ensures WriterGrants(l, cs) <= (if l.writer.None? then 1 else 0)
    decreases |cs|
  {
    if cs != [] {
      RWStepKeepsInv(l, cs[0]);
      ReaderOvertaking(RWNext(l, cs[0]), cs[1..], r);
    }
  }

  /** The release that ends that writer's turn admits every queued reader, in queue order. */
  lemma WriterReleaseAdmitsReaders<T>(l: RWLock<T>, t: T)
    requires RWInv(l) && RWAllowed(l, WUnlock(t)) && l.rwaiting != []
    ensures WRelease(l).Some? && WRelease(l).value.1 == l.rwaiting
    ensures var l' := RWNext(l, WUnlock(t));
            l'.rwaiting == [] && l'.writer.None? && forall r :: r in l.rwaiting ==> r in l'.holders
  {
    assert l.holders == multiset{};
  }

  /** `w` is at position `k` of the queue of writers. */
  ghost predicate WriterAt<T>(l: RWLock<T>, w: T, k: nat) {
    k < |l.wwaiting| && l.wwaiting[k] == w
  }

  /** `w` waits for the write lock in every state of the run. */
  ghost predicate WriterWaits<T>(l: RWLock<T>, cs: seq<RWCall<T>>, w: T)
    decreases |cs|
  {
    w in l.wwaiting && (cs == [] || WriterWaits(RWNext(l, cs[0]), cs[1..], w))
  }

  lemma WriterWaitsMore<T>(l: RWLock<T>, c: seq<RWCall<T>>, cs: seq<RWCall<T>>, l': RWLock<T>, w: T)
    requires w in l.wwaiting && WriterWaits(l', cs, w) && |c| <= 1
    requires l' == if c == [] then l else RWNext(l, c[0])
    ensures WriterWaits(l, c + cs, w)
  {
    if c == [] { assert c + cs == cs; } else { assert (c + cs)[1..] == cs; }
  }

  function WriterIn<T>(l: RWLock<T>): nat {
    if l.writer.Some? then 1 else 0
  }

  /** One call moves the queue of writers by exactly the number of grants it makes. */
  lemma WriterQueueStep<T>(l: RWLock<T>, c: RWCall<T>, w: T, k: nat)
    requires RWInv(l) && RWAllowed(l, c) && NoDup(l.wwaiting) && WriterAt(l, w, k)
    ensures var l' := RWNext(l, c);
            && NoDup(l'.wwaiting)
            && (WriterGrants(l, [c]) == 0 ==>
                  && WriterAt(l', w, k)
                  && ReaderBatches(l, [c]) + WriterIn(l') <= WriterIn(l))
            && (WriterGrants(l, [c]) > 0 ==>
                  && WriterGrants(l, [c]) == 1 && ReaderBatches(l, [c]) == 0
                  && (k == 0 ==> l'.writer == Some(w) && w !in l'.wwaiting)
                  && (k > 0 ==> WriterAt(l', w, k - 1)))
  {
    NoDupSplit(l.wwaiting, 1);
    if c.WAcquire? {
      NoDupConcat(l.wwaiting, [c.t]);
    }
    var l' := RWNext(l, c);
    assert RWAfter(l, [c]) == l';
    assert [c][1..] == [];
    assert WriterGrants(l', []) == 0 && ReaderBatches(l', []) == 0;
  }

  /**
   While `w`, queued at position `k`, keeps waiting, the writers granted so far are exactly
   those that have left the queue ahead of it, and reader batches are paid for by writers.
   */
  lemma {:induction false} WriterProgress<T>(l: RWLock<T>, cs: seq<RWCall<T>>, w: T, k: nat) returns (k': nat)
    requires RWInv(l) && RWRun(l, cs) && NoDup(l.wwaiting) && WriterAt(l, w, k)
    requires WriterWaits(l, cs, w)
    ensures var e := RWAfter(l, cs);
            && RWInv(e) && NoDup(e.wwaiting)
            && WriterAt(e, w, k') && k' <= k
            && WriterGrants(l, cs) == k - k'
            && ReaderBatches(l, cs) + k' + WriterIn(e) <= k + WriterIn(l)
    decreases |cs|
  {
    if cs == [] {
      k' := k;
    } else {
      var c := cs[0];
      var l' := RWNext(l, c);
      RWStepKeepsInv(l, c);
      WriterQueueStep(l, c, w, k);
      assert [c][1..] == [];
      assert WriterGrants(l', []) == 0 && ReaderBatches(l', []) == 0;
      assert w in l'.wwaiting;
      if WriterGrants(l, [c]) == 0 {
        k' := WriterProgress(l', cs[1..], w, k);
      } else {
        assert k > 0;
        k' := WriterProgress(l', cs[1..], w, k - 1);
      }
    }
  }

  /**
   The writer at position `k` is granted the lock after exactly `k` other writers and at
   most `k + 1` batches of readers, whatever calls arrive in between.
   */
  lemma WriterOvertaking<T>(l: RWLock<T>, cs: seq<RWCall<T>>, c: RWCall<T>, w: T, k: nat)
    requires RWInv(l) && RWRun(l, cs) && NoDup(l.wwaiting) && WriterAt(l, w, k)
    requires WriterWaits(l, cs, w)
    requires RWAllowed(RWAfter(l, cs), c) && w !in RWNext(RWAfter(l, cs), c).wwaiting
    ensures RWNext(RWAfter(l, cs), c).writer == Some(w)
    ensures WriterGrants(l, cs) == k
    ensures ReaderBatches(l, cs) <= k + WriterIn(l) <= k + 1
  {
    var k' := WriterProgress(l, cs, w, k);
    var e := RWAfter(l, cs);
    WriterQueueStep(e, c, w, k');
  }

  // ---- Rendez ----

  datatype RzCall<T> = RzSleep(t: T) | RzWake(all: bool)

  function RzNext<T>(waiting: seq<T>, c: RzCall<T>): seq<T> {
    match c
    case RzSleep(t) => waiting + [t]
    case RzWake(all) => Wakeup(waiting, all).0
  }

  function RzAfter<T>(waiting: seq<T>, cs: seq<RzCall<T>>): seq<T>
    decreases |cs|
  {
    if cs == [] then waiting else RzAfter(RzNext(waiting, cs[0]), cs[1..])
  }

  function RzSleeps<T>(cs: seq<RzCall<T>>): seq<T>
    decreases |cs|
  {
    if cs == [] then [] else (if cs[0].RzSleep? then [cs[0].t] else []) + RzSleeps(cs[1..])
  }

  function RzWakes<T>(waiting: seq<T>, cs: seq<RzCall<T>>): seq<T>
    decreases |cs|
  {
    if cs == [] then []
    else
      (if cs[0].RzWake? then Wakeup(waiting, cs[0].all).1 else []) + RzWakes(RzNext(waiting, cs[0]), cs[1..])
  }

  /** No wakeup is lost and none is invented: sleepers wake in the order they went to sleep. */
  lemma {:induction false} RendezIsFifo<T>(waiting: seq<T>, cs: seq<RzCall<T>>)
    ensures waiting + RzSleeps(cs) == RzWakes(waiting, cs) + RzAfter(waiting, cs)
    decreases |cs|
  {
    if cs != [] {
      var next := RzNext(waiting, cs[0]);
      RendezIsFifo(next, cs[1..]);
      var slept := if cs[0].RzSleep? then [cs[0].t] else [];
      var woken := if cs[0].RzWake? then Wakeup(waiting, cs[0].all).1 else [];
      assert waiting + slept == woken + next;
      QueueCompose(waiting, slept, woken, next,
                   RzSleeps(cs[1..]), RzWakes(next, cs[1..]), RzAfter(waiting, cs));
    }
  }
}
