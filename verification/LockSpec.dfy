/**
 Hand-off locks, reader-writer locks and rendezvous points (qlock.c, rendez.c) as
 functions on values, for an arbitrary type `T` of tasks.  Each blocking call is cut
 at its task switch: the functions here give the part before the switch.
 */
module LockSpec {
  import opened Util

  datatype Attempt = Got | Refused | Queued

  // ---- QLock ----

  datatype QLock<T> = QLock(owner: Option<T>, waiting: seq<T>)

  /** _qlock up to its task switch. */
  function QTry<T>(l: QLock<T>, me: T, block: bool): (QLock<T>, Attempt) {
    if l.owner.None? then (l.(owner := Some(me)), Got)
    else if !block then (l, Refused)
    else (l.(waiting := l.waiting + [me]), Queued)
  }

  /** The lock after a release, and the tasks made ready; None is the "owner=0" abort. */
  function QRelease<T>(l: QLock<T>): Option<(QLock<T>, seq<T>)> {
    if l.owner.None? then None
    else if l.waiting == [] then Some((l.(owner := None), []))
    else Some((QLock(Some(l.waiting[0]), l.waiting[1..]), [l.waiting[0]]))
  }

  // ---- RWLock ----

  /** `holders` is a history variable: the tasks granted a read lock and not yet released. */
  datatype RWLock<T> = RWLock(
    readers: int, writer: Option<T>, rwaiting: seq<T>, wwaiting: seq<T>, holders: multiset<T>)

  /** _rlock up to its task switch. */
  function RTry<T(==)>(l: RWLock<T>, me: T, block: bool): (RWLock<T>, Attempt) {
    if l.writer.None? && l.wwaiting == [] then
      (l.(readers := l.readers + 1, holders := l.holders + multiset{me}), Got)
    else if !block then (l, Refused)
    else (l.(rwaiting := l.rwaiting + [me]), Queued)
  }

  /** _wlock up to its task switch. */
  function WTry<T(==)>(l: RWLock<T>, me: T, block: bool): (RWLock<T>, Attempt) {
    if l.writer.None? && l.readers == 0 then (l.(writer := Some(me)), Got)
    else if !block then (l, Refused)
    else (l.(wwaiting := l.wwaiting + [me]), Queued)
  }

  /** Give the lock to the first waiting writer, if there is one. */
  function GrantWriter<T(==)>(l: RWLock<T>): (RWLock<T>, seq<T>) {
    if l.wwaiting == [] then (l, [])
    else (l.(writer := Some(l.wwaiting[0]), wwaiting := l.wwaiting[1..]), [l.wwaiting[0]])
  }

  /** runlock called by `me`. */
  function RRelease<T(==)>(l: RWLock<T>, me: T): (RWLock<T>, seq<T>) {
    var l1 := l.(readers := l.readers - 1, holders := l.holders - multiset{me});
    if l1.readers == 0 then GrantWriter(l1) else (l1, [])
  }

  /** wunlock; None stands for its two aborts, "not locked" and "readers". */
  function WRelease<T(==)>(l: RWLock<T>): Option<(RWLock<T>, seq<T>)> {
    if l.writer.None? || l.readers != 0 then None
    else
      var l1 := l.(writer := None, readers := |l.rwaiting|, rwaiting := [],
                   holders := l.holders + multiset(l.rwaiting));
      if l1.readers == 0 then Some(GrantWriter(l1)) else Some((l1, l.rwaiting))
  }

  // ---- Rendez ----

  /** The tasks still asleep and the tasks awakened by _taskwakeup. */
  function Wakeup<T>(waiting: seq<T>, all: bool): (seq<T>, seq<T>) {
    if all then ([], waiting)
    else if waiting == [] then ([], [])
    else (waiting[1..], [waiting[0]])
  }

  /**
   What taskwakeup returns, in general and on a point where nobody sleeps: it is 1 if and only
   if somebody sleeps, and 0 otherwise.
   */
  lemma WakeupCount<T>(waiting: seq<T>)
    ensures |Wakeup(waiting, false).1| == 1 <==> waiting != []
    ensures |Wakeup(waiting, false).1| == 0 <==> waiting == []
    ensures |Wakeup<T>([], false).1| == 0
    ensures |Wakeup(waiting, true).1| == |waiting|
  {
  }

  // ---- Invariants ----

  /** Somebody waiting implies somebody who will hand the lock over. */
  ghost predicate QInv<T>(l: QLock<T>) {
    l.waiting != [] ==> l.owner.Some?
  }

  ghost predicate RWInv<T>(l: RWLock<T>) {
    && l.readers == |l.holders|
    && (l.writer.Some? ==> l.readers == 0)
    && (l.rwaiting != [] ==> l.writer.Some? || l.wwaiting != [])
    && (l.wwaiting != [] ==> l.writer.Some? || l.readers > 0)
  }

  /** A lock that nobody holds has no waiters. */
  lemma FreeLockHasNoWaiters<T>(l: RWLock<T>)
    requires RWInv(l) && l.writer.None? && l.readers == 0
    ensures l.rwaiting == [] && l.wwaiting == [] && l.holders == multiset{}
  {
  }
}
