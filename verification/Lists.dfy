/**
 The intrusive lists of task.c.  Every task has one pair of links, shared by all lists it may
 ever be in, so each operation is correct only because no two lists have a task in common.
 */
module Lists {
  import opened Util

  class Task {
    var next: Task?
    var prev: Task?
    var alarmtime: nat
    var alltaskslot: nat
    const id: nat
    var exiting: bool
    var system: bool
    var ready: bool

    constructor (id: nat)
      ensures this.id == id && !exiting && !system && !ready
    {
      this.id := id;
      next, prev, alarmtime, alltaskslot := null, null, 0, 0;
      exiting, system, ready := false, false, false;
    }
  }

  /** The links of the tasks in `s` run through `s`. */
  ghost predicate Linked(s: seq<Task>)
    reads s`next, s`prev
  {
    && (forall i {:trigger s[i].prev} :: 0 <= i < |s| ==> s[i].prev == if i == 0 then null else s[i - 1])
    && (forall i {:trigger s[i].next} :: 0 <= i < |s| ==> s[i].next == if i == |s| - 1 then null else s[i + 1])
  }

  class Tasklist {
    var head: Task?
    var tail: Task?
    ghost var elems: seq<Task>

    ghost predicate Valid()
      reads this, elems`next, elems`prev
    {
      && NoDup(elems) && Linked(elems)
      && head == (if elems == [] then null else elems[0])
      && tail == (if elems == [] then null else elems[|elems| - 1])
    }

    constructor ()
      ensures Valid() && elems == []
    {
      head, tail, elems := null, null, [];
    }

    /** A list none of whose tasks has been relinked. */
    twostate lemma Untouched()
      requires old(Valid()) && elems == old(elems) && head == old(head) && tail == old(tail)
      requires forall u :: u in elems ==> u.next == old(u.next) && u.prev == old(u.prev)
      ensures Valid()
    {
    }

    /** addtask. */
    method Add(t: Task, ghost lists: set<Tasklist>, ghost tasks: set<Task>)
      requires Apart(lists, tasks) && this in lists && Loose(lists, t) && t in tasks
      modifies this, elems`next, elems`prev, t`next, t`prev
      ensures Apart(lists, tasks) && elems == old(elems) + [t]
    {
      hide *;
      ApartFacts(lists, tasks);
      LooseFacts(lists, t);
      Append(t);
      forall m | m in lists ensures m.Valid() {
        if m != this { m.Untouched(); }
      }
      ApartFacts(lists, tasks);
    }

    method Append(t: Task)
      requires Valid() && t !in elems
      modifies this, elems`next, elems`prev, t`next, t`prev
      ensures Valid() && elems == old(elems) + [t]
    {
      if tail != null {
        tail.next := t;
        t.prev := tail;
      } else {
        head := t;
        t.prev := null;
      }
      tail := t;
      t.next := null;
      elems := elems + [t];
    }

    /** The insertion of taskdelay: link `t` in before `at`, or at the end. */
    method Insert(t: Task, at: Task?, ghost i: nat, ghost lists: set<Tasklist>, ghost tasks: set<Task>)
      requires Apart(lists, tasks) && this in lists && Loose(lists, t) && t in tasks
      requires i <= |elems| && at == if i == |elems| then null else elems[i]
      modifies this, elems`next, elems`prev, t`next, t`prev
      ensures Apart(lists, tasks) && elems == old(elems[..i] + [t] + elems[i..])
    {
      hide *;
      ApartFacts(lists, tasks);
      LooseFacts(lists, t);
      Splice(t, at, i);
      forall m | m in lists ensures m.Valid() {
        if m != this { m.Untouched(); }
      }
      ApartFacts(lists, tasks);
    }

    method Splice(t: Task, at: Task?, ghost i: nat)
      requires Valid() && t !in elems && i <= |elems| && at == if i == |elems| then null else elems[i]
      modifies this, elems`next, elems`prev, t`next, t`prev
      ensures Valid() && elems == old(elems[..i] + [t] + elems[i..])
    {
      hide Apart; hide Loose;
      if at != null {
        t.prev := at.prev;
        t.next := at;
      } else {
        t.prev := tail;
        t.next := null;
      }
      if t.prev != null { t.prev.next := t; } else { head := t; }
      if t.next != null { t.next.prev := t; } else { tail := t; }
      elems := elems[..i] + [t] + elems[i..];
    }

    /** deltask: unlink the `i`-th task. */
    method Del(t: Task, ghost i: nat, ghost lists: set<Tasklist>, ghost tasks: set<Task>)
      requires Apart(lists, tasks) && this in lists && i < |elems| && t == elems[i]
      modifies this, elems`next, elems`prev
      ensures Apart(lists, tasks) && Loose(lists, t) && elems == old(elems[..i] + elems[i + 1..])
    {
      hide *;
      ApartFacts(lists, tasks);
      Unlink(t, i);
      forall m | m in lists ensures m.Valid() {
        if m != this { m.Untouched(); }
      }
      ApartFacts(lists, tasks);
      LooseFacts(lists, t);
    }

    method Unlink(t: Task, ghost i: nat)
      requires Valid() && i < |elems| && t == elems[i]
      modifies this, elems`next, elems`prev
      ensures Valid() && elems == old(elems[..i] + elems[i + 1..]) && t !in elems
    {
      if t.prev != null { t.prev.next := t.next; } else { head := t.next; }
      if t.next != null { t.next.prev := t.prev; } else { tail := t.prev; }
      elems := elems[..i] + elems[i + 1..];
    }
  }

  /** The lists hold tasks of `tasks`, every list is well formed, and no task is in two of them. */
  ghost predicate Apart(lists: set<Tasklist>, tasks: set<Task>)
    reads lists, tasks`next, tasks`prev
  {
    && (forall l, t :: l in lists && t in l.elems ==> t in tasks)
    && (forall l :: l in lists ==> l.Valid())
    && (forall l, m, t :: l in lists && m in lists && t in l.elems && t in m.elems ==> l == m)
  }

  /** Task `t` is in no list. */
  ghost predicate Loose(lists: set<Tasklist>, t: Task)
    reads lists
  {
    forall l :: l in lists ==> t !in l.elems
  }

  lemma LooseFacts(lists: set<Tasklist>, t: Task)
    ensures Loose(lists, t) <==> forall l :: l in lists ==> t !in l.elems
  {
  }

  lemma ApartFacts(lists: set<Tasklist>, tasks: set<Task>)
    ensures Apart(lists, tasks) <==>
              && (forall l, t :: l in lists && t in l.elems ==> t in tasks)
              && (forall l :: l in lists ==> l.Valid())
              && (forall l, m, t :: l in lists && m in lists && t in l.elems && t in m.elems ==> l == m)
  {
    hide Linked;
  }
}
