/** Options, sequences without repetition, and tagged logs. */
module Util {

  datatype Option<+T> = None | Some(value: T)

  /** No element occurs twice. */
  ghost predicate NoDup<T>(s: seq<T>) {
    forall i, j :: 0 <= i < j < |s| ==> s[i] != s[j]
  }

  /** The elements of a sequence. */
  function Elems<T>(s: seq<T>): set<T> {
    set x | x in s
  }

  lemma NoDupConcat<T>(s: seq<T>, u: seq<T>)
    requires NoDup(s) && NoDup(u)
    requires forall x :: x in u ==> x !in s
    ensures NoDup(s + u)
  {
    forall i, j | 0 <= i < j < |s + u| ensures (s + u)[i] != (s + u)[j] {
      if j >= |s| {
        assert (s + u)[j] == u[j - |s|];
        assert (s + u)[j] in u;
      }
    }
  }

  /** Splitting a repetition-free sequence separates its parts. */
  lemma NoDupSplit<T>(s: seq<T>, n: nat)
    requires NoDup(s) && n <= |s|
    ensures NoDup(s[..n]) && NoDup(s[n..])
    ensures forall x :: x in s[n..] <==> x in s && x !in s[..n]
  {
    forall x | x in s && x !in s[..n] ensures x in s[n..] {
      var i :| 0 <= i < |s| && s[i] == x;
      assert i >= n by {
        assert forall j :: 0 <= j < n ==> s[j] == s[..n][j];
      }
      assert s[n..][i - n] == x;
    }
    forall x | x in s[n..] ensures x in s && x !in s[..n] {
      var i :| 0 <= i < |s| - n && s[n..][i] == x;
      assert s[n + i] == x;
    }
  }

  /** Replace element `i` by the last one and drop the last slot. */
  function SwapDelete<T>(s: seq<T>, i: nat): seq<T>
    requires i < |s|
  {
    s[i := s[|s| - 1]][..|s| - 1]
  }

  /** Swap-delete takes out element `i` and nothing else. */
  lemma SwapDeleteRemoves<T>(s: seq<T>, i: nat)
    requires i < |s|
    ensures multiset(SwapDelete(s, i)) + multiset{s[i]} == multiset(s)
  {
    var n := |s| - 1;
    var u := s[i := s[n]];
    assert u == SwapDelete(s, i) + [s[n]];
    hide *;
    assert multiset(u) == multiset(s) - multiset{s[i]} + multiset{s[n]};
    assert multiset(u) == multiset(SwapDelete(s, i)) + multiset{s[n]};
    assert s[i] in multiset(s);
    Exchange(multiset(SwapDelete(s, i)), multiset(s), s[i], s[n]);
  }

  lemma Exchange<T>(a: multiset<T>, b: multiset<T>, x: T, y: T)
    requires a + multiset{y} == b - multiset{x} + multiset{y} && x in b
    ensures a + multiset{x} == b
  {
    forall z ensures (a + multiset{x})[z] == b[z] {
      assert (a + multiset{y})[z] == (b - multiset{x} + multiset{y})[z];
    }
  }

  lemma SwapDeleteNoDup<T>(s: seq<T>, i: nat)
    requires i < |s| && NoDup(s)
    ensures NoDup(SwapDelete(s, i)) && Elems(SwapDelete(s, i)) == Elems(s) - {s[i]}
  {
    var n, d := |s| - 1, SwapDelete(s, i);
    assert forall j :: 0 <= j < n ==> d[j] == (if j == i then s[n] else s[j]);
    forall x | x in s && x != s[i] ensures x in d {
      var j :| 0 <= j < |s| && s[j] == x;
      assert d[if j == n then i else j] == x;
    }
  }

  function IndexOf<T(==)>(s: seq<T>, x: T): (i: nat)
    requires x in s
    ensures i < |s| && s[i] == x && x !in s[..i]
  {
    if s[0] == x then 0
    else
      assert x in s[1..];
      var j := IndexOf(s[1..], x);
      assert s[..j + 1] == [s[0]] + s[1..][..j];
      j + 1
  }

  lemma NoDupParts<T>(u: seq<T>, v: seq<T>)
    requires NoDup(u + v)
    ensures NoDup(u) && NoDup(v)
    ensures forall x :: x in u ==> x !in v
  {
    NoDupSplit(u + v, |u|);
    assert (u + v)[..|u|] == u && (u + v)[|u|..] == v;
  }

  lemma NoDupSize<T>(s: seq<T>)
    requires NoDup(s)
    ensures |Elems(s)| == |s|
  {
    if s == [] {
      assert Elems(s) == {};
    } else {
      var n := |s| - 1;
      NoDupSplit(s, n);
      NoDupSize(s[..n]);
      assert s[n] !in s[..n];
      assert Elems(s) == Elems(s[..n]) + {s[n]} by {
        assert s == s[..n] + [s[n]];
      }
    }
  }

  /** Queues compose: what enters and leaves in two stretches of a run enters and leaves in both together. */
  lemma QueueCompose<T>(q: seq<T>, in1: seq<T>, out1: seq<T>, mid: seq<T>, in2: seq<T>, out2: seq<T>, end: seq<T>)
    requires q + in1 == out1 + mid && mid + in2 == out2 + end
    ensures q + (in1 + in2) == (out1 + out2) + end
  {
    assert q + (in1 + in2) == (q + in1) + in2;
    assert (out1 + mid) + in2 == out1 + (mid + in2);
    assert out1 + (out2 + end) == (out1 + out2) + end;
  }

  /** The second components of a tagged log, in order. */
  function Vals<K, V>(log: seq<(K, V)>): (r: seq<V>)
    ensures |r| == |log|
    ensures forall i :: 0 <= i < |log| ==> r[i] == log[i].1
  {
    if log == [] then [] else Vals(log[..|log| - 1]) + [log[|log| - 1].1]
  }

  lemma ValsAppend<K, V>(log: seq<(K, V)>, k: K, v: V)
    ensures Vals(log + [(k, v)]) == Vals(log) + [v]
  {
    assert (log + [(k, v)])[..|log|] == log;
  }

  /** The entries of a tagged log that carry tag `k`, in order. */
  function Of<K(==), V>(log: seq<(K, V)>, k: K): seq<V> {
    if log == [] then []
    else
      var n := |log| - 1;
      if log[n].0 == k then Of(log[..n], k) + [log[n].1] else Of(log[..n], k)
  }

  lemma OfAppend<K, V>(log: seq<(K, V)>, j: K, v: V, k: K)
    ensures Of(log + [(j, v)], k) == if j == k then Of(log, k) + [v] else Of(log, k)
  {
    assert (log + [(j, v)])[..|log|] == log;
  }
}
