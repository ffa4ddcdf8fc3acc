/** The arithmetic of the sieve: repeated filtering leaves a stream whose head is the next prime. */
module Primes {

  predicate Divides(d: int, n: int) { d != 0 && n % d == 0 }

  ghost predicate IsPrime(n: int) {
    n >= 2 && forall d :: 2 <= d < n ==> !Divides(d, n)
  }

  /** No prime found so far divides `n`. */
  ghost predicate Survives(n: int, ps: seq<int>) {
    forall k :: 0 <= k < |ps| ==> !Divides(ps[k], n)
  }

  /** The numbers from 2 up to but excluding `n` that no element of `ps` divides, in order. */
  ghost function Survivors(n: int, ps: seq<int>): seq<int>
    decreases n
  {
    if n <= 2 then []
    else if Survives(n - 1, ps) then Survivors(n - 1, ps) + [n - 1]
    else Survivors(n - 1, ps)
  }

  /** The primes below `n`, in order. */
  ghost function PrimesBelow(n: int): seq<int>
    decreases n
  {
    if n <= 2 then []
    else if IsPrime(n - 1) then PrimesBelow(n - 1) + [n - 1]
    else PrimesBelow(n - 1)
  }

  /** What a stage with prime `p` passes on. */
  function Filter(p: int, s: seq<int>): seq<int> {
    if s == [] then []
    else
      var n := |s| - 1;
      if Divides(p, s[n]) then Filter(p, s[..n]) else Filter(p, s[..n]) + [s[n]]
  }

  lemma FilterAppend(p: int, s: seq<int>, x: int)
    ensures Filter(p, s + [x]) == if Divides(p, x) then Filter(p, s) else Filter(p, s) + [x]
  {
    assert (s + [x])[..|s|] == s;
  }

  lemma {:induction false} FilterSurvivors(p: int, n: int, ps: seq<int>)
    ensures Filter(p, Survivors(n, ps)) == Survivors(n, ps + [p])
    decreases n
  {
    if n > 2 {
      FilterSurvivors(p, n - 1, ps);
      if Survives(n - 1, ps) { FilterAppend(p, Survivors(n - 1, ps), n - 1); }
      SurvivesMore(n - 1, ps, p);
    }
  }

  lemma SurvivesMore(n: int, ps: seq<int>, p: int)
    ensures Survives(n, ps + [p]) <==> Survives(n, ps) && !Divides(p, n)
  {
    assert (ps + [p])[|ps|] == p;
    assert forall k :: 0 <= k < |ps| ==> (ps + [p])[k] == ps[k];
  }

  /** `s` is the beginning of the stream of numbers that survive `ps`. */
  ghost predicate IsStream(s: seq<int>, ps: seq<int>) {
    exists n :: s == Survivors(n, ps)
  }

  lemma {:induction false} StreamPrefixAt(n: int, ps: seq<int>, k: nat) returns (m: int)
    requires k <= |Survivors(n, ps)|
    ensures Survivors(n, ps)[..k] == Survivors(m, ps)
    decreases n
  {
    if k == |Survivors(n, ps)| {
      m := n;
    } else {
      m := StreamPrefixAt(n - 1, ps, k);
    }
  }

  lemma StreamPrefix(s: seq<int>, u: seq<int>, ps: seq<int>)
    requires IsStream(s, ps) && u <= s
    ensures IsStream(u, ps)
  {
    var n :| s == Survivors(n, ps);
    var m := StreamPrefixAt(n, ps, |u|);
    assert u == Survivors(m, ps);
  }

  lemma StreamFilter(p: int, s: seq<int>, ps: seq<int>)
    requires IsStream(s, ps)
    ensures IsStream(Filter(p, s), ps + [p])
  {
    var n :| s == Survivors(n, ps);
    FilterSurvivors(p, n, ps);
  }

  /** The first survivor, and that nothing below it survives. */
  lemma {:induction false} HeadSurvives(n: int, ps: seq<int>)
    requires Survivors(n, ps) != []
    ensures var h := Survivors(n, ps)[0];
            2 <= h && Survives(h, ps) && forall x :: 2 <= x < h ==> !Survives(x, ps)
    decreases n
  {
    if Survivors(n - 1, ps) != [] {
      HeadSurvives(n - 1, ps);
    } else {
      EmptySurvivors(n - 1, ps);
    }
  }

  lemma {:induction false} EmptySurvivors(n: int, ps: seq<int>)
    requires Survivors(n, ps) == []
    ensures forall x :: 2 <= x < n ==> !Survives(x, ps)
    decreases n
  {
    if n > 2 { EmptySurvivors(n - 1, ps); }
  }

  lemma {:induction false} PrimesBelowIs(n: int)
    ensures forall x :: x in PrimesBelow(n) <==> x < n && IsPrime(x)
    decreases n
  {
    if n > 2 { PrimesBelowIs(n - 1); }
  }

  lemma {:induction false} PrimesAscend(n: int)
    ensures forall i, j :: 0 <= i < j < |PrimesBelow(n)| ==> PrimesBelow(n)[i] < PrimesBelow(n)[j]
    decreases n
  {
    if n > 2 {
      PrimesAscend(n - 1);
      PrimesBelowIs(n - 1);
      var ps := PrimesBelow(n - 1);
      assert forall i :: 0 <= i < |ps| ==> ps[i] in ps;
    }
  }

  lemma {:induction false} PrimesBelowSame(m: int, n: int)
    requires m <= n && forall x :: m <= x < n ==> !IsPrime(x)
    ensures PrimesBelow(m) == PrimesBelow(n)
    decreases n - m
  {
    if m < n { PrimesBelowSame(m, n - 1); }
  }

  /** Every number has a prime divisor. */
  lemma {:induction false} PrimeDivisor(n: int) returns (q: int)
    requires n >= 2
    ensures IsPrime(q) && Divides(q, n) && q <= n
    decreases n
  {
    if IsPrime(n) {
      q := n;
    } else {
      var d :| 2 <= d < n && Divides(d, n);
      q := PrimeDivisor(d);
      DividesTrans(q, d, n);
    }
  }

  lemma DividesTrans(a: int, b: int, c: int)
    requires a > 0 && b > 0 && Divides(a, b) && Divides(b, c)
    ensures Divides(a, c)
  {
    var x, y := b / a, c / b;
    assert b == a * x && c == b * y;
    assert c == a * (x * y);
    MultipleDivides(a, x * y);
  }

  lemma MultipleDivides(a: int, k: int)
    requires a > 0
    ensures (a * k) % a == 0
  {
    var q, r := (a * k) / a, (a * k) % a;
    assert a * k == a * q + r;
    assert r == a * (k - q);
    Bounds(a, k - q);
  }

  lemma Bounds(a: int, d: int)
    requires a > 0 && 0 <= a * d < a
    ensures d == 0 && a * d == 0
  {
    if d >= 1 {
      assert a * d == a + a * (d - 1);
      Product(a, d - 1);
      assert false;
    } else if d <= -1 {
      assert a * d == -(a * (-d));
      assert a * (-d) == a + a * (-d - 1);
      Product(a, -d - 1);
      assert false;
    }
  }

  lemma Product(a: int, b: int)
    requires a >= 0 && b >= 0
    ensures a * b >= 0
  {
  }

  lemma SmallerNotDivided(d: int, n: int)
    requires d > n > 0
    ensures !Divides(d, n)
  {
  }

  /** A prime is divided by no other prime. */
  lemma OnlyItself(q: int, p: int)
    requires IsPrime(q) && IsPrime(p) && Divides(p, q)
    ensures p == q
  {
    if p > q { SmallerNotDivided(p, q); }
  }

  lemma FoundDivisor(q: int, ps: seq<int>)
    requires !Survives(q, ps) && IsPrime(q) && forall p :: p in ps ==> IsPrime(p)
    ensures q in ps
  {
    var k :| 0 <= k < |ps| && Divides(ps[k], q);
    OnlyItself(q, ps[k]);
  }

  lemma NotFound(h: int, ps: seq<int>)
    requires Survives(h, ps) && h >= 2
    ensures h !in ps
  {
    assert Divides(h, h);
  }

  /** A survivor below which nothing survives is prime. */
  lemma LeastSurvivor(h: int, ps: seq<int>)
    requires h >= 2 && Survives(h, ps) && forall x :: 2 <= x < h ==> !Survives(x, ps)
    requires forall p :: p in ps ==> IsPrime(p)
    ensures IsPrime(h)
  {
    var q := PrimeDivisor(h);
    if q < h {
      FoundDivisor(q, ps);
    }
  }

  /** The head of the stream that has survived all primes found so far is the next prime. */
  lemma HeadIsNextPrime(s: seq<int>, ps: seq<int>, m: int)
    requires IsStream(s, ps) && s != [] && ps == PrimesBelow(m)
    ensures IsPrime(s[0]) && ps == PrimesBelow(s[0]) && ps + [s[0]] == PrimesBelow(s[0] + 1)
  {
    var n :| s == Survivors(n, ps);
    HeadSurvives(n, ps);
    var h := s[0];
    PrimesBelowIs(m);
    hide Survives; hide IsPrime; hide PrimesBelow; hide Survivors;
    LeastSurvivor(h, ps);
    NotFound(h, ps);
    NextPrime(ps, m, h);
  }

  lemma NextPrime(ps: seq<int>, m: int, h: int)
    requires ps == PrimesBelow(m) && IsPrime(h) && h !in ps
    requires h >= 2 && forall x :: 2 <= x < h ==> !Survives(x, ps)
    ensures ps == PrimesBelow(h) && ps + [h] == PrimesBelow(h + 1)
  {
    PrimesBelowIs(m);
    hide Survives; hide Divides;
    forall x | m <= x < h ensures !IsPrime(x) {
      if IsPrime(x) { FoundDivisor(x, ps); }
    }
    PrimesBelowSame(m, h);
  }

  /** When the next prime is beyond the goal, all primes up to the goal have been found. */
  lemma AllUpTo(ps: seq<int>, p: int, goal: int)
    requires ps == PrimesBelow(p) && goal < p && forall x :: x in ps ==> x <= goal
    ensures ps == PrimesBelow(goal + 1)
  {
    PrimesBelowIs(p);
    PrimesBelowSame(goal + 1, p);
  }
}
