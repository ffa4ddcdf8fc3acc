/**
 The sieve ends: a run for a given goal and buffer size has a bounded number of steps.  The
 numbers that leave remainder 1 when divided by all primes up to the goal pass every stage, so
 there cannot be many of them between taskmain and the last task; this bounds how far
 taskmain gets ahead, and a potential that grows with every step does the rest.
 */
module SieveEnds {
  import opened Util
  import opened World
  import opened Parts
  import opened Runs
  import opened Primes
  import opened Sieve
  import opened SieveFlow
  import opened SieveProofs
  import opened SieveTheorems
  import opened SieveRuns
  import CS = ChanSpec
  import CP = ChanProofs

  // ---- Numbers that every stage passes on ----

  /** How many elements of `s` leave remainder 1 when divided by `m`. */
  function Ones(s: seq<int>, m: int): (n: nat)
    requires m > 0
    ensures n <= |s|
  {
    if s == [] then 0
    else Ones(s[..|s| - 1], m) + (if (s[|s| - 1] - 1) % m == 0 then 1 else 0)
  }

  lemma OnesAppend(s: seq<int>, x: int, m: int)
    requires m > 0
    ensures Ones(s + [x], m) == Ones(s, m) + (if (x - 1) % m == 0 then 1 else 0)
  {
    assert (s + [x])[..|s|] == s;
  }

  lemma {:induction false} OnesPrefix(u: seq<int>, s: seq<int>, m: int)
    requires m > 0 && u <= s
    ensures Ones(u, m) <= Ones(s, m) <= Ones(u, m) + |s| - |u|
    decreases |s|
  {
    if u != s {
      var t := s[..|s| - 1];
      assert u <= t;
      OnesPrefix(u, t, m);
    }
  }

  lemma NotDivided(p: int, x: int, m: int)
    requires p >= 2 && m > 0 && Divides(p, m) && (x - 1) % m == 0
    ensures !Divides(p, x)
  {
    var k, j := (x - 1) / m, m / p;
    assert x - 1 == m * k && m == p * j;
    assert x == p * (j * k) + 1 by { assert (p * j) * k == p * (j * k); }
    RemainderOne(p, j * k);
  }

  lemma RemainderOne(p: int, k: int)
    requires p >= 2
    ensures (p * k + 1) % p == 1
  {
    var q, r := (p * k + 1) / p, (p * k + 1) % p;
    assert p * k + 1 == p * q + r;
    assert r - 1 == p * (k - q);
    SmallMultiple(p, k - q);
  }

  lemma SmallMultiple(p: int, d: int)
    requires p >= 2 && -1 <= p * d < p - 1
    ensures p * d == 0
  {
    if d >= 1 {
      assert p * d == p + p * (d - 1);
      Product(p, d - 1);
      assert false;
    } else if d <= -1 {
      assert p * d == -(p + p * (-d - 1));
      Product(p, -d - 1);
      assert false;
    }
  }

  lemma {:induction false} FilterOnes(p: int, s: seq<int>, m: int)
    requires p >= 2 && m > 0 && Divides(p, m)
    ensures Ones(Filter(p, s), m) == Ones(s, m)
    decreases |s|
  {
    if s != [] {
      var n := |s| - 1;
      FilterOnes(p, s[..n], m);
      if (s[n] - 1) % m == 0 { NotDivided(p, s[n], m); }
      OnesAppend(Filter(p, s[..n]), s[n], m);
    }
  }

  lemma {:induction false} FilterLength(p: int, s: seq<int>)
    ensures |Filter(p, s)| <= |s|
    decreases |s|
  {
    if s != [] { FilterLength(p, s[..|s| - 1]); }
  }

  /** Among all numbers from 2 up, every `m`-th one counts. */
  lemma {:induction false} SurvivorsOnes(n: int, m: int)
    requires m > 0 && n >= 2
    ensures |Survivors(n, [])| == n - 2
    ensures n - 2 < m * (Ones(Survivors(n, []), m) + 1)
    decreases n
  {
    if n > 2 {
      SurvivorsOnes(n - 1, m);
      var s := Survivors(n - 1, []);
      assert Survives(n - 1, []);
      assert Survivors(n, []) == s + [n - 1];
      OnesAppend(s, n - 1, m);
      OnesStep(n - 2, m, Ones(s, m));
    }
  }

  lemma OnesStep(x: int, m: int, k: nat)
    requires m > 0 && x >= 1 && x - 1 < m * (k + 1)
    ensures x < m * (k + (if x % m == 0 then 1 else 0) + 1)
  {
    if x % m == 0 {
      assert m * (k + 2) == m * (k + 1) + m;
    } else if x == m * (k + 1) {
      MultipleDivides(m, k + 1);
    }
  }

  // ---- The primes up to the goal ----

  function Times(ps: seq<int>): int {
    if ps == [] then 1 else Times(ps[..|ps| - 1]) * ps[|ps| - 1]
  }

  lemma {:induction false} TimesPositive(ps: seq<int>)
    requires forall p :: p in ps ==> p > 0
    ensures Times(ps) > 0
    decreases |ps|
  {
    if ps != [] {
      var n := |ps| - 1;
      assert forall p :: p in ps[..n] ==> p in ps;
      TimesPositive(ps[..n]);
      assert ps[n] in ps;
      PositiveProduct(Times(ps[..n]), ps[n]);
    }
  }

  lemma PositiveProduct(a: int, b: int)
    requires a > 0 && b > 0
    ensures a * b > 0
  {
  }

  lemma {:induction false} DividesTimes(ps: seq<int>, k: nat)
    requires k < |ps| && forall p :: p in ps ==> p > 0
    ensures Divides(ps[k], Times(ps))
    decreases |ps|
  {
    var n := |ps| - 1;
    var t := Times(ps[..n]);
    assert ps[k] in ps && ps[n] in ps;
    if k == n {
      MultipleDivides(ps[n], t);
      assert ps[n] * t == t * ps[n];
    } else {
      assert forall p :: p in ps[..n] ==> p in ps;
      DividesTimes(ps[..n], k);
      var j := t / ps[k];
      assert t == ps[k] * j;
      assert t * ps[n] == ps[k] * (j * ps[n]) by { assert (ps[k] * j) * ps[n] == ps[k] * (j * ps[n]); }
      MultipleDivides(ps[k], j * ps[n]);
    }
  }

  /** All primes up to the goal, multiplied. */
  ghost function Modulus(goal: int): (m: int)
    ensures m > 0
  {
    PrimesBelowIs(goal + 1);
    TimesPositive(PrimesBelow(goal + 1));
    Times(PrimesBelow(goal + 1))
  }

  lemma DividesModulus(goal: int, p: int)
    requires IsPrime(p) && p <= goal
    ensures p >= 2 && Divides(p, Modulus(goal))
  {
    var ps := PrimesBelow(goal + 1);
    PrimesBelowIs(goal + 1);
    assert p in ps;
    var k :| 0 <= k < |ps| && ps[k] == p;
    assert forall q :: q in ps ==> q > 0;
    hide PrimesBelow;
    DividesTimes(ps, k);
  }

  lemma {:induction false} FewPrimes(n: int)
    ensures |PrimesBelow(n)| <= if n > 2 then n - 2 else 0
    decreases n
  {
    if n > 2 { FewPrimes(n - 1); }
  }

  ghost function Stages(goal: int): nat { if goal > 0 then goal else 0 }

  lemma PrintedFew(goal: int, x: Sieve)
    requires Output(goal, x)
    ensures |x.printed| <= Stages(goal) && x.nchan <= Stages(goal) + 1
    ensures forall p :: p in x.printed ==> IsPrime(p) && p <= goal
  {
    var m :| x.printed == PrimesBelow(m);
    PrimesBelowIs(m);
    if m > goal + 1 {
      PrimesBelowSame(goal + 1, m);
      FewPrimes(goal + 1);
    } else {
      FewPrimes(m);
    }
    hide PrimesBelow; hide IsPrime;
  }

  // ---- One stage and one channel ----

  ghost predicate Sizes(cs: CS.CS<nat, Tid, int>, buffer: nat) {
    forall c :: c in cs.chans ==> cs.chans[c].bufsize == buffer
  }

  /** A channel holds no more than its buffer. */
  lemma ChannelHolds(cs: CS.CS<nat, Tid, int>, buffer: nat, c: nat)
    requires CP.Inv(cs) && Sizes(cs, buffer) && c in cs.chans
    ensures Flowed(cs, c, CS.Rcv) <= Flowed(cs, c, CS.Snd)
    ensures |Flowed(cs, c, CS.Snd)| <= |Flowed(cs, c, CS.Rcv)| + buffer
  {
    assert CP.Fifo(cs.chans[c]) && CP.Agree(cs.chans[c]);
  }

  /** A stage keeps back at most one of the numbers that it has to pass on. */
  lemma StageOnes(l: Local, f: Option<int>, r: seq<int>, s: seq<int>, m: int)
    requires FlowOk(l, f, r, s) && HasPrinted(l) && l.p >= 2 && m > 0 && Divides(l.p, m)
    ensures Ones(r, m) <= Ones(s, m) + 1
  {
    if l.Grow? {
    } else {
      assert r != [];
      OnesPrefix(Front(r), r, m);
      FilterOnes(l.p, r, m);
      FilterOnes(l.p, Front(r), m);
    }
  }

  lemma StagePrime(goal: int, x: Sieve, c: nat)
    requires Topology(x) && Output(goal, x) && 0 < c < x.nchan
    ensures c + 1 in x.locals
    ensures var l := x.locals[c + 1]; HasPrinted(l) && (l.Grow? || l.Recv? || l.Have?) && l.p in x.printed
  {
    Sender(goal, x, c);
    hide Topology; hide Output;
  }

  lemma StagePasses(goal: int, x: Sieve, c: nat)
    requires Topology(x) && Flow(x) && Output(goal, x) && 0 < c < x.nchan
    ensures Ones(Flowed(x.w.cs, c - 1, CS.Rcv), Modulus(goal)) <= Ones(Flowed(x.w.cs, c, CS.Snd), Modulus(goal)) + 1
    ensures |Flowed(x.w.cs, c, CS.Snd)| <= |Flowed(x.w.cs, c - 1, CS.Rcv)|
  {
    hide *;
    StagePrime(goal, x, c);
    PrintedFew(goal, x);
    var t, m := c + 1, Modulus(goal);
    var l := x.locals[t];
    DividesModulus(goal, l.p);
    var r, s := StageFlow(x, t);
    StageOnes(l, Moved(x.w.cs, t), r, s, m);
    SentIsFiltered(l, Moved(x.w.cs, t), r, s);
    FilterLength(l.p, r);
  }

  lemma StageFlow(x: Sieve, t: Tid) returns (r: seq<int>, s: seq<int>)
    requires Flow(x) && t in x.locals && t >= 2
    ensures r == Flowed(x.w.cs, t - 2, CS.Rcv) && s == Flowed(x.w.cs, t - 1, CS.Snd)
    ensures FlowOk(x.locals[t], Moved(x.w.cs, t), r, s)
  {
    assert TaskFlow(x, t);
    r, s := Came(x.w.cs, t), Went(x.w.cs, t);
  }

  // ---- The chain of channels ----

  lemma {:induction false} ChainOnes(goal: int, buffer: nat, x: Sieve, c: nat)
    requires CP.Inv(x.w.cs) && Topology(x) && Flow(x) && Output(goal, x) && Sizes(x.w.cs, buffer) && c < x.nchan
    ensures Ones(Flowed(x.w.cs, 0, CS.Snd), Modulus(goal)) <= Ones(Flowed(x.w.cs, c, CS.Snd), Modulus(goal)) + c * (buffer + 1)
    ensures |Flowed(x.w.cs, c, CS.Snd)| <= |Flowed(x.w.cs, 0, CS.Snd)|
  {
    hide *;
    if c > 0 {
      var cs, m := x.w.cs, Modulus(goal);
      ChainOnes(goal, buffer, x, c - 1);
      ChannelExists(x, c - 1);
      ChannelHolds(cs, buffer, c - 1);
      OnesPrefix(Flowed(cs, c - 1, CS.Rcv), Flowed(cs, c - 1, CS.Snd), m);
      StagePasses(goal, x, c);
      assert c * (buffer + 1) == (c - 1) * (buffer + 1) + (buffer + 1);
    }
  }

  /** The last channel has delivered at most one number. */
  lemma LastDelivers(x: Sieve)
    requires CP.Inv(x.w.cs) && Topology(x) && Flow(x) && x.nchan > 0
    ensures |Flowed(x.w.cs, x.nchan - 1, CS.Rcv)| <= 1
  {
    hide *;
    var c := x.nchan - 1;
    ChannelExists(x, c);
    LeftEntered(x.w.cs, c);
    LastTask(x);
  }

  lemma LastTask(x: Sieve)
    requires Topology(x) && Flow(x) && x.nchan > 0
    ensures |Flowed(x.w.cs, x.nchan - 1, CS.Rcv)| <= 1 || Flowed(x.w.cs, x.nchan - 1, CS.Snd) == []
  {
    var last := x.w.s.idgen;
    var l := x.locals[last];
    assert LocalOk(last, l, last) && TaskFlow(x, last);
    EndsAre(x.w.cs, last);
    hide Topology; hide Flow; hide Came; hide Went; hide Flowed;
    LastFlow(l, Moved(x.w.cs, last), Came(x.w.cs, last), Went(x.w.cs, last), last);
  }

  lemma LastFlow(l: Local, f: Option<int>, r: seq<int>, s: seq<int>, last: nat)
    requires FlowOk(l, f, r, s) && LocalOk(last, l, last)
    ensures if Growing(l) then s == [] else |r| <= 1 || last < 2
  {
  }

  /** How many numbers taskmain can have sent. */
  ghost function FeedBound(goal: int, buffer: nat): nat {
    var b := (Stages(goal) + 1) * (buffer + 1);
    PositiveProduct(Modulus(goal), b + 1);
    Modulus(goal) * (b + 1)
  }

  lemma ChainBound(c: nat, n: nat, b: nat)
    requires c < n
    ensures c * b + b <= n * b
  {
    assert (c + 1) * b == c * b + b;
    assert n * b == (c + 1) * b + (n - c - 1) * b;
    Product(n - c - 1, b);
  }

  lemma FeedBounded(goal: int, buffer: nat, x: Sieve)
    requires CP.Inv(x.w.cs) && Topology(x) && Flow(x) && Output(goal, x) && Sizes(x.w.cs, buffer) && x.nchan > 0
    ensures |Flowed(x.w.cs, 0, CS.Snd)| <= FeedBound(goal, buffer)
  {
    hide *;
    var cs, m, c := x.w.cs, Modulus(goal), x.nchan - 1;
    var sent := Flowed(cs, 0, CS.Snd);
    ChainOnes(goal, buffer, x, c);
    ChannelExists(x, c);
    ChannelHolds(cs, buffer, c);
    LastDelivers(x);
    PrintedFew(goal, x);
    ChainBound(c, Stages(goal) + 1, buffer + 1);
    assert Ones(sent, m) <= (Stages(goal) + 1) * (buffer + 1);
    FirstChannel(goal, x);
    FeedLength(sent, m, (Stages(goal) + 1) * (buffer + 1));
    FeedBoundIs(goal, buffer);
  }

  lemma FeedBoundIs(goal: int, buffer: nat)
    ensures FeedBound(goal, buffer) == Modulus(goal) * ((Stages(goal) + 1) * (buffer + 1) + 1)
  {
  }

  lemma FeedLength(sent: seq<int>, m: int, b: nat)
    requires IsStream(sent, []) && m > 0 && Ones(sent, m) <= b
    ensures |sent| <= m * (b + 1)
  {
    var n :| sent == Survivors(n, []);
    PositiveProduct(m, b + 1);
    if n > 2 {
      SurvivorsOnes(n, m);
      hide Survivors; hide Ones;
      var k := Ones(sent, m);
      assert m * (b + 1) == m * (k + 1) + m * (b - k);
      Product(m, b - k);
    }
  }

  // ---- How much has moved ----

  /** All elements that have entered or left the first `n` channels. */
  function Moves(cs: CS.CS<nat, Tid, int>, n: nat): nat {
    if n == 0 then 0
    else Moves(cs, n - 1) + |Flowed(cs, n - 1, CS.Snd)| + |Flowed(cs, n - 1, CS.Rcv)|
  }

  lemma {:induction false} MovesBounded(goal: int, buffer: nat, x: Sieve, n: nat)
    requires CP.Inv(x.w.cs) && Topology(x) && Flow(x) && Output(goal, x) && Sizes(x.w.cs, buffer) && n <= x.nchan
    ensures Moves(x.w.cs, n) <= 2 * n * FeedBound(goal, buffer)
  {
    hide *;
    MovesIs(x.w.cs, n);
    if n > 0 {
      var cs, b := x.w.cs, FeedBound(goal, buffer);
      MovesBounded(goal, buffer, x, n - 1);
      FeedBounded(goal, buffer, x);
      ChainOnes(goal, buffer, x, n - 1);
      ChannelExists(x, n - 1);
      ChannelHolds(cs, buffer, n - 1);
      assert 2 * n * b == 2 * (n - 1) * b + 2 * b;
    }
  }

  lemma MovesIs(cs: CS.CS<nat, Tid, int>, n: nat)
    ensures n == 0 ==> Moves(cs, n) == 0
    ensures n > 0 ==> Moves(cs, n) == Moves(cs, n - 1) + |Flowed(cs, n - 1, CS.Snd)| + |Flowed(cs, n - 1, CS.Rcv)|
  {
  }

  lemma {:induction false} SameMoves(cs: CS.CS<nat, Tid, int>, cs': CS.CS<nat, Tid, int>, n: nat)
    requires forall c: nat, op: CS.AOp :: c < n ==> Flowed(cs', c, op) == Flowed(cs, c, op)
    ensures Moves(cs', n) == Moves(cs, n)
  {
    if n > 0 { SameMoves(cs, cs', n - 1); }
  }

  /** A meeting moves two elements, an exchange with the ring one. */
  lemma {:induction false} ServedMoves(
    cs: CS.CS<nat, Tid, int>, cs': CS.CS<nat, Tid, int>, a: CS.Alt<nat, int>, v: int, peer: Option<CS.Entry<Tid>>, n: nat)
    requires Served(cs, cs', a, v, peer) && a.op != CS.Nop
    ensures Moves(cs', n) == Moves(cs, n) + if a.c < n then (if peer.Some? then 2 else 1) else 0
  {
    hide *;
    MovesIs(cs, n);
    MovesIs(cs', n);
    if n > 0 {
      ServedMoves(cs, cs', a, v, peer, n - 1);
      EndGains(cs, cs', a, v, peer, n - 1, CS.Snd);
      EndGains(cs, cs', a, v, peer, n - 1, CS.Rcv);
      SendValues(cs, cs', a, v, peer);
      GainLength(cs', a, v, peer, n - 1);
    }
  }

  lemma GainLength(cs': CS.CS<nat, Tid, int>, a: CS.Alt<nat, int>, v: int, peer: Option<CS.Entry<Tid>>, c: nat)
    requires a.op != CS.Nop && (peer.Some? ==> peer.value.k in cs'.fired)
    ensures |Gain(cs', a, v, peer, c, CS.Snd)| + |Gain(cs', a, v, peer, c, CS.Rcv)| ==
            if a.c == c then (if peer.Some? then 2 else 1) else 0
  {
  }

  // ---- Every step makes the potential grow ----

  function Active(w: World): int { if w.s.running.Some? then 1 else 0 }

  function Potential(x: Sieve): int {
    2 * Moves(x.w.cs, x.nchan) + 3 * x.w.s.idgen + x.nchan - 2 * |x.w.s.runq| - Active(x.w) - |x.w.cs.fired|
  }

  lemma PotentialIs(x: Sieve)
    ensures Potential(x) ==
            2 * Moves(x.w.cs, x.nchan) + 3 * x.w.s.idgen + x.nchan - 2 * |x.w.s.runq|
            - (if x.w.s.running.Some? then 1 else 0) - |x.w.cs.fired|
  {
  }

  lemma IdleGrows(goal: int, buffer: nat, x: Sieve, op: Op)
    requires SieveInv(goal, x) && MayStep(goal, buffer, x, op) && x.w.s.running.None?
    ensures Potential(NextSieve(goal, buffer, x, op)) > Potential(x)
    ensures NextSieve(goal, buffer, x, op).w.cs.chans == x.w.cs.chans
  {
    hide *;
    IdleIsDispatch(goal, buffer, x, op);
    SieveDispatch(goal, x);
    DispatchIs(x.w);
    PotentialIs(x);
    PotentialIs(x.(w := DoDispatch(x.w)));
  }

  lemma ReturnGrows(goal: int, buffer: nat, x: Sieve, op: Op)
    requires MayStep(goal, buffer, x, op) && x.w.s.running.Some? && x.w.pc[Me(x.w)].InAlt?
    ensures Potential(NextSieve(goal, buffer, x, op)) > Potential(x)
    ensures NextSieve(goal, buffer, x, op).w.cs.chans == x.w.cs.chans
  {
    ReturnIs(goal, buffer, x, op);
    hide *;
    ResumeFlows(x.w.cs, Me(x.w), x.nchan);
    PotentialIs(x);
    PotentialIs(NextSieve(goal, buffer, x, op));
  }

  lemma ResumeFlows(cs: CS.CS<nat, Tid, int>, me: Tid, n: nat)
    requires me in cs.fired
    ensures var cs' := CS.Resume(cs, me);
            Moves(cs', n) == Moves(cs, n) && |cs'.fired| == |cs.fired| - 1 && cs'.chans == cs.chans
  {
    var cs' := CS.Resume(cs, me);
    assert cs'.chans == cs.chans && cs'.fired == cs.fired - {me};
    hide CS.Resume;
    SameChanFlows(cs, cs');
    hide Flowed; hide Moves;
    SameMoves(cs, cs', n);
    assert cs.fired.Keys == cs'.fired.Keys + {me};
  }

  lemma SameChanFlows(cs: CS.CS<nat, Tid, int>, cs': CS.CS<nat, Tid, int>)
    requires cs'.chans == cs.chans
    ensures forall c: nat, op: CS.AOp :: Flowed(cs', c, op) == Flowed(cs, c, op)
  {
  }

  lemma CreateGrows(goal: int, buffer: nat, x: Sieve, op: Op)
    requires SieveInv(goal, x) && MayStep(goal, buffer, x, op) && op.ChanCreate?
    ensures Potential(NextSieve(goal, buffer, x, op)) > Potential(x)
    ensures NextSieve(goal, buffer, x, op).w.cs.chans == x.w.cs.chans[x.nchan := CS.NewChan(buffer)]
  {
    hide *;
    CreateIs(goal, buffer, x, op);
    SieveParts(goal, x);
    ChannelExists(x, x.nchan);
    var w' := DoChanCreate(x.w, x.nchan, buffer);
    NewChanSame(x.w, x.nchan, buffer);
    AddChanFlows(x.w.cs, x.nchan, buffer);
    WithChannelIs(x, Me(x.w), w');
    MovesIs(w'.cs, x.nchan + 1);
    PotentialIs(x);
    PotentialIs(WithChannel(x, Me(x.w), w'));
  }

  lemma NewChanSame(w: World, c: nat, buffer: nat)
    ensures DoChanCreate(w, c, buffer).cs == CS.AddChan(w.cs, c, buffer) && DoChanCreate(w, c, buffer).s == w.s
  {
  }

  lemma WithChannelIs(x: Sieve, me: Tid, w': World)
    requires me in x.locals
    ensures WithChannel(x, me, w').w == w' && WithChannel(x, me, w').nchan == x.nchan + 1
  {
  }

  lemma AddChanFlows(cs: CS.CS<nat, Tid, int>, c: nat, buffer: nat)
    requires c !in cs.chans
    ensures var cs' := CS.AddChan(cs, c, buffer);
            && Moves(cs', c) == Moves(cs, c) && cs'.fired == cs.fired && cs'.chans == cs.chans[c := CS.NewChan(buffer)]
  {
    var cs' := CS.AddChan(cs, c, buffer);
    assert forall d: nat, op: CS.AOp :: d < c ==> Flowed(cs', d, op) == Flowed(cs, d, op);
    SameMoves(cs, cs', c);
  }

  lemma ForkGrows(goal: int, buffer: nat, x: Sieve, op: Op)
    requires MayStep(goal, buffer, x, op) && op.TaskCreate?
    ensures Potential(NextSieve(goal, buffer, x, op)) > Potential(x)
    ensures NextSieve(goal, buffer, x, op).w.cs.chans == x.w.cs.chans
  {
    hide *;
    ForkIs(goal, buffer, x, op);
    SpawnIs(x.w);
    WithTaskIs(x, Me(x.w), Spawn(x.w, User));
    PotentialIs(x);
    PotentialIs(NextSieve(goal, buffer, x, op));
  }

  lemma SpawnIs(w: World)
    ensures var w' := Spawn(w, User);
            && w'.cs == w.cs && w'.s.idgen == w.s.idgen + 1 && |w'.s.runq| == |w.s.runq| + 1 && w'.s.running == w.s.running
  {
  }

  lemma WithTaskIs(x: Sieve, me: Tid, w': World)
    requires me in x.locals
    ensures WithTask(x, me, w').w == w' && WithTask(x, me, w').nchan == x.nchan
  {
  }

  lemma AltSched(w: World, alts: seq<CS.Alt<nat, int>>, canblock: bool, i: nat, peer: Option<CS.Entry<Tid>>)
    requires w.s.running.Some? && CS.AltsOk(w.cs, alts) && CS.ChoiceOk(w.cs, alts, i, peer)
    ensures var s' := DoAlt(w, alts, canblock, i, peer).s;
            && s'.idgen == w.s.idgen
            && match CS.ChanAlt(w.cs, Me(w), alts, canblock, i, peer).1
               case Done(_, _) =>
                 s'.running == w.s.running && |s'.runq| == |w.s.runq| + (if peer.Some? then 1 else 0)
               case WouldBlock => true
               case Parked => s'.running.None? && s'.runq == w.s.runq
  {
    var w1 := w.(cs := CS.ChanAlt(w.cs, Me(w), alts, canblock, i, peer).0);
    BlockIs(w1, InAltSet, InAlt);
    WakeIs(w1, if peer.Some? then [peer.value.k] else []);
    hide Wake; hide Block; hide CS.ChanAlt; hide CS.AltsOk; hide CS.ChoiceOk;
  }

  lemma TalkGrows(goal: int, buffer: nat, x: Sieve, op: Op)
    requires SieveInv(goal, x) && MayStep(goal, buffer, x, op) && op.ChanAlt?
    ensures Potential(NextSieve(goal, buffer, x, op)) > Potential(x)
    ensures Sizes(x.w.cs, buffer) ==> Sizes(NextSieve(goal, buffer, x, op).w.cs, buffer)
  {
    hide *;
    TalkIs(goal, buffer, x, op);
    Mine(goal, x);
    SieveParts(goal, x);
    var me, cs := Me(x.w), x.w.cs;
    var a := AltOf(x.locals[me]);
    MyChannel(x, me);
    ChannelExists(x, a.c);
    AltEffect(x.w, op.alts, op.canblock, op.i, op.peer);
    AltSched(x.w, op.alts, op.canblock, op.i, op.peer);
    SingleAlt(cs, me, a, op.i, op.peer);
    AltSizes(cs, me, op.alts, op.canblock, op.i, op.peer, buffer);
    var w' := DoAlt(x.w, op.alts, op.canblock, op.i, op.peer);
    var out := CS.ChanAlt(cs, me, op.alts, op.canblock, op.i, op.peer).1;
    PotentialIs(x);
    PotentialIs(NextSieve(goal, buffer, x, op));
    if out.Done? {
      ServedMoves(cs, w'.cs, a, out.v, op.peer, x.nchan);
      ServedFired(cs, w'.cs, a, out.v, op.peer);
    } else {
      ParkFlows(cs, me, [a], x.nchan);
    }
  }

  lemma ServedFired(
    cs: CS.CS<nat, Tid, int>, cs': CS.CS<nat, Tid, int>, a: CS.Alt<nat, int>, v: int, peer: Option<CS.Entry<Tid>>)
    requires Served(cs, cs', a, v, peer)
    ensures |cs'.fired| == |cs.fired| + if peer.Some? then 1 else 0
  {
    if peer.Some? { assert cs'.fired.Keys == cs.fired.Keys + {peer.value.k}; }
    hide Flowed;
  }

  lemma ParkFlows(cs: CS.CS<nat, Tid, int>, me: Tid, alts: seq<CS.Alt<nat, int>>, n: nat)
    ensures var cs' := CS.Park(cs, me, alts); Moves(cs', n) == Moves(cs, n) && cs'.fired == cs.fired
  {
    var cs' := CS.Park(cs, me, alts);
    assert forall c: nat, op: CS.AOp :: c < n ==> Flowed(cs', c, op) == Flowed(cs, c, op);
    SameMoves(cs, cs', n);
  }

  lemma AltSizes(
    cs: CS.CS<nat, Tid, int>, me: Tid, alts: seq<CS.Alt<nat, int>>, canblock: bool, i: nat, peer: Option<CS.Entry<Tid>>,
    buffer: nat)
    requires CS.AltsOk(cs, alts) && CS.ChoiceOk(cs, alts, i, peer)
    ensures Sizes(cs, buffer) ==> Sizes(CS.ChanAlt(cs, me, alts, canblock, i, peer).0, buffer)
  {
  }

  /** Unless it is the last one, a step makes the potential grow; and buffers keep their size. */
  lemma StepGrows(goal: int, buffer: nat, x: Sieve, op: Op)
    requires SieveInv(goal, x) && Sizes(x.w.cs, buffer) && MayStep(goal, buffer, x, op)
    ensures Sizes(NextSieve(goal, buffer, x, op).w.cs, buffer)
    ensures NextSieve(goal, buffer, x, op).w.status == Going ==>
              Potential(NextSieve(goal, buffer, x, op)) > Potential(x)
  {
    WorldStep(goal, buffer, x, op);
    hide *;
    SameSizes(x.w.cs, NextSieve(goal, buffer, x, op).w.cs, buffer);
    if x.w.s.running.None? {
      IdleGrows(goal, buffer, x, op);
    } else if x.w.pc[Me(x.w)].InAlt? {
      ReturnGrows(goal, buffer, x, op);
    } else {
      Kinds(goal, buffer, x, op);
      if op.ChanCreate? {
        CreateGrows(goal, buffer, x, op);
        MoreSizes(x.w.cs, NextSieve(goal, buffer, x, op).w.cs, x.nchan, buffer);
      } else if op.TaskCreate? {
        ForkGrows(goal, buffer, x, op);
      } else if op.TaskExitAll? {
        ExitIs(goal, buffer, x, op);
      } else {
        TalkGrows(goal, buffer, x, op);
      }
    }
  }

  lemma SameSizes(cs: CS.CS<nat, Tid, int>, cs': CS.CS<nat, Tid, int>, buffer: nat)
    ensures Sizes(cs, buffer) && cs'.chans == cs.chans ==> Sizes(cs', buffer)
  {
  }

  lemma MoreSizes(cs: CS.CS<nat, Tid, int>, cs': CS.CS<nat, Tid, int>, c: nat, buffer: nat)
    requires Sizes(cs, buffer) && cs'.chans == cs.chans[c := CS.NewChan(buffer)]
    ensures Sizes(cs', buffer)
  {
  }

  // ---- Every run ends ----

  ghost function StepBound(goal: int, buffer: nat): int {
    var n := Stages(goal) + 1;
    4 * n * FeedBound(goal, buffer) + 4 * n + 3
  }

  lemma PotentialBounded(goal: int, buffer: nat, x: Sieve)
    requires SieveInv(goal, x) && Sizes(x.w.cs, buffer)
    ensures Potential(x) <= StepBound(goal, buffer)
  {
    hide *;
    SieveParts(goal, x);
    MovesBounded(goal, buffer, x, x.nchan);
    PrintedFew(goal, x);
    PotentialIs(x);
    FewTasks(x);
    StepBoundIs(goal, buffer, x.nchan);
  }

  lemma FewTasks(x: Sieve)
    requires Topology(x)
    ensures x.w.s.idgen <= x.nchan + 1
  {
  }

  lemma StepBoundIs(goal: int, buffer: nat, n: nat)
    requires n <= Stages(goal) + 1
    ensures 2 * (2 * n * FeedBound(goal, buffer)) + 3 * (n + 1) + n <= StepBound(goal, buffer)
  {
    var b, k := FeedBound(goal, buffer), Stages(goal) + 1;
    hide FeedBound; hide Stages;
    assert 4 * k * b == 4 * n * b + 4 * (k - n) * b;
    Product(4 * (k - n), b);
  }

  lemma StartPotential()
    ensures Potential(Start()) == 1 && forall buffer :: Sizes(Start().w.cs, buffer)
  {
  }

  lemma {:induction false} StepsCounted(goal: int, buffer: nat, xs: seq<Sieve>, ops: seq<Op>, i: nat)
    requires IsSieveRun(goal, buffer, xs, ops) && i < |xs|
    ensures Sizes(xs[i].w.cs, buffer) && (xs[i].w.status == Going ==> Potential(xs[i]) > i)
  {
    hide *;
    RunStepIs(goal, buffer, xs, ops, i);
    if i == 0 {
      StartPotential();
    } else {
      RunStepIs(goal, buffer, xs, ops, i - 1);
      StepsCounted(goal, buffer, xs, ops, i - 1);
      SieveRunInv(goal, buffer, xs, ops, i - 1);
      StepGrows(goal, buffer, xs[i - 1], ops[i - 1]);
    }
  }

  lemma RunStepIs(goal: int, buffer: nat, xs: seq<Sieve>, ops: seq<Op>, i: nat)
    requires IsSieveRun(goal, buffer, xs, ops) && i < |xs|
    ensures |xs| == |ops| + 1 && xs[0] == Start()
    ensures i < |ops| ==>
              MayStep(goal, buffer, xs[i], ops[i]) && xs[i + 1] == NextSieve(goal, buffer, xs[i], ops[i])
    ensures i < |ops| ==> xs[i].w.status == Going
  {
    hide NextSieve; hide Start;
  }

  /**
   The sieve ends.  No run is longer than a bound that depends on the goal and the buffer size
   alone, and a run that cannot be continued has exited, having printed exactly the primes up to the goal.
   */
  lemma AlwaysEnds(goal: int, buffer: nat, xs: seq<Sieve>, ops: seq<Op>)
    requires IsSieveRun(goal, buffer, xs, ops)
    ensures |ops| <= StepBound(goal, buffer)
    ensures |xs| == |ops| + 1
    ensures (forall op :: !MayStep(goal, buffer, xs[|ops|], op)) ==>
              && xs[|ops|].w.status == Exited(0)
              && forall p :: p in xs[|ops|].printed <==> IsPrime(p) && p <= goal
  {
    assert |xs| == |ops| + 1;
    hide *;
    RunStepIs(goal, buffer, xs, ops, |ops|);
    if ops != [] {
      var i := |ops| - 1;
      RunStepIs(goal, buffer, xs, ops, i);
      StepsCounted(goal, buffer, xs, ops, i);
      SieveRunInv(goal, buffer, xs, ops, i);
      PotentialBounded(goal, buffer, xs[i]);
    } else {
      StepsCounted(goal, buffer, xs, ops, 0);
      SieveRunInv(goal, buffer, xs, ops, 0);
      PotentialBounded(goal, buffer, xs[0]);
      StartGoing();
    }
    var bound := PrintsThePrimes(goal, buffer, xs, ops, |ops|);
    if xs[|ops|].w.status == Going { NeverStuck(goal, buffer, xs, ops, |ops|); }
  }

  lemma StartGoing()
    ensures Start().w.status == Going
  {
  }
}
