/**
 The rendezvous protocol of channel.c on values: `C` names channels, `K` names tasks and
 `V` is the type of elements.  A wait queue is a set here, because which of its entries is
 served is decided by rand() and the array order never matters to anything else.
 */
module ChanSpec {
  import opened Util

  datatype AOp = Snd | Rcv | Nop

  /** One alternative; `v` is the value offered by a send. */
  datatype Alt<C, V> = Alt(c: C, op: AOp, v: V)

  /** The `i`-th alternative of the set that task `k` is blocked in. */
  datatype Entry<K> = Entry(k: K, i: nat)

  /** `sent` and `rcvd` are history variables: every element handed over, with its sender or receiver. */
  datatype Chan<K(==), V> = Chan(
    bufsize: nat, ring: seq<V>, asend: set<Entry<K>>, arecv: set<Entry<K>>,
    sent: seq<(K, V)>, rcvd: seq<(K, V)>)

  /** The alternative that moved an element, its index, and the element. */
  datatype Fired<C, V> = Fired(i: nat, a: Alt<C, V>, v: V)

  /**
   `sets`: the alternatives of every blocked task.  `fired`: tasks that a peer has served and
   that have not run since.  `hist` is a history variable: what each chanalt call of each task
   has returned so far.
   */
  datatype CS<C, K(==), V> = CS(
    chans: map<C, Chan<K, V>>, sets: map<K, seq<Alt<C, V>>>,
    fired: map<K, Fired<C, V>>, hist: map<K, seq<Fired<C, V>>>)

  function NewChan<K(==), V>(bufsize: nat): Chan<K, V> {
    Chan(bufsize, [], {}, {}, [], [])
  }

  function Side<K(==), V>(ch: Chan<K, V>, op: AOp): set<Entry<K>> {
    match op case Snd => ch.asend case Rcv => ch.arecv case Nop => {}
  }

  function Other(op: AOp): AOp {
    match op case Snd => Rcv case Rcv => Snd case Nop => Nop
  }

  /** Every alternative that is not a NOP names an existing channel. */
  ghost predicate AltsOk<C, K, V>(cs: CS<C, K, V>, alts: seq<Alt<C, V>>) {
    forall i :: 0 <= i < |alts| && alts[i].op != Nop ==> alts[i].c in cs.chans
  }

  /** altcanexec. */
  predicate CanExec<C(==), K(==), V>(cs: CS<C, K, V>, a: Alt<C, V>)
    requires a.op != Nop ==> a.c in cs.chans
  {
    match a.op
    case Nop => false
    case Snd => var ch := cs.chans[a.c]; if ch.bufsize == 0 then ch.arecv != {} else |ch.ring| < ch.bufsize
    case Rcv => var ch := cs.chans[a.c]; if ch.bufsize == 0 then ch.asend != {} else |ch.ring| > 0
  }

  ghost predicate AnyExec<C, K, V>(cs: CS<C, K, V>, alts: seq<Alt<C, V>>)
    requires AltsOk(cs, alts)
  {
    exists i :: 0 <= i < |alts| && CanExec(cs, alts[i])
  }

  // ---- altcopy: the three ways an element moves ----

  /** Both parties present: directly when the ring is empty, else out of the ring and into it. */
  function Meet<K(==), V>(ch: Chan<K, V>, ks: K, v: V, kr: K): (Chan<K, V>, V) {
    if ch.ring == [] then (ch.(sent := ch.sent + [(ks, v)], rcvd := ch.rcvd + [(kr, v)]), v)
    else
      (ch.(ring := ch.ring[1..] + [v], sent := ch.sent + [(ks, v)], rcvd := ch.rcvd + [(kr, ch.ring[0])]),
       ch.ring[0])
  }

  function Put<K(==), V>(ch: Chan<K, V>, ks: K, v: V): Chan<K, V> {
    ch.(ring := ch.ring + [v], sent := ch.sent + [(ks, v)])
  }

  function Take<K(==), V>(ch: Chan<K, V>, kr: K): (Chan<K, V>, V)
    requires ch.ring != []
  {
    (ch.(ring := ch.ring[1..], rcvd := ch.rcvd + [(kr, ch.ring[0])]), ch.ring[0])
  }

  // ---- altalldequeue, altexec, chanalt ----

  ghost function Without<K>(s: set<Entry<K>>, k: K): set<Entry<K>> {
    set e | e in s && e.k != k
  }

  /** Withdraw all of `k`'s entries from every channel. */
  ghost function Withdraw<C, K, V>(chans: map<C, Chan<K, V>>, k: K): map<C, Chan<K, V>> {
    map c | c in chans ::
      chans[c].(asend := Without(chans[c].asend, k), arecv := Without(chans[c].arecv, k))
  }

  function Hist<C, K(==), V>(cs: CS<C, K, V>, k: K): seq<Fired<C, V>> {
    if k in cs.hist then cs.hist[k] else []
  }

  /** The peer chosen by altexec: some entry of the opposite queue, if there is one. */
  ghost predicate PeerOk<C, K, V>(cs: CS<C, K, V>, a: Alt<C, V>, peer: Option<Entry<K>>)
    requires a.op != Nop && a.c in cs.chans
  {
    var opp := Side(cs.chans[a.c], Other(a.op));
    match peer
    case None => opp == {}
    case Some(e) => e in opp && e.k in cs.sets && e.i < |cs.sets[e.k]|
  }

  /** The channel after `me`, doing `a`, meets the peer that does `o`; and the element received. */
  function MeetAt<C, K(==), V>(ch: Chan<K, V>, me: K, a: Alt<C, V>, peer: K, o: Alt<C, V>): (Chan<K, V>, V) {
    if a.op == Snd then Meet(ch, me, a.v, peer) else Meet(ch, peer, o.v, me)
  }

  /** altexec of alternative `i` against `peer`: the new state and the element that moved for `me`. */
  ghost function Exec<C, K, V>(
      cs: CS<C, K, V>, me: K, alts: seq<Alt<C, V>>, i: nat, peer: Option<Entry<K>>): (CS<C, K, V>, V)
    requires i < |alts| && (alts[i].op != Nop ==> alts[i].c in cs.chans) && CanExec(cs, alts[i])
    requires PeerOk(cs, alts[i], peer)
  {
    var a := alts[i];
    var ch := cs.chans[a.c];
    match peer
    case None =>
      if a.op == Snd then (cs.(chans := cs.chans[a.c := Put(ch, me, a.v)]), a.v)
      else var (ch', v) := Take(ch, me); (cs.(chans := cs.chans[a.c := ch']), v)
    case Some(e) =>
      var o := cs.sets[e.k][e.i];
      var m := MeetAt(ch, me, a, e.k, o);
      (cs.(chans := Withdraw(cs.chans[a.c := m.0], e.k), sets := cs.sets - {e.k},
           fired := cs.fired[e.k := Fired(e.i, o, if a.op == Snd then m.1 else o.v)]),
       if a.op == Snd then a.v else m.1)
  }

  /** chanalt returns `f.i` to `me`. */
  function Returned<C, K(==), V>(cs: CS<C, K, V>, me: K, f: Fired<C, V>): CS<C, K, V> {
    cs.(hist := cs.hist[me := Hist(cs, me) + [f]])
  }

  /** The entries that task `me` adds to side `op` of channel `c`. */
  ghost function NewEntries<C, K, V>(me: K, alts: seq<Alt<C, V>>, c: C, op: AOp): (r: set<Entry<K>>)
    ensures forall e :: e in r ==>
              e.k == me && e.i < |alts| && alts[e.i].op == op && alts[e.i].c == c
    ensures forall i: nat :: i < |alts| && alts[i].op == op && alts[i].c == c ==> Entry(me, i) in r
  {
    set i: nat | i < |alts| && alts[i].op == op && alts[i].c == c :: Entry(me, i)
  }

  /** altqueue for every alternative: `me` blocks. */
  ghost function Park<C, K, V>(cs: CS<C, K, V>, me: K, alts: seq<Alt<C, V>>): CS<C, K, V> {
    cs.(chans := map c | c in cs.chans ::
                   cs.chans[c].(asend := cs.chans[c].asend + NewEntries(me, alts, c, Snd),
                                arecv := cs.chans[c].arecv + NewEntries(me, alts, c, Rcv)),
        sets := cs.sets[me := alts])
  }

  datatype Outcome<V> = Done(i: nat, v: V) | WouldBlock | Parked

  /** The choices rand() may make in one call of chanalt. */
  ghost predicate ChoiceOk<C, K, V>(cs: CS<C, K, V>, alts: seq<Alt<C, V>>, i: nat, peer: Option<Entry<K>>)
    requires AltsOk(cs, alts)
  {
    AnyExec(cs, alts) ==> i < |alts| && CanExec(cs, alts[i]) && PeerOk(cs, alts[i], peer)
  }

  /** chanalt up to its task switch. */
  ghost function ChanAlt<C, K, V>(
      cs: CS<C, K, V>, me: K, alts: seq<Alt<C, V>>, canblock: bool,
      i: nat, peer: Option<Entry<K>>): (CS<C, K, V>, Outcome<V>)
    requires AltsOk(cs, alts) && ChoiceOk(cs, alts, i, peer)
  {
    if AnyExec(cs, alts) then
      var (cs', v) := Exec(cs, me, alts, i, peer);
      (Returned(cs', me, Fired(i, alts[i], v)), Done(i, v))
    else if !canblock then (cs, WouldBlock)
    else (Park(cs, me, alts), Parked)
  }

  /** chanalt after its task switch. */
  function Resume<C, K(==), V>(cs: CS<C, K, V>, me: K): CS<C, K, V>
    requires me in cs.fired
  {
    Returned(cs.(fired := cs.fired - {me}), me, cs.fired[me])
  }

  function AddChan<C(==), K(==), V>(cs: CS<C, K, V>, c: C, bufsize: nat): CS<C, K, V> {
    cs.(chans := cs.chans[c := NewChan(bufsize)])
  }
}
