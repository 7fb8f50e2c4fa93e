/**
 Lockstep rounds: all cards tick, then every BPDU of the round, answers
 included, is delivered, in any order, until none is in flight.
 */
module CtpRounds {
  import opened Ctp
  import opened CtpInvariant
  import opened CtpNet
  import opened CtpReceive
  import opened Sequences

  predicate IsOrder(ts: seq<nat>) {
    NoDuplicates(ts) && forall n :: 1 <= n <= CARDS ==> n in ts
  }

  function UpTo(n: nat): (ts: seq<nat>)
    ensures |ts| == n && (forall i :: 0 <= i < n ==> ts[i] == i + 1) && forall m :: 1 <= m <= n ==> m in ts
  {
    if n == 0 then [] else UpTo(n - 1) + [n]
  }

  /** The order in which the cards of one round tick. */
  type Order = ts: seq<nat> | IsOrder(ts) witness UpTo(CARDS)

  /** The running cards among ts have done f, one after the other. */
  function DoAll(f: Card -> Out, net: Net, ts: seq<nat>): Net
    decreases |ts|
  {
    if ts == [] then net
    else
      var t, n := DoAll(f, net, ts[..|ts| - 1]), ts[|ts| - 1];
      if n in t.cards then Did(t, n, f(t.cards[n])) else t
  }

  function AllTick(net: Net, ts: Order): Net {
    DoAll(Tick, net, ts)
  }

  function TickEvents(ts: seq<nat>): (es: seq<Event>)
    ensures |es| == |ts|
  {
    seq(|ts|, i requires 0 <= i < |ts| => TickCard(ts[i]))
  }

  /** One round: the order of its ticks, and its deliveries. */
  datatype Lockstep = Lockstep(ticks: Order, deliveries: seq<Event>)

  ghost predicate Round(hw: Hardware, net: Net, r: Lockstep, after: Net) {
    && (forall e :: e in r.deliveries ==> e.Deliver?)
    && after == Run(hw, AllTick(net, r.ticks), r.deliveries)
    && after.flight == []
  }

  /** nets[0], nets[1], ... are the chassis before the first round, after it,
      and so on. */
  ghost predicate Rounds(hw: Hardware, nets: seq<Net>, rs: seq<Lockstep>) {
    && |nets| == |rs| + 1
    && forall i :: 0 <= i < |rs| ==> Round(hw, nets[i], rs[i], nets[i + 1])
  }

  lemma RoundsFrom(hw: Hardware, nets: seq<Net>, rs: seq<Lockstep>, m: nat)
    requires Rounds(hw, nets, rs) && m <= |rs|
    ensures Rounds(hw, nets[m..], rs[m..])
  {
    forall i | 0 <= i < |rs[m..]|
      ensures Round(hw, nets[m..][i], rs[m..][i], nets[m..][i + 1])
    {
      assert Round(hw, nets[i + m], rs[i + m], nets[i + m + 1]);
    }
  }

  // ------------------------------------------------------------------- ticks

  lemma {:induction false} SendToReaches(live: set<nat>, b: Bpdu, n: nat, m: nat)
    requires m in live && 1 <= m <= n && Accepts(m, b.dst)
    ensures Copy(m, b) in SendTo(live, b, n)
  {
    if m < n {
      SendToReaches(live, b, n - 1, m);
    }
  }

  lemma SendReaches(live: set<nat>, bs: seq<Bpdu>, m: nat)
    requires bs != [] && m in live && 1 <= m <= CARDS && Accepts(m, bs[0].dst)
    ensures Copy(m, bs[0]) in Send(live, bs)
  {
    SendToReaches(live, bs[0], CARDS, m);
  }

  lemma {:induction false} DoCards(f: Card -> Out, net: Net, ts: seq<nat>)
    requires NoDuplicates(ts)
    ensures DoAll(f, net, ts).cards.Keys == net.cards.Keys
    ensures forall m :: m in net.cards ==>
              DoAll(f, net, ts).cards[m] == if m in ts then f(net.cards[m]).card else net.cards[m]
    decreases |ts|
  {
    if ts != [] {
      var k := |ts| - 1;
      DoCards(f, net, ts[..k]);
      assert ts == ts[..k] + [ts[k]] && ts[k] !in ts[..k];
    }
  }

  /** What is sent is on its way to every card that passes the filter. */
  lemma {:induction false} DoReaches(f: Card -> Out, net: Net, ts: seq<nat>, from: nat, to: nat)
    requires NoDuplicates(ts) && from in ts && from in net.cards && to in net.cards && 1 <= to <= CARDS
    requires f(net.cards[from]).sent != [] && Accepts(to, f(net.cards[from]).sent[0].dst)
    ensures Copy(to, f(net.cards[from]).sent[0]) in DoAll(f, net, ts).flight
    decreases |ts|
  {
    var k := |ts| - 1;
    assert ts == ts[..k] + [ts[k]];
    DoCards(f, net, ts[..k]);
    if from == ts[k] {
      assert from !in ts[..k];
      SendReaches(net.cards.Keys, f(net.cards[from]).sent, to);
    } else {
      DoReaches(f, net, ts[..k], from, to);
    }
  }

  lemma {:induction false} SendOnly(live: set<nat>, bs: seq<Bpdu>)
    ensures forall c :: c in Send(live, bs) ==> c.b in bs
  {
    if bs != [] {
      SendToOnly(live, bs[0], CARDS);
      SendOnly(live, bs[1..]);
    }
  }

  lemma {:induction false} SendToOnly(live: set<nat>, b: Bpdu, n: nat)
    ensures forall c :: c in SendTo(live, b, n) ==> c.b == b
  {
    if n > 0 {
      SendToOnly(live, b, n - 1);
    }
  }

  /** Nothing else is. */
  lemma {:induction false} DoOnly(f: Card -> Out, net: Net, ts: seq<nat>, c: Copy) returns (from: nat)
    requires NoDuplicates(ts) && c in DoAll(f, net, ts).flight && c !in net.flight
    ensures from in net.cards && c.b in f(net.cards[from]).sent
    decreases |ts|
  {
    var k := |ts| - 1;
    DoCards(f, net, ts[..k]);
    var t, n := DoAll(f, net, ts[..k]), ts[k];
    if c in t.flight {
      from := DoOnly(f, net, ts[..k], c);
    } else {
      assert n !in ts[..k];
      SendOnly(t.cards.Keys, f(t.cards[n]).sent);
      from := n;
    }
  }

  lemma {:induction false} TicksAreRun(hw: Hardware, net: Net, ts: seq<nat>)
    ensures DoAll(Tick, net, ts) == Run(hw, net, TickEvents(ts))
    decreases |ts|
  {
    if ts != [] {
      var k := |ts| - 1;
      TicksAreRun(hw, net, ts[..k]);
      assert TickEvents(ts) == TickEvents(ts[..k]) + [TickCard(ts[k])];
      RunAppend(hw, net, TickEvents(ts[..k]), [TickCard(ts[k])]);
      RunOne(hw, DoAll(Tick, net, ts[..k]), TickCard(ts[k]));
    }
  }

  /** Ticking in lockstep is a run like any other. */
  lemma AllTickOk(hw: Hardware, net: Net, ts: Order)
    requires NetOk(hw, net) && NetHeardOk(net)
    ensures NetOk(hw, AllTick(net, ts)) && NetHeardOk(AllTick(net, ts))
  {
    TicksAreRun(hw, net, ts);
    RunOk(hw, net, TickEvents(ts));
    RunHeard(hw, net, TickEvents(ts));
  }

  // ----------------------------------------------------------------- pending

  predicate Of(c: Copy, to: nat, from: nat, kind: Kind) {
    c.to == to && c.b.from == from && c.b.kind == kind
  }

  /** A copy from `from` of this kind is on its way to `to`, and it will not be
      dropped as a repetition. */
  ghost predicate Pending(net: Net, to: nat, from: nat, kind: Kind) {
    && to in net.cards && (from, kind) !in net.cards[to].heard
    && exists c :: c in net.flight && Of(c, to, from, kind)
  }

  /** Card net.flight[k].to did o on copy k. */
  function Took(net: Net, k: nat, o: Out): Net
    requires k < |net.flight|
  {
    Did(net.(flight := Without(net.flight, k)), net.flight[k].to, o)
  }

  /** o hears at most the pair of copy c in addition. */
  ghost predicate HearsOnly(card: Card, c: Copy, o: Out) {
    forall p :: p in o.card.heard ==> p in card.heard || p == (c.b.from, c.b.kind)
  }

  lemma PendingKept(net: Net, k: nat, o: Out, to: nat, from: nat, kind: Kind)
    requires k < |net.flight| && net.flight[k].to in net.cards
    requires HearsOnly(net.cards[net.flight[k].to], net.flight[k], o)
    requires Pending(net, to, from, kind) && !Of(net.flight[k], to, from, kind)
    ensures Pending(Took(net, k, o), to, from, kind)
  {
    var c :| c in net.flight && Of(c, to, from, kind);
    WithoutOther(net.flight, k, c);
    assert c in Took(net, k, o).flight;
  }

  lemma WithoutOther(s: seq<Copy>, k: nat, c: Copy)
    requires k < |s| && c in s && c != s[k]
    ensures c in Without(s, k)
  {
    var i :| 0 <= i < |s| && s[i] == c;
    assert Without(s, k)[if i < k then i else i - 1] == c;
  }

  ghost predicate Stable(hw: Hardware, inv: Net -> bool) {
    forall x: Net, k: nat {:trigger inv(Apply(hw, x, Deliver(k)))} :: inv(x) ==> inv(Apply(hw, x, Deliver(k)))
  }

  ghost predicate EndsIn(mid: Net -> bool, end: Net -> bool) {
    forall x: Net :: mid(x) && x.flight == [] ==> end(x)
  }

  /** What each delivery keeps, any number of deliveries keeps. */
  lemma {:induction false} DeliveriesKeep(hw: Hardware, inv: Net -> bool, net: Net, es: seq<Event>)
    requires Stable(hw, inv) && inv(net) && forall e :: e in es ==> e.Deliver?
    ensures inv(Run(hw, net, es))
    decreases |es|
  {
    if es != [] {
      assert es[0] in es && forall e :: e in es[1..] ==> e in es;
      assert es[0] == Deliver(es[0].k);
      DeliveriesKeep(hw, inv, Apply(hw, net, es[0]), es[1..]);
    }
  }

  /** A round, from what holds after its ticks to what holds at its end. */
  lemma RoundKeeps(hw: Hardware, mid: Net -> bool, end: Net -> bool, net: Net, r: Lockstep, after: Net)
    requires Stable(hw, mid) && EndsIn(mid, end)
    requires mid(AllTick(net, r.ticks)) && Round(hw, net, r, after)
    ensures end(after)
  {
    DeliveriesKeep(hw, mid, AllTick(net, r.ticks), r.deliveries);
  }

  ghost predicate KeptByRounds(hw: Hardware, inv: Net -> bool) {
    forall x: Net, r: Lockstep, y: Net :: inv(x) && Round(hw, x, r, y) ==> inv(y)
  }

  lemma {:induction false} RoundsKeep(
      hw: Hardware, inv: Net -> bool, nets: seq<Net>, rs: seq<Lockstep>, m: nat, k: nat)
    requires Rounds(hw, nets, rs) && KeptByRounds(hw, inv) && m <= k <= |rs| && inv(nets[m])
    ensures inv(nets[k])
  {
    if k > m {
      RoundsKeep(hw, inv, nets, rs, m, k - 1);
      assert Round(hw, nets[k - 1], rs[k - 1], nets[k - 1 + 1]);
    }
  }

  /** Up to n, each round takes inv one step further. */
  ghost predicate Climbs(hw: Hardware, inv: (nat, Net) -> bool, n: nat) {
    forall j: nat, x: Net, r: Lockstep, y: Net :: j < n && inv(j, x) && Round(hw, x, r, y) ==> inv(j + 1, y)
  }

  lemma {:induction false} RoundsClimb(
      hw: Hardware, inv: (nat, Net) -> bool, nets: seq<Net>, rs: seq<Lockstep>, n: nat, k: nat)
    requires Rounds(hw, nets, rs) && Climbs(hw, inv, n) && inv(0, nets[0]) && k <= n && k <= |rs|
    ensures inv(k, nets[k])
  {
    if k > 0 {
      RoundsClimb(hw, inv, nets, rs, n, k - 1);
      assert Round(hw, nets[k - 1], rs[k - 1], nets[k - 1 + 1]);
    }
  }

  /** A round from inv ends in both. */
  ghost predicate Gives(hw: Hardware, inv: Net -> bool, end: Net -> bool) {
    forall x: Net, r: Lockstep, y: Net :: inv(x) && Round(hw, x, r, y) ==> inv(y) && end(y)
  }

  lemma LastGives(hw: Hardware, inv: Net -> bool, end: Net -> bool, nets: seq<Net>, rs: seq<Lockstep>, m: nat)
    requires Rounds(hw, nets, rs) && Gives(hw, inv, end) && m < |rs| && inv(nets[m])
    ensures end(nets[|rs|])
  {
    var k := |rs| - 1;
    RoundsKeep(hw, inv, nets, rs, m, k);
    assert Round(hw, nets[k], rs[k], nets[k + 1]);
  }

  // ------------------------------------------------- every round can be ended

  /** Every copy in flight is on its way to a running card. */
  ghost predicate AllLive(net: Net) {
    forall c :: c in net.flight ==> c.to in net.cards
  }

  lemma {:induction false} SendToLive(live: set<nat>, b: Bpdu, n: nat)
    ensures forall c :: c in SendTo(live, b, n) ==> c.to in live
  {
    if n > 0 {
      SendToLive(live, b, n - 1);
    }
  }

  lemma {:induction false} SendLive(live: set<nat>, bs: seq<Bpdu>)
    ensures forall c :: c in Send(live, bs) ==> c.to in live
  {
    if bs != [] {
      SendToLive(live, bs[0], CARDS);
      SendLive(live, bs[1..]);
    }
  }

  lemma DidLive(net: Net, n: nat, o: Out)
    requires AllLive(net) && n in net.cards
    ensures AllLive(Did(net, n, o))
  {
    SendLive(net.cards.Keys, o.sent);
  }

  lemma {:induction false} DoLive(f: Card -> Out, net: Net, ts: seq<nat>)
    requires AllLive(net)
    ensures AllLive(DoAll(f, net, ts))
    decreases |ts|
  {
    if ts != [] {
      var t, n := DoAll(f, net, ts[..|ts| - 1]), ts[|ts| - 1];
      DoLive(f, net, ts[..|ts| - 1]);
      if n in t.cards {
        DidLive(t, n, f(t.cards[n]));
      }
    }
  }

  /** The first copy in flight is delivered: either it is answered, which uses
      up room in the receive-interval tables, or there is one copy less. */
  lemma DeliverFirstCopy(hw: Hardware, net: Net)
    requires NetOk(hw, net) && NetHeardOk(net) && AllLive(net) && net.flight != []
    ensures var after := Apply(hw, net, Deliver(0));
            && NetOk(hw, after) && NetHeardOk(after) && AllLive(after)
            && Room(after.cards, CARDS) <= Room(net.cards, CARDS)
            && (Room(after.cards, CARDS) < Room(net.cards, CARDS) || |after.flight| < |net.flight|)
  {
    assert net.flight[0] in net.flight;
    ApplyOk(hw, net, Deliver(0));
    ApplyHeard(hw, net, Deliver(0));
    AnswerUsesRoom(hw, net, Deliver(0));
    FirstCopyLive(net, Rx(net.cards[net.flight[0].to], net.flight[0].b));
  }

  lemma FirstCopyLive(net: Net, o: Out)
    requires AllLive(net) && net.flight != [] && net.flight[0].to in net.cards
    ensures AllLive(Took(net, 0, o)) && (o.sent == [] ==> |Took(net, 0, o).flight| < |net.flight|)
  {
    assert forall c :: c in Without(net.flight, 0) ==> c in net.flight;
    DidLive(net.(flight := Without(net.flight, 0)), net.flight[0].to, o);
  }

  lemma {:induction false} DrainExists(hw: Hardware, net: Net) returns (es: seq<Event>)
    requires NetOk(hw, net) && NetHeardOk(net) && AllLive(net)
    ensures (forall e :: e in es ==> e.Deliver?) && Run(hw, net, es).flight == []
    decreases Room(net.cards, CARDS), |net.flight|
  {
    RoomIsNatural(net, CARDS);
    if net.flight == [] {
      es := [];
    } else {
      DeliverFirstCopy(hw, net);
      var after := Apply(hw, net, Deliver(0));
      RoomIsNatural(after, CARDS);
      var rest := DrainExists(hw, after);
      es := [Deliver(0)] + rest;
      assert es[1..] == rest;
    }
  }

  /** From any quiet chassis and for any order of its ticks, deliveries end a round. */
  lemma RoundExists(hw: Hardware, net: Net, ts: Order) returns (r: Lockstep, after: Net)
    requires NetOk(hw, net) && NetHeardOk(net) && net.flight == []
    ensures r.ticks == ts && Round(hw, net, r, after)
  {
    AllTickOk(hw, net, ts);
    DoLive(Tick, net, ts);
    var es := DrainExists(hw, AllTick(net, ts));
    r := Lockstep(ts, es);
    after := Run(hw, AllTick(net, ts), es);
  }
}
