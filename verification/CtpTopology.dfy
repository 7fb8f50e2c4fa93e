/**
 The switch ports follow the protocol state, and what that means for the graph
 of backplane links that forward at both ends: when it has a loop, and when it
 is a spanning tree.
 */
module CtpTopology {
  import opened Ctp
  import opened CtpInvariant
  import opened CtpNet
  import Wiring

  predicate AtMostOneOpen(ports: seq<Port>) {
    forall i, j :: 0 <= i < j < |ports| ==> ports[i] != PortForwarding || ports[j] != PortForwarding
  }

  /** The ports of a card are a function of its state and its roots; only a
      line card in LEARNING keeps the uplink it opened on entry. */
  predicate PortsOk(c: Card) {
    if c.IsLc() then
      match c.state
      case Block => c.ports == Uplinks(PortBlocking)
      case Listening => c.ports == Uplinks(PortListening)
      case Learning => |c.ports| == 4 && AtMostOneOpen(c.ports)
      case Forwarding => c.ports == ForwardingPorts(c.us, c.rootPort, c.rootLc)
    else
      c.ports == if c.state == Forwarding then ForwardingPorts(c.us, c.rootPort, c.rootLc)
                 else Downlinks(PortForwarding)
  }

  lemma LcForwardsPorts(hw: Hardware, c: Card, b: Bpdu)
    requires CardOk(hw, c) && PortsOk(c) && LcNum(c.us) && c.state == Forwarding
    ensures PortsOk(LcForwards(c, b).card)
  {
    SyncPortsAfterMerge(hw, c, Merged(c, b).(since := 0), b);
  }

  lemma LcPorts(hw: Hardware, c: Card, b: Bpdu)
    requires CardOk(hw, c) && PortsOk(c) && LcNum(c.us)
    ensures PortsOk(LcHearsFc(c, b).card)
  {
    if c.state == Forwarding {
      LcForwardsPorts(hw, c, b);
    }
  }

  lemma FcPorts(hw: Hardware, c: Card, b: Bpdu)
    requires CardOk(hw, c) && PortsOk(c) && FcNum(c.us) && b.kind != FcChange
    ensures PortsOk(FcHearsLc(c, b).card)
  {
    hide CardOk;
    if c.state == Forwarding {
      SyncPortsAfterMerge(hw, c, Merged(c, b).(since := 0), b);
    }
  }

  /** The merge touches neither names nor ports. */
  lemma SyncPortsAfterMerge(hw: Hardware, c: Card, z: Card, b: Bpdu)
    requires CardOk(hw, c) && PortsOk(c) && c.state == Forwarding
    requires z == c.(exist := z.exist, since := 0)
    ensures PortsOk(SyncToHello(z, b))
  {
  }

  lemma RxPorts(hw: Hardware, c: Card, b: Bpdu)
    requires CardOk(hw, c) && PortsOk(c) && b.kind != FcChange
    ensures PortsOk(Rx(c, b).card)
  {
    var h := c.(heard := c.heard + [(b.from, b.kind)]);
    if c.IsLc() {
      LcPorts(hw, h, b);
    } else {
      FcPorts(hw, h, b);
    }
  }

  lemma RootTickPorts(hw: Hardware, c: Card)
    requires CardOk(hw, c) && PortsOk(c) && FcNum(c.us) && c.state == Forwarding && c.rootPort == c.us
    ensures PortsOk(RootTick(c).card)
  {
    hide CardOk, FirstRecent, Aged, OwnTable;
  }

  lemma TickPorts(hw: Hardware, c: Card)
    requires CardOk(hw, c) && PortsOk(c)
    ensures PortsOk(Tick(c).card)
  {
    hide RootTick, TableOk, Aged, OwnTable;
    if c.state == Forwarding && c.us == c.rootPort {
      RootTickPorts(hw, c.(heard := []));
    }
  }

  ghost predicate NetPortsOk(net: Net) {
    forall n :: n in net.cards ==> PortsOk(net.cards[n])
  }

  lemma DeliverPorts(hw: Hardware, net: Net, k: nat)
    requires NetOk(hw, net) && NetPortsOk(net) && k < |net.flight| && net.flight[k].to in net.cards
    ensures NetPortsOk(Apply(hw, net, Deliver(k)))
  {
    hide Rx, PortsOk, CardOk;
    assert CopyOk(hw, net.flight[k]);
    RxPorts(hw, net.cards[net.flight[k].to], net.flight[k].b);
  }

  lemma ApplyPorts(hw: Hardware, net: Net, e: Event)
    requires NetOk(hw, net) && NetPortsOk(net)
    ensures NetPortsOk(Apply(hw, net, e))
  {
    hide Rx, Tick;
    match e
    case TickCard(n) =>
      if n in net.cards {
        TickPorts(hw, net.cards[n]);
      }
    case Deliver(k) =>
      if k < |net.flight| && net.flight[k].to in net.cards {
        DeliverPorts(hw, net, k);
      }
    case _ =>
  }

  lemma {:induction false} RunPorts(hw: Hardware, net: Net, es: seq<Event>)
    requires NetOk(hw, net) && NetPortsOk(net)
    ensures NetPortsOk(Run(hw, net, es))
    decreases |es|
  {
    if es != [] {
      ApplyOk(hw, net, es[0]);
      ApplyPorts(hw, net, es[0]);
      RunPorts(hw, Apply(hw, net, es[0]), es[1..]);
    }
  }

  // -------------------------------------------------------------- link graph

  predicate Open(c: Card, i: nat) {
    i < |c.ports| && c.ports[i] == PortForwarding
  }

  /** The link of line card l and fabric card f forwards at both ends. */
  predicate LinkUp(net: Net, l: nat, f: nat) {
    && l in net.cards && f in net.cards && LcNum(l) && FcNum(f) && SamePlane(l, f)
    && Open(net.cards[l], Wiring.Uplink(f)) && Open(net.cards[f], Wiring.Downlink(f, l))
  }

  predicate Adjacent(net: Net, a: nat, b: nat) {
    LinkUp(net, a, b) || LinkUp(net, b, a)
  }

  function Next(n: nat, i: nat): nat {
    if i + 1 < n then i + 1 else 0
  }

  /** The cards v, in this order, lie on a loop of forwarding links. */
  ghost predicate Cycle(net: Net, v: seq<nat>) {
    && |v| >= 3
    && (forall i, j :: 0 <= i < j < |v| ==> v[i] != v[j])
    && (forall i :: 0 <= i < |v| ==> Adjacent(net, v[i], v[Next(|v|, i)]))
  }

  ghost predicate HasCycle(net: Net, upper: bool) {
    exists v :: Cycle(net, v) && Upper(v[0]) == upper
  }

  /** The line card holds itself to be the root LC and forwards on all uplinks. */
  predicate Designated(net: Net, l: nat) {
    l in net.cards && LcNum(l) && net.cards[l].state == Forwarding && net.cards[l].rootLc == l
  }

  /** The fabric card forwards on all downlinks. */
  predicate AllOpen(net: Net, f: nat) {
    f in net.cards && FcNum(f) && (net.cards[f].state == Forwarding ==> net.cards[f].rootPort == f)
  }

  /** The arithmetic of the port numbers gives the wiring. */
  lemma WiredUp(f: nat)
    requires 33 <= f <= 48
    ensures UplinkTo(f) == Wiring.Uplink(f) < 4
  {
  }

  lemma WiredDown(f: nat, l: nat)
    requires 33 <= f <= 48 && 1 <= l <= 32
    ensures DownlinkTo(f, l) == Wiring.Downlink(f, l) < 8
  {
    hide Wiring.NEAR_DOWNLINKS, Wiring.FAR_DOWNLINKS;
    var x := (l - 1) / 2;
    assert l == 2 * x + 1 || l == 2 * x + 2;
    WiredPair(x);
  }

  lemma WiredPair(x: nat)
    requires x < 16
    ensures Wiring.NEAR_DOWNLINKS[2 * x] == Wiring.NEAR_DOWNLINKS[2 * x + 1] == x % 8
    ensures Wiring.FAR_DOWNLINKS[2 * x] == Wiring.FAR_DOWNLINKS[2 * x + 1] == (x + 4) % 8
  {
    if x < 8 {
      assert x == 0 || x == 1 || x == 2 || x == 3 || x == 4 || x == 5 || x == 6 || x == 7;
    } else {
      assert x == 8 || x == 9 || x == 10 || x == 11 || x == 12 || x == 13 || x == 14 || x == 15;
    }
  }

  lemma UplinkInjective(f: nat, g: nat)
    requires FcNum(f) && FcNum(g) && SamePlane(f, g) && f != g
    ensures Wiring.Uplink(f) != Wiring.Uplink(g)
  {
    WiredUp(f);
    WiredUp(g);
    hide Wiring.Uplink;
  }

  lemma DownlinkInjective(f: nat, l: nat, m: nat)
    requires FcNum(f) && LcNum(l) && LcNum(m) && SamePlane(l, m) && l != m
    ensures Wiring.Downlink(f, l) != Wiring.Downlink(f, m)
  {
    hide Wiring.Downlink, DownlinkTo;
    WiredDown(f, l);
    WiredDown(f, m);
    DownlinkToInjective(f, l, m);
  }

  lemma DownlinkToInjective(f: nat, l: nat, m: nat)
    requires FcNum(f) && LcNum(l) && LcNum(m) && SamePlane(l, m) && l != m
    ensures DownlinkTo(f, l) != DownlinkTo(f, m)
  {
    var x, y := (l - 1) / 2, (m - 1) / 2;
    assert l == 2 * x + 1 && m == 2 * y + 1;
    assert x != y && (x < 8 <==> y < 8);
    assert x % 8 == (if x < 8 then x else x - 8) && y % 8 == (if y < 8 then y else y - 8);
    assert (x + 4) % 8 == if x < 4 then x + 4 else if x < 12 then x - 4 else x - 12;
    assert (y + 4) % 8 == if y < 4 then y + 4 else if y < 12 then y - 4 else y - 12;
  }

  lemma LeafPorts(us: nat, rootPort: nat, rootLc: nat)
    ensures us <= LINE_CARDS && rootLc != us ==> AtMostOneOpen(ForwardingPorts(us, rootPort, rootLc))
    ensures us > LINE_CARDS && rootPort != us ==> AtMostOneOpen(ForwardingPorts(us, rootPort, rootLc))
  {
  }

  lemma TwoUplinks(net: Net, l: nat, f: nat, g: nat)
    requires NetPortsOk(net) && LinkUp(net, l, f) && LinkUp(net, l, g) && f != g && net.cards[l].us == l
    ensures Designated(net, l)
  {
    hide Wiring.Uplink, Wiring.Downlink;
    UplinkInjective(f, g);
    var c := net.cards[l];
    LeafPorts(l, c.rootPort, c.rootLc);
    assert PortsOk(c);
    assert !AtMostOneOpen(c.ports);
  }

  lemma TwoDownlinks(net: Net, f: nat, l: nat, m: nat)
    requires NetPortsOk(net) && LinkUp(net, l, f) && LinkUp(net, m, f) && l != m && net.cards[f].us == f
    ensures AllOpen(net, f)
  {
    hide Wiring.Uplink, Wiring.Downlink;
    DownlinkInjective(f, l, m);
    var c := net.cards[f];
    LeafPorts(f, c.rootPort, c.rootLc);
    assert PortsOk(c);
    assert !AtMostOneOpen(c.ports);
  }

  lemma OpenLink(net: Net, l: nat, f: nat)
    requires NetPortsOk(net) && Designated(net, l) && AllOpen(net, f) && SamePlane(l, f)
    requires net.cards[l].us == l && net.cards[f].us == f
    ensures LinkUp(net, l, f)
  {
    hide Wiring.Uplink, Wiring.Downlink;
    WiredUp(f);
    WiredDown(f, l);
    assert PortsOk(net.cards[l]) && PortsOk(net.cards[f]);
  }

  /** Two line cards and two fabric cards of one plane, all wide open. */
  ghost predicate WideOpen(net: Net, upper: bool) {
    exists l, m, f, g :: OpenSquare(net, upper, l, m, f, g)
  }

  predicate OpenSquare(net: Net, upper: bool, l: nat, m: nat, f: nat, g: nat) {
    && l != m && f != g && Designated(net, l) && Designated(net, m) && AllOpen(net, f) && AllOpen(net, g)
    && Upper(l) == Upper(m) == Upper(f) == Upper(g) == upper
  }

  function Prev(n: nat, i: nat): nat
    requires n > 0
  {
    if i == 0 then n - 1 else i - 1
  }

  /** A card on a loop has two links up, so it is wide open; its neighbours on
      the loop are cards of the other kind in its own plane. */
  lemma OnCycle(net: Net, v: seq<nat>, i: nat)
    requires NetPortsOk(net) && Cycle(net, v) && i < |v|
    requires forall n :: n in net.cards ==> net.cards[n].us == n
    ensures (LcNum(v[i]) && Designated(net, v[i])) || (FcNum(v[i]) && AllOpen(net, v[i]))
    ensures var n := v[Next(|v|, i)]; SamePlane(v[i], n) && CpuA(n) && LcNum(v[i]) != LcNum(n)
    ensures var p := v[Prev(|v|, i)]; SamePlane(v[i], p) && CpuA(p) && LcNum(v[i]) != LcNum(p)
  {
    var p, n := Prev(|v|, i), Next(|v|, i);
    assert Next(|v|, p) == i && p != n;
    assert Adjacent(net, v[p], v[Next(|v|, p)]);
    assert Adjacent(net, v[i], v[n]);
    assert v[p] != v[n];
    if LcNum(v[i]) {
      TwoUplinks(net, v[i], v[p], v[n]);
    } else {
      TwoDownlinks(net, v[i], v[p], v[n]);
    }
  }

  lemma CycleIsWideOpen(net: Net, v: seq<nat>)
    requires NetPortsOk(net) && Cycle(net, v)
    requires forall n :: n in net.cards ==> net.cards[n].us == n
    ensures WideOpen(net, Upper(v[0]))
  {
    OnCycle(net, v, 0);
    var i := if LcNum(v[0]) then 0 else 1;
    var p, n := Prev(|v|, i), Next(|v|, i);
    var far := Next(|v|, n);
    OnCycle(net, v, i);
    OnCycle(net, v, p);
    OnCycle(net, v, n);
    OnCycle(net, v, far);
    assert far != i && p != n;
    assert v[i] != v[far] && v[n] != v[p];
    assert OpenSquare(net, Upper(v[0]), v[i], v[far], v[n], v[p]);
  }

  lemma WideOpenIsCycle(net: Net, upper: bool, l: nat, m: nat, f: nat, g: nat)
    requires NetPortsOk(net) && OpenSquare(net, upper, l, m, f, g)
    requires forall n :: n in net.cards ==> net.cards[n].us == n
    ensures HasCycle(net, upper)
  {
    hide LinkUp;
    OpenLink(net, l, f);
    OpenLink(net, l, g);
    OpenLink(net, m, f);
    OpenLink(net, m, g);
    var v := [l, f, m, g];
    forall i | 0 <= i < |v|
      ensures Adjacent(net, v[i], v[Next(|v|, i)])
    {
      assert i == 0 || i == 1 || i == 2 || i == 3;
    }
    assert Cycle(net, v) && Upper(v[0]) == upper;
  }

  /** In every reachable chassis: a plane has a loop exactly when two of its
      line cards both hold themselves to be root LC, and forward, while two of
      its fabric cards have all ports open. */
  lemma LoopIffWideOpen(hw: Hardware, net: Net, upper: bool)
    requires Reachable(hw, net)
    ensures HasCycle(net, upper) <==> WideOpen(net, upper)
  {
    var es :| net == Run(hw, EMPTY, es);
    RunOk(hw, EMPTY, es);
    RunPorts(hw, EMPTY, es);
    if HasCycle(net, upper) {
      var v :| Cycle(net, v) && Upper(v[0]) == upper;
      CycleIsWideOpen(net, v);
    }
    if WideOpen(net, upper) {
      var l, m, f, g :| OpenSquare(net, upper, l, m, f, g);
      WideOpenIsCycle(net, upper, l, m, f, g);
    }
  }

  /** One root LC at most: no loop, whatever the fabric cards do. */
  lemma LoopFree(hw: Hardware, net: Net, upper: bool)
    requires Reachable(hw, net)
    requires forall l, m :: Designated(net, l) && Designated(net, m) && Upper(l) == Upper(m) == upper ==> l == m
    ensures !HasCycle(net, upper)
  {
    LoopIffWideOpen(hw, net, upper);
  }

  // ----------------------------------------------------------- spanning tree

  predicate InPlane(net: Net, upper: bool, n: nat) {
    n in net.cards && CpuA(n) && Upper(n) == upper
  }

  /** Every card of the plane forwards and names R and D as the roots; how R
      itself records its root LC does not matter. */
  ghost predicate Agreed(net: Net, upper: bool, R: nat, D: nat) {
    && InPlane(net, upper, R) && FcNum(R) && InPlane(net, upper, D) && LcNum(D)
    && forall n :: InPlane(net, upper, n) ==> Names(net.cards[n], R, D)
  }

  predicate Names(c: Card, R: nat, D: nat) {
    c.state == Forwarding && c.rootPort == R && (c.us != R ==> c.rootLc == D)
  }

  function Lines(net: Net, upper: bool): set<nat> {
    set n | n in net.cards && LcNum(n) && Upper(n) == upper
  }

  function Fabrics(net: Net, upper: bool): set<nat> {
    set n | n in net.cards && FcNum(n) && Upper(n) == upper
  }

  function LinksUp(net: Net, upper: bool): set<(nat, nat)> {
    set l, f | l in Lines(net, upper) && f in Fabrics(net, upper) && LinkUp(net, l, f) :: (l, f)
  }

  ghost predicate Closed(net: Net, s: set<nat>, upper: bool) {
    forall x, y :: x in s && InPlane(net, upper, y) && Adjacent(net, x, y) ==> y in s
  }

  /** No part of the plane is cut off from the rest. */
  ghost predicate Connected(net: Net, upper: bool) {
    forall s, a, b ::
      Closed(net, s, upper) && a in s && InPlane(net, upper, a) && InPlane(net, upper, b) ==> b in s
  }

  ghost predicate SpanningTree(net: Net, upper: bool) {
    && Connected(net, upper)
    && |LinksUp(net, upper)| == |Lines(net, upper)| + |Fabrics(net, upper)| - 1
    && !HasCycle(net, upper)
  }

  ghost predicate Numbered(net: Net) {
    forall n :: n in net.cards ==> net.cards[n].us == n
  }

  /** Which links are up once the cards agree: those of R and those of D. */
  lemma AgreedLinks(net: Net, upper: bool, R: nat, D: nat, l: nat, f: nat)
    requires NetPortsOk(net) && Numbered(net) && Agreed(net, upper, R, D)
    requires l in Lines(net, upper) && f in Fabrics(net, upper)
    ensures LinkUp(net, l, f) <==> l == D || f == R
  {
    hide PortsOk, Wiring.Uplink, Wiring.Downlink, Open;
    assert InPlane(net, upper, l) && InPlane(net, upper, f);
    LcOpens(net.cards[l], R, D, f);
    FcOpens(net.cards[f], R, D, l);
  }

  /** Which uplinks a line card has open once it names R and D. */
  lemma LcOpens(c: Card, R: nat, D: nat, f: nat)
    requires PortsOk(c) && Names(c, R, D) && LcNum(c.us) && FcNum(f) && FcNum(R) && SamePlane(f, R)
    ensures Open(c, Wiring.Uplink(f)) <==> c.us == D || f == R
  {
    WiredUp(f);
    WiredUp(R);
    if f != R {
      UplinkInjective(f, R);
    }
    hide UplinkTo, Wiring.Uplink;
  }

  /** And which downlinks a fabric card. */
  lemma FcOpens(c: Card, R: nat, D: nat, l: nat)
    requires PortsOk(c) && Names(c, R, D) && FcNum(c.us) && LcNum(l) && LcNum(D) && SamePlane(l, D)
    ensures Open(c, Wiring.Downlink(c.us, l)) <==> c.us == R || l == D
  {
    hide UplinkTo, Uplinks;
    WiredDown(c.us, l);
    WiredDown(c.us, D);
    if l != D {
      DownlinkInjective(c.us, l, D);
    }
    hide DownlinkTo, Wiring.Downlink;
  }

  /** Which port a forwarding card has open that is not root itself: the one that is
      wired to its root, or none if it knows of no root. */
  lemma LeafOpens(hw: Hardware, net: Net, n: nat, i: nat)
    requires Reachable(hw, net) && n in net.cards && net.cards[n].state == Forwarding
    ensures var c := net.cards[n];
            && (LcNum(n) && c.rootLc != n ==>
                  (Open(c, i) <==> FcNum(c.rootPort) && i == Wiring.Uplink(c.rootPort)))
            && (FcNum(n) && c.rootPort != n ==>
                  (Open(c, i) <==> LcNum(c.rootLc) && i == Wiring.Downlink(n, c.rootLc)))
  {
    var es :| net == Run(hw, EMPTY, es);
    RunOk(hw, EMPTY, es);
    RunPorts(hw, EMPTY, es);
    CardOpens(hw, net.cards[n], i);
  }

  lemma CardOpens(hw: Hardware, c: Card, i: nat)
    requires CardOk(hw, c) && PortsOk(c) && c.state == Forwarding
    ensures LcNum(c.us) && c.rootLc != c.us ==>
              (Open(c, i) <==> FcNum(c.rootPort) && i == Wiring.Uplink(c.rootPort))
    ensures FcNum(c.us) && c.rootPort != c.us ==>
              (Open(c, i) <==> LcNum(c.rootLc) && i == Wiring.Downlink(c.us, c.rootLc))
  {
    hide Wiring.Uplink, Wiring.Downlink, TableOk;
    if FcNum(c.rootPort) {
      WiredUp(c.rootPort);
    }
    if FcNum(c.us) && LcNum(c.rootLc) {
      WiredDown(c.us, c.rootLc);
    }
  }

  /** A line card that goes from LISTENING to LEARNING opens the uplink to its root
      FC, and lets the others listen on. */
  lemma LearnsOn(hw: Hardware, c: Card, i: nat)
    requires CardOk(hw, c) && PortsOk(c) && LcNum(c.us) && c.state == Listening && i < 4
    requires Tick(c).card.state == Learning
    ensures var d := Tick(c).card;
            |d.ports| == 4
            && d.ports[i] == if FcNum(c.rootPort) && i == Wiring.Uplink(c.rootPort) then PortForwarding
                             else PortListening
  {
    hide Wiring.Uplink, TableOk;
    if FcNum(c.rootPort) {
      WiredUp(c.rootPort);
    }
  }

  function WithRight(s: set<nat>, r: nat): set<(nat, nat)> {
    set l | l in s :: (l, r)
  }

  function WithLeft(d: nat, s: set<nat>): set<(nat, nat)> {
    set f | f in s :: (d, f)
  }

  lemma {:induction false} PairsCount(s: set<nat>, n: nat)
    ensures |WithRight(s, n)| == |s| && |WithLeft(n, s)| == |s|
  {
    if s == {} {
      assert WithRight(s, n) == {} && WithLeft(n, s) == {};
    } else {
      var x :| x in s;
      PairsCount(s - {x}, n);
      assert WithRight(s, n) == WithRight(s - {x}, n) + {(x, n)};
      assert WithLeft(n, s) == WithLeft(n, s - {x}) + {(n, x)};
    }
  }

  lemma StarsCount(ls: set<nat>, fs: set<nat>, d: nat, r: nat)
    requires d in ls && r in fs
    ensures |WithRight(ls, r) + WithLeft(d, fs)| == |ls| + |fs| - 1
  {
    PairsCount(ls, r);
    PairsCount(fs, d);
    assert WithRight(ls, r) * WithLeft(d, fs) == {(d, r)};
  }

  lemma AgreedLinkSet(net: Net, upper: bool, R: nat, D: nat)
    requires NetPortsOk(net) && Numbered(net) && Agreed(net, upper, R, D)
    ensures LinksUp(net, upper) == WithRight(Lines(net, upper), R) + WithLeft(D, Fabrics(net, upper))
  {
    forall l, f
      ensures (l, f) in LinksUp(net, upper)
              <==> (l, f) in WithRight(Lines(net, upper), R) + WithLeft(D, Fabrics(net, upper))
    {
      if l in Lines(net, upper) && f in Fabrics(net, upper) {
        AgreedLinks(net, upper, R, D, l, f);
      }
    }
  }

  lemma AgreedCount(net: Net, upper: bool, R: nat, D: nat)
    requires NetPortsOk(net) && Numbered(net) && Agreed(net, upper, R, D)
    ensures |LinksUp(net, upper)| == |Lines(net, upper)| + |Fabrics(net, upper)| - 1
  {
    AgreedLinkSet(net, upper, R, D);
    StarsCount(Lines(net, upper), Fabrics(net, upper), D, R);
  }

  lemma AgreedConnected(net: Net, upper: bool, R: nat, D: nat)
    requires NetPortsOk(net) && Numbered(net) && Agreed(net, upper, R, D)
    ensures Connected(net, upper)
  {
    hide NetPortsOk, Agreed, Closed, LinkUp;
    forall s, a, b |
      Closed(net, s, upper) && a in s && InPlane(net, upper, a) && InPlane(net, upper, b)
      ensures b in s
    {
      ClosedHasAll(net, upper, R, D, s, a, b);
    }
  }

  lemma ClosedHasAll(net: Net, upper: bool, R: nat, D: nat, s: set<nat>, a: nat, b: nat)
    requires NetPortsOk(net) && Numbered(net) && Agreed(net, upper, R, D)
    requires Closed(net, s, upper) && a in s && InPlane(net, upper, a) && InPlane(net, upper, b)
    ensures b in s
  {
    hide NetPortsOk, LinkUp, Numbered, Names;
    Reaches(net, upper, R, D, a);
    Reaches(net, upper, R, D, b);
    Reaches(net, upper, R, D, R);
    assert R in s && D in s;
  }

  lemma Reaches(net: Net, upper: bool, R: nat, D: nat, n: nat)
    requires NetPortsOk(net) && Numbered(net) && Agreed(net, upper, R, D) && InPlane(net, upper, n)
    ensures LcNum(n) ==> Adjacent(net, n, R) && Adjacent(net, R, n)
    ensures FcNum(n) ==> Adjacent(net, n, D) && Adjacent(net, D, n)
  {
    hide NetPortsOk, LinkUp, Numbered, Names;
    if LcNum(n) {
      AgreedLinks(net, upper, R, D, n, R);
    } else {
      AgreedLinks(net, upper, R, D, D, n);
    }
  }

  lemma OneDesignated(net: Net, upper: bool, R: nat, D: nat, l: nat)
    requires Numbered(net) && Agreed(net, upper, R, D) && Designated(net, l) && Upper(l) == upper
    ensures l == D
  {
    assert InPlane(net, upper, l);
  }

  /** Agreement makes the forwarding links of the plane a spanning tree. */
  lemma AgreedIsTree(net: Net, upper: bool, R: nat, D: nat)
    requires NetPortsOk(net) && Numbered(net) && Agreed(net, upper, R, D)
    ensures SpanningTree(net, upper)
  {
    AgreedConnected(net, upper, R, D);
    AgreedCount(net, upper, R, D);
    if HasCycle(net, upper) {
      var v :| Cycle(net, v) && Upper(v[0]) == upper;
      CycleIsWideOpen(net, v);
      var l, m, f, g :| OpenSquare(net, upper, l, m, f, g);
      OneDesignated(net, upper, R, D, l);
      OneDesignated(net, upper, R, D, m);
    }
  }

  // ------------------------------------------------------------- reselection

  /** A HELLO that names R and the root LC D, and counts D as live. */
  predicate HelloNaming(b: Bpdu, R: nat, D: nat) {
    b.kind == Hello && b.root.Num() == R && b.design.Num() == D && NamesLiveDesign(b)
  }

  /** The root FC reselects and stays root, with all ports open. */
  lemma ReselectKeepsRoot(hw: Hardware, c: Card)
    requires CardOk(hw, c) && PortsOk(c) && c.state == Forwarding && c.rootPort == c.us
    requires c.since > MAX_AGE && Reselect(c.(heard := []), c.rootLc).1
    ensures var d := Tick(c).card; Names(d, c.us, d.designBridge.Num()) && PortsOk(d)
    ensures LcNum(Tick(c).card.designBridge.Num())
    ensures HelloNaming(Tick(c).sent[0], c.us, Tick(c).card.designBridge.Num())
  {
    TickPorts(hw, c);
    ForgetOk(hw, c.us, c.exist, c.rootLc);
    Announces(hw, c.(heard := []), FirstRecent(Forget(c.exist, c.rootLc), c.us, 0));
  }

  /** The i-th slot is the one picked. */
  lemma Announces(hw: Hardware, c: Card, i: nat)
    requires TableOk(hw, c.us, Forget(c.exist, c.rootLc)) && c.since > MAX_AGE && i < LINE_CARDS
    requires FirstRecent(Forget(c.exist, c.rootLc), c.us, 0) == i && FcNum(c.us) && c.us == c.rootBridge.Num()
    ensures LcNum(i + 1)
    ensures var d := RootTick(c).card; d == c.(exist := d.exist, rootLc := i, designPort := i,
                                               designBridge := IdOf(hw, i + 1), since := 0)
    ensures |RootTick(c).sent| == 1 && HelloNaming(RootTick(c).sent[0], c.us, i + 1)
    ensures RootTick(c).sent[0].from == c.us && RootTick(c).sent[0].dst == DstMac(c.us)
  {
    hide OwnTable, EnterBlock, MergeFrom;
    RecentOk(hw, c.us, Forget(c.exist, c.rootLc), i);
    assert SlotOk(hw, c.us, i, Forget(c.exist, c.rootLc)[i]);
  }

  /** The root LC that a card which handles BPDU b is told of, if b is a HELLO
      of its plane that names root FC R and counts the root LC as live; else 0. */
  function ToldBy(c: Card, b: Bpdu, R: nat): nat {
    if Fresh(c, b) && SamePlane(c.us, b.from) && b.kind == Hello && b.root.Num() == R && NamesLiveDesign(b)
    then b.design.Num() else 0
  }

  function Told(net: Net, e: Event, n: nat, R: nat): nat {
    match e
    case Deliver(k) =>
      if k < |net.flight| && net.flight[k].to == n && n in net.cards
      then ToldBy(net.cards[n], net.flight[k].b, R) else 0
    case _ => 0
  }

  /** What card n was told last in the run; 0 if nothing. */
  function LastTold(hw: Hardware, net: Net, es: seq<Event>, n: nat, R: nat): nat
    decreases |es|
  {
    if es == [] then 0
    else
      var later := LastTold(hw, Apply(hw, net, es[0]), es[1..], n, R);
      if later != 0 then later else Told(net, es[0], n, R)
  }

  ghost predicate AllForward(net: Net, upper: bool) {
    forall n :: InPlane(net, upper, n) ==> net.cards[n].state == Forwarding
  }

  /** No card of the plane is ever in another state than FORWARDING. */
  ghost predicate StaysForwarding(hw: Hardware, net: Net, es: seq<Event>, upper: bool)
    decreases |es|
  {
    AllForward(net, upper) && (es == [] || StaysForwarding(hw, Apply(hw, net, es[0]), es[1..], upper))
  }

  ghost predicate RootedAt(net: Net, upper: bool, R: nat) {
    forall n :: InPlane(net, upper, n) ==> net.cards[n].rootPort == R
  }

  /** What d says of card c a moment later, if nothing but a HELLO of root R can
      have changed its root LC. */
  predicate Follows(c: Card, d: Card, told: nat) {
    && d.us == c.us && d.rootPort == c.rootPort
    && (c.us != c.rootPort ==> d.rootLc == if told != 0 then told else c.rootLc)
  }

  lemma LcFollows(hw: Hardware, c: Card, b: Bpdu)
    requires CardOk(hw, c) && BpduOk(hw, b) && LcNum(c.us) && c.state == Forwarding
    ensures var d := LcForwards(c, b).card;
            d.state == Forwarding ==>
              Follows(c, d, if b.kind == Hello && b.root.Num() == c.rootPort && NamesLiveDesign(b)
                            then b.design.Num() else 0)
  {
    hide MergeFrom, Aged, ForwardingPorts, TableOk, OwnTable;
  }

  lemma FcFollows(hw: Hardware, c: Card, b: Bpdu)
    requires CardOk(hw, c) && BpduOk(hw, b) && FcNum(c.us) && c.state == Forwarding
    ensures var d := FcForwards(c, b).card;
            d.state == Forwarding ==>
              Follows(c, d, if b.kind == Hello && b.root.Num() == c.rootPort && NamesLiveDesign(b)
                            then b.design.Num() else 0)
  {
    hide MergeFrom, Aged, ForwardingPorts, TableOk, OwnTable;
  }

  lemma RxFollows(hw: Hardware, c: Card, b: Bpdu)
    requires CardOk(hw, c) && BpduOk(hw, b) && Accepts(c.us, b.dst) && c.state == Forwarding
    ensures Rx(c, b).card.state == Forwarding ==> Follows(c, Rx(c, b).card, ToldBy(c, b, c.rootPort))
  {
    HearsOtherGroup(c.us, b.from);
    var h := c.(heard := c.heard + [(b.from, b.kind)]);
    if Fresh(c, b) && SamePlane(c.us, b.from) {
      if LcNum(c.us) { LcFollows(hw, h, b); } else { FcFollows(hw, h, b); }
    }
  }

  lemma TickFollows(hw: Hardware, c: Card)
    requires CardOk(hw, c) && c.state == Forwarding
    ensures Tick(c).card.state == Forwarding ==> Follows(c, Tick(c).card, 0)
  {
  }

  lemma ActorFollows(net: Net, n: nat, o: Out, told: nat)
    requires n in net.cards && (o.card.state == Forwarding ==> Follows(net.cards[n], o.card, told))
    ensures var d := Did(net, n, o).cards[n]; d.state == Forwarding ==> Follows(net.cards[n], d, told)
  {
  }

  predicate Rooted(net: Net, n: nat, R: nat) {
    n in net.cards ==> net.cards[n].state == Forwarding && net.cards[n].rootPort == R
  }

  lemma TickCardFollows(hw: Hardware, net: Net, n: nat, R: nat)
    requires NetOk(hw, net) && n in net.cards && Rooted(net, n, R)
    ensures var d := Apply(hw, net, TickCard(n)).cards[n]; d.state == Forwarding ==> Follows(net.cards[n], d, 0)
  {
    TickFollows(hw, net.cards[n]);
    ActorFollows(net, n, Tick(net.cards[n]), 0);
  }

  lemma DeliverFollows(hw: Hardware, net: Net, k: nat, n: nat, R: nat)
    requires NetOk(hw, net) && k < |net.flight| && net.flight[k].to == n && n in net.cards && Rooted(net, n, R)
    ensures var d := Apply(hw, net, Deliver(k)).cards[n];
            d.state == Forwarding ==> Follows(net.cards[n], d, ToldBy(net.cards[n], net.flight[k].b, R))
  {
    var c := net.flight[k];
    assert CopyOk(hw, c);
    RxFollows(hw, net.cards[n], c.b);
    ActorFollows(net.(flight := Without(net.flight, k)), n, Rx(net.cards[n], c.b), ToldBy(net.cards[n], c.b, R));
  }

  /** One event, for a card n that runs and forwards after it. */
  lemma EventFollows(hw: Hardware, net: Net, e: Event, R: nat, n: nat)
    requires NetOk(hw, net) && Rooted(net, n, R)
    requires n in Apply(hw, net, e).cards && Apply(hw, net, e).cards[n].state == Forwarding
    ensures n in net.cards && Follows(net.cards[n], Apply(hw, net, e).cards[n], Told(net, e, n, R))
  {
    hide Tick, Rx, CardOk;
    if e.TickCard? && e.n == n && n in net.cards {
      TickCardFollows(hw, net, n, R);
    } else if e.Deliver? && e.k < |net.flight| && net.flight[e.k].to == n && n in net.cards {
      DeliverFollows(hw, net, e.k, n, R);
    } else {
      assert n in net.cards && Apply(hw, net, e).cards[n] == net.cards[n];
    }
  }

  /** While no card of the plane leaves FORWARDING, root FC R stays root for all
      of them, whatever is ticked, lost or stopped; and the root LC of every card
      but R is the one that the last HELLO it handled named. */
  lemma {:induction false} RootLcIsLastTold(hw: Hardware, net: Net, es: seq<Event>, upper: bool, R: nat, n: nat)
    requires NetOk(hw, net) && RootedAt(net, upper, R) && StaysForwarding(hw, net, es, upper)
    requires InPlane(Run(hw, net, es), upper, n)
    ensures InPlane(net, upper, n) && AllForward(Run(hw, net, es), upper)
    ensures Follows(net.cards[n], Run(hw, net, es).cards[n], LastTold(hw, net, es, n, R))
    decreases |es|
  {
    if es != [] {
      var next := Apply(hw, net, es[0]);
      ApplyOk(hw, net, es[0]);
      forall m | InPlane(next, upper, m)
        ensures next.cards[m].rootPort == R
      {
        EventFollows(hw, net, es[0], R, m);
      }
      RootLcIsLastTold(hw, next, es[1..], upper, R, n);
      EventFollows(hw, net, es[0], R, n);
    }
  }

  /** The root LC of card n after the run, by what it was told. */
  function RootLcNow(hw: Hardware, net: Net, es: seq<Event>, n: nat, R: nat): nat
    requires n in net.cards
  {
    var told := LastTold(hw, net, es, n, R);
    if told != 0 then told else net.cards[n].rootLc
  }

  /** Reselection over a run: all cards of the plane forward and hold R to be
      root FC; then R announces another root LC D', and meanwhile cards tick,
      stop and lose copies, among them perhaps the old root LC. As long as none
      leaves FORWARDING, the plane agrees on (R, D') exactly when every running
      card but R was last told of D', or was told nothing and held to D' before. */
  lemma ReselectedIff(hw: Hardware, net: Net, es: seq<Event>, upper: bool, R: nat, D': nat)
    requires NetOk(hw, net) && RootedAt(net, upper, R) && StaysForwarding(hw, net, es, upper)
    requires InPlane(Run(hw, net, es), upper, R) && FcNum(R) && InPlane(Run(hw, net, es), upper, D') && LcNum(D')
    ensures forall n :: InPlane(Run(hw, net, es), upper, n) ==> n in net.cards
    ensures Agreed(Run(hw, net, es), upper, R, D')
       <==> forall n :: InPlane(Run(hw, net, es), upper, n) && n != R ==> RootLcNow(hw, net, es, n, R) == D'
  {
    var after := Run(hw, net, es);
    RunOk(hw, net, es);
    forall n | InPlane(after, upper, n)
      ensures n in net.cards && after.cards[n].state == Forwarding && after.cards[n].rootPort == R
      ensures n != R ==> after.cards[n].rootLc == RootLcNow(hw, net, es, n, R)
    {
      RootLcIsLastTold(hw, net, es, upper, R, n);
    }
  }

  /** Once every running card but R was last told of D', the forwarding links of
      the plane are a spanning tree again. */
  lemma ReselectedTree(hw: Hardware, net: Net, es: seq<Event>, upper: bool, R: nat, D': nat)
    requires NetOk(hw, net) && NetPortsOk(net) && RootedAt(net, upper, R) && StaysForwarding(hw, net, es, upper)
    requires InPlane(Run(hw, net, es), upper, R) && FcNum(R) && InPlane(Run(hw, net, es), upper, D') && LcNum(D')
    requires forall n :: InPlane(Run(hw, net, es), upper, n) && n != R ==> LastTold(hw, net, es, n, R) == D'
    ensures Agreed(Run(hw, net, es), upper, R, D') && SpanningTree(Run(hw, net, es), upper)
  {
    ReselectedIff(hw, net, es, upper, R, D');
    RunOk(hw, net, es);
    RunPorts(hw, net, es);
    AgreedIsTree(Run(hw, net, es), upper, R, D');
  }
}
