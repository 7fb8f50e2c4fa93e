/**
 The chassis: the running cards and the BPDU copies on their way. A BPDU is
 multicast; every running card whose filter passes it gets one copy, which may
 be delivered once, at any time and in any order, or be lost.
 */
module CtpNet {
  import opened Ctp
  import opened CtpInvariant
  import Bpf

  datatype Copy = Copy(to: nat, b: Bpdu)

  datatype Net = Net(cards: map<nat, Card>, flight: seq<Copy>)

  datatype Event = TickCard(n: nat) | Deliver(k: nat) | Lose(k: nat) | Stop(n: nat) | Start(n: nat)

  predicate IsFrame(f: seq<nat>) {
    forall i :: 0 <= i < |f| ==> f[i] < 256
  }

  /** The filter that card us attaches passes a frame to this address. */
  predicate Accepts(us: nat, dst: seq<nat>) {
    IsFrame(dst) && Bpf.Passes(if OuterGroup(us) then Bpf.STP_FILTER3 else Bpf.STP_FILTER4, dst)
  }

  function SendTo(live: set<nat>, b: Bpdu, n: nat): seq<Copy> {
    if n == 0 then []
    else SendTo(live, b, n - 1) + if n in live && Accepts(n, b.dst) then [Copy(n, b)] else []
  }

  function Send(live: set<nat>, bs: seq<Bpdu>): seq<Copy> {
    if bs == [] then [] else SendTo(live, bs[0], CARDS) + Send(live, bs[1..])
  }

  function Without<T>(s: seq<T>, k: nat): seq<T>
    requires k < |s|
  {
    s[..k] + s[k + 1..]
  }

  /** Card n did o. */
  function Did(net: Net, n: nat, o: Out): Net {
    Net(net.cards[n := o.card], net.flight + Send(net.cards.Keys, o.sent))
  }

  /** An event that is not possible changes nothing. */
  function Apply(hw: Hardware, net: Net, e: Event): Net {
    match e
    case TickCard(n) =>
      if n in net.cards then Did(net, n, Tick(net.cards[n])) else net
    case Deliver(k) =>
      if k < |net.flight| && net.flight[k].to in net.cards then
        var c := net.flight[k];
        Did(net.(flight := Without(net.flight, k)), c.to, Rx(net.cards[c.to], c.b))
      else net
    case Lose(k) =>
      if k < |net.flight| then net.(flight := Without(net.flight, k)) else net
    case Stop(n) => net.(cards := net.cards - {n})
    case Start(n) =>
      if CpuA(n) && n !in net.cards then net.(cards := net.cards[n := Boot(n, hw[n - 1])]) else net
  }

  function Run(hw: Hardware, net: Net, es: seq<Event>): Net
    decreases |es|
  {
    if es == [] then net else Run(hw, Apply(hw, net, es[0]), es[1..])
  }

  lemma RunOne(hw: Hardware, net: Net, e: Event)
    ensures Run(hw, net, [e]) == Apply(hw, net, e)
  {
    assert [e][1..] == [];
    assert Run(hw, net, [e]) == Run(hw, Apply(hw, net, [e][0]), [e][1..]);
  }

  lemma {:induction false} RunAppend(hw: Hardware, net: Net, es: seq<Event>, fs: seq<Event>)
    ensures Run(hw, net, es + fs) == Run(hw, Run(hw, net, es), fs)
    decreases |es|
  {
    if es == [] {
      assert es + fs == fs;
    } else {
      assert (es + fs)[1..] == es[1..] + fs;
      RunAppend(hw, Apply(hw, net, es[0]), es[1..], fs);
    }
  }

  const EMPTY := Net(map[], [])

  ghost predicate Reachable(hw: Hardware, net: Net) {
    exists es :: net == Run(hw, EMPTY, es)
  }

  // -------------------------------------------------------------- invariant

  predicate CopyOk(hw: Hardware, c: Copy) {
    BpduOk(hw, c.b) && CpuA(c.to) && Accepts(c.to, c.b.dst)
  }

  predicate NetOk(hw: Hardware, net: Net) {
    && (forall n :: n in net.cards ==> CardOk(hw, net.cards[n]) && net.cards[n].us == n)
    && (forall k :: 0 <= k < |net.flight| ==> CopyOk(hw, net.flight[k]))
  }

  /** Who a BPDU reaches: the members of the other address group. */
  lemma HearsOtherGroup(us: nat, from: nat)
    requires CpuA(us) && CpuA(from)
    ensures Accepts(us, DstMac(from)) <==> OuterGroup(us) != OuterGroup(from)
    ensures Accepts(us, DstMac(from)) ==> (SamePlane(us, from) <==> LcNum(us) != LcNum(from))
  {
    var d := DstMac(from);
    assert d[..6] == d;
    Bpf.Filter3Passes(d);
    Bpf.Filter4Passes(d);
    assert MAC_LOW[5] != MAC_HIGH[5];
  }

  /** The two groups and their addresses, card by card: line cards 1..16 and fabric
      cards 41..48 send to 01:10:b5:00:00:02 and hear 01:10:b5:00:00:01, all others
      the other way round. */
  lemma GroupAddresses(us: nat)
    requires 1 <= us <= 48
    ensures var first := us <= 16 || us >= 41;
            && DstMac(us) == [0x01, 0x10, 0xb5, 0x00, 0x00, if first then 2 else 1]
            && Accepts(us, [0x01, 0x10, 0xb5, 0x00, 0x00, 0x01]) == first
            && Accepts(us, [0x01, 0x10, 0xb5, 0x00, 0x00, 0x02]) == !first
  {
    var low, high := [0x01, 0x10, 0xb5, 0x00, 0x00, 0x01], [0x01, 0x10, 0xb5, 0x00, 0x00, 0x02];
    assert IsFrame(low) && IsFrame(high) && low[..6] == low && high[..6] == high;
    Bpf.Filter3Passes(low);
    Bpf.Filter3Passes(high);
    Bpf.Filter4Passes(low);
    Bpf.Filter4Passes(high);
    assert low[5] != high[5];
  }

  lemma {:induction false} SendToOk(hw: Hardware, live: set<nat>, b: Bpdu, n: nat)
    requires BpduOk(hw, b) && n <= CARDS && forall m :: m in live ==> CpuA(m)
    ensures forall c :: c in SendTo(live, b, n) ==> CopyOk(hw, c) && c.b == b
  {
    if n > 0 {
      SendToOk(hw, live, b, n - 1);
    }
  }

  lemma {:induction false} SendOk(hw: Hardware, live: set<nat>, bs: seq<Bpdu>)
    requires forall k :: 0 <= k < |bs| ==> BpduOk(hw, bs[k])
    requires forall m :: m in live ==> CpuA(m)
    ensures forall c :: c in Send(live, bs) ==> CopyOk(hw, c) && c.b in bs
  {
    if bs != [] {
      SendToOk(hw, live, bs[0], CARDS);
      SendOk(hw, live, bs[1..]);
    }
  }

  lemma DidOk(hw: Hardware, net: Net, n: nat, o: Out)
    requires NetOk(hw, net) && n in net.cards && OutOk(hw, n, o)
    ensures NetOk(hw, Did(net, n, o))
  {
    SendOk(hw, net.cards.Keys, o.sent);
    var sent := Send(net.cards.Keys, o.sent);
    forall k | 0 <= k < |sent|
      ensures CopyOk(hw, sent[k])
    {
      assert sent[k] in sent;
    }
  }

  lemma DeliverOk(hw: Hardware, net: Net, k: nat)
    requires NetOk(hw, net) && k < |net.flight| && net.flight[k].to in net.cards
    ensures NetOk(hw, Apply(hw, net, Deliver(k)))
  {
    hide Rx, CardOk;
    var c := net.flight[k];
    assert CopyOk(hw, c);
    HearsOtherGroup(c.to, c.b.from);
    RxOk(hw, net.cards[c.to], c.b);
    DidOk(hw, net.(flight := Without(net.flight, k)), c.to, Rx(net.cards[c.to], c.b));
  }

  lemma ApplyOk(hw: Hardware, net: Net, e: Event)
    requires NetOk(hw, net)
    ensures NetOk(hw, Apply(hw, net, e))
  {
    hide CardOk, Rx, Tick;
    match e
    case TickCard(n) =>
      if n in net.cards {
        TickOk(hw, net.cards[n]);
        DidOk(hw, net, n, Tick(net.cards[n]));
      }
    case Deliver(k) =>
      if k < |net.flight| && net.flight[k].to in net.cards {
        DeliverOk(hw, net, k);
      }
    case Lose(k) =>
    case Stop(n) =>
    case Start(n) =>
      if CpuA(n) {
        BootOk(hw, n);
      }
  }

  lemma {:induction false} RunOk(hw: Hardware, net: Net, es: seq<Event>)
    requires NetOk(hw, net)
    ensures NetOk(hw, Run(hw, net, es))
    decreases |es|
  {
    if es != [] {
      ApplyOk(hw, net, es[0]);
      RunOk(hw, Apply(hw, net, es[0]), es[1..]);
    }
  }

  /** Network-wide identity and parity, in every reachable chassis: each slot
      that was ever heard carries the id of its own card, slots of CPU B cards
      stay at age 0, and every name of a root is the name of a real card. */
  lemma ReachableOk(hw: Hardware, net: Net)
    requires Reachable(hw, net)
    ensures NetOk(hw, net)
    ensures forall n :: n in net.cards ==> net.cards[n].brId == BridgeId(4096 + n, hw[n - 1])
  {
    var es :| net == Run(hw, EMPTY, es);
    RunOk(hw, EMPTY, es);
  }

  // -------------------------------------------------------- plane isolation

  /** The card whose doing the event is lies in the other plane than card n. */
  predicate Foreign(net: Net, e: Event, n: nat) {
    match e
    case TickCard(m) => !SamePlane(m, n)
    case Deliver(k) => k < |net.flight| ==> !SamePlane(net.flight[k].b.from, n)
    case Lose(k) => true
    case Stop(m) => m != n
    case Start(m) => m != n
  }

  /** Nothing but the receive-interval table of card n changes. */
  predicate Untouched(c: Card, d: Card) {
    d == c.(heard := d.heard)
  }

  /** A BPDU from the other plane that passes the filter is never acted on. */
  lemma ForeignRx(hw: Hardware, c: Card, b: Bpdu)
    requires CardOk(hw, c) && CpuA(b.from) && Accepts(c.us, DstMac(b.from)) && !SamePlane(c.us, b.from)
    ensures Untouched(c, Rx(c, b).card) && Rx(c, b).sent == []
  {
    HearsOtherGroup(c.us, b.from);
  }

  lemma PlaneIsolation(hw: Hardware, net: Net, e: Event, n: nat)
    requires NetOk(hw, net) && n in net.cards && Foreign(net, e, n)
    ensures n in Apply(hw, net, e).cards && Untouched(net.cards[n], Apply(hw, net, e).cards[n])
  {
    hide Rx, CardOk, Tick;
    match e
    case Deliver(k) =>
      if k < |net.flight| && net.flight[k].to == n {
        assert CopyOk(hw, net.flight[k]);
        ForeignRx(hw, net.cards[n], net.flight[k].b);
      }
    case _ =>
  }

  /** Every event of the run is foreign to card n. */
  predicate ForeignRun(hw: Hardware, net: Net, es: seq<Event>, n: nat)
    decreases |es|
  {
    es == [] || (Foreign(net, es[0], n) && ForeignRun(hw, Apply(hw, net, es[0]), es[1..], n))
  }

  lemma {:induction false} PlaneIsolationRun(hw: Hardware, net: Net, es: seq<Event>, n: nat)
    requires NetOk(hw, net) && n in net.cards && ForeignRun(hw, net, es, n)
    ensures n in Run(hw, net, es).cards && Untouched(net.cards[n], Run(hw, net, es).cards[n])
    decreases |es|
  {
    if es != [] {
      PlaneIsolation(hw, net, es[0], n);
      ApplyOk(hw, net, es[0]);
      PlaneIsolationRun(hw, Apply(hw, net, es[0]), es[1..], n);
    }
  }
}
