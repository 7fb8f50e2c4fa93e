/**
 A card that has stopped dies out of the gossip. Every table and every copy in
 flight gets a weight by the age it carries for the stopped card j; no event
 increases the total, and every event that carries j decreases it.
 */
module CtpGossip {
  import opened Ctp
  import opened CtpInvariant
  import opened CtpNet

  /** The weight of a table that holds j at this age. A table can still send
      copies to every card, each one age lower. */
  function TableWeight(a: nat): nat
    decreases a, 0
  {
    if a == 0 then 0 else TableWeight(a - 1) + CARDS * FlightWeight(a - 1) + 1
  }

  /** The weight of one copy in flight. It pays for the table it may fill, and
      for one reply of that table. */
  function FlightWeight(a: nat): nat
    decreases a, 1
  {
    if a == 0 then 0 else TableWeight(a) + CARDS * FlightWeight(a - 1) + 1
  }

  lemma {:induction false} TableWeightMonotone(a: nat, b: nat)
    requires a <= b
    ensures TableWeight(a) <= TableWeight(b)
  {
    if a < b {
      TableWeightMonotone(a, b - 1);
    }
  }

  function AgeOf(t: Table, j: nat): nat
    requires 1 <= j <= CARDS
  {
    t[j - 1].age
  }

  function CardWeight(c: Card, j: nat): nat
    requires 1 <= j <= CARDS
  {
    TableWeight(AgeOf(c.exist, j))
  }

  /** The copies of one sent BPDU, at most one for each card. */
  function SentWeight(sent: seq<Bpdu>, j: nat): nat
    requires 1 <= j <= CARDS
  {
    if sent == [] then 0 else CARDS * FlightWeight(AgeOf(sent[0].exist, j)) + SentWeight(sent[1..], j)
  }

  function OutWeight(o: Out, j: nat): nat
    requires 1 <= j <= CARDS
  {
    CardWeight(o.card, j) + SentWeight(o.sent, j)
  }

  predicate Carries(sent: seq<Bpdu>, j: nat)
    requires 1 <= j <= CARDS
  {
    exists k :: 0 <= k < |sent| && AgeOf(sent[k].exist, j) >= 1
  }

  // -------------------------------------------------------------- operations

  lemma TxWeight(c: Card, kind: Kind, j: nat)
    requires 1 <= j <= CARDS && c.us != j
    ensures AgeOf(c.exist, j) == 0 ==> OutWeight(Tx(c, kind), j) == 0
    ensures AgeOf(c.exist, j) >= 1 ==> OutWeight(Tx(c, kind), j) == CardWeight(c, j) - 1
    ensures AgeOf(Tx(c, kind).card.exist, j) == if AgeOf(c.exist, j) == 0 then 0 else AgeOf(c.exist, j) - 1
  {
    var o := Tx(c, kind);
    assert o.sent[1..] == [];
    assert SentWeight(o.sent, j) == CARDS * FlightWeight(AgeOf(o.sent[0].exist, j)) + SentWeight(o.sent[1..], j);
  }

  lemma MergedAge(hw: Hardware, c: Card, b: Bpdu, j: nat)
    requires CardOk(hw, c) && BpduOk(hw, b) && SamePlane(c.us, b.from) && 1 <= j <= CARDS && c.us != j
    ensures AgeOf(Merged(c, b).exist, j) ==
            if AgeOf(b.exist, j) > AgeOf(c.exist, j) then AgeOf(b.exist, j) else AgeOf(c.exist, j)
  {
    MergeIsYoungest(hw, c, b);
  }

  lemma AgedByOne(t: Table, us: nat, i: nat)
    requires i < CARDS && i + 1 != us
    ensures Age(Aged(t, us), i) == if Age(t, i) >= 1 then Age(t, i) - 1 else 0
  {
  }

  /** o is what a card with weight w may become on a copy that carries age. */
  predicate Paid(o: Out, j: nat, w: nat, age: nat)
    requires 1 <= j <= CARDS
  {
    && OutWeight(o, j) <= w + FlightWeight(age)
    && (age >= 1 || Carries(o.sent, j) ==> OutWeight(o, j) < w + FlightWeight(age))
  }

  /** Merge, then nothing, one send, or one send and a fresh start. */
  lemma MergeThenSend(hw: Hardware, c: Card, m: Card, b: Bpdu, kind: Kind, j: nat)
    requires CardOk(hw, c) && BpduOk(hw, b) && SamePlane(c.us, b.from) && 1 <= j <= CARDS && c.us != j
    requires m.us == c.us && m.exist == Merged(c, b).exist
    ensures Paid(Out(m, []), j, CardWeight(c, j), AgeOf(b.exist, j))
    ensures Paid(Tx(m, kind), j, CardWeight(c, j), AgeOf(b.exist, j))
    ensures Paid(Out(EnterBlock(m), []), j, CardWeight(c, j), AgeOf(b.exist, j))
    ensures Paid(Out(EnterBlock(Tx(m, kind).card), Tx(m, kind).sent), j, CardWeight(c, j), AgeOf(b.exist, j))
  {
    MergedAge(hw, c, b, j);
    TxWeight(m, kind, j);
    assert CardWeight(EnterBlock(m), j) == 0 && CardWeight(EnterBlock(Tx(m, kind).card), j) == 0;
  }

  lemma SendThenMerge(hw: Hardware, u: Card, b: Bpdu, kind: Kind, j: nat)
    requires CardOk(hw, u) && BpduOk(hw, b) && SamePlane(u.us, b.from) && 1 <= j <= CARDS && u.us != j
    requires AgeOf(b.exist, j) <= AgeOf(u.exist, j) && SentKind(kind)
    ensures var o := Out(Merged(Tx(u, kind).card, b), Tx(u, kind).sent);
            var a, r := AgeOf(u.exist, j), AgeOf(b.exist, j);
            && SentWeight(o.sent, j) == (if a == 0 then 0 else CARDS * FlightWeight(a - 1))
            && AgeOf(o.card.exist, j) == if r == a then r else a - 1
  {
    TxOk(hw, u, kind);
    TxWeight(u, kind, j);
    MergedAge(hw, Tx(u, kind).card, b, j);
  }

  /** A line card that leaves BLOCK merges the BPDU again after its reply, so
      it may keep the age that the reply had just lowered. */
  lemma WakeWeight(hw: Hardware, c: Card, b: Bpdu, j: nat)
    requires CardOk(hw, c) && BpduOk(hw, b) && SamePlane(c.us, b.from) && 1 <= j <= CARDS && c.us != j
    requires LcNum(c.us)
    ensures Paid(LcWakes(c, b), j, CardWeight(c, j), AgeOf(b.exist, j))
  {
    var e := LcElect(EnterListening(c), b);
    ElectOk(hw, EnterListening(c), b);
    MergeSendMerge(hw, e, b, j);
    assert CardWeight(e, j) == CardWeight(c, j);
  }

  lemma MergeSendMerge(hw: Hardware, c: Card, b: Bpdu, j: nat)
    requires CardOk(hw, c) && BpduOk(hw, b) && SamePlane(c.us, b.from) && 1 <= j <= CARDS && c.us != j
    ensures var o := Tx(Merged(c, b), Reply);
            Paid(Out(Merged(o.card, b), o.sent), j, CardWeight(c, j), AgeOf(b.exist, j))
  {
    hide CardOk, BpduOk, NamesOk, BlockOk, ClockOk, MergeFrom;
    MergedOk(hw, c, b);
    MergedAge(hw, c, b, j);
    SendThenMerge(hw, Merged(c, b), b, Reply, j);
    WakePays(AgeOf(c.exist, j), AgeOf(b.exist, j));
    TxAge(Merged(c, b), Reply, j);
  }

  /** Of a card that holds age t and receives age r: the table it keeps and the
      reply it sends weigh less than its table and the copy it received. */
  lemma WakePays(t: nat, r: nat)
    ensures var a := if r > t then r else t;
            var kept := if r == a then r else a - 1;
            var paid := TableWeight(kept) + if a == 0 then 0 else CARDS * FlightWeight(a - 1);
            paid <= TableWeight(t) + FlightWeight(r) && (a >= 1 ==> paid < TableWeight(t) + FlightWeight(r))
  {
  }

  lemma TxAge(c: Card, kind: Kind, j: nat)
    requires 1 <= j <= CARDS && c.us != j
    ensures Carries(Tx(c, kind).sent, j) ==> AgeOf(c.exist, j) >= 1
  {
  }

  /** Merging twice is merging once. */
  lemma TwiceMerged(hw: Hardware, c: Card, b: Bpdu)
    requires CardOk(hw, c) && BpduOk(hw, b) && SamePlane(c.us, b.from)
    ensures Merged(Merged(c, b), b).exist == Merged(c, b).exist
  {
    MergedOk(hw, c, b);
    MergeIsYoungest(hw, c, b);
    MergeIsYoungest(hw, Merged(c, b), b);
  }

  lemma ConvergeTable(hw: Hardware, c: Card, b: Bpdu)
    requires CardOk(hw, c) && BpduOk(hw, b) && SamePlane(c.us, b.from)
    requires c.state == Listening || c.state == Learning
    ensures LcConverges(c, b).card.exist == Merged(c, b).exist
    ensures FcConverges(c, b).card.exist == Merged(c, b).exist
  {
    TwiceMerged(hw, c, b);
  }

  lemma LcHelloWeight(hw: Hardware, c: Card, b: Bpdu, j: nat)
    requires CardOk(hw, c) && BpduOk(hw, b) && SamePlane(c.us, b.from) && 1 <= j <= CARDS && c.us != j
    ensures Paid(LcHello(Merged(c, b), b), j, CardWeight(c, j), AgeOf(b.exist, j))
  {
    var z := Merged(c, b).(since := 0);
    MergeThenSend(hw, c, z, b, Hello, j);
    MergeThenSend(hw, c, z, b, Reply, j);
    MergeThenSend(hw, c, SyncToHello(z, b), b, Reply, j);
  }

  lemma LcForwardsWeight(hw: Hardware, c: Card, b: Bpdu, j: nat)
    requires CardOk(hw, c) && BpduOk(hw, b) && SamePlane(c.us, b.from) && 1 <= j <= CARDS && c.us != j
    requires LcNum(c.us)
    ensures Paid(LcForwards(c, b), j, CardWeight(c, j), AgeOf(b.exist, j))
  {
    var m := Merged(c, b);
    MergeThenSend(hw, c, m, b, LcChange, j);
    MergeThenSend(hw, c, m, b, Reply, j);
    LcHelloWeight(hw, c, b, j);
  }

  lemma LcWeight(hw: Hardware, c: Card, b: Bpdu, j: nat)
    requires CardOk(hw, c) && BpduOk(hw, b) && SamePlane(c.us, b.from) && 1 <= j <= CARDS && c.us != j
    requires LcNum(c.us)
    ensures Paid(LcHearsFc(c, b), j, CardWeight(c, j), AgeOf(b.exist, j))
  {
    match c.state
    case Block => WakeWeight(hw, c, b, j);
    case Forwarding => LcForwardsWeight(hw, c, b, j);
    case _ =>
      ConvergeTable(hw, c, b);
      MergeThenSend(hw, c, LcConverges(c, b).card, b, Reply, j);
  }

  lemma FcHelloWeight(hw: Hardware, c: Card, b: Bpdu, j: nat)
    requires CardOk(hw, c) && BpduOk(hw, b) && SamePlane(c.us, b.from) && 1 <= j <= CARDS && c.us != j
    ensures Paid(FcHello(Merged(c, b), b), j, CardWeight(c, j), AgeOf(b.exist, j))
  {
    var z := Merged(c, b).(since := 0);
    MergeThenSend(hw, c, z, b, Hello, j);
    MergeThenSend(hw, c, SyncToHello(z, b), b, Hello, j);
  }

  lemma FcForwardsWeight(hw: Hardware, c: Card, b: Bpdu, j: nat)
    requires CardOk(hw, c) && BpduOk(hw, b) && SamePlane(c.us, b.from) && 1 <= j <= CARDS && c.us != j
    ensures Paid(FcForwards(c, b), j, CardWeight(c, j), AgeOf(b.exist, j))
  {
    var m := Merged(c, b);
    match b.kind
    case Hello => FcHelloWeight(hw, c, b, j);
    case _ => MergeThenSend(hw, c, m, b, Reply, j);
  }

  lemma FcWeight(hw: Hardware, c: Card, b: Bpdu, j: nat)
    requires CardOk(hw, c) && BpduOk(hw, b) && SamePlane(c.us, b.from) && 1 <= j <= CARDS && c.us != j
    ensures Paid(FcHearsLc(c, b), j, CardWeight(c, j), AgeOf(b.exist, j))
  {
    hide CardOk, BpduOk, NamesOk, TableOk;
    match c.state
    case Block =>
      TwiceMerged(hw, c, b);
      MergeThenSend(hw, c, FcWakes(c, b).card, b, Reply, j);
    case Forwarding => FcForwardsWeight(hw, c, b, j);
    case _ =>
      ConvergeTable(hw, c, b);
      MergeThenSend(hw, c, FcConverges(c, b).card, b, Reply, j);
  }

  lemma RxWeight(hw: Hardware, c: Card, b: Bpdu, j: nat)
    requires CardOk(hw, c) && BpduOk(hw, b) && Accepts(c.us, b.dst) && 1 <= j <= CARDS && c.us != j
    ensures Paid(Rx(c, b), j, CardWeight(c, j), AgeOf(b.exist, j))
  {
    HearsOtherGroup(c.us, b.from);
    var h := c.(heard := c.heard + [(b.from, b.kind)]);
    if Fresh(c, b) && LcNum(c.us) && FcNum(b.from) {
      LcWeight(hw, h, b, j);
    } else if Fresh(c, b) && FcNum(c.us) && LcNum(b.from) {
      FcWeight(hw, h, b, j);
    }
  }

  lemma TxPaid(c: Card, kind: Kind, j: nat, w: nat)
    requires 1 <= j <= CARDS && c.us != j && CardWeight(c, j) <= w
    ensures Paid(Tx(c, kind), j, w, 0)
  {
    TxWeight(c, kind, j);
  }

  lemma RootTickWeight(c: Card, j: nat)
    requires 1 <= j <= CARDS && c.us != j
    ensures Paid(RootTick(c), j, CardWeight(c, j), 0)
  {
    var w := CardWeight(c, j);
    if c.since <= MAX_AGE {
      TxPaid(c.(since := c.since + 1), Hello, j, w);
    } else {
      var (s, found) := Reselect(c, c.rootLc);
      TableWeightMonotone(AgeOf(s.exist, j), AgeOf(c.exist, j));
      if found {
        TxPaid(s.(since := 0), Hello, j, w);
      } else {
        TxPaid(EnterBlock(s), LcChange, j, w);
      }
    }
  }

  lemma TickWeight(c: Card, j: nat)
    requires 1 <= j <= CARDS && c.us != j
    ensures Paid(Tick(c), j, CardWeight(c, j), 0)
  {
    hide RootTick;
    var h := c.(heard := []);
    TxPaid(h.(since := h.since + 1), Config, j, CardWeight(c, j));
    RootTickWeight(h, j);
  }

  // ---------------------------------------------------------------- chassis

  function CardsWeight(cards: map<nat, Card>, j: nat, n: nat): nat
    requires 1 <= j <= CARDS
  {
    if n == 0 then 0
    else CardsWeight(cards, j, n - 1) + if n in cards then CardWeight(cards[n], j) else 0
  }

  function CopiesWeight(s: seq<Copy>, j: nat): nat
    requires 1 <= j <= CARDS
  {
    if s == [] then 0 else FlightWeight(AgeOf(s[0].b.exist, j)) + CopiesWeight(s[1..], j)
  }

  function NetWeight(net: Net, j: nat): nat
    requires 1 <= j <= CARDS
  {
    CardsWeight(net.cards, j, CARDS) + CopiesWeight(net.flight, j)
  }

  lemma {:induction false} CopiesWeightAppend(s: seq<Copy>, t: seq<Copy>, j: nat)
    requires 1 <= j <= CARDS
    ensures CopiesWeight(s + t, j) == CopiesWeight(s, j) + CopiesWeight(t, j)
  {
    if s == [] {
      assert s + t == t;
    } else {
      assert (s + t)[1..] == s[1..] + t;
      CopiesWeightAppend(s[1..], t, j);
    }
  }

  lemma CopiesWeightWithout(s: seq<Copy>, k: nat, j: nat)
    requires 1 <= j <= CARDS && k < |s|
    ensures CopiesWeight(s, j) == CopiesWeight(Without(s, k), j) + FlightWeight(AgeOf(s[k].b.exist, j))
  {
    assert s == s[..k] + ([s[k]] + s[k + 1..]);
    CopiesWeightAppend(s[..k], [s[k]] + s[k + 1..], j);
    CopiesWeightAppend([s[k]], s[k + 1..], j);
    CopiesWeightAppend(s[..k], s[k + 1..], j);
    assert [s[k]][1..] == [];
    assert CopiesWeight([s[k]], j) == FlightWeight(AgeOf(s[k].b.exist, j)) + CopiesWeight([s[k]][1..], j);
  }

  lemma {:induction false} SendToWeight(live: set<nat>, b: Bpdu, n: nat, j: nat)
    requires 1 <= j <= CARDS
    ensures CopiesWeight(SendTo(live, b, n), j) <= n * FlightWeight(AgeOf(b.exist, j))
  {
    var w := FlightWeight(AgeOf(b.exist, j));
    if n > 0 {
      SendToWeight(live, b, n - 1, j);
      var last := if n in live && Accepts(n, b.dst) then [Copy(n, b)] else [];
      CopiesWeightAppend(SendTo(live, b, n - 1), last, j);
      assert last != [] ==> last[1..] == [];
      assert CopiesWeight(last, j) <= w;
      assert n * w == (n - 1) * w + w;
    }
  }

  lemma {:induction false} SendWeight(live: set<nat>, bs: seq<Bpdu>, j: nat)
    requires 1 <= j <= CARDS
    ensures CopiesWeight(Send(live, bs), j) <= SentWeight(bs, j)
  {
    if bs != [] {
      SendToWeight(live, bs[0], CARDS, j);
      SendWeight(live, bs[1..], j);
      CopiesWeightAppend(SendTo(live, bs[0], CARDS), Send(live, bs[1..]), j);
    }
  }

  lemma {:induction false} CardsWeightUpdate(cards: map<nat, Card>, j: nat, n: nat, m: nat, c: Card)
    requires 1 <= j <= CARDS && 1 <= m <= CARDS
    ensures CardsWeight(cards[m := c], j, n) + (if m <= n && m in cards then CardWeight(cards[m], j) else 0)
            == CardsWeight(cards, j, n) + (if m <= n then CardWeight(c, j) else 0)
  {
    if n > 0 {
      CardsWeightUpdate(cards, j, n - 1, m, c);
    }
  }

  lemma {:induction false} CardsWeightStop(cards: map<nat, Card>, j: nat, n: nat, m: nat)
    requires 1 <= j <= CARDS
    ensures CardsWeight(cards - {m}, j, n) <= CardsWeight(cards, j, n)
  {
    if n > 0 {
      CardsWeightStop(cards, j, n - 1, m);
    }
  }

  lemma DidWeight(net: Net, n: nat, o: Out, j: nat)
    requires 1 <= j <= CARDS && n in net.cards && 1 <= n <= CARDS
    ensures NetWeight(Did(net, n, o), j) + CardWeight(net.cards[n], j) <= NetWeight(net, j) + OutWeight(o, j)
  {
    CardsWeightUpdate(net.cards, j, CARDS, n, o.card);
    SendWeight(net.cards.Keys, o.sent, j);
    CopiesWeightAppend(net.flight, Send(net.cards.Keys, o.sent), j);
  }

  /** Card j takes no part: it is not running and is not started. */
  predicate Silent(net: Net, e: Event, j: nat) {
    j !in net.cards && e != Start(j)
  }

  /** The event delivers, or sends, a BPDU that carries j with age at least 1. */
  predicate CarryingEvent(net: Net, e: Event, j: nat)
    requires 1 <= j <= CARDS
  {
    match e
    case TickCard(n) => n in net.cards && Carries(Tick(net.cards[n]).sent, j)
    case Deliver(k) =>
      && k < |net.flight| && net.flight[k].to in net.cards
      && (AgeOf(net.flight[k].b.exist, j) >= 1
          || Carries(Rx(net.cards[net.flight[k].to], net.flight[k].b).sent, j))
    case _ => false
  }

  /** The event adds no weight, and takes some away if it carries j. */
  predicate Lightens(hw: Hardware, net: Net, e: Event, j: nat)
    requires 1 <= j <= CARDS
  {
    var after := NetWeight(Apply(hw, net, e), j);
    after <= NetWeight(net, j) && (CarryingEvent(net, e, j) ==> after < NetWeight(net, j))
  }

  lemma TickLightens(hw: Hardware, net: Net, n: nat, j: nat)
    requires NetOk(hw, net) && 1 <= j <= CARDS && j !in net.cards && n in net.cards
    ensures Lightens(hw, net, TickCard(n), j)
  {
    TickWeight(net.cards[n], j);
    DidWeight(net, n, Tick(net.cards[n]), j);
  }

  lemma DeliverLightens(hw: Hardware, net: Net, k: nat, j: nat)
    requires NetOk(hw, net) && 1 <= j <= CARDS && j !in net.cards
    requires k < |net.flight| && net.flight[k].to in net.cards
    ensures Lightens(hw, net, Deliver(k), j)
  {
    hide Rx, CardOk, BpduOk;
    CopiesWeightWithout(net.flight, k, j);
    var c := net.flight[k];
    assert CopyOk(hw, c);
    RxWeight(hw, net.cards[c.to], c.b, j);
    DidWeight(net.(flight := Without(net.flight, k)), c.to, Rx(net.cards[c.to], c.b), j);
  }

  lemma LoseLightens(hw: Hardware, net: Net, k: nat, j: nat)
    requires 1 <= j <= CARDS
    ensures Lightens(hw, net, Lose(k), j)
  {
    if k < |net.flight| {
      CopiesWeightWithout(net.flight, k, j);
    }
  }

  lemma StartLightens(hw: Hardware, net: Net, n: nat, j: nat)
    requires 1 <= j <= CARDS && n != j
    ensures Lightens(hw, net, Start(n), j)
  {
    if CpuA(n) && n !in net.cards {
      CardsWeightUpdate(net.cards, j, CARDS, n, Boot(n, hw[n - 1]));
    }
  }

  /** While card j takes no part, no event adds to its weight, and every one
      that delivers or sends a BPDU carrying it takes some away. */
  lemma GossipDecreases(hw: Hardware, net: Net, e: Event, j: nat)
    requires NetOk(hw, net) && 1 <= j <= CARDS && Silent(net, e, j)
    ensures Lightens(hw, net, e, j)
  {
    match e
    case TickCard(n) =>
      if n in net.cards {
        TickLightens(hw, net, n, j);
      }
    case Deliver(k) =>
      if k < |net.flight| && net.flight[k].to in net.cards {
        DeliverLightens(hw, net, k, j);
      }
    case Lose(k) => LoseLightens(hw, net, k, j);
    case Stop(n) => CardsWeightStop(net.cards, j, CARDS, n);
    case Start(n) => StartLightens(hw, net, n, j);
  }

  predicate SilentRun(hw: Hardware, net: Net, es: seq<Event>, j: nat)
    decreases |es|
  {
    es == [] || (Silent(net, es[0], j) && SilentRun(hw, Apply(hw, net, es[0]), es[1..], j))
  }

  function CarryingCount(hw: Hardware, net: Net, es: seq<Event>, j: nat): nat
    requires 1 <= j <= CARDS
    decreases |es|
  {
    if es == [] then 0
    else (if CarryingEvent(net, es[0], j) then 1 else 0) + CarryingCount(hw, Apply(hw, net, es[0]), es[1..], j)
  }

  /** However long the run, and whatever the other cards do, only so many of
      its events still carry the stopped card. */
  lemma {:induction false} StoppedCardDiesOut(hw: Hardware, net: Net, es: seq<Event>, j: nat)
    requires NetOk(hw, net) && 1 <= j <= CARDS && SilentRun(hw, net, es, j)
    ensures CarryingCount(hw, net, es, j) + NetWeight(Run(hw, net, es), j) <= NetWeight(net, j)
    decreases |es|
  {
    if es != [] {
      GossipDecreases(hw, net, es[0], j);
      ApplyOk(hw, net, es[0]);
      StoppedCardDiesOut(hw, Apply(hw, net, es[0]), es[1..], j);
    }
  }
}
