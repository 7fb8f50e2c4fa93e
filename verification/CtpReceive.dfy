/**
 What the receive-interval table gives: between two ticks a card acts at most
 once on each (sender, type) pair, so it answers only finitely often.
 */
module CtpReceive {
  import opened Ctp
  import opened CtpInvariant
  import opened CtpNet
  import opened Sequences

  /** Senders times types: no table ever holds more pairs. */
  const PAIRS := 336

  function KindIndex(k: Kind): (i: nat)
    ensures i < 7
  {
    match k
    case Config => 0
    case Reply => 1
    case Rstp => 2
    case LcChange => 3
    case FcChange => 4
    case Tcn => 5
    case Hello => 6
  }

  /** Numbers the pairs of card 1, card 2, ... from 0 on. */
  function Code(p: (nat, Kind)): int {
    (p.0 - 1) * 7 + KindIndex(p.1)
  }

  predicate HeardOk(c: Card) {
    NoDuplicates(c.heard) && forall p :: p in c.heard ==> 1 <= p.0 <= CARDS
  }

  // -------------------------------------------------------------- pigeonhole

  lemma {:induction false} BelowCount(s: set<int>, n: nat)
    requires forall x :: x in s ==> 0 <= x < n
    ensures |s| <= n
  {
    if n > 0 {
      BelowCount(s - {n - 1}, n - 1);
    } else {
      assert forall x :: x !in s;
    }
  }

  lemma {:induction false} CodeCount(s: seq<(nat, Kind)>)
    requires NoDuplicates(s)
    ensures |set i | 0 <= i < |s| :: Code(s[i])| == |s|
  {
    if s != [] {
      var last, t := s[|s| - 1], s[..|s| - 1];
      CodeCount(t);
      var a := set i | 0 <= i < |t| :: Code(t[i]);
      forall i | 0 <= i < |t|
        ensures Code(t[i]) != Code(last)
      {
        assert s[i] != s[|s| - 1];
        CodeInjective(t[i], last);
      }
      assert (set i | 0 <= i < |s| :: Code(s[i])) == a + {Code(last)};
    }
  }

  lemma CodeInjective(p: (nat, Kind), q: (nat, Kind))
    ensures Code(p) == Code(q) ==> p == q
  {
    assert p.0 == Code(p) / 7 + 1 && q.0 == Code(q) / 7 + 1;
  }

  /** In a table without duplicates there is always room. */
  lemma NeverFull(c: Card)
    requires HeardOk(c)
    ensures |c.heard| <= PAIRS < RX_CAPACITY
  {
    CodeCount(c.heard);
    var codes := set i | 0 <= i < |c.heard| :: Code(c.heard[i]);
    forall x | x in codes
      ensures 0 <= x < PAIRS
    {
      var i :| 0 <= i < |c.heard| && Code(c.heard[i]) == x;
      assert c.heard[i] in c.heard;
    }
    BelowCount(codes, PAIRS);
  }

  // --------------------------------------------------------------- one card

  /** Acting on a BPDU uses up one pair, and answers at most once. */
  lemma RxHeard(hw: Hardware, c: Card, b: Bpdu)
    requires CardOk(hw, c) && HeardOk(c) && BpduOk(hw, b)
    requires SamePlane(c.us, b.from) || (LcNum(c.us) <==> LcNum(b.from))
    ensures HeardOk(Rx(c, b).card)
    ensures Rx(c, b).card.heard == if (b.from, b.kind) in c.heard then c.heard else c.heard + [(b.from, b.kind)]
    ensures |Rx(c, b).sent| <= |Rx(c, b).card.heard| - |c.heard|
  {
    hide LcHearsFc, FcHearsLc;
    NeverFull(c);
    RxOk(hw, c, b);
    var o := Rx(c, b);
    HeardKept(c.(heard := c.heard + [(b.from, b.kind)]), b);
  }

  lemma HeardKept(c: Card, b: Bpdu)
    ensures LcHearsFc(c, b).card.heard == c.heard && LcHearsFc(c, b).card.us == c.us
    ensures FcHearsLc(c, b).card.heard == c.heard && FcHearsLc(c, b).card.us == c.us
  {
    LcHeardKept(c, b);
    FcHeardKept(c, b);
  }

  lemma LcHeardKept(c: Card, b: Bpdu)
    ensures LcHearsFc(c, b).card.heard == c.heard && LcHearsFc(c, b).card.us == c.us
  {
  }

  lemma FcHelloHeardKept(c: Card, b: Bpdu)
    ensures FcHello(c, b).card.heard == c.heard && FcHello(c, b).card.us == c.us
  {
  }

  lemma FcHeardKept(c: Card, b: Bpdu)
    ensures FcHearsLc(c, b).card.heard == c.heard && FcHearsLc(c, b).card.us == c.us
  {
    hide FcHello, MergeFrom, Aged, OwnTable, FirstRecent, Differs;
    FcHelloHeardKept(Merged(c, b), b);
  }

  /** A repetition is dropped. */
  lemma Dropped(c: Card, b: Bpdu)
    requires (b.from, b.kind) in c.heard
    ensures Rx(c, b) == Out(c, [])
  {
  }

  function HearSeq(c: Card, bs: seq<Bpdu>): Card {
    if bs == [] then c else Rx(HearSeq(c, bs[..|bs| - 1]), bs[|bs| - 1]).card
  }

  /** How many BPDUs of the sequence with this sender and type get through. */
  function Acted(c: Card, bs: seq<Bpdu>, p: (nat, Kind)): nat {
    if bs == [] then 0
    else
      var b := bs[|bs| - 1];
      Acted(c, bs[..|bs| - 1], p)
      + if (b.from, b.kind) == p && Fresh(HearSeq(c, bs[..|bs| - 1]), b) then 1 else 0
  }

  lemma RxKeepsHeard(c: Card, b: Bpdu)
    requires CpuA(c.us)
    ensures Rx(c, b).card.us == c.us
    ensures Rx(c, b).card.heard == if Fresh(c, b) then c.heard + [(b.from, b.kind)] else c.heard
  {
    HeardKept(c.(heard := c.heard + [(b.from, b.kind)]), b);
  }

  /** Between two ticks, each pair gets through at most once. */
  lemma {:induction false} ActsOnce(c: Card, bs: seq<Bpdu>, p: (nat, Kind))
    requires CpuA(c.us)
    ensures Acted(c, bs, p) <= 1 && HearSeq(c, bs).us == c.us
    ensures Acted(c, bs, p) == 1 ==> p in HearSeq(c, bs).heard
  {
    if bs != [] {
      ActsOnce(c, bs[..|bs| - 1], p);
      RxKeepsHeard(HearSeq(c, bs[..|bs| - 1]), bs[|bs| - 1]);
    }
  }

  // ---------------------------------------------------------------- chassis

  predicate NetHeardOk(net: Net) {
    forall n :: n in net.cards ==> HeardOk(net.cards[n])
  }

  lemma ApplyHeard(hw: Hardware, net: Net, e: Event)
    requires NetOk(hw, net) && NetHeardOk(net)
    ensures NetHeardOk(Apply(hw, net, e))
  {
    match e
    case TickCard(n) =>
      if n in net.cards {
        TickHeard(net.cards[n]);
      }
    case Deliver(k) =>
      if k < |net.flight| && net.flight[k].to in net.cards {
        DeliverHeard(hw, net, k);
      }
    case _ =>
  }

  lemma DeliverHeard(hw: Hardware, net: Net, k: nat)
    requires NetOk(hw, net) && NetHeardOk(net) && k < |net.flight| && net.flight[k].to in net.cards
    ensures NetHeardOk(Apply(hw, net, Deliver(k)))
  {
    var c := net.flight[k];
    assert CopyOk(hw, c);
    HearsOtherGroup(c.to, c.b.from);
    RxHeard(hw, net.cards[c.to], c.b);
  }

  lemma TickHeard(c: Card)
    ensures CpuA(c.us) ==> Tick(c).card.heard == []
  {
  }

  lemma {:induction false} RunHeard(hw: Hardware, net: Net, es: seq<Event>)
    requires NetOk(hw, net) && NetHeardOk(net)
    ensures NetHeardOk(Run(hw, net, es))
    decreases |es|
  {
    if es != [] {
      ApplyOk(hw, net, es[0]);
      ApplyHeard(hw, net, es[0]);
      RunHeard(hw, Apply(hw, net, es[0]), es[1..]);
    }
  }

  /** How many more answers card 1, card 2, ..., card n can give. */
  function Room(cards: map<nat, Card>, n: nat): int {
    if n == 0 then 0
    else Room(cards, n - 1) + if n in cards then PAIRS - |cards[n].heard| else 0
  }

  function SentBy(net: Net, e: Event): nat {
    match e
    case Deliver(k) =>
      if k < |net.flight| && net.flight[k].to in net.cards then
        |Rx(net.cards[net.flight[k].to], net.flight[k].b).sent|
      else 0
    case TickCard(n) => if n in net.cards then |Tick(net.cards[n]).sent| else 0
    case _ => 0
  }

  function SentInRun(hw: Hardware, net: Net, es: seq<Event>): nat
    decreases |es|
  {
    if es == [] then 0 else SentBy(net, es[0]) + SentInRun(hw, Apply(hw, net, es[0]), es[1..])
  }

  predicate TickFree(es: seq<Event>) {
    forall e :: e in es ==> !e.TickCard?
  }

  /** How many cards the run starts. */
  function StartCount(es: seq<Event>): nat {
    if es == [] then 0 else (if es[0].Start? then 1 else 0) + StartCount(es[1..])
  }

  lemma {:induction false} RoomIsNatural(net: Net, n: nat)
    requires NetHeardOk(net)
    ensures Room(net.cards, n) >= 0
  {
    if n > 0 {
      RoomIsNatural(net, n - 1);
      if n in net.cards {
        NeverFull(net.cards[n]);
      }
    }
  }

  lemma {:induction false} RoomUpdate(cards: map<nat, Card>, n: nat, m: nat, c: Card)
    requires m in cards && 1 <= m
    ensures Room(cards[m := c], n) == Room(cards, n) - if m <= n then |c.heard| - |cards[m].heard| else 0
  {
    if n > 0 {
      RoomUpdate(cards, n - 1, m, c);
    }
  }

  lemma {:induction false} RoomStop(net: Net, n: nat, m: nat)
    requires NetHeardOk(net)
    ensures Room(net.cards - {m}, n) <= Room(net.cards, n)
  {
    if n > 0 {
      RoomStop(net, n - 1, m);
      if n in net.cards {
        NeverFull(net.cards[n]);
      }
    }
  }

  lemma {:induction false} RoomStart(cards: map<nat, Card>, n: nat, m: nat, c: Card)
    requires m !in cards && c.heard == []
    ensures Room(cards[m := c], n) == Room(cards, n) + if 1 <= m <= n then PAIRS else 0
  {
    if n > 0 {
      RoomStart(cards, n - 1, m, c);
    }
  }

  lemma AnswerUsesRoom(hw: Hardware, net: Net, e: Event)
    requires NetOk(hw, net) && NetHeardOk(net) && !e.TickCard?
    ensures SentBy(net, e) + Room(Apply(hw, net, e).cards, CARDS)
         <= Room(net.cards, CARDS) + if e.Start? then PAIRS else 0
  {
    hide Rx, CardOk;
    match e
    case Deliver(k) =>
      if k < |net.flight| && net.flight[k].to in net.cards {
        var c := net.flight[k];
        assert CopyOk(hw, c);
        HearsOtherGroup(c.to, c.b.from);
        RxHeard(hw, net.cards[c.to], c.b);
        RoomUpdate(net.cards, CARDS, c.to, Rx(net.cards[c.to], c.b).card);
      }
    case Stop(m) => RoomStop(net, CARDS, m);
    case Start(m) => if CpuA(m) && m !in net.cards { RoomStart(net.cards, CARDS, m, Boot(m, hw[m - 1])); }
    case _ =>
  }

  /** A run without ticks, however long, sends a bounded number of BPDUs: what there
      is room for in the tables of the running cards and of those that start. */
  lemma {:induction false} TickFreeRunIsFinite(hw: Hardware, net: Net, es: seq<Event>)
    requires NetOk(hw, net) && NetHeardOk(net) && TickFree(es)
    ensures SentInRun(hw, net, es) <= Room(net.cards, CARDS) + PAIRS * StartCount(es)
    decreases |es|
  {
    RoomIsNatural(net, CARDS);
    if es != [] {
      AnswerUsesRoom(hw, net, es[0]);
      ApplyOk(hw, net, es[0]);
      ApplyHeard(hw, net, es[0]);
      assert TickFree(es[1..]);
      TickFreeRunIsFinite(hw, Apply(hw, net, es[0]), es[1..]);
    }
  }
}
