/**
 The first round of a cold start, in which every card hears every card of the
 other kind, and the theorem on all 14 rounds.
 */
module CtpColdStart {
  import opened Ctp
  import opened CtpInvariant
  import opened CtpNet
  import opened CtpReceive
  import opened CtpTiming
  import opened CtpTopology
  import opened CtpGossip
  import opened CtpRounds
  import opened CtpConverge
  import opened CtpMute

  // ---------------------------------------------------------------- one card

  /** A card of the plane during round 1. */
  predicate First(p: Plan, c: Card) {
    if LcNum(c.us) then
      (c.state == Block || (AtPhase(c, 0) && p.Has(c.rootPort))) && c.rootLc == c.us && p.Has(c.us)
    else
      (c.state == Block || (AtPhase(c, 0) && p.Has(c.rootLc))) && p.Has(c.rootPort) && c.rootPort <= c.us
  }

  /** A BPDU of the plane sent in round 1: the CONFIG of a fabric card that
      names itself, or the REPLY of a line card that names itself. */
  predicate FirstBpdu(p: Plan, b: Bpdu) {
    && !b.forwarding && p.Has(b.from)
    && (if FcNum(b.from) then b.kind == Config && b.root.Num() == b.from && b.design.Num() == 0
        else b.kind == Reply && p.Has(b.root.Num()) && b.design.Num() == b.from)
  }

  /** The card has taken n, of the other kind, into account. */
  predicate Knows(c: Card, n: nat) {
    c.state == Listening && Age(c.exist, n - 1) == FULL_AGE && (if LcNum(c.us) then c.rootPort else c.rootLc) <= n
  }

  lemma LcWakesNames(p: Plan, c: Card, b: Bpdu)
    requires First(p, c) && LcNum(c.us) && c.state == Block && FcNum(b.from) && FirstBpdu(p, b)
    requires c.rootPort == 0 && Age(b.exist, b.from - 1) == FULL_AGE && b.root.Num() == b.from
    requires c.designBridge.Num() == c.us
    ensures var d := LcWakes(c, b).card;
            d.state == Listening && AtPhase(d, 0) && d.rootPort == b.from && d.rootLc == c.us && d.us == c.us
    ensures |LcWakes(c, b).sent| == 1 && FirstBpdu(p, LcWakes(c, b).sent[0])
  {
  }

  lemma MergedFull(hw: Hardware, c: Card, b: Bpdu)
    requires CardOk(hw, c) && BpduOk(hw, b) && SamePlane(c.us, b.from) && c.us != b.from
    ensures Age(Merged(c, b).exist, b.from - 1) == FULL_AGE
  {
    OwnAge(hw, b);
    MergedAge(hw, c, b, b.from);
    assert SlotOk(hw, c.us, b.from - 1, c.exist[b.from - 1]);
  }

  /** Merging before and after the reply leaves the sender at full age. */
  lemma LcWakesAge(hw: Hardware, c: Card, b: Bpdu)
    requires CardOk(hw, c) && BpduOk(hw, b) && SamePlane(c.us, b.from)
    requires LcNum(c.us) && c.state == Block && FcNum(b.from)
    ensures Age(LcWakes(c, b).card.exist, b.from - 1) == FULL_AGE
  {
    var e := LcElect(EnterListening(c), b);
    ElectOk(hw, EnterListening(c), b);
    MergedOk(hw, e, b);
    TxOk(hw, Merged(e, b), Reply);
    MergedFull(hw, Tx(Merged(e, b), Reply).card, b);
  }

  lemma LcWakesFirst(hw: Hardware, p: Plan, c: Card, b: Bpdu)
    requires CardOk(hw, c) && BpduOk(hw, b) && SamePlane(c.us, b.from) && p.Ok() && First(p, c)
    requires LcNum(c.us) && c.state == Block && FcNum(b.from) && FirstBpdu(p, b)
    ensures First(p, LcWakes(c, b).card) && Knows(LcWakes(c, b).card, b.from)
    ensures |LcWakes(c, b).sent| == 1 && FirstBpdu(p, LcWakes(c, b).sent[0])
  {
    OwnAge(hw, b);
    LcWakesNames(p, c, b);
    LcWakesAge(hw, c, b);
  }

  lemma FcWakesFirst(hw: Hardware, p: Plan, c: Card, b: Bpdu)
    requires CardOk(hw, c) && BpduOk(hw, b) && SamePlane(c.us, b.from) && p.Ok() && First(p, c)
    requires FcNum(c.us) && c.state == Block && LcNum(b.from) && FirstBpdu(p, b)
    ensures var d := FcWakes(c, b).card; First(p, d) && Knows(d, b.from)
  {
    OwnAge(hw, b);
    TwiceMerged(hw, c, b);
    MergedAge(hw, c, b, b.from);
    assert SlotOk(hw, c.us, b.from - 1, c.exist[b.from - 1]);
  }

  lemma LcConvergesFirst(hw: Hardware, p: Plan, c: Card, b: Bpdu)
    requires CardOk(hw, c) && BpduOk(hw, b) && SamePlane(c.us, b.from) && p.Ok() && First(p, c)
    requires c.state == Listening && LcNum(c.us) && FcNum(b.from) && FirstBpdu(p, b)
    ensures var d := LcConverges(c, b).card; First(p, d) && d.state == Listening && d.us == c.us
    ensures LcConverges(c, b).card.rootPort <= b.from && LcConverges(c, b).card.rootPort <= c.rootPort
  {
    OwnAge(hw, b);
  }

  lemma FcConvergesFirst(hw: Hardware, p: Plan, c: Card, b: Bpdu)
    requires CardOk(hw, c) && BpduOk(hw, b) && SamePlane(c.us, b.from) && p.Ok() && First(p, c)
    requires c.state == Listening && FcNum(c.us) && LcNum(b.from) && FirstBpdu(p, b)
    ensures var d := FcConverges(c, b).card; First(p, d) && d.state == Listening && d.us == c.us
    ensures FcConverges(c, b).card.rootLc <= b.from && FcConverges(c, b).card.rootLc <= c.rootLc
  {
    OwnAge(hw, b);
  }

  function Converges(c: Card, b: Bpdu): Card {
    if LcNum(c.us) then LcConverges(c, b).card else FcConverges(c, b).card
  }

  /** The ages a converging card holds: no entry gets older, and that of the
      sender is full. */
  lemma ConvergesAges(hw: Hardware, c: Card, b: Bpdu, n: nat)
    requires CardOk(hw, c) && BpduOk(hw, b) && SamePlane(c.us, b.from) && c.us != b.from
    requires c.state == Listening && 1 <= n <= CARDS
    ensures Age(Converges(c, b).exist, b.from - 1) == FULL_AGE
    ensures Age(c.exist, n - 1) == FULL_AGE ==> Age(Converges(c, b).exist, n - 1) == FULL_AGE
  {
    hide NamesOk, RootOk, DesignOk, BlockOk, ClockOk, MergeFrom;
    OwnAge(hw, b);
    var d := Converges(c, b);
    if LcNum(c.us) { LcConvergesOk(hw, c, b); } else { FcConvergesOk(hw, c, b); }
    ConvergeTable(hw, c, b);
    MergedAge(hw, c, b, b.from);
    ConvergesKeepsAge(hw, c, b, n - 1);
    assert SlotOk(hw, c.us, n - 1, d.exist[n - 1]);
    assert SlotOk(hw, c.us, b.from - 1, d.exist[b.from - 1]);
  }

  lemma ConvergesFirst(hw: Hardware, p: Plan, c: Card, b: Bpdu, n: nat)
    requires CardOk(hw, c) && BpduOk(hw, b) && SamePlane(c.us, b.from) && p.Ok() && First(p, c)
    requires c.state == Listening && LcNum(c.us) != LcNum(b.from) && FirstBpdu(p, b) && 1 <= n <= CARDS
    ensures var d := Converges(c, b); First(p, d) && Knows(d, b.from) && (Knows(c, n) ==> Knows(d, n))
  {
    if LcNum(c.us) { LcConvergesFirst(hw, p, c, b); } else { FcConvergesFirst(hw, p, c, b); }
    ConvergesAges(hw, c, b, n);
  }

  /** What one delivery of round 1 does to a card of the plane. */
  predicate FirstTaken(p: Plan, c: Card, b: Bpdu, o: Out) {
    && First(p, o.card)
    && (Heeded(p, c, b) ==> Knows(o.card, b.from))
    && (!Heeded(p, c, b) ==> o.card == c.(heard := o.card.heard) && o.sent == [])
    && (forall n :: 1 <= n <= CARDS && Knows(c, n) ==> Knows(o.card, n))
    && (if c.state == Block && LcNum(c.us) && Heeded(p, c, b)
        then |o.sent| == 1 && FirstBpdu(p, o.sent[0]) else o.sent == [])
  }

  lemma RxFirst(hw: Hardware, p: Plan, c: Card, b: Bpdu)
    requires CardOk(hw, c) && HeardOk(c) && BpduOk(hw, b) && Accepts(c.us, b.dst)
    requires p.Ok() && Upper(c.us) == p.upper && First(p, c)
    requires Upper(b.from) == p.upper ==> FirstBpdu(p, b)
    ensures FirstTaken(p, c, b, Rx(c, b))
  {
    hide LcWakes, MergeFrom, Aged, TableOk;
    HearsOtherGroup(c.us, b.from);
    NeverFull(c);
    if Heeded(p, c, b) {
      var h := c.(heard := c.heard + [(b.from, b.kind)]);
      if c.state == Block {
        if LcNum(c.us) { LcWakesFirst(hw, p, h, b); } else { FcWakesFirst(hw, p, h, b); }
      } else {
        ConvergesFirst(hw, p, h, b, b.from);
        forall n | 1 <= n <= CARDS && Knows(c, n)
          ensures Knows(Rx(c, b).card, n)
        {
          ConvergesFirst(hw, p, h, b, n);
        }
      }
    } else if Upper(b.from) != p.upper {
      ForeignRx(hw, c, b);
    }
  }

  // ----------------------------------------------------------- first round

  function FirstKind(from: nat): Kind {
    if FcNum(from) then Config else Reply
  }

  ghost predicate FirstCards(p: Plan, net: Net) {
    forall n :: n in net.cards && p.Has(n) ==> First(p, net.cards[n])
  }

  predicate Spoken(net: Net, n: nat) {
    LcNum(n) && n in net.cards ==> net.cards[n].state != Block
  }

  /** What is in flight comes from cards that have left BLOCK or are fabric
      cards; a line card in BLOCK has not been heard yet. */
  ghost predicate FirstFlight(p: Plan, net: Net) {
    FirstCopies(p, net) && BlockedUnheard(p, net)
  }

  ghost predicate FirstCopies(p: Plan, net: Net) {
    forall c :: c in net.flight && Upper(c.b.from) == p.upper ==> FirstBpdu(p, c.b) && Spoken(net, c.b.from)
  }

  ghost predicate BlockedUnheard(p: Plan, net: Net) {
    forall l, n :: l in net.cards && p.Has(l) && LcNum(l) && net.cards[l].state == Block && n in net.cards ==>
      (l, Reply) !in net.cards[n].heard
  }

  predicate Speaks(c: Card) {
    FcNum(c.us) || c.state != Block
  }

  /** What b says in round 1 concerns a: b is a line card, or the fabric card go,
      and a is of the other kind. */
  predicate Concerns(p: Plan, go: nat, a: nat, b: nat) {
    p.Has(a) && p.Has(b) && LcNum(a) != LcNum(b) && (LcNum(b) || b == go)
  }

  /** What concerns a has been taken into account by a, or is on its way to a,
      or is that of a line card that has not spoken yet. */
  ghost predicate FirstKnown(p: Plan, go: nat, net: Net) {
    forall a, b :: a in net.cards && b in net.cards && Concerns(p, go, a, b) ==>
      Knows(net.cards[a], b) || !Speaks(net.cards[b]) || Pending(net, a, b, FirstKind(b))
  }

  ghost predicate MidFirst(hw: Hardware, p: Plan, go: nat, net: Net) {
    && Base(hw, p, net) && FirstCards(p, net) && FirstFlight(p, net) && FirstKnown(p, go, net)
    && p.Has(go) && FcNum(go)
  }

  ghost predicate Taken1(hw: Hardware, p: Plan, net: Net, k: nat, o: Out)
    requires k < |net.flight| && net.flight[k].to in net.cards
  {
    var c, d := net.flight[k], net.cards[net.flight[k].to];
    && HearsOnly(d, c, o) && OutOk(hw, c.to, o) && d.us == c.to && CpuA(c.to)
    && (p.Has(c.to) ==> FirstTaken(p, d, c.b, o))
  }

  lemma TookFirstCards(hw: Hardware, p: Plan, net: Net, k: nat, o: Out)
    requires PlanFor(p, net) && k < |net.flight| && net.flight[k].to in net.cards && Taken1(hw, p, net, k, o)
    requires FirstCards(p, net)
    ensures FirstCards(p, Took(net, k, o))
  {
  }

  lemma TookFirstCopies(hw: Hardware, p: Plan, net: Net, k: nat, o: Out)
    requires PlanFor(p, net) && k < |net.flight| && net.flight[k].to in net.cards && Taken1(hw, p, net, k, o)
    requires FirstCards(p, net) && FirstCopies(p, net)
    ensures FirstCopies(p, Took(net, k, o))
  {
    SendOnly(net.cards.Keys, o.sent);
    assert forall d :: d in Without(net.flight, k) ==> d in net.flight;
    forall d | d in Took(net, k, o).flight && Upper(d.b.from) == p.upper
      ensures FirstBpdu(p, d.b) && Spoken(Took(net, k, o), d.b.from)
    {
      if d in net.flight {
        StillSpoken(hw, p, net, k, o, d.b.from);
      } else {
        AnswerIsFirst(hw, p, net, k, o, d.b);
      }
    }
  }

  /** No delivery of round 1 takes a card back to BLOCK. */
  lemma StillSpoken(hw: Hardware, p: Plan, net: Net, k: nat, o: Out, n: nat)
    requires k < |net.flight| && net.flight[k].to in net.cards && Taken1(hw, p, net, k, o)
    requires PlanFor(p, net) && FirstCards(p, net) && Upper(n) == p.upper && Spoken(net, n)
    ensures Spoken(Took(net, k, o), n)
  {
  }

  lemma AnswerIsFirst(hw: Hardware, p: Plan, net: Net, k: nat, o: Out, b: Bpdu)
    requires k < |net.flight| && net.flight[k].to in net.cards && Taken1(hw, p, net, k, o)
    requires PlanFor(p, net) && b in o.sent && Upper(b.from) == p.upper
    ensures FirstBpdu(p, b) && Spoken(Took(net, k, o), b.from)
  {
    assert b == o.sent[0] && b.from == net.flight[k].to;
  }

  lemma TookUnheard(hw: Hardware, p: Plan, net: Net, k: nat, o: Out)
    requires PlanFor(p, net) && k < |net.flight| && net.flight[k].to in net.cards && Taken1(hw, p, net, k, o)
    requires FirstFlight(p, net)
    ensures BlockedUnheard(p, Took(net, k, o))
  {
    assert net.flight[k] in net.flight;
  }

  lemma TookFirstFlight(hw: Hardware, p: Plan, net: Net, k: nat, o: Out)
    requires PlanFor(p, net) && k < |net.flight| && net.flight[k].to in net.cards && Taken1(hw, p, net, k, o)
    requires FirstCards(p, net) && FirstFlight(p, net)
    ensures FirstFlight(p, Took(net, k, o))
  {
    TookFirstCopies(hw, p, net, k, o);
    TookUnheard(hw, p, net, k, o);
  }

  /** A line card that has just spoken is pending at every fabric card. */
  lemma TookSpeaks(hw: Hardware, p: Plan, net: Net, k: nat, o: Out, a: nat)
    requires PlanFor(p, net) && k < |net.flight| && net.flight[k].to in net.cards && Taken1(hw, p, net, k, o)
    requires FirstFlight(p, net) && a in net.cards && p.Has(a) && p.Has(net.flight[k].to)
    requires FcNum(a) && LcNum(net.flight[k].to)
    requires !Speaks(net.cards[net.flight[k].to]) && Speaks(o.card)
    ensures Pending(Took(net, k, o), a, net.flight[k].to, Reply)
  {
    var b := net.flight[k].to;
    HearsOtherGroup(a, b);
    assert BpduOk(hw, o.sent[0]);
    SendReaches(net.cards.Keys, o.sent, a);
    assert Of(Copy(a, o.sent[0]), a, b, Reply);
  }

  lemma TookFirstKnown(hw: Hardware, p: Plan, go: nat, net: Net, k: nat, o: Out)
    requires PlanFor(p, net) && k < |net.flight| && net.flight[k].to in net.cards && Taken1(hw, p, net, k, o)
    requires FirstFlight(p, net) && FirstKnown(p, go, net) && Numbered(net)
    ensures FirstKnown(p, go, Took(net, k, o))
  {
    var c, after := net.flight[k], Took(net, k, o);
    forall a, b | a in after.cards && b in after.cards && Concerns(p, go, a, b)
      ensures Knows(after.cards[a], b) || !Speaks(after.cards[b]) || Pending(after, a, b, FirstKind(b))
    {
      if Knows(net.cards[a], b) {
      } else if !Speaks(net.cards[b]) {
        if Speaks(after.cards[b]) {
          TookSpeaks(hw, p, net, k, o, a);
        }
      } else if !Of(c, a, b, FirstKind(b)) {
        PendingKept(net, k, o, a, b, FirstKind(b));
      }
    }
  }

  lemma DeliverTaken1(hw: Hardware, p: Plan, net: Net, k: nat)
    requires Base(hw, p, net) && FirstCards(p, net) && FirstFlight(p, net)
    requires k < |net.flight| && net.flight[k].to in net.cards
    ensures Taken1(hw, p, net, k, Rx(net.cards[net.flight[k].to], net.flight[k].b))
  {
    hide Rx, FirstTaken, CardOk;
    var c := net.flight[k];
    assert CopyOk(hw, c);
    RxHearsOnly(hw, net, k);
    if p.Has(c.to) {
      RxFirst(hw, p, net.cards[c.to], c.b);
    }
  }

  lemma TookFirst(hw: Hardware, p: Plan, go: nat, net: Net, k: nat, o: Out)
    requires MidFirst(hw, p, go, net) && k < |net.flight| && net.flight[k].to in net.cards && Taken1(hw, p, net, k, o)
    ensures var t := Took(net, k, o); FirstCards(p, t) && FirstFlight(p, t) && FirstKnown(p, go, t)
  {
    TookFirstCards(hw, p, net, k, o);
    TookFirstFlight(hw, p, net, k, o);
    TookFirstKnown(hw, p, go, net, k, o);
  }

  lemma DeliverFirst(hw: Hardware, p: Plan, go: nat, net: Net, k: nat)
    requires MidFirst(hw, p, go, net) && k < |net.flight| && net.flight[k].to in net.cards
    ensures MidFirst(hw, p, go, Apply(hw, net, Deliver(k)))
  {
    DeliverBase(hw, p, net, k);
    DeliverIsTook(hw, net, k);
    DeliverTaken1(hw, p, net, k);
    TookFirst(hw, p, go, net, k, Rx(net.cards[net.flight[k].to], net.flight[k].b));
  }

  /** With nothing left in flight, every line card has heard go, and so every
      fabric card has heard every line card. */
  lemma FirstAllKnown(p: Plan, go: nat, net: Net, a: nat, b: nat)
    requires PlanFor(p, net) && FirstKnown(p, go, net) && net.flight == [] && Numbered(net)
    requires p.Has(go) && FcNum(go) && a in net.cards && b in net.cards && Concerns(p, go, a, b)
    ensures Knows(net.cards[a], b)
  {
    if LcNum(b) {
      assert Concerns(p, go, b, go) && !Pending(net, b, go, FirstKind(go));
      assert Knows(net.cards[b], go);
    }
    assert !Pending(net, a, b, FirstKind(b));
  }

  lemma LcFirstDone(hw: Hardware, p: Plan, c: Card)
    requires CardOk(hw, c) && p.Ok() && First(p, c) && LcNum(c.us) && c.state == Listening
    ensures CardDone(p, c, 1)
  {
  }

  lemma FcFirstDone(hw: Hardware, p: Plan, c: Card)
    requires CardOk(hw, c) && p.Ok() && First(p, c) && FcNum(c.us) && Knows(c, p.lc)
    ensures CardDone(p, c, 1)
  {
  }

  /** After round 1: what follows needs no more than End, but every line card has
      heard go, and every fabric card has heard every line card. */
  ghost predicate FirstEnd(hw: Hardware, p: Plan, go: nat, net: Net) {
    End(hw, p, net, 1) && AllKnown(p, go, net)
  }

  ghost predicate AllKnown(p: Plan, go: nat, net: Net) {
    forall a, b :: a in net.cards && b in net.cards && Concerns(p, go, a, b) ==> Knows(net.cards[a], b)
  }

  lemma FirstEnds(hw: Hardware, p: Plan, go: nat, net: Net)
    requires MidFirst(hw, p, go, net) && net.flight == []
    ensures FirstEnd(hw, p, go, net)
  {
    forall a, b | a in net.cards && b in net.cards && Concerns(p, go, a, b)
      ensures Knows(net.cards[a], b)
    {
      FirstAllKnown(p, go, net, a, b);
    }
    forall n | n in net.cards && p.Has(n)
      ensures CardDone(p, net.cards[n], 1)
    {
      if LcNum(n) {
        assert Concerns(p, go, n, go);
        LcFirstDone(hw, p, net.cards[n]);
      } else {
        assert Concerns(p, go, n, p.lc);
        FcFirstDone(hw, p, net.cards[n]);
      }
    }
  }

  // ------------------------------------------------------------- cold start

  /** The plan is for these cards, all of them that are in the plane are in
      BLOCK, and nothing is in flight. */
  ghost predicate BlockedPlane(p: Plan, net: Net) {
    && PlanFor(p, net) && net.flight == []
    && forall n :: n in net.cards && p.Has(n) ==> net.cards[n].state == Block
  }

  /** Fabric card go of the plane is not due to reset its board on its next
      tick, which it would do instead of sending. */
  ghost predicate Starter(p: Plan, net: Net, go: nat) {
    go in net.cards && p.Has(go) && FcNum(go) && net.cards[go].since + 1 < MAX_AGE
  }

  ghost predicate Cold(hw: Hardware, p: Plan, go: nat, net: Net) {
    Base(hw, p, net) && BlockedPlane(p, net) && Starter(p, net, go)
  }

  predicate ColdTicked(p: Plan, go: nat, us: nat, o: Out) {
    && First(p, o.card) && o.card.state == Block && o.card.heard == [] && o.card.us == us
    && |o.sent| <= 1 && (LcNum(us) ==> o.sent == []) && (us == go ==> |o.sent| == 1)
    && (forall b :: b in o.sent ==> FirstBpdu(p, b) && b.from == us && b.dst == DstMac(us))
  }

  lemma ColdTick(hw: Hardware, p: Plan, go: nat, c: Card)
    requires CardOk(hw, c) && p.Ok() && p.Has(c.us) && c.state == Block && FcNum(go)
    requires c.us == go ==> c.since + 1 < MAX_AGE
    ensures ColdTicked(p, go, c.us, Tick(c))
  {
  }

  /** The general form: every card does f. */
  ghost predicate ColdDo(f: Card -> Out, p: Plan, go: nat, net: Net) {
    && PlanFor(p, net) && net.flight == [] && Numbered(net) && (forall n :: n in net.cards ==> CpuA(n))
    && p.Has(go) && FcNum(go)
    && (forall n :: n in net.cards ==> f(net.cards[n]).card.heard == [])
    && (forall n :: n in net.cards ==> forall b :: b in f(net.cards[n]).sent ==> b.from == n)
    && (forall n :: n in net.cards && p.Has(n) ==> ColdTicked(p, go, n, f(net.cards[n])))
  }

  lemma DoFirstCards(f: Card -> Out, p: Plan, go: nat, net: Net, ts: Order)
    requires ColdDo(f, p, go, net)
    ensures FirstCards(p, DoAll(f, net, ts))
  {
    DoCards(f, net, ts);
    forall n | n in net.cards && p.Has(n)
      ensures First(p, f(net.cards[n]).card)
    {
      assert ColdTicked(p, go, n, f(net.cards[n]));
    }
  }

  lemma FirstSent(f: Card -> Out, p: Plan, go: nat, net: Net, n: nat, b: Bpdu)
    requires ColdDo(f, p, go, net) && n in net.cards && b in f(net.cards[n]).sent && Upper(b.from) == p.upper
    ensures FirstBpdu(p, b) && FcNum(b.from)
  {
    assert b.from == n && p.Has(n);
    assert ColdTicked(p, go, n, f(net.cards[n]));
  }

  lemma DoFirstSent(f: Card -> Out, p: Plan, go: nat, net: Net, ts: Order, c: Copy)
    requires ColdDo(f, p, go, net) && c in DoAll(f, net, ts).flight && Upper(c.b.from) == p.upper
    ensures FirstBpdu(p, c.b) && FcNum(c.b.from)
  {
    var n := DoOnly(f, net, ts, c);
    FirstSent(f, p, go, net, n, c.b);
  }

  lemma DoFirstFlight(f: Card -> Out, p: Plan, go: nat, net: Net, ts: Order)
    requires ColdDo(f, p, go, net)
    ensures FirstFlight(p, DoAll(f, net, ts))
  {
    var t := DoAll(f, net, ts);
    forall c | c in t.flight && Upper(c.b.from) == p.upper
      ensures FirstBpdu(p, c.b) && Spoken(t, c.b.from)
    {
      DoFirstSent(f, p, go, net, ts, c);
    }
    DoCards(f, net, ts);
  }

  lemma DoFirstKnown(f: Card -> Out, p: Plan, go: nat, net: Net, ts: Order)
    requires ColdDo(f, p, go, net)
    ensures FirstKnown(p, go, DoAll(f, net, ts))
  {
    var t := DoAll(f, net, ts);
    DoCards(f, net, ts);
    forall a, b | a in t.cards && b in t.cards && Concerns(p, go, a, b)
      ensures !Speaks(t.cards[b]) || Pending(t, a, b, FirstKind(b))
    {
      assert ColdTicked(p, go, b, f(net.cards[b]));
      if FcNum(b) {
        DoPending(f, net, ts, b, a, Config);
      }
    }
  }

  lemma ColdStarts(hw: Hardware, p: Plan, go: nat, net: Net, ts: Order)
    requires Cold(hw, p, go, net)
    ensures MidFirst(hw, p, go, AllTick(net, ts))
  {
    forall n | n in net.cards
      ensures CpuA(n) && Tick(net.cards[n]).card.heard == [] && forall b :: b in Tick(net.cards[n]).sent ==> b.from == n
    {
      TickFrom(hw, net, n);
      TickHeard(net.cards[n]);
    }
    forall n | n in net.cards && p.Has(n)
      ensures ColdTicked(p, go, n, Tick(net.cards[n]))
    {
      ColdTick(hw, p, go, net.cards[n]);
    }
    DoFirstCards(Tick, p, go, net, ts);
    DoFirstFlight(Tick, p, go, net, ts);
    DoFirstKnown(Tick, p, go, net, ts);
    AllTickOk(hw, net, ts);
    DoCards(Tick, net, ts);
  }

  ghost function FirstOf(hw: Hardware, p: Plan, go: nat): Net -> bool {
    x => MidFirst(hw, p, go, x)
  }

  lemma DeliverKeepsFirst(hw: Hardware, p: Plan, go: nat, net: Net, k: nat)
    requires FirstOf(hw, p, go)(net)
    ensures FirstOf(hw, p, go)(Apply(hw, net, Deliver(k)))
  {
    DeliverIsTook(hw, net, k);
    if k < |net.flight| && net.flight[k].to in net.cards {
      DeliverFirst(hw, p, go, net, k);
    }
  }

  lemma FirstStable(hw: Hardware, p: Plan, go: nat)
    ensures Stable(hw, FirstOf(hw, p, go))
  {
    hide MidFirst;
    forall x: Net, k: nat | FirstOf(hw, p, go)(x)
      ensures FirstOf(hw, p, go)(Apply(hw, x, Deliver(k)))
    {
      DeliverKeepsFirst(hw, p, go, x, k);
    }
  }

  ghost function FirstEndOf(hw: Hardware, p: Plan, go: nat): Net -> bool {
    x => FirstEnd(hw, p, go, x)
  }

  lemma FirstEndHolds(hw: Hardware, p: Plan, go: nat, net: Net)
    requires FirstOf(hw, p, go)(net) && net.flight == []
    ensures FirstEndOf(hw, p, go)(net)
  {
    FirstEnds(hw, p, go, net);
  }

  lemma FirstAtEnd(hw: Hardware, p: Plan, go: nat)
    ensures EndsIn(FirstOf(hw, p, go), FirstEndOf(hw, p, go))
  {
    hide MidFirst, FirstEnd;
    forall x: Net | FirstOf(hw, p, go)(x) && x.flight == []
      ensures FirstEndOf(hw, p, go)(x)
    {
      FirstEndHolds(hw, p, go, x);
    }
  }

  lemma FirstRoundEnds(hw: Hardware, p: Plan, go: nat, net: Net, r: Lockstep, after: Net)
    requires FirstOf(hw, p, go)(AllTick(net, r.ticks)) && Round(hw, net, r, after)
    ensures FirstEndOf(hw, p, go)(after)
  {
    FirstStable(hw, p, go);
    FirstAtEnd(hw, p, go);
    RoundKeeps(hw, FirstOf(hw, p, go), FirstEndOf(hw, p, go), net, r, after);
  }

  lemma FirstStarts(hw: Hardware, p: Plan, go: nat, net: Net, ts: Order)
    requires Cold(hw, p, go, net)
    ensures FirstOf(hw, p, go)(AllTick(net, ts))
  {
    ColdStarts(hw, p, go, net, ts);
  }

  lemma FirstEndIsEnd(hw: Hardware, p: Plan, go: nat, net: Net)
    requires FirstEndOf(hw, p, go)(net)
    ensures FirstEnd(hw, p, go, net) && EndOf(hw, p, 1)(net)
  {
  }

  /** Round 1 of a cold start that fabric card go begins. */
  lemma FirstRound(hw: Hardware, p: Plan, go: nat, net: Net, r: Lockstep, after: Net)
    requires Cold(hw, p, go, net) && Round(hw, net, r, after)
    ensures FirstEnd(hw, p, go, after) && EndOf(hw, p, 1)(after)
  {
    FirstStarts(hw, p, go, net, r.ticks);
    FirstRoundEnds(hw, p, go, net, r, after);
    FirstEndIsEnd(hw, p, go, after);
  }

  lemma {:induction false} AfterRounds(hw: Hardware, p: Plan, go: nat, nets: seq<Net>, rs: seq<Lockstep>, r: nat)
    requires Rounds(hw, nets, rs) && Cold(hw, p, go, nets[0]) && 1 <= r <= |rs| && r <= 14
    ensures EndOf(hw, p, r)(nets[r])
  {
    assert Round(hw, nets[r - 1], rs[r - 1], nets[r - 1 + 1]);
    if r == 1 {
      FirstRound(hw, p, go, nets[0], rs[0], nets[1]);
    } else {
      AfterRounds(hw, p, go, nets, rs, r - 1);
      LaterRound(hw, p, nets[r - 1], rs[r - 1], nets[r], r);
    }
  }

  /** Cold start: after 14 rounds, in which the cards of each round may tick, and
      its BPDUs may come in, in any order, every card of the plane forwards and
      names the smallest fabric card as root FC and the smallest line card as
      root LC. */
  lemma ColdStartConverges(hw: Hardware, p: Plan, go: nat, nets: seq<Net>, rs: seq<Lockstep>)
    requires |rs| == 14 && Rounds(hw, nets, rs) && Cold(hw, p, go, nets[0])
    ensures Agreed(nets[14], p.upper, p.fc, p.lc)
    ensures forall n :: InPlane(nets[14], p.upper, n) ==> nets[14].cards[n].rootLc == p.lc
  {
    AfterRounds(hw, p, go, nets, rs, 14);
    EndIsAgreed(hw, p, nets[14]);
  }

  lemma EndIsAgreed(hw: Hardware, p: Plan, net: Net)
    requires EndOf(hw, p, 14)(net)
    ensures Agreed(net, p.upper, p.fc, p.lc)
    ensures forall n :: InPlane(net, p.upper, n) ==> net.cards[n].rootLc == p.lc
  {
    forall n | InPlane(net, p.upper, n)
      ensures Names(net.cards[n], p.fc, p.lc) && net.cards[n].rootLc == p.lc
    {
      assert p.Has(n) && CardDone(p, net.cards[n], 14);
    }
  }

  lemma ReachableKeeps(hw: Hardware, net: Net)
    requires Reachable(hw, net)
    ensures NetOk(hw, net) && NetHeardOk(net) && NetPortsOk(net)
  {
    var es :| net == Run(hw, EMPTY, es);
    RunOk(hw, EMPTY, es);
    RunHeard(hw, EMPTY, es);
    RunPorts(hw, EMPTY, es);
  }

  lemma RoundReachable(hw: Hardware, net: Net, r: Lockstep, after: Net)
    requires Reachable(hw, net) && Round(hw, net, r, after)
    ensures Reachable(hw, after)
  {
    var fs :| net == Run(hw, EMPTY, fs);
    TicksAreRun(hw, net, r.ticks);
    RunAppend(hw, EMPTY, fs, TickEvents(r.ticks));
    RunAppend(hw, EMPTY, fs + TickEvents(r.ticks), r.deliveries);
  }

  lemma {:induction false} RoundsReachable(hw: Hardware, nets: seq<Net>, rs: seq<Lockstep>, r: nat)
    requires Rounds(hw, nets, rs) && Reachable(hw, nets[0]) && r <= |rs|
    ensures Reachable(hw, nets[r])
  {
    if r > 0 {
      RoundsReachable(hw, nets, rs, r - 1);
      assert Round(hw, nets[r - 1], rs[r - 1], nets[r - 1 + 1]);
      RoundReachable(hw, nets[r - 1], rs[r - 1], nets[r]);
    }
  }

  // ------------------------------------------------------------- late start

  predicate JustReset(c: Card) {
    c.state == Block && c.since == 0
  }

  lemma LateTick(hw: Hardware, c: Card)
    requires CardOk(hw, c) && c.state == Block && (FcNum(c.us) ==> c.since + 1 >= MAX_AGE)
    ensures JustReset(Tick(c).card) && Tick(c).sent == []
  {
  }

  /** When every fabric card of the plane is due to reset its board, the first
      round is lost, and from the second on the plane starts as usual. */
  lemma LateRound(hw: Hardware, p: Plan, net: Net, r: Lockstep, after: Net)
    requires Base(hw, p, net) && BlockedPlane(p, net) && forall go :: !Starter(p, net, go)
    requires Round(hw, net, r, after)
    ensures Cold(hw, p, p.fc, after)
  {
    forall n | n in net.cards && p.Has(n)
      ensures JustReset(Tick(net.cards[n]).card) && Tick(net.cards[n]).sent == []
    {
      assert !Starter(p, net, n);
      LateTick(hw, net.cards[n]);
    }
    MuteRound(hw, JustReset, p, net, r, after);
    ResetIsCold(hw, p, after);
  }

  lemma ResetIsCold(hw: Hardware, p: Plan, net: Net)
    requires Base(hw, p, net) && AllAre(JustReset, p, net) && net.flight == []
    ensures Cold(hw, p, p.fc, net)
  {
    assert p.fc in net.cards && p.Has(p.fc) && JustReset(net.cards[p.fc]);
    assert forall n :: n in net.cards && p.Has(n) ==> JustReset(net.cards[n]);
  }

  lemma LateIsNotAgreed(hw: Hardware, p: Plan, nets: seq<Net>, rs: seq<Lockstep>)
    requires |rs| == 14 && Rounds(hw, nets, rs) && Base(hw, p, nets[0]) && BlockedPlane(p, nets[0])
    requires forall go :: !Starter(p, nets[0], go)
    ensures !Agreed(nets[14], p.upper, p.fc, p.lc)
  {
    hide Starter, Agreed, Cold;
    assert Round(hw, nets[0], rs[0], nets[0 + 1]);
    LateRound(hw, p, nets[0], rs[0], nets[1]);
    RoundsFrom(hw, nets, rs, 1);
    AfterRounds(hw, p, p.fc, nets[1..], rs[1..], 13);
    StillLearning(hw, p, nets[14]);
  }

  lemma StillLearning(hw: Hardware, p: Plan, net: Net)
    requires EndOf(hw, p, 13)(net)
    ensures !Agreed(net, p.upper, p.fc, p.lc)
  {
    assert p.lc in net.cards && p.Has(p.lc) && CardDone(p, net.cards[p.lc], 13);
    assert AtPhase(net.cards[p.lc], 12);
    assert InPlane(net, p.upper, p.lc);
  }

  /** Cold start, in full: take any reachable chassis in which a plane with at
      least one card of each kind is in BLOCK and nothing is in flight. 14
      lockstep rounds bring the plane to agreement, whose forwarding links are
      then a spanning tree, if and only if some fabric card of the plane is not
      due to reset its board on the first tick. */
  lemma ColdStartBuildsTree(hw: Hardware, p: Plan, nets: seq<Net>, rs: seq<Lockstep>)
    requires |rs| == 14 && Rounds(hw, nets, rs) && Reachable(hw, nets[0]) && BlockedPlane(p, nets[0])
    ensures Agreed(nets[14], p.upper, p.fc, p.lc) <==> exists go :: Starter(p, nets[0], go)
    ensures (exists go :: Starter(p, nets[0], go)) ==> SpanningTree(nets[14], p.upper)
  {
    ReachableKeeps(hw, nets[0]);
    if go :| Starter(p, nets[0], go) {
      ColdStartConverges(hw, p, go, nets, rs);
      RoundsReachable(hw, nets, rs, 14);
      ReachableKeeps(hw, nets[14]);
      AgreedIsTree(nets[14], p.upper, p.fc, p.lc);
    } else {
      LateIsNotAgreed(hw, p, nets, rs);
    }
  }
}
