/**
 Rounds of a plane that is led by a root FC and a root LC: the HELLO of the root
 FC reaches every line card, and the answer of the root LC every fabric card. What
 else is said, and what the cards are meanwhile, is left open: it is given by two
 predicates that every reception keeps.
 */
module CtpKeep {
  import opened Ctp
  import opened CtpInvariant
  import opened CtpNet
  import opened CtpReceive
  import opened CtpTopology
  import opened CtpRounds
  import opened CtpConverge
  import opened CtpMute

  /** The running cards and the two that lead them. */
  datatype Roots = Roots(p: Plan, fc: nat, lc: nat) {
    predicate Ok() {
      p.Ok() && p.Has(fc) && FcNum(fc) && p.Has(lc) && LcNum(lc)
    }
  }

  // ---------------------------------------------------------------- one card

  /** Who keeps card n going. */
  function Keeper(r: Roots, n: nat): nat {
    if LcNum(n) then r.fc else r.lc
  }

  /** The HELLO that keeps this card going has come in this round. */
  predicate Kept(r: Roots, c: Card) {
    (Keeper(r, c.us), Hello) in c.heard
  }

  /** The HELLO of the root FC. */
  predicate Leads(r: Roots, b: Bpdu) {
    b.kind == Hello && b.from == r.fc
  }

  /** What a card makes of a BPDU that it acts on. The root LC says HELLO exactly
      when it hears that of the root FC. */
  ghost predicate Taken(r: Roots, card: Card -> bool, bpdu: Bpdu -> bool, c: Card, b: Bpdu, o: Out) {
    && card(o.card) && (forall s :: s in o.sent ==> bpdu(s))
    && (c.us == r.lc && Leads(r, b) ==> |o.sent| == 1 && o.sent[0].kind == Hello)
    && (c.us == r.lc && !Leads(r, b) ==> forall s :: s in o.sent ==> s.kind != Hello)
  }

  /** Card c may act on b. */
  ghost predicate ActsOn(hw: Hardware, r: Roots, c: Card, b: Bpdu) {
    && CardOk(hw, c) && HeardOk(c) && BpduOk(hw, b) && SamePlane(c.us, b.from) && LcNum(c.us) != LcNum(b.from)
    && r.p.Has(c.us) && Heeded(r.p, c, b)
  }

  /** Every reception from the plane keeps the two predicates. */
  ghost predicate Closed(hw: Hardware, r: Roots, card: Card -> bool, bpdu: Bpdu -> bool) {
    forall c: Card, b: Bpdu {:trigger Rx(c, b)} ::
      ActsOn(hw, r, c, b) && card(c) && bpdu(b) ==> Taken(r, card, bpdu, c, b, Rx(c, b))
  }

  /** What the other plane says does not matter. */
  ghost predicate Oblivious(p: Plan, card: Card -> bool) {
    forall c: Card, q: (nat, Kind) :: card(c) && Upper(q.0) != p.upper ==> card(c.(heard := c.heard + [q]))
  }

  ghost predicate Regime(hw: Hardware, r: Roots, card: Card -> bool, bpdu: Bpdu -> bool) {
    r.Ok() && Closed(hw, r, card, bpdu) && Oblivious(r.p, card)
  }

  /** One reception of any kind, in full. */
  ghost predicate Received(r: Roots, card: Card -> bool, bpdu: Bpdu -> bool, c: Card, b: Bpdu, o: Out) {
    && card(o.card) && (forall s :: s in o.sent ==> bpdu(s))
    && (Kept(r, c) ==> Kept(r, o.card))
    && (Heeded(r.p, c, b) && b.kind == Hello && b.from == Keeper(r, c.us) ==> Kept(r, o.card))
    && (c.us == r.lc && Kept(r, o.card) && !Kept(r, c) ==> |o.sent| == 1 && o.sent[0].kind == Hello)
    && (c.us == r.lc && !Kept(r, o.card) ==> forall s :: s in o.sent ==> s.kind != Hello)
  }

  lemma TakenReceived(r: Roots, card: Card -> bool, bpdu: Bpdu -> bool, c: Card, b: Bpdu, o: Out)
    requires r.Ok() && Taken(r, card, bpdu, c, b, o)
    requires o.card.us == c.us && o.card.heard == c.heard + [(b.from, b.kind)]
    ensures Received(r, card, bpdu, c, b, o)
  {
  }

  lemma HeededReceived(
      hw: Hardware, r: Roots, card: Card -> bool, bpdu: Bpdu -> bool, c: Card, b: Bpdu)
    requires Regime(hw, r, card, bpdu) && ActsOn(hw, r, c, b) && card(c) && bpdu(b)
    ensures Received(r, card, bpdu, c, b, Rx(c, b))
  {
    hide ActsOn, Taken;
    HeededHeard(hw, r, c, b);
    assert Taken(r, card, bpdu, c, b, Rx(c, b));
    TakenReceived(r, card, bpdu, c, b, Rx(c, b));
  }

  lemma HeededHeard(hw: Hardware, r: Roots, c: Card, b: Bpdu)
    requires ActsOn(hw, r, c, b)
    ensures Rx(c, b).card.us == c.us && Rx(c, b).card.heard == c.heard + [(b.from, b.kind)]
  {
    hide Rx;
    RxHeard(hw, c, b);
    RxOk(hw, c, b);
  }

  lemma IgnoredReceived(
      hw: Hardware, r: Roots, card: Card -> bool, bpdu: Bpdu -> bool, c: Card, b: Bpdu)
    requires CardOk(hw, c) && HeardOk(c) && BpduOk(hw, b) && Accepts(c.us, b.dst)
    requires Regime(hw, r, card, bpdu) && r.p.Has(c.us) && card(c) && !Heeded(r.p, c, b)
    ensures Received(r, card, bpdu, c, b, Rx(c, b))
  {
    HearsOtherGroup(c.us, b.from);
    RxHeard(hw, c, b);
    if Upper(b.from) != r.p.upper {
      ForeignRx(hw, c, b);
      assert card(c.(heard := c.heard + [(b.from, b.kind)]));
    }
  }

  lemma RxReceived(
      hw: Hardware, r: Roots, card: Card -> bool, bpdu: Bpdu -> bool, c: Card, b: Bpdu)
    requires CardOk(hw, c) && HeardOk(c) && BpduOk(hw, b) && Accepts(c.us, b.dst)
    requires Regime(hw, r, card, bpdu) && r.p.Has(c.us) && card(c) && (Upper(b.from) == r.p.upper ==> bpdu(b))
    ensures Received(r, card, bpdu, c, b, Rx(c, b))
  {
    if Heeded(r.p, c, b) {
      HearsOtherGroup(c.us, b.from);
      HeededReceived(hw, r, card, bpdu, c, b);
    } else {
      IgnoredReceived(hw, r, card, bpdu, c, b);
    }
  }

  // ------------------------------------------------------------ one delivery

  /** The root LC has answered the root FC. */
  predicate LcAnswered(r: Roots, net: Net) {
    r.lc in net.cards && Kept(r, net.cards[r.lc])
  }

  ghost predicate Said(r: Roots, bpdu: Bpdu -> bool, net: Net) {
    forall c :: c in net.flight && Upper(c.b.from) == r.p.upper ==>
      bpdu(c.b) && (c.b.from == r.lc && c.b.kind == Hello ==> LcAnswered(r, net))
  }

  ghost predicate NotAnswered(r: Roots, net: Net) {
    !LcAnswered(r, net) ==> forall n :: n in net.cards ==> (r.lc, Hello) !in net.cards[n].heard
  }

  /** Card n has had the HELLO that keeps it going, or it is on its way, or it is
      that of the root LC, which has not answered yet. */
  ghost predicate KeeperComing(r: Roots, net: Net, n: nat)
    requires n in net.cards
  {
    Kept(r, net.cards[n]) || Pending(net, n, Keeper(r, n), Hello) || (FcNum(n) && !LcAnswered(r, net))
  }

  ghost predicate KeepersComing(r: Roots, net: Net) {
    forall n :: n in net.cards && r.p.Has(n) ==> KeeperComing(r, net, n)
  }

  ghost predicate During(hw: Hardware, r: Roots, card: Card -> bool, bpdu: Bpdu -> bool, net: Net) {
    && Base(hw, r.p, net) && Regime(hw, r, card, bpdu) && AllAre(card, r.p, net) && Said(r, bpdu, net)
    && NotAnswered(r, net) && KeepersComing(r, net)
  }

  /** What is known of o, which the receiver of copy k did. */
  ghost predicate Takes(
      hw: Hardware, r: Roots, card: Card -> bool, bpdu: Bpdu -> bool, net: Net, k: nat, o: Out)
    requires k < |net.flight| && net.flight[k].to in net.cards
  {
    var c, d := net.flight[k], net.cards[net.flight[k].to];
    && PlanFor(r.p, net) && r.Ok() && HearsOnly(d, c, o) && OutOk(hw, c.to, o) && d.us == c.to && CpuA(c.to)
    && (r.p.Has(c.to) ==> Received(r, card, bpdu, d, c.b, o))
  }

  lemma TookCards(
      hw: Hardware, r: Roots, card: Card -> bool, bpdu: Bpdu -> bool, net: Net, k: nat, o: Out)
    requires k < |net.flight| && net.flight[k].to in net.cards && Takes(hw, r, card, bpdu, net, k, o)
    requires AllAre(card, r.p, net)
    ensures AllAre(card, r.p, Took(net, k, o))
  {
  }

  lemma StaysAnswered(
      hw: Hardware, r: Roots, card: Card -> bool, bpdu: Bpdu -> bool, net: Net, k: nat, o: Out)
    requires k < |net.flight| && net.flight[k].to in net.cards && Takes(hw, r, card, bpdu, net, k, o)
    requires LcAnswered(r, net)
    ensures LcAnswered(r, Took(net, k, o))
  {
  }

  lemma NewlySaid(
      hw: Hardware, r: Roots, card: Card -> bool, bpdu: Bpdu -> bool, net: Net, k: nat, o: Out, b: Bpdu)
    requires k < |net.flight| && net.flight[k].to in net.cards && Takes(hw, r, card, bpdu, net, k, o)
    requires b in o.sent && Upper(b.from) == r.p.upper
    ensures bpdu(b) && (b.from == r.lc && b.kind == Hello ==> LcAnswered(r, Took(net, k, o)))
  {
    assert b.from == net.flight[k].to;
  }

  lemma TookSaid(
      hw: Hardware, r: Roots, card: Card -> bool, bpdu: Bpdu -> bool, net: Net, k: nat, o: Out)
    requires k < |net.flight| && net.flight[k].to in net.cards && Takes(hw, r, card, bpdu, net, k, o)
    requires Said(r, bpdu, net)
    ensures Said(r, bpdu, Took(net, k, o))
  {
    SendOnly(net.cards.Keys, o.sent);
    assert forall d :: d in Without(net.flight, k) ==> d in net.flight;
    forall d | d in Took(net, k, o).flight && Upper(d.b.from) == r.p.upper
      ensures bpdu(d.b) && (d.b.from == r.lc && d.b.kind == Hello ==> LcAnswered(r, Took(net, k, o)))
    {
      if d in net.flight {
        if d.b.from == r.lc && d.b.kind == Hello { StaysAnswered(hw, r, card, bpdu, net, k, o); }
      } else {
        NewlySaid(hw, r, card, bpdu, net, k, o, d.b);
      }
    }
  }

  lemma TookNotAnswered(
      hw: Hardware, r: Roots, card: Card -> bool, bpdu: Bpdu -> bool, net: Net, k: nat, o: Out)
    requires k < |net.flight| && net.flight[k].to in net.cards && Takes(hw, r, card, bpdu, net, k, o)
    requires Said(r, bpdu, net) && NotAnswered(r, net)
    ensures NotAnswered(r, Took(net, k, o))
  {
    assert net.flight[k] in net.flight;
    if LcAnswered(r, net) {
      StaysAnswered(hw, r, card, bpdu, net, k, o);
    }
  }

  /** The root LC's answer is on its way to every fabric card. */
  lemma LcAnswers(
      hw: Hardware, r: Roots, card: Card -> bool, bpdu: Bpdu -> bool, net: Net, k: nat, o: Out, n: nat)
    requires k < |net.flight| && net.flight[k].to in net.cards && Takes(hw, r, card, bpdu, net, k, o)
    requires Said(r, bpdu, net) && NotAnswered(r, net) && n in net.cards && r.p.Has(n) && FcNum(n)
    requires !LcAnswered(r, net) && LcAnswered(r, Took(net, k, o))
    ensures Pending(Took(net, k, o), n, r.lc, Hello)
  {
    assert net.flight[k] in net.flight;
    HearsOtherGroup(n, r.lc);
    assert BpduOk(hw, o.sent[0]) && o.sent[0] in o.sent;
    SendReaches(net.cards.Keys, o.sent, n);
    assert Of(Copy(n, o.sent[0]), n, r.lc, Hello);
  }

  lemma KeeperStep(
      hw: Hardware, r: Roots, card: Card -> bool, bpdu: Bpdu -> bool, net: Net, k: nat, o: Out, n: nat)
    requires k < |net.flight| && net.flight[k].to in net.cards && Takes(hw, r, card, bpdu, net, k, o)
    requires Said(r, bpdu, net) && NotAnswered(r, net) && n in net.cards && r.p.Has(n) && KeeperComing(r, net, n)
    requires net.cards[n].us == n
    ensures KeeperComing(r, Took(net, k, o), n)
  {
    if Kept(r, net.cards[n]) {
    } else if Pending(net, n, Keeper(r, n), Hello) {
      if !Of(net.flight[k], n, Keeper(r, n), Hello) {
        PendingKept(net, k, o, n, Keeper(r, n), Hello);
      }
    } else if LcAnswered(r, Took(net, k, o)) {
      LcAnswers(hw, r, card, bpdu, net, k, o, n);
    }
  }

  lemma TookKeepers(
      hw: Hardware, r: Roots, card: Card -> bool, bpdu: Bpdu -> bool, net: Net, k: nat, o: Out)
    requires k < |net.flight| && net.flight[k].to in net.cards && Takes(hw, r, card, bpdu, net, k, o)
    requires Said(r, bpdu, net) && NotAnswered(r, net) && KeepersComing(r, net) && Numbered(net)
    ensures KeepersComing(r, Took(net, k, o))
  {
    forall n | n in net.cards && r.p.Has(n)
      ensures KeeperComing(r, Took(net, k, o), n)
    {
      KeeperStep(hw, r, card, bpdu, net, k, o, n);
    }
  }

  lemma DeliverTakes(hw: Hardware, r: Roots, card: Card -> bool, bpdu: Bpdu -> bool, net: Net, k: nat)
    requires Base(hw, r.p, net) && Regime(hw, r, card, bpdu) && AllAre(card, r.p, net) && Said(r, bpdu, net)
    requires k < |net.flight| && net.flight[k].to in net.cards
    ensures Takes(hw, r, card, bpdu, net, k, Rx(net.cards[net.flight[k].to], net.flight[k].b))
  {
    var c := net.flight[k];
    assert CopyOk(hw, c) && c in net.flight;
    RxHearsOnly(hw, net, k);
    if r.p.Has(c.to) {
      RxReceived(hw, r, card, bpdu, net.cards[c.to], c.b);
    }
  }

  lemma TookDuring(
      hw: Hardware, r: Roots, card: Card -> bool, bpdu: Bpdu -> bool, net: Net, k: nat, o: Out)
    requires During(hw, r, card, bpdu, net) && k < |net.flight| && net.flight[k].to in net.cards
    requires Takes(hw, r, card, bpdu, net, k, o) && Base(hw, r.p, Took(net, k, o))
    ensures During(hw, r, card, bpdu, Took(net, k, o))
  {
    hide Regime;
    TookCards(hw, r, card, bpdu, net, k, o);
    TookSaid(hw, r, card, bpdu, net, k, o);
    TookNotAnswered(hw, r, card, bpdu, net, k, o);
    TookKeepers(hw, r, card, bpdu, net, k, o);
  }

  lemma DeliverDuring(hw: Hardware, r: Roots, card: Card -> bool, bpdu: Bpdu -> bool, net: Net, k: nat)
    requires During(hw, r, card, bpdu, net)
    ensures During(hw, r, card, bpdu, Apply(hw, net, Deliver(k)))
  {
    hide Regime, Takes;
    DeliverIsTook(hw, net, k);
    if k < |net.flight| && net.flight[k].to in net.cards {
      DeliverBase(hw, r.p, net, k);
      DeliverTakes(hw, r, card, bpdu, net, k);
      TookDuring(hw, r, card, bpdu, net, k, Rx(net.cards[net.flight[k].to], net.flight[k].b));
    }
  }

  // ----------------------------------------------------------------- a round

  /** What card n does on the tick that starts the round. */
  ghost predicate Begins(r: Roots, card: Card -> bool, bpdu: Bpdu -> bool, n: nat, o: Out) {
    && card(o.card) && o.card.heard == [] && o.card.us == n
    && (forall s :: s in o.sent ==> bpdu(s) && (n == r.lc ==> s.kind != Hello))
    && (n == r.fc ==> |o.sent| == 1 && o.sent[0].kind == Hello && o.sent[0].dst == DstMac(n))
  }

  ghost predicate AllBegin(f: Card -> Out, r: Roots, card: Card -> bool, bpdu: Bpdu -> bool, net: Net) {
    forall n :: n in net.cards && r.p.Has(n) ==> Begins(r, card, bpdu, n, f(net.cards[n]))
  }

  /** All cards do f, from a chassis with nothing in flight. */
  ghost predicate BeginningDo(f: Card -> Out, r: Roots, card: Card -> bool, bpdu: Bpdu -> bool, net: Net) {
    && r.Ok() && PlanFor(r.p, net) && net.flight == [] && Numbered(net) && AllBegin(f, r, card, bpdu, net)
    && (forall n :: n in net.cards ==> CpuA(n) && f(net.cards[n]).card.heard == [])
    && (forall n :: n in net.cards ==> forall b :: b in f(net.cards[n]).sent ==> b.from == n)
  }

  lemma DoAllAre(f: Card -> Out, r: Roots, card: Card -> bool, bpdu: Bpdu -> bool, net: Net, ts: Order)
    requires BeginningDo(f, r, card, bpdu, net)
    ensures AllAre(card, r.p, DoAll(f, net, ts)) && NotAnswered(r, DoAll(f, net, ts))
  {
    DoCards(f, net, ts);
  }

  lemma DoSaid(f: Card -> Out, r: Roots, card: Card -> bool, bpdu: Bpdu -> bool, net: Net, ts: Order)
    requires BeginningDo(f, r, card, bpdu, net)
    ensures Said(r, bpdu, DoAll(f, net, ts))
  {
    forall c | c in DoAll(f, net, ts).flight && Upper(c.b.from) == r.p.upper
      ensures bpdu(c.b) && !(c.b.from == r.lc && c.b.kind == Hello)
    {
      var n := DoOnly(f, net, ts, c);
      assert r.p.Has(n) && Begins(r, card, bpdu, n, f(net.cards[n]));
    }
  }

  lemma DoKeepers(f: Card -> Out, r: Roots, card: Card -> bool, bpdu: Bpdu -> bool, net: Net, ts: Order)
    requires BeginningDo(f, r, card, bpdu, net)
    ensures KeepersComing(r, DoAll(f, net, ts))
  {
    var t := DoAll(f, net, ts);
    DoCards(f, net, ts);
    assert Begins(r, card, bpdu, r.fc, f(net.cards[r.fc])) && Begins(r, card, bpdu, r.lc, f(net.cards[r.lc]));
    assert f(net.cards[r.fc]).sent[0] in f(net.cards[r.fc]).sent;
    assert t.cards[r.lc].heard == [];
    forall n | n in t.cards && r.p.Has(n)
      ensures KeeperComing(r, t, n)
    {
      if LcNum(n) { DoPending(f, net, ts, r.fc, n, Hello); }
    }
  }

  lemma DuringStarts(hw: Hardware, r: Roots, card: Card -> bool, bpdu: Bpdu -> bool, net: Net, ts: Order)
    requires Base(hw, r.p, net) && net.flight == [] && Regime(hw, r, card, bpdu) && AllBegin(Tick, r, card, bpdu, net)
    ensures During(hw, r, card, bpdu, AllTick(net, ts))
  {
    hide Closed, Oblivious;
    TicksFrom(hw, net);
    forall n | n in net.cards
      ensures Tick(net.cards[n]).card.heard == []
    {
      TickHeard(net.cards[n]);
    }
    DoAllAre(Tick, r, card, bpdu, net, ts);
    DoSaid(Tick, r, card, bpdu, net, ts);
    DoKeepers(Tick, r, card, bpdu, net, ts);
    AllTickOk(hw, net, ts);
    DoCards(Tick, net, ts);
  }

  /** At the end of the round: all have been kept going. */
  ghost predicate AllKept(hw: Hardware, r: Roots, card: Card -> bool, net: Net) {
    && Base(hw, r.p, net) && net.flight == []
    && forall n :: n in net.cards && r.p.Has(n) ==> card(net.cards[n]) && Kept(r, net.cards[n])
  }

  lemma DuringEnds(hw: Hardware, r: Roots, card: Card -> bool, bpdu: Bpdu -> bool, net: Net)
    requires During(hw, r, card, bpdu, net) && net.flight == []
    ensures AllKept(hw, r, card, net)
  {
    hide Closed, Oblivious;
    assert r.p.Has(r.lc) && r.lc in net.cards && KeeperComing(r, net, r.lc);
    assert !Pending(net, r.lc, Keeper(r, r.lc), Hello) && Kept(r, net.cards[r.lc]);
    forall n | n in net.cards && r.p.Has(n)
      ensures card(net.cards[n]) && Kept(r, net.cards[n])
    {
      assert KeeperComing(r, net, n) && !Pending(net, n, Keeper(r, n), Hello);
    }
  }

  ghost function DuringOf(hw: Hardware, r: Roots, card: Card -> bool, bpdu: Bpdu -> bool): Net -> bool {
    x => During(hw, r, card, bpdu, x)
  }

  ghost function KeptOf(hw: Hardware, r: Roots, card: Card -> bool): Net -> bool {
    x => AllKept(hw, r, card, x)
  }

  lemma DuringStable(hw: Hardware, r: Roots, card: Card -> bool, bpdu: Bpdu -> bool)
    ensures Stable(hw, DuringOf(hw, r, card, bpdu)) && EndsIn(DuringOf(hw, r, card, bpdu), KeptOf(hw, r, card))
  {
    hide During, AllKept;
    forall x: Net, k: nat | DuringOf(hw, r, card, bpdu)(x)
      ensures DuringOf(hw, r, card, bpdu)(Apply(hw, x, Deliver(k)))
    {
      DeliverDuring(hw, r, card, bpdu, x, k);
    }
    forall x: Net | DuringOf(hw, r, card, bpdu)(x) && x.flight == []
      ensures KeptOf(hw, r, card)(x)
    {
      DuringEnds(hw, r, card, bpdu, x);
    }
  }

  /** A whole round. */
  lemma KeepRound(
      hw: Hardware, r: Roots, card: Card -> bool, bpdu: Bpdu -> bool, net: Net, l: Lockstep, after: Net)
    requires Base(hw, r.p, net) && net.flight == [] && Regime(hw, r, card, bpdu) && AllBegin(Tick, r, card, bpdu, net)
    requires Round(hw, net, l, after)
    ensures AllKept(hw, r, card, after)
  {
    hide During, AllKept, Regime, Base;
    DuringStarts(hw, r, card, bpdu, net, l.ticks);
    DuringStable(hw, r, card, bpdu);
    assert DuringOf(hw, r, card, bpdu)(AllTick(net, l.ticks));
    RoundKeeps(hw, DuringOf(hw, r, card, bpdu), KeptOf(hw, r, card), net, l, after);
    assert KeptOf(hw, r, card)(after);
  }
}
