/**
 A root fabric card gives up: it hears of no line card any more and says LC_CHANGE.
 The line cards that still forward pass it on, and so the whole plane stops
 forwarding within that round, unless nobody is left to pass it on.
 */
module CtpGiveUp {
  import opened Ctp
  import opened CtpInvariant
  import opened CtpNet
  import opened CtpReceive
  import opened CtpTopology
  import opened CtpRounds
  import opened CtpConverge
  import opened CtpAnswers

  // ---------------------------------------------------------------- one card

  /** A card during the round in which R gives up: R itself no longer forwards, and
      who does names R as root FC. */
  predicate Ebbing(R: nat, c: Card) {
    c.state == Forwarding ==> c.us != R && c.rootPort == R
  }

  /** What is said in that round: R's LC_CHANGE, what line cards pass on of it, and
      the REPLY of one that it wakes. */
  predicate EbbBpdu(p: Plan, R: nat, b: Bpdu) {
    && p.Has(b.from) && (b.kind == LcChange ==> b.root.Num() == R)
    && (FcNum(b.from) ==> b.kind == LcChange) && (LcNum(b.from) ==> b.kind == LcChange || b.kind == Reply)
  }

  /** What one reception does to a card of the plane. */
  predicate EbbTaken(p: Plan, R: nat, c: Card, b: Bpdu, o: Out) {
    && Ebbing(R, o.card) && (forall s :: s in o.sent ==> EbbBpdu(p, R, s))
    && (c.state != Forwarding ==> o.card.state != Forwarding && forall s :: s in o.sent ==> s.kind != LcChange)
    && (c.state == Forwarding && o.card.state == Forwarding ==> o.sent == [])
    && (c.state == Forwarding && Heeded(p, c, b) && b.kind == LcChange ==> o.card.state != Forwarding)
    && (c.state == Forwarding && !(Heeded(p, c, b) && b.kind == LcChange) ==> o.card.state == Forwarding)
    && (LcNum(c.us) && c.state == Forwarding && o.card.state != Forwarding ==>
          |o.sent| == 1 && o.sent[0].kind == LcChange)
  }

  lemma WakesQuiet(hw: Hardware, p: Plan, R: nat, c: Card, b: Bpdu)
    requires CardOk(hw, c) && p.Has(c.us) && c.state != Forwarding && BpduOk(hw, b) && SamePlane(c.us, b.from)
    ensures var o := Rx(c, b);
            && o.card.state != Forwarding && o.card.us == c.us
            && forall s :: s in o.sent ==> s.kind == Reply && s.from == c.us && LcNum(c.us)
  {
    hide MergeFrom, Aged, TableOk, Differs, RootOk, DesignOk;
  }

  lemma EbbForwards(hw: Hardware, p: Plan, R: nat, c: Card, b: Bpdu)
    requires Comes(hw, c, b) && p.Has(c.us) && LcNum(c.us) != LcNum(b.from) && Ebbing(R, c) && EbbBpdu(p, R, b)
    ensures EbbTaken(p, R, c, b, Rx(c, b)) || !Heeded(p, c, b)
  {
    hide Rx, CardOk, BpduOk;
    if LcNum(c.us) {
      LcPassesOn(hw, c, b);
    } else if b.kind == LcChange {
      FcHearsLcChange(hw, c, b);
    } else {
      FcHearsReply(hw, c, b);
    }
  }

  lemma EbbTakes(hw: Hardware, p: Plan, R: nat, c: Card, b: Bpdu)
    requires CardOk(hw, c) && HeardOk(c) && BpduOk(hw, b) && Accepts(c.us, b.dst) && p.Has(c.us) && Ebbing(R, c)
    requires Upper(b.from) == p.upper ==> EbbBpdu(p, R, b)
    ensures EbbTaken(p, R, c, b, Rx(c, b))
  {
    HearsOtherGroup(c.us, b.from);
    NeverFull(c);
    hide Rx, CardOk, BpduOk, EbbBpdu, Ebbing, Accepts;
    if Upper(b.from) != p.upper {
      ForeignRx(hw, c, b);
      Unmoved(p, R, c, b, Rx(c, b));
    } else if (b.from, b.kind) in c.heard {
      Dropped(c, b);
      Unmoved(p, R, c, b, Rx(c, b));
    } else if c.state == Forwarding {
      EbbForwards(hw, p, R, c, b);
    } else {
      WakesQuiet(hw, p, R, c, b);
      Woken(p, R, c, b, Rx(c, b));
    }
  }

  lemma Unmoved(p: Plan, R: nat, c: Card, b: Bpdu, o: Out)
    requires Untouched(c, o.card) && o.sent == [] && Ebbing(R, c) && !Heeded(p, c, b)
    ensures EbbTaken(p, R, c, b, o)
  {
  }

  lemma Woken(p: Plan, R: nat, c: Card, b: Bpdu, o: Out)
    requires p.Has(c.us) && c.state != Forwarding && o.card.state != Forwarding
    requires forall s :: s in o.sent ==> s.kind == Reply && s.from == c.us && LcNum(c.us)
    ensures EbbTaken(p, R, c, b, o)
  {
  }

  // ------------------------------------------------------------ one delivery

  predicate Forwards(net: Net, n: nat) {
    n in net.cards && net.cards[n].state == Forwarding
  }

  ghost predicate EbbFlight(p: Plan, R: nat, net: Net) {
    forall c :: c in net.flight && Upper(c.b.from) == p.upper ==>
      EbbBpdu(p, R, c.b) && (LcNum(c.b.from) && c.b.kind == LcChange ==> !Forwards(net, c.b.from))
  }

  /** A line card that still forwards has not been heard passing on. */
  ghost predicate NotPassed(p: Plan, net: Net) {
    forall l, n :: l in net.cards && p.Has(l) && LcNum(l) && Forwards(net, l) && n in net.cards ==>
      (l, LcChange) !in net.cards[n].heard
  }

  ghost predicate EbbCards(p: Plan, R: nat, net: Net) {
    forall n :: n in net.cards && p.Has(n) ==> Ebbing(R, net.cards[n])
  }

  ghost predicate Ebb(hw: Hardware, p: Plan, R: nat, net: Net) {
    Base(hw, p, net) && EbbCards(p, R, net) && EbbFlight(p, R, net) && NotPassed(p, net)
  }

  /** What is known of o, which the receiver of copy k did. */
  ghost predicate Ebbs(hw: Hardware, p: Plan, R: nat, net: Net, k: nat, o: Out)
    requires k < |net.flight| && net.flight[k].to in net.cards
  {
    var c, d := net.flight[k], net.cards[net.flight[k].to];
    && PlanFor(p, net) && HearsOnly(d, c, o) && OutOk(hw, c.to, o) && d.us == c.to && CpuA(c.to)
    && (p.Has(c.to) ==> EbbTaken(p, R, d, c.b, o))
  }

  lemma TookEbbCards(hw: Hardware, p: Plan, R: nat, net: Net, k: nat, o: Out)
    requires k < |net.flight| && net.flight[k].to in net.cards && Ebbs(hw, p, R, net, k, o) && EbbCards(p, R, net)
    ensures EbbCards(p, R, Took(net, k, o))
    ensures forall n :: p.Has(n) && Forwards(Took(net, k, o), n) ==> Forwards(net, n)
  {
  }

  lemma NewlyEbbs(hw: Hardware, p: Plan, R: nat, net: Net, k: nat, o: Out, b: Bpdu)
    requires k < |net.flight| && net.flight[k].to in net.cards && Ebbs(hw, p, R, net, k, o)
    requires b in o.sent && Upper(b.from) == p.upper
    ensures EbbBpdu(p, R, b) && !Forwards(Took(net, k, o), b.from)
  {
    assert b.from == net.flight[k].to;
  }

  lemma TookEbbFlight(hw: Hardware, p: Plan, R: nat, net: Net, k: nat, o: Out)
    requires k < |net.flight| && net.flight[k].to in net.cards && Ebbs(hw, p, R, net, k, o)
    requires EbbCards(p, R, net) && EbbFlight(p, R, net)
    ensures EbbFlight(p, R, Took(net, k, o))
  {
    SendOnly(net.cards.Keys, o.sent);
    TookEbbCards(hw, p, R, net, k, o);
    assert forall d :: d in Without(net.flight, k) ==> d in net.flight;
    forall d | d in Took(net, k, o).flight && Upper(d.b.from) == p.upper
      ensures EbbBpdu(p, R, d.b)
      ensures LcNum(d.b.from) && d.b.kind == LcChange ==> !Forwards(Took(net, k, o), d.b.from)
    {
      if d !in net.flight {
        NewlyEbbs(hw, p, R, net, k, o, d.b);
      }
    }
  }

  lemma TookNotPassed(hw: Hardware, p: Plan, R: nat, net: Net, k: nat, o: Out)
    requires k < |net.flight| && net.flight[k].to in net.cards && Ebbs(hw, p, R, net, k, o)
    requires EbbCards(p, R, net) && EbbFlight(p, R, net) && NotPassed(p, net)
    ensures NotPassed(p, Took(net, k, o))
  {
    TookEbbCards(hw, p, R, net, k, o);
    assert net.flight[k] in net.flight;
  }

  lemma DeliverEbbs(hw: Hardware, p: Plan, R: nat, net: Net, k: nat)
    requires Base(hw, p, net) && EbbCards(p, R, net) && EbbFlight(p, R, net)
    requires k < |net.flight| && net.flight[k].to in net.cards
    ensures Ebbs(hw, p, R, net, k, Rx(net.cards[net.flight[k].to], net.flight[k].b))
  {
    hide Rx, EbbTaken, EbbBpdu, Ebbing;
    var c := net.flight[k];
    assert CopyOk(hw, c) && c in net.flight;
    RxHearsOnly(hw, net, k);
    if p.Has(c.to) {
      EbbTakes(hw, p, R, net.cards[c.to], c.b);
    }
  }

  lemma TookEbb(hw: Hardware, p: Plan, R: nat, net: Net, k: nat, o: Out)
    requires Ebb(hw, p, R, net) && k < |net.flight| && net.flight[k].to in net.cards && Ebbs(hw, p, R, net, k, o)
    requires Base(hw, p, Took(net, k, o))
    ensures Ebb(hw, p, R, Took(net, k, o))
  {
    TookEbbCards(hw, p, R, net, k, o);
    TookEbbFlight(hw, p, R, net, k, o);
    TookNotPassed(hw, p, R, net, k, o);
  }

  // ----------------------------------------------- who stops, and who goes on

  /** Card n no longer forwards, or the LC_CHANGE of card `from` is on its way to it. */
  ghost predicate Warned(net: Net, n: nat, from: nat) {
    !Forwards(net, n) || Pending(net, n, from, LcChange)
  }

  /** Every line card is told by R, and every fabric card by line card L, once L has
      been told itself. */
  ghost predicate AllTold(p: Plan, R: nat, L: nat, net: Net) {
    && (forall n :: n in net.cards && p.Has(n) && LcNum(n) ==> Warned(net, n, R))
    && (forall n :: n in net.cards && p.Has(n) && FcNum(n) ==> Warned(net, n, L) || Forwards(net, L))
  }

  lemma StillTold(hw: Hardware, p: Plan, R: nat, net: Net, k: nat, o: Out, n: nat, from: nat)
    requires k < |net.flight| && net.flight[k].to in net.cards && Ebbs(hw, p, R, net, k, o) && EbbCards(p, R, net)
    requires n in net.cards && p.Has(n) && p.Has(from) && Warned(net, n, from)
    ensures Warned(Took(net, k, o), n, from)
  {
    TookEbbCards(hw, p, R, net, k, o);
    if Forwards(Took(net, k, o), n) && !Of(net.flight[k], n, from, LcChange) {
      PendingKept(net, k, o, n, from, LcChange);
    }
  }

  /** What L passes on is on its way to every fabric card. */
  lemma PassedOn(hw: Hardware, p: Plan, R: nat, net: Net, k: nat, o: Out, n: nat, L: nat)
    requires k < |net.flight| && net.flight[k].to in net.cards && Ebbs(hw, p, R, net, k, o)
    requires NotPassed(p, net) && EbbFlight(p, R, net)
    requires n in net.cards && p.Has(n) && FcNum(n) && p.Has(L) && LcNum(L) && net.cards[n].us == n
    requires Forwards(net, L) && !Forwards(Took(net, k, o), L)
    ensures Pending(Took(net, k, o), n, L, LcChange)
  {
    assert net.flight[k].to == L && net.flight[k] in net.flight;
    HearsOtherGroup(n, L);
    assert BpduOk(hw, o.sent[0]);
    SendReaches(net.cards.Keys, o.sent, n);
    assert Of(Copy(n, o.sent[0]), n, L, LcChange);
    assert (L, LcChange) !in net.cards[n].heard;
  }

  lemma TookAllTold(hw: Hardware, p: Plan, R: nat, L: nat, net: Net, k: nat, o: Out)
    requires Ebb(hw, p, R, net) && k < |net.flight| && net.flight[k].to in net.cards && Ebbs(hw, p, R, net, k, o)
    requires p.Has(R) && p.Has(L) && LcNum(L) && L in net.cards && AllTold(p, R, L, net)
    ensures AllTold(p, R, L, Took(net, k, o))
  {
    hide EbbTaken, Warned, Ebbs, EbbCards, EbbFlight, NotPassed, Pending;
    var t := Took(net, k, o);
    forall n | n in t.cards && p.Has(n) && LcNum(n)
      ensures Warned(t, n, R)
    {
      StillTold(hw, p, R, net, k, o, n, R);
    }
    forall n | n in t.cards && p.Has(n) && FcNum(n)
      ensures Warned(t, n, L) || Forwards(t, L)
    {
      if Forwards(net, L) {
        if !Forwards(t, L) {
          PassedOn(hw, p, R, net, k, o, n, L);
          PendingTold(t, n, L);
        }
      } else {
        StillTold(hw, p, R, net, k, o, n, L);
      }
    }
  }

  lemma PendingTold(net: Net, n: nat, from: nat)
    requires Pending(net, n, from, LcChange)
    ensures Warned(net, n, from)
  {
  }

  /** The other case: no line card forwards, and fabric card f does. */
  ghost predicate Untold(p: Plan, f: nat, net: Net) {
    && Forwards(net, f)
    && (forall n :: n in net.cards && p.Has(n) && LcNum(n) ==> !Forwards(net, n))
    && (forall c :: c in net.flight && Upper(c.b.from) == p.upper && LcNum(c.b.from) ==> c.b.kind != LcChange)
  }

  lemma TookUntold(hw: Hardware, p: Plan, R: nat, f: nat, net: Net, k: nat, o: Out)
    requires Ebb(hw, p, R, net) && k < |net.flight| && net.flight[k].to in net.cards && Ebbs(hw, p, R, net, k, o)
    requires CopyOk(hw, net.flight[k]) && p.Has(f) && FcNum(f) && Untold(p, f, net)
    ensures Untold(p, f, Took(net, k, o))
  {
    hide Base, NotPassed;
    var c := net.flight[k];
    TookEbbCards(hw, p, R, net, k, o);
    HearsOtherGroup(c.to, c.b.from);
    assert c in net.flight;
    SendOnly(net.cards.Keys, o.sent);
    assert forall d :: d in Without(net.flight, k) ==> d in net.flight;
    forall d | d in Took(net, k, o).flight && Upper(d.b.from) == p.upper && LcNum(d.b.from)
      ensures d.b.kind != LcChange
    {
      if d !in net.flight {
        assert d.b.from == c.to && p.Has(c.to);
      }
    }
  }

  // ----------------------------------------------------------------- a round

  /** Before the round: the plane forwards under R, and R gives up on its tick. */
  ghost predicate GivingUp(hw: Hardware, p: Plan, R: nat, net: Net) {
    && Base(hw, p, net) && net.flight == [] && p.Has(R) && FcNum(R) && R in net.cards
    && AllForward(net, p.upper) && RootedAt(net, p.upper, R) && Quits(net.cards[R])
  }

  /** The card hears that late that it goes to BLOCK by itself. */
  predicate RunsOut(c: Card) {
    c.since > 45
  }

  predicate EbbTicked(p: Plan, R: nat, c: Card, o: Out) {
    && Ebbing(R, o.card) && o.card.us == c.us && o.card.heard == []
    && (if c.us == R then
          |o.sent| == 1 && o.sent[0].kind == LcChange && EbbBpdu(p, R, o.sent[0]) && o.card.state != Forwarding
          && o.sent[0].from == R && o.sent[0].dst == DstMac(R)
        else o.sent == [] && (o.card.state == Forwarding <==> !RunsOut(c)))
  }

  lemma EbbTick(hw: Hardware, p: Plan, R: nat, c: Card)
    requires CardOk(hw, c) && p.Has(c.us) && p.Has(R) && FcNum(R) && c.state == Forwarding && c.rootPort == R
    requires c.us == R ==> Quits(c)
    ensures EbbTicked(p, R, c, Tick(c))
  {
    hide Quits, TableOk;
    TickHeard(c);
    TickOk(hw, c);
    if c.us == R {
      RootSays(hw, c);
    } else {
      OthersTick(hw, c);
    }
    hide Tick;
  }

  /** The general form: every card does f. */
  ghost predicate EbbDo(f: Card -> Out, p: Plan, R: nat, net: Net) {
    && PlanFor(p, net) && net.flight == [] && Numbered(net) && p.Has(R) && FcNum(R) && R in net.cards
    && (forall n :: n in net.cards ==> CpuA(n) && f(net.cards[n]).card.heard == [])
    && (forall n :: n in net.cards ==> forall b :: b in f(net.cards[n]).sent ==> b.from == n)
    && (forall n :: n in net.cards && p.Has(n) ==> EbbTicked(p, R, net.cards[n], f(net.cards[n])))
  }

  lemma DoEbb(f: Card -> Out, p: Plan, R: nat, net: Net, ts: Order)
    requires EbbDo(f, p, R, net)
    ensures var t := DoAll(f, net, ts);
            && EbbCards(p, R, t) && EbbFlight(p, R, t) && NotPassed(p, t)
            && (forall n :: n in t.cards && p.Has(n) && LcNum(n) ==> Warned(t, n, R))
            && (forall n :: n in net.cards && p.Has(n) ==> (Forwards(t, n) <==> n != R && !RunsOut(net.cards[n])))
            && (forall c :: c in t.flight && Upper(c.b.from) == p.upper ==> c.b.from == R)
  {
    hide EbbTicked;
    DoCards(f, net, ts);
    DoEbbFlight(f, p, R, net, ts);
    DoEbbCards(f, p, R, net, ts);
  }

  lemma DoEbbFlight(f: Card -> Out, p: Plan, R: nat, net: Net, ts: Order)
    requires EbbDo(f, p, R, net)
    ensures forall c :: c in DoAll(f, net, ts).flight && Upper(c.b.from) == p.upper ==>
              c.b.from == R && EbbBpdu(p, R, c.b)
  {
    forall c | c in DoAll(f, net, ts).flight && Upper(c.b.from) == p.upper
      ensures c.b.from == R && EbbBpdu(p, R, c.b)
    {
      var n := DoOnly(f, net, ts, c);
      assert p.Has(n) && EbbTicked(p, R, net.cards[n], f(net.cards[n]));
    }
  }

  lemma DoEbbCards(f: Card -> Out, p: Plan, R: nat, net: Net, ts: Order)
    requires EbbDo(f, p, R, net)
    ensures var t := DoAll(f, net, ts);
            && (forall n :: n in t.cards && p.Has(n) && LcNum(n) ==> Warned(t, n, R))
            && (forall n :: n in t.cards && p.Has(n) ==>
                  Ebbing(R, t.cards[n]) && n in net.cards && (Forwards(t, n) <==> n != R && !RunsOut(net.cards[n])))
  {
    var t := DoAll(f, net, ts);
    DoCards(f, net, ts);
    forall n | n in net.cards && p.Has(n)
      ensures Ebbing(R, t.cards[n]) && (Forwards(t, n) <==> n != R && !RunsOut(net.cards[n]))
    {
      assert EbbTicked(p, R, net.cards[n], f(net.cards[n]));
    }
    forall n | n in t.cards && p.Has(n) && LcNum(n)
      ensures Warned(t, n, R)
    {
      RToldAll(f, p, R, net, ts, n);
    }
  }

  lemma RToldAll(f: Card -> Out, p: Plan, R: nat, net: Net, ts: Order, n: nat)
    requires EbbDo(f, p, R, net) && n in net.cards && p.Has(n) && LcNum(n)
    ensures Warned(DoAll(f, net, ts), n, R)
  {
    hide Pending;
    assert EbbTicked(p, R, net.cards[R], f(net.cards[R]));
    DoPending(f, net, ts, R, n, LcChange);
  }

  lemma EbbStarts(hw: Hardware, p: Plan, R: nat, net: Net, ts: Order)
    requires GivingUp(hw, p, R, net)
    ensures EbbDo(Tick, p, R, net) && Base(hw, p, AllTick(net, ts))
  {
    hide Tick, EbbTicked, Quits, CardOk, CopyOk, NetHeardOk;
    TicksFrom(hw, net);
    forall n | n in net.cards
      ensures Tick(net.cards[n]).card.heard == []
    {
      TickHeard(net.cards[n]);
    }
    forall n | n in net.cards && p.Has(n)
      ensures EbbTicked(p, R, net.cards[n], Tick(net.cards[n]))
    {
      assert InPlane(net, p.upper, n);
      BaseCard(hw, p, net, n);
      EbbTick(hw, p, R, net.cards[n]);
    }
    AllTickOk(hw, net, ts);
    DoCards(Tick, net, ts);
  }

  ghost function ToldOf(hw: Hardware, p: Plan, R: nat, L: nat): Net -> bool {
    (x: Net) => Ebb(hw, p, R, x) && p.Has(R) && p.Has(L) && LcNum(L) && L in x.cards && AllTold(p, R, L, x)
  }

  ghost function UntoldOf(hw: Hardware, p: Plan, R: nat, f: nat): Net -> bool {
    (x: Net) => Ebb(hw, p, R, x) && p.Has(f) && FcNum(f) && Untold(p, f, x)
  }

  ghost predicate Stopped(p: Plan, net: Net) {
    forall n :: n in net.cards && p.Has(n) ==> !Forwards(net, n)
  }

  ghost function StoppedOf(p: Plan): Net -> bool {
    (x: Net) => Stopped(p, x)
  }

  lemma DeliverTold(hw: Hardware, p: Plan, R: nat, L: nat, net: Net, k: nat)
    requires ToldOf(hw, p, R, L)(net)
    ensures ToldOf(hw, p, R, L)(Apply(hw, net, Deliver(k)))
  {
    hide Ebbs, AllTold, EbbCards, EbbFlight, NotPassed;
    DeliverIsTook(hw, net, k);
    if k < |net.flight| && net.flight[k].to in net.cards {
      DeliverBase(hw, p, net, k);
      DeliverEbbs(hw, p, R, net, k);
      var o := Rx(net.cards[net.flight[k].to], net.flight[k].b);
      TookEbb(hw, p, R, net, k, o);
      TookAllTold(hw, p, R, L, net, k, o);
    }
  }

  lemma DeliverUntold(hw: Hardware, p: Plan, R: nat, f: nat, net: Net, k: nat)
    requires UntoldOf(hw, p, R, f)(net)
    ensures UntoldOf(hw, p, R, f)(Apply(hw, net, Deliver(k)))
  {
    hide Ebbs, Untold, EbbCards, EbbFlight, NotPassed;
    DeliverIsTook(hw, net, k);
    if k < |net.flight| && net.flight[k].to in net.cards {
      DeliverBase(hw, p, net, k);
      DeliverEbbs(hw, p, R, net, k);
      assert CopyOk(hw, net.flight[k]);
      var o := Rx(net.cards[net.flight[k].to], net.flight[k].b);
      TookEbb(hw, p, R, net, k, o);
      TookUntold(hw, p, R, f, net, k, o);
    }
  }

  lemma ToldStable(hw: Hardware, p: Plan, R: nat, L: nat)
    ensures Stable(hw, ToldOf(hw, p, R, L)) && EndsIn(ToldOf(hw, p, R, L), StoppedOf(p))
  {
    forall x: Net, k: nat | ToldOf(hw, p, R, L)(x)
      ensures ToldOf(hw, p, R, L)(Apply(hw, x, Deliver(k)))
    {
      DeliverTold(hw, p, R, L, x, k);
    }
    forall x: Net | ToldOf(hw, p, R, L)(x) && x.flight == []
      ensures StoppedOf(p)(x)
    {
      ToldEnds(hw, p, R, L, x);
    }
  }

  lemma ToldEnds(hw: Hardware, p: Plan, R: nat, L: nat, net: Net)
    requires ToldOf(hw, p, R, L)(net) && net.flight == []
    ensures StoppedOf(p)(net)
  {
    assert !Forwards(net, L);
  }

  lemma UntoldStable(hw: Hardware, p: Plan, R: nat, f: nat)
    ensures Stable(hw, UntoldOf(hw, p, R, f))
  {
    forall x: Net, k: nat | UntoldOf(hw, p, R, f)(x)
      ensures UntoldOf(hw, p, R, f)(Apply(hw, x, Deliver(k)))
    {
      DeliverUntold(hw, p, R, f, x, k);
    }
  }

  /** Somebody is left to pass on what R says: a line card whose own clock does not run
      out on this very tick. */
  ghost predicate PassesOn(p: Plan, net: Net) {
    exists l :: l in net.cards && p.Has(l) && LcNum(l) && !RunsOut(net.cards[l])
  }

  /** Or nobody needs to be told. */
  ghost predicate AllRunOut(p: Plan, R: nat, net: Net) {
    forall n :: n in net.cards && p.Has(n) && n != R ==> RunsOut(net.cards[n])
  }

  lemma StopsIfPassed(hw: Hardware, p: Plan, R: nat, net: Net, r: Lockstep, after: Net, L: nat)
    requires GivingUp(hw, p, R, net) && Round(hw, net, r, after)
    requires L in net.cards && p.Has(L) && LcNum(L) && !RunsOut(net.cards[L])
    ensures StoppedOf(p)(after)
  {
    hide Ebb, Base;
    var t := AllTick(net, r.ticks);
    EbbStarts(hw, p, R, net, r.ticks);
    DoEbb(Tick, p, R, net, r.ticks);
    DoCards(Tick, net, r.ticks);
    StartsTold(hw, p, R, L, t);
    ToldStable(hw, p, R, L);
    RoundKeeps(hw, ToldOf(hw, p, R, L), StoppedOf(p), net, r, after);
  }

  lemma StartsTold(hw: Hardware, p: Plan, R: nat, L: nat, t: Net)
    requires Base(hw, p, t) && EbbCards(p, R, t) && EbbFlight(p, R, t) && NotPassed(p, t)
    requires forall n :: n in t.cards && p.Has(n) && LcNum(n) ==> Warned(t, n, R)
    requires p.Has(R) && p.Has(L) && LcNum(L) && Forwards(t, L)
    ensures ToldOf(hw, p, R, L)(t)
  {
  }

  lemma GoesOnUntold(hw: Hardware, p: Plan, R: nat, net: Net, r: Lockstep, after: Net, f: nat)
    requires GivingUp(hw, p, R, net) && Round(hw, net, r, after) && !PassesOn(p, net)
    requires f in net.cards && p.Has(f) && f != R && !RunsOut(net.cards[f])
    ensures Forwards(after, f)
  {
    hide Ebb, Base;
    var t := AllTick(net, r.ticks);
    EbbStarts(hw, p, R, net, r.ticks);
    DoEbb(Tick, p, R, net, r.ticks);
    DoCards(Tick, net, r.ticks);
    StartsUntold(hw, p, R, f, t);
    UntoldStable(hw, p, R, f);
    DeliveriesKeep(hw, UntoldOf(hw, p, R, f), t, r.deliveries);
  }

  lemma StartsUntold(hw: Hardware, p: Plan, R: nat, f: nat, t: Net)
    requires Base(hw, p, t) && EbbCards(p, R, t) && EbbFlight(p, R, t) && NotPassed(p, t)
    requires forall c :: c in t.flight && Upper(c.b.from) == p.upper ==> c.b.from == R
    requires forall n :: n in t.cards && p.Has(n) && LcNum(n) ==> !Forwards(t, n)
    requires FcNum(R) && p.Has(f) && FcNum(f) && Forwards(t, f)
    ensures UntoldOf(hw, p, R, f)(t)
  {
  }

  lemma StopsIfRunOut(hw: Hardware, p: Plan, R: nat, net: Net, r: Lockstep, after: Net)
    requires GivingUp(hw, p, R, net) && Round(hw, net, r, after) && AllRunOut(p, R, net)
    ensures StoppedOf(p)(after)
  {
    hide Ebb, Base;
    var t := AllTick(net, r.ticks);
    EbbStarts(hw, p, R, net, r.ticks);
    DoEbb(Tick, p, R, net, r.ticks);
    DoCards(Tick, net, r.ticks);
    StartsStopped(hw, p, R, t);
    StillStable(hw, p, R);
    RoundKeeps(hw, StillOf(hw, p, R), StoppedOf(p), net, r, after);
  }

  ghost function StillOf(hw: Hardware, p: Plan, R: nat): Net -> bool {
    (x: Net) => Ebb(hw, p, R, x) && Stopped(p, x)
  }

  lemma StartsStopped(hw: Hardware, p: Plan, R: nat, t: Net)
    requires Base(hw, p, t) && EbbCards(p, R, t) && EbbFlight(p, R, t) && NotPassed(p, t)
    requires forall n :: n in t.cards && p.Has(n) ==> !Forwards(t, n)
    ensures StillOf(hw, p, R)(t)
  {
    hide Base, EbbCards, EbbFlight, NotPassed;
  }

  lemma StillStable(hw: Hardware, p: Plan, R: nat)
    ensures Stable(hw, StillOf(hw, p, R)) && EndsIn(StillOf(hw, p, R), StoppedOf(p))
  {
    forall x: Net, k: nat | StillOf(hw, p, R)(x)
      ensures StillOf(hw, p, R)(Apply(hw, x, Deliver(k)))
    {
      DeliverStill(hw, p, R, x, k);
    }
  }

  lemma DeliverStill(hw: Hardware, p: Plan, R: nat, net: Net, k: nat)
    requires StillOf(hw, p, R)(net)
    ensures StillOf(hw, p, R)(Apply(hw, net, Deliver(k)))
  {
    hide Ebbs, EbbCards, EbbFlight, NotPassed, Base, Rx;
    DeliverIsTook(hw, net, k);
    if k < |net.flight| && net.flight[k].to in net.cards {
      DeliverBase(hw, p, net, k);
      DeliverEbbs(hw, p, R, net, k);
      var o := Rx(net.cards[net.flight[k].to], net.flight[k].b);
      TookEbb(hw, p, R, net, k, o);
      TookEbbCards(hw, p, R, net, k, o);
    }
  }

  /** The round in which the root FC gives up: at its end no card of the plane forwards
      any more, if and only if some line card's own clock does not run out in the same
      round, so that it passes the LC_CHANGE on, or those of all other cards do. */
  lemma GiveUpRound(hw: Hardware, p: Plan, R: nat, net: Net, r: Lockstep, after: Net)
    requires GivingUp(hw, p, R, net) && Round(hw, net, r, after)
    ensures (forall n :: InPlane(after, p.upper, n) ==> after.cards[n].state != Forwarding)
       <==> PassesOn(p, net) || AllRunOut(p, R, net)
  {
    SameCards(hw, p, net, r, after);
    if PassesOn(p, net) {
      var l :| l in net.cards && p.Has(l) && LcNum(l) && !RunsOut(net.cards[l]);
      StopsIfPassed(hw, p, R, net, r, after, l);
      NoneForwards(p, after);
    } else if AllRunOut(p, R, net) {
      StopsIfRunOut(hw, p, R, net, r, after);
      NoneForwards(p, after);
    } else {
      var f :| f in net.cards && p.Has(f) && f != R && !RunsOut(net.cards[f]);
      GoesOnUntold(hw, p, R, net, r, after, f);
      assert InPlane(after, p.upper, f);
    }
  }

  lemma NoneForwards(p: Plan, net: Net)
    requires StoppedOf(p)(net) && net.cards.Keys == p.live
    ensures forall n :: InPlane(net, p.upper, n) ==> net.cards[n].state != Forwarding
  {
    forall n | InPlane(net, p.upper, n)
      ensures net.cards[n].state != Forwarding
    {
      assert p.Has(n) && !Forwards(net, n);
    }
  }

  ghost function BaseOf(hw: Hardware, p: Plan): Net -> bool {
    (x: Net) => Base(hw, p, x)
  }

  lemma SameCards(hw: Hardware, p: Plan, net: Net, r: Lockstep, after: Net)
    requires Base(hw, p, net) && Round(hw, net, r, after)
    ensures after.cards.Keys == p.live
  {
    hide NetOk, NetHeardOk;
    AllTickOk(hw, net, r.ticks);
    DoCards(Tick, net, r.ticks);
    forall x: Net, k: nat | BaseOf(hw, p)(x)
      ensures BaseOf(hw, p)(Apply(hw, x, Deliver(k)))
    {
      DeliverBase(hw, p, x, k);
    }
    assert BaseOf(hw, p)(AllTick(net, r.ticks));
    DeliveriesKeep(hw, BaseOf(hw, p), AllTick(net, r.ticks), r.deliveries);
    assert BaseOf(hw, p)(after);
  }
}
