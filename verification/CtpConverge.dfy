/**
 Cold-start convergence: when all cards of a plane are in BLOCK, and rounds run
 in lockstep, then after 14 rounds all of them forward, and agree on the
 smallest fabric card as root FC and the smallest line card as root LC.
 */
module CtpConverge {
  import opened Ctp
  import opened CtpInvariant
  import opened CtpNet
  import opened CtpReceive
  import opened CtpTiming
  import opened CtpTopology
  import opened CtpGossip
  import opened CtpRounds

  /** The running cards, the plane in question, and its two smallest cards. */
  datatype Plan = Plan(live: set<nat>, upper: bool, fc: nat, lc: nat) {
    predicate Has(n: nat) {
      n in live && CpuA(n) && Upper(n) == upper
    }

    predicate Ok() {
      && Has(fc) && FcNum(fc) && (forall n :: n in live && Has(n) && FcNum(n) ==> fc <= n)
      && Has(lc) && LcNum(lc) && (forall n :: n in live && Has(n) && LcNum(n) ==> lc <= n)
    }
  }

  // ------------------------------------------------------ from round 2 onward

  /** A line card during round r. It knows both roots from round 3 on, and holds
      the root FC at full age until it sends. */
  predicate LcGood(p: Plan, c: Card, r: int) {
    && r >= 1 && AtPhase(c, r - 1) && p.Has(c.rootPort) && p.Has(c.rootLc)
    && (r >= 3 ==> c.rootPort == p.fc && c.rootLc == p.lc)
    && (3 <= r <= 6 ==> Age(c.exist, p.fc - 1) == FULL_AGE)
  }

  /** A line card that has heard the root FC in round 2. */
  predicate LcLearned(p: Plan, c: Card) {
    c.rootPort == p.fc && c.rootLc == p.lc && Age(c.exist, p.fc - 1) == FULL_AGE
  }

  predicate FcPhase(c: Card, r: int) {
    if r <= 0 then c.state == Block
    else if r <= 9 then AtPhase(c, r - 1)
    else c.state == Forwarding && c.since <= r - 10
  }

  /** A fabric card knows the root LC since round 1, the root FC from round 8 on. */
  predicate FcGood(p: Plan, c: Card, r: int) {
    && FcPhase(c, r) && c.rootLc == p.lc && c.designBridge.Num() == p.lc && p.Has(c.rootPort)
    && (r >= 8 || c.us == p.fc ==> c.rootPort == p.fc)
  }

  predicate BpduGood(p: Plan, b: Bpdu, r: int) {
    && b.kind != LcChange && b.design.Num() == p.lc && p.Has(b.root.Num())
    && (FcNum(b.from) && r == 2 ==> NamesLiveDesign(b))
    && (b.from == p.fc ==> b.root.Num() == p.fc)
    && (LcNum(b.from) || r >= 8 ==> b.root.Num() == p.fc)
    && (LcNum(b.from) && r == 7 ==> NamesLiveRoot(b))
  }

  predicate SentGood(p: Plan, o: Out, r: int) {
    forall b :: b in o.sent ==> BpduGood(p, b, r)
  }

  // ---------------------------------------------------------- one card, later

  /** Converging never makes a table entry older. */
  lemma ConvergesKeepsAge(hw: Hardware, c: Card, b: Bpdu, i: nat)
    requires CardOk(hw, c) && BpduOk(hw, b) && SamePlane(c.us, b.from) && i < CARDS
    requires c.state == Listening || c.state == Learning
    ensures Age(LcConverges(c, b).card.exist, i) >= Age(c.exist, i)
    ensures Age(FcConverges(c, b).card.exist, i) >= Age(c.exist, i)
  {
    ConvergeTable(hw, c, b);
    MergeIsYoungest(hw, c, b);
  }

  lemma LcConvergesNames(hw: Hardware, p: Plan, c: Card, b: Bpdu, r: int)
    requires CardOk(hw, c) && BpduOk(hw, b) && SamePlane(c.us, b.from) && LcNum(c.us)
    requires p.Ok() && 2 <= r <= 13 && LcGood(p, c, r) && BpduGood(p, b, r) && FcNum(b.from)
    ensures var d := LcConverges(c, b).card;
            && AtPhase(d, r - 1) && d.us == c.us && p.Has(d.rootPort) && p.Has(d.rootLc)
            && (c.rootPort == p.fc ==> d.rootPort == p.fc) && (c.rootLc == p.lc ==> d.rootLc == p.lc)
  {
  }

  lemma LcConvergesGood(hw: Hardware, p: Plan, c: Card, b: Bpdu, r: int)
    requires CardOk(hw, c) && BpduOk(hw, b) && SamePlane(c.us, b.from) && LcNum(c.us)
    requires p.Ok() && 2 <= r <= 13 && LcGood(p, c, r) && BpduGood(p, b, r) && FcNum(b.from)
    ensures LcGood(p, LcConverges(c, b).card, r)
    ensures r == 2 && LcLearned(p, c) ==> LcLearned(p, LcConverges(c, b).card)
  {
    LcConvergesNames(hw, p, c, b, r);
    ConvergesKeepsAge(hw, c, b, p.fc - 1);
    LcConvergesOk(hw, c, b);
    assert SlotOk(hw, c.us, p.fc - 1, LcConverges(c, b).card.exist[p.fc - 1]);
  }

  lemma LcLearns(hw: Hardware, p: Plan, c: Card, b: Bpdu)
    requires CardOk(hw, c) && BpduOk(hw, b) && SamePlane(c.us, b.from) && LcNum(c.us)
    requires p.Ok() && LcGood(p, c, 2) && BpduGood(p, b, 2) && b.from == p.fc
    ensures LcLearned(p, LcConverges(c, b).card)
  {
    OwnAge(hw, b);
    ConvergeTable(hw, c, b);
    MergedAge(hw, c, b, b.from);
    assert SlotOk(hw, c.us, b.from - 1, c.exist[b.from - 1]);
    LcLearnsNames(p, c, b);
  }

  lemma LcLearnsNames(p: Plan, c: Card, b: Bpdu)
    requires p.Ok() && LcGood(p, c, 2) && BpduGood(p, b, 2) && b.from == p.fc && Age(b.exist, p.fc - 1) == FULL_AGE
    requires FcNum(c.rootPort) && LcNum(c.rootLc)
    requires c.rootPort == c.rootBridge.Num() && c.rootLc == c.designBridge.Num()
    ensures var d := LcConverges(c, b).card; d.rootPort == p.fc && d.rootLc == p.lc
  {
  }

  lemma OwnAge(hw: Hardware, b: Bpdu)
    requires BpduOk(hw, b)
    ensures Age(b.exist, b.from - 1) == FULL_AGE
  {
  }

  lemma LcForwardsGood(hw: Hardware, p: Plan, c: Card, b: Bpdu, r: int)
    requires CardOk(hw, c) && BpduOk(hw, b) && SamePlane(c.us, b.from) && LcNum(c.us)
    requires p.Ok() && r == 14 && LcGood(p, c, r) && BpduGood(p, b, r) && FcNum(b.from)
    ensures LcGood(p, LcForwards(c, b).card, r) && SentGood(p, LcForwards(c, b), r)
  {
  }

  lemma FcConvergesGood(hw: Hardware, p: Plan, c: Card, b: Bpdu, r: int)
    requires CardOk(hw, c) && BpduOk(hw, b) && SamePlane(c.us, b.from) && FcNum(c.us)
    requires p.Ok() && 2 <= r <= 9 && FcGood(p, c, r) && BpduGood(p, b, r) && LcNum(b.from)
    ensures FcGood(p, FcConverges(c, b).card, r)
    ensures r == 7 ==> FcConverges(c, b).card.rootPort == p.fc
  {
  }

  lemma FcForwardsGood(hw: Hardware, p: Plan, c: Card, b: Bpdu, r: int)
    requires CardOk(hw, c) && BpduOk(hw, b) && SamePlane(c.us, b.from) && FcNum(c.us)
    requires p.Ok() && 10 <= r <= 14 && FcGood(p, c, r) && BpduGood(p, b, r) && LcNum(b.from)
    ensures FcGood(p, FcForwards(c, b).card, r) && SentGood(p, FcForwards(c, b), r)
  {
  }

  predicate CardGood(p: Plan, c: Card, r: int) {
    if LcNum(c.us) then LcGood(p, c, r) else FcGood(p, c, r)
  }

  /** The card has learned, if the round is one in which its kind learns. */
  predicate Learned(p: Plan, c: Card, r: int) {
    (r == 2 && LcNum(c.us) ==> LcLearned(p, c)) && (r == 7 && FcNum(c.us) ==> c.rootPort == p.fc)
  }

  /** BPDU b is from the card's plane and is no repetition. */
  predicate Heeded(p: Plan, c: Card, b: Bpdu) {
    Upper(b.from) == p.upper && (b.from, b.kind) !in c.heard
  }

  /** Who each card learns from: a line card from the smallest fabric card, in
      round 2, and a fabric card from the smallest line card, in round 7. */
  function Teacher(p: Plan, n: nat): nat {
    if LcNum(n) then p.fc else p.lc
  }

  /** What one delivery does to a card of the plane. */
  predicate WellTaken(p: Plan, c: Card, b: Bpdu, o: Out, r: int) {
    && CardGood(p, o.card, r) && SentGood(p, o, r)
    && (Learned(p, c, r) || (Heeded(p, c, b) && b.from == Teacher(p, c.us)) ==> Learned(p, o.card, r))
  }

  lemma LcHearsGood(hw: Hardware, p: Plan, c: Card, b: Bpdu, r: int)
    requires CardOk(hw, c) && BpduOk(hw, b) && SamePlane(c.us, b.from) && LcNum(c.us) && FcNum(b.from)
    requires p.Ok() && 2 <= r <= 14 && LcGood(p, c, r) && BpduGood(p, b, r)
    ensures var o := LcHearsFc(c, b); LcGood(p, o.card, r) && SentGood(p, o, r) && o.card.us == c.us
    ensures r == 2 && (LcLearned(p, c) || b.from == p.fc) ==> LcLearned(p, LcHearsFc(c, b).card)
  {
    if r <= 13 { LcConvergesGood(hw, p, c, b, r); } else { LcForwardsGood(hw, p, c, b, r); }
    if r == 2 && b.from == p.fc { LcLearns(hw, p, c, b); }
  }

  lemma FcHearsGood(hw: Hardware, p: Plan, c: Card, b: Bpdu, r: int)
    requires CardOk(hw, c) && BpduOk(hw, b) && SamePlane(c.us, b.from) && FcNum(c.us) && LcNum(b.from)
    requires p.Ok() && 2 <= r <= 14 && FcGood(p, c, r) && BpduGood(p, b, r)
    ensures var o := FcHearsLc(c, b); FcGood(p, o.card, r) && SentGood(p, o, r) && o.card.us == c.us
    ensures r == 7 ==> FcHearsLc(c, b).card.rootPort == p.fc
  {
    if r <= 9 { FcConvergesGood(hw, p, c, b, r); } else { FcForwardsGood(hw, p, c, b, r); }
  }

  lemma RxHeeded(hw: Hardware, p: Plan, c: Card, b: Bpdu, r: int)
    requires CardOk(hw, c) && BpduOk(hw, b) && SamePlane(c.us, b.from) && LcNum(c.us) != LcNum(b.from)
    requires p.Ok() && 2 <= r <= 14 && CardGood(p, c, r) && BpduGood(p, b, r) && Fresh(c, b)
    ensures WellTaken(p, c, b, Rx(c, b), r)
  {
    hide LcHearsFc, FcHearsLc;
    var h := c.(heard := c.heard + [(b.from, b.kind)]);
    if LcNum(c.us) { LcHearsGood(hw, p, h, b, r); } else { FcHearsGood(hw, p, h, b, r); }
  }

  lemma RxGood(hw: Hardware, p: Plan, c: Card, b: Bpdu, r: int)
    requires CardOk(hw, c) && HeardOk(c) && BpduOk(hw, b) && Accepts(c.us, b.dst)
    requires p.Ok() && 2 <= r <= 14 && Upper(c.us) == p.upper && CardGood(p, c, r)
    requires Upper(b.from) == p.upper ==> BpduGood(p, b, r)
    ensures WellTaken(p, c, b, Rx(c, b), r)
  {
    HearsOtherGroup(c.us, b.from);
    NeverFull(c);
    if Heeded(p, c, b) {
      RxHeeded(hw, p, c, b, r);
    } else if Upper(b.from) != p.upper {
      ForeignRx(hw, c, b);
    }
  }

  lemma LcTickGood(hw: Hardware, p: Plan, c: Card, r: int)
    requires CardOk(hw, c) && p.Ok() && 2 <= r <= 14 && LcNum(c.us) && Upper(c.us) == p.upper
    requires LcGood(p, c, r - 1) && (r == 3 ==> LcLearned(p, c))
    ensures LcGood(p, Tick(c).card, r) && SentGood(p, Tick(c), r)
    ensures r == 7 ==> |Tick(c).sent| == 1 && Tick(c).sent[0].kind == Config
  {
  }

  lemma FcTickGood(hw: Hardware, p: Plan, c: Card, r: int)
    requires CardOk(hw, c) && p.Ok() && 2 <= r <= 14 && FcNum(c.us) && Upper(c.us) == p.upper
    requires FcGood(p, c, r - 1) && (r >= 8 ==> c.rootPort == p.fc)
    requires r == 2 ==> Age(c.exist, p.lc - 1) == FULL_AGE
    ensures FcGood(p, Tick(c).card, r) && SentGood(p, Tick(c), r)
    ensures r == 2 ==> |Tick(c).sent| == 1 && Tick(c).sent[0].kind == Config
  {
  }

  // ------------------------------------------------------ the chassis, later

  ghost predicate PlanFor(p: Plan, net: Net) {
    p.Ok() && p.live == net.cards.Keys
  }

  ghost predicate Base(hw: Hardware, p: Plan, net: Net) {
    NetOk(hw, net) && NetHeardOk(net) && PlanFor(p, net)
  }

  lemma BaseCard(hw: Hardware, p: Plan, net: Net, n: nat)
    requires Base(hw, p, net) && n in net.cards
    ensures CardOk(hw, net.cards[n]) && net.cards[n].us == n
  {
  }

  ghost predicate FlightGood(p: Plan, net: Net, r: int) {
    forall c :: c in net.flight && Upper(c.b.from) == p.upper ==> BpduGood(p, c.b, r)
  }

  ghost predicate CardsGood(p: Plan, net: Net, r: int) {
    forall n :: n in net.cards && p.Has(n) ==> CardGood(p, net.cards[n], r)
  }

  ghost predicate CardsLearn(p: Plan, net: Net, r: int) {
    forall n :: n in net.cards && p.Has(n) ==>
      Learned(p, net.cards[n], r) || Pending(net, n, Teacher(p, n), Config)
  }

  /** During round r. */
  ghost predicate Mid(hw: Hardware, p: Plan, net: Net, r: int) {
    && Base(hw, p, net)
    && CardsGood(p, net, r) && FlightGood(p, net, r) && CardsLearn(p, net, r)
  }

  /** After round r. */
  predicate CardDone(p: Plan, c: Card, r: int) {
    && CardGood(p, c, r) && Learned(p, c, r)
    && (r == 1 && FcNum(c.us) ==> Age(c.exist, p.lc - 1) == FULL_AGE)
  }

  ghost predicate End(hw: Hardware, p: Plan, net: Net, r: int) {
    && Base(hw, p, net) && net.flight == []
    && forall n :: n in net.cards && p.Has(n) ==> CardDone(p, net.cards[n], r)
  }

  lemma MidToEnd(hw: Hardware, p: Plan, net: Net, r: int)
    requires Mid(hw, p, net, r) && 2 <= r <= 14 && net.flight == []
    ensures End(hw, p, net, r)
  {
    forall n | n in net.cards && p.Has(n)
      ensures CardDone(p, net.cards[n], r)
    {
      assert !Pending(net, n, Teacher(p, n), Config);
    }
  }

  // ------------------------------------------------------------ round start

  /** A card that is done with round r - 1 starts round r. */
  lemma TickGood(hw: Hardware, p: Plan, c: Card, r: int)
    requires CardOk(hw, c) && p.Ok() && 2 <= r <= 14 && Upper(c.us) == p.upper && CardDone(p, c, r - 1)
    ensures CardGood(p, Tick(c).card, r) && SentGood(p, Tick(c), r)
    ensures (r == 2 && FcNum(c.us)) || (r == 7 && LcNum(c.us)) ==>
              |Tick(c).sent| == 1 && Tick(c).sent[0].kind == Config
  {
    if LcNum(c.us) { LcTickGood(hw, p, c, r); } else { FcTickGood(hw, p, c, r); }
  }

  /** The general form: every card does f. */
  lemma DoGood(f: Card -> Out, p: Plan, net: Net, ts: Order, r: int)
    requires net.flight == [] && Numbered(net)
    requires forall n :: n in net.cards ==> 1 <= n <= CARDS && forall b :: b in f(net.cards[n]).sent ==> b.from == n
    requires forall n :: n in net.cards && p.Has(n) ==>
               CardGood(p, f(net.cards[n]).card, r) && SentGood(p, f(net.cards[n]), r)
    requires p.live == net.cards.Keys && forall n :: n in net.cards ==> CpuA(n)
    ensures CardsGood(p, DoAll(f, net, ts), r) && FlightGood(p, DoAll(f, net, ts), r)
  {
    DoCards(f, net, ts);
    forall c | c in DoAll(f, net, ts).flight && Upper(c.b.from) == p.upper
      ensures BpduGood(p, c.b, r)
    {
      var n := DoOnly(f, net, ts, c);
      assert p.Has(n);
    }
  }

  lemma TickFrom(hw: Hardware, net: Net, n: nat)
    requires NetOk(hw, net) && n in net.cards
    ensures CpuA(n) && forall b :: b in Tick(net.cards[n]).sent ==> b.from == n
  {
    TickOk(hw, net.cards[n]);
  }

  lemma TicksFrom(hw: Hardware, net: Net)
    requires NetOk(hw, net)
    ensures forall n :: n in net.cards ==> CpuA(n) && forall b :: b in Tick(net.cards[n]).sent ==> b.from == n
  {
    forall n | n in net.cards
      ensures CpuA(n) && forall b :: b in Tick(net.cards[n]).sent ==> b.from == n
    {
      TickFrom(hw, net, n);
    }
  }

  lemma TicksGood(hw: Hardware, p: Plan, net: Net, r: int)
    requires End(hw, p, net, r - 1) && 2 <= r <= 14
    ensures forall n :: n in net.cards && p.Has(n) ==>
              CardGood(p, Tick(net.cards[n]).card, r) && SentGood(p, Tick(net.cards[n]), r)
  {
    forall n | n in net.cards && p.Has(n)
      ensures CardGood(p, Tick(net.cards[n]).card, r) && SentGood(p, Tick(net.cards[n]), r)
    {
      TickGood(hw, p, net.cards[n], r);
    }
  }

  lemma EndToGood(hw: Hardware, p: Plan, net: Net, ts: Order, r: int)
    requires End(hw, p, net, r - 1) && 2 <= r <= 14
    ensures CardsGood(p, AllTick(net, ts), r) && FlightGood(p, AllTick(net, ts), r)
  {
    hide CardGood, SentGood, BpduGood, CardDone;
    TicksFrom(hw, net);
    TicksGood(hw, p, net, r);
    DoGood(Tick, p, net, ts, r);
  }

  /** A BPDU that f sends is pending at a card of the plane of the other kind. */
  lemma DoPending(f: Card -> Out, net: Net, ts: Order, from: nat, to: nat, kind: Kind)
    requires from in net.cards && to in net.cards && SamePlane(from, to) && CpuA(from) && CpuA(to)
    requires LcNum(from) != LcNum(to)
    requires var s := f(net.cards[from]).sent;
             |s| == 1 && s[0].kind == kind && s[0].from == from && s[0].dst == DstMac(from)
    requires f(net.cards[to]).card.heard == []
    ensures Pending(DoAll(f, net, ts), to, from, kind)
  {
    HearsOtherGroup(to, from);
    DoReaches(f, net, ts, from, to);
    DoCards(f, net, ts);
    assert Of(Copy(to, f(net.cards[from]).sent[0]), to, from, kind);
  }

  lemma TickPending(hw: Hardware, net: Net, ts: Order, from: nat, to: nat)
    requires NetOk(hw, net) && from in net.cards && to in net.cards
    requires SamePlane(from, to) && LcNum(from) != LcNum(to)
    requires |Tick(net.cards[from]).sent| == 1 && Tick(net.cards[from]).sent[0].kind == Config
    ensures Pending(AllTick(net, ts), to, from, Config)
  {
    TickFrom(hw, net, from);
    TickFrom(hw, net, to);
    TickOk(hw, net.cards[from]);
    TickHeard(net.cards[to]);
    DoPending(Tick, net, ts, from, to, Config);
  }

  lemma TeacherPending(hw: Hardware, p: Plan, net: Net, ts: Order, n: nat, r: int)
    requires End(hw, p, net, r - 1) && n in net.cards && p.Has(n)
    requires (r == 2 && LcNum(n)) || (r == 7 && FcNum(n))
    ensures Pending(AllTick(net, ts), n, Teacher(p, n), Config)
  {
    TickGood(hw, p, net.cards[Teacher(p, n)], r);
    TickPending(hw, net, ts, Teacher(p, n), n);
  }

  lemma EndToLearn(hw: Hardware, p: Plan, net: Net, ts: Order, r: int)
    requires End(hw, p, net, r - 1) && 2 <= r <= 14
    requires NetOk(hw, AllTick(net, ts)) && AllTick(net, ts).cards.Keys == net.cards.Keys
    ensures CardsLearn(p, AllTick(net, ts), r)
  {
    forall n | n in AllTick(net, ts).cards && p.Has(n)
      ensures Learned(p, AllTick(net, ts).cards[n], r) || Pending(AllTick(net, ts), n, Teacher(p, n), Config)
    {
      if (r == 2 && LcNum(n)) || (r == 7 && FcNum(n)) {
        TeacherPending(hw, p, net, ts, n, r);
      }
    }
  }

  lemma EndToMid(hw: Hardware, p: Plan, net: Net, ts: Order, r: int)
    requires End(hw, p, net, r - 1) && 2 <= r <= 14
    ensures Mid(hw, p, AllTick(net, ts), r)
  {
    AllTickOk(hw, net, ts);
    DoCards(Tick, net, ts);
    EndToGood(hw, p, net, ts, r);
    EndToLearn(hw, p, net, ts, r);
  }

  // ------------------------------------------------------------- deliveries

  /** What is known of o, which the receiver of copy k did. */
  ghost predicate TakenWell(p: Plan, net: Net, k: nat, o: Out, r: int)
    requires k < |net.flight| && net.flight[k].to in net.cards
  {
    var c, d := net.flight[k], net.cards[net.flight[k].to];
    && HearsOnly(d, c, o) && d.us == o.card.us == c.to && (forall b :: b in o.sent ==> b.from == c.to)
    && (p.Has(c.to) ==> WellTaken(p, d, c.b, o, r))
  }

  lemma TookCards(p: Plan, net: Net, k: nat, o: Out, r: int)
    requires PlanFor(p, net) && k < |net.flight| && net.flight[k].to in net.cards && TakenWell(p, net, k, o, r)
    requires CardsGood(p, net, r)
    ensures CardsGood(p, Took(net, k, o), r)
  {
  }

  lemma TookFlight(p: Plan, net: Net, k: nat, o: Out, r: int)
    requires PlanFor(p, net) && k < |net.flight| && net.flight[k].to in net.cards && TakenWell(p, net, k, o, r)
    requires FlightGood(p, net, r) && CpuA(net.flight[k].to)
    ensures FlightGood(p, Took(net, k, o), r)
  {
    SendOnly(net.cards.Keys, o.sent);
    assert forall d :: d in Without(net.flight, k) ==> d in net.flight;
  }

  lemma TookLearn(p: Plan, net: Net, k: nat, o: Out, r: int)
    requires PlanFor(p, net) && k < |net.flight| && net.flight[k].to in net.cards && TakenWell(p, net, k, o, r)
    requires CardsLearn(p, net, r)
    ensures CardsLearn(p, Took(net, k, o), r)
  {
    var c := net.flight[k];
    forall n | n in Took(net, k, o).cards && p.Has(n)
      ensures Learned(p, Took(net, k, o).cards[n], r) || Pending(Took(net, k, o), n, Teacher(p, n), Config)
    {
      if Pending(net, n, Teacher(p, n), Config) && !Of(c, n, Teacher(p, n), Config) {
        PendingKept(net, k, o, n, Teacher(p, n), Config);
      }
    }
  }

  lemma RxHearsOnly(hw: Hardware, net: Net, k: nat)
    requires NetOk(hw, net) && NetHeardOk(net) && k < |net.flight| && net.flight[k].to in net.cards
    ensures var c := net.flight[k];
            var o := Rx(net.cards[c.to], c.b);
            HearsOnly(net.cards[c.to], c, o) && OutOk(hw, c.to, o)
  {
    var c := net.flight[k];
    assert CopyOk(hw, c);
    HearsOtherGroup(c.to, c.b.from);
    RxHeard(hw, net.cards[c.to], c.b);
    RxOk(hw, net.cards[c.to], c.b);
  }

  lemma TakenWellIf(hw: Hardware, p: Plan, net: Net, k: nat, o: Out, r: int)
    requires NetOk(hw, net) && k < |net.flight| && net.flight[k].to in net.cards
    requires var c := net.flight[k];
             && HearsOnly(net.cards[c.to], c, o) && OutOk(hw, c.to, o)
             && (p.Has(c.to) ==> WellTaken(p, net.cards[c.to], c.b, o, r))
    ensures TakenWell(p, net, k, o, r)
  {
  }

  lemma DeliverWellTaken(hw: Hardware, p: Plan, net: Net, k: nat, r: int)
    requires Base(hw, p, net) && CardsGood(p, net, r) && FlightGood(p, net, r) && 2 <= r <= 14
    requires k < |net.flight| && net.flight[k].to in net.cards && p.Has(net.flight[k].to)
    ensures var c := net.flight[k];
            WellTaken(p, net.cards[c.to], c.b, Rx(net.cards[c.to], c.b), r)
  {
    hide Rx, CardOk, WellTaken, CardGood, BpduGood;
    var c := net.flight[k];
    assert CopyOk(hw, c);
    RxGood(hw, p, net.cards[c.to], c.b, r);
  }

  lemma DeliverTakenWell(hw: Hardware, p: Plan, net: Net, k: nat, r: int)
    requires Base(hw, p, net) && CardsGood(p, net, r) && FlightGood(p, net, r) && 2 <= r <= 14
    requires k < |net.flight| && net.flight[k].to in net.cards
    ensures TakenWell(p, net, k, Rx(net.cards[net.flight[k].to], net.flight[k].b), r)
  {
    RxHearsOnly(hw, net, k);
    if p.Has(net.flight[k].to) {
      DeliverWellTaken(hw, p, net, k, r);
    }
    TakenWellIf(hw, p, net, k, Rx(net.cards[net.flight[k].to], net.flight[k].b), r);
  }

  lemma DeliverBase(hw: Hardware, p: Plan, net: Net, k: nat)
    requires Base(hw, p, net)
    ensures Base(hw, p, Apply(hw, net, Deliver(k)))
  {
    ApplyOk(hw, net, Deliver(k));
    ApplyHeard(hw, net, Deliver(k));
  }

  lemma DeliverIsTook(hw: Hardware, net: Net, k: nat)
    ensures Apply(hw, net, Deliver(k)) ==
            if k < |net.flight| && net.flight[k].to in net.cards
            then Took(net, k, Rx(net.cards[net.flight[k].to], net.flight[k].b)) else net
  {
  }

  /** Deliveries of the round keep what holds during it. */
  lemma DeliverMid(hw: Hardware, p: Plan, net: Net, k: nat, r: int)
    requires Mid(hw, p, net, r) && 2 <= r <= 14
    ensures Mid(hw, p, Apply(hw, net, Deliver(k)), r)
  {
    DeliverBase(hw, p, net, k);
    DeliverIsTook(hw, net, k);
    if k < |net.flight| && net.flight[k].to in net.cards {
      var o := Rx(net.cards[net.flight[k].to], net.flight[k].b);
      assert CopyOk(hw, net.flight[k]);
      DeliverTakenWell(hw, p, net, k, r);
      TookCards(p, net, k, o, r);
      TookFlight(p, net, k, o, r);
      TookLearn(p, net, k, o, r);
    }
  }

  ghost function MidOf(hw: Hardware, p: Plan, r: int): Net -> bool {
    x => Mid(hw, p, x, r)
  }

  ghost function EndOf(hw: Hardware, p: Plan, r: int): Net -> bool {
    x => End(hw, p, x, r)
  }

  lemma MidStable(hw: Hardware, p: Plan, r: int)
    requires 2 <= r <= 14
    ensures Stable(hw, MidOf(hw, p, r))
  {
    hide Mid;
    forall x: Net, k: nat | Mid(hw, p, x, r)
      ensures MidOf(hw, p, r)(Apply(hw, x, Deliver(k)))
    {
      DeliverMid(hw, p, x, k, r);
    }
  }

  lemma MidEnds(hw: Hardware, p: Plan, r: int)
    requires 2 <= r <= 14
    ensures EndsIn(MidOf(hw, p, r), EndOf(hw, p, r))
  {
    hide Mid, End;
    forall x: Net | Mid(hw, p, x, r) && x.flight == []
      ensures EndOf(hw, p, r)(x)
    {
      MidToEnd(hw, p, x, r);
    }
  }

  lemma MidStarts(hw: Hardware, p: Plan, net: Net, ts: Order, r: int)
    requires 2 <= r <= 14 && EndOf(hw, p, r - 1)(net)
    ensures MidOf(hw, p, r)(AllTick(net, ts))
  {
    EndToMid(hw, p, net, ts, r);
  }

  lemma MidRound(hw: Hardware, p: Plan, net: Net, l: Lockstep, after: Net, r: int)
    requires MidOf(hw, p, r)(AllTick(net, l.ticks)) && 2 <= r <= 14 && Round(hw, net, l, after)
    ensures EndOf(hw, p, r)(after)
  {
    MidStable(hw, p, r);
    MidEnds(hw, p, r);
    RoundKeeps(hw, MidOf(hw, p, r), EndOf(hw, p, r), net, l, after);
  }

  lemma LaterRound(hw: Hardware, p: Plan, net: Net, l: Lockstep, after: Net, r: int)
    requires EndOf(hw, p, r - 1)(net) && 2 <= r <= 14 && Round(hw, net, l, after)
    ensures EndOf(hw, p, r)(after)
  {
    MidStarts(hw, p, net, l.ticks, r);
    MidRound(hw, p, net, l, after, r);
  }
}
