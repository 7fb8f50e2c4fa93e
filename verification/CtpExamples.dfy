/**
 Reachable chassis: a plane in BLOCK whose fabric card is about to reset its board;
 and, where messages are lost or come in at the wrong time, a loop, a reselection
 that picks the line card that has stopped, a root fabric card that gives up, and two
 CONFIGs of which the first decides.
 */
module CtpExamples {
  import opened Ctp
  import opened CtpInvariant
  import opened CtpNet
  import opened CtpTiming
  import opened CtpTopology
  import opened CtpRounds
  import opened CtpConverge
  import opened CtpColdStart
  import opened CtpGossip
  import opened CtpReceive
  import opened CtpElection
  import opened CtpAnswers
  import opened CtpGiveUp

  // ------------------------------------------------- runs that lose messages

  lemma Applied(hw: Hardware, net: Net, e: Event)
    requires Reachable(hw, net)
    ensures Reachable(hw, Apply(hw, net, e))
  {
    var es :| net == Run(hw, EMPTY, es);
    RunAppend(hw, EMPTY, es, [e]);
    RunOne(hw, net, e);
  }

  lemma {:induction false} LoseFirst(hw: Hardware, net: Net, m: nat)
    requires Reachable(hw, net) && m <= |net.flight|
    ensures Reachable(hw, Net(net.cards, net.flight[m..]))
  {
    if m == 0 {
      assert net.flight[0..] == net.flight;
    } else {
      LoseFirst(hw, net, m - 1);
      var before := Net(net.cards, net.flight[m - 1..]);
      Applied(hw, before, Lose(0));
      assert Without(before.flight, 0) == net.flight[m..];
    }
  }

  /** Card n does o, and what was on its way before is lost. */
  function Then(cards: map<nat, Card>, n: nat, o: Out): Net {
    Net(cards[n := o.card], Send(cards.Keys, o.sent))
  }

  lemma Acts(hw: Hardware, net: Net, rest: seq<Copy>, n: nat, o: Out)
    requires Reachable(hw, Did(Net(net.cards, rest), n, o))
    ensures Reachable(hw, Then(net.cards, n, o))
  {
    var after := Did(Net(net.cards, rest), n, o);
    LoseFirst(hw, after, |rest|);
    assert after.flight[|rest|..] == Send(net.cards.Keys, o.sent);
  }

  lemma Ticks(hw: Hardware, net: Net, n: nat)
    requires Reachable(hw, net) && n in net.cards
    ensures Reachable(hw, Then(net.cards, n, Tick(net.cards[n])))
  {
    Applied(hw, net, TickCard(n));
    Acts(hw, net, net.flight, n, Tick(net.cards[n]));
  }

  lemma Gets(hw: Hardware, net: Net, c: Copy)
    requires Reachable(hw, net) && c in net.flight && c.to in net.cards
    ensures Reachable(hw, Then(net.cards, c.to, Rx(net.cards[c.to], c.b)))
  {
    var k :| 0 <= k < |net.flight| && net.flight[k] == c;
    Applied(hw, net, Deliver(k));
    Acts(hw, net, Without(net.flight, k), c.to, Rx(net.cards[c.to], c.b));
  }

  /** These cards can stand alone, with nothing on its way. */
  ghost predicate Quiet(hw: Hardware, cards: map<nat, Card>) {
    Reachable(hw, Net(cards, []))
  }

  lemma Hushed(hw: Hardware, net: Net)
    requires Reachable(hw, net)
    ensures Quiet(hw, net.cards)
  {
    LoseFirst(hw, net, |net.flight|);
    assert net.flight[|net.flight|..] == [];
  }

  lemma QuietStart(hw: Hardware, cards: map<nat, Card>, n: nat)
    requires Quiet(hw, cards) && CpuA(n) && n !in cards
    ensures Quiet(hw, cards[n := Boot(n, hw[n - 1])])
  {
    Applied(hw, Net(cards, []), Start(n));
  }

  /** The card is in BLOCK and has seen nothing. */
  predicate Asleep(c: Card) {
    c.state == Block && c.since == 0 && c.heard == []
  }

  lemma StartTwo(hw: Hardware, cards: map<nat, Card>, n: nat, m: nat) returns (after: map<nat, Card>)
    requires Quiet(hw, cards) && CpuA(n) && CpuA(m) && n != m && n !in cards && m !in cards
    ensures Quiet(hw, after) && after.Keys == cards.Keys + {n, m}
    ensures Asleep(after[n]) && Asleep(after[m])
    ensures forall k :: k in cards ==> after[k] == cards[k]
  {
    QuietStart(hw, cards, n);
    after := cards[n := Boot(n, hw[n - 1])];
    QuietStart(hw, after, m);
    after := after[m := Boot(m, hw[m - 1])];
  }

  lemma NothingYet(hw: Hardware)
    ensures Reachable(hw, EMPTY) && Quiet(hw, map[])
  {
    assert EMPTY == Run(hw, EMPTY, []);
  }

  lemma QuietOk(hw: Hardware, cards: map<nat, Card>, n: nat)
    requires Quiet(hw, cards) && n in cards
    ensures CardOk(hw, cards[n]) && cards[n].us == n
  {
    ReachableOk(hw, Net(cards, []));
  }

  lemma {:induction false} QuietTicks(hw: Hardware, cards: map<nat, Card>, n: nat, k: nat)
    requires Quiet(hw, cards) && n in cards
    ensures Quiet(hw, cards[n := Alone(cards[n], k)])
  {
    if k == 0 {
      assert cards[n := cards[n]] == cards;
    } else {
      QuietTicks(hw, cards, n, k - 1);
      var before := cards[n := Alone(cards[n], k - 1)];
      Ticks(hw, Net(before, []), n);
      Hushed(hw, Then(before, n, Tick(before[n])));
      assert before[n := Tick(before[n]).card] == cards[n := Alone(cards[n], k)];
    }
  }

  /** What a card of the same plane and the other kind says arrives. */
  lemma Arrives(hw: Hardware, cards: map<nat, Card>, n: nat, m: nat, o: Out)
    requires Reachable(hw, Then(cards, n, o)) && n in cards && m in cards && CpuA(n) && CpuA(m)
    requires SamePlane(n, m) && LcNum(n) != LcNum(m) && |o.sent| == 1 && BpduOk(hw, o.sent[0]) && o.sent[0].from == n
    ensures Reachable(hw, Then(cards[n := o.card], m, Rx(cards[m], o.sent[0])))
  {
    HearsOtherGroup(m, n);
    SendReaches(cards.Keys, o.sent, m);
    Gets(hw, Then(cards, n, o), Copy(m, o.sent[0]));
    assert cards[n := o.card].Keys == cards.Keys;
  }

  // ----------------------------------------------------------- a card's ticks

  /** Card d is card c, which left BLOCK just then, n ticks later. */
  predicate TicksLater(c: Card, d: Card, n: nat) {
    && d.us == c.us && d.rootPort == c.rootPort && d.rootLc == c.rootLc && d.designBridge == c.designBridge
    && (n > 0 ==> d.heard == [])
    && (if n < ConvergeTicks(c.IsLc()) then AtPhase(d, n)
        else d.state == Forwarding && d.since == n - ConvergeTicks(c.IsLc()))
  }

  lemma {:induction false} AloneTicks(c: Card, n: nat)
    requires CpuA(c.us) && AtPhase(c, 0) && (FcNum(c.us) ==> c.rootPort == c.us) && n <= 25
    requires LcNum(c.us) ==> c.rootPort != c.us
    ensures TicksLater(c, Alone(c, n), n)
  {
    hide CardOk;
    if n > 0 {
      AloneTicks(c, n - 1);
    }
  }

  lemma {:induction false} BlockedCounts(c: Card, n: nat)
    requires FcNum(c.us) && c.state == Block && c.since + n < MAX_AGE
    ensures var d := Alone(c, n); d.us == c.us && d.state == Block && d.since == c.since + n
  {
    if n > 0 {
      BlockedCounts(c, n - 1);
    }
  }

  // ------------------------------------------------------------ a lost round

  /** A fabric card alone for 14 ticks, and then a line card: the plane is in
      BLOCK with one card of each kind, and must wait for another round. */
  lemma LateStartReachable(hw: Hardware) returns (p: Plan, net: Net)
    ensures Reachable(hw, net) && BlockedPlane(p, net) && forall go :: !Starter(p, net, go)
  {
    NothingYet(hw);
    QuietStart(hw, map[], 33);
    var fc := Boot(33, hw[32]);
    QuietTicks(hw, map[33 := fc], 33, 14);
    BlockedCounts(fc, 14);
    var cards := map[33 := fc][33 := Alone(fc, 14)];
    QuietStart(hw, cards, 1);
    net := Net(cards[1 := Boot(1, hw[0])], []);
    p := Plan({1, 33}, true, 33, 1);
  }

  // ------------------------------------------------------------------ a loop

  /** A fabric card in BLOCK says CONFIG and names itself and no line card. */
  lemma BlockTick(hw: Hardware, c: Card)
    requires CardOk(hw, c) && FcNum(c.us) && c.state == Block && c.since + 1 < MAX_AGE
    ensures OutOk(hw, c.us, Tick(c)) && |Tick(c).sent| == 1
    ensures Tick(c).card == c.(since := c.since + 1, exist := Tick(c).card.exist, heard := [])
    ensures var b := Tick(c).sent[0]; b.kind == Config && b.root.Num() == c.us && b.design.Num() == 0
  {
    TickOk(hw, c);
  }

  /** A line card in BLOCK that hears such a CONFIG. */
  lemma WakesOn(hw: Hardware, c: Card, b: Bpdu)
    requires CardOk(hw, c) && LcNum(c.us) && c.state == Block && c.heard == [] && BpduOk(hw, b)
    requires SamePlane(c.us, b.from) && FcNum(b.from) && b.root.Num() == b.from && b.design.Num() == 0
    ensures OutOk(hw, c.us, Rx(c, b)) && |Rx(c, b).sent| == 1
    ensures var d := Rx(c, b).card; AtPhase(d, 0) && d.us == c.us && d.rootPort == b.from && d.rootLc == c.us
    ensures var r := Rx(c, b).sent[0];
            r.kind == Reply && r.design.Num() == c.us && r.root.Num() == b.from && Age(r.exist, b.from - 1) > 1
  {
    hide TableOk;
    RxOk(hw, c, b);
    OwnAge(hw, b);
    WakesAge(hw, c.(heard := [(b.from, b.kind)]), b);
  }

  /** The reply of a card that wakes holds the sender at nearly full age. */
  lemma WakesAge(hw: Hardware, c: Card, b: Bpdu)
    requires CardOk(hw, c) && LcNum(c.us) && c.state == Block && BpduOk(hw, b)
    requires SamePlane(c.us, b.from) && FcNum(b.from)
    ensures Age(LcWakes(c, b).sent[0].exist, b.from - 1) > 1
  {
    var e := EnterListening(c);
    ElectOk(hw, e, b);
    MergedFull(hw, LcElect(e, b), b);
  }

  /** Line card l is woken by fabric card f, and then hears nothing. */
  lemma WokenAlone(hw: Hardware, cards: map<nat, Card>, f: nat, l: nat) returns (after: map<nat, Card>)
    requires Quiet(hw, cards) && f in cards && l in cards && FcNum(f) && LcNum(l) && SamePlane(f, l)
    requires cards[f].state == Block && cards[f].since + 1 < MAX_AGE
    requires cards[l].state == Block && cards[l].heard == []
    ensures Quiet(hw, after) && after.Keys == cards.Keys && Designated(Net(after, []), l)
    ensures after[f].state == Block && after[f].since == cards[f].since + 1
    ensures forall n :: n in cards && n != f && n != l ==> after[n] == cards[n]
  {
    hide Reachable, CardOk, BpduOk, Tick, Rx, AtPhase, Designated;
    QuietOk(hw, cards, f);
    QuietOk(hw, cards, l);
    BlockTick(hw, cards[f]);
    var o := Tick(cards[f]);
    Ticks(hw, Net(cards, []), f);
    WakesOn(hw, cards[l], o.sent[0]);
    Arrives(hw, cards, f, l, o);
    after := Awoken(hw, cards[f := o.card], l, Rx(cards[l], o.sent[0]));
  }

  /** Line card l did o and left BLOCK, holding itself to be root LC. */
  lemma Awoken(hw: Hardware, mid: map<nat, Card>, l: nat, o: Out) returns (after: map<nat, Card>)
    requires Reachable(hw, Then(mid, l, o)) && l in mid && LcNum(l) && AtPhase(o.card, 0)
    requires o.card.us == o.card.rootLc == l != o.card.rootPort
    ensures Quiet(hw, after) && after.Keys == mid.Keys && Designated(Net(after, []), l)
    ensures forall n :: n in mid && n != l ==> after[n] == mid[n]
  {
    hide Reachable, AtPhase, Designated;
    Hushed(hw, Then(mid, l, o));
    after := LeftAlone(hw, mid[l := o.card], l);
  }

  lemma LeftAlone(hw: Hardware, cards: map<nat, Card>, l: nat) returns (after: map<nat, Card>)
    requires Quiet(hw, cards) && l in cards && LcNum(l) && AtPhase(cards[l], 0)
    requires cards[l].us == cards[l].rootLc == l != cards[l].rootPort
    ensures Quiet(hw, after) && after.Keys == cards.Keys && Designated(Net(after, []), l)
    ensures forall n :: n in cards && n != l ==> after[n] == cards[n]
  {
    QuietTicks(hw, cards, l, 13);
    AloneTicks(cards[l], 13);
    after := cards[l := Alone(cards[l], 13)];
  }

  /** Two line cards that a fabric card woke, and that heard of nothing since,
      forward on all uplinks, and fabric cards in BLOCK have all ports open. */
  lemma LoopReachable(hw: Hardware) returns (net: Net)
    ensures Reachable(hw, net) && HasCycle(net, true)
  {
    var cards := FourCards(hw);
    var c1 := WokenAlone(hw, cards, 33, 1);
    var c3 := WokenAlone(hw, c1, 33, 3);
    net := Net(c3, []);
    assert OpenSquare(net, true, 1, 3, 33, 35);
    LoopIffWideOpen(hw, net, true);
  }

  lemma FourCards(hw: Hardware) returns (cards: map<nat, Card>)
    ensures Quiet(hw, cards) && cards.Keys == {1, 3, 33, 35}
    ensures forall n :: n in cards ==> Asleep(cards[n])
  {
    NothingYet(hw);
    cards := StartTwo(hw, map[], 1, 3);
    cards := StartTwo(hw, cards, 33, 35);
  }

  // --------------------------------------------------- a stopped card picked

  /** A fabric card in BLOCK that hears the reply of a line card it woke. */
  lemma WakesBack(hw: Hardware, c: Card, b: Bpdu)
    requires CardOk(hw, c) && FcNum(c.us) && c.state == Block && c.heard == [] && BpduOk(hw, b)
    requires SamePlane(c.us, b.from) && LcNum(b.from) && b.root.Num() == c.us && b.design.Num() == b.from
    ensures OutOk(hw, c.us, Rx(c, b))
    ensures var d := Rx(c, b).card; AtPhase(d, 0) && d.us == d.rootPort == c.us && d.rootLc == b.from
                                    && d.designBridge.Num() == b.from
  {
    RxOk(hw, c, b);
    OwnAge(hw, b);
  }

  /** Line card l and fabric card f have woken each other. */
  lemma WokenPair(hw: Hardware, f: nat, l: nat) returns (cards: map<nat, Card>)
    requires FcNum(f) && LcNum(l) && SamePlane(f, l)
    ensures Quiet(hw, cards) && cards.Keys == {f, l} && AtPhase(cards[f], 0) && AtPhase(cards[l], 0)
    ensures cards[f].us == cards[f].rootPort == cards[l].rootPort == f && cards[l].us == l
    ensures cards[f].rootLc == cards[f].designBridge.Num() == l
  {
    hide Reachable, CardOk, BpduOk, Tick, Rx, AtPhase;
    NothingYet(hw);
    var both := StartTwo(hw, map[], l, f);
    QuietOk(hw, both, f);
    QuietOk(hw, both, l);
    BlockTick(hw, both[f]);
    Ticks(hw, Net(both, []), f);
    var config := Tick(both[f]);
    WakesOn(hw, both[l], config.sent[0]);
    Arrives(hw, both, f, l, config);
    cards := WokenBack(hw, both[f := config.card], f, l, Rx(both[l], config.sent[0]));
  }

  /** The reply o of line card l wakes fabric card f. */
  lemma WokenBack(hw: Hardware, mid: map<nat, Card>, f: nat, l: nat, o: Out) returns (cards: map<nat, Card>)
    requires Reachable(hw, Then(mid, l, o)) && FcNum(f) && LcNum(l) && SamePlane(f, l) && mid.Keys == {f, l}
    requires CardOk(hw, mid[f]) && mid[f].us == f && mid[f].state == Block && mid[f].heard == []
    requires OutOk(hw, l, o) && |o.sent| == 1 && o.sent[0].root.Num() == f && o.sent[0].design.Num() == l
    ensures Quiet(hw, cards) && cards.Keys == {f, l} && cards[l] == o.card && AtPhase(cards[f], 0)
    ensures cards[f].us == cards[f].rootPort == f && cards[f].rootLc == cards[f].designBridge.Num() == l
  {
    WakesBack(hw, mid[f], o.sent[0]);
    Arrives(hw, mid, l, f, o);
    var woken := Rx(mid[f], o.sent[0]);
    cards := mid[l := o.card][f := woken.card];
    Hushed(hw, Then(mid[l := o.card], f, woken));
  }

  /** A forwarding line card answers a CONFIG with a REPLY. */
  lemma Replies(hw: Hardware, c: Card, b: Bpdu)
    requires CardOk(hw, c) && LcNum(c.us) && c.state == Forwarding && c.heard == [] && BpduOk(hw, b)
    requires SamePlane(c.us, b.from) && FcNum(b.from) && b.kind == Config
    ensures OutOk(hw, c.us, Rx(c, b)) && |Rx(c, b).sent| == 1 && Rx(c, b).sent[0].kind == Reply
  {
    RxOk(hw, c, b);
  }

  /** A forwarding fabric card takes the ages from a REPLY and nothing else. */
  lemma TakesAges(hw: Hardware, c: Card, b: Bpdu)
    requires CardOk(hw, c) && FcNum(c.us) && c.state == Forwarding && c.heard == [] && BpduOk(hw, b)
    requires SamePlane(c.us, b.from) && LcNum(b.from) && b.kind == Reply
    ensures var d := Rx(c, b).card; d == c.(exist := d.exist, heard := d.heard) && Age(d.exist, b.from - 1) == FULL_AGE
  {
    MergedFull(hw, c.(heard := [(b.from, b.kind)]), b);
  }

  /** When its clock has run out, a root FC picks line card 1 if that is recent
      enough, even where it is the lost root LC. */
  lemma PicksFirst(hw: Hardware, c: Card)
    requires CardOk(hw, c) && RootFc(c) && c.since == MAX_AGE + 1
    requires c.rootLc == c.designBridge.Num() == 1 && Age(c.exist, 0) >= SELECT_AGE
    ensures RootFc(Tick(c).card) && Tick(c).card.designBridge.Num() == 1 && Tick(c).card.rootLc == 0
  {
    var h := c.(heard := []);
    PicksAgainIff(hw, h);
    assert Tick(c) == RootTick(h);
    var s := Reselect(h, h.rootLc).0;
    assert RootTick(h) == Tx(s.(since := 0), Hello);
  }

  /** A root FC whose HELLOs were lost, and which has just heard a REPLY of its
      root LC meant for another fabric card. */
  lemma UnansweredRoot(hw: Hardware) returns (cards: map<nat, Card>)
    ensures Quiet(hw, cards) && cards.Keys == {1, 33, 35}
    ensures var c := cards[33]; RootFc(c) && c.since == MAX_AGE + 1
                                && c.rootLc == c.designBridge.Num() == 1 && Age(c.exist, 0) == FULL_AGE
  {
    hide Reachable, CardOk, Tick, Rx;
    var pair := WokenPair(hw, 33, 1);
    QuietTicks(hw, pair, 33, 25);
    AloneTicks(pair[33], 25);
    var cards1 := pair[33 := Alone(pair[33], 25)];
    QuietTicks(hw, cards1, 1, 25);
    AloneTicks(pair[1], 25);
    var cards2 := cards1[1 := Alone(pair[1], 25)];
    QuietStart(hw, cards2, 35);
    cards := ThirdCard(hw, cards2[35 := Boot(35, hw[34])]);
  }

  /** The CONFIG of fabric card 35 makes line card 1 reply, and 33 hears it. */
  lemma ThirdCard(hw: Hardware, cards: map<nat, Card>) returns (after: map<nat, Card>)
    requires Quiet(hw, cards) && cards.Keys == {1, 33, 35} && cards[35] == Boot(35, hw[34])
    requires forall n :: n == 1 || n == 33 ==> cards[n].state == Forwarding && cards[n].heard == []
    ensures Quiet(hw, after) && after.Keys == cards.Keys && Age(after[33].exist, 0) == FULL_AGE
    ensures after[33] == cards[33].(exist := after[33].exist, heard := after[33].heard)
  {
    hide Reachable, BpduOk, Tick, Rx;
    QuietOk(hw, cards, 1);
    QuietOk(hw, cards, 33);
    QuietOk(hw, cards, 35);
    BlockTick(hw, cards[35]);
    Ticks(hw, Net(cards, []), 35);
    var config := Tick(cards[35]);
    Replies(hw, cards[1], config.sent[0]);
    Arrives(hw, cards, 35, 1, config);
    var reply := Rx(cards[1], config.sent[0]);
    var mid := cards[35 := config.card];
    Arrives(hw, mid, 1, 33, reply);
    TakesAges(hw, cards[33], reply.sent[0]);
    var taken := Rx(cards[33], reply.sent[0]);
    after := mid[1 := reply.card][33 := taken.card];
    Hushed(hw, Then(mid[1 := reply.card], 33, taken));
  }

  /** A reachable chassis in which the root LC has stopped, the root FC's clock
      has run out, and its reselection picks the stopped card again. */
  lemma StoppedIsPicked(hw: Hardware) returns (net: Net)
    ensures Reachable(hw, net) && 33 in net.cards && 1 !in net.cards
    ensures var c := net.cards[33]; RootFc(c) && c.since == MAX_AGE + 1 && c.designBridge.Num() == 1
    ensures var d := Tick(net.cards[33]).card; RootFc(d) && d.designBridge.Num() == 1
  {
    var cards := UnansweredRoot(hw);
    Applied(hw, Net(cards, []), Stop(1));
    net := Net(cards - {1}, []);
    QuietOk(hw, cards, 33);
    PicksFirst(hw, cards[33]);
  }

  // ------------------------------------------------------------ a root gives up

  /** 9 ticks to FORWARDING and 16 more without an answer: no line card is left that
      was heard recently. */
  lemma LonelyQuits(hw: Hardware, c: Card)
    requires CardOk(hw, Alone(c, 9)) && RootFc(Alone(c, 9)) && Alone(c, 9).since == 0
    ensures RootFc(Alone(c, 25)) && Quits(Alone(c, 25))
  {
    hide Tick, CardOk, Alone;
    FullAgeBound(hw, Alone(c, 9));
    AloneSplit(c, 9, 16);
    RootCounts(Alone(c, 9), 16, 16);
  }

  /** Fabric card 33 and line card 1 forward, but the line card's REPLYs were lost: the
      root FC gives up on its next tick, and the line card will hear of it. */
  lemma GiveUpReachable(hw: Hardware) returns (p: Plan, net: Net)
    ensures Reachable(hw, net) && GivingUp(hw, p, 33, net) && PassesOn(p, net)
  {
    hide Reachable, CardOk, Tick, Alone, Quits, NetOk, NetHeardOk, NetPortsOk;
    var pair := WokenPair(hw, 33, 1);
    QuietTicks(hw, pair, 33, 9);
    AloneTicks(pair[33], 9);
    QuietOk(hw, pair[33 := Alone(pair[33], 9)], 33);
    LonelyQuits(hw, pair[33]);
    QuietTicks(hw, pair, 33, 25);
    AloneTicks(pair[33], 25);
    var cards := pair[33 := Alone(pair[33], 25)];
    QuietTicks(hw, cards, 1, 25);
    AloneTicks(pair[1], 25);
    net := Net(cards[1 := Alone(pair[1], 25)], []);
    p := Plan({1, 33}, true, 33, 1);
    ReachableKeeps(hw, net);
    assert net.cards.Keys == {1, 33};
    assert p.Has(1) && !RunsOut(net.cards[1]);
  }

  // ------------------------------------------------ the first of two decides

  /** A fabric card in BLOCK that hears a line card name another fabric card, as
      live and smaller than itself. */
  lemma WakesUnder(hw: Hardware, c: Card, b: Bpdu)
    requires CardOk(hw, c) && FcNum(c.us) && c.state == Block && c.heard == [] && BpduOk(hw, b)
    requires SamePlane(c.us, b.from) && LcNum(b.from) && b.design.Num() == b.from
    requires NamesLiveRoot(b) && b.root.Num() < c.us && Age(b.exist, b.root.Num() - 1) > 1
    ensures OutOk(hw, c.us, Rx(c, b)) && Rx(c, b).sent == []
    ensures var d := Rx(c, b).card;
            && AtPhase(d, 0) && d.rootPort == b.root.Num() && d.rootLc == b.from
            && Age(d.exist, b.root.Num() - 1) > 1
  {
    hide TableOk, MergeFrom;
    RxOk(hw, c, b);
    OwnAge(hw, b);
    var h := c.(heard := [(b.from, b.kind)]);
    TwiceMerged(hw, h, b);
    MergedAge(hw, h, b, b.root.Num());
  }

  /** Fabric card 35 ticks, hears line card 1 name 33, and ticks again: both its
      CONFIGs are on their way to line card 3, which has heard nothing yet, and
      whichever comes first decides. */
  lemma FirstOfTwoReachable(hw: Hardware) returns (net: Net, a: Bpdu, b: Bpdu)
    ensures Reachable(hw, net) && 3 in net.cards && Copy(3, a) in net.flight && Copy(3, b) in net.flight
    ensures a.from == b.from == 35 && a.kind == b.kind == Config
    ensures Rx(Rx(net.cards[3], a).card, b).card.rootPort == 35
    ensures Rx(Rx(net.cards[3], b).card, a).card.rootPort == 33
  {
    hide Reachable, CardOk, BpduOk, Tick, Rx, Accepts;
    var cards := FourCards(hw);
    var mid, reply := ReplyToFirst(hw, cards);
    net, a, b := TwoConfigs(hw, mid, reply);
    QuietOk(hw, cards, 3);
    TwoDecide(hw, net.cards[3], a, b);
  }

  /** Line card 1 replies to the CONFIG of fabric card 33. */
  lemma ReplyToFirst(hw: Hardware, cards: map<nat, Card>) returns (net: Net, reply: Bpdu)
    requires Quiet(hw, cards) && cards.Keys == {1, 3, 33, 35} && forall n :: n in cards ==> Asleep(cards[n])
    ensures Reachable(hw, net) && net.cards.Keys == cards.Keys && Copy(35, reply) in net.flight
    ensures net.cards[3] == cards[3] && net.cards[35] == cards[35]
    ensures BpduOk(hw, reply) && reply.from == reply.design.Num() == 1 && reply.root.Num() == 33
    ensures reply.kind == Reply && Age(reply.exist, 32) > 1
  {
    hide Reachable, CardOk, BpduOk, Tick, Rx, Accepts;
    QuietOk(hw, cards, 33);
    QuietOk(hw, cards, 1);
    BlockTick(hw, cards[33]);
    var o := Tick(cards[33]);
    Ticks(hw, Net(cards, []), 33);
    WakesOn(hw, cards[1], o.sent[0]);
    Arrives(hw, cards, 33, 1, o);
    var p := Rx(cards[1], o.sent[0]);
    net, reply := Then(cards[33 := o.card], 1, p), p.sent[0];
    GroupsHear(hw, reply, 35);
    SendReaches(cards[33 := o.card].Keys, p.sent, 35);
  }

  lemma GroupsHear(hw: Hardware, b: Bpdu, n: nat)
    requires BpduOk(hw, b) && CpuA(n) && SamePlane(n, b.from) && LcNum(n) != LcNum(b.from)
    ensures Accepts(n, b.dst)
  {
    HearsOtherGroup(n, b.from);
  }

  /** The card ticks, and what it says is on its way to card m; nothing is lost. */
  lemma TicksOn(hw: Hardware, net: Net, n: nat, m: nat) returns (after: Net)
    requires Reachable(hw, net) && n in net.cards && m in net.cards && CpuA(m) && |Tick(net.cards[n]).sent| == 1
    requires var b := Tick(net.cards[n]).sent[0];
             BpduOk(hw, b) && SamePlane(m, b.from) && LcNum(m) != LcNum(b.from)
    ensures Reachable(hw, after) && after.cards == net.cards[n := Tick(net.cards[n]).card]
    ensures Copy(m, Tick(net.cards[n]).sent[0]) in after.flight && forall c :: c in net.flight ==> c in after.flight
  {
    hide Reachable, BpduOk, Tick, Accepts;
    Applied(hw, net, TickCard(n));
    after := Did(net, n, Tick(net.cards[n]));
    GroupsHear(hw, Tick(net.cards[n]).sent[0], m);
    SendReaches(net.cards.Keys, Tick(net.cards[n]).sent, m);
  }

  lemma TwoConfigs(hw: Hardware, mid: Net, reply: Bpdu) returns (net: Net, a: Bpdu, b: Bpdu)
    requires Reachable(hw, mid) && mid.cards.Keys == {1, 3, 33, 35} && Copy(35, reply) in mid.flight
    requires Asleep(mid.cards[3]) && Asleep(mid.cards[35])
    requires BpduOk(hw, reply) && reply.from == reply.design.Num() == 1 && reply.root.Num() == 33
    requires reply.kind == Reply && Age(reply.exist, 32) > 1
    ensures Reachable(hw, net) && 3 in net.cards && net.cards[3] == mid.cards[3]
    ensures Copy(3, a) in net.flight && Copy(3, b) in net.flight
    ensures Config35(hw, a, 35) && Config35(hw, b, 33)
  {
    hide Reachable, CardOk, BpduOk, Tick, Rx, Accepts, AtPhase;
    ReachableOk(hw, mid);
    OkCard35(hw, mid);
    var c := mid.cards[35];
    BlockTick(hw, c);
    a := Tick(c).sent[0];
    OwnAge(hw, a);
    var n1 := TicksOn(hw, mid, 35, 3);
    var d := Tick(c).card;
    WakesUnder(hw, d, reply);
    var n2 := HeardBy35(hw, n1, Copy(35, reply), Copy(3, a));
    var e := Rx(d, reply).card;
    ListeningTick(hw, e);
    b := Tick(e).sent[0];
    net := TicksOn(hw, n2, 35, 3);
  }

  lemma OkCard35(hw: Hardware, net: Net)
    requires NetOk(hw, net) && 35 in net.cards
    ensures CardOk(hw, net.cards[35]) && net.cards[35].us == 35
  {
  }

  /** A CONFIG of fabric card 35 that names root FC m as live. */
  predicate Config35(hw: Hardware, b: Bpdu, m: nat) {
    b.from == 35 && b.kind == Config && b.root.Num() == m && BpduOk(hw, b) && Age(b.exist, m - 1) > 0
  }

  /** Card 35 takes copy c and says nothing; copy d stays on its way. */
  lemma HeardBy35(hw: Hardware, net: Net, c: Copy, d: Copy) returns (after: Net)
    requires Reachable(hw, net) && c in net.flight && d in net.flight && c != d && c.to == 35 && 35 in net.cards
    requires Rx(net.cards[35], c.b).sent == []
    ensures Reachable(hw, after) && after.cards == net.cards[35 := Rx(net.cards[35], c.b).card] && d in after.flight
  {
    hide Reachable, Rx;
    var k :| 0 <= k < |net.flight| && net.flight[k] == c;
    Applied(hw, net, Deliver(k));
    WithoutOther(net.flight, k, d);
    after := Apply(hw, net, Deliver(k));
  }

  /** A fabric card in LISTENING says CONFIG and names the roots it holds. */
  lemma ListeningTick(hw: Hardware, c: Card)
    requires CardOk(hw, c) && c.us == 35 && AtPhase(c, 0) && c.rootPort == 33 && Age(c.exist, 32) > 1
    ensures |Tick(c).sent| == 1 && Config35(hw, Tick(c).sent[0], 33)
  {
    TickOk(hw, c);
  }

  lemma TwoDecide(hw: Hardware, c: Card, a: Bpdu, b: Bpdu)
    requires CardOk(hw, c) && c.us == 3 && Asleep(c) && Config35(hw, a, 35) && Config35(hw, b, 33)
    ensures Rx(Rx(c, a).card, b).card.rootPort == 35 && Rx(Rx(c, b).card, a).card.rootPort == 33
  {
    hide Rx;
    ElectingIsConsistent(hw, c);
    assert [a][0] == a && [b][0] == b;
    SwapOne(c, a, b);
    SwapOne(c, b, a);
  }
}
