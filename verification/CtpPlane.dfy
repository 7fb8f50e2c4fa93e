/**
 Each plane behaves as if the other one were not there: what a run of the whole
 chassis does to the cards of a plane, some run of that plane alone does too.
 */
module CtpPlane {
  import opened Ctp
  import opened CtpInvariant
  import opened CtpNet
  import opened CtpReceive
  import opened Sequences

  // -------------------------------------------------------------- projection

  /** The heard pairs whose sender is in the plane of card us. */
  function OwnHeard(us: nat, h: seq<(nat, Kind)>): seq<(nat, Kind)> {
    if h == [] then []
    else OwnHeard(us, h[..|h| - 1]) + if SamePlane(us, h[|h| - 1].0) then [h[|h| - 1]] else []
  }

  function OwnCard(c: Card): Card {
    c.(heard := OwnHeard(c.us, c.heard))
  }

  predicate Inside(c: Copy, upper: bool) {
    Upper(c.to) == upper && Upper(c.b.from) == upper
  }

  /** The copies that stay within the plane. */
  function OwnFlight(s: seq<Copy>, upper: bool): seq<Copy> {
    if s == [] then [] else (if Inside(s[0], upper) then [s[0]] else []) + OwnFlight(s[1..], upper)
  }

  function OwnCards(cards: map<nat, Card>, upper: bool): map<nat, Card> {
    map n | n in cards && Upper(n) == upper :: OwnCard(cards[n])
  }

  function Project(net: Net, upper: bool): Net {
    Net(OwnCards(net.cards, upper), OwnFlight(net.flight, upper))
  }

  // ------------------------------------------------------------------ flight

  lemma {:induction false} OwnFlightAppend(s: seq<Copy>, t: seq<Copy>, upper: bool)
    ensures OwnFlight(s + t, upper) == OwnFlight(s, upper) + OwnFlight(t, upper)
  {
    if s == [] {
      assert s + t == t;
    } else {
      assert (s + t)[0] == s[0] && (s + t)[1..] == s[1..] + t;
      OwnFlightAppend(s[1..], t, upper);
      Regroup(if Inside(s[0], upper) then [s[0]] else [], OwnFlight(s[1..], upper), OwnFlight(t, upper));
    }
  }

  lemma OwnFlightWithout(s: seq<Copy>, k: nat, upper: bool)
    requires k < |s|
    ensures var o, i := OwnFlight(s, upper), |OwnFlight(s[..k], upper)|;
            if Inside(s[k], upper) then i < |o| && o[i] == s[k] && OwnFlight(Without(s, k), upper) == Without(o, i)
            else OwnFlight(Without(s, k), upper) == o
  {
    var a, b := s[..k], s[k + 1..];
    assert s == a + ([s[k]] + b);
    OwnFlightAppend(a, [s[k]] + b, upper);
    OwnFlightAppend([s[k]], b, upper);
    OwnFlightAppend(a, b, upper);
    assert [s[k]][1..] == [];
    assert OwnFlight([s[k]], upper) == if Inside(s[k], upper) then [s[k]] else [];
  }

  lemma OwnFlightOne(s: seq<Copy>, upper: bool)
    requires |s| <= 1
    ensures OwnFlight(s, upper) == if |s| == 1 && Inside(s[0], upper) then s else []
  {
    assert |s| == 1 ==> s[1..] == [];
  }

  lemma {:induction false} OwnFlightSendTo(live: set<nat>, own: set<nat>, b: Bpdu, n: nat, upper: bool)
    requires forall m :: m in own <==> m in live && Upper(m) == upper
    ensures OwnFlight(SendTo(live, b, n), upper) == if Upper(b.from) == upper then SendTo(own, b, n) else []
  {
    if n > 0 {
      OwnFlightSendTo(live, own, b, n - 1, upper);
      var last := if n in live && Accepts(n, b.dst) then [Copy(n, b)] else [];
      OwnFlightAppend(SendTo(live, b, n - 1), last, upper);
      OwnFlightOne(last, upper);
    }
  }

  lemma {:induction false} OwnFlightSend(live: set<nat>, own: set<nat>, bs: seq<Bpdu>, us: nat, upper: bool)
    requires forall m :: m in own <==> m in live && Upper(m) == upper
    requires forall k :: 0 <= k < |bs| ==> bs[k].from == us
    ensures OwnFlight(Send(live, bs), upper) == if Upper(us) == upper then Send(own, bs) else []
  {
    if bs != [] {
      OwnFlightSendTo(live, own, bs[0], CARDS, upper);
      OwnFlightSend(live, own, bs[1..], us, upper);
      OwnFlightAppend(SendTo(live, bs[0], CARDS), Send(live, bs[1..]), upper);
    }
  }

  // ------------------------------------------------------------------- cards

  lemma {:induction false} OwnHeardMember(us: nat, h: seq<(nat, Kind)>, p: (nat, Kind))
    ensures p in OwnHeard(us, h) <==> p in h && SamePlane(us, p.0)
    ensures |OwnHeard(us, h)| <= |h|
  {
    if h != [] {
      OwnHeardMember(us, h[..|h| - 1], p);
      assert h == h[..|h| - 1] + [h[|h| - 1]];
    }
  }

  lemma OwnHeardAppend(us: nat, h: seq<(nat, Kind)>, p: (nat, Kind))
    ensures OwnHeard(us, h + [p]) == OwnHeard(us, h) + if SamePlane(us, p.0) then [p] else []
  {
    assert (h + [p])[..|h|] == h;
  }

  /** No operation but the receive-interval check looks at the heard pairs. */
  predicate Commutes(f: (Card, Bpdu) -> Out, c: Card, b: Bpdu, h: seq<(nat, Kind)>) {
    f(c.(heard := h), b) == Out(f(c, b).card.(heard := h), f(c, b).sent)
  }

  lemma LcWakesCommutes(c: Card, b: Bpdu, h: seq<(nat, Kind)>)
    ensures Commutes(LcWakes, c, b, h)
  {
    var d := c.(heard := h);
    assert EnterListening(d) == EnterListening(c).(heard := h);
    assert UpdateLcRoot(EnterListening(d), b) == UpdateLcRoot(EnterListening(c), b).(heard := h);
  }

  lemma LcConvergesCommutes(c: Card, b: Bpdu, h: seq<(nat, Kind)>)
    ensures Commutes(LcConverges, c, b, h)
  {
  }

  lemma FcConvergesCommutes(c: Card, b: Bpdu, h: seq<(nat, Kind)>)
    ensures Commutes(FcWakes, c, b, h) && Commutes(FcConverges, c, b, h)
  {
    hide MergeFrom;
    var d := c.(heard := h);
    assert EnterListening(d) == EnterListening(c).(heard := h);
    assert UpdateFcDesignated(EnterListening(d), b) == UpdateFcDesignated(EnterListening(c), b).(heard := h);
  }

  lemma SyncCommutes(c: Card, b: Bpdu, h: seq<(nat, Kind)>)
    ensures SyncToHello(c.(heard := h), b) == SyncToHello(c, b).(heard := h)
  {
  }

  lemma HelloCommutes(c: Card, b: Bpdu, h: seq<(nat, Kind)>)
    ensures Commutes(LcHello, c, b, h) && Commutes(FcHello, c, b, h)
  {
    SyncCommutes(c.(since := 0), b, h);
  }

  lemma ChangedCommutes(c: Card, b: Bpdu, h: seq<(nat, Kind)>)
    ensures Commutes(FcChanged, c, b, h)
  {
    assert Reselect(c.(heard := h), b.design.Num()).0 == Reselect(c, b.design.Num()).0.(heard := h);
  }

  lemma LcForwardsCommutes(c: Card, b: Bpdu, h: seq<(nat, Kind)>)
    ensures Commutes(LcForwards, c, b, h)
  {
    hide MergeFrom;
    var m, n := Merged(c, b), Merged(c.(heard := h), b);
    assert n == m.(heard := h);
    HelloCommutes(m, b, h);
  }

  lemma FcForwardsCommutes(c: Card, b: Bpdu, h: seq<(nat, Kind)>)
    ensures Commutes(FcForwards, c, b, h)
  {
    var m, n := Merged(c, b), Merged(c.(heard := h), b);
    assert n == m.(heard := h);
    match b.kind
    case Hello => HelloCommutes(m, b, h);
    case FcChange => ChangedCommutes(m, b, h);
    case _ =>
  }

  lemma HearsCommutes(c: Card, b: Bpdu, h: seq<(nat, Kind)>)
    ensures Commutes(LcHearsFc, c, b, h) && Commutes(FcHearsLc, c, b, h)
  {
    hide LcWakes, LcConverges, LcForwards, FcWakes, FcConverges, FcForwards;
    LcWakesCommutes(c, b, h);
    LcConvergesCommutes(c, b, h);
    FcConvergesCommutes(c, b, h);
    LcForwardsCommutes(c, b, h);
    FcForwardsCommutes(c, b, h);
  }

  /** Receiving commutes with forgetting the pairs of the other plane. */
  lemma OwnRx(hw: Hardware, c: Card, b: Bpdu)
    requires CardOk(hw, c) && HeardOk(c) && BpduOk(hw, b) && Accepts(c.us, b.dst)
    ensures SamePlane(c.us, b.from) ==> Rx(OwnCard(c), b) == Out(OwnCard(Rx(c, b).card), Rx(c, b).sent)
    ensures !SamePlane(c.us, b.from) ==> OwnCard(Rx(c, b).card) == OwnCard(c) && Rx(c, b).sent == []
  {
    hide LcHearsFc, FcHearsLc, TableOk, NamesOk, RootOk, DesignOk, BlockOk, ClockOk;
    var p := (b.from, b.kind);
    HearsOtherGroup(c.us, b.from);
    NeverFull(c);
    OwnHeardMember(c.us, c.heard, p);
    OwnHeardAppend(c.us, c.heard, p);
    if Fresh(c, b) && SamePlane(c.us, b.from) {
      var h := c.(heard := c.heard + [p]);
      HeardKept(h, b);
      HearsCommutes(h, b, OwnHeard(c.us, c.heard) + [p]);
    }
  }

  lemma OwnTick(c: Card)
    requires CpuA(c.us)
    ensures Tick(OwnCard(c)) == Out(OwnCard(Tick(c).card), Tick(c).sent)
  {
    TickHeard(c);
  }

  // ----------------------------------------------------------------- chassis

  lemma OwnCardsSet(cards: map<nat, Card>, n: nat, c: Card, upper: bool)
    ensures Upper(n) == upper ==> OwnCards(cards[n := c], upper) == OwnCards(cards, upper)[n := OwnCard(c)]
    ensures Upper(n) != upper ==> OwnCards(cards[n := c], upper) == OwnCards(cards, upper)
  {
  }

  lemma OwnFlightDid(net: Net, n: nat, o: Out, upper: bool)
    requires forall k :: 0 <= k < |o.sent| ==> o.sent[k].from == n
    ensures OwnFlight(net.flight + Send(net.cards.Keys, o.sent), upper)
            == OwnFlight(net.flight, upper)
               + if Upper(n) == upper then Send(OwnCards(net.cards, upper).Keys, o.sent) else []
  {
    OwnFlightAppend(net.flight, Send(net.cards.Keys, o.sent), upper);
    OwnFlightSend(net.cards.Keys, OwnCards(net.cards, upper).Keys, o.sent, n, upper);
  }

  lemma OwnDid(net: Net, n: nat, o: Out, upper: bool)
    requires n in net.cards && forall k :: 0 <= k < |o.sent| ==> o.sent[k].from == n
    ensures Upper(n) == upper ==>
              Project(Did(net, n, o), upper) == Did(Project(net, upper), n, Out(OwnCard(o.card), o.sent))
    ensures Upper(n) != upper ==> Project(Did(net, n, o), upper) == Project(net, upper)
  {
    OwnFlightDid(net, n, o, upper);
    OwnCardsSet(net.cards, n, o.card, upper);
  }

  lemma OwnDeliverInside(hw: Hardware, net: Net, k: nat, upper: bool)
    requires NetOk(hw, net) && NetHeardOk(net) && k < |net.flight| && net.flight[k].to in net.cards
    requires Inside(net.flight[k], upper)
    ensures Project(Apply(hw, net, Deliver(k)), upper)
            == Apply(hw, Project(net, upper), Deliver(|OwnFlight(net.flight[..k], upper)|))
  {
    hide Rx, CardOk, OwnCard;
    var c := net.flight[k];
    assert CopyOk(hw, c);
    HearsOtherGroup(c.to, c.b.from);
    RxOk(hw, net.cards[c.to], c.b);
    OwnRx(hw, net.cards[c.to], c.b);
    OwnFlightWithout(net.flight, k, upper);
    OwnDid(net.(flight := Without(net.flight, k)), c.to, Rx(net.cards[c.to], c.b), upper);
  }

  lemma OwnCardsSame(cards: map<nat, Card>, n: nat, c: Card, upper: bool)
    requires n in cards && (Upper(n) == upper ==> OwnCard(c) == OwnCard(cards[n]))
    ensures OwnCards(cards[n := c], upper) == OwnCards(cards, upper)
  {
    OwnCardsSet(cards, n, c, upper);
  }

  lemma OwnDeliverOutside(hw: Hardware, net: Net, k: nat, upper: bool)
    requires NetOk(hw, net) && NetHeardOk(net) && k < |net.flight| && net.flight[k].to in net.cards
    requires !Inside(net.flight[k], upper)
    ensures Project(Apply(hw, net, Deliver(k)), upper) == Project(net, upper)
  {
    hide Rx, CardOk, OwnCard;
    var c := net.flight[k];
    assert CopyOk(hw, c);
    var rest := net.(flight := Without(net.flight, k));
    var o := Rx(net.cards[c.to], c.b);
    HearsOtherGroup(c.to, c.b.from);
    OwnFlightWithout(net.flight, k, upper);
    if Upper(c.to) == upper {
      OwnRx(hw, net.cards[c.to], c.b);
      OwnCardsSame(net.cards, c.to, o.card, upper);
      assert Did(rest, c.to, o).flight == rest.flight;
    } else {
      RxOk(hw, net.cards[c.to], c.b);
      OwnDid(rest, c.to, o, upper);
    }
  }

  lemma OwnTickCard(hw: Hardware, net: Net, n: nat, upper: bool)
    requires NetOk(hw, net) && n in net.cards
    ensures Project(Apply(hw, net, TickCard(n)), upper)
            == if Upper(n) == upper then Apply(hw, Project(net, upper), TickCard(n)) else Project(net, upper)
  {
    TickOk(hw, net.cards[n]);
    OwnTick(net.cards[n]);
    OwnDid(net, n, Tick(net.cards[n]), upper);
  }

  lemma OwnStart(hw: Hardware, net: Net, n: nat, upper: bool)
    requires CpuA(n) && n !in net.cards
    ensures Project(Apply(hw, net, Start(n)), upper)
            == if Upper(n) == upper then Apply(hw, Project(net, upper), Start(n)) else Project(net, upper)
  {
    var b := Boot(n, hw[n - 1]);
    assert OwnCard(b) == b;
    OwnCardsSet(net.cards, n, b, upper);
  }

  /** What one event of the chassis is for the plane; empty where it is nothing. */
  function OwnEvent(net: Net, e: Event, upper: bool): seq<Event> {
    match e
    case TickCard(n) => if n in net.cards && Upper(n) == upper then [e] else []
    case Deliver(k) =>
      if k < |net.flight| && net.flight[k].to in net.cards && Inside(net.flight[k], upper)
      then [Deliver(|OwnFlight(net.flight[..k], upper)|)] else []
    case Lose(k) =>
      if k < |net.flight| && Inside(net.flight[k], upper)
      then [Lose(|OwnFlight(net.flight[..k], upper)|)] else []
    case Stop(n) => [e]
    case Start(n) => if CpuA(n) && n !in net.cards && Upper(n) == upper then [e] else []
  }

  /** Seen from the plane, the event is what OwnEvent says. */
  predicate Matches(hw: Hardware, net: Net, e: Event, upper: bool) {
    var p, es := Project(net, upper), OwnEvent(net, e, upper);
    Project(Apply(hw, net, e), upper) == if es == [] then p else Apply(hw, p, es[0])
  }

  lemma OwnDeliver(hw: Hardware, net: Net, k: nat, upper: bool)
    requires NetOk(hw, net) && NetHeardOk(net)
    ensures Matches(hw, net, Deliver(k), upper)
  {
    if k < |net.flight| && net.flight[k].to in net.cards {
      if Inside(net.flight[k], upper) {
        OwnDeliverInside(hw, net, k, upper);
      } else {
        OwnDeliverOutside(hw, net, k, upper);
      }
    }
  }

  lemma OwnLose(hw: Hardware, net: Net, k: nat, upper: bool)
    ensures Matches(hw, net, Lose(k), upper)
  {
    if k < |net.flight| {
      OwnFlightWithout(net.flight, k, upper);
    }
  }

  lemma OwnTicks(hw: Hardware, net: Net, n: nat, upper: bool)
    requires NetOk(hw, net)
    ensures Matches(hw, net, TickCard(n), upper)
  {
    if n in net.cards {
      OwnTickCard(hw, net, n, upper);
    }
  }

  lemma OwnStops(hw: Hardware, net: Net, n: nat, upper: bool)
    ensures Matches(hw, net, Stop(n), upper)
  {
    assert OwnCards(net.cards - {n}, upper) == OwnCards(net.cards, upper) - {n};
  }

  lemma OwnStarts(hw: Hardware, net: Net, n: nat, upper: bool)
    ensures Matches(hw, net, Start(n), upper)
  {
    if CpuA(n) && n !in net.cards {
      OwnStart(hw, net, n, upper);
    }
  }

  lemma OwnApply(hw: Hardware, net: Net, e: Event, upper: bool)
    requires NetOk(hw, net) && NetHeardOk(net)
    ensures Matches(hw, net, e, upper)
  {
    match e
    case TickCard(n) => OwnTicks(hw, net, n, upper);
    case Deliver(k) => OwnDeliver(hw, net, k, upper);
    case Lose(k) => OwnLose(hw, net, k, upper);
    case Stop(n) => OwnStops(hw, net, n, upper);
    case Start(n) => OwnStarts(hw, net, n, upper);
  }

  lemma OwnStep(hw: Hardware, net: Net, e: Event, upper: bool)
    requires NetOk(hw, net) && NetHeardOk(net)
    ensures Project(Apply(hw, net, e), upper) == Run(hw, Project(net, upper), OwnEvent(net, e, upper))
  {
    OwnApply(hw, net, e, upper);
    var es := OwnEvent(net, e, upper);
    if es != [] {
      assert es == [es[0]];
      RunOne(hw, Project(net, upper), es[0]);
    }
  }

  /** The run of the plane alone. */
  function OwnRun(hw: Hardware, net: Net, es: seq<Event>, upper: bool): seq<Event>
    decreases |es|
  {
    if es == [] then [] else OwnEvent(net, es[0], upper) + OwnRun(hw, Apply(hw, net, es[0]), es[1..], upper)
  }

  /** Plane isolation: the cards of one plane go through states that they could
      go through in a chassis without the other plane. */
  lemma {:induction false} PlaneAlone(hw: Hardware, net: Net, es: seq<Event>, upper: bool)
    requires NetOk(hw, net) && NetHeardOk(net)
    ensures Project(Run(hw, net, es), upper) == Run(hw, Project(net, upper), OwnRun(hw, net, es, upper))
    decreases |es|
  {
    if es != [] {
      var next := Apply(hw, net, es[0]);
      ApplyOk(hw, net, es[0]);
      ApplyHeard(hw, net, es[0]);
      OwnStep(hw, net, es[0], upper);
      PlaneAlone(hw, next, es[1..], upper);
      RunAppend(hw, Project(net, upper), OwnEvent(net, es[0], upper), OwnRun(hw, next, es[1..], upper));
    }
  }

  /** A reachable chassis, seen from one plane, is reachable by that plane alone. */
  lemma ReachableAlone(hw: Hardware, net: Net, upper: bool)
    requires Reachable(hw, net)
    ensures Reachable(hw, Project(net, upper))
  {
    var es :| net == Run(hw, EMPTY, es);
    PlaneAlone(hw, EMPTY, es, upper);
    assert Project(EMPTY, upper) == EMPTY;
  }
}
