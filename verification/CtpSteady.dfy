/**
 The steady state: once the plane agrees, lockstep rounds keep it in agreement
 for good. The root FC's HELLO reaches every line card, and the answer of the
 root LC every fabric card, so that no clock ever runs out.
 */
module CtpSteady {
  import opened Ctp
  import opened CtpInvariant
  import opened CtpNet
  import opened CtpReceive
  import opened CtpTopology
  import opened CtpGossip
  import opened CtpRounds
  import opened CtpConverge
  import opened CtpColdStart
  import opened CtpKeep

  // ---------------------------------------------------------------- one card

  /** A card that names the roots; the root FC holds the root LC at full age once
      it has been answered. */
  predicate Holds(r: Roots, c: Card) {
    && c.state == Forwarding && c.rootPort == r.fc && c.designBridge.Num() == r.lc
    && (c.us != r.fc ==> c.rootLc == r.lc)
    && (Kept(r, c) ==> c.since == 0 && (c.us == r.fc ==> Age(c.exist, r.lc - 1) == FULL_AGE))
  }

  /** A BPDU of the steady state. */
  predicate SteadyBpdu(r: Roots, b: Bpdu) {
    && r.p.Has(b.from) && b.root.Num() == r.fc && b.design.Num() == r.lc
    && (b.kind == Hello || b.kind == Reply) && (b.from == r.fc ==> b.kind == Hello)
  }

  ghost function SteadyCard(r: Roots): Card -> bool {
    (c: Card) => Holds(r, c)
  }

  ghost function SteadySays(r: Roots): Bpdu -> bool {
    (b: Bpdu) => SteadyBpdu(r, b)
  }

  lemma LcSteady(hw: Hardware, r: Roots, c: Card, b: Bpdu)
    requires CardOk(hw, c) && BpduOk(hw, b) && SamePlane(c.us, b.from) && LcNum(c.us) && FcNum(b.from)
    requires r.Ok() && r.p.Has(c.us) && c.state == Forwarding && c.rootPort == r.fc && c.rootLc == r.lc
    requires SteadyBpdu(r, b)
    ensures var o := LcForwards(c, b);
            && o.card.us == c.us && o.card.state == Forwarding && o.card.rootPort == r.fc && o.card.rootLc == r.lc
            && o.card.designBridge == c.designBridge && o.card.heard == c.heard
            && (b.kind == Hello ==> o.card.since == 0) && (o.card.since == 0 || o.card.since == c.since)
    ensures b.kind != Hello ==> LcForwards(c, b).sent == []
    ensures b.kind == Hello ==>
              var s := LcForwards(c, b).sent;
              |s| == 1 && SteadyBpdu(r, s[0]) && s[0].from == c.us
              && s[0].kind == if c.us == r.lc && b.from == r.fc then Hello else Reply
  {
  }

  lemma FcSteady(hw: Hardware, r: Roots, c: Card, b: Bpdu)
    requires CardOk(hw, c) && BpduOk(hw, b) && SamePlane(c.us, b.from) && FcNum(c.us) && LcNum(b.from)
    requires r.Ok() && r.p.Has(c.us) && c.state == Forwarding && c.rootPort == r.fc && c.designBridge.Num() == r.lc
    requires SteadyBpdu(r, b)
    ensures var o := FcForwards(c, b);
            && o.card.us == c.us && o.card.state == Forwarding && o.card.rootPort == r.fc && o.card.rootLc == c.rootLc
            && o.card.designBridge == c.designBridge && o.card.heard == c.heard
            && (b.kind == Hello ==> o.card.since == 0) && (o.card.since == 0 || o.card.since == c.since)
    ensures forall s :: s in FcForwards(c, b).sent ==> SteadyBpdu(r, s) && s.from == c.us
    ensures c.us == r.fc ==> FcForwards(c, b).sent == [] && FcForwards(c, b).card.exist == Merged(c, b).exist
  {
  }

  /** The root FC holds the sender at full age, and others where they were. */
  lemma MergedKeepsFull(hw: Hardware, c: Card, b: Bpdu, j: nat)
    requires CardOk(hw, c) && BpduOk(hw, b) && SamePlane(c.us, b.from) && c.us != b.from
    requires 1 <= j <= CARDS && j != c.us && (j == b.from || Age(c.exist, j - 1) == FULL_AGE)
    ensures Age(Merged(c, b).exist, j - 1) == FULL_AGE
  {
    MergedFull(hw, c, b);
    MergedOk(hw, c, b);
    MergedAge(hw, c, b, j);
    assert SlotOk(hw, c.us, j - 1, Merged(c, b).exist[j - 1]);
  }

  /** Which handler acts. */
  lemma ActsForwarding(hw: Hardware, r: Roots, c: Card, b: Bpdu)
    requires ActsOn(hw, r, c, b) && c.state == Forwarding
    ensures var h := c.(heard := c.heard + [(b.from, b.kind)]);
            Rx(c, b) == if LcNum(c.us) then LcForwards(h, b) else FcForwards(h, b)
  {
    hide LcForwards, FcForwards;
    NeverFull(c);
  }

  lemma SteadyTakes(hw: Hardware, r: Roots, c: Card, b: Bpdu)
    requires r.Ok() && ActsOn(hw, r, c, b) && Holds(r, c) && SteadyBpdu(r, b)
    ensures Taken(r, SteadyCard(r), SteadySays(r), c, b, Rx(c, b))
  {
    var h := c.(heard := c.heard + [(b.from, b.kind)]);
    ActsForwarding(hw, r, c, b);
    if LcNum(c.us) {
      LcSteadyTakes(hw, r, c, h, b);
    } else {
      FcSteadyTakes(hw, r, c, h, b);
    }
  }

  lemma LcSteadyTakes(hw: Hardware, r: Roots, c: Card, h: Card, b: Bpdu)
    requires r.Ok() && ActsOn(hw, r, c, b) && Holds(r, c) && SteadyBpdu(r, b) && LcNum(c.us)
    requires h == c.(heard := c.heard + [(b.from, b.kind)])
    ensures Taken(r, SteadyCard(r), SteadySays(r), c, b, LcForwards(h, b))
  {
    hide LcForwards;
    LcSteady(hw, r, h, b);
  }

  lemma FcSteadyTakes(hw: Hardware, r: Roots, c: Card, h: Card, b: Bpdu)
    requires r.Ok() && ActsOn(hw, r, c, b) && Holds(r, c) && SteadyBpdu(r, b) && FcNum(c.us)
    requires h == c.(heard := c.heard + [(b.from, b.kind)])
    ensures Taken(r, SteadyCard(r), SteadySays(r), c, b, FcForwards(h, b))
  {
    hide FcForwards, TableOk;
    FcSteady(hw, r, h, b);
    if c.us == r.fc && Kept(r, h) {
      MergedKeepsFull(hw, h, b, r.lc);
    }
  }

  lemma SteadyRegime(hw: Hardware, r: Roots)
    requires r.Ok()
    ensures Regime(hw, r, SteadyCard(r), SteadySays(r))
  {
    forall c: Card, b: Bpdu | ActsOn(hw, r, c, b) && SteadyCard(r)(c) && SteadySays(r)(b)
      ensures Taken(r, SteadyCard(r), SteadySays(r), c, b, Rx(c, b))
    {
      SteadyTakes(hw, r, c, b);
    }
  }

  // ---------------------------------------------------------------- a round

  /** Between two rounds: the card names the roots, and will not leave FORWARDING
      or reselect on its next tick. */
  predicate Poised(r: Roots, c: Card) {
    && c.state == Forwarding && c.rootPort == r.fc && c.designBridge.Num() == r.lc
    && (c.us != r.fc ==> c.rootLc == r.lc)
    && c.since <= if c.us == r.fc then MAX_AGE else MAX_AGE * FORWARD_DELAY
  }

  ghost predicate SteadyStart(hw: Hardware, r: Roots, net: Net) {
    && Base(hw, r.p, net) && r.Ok() && net.flight == []
    && forall n :: n in net.cards && r.p.Has(n) ==> Poised(r, net.cards[n])
  }

  /** After a round no clock has moved, and all have been kept going. */
  ghost predicate SteadyEnd(hw: Hardware, r: Roots, net: Net) {
    && Base(hw, r.p, net) && r.Ok() && net.flight == []
    && forall n :: n in net.cards && r.p.Has(n) ==>
         Holds(r, net.cards[n]) && Kept(r, net.cards[n]) && net.cards[n].since == 0
  }

  lemma TicksSteady(hw: Hardware, r: Roots, c: Card)
    requires CardOk(hw, c) && r.Ok() && r.p.Has(c.us) && Poised(r, c)
    ensures Begins(r, SteadyCard(r), SteadySays(r), c.us, Tick(c))
  {
  }

  /** A round from agreement ends in agreement, and every clock is back at 0. */
  lemma SteadyRound(hw: Hardware, r: Roots, net: Net, l: Lockstep, after: Net)
    requires SteadyStart(hw, r, net) && Round(hw, net, l, after)
    ensures SteadyEnd(hw, r, after) && SteadyStart(hw, r, after)
  {
    forall n | n in net.cards && r.p.Has(n)
      ensures Begins(r, SteadyCard(r), SteadySays(r), n, Tick(net.cards[n]))
    {
      TicksSteady(hw, r, net.cards[n]);
    }
    SteadyRegime(hw, r);
    KeepRound(hw, r, SteadyCard(r), SteadySays(r), net, l, after);
    KeptIsSteady(hw, r, after);
  }

  lemma KeptIsSteady(hw: Hardware, r: Roots, net: Net)
    requires r.Ok() && AllKept(hw, r, SteadyCard(r), net)
    ensures SteadyEnd(hw, r, net) && SteadyStart(hw, r, net)
  {
    forall n | n in net.cards && r.p.Has(n)
      ensures Holds(r, net.cards[n]) && Kept(r, net.cards[n]) && Poised(r, net.cards[n])
    {
      assert SteadyCard(r)(net.cards[n]);
    }
  }

  ghost function SteadyEndOf(hw: Hardware, r: Roots): Net -> bool {
    x => SteadyEnd(hw, r, x)
  }

  lemma StartAgrees(hw: Hardware, r: Roots, net: Net)
    requires SteadyStart(hw, r, net)
    ensures Agreed(net, r.p.upper, r.fc, r.lc)
  {
    forall n | InPlane(net, r.p.upper, n)
      ensures Names(net.cards[n], r.fc, r.lc)
    {
      assert r.p.Has(n) && Poised(r, net.cards[n]);
    }
  }

  ghost function SteadyStartOf(hw: Hardware, r: Roots): Net -> bool {
    x => SteadyStart(hw, r, x)
  }

  lemma SteadyKept(hw: Hardware, r: Roots)
    ensures KeptByRounds(hw, SteadyStartOf(hw, r)) && Gives(hw, SteadyStartOf(hw, r), SteadyEndOf(hw, r))
  {
    hide SteadyStart, SteadyEnd;
    forall x: Net, l: Lockstep, y: Net | SteadyStartOf(hw, r)(x) && Round(hw, x, l, y)
      ensures SteadyStartOf(hw, r)(y) && SteadyEndOf(hw, r)(y)
    {
      SteadyRound(hw, r, x, l, y);
    }
  }

  lemma SteadyRounds(hw: Hardware, r: Roots, nets: seq<Net>, ls: seq<Lockstep>, m: nat, k: nat)
    requires Rounds(hw, nets, ls) && m <= k <= |ls| && SteadyStart(hw, r, nets[m])
    ensures SteadyStart(hw, r, nets[k])
  {
    SteadyKept(hw, r);
    RoundsKeep(hw, SteadyStartOf(hw, r), nets, ls, m, k);
    assert SteadyStartOf(hw, r)(nets[k]);
  }

  lemma SteadyAtEnd(hw: Hardware, r: Roots, nets: seq<Net>, ls: seq<Lockstep>, m: nat)
    requires Rounds(hw, nets, ls) && m < |ls| && SteadyStart(hw, r, nets[m])
    ensures SteadyEnd(hw, r, nets[|ls|])
  {
    SteadyKept(hw, r);
    LastGives(hw, SteadyStartOf(hw, r), SteadyEndOf(hw, r), nets, ls, m);
    assert SteadyEndOf(hw, r)(nets[|ls|]);
  }

  lemma StartIsTree(hw: Hardware, r: Roots, net: Net)
    requires Reachable(hw, net) && SteadyStart(hw, r, net)
    ensures Agreed(net, r.p.upper, r.fc, r.lc) && SpanningTree(net, r.p.upper)
  {
    StartAgrees(hw, r, net);
    ReachableKeeps(hw, net);
    AgreedIsTree(net, r.p.upper, r.fc, r.lc);
  }

  /** Agreement lasts: once the plane agrees, and as long as its cards run in
      lockstep and no copy is lost, they agree on the same roots after every round,
      the forwarding links stay a spanning tree, and every clock is back at 0. */
  lemma AgreementLasts(hw: Hardware, r: Roots, nets: seq<Net>, ls: seq<Lockstep>, m: nat)
    requires Rounds(hw, nets, ls) && Reachable(hw, nets[0]) && m <= |ls| && SteadyStart(hw, r, nets[m])
    ensures forall k :: m <= k <= |ls| ==>
              Agreed(nets[k], r.p.upper, r.fc, r.lc) && SpanningTree(nets[k], r.p.upper)
    ensures |ls| > m ==> SteadyEnd(hw, r, nets[|ls|])
  {
    forall k | m <= k <= |ls|
      ensures Agreed(nets[k], r.p.upper, r.fc, r.lc) && SpanningTree(nets[k], r.p.upper)
    {
      SteadyRounds(hw, r, nets, ls, m, k);
      RoundsReachable(hw, nets, ls, k);
      StartIsTree(hw, r, nets[k]);
    }
    if |ls| > m {
      SteadyAtEnd(hw, r, nets, ls, m);
    }
  }

  // ------------------------------------------------------- after a cold start

  lemma ColdStartSteady(hw: Hardware, p: Plan, net: Net)
    requires EndOf(hw, p, 14)(net)
    ensures SteadyStart(hw, Roots(p, p.fc, p.lc), net)
  {
    var r := Roots(p, p.fc, p.lc);
    forall n | n in net.cards && p.Has(n)
      ensures Poised(r, net.cards[n])
    {
      assert CardDone(p, net.cards[n], 14);
    }
  }

  lemma ColdStartReady(hw: Hardware, p: Plan, go: nat, nets: seq<Net>, ls: seq<Lockstep>, m: nat)
    requires Rounds(hw, nets, ls) && m + 14 <= |ls| && Cold(hw, p, go, nets[m])
    ensures SteadyStart(hw, Roots(p, p.fc, p.lc), nets[m + 14])
  {
    RoundsFrom(hw, nets, ls, m);
    AfterRounds(hw, p, go, nets[m..], ls[m..], 14);
    assert nets[m..][14] == nets[m + 14];
    ColdStartSteady(hw, p, nets[m + 14]);
  }

  /** A cold start, wherever among the rounds it begins, brings the plane to a
      spanning tree within 14 rounds, and for as long as the rounds go on it stays
      one, around the same two roots. */
  lemma ColdStartLasts(hw: Hardware, p: Plan, go: nat, nets: seq<Net>, ls: seq<Lockstep>, m: nat)
    requires Rounds(hw, nets, ls) && Reachable(hw, nets[0]) && m + 14 <= |ls|
    requires BlockedPlane(p, nets[m]) && Starter(p, nets[m], go)
    ensures forall k :: m + 14 <= k <= |ls| ==>
              Agreed(nets[k], p.upper, p.fc, p.lc) && SpanningTree(nets[k], p.upper)
    ensures |ls| > m + 14 ==> SteadyEnd(hw, Roots(p, p.fc, p.lc), nets[|ls|])
  {
    RoundsReachable(hw, nets, ls, m);
    ReachableKeeps(hw, nets[m]);
    ColdStartReady(hw, p, go, nets, ls, m);
    AgreementLasts(hw, Roots(p, p.fc, p.lc), nets, ls, m + 14);
  }
}
