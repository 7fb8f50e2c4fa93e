/**
 Joining: cards that start in a steady plane. The first round tells them of the
 roots, and 13 more take them through LISTENING and LEARNING; after that the plane
 agrees on the same roots as before. The one exception is a line card that starts
 together with a fabric card smaller than the root FC: it takes that one for root
 FC and never lets go of it.
 */
module CtpJoin {
  import opened Ctp
  import opened CtpInvariant
  import opened CtpNet
  import opened CtpReceive
  import opened CtpTiming
  import opened CtpTopology
  import opened CtpGossip
  import opened CtpRounds
  import opened CtpConverge
  import opened CtpColdStart
  import opened CtpKeep
  import opened CtpSteady
  import opened CtpElection
  import opened Sequences

  /** The roots, the running cards, and those among them that ran before. */
  datatype Joining = Joining(r: Roots, ran: set<nat>) {
    predicate Ok() {
      r.Ok() && r.fc in ran && r.lc in ran
    }

    predicate New(n: nat) {
      r.p.Has(n) && n !in ran
    }
  }

  /** A line card joins together with a fabric card smaller than the root FC. */
  predicate Pair(j: Joining, l: nat, f: nat) {
    j.New(l) && LcNum(l) && j.New(f) && FcNum(f) && f < j.r.fc
  }

  ghost predicate Clash(j: Joining) {
    exists l, f :: Pair(j, l, f)
  }

  // ----------------------------------------------- one card in the first round

  predicate NewLc(j: Joining, c: Card) {
    || (c.state == Block && !Kept(j.r, c))
    || (AtPhase(c, 0) && (c.rootPort == 0 || c.rootPort >= j.r.fc)
        && (Kept(j.r, c) ==> c.rootPort == j.r.fc && c.rootLc == j.r.lc))
  }

  predicate NewFc(j: Joining, c: Card) {
    || (c.state == Block && !Kept(j.r, c))
    || (AtPhase(c, 0) && (c.rootPort == c.us || c.rootPort >= j.r.fc)
        && (Kept(j.r, c) ==> c.rootPort == j.r.fc && 0 < c.rootLc <= j.r.lc))
  }

  predicate Greeted(j: Joining, c: Card) {
    if c.us in j.ran then Holds(j.r, c) else if LcNum(c.us) then NewLc(j, c) else NewFc(j, c)
  }

  /** A BPDU of the first round: the running cards speak as ever, a new fabric card
      says CONFIG and names itself, a new line card replies when it wakes. */
  predicate Greets(j: Joining, b: Bpdu) {
    && j.r.p.Has(b.from)
    && if b.from in j.ran then
         && b.root.Num() == j.r.fc && b.design.Num() == j.r.lc && b.forwarding && (b.kind == Hello || b.kind == Reply)
         && (b.from == j.r.fc ==> b.kind == Hello && NamesLiveDesign(b))
         && (b.from == j.r.lc && b.kind == Hello ==> NamesLiveRoot(b))
       else if FcNum(b.from) then b.kind == Config && b.root.Num() == b.from && b.design.Num() == 0
       else b.kind == Reply && !b.forwarding && (b.root.Num() == 0 || b.root.Num() >= j.r.fc)
  }

  ghost function GreetCard(j: Joining): Card -> bool {
    (c: Card) => Greeted(j, c)
  }

  ghost function GreetSays(j: Joining): Bpdu -> bool {
    (b: Bpdu) => Greets(j, b)
  }

  /** The handler's card and what it sends, with h the card that has heard b. */
  lemma OldLcGreets(hw: Hardware, j: Joining, h: Card, b: Bpdu)
    requires CardOk(hw, h) && BpduOk(hw, b) && SamePlane(h.us, b.from) && LcNum(h.us) && FcNum(b.from)
    requires j.Ok() && j.r.p.Has(h.us) && h.us in j.ran && Greets(j, b)
    requires h.state == Forwarding && h.rootPort == j.r.fc && h.rootLc == j.r.lc
    ensures var o := LcForwards(h, b);
            && o.card.us == h.us && o.card.state == Forwarding && o.card.rootPort == j.r.fc
            && o.card.rootLc == j.r.lc && o.card.designBridge == h.designBridge && o.card.heard == h.heard
            && (b.kind == Hello ==> o.card.since == 0) && (o.card.since == 0 || o.card.since == h.since)
    ensures forall s :: s in LcForwards(h, b).sent ==> Greets(j, s)
    ensures h.us == j.r.lc && Leads(j.r, b) ==>
              |LcForwards(h, b).sent| == 1 && LcForwards(h, b).sent[0].kind == Hello
    ensures !(h.us == j.r.lc && Leads(j.r, b)) ==> forall s :: s in LcForwards(h, b).sent ==> s.kind == Reply
  {
    MergedFull(hw, h, b);
  }

  lemma OldFcGreets(hw: Hardware, j: Joining, h: Card, b: Bpdu)
    requires CardOk(hw, h) && BpduOk(hw, b) && SamePlane(h.us, b.from) && FcNum(h.us) && LcNum(b.from)
    requires j.Ok() && j.r.p.Has(h.us) && h.us in j.ran && Greets(j, b)
    requires h.state == Forwarding && h.rootPort == j.r.fc && h.designBridge.Num() == j.r.lc
    ensures var o := FcForwards(h, b);
            && o.card.us == h.us && o.card.state == Forwarding && o.card.rootPort == j.r.fc
            && o.card.rootLc == h.rootLc && o.card.designBridge == h.designBridge && o.card.heard == h.heard
            && (b.kind == Hello ==> o.card.since == 0) && (o.card.since == 0 || o.card.since == h.since)
    ensures forall s :: s in FcForwards(h, b).sent ==> Greets(j, s)
    ensures h.us == j.r.fc ==> FcForwards(h, b).sent == [] && FcForwards(h, b).card.exist == Merged(h, b).exist
  {
  }

  lemma NewLcWakes(hw: Hardware, j: Joining, h: Card, b: Bpdu)
    requires CardOk(hw, h) && BpduOk(hw, b) && SamePlane(h.us, b.from) && LcNum(h.us) && FcNum(b.from)
    requires j.Ok() && j.New(h.us) && Greets(j, b) && !Pair(j, h.us, b.from) && h.state == Block
    ensures var d := LcWakes(h, b).card;
            && d.us == h.us && d.heard == h.heard && AtPhase(d, 0) && (d.rootPort == 0 || d.rootPort >= j.r.fc)
            && (Leads(j.r, b) ==> d.rootPort == j.r.fc && d.rootLc == j.r.lc)
    ensures forall s :: s in LcWakes(h, b).sent ==> Greets(j, s)
  {
    OwnAge(hw, b);
  }

  lemma NewLcConverges(hw: Hardware, j: Joining, h: Card, b: Bpdu)
    requires CardOk(hw, h) && BpduOk(hw, b) && SamePlane(h.us, b.from) && LcNum(h.us) && FcNum(b.from)
    requires j.Ok() && j.New(h.us) && Greets(j, b) && !Pair(j, h.us, b.from)
    requires AtPhase(h, 0) && (h.rootPort == 0 || h.rootPort >= j.r.fc)
    ensures LcConverges(h, b).sent == []
    ensures var d := LcConverges(h, b).card;
            && d.us == h.us && d.heard == h.heard && AtPhase(d, 0) && (d.rootPort == 0 || d.rootPort >= j.r.fc)
            && (Leads(j.r, b) || (h.rootPort == j.r.fc && h.rootLc == j.r.lc) ==>
                  d.rootPort == j.r.fc && d.rootLc == j.r.lc)
  {
    OwnAge(hw, b);
  }

  lemma NewFcWakes(hw: Hardware, j: Joining, h: Card, b: Bpdu)
    requires CardOk(hw, h) && BpduOk(hw, b) && SamePlane(h.us, b.from) && FcNum(h.us) && LcNum(b.from)
    requires j.Ok() && j.New(h.us) && Greets(j, b) && h.state == Block
    ensures FcWakes(h, b).sent == []
    ensures var d := FcWakes(h, b).card;
            && d.us == h.us && d.heard == h.heard && AtPhase(d, 0) && (d.rootPort == d.us || d.rootPort >= j.r.fc)
            && (b.kind == Hello && b.from == j.r.lc ==> d.rootPort == j.r.fc && 0 < d.rootLc <= j.r.lc)
  {
    OwnAge(hw, b);
  }

  lemma NewFcConverges(hw: Hardware, j: Joining, h: Card, b: Bpdu)
    requires CardOk(hw, h) && BpduOk(hw, b) && SamePlane(h.us, b.from) && FcNum(h.us) && LcNum(b.from)
    requires j.Ok() && j.New(h.us) && Greets(j, b)
    requires AtPhase(h, 0) && (h.rootPort == h.us || h.rootPort >= j.r.fc)
    ensures FcConverges(h, b).sent == []
    ensures var d := FcConverges(h, b).card;
            && d.us == h.us && d.heard == h.heard && AtPhase(d, 0) && (d.rootPort == d.us || d.rootPort >= j.r.fc)
            && ((b.kind == Hello && b.from == j.r.lc) || (h.rootPort == j.r.fc && 0 < h.rootLc <= j.r.lc) ==>
                  d.rootPort == j.r.fc && 0 < d.rootLc <= j.r.lc)
  {
    hide MergeFrom, TableOk;
    OwnAge(hw, b);
  }

  // ------------------------------------------------------------ first round

  /** Which handler acts on a card that has heard b, if it is h. */
  lemma ActsAs(hw: Hardware, r: Roots, c: Card, b: Bpdu)
    requires ActsOn(hw, r, c, b)
    ensures var h := c.(heard := c.heard + [(b.from, b.kind)]);
            Rx(c, b) == if LcNum(c.us) then LcHearsFc(h, b) else FcHearsLc(h, b)
  {
    hide LcHearsFc, FcHearsLc;
    NeverFull(c);
  }

  lemma OldLcGreetTakes(hw: Hardware, j: Joining, c: Card, b: Bpdu)
    requires j.Ok() && ActsOn(hw, j.r, c, b) && c.us in j.ran && LcNum(c.us) && Greeted(j, c) && Greets(j, b)
    ensures Taken(j.r, GreetCard(j), GreetSays(j), c, b, Rx(c, b))
  {
    hide LcForwards, FcForwards, Rx;
    ActsForwarding(hw, j.r, c, b);
    OldLcGreets(hw, j, c.(heard := c.heard + [(b.from, b.kind)]), b);
  }

  lemma OldFcGreetTakes(hw: Hardware, j: Joining, c: Card, b: Bpdu)
    requires j.Ok() && ActsOn(hw, j.r, c, b) && c.us in j.ran && FcNum(c.us) && Greeted(j, c) && Greets(j, b)
    ensures Taken(j.r, GreetCard(j), GreetSays(j), c, b, Rx(c, b))
  {
    hide LcForwards, FcForwards, Rx, TableOk;
    var h := c.(heard := c.heard + [(b.from, b.kind)]);
    ActsForwarding(hw, j.r, c, b);
    OldFcGreets(hw, j, h, b);
    if c.us == j.r.fc && Kept(j.r, h) {
      MergedKeepsFull(hw, h, b, j.r.lc);
    }
  }

  lemma NewLcGreetTakes(hw: Hardware, j: Joining, c: Card, b: Bpdu)
    requires j.Ok() && !Clash(j) && ActsOn(hw, j.r, c, b) && c.us !in j.ran && LcNum(c.us)
    requires Greeted(j, c) && Greets(j, b)
    ensures Taken(j.r, GreetCard(j), GreetSays(j), c, b, Rx(c, b))
  {
    hide LcWakes, LcConverges, Rx;
    var h := c.(heard := c.heard + [(b.from, b.kind)]);
    ActsAs(hw, j.r, c, b);
    assert !Pair(j, c.us, b.from);
    if c.state == Block {
      NewLcWakes(hw, j, h, b);
    } else {
      NewLcConverges(hw, j, h, b);
    }
  }

  lemma NewFcGreetTakes(hw: Hardware, j: Joining, c: Card, b: Bpdu)
    requires j.Ok() && ActsOn(hw, j.r, c, b) && c.us !in j.ran && FcNum(c.us) && Greeted(j, c) && Greets(j, b)
    ensures Taken(j.r, GreetCard(j), GreetSays(j), c, b, Rx(c, b))
  {
    hide FcWakes, FcConverges, Rx;
    var h := c.(heard := c.heard + [(b.from, b.kind)]);
    ActsAs(hw, j.r, c, b);
    if c.state == Block {
      NewFcWakes(hw, j, h, b);
    } else {
      NewFcConverges(hw, j, h, b);
    }
  }

  lemma GreetTakes(hw: Hardware, j: Joining, c: Card, b: Bpdu)
    requires j.Ok() && !Clash(j) && ActsOn(hw, j.r, c, b) && Greeted(j, c) && Greets(j, b)
    ensures Taken(j.r, GreetCard(j), GreetSays(j), c, b, Rx(c, b))
  {
    hide Greeted, Greets, Taken, Rx;
    if LcNum(c.us) {
      if c.us in j.ran { OldLcGreetTakes(hw, j, c, b); } else { NewLcGreetTakes(hw, j, c, b); }
    } else {
      if c.us in j.ran { OldFcGreetTakes(hw, j, c, b); } else { NewFcGreetTakes(hw, j, c, b); }
    }
  }

  lemma GreetOblivious(j: Joining)
    requires j.Ok()
    ensures Oblivious(j.r.p, GreetCard(j))
  {
  }

  lemma GreetRegime(hw: Hardware, j: Joining)
    requires j.Ok() && !Clash(j)
    ensures Regime(hw, j.r, GreetCard(j), GreetSays(j))
  {
    hide Greeted, Greets, Taken, Rx, ActsOn, Oblivious;
    GreetOblivious(j);
    forall c: Card, b: Bpdu | ActsOn(hw, j.r, c, b) && GreetCard(j)(c) && GreetSays(j)(b)
      ensures Taken(j.r, GreetCard(j), GreetSays(j), c, b, Rx(c, b))
    {
      GreetTakes(hw, j, c, b);
    }
  }

  /** Before the first round: a card that ran is in the steady state, any other has
      just started. */
  predicate Arrives(j: Joining, c: Card) {
    if c.us in j.ran then
      Holds(j.r, c) && c.since == 0 && (c.us == j.r.fc ==> Age(c.exist, j.r.lc - 1) == FULL_AGE)
    else c.state == Block && c.since == 0
  }

  lemma ArrivesTicks(hw: Hardware, j: Joining, c: Card)
    requires j.Ok() && CardOk(hw, c) && j.r.p.Has(c.us) && Arrives(j, c)
    ensures Begins(j.r, GreetCard(j), GreetSays(j), c.us, Tick(c))
  {
  }

  ghost predicate Arrived(hw: Hardware, j: Joining, net: Net) {
    && Base(hw, j.r.p, net) && j.Ok() && net.flight == []
    && forall n :: n in net.cards && j.r.p.Has(n) ==> Arrives(j, net.cards[n])
  }

  lemma GreetRound(hw: Hardware, j: Joining, net: Net, l: Lockstep, after: Net)
    requires Arrived(hw, j, net) && !Clash(j) && Round(hw, net, l, after)
    ensures AllKept(hw, j.r, GreetCard(j), after)
  {
    hide Begins, Clash, Round, AllKept, Regime;
    forall n | n in net.cards && j.r.p.Has(n)
      ensures Begins(j.r, GreetCard(j), GreetSays(j), n, Tick(net.cards[n]))
    {
      BaseCard(hw, j.r.p, net, n);
      ArrivesTicks(hw, j, net.cards[n]);
    }
    GreetRegime(hw, j);
    KeepRound(hw, j.r, GreetCard(j), GreetSays(j), net, l, after);
  }

  // ------------------------------------------- one card in the rounds after

  /** The line cards whose CONFIG has come in this round. */
  function Asked(r: Roots, c: Card): set<nat> {
    set l: nat | l < LINE_CARDS && LcNum(l) && Upper(l) == r.p.upper && (l, Config) in c.heard
  }

  /** A card that ran before. The root FC replies to every CONFIG, which ages its
      table, but not so often that it loses the root LC. */
  predicate Leading(r: Roots, c: Card) {
    && c.state == Forwarding && c.rootPort == r.fc && c.designBridge.Num() == r.lc
    && (c.us != r.fc ==> c.rootLc == r.lc)
    && (Kept(r, c) ==> c.since == 0 && (c.us == r.fc ==> Age(c.exist, r.lc - 1) + |Asked(r, c)| >= FULL_AGE))
  }

  /** A new line card during round k. */
  predicate LateLc(r: Roots, k: nat, c: Card) {
    && c.rootPort == r.fc && 0 < c.rootLc <= r.lc && 1 <= k <= 14 && AtPhase(c, k - 1)
    && (k == 14 && Kept(r, c) ==> c.rootLc == r.lc)
  }

  /** A new fabric card during round k; it forwards from round 10 on. */
  predicate LateFc(r: Roots, k: nat, c: Card) {
    && c.rootPort == r.fc && 0 < c.rootLc <= r.lc && 1 <= k <= 14
    && (if k <= 10 then AtPhase(c, k - 1) else c.state == Forwarding && c.since <= 1 && c.rootLc == r.lc)
    && (k >= 10 && Kept(r, c) ==> c.rootLc == r.lc && c.since == 0)
  }

  predicate Settles(j: Joining, k: nat, c: Card) {
    if c.us in j.ran then Leading(j.r, c) else if LcNum(c.us) then LateLc(j.r, k, c) else LateFc(j.r, k, c)
  }

  /** A BPDU of these rounds: all name the root FC, and only a new card may still
      name a root LC that is smaller than the true one. */
  predicate SettledBpdu(j: Joining, b: Bpdu) {
    && j.r.p.Has(b.from) && b.root.Num() == j.r.fc && 0 < b.design.Num() <= j.r.lc
    && (b.kind == Hello || b.kind == Reply || b.kind == Config)
    && (b.kind == Hello ==> b.design.Num() == j.r.lc)
    && (b.from in j.ran ==> b.design.Num() == j.r.lc && b.kind != Config)
    && (Leads(j.r, b) ==> NamesLiveDesign(b))
  }

  ghost function SettleCard(j: Joining, k: nat): Card -> bool {
    (c: Card) => Settles(j, k, c)
  }

  ghost function SettleSays(j: Joining): Bpdu -> bool {
    (b: Bpdu) => SettledBpdu(j, b)
  }

  lemma OldLcSettled(hw: Hardware, j: Joining, h: Card, b: Bpdu)
    requires CardOk(hw, h) && BpduOk(hw, b) && SamePlane(h.us, b.from) && LcNum(h.us) && FcNum(b.from)
    requires j.Ok() && j.r.p.Has(h.us) && h.us in j.ran && SettledBpdu(j, b)
    requires h.state == Forwarding && h.rootPort == j.r.fc && h.rootLc == j.r.lc
    ensures var o := LcForwards(h, b);
            && o.card.us == h.us && o.card.state == Forwarding && o.card.rootPort == j.r.fc
            && o.card.rootLc == j.r.lc && o.card.designBridge == h.designBridge && o.card.heard == h.heard
            && (b.kind == Hello ==> o.card.since == 0) && (o.card.since == 0 || o.card.since == h.since)
    ensures forall s :: s in LcForwards(h, b).sent ==> SettledBpdu(j, s)
    ensures h.us == j.r.lc && Leads(j.r, b) ==>
              |LcForwards(h, b).sent| == 1 && LcForwards(h, b).sent[0].kind == Hello
    ensures !(h.us == j.r.lc && Leads(j.r, b)) ==> forall s :: s in LcForwards(h, b).sent ==> s.kind == Reply
  {
  }

  lemma OldFcSettled(hw: Hardware, j: Joining, h: Card, b: Bpdu)
    requires CardOk(hw, h) && BpduOk(hw, b) && SamePlane(h.us, b.from) && FcNum(h.us) && LcNum(b.from)
    requires j.Ok() && j.r.p.Has(h.us) && h.us in j.ran && SettledBpdu(j, b)
    requires h.state == Forwarding && h.rootPort == j.r.fc && h.designBridge.Num() == j.r.lc
    ensures var o := FcForwards(h, b);
            && o.card.us == h.us && o.card.state == Forwarding && o.card.rootPort == j.r.fc
            && o.card.rootLc == h.rootLc && o.card.designBridge == h.designBridge && o.card.heard == h.heard
            && (b.kind == Hello ==> o.card.since == 0) && (o.card.since == 0 || o.card.since == h.since)
    ensures forall s :: s in FcForwards(h, b).sent ==> SettledBpdu(j, s)
    ensures h.us == j.r.fc ==>
              FcForwards(h, b).card.exist
              == if b.kind == Config then Aged(Merged(h, b).exist, h.us) else Merged(h, b).exist
  {
  }

  lemma NewLcSettles(hw: Hardware, j: Joining, h: Card, b: Bpdu, n: nat)
    requires CardOk(hw, h) && BpduOk(hw, b) && SamePlane(h.us, b.from) && LcNum(h.us) && FcNum(b.from)
    requires j.Ok() && j.New(h.us) && SettledBpdu(j, b) && AtPhase(h, n) && n < 13
    requires h.rootPort == j.r.fc && 0 < h.rootLc <= j.r.lc
    ensures var o := LcConverges(h, b);
            && o.sent == [] && o.card.us == h.us && o.card.heard == h.heard && AtPhase(o.card, n)
            && o.card.rootPort == j.r.fc && 0 < o.card.rootLc <= j.r.lc
  {
  }

  lemma NewLcForwards(hw: Hardware, j: Joining, h: Card, b: Bpdu)
    requires CardOk(hw, h) && BpduOk(hw, b) && SamePlane(h.us, b.from) && LcNum(h.us) && FcNum(b.from)
    requires j.Ok() && j.New(h.us) && SettledBpdu(j, b) && h.state == Forwarding && h.since == 0
    requires h.rootPort == j.r.fc && 0 < h.rootLc <= j.r.lc
    ensures var o := LcForwards(h, b);
            && o.card.us == h.us && o.card.heard == h.heard && o.card.state == Forwarding && o.card.since == 0
            && o.card.rootPort == j.r.fc && 0 < o.card.rootLc <= j.r.lc
            && (h.rootLc == j.r.lc || Leads(j.r, b) ==> o.card.rootLc == j.r.lc)
    ensures forall s :: s in LcForwards(h, b).sent ==> SettledBpdu(j, s)
  {
  }

  lemma NewFcSettles(hw: Hardware, j: Joining, h: Card, b: Bpdu, n: nat)
    requires CardOk(hw, h) && BpduOk(hw, b) && SamePlane(h.us, b.from) && FcNum(h.us) && LcNum(b.from)
    requires j.Ok() && j.New(h.us) && SettledBpdu(j, b) && AtPhase(h, n) && n < 9
    requires h.rootPort == j.r.fc && 0 < h.rootLc <= j.r.lc
    ensures var o := FcConverges(h, b);
            && o.sent == [] && o.card.us == h.us && o.card.heard == h.heard && AtPhase(o.card, n)
            && o.card.rootPort == j.r.fc && 0 < o.card.rootLc <= j.r.lc
  {
  }

  lemma NewFcForwards(hw: Hardware, j: Joining, h: Card, b: Bpdu)
    requires CardOk(hw, h) && BpduOk(hw, b) && SamePlane(h.us, b.from) && FcNum(h.us) && LcNum(b.from)
    requires j.Ok() && j.New(h.us) && SettledBpdu(j, b) && h.state == Forwarding
    requires h.rootPort == j.r.fc && 0 < h.rootLc <= j.r.lc
    ensures var o := FcForwards(h, b);
            && o.card.us == h.us && o.card.heard == h.heard && o.card.state == Forwarding
            && o.card.rootPort == j.r.fc && 0 < o.card.rootLc <= j.r.lc
            && (o.card.since == 0 || o.card.since == h.since) && (b.kind == Hello ==> o.card.since == 0)
            && (h.rootLc == j.r.lc || (b.kind == Hello && b.from == j.r.lc) ==> o.card.rootLc == j.r.lc)
    ensures forall s :: s in FcForwards(h, b).sent ==> SettledBpdu(j, s)
  {
    OwnAge(hw, b);
  }

  // ------------------------------------------------------------- rounds after

  lemma AskedGrows(r: Roots, c: Card, d: Card, from: nat, kind: Kind)
    requires d.heard == c.heard + [(from, kind)] && (from, kind) !in c.heard
    ensures Asked(r, d) == if LcNum(from) && Upper(from) == r.p.upper && kind == Config then Asked(r, c) + {from}
                           else Asked(r, c)
    ensures |Asked(r, d)| >= |Asked(r, c)|
    ensures LcNum(from) && Upper(from) == r.p.upper && kind == Config ==> |Asked(r, d)| == |Asked(r, c)| + 1
  {
    assert from !in Asked(r, c) || kind != Config;
    assert Asked(r, d) == if LcNum(from) && Upper(from) == r.p.upper && kind == Config then Asked(r, c) + {from}
                          else Asked(r, c);
  }

  /** A plane has eight line cards. */
  lemma AskedFew(r: Roots, c: Card)
    ensures |Asked(r, c)| <= 8
  {
    var all := if r.p.upper then {1, 3, 5, 7, 9, 11, 13, 15} else {17, 19, 21, 23, 25, 27, 29, 31};
    assert |all| == 8;
    forall l | l in Asked(r, c)
      ensures l in all
    {
    }
    SubsetSize(Asked(r, c), all);
  }

  lemma HeardCardOk(hw: Hardware, c: Card, h: Card)
    requires CardOk(hw, c) && h == c.(heard := h.heard)
    ensures CardOk(hw, h)
  {
  }

  /** The root FC's table after b: what it holds of the root LC is lost at most as
      fast as CONFIGs come in. */
  lemma RootHolds(hw: Hardware, j: Joining, c: Card, h: Card, b: Bpdu, t: Table)
    requires j.Ok() && ActsOn(hw, j.r, c, b) && c.us == j.r.fc && h == c.(heard := c.heard + [(b.from, b.kind)])
    requires Leading(j.r, c) && Kept(j.r, h)
    requires t == if b.kind == Config then Aged(Merged(h, b).exist, h.us) else Merged(h, b).exist
    ensures Age(t, j.r.lc - 1) + |Asked(j.r, h)| >= FULL_AGE
  {
    hide Asked, Merged, Aged, CardOk, BpduOk, HeardOk;
    HeardCardOk(hw, c, h);
    MergedAge(hw, h, b, j.r.lc);
    AgedByOne(Merged(h, b).exist, h.us, j.r.lc - 1);
    AskedGrows(j.r, c, h, b.from, b.kind);
    if !Kept(j.r, c) {
      MergedFull(hw, h, b);
    }
  }

  lemma OldLcSettleTakes(hw: Hardware, j: Joining, k: nat, c: Card, b: Bpdu)
    requires j.Ok() && ActsOn(hw, j.r, c, b) && c.us in j.ran && LcNum(c.us) && Settles(j, k, c) && SettledBpdu(j, b)
    ensures Taken(j.r, SettleCard(j, k), SettleSays(j), c, b, Rx(c, b))
  {
    hide LcForwards, FcForwards, Rx, Asked;
    ActsForwarding(hw, j.r, c, b);
    OldLcSettled(hw, j, c.(heard := c.heard + [(b.from, b.kind)]), b);
  }

  lemma OldFcSettleTakes(hw: Hardware, j: Joining, k: nat, c: Card, b: Bpdu)
    requires j.Ok() && ActsOn(hw, j.r, c, b) && c.us in j.ran && FcNum(c.us) && Settles(j, k, c) && SettledBpdu(j, b)
    ensures Taken(j.r, SettleCard(j, k), SettleSays(j), c, b, Rx(c, b))
  {
    hide LcForwards, FcForwards, Rx, TableOk, Merged;
    var h := c.(heard := c.heard + [(b.from, b.kind)]);
    ActsForwarding(hw, j.r, c, b);
    OldFcSettled(hw, j, h, b);
    if c.us == j.r.fc && Kept(j.r, h) {
      RootHolds(hw, j, c, h, b, FcForwards(h, b).card.exist);
      assert Asked(j.r, FcForwards(h, b).card) == Asked(j.r, h);
    }
  }

  lemma NewLcSettleTakes(hw: Hardware, j: Joining, k: nat, c: Card, b: Bpdu)
    requires j.Ok() && ActsOn(hw, j.r, c, b) && c.us !in j.ran && LcNum(c.us) && Settles(j, k, c) && SettledBpdu(j, b)
    ensures Taken(j.r, SettleCard(j, k), SettleSays(j), c, b, Rx(c, b))
  {
    hide LcForwards, LcConverges, Rx;
    var h := c.(heard := c.heard + [(b.from, b.kind)]);
    ActsAs(hw, j.r, c, b);
    if k <= 13 {
      NewLcSettles(hw, j, h, b, k - 1);
    } else {
      NewLcForwards(hw, j, h, b);
    }
  }

  lemma NewFcSettleTakes(hw: Hardware, j: Joining, k: nat, c: Card, b: Bpdu)
    requires j.Ok() && ActsOn(hw, j.r, c, b) && c.us !in j.ran && FcNum(c.us) && Settles(j, k, c) && SettledBpdu(j, b)
    ensures Taken(j.r, SettleCard(j, k), SettleSays(j), c, b, Rx(c, b))
  {
    hide FcForwards, FcConverges, Rx;
    var h := c.(heard := c.heard + [(b.from, b.kind)]);
    ActsAs(hw, j.r, c, b);
    if k <= 9 {
      NewFcSettles(hw, j, h, b, k - 1);
    } else {
      NewFcForwards(hw, j, h, b);
    }
  }

  lemma SettleTakes(hw: Hardware, j: Joining, k: nat, c: Card, b: Bpdu)
    requires j.Ok() && ActsOn(hw, j.r, c, b) && Settles(j, k, c) && SettledBpdu(j, b)
    ensures Taken(j.r, SettleCard(j, k), SettleSays(j), c, b, Rx(c, b))
  {
    hide Settles, SettledBpdu, Taken, Rx;
    if LcNum(c.us) {
      if c.us in j.ran { OldLcSettleTakes(hw, j, k, c, b); } else { NewLcSettleTakes(hw, j, k, c, b); }
    } else {
      if c.us in j.ran { OldFcSettleTakes(hw, j, k, c, b); } else { NewFcSettleTakes(hw, j, k, c, b); }
    }
  }

  lemma AskedOblivious(r: Roots, c: Card, q: (nat, Kind))
    requires Upper(q.0) != r.p.upper
    ensures Asked(r, c.(heard := c.heard + [q])) == Asked(r, c)
  {
  }

  lemma SettleOblivious(j: Joining, k: nat)
    requires j.Ok()
    ensures Oblivious(j.r.p, SettleCard(j, k))
  {
    forall c: Card, q: (nat, Kind) | SettleCard(j, k)(c) && Upper(q.0) != j.r.p.upper
      ensures SettleCard(j, k)(c.(heard := c.heard + [q]))
    {
      AskedOblivious(j.r, c, q);
    }
  }

  lemma SettleRegime(hw: Hardware, j: Joining, k: nat)
    requires j.Ok()
    ensures Regime(hw, j.r, SettleCard(j, k), SettleSays(j))
  {
    hide Settles, SettledBpdu, Taken, Rx, ActsOn, Oblivious;
    SettleOblivious(j, k);
    forall c: Card, b: Bpdu | ActsOn(hw, j.r, c, b) && SettleCard(j, k)(c) && SettleSays(j)(b)
      ensures Taken(j.r, SettleCard(j, k), SettleSays(j), c, b, Rx(c, b))
    {
      SettleTakes(hw, j, k, c, b);
    }
  }

  lemma LeadingTicks(hw: Hardware, j: Joining, k: nat, c: Card)
    requires j.Ok() && CardOk(hw, c) && j.r.p.Has(c.us) && c.us in j.ran && Leading(j.r, c) && Kept(j.r, c)
    ensures Begins(j.r, SettleCard(j, k), SettleSays(j), c.us, Tick(c))
  {
    AskedFew(j.r, c);
  }

  lemma LateTicks(hw: Hardware, j: Joining, k: nat, c: Card)
    requires j.Ok() && CardOk(hw, c) && j.r.p.Has(c.us) && c.us !in j.ran && Settles(j, k, c) && Kept(j.r, c)
    requires k <= 13
    ensures Begins(j.r, SettleCard(j, k + 1), SettleSays(j), c.us, Tick(c))
  {
    hide Asked;
  }

  /** From round k to round k + 1. */
  lemma SettleRound(hw: Hardware, j: Joining, k: nat, net: Net, l: Lockstep, after: Net)
    requires j.Ok() && AllKept(hw, j.r, SettleCard(j, k), net) && k <= 13 && Round(hw, net, l, after)
    ensures AllKept(hw, j.r, SettleCard(j, k + 1), after)
  {
    hide Begins, Settles, Round, Regime;
    forall n | n in net.cards && j.r.p.Has(n)
      ensures Begins(j.r, SettleCard(j, k + 1), SettleSays(j), n, Tick(net.cards[n]))
    {
      BaseCard(hw, j.r.p, net, n);
      SettleTicks(hw, j, k, net.cards[n]);
    }
    SettleRegime(hw, j, k + 1);
    KeepRound(hw, j.r, SettleCard(j, k + 1), SettleSays(j), net, l, after);
  }

  lemma SettleTicks(hw: Hardware, j: Joining, k: nat, c: Card)
    requires j.Ok() && CardOk(hw, c) && j.r.p.Has(c.us) && Settles(j, k, c) && Kept(j.r, c) && k <= 13
    ensures Begins(j.r, SettleCard(j, k + 1), SettleSays(j), c.us, Tick(c))
  {
    hide Begins;
    if c.us in j.ran {
      LeadingTicks(hw, j, k + 1, c);
    } else {
      LateTicks(hw, j, k, c);
    }
  }

  // ------------------------------------------------------------- all 14 rounds

  lemma GreetedSettles(j: Joining, c: Card)
    requires j.Ok() && Greeted(j, c) && Kept(j.r, c)
    ensures Settles(j, 1, c)
  {
  }

  lemma GreetedIsSettled(hw: Hardware, j: Joining, net: Net)
    requires j.Ok() && AllKept(hw, j.r, GreetCard(j), net)
    ensures AllKept(hw, j.r, SettleCard(j, 1), net)
  {
    hide Greeted, Settles;
    forall n | n in net.cards && j.r.p.Has(n)
      ensures SettleCard(j, 1)(net.cards[n])
    {
      assert GreetCard(j)(net.cards[n]);
      GreetedSettles(j, net.cards[n]);
    }
  }

  ghost function SettledOf(hw: Hardware, j: Joining): (nat, Net) -> bool {
    (k: nat, x: Net) => AllKept(hw, j.r, SettleCard(j, k + 1), x)
  }

  lemma SettleClimbs(hw: Hardware, j: Joining)
    requires j.Ok()
    ensures Climbs(hw, SettledOf(hw, j), 13)
  {
    hide AllKept;
    forall k: nat, x: Net, r: Lockstep, y: Net | k < 13 && SettledOf(hw, j)(k, x) && Round(hw, x, r, y)
      ensures SettledOf(hw, j)(k + 1, y)
    {
      SettleRound(hw, j, k + 1, x, r, y);
    }
  }

  lemma SettledPoised(hw: Hardware, j: Joining, c: Card)
    requires j.Ok() && CardOk(hw, c) && j.r.p.Has(c.us) && Settles(j, 14, c) && Kept(j.r, c)
    ensures Poised(j.r, c)
  {
    hide Asked;
  }

  lemma SettledIsSteady(hw: Hardware, j: Joining, net: Net)
    requires j.Ok() && AllKept(hw, j.r, SettleCard(j, 14), net)
    ensures SteadyStart(hw, j.r, net)
  {
    hide Settles;
    forall n | n in net.cards && j.r.p.Has(n)
      ensures Poised(j.r, net.cards[n])
    {
      BaseCard(hw, j.r.p, net, n);
      assert SettleCard(j, 14)(net.cards[n]);
      SettledPoised(hw, j, net.cards[n]);
    }
  }

  lemma JoinSettles(hw: Hardware, j: Joining, nets: seq<Net>, rs: seq<Lockstep>)
    requires Rounds(hw, nets, rs) && |rs| >= 14 && Arrived(hw, j, nets[0]) && !Clash(j)
    ensures SteadyStart(hw, j.r, nets[14])
  {
    hide AllKept, Clash, SteadyStart;
    assert Round(hw, nets[0], rs[0], nets[0 + 1]);
    GreetRound(hw, j, nets[0], rs[0], nets[1]);
    GreetedIsSettled(hw, j, nets[1]);
    RoundsFrom(hw, nets, rs, 1);
    SettleClimbs(hw, j);
    assert SettledOf(hw, j)(0, nets[1..][0]);
    RoundsClimb(hw, SettledOf(hw, j), nets[1..], rs[1..], 13, 13);
    assert nets[1..][13] == nets[14];
    SettledIsSteady(hw, j, nets[14]);
  }

  // -------------------------------------------------------- the one exception

  /** Every reception keeps inv. */
  ghost predicate KeptByRx(hw: Hardware, inv: Card -> bool) {
    forall c: Card, b: Bpdu {:trigger Rx(c, b)} ::
      CardOk(hw, c) && HeardOk(c) && BpduOk(hw, b) && Accepts(c.us, b.dst) && inv(c) ==> inv(Rx(c, b).card)
  }

  ghost function HasOf(hw: Hardware, inv: Card -> bool, n: nat): Net -> bool {
    (x: Net) => NetOk(hw, x) && NetHeardOk(x) && n in x.cards && inv(x.cards[n])
  }

  lemma DeliverHas(hw: Hardware, inv: Card -> bool, n: nat, net: Net, k: nat)
    requires KeptByRx(hw, inv) && HasOf(hw, inv, n)(net)
    ensures HasOf(hw, inv, n)(Apply(hw, net, Deliver(k)))
  {
    hide Rx;
    ApplyOk(hw, net, Deliver(k));
    ApplyHeard(hw, net, Deliver(k));
    if k < |net.flight| && net.flight[k].to == n {
      assert CopyOk(hw, net.flight[k]);
      assert inv(Rx(net.cards[n], net.flight[k].b).card);
    }
  }

  /** What card n is after its tick and every reception keeps, it is after the round. */
  lemma CardRound(hw: Hardware, inv: Card -> bool, net: Net, n: nat, r: Lockstep, after: Net)
    requires NetOk(hw, net) && NetHeardOk(net) && n in net.cards && KeptByRx(hw, inv)
    requires inv(Tick(net.cards[n]).card) && Round(hw, net, r, after)
    ensures NetOk(hw, after) && NetHeardOk(after) && n in after.cards && inv(after.cards[n])
  {
    hide NetOk, NetHeardOk;
    CardTicks(hw, inv, net, n, r.ticks);
    forall x: Net, k: nat | HasOf(hw, inv, n)(x)
      ensures HasOf(hw, inv, n)(Apply(hw, x, Deliver(k)))
    {
      DeliverHas(hw, inv, n, x, k);
    }
    RoundKeeps(hw, HasOf(hw, inv, n), HasOf(hw, inv, n), net, r, after);
    assert HasOf(hw, inv, n)(after);
  }

  lemma CardTicks(hw: Hardware, inv: Card -> bool, net: Net, n: nat, ts: Order)
    requires NetOk(hw, net) && NetHeardOk(net) && n in net.cards && inv(Tick(net.cards[n]).card)
    ensures HasOf(hw, inv, n)(AllTick(net, ts))
  {
    TickFrom(hw, net, n);
    AllTickOk(hw, net, ts);
    DoCards(Tick, net, ts);
  }

  /** Line card c, on its way to FORWARDING, holds f or a smaller card for root FC. */
  ghost function Strayed(f: nat, k: nat): Card -> bool {
    (c: Card) => LcNum(c.us) && AtPhase(c, k) && 1 <= c.rootPort <= f
  }

  ghost function StrayForwards(f: nat): Card -> bool {
    (c: Card) => LcNum(c.us) && (c.state == Forwarding ==> 1 <= c.rootPort <= f)
  }

  lemma RxKeepsPhase(c: Card, b: Bpdu, k: nat)
    requires CpuA(c.us) && AtPhase(c, k) && c.state != Forwarding
    ensures AtPhase(Rx(c, b).card, k) && Rx(c, b).card.us == c.us
  {
  }

  lemma StaysStrayed(hw: Hardware, f: nat, k: nat)
    requires k <= 12
    ensures KeptByRx(hw, Strayed(f, k))
  {
    hide Rx;
    forall c: Card, b: Bpdu | CardOk(hw, c) && Strayed(f, k)(c)
      ensures Strayed(f, k)(Rx(c, b).card)
    {
      ElectingIsConsistent(hw, c);
      HearStep(c, b);
      RxKeepsPhase(c, b, k);
    }
  }

  lemma ForwardsStrayed(hw: Hardware, f: nat)
    ensures KeptByRx(hw, StrayForwards(f))
  {
    forall c: Card, b: Bpdu | CardOk(hw, c) && BpduOk(hw, b) && StrayForwards(f)(c)
      ensures StrayForwards(f)(Rx(c, b).card)
    {
      StrayRx(hw, f, c, b);
    }
  }

  lemma StrayRx(hw: Hardware, f: nat, c: Card, b: Bpdu)
    requires CardOk(hw, c) && BpduOk(hw, b) && StrayForwards(f)(c)
    ensures StrayForwards(f)(Rx(c, b).card)
  {
  }

  lemma StrayTicks(hw: Hardware, f: nat, k: nat, c: Card)
    requires CardOk(hw, c) && Strayed(f, k)(c) && k <= 12
    ensures k < 12 ==> Strayed(f, k + 1)(Tick(c).card)
    ensures k == 12 ==> StrayForwards(f)(Tick(c).card)
  {
  }

  lemma StrayRound(hw: Hardware, l: nat, f: nat, k: nat, net: Net, r: Lockstep, after: Net)
    requires HasOf(hw, Strayed(f, k), l)(net) && k <= 12 && Round(hw, net, r, after)
    ensures k < 12 ==> HasOf(hw, Strayed(f, k + 1), l)(after)
    ensures k == 12 ==> HasOf(hw, StrayForwards(f), l)(after)
  {
    hide Round, Strayed, StrayForwards;
    StrayTicks(hw, f, k, net.cards[l]);
    if k < 12 {
      StaysStrayed(hw, f, k + 1);
      CardRound(hw, Strayed(f, k + 1), net, l, r, after);
    } else {
      ForwardsStrayed(hw, f);
      CardRound(hw, StrayForwards(f), net, l, r, after);
    }
  }

  /** The card has not got beyond waking. */
  predicate Early(c: Card) {
    c.state == Block || AtPhase(c, 0)
  }

  /** In the first round, line card l has taken note of fabric card f, or is going
      to; f itself says nothing but the CONFIG that names it. */
  ghost predicate Straying(hw: Hardware, l: nat, f: nat, net: Net) {
    && NetOk(hw, net) && NetHeardOk(net) && l in net.cards && f in net.cards
    && LcNum(l) && FcNum(f) && SamePlane(l, f) && Early(net.cards[l]) && Early(net.cards[f])
    && ((f, Config) in net.cards[l].heard ==> Strayed(f, 0)(net.cards[l]))
    && ((f, Config) in net.cards[l].heard || Pending(net, l, f, Config))
    && NamesItself(f, net)
  }

  ghost predicate NamesItself(f: nat, net: Net) {
    forall c :: c in net.flight && c.b.from == f && c.b.kind == Config ==> c.b.root.Num() == f
  }

  /** What the receiver of one copy did. */
  ghost predicate StrayTakes(hw: Hardware, l: nat, f: nat, c: Card, b: Bpdu, o: Out) {
    && OutOk(hw, c.us, o)
    && o.card.heard == (if (b.from, b.kind) in c.heard then c.heard else c.heard + [(b.from, b.kind)])
    && (Early(c) ==> Early(o.card) && (FcNum(c.us) ==> o.sent == []))
    && (c.us == l && (Strayed(f, 0)(c) || (b.from == f && b.kind == Config && (f, Config) !in c.heard)) ==>
          Strayed(f, 0)(o.card))
  }

  lemma StrayTaken(hw: Hardware, l: nat, f: nat, c: Card, b: Bpdu)
    requires CardOk(hw, c) && HeardOk(c) && BpduOk(hw, b) && Accepts(c.us, b.dst)
    requires LcNum(l) && FcNum(f) && SamePlane(l, f) && (c.us == l ==> Early(c))
    requires b.from == f && b.kind == Config ==> b.root.Num() == f
    ensures StrayTakes(hw, l, f, c, b, Rx(c, b))
  {
    hide HeardOk, Accepts, Rx, TableOk, NamesOk;
    HearsOtherGroup(c.us, b.from);
    RxHeard(hw, c, b);
    RxOk(hw, c, b);
    NeverFull(c);
    OwnAge(hw, b);
    if Early(c) {
      EarlyRx(hw, c, b);
      ElectingIsConsistent(hw, c);
      HearStep(c, b);
      StraysOn(f, c, b);
    }
  }

  lemma EarlyRx(hw: Hardware, c: Card, b: Bpdu)
    requires CpuA(c.us) && Early(c)
    ensures Early(Rx(c, b).card) && (FcNum(c.us) ==> Rx(c, b).sent == [])
    ensures Handled(c, b) ==> AtPhase(Rx(c, b).card, 0)
    ensures AtPhase(c, 0) ==> AtPhase(Rx(c, b).card, 0)
  {
  }

  lemma StraysOn(f: nat, c: Card, b: Bpdu)
    requires CpuA(c.us) && Early(c) && Consistent(c) && (Handled(c, b) ==> Elected(c, b, Rx(c, b).card))
    requires Handled(c, b) ==> AtPhase(Rx(c, b).card, 0)
    requires AtPhase(c, 0) ==> AtPhase(Rx(c, b).card, 0)
    requires !Handled(c, b) ==> Rx(c, b).card == c.(heard := Rx(c, b).card.heard)
    requires LcNum(c.us) ==> Rx(c, b).card.us == c.us
    ensures LcNum(c.us) && Strayed(f, 0)(c) ==> Strayed(f, 0)(Rx(c, b).card)
    ensures LcNum(c.us) && Handled(c, b) && NamesLiveRoot(b) && b.root.Num() == f ==> Strayed(f, 0)(Rx(c, b).card)
  {
    hide Rx, Handled;
  }

  lemma TookNamesItself(hw: Hardware, l: nat, f: nat, net: Net, k: nat, o: Out)
    requires NamesItself(f, net) && k < |net.flight| && net.flight[k].to in net.cards
    requires forall b :: b in o.sent ==> b.from == net.flight[k].to && net.flight[k].to != f
    ensures NamesItself(f, Took(net, k, o))
  {
    SendOnly(net.cards.Keys, o.sent);
    assert forall d :: d in Without(net.flight, k) ==> d in net.flight;
  }

  lemma TookPending(hw: Hardware, l: nat, f: nat, net: Net, k: nat, o: Out)
    requires k < |net.flight| && net.flight[k].to in net.cards && l in net.cards
    requires var c := net.flight[k]; StrayTakes(hw, l, f, net.cards[c.to], c.b, o)
    requires (f, Config) in net.cards[l].heard || Pending(net, l, f, Config)
    ensures var t := Took(net, k, o); (f, Config) in t.cards[l].heard || Pending(t, l, f, Config)
  {
    hide OutOk, Strayed, Early;
    if Pending(net, l, f, Config) && !Of(net.flight[k], l, f, Config) {
      PendingKept(net, k, o, l, f, Config);
    }
  }

  lemma TookStraying(hw: Hardware, l: nat, f: nat, net: Net, k: nat, o: Out)
    requires Straying(hw, l, f, net) && k < |net.flight| && net.flight[k].to in net.cards
    requires var c := net.flight[k]; StrayTakes(hw, l, f, net.cards[c.to], c.b, o)
    requires NetOk(hw, Took(net, k, o)) && NetHeardOk(Took(net, k, o))
    ensures Straying(hw, l, f, Took(net, k, o))
  {
    hide Strayed, AtPhase, NetHeardOk, Pending, CardOk;
    TookPending(hw, l, f, net, k, o);
    TookNamesItself(hw, l, f, net, k, o);
  }

  lemma DeliverStraying(hw: Hardware, l: nat, f: nat, net: Net, k: nat)
    requires Straying(hw, l, f, net)
    ensures Straying(hw, l, f, Apply(hw, net, Deliver(k)))
  {
    DeliverIsTook(hw, net, k);
    if k < |net.flight| && net.flight[k].to in net.cards {
      StrayDelivered(hw, l, f, net, k);
      ApplyOk(hw, net, Deliver(k));
      ApplyHeard(hw, net, Deliver(k));
      hide Straying, StrayTakes, NetOk, NetHeardOk;
      TookStraying(hw, l, f, net, k, Rx(net.cards[net.flight[k].to], net.flight[k].b));
    }
  }

  lemma StrayDelivered(hw: Hardware, l: nat, f: nat, net: Net, k: nat)
    requires Straying(hw, l, f, net) && k < |net.flight| && net.flight[k].to in net.cards
    ensures var c := net.flight[k]; StrayTakes(hw, l, f, net.cards[c.to], c.b, Rx(net.cards[c.to], c.b))
  {
    hide StrayTakes, Pending, Strayed;
    var c := net.flight[k];
    assert CopyOk(hw, c) && c in net.flight;
    StrayTaken(hw, l, f, net.cards[c.to], c.b);
  }

  ghost function StrayingOf(hw: Hardware, l: nat, f: nat): Net -> bool {
    (x: Net) => Straying(hw, l, f, x)
  }

  ghost function StrayedOf(hw: Hardware, l: nat, f: nat): Net -> bool {
    (x: Net) => HasOf(hw, Strayed(f, 0), l)(x)
  }

  lemma StrayEnds(hw: Hardware, l: nat, f: nat, net: Net)
    requires Straying(hw, l, f, net) && net.flight == []
    ensures HasOf(hw, Strayed(f, 0), l)(net)
  {
    assert !Pending(net, l, f, Config);
  }

  lemma StrayingStable(hw: Hardware, l: nat, f: nat)
    ensures Stable(hw, StrayingOf(hw, l, f)) && EndsIn(StrayingOf(hw, l, f), StrayedOf(hw, l, f))
  {
    hide Straying, HasOf;
    forall x: Net, k: nat | StrayingOf(hw, l, f)(x)
      ensures StrayingOf(hw, l, f)(Apply(hw, x, Deliver(k)))
    {
      DeliverStraying(hw, l, f, x, k);
    }
    forall x: Net | StrayingOf(hw, l, f)(x) && x.flight == []
      ensures StrayedOf(hw, l, f)(x)
    {
      StrayEnds(hw, l, f, x);
    }
  }

  /** A card that has just started. */
  predicate Started(c: Card) {
    c.state == Block && c.since == 0
  }

  lemma StartedTicks(hw: Hardware, c: Card)
    requires CardOk(hw, c) && Started(c)
    ensures var o := Tick(c); o.card.us == c.us && o.card.state == Block && o.card.heard == []
    ensures FcNum(c.us) ==>
              var s := Tick(c).sent; |s| == 1 && s[0].kind == Config && s[0].root.Num() == c.us && s[0].from == c.us
  {
  }

  lemma StrayStarts(hw: Hardware, l: nat, f: nat, net: Net, ts: Order)
    requires NetOk(hw, net) && NetHeardOk(net) && net.flight == [] && l in net.cards && f in net.cards
    requires LcNum(l) && FcNum(f) && SamePlane(l, f) && Started(net.cards[l]) && Started(net.cards[f])
    ensures Straying(hw, l, f, AllTick(net, ts))
  {
    hide NetOk, NetHeardOk, Tick, CardOk, Pending, NamesItself;
    OkCard(hw, net, l);
    OkCard(hw, net, f);
    StartedTicks(hw, net.cards[l]);
    StartedTicks(hw, net.cards[f]);
    TickPending(hw, net, ts, f, l);
    AllTickOk(hw, net, ts);
    DoCards(Tick, net, ts);
    StartNamesItself(hw, f, net, ts);
  }

  lemma StartNamesItself(hw: Hardware, f: nat, net: Net, ts: Order)
    requires NetOk(hw, net) && net.flight == [] && f in net.cards && FcNum(f) && Started(net.cards[f])
    ensures NamesItself(f, AllTick(net, ts))
  {
    hide NetOk, Tick, CardOk;
    OkCard(hw, net, f);
    StartedTicks(hw, net.cards[f]);
    forall c | c in AllTick(net, ts).flight && c.b.from == f && c.b.kind == Config
      ensures c.b.root.Num() == f
    {
      var n := DoOnly(Tick, net, ts, c);
      TickFrom(hw, net, n);
    }
  }

  lemma OkCard(hw: Hardware, net: Net, n: nat)
    requires NetOk(hw, net) && n in net.cards
    ensures CardOk(hw, net.cards[n]) && net.cards[n].us == n
  {
  }

  lemma FirstStray(hw: Hardware, l: nat, f: nat, net: Net, r: Lockstep, after: Net)
    requires NetOk(hw, net) && NetHeardOk(net) && net.flight == [] && l in net.cards && f in net.cards
    requires LcNum(l) && FcNum(f) && SamePlane(l, f) && Started(net.cards[l]) && Started(net.cards[f])
    requires Round(hw, net, r, after)
    ensures HasOf(hw, Strayed(f, 0), l)(after)
  {
    hide Straying, HasOf, NetOk, NetHeardOk;
    StrayStarts(hw, l, f, net, r.ticks);
    StrayingStable(hw, l, f);
    assert StrayingOf(hw, l, f)(AllTick(net, r.ticks));
    RoundKeeps(hw, StrayingOf(hw, l, f), StrayedOf(hw, l, f), net, r, after);
    assert StrayedOf(hw, l, f)(after);
  }

  ghost function StrayAt(hw: Hardware, l: nat, f: nat): (nat, Net) -> bool {
    (k: nat, x: Net) => HasOf(hw, if k < 13 then Strayed(f, k) else StrayForwards(f), l)(x)
  }

  lemma StrayClimbs(hw: Hardware, l: nat, f: nat)
    ensures Climbs(hw, StrayAt(hw, l, f), 13)
  {
    hide HasOf, Strayed, StrayForwards;
    forall k: nat, x: Net, r: Lockstep, y: Net | k < 13 && StrayAt(hw, l, f)(k, x) && Round(hw, x, r, y)
      ensures StrayAt(hw, l, f)(k + 1, y)
    {
      StrayRound(hw, l, f, k, x, r, y);
    }
  }

  /** It keeps that root FC for good, or at least forwards under no other. */
  lemma StraysFor14(hw: Hardware, l: nat, f: nat, nets: seq<Net>, rs: seq<Lockstep>)
    requires Rounds(hw, nets, rs) && |rs| >= 14
    requires NetOk(hw, nets[0]) && NetHeardOk(nets[0]) && nets[0].flight == []
    requires l in nets[0].cards && f in nets[0].cards
    requires LcNum(l) && FcNum(f) && SamePlane(l, f) && Started(nets[0].cards[l]) && Started(nets[0].cards[f])
    ensures HasOf(hw, StrayForwards(f), l)(nets[14])
  {
    hide HasOf, NetOk, NetHeardOk, StrayForwards, Strayed;
    assert Round(hw, nets[0], rs[0], nets[0 + 1]);
    FirstStray(hw, l, f, nets[0], rs[0], nets[1]);
    RoundsFrom(hw, nets, rs, 1);
    StrayClimbs(hw, l, f);
    assert StrayAt(hw, l, f)(0, nets[1..][0]);
    RoundsClimb(hw, StrayAt(hw, l, f), nets[1..], rs[1..], 13, 13);
    assert StrayAt(hw, l, f)(13, nets[1..][13]) && nets[1..][13] == nets[14];
  }

  // ----------------------------------------------------------------- theorem

  function Starts(ns: seq<nat>): (es: seq<Event>)
    ensures |es| == |ns|
  {
    seq(|ns|, i requires 0 <= i < |ns| => Start(ns[i]))
  }

  /** Starting cards adds cards in BLOCK and changes nothing else. */
  ghost predicate Added(net: Net, after: Net) {
    && after.flight == net.flight && net.cards.Keys <= after.cards.Keys
    && forall n :: n in after.cards ==>
         if n in net.cards then after.cards[n] == net.cards[n] else Started(after.cards[n])
  }

  lemma {:induction false} StartsAdd(hw: Hardware, net: Net, ns: seq<nat>)
    ensures Added(net, Run(hw, net, Starts(ns)))
    decreases |ns|
  {
    if ns != [] {
      assert Starts(ns)[1..] == Starts(ns[1..]);
      StartsAdd(hw, Apply(hw, net, Start(ns[0])), ns[1..]);
    }
  }

  /** The cards that join, and those they join. */
  function JoinOf(r: Roots, net: Net, p: Plan): Joining {
    Joining(Roots(p, r.fc, r.lc), net.cards.Keys)
  }

  lemma JoinArrives(hw: Hardware, r: Roots, net: Net, ns: seq<nat>, p: Plan)
    requires Reachable(hw, net) && SteadyEnd(hw, r, net)
    requires PlanFor(p, Run(hw, net, Starts(ns))) && p.upper == r.p.upper
    ensures Arrived(hw, JoinOf(r, net, p), Run(hw, net, Starts(ns))) && Reachable(hw, Run(hw, net, Starts(ns)))
  {
    hide NetOk, NetHeardOk, NetPortsOk, Reachable, Run;
    var after, j := Run(hw, net, Starts(ns)), JoinOf(r, net, p);
    StartsAdd(hw, net, ns);
    StartsReachable(hw, net, Starts(ns));
    ReachableKeeps(hw, after);
    forall n | n in after.cards && p.Has(n)
      ensures Arrives(j, after.cards[n])
    {
      BaseCard(hw, p, after, n);
      assert n in net.cards ==> r.p.Has(n) && Holds(r, net.cards[n]);
      HoldsArrives(r, j, after.cards[n]);
    }
  }

  lemma HoldsArrives(r: Roots, j: Joining, c: Card)
    requires j.r.fc == r.fc && j.r.lc == r.lc
    requires if c.us in j.ran then Holds(r, c) && Kept(r, c) && c.since == 0 else Started(c)
    ensures Arrives(j, c)
  {
  }

  lemma StartsReachable(hw: Hardware, net: Net, es: seq<Event>)
    requires Reachable(hw, net)
    ensures Reachable(hw, Run(hw, net, es))
  {
    var fs :| net == Run(hw, EMPTY, fs);
    RunAppend(hw, EMPTY, fs, es);
  }

  lemma ClashFails(hw: Hardware, j: Joining, nets: seq<Net>, rs: seq<Lockstep>)
    requires Rounds(hw, nets, rs) && |rs| >= 14 && Arrived(hw, j, nets[0]) && Clash(j)
    ensures !Agreed(nets[14], j.r.p.upper, j.r.fc, j.r.lc)
  {
    var l, f :| Pair(j, l, f);
    BaseCard(hw, j.r.p, nets[0], l);
    BaseCard(hw, j.r.p, nets[0], f);
    StraysFor14(hw, l, f, nets, rs);
    assert StrayForwards(f)(nets[14].cards[l]);
    assert InPlane(nets[14], j.r.p.upper, l);
  }

  /** Cards join a steady plane, any number at once: after 14 rounds the plane
      agrees on the same roots as before, and is a spanning tree for good, if and
      only if no line card started together with a fabric card smaller than the root
      FC. */
  lemma JoinIff(hw: Hardware, r: Roots, net: Net, ns: seq<nat>, p: Plan, nets: seq<Net>, rs: seq<Lockstep>)
    requires Reachable(hw, net) && SteadyEnd(hw, r, net) && Rounds(hw, nets, rs) && |rs| >= 14
    requires nets[0] == Run(hw, net, Starts(ns)) && PlanFor(p, nets[0]) && p.upper == r.p.upper
    ensures Agreed(nets[14], p.upper, r.fc, r.lc) <==> !Clash(JoinOf(r, net, p))
    ensures !Clash(JoinOf(r, net, p)) ==>
              && (forall k :: 14 <= k <= |rs| ==>
                    Agreed(nets[k], p.upper, r.fc, r.lc) && SpanningTree(nets[k], p.upper))
              && (|rs| > 14 ==> SteadyEnd(hw, Roots(p, r.fc, r.lc), nets[|rs|]))
  {
    hide Clash, Arrived, SteadyStart, SteadyEnd, Reachable;
    var j := JoinOf(r, net, p);
    JoinArrives(hw, r, net, ns, p);
    if Clash(j) {
      ClashFails(hw, j, nets, rs);
    } else {
      JoinSettles(hw, j, nets, rs);
      AgreementLasts(hw, j.r, nets, rs, 14);
    }
  }
}
