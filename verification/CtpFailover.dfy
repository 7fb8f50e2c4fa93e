/**
 Failover: the root line card of a plane has stopped. The root fabric card waits
 for its answers until its clock runs out, reselects, and announces the new root
 line card; the line cards take it over from that HELLO, and the other fabric
 cards from the answer of the new root line card in the round after.
 */
module CtpFailover {
  import opened Ctp
  import opened CtpInvariant
  import opened CtpNet
  import opened CtpReceive
  import opened CtpTopology
  import opened CtpGossip
  import opened CtpRounds
  import opened CtpConverge
  import opened CtpColdStart
  import opened CtpKeep
  import opened CtpSteady

  /** No stopped line card is remembered with more than this age. */
  ghost predicate Faded(p: Plan, t: Table, age: int) {
    forall j: nat :: LcNum(j) && j !in p.live ==> Age(t, j - 1) <= if age < 0 then 0 else age
  }

  /** One round under root FC `root`, after root LC `lost` stopped: the line cards
      name `was`, and the root FC says `says`. During the round its clock stands at
      `clock`; the tables of the line cards have faded to `stale`; no other fabric
      card has waited longer than `limit`. */
  datatype Turn = Turn(p: Plan, root: nat, lost: nat, was: nat, says: nat, clock: nat, stale: int, limit: nat) {
    predicate Ok() {
      && p.Ok() && p.Has(root) && FcNum(root) && LcNum(lost) && !p.Has(lost)
      && (says == lost || (p.Has(says) && LcNum(says)))
      && (was == says || (was == lost && stale > FULL_AGE))
    }
  }

  // ---------------------------------------------------------------- one card

  /** The line card has had its HELLO of this round. */
  predicate HasHello(t: Turn, c: Card) {
    (t.root, Hello) in c.heard
  }

  ghost predicate LcIn(t: Turn, c: Card) {
    && c.state == Forwarding && c.rootPort == t.root
    && if HasHello(t, c) then c.rootLc == t.says && c.since == 0 && Faded(t.p, c.exist, t.stale - 1)
       else c.rootLc == t.was && Faded(t.p, c.exist, t.stale)
  }

  ghost predicate RootIn(t: Turn, c: Card) {
    && c.state == Forwarding && c.rootPort == t.root && c.designBridge.Num() == t.says
    && (c.since == t.clock || (c.since == 0 && t.p.Has(t.says)))
    && Faded(t.p, c.exist, t.stale - 1)
  }

  /** Another fabric card. */
  predicate BackupIn(t: Turn, c: Card) {
    && c.state == Forwarding && c.rootPort == t.root && c.rootLc == c.designBridge.Num() && c.since <= t.limit
    && (c.rootLc == t.lost || (t.was == t.says == c.rootLc && (t.says, Hello) in c.heard && c.since == 0))
  }

  ghost predicate CardIn(t: Turn, c: Card) {
    if LcNum(c.us) then LcIn(t, c) else if c.us == t.root then RootIn(t, c) else BackupIn(t, c)
  }

  function AnswerKind(t: Turn, l: nat): Kind {
    if l == t.says then Hello else Reply
  }

  ghost predicate BpduIn(t: Turn, b: Bpdu) {
    && t.p.Has(b.from) && b.root.Num() == t.root && b.design.Num() == t.says && Faded(t.p, b.exist, t.stale - 1)
    && if b.from == t.root then b.kind == Hello && (t.was != t.says ==> NamesLiveDesign(b))
       else LcNum(b.from) && t.was == t.says && b.kind == AnswerKind(t, b.from)
  }

  /** A fabric card has had line card l's answer. */
  predicate HasAnswer(t: Turn, c: Card, l: nat) {
    Age(c.exist, l - 1) == FULL_AGE && (l == t.says ==> c.designBridge.Num() == t.says)
  }

  lemma MergedFaded(hw: Hardware, p: Plan, c: Card, b: Bpdu, age: int)
    requires CardOk(hw, c) && BpduOk(hw, b) && SamePlane(c.us, b.from) && c.us in p.live
    requires Faded(p, c.exist, age) && Faded(p, b.exist, age)
    ensures Faded(p, Merged(c, b).exist, age)
  {
    forall j: nat | LcNum(j) && j !in p.live
      ensures Age(Merged(c, b).exist, j - 1) <= if age < 0 then 0 else age
    {
      MergedAge(hw, c, b, j);
    }
  }

  lemma AgedFaded(p: Plan, us: nat, t: Table, age: int)
    requires us in p.live && Faded(p, t, age)
    ensures Faded(p, Aged(t, us), age - 1)
  {
  }

  lemma FullFaded(hw: Hardware, p: Plan, us: nat, t: Table)
    requires TableOk(hw, us, t)
    ensures Faded(p, t, FULL_AGE)
  {
    forall j: nat | LcNum(j) && j !in p.live
      ensures Age(t, j - 1) <= FULL_AGE
    {
      assert SlotOk(hw, us, j - 1, t[j - 1]);
    }
  }

  /** What a line card makes of the HELLO: it answers if the root LC is the one it
      knows, and else takes it over in silence. */
  lemma LcHellos(hw: Hardware, t: Turn, c: Card, b: Bpdu)
    requires CardOk(hw, c) && LcNum(c.us) && c.state == Forwarding && c.rootPort == t.root && c.rootLc == t.was
    requires t.Ok() && BpduIn(t, b) && b.from == t.root
    ensures t.was == t.says ==> LcHello(c, b) == Tx(c.(since := 0), AnswerKind(t, c.us))
    ensures t.was != t.says ==>
              var o := LcHello(c, b);
              && o.sent == [] && o.card.us == c.us && o.card.exist == c.exist && o.card.heard == c.heard
              && o.card.state == Forwarding && o.card.since == 0
              && o.card.rootPort == t.root && o.card.rootLc == t.says
  {
  }

  lemma LcHearsRoot(hw: Hardware, t: Turn, c: Card, b: Bpdu)
    requires CardOk(hw, c) && BpduOk(hw, b) && SamePlane(c.us, b.from) && LcNum(c.us) && t.p.Has(c.us)
    requires c.state == Forwarding && c.rootPort == t.root && c.rootLc == t.was && Faded(t.p, c.exist, t.stale)
    requires t.Ok() && BpduIn(t, b) && b.from == t.root && HasHello(t, c)
    ensures LcIn(t, LcForwards(c, b).card) && LcForwards(c, b).card.us == c.us
    ensures HasHello(t, LcForwards(c, b).card)
    ensures t.was != t.says ==> LcForwards(c, b).sent == []
    ensures t.was == t.says ==>
              var s := LcForwards(c, b).sent; |s| == 1 && BpduIn(t, s[0]) && s[0].kind == AnswerKind(t, c.us)
  {
    var m := Merged(c, b);
    MergedOk(hw, c, b);
    MergedFaded(hw, t.p, c, b, t.stale);
    LcHellos(hw, t, m, b);
    AgedFaded(t.p, c.us, m.exist, t.stale);
    FullFaded(hw, t.p, c.us, m.exist);
  }

  /** What a fabric card makes of an answer. */
  predicate TakesAnswer(t: Turn, c: Card, b: Bpdu, o: Out) {
    && o.sent == [] && o.card.us == c.us && o.card.exist == Merged(c, b).exist && o.card.heard == c.heard
    && o.card.state == Forwarding && o.card.rootPort == t.root
    && (o.card.since == c.since || o.card.since == 0)
    && (o.card.since != c.since ==> b.kind == Hello)
    && (if b.kind == Hello && c.us != t.root then
          o.card.rootLc == o.card.designBridge.Num() == t.says && o.card.since == 0
        else o.card.rootLc == c.rootLc && o.card.designBridge == c.designBridge)
  }

  lemma FcAnswered(hw: Hardware, t: Turn, c: Card, b: Bpdu)
    requires CardOk(hw, c) && BpduOk(hw, b) && FcNum(c.us) && c.state == Forwarding && c.rootPort == t.root
    requires t.Ok() && BpduIn(t, b) && LcNum(b.from) && t.p.Has(c.us)
    requires if c.us == t.root then c.designBridge.Num() == t.says
             else c.rootLc == c.designBridge.Num() && (b.kind == Hello ==> c.rootLc == t.lost)
    ensures TakesAnswer(t, c, b, FcForwards(c, b))
  {
    OwnAge(hw, b);
  }

  lemma FcHearsAnswer(hw: Hardware, t: Turn, c: Card, b: Bpdu)
    requires CardOk(hw, c) && BpduOk(hw, b) && SamePlane(c.us, b.from) && FcNum(c.us) && t.p.Has(c.us)
    requires t.Ok() && CardIn(t, c) && BpduIn(t, b) && LcNum(b.from) && (b.from, b.kind) !in c.heard
    ensures var h := c.(heard := c.heard + [(b.from, b.kind)]);
            CardIn(t, FcForwards(h, b).card) && HasAnswer(t, FcForwards(h, b).card, b.from)
            && FcForwards(h, b).sent == [] && FcForwards(h, b).card.us == c.us
  {
    var h := c.(heard := c.heard + [(b.from, b.kind)]);
    FcAnswered(hw, t, h, b);
    MergedFull(hw, h, b);
    if c.us == t.root {
      MergedFaded(hw, t.p, h, b, t.stale - 1);
    }
  }

  /** No answer undoes another. */
  lemma AnswersKept(hw: Hardware, t: Turn, c: Card, b: Bpdu, l: nat)
    requires CardOk(hw, c) && BpduOk(hw, b) && SamePlane(c.us, b.from) && FcNum(c.us) && t.p.Has(c.us)
    requires t.Ok() && CardIn(t, c) && BpduIn(t, b) && LcNum(b.from) && (b.from, b.kind) !in c.heard
    requires LcNum(l) && HasAnswer(t, c, l)
    ensures HasAnswer(t, FcForwards(c.(heard := c.heard + [(b.from, b.kind)]), b).card, l)
  {
    var h := c.(heard := c.heard + [(b.from, b.kind)]);
    FcAnswered(hw, t, h, b);
    MergedOk(hw, h, b);
    MergedAge(hw, h, b, l);
    assert SlotOk(hw, c.us, l - 1, Merged(h, b).exist[l - 1]);
  }

  /** What one delivery does to a card of the plane. */
  ghost predicate TakenIn(t: Turn, c: Card, b: Bpdu, o: Out) {
    && CardIn(t, o.card)
    && (forall l: nat :: LcNum(l) && FcNum(c.us) && HasAnswer(t, c, l) ==> HasAnswer(t, o.card, l))
    && if !Heeded(t.p, c, b) then
         o.card == c.(heard := o.card.heard) && o.sent == [] && HasHello(t, c) == HasHello(t, o.card)
       else if LcNum(c.us) then
         && HasHello(t, o.card) && |o.sent| == (if t.was == t.says then 1 else 0)
         && forall s :: s in o.sent ==> BpduIn(t, s) && s.from == c.us
       else HasAnswer(t, o.card, b.from) && o.sent == []
  }

  lemma LcTakes(hw: Hardware, t: Turn, c: Card, b: Bpdu)
    requires CardOk(hw, c) && HeardOk(c) && BpduOk(hw, b) && SamePlane(c.us, b.from) && LcNum(c.us) && FcNum(b.from)
    requires t.Ok() && t.p.Has(c.us) && LcIn(t, c) && BpduIn(t, b) && Heeded(t.p, c, b)
    ensures TakenIn(t, c, b, Rx(c, b))
  {
    hide LcForwards, FcForwards, Faded;
    NeverFull(c);
    var h := c.(heard := c.heard + [(b.from, b.kind)]);
    LcHearsRoot(hw, t, h, b);
    LcForwardsOk(hw, h, b);
    assert Rx(c, b) == LcForwards(h, b);
  }

  lemma FcTakes(hw: Hardware, t: Turn, c: Card, b: Bpdu)
    requires CardOk(hw, c) && HeardOk(c) && BpduOk(hw, b) && SamePlane(c.us, b.from) && FcNum(c.us) && LcNum(b.from)
    requires t.Ok() && t.p.Has(c.us) && CardIn(t, c) && BpduIn(t, b) && Heeded(t.p, c, b)
    ensures TakenIn(t, c, b, Rx(c, b))
  {
    NeverFull(c);
    var h := c.(heard := c.heard + [(b.from, b.kind)]);
    FcHearsAnswer(hw, t, c, b);
    forall l: nat | LcNum(l) && HasAnswer(t, c, l)
      ensures HasAnswer(t, FcForwards(h, b).card, l)
    {
      AnswersKept(hw, t, c, b, l);
    }
    assert Rx(c, b) == FcForwards(h, b);
  }

  lemma RxTakes(hw: Hardware, t: Turn, c: Card, b: Bpdu)
    requires CardOk(hw, c) && HeardOk(c) && BpduOk(hw, b) && Accepts(c.us, b.dst)
    requires t.Ok() && t.p.Has(c.us) && CardIn(t, c) && (Upper(b.from) == t.p.upper ==> BpduIn(t, b))
    ensures TakenIn(t, c, b, Rx(c, b))
  {
    HearsOtherGroup(c.us, b.from);
    if Heeded(t.p, c, b) {
      if LcNum(c.us) { LcTakes(hw, t, c, b); } else { FcTakes(hw, t, c, b); }
    } else {
      NotHeeded(hw, t, c, b);
    }
  }

  lemma NotHeeded(hw: Hardware, t: Turn, c: Card, b: Bpdu)
    requires CardOk(hw, c) && HeardOk(c) && BpduOk(hw, b) && Accepts(c.us, b.dst)
    requires t.Ok() && t.p.Has(c.us) && CardIn(t, c) && !Heeded(t.p, c, b)
    ensures TakenIn(t, c, b, Rx(c, b))
  {
    hide CardOk, Faded;
    if Upper(b.from) != t.p.upper {
      ForeignRx(hw, c, b);
      HearsOtherGroup(c.us, b.from);
      RxHeard(hw, c, b);
    }
  }

  // --------------------------------------------------------- one delivery

  ghost predicate CardsIn(t: Turn, net: Net) {
    forall n :: n in net.cards && t.p.Has(n) ==> CardIn(t, net.cards[n])
  }

  predicate HadHello(t: Turn, net: Net, n: nat) {
    LcNum(n) && n in net.cards ==> HasHello(t, net.cards[n])
  }

  ghost predicate FlightIn(t: Turn, net: Net) {
    forall c :: c in net.flight && Upper(c.b.from) == t.p.upper ==> BpduIn(t, c.b) && HadHello(t, net, c.b.from)
  }

  /** A line card that has had no HELLO has not been heard in this round. */
  ghost predicate NotYetHeard(t: Turn, net: Net) {
    forall l, n :: l in net.cards && t.p.Has(l) && !HadHello(t, net, l) && n in net.cards ==>
      (l, AnswerKind(t, l)) !in net.cards[n].heard
  }

  ghost predicate HelloComing(t: Turn, net: Net) {
    forall l :: l in net.cards && t.p.Has(l) && LcNum(l) ==>
      HasHello(t, net.cards[l]) || Pending(net, l, t.root, Hello)
  }

  predicate Answers(t: Turn, n: nat, l: nat) {
    t.p.Has(n) && t.p.Has(l) && FcNum(n) && LcNum(l) && t.was == t.says
  }

  /** What line card l answers is known to fabric card n or on its way there. */
  ghost predicate AnswersComing(t: Turn, net: Net) {
    forall n, l :: n in net.cards && l in net.cards && Answers(t, n, l) ==>
      HasAnswer(t, net.cards[n], l) || !HasHello(t, net.cards[l]) || Pending(net, n, l, AnswerKind(t, l))
  }

  ghost predicate Middle(hw: Hardware, t: Turn, net: Net) {
    && Base(hw, t.p, net) && t.Ok() && CardsIn(t, net) && FlightIn(t, net) && NotYetHeard(t, net)
    && HelloComing(t, net) && AnswersComing(t, net)
  }

  /** What is known of o, which the receiver of copy k did. */
  ghost predicate Taking(hw: Hardware, t: Turn, net: Net, k: nat, o: Out)
    requires k < |net.flight| && net.flight[k].to in net.cards
  {
    var c, d := net.flight[k], net.cards[net.flight[k].to];
    && PlanFor(t.p, net) && t.Ok() && HearsOnly(d, c, o) && OutOk(hw, c.to, o) && d.us == c.to && CpuA(c.to)
    && (t.p.Has(c.to) ==> TakenIn(t, d, c.b, o))
  }

  lemma TookCardsIn(hw: Hardware, t: Turn, net: Net, k: nat, o: Out)
    requires k < |net.flight| && net.flight[k].to in net.cards && Taking(hw, t, net, k, o) && CardsIn(t, net)
    ensures CardsIn(t, Took(net, k, o))
  {
  }

  lemma StillHadHello(hw: Hardware, t: Turn, net: Net, k: nat, o: Out, n: nat)
    requires k < |net.flight| && net.flight[k].to in net.cards && Taking(hw, t, net, k, o)
    requires t.p.Has(n) && HadHello(t, net, n)
    ensures HadHello(t, Took(net, k, o), n)
  {
  }

  lemma NewAnswer(hw: Hardware, t: Turn, net: Net, k: nat, o: Out, b: Bpdu)
    requires k < |net.flight| && net.flight[k].to in net.cards && Taking(hw, t, net, k, o)
    requires b in o.sent && Upper(b.from) == t.p.upper
    ensures BpduIn(t, b) && HadHello(t, Took(net, k, o), b.from)
  {
    assert b.from == net.flight[k].to;
  }

  lemma TookFlightIn(hw: Hardware, t: Turn, net: Net, k: nat, o: Out)
    requires k < |net.flight| && net.flight[k].to in net.cards && Taking(hw, t, net, k, o) && FlightIn(t, net)
    ensures FlightIn(t, Took(net, k, o))
  {
    SendOnly(net.cards.Keys, o.sent);
    assert forall d :: d in Without(net.flight, k) ==> d in net.flight;
    forall d | d in Took(net, k, o).flight && Upper(d.b.from) == t.p.upper
      ensures BpduIn(t, d.b) && HadHello(t, Took(net, k, o), d.b.from)
    {
      if d in net.flight {
        StillHadHello(hw, t, net, k, o, d.b.from);
      } else {
        NewAnswer(hw, t, net, k, o, d.b);
      }
    }
  }

  lemma TookNotYetHeard(hw: Hardware, t: Turn, net: Net, k: nat, o: Out)
    requires k < |net.flight| && net.flight[k].to in net.cards && Taking(hw, t, net, k, o)
    requires FlightIn(t, net) && NotYetHeard(t, net)
    ensures NotYetHeard(t, Took(net, k, o))
  {
    var c := net.flight[k];
    assert c in net.flight;
    forall l, n | l in net.cards && t.p.Has(l) && !HadHello(t, Took(net, k, o), l) && n in net.cards
      ensures (l, AnswerKind(t, l)) !in Took(net, k, o).cards[n].heard
    {
      if HadHello(t, net, l) {
        StillHadHello(hw, t, net, k, o, l);
      }
    }
  }

  lemma TookHelloComing(hw: Hardware, t: Turn, net: Net, k: nat, o: Out)
    requires k < |net.flight| && net.flight[k].to in net.cards && Taking(hw, t, net, k, o) && HelloComing(t, net)
    ensures HelloComing(t, Took(net, k, o))
  {
    forall l | l in net.cards && t.p.Has(l) && LcNum(l)
      ensures HasHello(t, Took(net, k, o).cards[l]) || Pending(Took(net, k, o), l, t.root, Hello)
    {
      if HasHello(t, net.cards[l]) {
        StillHadHello(hw, t, net, k, o, l);
      } else if !Of(net.flight[k], l, t.root, Hello) {
        PendingKept(net, k, o, l, t.root, Hello);
      }
    }
  }

  /** The answer of a line card that has just had its HELLO is on its way. */
  lemma AnswerSent(hw: Hardware, t: Turn, net: Net, k: nat, o: Out, n: nat)
    requires k < |net.flight| && net.flight[k].to in net.cards && Taking(hw, t, net, k, o)
    requires NotYetHeard(t, net) && n in net.cards && Answers(t, n, net.flight[k].to)
    requires !HasHello(t, net.cards[net.flight[k].to]) && HasHello(t, o.card)
    ensures Pending(Took(net, k, o), n, net.flight[k].to, AnswerKind(t, net.flight[k].to))
  {
    var l := net.flight[k].to;
    HearsOtherGroup(n, l);
    assert BpduOk(hw, o.sent[0]) && o.sent[0] in o.sent;
    SendReaches(net.cards.Keys, o.sent, n);
    assert !HadHello(t, net, l);
    assert Of(Copy(n, o.sent[0]), n, l, AnswerKind(t, l));
  }

  lemma TookAnswersComing(hw: Hardware, t: Turn, net: Net, k: nat, o: Out)
    requires k < |net.flight| && net.flight[k].to in net.cards && Taking(hw, t, net, k, o)
    requires NotYetHeard(t, net) && AnswersComing(t, net)
    ensures AnswersComing(t, Took(net, k, o))
  {
    var c, after := net.flight[k], Took(net, k, o);
    forall n, l | n in net.cards && l in net.cards && Answers(t, n, l)
      ensures HasAnswer(t, after.cards[n], l) || !HasHello(t, after.cards[l]) || Pending(after, n, l, AnswerKind(t, l))
    {
      AnswerStep(hw, t, net, k, o, n, l);
    }
  }

  lemma AnswerStep(hw: Hardware, t: Turn, net: Net, k: nat, o: Out, n: nat, l: nat)
    requires k < |net.flight| && net.flight[k].to in net.cards && Taking(hw, t, net, k, o)
    requires NotYetHeard(t, net) && n in net.cards && l in net.cards && Answers(t, n, l)
    requires HasAnswer(t, net.cards[n], l) || !HasHello(t, net.cards[l]) || Pending(net, n, l, AnswerKind(t, l))
    ensures var after := Took(net, k, o);
            HasAnswer(t, after.cards[n], l) || !HasHello(t, after.cards[l]) || Pending(after, n, l, AnswerKind(t, l))
  {
    if HasAnswer(t, net.cards[n], l) {
    } else if !HasHello(t, net.cards[l]) {
      if HasHello(t, Took(net, k, o).cards[l]) {
        AnswerSent(hw, t, net, k, o, n);
      }
    } else if !Of(net.flight[k], n, l, AnswerKind(t, l)) {
      PendingKept(net, k, o, n, l, AnswerKind(t, l));
    }
  }

  lemma DeliverTaking(hw: Hardware, t: Turn, net: Net, k: nat)
    requires Base(hw, t.p, net) && t.Ok() && CardsIn(t, net) && FlightIn(t, net)
    requires k < |net.flight| && net.flight[k].to in net.cards
    ensures Taking(hw, t, net, k, Rx(net.cards[net.flight[k].to], net.flight[k].b))
  {
    var c := net.flight[k];
    assert CopyOk(hw, c) && c in net.flight;
    RxHearsOnly(hw, net, k);
    if t.p.Has(c.to) {
      RxTakes(hw, t, net.cards[c.to], c.b);
    }
  }

  lemma TookMiddle(hw: Hardware, t: Turn, net: Net, k: nat, o: Out)
    requires Middle(hw, t, net) && k < |net.flight| && net.flight[k].to in net.cards && Taking(hw, t, net, k, o)
    requires Base(hw, t.p, Took(net, k, o))
    ensures Middle(hw, t, Took(net, k, o))
  {
    TookCardsIn(hw, t, net, k, o);
    TookFlightIn(hw, t, net, k, o);
    TookNotYetHeard(hw, t, net, k, o);
    TookHelloComing(hw, t, net, k, o);
    TookAnswersComing(hw, t, net, k, o);
  }

  lemma DeliverMiddle(hw: Hardware, t: Turn, net: Net, k: nat)
    requires Middle(hw, t, net)
    ensures Middle(hw, t, Apply(hw, net, Deliver(k)))
  {
    DeliverIsTook(hw, net, k);
    if k < |net.flight| && net.flight[k].to in net.cards {
      DeliverBase(hw, t.p, net, k);
      DeliverTaking(hw, t, net, k);
      TookMiddle(hw, t, net, k, Rx(net.cards[net.flight[k].to], net.flight[k].b));
    }
  }

  // ------------------------------------------------------------ between rounds

  /** Between two rounds: all name root LC `says`, or `lost` if they are fabric
      cards other than the root; the root's clock stands at `clock`. If `heard`,
      the root FC has just had an answer of every line card. */
  datatype Pause = Pause(p: Plan, root: nat, lost: nat, says: nat, clock: nat, stale: int, limit: nat, heard: bool) {
    predicate Ok() {
      && p.Ok() && p.Has(root) && FcNum(root) && LcNum(lost) && !p.Has(lost)
      && (says == lost || (p.Has(says) && LcNum(says))) && limit <= MAX_AGE * FORWARD_DELAY
      && clock <= MAX_AGE + 1 && (clock == MAX_AGE + 1 ==> says == lost && heard && stale < SELECT_AGE)
    }

    /** The round that follows. */
    function Next(): Turn {
      if clock <= MAX_AGE then Turn(p, root, lost, says, says, clock + 1, stale, limit + 1)
      else Turn(p, root, lost, lost, p.lc, 0, FULL_AGE + 1, limit + 1)
    }
  }

  ghost predicate Rests(s: Pause, c: Card) {
    && c.state == Forwarding && c.rootPort == s.root
    && if LcNum(c.us) then
         c.rootLc == s.says && c.since <= MAX_AGE * FORWARD_DELAY && Faded(s.p, c.exist, s.stale)
       else if c.us == s.root then
         && c.designBridge.Num() == s.says && c.since == s.clock && Faded(s.p, c.exist, s.stale)
         && (s.heard ==> forall l: nat :: s.p.Has(l) && LcNum(l) ==> Age(c.exist, l - 1) == FULL_AGE)
       else c.rootLc == c.designBridge.Num() == s.lost && c.since <= s.limit
  }

  ghost predicate AtRest(hw: Hardware, s: Pause, net: Net) {
    && Base(hw, s.p, net) && s.Ok() && net.flight == []
    && forall n :: n in net.cards && s.p.Has(n) ==> Rests(s, net.cards[n])
  }

  ghost predicate TickedIn(t: Turn, n: nat, o: Out) {
    && CardIn(t, o.card) && o.card.heard == [] && o.card.us == n
    && if n != t.root then o.sent == []
       else |o.sent| == 1 && BpduIn(t, o.sent[0]) && o.sent[0].from == n && o.sent[0].dst == DstMac(n)
  }

  lemma LcTicksIn(hw: Hardware, s: Pause, c: Card)
    requires CardOk(hw, c) && s.Ok() && LcNum(c.us) && s.p.Has(c.us) && Rests(s, c)
    ensures TickedIn(s.Next(), c.us, Tick(c))
  {
  }

  lemma BackupTicksIn(hw: Hardware, s: Pause, c: Card)
    requires CardOk(hw, c) && s.Ok() && FcNum(c.us) && s.p.Has(c.us) && c.us != s.root && Rests(s, c)
    ensures TickedIn(s.Next(), c.us, Tick(c))
  {
  }

  lemma RootTicksIn(hw: Hardware, s: Pause, c: Card)
    requires CardOk(hw, c) && s.Ok() && c.us == s.root && Rests(s, c) && s.clock <= MAX_AGE
    ensures TickedIn(s.Next(), c.us, Tick(c))
  {
    AgedFaded(s.p, c.us, c.exist, s.stale);
  }

  /** No line card before the smallest that runs is remembered well enough. */
  lemma NotPicked(hw: Hardware, p: Plan, us: nat, t: Table, i: nat)
    requires TableOk(hw, us, t) && p.Ok() && Upper(us) == p.upper && Faded(p, t, SELECT_AGE - 1)
    requires i + 1 < p.lc
    ensures t[i].age < SELECT_AGE
  {
    assert SlotOk(hw, us, i, t[i]);
    if i % 2 == 0 && i + 1 !in p.live {
      assert LcNum(i + 1) && Age(t, i) == t[i].age;
    }
  }

  lemma FirstRecentIs(t: Table, us: nat, k: nat)
    requires us > LINE_CARDS && k < LINE_CARDS && t[k].age >= SELECT_AGE
    requires forall i :: 0 <= i < k ==> t[i].age < SELECT_AGE
    ensures FirstRecent(t, us, 0) == k
  {
  }

  /** Neither way of recording the lost card makes the clearing meet another. */
  lemma ForgetsOnly(hw: Hardware, c: Card, n: nat)
    requires CardOk(hw, c) && FcNum(c.us) && LcNum(n) && n != c.designBridge.Num() && c.designBridge.Num() != 0
    ensures Forget(c.exist, c.rootLc)[n - 1] == c.exist[n - 1]
    ensures forall i :: 0 <= i < CARDS ==> Forget(c.exist, c.rootLc)[i].age <= c.exist[i].age
  {
  }

  /** The reselection picks the smallest line card that runs. */
  lemma PicksSmallest(hw: Hardware, s: Pause, c: Card)
    requires CardOk(hw, c) && s.Ok() && c.us == s.root && Rests(s, c) && s.clock == MAX_AGE + 1
    ensures FirstRecent(Forget(c.exist, c.rootLc), c.us, 0) == s.p.lc - 1
    ensures Forget(c.exist, c.rootLc)[s.p.lc - 1] == c.exist[s.p.lc - 1]
    ensures c.exist[s.p.lc - 1].age == FULL_AGE
  {
    assert Age(c.exist, s.p.lc - 1) == FULL_AGE;
    ForgetsOnly(hw, c, s.p.lc);
    var f := Forget(c.exist, c.rootLc);
    forall i | 0 <= i < s.p.lc - 1
      ensures f[i].age < SELECT_AGE
    {
      NotPicked(hw, s.p, c.us, c.exist, i);
    }
    FirstRecentIs(f, c.us, s.p.lc - 1);
  }

  lemma RootReselectsIn(hw: Hardware, s: Pause, c: Card)
    requires CardOk(hw, c) && s.Ok() && c.us == s.root && Rests(s, c) && s.clock == MAX_AGE + 1
    ensures TickedIn(s.Next(), c.us, Tick(c))
  {
    hide Tick, RootTick, TickedIn, TableOk, FirstRecent, Forget;
    var h := c.(heard := []);
    PicksSmallest(hw, s, h);
    ForgetOk(hw, h.us, h.exist, h.rootLc);
    Announces(hw, h, s.p.lc - 1);
    RootTickOk(hw, h);
    AnnouncedIn(hw, s, c, RootTick(h));
    TicksAsRoot(c);
  }

  lemma TicksAsRoot(c: Card)
    requires FcNum(c.us) && c.state == Forwarding && c.us == c.rootPort
    ensures Tick(c) == RootTick(c.(heard := []))
  {
  }

  lemma AnnouncedIn(hw: Hardware, s: Pause, c: Card, o: Out)
    requires s.Ok() && s.clock == MAX_AGE + 1 && c.us == s.root && OutOk(hw, c.us, o) && o.card.heard == []
    requires o.card.state == Forwarding && o.card.us == o.card.rootPort == c.us && o.card.since == 0
    requires o.card.designBridge.Num() == s.p.lc && |o.sent| == 1 && HelloNaming(o.sent[0], c.us, s.p.lc)
    requires o.sent[0].from == c.us && o.sent[0].dst == DstMac(c.us)
    ensures TickedIn(s.Next(), c.us, o)
  {
    FullFaded(hw, s.p, c.us, o.card.exist);
    FullFaded(hw, s.p, c.us, o.sent[0].exist);
  }

  lemma TicksIn(hw: Hardware, s: Pause, c: Card)
    requires CardOk(hw, c) && s.Ok() && s.p.Has(c.us) && Rests(s, c)
    ensures TickedIn(s.Next(), c.us, Tick(c))
  {
    if LcNum(c.us) {
      LcTicksIn(hw, s, c);
    } else if c.us != s.root {
      BackupTicksIn(hw, s, c);
    } else if s.clock <= MAX_AGE {
      RootTicksIn(hw, s, c);
    } else {
      RootReselectsIn(hw, s, c);
    }
  }

  // -------------------------------------------------------- start of a round

  /** What all cards do at the start of a round, f, in general form. */
  ghost predicate Starting(f: Card -> Out, t: Turn, net: Net) {
    && t.Ok() && PlanFor(t.p, net) && net.flight == [] && Numbered(net)
    && (forall n :: n in net.cards ==> CpuA(n) && f(net.cards[n]).card.heard == [])
    && (forall n :: n in net.cards ==> forall b :: b in f(net.cards[n]).sent ==> b.from == n)
    && (forall n :: n in net.cards && t.p.Has(n) ==> TickedIn(t, n, f(net.cards[n])))
  }

  lemma DoCardsIn(f: Card -> Out, t: Turn, net: Net, ts: Order)
    requires Starting(f, t, net)
    ensures CardsIn(t, DoAll(f, net, ts)) && NotYetHeard(t, DoAll(f, net, ts)) && AnswersComing(t, DoAll(f, net, ts))
  {
    hide CardIn;
    DoCards(f, net, ts);
  }

  lemma SentIn(f: Card -> Out, t: Turn, net: Net, n: nat, b: Bpdu)
    requires Starting(f, t, net) && n in net.cards && b in f(net.cards[n]).sent && Upper(b.from) == t.p.upper
    ensures BpduIn(t, b) && b.from == t.root
  {
    assert t.p.Has(n) && TickedIn(t, n, f(net.cards[n]));
  }

  lemma DoFlightIn(f: Card -> Out, t: Turn, net: Net, ts: Order)
    requires Starting(f, t, net)
    ensures FlightIn(t, DoAll(f, net, ts))
  {
    forall c | c in DoAll(f, net, ts).flight && Upper(c.b.from) == t.p.upper
      ensures BpduIn(t, c.b) && HadHello(t, DoAll(f, net, ts), c.b.from)
    {
      var n := DoOnly(f, net, ts, c);
      SentIn(f, t, net, n, c.b);
    }
  }

  lemma DoHelloComing(f: Card -> Out, t: Turn, net: Net, ts: Order)
    requires Starting(f, t, net)
    ensures HelloComing(t, DoAll(f, net, ts))
  {
    DoCards(f, net, ts);
    assert TickedIn(t, t.root, f(net.cards[t.root]));
    forall l | l in DoAll(f, net, ts).cards && t.p.Has(l) && LcNum(l)
      ensures Pending(DoAll(f, net, ts), l, t.root, Hello)
    {
      DoPending(f, net, ts, t.root, l, Hello);
    }
  }

  lemma RestStarts(hw: Hardware, s: Pause, net: Net)
    requires AtRest(hw, s, net)
    ensures Starting(Tick, s.Next(), net)
  {
    TicksFrom(hw, net);
    forall n | n in net.cards
      ensures Tick(net.cards[n]).card.heard == []
    {
      TickHeard(net.cards[n]);
    }
    forall n | n in net.cards && s.p.Has(n)
      ensures TickedIn(s.Next(), n, Tick(net.cards[n]))
    {
      TicksIn(hw, s, net.cards[n]);
    }
  }

  lemma RestToMiddle(hw: Hardware, s: Pause, net: Net, ts: Order)
    requires AtRest(hw, s, net)
    ensures Middle(hw, s.Next(), AllTick(net, ts))
  {
    RestStarts(hw, s, net);
    DoCardsIn(Tick, s.Next(), net, ts);
    DoFlightIn(Tick, s.Next(), net, ts);
    DoHelloComing(Tick, s.Next(), net, ts);
    AllTickOk(hw, net, ts);
    DoCards(Tick, net, ts);
  }

  // ---------------------------------------------------------- end of a round

  /** Every line card has had its HELLO, and every fabric card every answer. */
  ghost predicate Done(hw: Hardware, t: Turn, net: Net) {
    && Base(hw, t.p, net) && t.Ok() && net.flight == [] && CardsIn(t, net)
    && (forall l :: l in net.cards && t.p.Has(l) ==> HadHello(t, net, l))
    && (forall n, l :: n in net.cards && l in net.cards && Answers(t, n, l) ==> HasAnswer(t, net.cards[n], l))
  }

  lemma MiddleToDone(hw: Hardware, t: Turn, net: Net)
    requires Middle(hw, t, net) && net.flight == []
    ensures Done(hw, t, net)
  {
    forall l | l in net.cards && t.p.Has(l)
      ensures HadHello(t, net, l)
    {
      assert !Pending(net, l, t.root, Hello);
    }
    forall n, l | n in net.cards && l in net.cards && Answers(t, n, l)
      ensures HasAnswer(t, net.cards[n], l)
    {
      assert HadHello(t, net, l) && !Pending(net, n, l, AnswerKind(t, l));
    }
  }

  ghost function MiddleOf(hw: Hardware, t: Turn): Net -> bool {
    x => Middle(hw, t, x)
  }

  ghost function DoneOf(hw: Hardware, t: Turn): Net -> bool {
    x => Done(hw, t, x)
  }

  lemma MiddleStable(hw: Hardware, t: Turn)
    ensures Stable(hw, MiddleOf(hw, t))
  {
    hide Middle;
    forall x: Net, k: nat | MiddleOf(hw, t)(x)
      ensures MiddleOf(hw, t)(Apply(hw, x, Deliver(k)))
    {
      DeliverMiddle(hw, t, x, k);
    }
  }

  lemma MiddleEnds(hw: Hardware, t: Turn)
    ensures EndsIn(MiddleOf(hw, t), DoneOf(hw, t))
  {
    hide Middle, Done;
    forall x: Net | MiddleOf(hw, t)(x) && x.flight == []
      ensures DoneOf(hw, t)(x)
    {
      MiddleToDone(hw, t, x);
    }
  }

  lemma MiddleStarts(hw: Hardware, s: Pause, net: Net, ts: Order)
    requires AtRest(hw, s, net)
    ensures MiddleOf(hw, s.Next())(AllTick(net, ts))
  {
    RestToMiddle(hw, s, net, ts);
  }

  lemma MiddleRound(hw: Hardware, t: Turn, net: Net, r: Lockstep, after: Net)
    requires MiddleOf(hw, t)(AllTick(net, r.ticks)) && Round(hw, net, r, after)
    ensures DoneOf(hw, t)(after)
  {
    MiddleStable(hw, t);
    MiddleEnds(hw, t);
    RoundKeeps(hw, MiddleOf(hw, t), DoneOf(hw, t), net, r, after);
  }

  lemma DoneIs(hw: Hardware, t: Turn, net: Net)
    requires DoneOf(hw, t)(net)
    ensures Done(hw, t, net)
  {
  }

  /** One round from a pause. */
  lemma PauseRound(hw: Hardware, s: Pause, net: Net, r: Lockstep, after: Net)
    requires AtRest(hw, s, net) && Round(hw, net, r, after)
    ensures Done(hw, s.Next(), after)
  {
    MiddleStarts(hw, s, net, r.ticks);
    MiddleRound(hw, s.Next(), net, r, after);
    DoneIs(hw, s.Next(), after);
  }

  /** The pause after a round in which no running root LC has answered. */
  function Pausing(t: Turn): Pause {
    Pause(t.p, t.root, t.lost, t.says, t.clock, t.stale - 1, t.limit, t.was == t.says)
  }

  lemma RestsAfter(hw: Hardware, t: Turn, net: Net, n: nat)
    requires Done(hw, t, net) && Pausing(t).Ok() && n in net.cards && t.p.Has(n)
    requires t.was == t.says == t.lost || (t.was != t.says && t.clock == 0)
    ensures Rests(Pausing(t), net.cards[n])
  {
    var c := net.cards[n];
    assert CardIn(t, c) && HadHello(t, net, n);
    if n == t.root && t.was == t.says {
      forall l: nat | t.p.Has(l) && LcNum(l)
        ensures Age(c.exist, l - 1) == FULL_AGE
      {
        assert Answers(t, n, l) && HasAnswer(t, c, l);
      }
    }
  }

  lemma DoneRests(hw: Hardware, t: Turn, net: Net)
    requires Done(hw, t, net) && Pausing(t).Ok()
    requires t.was == t.says == t.lost || (t.was != t.says && t.clock == 0)
    ensures AtRest(hw, Pausing(t), net)
  {
    forall n | n in net.cards && t.p.Has(n)
      ensures Rests(Pausing(t), net.cards[n])
    {
      RestsAfter(hw, t, net, n);
    }
  }

  /** After the round in which the new root LC answers, all agree on it, and the
      clocks stand near 0. */
  lemma DoneIsSteady(hw: Hardware, t: Turn, net: Net)
    requires Done(hw, t, net) && t.was == t.says != t.lost && t.clock <= MAX_AGE
    ensures SteadyStart(hw, Roots(t.p, t.root, t.says), net)
  {
    forall n | n in net.cards && t.p.Has(n)
      ensures Poised(Roots(t.p, t.root, t.says), net.cards[n])
    {
      assert CardIn(t, net.cards[n]) && HadHello(t, net, n);
      if FcNum(n) {
        assert Answers(t, n, t.says) && HasAnswer(t, net.cards[n], t.says);
      }
    }
  }

  // ---------------------------------------------------------------- failover

  /** No clock and no remembered age is in the way: the root FC will have forgotten
      every stopped card by the tick on which it reselects, and the other fabric
      cards will wait that long. */
  predicate Patient(s: Pause) {
    && s.Ok() && s.says == s.lost && s.clock <= MAX_AGE
    && s.stale + s.clock <= MAX_AGE + SELECT_AGE && s.limit <= s.clock + 28
  }

  /** Between two rounds: root LC `lost` has stopped, and all others name it. */
  ghost predicate Orphaned(hw: Hardware, s: Pause, net: Net) {
    AtRest(hw, s, net) && Patient(s)
  }

  /** The pause k rounds later. */
  function PauseAfter(s: Pause, k: nat): Pause {
    if k <= MAX_AGE + 1 - s.clock then
      s.(clock := s.clock + k, stale := s.stale - k, limit := s.limit + k, heard := s.heard || k > 0)
    else Pause(s.p, s.root, s.lost, s.p.lc, 0, FULL_AGE, s.limit + k, false)
  }

  lemma PauseAfterNext(s: Pause, k: nat)
    requires Patient(s) && k < MAX_AGE + 2 - s.clock
    ensures PauseAfter(s, 0) == s && PauseAfter(s, k).Ok() && PauseAfter(s, k + 1).Ok()
    ensures Pausing(PauseAfter(s, k).Next()) == PauseAfter(s, k + 1)
    ensures var t := PauseAfter(s, k).Next(); t.was == t.says == t.lost || (t.was != t.says && t.clock == 0)
  {
  }

  lemma RestAfterPause(hw: Hardware, s: Pause, k: nat, net: Net, r: Lockstep, after: Net)
    requires Patient(s) && k < MAX_AGE + 2 - s.clock
    requires AtRest(hw, PauseAfter(s, k), net) && Round(hw, net, r, after)
    ensures AtRest(hw, PauseAfter(s, k + 1), after)
  {
    PauseRound(hw, PauseAfter(s, k), net, r, after);
    PauseAfterNext(s, k);
    DoneRests(hw, PauseAfter(s, k).Next(), after);
  }

  lemma {:induction false} Waits(hw: Hardware, s: Pause, nets: seq<Net>, rs: seq<Lockstep>, k: nat)
    requires Rounds(hw, nets, rs) && AtRest(hw, s, nets[0]) && Patient(s) && k <= |rs| && k <= MAX_AGE + 2 - s.clock
    ensures AtRest(hw, PauseAfter(s, k), nets[k])
  {
    if k == 0 {
      PauseAfterNext(s, 0);
    } else {
      Waits(hw, s, nets, rs, k - 1);
      assert Round(hw, nets[k - 1], rs[k - 1], nets[k - 1 + 1]);
      RestAfterPause(hw, s, k - 1, nets[k - 1], rs[k - 1], nets[k]);
    }
  }

  lemma RestsForwards(hw: Hardware, s: Pause, net: Net)
    requires AtRest(hw, s, net)
    ensures AllForward(net, s.p.upper) && RootedAt(net, s.p.upper, s.root)
    ensures s.says == s.lost ==> !Agreed(net, s.p.upper, s.root, s.p.lc)
  {
    forall n | InPlane(net, s.p.upper, n)
      ensures net.cards[n].state == Forwarding && net.cards[n].rootPort == s.root
    {
      assert s.p.Has(n) && Rests(s, net.cards[n]);
    }
    assert s.p.Has(s.p.lc) && Rests(s, net.cards[s.p.lc]) && InPlane(net, s.p.upper, s.p.lc);
  }

  /** The last round. */
  lemma LastRound(hw: Hardware, s: Pause, net: Net, r: Lockstep, after: Net)
    requires AtRest(hw, s, net) && s.says == s.p.lc && s.clock < MAX_AGE && Round(hw, net, r, after)
    ensures SteadyStart(hw, Roots(s.p, s.root, s.p.lc), after)
  {
    PauseRound(hw, s, net, r, after);
    DoneIsSteady(hw, s.Next(), after);
  }

  /** The rounds of a failover, from a root clock at `s.clock`. */
  function Needed(s: Pause): int {
    MAX_AGE + 3 - s.clock
  }

  lemma TakenOver(hw: Hardware, s: Pause, nets: seq<Net>, rs: seq<Lockstep>)
    requires Rounds(hw, nets, rs) && Orphaned(hw, s, nets[0]) && |rs| >= Needed(s)
    ensures SteadyStart(hw, Roots(s.p, s.root, s.p.lc), nets[Needed(s)])
  {
    var k := Needed(s) - 1;
    Waits(hw, s, nets, rs, k);
    assert Round(hw, nets[k], rs[k], nets[k + 1]);
    LastRound(hw, PauseAfter(s, k), nets[k], rs[k], nets[k + 1]);
  }

  /** While the root FC waits, and in the round in which it reselects. */
  lemma Meanwhile(hw: Hardware, s: Pause, nets: seq<Net>, rs: seq<Lockstep>, k: nat)
    requires Rounds(hw, nets, rs) && Orphaned(hw, s, nets[0]) && k < Needed(s) <= |rs|
    ensures AllForward(nets[k], s.p.upper) && RootedAt(nets[k], s.p.upper, s.root)
    ensures k < Needed(s) - 1 ==> !Agreed(nets[k], s.p.upper, s.root, s.p.lc)
  {
    Waits(hw, s, nets, rs, k);
    RestsForwards(hw, PauseAfter(s, k), nets[k]);
  }

  /** Failover: 18 rounds after its clock stood at 0, the root FC has led the plane
      to a spanning tree again, around itself and the smallest line card that still
      runs, and the plane stays one from then on. Until then all its cards keep
      forwarding under the same root FC, and before the last round they do not agree
      on the new root LC. */
  lemma Failover(hw: Hardware, s: Pause, nets: seq<Net>, rs: seq<Lockstep>)
    requires Rounds(hw, nets, rs) && Reachable(hw, nets[0]) && Orphaned(hw, s, nets[0]) && |rs| >= Needed(s)
    ensures forall k :: 0 <= k < Needed(s) ==>
              AllForward(nets[k], s.p.upper) && RootedAt(nets[k], s.p.upper, s.root)
    ensures forall k :: 0 <= k < Needed(s) - 1 ==> !Agreed(nets[k], s.p.upper, s.root, s.p.lc)
    ensures forall k :: Needed(s) <= k <= |rs| ==>
              Agreed(nets[k], s.p.upper, s.root, s.p.lc) && SpanningTree(nets[k], s.p.upper)
    ensures |rs| > Needed(s) ==> SteadyEnd(hw, Roots(s.p, s.root, s.p.lc), nets[|rs|])
  {
    forall k | 0 <= k < Needed(s)
      ensures AllForward(nets[k], s.p.upper) && RootedAt(nets[k], s.p.upper, s.root)
      ensures k < Needed(s) - 1 ==> !Agreed(nets[k], s.p.upper, s.root, s.p.lc)
    {
      Meanwhile(hw, s, nets, rs, k);
    }
    TakenOver(hw, s, nets, rs);
    AgreementLasts(hw, Roots(s.p, s.root, s.p.lc), nets, rs, Needed(s));
  }

  /** The same from the steady state: the root LC stops after a round. What follows
      is a steady state again, and so ready for the next root LC to stop. */
  lemma RootLcStops(hw: Hardware, r: Roots, net: Net, p: Plan, nets: seq<Net>, rs: seq<Lockstep>)
    requires Reachable(hw, net) && SteadyEnd(hw, r, net)
    requires Rounds(hw, nets, rs) && |rs| >= MAX_AGE + 3
    requires nets[0] == Apply(hw, net, Stop(r.lc)) && PlanFor(p, nets[0]) && p.upper == r.p.upper
    ensures forall k :: 0 <= k < MAX_AGE + 3 ==> AllForward(nets[k], p.upper) && RootedAt(nets[k], p.upper, r.fc)
    ensures forall k :: MAX_AGE + 3 <= k <= |rs| ==>
              Agreed(nets[k], p.upper, r.fc, p.lc) && SpanningTree(nets[k], p.upper)
    ensures |rs| > MAX_AGE + 3 ==> SteadyEnd(hw, Roots(p, r.fc, p.lc), nets[|rs|])
  {
    var s := Pause(p, r.fc, r.lc, r.lc, 0, FULL_AGE, 28, false);
    StopReachable(hw, net, r.lc);
    StoppedOrphans(hw, r, s, net);
    Failover(hw, s, nets, rs);
  }

  lemma StopReachable(hw: Hardware, net: Net, n: nat)
    requires Reachable(hw, net)
    ensures Reachable(hw, Apply(hw, net, Stop(n)))
  {
    var es :| net == Run(hw, EMPTY, es);
    RunAppend(hw, EMPTY, es, [Stop(n)]);
    RunOne(hw, net, Stop(n));
  }

  lemma StoppedRests(hw: Hardware, r: Roots, s: Pause, c: Card)
    requires CardOk(hw, c) && r.Ok() && Holds(r, c) && c.since == 0
    requires s == Pause(s.p, r.fc, r.lc, r.lc, 0, FULL_AGE, 28, false)
    ensures Rests(s, c)
  {
    FullFaded(hw, s.p, c.us, c.exist);
  }

  lemma StoppedBase(hw: Hardware, net: Net, n: nat, p: Plan)
    requires Reachable(hw, net) && PlanFor(p, Apply(hw, net, Stop(n)))
    ensures Base(hw, p, Apply(hw, net, Stop(n)))
  {
    StopReachable(hw, net, n);
    ReachableKeeps(hw, Apply(hw, net, Stop(n)));
  }

  lemma StoppedPatient(r: Roots, s: Pause)
    requires r.Ok() && s.p.Ok() && s.p.live == r.p.live - {r.lc} && s.p.upper == r.p.upper
    requires s == Pause(s.p, r.fc, r.lc, r.lc, 0, FULL_AGE, 28, false)
    ensures Patient(s)
  {
  }

  lemma StoppedOrphans(hw: Hardware, r: Roots, s: Pause, net: Net)
    requires Reachable(hw, net) && SteadyEnd(hw, r, net)
    requires PlanFor(s.p, Apply(hw, net, Stop(r.lc))) && s.p.upper == r.p.upper
    requires s == Pause(s.p, r.fc, r.lc, r.lc, 0, FULL_AGE, 28, false)
    ensures Orphaned(hw, s, Apply(hw, net, Stop(r.lc)))
  {
    hide NetOk, NetHeardOk, Reachable;
    var after := Apply(hw, net, Stop(r.lc));
    StoppedBase(hw, net, r.lc, s.p);
    assert after.cards.Keys == net.cards.Keys - {r.lc};
    StoppedPatient(r, s);
    forall n | n in after.cards && s.p.Has(n)
      ensures Rests(s, after.cards[n])
    {
      assert r.p.Has(n) && Holds(r, net.cards[n]);
      BaseCard(hw, r.p, net, n);
      StoppedRests(hw, r, s, net.cards[n]);
    }
  }
}
