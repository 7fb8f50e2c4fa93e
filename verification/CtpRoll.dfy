/**
 The roll call of the steady state: from the second round on, every running card of
 a plane holds every other one, and a card that has stopped is forgotten after 16
 rounds. Each card says something in each round: the root FC on its tick, a line
 card to each HELLO, another fabric card to the HELLO of the root LC.
 */
module CtpRoll {
  import opened Ctp
  import opened CtpInvariant
  import opened CtpNet
  import opened CtpReceive
  import opened CtpTopology
  import opened CtpGossip
  import opened CtpRounds
  import opened CtpConverge
  import opened CtpColdStart
  import opened CtpKeep
  import opened CtpSteady
  import opened Sequences

  // ---------------------------------------------------------------- one card

  /** The fabric cards of which a line card has had a HELLO since its tick. */
  function Greeters(r: Roots, c: Card): set<nat> {
    set n | n in r.p.live && r.p.Has(n) && FcNum(n) && (n, Hello) in c.heard
  }

  /** How often a card has spoken since its tick, but for the root FC on its tick. */
  function Spoke(r: Roots, c: Card): nat {
    if LcNum(c.us) then |Greeters(r, c)| else if c.us != r.fc && Kept(r, c) then 1 else 0
  }

  /** A card of the other kind from which something came in since the tick. */
  predicate Came(r: Roots, c: Card, n: nat) {
    r.p.Has(n) && LcNum(n) != LcNum(c.us) && ((n, Hello) in c.heard || (n, Reply) in c.heard)
  }

  function Less(age: nat): nat {
    if age == 0 then 0 else age - 1
  }

  /** Cards that do not run are held at most at this age. */
  predicate Fades(r: Roots, t: Table, age: nat) {
    forall n: nat :: 1 <= n <= CARDS && !r.p.Has(n) ==> Age(t, n - 1) <= age
  }

  /** The bound of a card's own table: one less once it has spoken. */
  function Left(r: Roots, c: Card, fade: nat): nat {
    if Spoke(r, c) > 0 || c.us == r.fc then Less(fade) else fade
  }

  /** What a card holds during a round: those it has heard, and, if it is a later
      round, those that its leaders hold. Each time it speaks its table ages by one. */
  ghost predicate Rolls(r: Roots, later: bool, fade: nat, c: Card) {
    && Holds(r, c)
    && (forall n: nat :: Came(r, c, n) ==> Age(c.exist, n - 1) + Spoke(r, c) >= 16)
    && (later && LcNum(c.us) ==> forall n: nat :: r.p.Has(n) && FcNum(n) ==> Age(c.exist, n - 1) + Spoke(r, c) >= 12)
    && (later && Kept(r, c) ==>
          forall n: nat :: r.p.Has(n) && LcNum(n) == LcNum(c.us) && n != c.us ==>
            Age(c.exist, n - 1) + Spoke(r, c) >= if LcNum(n) then 15 else 8)
    && Fades(r, c.exist, Left(r, c, fade))
  }

  ghost predicate RollBpdu(r: Roots, later: bool, fade: nat, b: Bpdu) {
    && SteadyBpdu(r, b) && (LcNum(b.from) && b.kind == Hello ==> b.from == r.lc)
    && Fades(r, b.exist, Less(fade))
    && (later && b.from == r.fc ==> forall n: nat :: r.p.Has(n) && LcNum(n) ==> Age(b.exist, n - 1) >= 15)
    && (later && b.from == r.lc && b.kind == Hello ==>
          forall n: nat :: r.p.Has(n) && FcNum(n) ==> Age(b.exist, n - 1) >= 8)
  }

  ghost function RollCard(r: Roots, later: bool, fade: nat): Card -> bool {
    (c: Card) => Rolls(r, later, fade, c)
  }

  ghost function RollSays(r: Roots, later: bool, fade: nat): Bpdu -> bool {
    (b: Bpdu) => RollBpdu(r, later, fade, b)
  }

  /** A plane has four fabric cards. */
  lemma GreetersFew(r: Roots, c: Card)
    ensures |Greeters(r, c)| <= 4
  {
    var all := if r.p.upper then {33, 35, 37, 39} else {41, 43, 45, 47};
    assert |all| == 4;
    forall n | n in Greeters(r, c)
      ensures n in all
    {
    }
    SubsetSize(Greeters(r, c), all);
  }

  lemma GreetersGrow(r: Roots, c: Card, d: Card, from: nat, kind: Kind)
    requires d.heard == c.heard + [(from, kind)] && (from, kind) !in c.heard && r.p.Has(from)
    ensures |Greeters(r, d)| == |Greeters(r, c)| + if FcNum(from) && kind == Hello then 1 else 0
  {
    assert Greeters(r, d) == if FcNum(from) && kind == Hello then Greeters(r, c) + {from} else Greeters(r, c);
    assert FcNum(from) && kind == Hello ==> from !in Greeters(r, c);
  }

  /** What card h, which has heard b, answers it with, and the table it keeps. */
  predicate Spells(r: Roots, h: Card, b: Bpdu, o: Out) {
    var speaks := b.kind == Hello && h.us != r.fc;
    && o.card.us == h.us && o.card.heard == h.heard
    && o.card.exist == (if speaks then Aged(Merged(h, b).exist, h.us) else Merged(h, b).exist)
    && (if speaks then |o.sent| == 1 && o.sent[0].from == h.us && o.sent[0].exist == o.card.exist
                       && o.sent[0].kind == (if FcNum(h.us) || (h.us == r.lc && b.from == r.fc) then Hello else Reply)
        else o.sent == [])
  }

  lemma LcSpells(hw: Hardware, r: Roots, h: Card, b: Bpdu)
    requires CardOk(hw, h) && BpduOk(hw, b) && SamePlane(h.us, b.from) && LcNum(h.us) && FcNum(b.from)
    requires r.Ok() && r.p.Has(h.us) && h.state == Forwarding && h.rootPort == r.fc && h.rootLc == r.lc
    requires SteadyBpdu(r, b)
    ensures Spells(r, h, b, LcForwards(h, b))
  {
    hide MergeFrom, Aged, TableOk;
  }

  /** The answer of a fabric card to the root LC. */
  lemma FcSpells(hw: Hardware, r: Roots, h: Card, b: Bpdu)
    requires CardOk(hw, h) && BpduOk(hw, b) && SamePlane(h.us, b.from) && FcNum(h.us) && LcNum(b.from)
    requires r.Ok() && r.p.Has(h.us) && h.state == Forwarding && h.rootPort == r.fc && h.designBridge.Num() == r.lc
    requires SteadyBpdu(r, b)
    ensures Spells(r, h, b, FcForwards(h, b))
  {
    hide MergeFrom, Aged, TableOk;
  }

  lemma Spelt(hw: Hardware, r: Roots, c: Card, b: Bpdu)
    requires r.Ok() && ActsOn(hw, r, c, b) && Holds(r, c) && SteadyBpdu(r, b)
    ensures Spells(r, c.(heard := c.heard + [(b.from, b.kind)]), b, Rx(c, b))
  {
    hide Spells, LcForwards, FcForwards, TableOk;
    var h := c.(heard := c.heard + [(b.from, b.kind)]);
    ActsForwarding(hw, r, c, b);
    if LcNum(c.us) { LcSpells(hw, r, h, b); } else { FcSpells(hw, r, h, b); }
  }

  lemma AgeAfter(hw: Hardware, r: Roots, h: Card, b: Bpdu, o: Out, n: nat)
    requires CardOk(hw, h) && BpduOk(hw, b) && SamePlane(h.us, b.from) && 1 <= n <= CARDS && n != h.us
    requires Spells(r, h, b, o)
    ensures var m := if Age(b.exist, n - 1) > Age(h.exist, n - 1) then Age(b.exist, n - 1) else Age(h.exist, n - 1);
            Age(o.card.exist, n - 1) == if b.kind == Hello && h.us != r.fc then Less(m) else m
  {
    MergedAge(hw, h, b, n);
    AgedByOne(Merged(h, b).exist, h.us, n - 1);
    hide Merged, Aged, CardOk, BpduOk;
  }

  lemma SpokeGrows(hw: Hardware, r: Roots, c: Card, b: Bpdu, d: Card)
    requires r.Ok() && ActsOn(hw, r, c, b) && SteadyBpdu(r, b) && (LcNum(b.from) && b.kind == Hello ==> b.from == r.lc)
    requires d.us == c.us && d.heard == c.heard + [(b.from, b.kind)]
    ensures Spoke(r, d) == Spoke(r, c) + if b.kind == Hello && c.us != r.fc then 1 else 0
  {
    hide CardOk, BpduOk;
    if LcNum(c.us) {
      GreetersGrow(r, c, d, b.from, b.kind);
    }
    hide Greeters;
  }

  /** What one reception leaves of what the card holds of card n: age and words
      together never fall, and rise to what the BPDU holds. */
  predicate Moves(r: Roots, fade: nat, c: Card, b: Bpdu, d: Card, n: nat)
    requires 1 <= n <= CARDS
  {
    && Age(d.exist, n - 1) + Spoke(r, d) >= Age(c.exist, n - 1) + Spoke(r, c)
    && Age(d.exist, n - 1) + Spoke(r, d) >= Age(b.exist, n - 1)
    && (Age(b.exist, n - 1) <= Less(fade) && Age(c.exist, n - 1) <= Left(r, c, fade) ==>
          Age(d.exist, n - 1) <= Left(r, d, fade))
  }

  lemma MovesOn(hw: Hardware, r: Roots, fade: nat, c: Card, b: Bpdu, o: Out, n: nat)
    requires r.Ok() && ActsOn(hw, r, c, b) && SteadyBpdu(r, b) && (LcNum(b.from) && b.kind == Hello ==> b.from == r.lc)
    requires Spells(r, c.(heard := c.heard + [(b.from, b.kind)]), b, o) && 1 <= n <= CARDS && n != c.us
    ensures Moves(r, fade, c, b, o.card, n)
  {
    SpokeGrows(hw, r, c, b, o.card);
    AgeAfter(hw, r, c.(heard := c.heard + [(b.from, b.kind)]), b, o, n);
    hide Spoke, SteadyBpdu, ActsOn, Age;
  }

  lemma RollsOn(hw: Hardware, r: Roots, later: bool, fade: nat, c: Card, b: Bpdu, o: Out)
    requires r.Ok() && ActsOn(hw, r, c, b) && Rolls(r, later, fade, c) && RollBpdu(r, later, fade, b)
    requires Spells(r, c.(heard := c.heard + [(b.from, b.kind)]), b, o) && Holds(r, o.card)
    ensures Rolls(r, later, fade, o.card)
  {
    OwnAge(hw, b);
    OnCame(r, c, b, o.card);
    OnKept(hw, r, c, b, o);
    hide Spoke, Holds, Left, Age, Spells, Kept, ActsOn;
    var d := o.card;
    forall n: nat | Came(r, d, n)
      ensures Age(d.exist, n - 1) + Spoke(r, d) >= 16
    {
      MovesOn(hw, r, fade, c, b, o, n);
    }
    forall n: nat | later && r.p.Has(n) && n != c.us
      ensures LcNum(c.us) && FcNum(n) ==> Age(d.exist, n - 1) + Spoke(r, d) >= 12
      ensures Kept(r, d) && LcNum(n) == LcNum(c.us) ==>
                Age(d.exist, n - 1) + Spoke(r, d) >= if LcNum(n) then 15 else 8
    {
      MovesOn(hw, r, fade, c, b, o, n);
    }
    forall n: nat | 1 <= n <= CARDS && !r.p.Has(n)
      ensures Age(d.exist, n - 1) <= Left(r, d, fade)
    {
      MovesOn(hw, r, fade, c, b, o, n);
    }
  }

  lemma OnKept(hw: Hardware, r: Roots, c: Card, b: Bpdu, o: Out)
    requires r.Ok() && ActsOn(hw, r, c, b) && SteadyBpdu(r, b)
    requires Spells(r, c.(heard := c.heard + [(b.from, b.kind)]), b, o)
    ensures Kept(r, o.card) && !Kept(r, c) ==> b.kind == Hello && b.from == if LcNum(c.us) then r.fc else r.lc
    ensures LcNum(b.from) != LcNum(c.us) && o.card.us == c.us && r.p.Has(c.us)
  {
  }

  lemma OnCame(r: Roots, c: Card, b: Bpdu, d: Card)
    requires d.us == c.us && d.heard == c.heard + [(b.from, b.kind)]
    ensures forall n: nat :: Came(r, d, n) ==> Came(r, c, n) || n == b.from
  {
  }

  lemma RollTakes(hw: Hardware, r: Roots, later: bool, fade: nat, c: Card, b: Bpdu)
    requires r.Ok() && ActsOn(hw, r, c, b) && Rolls(r, later, fade, c) && RollBpdu(r, later, fade, b)
    ensures Taken(r, RollCard(r, later, fade), RollSays(r, later, fade), c, b, Rx(c, b))
  {
    hide Rolls, RollBpdu;
    SteadyParts(r, later, fade, c, b);
    SteadyTakes(hw, r, c, b);
    Spelt(hw, r, c, b);
    RollsOn(hw, r, later, fade, c, b, Rx(c, b));
    RollSaid(hw, r, later, fade, c, b, Rx(c, b));
  }

  lemma SteadyParts(r: Roots, later: bool, fade: nat, c: Card, b: Bpdu)
    requires Rolls(r, later, fade, c) && RollBpdu(r, later, fade, b)
    ensures Holds(r, c) && SteadyBpdu(r, b)
  {
  }

  lemma RollSaid(hw: Hardware, r: Roots, later: bool, fade: nat, c: Card, b: Bpdu, o: Out)
    requires r.Ok() && ActsOn(hw, r, c, b) && RollBpdu(r, later, fade, b) && Rolls(r, later, fade, o.card)
    requires Spells(r, c.(heard := c.heard + [(b.from, b.kind)]), b, o) && forall s :: s in o.sent ==> SteadyBpdu(r, s)
    ensures forall s :: s in o.sent ==> RollBpdu(r, later, fade, s)
  {
    if o.sent != [] {
      OnKept(hw, r, c, b, o);
      SpokeGrows(hw, r, c, b, o.card);
      GreetersFew(r, o.card);
      hide ActsOn, Greeters, Holds, SteadyBpdu, Kept;
      SaidHolds(r, later, fade, o.card, o.sent[0]);
    }
  }

  /** What a card says holds what its table holds. */
  lemma SaidHolds(r: Roots, later: bool, fade: nat, d: Card, s: Bpdu)
    requires r.Ok() && Rolls(r, later, fade, d) && 0 < Spoke(r, d) <= 4 && d.us != r.fc
    requires SteadyBpdu(r, s) && s.from == d.us && s.exist == d.exist
    requires s.kind == Hello && LcNum(d.us) ==> d.us == r.lc
    ensures RollBpdu(r, later, fade, s)
  {
    hide Spoke, Holds, Age, Kept;
  }

  lemma RollOblivious(r: Roots, later: bool, fade: nat)
    requires r.Ok()
    ensures Oblivious(r.p, RollCard(r, later, fade))
  {
    forall c: Card, q: (nat, Kind) | RollCard(r, later, fade)(c) && Upper(q.0) != r.p.upper
      ensures RollCard(r, later, fade)(c.(heard := c.heard + [q]))
    {
      ForeignPair(r, later, fade, c, q);
    }
  }

  lemma ForeignPair(r: Roots, later: bool, fade: nat, c: Card, q: (nat, Kind))
    requires r.Ok() && Rolls(r, later, fade, c) && Upper(q.0) != r.p.upper
    ensures Rolls(r, later, fade, c.(heard := c.heard + [q]))
  {
    var d := c.(heard := c.heard + [q]);
    assert Greeters(r, d) == Greeters(r, c);
    assert Kept(r, d) == Kept(r, c) && Spoke(r, d) == Spoke(r, c);
    hide Greeters, Spoke;
    assert forall n: nat :: Came(r, d, n) ==> Came(r, c, n);
  }

  lemma RollRegime(hw: Hardware, r: Roots, later: bool, fade: nat)
    requires r.Ok()
    ensures Regime(hw, r, RollCard(r, later, fade), RollSays(r, later, fade))
  {
    hide Rolls, RollBpdu, Taken, Rx, ActsOn, Oblivious;
    RollOblivious(r, later, fade);
    forall c: Card, b: Bpdu | ActsOn(hw, r, c, b) && RollCard(r, later, fade)(c) && RollSays(r, later, fade)(b)
      ensures Taken(r, RollCard(r, later, fade), RollSays(r, later, fade), c, b, Rx(c, b))
    {
      RollTakes(hw, r, later, fade, c, b);
    }
  }

  // ----------------------------------------------------- everybody is heard

  /** What a card says when it has had the HELLO that keeps it going. */
  function Voice(r: Roots, n: nat): Kind {
    if LcNum(n) && n != r.lc then Reply else Hello
  }

  predicate HasSpoken(r: Roots, net: Net, n: nat) {
    n in net.cards && (n == r.fc || Kept(r, net.cards[n]))
  }

  predicate Opposite(r: Roots, a: nat, b: nat) {
    r.p.Has(a) && r.p.Has(b) && LcNum(a) != LcNum(b)
  }

  /** What b has said is known to a or on its way there. */
  ghost predicate Echo(r: Roots, net: Net, a: nat, b: nat) {
    a in net.cards && HasSpoken(r, net, b) ==>
      (b, Voice(r, b)) in net.cards[a].heard || Pending(net, a, b, Voice(r, b))
  }

  ghost predicate Echoes(r: Roots, net: Net) {
    forall a, b :: Opposite(r, a, b) ==> Echo(r, net, a, b)
  }

  /** o speaks with its voice if it has just been kept going. */
  ghost predicate Voiced(r: Roots, c: Card, b: Bpdu, o: Out) {
    && (forall q :: q in c.heard ==> q in o.card.heard)
    && (Heeded(r.p, c, b) ==> (b.from, b.kind) in o.card.heard)
    && (c.us != r.fc && Kept(r, o.card) && !Kept(r, c) ==> |o.sent| == 1 && o.sent[0].kind == Voice(r, c.us))
  }

  lemma RollVoiced(hw: Hardware, r: Roots, later: bool, fade: nat, c: Card, b: Bpdu)
    requires CardOk(hw, c) && HeardOk(c) && BpduOk(hw, b) && Accepts(c.us, b.dst) && r.Ok() && r.p.Has(c.us)
    requires Rolls(r, later, fade, c) && (Upper(b.from) == r.p.upper ==> RollBpdu(r, later, fade, b))
    ensures Voiced(r, c, b, Rx(c, b))
  {
    hide CardOk, Rolls, RollBpdu, Spells, Rx;
    HearsOtherGroupOk(hw, c, b);
    if Heeded(r.p, c, b) {
      SteadyParts(r, later, fade, c, b);
      Spelt(hw, r, c, b);
      SpellsVoice(hw, r, c, b, Rx(c, b));
    } else if Upper(b.from) == r.p.upper {
      Dropped(c, b);
    } else {
      ForeignRx(hw, c, b);
      RxHeard(hw, c, b);
    }
  }

  lemma HearsOtherGroupOk(hw: Hardware, c: Card, b: Bpdu)
    requires CardOk(hw, c) && BpduOk(hw, b) && Accepts(c.us, b.dst)
    ensures CpuA(c.us) && CpuA(b.from) && b.dst == DstMac(b.from)
    ensures SamePlane(c.us, b.from) <==> LcNum(c.us) != LcNum(b.from)
  {
    HearsOtherGroup(c.us, b.from);
  }

  lemma SpellsVoice(hw: Hardware, r: Roots, c: Card, b: Bpdu, o: Out)
    requires r.Ok() && ActsOn(hw, r, c, b) && Spells(r, c.(heard := c.heard + [(b.from, b.kind)]), b, o)
    ensures Voiced(r, c, b, o)
  {
  }

  lemma EchoStep(
      hw: Hardware, r: Roots, later: bool, fade: nat, net: Net, k: nat, o: Out, a: nat, b: nat)
    requires k < |net.flight| && net.flight[k].to in net.cards
    requires Takes(hw, r, RollCard(r, later, fade), RollSays(r, later, fade), net, k, o)
    requires r.p.Has(net.flight[k].to) ==> Voiced(r, net.cards[net.flight[k].to], net.flight[k].b, o)
    requires Opposite(r, a, b) && Echo(r, net, a, b) && Numbered(net)
    ensures Echo(r, Took(net, k, o), a, b)
  {
    var t, v := Took(net, k, o), Voice(r, b);
    if a in t.cards && HasSpoken(r, t, b) && (b, v) !in t.cards[a].heard {
      if HasSpoken(r, net, b) {
        if !Of(net.flight[k], a, b, v) {
          PendingKept(net, k, o, a, b, v);
        }
      } else {
        SpokenComes(hw, r, later, fade, net, k, o, a, b);
      }
    }
  }

  /** b has just spoken. */
  lemma SpokenComes(
      hw: Hardware, r: Roots, later: bool, fade: nat, net: Net, k: nat, o: Out, a: nat, b: nat)
    requires k < |net.flight| && net.flight[k].to in net.cards
    requires Takes(hw, r, RollCard(r, later, fade), RollSays(r, later, fade), net, k, o)
    requires r.p.Has(net.flight[k].to) ==> Voiced(r, net.cards[net.flight[k].to], net.flight[k].b, o)
    requires Opposite(r, a, b) && Numbered(net) && a in net.cards
    requires HasSpoken(r, Took(net, k, o), b) && !HasSpoken(r, net, b)
    requires (b, Voice(r, b)) !in Took(net, k, o).cards[a].heard
    ensures Pending(Took(net, k, o), a, b, Voice(r, b))
  {
    assert net.flight[k].to == b;
    HearsOtherGroup(a, b);
    assert BpduOk(hw, o.sent[0]) && o.sent[0].from == b;
    SendReaches(net.cards.Keys, o.sent, a);
    assert Of(Copy(a, o.sent[0]), a, b, Voice(r, b));
  }

  ghost predicate Rolling(hw: Hardware, r: Roots, later: bool, fade: nat, net: Net) {
    During(hw, r, RollCard(r, later, fade), RollSays(r, later, fade), net) && Echoes(r, net)
  }

  lemma TookEchoes(hw: Hardware, r: Roots, later: bool, fade: nat, net: Net, k: nat, o: Out)
    requires k < |net.flight| && net.flight[k].to in net.cards
    requires Takes(hw, r, RollCard(r, later, fade), RollSays(r, later, fade), net, k, o)
    requires r.p.Has(net.flight[k].to) ==> Voiced(r, net.cards[net.flight[k].to], net.flight[k].b, o)
    requires Echoes(r, net) && Numbered(net)
    ensures Echoes(r, Took(net, k, o))
  {
    hide Echo, Takes, Voiced;
    forall a, b | Opposite(r, a, b)
      ensures Echo(r, Took(net, k, o), a, b)
    {
      EchoStep(hw, r, later, fade, net, k, o, a, b);
    }
  }

  lemma DeliverVoiced(hw: Hardware, r: Roots, later: bool, fade: nat, net: Net, k: nat)
    requires During(hw, r, RollCard(r, later, fade), RollSays(r, later, fade), net)
    requires k < |net.flight| && r.p.Has(net.flight[k].to) && net.flight[k].to in net.cards
    ensures Voiced(r, net.cards[net.flight[k].to], net.flight[k].b, Rx(net.cards[net.flight[k].to], net.flight[k].b))
  {
    hide Rolls, RollBpdu, Rx, CtpKeep.Closed, Oblivious;
    var c := net.flight[k];
    assert CopyOk(hw, c) && c in net.flight;
    assert RollCard(r, later, fade)(net.cards[c.to]);
    assert Upper(c.b.from) == r.p.upper ==> RollSays(r, later, fade)(c.b);
    RollVoiced(hw, r, later, fade, net.cards[c.to], c.b);
  }

  lemma DeliverRolling(hw: Hardware, r: Roots, later: bool, fade: nat, net: Net, k: nat)
    requires Rolling(hw, r, later, fade, net)
    ensures Rolling(hw, r, later, fade, Apply(hw, net, Deliver(k)))
  {
    hide Regime, Takes, Voiced, Echoes;
    DeliverDuring(hw, r, RollCard(r, later, fade), RollSays(r, later, fade), net, k);
    DeliverIsTook(hw, net, k);
    if k < |net.flight| && net.flight[k].to in net.cards {
      DeliverTakes(hw, r, RollCard(r, later, fade), RollSays(r, later, fade), net, k);
      if r.p.Has(net.flight[k].to) {
        DeliverVoiced(hw, r, later, fade, net, k);
      }
      TookEchoes(hw, r, later, fade, net, k, Rx(net.cards[net.flight[k].to], net.flight[k].b));
    }
  }

  // ----------------------------------------------------------------- a round

  /** Between two rounds: what the leaders hold after a round, and how far stopped
      cards have faded. */
  ghost predicate Ready(r: Roots, later: bool, fade: nat, c: Card) {
    && (later && LcNum(c.us) ==> forall n: nat :: r.p.Has(n) && FcNum(n) ==> Age(c.exist, n - 1) >= 12)
    && (later && c.us == r.fc ==> forall n: nat :: r.p.Has(n) && LcNum(n) ==> Age(c.exist, n - 1) >= 16)
    && Fades(r, c.exist, fade)
  }

  ghost predicate Rolled(hw: Hardware, r: Roots, later: bool, fade: nat, net: Net) {
    && SteadyStart(hw, r, net)
    && forall n :: n in net.cards && r.p.Has(n) ==> Ready(r, later, fade, net.cards[n])
  }

  /** The least age at which a card of one kind holds one of the same or the other. */
  function LeastAge(lc: bool, of: bool): nat {
    if lc then (if of then 11 else 12) else if of then 15 else 7
  }

  /** The card holds every card of the plane. */
  ghost predicate HoldsAll(r: Roots, c: Card) {
    forall n: nat :: r.p.Has(n) && n != c.us ==> Age(c.exist, n - 1) >= LeastAge(LcNum(c.us), LcNum(n))
  }

  lemma OthersBegin(hw: Hardware, r: Roots, later: bool, fade: nat, c: Card)
    requires CardOk(hw, c) && r.Ok() && r.p.Has(c.us) && Poised(r, c) && Ready(r, later, fade, c) && c.us != r.fc
    ensures Begins(r, RollCard(r, later, fade), RollSays(r, later, fade), c.us, Tick(c))
  {
    hide TableOk, Ready;
    TicksSteady(hw, r, c);
    SilentTick(r, c);
    NothingCame(r, later, fade, c, Tick(c).card);
  }

  lemma SilentTick(r: Roots, c: Card)
    requires r.Ok() && r.p.Has(c.us) && Poised(r, c) && c.us != r.fc
    ensures Tick(c).sent == [] && Tick(c).card.exist == c.exist
  {
  }

  lemma NothingCame(r: Roots, later: bool, fade: nat, c: Card, d: Card)
    requires Ready(r, later, fade, c) && Holds(r, d) && d.us == c.us && d.heard == [] && d.exist == c.exist
    requires r.Ok() && c.us != r.fc
    ensures Rolls(r, later, fade, d)
  {
    assert Greeters(r, d) == {};
  }

  lemma RootBegins(hw: Hardware, r: Roots, later: bool, fade: nat, c: Card)
    requires CardOk(hw, c) && r.Ok() && Poised(r, c) && Ready(r, later, fade, c) && c.us == r.fc
    ensures Begins(r, RollCard(r, later, fade), RollSays(r, later, fade), c.us, Tick(c))
  {
    TicksSteady(hw, r, c);
    RootTickHolds(hw, r, c);
    RootHello(hw, r, later, fade, c, Tick(c));
  }

  lemma RootTickHolds(hw: Hardware, r: Roots, c: Card)
    requires CardOk(hw, c) && r.Ok() && Poised(r, c) && c.us == r.fc
    ensures var o := Tick(c);
            && o.card.exist == Aged(c.exist, c.us) && o.card.heard == [] && o.card.us == c.us
            && |o.sent| == 1 && o.sent[0].exist == o.card.exist && o.sent[0].from == c.us
  {
  }

  lemma RootHello(hw: Hardware, r: Roots, later: bool, fade: nat, c: Card, o: Out)
    requires r.Ok() && Ready(r, later, fade, c) && c.us == r.fc && Holds(r, o.card)
    requires o.card.exist == Aged(c.exist, c.us) && o.card.heard == [] && o.card.us == c.us
    requires |o.sent| == 1 && o.sent[0].exist == o.card.exist && o.sent[0].from == c.us
    requires SteadyBpdu(r, o.sent[0])
    ensures Rolls(r, later, fade, o.card) && RollBpdu(r, later, fade, o.sent[0])
  {
    forall i: nat | i < CARDS && i + 1 != c.us
      ensures Age(o.card.exist, i) == Less(Age(c.exist, i))
    {
      AgedByOne(c.exist, c.us, i);
    }
    hide Aged;
  }

  lemma RollStarts(hw: Hardware, r: Roots, later: bool, fade: nat, net: Net, ts: Order)
    requires Rolled(hw, r, later, fade, net)
    ensures Rolling(hw, r, later, fade, AllTick(net, ts))
  {
    hide Ready, Begins, NetHeardOk, Poised, Regime;
    forall n | n in net.cards && r.p.Has(n)
      ensures Begins(r, RollCard(r, later, fade), RollSays(r, later, fade), n, Tick(net.cards[n]))
    {
      BaseCard(hw, r.p, net, n);
      if n == r.fc {
        RootBegins(hw, r, later, fade, net.cards[n]);
      } else {
        OthersBegin(hw, r, later, fade, net.cards[n]);
      }
    }
    RollRegime(hw, r, later, fade);
    DuringStarts(hw, r, RollCard(r, later, fade), RollSays(r, later, fade), net, ts);
    StartsEchoes(hw, r, RollCard(r, later, fade), RollSays(r, later, fade), net, ts);
  }

  /** After the ticks only the root FC has spoken. */
  lemma StartsEchoes(hw: Hardware, r: Roots, card: Card -> bool, bpdu: Bpdu -> bool, net: Net, ts: Order)
    requires Base(hw, r.p, net) && r.Ok() && net.flight == [] && AllBegin(Tick, r, card, bpdu, net)
    ensures Echoes(r, AllTick(net, ts))
  {
    hide Tick, CardOk, NetHeardOk, Pending;
    var t := AllTick(net, ts);
    DoCards(Tick, net, ts);
    forall a, b | Opposite(r, a, b)
      ensures Echo(r, t, a, b)
    {
      if a in t.cards && HasSpoken(r, t, b) {
        assert Begins(r, card, bpdu, b, Tick(net.cards[b]));
        FcSpeaksFirst(hw, r, card, bpdu, net, ts, a);
      }
    }
  }

  lemma FcSpeaksFirst(
      hw: Hardware, r: Roots, card: Card -> bool, bpdu: Bpdu -> bool, net: Net, ts: Order, a: nat)
    requires Base(hw, r.p, net) && r.Ok() && net.flight == [] && AllBegin(Tick, r, card, bpdu, net)
    requires a in net.cards && r.p.Has(a) && LcNum(a)
    ensures Pending(AllTick(net, ts), a, r.fc, Hello)
  {
    hide Tick;
    assert Begins(r, card, bpdu, r.fc, Tick(net.cards[r.fc])) && Begins(r, card, bpdu, a, Tick(net.cards[a]));
    TicksFrom(hw, net);
    assert Tick(net.cards[r.fc]).sent[0] in Tick(net.cards[r.fc]).sent;
    DoPending(Tick, net, ts, r.fc, a, Hello);
  }

  ghost function RollingOf(hw: Hardware, r: Roots, later: bool, fade: nat): Net -> bool {
    x => Rolling(hw, r, later, fade, x)
  }

  /** At the end of the round. */
  ghost predicate RollEnd(hw: Hardware, r: Roots, later: bool, fade: nat, net: Net) {
    && Rolled(hw, r, true, Less(fade), net)
    && (later ==> forall n :: n in net.cards && r.p.Has(n) ==> HoldsAll(r, net.cards[n]))
  }

  ghost function RollEndOf(hw: Hardware, r: Roots, later: bool, fade: nat): Net -> bool {
    x => RollEnd(hw, r, later, fade, x)
  }

  lemma RollingStable(hw: Hardware, r: Roots, later: bool, fade: nat)
    ensures Stable(hw, RollingOf(hw, r, later, fade))
    ensures EndsIn(RollingOf(hw, r, later, fade), RollEndOf(hw, r, later, fade))
  {
    hide Rolling, RollEnd;
    forall x: Net, k: nat | RollingOf(hw, r, later, fade)(x)
      ensures RollingOf(hw, r, later, fade)(Apply(hw, x, Deliver(k)))
    {
      DeliverRolling(hw, r, later, fade, x, k);
    }
    forall x: Net | RollingOf(hw, r, later, fade)(x) && x.flight == []
      ensures RollEndOf(hw, r, later, fade)(x)
    {
      RollingEnds(hw, r, later, fade, x);
    }
  }

  /** All have been heard by all of the other kind. */
  predicate AllCame(r: Roots, c: Card) {
    forall n :: n in r.p.live && Opposite(r, c.us, n) ==> (n, Voice(r, n)) in c.heard
  }

  lemma CardEnds(hw: Hardware, r: Roots, later: bool, fade: nat, c: Card)
    requires r.Ok() && r.p.Has(c.us) && Rolls(r, later, fade, c) && Kept(r, c) && AllCame(r, c)
    ensures Ready(r, true, Less(fade), c) && (later ==> HoldsAll(r, c))
  {
    hide Holds, Age;
    GreetersFew(r, c);
    if LcNum(c.us) {
      assert r.fc in Greeters(r, c);
    }
    forall n: nat | r.p.Has(n) && LcNum(n) != LcNum(c.us)
      ensures Came(r, c, n)
    {
      assert Opposite(r, c.us, n);
    }
    hide Greeters, Came, Kept;
  }

  lemma RollingEnds(hw: Hardware, r: Roots, later: bool, fade: nat, net: Net)
    requires Rolling(hw, r, later, fade, net) && net.flight == []
    ensures RollEnd(hw, r, later, fade, net)
  {
    hide CtpKeep.Closed, Oblivious, Ready, HoldsAll, Rolls, RollBpdu, Said, NotAnswered, KeepersComing, NetOk,
      NetHeardOk, Holds, Kept;
    DuringEnds(hw, r, RollCard(r, later, fade), RollSays(r, later, fade), net);
    forall n | n in net.cards && r.p.Has(n)
      ensures Ready(r, true, Less(fade), net.cards[n]) && (later ==> HoldsAll(r, net.cards[n]))
      ensures Holds(r, net.cards[n])
    {
      EndsCame(hw, r, net, n);
      assert RollCard(r, later, fade)(net.cards[n]);
      CardEnds(hw, r, later, fade, net.cards[n]);
      RollsHolds(r, later, fade, net.cards[n]);
    }
    EndsSteady(hw, r, RollCard(r, later, fade), net);
  }

  lemma RollsHolds(r: Roots, later: bool, fade: nat, c: Card)
    requires Rolls(r, later, fade, c)
    ensures Holds(r, c)
  {
  }

  lemma EndsSteady(hw: Hardware, r: Roots, card: Card -> bool, net: Net)
    requires r.Ok() && AllKept(hw, r, card, net)
    requires forall n :: n in net.cards && r.p.Has(n) ==> Holds(r, net.cards[n])
    ensures SteadyStart(hw, r, net)
  {
    forall n | n in net.cards && r.p.Has(n)
      ensures Poised(r, net.cards[n])
    {
      assert Holds(r, net.cards[n]) && Kept(r, net.cards[n]);
    }
  }

  lemma EndsCame(hw: Hardware, r: Roots, net: Net, n: nat)
    requires Base(hw, r.p, net) && Echoes(r, net) && net.flight == [] && n in net.cards && r.p.Has(n)
    requires forall m :: m in net.cards && r.p.Has(m) ==> Kept(r, net.cards[m])
    ensures AllCame(r, net.cards[n]) && net.cards[n].us == n
  {
    BaseCard(hw, r.p, net, n);
    hide NetOk, NetHeardOk, Kept;
    forall m | m in r.p.live && Opposite(r, n, m)
      ensures (m, Voice(r, m)) in net.cards[n].heard
    {
      assert Echo(r, net, n, m) && !Pending(net, n, m, Voice(r, m));
    }
  }

  lemma RollRound(hw: Hardware, r: Roots, later: bool, fade: nat, net: Net, l: Lockstep, after: Net)
    requires Rolled(hw, r, later, fade, net) && Round(hw, net, l, after)
    ensures RollEnd(hw, r, later, fade, after)
  {
    hide Rolled, Rolling, RollEnd;
    RollStarts(hw, r, later, fade, net, l.ticks);
    RollingStable(hw, r, later, fade);
    assert RollingOf(hw, r, later, fade)(AllTick(net, l.ticks));
    RoundKeeps(hw, RollingOf(hw, r, later, fade), RollEndOf(hw, r, later, fade), net, l, after);
    assert RollEndOf(hw, r, later, fade)(after);
  }

  // ------------------------------------------------------------- many rounds

  lemma SteadyRolled(hw: Hardware, r: Roots, net: Net)
    requires SteadyStart(hw, r, net)
    ensures Rolled(hw, r, false, 16, net)
  {
    forall n | n in net.cards && r.p.Has(n)
      ensures Fades(r, net.cards[n].exist, 16)
    {
      BaseCard(hw, r.p, net, n);
      NoneOlder(hw, r, net.cards[n]);
    }
  }

  lemma NoneOlder(hw: Hardware, r: Roots, c: Card)
    requires CardOk(hw, c)
    ensures Fades(r, c.exist, 16)
  {
    forall n: nat | 1 <= n <= CARDS && !r.p.Has(n)
      ensures Age(c.exist, n - 1) <= 16
    {
      assert SlotOk(hw, c.us, n - 1, c.exist[n - 1]);
    }
  }

  function FadeAfter(k: nat): nat {
    if k <= 16 then 16 - k else 0
  }

  lemma {:induction false} RollsAfter(hw: Hardware, r: Roots, nets: seq<Net>, ls: seq<Lockstep>, m: nat, k: nat)
    requires Rounds(hw, nets, ls) && m <= k <= |ls| && SteadyStart(hw, r, nets[m])
    ensures Rolled(hw, r, k > m, FadeAfter(k - m), nets[k])
    ensures k >= m + 2 ==> forall n :: n in nets[k].cards && r.p.Has(n) ==> HoldsAll(r, nets[k].cards[n])
  {
    hide Rolled, HoldsAll, SteadyStart;
    if k == m {
      SteadyRolled(hw, r, nets[m]);
    } else {
      RollsAfter(hw, r, nets, ls, m, k - 1);
      assert Round(hw, nets[k - 1], ls[k - 1], nets[k - 1 + 1]);
      RollRound(hw, r, k - 1 > m, FadeAfter(k - 1 - m), nets[k - 1], ls[k - 1], nets[k]);
    }
  }

  /** The card holds exactly the running cards of its plane. */
  ghost predicate KnowsAll(r: Roots, c: Card) {
    forall n: nat :: 1 <= n <= 48 ==> (Age(c.exist, n - 1) >= 1 <==> r.p.Has(n))
  }

  /** Roll call: from the second round of the steady state on, every running card of the
      plane holds every other one at age 7 or more, and from the 16th on it holds no
      other card at all. */
  lemma RollCall(hw: Hardware, r: Roots, nets: seq<Net>, ls: seq<Lockstep>, m: nat, k: nat, n: nat)
    requires Rounds(hw, nets, ls) && m + 2 <= k <= |ls| && SteadyStart(hw, r, nets[m])
    requires n in nets[k].cards && r.p.Has(n)
    ensures forall j: nat :: r.p.Has(j) ==> Age(nets[k].cards[n].exist, j - 1) >= 7
    ensures k >= m + 16 ==> KnowsAll(r, nets[k].cards[n])
  {
    RollsAfter(hw, r, nets, ls, m, k);
    BaseCard(hw, r.p, nets[k], n);
    var c := nets[k].cards[n];
    assert HoldsAll(r, c) && Ready(r, true, FadeAfter(k - m), c);
    hide Rounds, Base, CardOk, SteadyStart, HoldsAll, Ready;
    CardKnows(hw, r, FadeAfter(k - m), c);
  }

  lemma CardKnows(hw: Hardware, r: Roots, fade: nat, c: Card)
    requires CardOk(hw, c) && r.p.Has(c.us) && HoldsAll(r, c) && Ready(r, true, fade, c)
    ensures forall j: nat :: r.p.Has(j) ==> Age(c.exist, j - 1) >= 7
    ensures fade == 0 ==> KnowsAll(r, c)
  {
    OwnFull(hw, c);
    hide CardOk;
  }

  lemma OwnFull(hw: Hardware, c: Card)
    requires CardOk(hw, c)
    ensures Age(c.exist, c.us - 1) == 16
  {
  }
}
