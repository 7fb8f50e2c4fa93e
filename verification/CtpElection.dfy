/**
 The election of a card that has not reached FORWARDING, over its own events:
 ticks, and BPDUs as they come in, some of which the receive-interval table
 drops. Each root number is the smallest that the BPDUs which got through named
 live. Order matters only through what is dropped.
 */
module CtpElection {
  import opened Ctp
  import opened CtpInvariant
  import opened CtpReceive
  import opened CtpTiming

  /** The numbers and the ids of the roots agree. */
  predicate Consistent(c: Card) {
    c.rootPort == c.rootBridge.Num() && c.rootLc == c.designBridge.Num()
  }

  lemma ElectingIsConsistent(hw: Hardware, c: Card)
    requires CardOk(hw, c) && c.state != Forwarding
    ensures Consistent(c)
  {
  }

  /** b comes from a card of the other kind. */
  predicate OtherKind(c: Card, b: Bpdu) {
    if c.IsLc() then 33 <= b.from <= 48 else 1 <= b.from <= 32
  }

  /** b gets through to the handler of c. */
  predicate Handled(c: Card, b: Bpdu) {
    c.us % 2 == 1 && Fresh(c, b) && OtherKind(c, b)
  }

  /** What one event adds to the BPDUs that got through to card d. */
  function Adds(d: Card, e: CardEvent): seq<Bpdu> {
    if e.Hears? && Handled(d, e.b) then [e.b] else []
  }

  /** The BPDUs from the other kind, in order: those that got through ... */
  function Through(c: Card, es: seq<CardEvent>): seq<Bpdu> {
    if es == [] then []
    else
      var past, e := es[..|es| - 1], es[|es| - 1];
      Through(c, past) + Adds(After(c, past), e)
  }

  /** ... and all that came in. */
  function Offered(c: Card, es: seq<CardEvent>): seq<Bpdu> {
    if es == [] then []
    else
      var past, e := es[..|es| - 1], es[|es| - 1];
      Offered(c, past) + if e.Hears? && OtherKind(c, e.b) then [e.b] else []
  }

  /** The card does not reach FORWARDING. */
  predicate Electing(c: Card, es: seq<CardEvent>) {
    After(c, es).state != Forwarding && (es == [] || Electing(c, es[..|es| - 1]))
  }

  /** A card that has left BLOCK elects for 13 ticks of an LC and 9 of an FC. */
  lemma {:induction false} StillElecting(c: Card, es: seq<CardEvent>)
    requires CpuA(c.us) && AtPhase(c, 0) && Clocks(es) < ConvergeTicks(c.IsLc())
    ensures Electing(c, es)
  {
    ExactConvergence(c, es);
    if es != [] {
      StillElecting(c, es[..|es| - 1]);
    }
  }

  function RootsNamed(bs: seq<Bpdu>): set<nat> {
    set b | b in bs && NamesLiveRoot(b) :: b.root.Num()
  }

  function DesignsNamed(bs: seq<Bpdu>): set<nat> {
    set b | b in bs && NamesLiveDesign(b) :: b.design.Num()
  }

  /** Root FCs are elected by size: an FC would take that of a forwarding card
      regardless. */
  predicate CalmRoots(c: Card, bs: seq<Bpdu>) {
    c.IsLc() || forall b :: b in bs ==> !b.forwarding
  }

  /** Root LCs are elected by size: an LC would take that of a HELLO regardless. */
  predicate CalmDesigns(c: Card, bs: seq<Bpdu>) {
    !c.IsLc() || forall b :: b in bs ==> b.kind != Hello
  }

  /** r is the least of start and s, where 0 stands for none. */
  predicate Least(r: nat, start: nat, s: set<nat>) {
    && (r == 0 ==> start == 0 && s == {})
    && (r != 0 ==> (r == start || r in s) && (start != 0 ==> r <= start) && forall x :: x in s ==> r <= x)
  }

  lemma LeastIsUnique(r: nat, q: nat, start: nat, s: set<nat>)
    requires Least(r, start, s) && Least(q, start, s) && 0 !in s
    ensures r == q
  {
  }

  /** The lower of two numbers, where 0 in r stands for none. */
  function Lower(r: nat, named: bool, x: nat): nat {
    if named && (x < r || r == 0) then x else r
  }

  function RootBy(c: Card, b: Bpdu): nat {
    Lower(c.rootPort, NamesLiveRoot(b), b.root.Num())
  }

  function DesignBy(c: Card, b: Bpdu): nat {
    Lower(c.rootLc, NamesLiveDesign(b), b.design.Num())
  }

  lemma LeastStep(r: nat, start: nat, s: set<nat>, named: bool, x: nat)
    requires Least(r, start, s) && (named ==> x > 0)
    ensures Least(Lower(r, named, x), start, s + if named then {x} else {})
  {
  }

  // --------------------------------------------------------------- one event

  /** How a handled BPDU leaves the roots: as the smaller live numbers, whether
      or not the update is skipped because the BPDU names the card's own. */
  predicate Elected(c: Card, b: Bpdu, d: Card) {
    && Consistent(d) && d.us == c.us
    && (CalmRoots(c, [b]) ==> d.rootPort == RootBy(c, b))
    && (CalmDesigns(c, [b]) ==> d.rootLc == DesignBy(c, b))
  }

  lemma LcHearStep(c: Card, b: Bpdu)
    requires Consistent(c) && c.state != Forwarding && c.IsLc()
    ensures Elected(c, b, LcHearsFc(c, b).card)
  {
    assert [b][0] == b;
  }

  lemma FcHearStep(c: Card, b: Bpdu)
    requires Consistent(c) && c.state != Forwarding && !c.IsLc()
    ensures Elected(c, b, FcHearsLc(c, b).card)
  {
    assert [b][0] == b;
  }

  lemma HearStep(c: Card, b: Bpdu)
    requires Consistent(c) && c.state != Forwarding
    ensures Handled(c, b) ==> Elected(c, b, Rx(c, b).card)
    ensures !Handled(c, b) ==> Rx(c, b).card == c.(heard := Rx(c, b).card.heard)
  {
    var h := c.(heard := c.heard + [(b.from, b.kind)]);
    if c.IsLc() { LcHearStep(h, b); } else { FcHearStep(h, b); }
  }

  lemma TickStep(c: Card)
    requires Consistent(c) && c.state != Forwarding
    ensures var d := Tick(c).card;
            Consistent(d) && d.us == c.us && d.rootPort == c.rootPort && d.rootLc == c.rootLc
  {
  }

  lemma NamedStep(bs: seq<Bpdu>, b: Bpdu)
    ensures RootsNamed(bs + [b]) == RootsNamed(bs) + (if NamesLiveRoot(b) then {b.root.Num()} else {})
    ensures DesignsNamed(bs + [b]) == DesignsNamed(bs) + (if NamesLiveDesign(b) then {b.design.Num()} else {})
  {
    assert forall x :: x in bs + [b] <==> x in bs || x == b;
  }

  lemma CalmStep(c: Card, bs: seq<Bpdu>, b: Bpdu)
    ensures CalmRoots(c, bs + [b]) <==> CalmRoots(c, bs) && CalmRoots(c, [b])
    ensures CalmDesigns(c, bs + [b]) <==> CalmDesigns(c, bs) && CalmDesigns(c, [b])
  {
    assert forall x :: x in bs + [b] <==> x in bs || x in [b];
  }

  // ------------------------------------------------------------- the minimum

  /** d's roots are the least of those of c and the live names in bs. */
  predicate LeastOf(c: Card, d: Card, bs: seq<Bpdu>) {
    && Consistent(d) && d.us == c.us
    && (CalmRoots(c, bs) ==> Least(d.rootPort, c.rootPort, RootsNamed(bs)))
    && (CalmDesigns(c, bs) ==> Least(d.rootLc, c.rootLc, DesignsNamed(bs)))
  }

  predicate ElectedLeast(c: Card, es: seq<CardEvent>) {
    LeastOf(c, After(c, es), Through(c, es))
  }

  lemma OneMore(c: Card, d: Card, bs: seq<Bpdu>, b: Bpdu, after: Card)
    requires LeastOf(c, d, bs) && Elected(d, b, after)
    ensures LeastOf(c, after, bs + [b])
  {
    NamedStep(bs, b);
    CalmStep(c, bs, b);
    if CalmRoots(c, bs + [b]) {
      LeastStep(d.rootPort, c.rootPort, RootsNamed(bs), NamesLiveRoot(b), b.root.Num());
    }
    if CalmDesigns(c, bs + [b]) {
      LeastStep(d.rootLc, c.rootLc, DesignsNamed(bs), NamesLiveDesign(b), b.design.Num());
    }
  }

  lemma EventStep(c: Card, d: Card, bs: seq<Bpdu>, e: CardEvent)
    requires LeastOf(c, d, bs) && d.state != Forwarding
    ensures LeastOf(c, Step(d, e), bs + Adds(d, e))
  {
    match e
    case Clock =>
      TickStep(d);
      assert bs + [] == bs;
    case Hears(b) =>
      HearStep(d, b);
      if Handled(d, b) {
        OneMore(c, d, bs, b, Rx(d, b).card);
      } else {
        assert bs + [] == bs;
      }
  }

  lemma Unfold(c: Card, es: seq<CardEvent>)
    requires es != []
    ensures var past, e := es[..|es| - 1], es[|es| - 1];
            After(c, es) == Step(After(c, past), e) && Through(c, es) == Through(c, past) + Adds(After(c, past), e)
  {
  }

  lemma {:induction false} ElectsFrom(c: Card, es: seq<CardEvent>)
    requires Consistent(c) && Electing(c, es)
    ensures ElectedLeast(c, es)
  {
    if es != [] {
      var past, e := es[..|es| - 1], es[|es| - 1];
      ElectsFrom(c, past);
      ElectingStart(c, past);
      EventStep(c, After(c, past), Through(c, past), e);
      Unfold(c, es);
    }
  }

  /** The running card: from BLOCK or any later point before FORWARDING, over any
      ticks and BPDUs, each root number is the least of its start value and the
      numbers that the BPDUs which got through named live. */
  lemma ElectsLeast(hw: Hardware, c: Card, es: seq<CardEvent>)
    requires CardOk(hw, c) && Electing(c, es)
    ensures var d, bs := After(c, es), Through(c, es);
            && (CalmRoots(c, bs) ==> Least(d.rootPort, c.rootPort, RootsNamed(bs)))
            && (CalmDesigns(c, bs) ==> Least(d.rootLc, c.rootLc, DesignsNamed(bs)))
  {
    ElectingStart(c, es);
    ElectingIsConsistent(hw, c);
    ElectsFrom(c, es);
  }

  lemma {:induction false} ElectingStart(c: Card, es: seq<CardEvent>)
    requires Electing(c, es)
    ensures c.state != Forwarding && After(c, es).state != Forwarding
  {
    if es != [] {
      ElectingStart(c, es[..|es| - 1]);
    }
  }

  // ------------------------------------------------------------------- order

  /** The BPDUs heard since the last tick. */
  function Interval(es: seq<CardEvent>): seq<Bpdu> {
    if es == [] || es[|es| - 1] == Clock then [] else Interval(es[..|es| - 1]) + [es[|es| - 1].b]
  }

  predicate SamePair(a: Bpdu, b: Bpdu) {
    a.from == b.from && a.kind == b.kind
  }

  predicate SameNames(a: Bpdu, b: Bpdu) {
    && (NamesLiveRoot(a) <==> NamesLiveRoot(b)) && (NamesLiveRoot(a) ==> a.root.Num() == b.root.Num())
    && (NamesLiveDesign(a) <==> NamesLiveDesign(b)) && (NamesLiveDesign(a) ==> a.design.Num() == b.design.Num())
  }

  /** Between two ticks, BPDUs of one sender and type name the same live roots. */
  predicate Unambiguous(es: seq<CardEvent>) {
    es == [] ||
    (var past, e := es[..|es| - 1], es[|es| - 1];
     Unambiguous(past) && (e.Hears? ==> forall a :: a in Interval(past) && SamePair(a, e.b) ==> SameNames(a, e.b)))
  }

  predicate RealSenders(es: seq<CardEvent>) {
    forall e :: e in es && e.Hears? ==> 1 <= e.b.from <= CARDS
  }

  /** What is on record since the last tick got through, if it is from the other kind. */
  predicate OnRecord(c: Card, es: seq<CardEvent>) {
    var d := After(c, es);
    && d.us == c.us && HeardOk(d)
    && forall p :: p in d.heard ==>
         exists a :: a in Interval(es) && (a.from, a.kind) == p && (OtherKind(c, a) ==> a in Through(c, es))
  }

  lemma {:induction false} RecordKept(c: Card, es: seq<CardEvent>)
    requires CpuA(c.us) && c.heard == [] && RealSenders(es)
    ensures OnRecord(c, es)
  {
    if es != [] {
      var past, e := es[..|es| - 1], es[|es| - 1];
      RealSendersPast(es);
      RecordKept(c, past);
      RecordStep(c, es);
    }
  }

  lemma RecordStep(c: Card, es: seq<CardEvent>)
    requires CpuA(c.us) && es != [] && RealSenders(es) && OnRecord(c, es[..|es| - 1])
    ensures OnRecord(c, es)
  {
    var past, e := es[..|es| - 1], es[|es| - 1];
    var d := After(c, past);
    match e
    case Clock => TickKeepsUs(d);
    case Hears(b) =>
      assert e in es;
      RxKeepsHeard(d, b);
      forall p | p in Rx(d, b).card.heard
        ensures exists a :: a in Interval(es) && (a.from, a.kind) == p && (OtherKind(c, a) ==> a in Through(c, es))
      {
        if p in d.heard {
          var a :| a in Interval(past) && (a.from, a.kind) == p && (OtherKind(c, a) ==> a in Through(c, past));
          assert a in Interval(es);
        } else {
          assert p == (b.from, b.kind) && b in Interval(es);
        }
      }
  }

  lemma TickKeepsUs(c: Card)
    requires CpuA(c.us)
    ensures Tick(c).card.us == c.us && Tick(c).card.heard == []
  {
    TickHeard(c);
  }

  /** What was dropped as a repetition names nothing new. */
  predicate AllNamed(through: seq<Bpdu>, offered: seq<Bpdu>) {
    RootsNamed(through) == RootsNamed(offered) && DesignsNamed(through) == DesignsNamed(offered)
  }

  lemma {:induction false} DroppedNamesNothingNew(c: Card, es: seq<CardEvent>)
    requires CpuA(c.us) && c.heard == [] && RealSenders(es) && Unambiguous(es)
    ensures AllNamed(Through(c, es), Offered(c, es))
  {
    if es == [] {
      NothingOffered(c, es);
    } else {
      var past, e := es[..|es| - 1], es[|es| - 1];
      assert es == past + [e];
      RealSendersPast(es);
      DroppedNamesNothingNew(c, past);
      RecordKept(c, past);
      AllNamedStep(c, past, es, e);
    }
  }

  lemma NothingOffered(c: Card, es: seq<CardEvent>)
    requires es == []
    ensures Through(c, es) == Offered(c, es) == []
  {
  }

  lemma AllNamedStep(c: Card, past: seq<CardEvent>, es: seq<CardEvent>, e: CardEvent)
    requires es == past + [e] && CpuA(c.us) && OnRecord(c, past) && Unambiguous(es)
    requires AllNamed(Through(c, past), Offered(c, past))
    ensures AllNamed(Through(c, es), Offered(c, es))
  {
    assert es[..|es| - 1] == past && es[|es| - 1] == e;
    if e.Hears? && OtherKind(c, e.b) {
      OfferedStep(c, past, es, e.b);
    } else {
      NotOffered(c, past, es, e);
    }
  }

  lemma NotOffered(c: Card, past: seq<CardEvent>, es: seq<CardEvent>, e: CardEvent)
    requires es == past + [e] && OnRecord(c, past) && !(e.Hears? && OtherKind(c, e.b))
    ensures Through(c, es) == Through(c, past) && Offered(c, es) == Offered(c, past)
  {
    assert es[..|es| - 1] == past && es[|es| - 1] == e;
    assert Adds(After(c, past), e) == [];
  }

  lemma RealSendersPast(es: seq<CardEvent>)
    requires RealSenders(es) && es != []
    ensures RealSenders(es[..|es| - 1])
  {
    assert forall x :: x in es[..|es| - 1] ==> x in es;
  }

  lemma OfferedStep(c: Card, past: seq<CardEvent>, es: seq<CardEvent>, b: Bpdu)
    requires es == past + [Hears(b)] && CpuA(c.us) && OnRecord(c, past) && OtherKind(c, b)
    requires forall a :: a in Interval(past) && SamePair(a, b) ==> SameNames(a, b)
    requires AllNamed(Through(c, past), Offered(c, past))
    ensures AllNamed(Through(c, es), Offered(c, es))
  {
    assert es[..|es| - 1] == past && es[|es| - 1] == Hears(b);
    NamedStep(Through(c, past), b);
    NamedStep(Offered(c, past), b);
    assert Offered(c, es) == Offered(c, past) + [b];
    if Handled(After(c, past), b) {
      assert Through(c, es) == Through(c, past) + [b];
    } else {
      assert Through(c, es) == Through(c, past);
      RepetitionIsKnown(c, past, b);
    }
  }

  lemma RepetitionIsKnown(c: Card, past: seq<CardEvent>, b: Bpdu)
    requires CpuA(c.us) && OnRecord(c, past) && OtherKind(c, b) && !Handled(After(c, past), b)
    requires forall a :: a in Interval(past) && SamePair(a, b) ==> SameNames(a, b)
    ensures NamesLiveRoot(b) ==> b.root.Num() in RootsNamed(Through(c, past))
    ensures NamesLiveDesign(b) ==> b.design.Num() in DesignsNamed(Through(c, past))
  {
    NeverFull(After(c, past));
    assert (b.from, b.kind) in After(c, past).heard;
    var a :| a in Interval(past) && (a.from, a.kind) == (b.from, b.kind)
             && (OtherKind(c, a) ==> a in Through(c, past));
    assert SamePair(a, b) && a in Through(c, past);
  }

  predicate Calm(c: Card, es: seq<CardEvent>) {
    CalmRoots(c, Through(c, es)) && CalmDesigns(c, Through(c, es))
  }

  /** Order and repetition do not matter as long as no BPDU is dropped that names
      another live root than the one it repeats: then only the set of live names
      that came in decides. */
  lemma ElectionOrderFree(hw: Hardware, c: Card, es: seq<CardEvent>, fs: seq<CardEvent>)
    requires CardOk(hw, c) && c.heard == [] && Electing(c, es) && Electing(c, fs) && Calm(c, es) && Calm(c, fs)
    requires RealSenders(es) && RealSenders(fs) && Unambiguous(es) && Unambiguous(fs)
    requires RootsNamed(Offered(c, es)) == RootsNamed(Offered(c, fs))
    requires DesignsNamed(Offered(c, es)) == DesignsNamed(Offered(c, fs))
    ensures After(c, es).rootPort == After(c, fs).rootPort && After(c, es).rootLc == After(c, fs).rootLc
  {
    ElectsLeast(hw, c, es);
    ElectsLeast(hw, c, fs);
    DroppedNamesNothingNew(c, es);
    DroppedNamesNothingNew(c, fs);
    LeastIsUnique(After(c, es).rootPort, After(c, fs).rootPort, c.rootPort, RootsNamed(Offered(c, es)));
    LeastIsUnique(After(c, es).rootLc, After(c, fs).rootLc, c.rootLc, DesignsNamed(Offered(c, es)));
  }

  /** Exactly when the order of two BPDUs between two ticks decides: they are of
      one sender and type, so that the second is dropped, and would alone leave
      different roots. */
  lemma SwapIff(hw: Hardware, c: Card, a: Bpdu, b: Bpdu)
    requires CardOk(hw, c) && HeardOk(c) && c.state != Forwarding && Handled(c, a) && Handled(c, b)
    requires CalmRoots(c, [a, b]) && CalmDesigns(c, [a, b])
    requires a.from <= CARDS && b.from <= CARDS
    ensures var x, y := Rx(Rx(c, a).card, b).card, Rx(Rx(c, b).card, a).card;
            (x.rootPort, x.rootLc) == (y.rootPort, y.rootLc)
            <==> !SamePair(a, b) || (RootBy(c, a), DesignBy(c, a)) == (RootBy(c, b), DesignBy(c, b))
  {
    assert [a, b] == [a] + [b];
    CalmStep(c, [a], b);
    ElectingIsConsistent(hw, c);
    SwapOne(c, a, b);
    SwapOne(c, b, a);
    LowerSwap(c.rootPort, NamesLiveRoot(a), a.root.Num(), NamesLiveRoot(b), b.root.Num());
    LowerSwap(c.rootLc, NamesLiveDesign(a), a.design.Num(), NamesLiveDesign(b), b.design.Num());
  }

  lemma LowerSwap(r: nat, s: bool, x: nat, t: bool, y: nat)
    requires (s ==> x > 0) && (t ==> y > 0)
    ensures Lower(Lower(r, s, x), t, y) == Lower(Lower(r, t, y), s, x)
  {
  }

  /** Two BPDUs in a row, the second of which is dropped if it repeats the first. */
  lemma SwapOne(c: Card, a: Bpdu, b: Bpdu)
    requires CpuA(c.us) && Consistent(c) && HeardOk(c) && c.state != Forwarding && Handled(c, a) && Handled(c, b)
    requires CalmRoots(c, [a]) && CalmDesigns(c, [a]) && CalmRoots(c, [b]) && CalmDesigns(c, [b])
    requires a.from <= CARDS
    ensures var d := Rx(c, a).card;
            && d.rootPort == RootBy(c, a) && d.rootLc == DesignBy(c, a)
            && Rx(d, b).card.rootPort == (if SamePair(a, b) then d.rootPort else RootBy(d, b))
            && Rx(d, b).card.rootLc == (if SamePair(a, b) then d.rootLc else DesignBy(d, b))
  {
    var d := Rx(c, a).card;
    HearStep(c, a);
    RxKeepsHeard(c, a);
    StillConverges(c, a);
    NeverFull(d);
    HearStep(d, b);
  }

  lemma StillConverges(c: Card, b: Bpdu)
    requires c.state != Forwarding
    ensures Rx(c, b).card.state != Forwarding
  {
  }

  /** And it does decide: a line card in LISTENING that hears two CONFIGs of one
      fabric card between two ticks follows the first, smallest or not. */
  lemma FirstOfTwoDecides() returns (hw: Hardware, c: Card, a: Bpdu, b: Bpdu)
    ensures CardOk(hw, c) && HeardOk(c) && c.us == 3 && c.state == Listening
    ensures BpduOk(hw, a) && BpduOk(hw, b) && a.from == b.from == 35 && a.kind == b.kind == Config
    ensures NamesLiveRoot(a) && a.root.Num() == 35 && NamesLiveRoot(b) && b.root.Num() == 33
    ensures Rx(Rx(c, a).card, b).card.rootPort == 35 && Rx(Rx(c, b).card, a).card.rootPort == 33
  {
    hide Rx;
    hw := seq(CARDS, _ => 0);
    c := Card(3, IdOf(hw, 3), Listening, 0, 37, 3, IdOf(hw, 37), IdOf(hw, 3), 3, 37,
              OwnTable(3, IdOf(hw, 3)), [], Uplinks(PortListening));
    var own := OwnTable(35, IdOf(hw, 35));
    var two := own[32 := Entry(5, IdOf(hw, 33))][0 := Entry(5, IdOf(hw, 1))];
    OwnTableOk(hw, 3);
    OwnTableOk(hw, 35);
    forall i | 0 <= i < CARDS
      ensures SlotOk(hw, 35, i, two[i])
    {
      assert SlotOk(hw, 35, i, own[i]);
    }
    a := Bpdu(DstMac(35), Config, 35, false, IdOf(hw, 35), ZERO_ID, own);
    b := Bpdu(DstMac(35), Config, 35, false, IdOf(hw, 33), IdOf(hw, 1), two);
    SwapOne(c, a, b);
    SwapOne(c, b, a);
  }
}
