/**
 What a forwarding card says: to each kind of BPDU that it handles, and on its
 tick. What is not listed here it takes in silence.
 */
module CtpAnswers {
  import opened Ctp
  import opened CtpInvariant
  import opened CtpNet
  import opened CtpColdStart

  /** Exactly one BPDU: of this kind, from card `us`, naming these roots, and holding
      the card itself at full age. */
  predicate SaysOne(o: Out, us: nat, kind: Kind, root: nat, design: nat) {
    && |o.sent| == 1 && o.sent[0].from == us && o.sent[0].kind == kind
    && o.sent[0].root.Num() == root && o.sent[0].design.Num() == design && Age(o.sent[0].exist, us - 1) == 16
  }

  /** It goes on as it did, but for its table, its clock and what it has heard. */
  predicate GoesOn(c: Card, d: Card) {
    d == c.(exist := d.exist, since := d.since, heard := d.heard)
  }

  /** Fresh BPDU b comes to forwarding card c from its plane. */
  predicate Comes(hw: Hardware, c: Card, b: Bpdu) {
    && CardOk(hw, c) && BpduOk(hw, b) && SamePlane(c.us, b.from) && c.state == Forwarding && Fresh(c, b)
  }

  // --------------------------------------------------------------- line card

  /** LC_CHANGE: the line card passes it on, still naming its root FC, and goes to
      BLOCK. */
  lemma LcPassesOn(hw: Hardware, c: Card, b: Bpdu)
    requires Comes(hw, c, b) && LcNum(c.us) && FcNum(b.from) && b.kind == LcChange
    ensures var d := Rx(c, b).card; d.us == c.us && d.state == Block && d.rootPort == 0 && d.rootLc == c.us
    ensures SaysOne(Rx(c, b), c.us, LcChange, c.rootPort, c.rootLc)
  {
  }

  /** CONFIG: a REPLY that holds the sender at almost full age. */
  lemma LcReplies(hw: Hardware, c: Card, b: Bpdu)
    requires Comes(hw, c, b) && LcNum(c.us) && FcNum(b.from) && b.kind == Config
    ensures GoesOn(c, Rx(c, b).card) && Rx(c, b).card.since == c.since
    ensures SaysOne(Rx(c, b), c.us, Reply, c.rootPort, c.rootLc)
    ensures Age(Rx(c, b).sent[0].exist, b.from - 1) == 15
  {
    hide BpduOk, Merged, TableOk;
    var h := c.(heard := c.heard + [(b.from, b.kind)]);
    RepliesWith(hw, h, b);
  }

  lemma RepliesWith(hw: Hardware, h: Card, b: Bpdu)
    requires CardOk(hw, h) && BpduOk(hw, b) && SamePlane(h.us, b.from) && h.us != b.from
    ensures var o := Tx(Merged(h, b), Reply);
            && SaysOne(o, h.us, Reply, h.rootPort, h.designBridge.Num()) && GoesOn(h, o.card)
            && o.card.since == h.since && Age(o.sent[0].exist, b.from - 1) == 15
  {
    MergedFull(hw, h, b);
  }

  /** HELLO: one that names the root FC but another root LC is taken in silence; the
      root LC passes on that of the root FC; every other one gets a REPLY. The clock
      is back at 0 in any case. */
  lemma LcHearsHello(hw: Hardware, c: Card, b: Bpdu)
    requires Comes(hw, c, b) && LcNum(c.us) && FcNum(b.from) && b.kind == Hello
    ensures Rx(c, b).card.state == Forwarding && Rx(c, b).card.since == 0
    ensures if b.root.Num() == c.rootPort && b.design.Num() != c.rootLc then Rx(c, b).sent == []
            else
              && GoesOn(c, Rx(c, b).card)
              && SaysOne(Rx(c, b), c.us, if b.from == b.root.Num() == c.rootPort && b.design.Num() == c.us
                                         then Hello else Reply, c.rootPort, c.rootLc)
  {
  }

  /** REPLY: nothing. */
  lemma LcHearsReply(hw: Hardware, c: Card, b: Bpdu)
    requires Comes(hw, c, b) && LcNum(c.us) && FcNum(b.from) && b.kind == Reply
    ensures GoesOn(c, Rx(c, b).card) && Rx(c, b).card.since == c.since && Rx(c, b).sent == []
  {
  }

  // ------------------------------------------------------------- fabric card

  /** LC_CHANGE: the fabric card goes to BLOCK if and only if the root FC that it
      names is not itself, and says nothing. */
  lemma FcHearsLcChange(hw: Hardware, c: Card, b: Bpdu)
    requires Comes(hw, c, b) && FcNum(c.us) && LcNum(b.from) && b.kind == LcChange
    ensures Rx(c, b).sent == []
    ensures if b.root.Num() != c.us then Rx(c, b).card.state == Block && Rx(c, b).card.rootPort == c.us
            else GoesOn(c, Rx(c, b).card) && Rx(c, b).card.since == c.since
  {
  }

  lemma FcReplies(hw: Hardware, c: Card, b: Bpdu)
    requires Comes(hw, c, b) && FcNum(c.us) && LcNum(b.from) && b.kind == Config
    ensures GoesOn(c, Rx(c, b).card) && Rx(c, b).card.since == c.since
    ensures SaysOne(Rx(c, b), c.us, Reply, c.rootPort, c.designBridge.Num())
    ensures Age(Rx(c, b).sent[0].exist, b.from - 1) == 15
  {
    hide BpduOk, Merged, TableOk;
    var h := c.(heard := c.heard + [(b.from, b.kind)]);
    RepliesWith(hw, h, b);
  }

  /** HELLO: a fabric card answers it with a HELLO if and only if it names the root LC
      that the card has, and another root FC than the card itself. */
  lemma FcHearsHello(hw: Hardware, c: Card, b: Bpdu)
    requires Comes(hw, c, b) && FcNum(c.us) && LcNum(b.from) && b.kind == Hello
    ensures Rx(c, b).card.state == Forwarding && Rx(c, b).card.since == 0
    ensures if b.design.Num() == c.designBridge.Num() && b.root.Num() != c.us then
              GoesOn(c, Rx(c, b).card) && SaysOne(Rx(c, b), c.us, Hello, c.rootPort, c.designBridge.Num())
            else Rx(c, b).sent == []
  {
  }

  lemma FcHearsReply(hw: Hardware, c: Card, b: Bpdu)
    requires Comes(hw, c, b) && FcNum(c.us) && LcNum(b.from) && b.kind == Reply
    ensures GoesOn(c, Rx(c, b).card) && Rx(c, b).card.since == c.since && Rx(c, b).sent == []
  {
  }

  /** FC_CHANGE, which no card of this chassis says: the fabric card that it names as
      root picks the smallest line card of age 3 or more, but for the slot at the number
      named, and announces it, or goes to BLOCK without a word if there is none. Any
      other takes it in silence. */
  lemma FcHearsFcChange(hw: Hardware, c: Card, b: Bpdu, i: nat)
    requires CardOk(hw, c) && BpduOk(hw, b.(kind := Hello)) && SamePlane(c.us, b.from) && c.state == Forwarding
    requires FcNum(c.us) && LcNum(b.from) && b.kind == FcChange && Fresh(c, b) && i < 32
    ensures if b.root.Num() == c.us then Picks(c, Merged(c, b).exist, b.design.Num(), Rx(c, b), i)
            else GoesOn(c, Rx(c, b).card) && Rx(c, b).sent == []
  {
    hide Picks, MergeFrom, TableOk, FcChanged;
    var h := c.(heard := c.heard + [(b.from, b.kind)]);
    var m := Merged(h, b);
    assert Rx(c, b) == FcChanged(m, b);
    if b.root.Num() == c.us {
      MergedOk(hw, h, b.(kind := Hello));
      assert m == Merged(h, b.(kind := Hello));
      FcChangedPicks(hw, m, b, i);
      SamePicks(c, m, b.design.Num(), Rx(c, b), i);
    } else {
      NotNamed(m, b);
    }
  }

  lemma NotNamed(m: Card, b: Bpdu)
    requires b.root.Num() != m.brId.Num()
    ensures FcChanged(m, b) == Out(m, [])
  {
  }

  /** From table t, slot i is picked, if it is the first one that counts as recent; and
      none, if there is no such slot. */
  predicate Picks(c: Card, t: Table, lost: nat, o: Out, i: nat)
    requires i < 32
  {
    && (t[i].age >= 3 && i != lost && (forall k :: 0 <= k < i && k != lost ==> t[k].age < 3) ==>
          o.card.state == Forwarding && SaysOne(o, c.us, Hello, c.rootPort, i + 1))
    && ((forall k :: 0 <= k < 32 && k != lost ==> t[k].age < 3) ==> o.card.state == Block && o.sent == [])
  }

  lemma SamePicks(c: Card, m: Card, lost: nat, o: Out, i: nat)
    requires i < 32 && Picks(m, m.exist, lost, o, i) && m.us == c.us && m.rootPort == c.rootPort
    ensures Picks(c, m.exist, lost, o, i)
  {
  }

  lemma FcChangedPicks(hw: Hardware, m: Card, b: Bpdu, i: nat)
    requires CardOk(hw, m) && FcNum(m.us) && m.state == Forwarding && i < 32
    requires b.root.Num() == m.us && b.design.Num() < 32
    ensures Picks(m, m.exist, b.design.Num(), FcChanged(m, b), i)
  {
    hide FirstRecent, Forget, TableOk, FcChanged, SaysOne, NamesOk, ClockOk, BlockOk;
    var lost := b.design.Num();
    var t := Forget(m.exist, lost);
    ForgetOk(hw, m.us, m.exist, lost);
    FirstIsPicked(m.exist, lost, m.us, i);
    Announced(hw, m, b, t, FirstRecent(t, m.us, 0));
  }

  lemma Announced(hw: Hardware, m: Card, b: Bpdu, t: Table, r: nat)
    requires CardOk(hw, m) && FcNum(m.us) && m.state == Forwarding && TableOk(hw, m.us, t)
    requires b.root.Num() == m.us && t == Forget(m.exist, b.design.Num()) && r == FirstRecent(t, m.us, 0)
    ensures r <= 32
    ensures r == 32 ==> FcChanged(m, b).card.state == Block && FcChanged(m, b).sent == []
    ensures r < 32 ==> FcChanged(m, b).card.state == Forwarding
                       && SaysOne(FcChanged(m, b), m.us, Hello, m.rootPort, r + 1)
  {
    hide FirstRecent, Forget;
    if r < 32 {
      RecentOk(hw, m.us, t, r);
    }
    hide TableOk, OwnTable;
  }

  lemma FirstIsPicked(t: Table, lost: nat, us: nat, i: nat)
    requires us > 32 && lost < 32 && i < 32
    ensures var r := FirstRecent(Forget(t, lost), us, 0);
            && (t[i].age >= 3 && i != lost && (forall k :: 0 <= k < i && k != lost ==> t[k].age < 3) ==> r == i)
            && ((forall k :: 0 <= k < 32 && k != lost ==> t[k].age < 3) ==> r == 32)
  {
    var u := Forget(t, lost);
    assert forall k :: 0 <= k < 32 ==> u[k].age == if k == lost then 0 else t[k].age;
    var r := FirstRecent(u, us, 0);
    assert r == 32 || (r != lost && t[r].age >= 3);
    assert i < r ==> u[i].age < 3;
  }

  // -------------------------------------------------------------------- tick

  /** The clock has run out, and no line card is left that was heard recently. */
  predicate Quits(c: Card) {
    c.since >= 16 && forall i :: 0 <= i < 32 && i != c.rootLc ==> c.exist[i].age < 3
  }

  lemma QuitsIff(c: Card)
    requires FcNum(c.us) && c.since >= 16
    ensures Quits(c) <==> !Reselect(c, c.rootLc).1
  {
    var t := Forget(c.exist, c.rootLc);
    var r := FirstRecent(t, c.us, 0);
    assert forall k :: 0 <= k < 32 ==> t[k].age == if k == c.rootLc then 0 else c.exist[k].age;
    if r < 32 {
      assert c.exist[r].age >= 3 && r != c.rootLc;
    }
  }

  /** On each of its ticks a root FC says exactly one thing: an LC_CHANGE that names
      itself as root, if and only if it gives up and goes to BLOCK, and else a HELLO. */
  lemma RootSays(hw: Hardware, c: Card)
    requires CardOk(hw, c) && FcNum(c.us) && c.state == Forwarding && c.rootPort == c.us
    ensures var o := Tick(c);
            && |o.sent| == 1 && o.sent[0].from == o.sent[0].root.Num() == c.us
            && o.sent[0].kind == (if Quits(c) then LcChange else Hello)
            && o.card.state == (if Quits(c) then Block else Forwarding)
  {
    hide TableOk;
    if c.since >= 16 {
      QuitsIff(c.(heard := []));
    }
    hide Quits, Reselect;
  }

  /** Every other forwarding card ticks in silence. */
  lemma OthersTick(hw: Hardware, c: Card)
    requires CardOk(hw, c) && c.state == Forwarding && c.rootPort != c.us
    ensures Tick(c).sent == []
    ensures if c.since > 45 then Tick(c).card.state == Block
            else Tick(c).card == c.(since := c.since + 1, heard := [])
  {
  }

  // ------------------------------------------------------------- who is deaf

  /** CPU B of a card neither hears nor says anything; CPU A hears no card of its own
      kind, and nobody whose number is no card's. */
  lemma Deaf(c: Card, b: Bpdu)
    ensures c.us % 2 == 0 ==> Rx(c, b) == Out(c, []) && Tick(c) == Out(c, [])
    ensures (1 <= b.from <= 32 && 1 <= c.us <= 32) || (b.from >= 33 && c.us >= 33) || b.from == 0 || b.from > 48 ==>
              Rx(c, b).sent == [] && Rx(c, b).card == c.(heard := Rx(c, b).card.heard)
  {
    hide LcHearsFc, FcHearsLc;
  }

  // ----------------------------------------------------------- what is taken

  /** Card d has another root FC or root LC than card c only if BPDU b names that one
      and holds it alive. */
  predicate TakesLive(c: Card, d: Card, b: Bpdu) {
    && (d.rootPort != c.rootPort ==> d.rootPort == b.root.Num() && Age(b.exist, d.rootPort - 1) >= 1)
    && (d.rootLc != c.rootLc ==> d.rootLc == b.design.Num() && Age(b.exist, d.rootLc - 1) >= 1)
  }

  lemma ElectsLive(c: Card, b: Bpdu)
    ensures TakesLive(c, LcElect(c, b), b) && TakesLive(c, FcElect(c, b), b) && TakesLive(c, SyncToHello(c, b), b)
  {
    hide ForwardingPorts;
  }

  lemma ConvergesLive(c: Card, b: Bpdu)
    ensures TakesLive(c, LcWakes(c, b).card, b) && TakesLive(c, LcConverges(c, b).card, b)
    ensures TakesLive(c, FcWakes(c, b).card, b) && TakesLive(c, FcConverges(c, b).card, b)
  {
    hide LcElect, FcElect, Aged, MergeFrom, Differs, ForwardingPorts;
    ElectsLive(c, b);
    ElectsLive(EnterListening(c), b);
  }

  lemma LcForwardsLive(c: Card, b: Bpdu)
    ensures var d := LcForwards(c, b).card; d.state != Block ==> TakesLive(c, d, b)
  {
    hide SyncToHello, Aged, MergeFrom;
    ElectsLive(Merged(c, b).(since := 0), b);
  }

  lemma FcForwardsLive(c: Card, b: Bpdu)
    requires b.kind != FcChange
    ensures var d := FcForwards(c, b).card; d.state != Block ==> TakesLive(c, d, b)
  {
    hide SyncToHello, Aged, MergeFrom, FcChanged;
    ElectsLive(Merged(c, b).(since := 0), b);
  }

  /** Whatever state a card is in, a BPDU, other than FC_CHANGE, makes it take another
      root FC or root LC only if it names that one and holds it alive. */
  lemma TakesOnlyLive(c: Card, b: Bpdu)
    requires b.kind != FcChange
    ensures Rx(c, b).card.state != Block ==> TakesLive(c, Rx(c, b).card, b)
  {
    hide LcWakes, LcConverges, LcForwards, FcWakes, FcConverges, FcForwards, TakesLive;
    var h := c.(heard := c.heard + [(b.from, b.kind)]);
    ConvergesLive(h, b);
    LcForwardsLive(h, b);
    FcForwardsLive(h, b);
    SameLive(c, h, Rx(c, b).card, b);
    SameLive(c, c, Rx(c, b).card, b);
  }

  lemma SameLive(c: Card, h: Card, d: Card, b: Bpdu)
    requires h == c.(heard := h.heard)
    ensures TakesLive(c, h, b) && (TakesLive(h, d, b) ==> TakesLive(c, d, b))
  {
  }
}
