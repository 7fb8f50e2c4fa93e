/**
 What every operation of a card keeps. `hw[n - 1]` is the hardware address of
 card n, so IdOf(hw, n) is the only bridge id that card n ever announces.
 */
module CtpInvariant {
  import opened Ctp

  type Hardware = h: seq<nat> | |h| == CARDS witness seq(CARDS, _ => 0)

  function IdOf(hw: Hardware, n: nat): (id: BridgeId)
    requires 1 <= n <= CARDS
    ensures id.Num() == n
  {
    BridgeId(4096 + n, hw[n - 1])
  }

  /** CPU A of a card; only these run the protocol. */
  predicate CpuA(n: nat) {
    1 <= n <= CARDS && n % 2 == 1
  }

  predicate LcNum(n: nat) {
    CpuA(n) && n <= LINE_CARDS
  }

  predicate FcNum(n: nat) {
    CpuA(n) && n > LINE_CARDS
  }

  predicate Upper(n: nat) {
    n <= 16 || 33 <= n <= 40
  }

  predicate SamePlane(a: nat, b: nat) {
    Upper(a) == Upper(b)
  }

  // --------------------------------------------------------------- invariants

  /** Slot i as seen by a card or a BPDU of card us. */
  predicate SlotOk(hw: Hardware, us: nat, i: nat, e: Entry)
    requires i < CARDS
  {
    && e.age <= FULL_AGE
    && (i % 2 == 1 ==> e.age == 0)
    && (e.age >= 1 ==> e.id == IdOf(hw, i + 1) && SamePlane(us, i + 1))
  }

  predicate TableOk(hw: Hardware, us: nat, t: Table) {
    && (forall i {:trigger SlotOk(hw, us, i, t[i])} :: 0 <= i < CARDS ==> SlotOk(hw, us, i, t[i]))
    && CpuA(us) && t[us - 1].age == FULL_AGE
  }

  predicate RootOk(hw: Hardware, us: nat, n: nat, id: BridgeId) {
    if n == 0 then id == ZERO_ID else FcNum(n) && SamePlane(us, n) && id == IdOf(hw, n)
  }

  predicate DesignOk(hw: Hardware, us: nat, n: nat, id: BridgeId) {
    if n == 0 then id == ZERO_ID else LcNum(n) && SamePlane(us, n) && id == IdOf(hw, n)
  }

  /** On a line card the two records of the root LC agree. On a fabric card that
      reselected, the number is the slot index, one less than the card. */
  predicate NamesOk(hw: Hardware, c: Card) {
    && RootOk(hw, c.us, c.rootPort, c.rootBridge)
    && DesignOk(hw, c.us, c.designBridge.Num(), c.designBridge)
    && c.bridgePort == c.rootPort && c.designPort == (if c.designBridge.Num() == 0 then 1 else c.rootLc)
    && (if LcNum(c.us) then LcNum(c.rootLc) && c.rootLc == c.designBridge.Num()
        else
          && c.rootPort != 0
          && (c.rootLc == c.designBridge.Num()
              || (c.rootLc + 1 == c.designBridge.Num() && c.state == Forwarding && c.rootPort == c.us)))
  }

  /** In BLOCK a card names no root but itself. */
  predicate BlockOk(c: Card) {
    c.state == Block ==>
      if c.IsLc() then c.rootPort == 0 && c.rootLc == c.us else c.rootPort == c.us && c.rootLc == 0
  }

  /** How long a card can have been in its state. */
  predicate ClockOk(c: Card) {
    match c.state
    case Block => c.since < MAX_AGE && (c.IsLc() ==> c.since == 0)
    case Listening => c.since <= FORWARD_DELAY + 1
    case Learning => c.since <= if c.IsLc() then 2 * FORWARD_DELAY + 1 else FORWARD_DELAY
    case Forwarding => c.since <= if c.us == c.rootPort then MAX_AGE + 1 else MAX_AGE * FORWARD_DELAY + 1
  }

  predicate CardOk(hw: Hardware, c: Card) {
    && CpuA(c.us) && c.brId == IdOf(hw, c.us)
    && TableOk(hw, c.us, c.exist)
    && NamesOk(hw, c) && BlockOk(c)
    && ClockOk(c)
  }

  predicate SentKind(k: Kind) {
    k == Config || k == Reply || k == LcChange || k == Hello
  }

  predicate BpduOk(hw: Hardware, b: Bpdu) {
    && CpuA(b.from) && b.dst == DstMac(b.from) && SentKind(b.kind)
    && TableOk(hw, b.from, b.exist)
    && RootOk(hw, b.from, b.root.Num(), b.root)
    && DesignOk(hw, b.from, b.design.Num(), b.design)
  }

  predicate OutOk(hw: Hardware, us: nat, o: Out) {
    && CardOk(hw, o.card) && o.card.us == us
    && |o.sent| <= 1
    && forall k :: 0 <= k < |o.sent| ==> BpduOk(hw, o.sent[k]) && o.sent[k].from == us
  }

  // -------------------------------------------------------------------- merge

  /** What the merge is for: each slot but the own one takes the larger age. */
  function Youngest(t: Table, b: Table, us: nat): Table {
    seq(CARDS, i requires 0 <= i < CARDS => if i + 1 != us && b[i].age > t[i].age then b[i] else t[i])
  }

  /** Merging slot by slot, each copy running over into the next slot's age,
      is the pointwise maximum: the slot after a copied one belongs to CPU B
      and has age 0 on both sides. */
  lemma {:induction false} MergeFromIsYoungest(hw: Hardware, from: nat, t: Table, b: Table, us: nat, i: nat)
    requires i <= CARDS && TableOk(hw, us, t) && TableOk(hw, from, b) && SamePlane(us, from)
    requires forall k :: 0 <= k < i && k + 1 != us ==> b[k].age <= t[k].age
    ensures MergeFrom(t, b, us, i) == Youngest(t, b, us)
    decreases CARDS - i
  {
    if i == CARDS {
      assert Youngest(t, b, us) == t;
    } else if Newer(t, b, us, i) {
      assert SlotOk(hw, from, i, b[i]);
      assert SlotOk(hw, from, i + 1, b[i + 1]) && SlotOk(hw, us, i + 1, t[i + 1]);
      var t1 := CopySlot(t, b, i);
      assert t1 == t[i := b[i]];
      MergeFromIsYoungest(hw, from, t1, b, us, i + 1);
      assert Youngest(t1, b, us) == Youngest(t, b, us);
    } else {
      MergeFromIsYoungest(hw, from, t, b, us, i + 1);
    }
  }

  lemma MergeIsYoungest(hw: Hardware, c: Card, b: Bpdu)
    requires CardOk(hw, c) && BpduOk(hw, b) && SamePlane(c.us, b.from)
    ensures Merged(c, b).exist == Youngest(c.exist, b.exist, c.us)
    ensures TableOk(hw, c.us, Merged(c, b).exist)
  {
    MergeFromIsYoungest(hw, b.from, c.exist, b.exist, c.us, 0);
    var t := Youngest(c.exist, b.exist, c.us);
    forall i | 0 <= i < CARDS
      ensures SlotOk(hw, c.us, i, t[i])
    {
      assert SlotOk(hw, c.us, i, c.exist[i]) && SlotOk(hw, b.from, i, b.exist[i]);
    }
  }

  /** Without the invariant it is not: where only slot i is newer, the copy also
      writes the age that b has for the slot after it. */
  lemma {:induction false} OverrunForgets(t: Table, b: Table, us: nat, i: nat, k: nat)
    requires k <= i && i + 1 < CARDS && Newer(t, b, us, i)
    requires forall j :: 0 <= j < CARDS && j != i ==> b[j].age == 0
    ensures MergeFrom(t, b, us, k) == t[i := b[i]][i + 1 := t[i + 1].(age := 0)]
    ensures MergeFrom(t, b, us, k) == Youngest(t, b, us) <==> t[i + 1].age == 0
    decreases i - k
  {
    var after := CopySlot(t, b, i);
    if k < i {
      OverrunForgets(t, b, us, i, k + 1);
    } else {
      NothingNewer(after, b, us, i + 1);
      assert Youngest(t, b, us) == t[i := b[i]];
      assert after[i + 1].age == 0;
    }
  }

  lemma {:induction false} NothingNewer(t: Table, b: Table, us: nat, i: nat)
    requires i <= CARDS && forall j :: i <= j < CARDS ==> b[j].age == 0
    ensures MergeFrom(t, b, us, i) == t
    decreases CARDS - i
  {
    if i < CARDS {
      NothingNewer(t, b, us, i + 1);
    }
  }

  // --------------------------------------------------------------- operations

  lemma OwnTableOk(hw: Hardware, us: nat)
    requires CpuA(us)
    ensures TableOk(hw, us, OwnTable(us, IdOf(hw, us)))
  {
  }

  lemma EnterBlockOk(hw: Hardware, c: Card)
    requires CpuA(c.us) && c.brId == IdOf(hw, c.us)
    ensures CardOk(hw, EnterBlock(c))
  {
    OwnTableOk(hw, c.us);
  }

  lemma BootOk(hw: Hardware, us: nat)
    requires CpuA(us)
    ensures CardOk(hw, Boot(us, hw[us - 1]))
  {
    OwnTableOk(hw, us);
  }

  lemma AgedOk(hw: Hardware, us: nat, t: Table)
    requires TableOk(hw, us, t)
    ensures TableOk(hw, us, Aged(t, us))
  {
    forall i | 0 <= i < CARDS
      ensures SlotOk(hw, us, i, Aged(t, us)[i])
    {
      assert SlotOk(hw, us, i, t[i]);
    }
  }

  lemma TxOk(hw: Hardware, c: Card, kind: Kind)
    requires CardOk(hw, c) && SentKind(kind)
    ensures OutOk(hw, c.us, Tx(c, kind))
  {
    AgedOk(hw, c.us, c.exist);
  }

  lemma TakeOk(hw: Hardware, c: Card, b: Bpdu)
    requires CardOk(hw, c) && BpduOk(hw, b) && SamePlane(c.us, b.from)
    requires c.state == Listening || c.state == Learning
    ensures NamesLiveRoot(b) ==> CardOk(hw, TakeRoot(c, b))
    ensures NamesLiveDesign(b) ==> CardOk(hw, TakeDesign(c, b))
  {
  }

  lemma ElectOk(hw: Hardware, c: Card, b: Bpdu)
    requires CardOk(hw, c) && BpduOk(hw, b) && SamePlane(c.us, b.from)
    requires c.state == Listening || c.state == Learning
    ensures CardOk(hw, LcElect(c, b)) && CardOk(hw, FcElect(c, b))
  {
    TakeOk(hw, c, b);
    if NamesLiveRoot(b) {
      TakeOk(hw, TakeRoot(c, b), b);
    }
  }

  lemma MergedOk(hw: Hardware, c: Card, b: Bpdu)
    requires CardOk(hw, c) && BpduOk(hw, b) && SamePlane(c.us, b.from)
    ensures CardOk(hw, Merged(c, b))
  {
    MergeIsYoungest(hw, c, b);
  }

  lemma SyncOk(hw: Hardware, c: Card, b: Bpdu)
    requires CardOk(hw, c) && BpduOk(hw, b) && SamePlane(c.us, b.from)
    requires c.state == Forwarding
    ensures CardOk(hw, SyncToHello(c, b)) && SyncToHello(c, b).us == c.us
  {
  }

  lemma ForgetOk(hw: Hardware, us: nat, t: Table, i: nat)
    requires TableOk(hw, us, t) && i + 1 != us
    ensures TableOk(hw, us, Forget(t, i))
  {
    forall k | 0 <= k < CARDS
      ensures SlotOk(hw, us, k, Forget(t, i)[k])
    {
      assert SlotOk(hw, us, k, t[k]);
    }
  }

  /** What the clearing that starts a reselection does to the slot of the root
      LC: it is forgotten exactly if the card recorded it by slot index, as it
      does after an earlier reselection, or if it had run down already. */
  lemma ForgottenIff(hw: Hardware, c: Card)
    requires CardOk(hw, c) && FcNum(c.us) && c.designBridge.Num() != 0
    ensures var d := c.designBridge.Num();
            Age(Forget(c.exist, c.rootLc), d - 1) == 0 <==> c.rootLc + 1 == d || Age(c.exist, d - 1) == 0
  {
    if c.rootLc == c.designBridge.Num() {
      NumberIsNoIndex(hw, c, c.rootLc);
    }
  }

  /** Reselection picks the lost root LC again exactly if it is recorded by its
      card number, as after an election, and is the first line card of an age
      that counts as recent. */
  lemma PicksAgainIff(hw: Hardware, c: Card)
    requires CardOk(hw, c) && FcNum(c.us) && c.designBridge.Num() != 0
    ensures var d, (after, found) := c.designBridge.Num(), Reselect(c, c.rootLc);
            found && after.designBridge.Num() == d <==> c.rootLc == d && FirstRecent(c.exist, c.us, 0) == d - 1
  {
    var d := c.designBridge.Num();
    ForgottenIff(hw, c);
    ForgetOk(hw, c.us, c.exist, c.rootLc);
    var t := Forget(c.exist, c.rootLc);
    var i := FirstRecent(t, c.us, 0);
    if i < LINE_CARDS {
      RecentOk(hw, c.us, t, i);
    }
    if c.rootLc == d {
      NumberIsNoIndex(hw, c, d);
    }
  }

  lemma RecentOk(hw: Hardware, us: nat, t: Table, i: nat)
    requires TableOk(hw, us, t) && i < LINE_CARDS && t[i].age >= SELECT_AGE
    ensures DesignOk(hw, us, i + 1, t[i].id) && t[i].id.Num() == i + 1
  {
    assert SlotOk(hw, us, i, t[i]);
  }

  /** A card number used as an index into the table meets the slot of a CPU B,
      which was never heard: clearing that slot forgets nothing, and the test
      that a forwarding line card makes of the slot at its own number never
      holds. */
  lemma NumberIsNoIndex(hw: Hardware, c: Card, lost: nat)
    requires CardOk(hw, c) && LcNum(lost)
    ensures Forget(c.exist, lost) == c.exist && Age(c.exist, c.us) == 0
  {
    assert SlotOk(hw, c.us, lost, c.exist[lost]) && SlotOk(hw, c.us, c.us, c.exist[c.us]);
  }

  lemma ReselectOk(hw: Hardware, c: Card, lost: nat)
    requires CardOk(hw, c) && FcNum(c.us) && c.state == Forwarding && c.rootPort == c.us
    requires lost < LINE_CARDS
    ensures CardOk(hw, Reselect(c, lost).0)
    ensures var (d, found) := Reselect(c, lost); found ==> d.rootLc + 1 == d.designBridge.Num()
  {
    ForgetOk(hw, c.us, c.exist, lost);
    var t := Forget(c.exist, lost);
    var i := FirstRecent(t, c.us, 0);
    if i < LINE_CARDS {
      RecentOk(hw, c.us, t, i);
    }
  }

  // ----------------------------------------------------------------- handlers

  lemma TxMergedOk(hw: Hardware, c: Card, kind: Kind, b: Bpdu)
    requires CardOk(hw, c) && BpduOk(hw, b) && SamePlane(c.us, b.from) && SentKind(kind)
    ensures OutOk(hw, c.us, Out(Merged(Tx(c, kind).card, b), Tx(c, kind).sent))
  {
    TxOk(hw, c, kind);
    MergedOk(hw, Tx(c, kind).card, b);
  }

  lemma LcWakesOk(hw: Hardware, c: Card, b: Bpdu)
    requires CardOk(hw, c) && BpduOk(hw, b) && SamePlane(c.us, b.from) && LcNum(c.us)
    ensures OutOk(hw, c.us, LcWakes(c, b))
  {
    hide TableOk, RootOk, DesignOk;
    var e := EnterListening(c);
    ElectOk(hw, e, b);
    MergedOk(hw, LcElect(e, b), b);
    TxMergedOk(hw, UpdateLcRoot(e, b), Reply, b);
  }

  lemma LcConvergesOk(hw: Hardware, c: Card, b: Bpdu)
    requires CardOk(hw, c) && BpduOk(hw, b) && SamePlane(c.us, b.from)
    requires c.state == Listening || c.state == Learning
    ensures OutOk(hw, c.us, LcConverges(c, b))
  {
    hide CardOk, BpduOk;
    ElectOk(hw, c, b);
    MergedOk(hw, LcElect(c, b), b);
    MergedOk(hw, if Differs(c, b) then UpdateLcRoot(c, b) else c, b);
  }

  lemma FcConvergesOk(hw: Hardware, c: Card, b: Bpdu)
    requires CardOk(hw, c) && BpduOk(hw, b) && SamePlane(c.us, b.from)
    requires c.state == Listening || c.state == Learning
    ensures OutOk(hw, c.us, FcConverges(c, b))
  {
    hide CardOk, BpduOk;
    ElectOk(hw, c, b);
    MergedOk(hw, FcElect(c, b), b);
    MergedOk(hw, if Differs(c, b) then UpdateFcDesignated(c, b) else c, b);
  }

  lemma LcHelloOk(hw: Hardware, c: Card, b: Bpdu)
    requires CardOk(hw, c) && BpduOk(hw, b) && SamePlane(c.us, b.from)
    requires c.state == Forwarding
    ensures OutOk(hw, c.us, LcHello(c, b))
  {
    var z := c.(since := 0);
    SyncOk(hw, z, b);
    TxOk(hw, z, Hello);
    TxOk(hw, z, Reply);
  }

  lemma TxBlockedOk(hw: Hardware, c: Card, kind: Kind)
    requires CardOk(hw, c) && SentKind(kind)
    ensures OutOk(hw, c.us, Out(EnterBlock(Tx(c, kind).card), Tx(c, kind).sent))
  {
    TxOk(hw, c, kind);
    EnterBlockOk(hw, Tx(c, kind).card);
  }

  lemma LcForwardsOk(hw: Hardware, c: Card, b: Bpdu)
    requires CardOk(hw, c) && BpduOk(hw, b) && SamePlane(c.us, b.from)
    requires c.state == Forwarding
    ensures OutOk(hw, c.us, LcForwards(c, b))
  {
    hide CardOk, BpduOk;
    MergedOk(hw, c, b);
    var m := Merged(c, b);
    match b.kind
    case LcChange => TxBlockedOk(hw, m, LcChange);
    case Hello => LcHelloOk(hw, m, b);
    case Config => TxOk(hw, m, Reply);
    case _ =>
  }

  lemma FcWakesOk(hw: Hardware, c: Card, b: Bpdu)
    requires CardOk(hw, c) && BpduOk(hw, b) && SamePlane(c.us, b.from) && FcNum(c.us)
    requires c.state == Block
    ensures OutOk(hw, c.us, FcWakes(c, b))
  {
    var e := EnterListening(c);
    ElectOk(hw, e, b);
    MergedOk(hw, FcElect(e, b), b);
    MergedOk(hw, UpdateFcDesignated(e, b), b);
  }

  lemma FcHelloOk(hw: Hardware, c: Card, b: Bpdu)
    requires CardOk(hw, c) && BpduOk(hw, b) && SamePlane(c.us, b.from)
    requires c.state == Forwarding
    ensures OutOk(hw, c.us, FcHello(c, b))
  {
    hide TableOk;
    var z := c.(since := 0);
    SyncOk(hw, z, b);
    TxOk(hw, z, Hello);
    TxOk(hw, SyncToHello(z, b), Hello);
  }

  lemma FcForwardsOk(hw: Hardware, c: Card, b: Bpdu)
    requires CardOk(hw, c) && BpduOk(hw, b) && SamePlane(c.us, b.from)
    requires c.state == Forwarding
    ensures OutOk(hw, c.us, FcForwards(c, b))
  {
    hide CardOk;
    MergedOk(hw, c, b);
    var m := Merged(c, b);
    match b.kind
    case Hello => FcHelloOk(hw, m, b);
    case Config => TxOk(hw, m, Reply);
    case LcChange => EnterBlockOk(hw, m);
    case _ =>
  }

  lemma RxOk(hw: Hardware, c: Card, b: Bpdu)
    requires CardOk(hw, c) && BpduOk(hw, b)
    requires SamePlane(c.us, b.from) || (LcNum(c.us) <==> LcNum(b.from))
    ensures OutOk(hw, c.us, Rx(c, b))
  {
    hide LcWakes, LcConverges, LcForwards, FcWakes, FcConverges, FcForwards, TableOk;
    var h := c.(heard := c.heard + [(b.from, b.kind)]);
    if Fresh(c, b) && LcNum(c.us) && FcNum(b.from) {
      match c.state
      case Block => LcWakesOk(hw, h, b);
      case Forwarding => LcForwardsOk(hw, h, b);
      case _ => LcConvergesOk(hw, h, b);
    } else if Fresh(c, b) && FcNum(c.us) && LcNum(b.from) {
      match c.state
      case Block => FcWakesOk(hw, h, b);
      case Forwarding => FcForwardsOk(hw, h, b);
      case _ => FcConvergesOk(hw, h, b);
    }
  }

  lemma RootTickOk(hw: Hardware, c: Card)
    requires CardOk(hw, c) && c.state == Forwarding && c.rootPort == c.us
    ensures OutOk(hw, c.us, RootTick(c))
  {
    hide TableOk;
    if c.since > MAX_AGE {
      ReselectOk(hw, c, c.rootLc);
      var (n, found) := Reselect(c, c.rootLc);
      if found {
        TxOk(hw, n.(since := 0), Hello);
      } else {
        EnterBlockOk(hw, n);
        TxOk(hw, EnterBlock(n), LcChange);
      }
    } else {
      TxOk(hw, c.(since := c.since + 1), Hello);
    }
  }

  lemma TickOk(hw: Hardware, c: Card)
    requires CardOk(hw, c)
    ensures OutOk(hw, c.us, Tick(c))
  {
    hide TableOk;
    if c.state == Forwarding {
      ForwardingTickOk(hw, c);
    } else {
      var s := c.(heard := [], since := c.since + 1);
      if CardOk(hw, s) {
        TxOk(hw, s, Config);
      }
    }
  }

  lemma ForwardingTickOk(hw: Hardware, c: Card)
    requires CardOk(hw, c) && c.state == Forwarding
    ensures OutOk(hw, c.us, Tick(c))
  {
    var h := c.(heard := []);
    if c.us == c.rootPort {
      RootTickOk(hw, h);
    } else if c.since > MAX_AGE * FORWARD_DELAY {
      EnterBlockOk(hw, h);
    }
  }
}
