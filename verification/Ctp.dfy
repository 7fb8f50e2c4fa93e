/**
 The card-to-card protocol of one chassis: its data, and every operation of
 one card as a function from the card's value to its next value and the BPDUs
 it sends. The class in CtpCard.dfy is the imperative form of the same card.
 */
module Ctp {

  const CARDS := 48
  const LINE_CARDS := 32
  const FORWARD_DELAY := 3
  const MAX_AGE := 15
  /** The age a card gives its own member entry: 5 * FORWARD_DELAY + 1. */
  const FULL_AGE := 16
  /** An LC must have been heard this recently to be selected as root LC. */
  const SELECT_AGE := 3
  const RX_CAPACITY := 1024

  /** A bridge id: priority 4096 + card number, then the hardware address. */
  datatype BridgeId = BridgeId(prio: nat, addr: nat) {
    /** The low byte of the priority, which is the card number. */
    function Num(): nat {
      prio % 256
    }
  }

  const ZERO_ID := BridgeId(0, 0)

  /** One slot of the member table; slot i belongs to card i + 1. */
  datatype Entry = Entry(age: nat, id: BridgeId)

  type Table = t: seq<Entry> | |t| == CARDS witness seq(CARDS, _ => Entry(0, ZERO_ID))

  datatype Kind = Config | Reply | Rstp | LcChange | FcChange | Tcn | Hello

  datatype State = Block | Listening | Learning | Forwarding

  datatype Port = PortBlocking | PortListening | PortForwarding

  /** The fields of a BPDU that some receiver reads. */
  datatype Bpdu = Bpdu(
    dst: seq<nat>, kind: Kind, from: nat, forwarding: bool,
    root: BridgeId, design: BridgeId, exist: Table)

  /** One card. `heard` is the used part of the receive-interval table. */
  datatype Card = Card(
    us: nat, brId: BridgeId, state: State, since: nat,
    rootPort: nat, rootLc: nat,
    rootBridge: BridgeId, designBridge: BridgeId,
    designPort: nat, bridgePort: nat,
    exist: Table, heard: seq<(nat, Kind)>, ports: seq<Port>)
  {
    predicate IsLc() {
      1 <= us <= LINE_CARDS
    }
  }

  datatype Out = Out(card: Card, sent: seq<Bpdu>)

  /** Age of table slot i; a slot outside the table reads as never heard. */
  function Age(t: Table, i: int): nat {
    if 0 <= i < CARDS then t[i].age else 0
  }

  // ------------------------------------------------------------ member table

  function EmptyTable(): Table {
    seq(CARDS, _ => Entry(0, ZERO_ID))
  }

  function OwnTable(us: nat, id: BridgeId): Table {
    if 1 <= us <= CARDS then EmptyTable()[us - 1 := Entry(FULL_AGE, id)] else EmptyTable()
  }

  /** The copy of slot i: its age, its id, and, because the id is copied with
      the size of a whole slot, the age of the slot after it. */
  function CopySlot(t: Table, b: Table, i: nat): Table
    requires i < CARDS
  {
    var t1 := t[i := b[i]];
    if i + 1 < CARDS then t1[i + 1 := t1[i + 1].(age := b[i + 1].age)] else t1
  }

  predicate Newer(t: Table, b: Table, us: nat, i: nat)
    requires i < CARDS
  {
    i + 1 != us && b[i].age >= 1 && t[i].age < b[i].age
  }

  /** The merge of received table b into t, from slot i on. */
  function MergeFrom(t: Table, b: Table, us: nat, i: nat): Table
    requires i <= CARDS
    decreases CARDS - i
  {
    if i == CARDS then t
    else if Newer(t, b, us, i) then MergeFrom(CopySlot(t, b, i), b, us, i + 1)
    else MergeFrom(t, b, us, i + 1)
  }

  function AgedEntry(e: Entry, own: bool): Entry {
    if own then e.(age := FULL_AGE)
    else if e.age >= 1 then e.(age := e.age - 1)
    else e
  }

  function Aged(t: Table, us: nat): Table {
    seq(CARDS, i requires 0 <= i < CARDS => AgedEntry(t[i], i + 1 == us))
  }

  function Forget(t: Table, i: nat): Table {
    if i < CARDS then t[i := t[i].(age := 0)] else t
  }

  /** First LC slot from i on, other than the card's own, heard recently;
      LINE_CARDS if there is none. */
  function FirstRecent(t: Table, us: nat, i: nat): (r: nat)
    requires i <= LINE_CARDS
    ensures i <= r <= LINE_CARDS
    ensures r < LINE_CARDS ==> r + 1 != us && t[r].age >= SELECT_AGE
    ensures forall k :: i <= k < r && k + 1 != us ==> t[k].age < SELECT_AGE
    decreases LINE_CARDS - i
  {
    if i == LINE_CARDS then i
    else if i + 1 != us && t[i].age >= SELECT_AGE then i
    else FirstRecent(t, us, i + 1)
  }

  // ------------------------------------------------------------------- ports

  function Uplinks(p: Port): seq<Port> {
    [p, p, p, p]
  }

  function Downlinks(p: Port): seq<Port> {
    [p, p, p, p, p, p, p, p]
  }

  function AllPorts(us: nat, p: Port): seq<Port> {
    if us <= LINE_CARDS then Uplinks(p) else Downlinks(p)
  }

  /** The uplink of a line card that leads to fabric card fc. */
  function UplinkTo(fc: nat): nat
    requires 33 <= fc <= 48
  {
    (fc - 33) / 2 % 4
  }

  /** The downlink of fabric card us that leads to line card lc. The second
      half of the fabric cards of a plane see the line cards rotated by four. */
  function DownlinkTo(us: nat, lc: nat): nat
    requires 1 <= lc <= 32
  {
    if 33 <= us <= 36 || 41 <= us <= 44 then (lc - 1) / 2 % 8
    else ((lc - 1) / 2 + 4) % 8
  }

  function ForwardingPorts(us: nat, rootPort: nat, rootLc: nat): seq<Port> {
    if us <= LINE_CARDS then
      if rootLc == us then Uplinks(PortForwarding)
      else if 33 <= rootPort <= 47 && rootPort % 2 == 1 then
        Uplinks(PortBlocking)[UplinkTo(rootPort) := PortForwarding]
      else Uplinks(PortBlocking)
    else
      if rootPort == us then Downlinks(PortForwarding)
      else if 1 <= rootLc <= 31 && rootLc % 2 == 1 then
        Downlinks(PortBlocking)[DownlinkTo(us, rootLc) := PortForwarding]
      else Downlinks(PortBlocking)
  }

  // ------------------------------------------------------------ state changes

  function EnterBlock(c: Card): Card {
    var c1 :=
      if c.IsLc() then
        c.(rootLc := c.us, rootPort := 0, rootBridge := ZERO_ID, designBridge := c.brId,
           designPort := c.us, bridgePort := 0, ports := Uplinks(PortBlocking))
      else
        c.(rootLc := 0, rootPort := c.us, rootBridge := c.brId, designBridge := ZERO_ID,
           designPort := 1, bridgePort := c.us, ports := Downlinks(PortForwarding));
    c1.(state := Block, since := 0, exist := OwnTable(c.us, c.brId))
  }

  function EnterListening(c: Card): Card {
    var c1 := if c.IsLc() then c.(ports := Uplinks(PortListening)) else c;
    c1.(state := Listening, since := 0)
  }

  function EnterLearning(c: Card): Card {
    var c1 :=
      if c.IsLc() && 33 <= c.rootPort <= 48 && |c.ports| == 4 then
        c.(ports := c.ports[UplinkTo(c.rootPort) := PortForwarding])
      else c;
    c1.(state := Learning, since := 0)
  }

  function EnterForwarding(c: Card): Card {
    c.(state := Forwarding, since := 0, ports := ForwardingPorts(c.us, c.rootPort, c.rootLc))
  }

  // ---------------------------------------------------------------- transmit

  const MAC_LOW: seq<nat> := [0x01, 0x10, 0xb5, 0x00, 0x00, 0x01]
  const MAC_HIGH: seq<nat> := [0x01, 0x10, 0xb5, 0x00, 0x00, 0x02]

  /** Line cards of the upper plane and fabric cards of the lower plane. */
  predicate OuterGroup(us: nat) {
    1 <= us <= 16 || 41 <= us <= 48
  }

  function DstMac(us: nat): seq<nat> {
    if OuterGroup(us) then MAC_HIGH else MAC_LOW
  }

  function Tx(c: Card, kind: Kind): Out {
    var aged := Aged(c.exist, c.us);
    Out(c.(exist := aged),
        [Bpdu(DstMac(c.us), kind, c.us, c.state == Forwarding, c.rootBridge, c.designBridge, aged)])
  }

  // ---------------------------------------------------------------- election

  function Merged(c: Card, b: Bpdu): Card {
    c.(exist := MergeFrom(c.exist, b.exist, c.us, 0))
  }

  predicate NamesLiveRoot(b: Bpdu) {
    b.root.Num() > 0 && Age(b.exist, b.root.Num() - 1) > 0
  }

  predicate NamesLiveDesign(b: Bpdu) {
    b.design.Num() > 0 && Age(b.exist, b.design.Num() - 1) > 0
  }

  function TakeRoot(c: Card, b: Bpdu): Card {
    c.(rootPort := b.root.Num(), bridgePort := b.root.Num(), rootBridge := b.root)
  }

  function TakeDesign(c: Card, b: Bpdu): Card {
    c.(rootLc := b.design.Num(), designPort := b.design.Num(), designBridge := b.design)
  }

  function LcElect(c: Card, b: Bpdu): Card {
    var c1 :=
      if NamesLiveRoot(b) && (b.root.Num() < c.rootPort || c.rootPort == 0) then TakeRoot(c, b) else c;
    if NamesLiveDesign(b) && (b.kind == Hello || b.design.Num() < c.rootLc || c.rootLc == 0)
    then TakeDesign(c1, b) else c1
  }

  function FcElect(c: Card, b: Bpdu): Card {
    var c1 :=
      if NamesLiveRoot(b) && (b.forwarding || b.root.Num() < c.rootPort || c.rootPort == 0)
      then TakeRoot(c, b) else c;
    if NamesLiveDesign(b) && (b.design.Num() < c.rootLc || c.rootLc == 0) then TakeDesign(c1, b) else c1
  }

  function UpdateLcRoot(c: Card, b: Bpdu): Card {
    Merged(LcElect(c, b), b)
  }

  function UpdateFcDesignated(c: Card, b: Bpdu): Card {
    Merged(FcElect(c, b), b)
  }

  /** The BPDU names another root FC or another root LC than the card does. */
  predicate Differs(c: Card, b: Bpdu) {
    b.root.Num() != c.rootBridge.Num() || b.design.Num() != c.designBridge.Num()
  }

  function SyncToHello(c: Card, b: Bpdu): Card {
    if NamesLiveDesign(b) && b.design.Num() != c.designBridge.Num() then
      var c1 := TakeDesign(c, b);
      if c.rootLc == c.designBridge.Num() || c.brId.Num() == b.design.Num()
      then EnterForwarding(c1) else c1
    else c
  }

  /** Reselection after root LC `lost`. The slot it clears is the one at
      index `lost`, and the number it stores is the slot index of the new one. */
  function Reselect(c: Card, lost: nat): (Card, bool) {
    var t := Forget(c.exist, lost);
    var i := FirstRecent(t, c.us, 0);
    if i < LINE_CARDS then
      (c.(exist := t, rootLc := i, designPort := i, designBridge := t[i].id), true)
    else (c.(exist := t), false)
  }

  // ----------------------------------------------------------------- receive

  /** A line card in BLOCK leaves it on the first BPDU of a fabric card, and
      merges that BPDU again after its reply has aged the table. */
  function LcWakes(c: Card, b: Bpdu): Out {
    var o := Tx(UpdateLcRoot(EnterListening(c), b), Reply);
    Out(Merged(o.card, b), o.sent)
  }

  function LcConverges(c: Card, b: Bpdu): Out {
    Out(Merged(if Differs(c, b) then UpdateLcRoot(c, b) else c, b), [])
  }

  function LcHello(c: Card, b: Bpdu): Out {
    var z := c.(since := 0);
    if b.root.Num() == z.rootBridge.Num() && b.design.Num() != z.rootLc then
      Out(SyncToHello(z, b), [])
    else if b.design.Num() == z.brId.Num() && b.root.Num() == z.rootBridge.Num()
            && b.from == b.root.Num() then
      Tx(z, Hello)
    else Tx(z, Reply)
  }

  function LcForwards(c: Card, b: Bpdu): Out {
    var m := Merged(c, b);
    match b.kind
    case LcChange =>
      var o := Tx(m, LcChange);
      Out(EnterBlock(o.card), o.sent)
    case Hello => LcHello(m, b)
    case Config => Tx(m, Reply)
    case _ => Out(m, [])
  }

  /** A line card hears a fabric card. */
  function LcHearsFc(c: Card, b: Bpdu): Out {
    match c.state
    case Block => LcWakes(c, b)
    case Listening => LcConverges(c, b)
    case Learning => LcConverges(c, b)
    case Forwarding => LcForwards(c, b)
  }

  function FcWakes(c: Card, b: Bpdu): Out {
    Out(Merged(UpdateFcDesignated(EnterListening(c), b), b), [])
  }

  function FcConverges(c: Card, b: Bpdu): Out {
    Out(Merged(if Differs(c, b) then UpdateFcDesignated(c, b) else c, b), [])
  }

  function FcHello(c: Card, b: Bpdu): Out {
    var z := c.(since := 0);
    var s := if b.design.Num() != z.designBridge.Num() && b.root.Num() == z.rootBridge.Num()
             then SyncToHello(z, b) else z;
    if b.design.Num() == z.designBridge.Num() && b.root.Num() != s.brId.Num()
    then Tx(s, Hello) else Out(s, [])
  }

  function FcChanged(c: Card, b: Bpdu): Out {
    if b.root.Num() == c.brId.Num() then
      var (s, found) := Reselect(c, b.design.Num());
      if found then Tx(s, Hello) else Out(EnterBlock(s), [])
    else Out(c, [])
  }

  function FcForwards(c: Card, b: Bpdu): Out {
    var m := Merged(c, b);
    match b.kind
    case Hello => FcHello(m, b)
    case Config => Tx(m, Reply)
    case FcChange => FcChanged(m, b)
    case LcChange => if b.root.Num() != m.brId.Num() then Out(EnterBlock(m), []) else Out(m, [])
    case _ => Out(m, [])
  }

  /** A fabric card hears a line card. */
  function FcHearsLc(c: Card, b: Bpdu): Out {
    match c.state
    case Block => FcWakes(c, b)
    case Listening => FcConverges(c, b)
    case Learning => FcConverges(c, b)
    case Forwarding => FcForwards(c, b)
  }

  /** The receive-interval table lets this BPDU through. */
  predicate Fresh(c: Card, b: Bpdu) {
    b.from >= 1 && (b.from, b.kind) !in c.heard && |c.heard| < RX_CAPACITY
  }

  function Rx(c: Card, b: Bpdu): Out {
    if c.us % 2 == 0 || !Fresh(c, b) then Out(c, [])
    else
      var h := c.(heard := c.heard + [(b.from, b.kind)]);
      if 33 <= b.from <= 48 && c.IsLc() then LcHearsFc(h, b)
      else if 1 <= b.from <= 32 && !c.IsLc() then FcHearsLc(h, b)
      else Out(h, [])
  }

  // -------------------------------------------------------------------- tick

  /** The tick of a forwarding root FC: a HELLO, or, when no HELLO came back
      for too long, another root LC or BLOCK. */
  function RootTick(c: Card): Out {
    if c.since > MAX_AGE then
      var (s, found) := Reselect(c, c.rootLc);
      if found then Tx(s.(since := 0), Hello) else Tx(EnterBlock(s), LcChange)
    else Tx(c.(since := c.since + 1), Hello)
  }

  /** One 200 ms tick; only CPU A, with an odd number, runs the protocol. A
      fabric card that stays in BLOCK for MAX_AGE ticks resets its board, which
      leaves the protocol's own fields as they are. */
  function Tick(c0: Card): Out {
    var c := c0.(heard := []);
    if c0.us % 2 == 0 then Out(c0, [])
    else match c.state
    case Block =>
      if c.IsLc() then Out(c, [])
      else if c.since + 1 < MAX_AGE then Tx(c.(since := c.since + 1), Config)
      else Out(c.(since := 0), [])
    case Listening =>
      if c.since > FORWARD_DELAY then Out(EnterLearning(c), [])
      else if c.IsLc() then Out(c.(since := c.since + 1), [])
      else Tx(c.(since := c.since + 1), Config)
    case Learning =>
      if c.since < (if c.IsLc() then 2 * FORWARD_DELAY + 1 else FORWARD_DELAY) then
        Tx(c.(since := c.since + 1), Config)
      else Out(EnterForwarding(c), [])
    case Forwarding =>
      if c.us == c.rootPort then RootTick(c)
      else if c.since > MAX_AGE * FORWARD_DELAY then Out(EnterBlock(c), [])
      else Out(c.(since := c.since + 1), [])
  }

  /** A card that starts with the dynamic topology. */
  function Boot(us: nat, addr: nat): Card {
    var id := BridgeId(4096 + us, addr);
    EnterBlock(Card(us, id, Block, 0, 0, 0, ZERO_ID, ZERO_ID, 0, 0, OwnTable(us, id), [],
                    AllPorts(us, PortBlocking)))
  }
}
