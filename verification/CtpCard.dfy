/**
 One card as the program keeps it: fields and arrays that the handlers update
 in place. Every method is proved against the function of module Ctp of the
 same purpose, applied to the card's value.
 */
module CtpCard {
  import opened Ctp
  import opened CtpInvariant

  /** One slot of the receive-interval table; slot number 0 marks it unused. */
  datatype RxSlot = RxSlot(slot: nat, kind: Kind)

  /** What the program reads by index must lie inside the member table, and the
      last slot must not be copied, since the copy runs over into the next. */
  predicate InRange(b: Bpdu) {
    b.root.Num() <= CARDS && b.design.Num() <= CARDS && b.exist[CARDS - 1].age == 0
  }

  class CtpCard {
    const us: nat
    const brId: BridgeId
    var state: State
    var since: nat
    var rootPort: nat
    var rootLc: nat
    var rootBridge: BridgeId
    var designBridge: BridgeId
    var designPort: nat
    var bridgePort: nat
    const exist: array<Entry>
    const rx: array<RxSlot>
    var ports: seq<Port>
    /** The BPDUs handed to the socket, in order. */
    var sent: seq<Bpdu>
    ghost var heard: seq<(nat, Kind)>

    ghost predicate Valid()
      reads this, exist, rx
    {
      && 1 <= us <= CARDS && brId.prio == 4096 + us && exist.Length == CARDS && rx.Length == RX_CAPACITY
      && |ports| == (if us <= LINE_CARDS then 4 else 8)
      && |heard| <= RX_CAPACITY
      && (forall i :: 0 <= i < |heard| ==> rx[i].slot >= 1 && heard[i] == (rx[i].slot, rx[i].kind))
      && (forall i :: |heard| <= i < RX_CAPACITY ==> rx[i].slot == 0)
    }

    /** The value of the card. */
    ghost function View(): Card
      reads this, exist, rx
      requires Valid()
    {
      Card(us, brId, state, since, rootPort, rootLc, rootBridge, designBridge, designPort, bridgePort,
           exist[..], heard, ports)
    }

    constructor (us: nat, addr: nat)
      requires 1 <= us <= CARDS
      ensures Valid() && fresh(exist) && fresh(rx)
      ensures View() == Boot(us, addr) && sent == []
    {
      this.us := us;
      brId := BridgeId(4096 + us, addr);
      state, since := Block, 0;
      rootPort, rootLc, designPort, bridgePort := 0, 0, 0, 0;
      rootBridge, designBridge := ZERO_ID, ZERO_ID;
      exist := new Entry[CARDS](_ => Entry(0, ZERO_ID));
      rx := new RxSlot[RX_CAPACITY](_ => RxSlot(0, Config));
      ports := AllPorts(us, PortBlocking);
      sent, heard := [], [];
      new;
      EnterBlock();
    }

    // ------------------------------------------------------- member table

    method ClearMember()
      requires Valid()
      modifies exist
      ensures Valid() && View() == old(View()).(exist := OwnTable(us, brId))
    {
      var i := 0;
      while i < CARDS
        invariant 0 <= i <= CARDS && Valid() && View() == old(View()).(exist := exist[..])
        invariant forall k :: 0 <= k < i ==> exist[k] == Entry(0, ZERO_ID)
      {
        exist[i] := Entry(0, ZERO_ID);
        i := i + 1;
      }
      exist[us - 1] := Entry(FULL_AGE, brId);
      assert exist[..] == OwnTable(us, brId);
    }

    method UpdateMember(b: Bpdu)
      requires Valid() && InRange(b)
      modifies exist
      ensures Valid() && View() == Merged(old(View()), b)
    {
      var i := 0;
      while i < CARDS
        invariant 0 <= i <= CARDS && Valid() && View() == old(View()).(exist := exist[..])
        invariant MergeFrom(exist[..], b.exist, us, i) == MergeFrom(old(exist[..]), b.exist, us, 0)
      {
        if i != us - 1 && b.exist[i].age >= 1 && exist[i].age < b.exist[i].age {
          ghost var t: Table := exist[..];
          exist[i] := b.exist[i];
          exist[i + 1] := exist[i + 1].(age := b.exist[i + 1].age);
          assert exist[..] == CopySlot(t, b.exist, i);
        }
        i := i + 1;
      }
    }

    method DecMember()
      requires Valid()
      modifies exist
      ensures Valid() && View() == old(View()).(exist := Aged(old(View()).exist, us))
    {
      var i := 0;
      while i < CARDS
        invariant 0 <= i <= CARDS && Valid() && View() == old(View()).(exist := exist[..])
        invariant forall k :: 0 <= k < i ==> exist[k] == AgedEntry(old(exist[k]), k + 1 == us)
        invariant forall k :: i <= k < CARDS ==> exist[k] == old(exist[k])
      {
        if i == us - 1 {
          exist[i] := exist[i].(age := FULL_AGE);
        } else if exist[i].age >= 1 {
          exist[i] := exist[i].(age := exist[i].age - 1);
        }
        i := i + 1;
      }
      assert exist[..] == Aged(old(exist[..]), us);
    }

    method FindRecent() returns (i: nat)
      requires Valid()
      ensures i == FirstRecent(exist[..], us, 0)
    {
      i := 0;
      while i < LINE_CARDS
        invariant i <= LINE_CARDS && FirstRecent(exist[..], us, i) == FirstRecent(exist[..], us, 0)
      {
        if i != us - 1 && exist[i].age >= SELECT_AGE {
          return;
        }
        i := i + 1;
      }
    }

    method SelectNewRootLc(lost: nat) returns (found: bool)
      requires Valid() && lost < CARDS
      modifies this, exist
      ensures Valid() && sent == old(sent)
      ensures View() == Reselect(old(View()), lost).0 && found == Reselect(old(View()), lost).1
    {
      exist[lost] := exist[lost].(age := 0);
      assert exist[..] == Forget(old(exist[..]), lost);
      var i := FindRecent();
      found := i < LINE_CARDS;
      if found {
        rootLc, designPort, designBridge := i, i, exist[i].id;
      }
    }

    // ------------------------------------------------------------ election

    method AdoptRoot(b: Bpdu)
      requires Valid()
      modifies `rootPort, `bridgePort, `rootBridge
      ensures Valid() && View() == TakeRoot(old(View()), b)
    {
      rootPort, bridgePort, rootBridge := b.root.Num(), b.root.Num(), b.root;
    }

    method AdoptDesign(b: Bpdu)
      requires Valid()
      modifies `rootLc, `designPort, `designBridge
      ensures Valid() && View() == TakeDesign(old(View()), b)
    {
      rootLc, designPort, designBridge := b.design.Num(), b.design.Num(), b.design;
    }

    method UpdateLcRoot(b: Bpdu)
      requires Valid() && InRange(b)
      modifies this, exist
      ensures Valid() && sent == old(sent) && View() == Ctp.UpdateLcRoot(old(View()), b)
    {
      var rootId, designId := b.root.Num(), b.design.Num();
      if rootId > 0 && b.exist[rootId - 1].age > 0 {
        if rootId < rootPort || rootPort == 0 {
          AdoptRoot(b);
        }
      }
      if designId > 0 && b.exist[designId - 1].age > 0 {
        if b.kind == Hello || designId < rootLc || rootLc == 0 {
          AdoptDesign(b);
        }
      }
      assert View() == LcElect(old(View()), b);
      UpdateMember(b);
    }

    method UpdateFcDesignated(b: Bpdu)
      requires Valid() && InRange(b)
      modifies this, exist
      ensures Valid() && sent == old(sent) && View() == Ctp.UpdateFcDesignated(old(View()), b)
    {
      var rootId, designId := b.root.Num(), b.design.Num();
      if rootId > 0 && b.exist[rootId - 1].age > 0 {
        if b.forwarding || rootId < rootPort || rootPort == 0 {
          AdoptRoot(b);
        }
      }
      if designId > 0 && b.exist[designId - 1].age > 0 {
        if designId < rootLc || rootLc == 0 {
          AdoptDesign(b);
        }
      }
      assert View() == FcElect(old(View()), b);
      UpdateMember(b);
    }

    method CheckBpdu(b: Bpdu) returns (differs: bool)
      requires Valid()
      ensures differs == Differs(View(), b)
    {
      if b.root.Num() != rootBridge.Num() {
        return true;
      }
      if b.design.Num() != designBridge.Num() {
        return true;
      }
      return false;
    }

    method LcSyncToHello(b: Bpdu)
      requires Valid() && InRange(b)
      modifies this
      ensures Valid() && sent == old(sent) && View() == SyncToHello(old(View()), b)
    {
      var designId := b.design.Num();
      var oriDesign, oriRootLc := designBridge.Num(), rootLc;
      if designId > 0 && designId != oriDesign && b.exist[designId - 1].age > 0 {
        AdoptDesign(b);
        if oriRootLc == oriDesign || brId.Num() == designId {
          EnterForwarding();
        }
      }
    }

    // --------------------------------------------------------------- ports

    method ConfigAllPort(p: Port)
      requires Valid()
      modifies `ports
      ensures Valid() && View() == old(View()).(ports := AllPorts(us, p))
    {
      ports := if us <= LINE_CARDS then [p, p, p, p] else [p, p, p, p, p, p, p, p];
    }

    /** Opens or closes the uplink of a line card to fabric card fc. */
    method Config1Port(fc: nat, p: Port)
      requires Valid() && us <= LINE_CARDS
      modifies `ports
      ensures Valid()
      ensures View() == old(View()).(ports := if 33 <= fc <= 48 then old(ports)[UplinkTo(fc) := p] else old(ports))
    {
      if fc == 33 || fc == 34 || fc == 41 || fc == 42 {
        ports := ports[0 := p];
      } else if fc == 35 || fc == 36 || fc == 43 || fc == 44 {
        ports := ports[1 := p];
      } else if fc == 37 || fc == 38 || fc == 45 || fc == 46 {
        ports := ports[2 := p];
      } else if fc == 39 || fc == 40 || fc == 47 || fc == 48 {
        ports := ports[3 := p];
      }
    }

    /** Which uplink leads to root FC fc; 4 for a number that is no root FC's. */
    static method UplinkIndex(fc: nat) returns (k: nat)
      ensures k == if 33 <= fc <= 47 && fc % 2 == 1 then UplinkTo(fc) else 4
    {
      if fc == 33 || fc == 41 { return 0; }
      if fc == 35 || fc == 43 { return 1; }
      if fc == 37 || fc == 45 { return 2; }
      if fc == 39 || fc == 47 { return 3; }
      return 4;
    }

    /** Which downlink of FC us leads to root LC lc; 8 for a number that is no root LC's. */
    static method DownlinkIndex(us: nat, lc: nat) returns (k: nat)
      requires 33 <= us <= CARDS
      ensures k == if 1 <= lc <= 31 && lc % 2 == 1 then DownlinkTo(us, lc) else 8
    {
      var near := 33 <= us <= 36 || 41 <= us <= 44;
      if lc == 1 || lc == 17 { return if near then 0 else 4; }
      if lc == 3 || lc == 19 { return if near then 1 else 5; }
      if lc == 5 || lc == 21 { return if near then 2 else 6; }
      if lc == 7 || lc == 23 { return if near then 3 else 7; }
      if lc == 9 || lc == 25 { return if near then 4 else 0; }
      if lc == 11 || lc == 27 { return if near then 5 else 1; }
      if lc == 13 || lc == 29 { return if near then 6 else 2; }
      if lc == 15 || lc == 31 { return if near then 7 else 3; }
      return 8;
    }

    method EnterForwardingState()
      requires Valid()
      modifies `ports
      ensures Valid() && View() == old(View()).(ports := ForwardingPorts(us, rootPort, rootLc))
    {
      var k: nat;
      if us <= LINE_CARDS {
        if rootLc == us {
          ConfigAllPort(PortForwarding);
          return;
        }
        ConfigAllPort(PortBlocking);
        k := UplinkIndex(rootPort);
      } else {
        if rootPort == us {
          ConfigAllPort(PortForwarding);
          return;
        }
        ConfigAllPort(PortBlocking);
        k := DownlinkIndex(us, rootLc);
      }
      if k < |ports| {
        ports := ports[k := PortForwarding];
      }
    }

    // -------------------------------------------------------------- states

    method ClearRootFc()
      requires Valid()
      modifies this
      ensures Valid() && sent == old(sent)
      ensures View() == old(View()).(rootLc := us, rootPort := 0, rootBridge := ZERO_ID, designBridge := brId,
                                     designPort := us, bridgePort := 0)
    {
      rootLc, rootPort := us, 0;
      rootBridge, designBridge := ZERO_ID, brId;
      designPort, bridgePort := us, rootPort;
    }

    method ClearDesignedLc()
      requires Valid()
      modifies this
      ensures Valid() && sent == old(sent)
      ensures View() == old(View()).(rootLc := 0, rootPort := us, rootBridge := brId, designBridge := ZERO_ID,
                                     designPort := 1, bridgePort := us)
    {
      rootLc, rootPort := 0, us;
      rootBridge, designBridge := brId, ZERO_ID;
      designPort, bridgePort := 1, rootPort;
    }

    method EnterBlock()
      requires Valid()
      modifies this, exist
      ensures Valid() && sent == old(sent) && View() == Ctp.EnterBlock(old(View()))
    {
      state := Block;
      if us <= LINE_CARDS {
        ClearRootFc();
        ConfigAllPort(PortBlocking);
      } else {
        ClearDesignedLc();
        ConfigAllPort(PortForwarding);
      }
      since := 0;
      ClearMember();
    }

    method EnterListening()
      requires Valid()
      modifies this
      ensures Valid() && sent == old(sent) && View() == Ctp.EnterListening(old(View()))
    {
      state := Listening;
      if us <= LINE_CARDS {
        ConfigAllPort(PortListening);
      }
      since := 0;
    }

    method EnterLearning()
      requires Valid()
      modifies this
      ensures Valid() && sent == old(sent) && View() == Ctp.EnterLearning(old(View()))
    {
      state := Learning;
      if us <= LINE_CARDS {
        Config1Port(rootPort, PortForwarding);
      }
      since := 0;
    }

    method EnterForwarding()
      requires Valid()
      modifies this
      ensures Valid() && sent == old(sent) && View() == Ctp.EnterForwarding(old(View()))
    {
      state := Forwarding;
      EnterForwardingState();
      since := 0;
    }

    // ------------------------------------------------------------ transmit

    method TxInfoBpdu(kind: Kind)
      requires Valid()
      modifies this, exist
      ensures Valid()
      ensures View() == Tx(old(View()), kind).card && sent == old(sent) + Tx(old(View()), kind).sent
    {
      var dst := if (1 <= us <= 16) || (41 <= us <= 48) then MAC_HIGH else MAC_LOW;
      DecMember();
      sent := sent + [Bpdu(dst, kind, us, state == Forwarding, rootBridge, designBridge, exist[..])];
    }

    // ------------------------------------------- receive-interval table

    /** 1: this pair is in the table; 0: it is not; 2: it is not, and the table is full. */
    method SearchRx(slot: nat, kind: Kind) returns (r: nat)
      requires Valid()
      ensures slot >= 1 ==> r == if (slot, kind) in heard then 1 else if |heard| < 1024 then 0 else 2
    {
      var i := 0;
      while i < RX_CAPACITY
        invariant 0 <= i <= |heard| && (slot >= 1 ==> (slot, kind) !in heard[..i])
      {
        if rx[i].slot == slot && rx[i].kind == kind {
          return 1;
        }
        if rx[i].slot == 0 {
          return 0;
        }
        i := i + 1;
      }
      return 2;
    }

    /** Sender number 0 marks an unused slot, so recording it records nothing. */
    method UpdateRx(slot: nat, kind: Kind)
      requires Valid()
      modifies this`heard, rx
      ensures Valid()
      ensures View() == old(View()).(heard :=
                if slot >= 1 && old(|heard|) < RX_CAPACITY then old(heard) + [(slot, kind)] else old(heard))
    {
      var i := 0;
      while i < RX_CAPACITY
        invariant 0 <= i <= |heard|
      {
        if rx[i].slot == 0 {
          rx[i] := RxSlot(slot, kind);
          heard := if slot >= 1 then heard + [(slot, kind)] else heard;
          return;
        }
        i := i + 1;
      }
    }

    method ClearRx()
      requires Valid()
      modifies this`heard, rx
      ensures Valid() && View() == old(View()).(heard := [])
    {
      forall i | 0 <= i < rx.Length {
        rx[i] := RxSlot(0, Config);
      }
      heard := [];
    }

    /** The BPDU is to be handled, unless it carries sender number 0. */
    method CheckRx(b: Bpdu) returns (isNew: bool)
      requires Valid()
      modifies this`heard, rx
      ensures Valid() && (b.from >= 1 ==> isNew == Fresh(old(View()), b))
      ensures View() == old(View()).(heard :=
                if Fresh(old(View()), b) then old(heard) + [(b.from, b.kind)] else old(heard))
    {
      var r := SearchRx(b.from, b.kind);
      if r == 0 {
        UpdateRx(b.from, b.kind);
        return true;
      }
      return false;
    }

    // ------------------------------------------------------------- receive

    method RxFcBpdu(b: Bpdu)
      requires Valid() && InRange(b) && us % 2 == 1 && rootLc < CARDS
      modifies this, exist
      ensures Valid()
      ensures us <= LINE_CARDS ==>
                View() == LcHearsFc(old(View()), b).card && sent == old(sent) + LcHearsFc(old(View()), b).sent
      ensures us > LINE_CARDS ==> View() == old(View()) && sent == old(sent)
    {
      if us > LINE_CARDS {
        return;
      }
      if state == Block {
        EnterListening();
        UpdateLcRoot(b);
        TxInfoBpdu(Reply);
        UpdateMember(b);
      } else if state == Learning || state == Listening {
        var differs := CheckBpdu(b);
        if differs {
          UpdateLcRoot(b);
        }
        UpdateMember(b);
      } else {
        UpdateMember(b);
        if b.kind == LcChange {
          RxLcChange();
        } else if b.kind == Hello {
          RxHello(b);
        } else if b.kind == Config {
          TxInfoBpdu(Reply);
        }
      }
    }

    /** A forwarding line card is told that the root LC is gone. */
    method RxLcChange()
      requires Valid() && us % 2 == 1 && rootLc < CARDS
      modifies this, exist
      ensures Valid()
      ensures View() == Ctp.EnterBlock(Tx(old(View()), LcChange).card)
      ensures sent == old(sent) + Tx(old(View()), LcChange).sent
    {
      TxInfoBpdu(LcChange);
      since := 0;
      var myId := brId.Num();
      if rootLc != myId && exist[myId].age >= 1 {
        exist[rootLc] := exist[rootLc].(age := 0);
      }
      EnterBlock();
    }

    method RxHello(b: Bpdu)
      requires Valid() && InRange(b)
      modifies this, exist
      ensures Valid()
      ensures View() == LcHello(old(View()), b).card && sent == old(sent) + LcHello(old(View()), b).sent
    {
      since := 0;
      var designId, rootId := b.design.Num(), b.root.Num();
      if rootId == rootBridge.Num() && designId != rootLc {
        LcSyncToHello(b);
      } else if designId == brId.Num() && rootId == rootBridge.Num() && b.from == rootId {
        TxInfoBpdu(Hello);
      } else {
        TxInfoBpdu(Reply);
      }
    }

    method RxLcBpdu(b: Bpdu)
      requires Valid() && InRange(b) && b.design.Num() < CARDS
      modifies this, exist
      ensures Valid()
      ensures us > LINE_CARDS ==>
                View() == FcHearsLc(old(View()), b).card && sent == old(sent) + FcHearsLc(old(View()), b).sent
      ensures us <= LINE_CARDS ==> View() == old(View()) && sent == old(sent)
    {
      if us <= LINE_CARDS {
        return;
      }
      if state == Block {
        EnterListening();
        UpdateFcDesignated(b);
        UpdateMember(b);
      } else if state == Learning || state == Listening {
        var differs := CheckBpdu(b);
        if differs {
          UpdateFcDesignated(b);
        }
        UpdateMember(b);
      } else {
        UpdateMember(b);
        if b.kind == Hello {
          FcRxHello(b);
        } else if b.kind == Config {
          TxInfoBpdu(Reply);
        } else if b.kind == FcChange {
          RxFcChange(b);
        } else if b.kind == LcChange {
          if b.root.Num() != brId.Num() {
            EnterBlock();
          }
        }
      }
    }

    method FcRxHello(b: Bpdu)
      requires Valid() && InRange(b)
      modifies this, exist
      ensures Valid()
      ensures View() == FcHello(old(View()), b).card && sent == old(sent) + FcHello(old(View()), b).sent
    {
      since := 0;
      var designId, oriDesign, oriRoot, rootId := b.design.Num(), designBridge.Num(), rootBridge.Num(), b.root.Num();
      if designId != oriDesign && rootId == oriRoot {
        LcSyncToHello(b);
      }
      if designId == oriDesign && rootId != brId.Num() {
        TxInfoBpdu(Hello);
      }
    }

    method RxFcChange(b: Bpdu)
      requires Valid() && b.design.Num() < CARDS
      modifies this, exist
      ensures Valid()
      ensures View() == FcChanged(old(View()), b).card && sent == old(sent) + FcChanged(old(View()), b).sent
    {
      if b.root.Num() == brId.Num() {
        var found := SelectNewRootLc(b.design.Num());
        if found {
          TxInfoBpdu(Hello);
        } else {
          EnterBlock();
        }
      }
    }

    method RxBpdu(b: Bpdu)
      requires Valid() && InRange(b) && b.design.Num() < CARDS && rootLc < CARDS
      modifies this, exist, rx
      ensures Valid()
      ensures View() == Rx(old(View()), b).card && sent == old(sent) + Rx(old(View()), b).sent
    {
      if us % 2 == 0 {
        return;
      }
      var isNew := CheckRx(b);
      if !isNew {
        return;
      }
      if 33 <= b.from <= 48 {
        RxFcBpdu(b);
      } else if 1 <= b.from <= 32 {
        RxLcBpdu(b);
      }
    }

    // ---------------------------------------------------------------- tick

    method IterateMachines()
      requires Valid() && us % 2 == 1 && rootLc < CARDS
      modifies this, exist, rx
      ensures Valid()
      ensures View() == Tick(old(View())).card && sent == old(sent) + Tick(old(View())).sent
    {
      ClearRx();
      match state
      case Block =>
        if us > LINE_CARDS {
          since := since + 1;
          if since < MAX_AGE {
            TxInfoBpdu(Config);
          } else {
            since := 0;
          }
        }
      case Listening =>
        if since > FORWARD_DELAY {
          EnterLearning();
        } else {
          since := since + 1;
          if us > LINE_CARDS {
            TxInfoBpdu(Config);
          }
        }
      case Learning =>
        TickLearning();
      case Forwarding =>
        if us == rootPort {
          TickRoot();
        } else if since > MAX_AGE * FORWARD_DELAY {
          EnterBlock();
        } else {
          since := since + 1;
        }
    }

    /** The BPDU goes out before the clock moves. */
    method TickLearning()
      requires Valid()
      modifies this, exist
      ensures Valid()
      ensures var c := old(View());
              var wait := c.since < (if c.IsLc() then 2 * FORWARD_DELAY + 1 else FORWARD_DELAY);
              var o := if wait then Tx(c.(since := c.since + 1), Config) else Out(Ctp.EnterForwarding(c), []);
              View() == o.card && sent == old(sent) + o.sent
    {
      var bound := if us > LINE_CARDS then FORWARD_DELAY else FORWARD_DELAY * 2 + 1;
      if since < bound {
        TxInfoBpdu(Config);
        since := since + 1;
      } else {
        EnterForwarding();
      }
    }

    method TickRoot()
      requires Valid() && rootLc < CARDS
      modifies this, exist
      ensures Valid()
      ensures View() == RootTick(old(View())).card && sent == old(sent) + RootTick(old(View())).sent
    {
      if since > MAX_AGE {
        var found := SelectNewRootLc(rootLc);
        if found {
          since := 0;
          TxInfoBpdu(Hello);
        } else {
          EnterBlock();
          TxInfoBpdu(LcChange);
        }
      } else {
        TxInfoBpdu(Hello);
        since := since + 1;
      }
    }
  }

  /** In a chassis that keeps its invariant, the program never leaves its tables:
      what the methods require of a card and of a BPDU is always met. */
  lemma AlwaysInRange(hw: Hardware, c: Card, b: Bpdu)
    requires CardOk(hw, c) && BpduOk(hw, b)
    ensures InRange(b) && b.design.Num() < CARDS && c.rootLc < CARDS && c.us % 2 == 1
  {
    assert SlotOk(hw, b.from, CARDS - 1, b.exist[CARDS - 1]);
  }
}
