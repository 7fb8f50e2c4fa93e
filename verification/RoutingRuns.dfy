/**
 Remote shutdowns in the steady state: the masters that the cards compute are those
 of the running fabric cards, and a request is served whenever a card is left to
 serve it. And what the routing has in common with the wiring and with the shutdown
 manager.
 */
module RoutingRuns {
  import opened Ctp
  import opened CtpInvariant
  import opened CtpNet
  import opened CtpTopology
  import opened CtpRounds
  import opened CtpConverge
  import opened CtpKeep
  import opened CtpSteady
  import opened CtpRoll
  import opened Routing
  import Thermal
  import Wiring

  // ------------------------------------------------------------------ halves

  /** A fabric card switches the line cards that hang on its first four downlinks. */
  lemma HandlesByWiring(us: nat, slot: nat)
    requires Fabric(us) && slot < 8
    ensures Handles(us, slot) <==> Wiring.Downlink(us, 2 * slot + 1) < 4
    ensures Wiring.Downlink(us, 2 * slot + 1) == Wiring.Downlink(us, 2 * slot + 17)
  {
    hide Wiring.Downlink;
    WiredDown(us, 2 * slot + 1);
    WiredDown(us, 2 * slot + 17);
    assert 2 * slot / 2 == slot && (2 * slot + 16) / 2 == slot + 8;
    assert slot % 8 == slot == (slot + 8) % 8 && (slot + 4) % 8 == if slot < 4 then slot + 4 else slot - 4;
  }

  /** It does itself what the shutdown manager of its board does itself, and leaves to
      others what that one leaves to others. */
  lemma HandlesAsThermal(us: nat, slot: nat, masters: seq<nat>)
    requires Fabric(us) && slot < 8 && |masters| == GROUPS
    ensures var board := Wiring.Uplink(us);
            && (Route(masters, us, slot).Local? <==> Thermal.LinecardOff(board, slot) == [Thermal.LocalLcOff(slot)])
            && (!Route(masters, us, slot).Local? <==> Thermal.LinecardOff(board, slot) == [Thermal.RemoteLcOff(slot)])
  {
    WiredUp(us);
    hide Wiring.Uplink, PartnerMaster;
  }

  // ----------------------------------------------------------------- masters

  /** Card j runs, is a fabric card of the plane, and belongs to group i. */
  predicate InGroup(r: Roots, i: nat, j: nat) {
    r.p.Has(j) && FcNum(j) && 33 + 4 * i <= j <= 36 + 4 * i
  }

  /** Whom the running cards make master of group i: the root FC, if it belongs to it,
      else the smallest running fabric card of it; 0 if there is none. */
  ghost predicate RunningMaster(r: Roots, i: nat, m: nat) {
    if InGroup(r, i, r.fc) then m == r.fc
    else if m == 0 then forall j :: !InGroup(r, i, j)
    else InGroup(r, i, m) && forall j :: InGroup(r, i, j) ==> m <= j
  }

  lemma MasterIsRunning(r: Roots, c: Card, i: nat, m: nat)
    requires r.Ok() && KnowsAll(r, c) && c.rootPort == r.fc && i < 4 && Masters(c.exist, c.rootPort, i, m)
    ensures RunningMaster(r, i, m)
  {
    assert FirstOfGroup(i) == 33 + 4 * i;
    forall j: nat | 33 + 4 * i <= j <= 36 + 4 * i
      ensures Live(c.exist, j) <==> InGroup(r, i, j)
    {
      assert 1 <= j <= 48 && (Live(c.exist, j) <==> r.p.Has(j));
    }
    assert InGroup(r, i, r.fc) ==> Live(c.exist, r.fc);
  }

  /** From the 16th round of the steady state on, every card of the plane computes the
      same masters: those of the running fabric cards. */
  lemma MastersRun(
      hw: Hardware, r: Roots, nets: seq<Net>, ls: seq<Lockstep>, m: nat, k: nat, n: nat, masters: seq<nat>)
    requires Rounds(hw, nets, ls) && m + 16 <= k <= |ls| && SteadyStart(hw, r, nets[m])
    requires n in nets[k].cards && r.p.Has(n) && MastersOf(nets[k].cards[n], masters)
    ensures forall i :: 0 <= i < 4 ==> RunningMaster(r, i, masters[i])
  {
    hide KnowsAll, RunningMaster, Masters;
    RollCall(hw, r, nets, ls, m, k, n);
    SteadyRounds(hw, r, nets, ls, m, k);
    assert Poised(r, nets[k].cards[n]);
    forall i | 0 <= i < 4
      ensures RunningMaster(r, i, masters[i])
    {
      MasterIsRunning(r, nets[k].cards[n], i, masters[i]);
    }
  }

  // ---------------------------------------------------------------- requests

  /** Some running fabric card of the plane switches this slot. */
  ghost predicate Served(r: Roots, slot: nat) {
    exists f :: r.p.Has(f) && FcNum(f) && Handles(f, slot)
  }

  /** The master of its own group, by the running cards. */
  ghost predicate IsRunningMaster(r: Roots, n: nat)
    requires Fabric(n)
  {
    RunningMaster(r, GroupOf(n), n)
  }

  lemma PartnerServes(r: Roots, n: nat, slot: nat, f: nat)
    requires r.p.Has(n) && Fabric(n) && slot < 8 && !Handles(n, slot) && r.p.Has(f) && FcNum(f)
    ensures Handles(f, slot) <==> InGroup(r, Partner(GroupOf(n)), f)
  {
    assert f == 33 || f == 35 || f == 37 || f == 39 || f == 41 || f == 43 || f == 45 || f == 47;
    assert n == 33 || n == 35 || n == 37 || n == 39 || n == 41 || n == 43 || n == 45 || n == 47;
  }

  lemma PartnerServed(r: Roots, n: nat, slot: nat, m: nat)
    requires r.Ok() && r.p.Has(n) && Fabric(n) && slot < 8 && !Handles(n, slot)
    requires RunningMaster(r, Partner(GroupOf(n)), m)
    ensures m != 0 <==> Served(r, slot)
  {
    var p := Partner(GroupOf(n));
    if m != 0 {
      assert InGroup(r, p, m);
      PartnerServes(r, n, slot, m);
    }
    if f :| r.p.Has(f) && FcNum(f) && Handles(f, slot) {
      PartnerServes(r, n, slot, f);
    }
  }

  /** From the 16th round of the steady state on: a request for a line card slot at a
      running fabric card is done there if that card switches the slot; else it goes to
      a running card that does it, exactly if there is one and the card asked is the
      master of its group; and else it is refused. */
  lemma RequestIsServed(
      hw: Hardware, r: Roots, nets: seq<Net>, ls: seq<Lockstep>, m: nat, k: nat, n: nat, masters: seq<nat>,
      slot: nat)
    requires Rounds(hw, nets, ls) && m + 16 <= k <= |ls| && SteadyStart(hw, r, nets[m]) && slot < 8
    requires n in nets[k].cards && r.p.Has(n) && Fabric(n) && MastersOf(nets[k].cards[n], masters)
    ensures var route := Route(masters, n, slot);
            && (route.Local? <==> Handles(n, slot))
            && (route.Forward? <==> !Handles(n, slot) && IsRunningMaster(r, n) && Served(r, slot))
            && (route.Forward? ==> r.p.Has(route.to) && Handles(route.to, slot))
  {
    var c := nets[k].cards[n];
    MastersRun(hw, r, nets, ls, m, k, n, masters);
    SteadyRounds(hw, r, nets, ls, m, k);
    BaseCard(hw, r.p, nets[k], n);
    NoBounce(hw, c, masters, slot);
    RoutedRight(r, n, masters, slot, Route(masters, n, slot));
  }

  lemma RoutedRight(r: Roots, n: nat, masters: seq<nat>, slot: nat, route: Outcome)
    requires r.Ok() && r.p.Has(n) && Fabric(n) && slot < 8 && |masters| == GROUPS
    requires forall i :: 0 <= i < 4 ==> RunningMaster(r, i, masters[i])
    requires route.Local? <==> Handles(n, slot)
    requires var g := GroupOf(n);
             && (route.Forward? <==> !Handles(n, slot) && masters[g] == n && masters[Partner(g)] != 0)
             && (route.Forward? ==> route.to == masters[Partner(g)])
    ensures route.Forward? <==> !Handles(n, slot) && IsRunningMaster(r, n) && Served(r, slot)
    ensures route.Forward? ==> r.p.Has(route.to) && Handles(route.to, slot)
  {
    var g := GroupOf(n);
    var p := Partner(g);
    OneMaster(r, g, masters[g], n);
    if !Handles(n, slot) {
      PartnerServed(r, n, slot, masters[p]);
      if masters[p] != 0 {
        assert InGroup(r, p, masters[p]);
        PartnerServes(r, n, slot, masters[p]);
      }
    }
    hide RunningMaster, Handles, Served;
  }

  lemma OneMaster(r: Roots, i: nat, m: nat, n: nat)
    requires RunningMaster(r, i, m) && InGroup(r, i, n)
    ensures m == n <==> RunningMaster(r, i, n)
  {
  }
}
