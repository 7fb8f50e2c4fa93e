/**
 Whichever card of a steady plane stops, the plane becomes a spanning tree again.
 If it is the root fabric card, all others fall silent, go to BLOCK in the same
 round, and start as from cold.
 */
module CtpRestart {
  import opened Ctp
  import opened CtpInvariant
  import opened CtpNet
  import opened CtpReceive
  import opened CtpTopology
  import opened CtpRounds
  import opened CtpConverge
  import opened CtpMute
  import opened CtpColdStart
  import opened CtpKeep
  import opened CtpSteady
  import opened CtpFailover

  // --------------------------------------------------------- root FC stops

  /** Rounds until a card that hears nothing gives up. */
  const PATIENCE: nat := MAX_AGE * FORWARD_DELAY + 2

  /** The card has waited k ticks for root FC R, which is not itself. */
  ghost function WaitingFor(R: nat, k: nat): Card -> bool {
    (c: Card) => c.state == Forwarding && c.rootPort == R && c.us != R && c.since == k
  }

  lemma WaitTick(c: Card, R: nat, k: nat)
    requires CpuA(c.us) && WaitingFor(R, k)(c) && k < PATIENCE
    ensures Tick(c).sent == []
    ensures k + 1 < PATIENCE ==> WaitingFor(R, k + 1)(Tick(c).card)
    ensures k + 1 == PATIENCE ==> JustReset(Tick(c).card)
  {
  }

  lemma WaitingIsHeardFree(R: nat, k: nat)
    ensures HeardFree(WaitingFor(R, k))
  {
  }

  /** Between two rounds: every card of the plane has waited k ticks. */
  ghost predicate AllWaiting(hw: Hardware, p: Plan, R: nat, k: nat, net: Net) {
    Base(hw, p, net) && net.flight == [] && AllAre(WaitingFor(R, k), p, net)
  }

  lemma WaitRound(hw: Hardware, p: Plan, net: Net, r: Lockstep, after: Net, R: nat, k: nat)
    requires AllWaiting(hw, p, R, k, net) && k < PATIENCE && Round(hw, net, r, after)
    ensures k + 1 < PATIENCE ==> AllWaiting(hw, p, R, k + 1, after)
    ensures k + 1 == PATIENCE ==> Cold(hw, p, p.fc, after)
  {
    forall n | n in net.cards && p.Has(n)
      ensures Tick(net.cards[n]).sent == []
      ensures k + 1 < PATIENCE ==> WaitingFor(R, k + 1)(Tick(net.cards[n]).card)
      ensures k + 1 == PATIENCE ==> JustReset(Tick(net.cards[n]).card)
    {
      WaitTick(net.cards[n], R, k);
    }
    if k + 1 < PATIENCE {
      WaitingIsHeardFree(R, k + 1);
      MuteRound(hw, WaitingFor(R, k + 1), p, net, r, after);
    } else {
      MuteRound(hw, JustReset, p, net, r, after);
      ResetIsCold(hw, p, after);
    }
  }

  ghost function AllWaitingOf(hw: Hardware, p: Plan, R: nat): (nat, Net) -> bool {
    (k: nat, x: Net) => AllWaiting(hw, p, R, k, x)
  }

  lemma WaitingClimbs(hw: Hardware, p: Plan, R: nat)
    ensures Climbs(hw, AllWaitingOf(hw, p, R), PATIENCE - 1)
  {
    hide AllWaiting;
    forall j: nat, x: Net, r: Lockstep, y: Net | j < PATIENCE - 1 && AllWaitingOf(hw, p, R)(j, x) && Round(hw, x, r, y)
      ensures AllWaitingOf(hw, p, R)(j + 1, y)
    {
      WaitRound(hw, p, x, r, y, R, j);
    }
  }

  lemma AllWait(hw: Hardware, p: Plan, nets: seq<Net>, rs: seq<Lockstep>, R: nat, k: nat)
    requires Rounds(hw, nets, rs) && k <= |rs| && k < PATIENCE && AllWaiting(hw, p, R, 0, nets[0])
    ensures AllWaiting(hw, p, R, k, nets[k])
  {
    WaitingClimbs(hw, p, R);
    RoundsClimb(hw, AllWaitingOf(hw, p, R), nets, rs, PATIENCE - 1, k);
    assert AllWaitingOf(hw, p, R)(k, nets[k]);
  }

  lemma WaitingForwards(hw: Hardware, p: Plan, net: Net, R: nat, k: nat)
    requires AllWaiting(hw, p, R, k, net)
    ensures AllForward(net, p.upper) && RootedAt(net, p.upper, R)
  {
    forall n | InPlane(net, p.upper, n)
      ensures net.cards[n].state == Forwarding && net.cards[n].rootPort == R
    {
      assert p.Has(n) && WaitingFor(R, k)(net.cards[n]);
    }
  }

  lemma GivesUp(hw: Hardware, p: Plan, nets: seq<Net>, rs: seq<Lockstep>, R: nat)
    requires Rounds(hw, nets, rs) && PATIENCE <= |rs| && AllWaiting(hw, p, R, 0, nets[0])
    ensures Cold(hw, p, p.fc, nets[PATIENCE])
  {
    var k := PATIENCE - 1;
    AllWait(hw, p, nets, rs, R, k);
    assert Round(hw, nets[k], rs[k], nets[k + 1]);
    WaitRound(hw, p, nets[k], rs[k], nets[k + 1], R, k);
  }

  lemma HoldsWaits(r: Roots, c: Card)
    requires Holds(r, c) && c.since == 0 && c.us != r.fc
    ensures WaitingFor(r.fc, 0)(c)
  {
  }

  lemma FcStopped(hw: Hardware, r: Roots, net: Net, p: Plan)
    requires Reachable(hw, net) && SteadyEnd(hw, r, net)
    requires PlanFor(p, Apply(hw, net, Stop(r.fc))) && p.upper == r.p.upper
    ensures AllWaiting(hw, p, r.fc, 0, Apply(hw, net, Stop(r.fc)))
  {
    hide NetOk, NetHeardOk, Reachable;
    var after := Apply(hw, net, Stop(r.fc));
    StoppedBase(hw, net, r.fc, p);
    forall n | n in after.cards && p.Has(n)
      ensures WaitingFor(r.fc, 0)(after.cards[n])
    {
      assert r.p.Has(n) && Holds(r, net.cards[n]);
      BaseCard(hw, r.p, net, n);
      HoldsWaits(r, net.cards[n]);
    }
  }

  /** The root FC stops: for 46 rounds all others keep forwarding around the lost
      root, in round 47 they all go to BLOCK, and from round 61 on the plane is a
      spanning tree around the smallest cards that run. */
  lemma RootFcStops(hw: Hardware, r: Roots, net: Net, p: Plan, nets: seq<Net>, rs: seq<Lockstep>)
    requires Reachable(hw, net) && SteadyEnd(hw, r, net)
    requires Rounds(hw, nets, rs) && |rs| >= PATIENCE + 14
    requires nets[0] == Apply(hw, net, Stop(r.fc)) && PlanFor(p, nets[0]) && p.upper == r.p.upper
    ensures forall k :: 0 <= k < PATIENCE ==> AllForward(nets[k], p.upper) && RootedAt(nets[k], p.upper, r.fc)
    ensures BlockedPlane(p, nets[PATIENCE])
    ensures forall k :: PATIENCE + 14 <= k <= |rs| ==>
              Agreed(nets[k], p.upper, p.fc, p.lc) && SpanningTree(nets[k], p.upper)
    ensures |rs| > PATIENCE + 14 ==> SteadyEnd(hw, Roots(p, p.fc, p.lc), nets[|rs|])
  {
    FcStopped(hw, r, net, p);
    forall k | 0 <= k < PATIENCE
      ensures AllForward(nets[k], p.upper) && RootedAt(nets[k], p.upper, r.fc)
    {
      AllWait(hw, p, nets, rs, r.fc, k);
      WaitingForwards(hw, p, nets[k], r.fc, k);
    }
    GivesUp(hw, p, nets, rs, r.fc);
    StopReachable(hw, net, r.fc);
    ColdStartLasts(hw, p, p.fc, nets, rs, PATIENCE);
  }

  // -------------------------------------------------------- any card stops

  /** Any other card may stop without changing anything. */
  lemma LeafStops(hw: Hardware, r: Roots, net: Net, n: nat, p: Plan)
    requires Reachable(hw, net) && SteadyEnd(hw, r, net) && n != r.fc && n != r.lc
    requires PlanFor(p, Apply(hw, net, Stop(n))) && p.upper == r.p.upper
    ensures SteadyStart(hw, Roots(p, r.fc, r.lc), Apply(hw, net, Stop(n)))
  {
    hide NetOk, NetHeardOk, Reachable;
    var after := Apply(hw, net, Stop(n));
    StoppedBase(hw, net, n, p);
    forall m | m in after.cards && p.Has(m)
      ensures Poised(Roots(p, r.fc, r.lc), after.cards[m])
    {
      assert r.p.Has(m) && Holds(r, net.cards[m]);
      HoldsPoised(r, p, net.cards[m]);
    }
  }

  lemma HoldsPoised(r: Roots, p: Plan, c: Card)
    requires Holds(r, c) && c.since == 0
    ensures Poised(Roots(p, r.fc, r.lc), c)
  {
  }

  /** The roots after card n has stopped. */
  function RootsWithout(r: Roots, n: nat, p: Plan): Roots {
    if n == r.fc then Roots(p, p.fc, p.lc)
    else if n == r.lc then Roots(p, r.fc, p.lc)
    else Roots(p, r.fc, r.lc)
  }

  /** Whichever card stops, 61 rounds later the plane is a spanning tree again. */
  lemma AnyStops(hw: Hardware, r: Roots, net: Net, n: nat, p: Plan, nets: seq<Net>, rs: seq<Lockstep>)
    requires Reachable(hw, net) && SteadyEnd(hw, r, net)
    requires Rounds(hw, nets, rs) && |rs| > PATIENCE + 14
    requires nets[0] == Apply(hw, net, Stop(n)) && PlanFor(p, nets[0]) && p.upper == r.p.upper
    ensures var s := RootsWithout(r, n, p);
            && SteadyEnd(hw, s, nets[|rs|])
            && forall k :: PATIENCE + 14 <= k <= |rs| ==>
                 Agreed(nets[k], p.upper, s.fc, s.lc) && SpanningTree(nets[k], p.upper)
  {
    if n == r.fc {
      RootFcStops(hw, r, net, p, nets, rs);
    } else if n == r.lc {
      RootLcStops(hw, r, net, p, nets, rs);
    } else {
      LeafStops(hw, r, net, n, p);
      StopReachable(hw, net, n);
      AgreementLasts(hw, Roots(p, r.fc, r.lc), nets, rs, 0);
    }
  }
}
