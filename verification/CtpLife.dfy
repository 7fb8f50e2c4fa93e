/**
 The life of a plane: cards stop and cards start, one change after another, and
 in between the plane has time to settle. It is a spanning tree after each.
 */
module CtpLife {
  import opened CtpInvariant
  import opened CtpNet
  import opened CtpTopology
  import opened CtpRounds
  import opened CtpConverge
  import opened CtpColdStart
  import opened CtpKeep
  import opened CtpSteady
  import opened CtpFailover
  import opened CtpRestart
  import opened CtpJoin

  /** One card stops, or several start. */
  datatype Change = Leave(n: nat) | Enter(ns: seq<nat>)

  /** A change, and then the rounds rs that take the chassis through nets. */
  datatype Episode = Episode(change: Change, p: Plan, nets: seq<Net>, rs: seq<Lockstep>)

  function Changed(hw: Hardware, net: Net, c: Change): Net {
    match c
    case Leave(n) => Apply(hw, net, Stop(n))
    case Enter(ns) => Run(hw, net, Starts(ns))
  }

  /** The roots once the plane has settled. */
  function RootsAfter(r: Roots, e: Episode): Roots {
    match e.change
    case Leave(n) => RootsWithout(r, n, e.p)
    case Enter(_) => Roots(e.p, r.fc, r.lc)
  }

  /** Both kinds of card are left, there is time to settle, and no line card starts
      together with a fabric card smaller than the root FC. */
  ghost predicate Happens(hw: Hardware, r: Roots, net: Net, e: Episode) {
    && Rounds(hw, e.nets, e.rs) && |e.rs| > PATIENCE + 14 && e.nets[0] == Changed(hw, net, e.change)
    && PlanFor(e.p, e.nets[0]) && e.p.upper == r.p.upper
    && (e.change.Enter? ==> !Clash(JoinOf(r, net, e.p)))
  }

  function Last(e: Episode): Net
    requires |e.nets| == |e.rs| + 1
  {
    e.nets[|e.rs|]
  }

  ghost predicate History(hw: Hardware, r: Roots, net: Net, es: seq<Episode>)
    decreases |es|
  {
    es == [] || (Happens(hw, r, net, es[0]) && History(hw, RootsAfter(r, es[0]), Last(es[0]), es[1..]))
  }

  /** One more episode in front. */
  lemma HistoryFrom(hw: Hardware, r: Roots, net: Net, e: Episode, es: seq<Episode>)
    requires Happens(hw, r, net, e) && History(hw, RootsAfter(r, e), Last(e), es)
    ensures History(hw, r, net, [e] + es) && FinalRoots(r, [e] + es) == FinalRoots(RootsAfter(r, e), es)
  {
    assert ([e] + es)[0] == e && ([e] + es)[1..] == es;
  }

  function FinalRoots(r: Roots, es: seq<Episode>): Roots
    decreases |es|
  {
    if es == [] then r else FinalRoots(RootsAfter(r, es[0]), es[1..])
  }

  ghost function FinalNet(hw: Hardware, r: Roots, net: Net, es: seq<Episode>): Net
    requires History(hw, r, net, es)
    decreases |es|
  {
    if es == [] then net else FinalNet(hw, RootsAfter(r, es[0]), Last(es[0]), es[1..])
  }

  lemma OneEpisode(hw: Hardware, r: Roots, net: Net, e: Episode)
    requires Reachable(hw, net) && SteadyEnd(hw, r, net) && Happens(hw, r, net, e)
    ensures var s := RootsAfter(r, e);
            Reachable(hw, Last(e)) && SteadyEnd(hw, s, Last(e)) && s.p.upper == r.p.upper
  {
    hide Reachable, SteadyEnd, Rounds, Clash, PlanFor;
    match e.change
    case Leave(n) =>
      AnyStops(hw, r, net, n, e.p, e.nets, e.rs);
      StopReachable(hw, net, n);
      RoundsReachable(hw, e.nets, e.rs, |e.rs|);
    case Enter(ns) =>
      JoinIff(hw, r, net, ns, e.p, e.nets, e.rs);
      StartsReachable(hw, net, Starts(ns));
      RoundsReachable(hw, e.nets, e.rs, |e.rs|);
  }

  lemma EndIsTree(hw: Hardware, r: Roots, net: Net)
    requires Reachable(hw, net) && SteadyEnd(hw, r, net)
    ensures Agreed(net, r.p.upper, r.fc, r.lc) && SpanningTree(net, r.p.upper)
  {
    forall n | n in net.cards && r.p.Has(n)
      ensures Poised(r, net.cards[n])
    {
      HoldsPoised(r, r.p, net.cards[n]);
    }
    StartIsTree(hw, r, net);
  }

  /** The plane outlives its cards: however many stop and start, one change after
      another and at least 62 rounds apart, at the end the plane is a spanning tree
      in the steady state. */
  lemma {:induction false} Survives(hw: Hardware, r: Roots, net: Net, es: seq<Episode>)
    requires Reachable(hw, net) && SteadyEnd(hw, r, net) && History(hw, r, net, es)
    ensures var s, last := FinalRoots(r, es), FinalNet(hw, r, net, es);
            SteadyEnd(hw, s, last) && Agreed(last, r.p.upper, s.fc, s.lc) && SpanningTree(last, r.p.upper)
    decreases |es|
  {
    hide Reachable, SteadyEnd, Clash;
    if es == [] {
      EndIsTree(hw, r, net);
    } else {
      OneEpisode(hw, r, net, es[0]);
      Survives(hw, RootsAfter(r, es[0]), Last(es[0]), es[1..]);
    }
  }
}
