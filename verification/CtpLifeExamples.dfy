/**
 Runs without loss: planes that come up, lose cards and get others, so that what
 the theorems on whole lives ask for can be met; and one that does not settle,
 because a line card started together with a smaller fabric card.
 */
module CtpLifeExamples {
  import opened Ctp
  import opened CtpInvariant
  import opened CtpNet
  import opened CtpTopology
  import opened CtpRounds
  import opened CtpConverge
  import opened CtpColdStart
  import opened CtpKeep
  import opened CtpSteady
  import opened CtpFailover
  import opened CtpJoin
  import opened CtpLife
  import CtpExamples

  // -------------------------------------------------------------- rounds exist

  lemma {:induction false} RoundsExist(hw: Hardware, net: Net, ts: Order, n: nat)
    returns (nets: seq<Net>, rs: seq<Lockstep>)
    requires Reachable(hw, net) && net.flight == []
    ensures Rounds(hw, nets, rs) && |rs| == n && nets[0] == net && nets[n].flight == [] && Reachable(hw, nets[n])
  {
    if n == 0 {
      nets, rs := [net], [];
    } else {
      nets, rs := RoundsExist(hw, net, ts, n - 1);
      ReachableKeeps(hw, nets[n - 1]);
      var r, after := RoundExists(hw, nets[n - 1], ts);
      RoundReachable(hw, nets[n - 1], r, after);
      OneRoundMore(hw, nets, rs, r, after);
      nets, rs := nets + [after], rs + [r];
    }
  }

  lemma OneRoundMore(hw: Hardware, nets: seq<Net>, rs: seq<Lockstep>, r: Lockstep, after: Net)
    requires Rounds(hw, nets, rs) && Round(hw, nets[|rs|], r, after)
    ensures Rounds(hw, nets + [after], rs + [r])
  {
    var ns, ls := nets + [after], rs + [r];
    forall i | 0 <= i < |ls|
      ensures Round(hw, ns[i], ls[i], ns[i + 1])
    {
      if i < |rs| {
        assert Round(hw, nets[i], rs[i], nets[i + 1]);
      }
    }
  }

  /** The cards just started come up, and 15 rounds later the plane is in the steady
      state. */
  lemma ComesUp(hw: Hardware, cards: map<nat, Card>, p: Plan) returns (net: Net)
    requires CtpExamples.Quiet(hw, cards) && p.live == cards.Keys && p.Ok()
    requires forall n :: n in cards ==> CtpExamples.Asleep(cards[n])
    ensures Reachable(hw, net) && SteadyEnd(hw, Roots(p, p.fc, p.lc), net) && net.cards.Keys == cards.Keys
  {
    hide Reachable, Rounds, SteadyEnd;
    var nets, rs := RoundsExist(hw, Net(cards, []), UpTo(CARDS), 15);
    assert Starter(p, nets[0], p.fc);
    ColdStartLasts(hw, p, p.fc, nets, rs, 0);
    net := nets[15];
    SteadyKeys(hw, Roots(p, p.fc, p.lc), net);
  }

  lemma SteadyKeys(hw: Hardware, r: Roots, net: Net)
    requires SteadyEnd(hw, r, net)
    ensures net.cards.Keys == r.p.live && net.flight == []
  {
  }

  const FOUR: Plan := Plan({1, 3, 33, 35}, true, 33, 1)
  const THREE: Plan := Plan({3, 33, 35}, true, 33, 3)

  /** Four cards come up; root LC 1 stops; and it starts again, after which line card
      3 is root LC still. */
  lemma LifeExists(hw: Hardware) returns (r: Roots, net: Net, es: seq<Episode>)
    ensures Reachable(hw, net) && SteadyEnd(hw, r, net) && History(hw, r, net, es) && r == Roots(FOUR, 33, 1)
    ensures |es| == 2 && es[0].change == Leave(1) && es[1].change == Enter([1])
    ensures FinalRoots(r, es) == Roots(FOUR, 33, 3)
  {
    hide Reachable, SteadyEnd, Clash, Round, CtpExamples.Quiet;
    var cards := CtpExamples.FourCards(hw);
    r := Roots(FOUR, 33, 1);
    FourOk();
    net := ComesUp(hw, cards, FOUR);
    var e := FirstEpisode(hw, net);
    OneEpisode(hw, r, net, e);
    var f := SecondEpisode(hw, Last(e));
    HistoryFrom(hw, Roots(THREE, 33, 3), Last(e), f, []);
    HistoryFrom(hw, r, net, e, [f]);
    es := [e] + [f];
    assert [f] + [] == [f];
  }

  lemma FourOk()
    ensures FOUR.Ok() && THREE.Ok()
  {
  }

  lemma FirstEpisode(hw: Hardware, net: Net) returns (e: Episode)
    requires Reachable(hw, net) && SteadyEnd(hw, Roots(FOUR, 33, 1), net)
    ensures Happens(hw, Roots(FOUR, 33, 1), net, e) && e.change == Leave(1) && e.p == THREE
  {
    hide Reachable, Rounds, SteadyEnd;
    SteadyKeys(hw, Roots(FOUR, 33, 1), net);
    FourOk();
    StopReachable(hw, net, 1);
    var nets, rs := RoundsExist(hw, Apply(hw, net, Stop(1)), UpTo(CARDS), 62);
    e := Episode(Leave(1), THREE, nets, rs);
  }

  lemma SecondEpisode(hw: Hardware, net: Net) returns (e: Episode)
    requires Reachable(hw, net) && SteadyEnd(hw, Roots(THREE, 33, 3), net)
    ensures Happens(hw, Roots(THREE, 33, 3), net, e) && e.change == Enter([1]) && e.p == FOUR
  {
    hide Reachable, Rounds, SteadyEnd, Run;
    SteadyKeys(hw, Roots(THREE, 33, 3), net);
    FourOk();
    StartsReachable(hw, net, Starts([1]));
    OneStarts(hw, net, 1);
    var nets, rs := RoundsExist(hw, Run(hw, net, Starts([1])), UpTo(CARDS), 62);
    e := Episode(Enter([1]), FOUR, nets, rs);
  }

  lemma OneStarts(hw: Hardware, net: Net, n: nat)
    requires CpuA(n) && n !in net.cards
    ensures Run(hw, net, Starts([n])).cards.Keys == net.cards.Keys + {n}
    ensures Run(hw, net, Starts([n])).flight == net.flight
  {
    assert Starts([n]) == [Start(n)];
    RunOne(hw, net, Start(n));
  }

  lemma TwoStart(hw: Hardware, net: Net, m: nat, n: nat)
    requires CpuA(m) && CpuA(n) && m != n && m !in net.cards && n !in net.cards
    ensures Run(hw, net, Starts([m, n])).cards.Keys == net.cards.Keys + {m, n}
    ensures Run(hw, net, Starts([m, n])).flight == net.flight
  {
    assert Starts([m, n]) == Starts([m]) + Starts([n]);
    RunAppend(hw, net, Starts([m]), Starts([n]));
    OneStarts(hw, net, m);
    OneStarts(hw, Run(hw, net, Starts([m])), n);
  }

  /** Fabric card 35 and line card 3 are in the steady state when 33 and 1 start: the
      plane does not settle on its roots. */
  lemma ClashReachable(hw: Hardware) returns (net: Net, nets: seq<Net>, rs: seq<Lockstep>)
    ensures Reachable(hw, net) && SteadyEnd(hw, Roots(Plan({3, 35}, true, 35, 3), 35, 3), net)
    ensures Rounds(hw, nets, rs) && |rs| == 14 && nets[0] == Run(hw, net, Starts([1, 33]))
    ensures Clash(JoinOf(Roots(Plan({3, 35}, true, 35, 3), 35, 3), net, FOUR))
    ensures !Agreed(nets[14], true, 35, 3)
  {
    hide Reachable, Rounds, SteadyEnd, CtpExamples.Quiet, Agreed, Run;
    var r := Roots(Plan({3, 35}, true, 35, 3), 35, 3);
    CtpExamples.NothingYet(hw);
    var cards := CtpExamples.StartTwo(hw, map[], 3, 35);
    net := ComesUp(hw, cards, r.p);
    SteadyKeys(hw, r, net);
    nets, rs := PairStarts(hw, r, net);
  }

  lemma PairStarts(hw: Hardware, r: Roots, net: Net) returns (nets: seq<Net>, rs: seq<Lockstep>)
    requires Reachable(hw, net) && SteadyEnd(hw, r, net) && r == Roots(Plan({3, 35}, true, 35, 3), 35, 3)
    ensures Rounds(hw, nets, rs) && |rs| == 14 && nets[0] == Run(hw, net, Starts([1, 33]))
    ensures Clash(JoinOf(r, net, FOUR)) && !Agreed(nets[14], true, 35, 3)
  {
    hide Reachable, Rounds, SteadyEnd, Agreed, Run;
    SteadyKeys(hw, r, net);
    FourOk();
    StartsReachable(hw, net, Starts([1, 33]));
    TwoStart(hw, net, 1, 33);
    nets, rs := RoundsExist(hw, Run(hw, net, Starts([1, 33])), UpTo(CARDS), 14);
    assert Pair(JoinOf(r, net, FOUR), 1, 33);
    JoinIff(hw, r, net, [1, 33], FOUR, nets, rs);
  }
}
