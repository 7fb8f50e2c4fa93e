/**
 Rounds in which no card of a plane says anything: what its cards are after
 their ticks, they are at the end of the round.
 */
module CtpMute {
  import opened Ctp
  import opened CtpInvariant
  import opened CtpNet
  import opened CtpTopology
  import opened CtpRounds
  import opened CtpConverge

  /** The receive-interval table does not matter to inv. */
  ghost predicate HeardFree(inv: Card -> bool) {
    forall c: Card, d: Card :: inv(c) && Untouched(c, d) ==> inv(d)
  }

  ghost predicate AllAre(inv: Card -> bool, p: Plan, net: Net) {
    forall n :: n in net.cards && p.Has(n) ==> inv(net.cards[n])
  }

  ghost predicate NothingSaid(p: Plan, net: Net) {
    forall c :: c in net.flight ==> Upper(c.b.from) != p.upper
  }

  /** During the round: the cards of the plane satisfy inv, and none of them has
      anything in flight. */
  ghost predicate Mute(hw: Hardware, inv: Card -> bool, p: Plan, net: Net) {
    Base(hw, p, net) && HeardFree(inv) && AllAre(inv, p, net) && NothingSaid(p, net)
  }

  ghost predicate MuteDo(f: Card -> Out, inv: Card -> bool, p: Plan, net: Net) {
    && PlanFor(p, net) && net.flight == [] && Numbered(net) && (forall n :: n in net.cards ==> CpuA(n))
    && (forall n :: n in net.cards ==> forall b :: b in f(net.cards[n]).sent ==> b.from == n)
    && (forall n :: n in net.cards && p.Has(n) ==> inv(f(net.cards[n]).card) && f(net.cards[n]).sent == [])
  }

  lemma DoMute(f: Card -> Out, inv: Card -> bool, p: Plan, net: Net, ts: Order)
    requires MuteDo(f, inv, p, net)
    ensures AllAre(inv, p, DoAll(f, net, ts)) && NothingSaid(p, DoAll(f, net, ts))
  {
    DoCards(f, net, ts);
    forall c | c in DoAll(f, net, ts).flight
      ensures Upper(c.b.from) != p.upper
    {
      var n := DoOnly(f, net, ts, c);
      assert f(net.cards[n]).sent != [];
    }
  }

  ghost predicate MuteTicks(inv: Card -> bool, p: Plan, net: Net) {
    forall n :: n in net.cards && p.Has(n) ==> inv(Tick(net.cards[n]).card) && Tick(net.cards[n]).sent == []
  }

  lemma MuteStarts(hw: Hardware, inv: Card -> bool, p: Plan, net: Net, ts: Order)
    requires Base(hw, p, net) && net.flight == [] && HeardFree(inv) && MuteTicks(inv, p, net)
    ensures Mute(hw, inv, p, AllTick(net, ts))
  {
    TicksFrom(hw, net);
    DoMute(Tick, inv, p, net, ts);
    AllTickOk(hw, net, ts);
    DoCards(Tick, net, ts);
  }

  lemma TookAllAre(inv: Card -> bool, p: Plan, net: Net, k: nat, o: Out)
    requires HeardFree(inv) && AllAre(inv, p, net) && k < |net.flight| && net.flight[k].to in net.cards
    requires p.Has(net.flight[k].to) ==> Untouched(net.cards[net.flight[k].to], o.card)
    ensures AllAre(inv, p, Took(net, k, o))
  {
  }

  lemma TookNothingSaid(hw: Hardware, p: Plan, net: Net, k: nat, o: Out)
    requires PlanFor(p, net) && NothingSaid(p, net) && k < |net.flight| && net.flight[k].to in net.cards
    requires OutOk(hw, net.flight[k].to, o) && (p.Has(net.flight[k].to) ==> o.sent == [])
    ensures NothingSaid(p, Took(net, k, o))
  {
    SendOnly(net.cards.Keys, o.sent);
    assert forall d :: d in Without(net.flight, k) ==> d in net.flight;
  }

  lemma DeliverMute(hw: Hardware, inv: Card -> bool, p: Plan, net: Net, k: nat)
    requires Mute(hw, inv, p, net)
    ensures Mute(hw, inv, p, Apply(hw, net, Deliver(k)))
  {
    DeliverBase(hw, p, net, k);
    DeliverIsTook(hw, net, k);
    if k < |net.flight| && net.flight[k].to in net.cards {
      var c := net.flight[k];
      assert CopyOk(hw, c) && c in net.flight;
      RxHearsOnly(hw, net, k);
      if p.Has(c.to) {
        ForeignRx(hw, net.cards[c.to], c.b);
      }
      TookAllAre(inv, p, net, k, Rx(net.cards[c.to], c.b));
      TookNothingSaid(hw, p, net, k, Rx(net.cards[c.to], c.b));
    }
  }

  ghost function MuteOf(hw: Hardware, inv: Card -> bool, p: Plan): Net -> bool {
    x => Mute(hw, inv, p, x)
  }

  lemma MuteStable(hw: Hardware, inv: Card -> bool, p: Plan)
    ensures Stable(hw, MuteOf(hw, inv, p))
  {
    hide Mute;
    forall x: Net, k: nat | MuteOf(hw, inv, p)(x)
      ensures MuteOf(hw, inv, p)(Apply(hw, x, Deliver(k)))
    {
      DeliverMute(hw, inv, p, x, k);
    }
  }

  /** A round in which no card of the plane has anything to say. */
  lemma MuteRound(hw: Hardware, inv: Card -> bool, p: Plan, net: Net, r: Lockstep, after: Net)
    requires Base(hw, p, net) && net.flight == [] && HeardFree(inv) && MuteTicks(inv, p, net)
    requires Round(hw, net, r, after)
    ensures Mute(hw, inv, p, after)
  {
    MuteStarts(hw, inv, p, net, r.ticks);
    MuteStable(hw, inv, p);
    assert MuteOf(hw, inv, p)(AllTick(net, r.ticks));
    RoundKeeps(hw, MuteOf(hw, inv, p), MuteOf(hw, inv, p), net, r, after);
    assert MuteOf(hw, inv, p)(after);
  }
}
