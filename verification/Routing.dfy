/**
 Which fabric card switches which line card. Every group of four fabric
 numbers has a local master; a request that belongs to the other half of the
 chassis is handed to the master of the partner group.
 */
module Routing {
  import opened Ctp
  import opened CtpInvariant

  const EINVAL := 22
  const GROUPS := 4

  function FirstOfGroup(i: nat): nat {
    33 + 4 * i
  }

  predicate Live(t: Table, j: nat) {
    1 <= j && Age(t, j - 1) > 0
  }

  /** m is the master of the live fabric cards of group i below n: the root FC
      if it is among them, else the smallest of them, and 0 if there is none. */
  predicate IsMaster(t: Table, root: nat, i: nat, n: nat, m: nat) {
    if m == 0 then forall j :: FirstOfGroup(i) <= j < n ==> !Live(t, j)
    else
      && FirstOfGroup(i) <= m < n && Live(t, m)
      && (m == root || (forall j :: FirstOfGroup(i) <= j < n && Live(t, j) ==> m <= j && j != root))
  }

  /** The master of group i in the whole group. */
  predicate Masters(t: Table, root: nat, i: nat, m: nat) {
    IsMaster(t, root, i, FirstOfGroup(i) + 4, m)
  }

  lemma MasterUnique(t: Table, root: nat, i: nat, m: nat, n: nat)
    requires Masters(t, root, i, m) && Masters(t, root, i, n)
    ensures m == n
  {
  }

  // ----------------------------------------------------------------- routing

  datatype Outcome = Local | Forward(to: nat) | Refused

  /** The half of the chassis a fabric card switches: line cards 0..3 hang on
      the first group of a plane, 4..7 on the second. */
  predicate Handles(us: nat, slot: int) {
    if us == 33 || us == 35 || us == 41 || us == 43 then slot <= 3
    else (us == 37 || us == 39 || us == 45 || us == 47) && slot >= 4
  }

  predicate Fabric(us: nat) {
    33 <= us <= 47 && us % 2 == 1
  }

  function Partner(i: nat): nat {
    if i % 2 == 0 then i + 1 else i - 1
  }

  /** Where the masters send what this card cannot do itself: the partner of
      the first group it is master of; 0 if there is none. */
  function PartnerMaster(masters: seq<nat>, us: nat, i: nat): nat
    requires |masters| == GROUPS && i <= GROUPS
    decreases GROUPS - i
  {
    if i == GROUPS then 0
    else if masters[i] == us then masters[Partner(i)]
    else PartnerMaster(masters, us, i + 1)
  }

  function Route(masters: seq<nat>, us: nat, slot: int): Outcome
    requires |masters| == GROUPS
  {
    if !Fabric(us) then Refused
    else if Handles(us, slot) then (if 0 <= slot <= 7 then Local else Refused)
    else if PartnerMaster(masters, us, 0) == 0 then Refused
    else Forward(PartnerMaster(masters, us, 0))
  }

  function GroupOf(us: nat): nat
    requires Fabric(us)
  {
    (us - 33) / 4
  }

  /** The four masters as a card computes them from its own member table. */
  predicate MastersOf(c: Card, masters: seq<nat>) {
    |masters| == GROUPS && forall i :: 0 <= i < GROUPS ==> Masters(c.exist, c.rootPort, i, masters[i])
  }

  lemma MasterIsFabric(hw: Hardware, c: Card, masters: seq<nat>, i: nat)
    requires CardOk(hw, c) && MastersOf(c, masters) && i < GROUPS && masters[i] != 0
    ensures Fabric(masters[i]) && GroupOf(masters[i]) == i && SamePlane(c.us, masters[i])
  {
    var m := masters[i];
    assert Masters(c.exist, c.rootPort, i, m);
    assert SlotOk(hw, c.us, m - 1, c.exist[m - 1]);
  }

  lemma PartnerMasterIs(hw: Hardware, c: Card, masters: seq<nat>, i: nat)
    requires CardOk(hw, c) && Fabric(c.us) && MastersOf(c, masters) && i <= GroupOf(c.us)
    ensures var g := GroupOf(c.us);
            PartnerMaster(masters, c.us, i) == if masters[g] == c.us then masters[Partner(g)] else 0
    decreases GROUPS - i
  {
    forall k | 0 <= k < GROUPS && masters[k] == c.us
      ensures k == GroupOf(c.us)
    {
      MasterIsFabric(hw, c, masters, k);
    }
    if i < GroupOf(c.us) {
      PartnerMasterIs(hw, c, masters, i + 1);
    } else {
      NoLater(masters, c.us, i + 1);
    }
  }

  lemma {:induction false} NoLater(masters: seq<nat>, us: nat, i: nat)
    requires |masters| == GROUPS && i <= GROUPS && forall k :: i <= k < GROUPS ==> masters[k] != us
    ensures PartnerMaster(masters, us, i) == 0
    decreases GROUPS - i
  {
    if i < GROUPS {
      NoLater(masters, us, i + 1);
    }
  }

  /** A slot not handled in one group is handled in its partner. */
  lemma PartnerHandles(us: nat, to: nat, slot: int)
    requires Fabric(us) && Fabric(to) && GroupOf(to) == Partner(GroupOf(us)) && 0 <= slot <= 7
    requires !Handles(us, slot)
    ensures Handles(to, slot)
    ensures forall believed: seq<nat> :: |believed| == GROUPS ==> Route(believed, to, slot).Local?
  {
  }

  /** A request for any line card slot at any fabric card is done there,
      refused, or handed once to another card of its plane, which does it
      itself whatever masters that card believes in. It is handed on exactly
      when this card is master of its group and the partner group has one. */
  lemma NoBounce(hw: Hardware, c: Card, masters: seq<nat>, slot: int)
    requires CardOk(hw, c) && Fabric(c.us) && MastersOf(c, masters) && 0 <= slot <= 7
    ensures var g, r := GroupOf(c.us), Route(masters, c.us, slot);
            && (r.Local? <==> Handles(c.us, slot))
            && (r.Forward? <==> !Handles(c.us, slot) && masters[g] == c.us && masters[Partner(g)] != 0)
            && (r.Forward? ==> r.to == masters[Partner(g)] && SamePlane(c.us, r.to) && Live(c.exist, r.to))
            && (r.Forward? ==> forall believed: seq<nat> :: |believed| == GROUPS ==> Route(believed, r.to, slot).Local?)
  {
    PartnerMasterIs(hw, c, masters, 0);
    var p := Partner(GroupOf(c.us));
    if masters[p] != 0 {
      MasterIsFabric(hw, c, masters, p);
      assert Masters(c.exist, c.rootPort, p, masters[p]);
      if !Handles(c.us, slot) {
        PartnerHandles(c.us, masters[p], slot);
      }
    }
  }

  // ----------------------------------------------------------------- program

  /** What a card does about a request: switch the line card, or send it on. */
  datatype Action = Switch(slot: int, option: int) | Send(to: nat, slot: int, option: int)

  class FabricCard {
    const us: nat
    const exist: array<Entry>
    var rootPort: nat
    const localMaster: array<nat>
    var actions: seq<Action>

    ghost predicate Valid()
      reads this
    {
      1 <= us <= CARDS && exist.Length == CARDS && localMaster.Length == GROUPS
    }

    constructor (us: nat, exist: array<Entry>)
      requires 1 <= us <= CARDS && exist.Length == CARDS
      ensures Valid() && this.us == us && this.exist == exist && fresh(localMaster)
      ensures localMaster[..] == [0, 0, 0, 0] && actions == []
    {
      this.us, this.exist, rootPort, actions := us, exist, 0, [];
      localMaster := new nat[GROUPS](_ => 0);
    }

    method FindMaster(i: nat) returns (m: nat)
      requires Valid() && i < GROUPS
      ensures Masters(exist[..], rootPort, i, m)
    {
      m := 0;
      var j := i * 4 + 33;
      while j < 33 + (i + 1) * 4
        invariant FirstOfGroup(i) <= j <= FirstOfGroup(i) + 4
        invariant IsMaster(exist[..], rootPort, i, j, m)
      {
        if exist[j - 1].age > 0 {
          if rootPort == j {
            m := j;
          } else if m == 0 || j < m {
            m := j;
          }
        }
        j := j + 1;
      }
    }

    /** Recomputes the masters; 1 if this card is one of them. */
    method CheckMasterFc() returns (ret: int)
      requires Valid()
      modifies localMaster
      ensures us <= LINE_CARDS ==> ret == 0 && localMaster[..] == old(localMaster[..])
      ensures us > LINE_CARDS ==> forall i :: 0 <= i < GROUPS ==> Masters(exist[..], rootPort, i, localMaster[i])
      ensures us > LINE_CARDS ==> ret == if us in localMaster[..] then 1 else 0
    {
      if 1 <= us <= 32 {
        return 0;
      }
      for i := 0 to GROUPS
        invariant forall k :: 0 <= k < i ==> Masters(exist[..], rootPort, k, localMaster[k])
      {
        localMaster[i] := FindMaster(i);
      }
      for i := 0 to GROUPS
        invariant us !in localMaster[..i]
      {
        if us == localMaster[i] {
          return 1;
        }
      }
      assert localMaster[..GROUPS] == localMaster[..];
      return 0;
    }

    /** `sent` is what sending the request to the partner returns. */
    method ShutdownToClient(slot: int, option: int, sent: int) returns (ret: int)
      requires Valid()
      modifies `actions
      ensures var to := PartnerMaster(localMaster[..], us, 0);
              && ret == (if to != 0 then sent else -1)
              && actions == old(actions) + if to != 0 then [Send(to, slot, option)] else []
    {
      var to := 0;
      var i := 0;
      while i < GROUPS
        invariant 0 <= i <= GROUPS && to == 0
        invariant PartnerMaster(localMaster[..], us, i) == PartnerMaster(localMaster[..], us, 0)
      {
        if us == localMaster[i] {
          if i == 0 {
            to := localMaster[1];
          } else if i == 1 {
            to := localMaster[0];
          } else if i == 2 {
            to := localMaster[3];
          } else {
            to := localMaster[2];
          }
          break;
        }
        i := i + 1;
      }
      if to == 0 {
        return -1;
      }
      actions := actions + [Send(to, slot, option)];
      return sent;
    }

    /** `written` is what the write to the device returns. */
    method PowerLinecard(slot: int, option: int, written: int) returns (ret: int)
      modifies `actions
      ensures ret == if 0 <= slot <= 7 then written else -22
      ensures actions == old(actions) + if 0 <= slot <= 7 then [Switch(slot, option)] else []
    {
      if slot < 0 || slot > 7 {
        return -EINVAL;
      }
      actions := actions + [Switch(slot, option)];
      return written;
    }

    /** A request to switch a line card, from the network. */
    method ShutdownLinecard(slot: int, option: int, sent: int, written: int) returns (ret: int)
      requires Valid()
      modifies `actions
      ensures match Route(localMaster[..], us, slot)
              case Local => ret == written && actions == old(actions) + [Switch(slot, option)]
              case Forward(to) => ret == sent && actions == old(actions) + [Send(to, slot, option)]
              case Refused => ret < 0 && actions == old(actions)
    {
      if us == 33 || us == 35 || us == 41 || us == 43 {
        if slot > 3 {
          ret := ShutdownToClient(slot, option, sent);
        } else {
          ret := PowerLinecard(slot, option, written);
        }
      } else if us == 37 || us == 39 || us == 45 || us == 47 {
        if slot < 4 {
          ret := ShutdownToClient(slot, option, sent);
        } else {
          ret := PowerLinecard(slot, option, written);
        }
      } else {
        ret := -1;
      }
    }
  }
}
