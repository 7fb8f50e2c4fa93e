/**
 The shutdown manager of a fabric card: 72 temperature sensors are polled
 every three seconds, overheated cards are switched off, and sensors that
 cannot be read escalate to switching off first the other cards, then itself.
 */
module Thermal {
  import opened Sequences

  const NUM_OF_THERMAL := 72
  const NUM_OF_LC := 8
  const NUM_OF_FC := 2
  const UPDATE_INTERVAL := 3000
  const IOERR_SHUTDOWN_THRESHOLD := 60000
  const IOERR_RETRY_COUNT := 2
  /** The failures in a row that make up the threshold. */
  const LAST_RETRY := 20

  /** One read of a sensor. A sensor whose fan board is absent is not an error. */
  datatype Reading = Absent | Failed | Ok(temp: int, shutdown: int)

  type Readings = r: seq<Reading> | |r| == NUM_OF_THERMAL + 1 witness seq(NUM_OF_THERMAL + 1, _ => Absent)

  /** What one poll finds: the card's own slot cannot be read, or its number and
      a reading of every sensor; reading 0 is not used. */
  datatype Poll = NoSlot | Poll(slot: int, readings: Readings)

  datatype Command =
    | LocalLcOff(lc: nat) | RemoteLcOff(lc: nat) | FcOff(fc: nat)
    | ResetMac(fc: nat, mac: nat) | ResetCpuB(fc: nat)

  type PerSensor = s: seq<int> | |s| == NUM_OF_THERMAL + 1 witness seq(NUM_OF_THERMAL + 1, _ => 0)

  type Counters = s: seq<nat> | |s| == NUM_OF_THERMAL + 1 witness seq(NUM_OF_THERMAL + 1, _ => 0)

  datatype Data = Data(slot: int, temp: PerSensor, limit: PerSensor, errors: Counters)

  predicate ValidFc(slot: int) {
    0 <= slot <= 3
  }

  // ---------------------------------------------------------------- sensors

  predicate IsLcThermal(tid: int) {
    1 <= tid <= 24 || 37 <= tid <= 60
  }

  /** The card a sensor sits on: a line card 0..7 or a fabric card 0..1. */
  function SlotOf(tid: int): int {
    if 1 <= tid <= 6 then 0
    else if 7 <= tid <= 12 then 1
    else if 13 <= tid <= 18 then 2
    else if 19 <= tid <= 24 then 3
    else if 37 <= tid <= 42 then 4
    else if 43 <= tid <= 48 then 5
    else if 49 <= tid <= 54 then 6
    else if 55 <= tid <= 60 then 7
    else if 25 <= tid <= 30 || 61 <= tid <= 66 then 0
    else if 31 <= tid <= 36 || 67 <= tid <= 72 then 1
    else -1
  }

  /** Some sensor below n on this card reads above its shutdown limit. */
  predicate Hot(d: Data, lc: bool, card: nat, n: nat)
    requires n <= NUM_OF_THERMAL + 1
  {
    exists tid :: 1 <= tid < n && IsLcThermal(tid) == lc && SlotOf(tid) == card && d.temp[tid] > d.limit[tid]
  }

  predicate LcHot(d: Data, lc: nat) {
    Hot(d, true, lc, NUM_OF_THERMAL + 1)
  }

  /** fc is 0 or 1, within the pair of fabric cards of this side. */
  predicate FcHot(d: Data, fc: nat) {
    Hot(d, false, fc, NUM_OF_THERMAL + 1)
  }

  // --------------------------------------------------------------- commands

  /** Line cards 0..3 hang on fabric cards 0 and 1, line cards 4..7 on 2 and 3;
      the other half is reached through the network. */
  function LinecardOff(slot: int, lc: nat): seq<Command> {
    if !ValidFc(slot) || lc > 7 then []
    else if (lc <= 3) == (slot <= 1) then [LocalLcOff(lc)]
    else [RemoteLcOff(lc)]
  }

  function LinecardsOff(slot: int, hot: seq<bool>, i: nat): seq<Command>
    requires i <= |hot|
    decreases |hot| - i
  {
    if i == |hot| then []
    else (if hot[i] then LinecardOff(slot, i) else []) + LinecardsOff(slot, hot, i + 1)
  }

  /** The remainder of the slot number as the program takes it, toward zero. */
  function OwnIndex(slot: int): int {
    if slot >= 0 then slot % 2 else -((-slot) % 2)
  }

  /** The slot of fabric card i of the pair that holds this card. */
  function PairSlot(slot: int, i: nat): nat {
    if slot > 1 then i + 2 else i
  }

  /** Switching off fabric card i of the pair, if it is hot and is (not) the own one. */
  function FabricOff(slot: int, hot: seq<bool>, own: bool, i: nat): seq<Command>
    requires i < |hot|
  {
    if (i == OwnIndex(slot)) == own && hot[i] then [FcOff(PairSlot(slot, i))] else []
  }

  function LcHots(d: Data): (h: seq<bool>)
    ensures |h| == NUM_OF_LC
  {
    seq(NUM_OF_LC, i requires 0 <= i < NUM_OF_LC => LcHot(d, i))
  }

  function FcHots(d: Data): (h: seq<bool>)
    ensures |h| == NUM_OF_FC
  {
    seq(NUM_OF_FC, i requires 0 <= i < NUM_OF_FC => FcHot(d, i))
  }

  function OverheatPass(d: Data): seq<Command> {
    LinecardsOff(d.slot, LcHots(d), 0)
    + FabricOff(d.slot, FcHots(d), false, 0) + FabricOff(d.slot, FcHots(d), false, 1)
    + FabricOff(d.slot, FcHots(d), true, 0) + FabricOff(d.slot, FcHots(d), true, 1)
  }

  predicate RetriesSpent(d: Data, n: nat)
    requires n <= NUM_OF_THERMAL + 1
  {
    exists tid :: 1 <= tid < n && d.errors[tid] == IOERR_RETRY_COUNT
  }

  /** The value of x in a 32-bit integer that wraps around. */
  function Int32(x: int): int {
    (x + 0x8000_0000) % 0x1_0000_0000 - 0x8000_0000
  }

  /** After n failures in a row the card switches itself off. */
  predicate Overdue(n: nat) {
    n > IOERR_RETRY_COUNT && Int32(n * UPDATE_INTERVAL) >= IOERR_SHUTDOWN_THRESHOLD
  }

  predicate TimeSpent(d: Data, n: nat)
    requires n <= NUM_OF_THERMAL + 1
  {
    exists tid :: 1 <= tid < n && Overdue(d.errors[tid])
  }

  function AllLcs(): seq<bool> {
    [true, true, true, true, true, true, true, true]
  }

  function BothFcs(): seq<bool> {
    [true, true]
  }

  function OthersOff(slot: int): seq<Command> {
    LinecardsOff(slot, AllLcs(), 0) + FabricOff(slot, BothFcs(), false, 0) + FabricOff(slot, BothFcs(), false, 1)
  }

  function ResetSelf(slot: int): seq<Command> {
    if ValidFc(slot) then [ResetMac(slot, 0), ResetMac(slot, 1), ResetCpuB(slot)] else []
  }

  function SelfOff(slot: int): seq<Command> {
    if ValidFc(slot) then [FcOff(slot)] else []
  }

  function IoErrorPass(d: Data): seq<Command> {
    (if RetriesSpent(d, NUM_OF_THERMAL + 1) then OthersOff(d.slot) + ResetSelf(d.slot) else [])
    + (if TimeSpent(d, NUM_OF_THERMAL + 1) then SelfOff(d.slot) else [])
  }

  // ------------------------------------------------------------------ polls

  function Temps(first: int, r: Readings): PerSensor {
    seq(NUM_OF_THERMAL + 1, i requires 0 <= i <= NUM_OF_THERMAL => if i > 0 then Temp(r[i]) else first)
  }

  function Limits(first: int, r: Readings): PerSensor {
    seq(NUM_OF_THERMAL + 1, i requires 0 <= i <= NUM_OF_THERMAL => if i > 0 then Limit(r[i]) else first)
  }

  function Counts(errors: Counters, r: Readings): Counters {
    seq(NUM_OF_THERMAL + 1, i requires 0 <= i <= NUM_OF_THERMAL =>
      if i > 0 then Counted(errors[i], r[i]) else errors[i])
  }

  /** All sensors read; entry 0 of each array is not used. */
  function Taken(d: Data, r: Readings): Data {
    Data(d.slot, Temps(d.temp[0], r), Limits(d.limit[0], r), Counts(d.errors, r))
  }

  /** A read that fails leaves both the temperature and its limit at zero. */
  function Temp(r: Reading): int {
    if r.Ok? then r.temp else 0
  }

  function Limit(r: Reading): int {
    if r.Ok? then r.shutdown else 0
  }

  function Counted(errors: nat, r: Reading): nat {
    match r
    case Absent => errors
    case Failed => errors + 1
    case Ok(_, _) => 0
  }

  function AfterPoll(d: Data, p: Poll): Data {
    if p.NoSlot? then d else Taken(Data(p.slot, d.temp, d.limit, d.errors), p.readings)
  }

  function Commands(d: Data, p: Poll): seq<Command> {
    if p.NoSlot? then [] else OverheatPass(AfterPoll(d, p)) + IoErrorPass(AfterPoll(d, p))
  }

  function Initial(): Data {
    Data(0, seq(NUM_OF_THERMAL + 1, _ => 0), seq(NUM_OF_THERMAL + 1, _ => 0), seq(NUM_OF_THERMAL + 1, _ => 0))
  }

  function After(polls: seq<Poll>): Data {
    if polls == [] then Initial() else AfterPoll(After(polls[..|polls| - 1]), polls[|polls| - 1])
  }

  // ---------------------------------------------------------------- program

  class Manager {
    var slot: int
    const temp: array<int>
    const limit: array<int>
    const absent: array<bool>
    const errors: array<nat>
    /** What was written to the devices, in order. */
    var commands: seq<Command>

    ghost predicate Valid()
      reads this
    {
      && temp.Length == limit.Length == absent.Length == errors.Length == NUM_OF_THERMAL + 1
      && temp != limit
    }

    ghost function View(): Data
      requires Valid()
      reads this, temp, limit, errors
    {
      Data(slot, temp[..], limit[..], errors[..])
    }

    constructor ()
      ensures Valid() && View() == Initial() && commands == []
      ensures fresh(temp) && fresh(limit) && fresh(absent) && fresh(errors)
    {
      slot, commands := 0, [];
      temp := new int[NUM_OF_THERMAL + 1](_ => 0);
      limit := new int[NUM_OF_THERMAL + 1](_ => 0);
      absent := new bool[NUM_OF_THERMAL + 1](_ => false);
      errors := new nat[NUM_OF_THERMAL + 1](_ => 0);
    }

    method ReadOne(i: nat, r: Reading)
      requires Valid() && 1 <= i <= NUM_OF_THERMAL
      modifies temp, limit, absent, errors
      ensures Valid()
      ensures temp[..] == old(temp[..])[i := Temp(r)] && limit[..] == old(limit[..])[i := Limit(r)]
      ensures errors[..] == old(errors[..])[i := Counted(old(errors[i]), r)]
    {
      temp[i], limit[i] := 0, 0;
      match r {
        case Absent =>
          absent[i] := true;
        case Failed =>
          errors[i] := errors[i] + 1;
        case Ok(t, s) =>
          temp[i], limit[i] := t, s;
          errors[i] := 0;
      }
    }

    method GetThermalStatus(r: Readings)
      requires Valid()
      modifies temp, limit, absent, errors
      ensures Valid() && View() == Taken(old(View()), r)
    {
      var i := 1;
      while i < NUM_OF_THERMAL + 1
        invariant 1 <= i <= NUM_OF_THERMAL + 1
        invariant forall k :: 0 <= k <= NUM_OF_THERMAL ==>
                    && temp[..][k] == (if 1 <= k < i then Temp(r[k]) else old(temp[..])[k])
                    && limit[..][k] == (if 1 <= k < i then Limit(r[k]) else old(limit[..])[k])
                    && errors[..][k] == (if 1 <= k < i then Counted(old(errors[..])[k], r[k]) else old(errors[..])[k])
      {
        ReadOne(i, r[i]);
        i := i + 1;
      }
      assert temp[..] == Temps(old(temp[0]), r);
      assert limit[..] == Limits(old(limit[0]), r);
      assert errors[..] == Counts(old(errors[..]), r);
    }

    /** The overheated cards, collected sensor by sensor. */
    method CollectHot() returns (lcs: seq<bool>, fcs: seq<bool>)
      requires Valid()
      ensures lcs == LcHots(View()) && fcs == FcHots(View())
    {
      lcs := seq(NUM_OF_LC, _ => false);
      fcs := seq(NUM_OF_FC, _ => false);
      var i := 1;
      while i < NUM_OF_THERMAL + 1
        invariant 1 <= i <= NUM_OF_THERMAL + 1 && |lcs| == NUM_OF_LC && |fcs| == NUM_OF_FC
        invariant forall k :: 0 <= k < NUM_OF_LC ==> lcs[k] == Hot(View(), true, k, i)
        invariant forall k :: 0 <= k < NUM_OF_FC ==> fcs[k] == Hot(View(), false, k, i)
      {
        if temp[i] > limit[i] {
          if IsLcThermal(i) {
            lcs := lcs[SlotOf(i) := true];
          } else {
            fcs := fcs[SlotOf(i) := true];
          }
        }
        i := i + 1;
      }
    }

    method ShutdownLinecard(lc: nat)
      modifies `commands
      ensures commands == old(commands) + LinecardOff(slot, lc)
    {
      if slot < 0 || slot > 3 {
        return;
      }
      if lc > 7 {
        return;
      }
      if lc <= 3 {
        commands := commands + [if slot <= 1 then LocalLcOff(lc) else RemoteLcOff(lc)];
      } else {
        commands := commands + [if slot <= 1 then RemoteLcOff(lc) else LocalLcOff(lc)];
      }
    }

    method ShutdownLinecards(hot: seq<bool>)
      modifies `commands
      ensures commands == old(commands) + LinecardsOff(slot, hot, 0)
    {
      var i := 0;
      while i < |hot|
        invariant 0 <= i <= |hot|
        invariant commands + LinecardsOff(slot, hot, i) == old(commands) + LinecardsOff(slot, hot, 0)
      {
        ghost var c := commands;
        if hot[i] {
          ShutdownLinecard(i);
        }
        assert commands + LinecardsOff(slot, hot, i + 1) == c + LinecardsOff(slot, hot, i);
        i := i + 1;
      }
    }

    /** Goes over the pair of fabric cards, taking only the own or only the other. */
    method ShutdownFabriccards(hot: seq<bool>, own: bool)
      requires |hot| == NUM_OF_FC
      modifies `commands
      ensures commands == old(commands) + FabricOff(slot, hot, own, 0) + FabricOff(slot, hot, own, 1)
    {
      for i := 0 to NUM_OF_FC
        invariant i == 0 ==> commands == old(commands)
        invariant i == 1 ==> commands == old(commands) + FabricOff(slot, hot, own, 0)
        invariant i == 2 ==> commands == old(commands) + FabricOff(slot, hot, own, 0) + FabricOff(slot, hot, own, 1)
      {
        if (i == OwnIndex(slot)) == own && hot[i] {
          commands := commands + [FcOff(PairSlot(slot, i))];
        }
      }
    }

    method HandleShutdown()
      requires Valid()
      modifies `commands
      ensures Valid() && View() == old(View()) && commands == old(commands) + OverheatPass(View())
    {
      var lcs, fcs := CollectHot();
      ShutdownLinecards(lcs);
      ShutdownFabriccards(fcs, false);
      ShutdownFabriccards(fcs, true);
    }

    method CheckErrors() returns (others: bool, itself: bool)
      requires Valid()
      ensures others == RetriesSpent(View(), NUM_OF_THERMAL + 1) && itself == TimeSpent(View(), NUM_OF_THERMAL + 1)
    {
      others, itself := false, false;
      var i := 1;
      while i < NUM_OF_THERMAL + 1
        invariant 1 <= i <= NUM_OF_THERMAL + 1
        invariant others == RetriesSpent(View(), i) && itself == TimeSpent(View(), i)
      {
        if errors[i] >= IOERR_RETRY_COUNT {
          if errors[i] == IOERR_RETRY_COUNT {
            others := true;
          } else if Int32(errors[i] * UPDATE_INTERVAL) >= IOERR_SHUTDOWN_THRESHOLD {
            itself := true;
          }
        }
        i := i + 1;
      }
    }

    method ResetOwn()
      modifies `commands
      ensures commands == old(commands) + ResetSelf(slot)
    {
      if ValidFc(slot) {
        commands := commands + [ResetMac(slot, 0), ResetMac(slot, 1), ResetCpuB(slot)];
      }
    }

    method ShutdownOwn()
      modifies `commands
      ensures commands == old(commands) + SelfOff(slot)
    {
      if ValidFc(slot) {
        commands := commands + [FcOff(slot)];
      }
    }

    method HandleThermalIoError()
      requires Valid()
      modifies `commands
      ensures Valid() && View() == old(View()) && commands == old(commands) + IoErrorPass(View())
    {
      var others, itself := CheckErrors();
      if others {
        ShutdownOthers();
      }
      ghost var first := if others then OthersOff(slot) + ResetSelf(slot) else [];
      assert commands == old(commands) + first;
      if itself {
        ShutdownOwn();
      }
      Regroup(old(commands), first, if itself then SelfOff(slot) else []);
    }

    /** All line cards, the neighbour, and a reset of the own switch chips. */
    method ShutdownOthers()
      modifies `commands
      ensures commands == old(commands) + (OthersOff(slot) + ResetSelf(slot))
    {
      ShutdownLinecards(AllLcs());
      ghost var lcs := commands;
      ShutdownFabriccards(BothFcs(), false);
      assert commands == old(commands) + OthersOff(slot) by {
        var a, b := FabricOff(slot, BothFcs(), false, 0), FabricOff(slot, BothFcs(), false, 1);
        assert commands == lcs + a + b;
        Regroup(old(commands), LinecardsOff(slot, AllLcs(), 0), a);
        Regroup(old(commands), LinecardsOff(slot, AllLcs(), 0) + a, b);
      }
      ResetOwn();
      Regroup(old(commands), OthersOff(slot), ResetSelf(slot));
    }

    method HandleBoth()
      requires Valid()
      modifies `commands
      ensures Valid() && View() == old(View())
      ensures commands == old(commands) + (OverheatPass(View()) + IoErrorPass(View()))
    {
      HandleShutdown();
      HandleThermalIoError();
      Regroup(old(commands), OverheatPass(View()), IoErrorPass(View()));
    }

    method Run(p: Poll)
      requires Valid()
      modifies this, temp, limit, absent, errors
      ensures Valid() && View() == AfterPoll(old(View()), p)
      ensures commands == old(commands) + Commands(old(View()), p)
    {
      if p.NoSlot? {
        return;
      }
      slot := p.slot;
      GetThermalStatus(p.readings);
      assert View() == AfterPoll(old(View()), p);
      HandleBoth();
    }
  }
}
