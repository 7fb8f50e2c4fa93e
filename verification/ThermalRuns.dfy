/** What the shutdown manager promises over whole runs of polls. */
module ThermalRuns {
  import opened Sequences
  import opened Thermal

  // ---------------------------------------------------------- overheat pass

  function TheLcOff(slot: nat, lc: nat): Command {
    if (lc <= 3) == (slot <= 1) then LocalLcOff(lc) else RemoteLcOff(lc)
  }

  /** The card a command switches off, in the order the pass goes: line cards
      by number, then the other fabric card of the pair, then the own one. */
  function Rank(slot: nat, c: Command): nat {
    match c
    case LocalLcOff(lc) => lc
    case RemoteLcOff(lc) => lc
    case FcOff(fc) => if fc == slot then 9 else 8
    case _ => 10
  }

  predicate Ascending(slot: nat, c: seq<Command>) {
    forall i, j :: 0 <= i < j < |c| ==> Rank(slot, c[i]) < Rank(slot, c[j])
  }

  predicate Within(slot: nat, c: seq<Command>, low: nat, high: nat) {
    forall i :: 0 <= i < |c| ==> low <= Rank(slot, c[i]) < high
  }

  lemma Join(slot: nat, a: seq<Command>, b: seq<Command>, low: nat, mid: nat, high: nat)
    requires Ascending(slot, a) && Ascending(slot, b) && low <= mid <= high
    requires Within(slot, a, low, mid) && Within(slot, b, mid, high)
    ensures Ascending(slot, a + b) && Within(slot, a + b, low, high)
  {
  }

  predicate LcDue(slot: nat, hot: seq<bool>, i: nat, x: Command)
    requires |hot| == NUM_OF_LC
  {
    exists k :: i <= k < NUM_OF_LC && hot[k] && x == TheLcOff(slot, k)
  }

  lemma LcDueStep(slot: nat, hot: seq<bool>, i: nat, x: Command)
    requires |hot| == NUM_OF_LC && i < NUM_OF_LC
    ensures LcDue(slot, hot, i, x) <==> (hot[i] && x == TheLcOff(slot, i)) || LcDue(slot, hot, i + 1, x)
  {
  }

  lemma {:induction false} LinecardsExact(slot: nat, hot: seq<bool>, i: nat)
    requires ValidFc(slot) && i <= |hot| == NUM_OF_LC
    ensures var c := LinecardsOff(slot, hot, i);
            && (forall x :: x in c <==> LcDue(slot, hot, i, x))
            && Ascending(slot, c) && Within(slot, c, i, NUM_OF_LC)
    decreases |hot| - i
  {
    if i < |hot| {
      LinecardsExact(slot, hot, i + 1);
      var a, b := if hot[i] then [TheLcOff(slot, i)] else [], LinecardsOff(slot, hot, i + 1);
      assert LinecardsOff(slot, hot, i) == a + b;
      Join(slot, a, b, i, i + 1, NUM_OF_LC);
      hide Ascending, Within, LcDue;
      forall x
        ensures x in a + b <==> LcDue(slot, hot, i, x)
      {
        LcDueStep(slot, hot, i, x);
      }
    }
  }

  function Neighbour(slot: nat): nat
    requires ValidFc(slot)
  {
    if slot % 2 == 0 then slot + 1 else slot - 1
  }

  /** The two rounds over the pair: first the neighbour, then the card itself. */
  lemma FabricExact(slot: nat, hot: seq<bool>)
    requires ValidFc(slot) && |hot| == NUM_OF_FC
    ensures FabricOff(slot, hot, false, 0) + FabricOff(slot, hot, false, 1)
         == (if hot[1 - slot % 2] then [FcOff(Neighbour(slot))] else [])
    ensures FabricOff(slot, hot, true, 0) + FabricOff(slot, hot, true, 1)
         == (if hot[slot % 2] then [FcOff(slot)] else [])
  {
  }

  /** Some card is commanded off because it is hot. */
  predicate Due(d: Data, x: Command)
    requires ValidFc(d.slot)
  {
    || (exists lc :: 0 <= lc < NUM_OF_LC && LcHot(d, lc) && x == TheLcOff(d.slot, lc))
    || (FcHot(d, 1 - d.slot % 2) && x == FcOff(Neighbour(d.slot)))
    || (FcHot(d, d.slot % 2) && x == FcOff(d.slot))
  }

  /** The pass commands exactly the overheated cards, each once, line cards
      first and its own card last. */
  lemma OverheatExact(d: Data)
    requires ValidFc(d.slot)
    ensures forall x :: x in OverheatPass(d) <==> Due(d, x)
    ensures Ascending(d.slot, OverheatPass(d)) && Within(d.slot, OverheatPass(d), 0, 10)
  {
    PassParts(d);
    PartsExact(d.slot, LcHots(d), FcHots(d));
    forall x
      ensures Due(d, x) <==> HotDue(d.slot, LcHots(d), FcHots(d), x)
    {
      SameDue(d, x);
    }
  }

  predicate HotDue(slot: nat, lcs: seq<bool>, fcs: seq<bool>, x: Command)
    requires ValidFc(slot) && |lcs| == NUM_OF_LC && |fcs| == NUM_OF_FC
  {
    || LcDue(slot, lcs, 0, x)
    || (fcs[1 - slot % 2] && x == FcOff(Neighbour(slot)))
    || (fcs[slot % 2] && x == FcOff(slot))
  }

  lemma SameDue(d: Data, x: Command)
    requires ValidFc(d.slot)
    ensures Due(d, x) <==> HotDue(d.slot, LcHots(d), FcHots(d), x)
  {
    if lc :| 0 <= lc < NUM_OF_LC && LcHot(d, lc) && x == TheLcOff(d.slot, lc) {
      assert LcHots(d)[lc];
    }
  }

  lemma PartsExact(s: nat, lcs: seq<bool>, fcs: seq<bool>)
    requires ValidFc(s) && |lcs| == NUM_OF_LC && |fcs| == NUM_OF_FC
    ensures var all := LinecardsOff(s, lcs, 0)
                       + (FabricOff(s, fcs, false, 0) + FabricOff(s, fcs, false, 1))
                       + (FabricOff(s, fcs, true, 0) + FabricOff(s, fcs, true, 1));
            && (forall x :: x in all <==> HotDue(s, lcs, fcs, x))
            && Ascending(s, all) && Within(s, all, 0, 10)
  {
    LinecardsExact(s, lcs, 0);
    FabricExact(s, fcs);
    var a := LinecardsOff(s, lcs, 0);
    FewExact(s, a, fcs[1 - s % 2], fcs[s % 2]);
  }

  lemma FewExact(s: nat, a: seq<Command>, neighbour: bool, own: bool)
    requires ValidFc(s) && Ascending(s, a) && Within(s, a, 0, NUM_OF_LC)
    ensures var all := a + (if neighbour then [FcOff(Neighbour(s))] else []) + (if own then [FcOff(s)] else []);
            && (forall x :: x in all <==>
                              x in a || (neighbour && x == FcOff(Neighbour(s))) || (own && x == FcOff(s)))
            && Ascending(s, all) && Within(s, all, 0, 10)
  {
    var b := if neighbour then [FcOff(Neighbour(s))] else [];
    var c := if own then [FcOff(s)] else [];
    Join(s, a, b, 0, 8, 9);
    Join(s, a + b, c, 0, 9, 10);
  }

  lemma PassParts(d: Data)
    ensures OverheatPass(d)
         == LinecardsOff(d.slot, LcHots(d), 0)
            + (FabricOff(d.slot, FcHots(d), false, 0) + FabricOff(d.slot, FcHots(d), false, 1))
            + (FabricOff(d.slot, FcHots(d), true, 0) + FabricOff(d.slot, FcHots(d), true, 1))
  {
  }

  /** Only a successful reading above its limit makes a card hot; one that
      failed, or whose fan board is absent, never does. */
  lemma HotIffRead(d: Data, r: Readings, lc: bool, card: nat)
    ensures Hot(Taken(d, r), lc, card, NUM_OF_THERMAL + 1)
       <==> exists tid :: 1 <= tid <= NUM_OF_THERMAL && IsLcThermal(tid) == lc && SlotOf(tid) == card
                          && r[tid].Ok? && r[tid].temp > r[tid].shutdown
  {
    var e := Taken(d, r);
    forall tid | 1 <= tid <= NUM_OF_THERMAL
      ensures e.temp[tid] > e.limit[tid] <==> r[tid].Ok? && r[tid].temp > r[tid].shutdown
    {
    }
  }

  // ---------------------------------------------------------- sensor layout

  /** The first of the six sensors of each line card, and the first of each of the
      two blocks of six that a fabric card of the pair has. */
  const LC_SENSORS: seq<nat> := [1, 7, 13, 19, 37, 43, 49, 55]
  const FC_SENSORS: seq<nat> := [25, 31]
  const FC_MORE_SENSORS: seq<nat> := [61, 67]

  /** One of the six sensors from the first on reads above its limit. */
  predicate BlockHot(r: Readings, first: nat)
    requires 1 <= first <= 67
  {
    exists tid :: first <= tid <= first + 5 && r[tid].Ok? && r[tid].temp > r[tid].shutdown
  }

  /** By the layout: which cards a poll finds overheated. */
  lemma HotByLayout(d: Data, r: Readings)
    ensures forall lc :: 0 <= lc < 8 ==> (LcHot(Taken(d, r), lc) <==> BlockHot(r, LC_SENSORS[lc]))
    ensures forall fc :: 0 <= fc < 2 ==>
              (FcHot(Taken(d, r), fc) <==> BlockHot(r, FC_SENSORS[fc]) || BlockHot(r, FC_MORE_SENSORS[fc]))
  {
    forall lc | 0 <= lc < 8
      ensures LcHot(Taken(d, r), lc) <==> BlockHot(r, LC_SENSORS[lc])
    {
      HotIffRead(d, r, true, lc);
      LcBlock(lc);
    }
    forall fc | 0 <= fc < 2
      ensures FcHot(Taken(d, r), fc) <==> BlockHot(r, FC_SENSORS[fc]) || BlockHot(r, FC_MORE_SENSORS[fc])
    {
      HotIffRead(d, r, false, fc);
      FcBlocks(fc);
    }
  }

  lemma LcBlock(lc: nat)
    requires lc < 8
    ensures forall tid :: 1 <= tid <= 72 ==>
              (IsLcThermal(tid) && SlotOf(tid) == lc <==> LC_SENSORS[lc] <= tid <= LC_SENSORS[lc] + 5)
  {
  }

  lemma FcBlocks(fc: nat)
    requires fc < 2
    ensures forall tid :: 1 <= tid <= 72 ==>
              (!IsLcThermal(tid) && SlotOf(tid) == fc <==>
               FC_SENSORS[fc] <= tid <= FC_SENSORS[fc] + 5 || FC_MORE_SENSORS[fc] <= tid <= FC_MORE_SENSORS[fc] + 5)
  {
  }

  // ---------------------------------------------------------------- streaks

  predicate Fails(p: Poll, tid: nat)
    requires 1 <= tid <= NUM_OF_THERMAL
  {
    p.Poll? && p.readings[tid].Failed?
  }

  predicate Succeeds(p: Poll, tid: nat)
    requires 1 <= tid <= NUM_OF_THERMAL
  {
    p.Poll? && p.readings[tid].Ok?
  }

  /** How often sensor tid failed in the polls from the m-th on. */
  function Failures(polls: seq<Poll>, m: nat, tid: nat): nat
    requires m <= |polls| && 1 <= tid <= NUM_OF_THERMAL
    decreases |polls|
  {
    if m == |polls| then 0
    else Failures(polls[..|polls| - 1], m, tid) + (if Fails(polls[|polls| - 1], tid) then 1 else 0)
  }

  predicate NoSuccess(polls: seq<Poll>, m: nat, tid: nat)
    requires m <= |polls| && 1 <= tid <= NUM_OF_THERMAL
  {
    forall k :: m <= k < |polls| ==> !Succeeds(polls[k], tid)
  }

  /** Sensor tid failed n times with no success between. */
  predicate FailedInARow(polls: seq<Poll>, tid: nat, n: nat)
    requires 1 <= tid <= NUM_OF_THERMAL
  {
    exists m :: 0 <= m <= |polls| && NoSuccess(polls, m, tid) && Failures(polls, m, tid) >= n
  }

  lemma CounterStep(polls: seq<Poll>, tid: nat)
    requires polls != [] && 1 <= tid <= NUM_OF_THERMAL
    ensures var n := |polls| - 1;
            After(polls).errors[tid] ==
            (if Succeeds(polls[n], tid) then 0
             else After(polls[..n]).errors[tid] + (if Fails(polls[n], tid) then 1 else 0))
  {
  }

  lemma {:induction false} CounterAtLeast(polls: seq<Poll>, m: nat, tid: nat)
    requires 1 <= tid <= NUM_OF_THERMAL && m <= |polls| && NoSuccess(polls, m, tid)
    ensures After(polls).errors[tid] >= Failures(polls, m, tid)
    decreases |polls|
  {
    if m < |polls| {
      CounterStep(polls, tid);
      CounterAtLeast(polls[..|polls| - 1], m, tid);
    }
  }

  lemma {:induction false} CounterReached(polls: seq<Poll>, tid: nat) returns (m: nat)
    requires 1 <= tid <= NUM_OF_THERMAL
    ensures m <= |polls| && NoSuccess(polls, m, tid) && After(polls).errors[tid] == Failures(polls, m, tid)
    decreases |polls|
  {
    if polls == [] {
      m := 0;
    } else {
      CounterStep(polls, tid);
      var n := |polls| - 1;
      m := CounterReached(polls[..n], tid);
      if Succeeds(polls[n], tid) {
        m := |polls|;
      }
    }
  }

  /** The counter is the number of failures since the last success. */
  lemma CounterIsStreak(polls: seq<Poll>, tid: nat, n: nat)
    requires 1 <= tid <= NUM_OF_THERMAL
    ensures After(polls).errors[tid] >= n <==> FailedInARow(polls, tid, n)
  {
    var m := CounterReached(polls, tid);
    if k :| 0 <= k <= |polls| && NoSuccess(polls, k, tid) && Failures(polls, k, tid) >= n {
      CounterAtLeast(polls, k, tid);
    }
  }

  // ------------------------------------------------------------- escalation

  /** Every poll that finds the slot finds the same valid one. */
  predicate FixedSlot(polls: seq<Poll>, s: nat) {
    ValidFc(s) && forall k :: 0 <= k < |polls| && polls[k].Poll? ==> polls[k].slot == s
  }

  /** What the IO-error pass commanded in the m-th poll of a run. */
  function IoCommands(polls: seq<Poll>, m: nat): seq<Command>
    requires 1 <= m <= |polls|
  {
    if polls[m - 1].NoSlot? then [] else IoErrorPass(After(polls[..m]))
  }

  /** All that was commanded in the m-th poll of a run. */
  function Issued(polls: seq<Poll>, m: nat): seq<Command>
    requires 1 <= m <= |polls|
  {
    Commands(After(polls[..m - 1]), polls[m - 1])
  }

  lemma LastSlot(polls: seq<Poll>, s: nat)
    requires FixedSlot(polls, s) && polls != [] && polls[|polls| - 1].Poll?
    ensures After(polls).slot == s
  {
  }

  /** The two passes make up all commands. */
  lemma RunCommands(polls: seq<Poll>, m: nat)
    requires 1 <= m <= |polls| && polls[m - 1].Poll?
    ensures Issued(polls, m) == OverheatPass(After(polls[..m])) + IoCommands(polls, m)
  {
    assert polls[..m][..m - 1] == polls[..m - 1];
  }

  lemma OthersExact(slot: nat)
    requires ValidFc(slot)
    ensures forall lc :: 0 <= lc < NUM_OF_LC ==> TheLcOff(slot, lc) in OthersOff(slot)
    ensures FcOff(Neighbour(slot)) in OthersOff(slot) && FcOff(slot) !in OthersOff(slot)
  {
    OthersOf(slot, AllLcs(), BothFcs());
  }

  lemma OthersOf(slot: nat, lcs: seq<bool>, fcs: seq<bool>)
    requires ValidFc(slot) && |lcs| == NUM_OF_LC && |fcs| == NUM_OF_FC
    requires (forall i :: 0 <= i < NUM_OF_LC ==> lcs[i]) && fcs[0] && fcs[1]
    ensures var c := LinecardsOff(slot, lcs, 0) + FabricOff(slot, fcs, false, 0) + FabricOff(slot, fcs, false, 1);
            && (forall lc :: 0 <= lc < NUM_OF_LC ==> TheLcOff(slot, lc) in c)
            && FcOff(Neighbour(slot)) in c && FcOff(slot) !in c
  {
    LinecardsExact(slot, lcs, 0);
    FabricExact(slot, fcs);
    var a := LinecardsOff(slot, lcs, 0);
    Regroup(a, FabricOff(slot, fcs, false, 0), FabricOff(slot, fcs, false, 1));
    forall lc | 0 <= lc < NUM_OF_LC
      ensures TheLcOff(slot, lc) in a
    {
      assert lcs[lc];
    }
  }

  /** In its m-th poll the card commanded all line cards and its neighbour off. */
  predicate OthersCommanded(polls: seq<Poll>, s: nat, m: nat)
    requires 1 <= m <= |polls| && ValidFc(s)
  {
    && (forall lc :: 0 <= lc < NUM_OF_LC ==> TheLcOff(s, lc) in Issued(polls, m))
    && FcOff(Neighbour(s)) in Issued(polls, m)
  }

  /** Fewer than 20 failures are never too many; from 20 on they are, until the
      product with the polling interval no longer fits 32 bits. */
  lemma OverdueRange(n: nat)
    ensures n < LAST_RETRY ==> !Overdue(n)
    ensures LAST_RETRY <= n <= 715827 ==> Overdue(n)
    ensures !Overdue(715828)
  {
  }

  /** Sensor tid has failed exactly n times since its last success. */
  predicate StreakIs(polls: seq<Poll>, tid: nat, n: nat)
    requires 1 <= tid <= NUM_OF_THERMAL
  {
    FailedInARow(polls, tid, n) && !FailedInARow(polls, tid, n + 1)
  }

  lemma StreakIsCounter(polls: seq<Poll>, tid: nat, n: nat)
    requires 1 <= tid <= NUM_OF_THERMAL
    ensures StreakIs(polls, tid, n) <==> After(polls).errors[tid] == n
  {
    CounterIsStreak(polls, tid, n);
    CounterIsStreak(polls, tid, n + 1);
  }

  ghost predicate SomeOverdue(polls: seq<Poll>) {
    exists tid, n :: 1 <= tid <= NUM_OF_THERMAL && StreakIs(polls, tid, n) && Overdue(n)
  }

  lemma SelfOffCommand(d: Data)
    requires ValidFc(d.slot)
    ensures FcOff(d.slot) in IoErrorPass(d) <==> TimeSpent(d, NUM_OF_THERMAL + 1)
  {
    OthersExact(d.slot);
  }

  /** The own card is commanded off for IO errors exactly when some sensor has
      failed too often with no success between. */
  lemma SelfOffIff(polls: seq<Poll>, s: nat)
    requires FixedSlot(polls, s) && polls != [] && polls[|polls| - 1].Poll?
    ensures FcOff(s) in IoCommands(polls, |polls|) <==> SomeOverdue(polls)
  {
    var d := After(polls);
    assert polls[..|polls|] == polls;
    LastSlot(polls, s);
    SelfOffCommand(d);
    OverdueIff(polls);
  }

  /** What the card in each slot does at a second failure, command by command: the
      line cards of its half itself, those of the other half through the network, its
      neighbour, and a reset of its own two switch chips and of its CPU B. A slot
      number that cannot be one switches no line card and resets nothing: of the pair
      of fabric cards it stands for, it takes one or both. */
  function AtSecondFailure(slot: int): seq<Command> {
    LcCommands(slot) + FcCommands(slot)
  }

  function LcCommands(slot: int): seq<Command> {
    if 0 <= slot <= 1 then
      [LocalLcOff(0), LocalLcOff(1), LocalLcOff(2), LocalLcOff(3),
       RemoteLcOff(4), RemoteLcOff(5), RemoteLcOff(6), RemoteLcOff(7)]
    else if 2 <= slot <= 3 then
      [RemoteLcOff(0), RemoteLcOff(1), RemoteLcOff(2), RemoteLcOff(3),
       LocalLcOff(4), LocalLcOff(5), LocalLcOff(6), LocalLcOff(7)]
    else []
  }

  function FcCommands(slot: int): seq<Command> {
    match slot
    case 0 => [FcOff(1), ResetMac(0, 0), ResetMac(0, 1), ResetCpuB(0)]
    case 1 => [FcOff(0), ResetMac(1, 0), ResetMac(1, 1), ResetCpuB(1)]
    case 2 => [FcOff(3), ResetMac(2, 0), ResetMac(2, 1), ResetCpuB(2)]
    case 3 => [FcOff(2), ResetMac(3, 0), ResetMac(3, 1), ResetCpuB(3)]
    case _ => if slot > 3 then [if slot % 2 == 0 then FcOff(3) else FcOff(2)]
              else if slot % 2 == 0 then [FcOff(1)]
              else [FcOff(0), FcOff(1)]
  }

  lemma LinecardsOffAll(slot: int)
    ensures var c := LinecardsOff(slot, AllLcs(), 0);
            c == LinecardOff(slot, 0) + LinecardOff(slot, 1) + LinecardOff(slot, 2) + LinecardOff(slot, 3)
                 + LinecardOff(slot, 4) + LinecardOff(slot, 5) + LinecardOff(slot, 6) + LinecardOff(slot, 7)
  {
    var a := AllLcs();
    assert LinecardsOff(slot, a, 7) == LinecardOff(slot, 7) + LinecardsOff(slot, a, 8);
    assert LinecardsOff(slot, a, 6) == LinecardOff(slot, 6) + LinecardsOff(slot, a, 7);
    assert LinecardsOff(slot, a, 5) == LinecardOff(slot, 5) + LinecardsOff(slot, a, 6);
    assert LinecardsOff(slot, a, 4) == LinecardOff(slot, 4) + LinecardsOff(slot, a, 5);
    assert LinecardsOff(slot, a, 3) == LinecardOff(slot, 3) + LinecardsOff(slot, a, 4);
    assert LinecardsOff(slot, a, 2) == LinecardOff(slot, 2) + LinecardsOff(slot, a, 3);
    assert LinecardsOff(slot, a, 1) == LinecardOff(slot, 1) + LinecardsOff(slot, a, 2);
  }

  lemma LcCommandsAre(slot: int)
    ensures LinecardsOff(slot, AllLcs(), 0) == LcCommands(slot)
  {
    LinecardsOffAll(slot);
    hide LinecardsOff;
  }

  lemma FcCommandsAre(slot: int)
    ensures FabricOff(slot, BothFcs(), false, 0) + FabricOff(slot, BothFcs(), false, 1) + ResetSelf(slot)
         == FcCommands(slot)
  {
  }

  lemma SecondFailureCommands(slot: int)
    ensures OthersOff(slot) + ResetSelf(slot) == AtSecondFailure(slot)
  {
    hide LinecardsOff, FabricOff, ResetSelf, LcCommands, FcCommands, BothFcs, AllLcs;
    LcCommandsAre(slot);
    FcCommandsAre(slot);
  }

  /** Some sensor has failed exactly twice since its last success. */
  ghost predicate SomeSecond(polls: seq<Poll>) {
    exists tid :: 1 <= tid <= 72 && StreakIs(polls, tid, 2)
  }

  lemma SecondIff(polls: seq<Poll>)
    ensures RetriesSpent(After(polls), NUM_OF_THERMAL + 1) <==> SomeSecond(polls)
  {
    var d := After(polls);
    if tid :| 1 <= tid <= NUM_OF_THERMAL && d.errors[tid] == IOERR_RETRY_COUNT {
      StreakIsCounter(polls, tid, 2);
    }
    if tid :| 1 <= tid <= 72 && StreakIs(polls, tid, 2) {
      StreakIsCounter(polls, tid, 2);
      assert d.errors[tid] == IOERR_RETRY_COUNT;
    }
  }

  /** All that the IO-error pass of a poll commands, in order: that of the second
      failure, exactly when a sensor stands at its second, and then the own card,
      exactly when one has failed too often. */
  lemma IoCommandsAre(polls: seq<Poll>)
    requires polls != [] && polls[|polls| - 1].Poll?
    ensures IoCommands(polls, |polls|)
         == (if SomeSecond(polls) then AtSecondFailure(polls[|polls| - 1].slot) else [])
            + (if SomeOverdue(polls) then SelfOff(polls[|polls| - 1].slot) else [])
  {
    var d := After(polls);
    assert polls[..|polls|] == polls && d.slot == polls[|polls| - 1].slot;
    SecondIff(polls);
    OverdueIff(polls);
    SecondFailureCommands(d.slot);
  }

  lemma OverdueIff(polls: seq<Poll>)
    ensures TimeSpent(After(polls), NUM_OF_THERMAL + 1) <==> SomeOverdue(polls)
  {
    var d := After(polls);
    if tid :| 1 <= tid <= NUM_OF_THERMAL && Overdue(d.errors[tid]) {
      StreakIsCounter(polls, tid, d.errors[tid]);
    }
    if tid, n :| 1 <= tid <= NUM_OF_THERMAL && StreakIs(polls, tid, n) && Overdue(n) {
      StreakIsCounter(polls, tid, n);
    }
  }

  /** Each line card, and the neighbour, is commanded off for IO errors exactly in
      the polls that leave some sensor at two failures with no success between; and
      so are the resets commanded. */
  lemma OthersOffIff(polls: seq<Poll>, s: nat, lc: nat, mac: nat)
    requires FixedSlot(polls, s) && polls != [] && polls[|polls| - 1].Poll? && lc < 8 && mac < 2
    ensures (if (lc < 4) == (s < 2) then LocalLcOff(lc) else RemoteLcOff(lc)) in IoCommands(polls, |polls|)
       <==> SomeSecond(polls)
    ensures (if (lc < 4) == (s < 2) then RemoteLcOff(lc) else LocalLcOff(lc)) !in IoCommands(polls, |polls|)
    ensures FcOff(Neighbour(s)) in IoCommands(polls, |polls|) <==> SomeSecond(polls)
    ensures ResetCpuB(s) in IoCommands(polls, |polls|) <==> SomeSecond(polls)
    ensures ResetMac(s, mac) in IoCommands(polls, |polls|) <==> SomeSecond(polls)
  {
    hide AtSecondFailure, SelfOff, IoCommands, Neighbour;
    IoCommandsAre(polls);
    SecondFailureHas(s, lc, mac);
    OnlySelf(s);
  }

  lemma OnlySelf(s: nat)
    requires ValidFc(s)
    ensures SelfOff(s) == [FcOff(s)] && Neighbour(s) != s
  {
  }

  lemma SecondFailureHas(s: nat, lc: nat, mac: nat)
    requires ValidFc(s) && lc < 8 && mac < 2
    ensures (if (lc < 4) == (s < 2) then LocalLcOff(lc) else RemoteLcOff(lc)) in AtSecondFailure(s)
    ensures (if (lc < 4) == (s < 2) then RemoteLcOff(lc) else LocalLcOff(lc)) !in AtSecondFailure(s)
    ensures FcOff(Neighbour(s)) in AtSecondFailure(s) && ResetCpuB(s) in AtSecondFailure(s)
    ensures ResetMac(s, mac) in AtSecondFailure(s)
  {
    hide LcCommands, FcCommands, Neighbour;
    LcCommandsHave(s, lc);
    FcCommandsHave(s, mac);
  }

  lemma LcCommandsHave(s: nat, lc: nat)
    requires ValidFc(s) && lc < 8
    ensures (if (lc < 4) == (s < 2) then LocalLcOff(lc) else RemoteLcOff(lc)) in LcCommands(s)
    ensures (if (lc < 4) == (s < 2) then RemoteLcOff(lc) else LocalLcOff(lc)) !in LcCommands(s)
  {
    var a := LcCommands(s);
    assert a[lc] == if (lc < 4) == (s < 2) then LocalLcOff(lc) else RemoteLcOff(lc);
  }

  lemma FcCommandsHave(s: nat, mac: nat)
    requires ValidFc(s) && mac < 2
    ensures var b := FcCommands(s);
            && FcOff(Neighbour(s)) in b && ResetCpuB(s) in b && ResetMac(s, mac) in b
            && forall x :: x in b ==> !x.LocalLcOff? && !x.RemoteLcOff?
  {
    var b := FcCommands(s);
    assert b[0] == FcOff(Neighbour(s)) && b[1 + mac] == ResetMac(s, mac) && b[3] == ResetCpuB(s);
  }

  /** In all, a poll commands the own card off exactly when it is overheated or
      some sensor has failed too often. */
  lemma OwnOffIff(polls: seq<Poll>, s: nat)
    requires FixedSlot(polls, s) && polls != [] && polls[|polls| - 1].Poll?
    ensures FcOff(s) in Issued(polls, |polls|) <==> FcHot(After(polls), s % 2) || SomeOverdue(polls)
  {
    assert polls[..|polls|] == polls;
    LastSlot(polls, s);
    RunCommands(polls, |polls|);
    OwnDueIff(After(polls));
    SelfOffIff(polls, s);
  }

  lemma OwnDueIff(d: Data)
    requires ValidFc(d.slot)
    ensures FcOff(d.slot) in OverheatPass(d) <==> FcHot(d, d.slot % 2)
  {
    OverheatExact(d);
    assert Due(d, FcOff(d.slot)) <==> FcHot(d, d.slot % 2);
  }

  /** Within 715,827 failures (at one poll in three seconds, nearly 25 days) the
      condition is 20 failures in a row. */
  lemma OverdueIsTwenty(polls: seq<Poll>)
    requires forall tid :: 1 <= tid <= NUM_OF_THERMAL ==> !FailedInARow(polls, tid, 715828)
    ensures SomeOverdue(polls) <==> exists tid :: 1 <= tid <= NUM_OF_THERMAL && FailedInARow(polls, tid, LAST_RETRY)
  {
    var d := After(polls);
    forall tid | 1 <= tid <= NUM_OF_THERMAL
      ensures FailedInARow(polls, tid, LAST_RETRY) <==> Overdue(d.errors[tid])
    {
      CounterIsStreak(polls, tid, LAST_RETRY);
      CounterIsStreak(polls, tid, 715828);
      OverdueRange(d.errors[tid]);
    }
    if tid, n :| 1 <= tid <= NUM_OF_THERMAL && StreakIs(polls, tid, n) && Overdue(n) {
      StreakIsCounter(polls, tid, n);
    }
    if tid :| 1 <= tid <= NUM_OF_THERMAL && FailedInARow(polls, tid, LAST_RETRY) {
      StreakIsCounter(polls, tid, d.errors[tid]);
    }
  }

  /** The poll at which a counter that is now at n stood at its second failure. */
  lemma {:induction false} SecondFailure(polls: seq<Poll>, tid: nat) returns (m: nat)
    requires 1 <= tid <= NUM_OF_THERMAL && After(polls).errors[tid] >= IOERR_RETRY_COUNT
    ensures 1 <= m <= |polls| && polls[m - 1].Poll? && After(polls[..m]).errors[tid] == IOERR_RETRY_COUNT
    ensures m + After(polls).errors[tid] <= |polls| + IOERR_RETRY_COUNT
    decreases |polls|
  {
    var n := |polls| - 1;
    CounterStep(polls, tid);
    if After(polls).errors[tid] == IOERR_RETRY_COUNT && polls[n].Poll? {
      m := |polls|;
      assert polls[..m] == polls;
    } else {
      m := SecondFailure(polls[..n], tid);
      assert polls[..n][..m] == polls[..m];
    }
  }

  /** A card that switches itself off for IO errors has a sensor that failed at
      least 20 times with no success between, and at least 18 polls before it
      commanded all line cards and its neighbour off. */
  lemma Escalation(polls: seq<Poll>, s: nat) returns (tid: nat, m: nat)
    requires FixedSlot(polls, s) && polls != [] && FcOff(s) in IoCommands(polls, |polls|)
    ensures 1 <= tid <= NUM_OF_THERMAL && FailedInARow(polls, tid, LAST_RETRY)
    ensures 1 <= m && m + 18 <= |polls| && OthersCommanded(polls, s, m)
  {
    var d := After(polls);
    assert polls[..|polls|] == polls;
    LastSlot(polls, s);
    SelfOffCommand(d);
    tid :| 1 <= tid <= NUM_OF_THERMAL && Overdue(d.errors[tid]);
    OverdueRange(d.errors[tid]);
    CounterIsStreak(polls, tid, LAST_RETRY);
    m := SecondFailure(polls, tid);
    OthersDue(polls, s, m, tid);
  }

  lemma OthersDue(polls: seq<Poll>, s: nat, m: nat, tid: nat)
    requires FixedSlot(polls, s) && 1 <= m <= |polls| && polls[m - 1].Poll?
    requires 1 <= tid <= NUM_OF_THERMAL && After(polls[..m]).errors[tid] == IOERR_RETRY_COUNT
    ensures OthersCommanded(polls, s, m)
  {
    LastSlot(polls[..m], s);
    OthersExact(s);
    RunCommands(polls, m);
  }
}
