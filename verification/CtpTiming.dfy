/**
 Tick arithmetic of one card: how long convergence takes, and how long a card
 that hears nothing keeps forwarding.
 */
module CtpTiming {
  import opened Ctp
  import opened CtpInvariant
  import opened Sequences

  datatype CardEvent = Clock | Hears(b: Bpdu)

  function Step(c: Card, e: CardEvent): Card {
    match e
    case Clock => Tick(c).card
    case Hears(b) => Rx(c, b).card
  }

  function After(c: Card, es: seq<CardEvent>): Card {
    Fold(Step, c, es)
  }

  function Clocks(es: seq<CardEvent>): nat {
    if es == [] then 0
    else Clocks(es[..|es| - 1]) + if es[|es| - 1] == Clock then 1 else 0
  }

  // ------------------------------------------------------------- convergence

  /** Ticks from leaving BLOCK to FORWARDING. */
  function ConvergeTicks(lc: bool): nat {
    if lc then 13 else 9
  }

  /** Where a card is n ticks after leaving BLOCK. */
  predicate AtPhase(c: Card, n: nat) {
    if n <= FORWARD_DELAY + 1 then c.state == Listening && c.since == n
    else if n < ConvergeTicks(c.IsLc()) then c.state == Learning && c.since == n - (FORWARD_DELAY + 2)
    else c.state == Forwarding && c.since == 0
  }

  /** Leaving BLOCK is entering LISTENING at tick 0. */
  lemma LeavesBlock(c: Card, b: Bpdu)
    requires CpuA(c.us) && c.state == Block
    ensures var d := Rx(c, b).card; d.us == c.us && (AtPhase(d, 0) || d == c.(heard := d.heard))
  {
  }

  /** Whatever BPDUs arrive in between, and in whatever number, the n-th tick
      after leaving BLOCK finds the card in the same phase; no state is skipped,
      and FORWARDING is entered on tick 13 of an LC and tick 9 of an FC. */
  lemma {:induction false} ExactConvergence(c: Card, es: seq<CardEvent>)
    requires CpuA(c.us) && AtPhase(c, 0)
    requires Clocks(es) < ConvergeTicks(c.IsLc())
             || (Clocks(es) == ConvergeTicks(c.IsLc()) && es[|es| - 1] == Clock)
    ensures AtPhase(After(c, es), Clocks(es)) && After(c, es).us == c.us
  {
    hide Tick, Rx;
    if es != [] {
      ExactConvergence(c, es[..|es| - 1]);
      PhaseStep(After(c, es[..|es| - 1]), es[|es| - 1], Clocks(es[..|es| - 1]));
    }
  }

  lemma PhaseStep(c: Card, e: CardEvent, n: nat)
    requires CpuA(c.us) && AtPhase(c, n) && n < ConvergeTicks(c.IsLc())
    ensures AtPhase(Step(c, e), n + if e == Clock then 1 else 0) && Step(c, e).us == c.us
  {
  }

  /** The ticks after leaving BLOCK on which a converging card says something: a
      fabric card says CONFIG on all but the fifth, a line card from the sixth on,
      and neither on the tick on which it starts to forward. */
  predicate SpeaksAt(lc: bool, n: nat) {
    if lc then 6 <= n <= 12 else 1 <= n <= 8 && n != 5
  }

  /** Whatever is heard meanwhile, the next tick says CONFIG or nothing by its
      number alone: seven CONFIGs in all. */
  lemma ExactVoice(c: Card, es: seq<CardEvent>)
    requires CpuA(c.us) && AtPhase(c, 0) && Clocks(es) < ConvergeTicks(c.IsLc())
    ensures var s := Tick(After(c, es)).sent;
            if SpeaksAt(c.IsLc(), Clocks(es) + 1) then |s| == 1 && s[0].kind == Config && s[0].from == c.us
            else s == []
  {
    ExactConvergence(c, es);
    PhaseVoice(After(c, es), Clocks(es));
  }

  lemma PhaseVoice(c: Card, n: nat)
    requires CpuA(c.us) && AtPhase(c, n) && n < ConvergeTicks(c.IsLc())
    ensures var s := Tick(c).sent;
            if SpeaksAt(c.IsLc(), n + 1) then |s| == 1 && s[0].kind == Config && s[0].from == c.us else s == []
  {
  }

  /** The same from BLOCK: b is the BPDU with which the card leaves it. */
  lemma ExactFromBlock(hw: Hardware, c: Card, b: Bpdu, es: seq<CardEvent>)
    requires CardOk(hw, c) && c.state == Block && Rx(c, b).card.state != Block
    requires Clocks(es) < ConvergeTicks(c.IsLc())
             || (Clocks(es) == ConvergeTicks(c.IsLc()) && es[|es| - 1] == Clock)
    ensures AtPhase(After(c, [Hears(b)] + es), Clocks(es))
  {
    LeavesBlock(c, b);
    FoldFirst(Step, c, Hears(b), es);
    ExactConvergence(Rx(c, b).card, es);
  }

  /** The prefix that ends with the n-th tick. */
  lemma {:induction false} NthClock(es: seq<CardEvent>, n: nat) returns (k: nat)
    requires 1 <= n <= Clocks(es)
    ensures 1 <= k <= |es| && Clocks(es[..k]) == n && es[k - 1] == Clock
    ensures n < Clocks(es) ==> k < |es|
  {
    k := |es|;
    assert es[..k] == es;
    while !(Clocks(es[..k]) == n && es[k - 1] == Clock)
      invariant 1 <= k <= |es| && Clocks(es[..k]) >= n
      invariant n < Clocks(es) && k == |es| ==> Clocks(es[..k]) > n
      decreases k
    {
      assert es[..k][..k - 1] == es[..k - 1];
      k := k - 1;
    }
  }

  /** In lockstep, a fabric card that left BLOCK at most 3 ticks after a line
      card forwards strictly before that line card does. */
  lemma {:induction false} FcForwardsFirst(lc: Card, ls: seq<CardEvent>, fc: Card, fs: seq<CardEvent>)
    requires LcNum(lc.us) && AtPhase(lc, 0) && FcNum(fc.us) && AtPhase(fc, 0)
    requires Clocks(ls) == ConvergeTicks(true) && ls[|ls| - 1] == Clock
    requires Clocks(ls) <= Clocks(fs) + 3
    ensures After(lc, ls).state == Forwarding
    ensures exists k: nat :: k < |fs| && Clocks(fs[..k]) < Clocks(fs) && After(fc, fs[..k]).state == Forwarding
  {
    ExactConvergence(lc, ls);
    var k := NthClock(fs, ConvergeTicks(false));
    assert fs[..k][|fs[..k]| - 1] == Clock;
    ExactConvergence(fc, fs[..k]);
  }

  // ----------------------------------------------------------------- silence

  function Times(f: Card -> Out, c: Card, n: nat): Card {
    if n == 0 then c else f(Times(f, c, n - 1)).card
  }

  lemma {:induction false} TimesSplit(f: Card -> Out, c: Card, m: nat, n: nat)
    ensures Times(f, c, m + n) == Times(f, Times(f, c, m), n)
  {
    if n > 0 {
      TimesSplit(f, c, m, n - 1);
    }
  }

  /** The card after n ticks in which it hears nothing. */
  function Alone(c: Card, n: nat): Card {
    Times(Tick, c, n)
  }

  lemma AloneSplit(c: Card, m: nat, n: nat)
    ensures Alone(c, m + n) == Alone(Alone(c, m), n)
  {
    TimesSplit(Tick, c, m, n);
  }

  lemma {:induction false} BackupCounts(c: Card, n: nat)
    requires CpuA(c.us) && c.state == Forwarding && c.us != c.rootPort && c.since + n <= MAX_AGE * FORWARD_DELAY + 1
    ensures Alone(c, n) == c.(since := c.since + n, heard := Alone(c, n).heard)
  {
    if n > 0 {
      BackupCounts(c, n - 1);
    }
  }

  /** A forwarding card that is not its own root goes to BLOCK on exactly the
      tick that its clock says, and that is within 47 ticks. */
  lemma BackupSilence(hw: Hardware, c: Card)
    requires CardOk(hw, c) && c.state == Forwarding && c.us != c.rootPort
    ensures c.since <= 46 && Alone(c, 47 - c.since).state == Block
    ensures forall n :: 0 <= n < 47 - c.since ==> Alone(c, n).state == Forwarding
  {
    forall n: nat | n < 47 - c.since
      ensures Alone(c, n).state == Forwarding
    {
      BackupCounts(c, n);
    }
    BackupCounts(c, 46 - c.since);
  }

  predicate RootFc(c: Card) {
    FcNum(c.us) && c.state == Forwarding && c.rootPort == c.us
  }

  /** No line card is remembered with more than this age. */
  predicate AgesAtMost(c: Card, m: int) {
    forall i :: 0 <= i < LINE_CARDS ==> c.exist[i].age <= if m < 0 then 0 else m
  }

  /** Until its clock runs out, a lonely root FC only sends HELLOs, each of
      which lowers every age. */
  lemma {:induction false} RootCounts(c: Card, m: int, n: nat)
    requires RootFc(c) && AgesAtMost(c, m) && c.since + n <= MAX_AGE + 1
    ensures RootFc(Alone(c, n)) && AgesAtMost(Alone(c, n), m - n) && Alone(c, n).since == c.since + n
  {
    if n > 0 {
      RootCounts(c, m, n - 1);
    }
  }

  /** When the clock has run out, the card gives up, or reselects. */
  lemma RootTimeout(c: Card, m: int)
    requires RootFc(c) && AgesAtMost(c, m) && c.since == MAX_AGE + 1
    ensures Alone(c, 1).state == Block
            || (m >= SELECT_AGE && RootFc(Alone(c, 1)) && AgesAtMost(Alone(c, 1), m - 1) && Alone(c, 1).since == 0)
  {
    var h := c.(heard := []);
    assert Alone(c, 1) == Tick(Alone(c, 0)).card == RootTick(h).card;
    var t := Forget(h.exist, h.rootLc);
    var i := FirstRecent(t, h.us, 0);
    if i < LINE_CARDS {
      assert t[i].age <= h.exist[i].age;
    }
  }

  lemma FullAgeBound(hw: Hardware, c: Card)
    requires CardOk(hw, c)
    ensures AgesAtMost(c, FULL_AGE)
  {
    forall i | 0 <= i < LINE_CARDS
      ensures c.exist[i].age <= FULL_AGE
    {
      assert SlotOk(hw, c.us, i, c.exist[i]);
    }
  }

  /** By the second timeout every age has run down. */
  lemma SecondTimeout(c: Card, m: int)
    requires RootFc(c) && AgesAtMost(c, m) && m <= FULL_AGE && c.since == 0
    ensures Alone(c, MAX_AGE + 2).state == Block
  {
    RootCounts(c, m, MAX_AGE + 1);
    RootTimeout(Alone(c, MAX_AGE + 1), m - (MAX_AGE + 1));
    AloneSplit(c, MAX_AGE + 1, 1);
  }

  lemma FirstTimeout(hw: Hardware, c: Card, j: nat)
    requires CardOk(hw, c) && RootFc(c) && j == MAX_AGE + 1 - c.since
    ensures Alone(c, j + 1).state == Block
            || (j <= 13 && RootFc(Alone(c, j + 1)) && AgesAtMost(Alone(c, j + 1), FULL_AGE - j - 1)
                && Alone(c, j + 1).since == 0)
  {
    FullAgeBound(hw, c);
    RootCounts(c, FULL_AGE, j);
    RootTimeout(Alone(c, j), FULL_AGE - j);
    AloneSplit(c, j, 1);
  }

  /** Until its clock runs out: each HELLO lowers each age by exactly one. */
  lemma {:induction false} RootAges(c: Card, n: nat, i: nat)
    requires RootFc(c) && c.since + n <= MAX_AGE + 1 && i < LINE_CARDS
    ensures var d := Alone(c, n);
            && RootFc(d) && d.since == c.since + n && d.us == c.us && d.rootLc == c.rootLc
            && d.exist[i].age == if c.exist[i].age >= n then c.exist[i].age - n else 0
  {
    if n > 0 {
      RootAges(c, n - 1, i);
    }
  }

  /** Some line card, other than one recorded at the slot that the clearing meets,
      will still be at age 3 or more when the clock runs out in n ticks. */
  predicate StillRecent(c: Card, n: nat) {
    exists i :: 0 <= i < 32 && i != c.rootLc && c.exist[i].age >= n + 3
  }

  /** The tick on which a lonely root FC goes to BLOCK. */
  function QuitsAt(c: Card): nat
    requires c.since <= 16
  {
    if StillRecent(c, 16 - c.since) then 34 - c.since else 17 - c.since
  }

  lemma TimeoutIff(hw: Hardware, c: Card)
    requires CardOk(hw, c) && RootFc(c)
    ensures c.since <= 16
    ensures var j := 16 - c.since;
            if StillRecent(c, j) then
              RootFc(Alone(c, j + 1)) && Alone(c, j + 1).since == 0 && AgesAtMost(Alone(c, j + 1), FULL_AGE - j - 1)
            else Alone(c, j + 1).state == Block
  {
    ClockAtMost(hw, c);
    hide Tick, CardOk, FirstRecent, StillRecent, RootFc, AgesAtMost, Alone, Forget;
    var j := 16 - c.since;
    OutOfTime(c, j);
    FirstTimeout(hw, c, j);
    AloneSplit(c, j, 1);
    OneTick(Alone(c, j));
    RecentThen(c, Alone(c, j), j);
  }

  lemma OutOfTime(c: Card, j: nat)
    requires RootFc(c) && c.since + j == MAX_AGE + 1
    ensures var d := Alone(c, j);
            && RootFc(d) && d.since == 16 && d.us == c.us && d.rootLc == c.rootLc && FcNum(d.us)
            && forall i :: 0 <= i < LINE_CARDS ==>
                 d.exist[i].age == if c.exist[i].age >= j then c.exist[i].age - j else 0
  {
    hide Tick, Alone;
    forall i | 0 <= i < LINE_CARDS
      ensures Alone(c, j).exist[i].age == if c.exist[i].age >= j then c.exist[i].age - j else 0
    {
      RootAges(c, j, i);
    }
    RootAges(c, j, 0);
  }

  /** Card d is what n lonely ticks have made of c. */
  lemma RecentThen(c: Card, d: Card, n: nat)
    requires FcNum(d.us) && d.us == c.us && d.rootLc == c.rootLc
    requires forall i :: 0 <= i < LINE_CARDS ==>
               d.exist[i].age == if c.exist[i].age >= n then c.exist[i].age - n else 0
    ensures FirstRecent(Forget(d.exist, d.rootLc), d.us, 0) == LINE_CARDS <==> !StillRecent(c, n)
  {
    var t := Forget(d.exist, d.rootLc);
    if i :| 0 <= i < 32 && i != c.rootLc && c.exist[i].age >= n + 3 {
      assert t[i].age >= SELECT_AGE;
    }
  }

  lemma OneTick(c: Card)
    requires RootFc(c) && c.since == MAX_AGE + 1
    ensures Alone(c, 1).state == Block <==>
            FirstRecent(Forget(c.exist, c.rootLc), c.us, 0) == LINE_CARDS
  {
    assert Alone(c, 1) == Tick(Alone(c, 0)).card == RootTick(c.(heard := [])).card;
  }

  /** A root FC that hears nothing is in BLOCK from exactly that tick on which its
      clock runs out with no line card at age 3 or more, which can only be the first
      or the second time. */
  lemma RootSilenceExact(hw: Hardware, c: Card)
    requires CardOk(hw, c) && RootFc(c)
    ensures c.since <= 16 && QuitsAt(c) <= 31 && Alone(c, QuitsAt(c)).state == Block
    ensures forall n :: 0 <= n < QuitsAt(c) ==> Alone(c, n).state == Forwarding
  {
    hide CardOk, RootFc, Alone, StillRecent;
    ClockAtMost(hw, c);
    QuitsThere(hw, c);
    forall n: nat | n < QuitsAt(c)
      ensures Alone(c, n).state == Forwarding
    {
      StillForwards(hw, c, n);
    }
  }

  lemma QuitsThere(hw: Hardware, c: Card)
    requires CardOk(hw, c) && RootFc(c) && c.since <= 16
    ensures QuitsAt(c) <= 31 && Alone(c, QuitsAt(c)).state == Block
  {
    hide CardOk, RootFc, Alone, StillRecent, AgesAtMost;
    var j := 16 - c.since;
    TimeoutIff(hw, c);
    RecentAtMost(hw, c, j);
    if StillRecent(c, j) {
      SecondBlocks(Alone(c, j + 1), j);
      AloneSplit(c, j + 1, 17);
    }
  }

  lemma SecondBlocks(d: Card, j: nat)
    requires RootFc(d) && d.since == 0 && j <= 13 && AgesAtMost(d, FULL_AGE - j - 1)
    ensures Alone(d, 17).state == Block
  {
    SecondTimeout(d, FULL_AGE - j - 1);
  }

  lemma StillForwards(hw: Hardware, c: Card, n: nat)
    requires CardOk(hw, c) && RootFc(c) && c.since <= 16 && n < QuitsAt(c)
    ensures Alone(c, n).state == Forwarding
  {
    hide Tick, CardOk, StillRecent, Alone;
    var j := 16 - c.since;
    if n <= j {
      RootAges(c, n, 0);
    } else {
      TimeoutIff(hw, c);
      AloneSplit(c, j + 1, n - j - 1);
      RootAges(Alone(c, j + 1), n - j - 1, 0);
    }
  }

  lemma ClockAtMost(hw: Hardware, c: Card)
    requires CardOk(hw, c) && RootFc(c)
    ensures c.since <= 16
  {
  }

  lemma RecentAtMost(hw: Hardware, c: Card, j: nat)
    requires CardOk(hw, c)
    ensures StillRecent(c, j) ==> j <= 13
  {
    FullAgeBound(hw, c);
  }

  /** So it is within 31 ticks. */
  lemma RootSilence(hw: Hardware, c: Card)
    requires CardOk(hw, c) && RootFc(c)
    ensures exists n :: n <= 31 && Alone(c, n).state == Block
  {
    RootSilenceExact(hw, c);
  }

  /** The bound of 31 is met. */
  lemma RootSilenceMet(hw: Hardware) returns (c: Card)
    ensures CardOk(hw, c) && RootFc(c) && QuitsAt(c) == 31
  {
    var b := Boot(33, hw[32]);
    BootOk(hw, 33);
    c := b.(state := Forwarding, since := 3, rootLc := 1, designPort := 1, designBridge := IdOf(hw, 1),
            exist := b.exist[0 := Entry(16, IdOf(hw, 1))]);
    forall i | 0 <= i < CARDS
      ensures SlotOk(hw, 33, i, c.exist[i])
    {
      assert SlotOk(hw, 33, i, b.exist[i]);
    }
    assert c.exist[0].age >= 13 + 3;
  }
}
