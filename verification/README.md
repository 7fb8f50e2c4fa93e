# Chassis daemon: verified model

The chassis daemon runs on every card of a switch chassis. Line cards (LC,
numbers 1..32) and fabric cards (FC, numbers 33..48) are wired as a complete
bipartite graph in each of two planes; a home-grown protocol, CTP, elects one
root FC and one root LC and closes switch ports so that the backplane has no
loop. The project models that protocol in full, and three smaller parts of the
daemon: the CRC-8 of its messages, the bit-banged SPI master of the switch chip,
and the thermal shutdown manager with the routing of remote shutdowns.

The cards' program is modelled in its own form, as classes whose methods update
fields and arrays; every such method is proved equal to a function on values,
and the theorems are about those functions, for every input, every reachable
chassis and every run.

| file | contents |
|---|---|
| `Ctp.dfy` | the data of a card and its operations as functions |
| `CtpCard.dfy` | one card as the program keeps it: fields and arrays updated in place |
| `CtpInvariant.dfy` | what every operation keeps: identity, parity, ages, clocks |
| `Bpf.dfy` | the packet filters and the part of the BPF machine they use |
| `CtpNet.dfy` | the chassis: cards, BPDU copies in flight, events, runs; plane isolation |
| `CtpPlane.dfy` | each plane runs as if the other were not there |
| `CtpGossip.dfy` | a stopped card dies out of the member tables |
| `Wiring.dfy` | the backplane wiring as tables |
| `CtpTopology.dfy` | ports, loops, spanning trees, reselection over runs |
| `CtpTiming.dfy` | exact convergence times and silence bounds of one card |
| `CtpElection.dfy` | the election over ticks and receptions: a minimum, and when order decides |
| `CtpReceive.dfy` | the receive-interval table; answers are finite |
| `CtpRounds.dfy` | lockstep rounds |
| `CtpAnswers.dfy` | what a forwarding card says, and to what |
| `CtpGiveUp.dfy` | the root FC gives up: who stops forwarding in that round |
| `CtpConverge.dfy`, `CtpColdStart.dfy` | cold-start convergence in 14 rounds |
| `CtpMute.dfy` | rounds in which a plane says nothing |
| `CtpKeep.dfy` | rounds led by a root FC and a root LC, in general |
| `CtpSteady.dfy` | lockstep rounds keep an agreed plane agreed for good |
| `CtpRoll.dfy` | the steady state as a roll call: who is in the member tables |
| `CtpFailover.dfy` | the root LC stops: 18 rounds to the next spanning tree |
| `CtpRestart.dfy` | any card stops: the plane comes back |
| `CtpJoin.dfy` | cards start in a running plane: when it keeps its roots |
| `CtpLife.dfy` | cards stop and start, one change after another |
| `CtpExamples.dfy` | reachable chassis: what goes wrong when messages are lost or come in an unlucky order |
| `CtpLifeExamples.dfy` | runs without loss: whole lives of a plane, and a start that does not settle |
| `Sequences.dfy` | folds and lists without duplicates |
| `Bytes.dfy`, `Crc8.dfy` | CRC-8: bit-serial meaning and error detection |
| `Spi.dfy` | the SPI master against a decoder of its waveform |
| `Thermal.dfy`, `ThermalRuns.dfy` | the shutdown manager, and whole runs of it |
| `Routing.dfy` | local masters and the routing of remote shutdowns |
| `RoutingRuns.dfy` | remote shutdowns in the steady state; routing, wiring and shutdown manager agree |

`dafny verify dfyconfig.toml` verifies the whole project.

Some results differ from what a first reading of the program, or its comments,
suggests; each is stated for the code as it is.

- The member merge copies a ten-byte slot into an eight-byte id and so writes the
  next slot's age too. `MergeIsYoungest` shows that this is harmless, because
  slots of CPU B cards have age 0 everywhere; `OverrunForgets` says what it would do
  otherwise.
- Reselection clears the table entry at the index that the card keeps as its root
  LC number. After an election that index is a card number, and so the slot of a
  CPU B card: nothing is forgotten, and the lost card is picked again if it is the
  first that counts as recent. Reselection itself stores the slot index, so the
  next one forgets the right card (`ForgottenIff` and `PicksAgainIff`, both exact).
  `StoppedIsPicked` is a reachable chassis that picks its stopped root LC again.
  It takes lost HELLOs: in lockstep rounds without loss the ages run down in time,
  and the plane comes back whichever card stops (`Failover`, `AnyStops`).
- Cards that start in a running plane take over its roots, even if they are smaller
  than those, with one exception: a line card that starts together with a fabric
  card smaller than the root FC takes that one for root FC. It hears no smaller
  number afterwards and its HELLOs keep its clock at 0, so it forwards under a root
  FC that is none. `JoinIff` says that this is the only way to fail, for any number
  of cards that start together; `ClashReachable` is such a start.
- The smallest live number wins an election, but not always in whatever order the
  numbers come in: the second BPDU of one sender and type between two ticks is
  dropped, even if it names a smaller root than the first (`FirstOfTwoDecides`, and
  `FirstOfTwoReachable` for a chassis that gets there; `SwapIff` says exactly when
  the order of two matters).
- A plane that starts in BLOCK agrees after 14 rounds if and only if some fabric
  card of it is not just about to reset its board: a card that has waited 14 ticks
  resets on the next one instead of sending, and if all do, the round is lost
  (`ColdStartBuildsTree`; `LateStartReachable` is such a start).
- A chassis has a loop exactly when two line cards both hold themselves to be root
  LC while two fabric cards have all ports open (`LoopIffWideOpen`); one root LC at
  most is enough to exclude it. Such a loop is reachable if messages are lost: two
  line cards that hear one CONFIG and then nothing both become root LC, while the
  fabric cards are still in BLOCK with all ports open (`LoopReachable`).
- A root FC that gives up says LC_CHANGE, but only line cards that still forward pass
  it on. If none is left to do so, other fabric cards go on forwarding without a root
  until their own clocks run out (`GiveUpRound`, exact).

## Model

| member | source | states |
|---|---|---|
| CtpCard.CtpCard.constructor | chassis_bpdu.c:340-394 | a card starts in BLOCK, naming only itself, with its own member slot at full age |
| CtpCard.CtpCard.ClearMember | chassis_bpdu.c:458-467 | the table is left with the own slot only |
| CtpCard.CtpCard.UpdateMember | chassis_bpdu.c:469-484 | the in-place merge, with the copy that runs over into the next slot's age, is the slot-by-slot merge of the specification; nothing else changes |
| CtpCard.CtpCard.DecMember | chassis_bpdu.c:486-500 | every positive age falls by one, the own age is set to 16 |
| CtpCard.CtpCard.FindRecent | chassis_bpdu.c:518-528 | finds the first LC slot, other than the own, of age 3 or more |
| CtpCard.CtpCard.SelectNewRootLc | chassis_bpdu.c:511-531 | reselection: clears the entry at the given index, takes the first recent LC with its slot index as number, or fails |
| CtpCard.CtpCard.UpdateLcRoot | chassis_bpdu.c:533-565 | an LC takes a smaller live root FC, and a smaller or HELLO-announced live root LC, then merges |
| CtpCard.CtpCard.UpdateFcDesignated | chassis_bpdu.c:596-629 | an FC takes a smaller or forwarding live root FC, and a smaller live root LC, then merges |
| CtpCard.CtpCard.CheckBpdu | chassis_bpdu.c:631-649 | tells whether the BPDU names another root than the card does |
| CtpCard.CtpCard.LcSyncToHello | chassis_bpdu.c:567-594 | a HELLO naming another live root LC is adopted, and the ports are set again if the card's two records of the old one agreed or the card is the new one |
| CtpCard.CtpCard.Config1Port | chassis_bpdu.c:1061-1096 | sets exactly the uplink that leads to the given FC |
| CtpCard.CtpCard.UplinkIndex | chassis_bpdu.c:1262-1282 | the switch over root FC numbers is the arithmetic of the wiring |
| CtpCard.CtpCard.DownlinkIndex | chassis_bpdu.c:1293-1378 | both switches over root LC numbers, rotated by four for the second half of the FCs, are the arithmetic of the wiring |
| CtpCard.CtpCard.EnterForwardingState | chassis_bpdu.c:1247-1383 | all ports forward for a root card, exactly the port to the root otherwise |
| CtpCard.CtpCard.EnterBlock | chassis_bpdu.c:1421-1442 | BLOCK: only itself is named, table and ports are reset |
| CtpCard.CtpCard.EnterListening | chassis_bpdu.c:1444-1456 | LISTENING: an LC's uplinks listen, the clock restarts |
| CtpCard.CtpCard.EnterLearning | chassis_bpdu.c:1458-1470 | LEARNING: an LC opens the uplink to its root FC |
| CtpCard.CtpCard.EnterForwarding | chassis_bpdu.c:1472-1500 | FORWARDING: the ports follow the roots |
| CtpCard.CtpCard.TxInfoBpdu | chassis_bpdu.c:951-1006 | one BPDU, to the address of the sender's group, with the table aged first |
| CtpCard.CtpCard.SearchRx | chassis_bpdu.c:221-235 | the linear search answers membership in the set of recorded pairs until the table is full |
| CtpCard.CtpCard.UpdateRx | chassis_bpdu.c:237-254 | appends one pair after the used prefix, unless the table is full |
| CtpCard.CtpCard.ClearRx | chassis_bpdu.c:256-261 | forgets every pair |
| CtpCard.CtpCard.CheckRx | chassis_bpdu.c:263-277 | a BPDU is handled exactly when its pair is new and there is room |
| CtpCard.CtpCard.RxFcBpdu | chassis_bpdu.c:651-726 | an LC's handler in all four states equals the specification, BPDUs sent included |
| CtpCard.CtpCard.RxLcBpdu | chassis_bpdu.c:728-827 | an FC's handler in all four states equals the specification, BPDUs sent included |
| CtpCard.CtpCard.RxBpdu | chassis_bpdu.c:829-856 | the dispatch by own and sender number |
| CtpCard.CtpCard.IterateMachines | chassis_bpdu.c:1502-1596 | one tick in all four states equals the specification |
| CtpCard.CtpCard.TickRoot | chassis_bpdu.c:1563-1583 | the root FC's tick: HELLO, or after 16 ticks without one heard, reselection or BLOCK with LC_CHANGE |
| CtpCard.AlwaysInRange | chassis_bpdu.c:477-479 | in a chassis that keeps its invariant, no index leaves the member table and the last slot is never copied |
| CtpInvariant.MergeFromIsYoungest | chassis_bpdu.c:474-481 | slot by slot, the over-long copy writes only 0 over 0 |
| CtpInvariant.MergeIsYoungest | chassis_bpdu.c:469-484 | the merge is exactly the pointwise maximum by age outside the own slot |
| CtpInvariant.OverrunForgets | chassis_bpdu.c:477-480 | for any tables: where one slot alone is newer, the over-long copy also overwrites the age of the slot after it, and the merge is the pointwise maximum if and only if that was 0 |
| CtpInvariant.NumberIsNoIndex | chassis_bpdu.c:516 | clearing the entry at the number of a line card, as after an election, forgets nothing; the entry at the own number, which line 691 looks at, always has age 0 |
| CtpInvariant.ForgottenIff | chassis_bpdu.c:511-516 | after the clearing the root LC is forgotten if and only if it was recorded by slot index, as after an earlier reselection, or had age 0 already |
| CtpInvariant.PicksAgainIff | chassis_bpdu.c:516-528 | reselection picks the lost root LC again if and only if it was recorded by card number and is the first recent LC |
| CtpInvariant.TickOk | chassis_bpdu.c:1502-1596 | a tick keeps identity, parity, ages at most 16, own age 16, root names and clock bounds, and sends only well-formed BPDUs |
| CtpInvariant.RxOk | chassis_bpdu.c:651-856 | so does receiving |
| CtpInvariant.ReselectOk | chassis_bpdu.c:511-531 | so does reselection, with the root LC number one less than the card named |
| Bpf.Filter3Passes | bpdu.c:131-138 | the filter passes exactly the frames to 01:10:b5:00:00:01 |
| Bpf.Filter4Passes | bpdu.c:142-149 | the filter passes exactly the frames to 01:10:b5:00:00:02 |
| CtpNet.HearsOtherGroup | bpdu.c:246-253 | address choice and filter together: a card hears exactly the other group, and within it only the other kind in its own plane |
| CtpNet.GroupAddresses | bpdu.c:246-253 | card by card: LCs 1..16 and FCs 41..48 send to 01:10:b5:00:00:02 (chassis_bpdu.c:958-974) and attach the filter for 01:10:b5:00:00:01, all others the other way round |
| CtpNet.ReachableOk | chassis_bpdu.c:340-1006 | network-wide identity and parity in every reachable chassis, tables in flight included |
| CtpNet.PlaneIsolation | chassis_bpdu.c:958-974 | no event of the other plane changes a card beyond its receive-interval table |
| CtpNet.PlaneIsolationRun | chassis_bpdu.c:958-974 | nor does any run of such events |
| CtpPlane.OwnRx | chassis_bpdu.c:844-851 | receiving commutes with forgetting the other plane |
| CtpPlane.PlaneAlone | chassis_bpdu.c:661-742 | any run of the chassis, seen from one plane, is a run of that plane alone |
| CtpPlane.ReachableAlone | chassis_bpdu.c:661-742 | a reachable chassis, seen from one plane, is reachable without the other plane |
| CtpGossip.WakeWeight | chassis_bpdu.c:663-674 | an LC that leaves BLOCK merges the BPDU again after its reply has aged the table, and still takes weight away |
| CtpGossip.GossipDecreases | chassis_bpdu.c:469-500 | while card j is not running, no event adds to its weight and every delivery or send that carries it takes some away |
| CtpGossip.StoppedCardDiesOut | chassis_bpdu.c:469-500 | so any run has at most a fixed number of events that carry a stopped card |
| CtpTopology.RunPorts | chassis_bpdu.c:1421-1500 | in every run the ports are a function of state and roots: none open on an LC in BLOCK or LISTENING, at most one in LEARNING |
| CtpTopology.LeafPorts | chassis_bpdu.c:1247-1383 | a forwarding card that is not root has at most one open port |
| CtpTopology.WiredUp | chassis_bpdu.c:1262-1278 | the uplink to each FC is that of the wiring table |
| CtpTopology.WiredDown | chassis_bpdu.c:1293-1378 | and the downlink of each FC to each LC, by the half the FC sits in |
| CtpTopology.LeafOpens | chassis_bpdu.c:1247-1383 | in every reachable chassis, a forwarding card that is not root has exactly the port open that is wired to its root, by the tables |
| CtpTopology.LearnsOn | chassis_bpdu.c:1458-1470 | an LC that enters LEARNING opens exactly the uplink wired to its root FC; the others keep listening |
| CtpTopology.LoopIffWideOpen | chassis_bpdu.c:1247-1383 | a plane of a reachable chassis has a loop if and only if two LCs both hold themselves root and forward while two FCs have all ports open |
| CtpTopology.LoopFree | chassis_bpdu.c:1247-1284 | with at most one such LC in the plane it has no loop, whatever the FCs do |
| CtpTopology.AgreedLinks | chassis_bpdu.c:1247-1383 | on agreement on (R, D) the links forwarding at both ends are exactly those of R and those of D |
| CtpTopology.AgreedIsTree | chassis_bpdu.c:1247-1383 | they connect the plane, number one less than its cards, and have no loop |
| CtpTopology.ReselectKeepsRoot | chassis_bpdu.c:1565-1571 | a root FC that reselects stays root with all ports open and announces its new root LC as live |
| CtpTopology.RxFollows | chassis_bpdu.c:696-716 | receiving changes the root LC of a forwarding card, other than the root FC, only through a HELLO naming its root FC and a live root LC, and then to that LC (an FC by lines 766-788) |
| CtpTopology.RootLcIsLastTold | chassis_bpdu.c:567-594 | over any run in which no card of the plane leaves FORWARDING, the root FC stays root for all, and the root LC of every other card is the one it was told of last |
| CtpTopology.ReselectedIff | chassis_bpdu.c:567-594 | over such a run, with ticks, losses and stopped cards, the old root LC among them, the plane agrees on (R, D') if and only if each running card but R holds D' by what it was last told, or held it before and was told nothing |
| CtpTopology.ReselectedTree | chassis_bpdu.c:567-594 | once each running card but R was last told of D', the plane is again a spanning tree |
| CtpTiming.ExactConvergence | chassis_bpdu.c:1525-1561 | FORWARDING is entered on tick 9 of an FC and tick 13 of an LC after leaving BLOCK, whatever arrives meanwhile, and no state is skipped |
| CtpTiming.ExactFromBlock | chassis_bpdu.c:1444-1561 | the same for any card of the invariant, from the BPDU with which it leaves BLOCK |
| CtpTiming.ExactVoice | chassis_bpdu.c:1525-1561 | whatever arrives meanwhile, a converging FC says CONFIG on each of the first eight ticks but the fifth, a converging LC on the sixth to the twelfth, and neither on any other |
| CtpTiming.FcForwardsFirst | chassis_bpdu.c:1549-1560 | an FC that left BLOCK at most 3 ticks after an LC forwards strictly before it |
| CtpTiming.BackupSilence | chassis_bpdu.c:1584-1590 | a forwarding card that is not its own root and hears nothing is in BLOCK on exactly the tick its clock says, within 47 |
| CtpTiming.RootSilence | chassis_bpdu.c:1563-1583 | a root FC that hears nothing is in BLOCK within 31 ticks |
| CtpTiming.RootSilenceExact | chassis_bpdu.c:1563-1583 | and from exactly which tick on: 17 less its clock, or 17 later if some LC slot is still at age 3 or more by then |
| CtpTiming.RootSilenceMet | chassis_bpdu.c:518-528 | a card of the invariant for which it is tick 31 |
| CtpElection.HearStep | chassis_bpdu.c:675-682 | a BPDU that gets through lowers each root to the live number it names, whether or not the update is skipped because it names the card's own roots (lines 755-762 for an FC); one that does not changes nothing but the record of it |
| CtpElection.StillElecting | chassis_bpdu.c:1525-1561 | a card elects for all ticks between leaving BLOCK and FORWARDING |
| CtpElection.ElectsLeast | chassis_bpdu.c:533-565 | over any ticks and receptions before FORWARDING, each root is the least of its start value and the live numbers named by the BPDUs that got through, if none of those was a HELLO (at an LC) or from a forwarding card (at an FC) |
| CtpElection.DroppedNamesNothingNew | chassis_bpdu.c:263-277 | if BPDUs of one sender and type between two ticks name the same live roots, those that got through name all that came in |
| CtpElection.ElectionOrderFree | chassis_bpdu.c:596-629 | under that condition only the set of live numbers that came in decides, not their order, repetition or the ticks between |
| CtpElection.SwapIff | chassis_bpdu.c:840 | two BPDUs between two ticks give the same roots in either order if and only if they differ in sender or type, or would each alone give the same roots |
| CtpElection.FirstOfTwoDecides | chassis_bpdu.c:840 | an LC and two CONFIGs of one FC, of which the first decides |
| CtpAnswers.Deaf | chassis_bpdu.c:837-853 | CPU B handles and says nothing; CPU A acts on nothing from its own kind or from a number that is no card's |
| CtpAnswers.TakesOnlyLive | chassis_bpdu.c:533-629 | in any state, a BPDU other than FC_CHANGE makes a card take another root FC or root LC only if it names that one and holds it at age 1 or more |
| CtpAnswers.LcPassesOn | chassis_bpdu.c:687-694 | a forwarding LC passes LC_CHANGE on, still naming its old root FC, and is in BLOCK |
| CtpAnswers.LcReplies | chassis_bpdu.c:718-719 | it answers CONFIG with a REPLY that holds the sender at age 15, and goes on |
| CtpAnswers.LcHearsHello | chassis_bpdu.c:696-717 | to HELLO: silence if it names the root FC and another root LC, HELLO if the LC is the root LC and the sender the root FC, else REPLY; the clock is at 0 |
| CtpAnswers.LcHearsReply | chassis_bpdu.c:686-719 | REPLY changes its table and nothing else |
| CtpAnswers.FcHearsLcChange | chassis_bpdu.c:813-822 | a forwarding FC goes to BLOCK on LC_CHANGE if and only if that names another root FC than itself, and says nothing |
| CtpAnswers.FcReplies | chassis_bpdu.c:790-793 | it answers CONFIG with a REPLY that holds the sender at age 15, and goes on |
| CtpAnswers.FcHearsHello | chassis_bpdu.c:766-788 | it answers HELLO with HELLO if and only if that names its root LC and another root FC than itself; the clock is at 0 |
| CtpAnswers.FcHearsReply | chassis_bpdu.c:765-822 | REPLY changes its table and nothing else |
| CtpAnswers.FcHearsFcChange | chassis_bpdu.c:794-812 | told FC_CHANGE, the root FC announces the smallest LC of age 3 or more, but for the slot at the number named, or goes to BLOCK in silence |
| CtpAnswers.RootSays | chassis_bpdu.c:1563-1583 | on each tick a root FC says one thing that names itself as root: LC_CHANGE, and it is in BLOCK, if and only if its clock is at 16 and no LC slot but the cleared one is at age 3 or more; else HELLO |
| CtpAnswers.OthersTick | chassis_bpdu.c:1584-1590 | every other forwarding card ticks in silence, into BLOCK after 45 ticks |
| CtpGiveUp.GiveUpRound | chassis_bpdu.c:1573-1576 | in a round without loss in which the root FC gives up, all cards of the plane stop forwarding if and only if the clock of some LC does not run out on the same tick, so that it passes LC_CHANGE on (lines 687-694, 813-822), or the clocks of all other cards do |
| CtpExamples.GiveUpReachable | chassis_bpdu.c:1573-1576 | a reachable chassis in which that happens |
| CtpExamples.FirstOfTwoReachable | chassis_bpdu.c:840 | a reachable chassis with both CONFIGs of an FC on their way to an LC, which ends with root 35 or 33 by which comes first |
| CtpReceive.NeverFull | chassis_bpdu.c:225-234 | the 1024 slots are never used up |
| CtpReceive.RxHeard | chassis_bpdu.c:840 | each BPDU handled uses up one pair and is answered at most once |
| CtpReceive.ActsOnce | chassis_bpdu.c:263-277 | between two ticks each (sender, type) pair is handled at most once |
| CtpReceive.TickFreeRunIsFinite | chassis_bpdu.c:840-851 | a run without ticks, however long, sends a bounded number of BPDUs: what there is room for in the receive-interval tables of the running cards and of those that start |
| CtpRounds.RoundExists | chassis_bpdu.c:1506 | deliveries bring every lockstep round to an end |
| CtpConverge.LaterRound | chassis_bpdu.c:1525-1561 | what holds after round r - 1 makes what holds after round r, for r from 2 to 14 |
| CtpColdStart.FirstRound | chassis_bpdu.c:663-674 | in round 1 every LC hears the FC that starts, and every FC hears every LC: all have left BLOCK and hold those they heard at full age, with roots no larger |
| CtpColdStart.ColdStartConverges | chassis_bpdu.c:651-827 | after 14 rounds all cards forward and name the smallest FC and the smallest LC |
| CtpColdStart.LateRound | chassis_bpdu.c:1513-1522 | if every FC is due to reset its board, the first round changes nothing |
| CtpColdStart.ColdStartBuildsTree | chassis_bpdu.c:1502-1561 | from any reachable chassis with a plane in BLOCK: agreement after 14 rounds if and only if some FC of it is not due to reset, and then the forwarding links are a spanning tree |
| CtpKeep.KeepRound | chassis_bpdu.c:696-788 | in a round led by a root FC and a root LC, every LC hears the HELLO of the one and every FC the answer of the other, whatever else is said, for any description of cards and BPDUs that receptions keep |
| CtpSteady.SteadyRound | chassis_bpdu.c:696-788 | a lockstep round from agreement ends in agreement: the root FC's HELLO reaches every LC and the root LC's answer every FC, so that all clocks are back at 0 |
| CtpSteady.AgreementLasts | chassis_bpdu.c:1563-1596 | so the plane keeps its two roots and its spanning tree over any number of rounds |
| CtpSteady.ColdStartLasts | chassis_bpdu.c:1502-1596 | from the 14th round of a cold start on, the plane is a spanning tree for good |
| CtpRoll.RollRound | chassis_bpdu.c:696-788 | in each steady round every card hears every card of the other kind, and holds those of its own kind by what its leader held after the round before |
| CtpRoll.RollCall | chassis_bpdu.c:469-500 | so from the second steady round on every running card of the plane holds every other one at age 7 or more, and from the 16th on its table holds exactly the running cards |
| CtpFailover.PicksSmallest | chassis_bpdu.c:511-528 | with the stopped LCs faded and the others just heard, reselection picks the smallest running LC, however the lost one is recorded |
| CtpFailover.Failover | chassis_bpdu.c:1563-1583 | the root LC has stopped: if the root FC's clock stood at s and no remembered age or clock is in the way, then after 18 - s rounds, and not before 17 - s, the plane agrees on the same root FC and the smallest running LC, is a spanning tree, and stays one; meanwhile no card leaves FORWARDING |
| CtpFailover.RootLcStops | chassis_bpdu.c:1563-1583 | so it goes whenever the root LC stops in the steady state, which is reached again afterwards |
| CtpMute.MuteRound | chassis_bpdu.c:840-851 | in a round in which no card of the plane says anything, its cards stay what their ticks made them, whatever the other plane says |
| CtpRestart.RootFcStops | chassis_bpdu.c:1584-1590 | the root FC stops in the steady state: for 46 rounds the others forward around the lost root, in round 47 they all go to BLOCK, and from round 61 on the plane is a spanning tree around the smallest cards left |
| CtpRestart.AnyStops | chassis_bpdu.c:1502-1596 | whichever card stops, from round 61 on the plane is a spanning tree again, and the roots that still run stay roots unless the root FC is the one that stopped |
| CtpJoin.GreetRound | chassis_bpdu.c:663-674 | in the first round after cards start in a steady plane, without the exception below, every new LC takes over both roots, and every new FC the root FC (lines 744-752) |
| CtpJoin.SettleRound | chassis_bpdu.c:1525-1561 | in each of the 13 rounds after it, new cards go one tick further, all keep the root FC, names of too small a root LC that new cards pass among themselves are put right once they forward, and the root FC never loses its root LC however many CONFIGs it answers |
| CtpJoin.JoinIff | chassis_bpdu.c:533-629 | any number of cards start together in a steady plane: after 14 rounds it agrees on the same roots if and only if no LC started together with an FC smaller than the root FC, and then it is a spanning tree for good |
| CtpLife.Survives | chassis_bpdu.c:1502-1596 | however many cards stop and start, one change after another, the plane is a spanning tree at the end, as long as one of each kind is left and that exception does not arise |
| CtpExamples.LateStartReachable | chassis_bpdu.c:1513-1522 | a reachable plane in BLOCK none of whose FCs may start the next round |
| CtpExamples.LoopReachable | chassis_bpdu.c:1247-1284 | a reachable chassis with a loop |
| CtpExamples.StoppedIsPicked | chassis_bpdu.c:511-531 | a reachable chassis whose root FC reselects the LC that has stopped |
| CtpLifeExamples.LifeExists | chassis_bpdu.c:1502-1596 | four cards come up, the root LC stops, and it starts again, no longer as root LC: a run that meets all that the theorems on cold start, steady state, stopping and starting ask for |
| CtpLifeExamples.ClashReachable | chassis_bpdu.c:533-548 | an LC and an FC smaller than the root FC start together in a steady plane, which does not settle |
| Crc8.ChecksumOfByte | crc_util.c:22-47 | the eight XOR constants are eight steps of the bit-serial register of 0x8C |
| Crc8.ChecksumOfBuffer | crc_util.c:49-59 | the loop over the buffer is the bit-serial run over all its bits |
| Crc8.Linear | crc_util.c:49-59 | the checksum of an XOR of two buffers is the XOR of their checksums |
| Crc8.Residue | crc_util.c:49-59 | a buffer and one more byte check to zero exactly when that byte is the checksum |
| Crc8.DetectsOdd | crc_util.c:49-59 | flipping an odd number of bits changes the checksum, at any length |
| Crc8.DetectsBurst | crc_util.c:49-59 | so does any damage within eight successive bits |
| Crc8.DetectsTwo | crc_util.c:49-59 | two flipped bits escape if and only if they are a multiple of 127 bits apart |
| Spi.Master.Select | spi_user/bcm5389.c:297-303 | chip select falls with no clock edge and opens a frame |
| Spi.Master.Deselect | spi_user/bcm5389.c:288-296 | chip select rises with no clock edge and closes the frame |
| Spi.Master.WriteBit | spi_user/bcm5389.c:308-333 | the receiver samples exactly this bit, once, and data is stable on the rising clock |
| Spi.Master.ReadBit | spi_user/bcm5389.c:343-354 | returns the level at MISO; the receiver meanwhile samples the held data bit |
| Spi.Master.WriteByte | spi_user/bcm5389.c:402-415 | the frame grows by the byte, high bit first |
| Spi.Master.ReadByte | spi_user/bcm5389.c:416-424 | the byte read is the eight levels at MISO, high bit first; the receiver gets a zero byte |
| Spi.Master.PagePrefix | spi_user/bcm5389.c:444-449 | the frame grows by the command byte and the register |
| Spi.Master.Write | spi_user/bcm5389.c:494-524 | the receiver gets exactly three more frames: status poll, page, offset with the value bytes; no select edge meets a clock edge and data is stable on every rising clock |
| Spi.Master.Read | spi_user/bcm5389.c:451-491 | the receiver gets exactly four more frames, and the bytes returned are the answers to the last; a negative size counts down through -128 and 127 to 0 |
| Spi.Master.WriteArgument | spi_user/bcm5389.c:642-701 | end to end: the third frame carries, least significant byte first and cut to the size, the number the value string writes if and only if its length is even, the character before it is no digit but 0, or its digits fill the size |
| Spi.ConvertStrToArray | spi_user/bcm5389.c:551-595 | fills the array from the end of the string, pair by pair, and nothing else, a string of odd length together with the character in memory before it; the comparison with the length has no effect |
| Spi.HexBytesValue | spi_user/bcm5389.c:568-592 | the converted bytes, least significant first, are the number the string writes; an 0x prefix counts as zero |
| Spi.PayloadValue | spi_user/bcm5389.c:515-521 | the exact condition for the bytes sent to be the number written modulo 256 to the power of the size |
| Spi.DigitIsPlace | spi_user/bcm5389.c:574-588 | the digits 0-9, a-f and A-F are worth their places, and every other character nothing |
| Spi.PrintedIsRead | spi_user/bcm5389.c:568-592 | any number printed in hexadecimal, in lower or upper case, is read back |
| Spi.PrintedIsSent | spi_user/bcm5389.c:515-521 | and goes out, with or without 0x, under the same condition |
| Spi.MsbFirst | spi_user/bcm5389.c:402-415 | a byte goes out as its bits 7, 6, ..., 0 |
| Spi.PinBits | spi_user/bcm5389.c:49-52 | chip select is bit 27 of the port, clock bit 0, data bit 1 |
| Spi.FrameRoundTrip | spi_user/bcm5389.c:402-415 | bytes framed high bit first and read back are the same bytes |
| Thermal.Manager.GetThermalStatus | shutdown_mgr.c:694-719 | one reading of each sensor: counters, and zero temperature and limit where the reading failed (lines 374-376) |
| Thermal.Manager.CollectHot | shutdown_mgr.c:728-742 | the loop over sensors collects exactly the cards with a sensor above its limit |
| Thermal.Manager.ShutdownLinecard | shutdown_mgr.c:606-624 | an LC is switched off locally or through the network, by the half it sits in |
| Thermal.Manager.HandleShutdown | shutdown_mgr.c:722-794 | the commands of the overheat pass, in order |
| Thermal.Manager.CheckErrors | shutdown_mgr.c:856-870 | whether some sensor stands at its second failure, and whether the 32-bit product of one's failures with the interval has reached the threshold |
| Thermal.Manager.HandleThermalIoError | shutdown_mgr.c:851-912 | the commands of the IO-error pass, in order |
| Thermal.Manager.Run | shutdown_mgr.c:946-952 | one poll; without a slot number it does nothing |
| ThermalRuns.OverheatExact | shutdown_mgr.c:722-794 | the overheat pass commands exactly the overheated cards, each once, LCs by number, then the neighbour, its own FC last |
| ThermalRuns.HotIffRead | shutdown_mgr.c:374-376 | a card counts as overheated only on a successful reading above the limit |
| ThermalRuns.HotByLayout | shutdown_mgr.c:455-468 | by the table of sensors: LC k is hot exactly if one of its six sensors read above its limit, an FC of the pair if one of its twelve did |
| ThermalRuns.CounterIsStreak | shutdown_mgr.c:702-717 | over any run, a counter has reached n exactly when the sensor failed n times with no success between |
| ThermalRuns.StreakIsCounter | shutdown_mgr.c:702-717 | and it is n exactly when n is the length of the streak |
| ThermalRuns.OverdueRange | shutdown_mgr.c:868 | the threshold is met from 20 failures on, until the product overflows at 715,828 |
| ThermalRuns.SelfOffIff | shutdown_mgr.c:868-911 | the IO-error pass switches the own card off exactly when the streak of some sensor meets the threshold |
| ThermalRuns.OthersOffIff | shutdown_mgr.c:861-906 | over any run with a fixed valid slot, the IO-error pass commands each LC, the neighbour and the resets if and only if some sensor has failed exactly twice with no success between, LCs of its half itself and the others through the network, and else none of them |
| ThermalRuns.IoCommandsAre | shutdown_mgr.c:851-912 | over any run, all that the pass commands, command by command and in order, for any slot number |
| ThermalRuns.OverdueIsTwenty | shutdown_mgr.c:868 | for streaks below 715,828 polls, that is 20 failures with no success between |
| ThermalRuns.OwnOffIff | shutdown_mgr.c:722-911 | a whole poll commands the own card off exactly when it is overheated or the streak of some sensor meets the threshold |
| ThermalRuns.Escalation | shutdown_mgr.c:865-911 | a card that switches itself off for IO errors has a sensor with 20 failures in a row, and at least 18 polls before it commanded all LCs and the neighbour FC off |
| Routing.FabricCard.FindMaster | chassis.c:1381-1396 | a group's master is the root FC if live there, else the smallest live FC, else none |
| Routing.FabricCard.CheckMasterFc | chassis.c:1361-1411 | all four masters are recomputed, and the answer is whether this card is one |
| Routing.MasterUnique | chassis.c:1381-1396 | which leaves no choice of master |
| Routing.FabricCard.ShutdownToClient | tcp_server.c:1809-1841 | a request goes to the master of the partner group, and what sending it returns is the answer; without one the answer is -1 and nothing is sent |
| Routing.FabricCard.ShutdownLinecard | udp_server.c:179-202 | a request is done here, sent on or refused, as the routing specification says, and the answer is that of the device, that of the sending, or negative |
| Routing.NoBounce | udp_server.c:179-202 | a request for LC slot 0..7 at any odd FC is done there, refused, or handed on exactly once to a card of the plane that does it itself; it is handed on exactly when the card is master and the partner group has one |
| RoutingRuns.HandlesByWiring | udp_server.c:179-202 | an FC switches exactly the LCs on its first four downlinks |
| RoutingRuns.HandlesAsThermal | shutdown_mgr.c:606-624 | it does itself exactly what the shutdown manager of its board does itself |
| RoutingRuns.MastersRun | chassis.c:1381-1396 | from the 16th steady round on every card of the plane computes the same masters: of each group the root FC if it runs there, else the smallest running FC, else none |
| RoutingRuns.RequestIsServed | udp_server.c:179-202 | then a request at a running FC is done there if it switches the slot; else it goes to a running FC that does, exactly if there is one and the FC asked is the running master of its group; else it is refused |

## Left out

- The exit path that puts a card in BLOCK and sends from a signal handler, and CPU B cards, which never run the protocol.
- The static topology, STATE_DISABLE, and the port between fabric cards, which is not part of the elected tree.
- root_path_cost, which is constant, the BPDU time fields, the role and learning bits of the flags, and Topo_Change and its count, which no handler reads; the pad byte of a member slot.
- The effect of the switch-board reset on the board itself; only its effect on the card's clock and on what is sent is modelled.
- Sockets, files, GPIO and i2c access: messages are a sequence in flight, device writes a sequence of commands or words, readings and MISO levels arbitrary inputs.
- The card type field: a card is a line card if its number is at most 32, as the shipped configuration says.
- Duplicated BPDU copies: each copy in flight is delivered at most once; loss and any reordering are modelled.
- The rounds of cold start, steady state, failover, restart and joining start with nothing in flight, are in lockstep and lose nothing; drift between the cards' ticks is not modelled there, while the invariants, isolation, gossip, port and loop theorems hold for runs with any interleaving of ticks, deliveries, losses, stops and starts.
- Spi.ConvertStrToArray: does not model what happens in memory when the string needs more bytes than the array has, which the program does not check.
- Spi.Master.WriteArgument: nor when the value has more than 16 characters or the size is more than the buffer of eight bytes.
- The SPI set-up of pin directions, the delay loop, and what the switch chip does with a frame.
- Thermal.Manager.GetThermalStatus: does not model the wrap-around of a failure counter itself, after 2 to the 31 failed polls.
- The warning pass of the shutdown manager, which only logs; the choice of device paths; the early return on line cards and without the driver.
- Routing.FabricCard.ShutdownToClient: what sending the request returns is an input; the partner's address and whether the request arrives are not modelled.
- Configuration files, VLAN set-up, diagnostic requests, hardware information, logging and the client programs.
