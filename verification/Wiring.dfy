/**
 How the backplane is wired, as plain tables: which uplink of a line card leads to
 which fabric card, and which downlink of a fabric card to which line card.
 */
module Wiring {

  /** By fabric card, from 33 to 48. */
  const UPLINKS: seq<nat> := [0, 0, 1, 1, 2, 2, 3, 3, 0, 0, 1, 1, 2, 2, 3, 3]

  /** By line card, from 1 to 32, at fabric cards 33..36 and 41..44. */
  const NEAR_DOWNLINKS: seq<nat> :=
    [0, 0, 1, 1, 2, 2, 3, 3, 4, 4, 5, 5, 6, 6, 7, 7, 0, 0, 1, 1, 2, 2, 3, 3, 4, 4, 5, 5, 6, 6, 7, 7]

  /** By line card, at fabric cards 37..40 and 45..48. */
  const FAR_DOWNLINKS: seq<nat> :=
    [4, 4, 5, 5, 6, 6, 7, 7, 0, 0, 1, 1, 2, 2, 3, 3, 4, 4, 5, 5, 6, 6, 7, 7, 0, 0, 1, 1, 2, 2, 3, 3]

  const NEAR: set<nat> := {33, 34, 35, 36, 41, 42, 43, 44}

  function Uplink(fc: nat): nat
    requires 33 <= fc <= 48
  {
    UPLINKS[fc - 33]
  }

  function Downlink(fc: nat, lc: nat): nat
    requires 33 <= fc <= 48 && 1 <= lc <= 32
  {
    if fc in NEAR then NEAR_DOWNLINKS[lc - 1] else FAR_DOWNLINKS[lc - 1]
  }
}
