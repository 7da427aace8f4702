# JESD204B receive-link bring-up of the AXAU15 + ADC08DJ5200RF board

This project models the JESD204B part of `BaseSoC.__init__` in the LiteX board file
`axau15_adc08dj5200rf.py`, and proves properties of that model. It covers six pieces:

- choosing the link settings from the lane count;
- deriving the JESD clock plan;
- picking the transceiver family from its string tag;
- the loop that builds and numbers one GTH4 PHY per lane;
- the `reduce(and_)` ready signals and the reset level of the `jesd` clock domain;
- the RX lane reorder `[jesd_phys[n] for n in order]`, and the link-status flag.

The exceptions of the board file are `Fault` values in a `Result`. Elaboration
(`Board.Elaborate`) can stop with:

- `NotImplemented` for an unsupported lane count;
- `NonIntegralClock` for a derived clock that is not a whole number of Hz (a model
  choice; see below);
- `KeyError` for an unknown family tag;
- `IndexError` for an order-map entry that cannot subscript the PHY list.

`ConstraintError`, for a lane pad pair the platform does not declare, belongs to the
lane loop (`Transceivers.LanePhys`, `Transceivers.BuildPhys`). It cannot arise in
`Elaborate`: the settings chain admits at most 8 lanes, and the platform declares 8
pad pairs (`Board.ElaborateNeverLacksPads`).

`TypeError` from `reduce` over an empty list is not an elaboration fault: it
belongs to the live ready signals (`Tracker.JesdReset`, `Board.Observe`), and no
elaborated link has zero lanes.

Hardware signals are plain booleans.

Files and modules:

- `faults.dfy` (`Faults`): `Option`, `Result`, `Fault`.
- `settings.dfy` (`JesdSettings`): the lane-count `if/elif` chain and the settings records.
- `clocking.dfy` (`Clocking`): the clock plan in whole Hz and the converter data width.
- `transceivers.dfy` (`Transceivers`): the tag dispatch tables, the PHY record and the
  lane-construction loop (`BuildPhys`, a method with a loop, proved against `LanePhys`).
- `tracker.dfy` (`Tracker`): `reduce(and_)` as a left fold, the ready signals, the reset
  level and the link status.
- `remap.dfy` (`Remap`): the reorder with Python's list-subscript rules, and the
  permutation, coverage and inverse round-trip lemmas.
- `board.dfy` (`Board`): the steps in source order, as the function `Elaborate` and the
  method `BringUp`. It also covers the live signals of a built link and the
  configurations the board ships with.

An RX order map is meant to be a permutation of 0..N-1, so that every physical lane
reaches the RX core exactly once. The code does not check this, and the model follows
the code. A negative entry in `[-N, 0)` selects a PHY counted from the end of the list,
and duplicates pass through. Only entries outside `[-N, N)` raise `IndexError`, as
`Remap.Reorder` states. `Board.DuplicateOrderDropsLane` shows the consequence: the map
0, 0, 1, 2 elaborates, and physical lane 3 never reaches the RX core. The permutation facts are stated for order maps that are
permutations.

The clock plan is the one place where the model does not follow the code. The source
divides floats (lines 265 and 284-287) and never raises there. `Clocking.DeriveClocks`
works in whole Hz and returns `NonIntegralClock` when a division is not exact. For the
board's constants every division is exact, so the shipped configuration is unaffected
(see "Left out").

## Model

| member | source | states |
|---|---|---|
| `JesdSettings.SelectSettings` | axau15_adc08dj5200rf.py:128-152 | succeeds iff the lane count is 4 or 8; otherwise (2 included) the fault is NotImplemented with that count, with no fallback; L equals the lane count; DID 0x5a and BID 0x5; framing and scrambling are passed through; TX settings exist iff 4 lanes, and then equal the RX settings |
| `JesdSettings.FourLaneSettings` | axau15_adc08dj5200rf.py:134-141 | for 4 lanes: L=4, M=4, N=8, N'=8, F=2, S=1, K=32, CS=0, DID 0x5a, BID 0x5, and TX settings identical to RX |
| `JesdSettings.EightLaneSettings` | axau15_adc08dj5200rf.py:143-150 | for 8 lanes: L=8, M=4, N=16, N'=16, F=2, S=1, K=32, CS=0, and no TX settings |
| `Clocking.DeriveClocks` | axau15_adc08dj5200rf.py:265-287 | user clock × 40 = line rate; half-rate clock × 2 = user clock (× 80 = line rate); PLL input × 2 = reference clock; fixed clock 156.25 MHz; fails exactly when one of these divisions is not exact |
| `Clocking.BoardClocks` | axau15_adc08dj5200rf.py:265-287 | at 6.25 Gb/s and 156.25 MHz the plan is 156 250 000 / 78 125 000 / 156 250 000 Hz, with a 78 125 000 Hz PLL input |
| `Transceivers.DispatchFamily` | axau15_adc08dj5200rf.py:302-316 | resolves iff the tag is "gth4", giving GTH4QuadPLL, GTH4 and data width 20; any other tag is KeyError(tag) |
| `Transceivers.BuildPhys` | axau15_adc08dj5200rf.py:322-342 | the appending loop yields `LanePhys`: length `lanes`, and element i tagged `n = i` |
| `Tracker.AndReduce` | axau15_adc08dj5200rf.py:344-345 | `reduce(and_, ...)` fails exactly on an empty list, with TypeError; otherwise it is true iff every flag is true |
| `Tracker.FoldAndIsConjunction` | axau15_adc08dj5200rf.py:344-345 | the left fold equals its start value ANDed with every flag |
| `Tracker.AndReduceIffAll` | axau15_adc08dj5200rf.py:344-345 | on a non-empty list, the combined signal is true iff every flag is true |
| `Tracker.AndReduceOrderIndependent` | axau15_adc08dj5200rf.py:344-345 | lists with the same multiset of flags give the same combined signal |
| `Tracker.AndReduceClearedLane` | axau15_adc08dj5200rf.py:344-345 | clearing any one lane's flag makes the combined signal false |
| `Tracker.AllDoneIffEveryLane` | axau15_adc08dj5200rf.py:344-345 | the TX-ready signal is true iff every lane's TX init is done, and likewise for RX |
| `Tracker.JesdReset` | axau15_adc08dj5200rf.py:344-346 | the reset level is undefined (TypeError) exactly when there are no lanes |
| `Tracker.ResetIffSomeLaneNotDone` | axau15_adc08dj5200rf.py:344-346 | reset is asserted iff some lane has not finished TX or RX init |
| `Tracker.RegressedLaneAssertsReset` | axau15_adc08dj5200rf.py:344-346 | any one lane losing either flag asserts the reset, whatever the others report |
| `Tracker.LinkStatus` | axau15_adc08dj5200rf.py:370-373 | the duplicated `(enable & jsync) & (enable & jsync)` is exactly `enable && jsync` for all four input pairs |
| `Remap.Reorder` | axau15_adc08dj5200rf.py:349 | succeeds iff every order entry is a valid subscript; the result has the order map's length, and element i is the PHY that entry i selects; otherwise IndexError names an offending entry of the map |
| `Remap.ReorderInRange` | axau15_adc08dj5200rf.py:349 | with entries in [0, N), element i of the result is `phys[order[i]]` |
| `Remap.GatherPermutes` | axau15_adc08dj5200rf.py:349 | selecting along a permutation gives a rearrangement: the multiset of elements is unchanged |
| `Remap.PermutationCoversEveryLane` | axau15_adc08dj5200rf.py:118 | a permutation order map names every lane 0..N-1 |
| `Remap.ReorderPermutes` | axau15_adc08dj5200rf.py:349 | along a permutation the reorder succeeds, keeps the multiset, contains every physical lane, and keeps distinct lanes distinct (so each lane appears exactly once) |
| `Remap.InverseIsPermutation` | axau15_adc08dj5200rf.py:349 | the inverse of a permutation order map is a permutation, and composing the two either way gives the identity |
| `Remap.ReorderRoundTrip` | axau15_adc08dj5200rf.py:349 | reordering and then applying the inverse map restores the physical order |
| `Remap.InverseRoundTrip` | axau15_adc08dj5200rf.py:349 | applying the inverse map and then the order map also restores the original list |
| `Remap.IdentityRoundTrip` | axau15_adc08dj5200rf.py:349 | reordering identity-ordered lanes yields the order map itself, and the inverse brings it back to identity order |
| `Board.BringUp` | axau15_adc08dj5200rf.py:128-367 | the elaboration steps, with the loop run as a loop, give exactly `Elaborate`'s result; a built link has as many PHYs and RX lanes as the order map has entries |
| `Board.ElaborateSucceedsIff` | axau15_adc08dj5200rf.py:128-349 | elaboration succeeds iff there are 4 or 8 lanes, the clocks are exact, the tag is "gth4" and every order entry is a valid subscript |
| `Board.ElaborateFaults` | axau15_adc08dj5200rf.py:128-349 | an unsupported lane count is reported before anything else; an unknown tag is KeyError once settings and clocks succeed; an IndexError names an entry of the order map |
| `Board.ElaborateNeverLacksPads` | axau15_adc08dj5200rf.py:322-342 | elaboration never fails for lack of a pad pair: the lane counts the settings chain admits never exceed the 8 declared pairs |
| `Board.DuplicateOrderDropsLane` | axau15_adc08dj5200rf.py:349 | the order map is not validated: 0, 0, 1, 2 elaborates, RX lanes 0 and 1 are both physical lane 0, and physical lane 3 is absent from the RX lanes |
| `Board.ElaboratedLinkShape` | axau15_adc08dj5200rf.py:322-364 | one PHY per order entry, with PHY i tagged `n = i`; RX lane i is the PHY that order entry i selects; RX L equals the number of RX lanes; converter width is 8 × lanes; the PLL is GTH4QuadPLL |
| `Board.ElaboratedParts` | axau15_adc08dj5200rf.py:322-349 | a built link holds the loop's PHY list and the reorder of that list by the order map |
| `Board.PermutedLinkHasEveryLaneOnce` | axau15_adc08dj5200rf.py:118-349 | with a permutation order map the RX core gets every PHY exactly once, and the inverse map restores physical order |
| `Board.BoardDefaultsElaborate` | axau15_adc08dj5200rf.py:117-364 | the shipped constants elaborate to 4 lanes in RX order 3, 0, 2, 1, with the 4-lane settings for TX and RX, the 156.25/78.125 MHz plan and a 32-bit converter path |
| `Board.EightLaneOrderElaborates` | axau15_adc08dj5200rf.py:118-150 | the 8-lane map 3,0,2,1,7,4,6,5 elaborates with the 8-lane RX settings, no TX settings and a 64-bit converter path |
| `Board.Observe` | axau15_adc08dj5200rf.py:344-373 | the live levels of a built link are undefined only for a link without PHYs |
| `Board.ObservedSignals` | axau15_adc08dj5200rf.py:344-373 | on a built link, reset is held iff some PHY is not done in some direction, and link status is `enable && jsync` |
| `Board.RemappedFlags` | axau15_adc08dj5200rf.py:344-349 | the flags of the reordered lanes are a rearrangement of the physical flags |
| `Board.ReadyUnaffectedByRemap` | axau15_adc08dj5200rf.py:344-349 | combining the flags in logical RX order instead of physical order gives the same TX and RX ready signals |
| `Board.RxReadyWaitsForLaneThree` | axau15_adc08dj5200rf.py:344-349 | with 8 lanes mapped 3,0,2,1,7,4,6,5, RX-ready stays false and reset stays asserted until physical lane 3 finishes RX init, in physical or logical order |

## Left out

- Migen signal, `ClockDomain`, `Instance`, `self.comb` and `self.specials` construction:
  these are HDL elaboration inside libraries that are not part of this model. Signals are
  plain booleans, and each level is a function of the current flags.
- `AsyncResetSynchronizer`'s timing (asynchronous assert, synchronous release): this is
  library and hardware timing behaviour. Only the reset level at line 346 is modelled.
- IBUFDS_GTE4, the USPMMCM, BUFGMUX, the GTH4 transceivers and quad PLL internals, and the
  SYSREF `DifferentialInput` (lines 271-299, 318): these are vendor primitives. The PLL
  appears only as a record of its class and the frequencies handed to it. The BUFGMUX
  select input is unconnected, so the choice of active JESD clock is not modelled.
- Period and false-path constraints (lines 63, 294, 335-341): they use float periods and
  only feed the external build tools.
- `_CRG`, DDR4, PCIe, LedChaser, UART, SoCCore integration and `main()` (lines 45-111,
  380-418): these are I/O and build tooling.
- The platform pin table (lines 154-260): it is static pin names. Only its count of 8
  JESD TX/RX pad pairs is kept, as `Transceivers.PadPairs`.
- The unused lane-polarity list (line 119), the commented-out TX core and 8-lane TX
  settings, the JESD cores themselves, and `register_jsync`/`register_jref`: these are
  external library behaviour.
- `Clocking.DeriveClocks`: the source divides floats and never fails here. The model
  works in whole Hz and reports a rate that is not a whole number of Hz as
  `NonIntegralClock`. For the board's constants every division is exact.
- `Board.BringUp`: the source runs this as a constructor with side effects on the SoC
  object. It is modelled as a method that returns the built link as a value.
