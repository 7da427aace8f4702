/** Elaboration of the JESD204B receive link of the board, in source order: settings from
    the lane count, the clock plan, the PHY family, one PHY per lane, the RX lane reorder
    and the RX core's parameters; and the live signals computed from the built link. */
module Board {
  import opened Faults
  import opened JesdSettings
  import opened Clocking
  import opened Transceivers
  import opened Tracker
  import opened Remap

  /** The board's JESD constants: family tag, RX order map, reference clock, line rate,
      framing, scrambling and the STPL test-pattern switch. */
  datatype BoardParams = BoardParams(
    phyTag: string,
    rxOrder: seq<int>,
    refClkHz: nat,
    lineRateHz: nat,
    framing: bool,
    scrambling: bool,
    stplRandom: bool)

  /** The values the board file ships with. */
  function BoardDefaults(): (p: BoardParams)
  {
    BoardParams(BoardPhyTag, [3, 0, 2, 1], RefClkHz, LineRateHz, true, true, false)
  }

  /** The quad PLL, fed the undivided reference clock and the line rate. */
  datatype JesdPll = JesdPll(cls: PllClass, refClkHz: nat, lineRateHz: nat)

  /** What the RX core is constructed from. */
  datatype RxCore = RxCore(
    lanes: seq<Phy>,
    settings: LinkSettings,
    converterDataWidth: nat,
    scrambling: bool,
    stplRandom: bool)

  datatype JesdLink = JesdLink(
    config: LinkConfig,
    clocks: ClockPlan,
    pll: JesdPll,
    phys: seq<Phy>,
    rx: RxCore)

  /** The elaboration as a function of the constants; the first raising step wins. */
  function Elaborate(p: BoardParams): (r: Result<JesdLink>)
  {
    var lanes := |p.rxOrder|;
    var config :- SelectSettings(lanes, p.framing, p.scrambling);
    var clocks :- DeriveClocks(p.refClkHz, p.lineRateHz);
    var family :- DispatchFamily(p.phyTag);
    var phys :- LanePhys(family, lanes);
    var rxLanes :- Reorder(phys, p.rxOrder);
    Ok(JesdLink(config, clocks, JesdPll(family.pll, p.refClkHz, p.lineRateHz), phys,
                RxCore(rxLanes, config.rx, ConverterDataWidth(lanes), p.scrambling, p.stplRandom)))
  }

  /** The same steps as Elaborate; this method exists only so that the lane loop runs as
      the loop BuildPhys rather than through its closed form LanePhys. */
  method BringUp(p: BoardParams) returns (r: Result<JesdLink>)
    ensures r == Elaborate(p)
    ensures r.Ok? ==> |r.value.phys| == |p.rxOrder| == |r.value.rx.lanes|
  {
    var lanes := |p.rxOrder|;
    var config :- SelectSettings(lanes, p.framing, p.scrambling);
    var clocks :- DeriveClocks(p.refClkHz, p.lineRateHz);
    var family :- DispatchFamily(p.phyTag);
    var phys :- BuildPhys(family, lanes);
    var rxLanes :- Reorder(phys, p.rxOrder);
    var pll := JesdPll(family.pll, p.refClkHz, p.lineRateHz);
    var core := RxCore(rxLanes, config.rx, ConverterDataWidth(lanes), p.scrambling, p.stplRandom);
    return Ok(JesdLink(config, clocks, pll, phys, core));
  }

  /** Every entry of the order map can subscript a list of n PHYs. */
  predicate OrderInRange(order: seq<int>, n: nat)
  {
    forall i :: 0 <= i < |order| ==> -(n as int) <= order[i] < n
  }

  /** Elaboration succeeds exactly when the lane count is 4 or 8, the derived clocks are
      whole numbers of Hz, the tag is "gth4" and every order entry is a valid subscript. */
  lemma ElaborateSucceedsIff(p: BoardParams)
    ensures Elaborate(p).Ok? <==>
      && (|p.rxOrder| == 4 || |p.rxOrder| == 8)
      && DeriveClocks(p.refClkHz, p.lineRateHz).Ok?
      && p.phyTag == "gth4"
      && OrderInRange(p.rxOrder, |p.rxOrder|)
  {
  }

  /** Which fault stops elaboration: an unsupported lane count is reported before anything
      else; an unknown tag is reported once settings and clocks are fine. */
  lemma ElaborateFaults(p: BoardParams)
    ensures !(|p.rxOrder| == 4 || |p.rxOrder| == 8) ==>
      Elaborate(p) == Err(NotImplemented(|p.rxOrder|))
    ensures ((|p.rxOrder| == 4 || |p.rxOrder| == 8) && DeriveClocks(p.refClkHz, p.lineRateHz).Ok?
             && p.phyTag != "gth4") ==> Elaborate(p) == Err(KeyError(p.phyTag))
    ensures Elaborate(p).Err? && Elaborate(p).fault.IndexError? ==>
      Elaborate(p).fault.entry in p.rxOrder
  {
  }

  /** The pad request in the lane loop never fails during elaboration: the settings chain
      admits at most 8 lanes, and the platform declares 8 pad pairs. */
  lemma ElaborateNeverLacksPads(p: BoardParams)
    ensures Elaborate(p).Err? ==> !Elaborate(p).fault.ConstraintError?
  {
  }

  /** An order map with a duplicate is accepted: with 0, 0, 1, 2 the link elaborates, RX
      lane 0 and RX lane 1 are both physical lane 0, and physical lane 3 never reaches the
      RX core. */
  lemma DuplicateOrderDropsLane()
    ensures var r := Elaborate(BoardDefaults().(rxOrder := [0, 0, 1, 2]));
      && r.Ok?
      && |r.value.phys| == 4
      && r.value.rx.lanes[0] == r.value.rx.lanes[1] == r.value.phys[0]
      && r.value.phys[3] !in r.value.rx.lanes
      && (forall i :: 0 <= i < |r.value.rx.lanes| ==> r.value.rx.lanes[i].n != 3)
  {
    var p := BoardDefaults().(rxOrder := [0, 0, 1, 2]);
    ElaboratedLinkShape(p);
  }

  /** The shape of a built link: one PHY per order entry, PHY i tagged n = i at position i,
      RX lane i is the PHY the i-th order entry selects, L equals the lane count, and the
      converter data width is 8 bits per lane. */
  lemma ElaboratedLinkShape(p: BoardParams)
    requires Elaborate(p).Ok?
    ensures var link := Elaborate(p).value;
      && |link.phys| == |p.rxOrder| == |link.rx.lanes|
      && (forall i :: 0 <= i < |link.phys| ==> link.phys[i].n == i && link.phys[i].dataWidth == 20)
      && (forall i :: 0 <= i < |p.rxOrder| ==>
            link.rx.lanes[i] == link.phys[PyIndex(p.rxOrder[i], |link.phys|).value])
      && (forall i :: 0 <= i < |p.rxOrder| && p.rxOrder[i] >= 0 ==> link.rx.lanes[i].n == p.rxOrder[i])
      && link.rx.settings.phy.l == |link.rx.lanes|
      && link.rx.converterDataWidth == 8 * |link.phys|
      && link.pll.cls == GTH4QuadPLL
  {
  }

  /** A built link holds the lane loop's PHY list and its reorder by the RX order map. */
  lemma ElaboratedParts(p: BoardParams)
    requires Elaborate(p).Ok?
    ensures LanePhys(PhyFamily(GTH4QuadPLL, GTH4, 20), |p.rxOrder|)
         == Ok(Elaborate(p).value.phys)
    ensures Reorder(Elaborate(p).value.phys, p.rxOrder) == Ok(Elaborate(p).value.rx.lanes)
  {
  }

  /** With a permutation as order map, the RX core receives every PHY exactly once, and the
      inverse map restores the physical order. */
  lemma PermutedLinkHasEveryLaneOnce(p: BoardParams)
    requires Elaborate(p).Ok?
    requires IsPermutation(p.rxOrder, |p.rxOrder|)
    ensures var link := Elaborate(p).value;
      && multiset(link.rx.lanes) == multiset(link.phys)
      && (forall j :: 0 <= j < |link.phys| ==> link.phys[j] in link.rx.lanes)
      && (forall i, j :: 0 <= i < j < |link.rx.lanes| ==> link.rx.lanes[i] != link.rx.lanes[j])
      && Reorder(link.rx.lanes, Inverse(p.rxOrder)) == Ok(link.phys)
  {
    ElaboratedParts(p);
    var phys := Elaborate(p).value.phys;
    var rx := Elaborate(p).value.rx.lanes;
    assert |phys| == |p.rxOrder|;
    assert forall i, j :: 0 <= i < j < |phys| ==> phys[i].n != phys[j].n;
    ReorderPermutes(phys, p.rxOrder);
    ReorderRoundTrip(phys, p.rxOrder);
  }

  /** The board as shipped: four lanes in RX order 3, 0, 2, 1, the 4-lane settings for both
      directions, the 156.25 / 78.125 MHz clock plan and a 32-bit converter path. */
  lemma BoardDefaultsElaborate()
    ensures var r := Elaborate(BoardDefaults());
      && r.Ok?
      && |r.value.phys| == 4
      && (forall i :: 0 <= i < 4 ==> r.value.rx.lanes[i].n == [3, 0, 2, 1][i])
      && r.value.config.rx.phy == PhysicalSettings(4, 4, 8, 8)
      && r.value.config.tx == Some(r.value.config.rx)
      && r.value.clocks == ClockPlan(156_250_000, 78_125_000, 156_250_000, 78_125_000)
      && r.value.rx.converterDataWidth == 32
  {
  }

  /** The commented-out eight-lane map 3, 0, 2, 1, 7, 4, 6, 5 elaborates with the 8-lane
      RX settings and no TX settings. */
  lemma EightLaneOrderElaborates()
    ensures var p := BoardDefaults().(rxOrder := [3, 0, 2, 1, 7, 4, 6, 5]);
      && Elaborate(p).Ok?
      && Elaborate(p).value.config == LinkConfig(None, Elaborate(p).value.config.rx)
      && Elaborate(p).value.config.rx.phy == PhysicalSettings(8, 4, 16, 16)
      && Elaborate(p).value.rx.converterDataWidth == 64
  {
  }

  /** The live levels of a built link, from each PHY's init-done flags (listed in physical
      order) and the RX core's enable and jsync. */
  datatype Signals = Signals(jesdReset: bool, linkStatus: bool)

  function Observe(link: JesdLink, status: seq<LaneStatus>, enable: bool, jsync: bool): (r: Result<Signals>)
    requires |status| == |link.phys|
    ensures r.Err? <==> |link.phys| == 0
  {
    var reset :- JesdReset(status);
    Ok(Signals(reset, LinkStatus(enable, jsync)))
  }

  /** On a built link the reset is held exactly while some PHY is not done in some
      direction, and the link status is enable && jsync. */
  lemma ObservedSignals(p: BoardParams, status: seq<LaneStatus>, enable: bool, jsync: bool)
    requires Elaborate(p).Ok?
    requires |status| == |Elaborate(p).value.phys|
    ensures var r := Observe(Elaborate(p).value, status, enable, jsync);
      && r.Ok?
      && (r.value.jesdReset <==>
            exists i :: 0 <= i < |status| && !(status[i].txInitDone && status[i].rxInitDone))
      && (r.value.linkStatus <==> enable && jsync)
  {
    ResetIffSomeLaneNotDone(status);
  }

  /** The per-lane flags of the reordered lanes are the reordered flags. */
  lemma RemappedFlags(status: seq<LaneStatus>, order: seq<int>)
    requires IsPermutation(order, |status|)
    ensures multiset(RxDoneFlags(Gather(status, order))) == multiset(RxDoneFlags(status))
    ensures multiset(TxDoneFlags(Gather(status, order))) == multiset(TxDoneFlags(status))
  {
    var logical := Gather(status, order);
    GatherPermutes(RxDoneFlags(status), order);
    assert Gather(RxDoneFlags(status), order) == RxDoneFlags(logical);
    GatherPermutes(TxDoneFlags(status), order);
    assert Gather(TxDoneFlags(status), order) == TxDoneFlags(logical);
  }

  /** Combining the flags in logical RX order instead of physical order gives the same
      ready signals. */
  lemma ReadyUnaffectedByRemap(status: seq<LaneStatus>, order: seq<int>)
    requires IsPermutation(order, |status|)
    ensures Reorder(status, order).Ok?
    ensures AllRxDone(Reorder(status, order).value) == AllRxDone(status)
    ensures AllTxDone(Reorder(status, order).value) == AllTxDone(status)
  {
    ReorderInRange(status, order);
    var logical := Gather(status, order);
    RemappedFlags(status, order);
    AndReduceOrderIndependent(RxDoneFlags(logical), RxDoneFlags(status));
    AndReduceOrderIndependent(TxDoneFlags(logical), TxDoneFlags(status));
  }

  /** Eight lanes mapped 3, 0, 2, 1, 7, 4, 6, 5: while physical lane 3 has not finished
      RX init, the RX-ready signal stays false and reset stays asserted, whatever the
      other seven lanes do. */
  lemma RxReadyWaitsForLaneThree(status: seq<LaneStatus>)
    requires |status| == 8
    requires !status[3].rxInitDone
    ensures AllRxDone(status) == Ok(false)
    ensures JesdReset(status) == Ok(true)
    ensures Reorder(status, [3, 0, 2, 1, 7, 4, 6, 5]).Ok?
    ensures AllRxDone(Reorder(status, [3, 0, 2, 1, 7, 4, 6, 5]).value) == Ok(false)
  {
    AllDoneIffEveryLane(status);
    ResetIffSomeLaneNotDone(status);
    ReadyUnaffectedByRemap(status, [3, 0, 2, 1, 7, 4, 6, 5]);
  }
}
