/** Lane bring-up tracking: AND-reductions of the per-lane init-done flags, the level
    that holds the jesd domain in reset, and the link-status flag. */
module Tracker {
  import opened Faults

  /** The two live init-done conditions of one physical lane. */
  datatype LaneStatus = LaneStatus(txInitDone: bool, rxInitDone: bool)

  /** reduce's left fold: ((acc & rest[0]) & rest[1]) & ... */
  function FoldAnd(acc: bool, rest: seq<bool>): (b: bool)
    decreases |rest|
  {
    if |rest| == 0 then acc else FoldAnd(acc && rest[0], rest[1..])
  }

  /** reduce(and_, flags) without an initial value: an empty list raises TypeError. */
  function AndReduce(flags: seq<bool>): (r: Result<bool>)
    ensures r.Err? <==> |flags| == 0
    ensures r.Err? ==> r.fault == TypeError
    ensures r.Ok? ==> (r.value <==> forall i :: 0 <= i < |flags| ==> flags[i])
  {
    if |flags| == 0 then Err(TypeError)
    else
      FoldAndIsConjunction(flags[0], flags[1..]);
      assert forall i :: 1 <= i < |flags| ==> flags[i] == flags[1..][i - 1];
      Ok(FoldAnd(flags[0], flags[1..]))
  }

  /** The left fold is the conjunction of its start value and every flag. */
  lemma {:induction false} FoldAndIsConjunction(acc: bool, rest: seq<bool>)
    ensures FoldAnd(acc, rest) <==> acc && forall i :: 0 <= i < |rest| ==> rest[i]
    decreases |rest|
  {
    if |rest| > 0 {
      FoldAndIsConjunction(acc && rest[0], rest[1..]);
      assert forall i :: 1 <= i < |rest| ==> rest[i] == rest[1..][i - 1];
    }
  }

  /** The combined signal is true iff every lane's flag is true. */
  lemma AndReduceIffAll(flags: seq<bool>)
    requires |flags| > 0
    ensures AndReduce(flags) == Ok(forall i :: 0 <= i < |flags| ==> flags[i])
  {
    FoldAndIsConjunction(flags[0], flags[1..]);
    assert forall i :: 1 <= i < |flags| ==> flags[i] == flags[1..][i - 1];
  }

  /** The combined signal does not depend on the order of the lanes. */
  lemma AndReduceOrderIndependent(flags: seq<bool>, other: seq<bool>)
    requires multiset(flags) == multiset(other)
    ensures AndReduce(flags) == AndReduce(other)
  {
    assert |flags| == |multiset(flags)| == |multiset(other)| == |other|;
    if |flags| > 0 {
      AndReduceIffAll(flags);
      AndReduceIffAll(other);
      assert (forall i :: 0 <= i < |flags| ==> flags[i]) <==> false !in multiset(flags) by {
        if exists i :: 0 <= i < |flags| && !flags[i] {
          var i :| 0 <= i < |flags| && !flags[i];
          assert flags[i] in multiset(flags);
        }
      }
      assert (forall i :: 0 <= i < |other| ==> other[i]) <==> false !in multiset(other) by {
        if exists i :: 0 <= i < |other| && !other[i] {
          var i :| 0 <= i < |other| && !other[i];
          assert other[i] in multiset(other);
        }
      }
    }
  }

  /** Any single lane dropping its flag clears the combined signal, whichever lane it is. */
  lemma AndReduceClearedLane(flags: seq<bool>, k: nat)
    requires k < |flags|
    ensures AndReduce(flags[k := false]) == Ok(false)
  {
    AndReduceIffAll(flags[k := false]);
    assert flags[k := false][k] == false;
  }

  function TxDoneFlags(lanes: seq<LaneStatus>): (f: seq<bool>)
    ensures |f| == |lanes| && forall i :: 0 <= i < |lanes| ==> f[i] == lanes[i].txInitDone
  {
    seq(|lanes|, i requires 0 <= i < |lanes| => lanes[i].txInitDone)
  }

  function RxDoneFlags(lanes: seq<LaneStatus>): (f: seq<bool>)
    ensures |f| == |lanes| && forall i :: 0 <= i < |lanes| ==> f[i] == lanes[i].rxInitDone
  {
    seq(|lanes|, i requires 0 <= i < |lanes| => lanes[i].rxInitDone)
  }

  /** jesd_phys_tx_init_done and jesd_phys_rx_init_done. */
  function AllTxDone(lanes: seq<LaneStatus>): (r: Result<bool>)
  {
    AndReduce(TxDoneFlags(lanes))
  }

  function AllRxDone(lanes: seq<LaneStatus>): (r: Result<bool>)
  {
    AndReduce(RxDoneFlags(lanes))
  }

  /** The level driving the jesd domain's reset: asserted while not both are done. */
  function ResetAsserted(allTxDone: bool, allRxDone: bool): (asserted: bool)
    ensures !asserted <==> allTxDone && allRxDone
  {
    !(allTxDone && allRxDone)
  }

  /** The reset level computed from the lanes' flags. */
  function JesdReset(lanes: seq<LaneStatus>): (r: Result<bool>)
    ensures r.Err? <==> |lanes| == 0
    ensures r.Err? ==> r.fault == TypeError
  {
    match AllTxDone(lanes)
    case Err(f) => Err(f)
    case Ok(tx) =>
      match AllRxDone(lanes)
      case Err(f) => Err(f)
      case Ok(rx) => Ok(ResetAsserted(tx, rx))
  }

  /** Both combined signals are true exactly when every lane reports done in that direction. */
  lemma {:induction false} AllDoneIffEveryLane(lanes: seq<LaneStatus>)
    requires |lanes| > 0
    ensures AllTxDone(lanes) == Ok(forall i :: 0 <= i < |lanes| ==> lanes[i].txInitDone)
    ensures AllRxDone(lanes) == Ok(forall i :: 0 <= i < |lanes| ==> lanes[i].rxInitDone)
  {
    AndReduceIffAll(TxDoneFlags(lanes));
    AndReduceIffAll(RxDoneFlags(lanes));
  }

  /** Reset is asserted exactly when some lane has not finished in some direction. */
  lemma ResetIffSomeLaneNotDone(lanes: seq<LaneStatus>)
    requires |lanes| > 0
    ensures JesdReset(lanes)
         == Ok(exists i :: 0 <= i < |lanes| && !(lanes[i].txInitDone && lanes[i].rxInitDone))
  {
    AllDoneIffEveryLane(lanes);
  }

  /** A lane that regresses in either direction asserts the reset at once. */
  lemma RegressedLaneAssertsReset(lanes: seq<LaneStatus>, k: nat, status: LaneStatus)
    requires k < |lanes|
    requires !(status.txInitDone && status.rxInitDone)
    ensures JesdReset(lanes[k := status]) == Ok(true)
  {
    ResetIffSomeLaneNotDone(lanes[k := status]);
    assert lanes[k := status][k] == status;
  }

  /** jesd_link_status: the enable & jsync term ANDed with itself. */
  function LinkStatus(enable: bool, jsync: bool): (status: bool)
    ensures status <==> enable && jsync
  {
    (enable && jsync) && (enable && jsync)
  }
}
