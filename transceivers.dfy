/** The transceiver family chosen by its tag, and the loop that builds one PHY per lane. */
module Transceivers {
  import opened Faults

  datatype PllClass = GTH4QuadPLL
  datatype PhyClass = GTH4

  /** What the three dispatch tables give for one tag. */
  datatype PhyFamily = PhyFamily(pll: PllClass, phy: PhyClass, dataWidth: nat)

  /** The board's family tag. */
  const BoardPhyTag: string := "gth4"

  /** The three lookup tables keyed by family tag; only the GTH4 entries are present. */
  const PllClasses: map<string, PllClass> := map["gth4" := GTH4QuadPLL]
  const PhyClasses: map<string, PhyClass> := map["gth4" := GTH4]
  const PhyDataWidths: map<string, nat> := map["gth4" := 20]

  /** A dictionary subscript: a missing key raises KeyError. */
  function Lookup<V>(table: map<string, V>, tag: string): (r: Result<V>)
    ensures r.Ok? <==> tag in table
    ensures r.Ok? ==> r.value == table[tag]
    ensures r.Err? ==> r.fault == KeyError(tag)
  {
    if tag in table then Ok(table[tag]) else Err(KeyError(tag))
  }

  /** The three lookups in source order; they share their keys, so they fail together. */
  function DispatchFamily(tag: string): (r: Result<PhyFamily>)
    ensures r.Ok? <==> tag == "gth4"
    ensures r.Ok? ==> r.value == PhyFamily(GTH4QuadPLL, GTH4, 20)
    ensures r.Err? ==> r.fault == KeyError(tag)
  {
    match Lookup(PllClasses, tag)
    case Err(f) => Err(f)
    case Ok(pll) =>
      match Lookup(PhyClasses, tag)
      case Err(f) => Err(f)
      case Ok(phy) =>
        match Lookup(PhyDataWidths, tag)
        case Err(f) => Err(f)
        case Ok(width) => Ok(PhyFamily(pll, phy, width))
  }

  /** One lane's PHY as the loop configures it: its lane number, the TX and RX pad pairs
      it was given, the family's class and data width, no clock aligner, both elastic
      buffers on, stream endpoints added and controls without auto-enable. */
  datatype Phy = Phy(
    n: nat,
    txPads: nat,
    rxPads: nat,
    cls: PhyClass,
    dataWidth: nat,
    clockAligner: bool,
    txBufferEnable: bool,
    rxBufferEnable: bool,
    streamEndpoints: bool,
    autoEnable: bool)

  /** The platform extension declares this many JESD TX/RX pad pairs (indices 0..7). */
  const PadPairs: nat := 8

  /** The PHY built in iteration i of the loop. */
  function LanePhy(family: PhyFamily, i: nat): (p: Phy)
    ensures p.n == i && p.txPads == i && p.rxPads == i
    ensures p.cls == family.phy && p.dataWidth == family.dataWidth
  {
    Phy(i, i, i, family.phy, family.dataWidth, false, true, true, true, false)
  }

  /** The list the loop produces: the PHY for lane i at position i. Requesting a pad pair
      the platform lacks raises, at the first missing index. */
  function LanePhys(family: PhyFamily, lanes: nat): (r: Result<seq<Phy>>)
    ensures r.Ok? <==> lanes <= PadPairs
    ensures r.Err? ==> r.fault == ConstraintError(PadPairs)
    ensures r.Ok? ==> |r.value| == lanes
    ensures r.Ok? ==> forall i :: 0 <= i < lanes ==> r.value[i] == LanePhy(family, i)
  {
    if lanes <= PadPairs then Ok(seq(lanes, i requires 0 <= i => LanePhy(family, i)))
    else Err(ConstraintError(PadPairs))
  }

  /** The construction loop: request pads i, build PHY i, tag it with n = i, append it. */
  method BuildPhys(family: PhyFamily, lanes: nat) returns (r: Result<seq<Phy>>)
    ensures r == LanePhys(family, lanes)
    ensures r.Ok? ==> |r.value| == lanes
    ensures r.Ok? ==> forall i :: 0 <= i < lanes ==> r.value[i].n == i
  {
    var phys: seq<Phy> := [];
    var i: nat := 0;
    while i < lanes
      invariant i <= lanes && i <= PadPairs
      invariant |phys| == i
      invariant forall k :: 0 <= k < i ==> phys[k] == LanePhy(family, k)
    {
      if i >= PadPairs {
        return Err(ConstraintError(i));
      }
      // The PHY as constructed: pads i, no clock aligner, both buffers enabled, controls
      // added with auto_enable=False; not yet numbered and without stream endpoints.
      var phy := Phy(0, i, i, family.phy, family.dataWidth, false, true, true, false, false);
      phy := phy.(streamEndpoints := true);   // add_stream_endpoints()
      phy := phy.(n := i);                    // jesd_phy.n = i
      phys := phys + [phy];
      i := i + 1;
    }
    assert phys == LanePhys(family, lanes).value;
    return Ok(phys);
  }
}
