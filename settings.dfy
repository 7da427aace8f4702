/** JESD204B link parameters chosen from the lane count. */
module JesdSettings {
  import opened Faults

  /** Physical-layer parameters: lanes L, converters M, sample bits N, container bits N'. */
  datatype PhysicalSettings = PhysicalSettings(l: nat, m: nat, n: nat, np: nat)

  /** Transport-layer parameters: octets per frame F, samples per frame S, frames per
      multiframe K, control bits CS. */
  datatype TransportSettings = TransportSettings(f: nat, s: nat, k: nat, cs: nat)

  datatype LinkSettings = LinkSettings(
    phy: PhysicalSettings,
    transport: TransportSettings,
    did: nat,
    bid: nat,
    framing: bool,
    scrambling: bool)

  /** The settings handed to the cores: the TX settings exist only in the 4-lane branch. */
  datatype LinkConfig = LinkConfig(tx: Option<LinkSettings>, rx: LinkSettings)

  const DeviceId: nat := 0x5a
  const BankId: nat := 0x5

  /** The transport settings shared by both supported branches. */
  function CommonTransport(): (t: TransportSettings)
  {
    TransportSettings(f := 2, s := 1, k := 32, cs := 0)
  }

  /** The if/elif chain over the lane count: 2 lanes and every count other than 4 and 8
      raise NotImplementedError; there is no fallback configuration. */
  function SelectSettings(lanes: nat, framing: bool, scrambling: bool): (r: Result<LinkConfig>)
    ensures r.Ok? <==> lanes == 4 || lanes == 8
    ensures r.Err? ==> r.fault == NotImplemented(lanes)
    ensures r.Ok? ==> r.value.rx.phy.l == lanes
    ensures r.Ok? ==> r.value.rx.did == DeviceId && r.value.rx.bid == BankId
    ensures r.Ok? ==> r.value.rx.framing == framing && r.value.rx.scrambling == scrambling
    ensures r.Ok? ==> (r.value.tx.Some? <==> lanes == 4)
    ensures r.Ok? && r.value.tx.Some? ==> r.value.tx.value == r.value.rx
  {
    if lanes == 2 then
      Err(NotImplemented(lanes))
    else if lanes == 4 then
      var tx := LinkSettings(PhysicalSettings(l := 4, m := 4, n := 8, np := 8), CommonTransport(),
                             DeviceId, BankId, framing, scrambling);
      var rx := LinkSettings(PhysicalSettings(l := 4, m := 4, n := 8, np := 8), CommonTransport(),
                             DeviceId, BankId, framing, scrambling);
      Ok(LinkConfig(Some(tx), rx))
    else if lanes == 8 then
      var rx := LinkSettings(PhysicalSettings(l := 8, m := 4, n := 16, np := 16), CommonTransport(),
                             DeviceId, BankId, framing, scrambling);
      Ok(LinkConfig(None, rx))
    else
      Err(NotImplemented(lanes))
  }

  /** The two accepted branches, parameter by parameter. */
  lemma FourLaneSettings(framing: bool, scrambling: bool)
    ensures var r := SelectSettings(4, framing, scrambling);
      && r.Ok?
      && r.value.rx.phy == PhysicalSettings(4, 4, 8, 8)
      && r.value.rx.transport == TransportSettings(2, 1, 32, 0)
      && r.value.rx.did == 0x5a && r.value.rx.bid == 0x5
      && r.value.tx == Some(r.value.rx)
  {
  }

  lemma EightLaneSettings(framing: bool, scrambling: bool)
    ensures var r := SelectSettings(8, framing, scrambling);
      && r.Ok?
      && r.value.rx.phy == PhysicalSettings(8, 4, 16, 16)
      && r.value.rx.transport == TransportSettings(2, 1, 32, 0)
      && r.value.rx.did == 0x5a && r.value.rx.bid == 0x5
      && r.value.tx == None
  {
  }
}
