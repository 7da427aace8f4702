/** The JESD clock plan: frequencies in whole Hz derived from the line rate and the
    reference clock. */
module Clocking {
  import opened Faults

  /** The board's constants: a 6.25 Gb/s line rate and a 156.25 MHz GTH reference clock. */
  const LineRateHz: nat := 6_250_000_000
  const RefClkHz: nat := 156_250_000
  /** The fixed auxiliary clock generated next to the JESD clocks. */
  const FixedClkHz: nat := 156_250_000
  /** The user clock runs at the line rate over 40 (one 40-bit word per user cycle). */
  const LineRateDivider: nat := 40

  datatype ClockPlan = ClockPlan(
    userClkHz: nat,   // jesd_156_25 domain
    halfClkHz: nat,   // jesd_78_125 domain
    fixedClkHz: nat,  // clk156_25 domain
    pllInHz: nat)     // the divided-by-2 reference feeding the MMCM

  /** x / d when it is a whole number, and a fault otherwise. */
  function ExactDiv(x: nat, d: nat): (r: Result<nat>)
    requires d > 0
    ensures r.Ok? <==> x % d == 0
    ensures r.Ok? ==> r.value * d == x
    ensures r.Err? ==> r.fault == NonIntegralClock(x, d)
  {
    if x % d == 0 then Ok(x / d) else Err(NonIntegralClock(x, d))
  }

  /** Clock derivation: user clock = line rate / 40, half-rate clock = user clock / 2,
      MMCM input = reference clock / 2. */
  function DeriveClocks(refClkHz: nat, lineRateHz: nat): (r: Result<ClockPlan>)
    ensures r.Ok? <==> lineRateHz % 40 == 0 && (lineRateHz / 40) % 2 == 0 && refClkHz % 2 == 0
    ensures r.Ok? ==> r.value.userClkHz * LineRateDivider == lineRateHz
    ensures r.Ok? ==> r.value.halfClkHz * 80 == lineRateHz
    ensures r.Ok? ==> r.value.halfClkHz * 2 == r.value.userClkHz
    ensures r.Ok? ==> r.value.pllInHz * 2 == refClkHz
    ensures r.Ok? ==> r.value.fixedClkHz == FixedClkHz
  {
    match ExactDiv(lineRateHz, LineRateDivider)
    case Err(f) => Err(f)
    case Ok(user) =>
      match ExactDiv(user, 2)
      case Err(f) => Err(f)
      case Ok(half) =>
        match ExactDiv(refClkHz, 2)
        case Err(f) => Err(f)
        case Ok(pllIn) => Ok(ClockPlan(user, half, FixedClkHz, pllIn))
  }

  /** The board's own rates: 156.25 MHz, 78.125 MHz, 156.25 MHz and a 78.125 MHz MMCM input. */
  lemma BoardClocks()
    ensures DeriveClocks(RefClkHz, LineRateHz)
         == Ok(ClockPlan(156_250_000, 78_125_000, 156_250_000, 78_125_000))
  {
  }

  /** The RX converter data path is 8 bits per lane. */
  function ConverterDataWidth(lanes: nat): (w: nat)
    ensures w % 8 == 0 && w / 8 == lanes
  {
    lanes * 8
  }
}
