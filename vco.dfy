/** PLL VCO range selection: get_vco_input_range partitions the VCO input
    frequency into four bands, get_vco_output_range maps a band to the VCO
    output range. */
module Vco {
  import opened ClockTypes

  /** Lower (exclusive, except for the first band) and upper (inclusive) bounds of a band. */
  function BandLow(b: VcoInputRange): nat
  {
    match b
    case Range1To2 => 1 * MHZ
    case Range2To4 => 2 * MHZ
    case Range4To8 => 4 * MHZ
    case Range8To16 => 8 * MHZ
  }

  function BandHigh(b: VcoInputRange): nat
  {
    match b
    case Range1To2 => 2 * MHZ
    case Range2To4 => 4 * MHZ
    case Range4To8 => 8 * MHZ
    case Range8To16 => 16 * MHZ
  }

  /** The band a VCO input frequency belongs to: (low, high], and [1, 2] MHz for the first. */
  predicate InBand(f: nat, b: VcoInputRange)
  {
    (if b == Range1To2 then BandLow(b) <= f else BandLow(b) < f) && f <= BandHigh(b)
  }

  /** get_vco_input_range of a VCO input frequency (PLLSRC_FREQ / m_div):
      the band, or -ERANGE, in which case *range is not written. */
  function VcoInputBand(vcoFreq: nat): (r: Result<VcoInputRange>)
    ensures r.Ok? <==> 1 * MHZ <= vcoFreq <= 16 * MHZ
    ensures r.Ok? ==> InBand(vcoFreq, r.value)
    ensures r.Err? ==> r.code == -ERANGE
  {
    if 1 * MHZ <= vcoFreq <= 2 * MHZ then Ok(Range1To2)
    else if 2 * MHZ < vcoFreq <= 4 * MHZ then Ok(Range2To4)
    else if 4 * MHZ < vcoFreq <= 8 * MHZ then Ok(Range4To8)
    else if 8 * MHZ < vcoFreq <= 16 * MHZ then Ok(Range8To16)
    else Err(-ERANGE)
  }

  /** get_vco_input_range(m_div, &range) with the PLL input frequency of the build. */
  function GetVcoInputRange(pllSrcFreq: nat, m: nat): (r: Result<VcoInputRange>)
    requires m > 0
    ensures r.Ok? <==> 1 * MHZ <= pllSrcFreq / m <= 16 * MHZ
    ensures r.Ok? ==> InBand(pllSrcFreq / m, r.value)
    ensures r.Err? ==> r.code == -ERANGE
  {
    VcoInputBand(pllSrcFreq / m)
  }

  /** get_vco_output_range. */
  function GetVcoOutputRange(b: VcoInputRange): (r: VcoOutputRange)
    ensures r == VcoMedium <==> b == Range1To2
  {
    if b == Range1To2 then VcoMedium else VcoWide
  }

  /** The bands are disjoint and together cover exactly [1 MHz, 16 MHz]; the
      selected band is the one the frequency lies in, so 2 MHz selects 1-2 MHz. */
  lemma BandsPartition(f: nat)
    ensures forall b1, b2 :: InBand(f, b1) && InBand(f, b2) ==> b1 == b2
    ensures (exists b :: InBand(f, b)) <==> 1 * MHZ <= f <= 16 * MHZ
    ensures forall b :: VcoInputBand(f) == Ok(b) <==> InBand(f, b)
    ensures VcoInputBand(2 * MHZ) == Ok(Range1To2)
  {
    if 1 * MHZ <= f <= 16 * MHZ {
      assert InBand(f, VcoInputBand(f).value);
    }
  }

  /** The output range is MEDIUM exactly for VCO input frequencies of 1-2 MHz. */
  lemma OutputMediumIffLowestBand(f: nat)
    requires 1 * MHZ <= f <= 16 * MHZ
    ensures GetVcoOutputRange(VcoInputBand(f).value) == VcoMedium <==> f <= 2 * MHZ
  {
  }
}
