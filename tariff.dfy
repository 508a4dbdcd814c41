/**
 * The cost sensors of the electricity cost calculator: the kWh reading of an entity is
 * priced with a six-band progressive (block) tariff, optionally multiplied by (1 + VAT),
 * and rounded half-to-even to a whole number of VND.
 *
 * All arithmetic is over `real`, so the model is exact; the rates are parameters.
 */
module Tariff {
  import opened Wrappers

  /** The six per-kWh band rates and the VAT fraction. */
  datatype Rates = Rates(tier1: real, tier2: real, tier3: real, tier4: real, tier5: real, tier6: real, vat: real)

  /** The module constants `TIER_1_RATE` ... `TIER_6_RATE` and `VAT_RATE` that `sensor.py` prices with
      (VND per kWh, VAT 10%); the sensor does not read the rates stored in its config entry. */
  const ReferenceRates: Rates := Rates(1678.0, 1734.0, 2014.0, 2536.0, 2834.0, 2927.0, 0.1)

  predicate TierRatesNonNegative(r: Rates) {
    r.tier1 >= 0.0 && r.tier2 >= 0.0 && r.tier3 >= 0.0 && r.tier4 >= 0.0 && r.tier5 >= 0.0 && r.tier6 >= 0.0
  }

  /** What the host's state machine returns for the kWh entity: nothing, or an entity with a state string. */
  datatype KwhEntity = Missing | Present(state: string)

  /** A band of the tariff, numbered from 1 (0-50 kWh) to 6 (above 400 kWh). */
  type Tier = i: int | 1 <= i <= 6 witness 1

  /** The kWh at which band `tier` starts. */
  function LowerEdge(tier: Tier): real {
    [0.0, 50.0, 100.0, 200.0, 300.0, 400.0][tier - 1]
  }

  /** The kWh at which band `tier` ends; band 6 has no upper edge. */
  function UpperEdge(tier: Tier): real
    requires tier < 6
  {
    [50.0, 100.0, 200.0, 300.0, 400.0][tier - 1]
  }

  /** The cost formula of the branch of the if/elif chain that handles band `tier`. */
  function Branch(tier: Tier, kwh: real, r: Rates): real {
    if tier == 1 then kwh * r.tier1
    else if tier == 2 then 50.0 * r.tier1 + (kwh - 50.0) * r.tier2
    else if tier == 3 then 50.0 * r.tier1 + 50.0 * r.tier2 + (kwh - 100.0) * r.tier3
    else if tier == 4 then 50.0 * r.tier1 + 50.0 * r.tier2 + 100.0 * r.tier3 + (kwh - 200.0) * r.tier4
    else if tier == 5 then
      50.0 * r.tier1 + 50.0 * r.tier2 + 100.0 * r.tier3 + 100.0 * r.tier4 + (kwh - 300.0) * r.tier5
    else
      50.0 * r.tier1 + 50.0 * r.tier2 + 100.0 * r.tier3 + 100.0 * r.tier4 + 100.0 * r.tier5
        + (kwh - 400.0) * r.tier6
  }

  /** The cost before VAT, as the sensor's if/elif chain computes it. */
  function BaseCost(kwh: real, r: Rates): (c: real)
    ensures kwh <= 0.0 ==> c == 0.0
    ensures TierRatesNonNegative(r) ==> c >= 0.0
  {
    if kwh > 0.0 then
      if kwh <= 50.0 then Branch(1, kwh, r)
      else if kwh <= 100.0 then Branch(2, kwh, r)
      else if kwh <= 200.0 then Branch(3, kwh, r)
      else if kwh <= 300.0 then Branch(4, kwh, r)
      else if kwh <= 400.0 then Branch(5, kwh, r)
      else Branch(6, kwh, r)
    else 0.0
  }

  /** The cost the sensor reports before rounding: with VAT, the base cost times (1 + VAT). */
  function Cost(kwh: real, r: Rates, includeVat: bool): (c: real)
    ensures kwh <= 0.0 ==> c == 0.0
    ensures TierRatesNonNegative(r) && (includeVat ==> r.vat >= -1.0) ==> c >= 0.0
  {
    WithVat(BaseCost(kwh, r), r.vat, includeVat)
  }

  /** An amount with VAT added when `includeVat` holds: `amount * (1 + vat)`. */
  function WithVat(amount: real, vat: real, includeVat: bool): real {
    if includeVat then amount * (1.0 + vat) else amount
  }

  /** Python's `round` of a number to an int: to the nearest integer, ties to the even one. */
  function RoundHalfEven(x: real): (n: int)
    ensures x - 0.5 <= n as real <= x + 0.5
    ensures (n as real == x - 0.5 || n as real == x + 0.5) ==> n % 2 == 0
  {
    var f := x.Floor;
    var frac := x - f as real;
    if frac < 0.5 then f
    else if frac > 0.5 then f + 1
    else if f % 2 == 0 then f
    else f + 1
  }

  /** The state of a cost sensor for the given kWh entity. `parse` is Python's `float` on strings. */
  function State(entity: KwhEntity, parse: string -> Option<real>, r: Rates, includeVat: bool): (n: int)
    ensures TierRatesNonNegative(r) && (includeVat ==> r.vat >= -1.0) ==> n >= 0
  {
    match entity
    case Missing => 0
    case Present(s) =>
      if s == "unknown" || s == "unavailable" then 0
      else match parse(s)
        case None => 0
        case Some(kwh) => RoundHalfEven(Cost(kwh, r, includeVat))
  }

  // ---------------------------------------------------------------------------
  // Reference definition: a progressive tariff as a sum of per-band contributions.

  /** A band `[lower, upper)` of a progressive tariff; `upper == None` means unbounded. */
  datatype Band = Band(lower: real, upper: Option<real>, rate: real)

  predicate WellFormedBand(b: Band) {
    b.rate >= 0.0 && (b.upper.Some? ==> b.lower <= b.upper.value)
  }

  /** How many of the first `kwh` kWh fall inside band `b`. */
  function Billable(kwh: real, b: Band): (w: real)
    ensures kwh <= b.lower ==> w == 0.0
    ensures WellFormedBand(b) ==> w >= 0.0
    ensures WellFormedBand(b) && b.upper.Some? && b.upper.value <= kwh ==> w == b.upper.value - b.lower
    ensures b.lower <= kwh && (b.upper.None? || kwh <= b.upper.value) ==> w == kwh - b.lower
  {
    if kwh <= b.lower then 0.0
    else match b.upper
      case None => kwh - b.lower
      case Some(u) => (if kwh < u then kwh else u) - b.lower
  }

  /** What band `b` adds to the cost of `kwh`. */
  function Contribution(kwh: real, b: Band): real {
    Billable(kwh, b) * b.rate
  }

  /** The progressive cost of `kwh`: every band bills the kWh that fall inside it at its own rate. */
  function ProgressiveCost(kwh: real, bands: seq<Band>): real {
    if bands == [] then 0.0 else Contribution(kwh, bands[0]) + ProgressiveCost(kwh, bands[1..])
  }

  /** The sensor's bands: edges 0, 50, 100, 200, 300, 400, and the last band unbounded. */
  function Bands(r: Rates): seq<Band> {
    [ Band(0.0, Some(50.0), r.tier1), Band(50.0, Some(100.0), r.tier2), Band(100.0, Some(200.0), r.tier3),
      Band(200.0, Some(300.0), r.tier4), Band(300.0, Some(400.0), r.tier5), Band(400.0, None, r.tier6) ]
  }

  lemma ProgressiveSix(kwh: real, r: Rates)
    ensures ProgressiveCost(kwh, Bands(r)) ==
      Billable(kwh, Bands(r)[0]) * r.tier1 + Billable(kwh, Bands(r)[1]) * r.tier2
      + Billable(kwh, Bands(r)[2]) * r.tier3 + Billable(kwh, Bands(r)[3]) * r.tier4
      + Billable(kwh, Bands(r)[4]) * r.tier5 + Billable(kwh, Bands(r)[5]) * r.tier6
  {
    var bs := Bands(r);
    assert forall i :: 0 <= i < 6 ==> Contribution(kwh, bs[i]) == Billable(kwh, bs[i]) * bs[i].rate;
    assert bs[5..][1..] == [];
    assert bs[4..][1..] == bs[5..];
    assert bs[3..][1..] == bs[4..];
    assert bs[2..][1..] == bs[3..];
    assert bs[1..][1..] == bs[2..];
    assert ProgressiveCost(kwh, bs[5..]) == Contribution(kwh, bs[5]);
    assert ProgressiveCost(kwh, bs[4..]) == Contribution(kwh, bs[4]) + ProgressiveCost(kwh, bs[5..]);
    assert ProgressiveCost(kwh, bs[3..]) == Contribution(kwh, bs[3]) + ProgressiveCost(kwh, bs[4..]);
    assert ProgressiveCost(kwh, bs[2..]) == Contribution(kwh, bs[2]) + ProgressiveCost(kwh, bs[3..]);
    assert ProgressiveCost(kwh, bs[1..]) == Contribution(kwh, bs[1]) + ProgressiveCost(kwh, bs[2..]);
  }

  /** Every branch of the if/elif chain is the sum of the per-band contributions. */
  lemma BaseCostIsProgressive(kwh: real, r: Rates)
    ensures BaseCost(kwh, r) == ProgressiveCost(kwh, Bands(r))
  {
    ProgressiveSix(kwh, r);
  }

  /** Within a band, edges included, the sensor's cost is that band's branch formula:
      so handing an edge to the lower branch (the `<=`) does not change the cost. */
  lemma BranchHoldsOnClosedBand(tier: Tier, kwh: real, r: Rates)
    requires 0.0 < kwh && LowerEdge(tier) <= kwh
    requires tier < 6 ==> kwh <= UpperEdge(tier)
    ensures BaseCost(kwh, r) == Branch(tier, kwh, r)
  {
  }

  /** At every inner edge, the next branch's formula gives the value of the previous one. */
  lemma ContinuousAtEdges(tier: Tier, r: Rates)
    requires tier < 6
    ensures Branch(tier + 1, UpperEdge(tier), r) == Branch(tier, UpperEdge(tier), r)
  {
  }

  /** Zero or negative readings cost nothing. */
  lemma NonPositiveIsFree(kwh: real, r: Rates, includeVat: bool)
    requires kwh <= 0.0
    ensures Cost(kwh, r, includeVat) == 0.0
  {
  }

  lemma MulMonotone(a: real, b: real, c: real)
    requires a <= b && c >= 0.0
    ensures a * c <= b * c
  {
    assert b * c - a * c == (b - a) * c;
  }

  lemma ContributionMonotone(a: real, b: real, band: Band)
    requires a <= b && WellFormedBand(band)
    ensures Contribution(a, band) <= Contribution(b, band)
  {
    assert Billable(a, band) <= Billable(b, band);
    MulMonotone(Billable(a, band), Billable(b, band), band.rate);
  }

  /** With non-negative rates, a progressive tariff never charges less for more energy. */
  lemma {:induction false} ProgressiveMonotone(a: real, b: real, bands: seq<Band>)
    requires a <= b
    requires forall i :: 0 <= i < |bands| ==> WellFormedBand(bands[i])
    ensures ProgressiveCost(a, bands) <= ProgressiveCost(b, bands)
  {
    if bands != [] {
      var band, rest := bands[0], bands[1..];
      ContributionMonotone(a, b, band);
      assert forall i :: 0 <= i < |rest| ==> rest[i] == bands[i + 1];
      ProgressiveMonotone(a, b, rest);
    }
  }

  /** With non-negative band rates, the cost before VAT is monotone in the reading. */
  lemma BaseCostMonotone(a: real, b: real, r: Rates)
    requires a <= b && TierRatesNonNegative(r)
    ensures BaseCost(a, r) <= BaseCost(b, r)
  {
    BaseCostIsProgressive(a, r);
    BaseCostIsProgressive(b, r);
    ProgressiveMonotone(a, b, Bands(r));
  }

  /** Adding a VAT of at least -100% keeps the order of two amounts. */
  lemma WithVatMonotone(x: real, y: real, vat: real, includeVat: bool)
    requires x <= y && vat >= -1.0
    ensures WithVat(x, vat, includeVat) <= WithVat(y, vat, includeVat)
  {
    if includeVat {
      MulMonotone(x, y, 1.0 + vat);
    }
  }

  /** With non-negative tier rates and VAT at least -100%, the unrounded cost of either sensor is monotone. */
  lemma CostMonotone(a: real, b: real, r: Rates, includeVat: bool)
    requires a <= b && TierRatesNonNegative(r) && r.vat >= -1.0
    ensures Cost(a, r, includeVat) <= Cost(b, r, includeVat)
  {
    BaseCostMonotone(a, b, r);
    var x, y := BaseCost(a, r), BaseCost(b, r);
    WithVatMonotone(x, y, r.vat, includeVat);
    assert Cost(a, r, includeVat) == WithVat(x, r.vat, includeVat);
    assert Cost(b, r, includeVat) == WithVat(y, r.vat, includeVat);
  }

  /** The VAT sensor's unrounded cost is at least the plain one, and equals it when VAT is 0. */
  lemma VatNotBelowBase(kwh: real, r: Rates)
    requires TierRatesNonNegative(r) && r.vat >= 0.0
    ensures Cost(kwh, r, true) >= Cost(kwh, r, false)
    ensures r.vat == 0.0 ==> Cost(kwh, r, true) == Cost(kwh, r, false)
  {
    var base := BaseCost(kwh, r);
    assert base * (1.0 + r.vat) == base + base * r.vat;
    MulMonotone(0.0, base, r.vat);
  }

  // ---------------------------------------------------------------------------
  // Rounding.

  /** The two properties of RoundHalfEven's contract determine the result. */
  lemma RoundHalfEvenUnique(x: real, n: int)
    requires x - 0.5 <= n as real <= x + 0.5
    requires (n as real == x - 0.5 || n as real == x + 0.5) ==> n % 2 == 0
    ensures n == RoundHalfEven(x)
  {
  }

  /** Rounding never reverses the order of two amounts. */
  lemma RoundHalfEvenMonotone(x: real, y: real)
    requires x <= y
    ensures RoundHalfEven(x) <= RoundHalfEven(y)
  {
  }

  // ---------------------------------------------------------------------------
  // The sensor state.

  /** With no entity, or an `unknown`/`unavailable` state, both sensors report 0. */
  lemma NoReadingIsZero(entity: KwhEntity, parse: string -> Option<real>, r: Rates, includeVat: bool)
    requires entity.Missing? || entity.state == "unknown" || entity.state == "unavailable"
    ensures State(entity, parse, r, includeVat) == 0
  {
  }

  /** A state that does not parse as a number gives 0. */
  lemma UnparsableIsZero(entity: KwhEntity, parse: string -> Option<real>, r: Rates, includeVat: bool)
    requires entity.Present? && parse(entity.state).None?
    ensures State(entity, parse, r, includeVat) == 0
  {
  }

  /** A parsed reading of at most 0 kWh gives 0, with or without VAT. */
  lemma NonPositiveReadingIsZero(entity: KwhEntity, parse: string -> Option<real>, r: Rates, includeVat: bool)
    requires entity.Present? && parse(entity.state).Some? && parse(entity.state).value <= 0.0
    ensures State(entity, parse, r, includeVat) == 0
  {
  }

  /** A parsed reading is reported as the nearest integer to its unrounded cost, ties to even. */
  lemma StateIsRoundedCost(entity: KwhEntity, parse: string -> Option<real>, r: Rates, includeVat: bool)
    requires entity.Present? && entity.state != "unknown" && entity.state != "unavailable"
    requires parse(entity.state).Some?
    ensures var c := Cost(parse(entity.state).value, r, includeVat);
      var n := State(entity, parse, r, includeVat);
      c - 0.5 <= n as real <= c + 0.5 && ((n as real == c - 0.5 || n as real == c + 0.5) ==> n % 2 == 0)
  {
  }

  /** With non-negative rates (VAT at least -100%), a larger reading is never reported as a smaller cost. */
  lemma StateMonotone(e1: KwhEntity, e2: KwhEntity, parse: string -> Option<real>, r: Rates, includeVat: bool)
    requires TierRatesNonNegative(r) && r.vat >= -1.0
    requires e1.Present? && e1.state != "unknown" && e1.state != "unavailable" && parse(e1.state).Some?
    requires e2.Present? && e2.state != "unknown" && e2.state != "unavailable" && parse(e2.state).Some?
    requires parse(e1.state).value <= parse(e2.state).value
    ensures State(e1, parse, r, includeVat) <= State(e2, parse, r, includeVat)
  {
    var a, b := parse(e1.state).value, parse(e2.state).value;
    CostMonotone(a, b, r, includeVat);
    var ca, cb := Cost(a, r, includeVat), Cost(b, r, includeVat);
    assert State(e1, parse, r, includeVat) == RoundHalfEven(ca);
    assert State(e2, parse, r, includeVat) == RoundHalfEven(cb);
    RoundHalfEvenMonotone(ca, cb);
  }

  /** 75 kWh at the reference rates: 50 x 1678 + 25 x 1734 = 127250 VND, and 139975 VND with VAT. */
  lemma SeventyFiveKwh(parse: string -> Option<real>)
    requires parse("75") == Some(75.0)
    ensures State(Present("75"), parse, ReferenceRates, false) == 127250
    ensures State(Present("75"), parse, ReferenceRates, true) == 139975
  {
  }

  /** Ties are rounded to even: 0.75 kWh costs exactly 1258.5 VND before VAT and is reported as 1258. */
  lemma HalfKwhTieRoundsToEven(parse: string -> Option<real>)
    requires parse("0.75") == Some(0.75)
    ensures State(Present("0.75"), parse, ReferenceRates, false) == 1258
  {
  }
}
