/**
 * The density and refractometer calculators (utils/brewingCalculators.ts):
 * gravity points, pre-boil dilution or evaporation, the post-boil option list
 * and the refractometer correction with its alcohol estimate.
 *
 * Numbers are exact reals; the French message and warning texts are tags.
 */
module BrewingCalculators {
  import opened Wrappers

  /** The unit a reading is given in: degrees Brix, specific gravity or degrees Plato. */
  datatype GravityUnit = Brix | SpecificGravity | Plato

  // ---------------------------------------------------------------------------
  // Gravity points
  // ---------------------------------------------------------------------------

  /**
   * `convertToPD`: specific gravity g is worth (g - 1) * 1000 points; Brix and
   * Plato are both approximated as 4 points per degree.
   */
  function GravityPoints(g: real, unit: GravityUnit): (p: real)
    ensures unit == SpecificGravity ==> (p > 0.0 <==> g > 1.0) && (p == 0.0 <==> g == 1.0)
    ensures unit != SpecificGravity ==> (p > 0.0 <==> g > 0.0)
  {
    match unit
    case SpecificGravity => (g - 1.0) * 1000.0
    case Brix => g * 4.0
    case Plato => g * 4.0
  }

  /** More gravity, more points, in every unit. */
  lemma GravityPointsIncreasing(a: real, b: real, unit: GravityUnit)
    requires a < b
    ensures GravityPoints(a, unit) < GravityPoints(b, unit)
  {
  }

  /** A Brix reading and the same number read as Plato count the same points. */
  lemma BrixAndPlatoSamePoints(g: real)
    ensures GravityPoints(g, Brix) == GravityPoints(g, Plato) == 4.0 * g
  {
  }

  // ---------------------------------------------------------------------------
  // Input validation shared by the pre-boil and post-boil calculators
  // ---------------------------------------------------------------------------

  datatype DensityError =
    | InvalidValues                  // non-positive volume or reading, or SG below 1
    | SgNotFullValue                 // SG above 2: "enter 1.052, not 52"
    | UnrealisticReading(unit: GravityUnit)  // Brix or Plato above 50
    | TargetZero                     // the target is worth zero points
    | DilutionMiscalculated          // negative water to add
    | EvaporationMiscalculated       // negative water to evaporate

  /** A reading the density calculators accept: SG in [1, 2], Brix or Plato in (0, 50]. */
  predicate ReadingInRange(g: real, unit: GravityUnit)
  {
    if unit == SpecificGravity then 1.0 <= g <= 2.0 else 0.0 < g <= 50.0
  }

  /** The three validation checks, in the source's order. */
  function ValidateDensityInputs(volume: real, unit: GravityUnit, measured: real, target: real): (e: Option<DensityError>)
    ensures e == None <==> volume > 0.0 && ReadingInRange(measured, unit) && ReadingInRange(target, unit)
    ensures e != Some(TargetZero) && e != Some(DilutionMiscalculated) && e != Some(EvaporationMiscalculated)
    ensures e.Some? && e.value.UnrealisticReading? ==> e.value.unit == unit && unit != SpecificGravity
  {
    if volume <= 0.0 || measured <= 0.0 || (unit == SpecificGravity && measured < 1.0)
      || target <= 0.0 || (unit == SpecificGravity && target < 1.0)
    then Some(InvalidValues)
    else if unit == SpecificGravity && (measured > 2.0 || target > 2.0) then Some(SgNotFullValue)
    else if unit != SpecificGravity && (measured > 50.0 || target > 50.0) then Some(UnrealisticReading(unit))
    else None
  }

  /** Accepted inputs whose target is worth a non-zero number of points. */
  predicate DensityInputsUsable(volume: real, unit: GravityUnit, measured: real, target: real)
  {
    ValidateDensityInputs(volume, unit, measured, target) == None && GravityPoints(target, unit) != 0.0
  }

  /** Among accepted inputs, only a specific-gravity target of exactly 1.000 is worth zero points. */
  lemma TargetZeroOnlyForSgOfOne(volume: real, unit: GravityUnit, measured: real, target: real)
    requires ValidateDensityInputs(volume, unit, measured, target) == None
    ensures GravityPoints(target, unit) == 0.0 <==> unit == SpecificGravity && target == 1.0
    ensures GravityPoints(measured, unit) >= 0.0 && GravityPoints(target, unit) >= 0.0
  {
  }

  /** The water to add so that `volume` litres at `gc` points come down to `gt` points. */
  function DilutionWater(volume: real, gc: real, gt: real): real
    requires gt != 0.0
  {
    volume * gc / gt - volume
  }

  /** The water to boil off so that `volume` litres at `gc` points come up to `gt` points. */
  function EvaporationWater(volume: real, gc: real, gt: real): real
    requires gt != 0.0
  {
    volume - volume * gc / gt
  }

  // ---------------------------------------------------------------------------
  // Pre-boil density
  // ---------------------------------------------------------------------------

  /** The `message` strings; the two advice messages show the amount of water. */
  datatype PreBoilMessage = NoPreBoilMessage | PreBoilAtTarget | AddWater(litres: real) | EvaporateWater(litres: real)

  datatype PreBoilResult = PreBoilResult(
    waterToAdd: Option<real>,
    waterToEvaporate: Option<real>,
    message: PreBoilMessage,
    error: Option<DensityError>)

  function PreBoilFailure(e: DensityError): PreBoilResult
  {
    PreBoilResult(None, None, NoPreBoilMessage, Some(e))
  }

  /**
   * `calculatePreBoilDensity`: the volume the wort would need for its points to
   * reach the target, and the water to add (too dense) or to boil off in
   * addition to the usual evaporation (too thin).
   */
  function PreBoilDensity(volume: real, unit: GravityUnit, measured: real, target: real): (r: PreBoilResult)
    ensures r.error.Some? ==> r.waterToAdd == None && r.waterToEvaporate == None && r.message == NoPreBoilMessage
    ensures !(r.waterToAdd.Some? && r.waterToEvaporate.Some?)
  {
    var invalid := ValidateDensityInputs(volume, unit, measured, target);
    if invalid.Some? then PreBoilFailure(invalid.value)
    else
      var gc := GravityPoints(measured, unit);
      var gt := GravityPoints(target, unit);
      if gt == 0.0 then PreBoilFailure(TargetZero)
      else if gc == gt then PreBoilResult(None, None, PreBoilAtTarget, None)
      else if gc > gt then
        var waterToAdd := DilutionWater(volume, gc, gt);
        if waterToAdd < 0.0 then PreBoilFailure(DilutionMiscalculated)
        else PreBoilResult(Some(waterToAdd), None, AddWater(waterToAdd), None)
      else
        var waterToEvaporate := EvaporationWater(volume, gc, gt);
        if waterToEvaporate < 0.0 then PreBoilFailure(EvaporationMiscalculated)
        else PreBoilResult(None, Some(waterToEvaporate), EvaporateWater(waterToEvaporate), None)
  }

  /**
   * The calculator fails exactly on rejected inputs and on a specific-gravity
   * target of 1.000; the two "calculation error" branches are never taken.
   */
  lemma PreBoilErrors(volume: real, unit: GravityUnit, measured: real, target: real)
    ensures var r := PreBoilDensity(volume, unit, measured, target);
      && (r.error.Some? <==> !DensityInputsUsable(volume, unit, measured, target))
      && (r.error == Some(TargetZero) <==>
            ValidateDensityInputs(volume, unit, measured, target) == None && unit == SpecificGravity && target == 1.0)
      && r.error != Some(DilutionMiscalculated)
      && r.error != Some(EvaporationMiscalculated)
  {
    var r := PreBoilDensity(volume, unit, measured, target);
    if ValidateDensityInputs(volume, unit, measured, target) == None {
      TargetZeroOnlyForSgOfOne(volume, unit, measured, target);
      var gc := GravityPoints(measured, unit);
      var gt := GravityPoints(target, unit);
      if gt != 0.0 && gc > gt {
        DilutionPositive(volume, gc, gt);
      } else if gt != 0.0 && gc < gt {
        EvaporationBounded(volume, gc, gt);
      }
    }
  }

  /** Too dense: a positive amount of water, after which the points balance. */
  lemma DilutionPositive(volume: real, gc: real, gt: real)
    requires volume > 0.0 && gc > gt > 0.0
    ensures var w := DilutionWater(volume, gc, gt);
      w > 0.0 && (volume + w) * gt == volume * gc
  {
    var w := DilutionWater(volume, gc, gt);
    assert volume + w == volume * gc / gt;
    assert (volume * gc / gt) * gt == volume * gc;
    assert volume * gc > volume * gt;
  }

  /** Too thin: at most the whole volume is boiled off, and the points balance. */
  lemma EvaporationBounded(volume: real, gc: real, gt: real)
    requires volume > 0.0 && 0.0 <= gc < gt
    ensures var w := EvaporationWater(volume, gc, gt);
      0.0 < w <= volume && (volume - w) * gt == volume * gc
  {
    var w := EvaporationWater(volume, gc, gt);
    assert volume - w == volume * gc / gt;
    assert (volume * gc / gt) * gt == volume * gc;
    assert volume * gc < volume * gt;
    assert volume * gc / gt < volume by {
      assert volume * gt / gt == volume;
    }
    assert volume * gc >= 0.0;
  }

  /** A too-dense wort gets only a positive water addition that brings it exactly to the target points. */
  lemma PreBoilDilution(volume: real, unit: GravityUnit, measured: real, target: real)
    requires DensityInputsUsable(volume, unit, measured, target)
    requires GravityPoints(measured, unit) > GravityPoints(target, unit)
    ensures var r := PreBoilDensity(volume, unit, measured, target);
      && r.error == None && r.waterToEvaporate == None
      && r.waterToAdd.Some? && r.waterToAdd.value > 0.0 && r.message == AddWater(r.waterToAdd.value)
      && (volume + r.waterToAdd.value) * GravityPoints(target, unit) == volume * GravityPoints(measured, unit)
  {
    TargetZeroOnlyForSgOfOne(volume, unit, measured, target);
    DilutionPositive(volume, GravityPoints(measured, unit), GravityPoints(target, unit));
  }

  /**
   * A too-thin wort gets only an evaporation, of at most the whole volume, that
   * brings it exactly to the target points.
   */
  lemma PreBoilConcentration(volume: real, unit: GravityUnit, measured: real, target: real)
    requires DensityInputsUsable(volume, unit, measured, target)
    requires GravityPoints(measured, unit) < GravityPoints(target, unit)
    ensures var r := PreBoilDensity(volume, unit, measured, target);
      && r.error == None && r.waterToAdd == None
      && r.waterToEvaporate.Some? && 0.0 < r.waterToEvaporate.value <= volume
      && r.message == EvaporateWater(r.waterToEvaporate.value)
      && (volume - r.waterToEvaporate.value) * GravityPoints(target, unit) == volume * GravityPoints(measured, unit)
  {
    TargetZeroOnlyForSgOfOne(volume, unit, measured, target);
    EvaporationBounded(volume, GravityPoints(measured, unit), GravityPoints(target, unit));
  }

  /** On target: no amount and no error. */
  lemma PreBoilAlreadyAtTarget(volume: real, unit: GravityUnit, measured: real, target: real)
    requires DensityInputsUsable(volume, unit, measured, target)
    ensures var r := PreBoilDensity(volume, unit, measured, target);
      r == PreBoilResult(None, None, PreBoilAtTarget, None) <==> measured == target
  {
    if measured < target {
      GravityPointsIncreasing(measured, target, unit);
    } else if target < measured {
      GravityPointsIncreasing(target, measured, unit);
    }
    if measured != target {
      TargetZeroOnlyForSgOfOne(volume, unit, measured, target);
      var gc := GravityPoints(measured, unit);
      var gt := GravityPoints(target, unit);
      if gc > gt {
        DilutionPositive(volume, gc, gt);
      } else {
        EvaporationBounded(volume, gc, gt);
      }
    }
  }

  /** Brix and Plato readings give the same amounts and message. */
  lemma PreBoilBrixPlatoAgree(volume: real, measured: real, target: real)
    ensures var b := PreBoilDensity(volume, Brix, measured, target);
      var p := PreBoilDensity(volume, Plato, measured, target);
      && b.waterToAdd == p.waterToAdd && b.waterToEvaporate == p.waterToEvaporate
      && b.message == p.message && b.error.Some? == p.error.Some?
  {
    BrixAndPlatoSamePoints(measured);
    BrixAndPlatoSamePoints(target);
  }

  // ---------------------------------------------------------------------------
  // Post-boil density
  // ---------------------------------------------------------------------------

  /** The `type` of a suggested correction. */
  datatype AdviceKind = Dilute | Evaporate | AddSugarCandy | AddSugarPowder

  datatype AmountUnit = Litres | Grammes

  /** One PostBoilDensityResultOption: its kind, amount and unit (the texts follow from the kind). */
  datatype Advice = Advice(kind: AdviceKind, amount: real, unit: AmountUnit)

  datatype PostBoilMessage = NoPostBoilMessage | PostBoilAtTarget | TooDense | TooThin

  datatype PostBoilResult = PostBoilResult(options: seq<Advice>, message: PostBoilMessage, error: Option<DensityError>)

  function PostBoilFailure(e: DensityError): PostBoilResult
  {
    PostBoilResult([], NoPostBoilMessage, Some(e))
  }

  /** Sucrose adds about 0.4 points per gram in a litre. */
  const SucrosePointsPerGramPerLitre: real := 0.4

  /** The sugar (grams) that supplies the points missing from `volume` litres at `gc` points to reach `gt`. */
  function SugarGrams(volume: real, gc: real, gt: real): real
  {
    (gt - gc) * volume / SucrosePointsPerGramPerLitre
  }

  /** The options offered for a too-thin wort, in the order they are pushed. */
  function TooThinOptions(volume: real, gc: real, gt: real): seq<Advice>
    requires gt != 0.0
  {
    var waterToEvaporate := EvaporationWater(volume, gc, gt);
    var sugarGrams := SugarGrams(volume, gc, gt);
    (if waterToEvaporate > 0.0 then [Advice(Evaporate, waterToEvaporate, Litres)] else [])
    + (if sugarGrams > 0.0
       then [Advice(AddSugarCandy, sugarGrams, Grammes), Advice(AddSugarPowder, sugarGrams, Grammes)]
       else [])
  }

  /** `calculatePostBoilDensity`, as a value: the specification of CalculatePostBoilDensity. */
  function PostBoilDensity(volume: real, unit: GravityUnit, measured: real, target: real): (r: PostBoilResult)
    ensures r.error.Some? ==> r.options == [] && r.message == NoPostBoilMessage
  {
    var invalid := ValidateDensityInputs(volume, unit, measured, target);
    if invalid.Some? then PostBoilFailure(invalid.value)
    else
      var gc := GravityPoints(measured, unit);
      var gt := GravityPoints(target, unit);
      if gt == 0.0 then PostBoilFailure(TargetZero)
      else if gc == gt then PostBoilResult([], PostBoilAtTarget, None)
      else if gc > gt then
        var waterToAdd := DilutionWater(volume, gc, gt);
        if waterToAdd < 0.0 then PostBoilFailure(DilutionMiscalculated)
        else PostBoilResult([Advice(Dilute, waterToAdd, Litres)], TooDense, None)
      else PostBoilResult(TooThinOptions(volume, gc, gt), TooThin, None)
  }

  /**
   * `calculatePostBoilDensity`: the checks in order, then the options array
   * filled by successive pushes.
   */
  method CalculatePostBoilDensity(volume: real, unit: GravityUnit, measured: real, target: real)
    returns (r: PostBoilResult)
    ensures r == PostBoilDensity(volume, unit, measured, target)
  {
    var invalid := ValidateDensityInputs(volume, unit, measured, target);
    if invalid.Some? {
      return PostBoilFailure(invalid.value);
    }
    var gc := GravityPoints(measured, unit);
    var gt := GravityPoints(target, unit);
    if gt == 0.0 {
      return PostBoilFailure(TargetZero);
    }
    if gc == gt {
      return PostBoilResult([], PostBoilAtTarget, None);
    }
    var options: seq<Advice> := [];
    if gc > gt {
      var waterToAdd := DilutionWater(volume, gc, gt);
      if waterToAdd < 0.0 {
        return PostBoilFailure(DilutionMiscalculated);
      }
      options := options + [Advice(Dilute, waterToAdd, Litres)];
      return PostBoilResult(options, TooDense, None);
    }
    var waterToEvaporate := EvaporationWater(volume, gc, gt);
    if waterToEvaporate > 0.0 {
      options := options + [Advice(Evaporate, waterToEvaporate, Litres)];
    }
    var sugarAmountGrams := SugarGrams(volume, gc, gt);
    if sugarAmountGrams > 0.0 {
      options := options + [Advice(AddSugarCandy, sugarAmountGrams, Grammes)];
      options := options + [Advice(AddSugarPowder, sugarAmountGrams, Grammes)];
    }
    r := PostBoilResult(options, TooThin, None);
  }

  /** Errors exactly as for the pre-boil calculator; the negative-water error is never returned. */
  lemma PostBoilErrors(volume: real, unit: GravityUnit, measured: real, target: real)
    ensures var r := PostBoilDensity(volume, unit, measured, target);
      && (r.error.Some? <==> !DensityInputsUsable(volume, unit, measured, target))
      && r.error == PreBoilDensity(volume, unit, measured, target).error
      && (r.error == Some(TargetZero) <==>
            ValidateDensityInputs(volume, unit, measured, target) == None && unit == SpecificGravity && target == 1.0)
      && (r.error.Some? && r.error != Some(TargetZero) ==> r.error == ValidateDensityInputs(volume, unit, measured, target))
      && r.error != Some(DilutionMiscalculated)
  {
    PreBoilErrors(volume, unit, measured, target);
    if DensityInputsUsable(volume, unit, measured, target) {
      TargetZeroOnlyForSgOfOne(volume, unit, measured, target);
      var gc := GravityPoints(measured, unit);
      var gt := GravityPoints(target, unit);
      if gc > gt {
        DilutionPositive(volume, gc, gt);
      }
    }
  }

  /** Readings already on target: no option and no error. */
  lemma PostBoilAlreadyAtTarget(volume: real, unit: GravityUnit, measured: real)
    requires DensityInputsUsable(volume, unit, measured, measured)
    ensures PostBoilDensity(volume, unit, measured, measured) == PostBoilResult([], PostBoilAtTarget, None)
  {
  }

  /**
   * Too dense: exactly one option, a dilution in litres whose water brings the
   * wort to the target points, the same amount as the pre-boil calculator's.
   */
  lemma PostBoilDilution(volume: real, unit: GravityUnit, measured: real, target: real)
    requires DensityInputsUsable(volume, unit, measured, target)
    requires GravityPoints(measured, unit) > GravityPoints(target, unit)
    ensures var r := PostBoilDensity(volume, unit, measured, target);
      && r.error == None && r.message == TooDense && |r.options| == 1
      && r.options[0].kind == Dilute && r.options[0].unit == Litres && r.options[0].amount > 0.0
      && (volume + r.options[0].amount) * GravityPoints(target, unit) == volume * GravityPoints(measured, unit)
      && Some(r.options[0].amount) == PreBoilDensity(volume, unit, measured, target).waterToAdd
  {
    TargetZeroOnlyForSgOfOne(volume, unit, measured, target);
    DilutionPositive(volume, GravityPoints(measured, unit), GravityPoints(target, unit));
    PreBoilDilution(volume, unit, measured, target);
  }

  /**
   * Too thin: always three options, in the order evaporate (litres), candy
   * sugar and powdered sugar (grams); the evaporation balances the points, and
   * each sugar amount supplies the missing points at 0.4 points per g/L.
   */
  lemma PostBoilConcentration(volume: real, unit: GravityUnit, measured: real, target: real)
    requires DensityInputsUsable(volume, unit, measured, target)
    requires GravityPoints(measured, unit) < GravityPoints(target, unit)
    ensures var r := PostBoilDensity(volume, unit, measured, target);
      var gc := GravityPoints(measured, unit);
      var gt := GravityPoints(target, unit);
      && r.error == None && r.message == TooThin && |r.options| == 3
      && r.options[0].kind == Evaporate && r.options[0].unit == Litres
      && 0.0 < r.options[0].amount <= volume
      && (volume - r.options[0].amount) * gt == volume * gc
      && r.options[1].kind == AddSugarCandy && r.options[1].unit == Grammes
      && r.options[2].kind == AddSugarPowder && r.options[2].unit == Grammes
      && r.options[1].amount == r.options[2].amount > 0.0
      && r.options[1].amount * 0.4 == (gt - gc) * volume
  {
    TargetZeroOnlyForSgOfOne(volume, unit, measured, target);
    var gc := GravityPoints(measured, unit);
    var gt := GravityPoints(target, unit);
    EvaporationBounded(volume, gc, gt);
    assert (gt - gc) * volume > 0.0;
  }

  /** Brix and Plato readings give the same post-boil options and message, and fail together. */
  lemma PostBoilBrixPlatoAgree(volume: real, measured: real, target: real)
    ensures var b := PostBoilDensity(volume, Brix, measured, target);
      var p := PostBoilDensity(volume, Plato, measured, target);
      && b.options == p.options && b.message == p.message && b.error.Some? == p.error.Some?
  {
    BrixAndPlatoSamePoints(measured);
    BrixAndPlatoSamePoints(target);
  }

  /** 20 L of wort at 12.0 Brix, aiming for 12.5 Brix: 100 g of either sugar. */
  lemma PostBoilSugarExample()
    ensures var r := PostBoilDensity(20.0, Brix, 12.0, 12.5);
      |r.options| == 3 && r.options[1].amount == 100.0 && r.options[2].amount == 100.0
  {
    PostBoilConcentration(20.0, Brix, 12.0, 12.5);
  }

  // ---------------------------------------------------------------------------
  // Refractometer
  // ---------------------------------------------------------------------------

  /** `sgToBrix`: the cubic fit from specific gravity to Brix; below 1.000 it gives 0. */
  function SgToBrix(sg: real): (b: real)
    ensures sg < 1.0 ==> b == 0.0
  {
    if sg < 1.0 then 0.0
    else -668.962 + 1262.45 * sg - 776.43 * sg * sg + 182.94 * sg * sg * sg
  }

  /** The cubic of SgToBrix is increasing: a denser wort reads more Brix. */
  lemma SgToBrixIncreasing(a: real, b: real)
    requires 1.0 <= a < b
    ensures SgToBrix(a) < SgToBrix(b)
  {
    var q := 1262.45 - 776.43 * (a + b) + 182.94 * (a * a + a * b + b * b);
    assert b * b - a * a == (b - a) * (a + b);
    assert b * b * b - a * a * a == (b - a) * (a * a + a * b + b * b);
    assert SgToBrix(b) - SgToBrix(a) == (b - a) * q;
    CubicSlopePositive(a, b);
  }

  /** The difference quotient of the SgToBrix cubic is positive everywhere. */
  lemma CubicSlopePositive(a: real, b: real)
    ensures 1262.45 - 776.43 * (a + b) + 182.94 * (a * a + a * b + b * b) > 0.0
  {
    var t := (a + b) / 2.0;
    var d := (a - b) / 2.0;
    assert a == t + d && b == t - d;
    assert a * a + a * b + b * b == 3.0 * t * t + d * d;
    var c := 1552.86 / 1097.64;
    assert 548.82 * t * t - 1552.86 * t == 548.82 * (t - c) * (t - c) - 548.82 * c * c;
    assert 548.82 * c * c < 1262.45;
  }

  /** Water itself (SG 1.000) reads slightly below 0 Brix, so a clamp at 0 can be needed. */
  lemma SgToBrixOfWaterIsNegative()
    ensures SgToBrix(1.0) < 0.0
  {
  }

  /** The Brix value at which BrixToSG's denominator vanishes (about 294). */
  const BrixPole: real := 258.6 * 258.2 / 227.1

  /** `brixToSG`: the inverse approximation from Brix to specific gravity; 1.000 for Brix <= 0. */
  function BrixToSg(brix: real): (sg: real)
    requires brix != BrixPole
    ensures brix <= 0.0 ==> sg == 1.0
  {
    if brix <= 0.0 then 1.0
    else 1.0 + brix / (258.6 - brix / 258.2 * 227.1)
  }

  /** Below the pole, a positive Brix reading is worth more than 1.000, and more Brix gives more SG. */
  lemma BrixToSgIncreasing(a: real, b: real)
    requires 0.0 < a < b < BrixPole
    ensures 1.0 < BrixToSg(a) < BrixToSg(b)
  {
    var k := 227.1 / 258.2;
    assert 258.6 - b * k > 0.0 by {
      assert b * 227.1 < 258.6 * 258.2;
    }
    var da := 258.6 - a / 258.2 * 227.1;
    var db := 258.6 - b / 258.2 * 227.1;
    assert da > db > 0.0;
    assert a * db < b * da;
    assert a / da < b / db by {
      assert a / da == (a * db) / (da * db);
      assert b / db == (b * da) / (da * db);
    }
  }

  datatype RefractometerError =
    | NonPositiveReading              // a reading <= 0
    | SgBelowOne                      // an SG reading below 1.000
    | SgReadingNotFullValue           // an SG reading above 2
    | FinalNotBelowInitial(unit: GravityUnit)  // the final reading is not below the initial one

  /** `correctedFinalGravity` and `abv`, both 0 on an error; the message text is left out. */
  datatype RefractometerResult = RefractometerResult(correctedFinalGravity: real, abv: real, error: Option<RefractometerError>)

  function RefractometerFailure(e: RefractometerError): RefractometerResult
  {
    RefractometerResult(0.0, 0.0, Some(e))
  }

  /** The corrected final specific gravity from the original and final Brix readings, as the cubic is written. */
  function CorrectedFinalSg(ogBrix: real, fgBrix: real): real
  {
    1.0
    - 0.0044993 * ogBrix
    + 0.011774 * fgBrix
    + 0.00027581 * ogBrix * ogBrix
    - 0.00012717 * fgBrix * fgBrix
    - 0.0000072800 * ogBrix * ogBrix * ogBrix
    + 0.0000063293 * fgBrix * fgBrix * fgBrix
  }

  /** Alcohol by volume (%) from original and final specific gravity. */
  function Abv(ogSg: real, fgSg: real): (abv: real)
    ensures abv > 0.0 <==> ogSg > fgSg
  {
    (ogSg - fgSg) * 131.25
  }

  /** The three input checks, in the source's order. */
  function ValidateRefractometerInputs(unit: GravityUnit, initial: real, final: real): (e: Option<RefractometerError>)
    ensures e == None <==>
      initial > 0.0 && final > 0.0 && (unit == SpecificGravity ==> 1.0 <= initial <= 2.0 && 1.0 <= final <= 2.0)
    ensures e != None ==> !e.value.FinalNotBelowInitial?
  {
    if initial <= 0.0 || final <= 0.0 then Some(NonPositiveReading)
    else if unit == SpecificGravity && (initial < 1.0 || final < 1.0) then Some(SgBelowOne)
    else if unit == SpecificGravity && (initial > 2.0 || final > 2.0) then Some(SgReadingNotFullValue)
    else None
  }

  /** The original reading as Brix and as SG. */
  function OriginalBrix(unit: GravityUnit, initial: real): real
  {
    if unit == SpecificGravity then SgToBrix(initial) else initial
  }

  function OriginalSg(unit: GravityUnit, initial: real): real
    requires unit == SpecificGravity || initial != BrixPole
  {
    if unit == SpecificGravity then initial else BrixToSg(initial)
  }

  function FinalBrix(unit: GravityUnit, final: real): real
  {
    if unit == SpecificGravity then SgToBrix(final) else final
  }

  /**
   * `calculateRefractometer`: checks the readings, converts them to Brix and SG,
   * corrects the final reading for alcohol, and estimates the ABV. The corrected
   * value is shown as SG, or as Brix clamped at 0.
   */
  function Refractometer(unit: GravityUnit, initial: real, final: real): (r: RefractometerResult)
    requires unit == SpecificGravity || initial != BrixPole
    ensures r.error.Some? ==> r.correctedFinalGravity == 0.0 && r.abv == 0.0
    ensures unit != SpecificGravity ==> r.correctedFinalGravity >= 0.0
  {
    var invalid := ValidateRefractometerInputs(unit, initial, final);
    if invalid.Some? then RefractometerFailure(invalid.value)
    else
      var ogBrix := OriginalBrix(unit, initial);
      var ogSg := OriginalSg(unit, initial);
      var fgMeasuredBrix := FinalBrix(unit, final);
      if final >= initial then RefractometerFailure(FinalNotBelowInitial(unit))
      else
        var fgCorrectedSg := CorrectedFinalSg(ogBrix, fgMeasuredBrix);
        var abv := Abv(ogSg, fgCorrectedSg);
        var display :=
          if unit == SpecificGravity then fgCorrectedSg
          else var b := SgToBrix(fgCorrectedSg); if b < 0.0 then 0.0 else b;
        RefractometerResult(display, abv, None)
  }

  /** The refractometer fails exactly on rejected readings and on a final reading not below the initial one. */
  lemma RefractometerErrors(unit: GravityUnit, initial: real, final: real)
    requires unit == SpecificGravity || initial != BrixPole
    ensures var r := Refractometer(unit, initial, final);
      && (r.error.Some? <==> ValidateRefractometerInputs(unit, initial, final).Some? || final >= initial)
      && (r.error == Some(FinalNotBelowInitial(unit)) <==>
            ValidateRefractometerInputs(unit, initial, final) == None && final >= initial)
  {
  }

  /**
   * Accepted readings with the final below the initial: no error, the ABV
   * follows from the original SG and the corrected final SG, and the corrected
   * value is shown as SG or as Brix clamped at 0.
   */
  lemma RefractometerSuccess(unit: GravityUnit, initial: real, final: real)
    requires unit == SpecificGravity || initial != BrixPole
    requires ValidateRefractometerInputs(unit, initial, final) == None && final < initial
    ensures var r := Refractometer(unit, initial, final);
      var fg := CorrectedFinalSg(OriginalBrix(unit, initial), FinalBrix(unit, final));
      && r.error == None
      && r.abv == (OriginalSg(unit, initial) - fg) * 131.25
      && (unit == SpecificGravity ==> r.correctedFinalGravity == fg)
      && (unit != SpecificGravity ==> r.correctedFinalGravity == if SgToBrix(fg) < 0.0 then 0.0 else SgToBrix(fg))
  {
  }

  /** In specific gravity, an accepted final reading below the initial one also reads fewer Brix. */
  lemma SgReadingsKeepOrderInBrix(initial: real, final: real)
    requires ValidateRefractometerInputs(SpecificGravity, initial, final) == None && final < initial
    ensures FinalBrix(SpecificGravity, final) < OriginalBrix(SpecificGravity, initial)
  {
    SgToBrixIncreasing(final, initial);
  }

  /** Brix and Plato readings give the same corrected value and ABV. */
  lemma RefractometerBrixPlatoAgree(initial: real, final: real)
    requires initial != BrixPole
    ensures var b := Refractometer(Brix, initial, final);
      var p := Refractometer(Plato, initial, final);
      b.correctedFinalGravity == p.correctedFinalGravity && b.abv == p.abv && b.error.Some? == p.error.Some?
  {
  }

  /** 16 Brix down to 8 Brix: no error and a positive alcohol estimate. */
  lemma RefractometerExample()
    ensures var r := Refractometer(Brix, 16.0, 8.0);
      r.error == None && r.abv > 0.0
  {
    var og := BrixToSg(16.0);
    var fg := CorrectedFinalSg(16.0, 8.0);
    assert og > 1.065;
    assert fg < 1.059;
  }
}
