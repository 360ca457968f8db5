/**
 * The pH correction engine (services/phCalculatorService.ts, calculatePhCorrection).
 *
 * The BeerXML document is replaced by what the engine reads from it: whether a
 * file was given and parsed, the FERMENTABLE records, and the two volumes the
 * XML helpers detect, which are only passed through to the details.
 */
module PhCalculator {
  import opened Wrappers
  import opened Chemistry
  import opened MaltCategorizer

  datatype CorrectionStage = Mash | PreBoil

  /** ACIDIFY, ALCALINIZE or NONE. */
  datatype CorrectionType = Acidify | Alcalinize | NoCorrection

  /**
   * One FERMENTABLE element: the text of its TYPE and NAME children ("" when the
   * child is missing or empty) and its AMOUNT in kg (None when missing, empty or
   * not a number).
   */
  datatype Fermentable = Fermentable(kind: string, name: string, amountKg: Option<real>)

  /** The beerXmlString input: absent, not well-formed, or parsed. */
  datatype RecipeFile =
    | NoFile
    | Malformed
    | Parsed(fermentables: seq<Fermentable>, mashInfuseL: Option<real>, boilSizeL: Option<real>)

  datatype PhInputs = PhInputs(
    stage: CorrectionStage,
    currentPh: real,
    targetPh: real,
    volume: real,
    recipe: RecipeFile,
    water: Option<WaterProfile>)

  /** Malt weight (kg) per category: the MaltComposition record. */
  datatype Composition = Composition(
    base: real, crystal: real, roasted: real, acidic: real, other: real, unknown: real)
  {
    function Weight(c: MaltCategory): real
    {
      match c
      case Base => base
      case Crystal => crystal
      case Roasted => roasted
      case SpecialtyAcidic => acidic
      case SpecialtyOther => other
      case Unknown => unknown
    }

    /** `maltComposition[c] += kg`. */
    function Add(c: MaltCategory, kg: real): (r: Composition)
      ensures r.Weight(c) == Weight(c) + kg
      ensures forall d :: d != c ==> r.Weight(d) == Weight(d)
    {
      match c
      case Base => this.(base := base + kg)
      case Crystal => this.(crystal := crystal + kg)
      case Roasted => this.(roasted := roasted + kg)
      case SpecialtyAcidic => this.(acidic := acidic + kg)
      case SpecialtyOther => this.(other := other + kg)
      case Unknown => this.(unknown := unknown + kg)
    }

    function Sum(): real
    {
      base + crystal + roasted + acidic + other + unknown
    }
  }

  const NoMalt: Composition := Composition(0.0, 0.0, 0.0, 0.0, 0.0, 0.0)

  /** The `details` record; every field is optional, as in the source. */
  datatype PhDetails = PhDetails(
    autoMashVolumeL: Option<real>,
    autoPreBoilVolumeL: Option<real>,
    residualAlkalinity: Option<real>,
    totalMashBuffering: Option<real>,
    composition: Option<Composition>,
    mEqFromAcidMalt: Option<real>,
    initialMEqNeeded: Option<real>,
    netMEqForAcidification: Option<real>,
    mEqToAlkalinize: Option<real>)

  /** The human-readable messages, as tags. */
  datatype PhMessage =
    | NoMessage
    | AlreadyAtTarget
    | AcidMaltSufficient
    | AcidNeeded
    | NoAlkalinizationComputed
    | AlkalinizationAtTarget
    | BicarbonateNeeded
    | PreBoilAcid
    | PreBoilBicarbonate

  /** The `error` strings, as tags. */
  datatype PhError =
    | VolumeNotPositive
    | PhOutOfRange
    | WaterProfileRequired
    | RecipeRequired(parseFailed: bool)
    | NoFermentables
    | NoCountedGrain
    | BufferingNotPositive
    | PreBoilRecipeUnreadable

  datatype PhResult = PhResult(
    correctionType: CorrectionType,
    lacticAcidMl: real,
    phosphoricAcidMl: real,
    bicarbonateGrams: real,
    message: PhMessage,
    details: Option<PhDetails>,
    error: Option<PhError>)

  function Abs(x: real): real
  {
    if x < 0.0 then -x else x
  }

  /** A result with every dosage at 0 (`defaultResultBase`). */
  function NoDose(t: CorrectionType, m: PhMessage, d: Option<PhDetails>, e: Option<PhError>): PhResult
  {
    PhResult(t, 0.0, 0.0, 0.0, m, d, e)
  }

  function Failure(e: PhError, d: Option<PhDetails>): PhResult
  {
    NoDose(NoCorrection, NoMessage, d, Some(e))
  }

  // ---------------------------------------------------------------------------
  // Mash composition

  /** A FERMENTABLE record that the mash loop adds to the composition. */
  predicate Counted(f: Fermentable)
  {
    && f.kind != "" && f.name != "" && f.amountKg.Some?
    && (ToLower(f.kind) == "grain" || ToLower(f.kind) == "adjunct")
    && f.amountKg.value >= 0.0
  }

  /** The composition after the records of `fs` have been visited in order. */
  function Tally(fs: seq<Fermentable>): Composition
  {
    if fs == [] then NoMalt
    else
      var f := fs[|fs| - 1];
      var c := Tally(fs[..|fs| - 1]);
      if Counted(f) then c.Add(GetMaltCategory(f.name), f.amountKg.value) else c
  }

  /** totalGrainWeightKg: the sum of the counted amounts. */
  function CountedWeight(fs: seq<Fermentable>): real
  {
    if fs == [] then 0.0
    else
      var f := fs[|fs| - 1];
      CountedWeight(fs[..|fs| - 1]) + if Counted(f) then f.amountKg.value else 0.0
  }

  /** acidMaltKg: the sum of the counted amounts of SPECIALTY_ACIDIC malts. */
  function AcidMaltWeight(fs: seq<Fermentable>): real
  {
    if fs == [] then 0.0
    else
      var f := fs[|fs| - 1];
      AcidMaltWeight(fs[..|fs| - 1]) +
        if Counted(f) && GetMaltCategory(f.name) == SpecialtyAcidic then f.amountKg.value else 0.0
  }

  /** The loop over the FERMENTABLE nodes, updating the three accumulators in place. */
  method AccumulateComposition(fs: seq<Fermentable>) returns (comp: Composition, total: real, acidMalt: real)
    ensures comp == Tally(fs)
    ensures total == CountedWeight(fs)
    ensures acidMalt == AcidMaltWeight(fs)
  {
    comp, total, acidMalt := NoMalt, 0.0, 0.0;
    var i := 0;
    while i < |fs|
      invariant 0 <= i <= |fs|
      invariant comp == Tally(fs[..i])
      invariant total == CountedWeight(fs[..i])
      invariant acidMalt == AcidMaltWeight(fs[..i])
    {
      var f := fs[i];
      assert fs[..i + 1][..i] == fs[..i];
      if f.kind != "" && f.name != "" && f.amountKg.Some? {
        var kind := ToLower(f.kind);
        if kind == "grain" || kind == "adjunct" {
          var amount := f.amountKg.value;
          if amount >= 0.0 {
            total := total + amount;
            var category := GetMaltCategory(f.name);
            comp := comp.Add(category, amount);
            if category == SpecialtyAcidic {
              acidMalt := acidMalt + amount;
            }
          }
        }
      }
      i := i + 1;
    }
    assert fs[..i] == fs;
  }

  // ---------------------------------------------------------------------------
  // Water and buffering arithmetic

  /** mEqFromAcidMalt: acid-malt kg to mEq (per 100 g). */
  function AcidMaltMeq(acidMaltKg: real): real
  {
    (acidMaltKg * 1000.0 / 100.0) * AcidMaltMeqPer100g
  }

  /** Residual alkalinity (as CaCO3) of the water. */
  function ResidualAlkalinity(w: WaterProfile): real
  {
    w.hco3 * (50.0 / 61.0168) - (w.ca / 1.4 + w.mg / 1.7)
  }

  /** Buffering factors per kg of BASE, CRYSTAL and ROASTED malt. */
  const BufferingBase: real := 33.0
  const BufferingCrystal: real := 50.0
  const BufferingRoasted: real := 70.0

  /** totalMashBuffering: malt buffering plus the residual-alkalinity contribution. */
  function TotalBuffering(comp: Composition, w: WaterProfile): real
  {
    comp.base * BufferingBase + comp.crystal * BufferingCrystal + comp.roasted * BufferingRoasted
      + ResidualAlkalinity(w) * 0.08
  }

  // ---------------------------------------------------------------------------
  // The calculation

  /** The details every result past validation starts from: the auto-detected volume of the stage. */
  function BaseDetails(inputs: PhInputs): PhDetails
  {
    var parsed := inputs.recipe.Parsed?;
    PhDetails(
      if parsed && inputs.stage == Mash then inputs.recipe.mashInfuseL else None,
      if parsed && inputs.stage == PreBoil then inputs.recipe.boilSizeL else None,
      None, None, None, None, None, None, None)
  }

  /** The checks that end the calculation before any chemistry (lines 62-113), in order. */
  function EarlyResult(inputs: PhInputs): (r: Option<PhResult>)
    ensures r.None? ==> 0.0 < inputs.volume && 0.0 < inputs.currentPh <= 14.0 && 0.0 < inputs.targetPh <= 14.0
    ensures r.None? ==> Abs(inputs.currentPh - inputs.targetPh) >= 0.001
    ensures r.None? && inputs.stage == Mash ==>
      inputs.water.Some? && inputs.recipe.Parsed? && |inputs.recipe.fermentables| > 0
  {
    var ph, target := inputs.currentPh, inputs.targetPh;
    var base := BaseDetails(inputs);
    if inputs.volume <= 0.0 then
      Some(Failure(VolumeNotPositive, None))
    else if ph <= 0.0 || ph > 14.0 || target <= 0.0 || target > 14.0 then
      Some(Failure(PhOutOfRange, None))
    else if Abs(ph - target) < 0.001 then
      Some(NoDose(NoCorrection, AlreadyAtTarget, Some(base), None))
    else if inputs.stage == PreBoil then
      None
    else if inputs.water.None? then
      Some(Failure(WaterProfileRequired, Some(base)))
    else if !inputs.recipe.Parsed? then
      Some(Failure(RecipeRequired(inputs.recipe.Malformed?), Some(base)))
    else if inputs.recipe.fermentables == [] then
      Some(Failure(NoFermentables, Some(base)))
    else
      None
  }

  /** The mash branch after the composition is known (lines 142-227). */
  function MashResult(delta: real, w: WaterProfile, comp: Composition, total: real, acidMalt: real,
                      base: PhDetails): PhResult
  {
    if total == 0.0 then
      Failure(NoCountedGrain, Some(base.(composition := Some(comp))))
    else
      var acidMeq := AcidMaltMeq(acidMalt);
      var buffering := TotalBuffering(comp, w);
      var initial := buffering * delta;
      var details := base.(
        residualAlkalinity := Some(ResidualAlkalinity(w)),
        totalMashBuffering := Some(buffering),
        composition := Some(comp),
        mEqFromAcidMalt := Some(acidMeq),
        initialMEqNeeded := Some(initial));
      if buffering <= 0.0 && delta != 0.0 then
        Failure(BufferingNotPositive, Some(details))
      else if delta > 0.0 then
        var net := initial - acidMeq;
        var d := details.(netMEqForAcidification := Some(net));
        if net <= 0.0 then
          NoDose(NoCorrection, AcidMaltSufficient, Some(d), None)
        else
          PhResult(Acidify, net / LacticAcidMeqPerMl, net / PhosphoricAcidMeqPerMl, 0.0,
                   AcidNeeded, Some(d), None)
      else
        var meq := Abs(initial) + acidMeq;
        var d := details.(mEqToAlkalinize := Some(meq));
        if meq <= 0.0 && delta != 0.0 then
          NoDose(NoCorrection, NoAlkalinizationComputed, Some(d), None)
        else if meq <= 0.0 && delta == 0.0 then
          NoDose(NoCorrection, AlkalinizationAtTarget, Some(d), None)
        else
          PhResult(Alcalinize, 0.0, 0.0, meq / BicarbonateMeqPerGram, BicarbonateNeeded, Some(d), None)
  }

  /** The simplified linear pre-boil model (lines 229-258). */
  function PreBoilResult(delta: real, volume: real, recipe: RecipeFile, base: PhDetails): PhResult
  {
    if recipe.Malformed? then
      Failure(PreBoilRecipeUnreadable, Some(base))
    else if delta > 0.0 then
      PhResult(Acidify, 0.5 * volume * delta, 0.15 * volume * delta, 0.0, PreBoilAcid, Some(base), None)
    else
      var meq := PreBoilBufferingMeqPerLitrePh * volume * Abs(delta);
      PhResult(Alcalinize, 0.0, 0.0, meq / BicarbonateMeqPerGram, PreBoilBicarbonate,
               Some(base.(mEqToAlkalinize := Some(meq))), None)
  }

  /** calculatePhCorrection, as a function of its inputs. */
  function PhCorrection(inputs: PhInputs): PhResult
  {
    match EarlyResult(inputs)
    case Some(r) => r
    case None =>
      var delta := inputs.currentPh - inputs.targetPh;
      if inputs.stage == Mash then
        var fs := inputs.recipe.fermentables;
        MashResult(delta, inputs.water.value, Tally(fs), CountedWeight(fs), AcidMaltWeight(fs),
                   BaseDetails(inputs))
      else
        PreBoilResult(delta, inputs.volume, inputs.recipe, BaseDetails(inputs))
  }

  /** calculatePhCorrection, with the mash loop run as in the source. */
  method CalculatePhCorrection(inputs: PhInputs) returns (r: PhResult)
    ensures r == PhCorrection(inputs)
  {
    var early := EarlyResult(inputs);
    if early.Some? {
      return early.value;
    }
    var delta := inputs.currentPh - inputs.targetPh;
    if inputs.stage == Mash {
      var comp, total, acidMalt := AccumulateComposition(inputs.recipe.fermentables);
      r := MashResult(delta, inputs.water.value, comp, total, acidMalt, BaseDetails(inputs));
    } else {
      r := PreBoilResult(delta, inputs.volume, inputs.recipe, BaseDetails(inputs));
    }
  }

  // ---------------------------------------------------------------------------
  // Properties of the mash composition

  /** The six composition entries add up to totalGrainWeightKg. */
  lemma {:induction false} CompositionSumsToTotal(fs: seq<Fermentable>)
    ensures Tally(fs).Sum() == CountedWeight(fs)
    decreases |fs|
  {
    if fs != [] {
      CompositionSumsToTotal(fs[..|fs| - 1]);
    }
  }

  /** acidMaltKg is the SPECIALTY_ACIDIC entry of the composition. */
  lemma {:induction false} AcidMaltIsAcidicEntry(fs: seq<Fermentable>)
    ensures AcidMaltWeight(fs) == Tally(fs).acidic
    decreases |fs|
  {
    if fs != [] {
      AcidMaltIsAcidicEntry(fs[..|fs| - 1]);
    }
  }

  /** Only non-negative amounts are counted, so no entry is negative. */
  lemma {:induction false} CompositionNonNegative(fs: seq<Fermentable>)
    ensures forall c :: Tally(fs).Weight(c) >= 0.0
    ensures CountedWeight(fs) >= 0.0
    decreases |fs|
  {
    if fs != [] {
      CompositionNonNegative(fs[..|fs| - 1]);
    }
  }

  /** SPECIALTY_OTHER, UNKNOWN and acid-malt weight do not change the mash buffering. */
  lemma BufferingIgnoresUnbufferedMalts(comp: Composition, w: WaterProfile, acidic: real, other: real, unknown: real)
    ensures TotalBuffering(comp.(acidic := acidic, other := other, unknown := unknown), w) == TotalBuffering(comp, w)
  {
  }

  // ---------------------------------------------------------------------------
  // Properties of the calculation

  /** Volume and both pH readings in range. */
  predicate ValidMeasurements(inputs: PhInputs)
  {
    0.0 < inputs.volume && 0.0 < inputs.currentPh <= 14.0 && 0.0 < inputs.targetPh <= 14.0
  }

  /** Inputs that reach the mash chemistry: in range, off target, water profile and parsed recipe present. */
  predicate MashReady(inputs: PhInputs)
  {
    && ValidMeasurements(inputs)
    && inputs.stage == Mash
    && Abs(inputs.currentPh - inputs.targetPh) >= 0.001
    && inputs.water.Some?
    && inputs.recipe.Parsed?
  }

  /** The dosage fields agree with the correction type: at most one kind of dosage is non-zero. */
  predicate DosageAgrees(r: PhResult)
  {
    && (r.error.Some? ==> r.correctionType == NoCorrection)
    && (r.correctionType == Acidify ==>
          r.lacticAcidMl > 0.0 && r.phosphoricAcidMl > 0.0 && r.bicarbonateGrams == 0.0)
    && (r.correctionType == Alcalinize ==>
          r.bicarbonateGrams > 0.0 && r.lacticAcidMl == 0.0 && r.phosphoricAcidMl == 0.0)
    && (r.correctionType == NoCorrection ==>
          r.lacticAcidMl == 0.0 && r.phosphoricAcidMl == 0.0 && r.bicarbonateGrams == 0.0)
  }

  /** Volume and pH validation run first and give an error, NONE and no dosage. */
  lemma InvalidMeasurementsRejected(inputs: PhInputs)
    ensures inputs.volume <= 0.0 ==> PhCorrection(inputs) == Failure(VolumeNotPositive, None)
    ensures 0.0 < inputs.volume && !ValidMeasurements(inputs) ==>
      PhCorrection(inputs) == Failure(PhOutOfRange, None)
  {
  }

  /** A pH within 0.001 of the target needs no correction, whatever the stage, water or recipe. */
  lemma AtTargetNeedsNothing(inputs: PhInputs)
    requires ValidMeasurements(inputs)
    requires Abs(inputs.currentPh - inputs.targetPh) < 0.001
    ensures PhCorrection(inputs) == NoDose(NoCorrection, AlreadyAtTarget, Some(BaseDetails(inputs)), None)
  {
  }

  /**
   * The mash prerequisites, checked in order: a missing water profile, a recipe
   * that is absent or does not parse, and a recipe without FERMENTABLE records
   * are each an error with NONE, no dosage and the base details.
   */
  lemma MashPrerequisiteErrors(inputs: PhInputs)
    requires ValidMeasurements(inputs) && inputs.stage == Mash
    requires Abs(inputs.currentPh - inputs.targetPh) >= 0.001
    ensures inputs.water.None? ==>
      PhCorrection(inputs) == Failure(WaterProfileRequired, Some(BaseDetails(inputs)))
    ensures inputs.water.Some? && !inputs.recipe.Parsed? ==>
      PhCorrection(inputs) == Failure(RecipeRequired(inputs.recipe.Malformed?), Some(BaseDetails(inputs)))
    ensures inputs.water.Some? && inputs.recipe.Parsed? && inputs.recipe.fermentables == [] ==>
      PhCorrection(inputs) == Failure(NoFermentables, Some(BaseDetails(inputs)))
    ensures PhCorrection(inputs).error == Some(WaterProfileRequired) ==> inputs.water.None?
  {
  }

  /** A recipe without any counted grain or adjunct weight is an error. */
  lemma NoCountedGrainIsError(inputs: PhInputs)
    requires MashReady(inputs) && inputs.recipe.fermentables != []
    requires CountedWeight(inputs.recipe.fermentables) == 0.0
    ensures PhCorrection(inputs).error == Some(NoCountedGrain)
    ensures PhCorrection(inputs).details.value.composition == Some(Tally(inputs.recipe.fermentables))
  {
  }

  /** A non-positive total buffering capacity is an error with no dosage. */
  lemma NonPositiveBufferingIsError(inputs: PhInputs)
    requires MashReady(inputs)
    requires CountedWeight(inputs.recipe.fermentables) != 0.0
    requires TotalBuffering(Tally(inputs.recipe.fermentables), inputs.water.value) <= 0.0
    ensures PhCorrection(inputs).error == Some(BufferingNotPositive)
    ensures PhCorrection(inputs).correctionType == NoCorrection
  {
    assert inputs.recipe.fermentables != [];
  }

  /**
   * Mash acidification: the acid need, less what the acid malt supplies, is
   * dosed as lactic (8.1 mEq/mL) or phosphoric (23 mEq/mL) acid, or not at all
   * when the acid malt covers it.
   */
  lemma MashAcidification(inputs: PhInputs)
    requires MashReady(inputs)
    requires inputs.currentPh - inputs.targetPh > 0.0
    requires CountedWeight(inputs.recipe.fermentables) != 0.0
    requires TotalBuffering(Tally(inputs.recipe.fermentables), inputs.water.value) > 0.0
    ensures
      var comp := Tally(inputs.recipe.fermentables);
      var net := TotalBuffering(comp, inputs.water.value) * (inputs.currentPh - inputs.targetPh)
                 - 130.0 * comp.Weight(SpecialtyAcidic);
      var r := PhCorrection(inputs);
      && r.error.None?
      && (net <= 0.0 ==> r == NoDose(NoCorrection, AcidMaltSufficient, r.details, None))
      && (net > 0.0 ==>
            && r.correctionType == Acidify
            && r.lacticAcidMl == net / 8.1
            && r.phosphoricAcidMl == net / 23.0
            && r.bicarbonateGrams == 0.0
            && r.lacticAcidMl * 8.1 == r.phosphoricAcidMl * 23.0)
  {
    var fs := inputs.recipe.fermentables;
    assert fs != [];
    AcidMaltIsAcidicEntry(fs);
  }

  /**
   * Mash alkalinization: the mEq to neutralise are strictly positive, so the
   * result is always ALCALINIZE (the two NONE branches cannot be taken) and the
   * only dose is sodium bicarbonate at 11.9 mEq/g.
   */
  lemma MashAlkalinization(inputs: PhInputs)
    requires MashReady(inputs)
    requires inputs.currentPh - inputs.targetPh < 0.0
    requires CountedWeight(inputs.recipe.fermentables) != 0.0
    requires TotalBuffering(Tally(inputs.recipe.fermentables), inputs.water.value) > 0.0
    ensures
      var comp := Tally(inputs.recipe.fermentables);
      var meq := TotalBuffering(comp, inputs.water.value) * (inputs.targetPh - inputs.currentPh)
                 + 130.0 * comp.Weight(SpecialtyAcidic);
      var r := PhCorrection(inputs);
      && meq > 0.0
      && r.error.None?
      && r.correctionType == Alcalinize
      && r.bicarbonateGrams == meq / 11.9
      && r.lacticAcidMl == 0.0 && r.phosphoricAcidMl == 0.0
  {
    var fs := inputs.recipe.fermentables;
    assert fs != [];
    AcidMaltIsAcidicEntry(fs);
    CompositionNonNegative(fs);
    var b := TotalBuffering(Tally(fs), inputs.water.value);
    var delta := inputs.currentPh - inputs.targetPh;
    assert b * delta < 0.0;
    assert Abs(b * delta) == b * (inputs.targetPh - inputs.currentPh);
  }

  /**
   * Pre-boil: a linear model in volume and pH difference; acid when the pH is
   * too high, bicarbonate (3 mEq per litre and pH unit) when it is too low.
   */
  lemma PreBoilLinearModel(inputs: PhInputs)
    requires ValidMeasurements(inputs) && inputs.stage == PreBoil
    requires Abs(inputs.currentPh - inputs.targetPh) >= 0.001
    ensures var r := PhCorrection(inputs);
      var v, delta := inputs.volume, inputs.currentPh - inputs.targetPh;
      && (inputs.recipe.Malformed? ==> r.error == Some(PreBoilRecipeUnreadable))
      && (!inputs.recipe.Malformed? && delta > 0.0 ==>
            r == PhResult(Acidify, 0.5 * v * delta, 0.15 * v * delta, 0.0, PreBoilAcid, r.details, None))
      && (!inputs.recipe.Malformed? && delta < 0.0 ==>
            r == PhResult(Alcalinize, 0.0, 0.0, 3.0 * v * -delta / 11.9, PreBoilBicarbonate, r.details, None))
  {
  }

  /** Whatever the inputs, at most one kind of dosage is non-zero and it matches the correction type. */
  lemma OneKindOfDosage(inputs: PhInputs)
    ensures DosageAgrees(PhCorrection(inputs))
  {
    if EarlyResult(inputs).None? {
      var delta := inputs.currentPh - inputs.targetPh;
      if inputs.stage == Mash {
        var fs := inputs.recipe.fermentables;
        var w := inputs.water.value;
        if CountedWeight(fs) != 0.0 && TotalBuffering(Tally(fs), w) > 0.0 {
          if delta > 0.0 {
            MashAcidification(inputs);
          } else {
            MashAlkalinization(inputs);
          }
        }
      } else {
        assert inputs.volume * delta != 0.0;
      }
    }
  }

  /**
   * Loos water, 5 kg of base malt, pH 5.7 to 5.3 in 20 L: the mash needs acid,
   * and lactic and phosphoric doses stand in the ratio 23 : 8.1.
   * PilsnerRecipeTally shows that a one-record recipe of 5 kg "Pilsner" grain
   * has this composition.
   */
  lemma LoosBaseMaltNeedsAcid(inputs: PhInputs)
    requires inputs.stage == Mash && inputs.volume == 20.0
    requires inputs.currentPh == 5.7 && inputs.targetPh == 5.3
    requires inputs.water == Some(LoosWater) && inputs.recipe.Parsed?
    requires Tally(inputs.recipe.fermentables) == Composition(5.0, 0.0, 0.0, 0.0, 0.0, 0.0)
    requires CountedWeight(inputs.recipe.fermentables) == 5.0
    ensures
      var r := PhCorrection(inputs);
      && r.correctionType == Acidify
      && r.lacticAcidMl > 0.0 && r.phosphoricAcidMl > 0.0
      && r.lacticAcidMl / r.phosphoricAcidMl == 23.0 / 8.1
  {
    LoosBufferingPositive();
    MashAcidification(inputs);
    var comp := Tally(inputs.recipe.fermentables);
    var net := TotalBuffering(comp, LoosWater) * (inputs.currentPh - inputs.targetPh) - 130.0 * comp.acidic;
    assert net > 0.0;
    DoseRatio(net);
  }

  lemma DoseRatio(net: real)
    requires net > 0.0
    ensures (net / 8.1) / (net / 23.0) == 23.0 / 8.1
  {
  }

  /** The recipe [("Grain", "Pilsner", 5 kg)] counts as 5 kg of BASE malt. */
  lemma PilsnerRecipeTally(fs: seq<Fermentable>)
    requires fs == [Fermentable("Grain", "Pilsner", Some(5.0))]
    ensures Tally(fs) == Composition(5.0, 0.0, 0.0, 0.0, 0.0, 0.0) && CountedWeight(fs) == 5.0
  {
    GrainPilsnerCounted(fs[0]);
    PilsnerIsBase();
    assert fs[..0] == [];
  }

  lemma GrainPilsnerCounted(f: Fermentable)
    requires f == Fermentable("Grain", "Pilsner", Some(5.0))
    ensures Counted(f)
  {
    LowerCased(f.kind, "grain");
  }

  lemma LoosBufferingPositive()
    ensures TotalBuffering(Composition(5.0, 0.0, 0.0, 0.0, 0.0, 0.0), LoosWater) > 0.0
  {
  }
}
