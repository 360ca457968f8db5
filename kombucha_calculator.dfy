/**
 * The kombucha recipe generator (services/kombuchaCalculatorService.ts,
 * generateKombuchaRecipe): quantities scaled by the desired volume, a fixed
 * list of five ingredients and six numbered steps.
 *
 * Texts are tags carrying the numbers they show; the display rounding of the
 * amounts is left out.
 */
module KombuchaCalculator {
  import opened Wrappers
  import opened KombuchaData

  datatype IngredientItem = TotalWater | Tea(tea: TeaType) | Sugar | Starter | Scoby

  datatype IngredientUnit = Litre | Gram | Piece

  datatype Ingredient = Ingredient(item: IngredientItem, amount: real, unit: IngredientUnit)

  /** What each instruction says, with the quantity it shows. */
  datatype StepAction =
    | HeatWater(hotWaterL: real)
    | InfuseTea(teaGrams: real, minutes: int)
    | DissolveSugar(sugarGrams: real)
    | AddColdWater(coldWaterL: real)
    | Inoculate(starterL: real)       // at the fixed 20-30 °C inoculation temperature
    | CoverAndFerment                 // 7 to 21 days

  datatype InstructionStep = InstructionStep(step: int, action: StepAction)

  /** The title: empty on an error, otherwise it names the volume, the profile and the tea. */
  datatype RecipeTitle = NoTitle | Title(volumeL: real, profile: ProfileKey, tea: TeaType)

  datatype KombuchaError = VolumeNotPositive | InvalidProfile | InvalidTeaType

  datatype KombuchaRecipe = KombuchaRecipe(
    title: RecipeTitle,
    expectedTasteProfile: Option<TasteDescription>,   // None is the empty string
    ingredients: seq<Ingredient>,
    instructions: seq<InstructionStep>,
    error: Option<KombuchaError>)

  function RecipeFailure(e: KombuchaError): KombuchaRecipe
  {
    KombuchaRecipe(NoTitle, None, [], [], Some(e))
  }

  /** The share of the final volume that is starter liquid from a previous batch. */
  const StarterShare: real := 0.15

  /** The share of the water heated for the infusion; the rest is added cold. */
  const HotWaterShare: real := 0.4

  /** The generated recipe for `volume` litres of the given profile and tea. */
  function GenerateKombuchaRecipe(volume: real, profileKey: ProfileKey, tea: TeaType): (r: KombuchaRecipe)
    ensures r.error.Some? ==>
              && r.title == NoTitle && r.expectedTasteProfile == None
              && r.ingredients == [] && r.instructions == []
  {
    if volume <= 0.0 then RecipeFailure(VolumeNotPositive)
    else if profileKey !in KombuchaProfiles then RecipeFailure(InvalidProfile)
    else
      var profile := KombuchaProfiles[profileKey];
      if tea !in profile.descriptions || tea !in InfusionTimes then RecipeFailure(InvalidTeaType)
      else
        var starterLiquidL := volume * StarterShare;
        var teaGrams := volume * profile.teaPerLitre;
        var sugarGrams := volume * profile.sugarPerLitre;
        var totalWaterL := volume - starterLiquidL;
        var hotWaterL := totalWaterL * HotWaterShare;
        var coldWaterL := totalWaterL - hotWaterL;
        var ingredients := [
          Ingredient(TotalWater, totalWaterL, Litre),
          Ingredient(Tea(tea), teaGrams, Gram),
          Ingredient(Sugar, sugarGrams, Gram),
          Ingredient(Starter, starterLiquidL, Litre),
          Ingredient(Scoby, 1.0, Piece)];
        var instructions := [
          InstructionStep(1, HeatWater(hotWaterL)),
          InstructionStep(2, InfuseTea(teaGrams, InfusionTimes[tea])),
          InstructionStep(3, DissolveSugar(sugarGrams)),
          InstructionStep(4, AddColdWater(coldWaterL)),
          InstructionStep(5, Inoculate(starterLiquidL)),
          InstructionStep(6, CoverAndFerment)];
        KombuchaRecipe(Title(volume, profileKey, tea), Some(profile.descriptions[tea]), ingredients, instructions, None)
  }

  /** The recipe fails exactly when the volume is not positive: the invalid-key errors are never returned. */
  lemma OnlyVolumeErrors(volume: real, profileKey: ProfileKey, tea: TeaType)
    ensures var r := GenerateKombuchaRecipe(volume, profileKey, tea);
      && (r.error.Some? <==> volume <= 0.0)
      && (r.error.Some? ==> r.error == Some(VolumeNotPositive))
  {
    EveryDescriptionPresent(profileKey, tea);
    InfusionTimesPositive(tea);
  }

  /**
   * A successful recipe: five ingredients in the fixed order, amounts that add
   * up (water and starter make the volume, hot and cold water make the water),
   * all positive, and tea and sugar scaled from the profile's per-litre figures.
   */
  lemma IngredientBalance(volume: real, profileKey: ProfileKey, tea: TeaType)
    requires volume > 0.0
    ensures var r := GenerateKombuchaRecipe(volume, profileKey, tea);
      var profile := KombuchaProfiles[profileKey];
      && r.error == None && |r.ingredients| == 5
      && r.ingredients[0].item == TotalWater && r.ingredients[0].unit == Litre
      && r.ingredients[1].item == Tea(tea) && r.ingredients[1].unit == Gram
      && r.ingredients[2].item == Sugar && r.ingredients[2].unit == Gram
      && r.ingredients[3].item == Starter && r.ingredients[3].unit == Litre
      && r.ingredients[4] == Ingredient(Scoby, 1.0, Piece)
      && r.ingredients[0].amount + r.ingredients[3].amount == volume
      && r.ingredients[3].amount == 0.15 * volume
      && r.ingredients[1].amount == volume * profile.teaPerLitre
      && r.ingredients[2].amount == volume * profile.sugarPerLitre
      && (forall i :: 0 <= i < 5 ==> r.ingredients[i].amount > 0.0)
  {
    EveryDescriptionPresent(profileKey, tea);
    InfusionTimesPositive(tea);
    ProfileValues();
  }

  /**
   * A successful recipe: six steps numbered 1 to 6 in order; the hot water of
   * step 1 is 40 % of the total water and, with the cold water of step 4, makes
   * all of it; step 2 infuses for the tea's infusion time; the quantities shown
   * are those of the ingredient list.
   */
  lemma InstructionSteps(volume: real, profileKey: ProfileKey, tea: TeaType)
    requires volume > 0.0
    ensures var r := GenerateKombuchaRecipe(volume, profileKey, tea);
      && r.error == None && |r.instructions| == 6 && |r.ingredients| == 5
      && (forall i :: 0 <= i < 6 ==> r.instructions[i].step == i + 1)
      && r.instructions[0].action.HeatWater? && r.instructions[3].action.AddColdWater?
      && r.instructions[0].action.hotWaterL == 0.4 * r.ingredients[0].amount
      && r.instructions[0].action.hotWaterL + r.instructions[3].action.coldWaterL == r.ingredients[0].amount
      && r.instructions[0].action.hotWaterL > 0.0 && r.instructions[3].action.coldWaterL > 0.0
      && r.instructions[1].action == InfuseTea(r.ingredients[1].amount, InfusionTimes[tea])
      && r.instructions[2].action == DissolveSugar(r.ingredients[2].amount)
      && r.instructions[4].action == Inoculate(r.ingredients[3].amount)
      && r.instructions[5].action == CoverAndFerment
  {
    EveryDescriptionPresent(profileKey, tea);
    InfusionTimesPositive(tea);
  }

  /** A successful recipe carries the table's description for its profile and tea, and a title naming them. */
  lemma TasteProfileFromTable(volume: real, profileKey: ProfileKey, tea: TeaType)
    requires volume > 0.0
    ensures var r := GenerateKombuchaRecipe(volume, profileKey, tea);
      && r.error == None
      && r.expectedTasteProfile == Some(TasteDescription(profileKey, tea))
      && r.title == Title(volume, profileKey, tea)
  {
    EveryDescriptionPresent(profileKey, tea);
    InfusionTimesPositive(tea);
  }

  /** Every quantity is proportional to the volume: k times the volume gives k times each amount. */
  lemma AmountsScaleWithVolume(volume: real, k: real, profileKey: ProfileKey, tea: TeaType)
    requires volume > 0.0 && k > 0.0
    ensures var r := GenerateKombuchaRecipe(volume, profileKey, tea);
      var s := GenerateKombuchaRecipe(k * volume, profileKey, tea);
      && |r.ingredients| == |s.ingredients| == 5
      && (forall i :: 0 <= i < 4 ==> s.ingredients[i].amount == k * r.ingredients[i].amount)
      && s.ingredients[4] == r.ingredients[4]
  {
    var v := k * volume;
    assert v > 0.0;
    IngredientBalance(volume, profileKey, tea);
    IngredientBalance(v, profileKey, tea);
    var profile := KombuchaProfiles[profileKey];
    assert 0.15 * v == k * (0.15 * volume);
    assert v * profile.teaPerLitre == k * (volume * profile.teaPerLitre);
    assert v * profile.sugarPerLitre == k * (volume * profile.sugarPerLitre);
  }

  /** 4 L of the classic profile with black tea: 28 g of tea, 280 g of sugar and 0.6 L of starter. */
  lemma ClassicBlackFourLitres()
    ensures var r := GenerateKombuchaRecipe(4.0, ClassicBalanced, BlackTea);
      && |r.ingredients| == 5
      && r.ingredients[1].amount == 28.0
      && r.ingredients[2].amount == 280.0
      && r.ingredients[3].amount == 0.6
  {
    IngredientBalance(4.0, ClassicBalanced, BlackTea);
  }
}
