# brewmate calculation core in Dafny

This project models the calculation core of brewmate, a home-brewing helper. The core has four parts:

- **Malt classification** (`MaltCategorizer`). A malt name is lower-cased and searched for the keywords of ROASTED, SPECIALTY_ACIDIC, CRYSTAL, SPECIALTY_OTHER and BASE, in that order. The first category with a hit wins. A name with no hit is UNKNOWN.
- **pH correction** (`PhCalculator`, with the water profile and chemistry factors in `Chemistry`).
  - In the mash, the counted grain and adjunct records are tallied per malt category. The tally gives the mash buffering from the categories and the water's residual alkalinity. The model then doses lactic or phosphoric acid, net of what acid malt already supplies, or sodium bicarbonate.
  - Before the boil, a linear model in volume and pH difference is used.
  - The record loop is a method (`AccumulateComposition`) proved against the specification functions `Tally`, `CountedWeight` and `AcidMaltWeight`. `CalculatePhCorrection` runs that loop and is proved equal to the specification function `PhCorrection`.
- **Density and refractometer calculators** (`BrewingCalculators`).
  - Readings are converted to gravity points.
  - Pre-boil, the model gives the water to add or to evaporate.
  - Post-boil, it gives a list of options. The list is built by successive pushes in the method `CalculatePostBoilDensity`, proved equal to the function `PostBoilDensity`.
  - The refractometer reading is corrected with a cubic polynomial, and the ABV is estimated from it.
- **Kombucha recipe generator** (`KombuchaCalculator`, with its tables in `KombuchaData`). Tea, sugar, starter and water are scaled from a per-litre profile. A successful recipe has five ingredients and six numbered steps. A non-positive volume gives an error with an empty title and empty lists.

Arithmetic is exact over `real`. Messages, errors and texts are tags. A tag carries the numbers its text displays: the pre-boil advice carries its litres of water, a post-boil option its amount, a kombucha step its quantities.

## Model

| member | source | states |
|---|---|---|
| MaltCategorizer.LowerChar | utils/maltCategorizer.ts:48 | an upper-case ASCII letter, and a Latin-1 capital from À to Þ other than ×, is shifted by 32; the result is never an upper-case ASCII letter; any changed character is shifted by exactly 32 |
| MaltCategorizer.ToLower | utils/maltCategorizer.ts:48 | same length as the name, lower-cased character by character |
| MaltCategorizer.IncludesIffOccurs | utils/maltCategorizer.ts:65 | the left-to-right search answers true exactly when the keyword occurs at some position of the name |
| MaltCategorizer.SomeIncludedIffSome | utils/maltCategorizer.ts:65 | `keywords.some(...)` holds exactly when some keyword of the list occurs in the name |
| MaltCategorizer.EmptyNameIsUnknown | utils/maltCategorizer.ts:43-46 | a missing or empty name is UNKNOWN |
| MaltCategorizer.ToLowerIdempotent | utils/maltCategorizer.ts:48 | lower-casing an already lower-cased name changes nothing |
| MaltCategorizer.CategoryIgnoresCase | utils/maltCategorizer.ts:48-65 | two names with the same lower-cased form get the same category, which is also the category of the lower-cased form |
| MaltCategorizer.FirstMatchCascade | utils/maltCategorizer.ts:52-69 | the loop over the ordered categories is the cascade ROASTED, SPECIALTY_ACIDIC, CRYSTAL, SPECIALTY_OTHER, BASE, else UNKNOWN |
| MaltCategorizer.ClassifiedAsFirstMatchingCategory | utils/maltCategorizer.ts:52-68 | a name gets category K (K not UNKNOWN) if and only if it is non-empty, some keyword of K occurs in it, and no keyword of an earlier category does |
| MaltCategorizer.UnknownIffNoKeyword | utils/maltCategorizer.ts:61-76 | UNKNOWN exactly when the name is empty or no keyword of any list occurs in it, so any keyword hit gives a real category |
| MaltCategorizer.CarafaIsRoasted | utils/maltCategorizer.ts:15-58 | "Carafa III" contains CRYSTAL's "cara" but is ROASTED, which is tried first |
| MaltCategorizer.AcidulatedIsAcidic | utils/maltCategorizer.ts:15-58 | "Acidulated Malt" is SPECIALTY_ACIDIC |
| MaltCategorizer.CaramunichIsCrystal | utils/maltCategorizer.ts:15-58 | "Caramunich" contains BASE's "munich" but is CRYSTAL |
| MaltCategorizer.PilsnerIsBase | utils/maltCategorizer.ts:15-58 | "Pilsner" matches none of the four earlier lists and is BASE |
| MaltCategorizer.MissingCharExcludes | utils/maltCategorizer.ts:65 | a keyword containing a character absent from the name never occurs in it |
| MaltCategorizer.KeywordHit | utils/maltCategorizer.ts:64-66 | one occurrence of one keyword of a category is enough for that category to match |
| MaltCategorizer.Includes | utils/maltCategorizer.ts:65 | `name.includes(keyword)`, searched from the left; IncludesIffOccurs proves it holds exactly when the keyword occurs at some position |
| MaltCategorizer.SomeIncluded | utils/maltCategorizer.ts:65 | `keywords.some(...)` over one category's list; SomeIncludedIffSome proves it holds exactly when one listed keyword occurs |
| MaltCategorizer.Keywords | utils/maltCategorizer.ts:15-34 | the keyword list of each category, in source order; UNKNOWN has none; KeywordsAreLowerCase proves every keyword lower-case |
| MaltCategorizer.WithoutCapitalsIsLower | utils/maltCategorizer.ts:48 | a string containing no capital that lower-casing changes is its own lower-cased form |
| MaltCategorizer.KeywordsAreLowerCase | utils/maltCategorizer.ts:15-34 | every keyword of every category is already lower-case, so comparing it with the lower-cased name makes the search case-insensitive |
| MaltCategorizer.FirstMatch | utils/maltCategorizer.ts:52-69 | the loop over the ordered categories, returning the first with a keyword hit and UNKNOWN after the last; FirstMatchCascade and ClassifiedAsFirstMatchingCategory state its outcome |
| MaltCategorizer.GetMaltCategory | utils/maltCategorizer.ts:43-77 | the category of a malt name; EmptyNameIsUnknown, CategoryIgnoresCase, ClassifiedAsFirstMatchingCategory and UnknownIffNoKeyword state what it returns |
| Chemistry.LoosWater | constants.tsx:167-171 | the default Loos water: 125 mg/L calcium, 20.7 mg/L magnesium, 306.5 mg/L bicarbonate |
| Chemistry.LacticAcidMeqPerMl | constants.tsx:174 | lactic acid 80 % supplies 8.1 mEq per mL |
| Chemistry.PhosphoricAcidMeqPerMl | constants.tsx:175 | phosphoric acid 75 % supplies 23.0 mEq per mL |
| Chemistry.BicarbonateMeqPerGram | constants.tsx:176 | sodium bicarbonate neutralises 11.9 mEq per gram |
| Chemistry.AcidMaltMeqPer100g | constants.tsx:177 | acid malt supplies 13 mEq per 100 g |
| Chemistry.PreBoilBufferingMeqPerLitrePh | constants.tsx:178 | pre-boil wort needs 3 mEq per litre to move one pH unit |
| PhCalculator.Composition.Add | services/phCalculatorService.ts:135 | adding to one category's weight raises that entry by the amount and leaves the other five entries unchanged |
| PhCalculator.Counted | services/phCalculatorService.ts:126-132 | a record is counted when TYPE, NAME and AMOUNT are present, the lower-cased TYPE is grain or adjunct, and the amount is a non-negative number |
| PhCalculator.Tally | services/phCalculatorService.ts:115-140 | the composition after the records have been visited in order; AccumulateComposition is proved equal to it, and CompositionSumsToTotal and CompositionNonNegative state its properties |
| PhCalculator.CountedWeight | services/phCalculatorService.ts:119-133 | the total grain weight, the sum of the counted amounts; CompositionSumsToTotal proves it equal to the sum of the composition entries |
| PhCalculator.AcidMaltWeight | services/phCalculatorService.ts:120-138 | the acid-malt weight, the sum of the counted SPECIALTY_ACIDIC amounts; AcidMaltIsAcidicEntry proves it equal to that composition entry |
| PhCalculator.AccumulateComposition | services/phCalculatorService.ts:115-140 | the loop over the FERMENTABLE records yields the composition, the total grain weight and the acid-malt weight of the specification functions |
| PhCalculator.CompositionSumsToTotal | services/phCalculatorService.ts:115-140 | the six composition entries add up to the total grain weight |
| PhCalculator.AcidMaltIsAcidicEntry | services/phCalculatorService.ts:133-138 | the acid-malt weight equals the SPECIALTY_ACIDIC entry of the composition |
| PhCalculator.CompositionNonNegative | services/phCalculatorService.ts:126-133 | only non-negative amounts are counted, so no entry and no total is negative |
| PhCalculator.BufferingIgnoresUnbufferedMalts | services/phCalculatorService.ts:148-159 | SPECIALTY_OTHER, UNKNOWN and acid-malt weights do not change the total mash buffering |
| PhCalculator.AcidMaltMeq | services/phCalculatorService.ts:146 | the acid supplied by acid malt, 13 mEq per 100 g; MashAcidification states it as 130 mEq per kg |
| PhCalculator.ResidualAlkalinity | services/phCalculatorService.ts:148-150 | the water's residual alkalinity as CaCO3; LoosBaseMaltNeedsAcid relies on it for Loos water |
| PhCalculator.TotalBuffering | services/phCalculatorService.ts:152-159 | 33, 50 and 70 per kg of BASE, CRYSTAL and ROASTED malt plus 0.08 times the residual alkalinity; BufferingIgnoresUnbufferedMalts states which weights it depends on |
| PhCalculator.EarlyResult | services/phCalculatorService.ts:62-113 | when no early result is returned, volume and pH values are in range and the pH is off target by at least 0.001; for the mash, a water profile and a parsed recipe with at least one FERMENTABLE are also present |
| PhCalculator.BaseDetails | services/phCalculatorService.ts:84-90 | the details every result starts from: the auto-detected mash volume for the mash and the boil size for pre-boil, taken from a parsed recipe only; AtTargetNeedsNothing and MashPrerequisiteErrors return them |
| PhCalculator.MashResult | services/phCalculatorService.ts:142-227 | the mash branch once the composition is known; NoCountedGrainIsError, NonPositiveBufferingIsError, MashAcidification and MashAlkalinization state its outcomes |
| PhCalculator.PreBoilResult | services/phCalculatorService.ts:229-258 | the simplified pre-boil branch; PreBoilLinearModel states its outcomes |
| PhCalculator.PhCorrection | services/phCalculatorService.ts:52-262 | the whole calculation as a function of its inputs; CalculatePhCorrection is proved equal to it, and InvalidMeasurementsRejected, AtTargetNeedsNothing, MashPrerequisiteErrors, NoCountedGrainIsError, NonPositiveBufferingIsError, MashAcidification, MashAlkalinization and PreBoilLinearModel state its outcome on every path |
| PhCalculator.CalculatePhCorrection | services/phCalculatorService.ts:52-262 | the calculation, with the record loop run in place, returns the result of the specification function PhCorrection |
| PhCalculator.InvalidMeasurementsRejected | services/phCalculatorService.ts:62-67 | a non-positive volume, or a pH outside (0, 14], is an error with NONE and no dosage, decided before anything else |
| PhCalculator.AtTargetNeedsNothing | services/phCalculatorService.ts:93-100 | a pH within 0.001 of the target gives NONE, no dosage and no error, in both stages and before the water and recipe checks |
| PhCalculator.MashPrerequisiteErrors | services/phCalculatorService.ts:102-113 | for valid, off-target mash inputs: no water profile gives the water-profile error; otherwise a recipe that is absent or does not parse gives the recipe error (marked when parsing failed); otherwise a recipe without FERMENTABLE records gives the no-fermentables error; each with NONE, no dosage and the base details |
| PhCalculator.NoCountedGrainIsError | services/phCalculatorService.ts:142-144 | a mash recipe whose counted weight is zero is an error; its details carry the composition |
| PhCalculator.NonPositiveBufferingIsError | services/phCalculatorService.ts:172-174 | a non-positive total mash buffering is an error with NONE |
| PhCalculator.MashAcidification | services/phCalculatorService.ts:177-198 | with net = buffering·delta − 130·acid-malt kg: if net ≤ 0 the result is NONE with no dosage; otherwise ACIDIFY with lactic net/8.1 mL, phosphoric net/23 mL, no bicarbonate, and lactic·8.1 = phosphoric·23 |
| PhCalculator.MashAlkalinization | services/phCalculatorService.ts:199-226 | the mEq to neutralise are strictly positive, so both NONE branches are unreachable; the result is ALCALINIZE with bicarbonate mEq/11.9 g and no acid |
| PhCalculator.PreBoilLinearModel | services/phCalculatorService.ts:229-258 | an unreadable recipe is an error; a pH too high gives lactic 0.5·V·delta and phosphoric 0.15·V·delta; a pH too low gives bicarbonate 3·V·|delta|/11.9 |
| PhCalculator.OneKindOfDosage | services/phCalculatorService.ts:56-258 | for every input, an error means NONE, and only the dosage of the correction type can be non-zero (and then the exact amount, before display rounding, is positive) |
| PhCalculator.LoosBaseMaltNeedsAcid | services/phCalculatorService.ts:146-198 | Loos water, 5 kg of base malt and pH 5.7 to 5.3 in 20 L gives ACIDIFY with positive doses in the ratio lactic : phosphoric = 23 : 8.1 |
| PhCalculator.PilsnerRecipeTally | services/phCalculatorService.ts:122-140 | the one-record recipe of 5 kg of "Pilsner" grain tallies as 5 kg of BASE malt, 5 kg in total |
| BrewingCalculators.GravityPoints | utils/brewingCalculators.ts:9-13 | specific-gravity points are positive exactly above 1.000 and zero exactly at 1.000; Brix or Plato points are positive exactly for positive readings |
| BrewingCalculators.GravityPointsIncreasing | utils/brewingCalculators.ts:9-13 | a higher reading is worth more points, in every unit |
| BrewingCalculators.BrixAndPlatoSamePoints | utils/brewingCalculators.ts:11 | a Brix reading and the same number in Plato both count 4 points per degree |
| BrewingCalculators.ValidateDensityInputs | utils/brewingCalculators.ts:19-27 | inputs pass exactly when the volume is positive and both readings are in range (SG in [1, 2], Brix or Plato in (0, 50]); a rejection is never one of the later errors |
| BrewingCalculators.TargetZeroOnlyForSgOfOne | utils/brewingCalculators.ts:30-35 | among accepted inputs, only a specific-gravity target of exactly 1.000 is worth zero points; accepted readings have non-negative points |
| BrewingCalculators.DilutionWater | utils/brewingCalculators.ts:41-44 | the water to add, V·measured/target − V points; DilutionPositive proves it positive and balancing the points |
| BrewingCalculators.EvaporationWater | utils/brewingCalculators.ts:41-48 | the water to evaporate, V − V·measured/target points; EvaporationBounded proves it in (0, V] and balancing the points |
| BrewingCalculators.PreBoilDensity | utils/brewingCalculators.ts:16-52 | an error carries no amount and no message; water to add and water to evaporate are never both given |
| BrewingCalculators.PreBoilErrors | utils/brewingCalculators.ts:19-51 | the pre-boil calculator fails exactly on rejected inputs or a specific-gravity target of 1.000; the two "should not happen" errors are never returned |
| BrewingCalculators.DilutionPositive | utils/brewingCalculators.ts:41-46 | diluting a too-dense wort takes a positive amount of water, and (V + water)·target points = V·measured points |
| BrewingCalculators.EvaporationBounded | utils/brewingCalculators.ts:41-51 | concentrating a too-thin wort boils off more than nothing and at most the whole volume, and (V − water)·target points = V·measured points |
| BrewingCalculators.PreBoilDilution | utils/brewingCalculators.ts:41-46 | measured points above target: the only amount is a positive water addition that brings the points exactly to the target, and the message shows that amount |
| BrewingCalculators.PreBoilConcentration | utils/brewingCalculators.ts:47-51 | measured points below target: the only amount is an evaporation of at most the volume that brings the points exactly to the target, and the message shows that amount |
| BrewingCalculators.PreBoilAlreadyAtTarget | utils/brewingCalculators.ts:37-39 | for usable inputs, the result is "already at target" with no amount and no error exactly when the two readings are equal |
| BrewingCalculators.PreBoilBrixPlatoAgree | utils/brewingCalculators.ts:25-31 | Brix and Plato readings give the same amounts, message and error status |
| BrewingCalculators.PostBoilDensity | utils/brewingCalculators.ts:55-130 | an error comes with an empty option list and no message |
| BrewingCalculators.SugarGrams | utils/brewingCalculators.ts:94-111 | the sugar for the missing points at 0.4 points per g/L; PostBoilConcentration proves it positive and that sugar·0.4 = (target − measured points)·V |
| BrewingCalculators.TooThinOptions | utils/brewingCalculators.ts:93-127 | the options of a too-thin wort: evaporation, then candy sugar and powdered sugar; PostBoilConcentration proves all three present, in that order |
| BrewingCalculators.CalculatePostBoilDensity | utils/brewingCalculators.ts:79-129 | building the option list by successive pushes yields the result of the specification function PostBoilDensity |
| BrewingCalculators.PostBoilErrors | utils/brewingCalculators.ts:58-84 | the post-boil calculator returns the same error as the pre-boil one: the validation error for rejected inputs, TargetZero exactly for an accepted specific-gravity target of 1.000, and never the negative-water error |
| BrewingCalculators.PostBoilAlreadyAtTarget | utils/brewingCalculators.ts:75-77 | equal readings give no option, the "at target" message and no error |
| BrewingCalculators.PostBoilDilution | utils/brewingCalculators.ts:81-92 | too dense: exactly one option, a dilution in litres that balances the points and equals the pre-boil water addition |
| BrewingCalculators.PostBoilConcentration | utils/brewingCalculators.ts:93-128 | too thin: exactly three options in the order evaporate (litres, at most V, points balanced), candy sugar, powdered sugar (grams, equal, positive, sugar·0.4 = (target − measured points)·V) |
| BrewingCalculators.PostBoilBrixPlatoAgree | utils/brewingCalculators.ts:9-13 | Brix and Plato readings give the same post-boil options, message and error status |
| BrewingCalculators.PostBoilSugarExample | utils/brewingCalculators.ts:109-127 | 20 L going from 12.0 to 12.5 Brix gives 100 g of either sugar |
| BrewingCalculators.SgToBrix | utils/brewingCalculators.ts:134-137 | a specific gravity below 1.000 converts to 0 Brix |
| BrewingCalculators.SgToBrixIncreasing | utils/brewingCalculators.ts:134-137 | from 1.000 up, a higher specific gravity converts to more Brix |
| BrewingCalculators.SgToBrixOfWaterIsNegative | utils/brewingCalculators.ts:193-198 | SG 1.000 converts to a negative Brix value, so the clamp of the displayed value at 0 can take effect |
| BrewingCalculators.BrixToSg | utils/brewingCalculators.ts:139-142 | a reading of 0 Brix or less converts to SG 1.000 |
| BrewingCalculators.BrixToSgIncreasing | utils/brewingCalculators.ts:139-142 | between 0 and the pole, a positive Brix reading is worth more than 1.000 SG, and more Brix gives more SG |
| BrewingCalculators.Abv | utils/brewingCalculators.ts:190 | the alcohol estimate is positive exactly when the original SG exceeds the corrected final SG |
| BrewingCalculators.CorrectedFinalSg | utils/brewingCalculators.ts:182-188 | the cubic correction of the final reading, with the coefficients as written; RefractometerSuccess proves the result built from it |
| BrewingCalculators.ValidateRefractometerInputs | utils/brewingCalculators.ts:148-156 | readings pass exactly when both are positive and, in specific gravity, both lie in [1, 2] |
| BrewingCalculators.Refractometer | utils/brewingCalculators.ts:145-210 | an error returns 0 for both the corrected gravity and the ABV; in Brix or Plato the displayed corrected value is never negative |
| BrewingCalculators.RefractometerErrors | utils/brewingCalculators.ts:148-180 | the refractometer fails exactly on rejected readings or when the final reading is not below the initial one, compared on the raw inputs |
| BrewingCalculators.RefractometerSuccess | utils/brewingCalculators.ts:158-198 | otherwise there is no error, the ABV is (original SG − corrected SG)·131.25, and the corrected value is shown as SG or as Brix clamped at 0 |
| BrewingCalculators.SgReadingsKeepOrderInBrix | utils/brewingCalculators.ts:162-174 | in specific gravity, an accepted final reading below the initial one also converts to fewer Brix |
| BrewingCalculators.RefractometerBrixPlatoAgree | utils/brewingCalculators.ts:165-173 | Brix and Plato readings give the same corrected value, ABV and error status |
| BrewingCalculators.RefractometerExample | utils/brewingCalculators.ts:158-190 | 16 Brix down to 8 Brix gives no error and a positive ABV |
| KombuchaData.ProfileValues | services/kombuchaData.ts:4-32 | every profile has an entry: light 5 g tea / 60 g sugar, classic 7 / 70, intense 9 / 80 per litre |
| KombuchaData.StrongerProfileUsesMore | services/kombuchaData.ts:5-25 | tea and sugar per litre both strictly increase from light to classic to intense |
| KombuchaData.EveryDescriptionPresent | services/kombuchaData.ts:8-30 | every profile has a description for every tea, and it is the one written for that pair |
| KombuchaData.InfusionTimesPositive | services/kombuchaData.ts:34-38 | every tea has a positive infusion time: black 10, green 7, mixed 8 minutes |
| KombuchaData.KombuchaProfiles | services/kombuchaData.ts:4-32 | the profile table; ProfileValues and EveryDescriptionPresent state every entry |
| KombuchaData.InfusionTimes | services/kombuchaData.ts:34-38 | the infusion time of each tea; InfusionTimesPositive states every entry |
| KombuchaCalculator.GenerateKombuchaRecipe | services/kombuchaCalculatorService.ts:12-95 | an error comes with an empty title, taste profile, ingredient list and instruction list |
| KombuchaCalculator.OnlyVolumeErrors | services/kombuchaCalculatorService.ts:15-47 | the recipe fails exactly when the volume is not positive; the invalid-profile and invalid-tea errors are unreachable |
| KombuchaCalculator.IngredientBalance | services/kombuchaCalculatorService.ts:50-64 | five ingredients in fixed order (water, tea, sugar, starter, one SCOBY); water + starter = V; starter = 0.15·V; tea and sugar are V times the profile's per-litre amounts; all amounts are positive |
| KombuchaCalculator.InstructionSteps | services/kombuchaCalculatorService.ts:50-73 | six steps numbered 1 to 6; hot water is 40 % of the water and, with the cold water, makes up all of it, both positive; step 2 uses the tea's infusion time; the quantities shown match the ingredient list |
| KombuchaCalculator.TasteProfileFromTable | services/kombuchaCalculatorService.ts:36-94 | a successful recipe carries the table's description for its profile and tea, and a title naming the volume, profile and tea |
| KombuchaCalculator.AmountsScaleWithVolume | services/kombuchaCalculatorService.ts:50-55 | k times the volume gives k times every amount except the single SCOBY |
| KombuchaCalculator.ClassicBlackFourLitres | services/kombuchaCalculatorService.ts:50-52 | 4 L of the classic profile with black tea takes 28 g of tea, 280 g of sugar and 0.6 L of starter |

## Left out

- XML handling in services/phCalculatorService.ts (DOMParser, `getElementsByTagName`, `getVolumeFromXml`, `getMashInfuseVolumeFromXml`). A recipe is given as its parse outcome: none, malformed, or parsed into FERMENTABLE records. Each record holds its TYPE and NAME texts ("" when missing) and its AMOUNT (None when missing or not a number). The two auto-detected volumes are optional values passed through to the details.
- `isNaN` checks. Inputs are reals, so NaN cannot occur.
- Display rounding (`toFixed`, `parseFloat`). Every amount is the exact value before rounding. The positive doses promised by PhCalculator.OneKindOfDosage, MashAcidification and MashAlkalinization are exact amounts: the source rounds them to two decimals, so a very small need can show as ACIDIFY or ALCALINIZE with 0.00.
- The French message, warning, title, ingredient-name and instruction texts. These are tags that carry the numbers the texts show, so their wording is not modelled.
- MaltCategorizer.LowerChar: `toLowerCase` is modelled for ASCII and Latin-1 capitals only. Other Unicode case mappings are not.
- MaltCategorizer.GetMaltCategory: null, undefined and non-string names are folded into the empty name.
- The "invalid stage" branch of `calculatePhCorrection` (services/phCalculatorService.ts:259-261). The stage is a two-valued datatype, so this branch cannot be reached.
- The fall-through `return 0` of `convertToPD` (utils/brewingCalculators.ts:12). The unit is a three-valued datatype, so it cannot be reached.
- BrewingCalculators.BrixToSg: Brix readings at the pole 258.6·258.2/227.1 (about 294) are excluded by a precondition. There the source divides by zero and JavaScript yields Infinity. `Refractometer` and its lemmas carry the same precondition for Brix and Plato readings.
- BrewingCalculators.Refractometer: the `message` string is not modelled. Only `correctedFinalGravity`, `abv` and `error` are. A Brix or Plato initial reading at the pole 258.6·258.2/227.1 is excluded by a precondition, as for `BrixToSg`.
- The `details` record fields are exact reals. The source rounds them to two decimals.
