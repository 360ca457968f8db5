/**
 * The numeric constants the calculators read from constants.tsx: the default
 * (Loos) water profile and the brewing-chemistry factors.
 */
module Chemistry {

  /** Water ion content in mg/L. */
  datatype WaterProfile = WaterProfile(ca: real, mg: real, hco3: real)

  /** DEFAULT_LOOS_WATER_PROFILE. */
  const LoosWater: WaterProfile := WaterProfile(125.0, 20.7, 306.5)

  /** BREWING_CHEMISTRY_FACTORS. */
  const LacticAcidMeqPerMl: real := 8.1
  const PhosphoricAcidMeqPerMl: real := 23.0
  const BicarbonateMeqPerGram: real := 11.9
  const AcidMaltMeqPer100g: real := 13.0
  const PreBoilBufferingMeqPerLitrePh: real := 3.0
}
