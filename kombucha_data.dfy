/**
 * The static tables of the kombucha generator (services/kombuchaData.ts):
 * tea and sugar per litre and a taste description for each aromatic profile,
 * and the infusion time of each tea.
 *
 * The descriptions are French prose; each is represented by a tag naming the
 * profile and tea it describes.
 */
module KombuchaData {

  /** AromaticProfileKey. */
  datatype ProfileKey = LightGentle | ClassicBalanced | IntenseVinegary

  /** TeaTypeKey. */
  datatype TeaType = BlackTea | GreenTea | MixedTea

  /** The taste description written for one profile and one tea. */
  datatype TasteDescription = TasteDescription(profile: ProfileKey, tea: TeaType)

  /** KombuchaProfile: grams of tea and of sugar per litre, and one description per tea. */
  datatype KombuchaProfile = KombuchaProfile(
    teaPerLitre: real,
    sugarPerLitre: real,
    descriptions: map<TeaType, TasteDescription>)

  /** The three descriptions of one profile. */
  function DescriptionsOf(p: ProfileKey): map<TeaType, TasteDescription>
  {
    map[BlackTea := TasteDescription(p, BlackTea),
        GreenTea := TasteDescription(p, GreenTea),
        MixedTea := TasteDescription(p, MixedTea)]
  }

  /** KOMBUCHA_PROFILES. */
  const KombuchaProfiles: map<ProfileKey, KombuchaProfile> :=
    map[LightGentle := KombuchaProfile(5.0, 60.0, DescriptionsOf(LightGentle)),
        ClassicBalanced := KombuchaProfile(7.0, 70.0, DescriptionsOf(ClassicBalanced)),
        IntenseVinegary := KombuchaProfile(9.0, 80.0, DescriptionsOf(IntenseVinegary))]

  /** INFUSION_TIMES, in minutes. */
  const InfusionTimes: map<TeaType, int> := map[BlackTea := 10, GreenTea := 7, MixedTea := 8]

  /** Position of a profile from the gentlest to the most vinegary. */
  function Intensity(p: ProfileKey): nat
  {
    match p
    case LightGentle => 0
    case ClassicBalanced => 1
    case IntenseVinegary => 2
  }

  /** Every profile key has an entry, with the listed grams of tea and sugar per litre. */
  lemma ProfileValues()
    ensures forall p :: p in KombuchaProfiles
    ensures KombuchaProfiles[LightGentle].teaPerLitre == 5.0 && KombuchaProfiles[LightGentle].sugarPerLitre == 60.0
    ensures KombuchaProfiles[ClassicBalanced].teaPerLitre == 7.0 && KombuchaProfiles[ClassicBalanced].sugarPerLitre == 70.0
    ensures KombuchaProfiles[IntenseVinegary].teaPerLitre == 9.0 && KombuchaProfiles[IntenseVinegary].sugarPerLitre == 80.0
  {
    forall p: ProfileKey
      ensures p in KombuchaProfiles
    {
      assert p == LightGentle || p == ClassicBalanced || p == IntenseVinegary;
    }
  }

  /** A more intense profile uses strictly more tea and strictly more sugar per litre. */
  lemma StrongerProfileUsesMore(p: ProfileKey, q: ProfileKey)
    requires Intensity(p) < Intensity(q)
    ensures p in KombuchaProfiles && q in KombuchaProfiles
    ensures KombuchaProfiles[p].teaPerLitre < KombuchaProfiles[q].teaPerLitre
    ensures KombuchaProfiles[p].sugarPerLitre < KombuchaProfiles[q].sugarPerLitre
  {
    ProfileValues();
  }

  /** Every profile describes every tea, and the description found is the one written for that pair. */
  lemma EveryDescriptionPresent(p: ProfileKey, t: TeaType)
    ensures p in KombuchaProfiles && t in KombuchaProfiles[p].descriptions
    ensures KombuchaProfiles[p].descriptions[t] == TasteDescription(p, t)
  {
    ProfileValues();
  }

  /** Every tea has a positive infusion time: 10, 7 and 8 minutes. */
  lemma InfusionTimesPositive(t: TeaType)
    ensures t in InfusionTimes && InfusionTimes[t] > 0
    ensures InfusionTimes[t] == match t case BlackTea => 10 case GreenTea => 7 case MixedTea => 8
  {
  }
}
