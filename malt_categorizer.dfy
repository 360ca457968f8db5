/**
 * Malt classification by name (utils/maltCategorizer.ts).
 *
 * A malt name is lower-cased and searched, by substring, for the keywords of
 * five categories taken in a fixed priority order; the first category with a
 * hit wins and a name without any hit is UNKNOWN.
 */
module MaltCategorizer {

  datatype MaltCategory = Roasted | Crystal | SpecialtyAcidic | SpecialtyOther | Base | Unknown

  /** `toLowerCase` on one character: ASCII and Latin-1 capitals (U+00D7 is not a letter). */
  function LowerChar(c: char): (d: char)
    ensures 'A' <= c <= 'Z' ==> d as int == c as int + 32
    ensures ('À' <= c <= 'Þ' && c != '×') ==> d as int == c as int + 32
    ensures ('A' <= d <= 'Z') == false
    ensures c != d ==> d as int == c as int + 32
  {
    if 'A' <= c <= 'Z' then (c as int + 32) as char
    else if 'À' <= c <= 'Þ' && c != '×' then (c as int + 32) as char
    else c
  }

  /** `toLowerCase` on a string, character by character. */
  function ToLower(s: string): (r: string)
    ensures |r| == |s|
    ensures forall i :: 0 <= i < |s| ==> r[i] == LowerChar(s[i])
  {
    seq(|s|, i requires 0 <= i < |s| => LowerChar(s[i]))
  }

  /** `k` occurs in `s` starting at position `i`. */
  predicate OccursAt(s: string, k: string, i: int)
  {
    0 <= i && i + |k| <= |s| && s[i..i + |k|] == k
  }

  /** `s.includes(k)`, searched from the left. */
  predicate Includes(s: string, k: string)
  {
    if |k| > |s| then false
    else s[..|k|] == k || Includes(s[1..], k)
  }

  /** `keywords.some(k => s.includes(k))`. */
  predicate SomeIncluded(s: string, keywords: seq<string>)
  {
    |keywords| > 0 && (Includes(s, keywords[0]) || SomeIncluded(s, keywords[1..]))
  }

  /** The left-to-right search finds `k` exactly when `k` occurs at some position of `s`. */
  lemma {:induction false} IncludesIffOccurs(s: string, k: string)
    ensures Includes(s, k) <==> exists i :: OccursAt(s, k, i)
    decreases |s|
  {
    if |k| > |s| {
    } else if s[..|k|] == k {
      assert OccursAt(s, k, 0);
    } else {
      var rest := s[1..];
      IncludesIffOccurs(rest, k);
      forall i | OccursAt(rest, k, i)
        ensures OccursAt(s, k, i + 1)
      {
        assert s[i + 1..i + 1 + |k|] == rest[i..i + |k|];
      }
      assert s[0..|k|] == s[..|k|];
      forall i | OccursAt(s, k, i)
        ensures i > 0 && OccursAt(rest, k, i - 1)
      {
        assert s[i..i + |k|] == rest[i - 1..i - 1 + |k|];
      }
    }
  }

  /** `some` holds exactly when one of the keywords is found. */
  lemma {:induction false} SomeIncludedIffSome(s: string, keywords: seq<string>)
    ensures SomeIncluded(s, keywords) <==> exists j :: 0 <= j < |keywords| && Includes(s, keywords[j])
    decreases |keywords|
  {
    if |keywords| > 0 {
      SomeIncludedIffSome(s, keywords[1..]);
      assert forall j :: 0 < j < |keywords| ==> keywords[1..][j - 1] == keywords[j];
    }
  }

  /** The keyword list of each category (MALT_CATEGORIES); UNKNOWN has none. */
  function Keywords(c: MaltCategory): seq<string>
  {
    match c
    case Roasted =>
      ["roast", "black", "chocolate", "chocolat", "carafa", "sinamar", "de-husked",
       "dehusked", "midnight", "stout", "torréfié", "patent"]
    case Crystal => ["crystal", "caramel", "cara", "dextrin"]
    case SpecialtyAcidic => ["acid", "acidulated", "sauermalz"]
    case SpecialtyOther =>
      ["biscuit", "victory", "melanoidin", "aromatic", "brumalt", "honey",
       "smoked", "rauchmalz", "special b", "special w"]
    case Base =>
      ["pilsner", "pilsen", "pale", "lager", "vienna", "munich", "maris otter",
       "golden promise", "wheat", "blé", "weizen", "spelt", "épeautre",
       "rye", "seigle", "oat", "avoine", "2-row", "6-row"]
    case Unknown => []
  }

  /** `c` is not a capital letter that `toLowerCase` changes. */
  predicate NotCapital(c: char)
  {
    !('A' <= c <= 'Z') && !('À' <= c <= 'Þ' && c != '×')
  }

  /** A string without capitals is its own lower-cased form. */
  lemma WithoutCapitalsIsLower(k: string)
    requires forall i :: 0 <= i < |k| ==> NotCapital(k[i])
    ensures ToLower(k) == k
  {
  }

  // No keyword of a category contains a capital, one category at a time.
  lemma RoastedKeywordsNoCapitals()
    ensures forall j, i :: 0 <= j < |Keywords(Roasted)| && 0 <= i < |Keywords(Roasted)[j]| ==> NotCapital(Keywords(Roasted)[j][i])
  {
  }

  lemma CrystalKeywordsNoCapitals()
    ensures forall j, i :: 0 <= j < |Keywords(Crystal)| && 0 <= i < |Keywords(Crystal)[j]| ==> NotCapital(Keywords(Crystal)[j][i])
  {
  }

  lemma AcidicKeywordsNoCapitals()
    ensures forall j, i :: 0 <= j < |Keywords(SpecialtyAcidic)| && 0 <= i < |Keywords(SpecialtyAcidic)[j]| ==> NotCapital(Keywords(SpecialtyAcidic)[j][i])
  {
  }

  lemma OtherKeywordsNoCapitals()
    ensures forall j, i :: 0 <= j < |Keywords(SpecialtyOther)| && 0 <= i < |Keywords(SpecialtyOther)[j]| ==> NotCapital(Keywords(SpecialtyOther)[j][i])
  {
  }

  lemma BaseKeywordsNoCapitals()
    ensures forall j, i :: 0 <= j < |Keywords(Base)| && 0 <= i < |Keywords(Base)[j]| ==> NotCapital(Keywords(Base)[j][i])
  {
  }

  /**
   * Every keyword is written in lower case, so searching the lower-cased name
   * for it is a case-insensitive search.
   */
  lemma KeywordsAreLowerCase(c: MaltCategory, j: int)
    requires 0 <= j < |Keywords(c)|
    ensures ToLower(Keywords(c)[j]) == Keywords(c)[j]
  {
    match c {
    case Roasted => RoastedKeywordsNoCapitals();
    case Crystal => CrystalKeywordsNoCapitals();
    case SpecialtyAcidic => AcidicKeywordsNoCapitals();
    case SpecialtyOther => OtherKeywordsNoCapitals();
    case Base => BaseKeywordsNoCapitals();
    }
    WithoutCapitalsIsLower(Keywords(c)[j]);
  }

  /** The order in which the categories are tried. */
  const CategoryOrder: seq<MaltCategory> := [Roasted, SpecialtyAcidic, Crystal, SpecialtyOther, Base]

  /** Position of a category in CategoryOrder; UNKNOWN comes after all of them. */
  function Rank(c: MaltCategory): nat
  {
    match c
    case Roasted => 0
    case SpecialtyAcidic => 1
    case Crystal => 2
    case SpecialtyOther => 3
    case Base => 4
    case Unknown => 5
  }

  /** Some keyword of `c` occurs in the (already lower-cased) name. */
  predicate Matches(lower: string, c: MaltCategory)
  {
    SomeIncluded(lower, Keywords(c))
  }

  /** The `for ... of orderedCategories` loop: the first category with a hit, else UNKNOWN. */
  function FirstMatch(lower: string, order: seq<MaltCategory>): MaltCategory
  {
    if order == [] then Unknown
    else if Matches(lower, order[0]) then order[0]
    else FirstMatch(lower, order[1..])
  }

  /** getMaltCategory; the empty name stands for null, undefined and "". */
  function GetMaltCategory(name: string): MaltCategory
  {
    if name == "" then Unknown else FirstMatch(ToLower(name), CategoryOrder)
  }

  // ---------------------------------------------------------------------------
  // Properties of the classifier

  /** A missing or empty name is UNKNOWN. */
  lemma EmptyNameIsUnknown()
    ensures GetMaltCategory("") == Unknown
  {
  }

  lemma LowerCharIdempotent(c: char)
    ensures LowerChar(LowerChar(c)) == LowerChar(c)
  {
  }

  /** Lower-casing twice is lower-casing once. */
  lemma ToLowerIdempotent(s: string)
    ensures ToLower(ToLower(s)) == ToLower(s)
  {
    forall i | 0 <= i < |s|
      ensures ToLower(ToLower(s))[i] == ToLower(s)[i]
    {
      LowerCharIdempotent(s[i]);
    }
  }

  /** The category depends on the name only through its lower-cased form. */
  lemma CategoryIgnoresCase(a: string, b: string)
    requires ToLower(a) == ToLower(b)
    ensures GetMaltCategory(a) == GetMaltCategory(b)
    ensures GetMaltCategory(a) == GetMaltCategory(ToLower(a))
  {
    assert |a| == |ToLower(a)| == |b|;
    ToLowerIdempotent(a);
  }

  /** The loop over CategoryOrder, written out as the cascade of tests it performs. */
  lemma FirstMatchCascade(lower: string)
    ensures FirstMatch(lower, CategoryOrder) ==
      if Matches(lower, Roasted) then Roasted
      else if Matches(lower, SpecialtyAcidic) then SpecialtyAcidic
      else if Matches(lower, Crystal) then Crystal
      else if Matches(lower, SpecialtyOther) then SpecialtyOther
      else if Matches(lower, Base) then Base
      else Unknown
  {
    var o0 := CategoryOrder;
    var o1 := [SpecialtyAcidic, Crystal, SpecialtyOther, Base];
    var o2 := [Crystal, SpecialtyOther, Base];
    var o3 := [SpecialtyOther, Base];
    var o4 := [Base];
    assert o0[1..] == o1 && o1[1..] == o2 && o2[1..] == o3 && o3[1..] == o4 && o4[1..] == [];
    assert FirstMatch(lower, o4) == if Matches(lower, Base) then Base else FirstMatch(lower, []);
    assert FirstMatch(lower, o3) == if Matches(lower, SpecialtyOther) then SpecialtyOther else FirstMatch(lower, o4);
    assert FirstMatch(lower, o2) == if Matches(lower, Crystal) then Crystal else FirstMatch(lower, o3);
    assert FirstMatch(lower, o1) == if Matches(lower, SpecialtyAcidic) then SpecialtyAcidic else FirstMatch(lower, o2);
    assert FirstMatch(lower, o0) == if Matches(lower, Roasted) then Roasted else FirstMatch(lower, o1);
  }

  /**
   * First-match semantics: a name is classified as K exactly when a keyword of K
   * occurs in it and no keyword of a category tried before K does.
   */
  lemma ClassifiedAsFirstMatchingCategory(name: string, c: MaltCategory)
    requires c != Unknown
    ensures GetMaltCategory(name) == c <==>
      name != "" && Matches(ToLower(name), c) &&
      forall d :: Rank(d) < Rank(c) ==> !Matches(ToLower(name), d)
  {
    var lower := ToLower(name);
    FirstMatchCascade(lower);
    var earlier := set d | Rank(d) < Rank(c);
    assert earlier == match c
      case Roasted => {}
      case SpecialtyAcidic => {Roasted}
      case Crystal => {Roasted, SpecialtyAcidic}
      case SpecialtyOther => {Roasted, SpecialtyAcidic, Crystal}
      case Base => {Roasted, SpecialtyAcidic, Crystal, SpecialtyOther};
  }

  /** UNKNOWN exactly when the name is empty or contains no keyword of any list. */
  lemma UnknownIffNoKeyword(name: string)
    ensures GetMaltCategory(name) == Unknown <==>
      name == "" || forall d :: !Matches(ToLower(name), d)
  {
    var lower := ToLower(name);
    FirstMatchCascade(lower);
    assert !Matches(lower, Unknown);
  }

  /** "Carafa III" is ROASTED although CRYSTAL's "cara" also occurs in it. */
  lemma CarafaIsRoasted()
    ensures Matches(ToLower("Carafa III"), Crystal)
    ensures GetMaltCategory("Carafa III") == Roasted
  {
    var lower := ToLower("Carafa III");
    assert lower == "carafa iii";
    KeywordHit(lower, Roasted, 4, 0);
    KeywordHit(lower, Crystal, 2, 0);
    FirstMatchCascade(lower);
  }

  /** A keyword with a character that the name lacks cannot occur in it. */
  lemma MissingCharExcludes(s: string, k: string, j: int)
    requires 0 <= j < |k| && k[j] !in s
    ensures !Includes(s, k)
  {
    forall i
      ensures !OccursAt(s, k, i)
    {
      if 0 <= i && i + |k| <= |s| {
        assert s[i..i + |k|][j] == s[i + j];
      }
    }
    IncludesIffOccurs(s, k);
  }

  /** A keyword of `c` found at position `i` of the name makes `c` match. */
  lemma KeywordHit(lower: string, c: MaltCategory, j: int, i: int)
    requires 0 <= j < |Keywords(c)| && OccursAt(lower, Keywords(c)[j], i)
    ensures Matches(lower, c)
  {
    IncludesIffOccurs(lower, Keywords(c)[j]);
    SomeIncludedIffSome(lower, Keywords(c));
  }

  /**
   * No keyword of `c` occurs in `lower` when each keyword has a character
   * (at the position given in `missing`) that `lower` lacks.
   */
  lemma NoKeywordOf(lower: string, c: MaltCategory, missing: seq<int>)
    requires |missing| == |Keywords(c)|
    requires forall j :: 0 <= j < |missing| ==>
      0 <= missing[j] < |Keywords(c)[j]| && Keywords(c)[j][missing[j]] !in lower
    ensures !Matches(lower, c)
  {
    forall j | 0 <= j < |missing|
      ensures !Includes(lower, Keywords(c)[j])
    {
      MissingCharExcludes(lower, Keywords(c)[j], missing[j]);
    }
    SomeIncludedIffSome(lower, Keywords(c));
  }

  /** "Acidulated Malt" is SPECIALTY_ACIDIC: no ROASTED keyword occurs in it and "acid" does. */
  lemma AcidulatedIsAcidic()
    ensures GetMaltCategory("Acidulated Malt") == SpecialtyAcidic
  {
    LowerCased("Acidulated Malt", "acidulated malt");
    AcidulatedLowerIsAcidic("acidulated malt");
  }

  lemma LowerCased(name: string, lower: string)
    requires |name| == |lower| && forall i :: 0 <= i < |name| ==> LowerChar(name[i]) == lower[i]
    ensures ToLower(name) == lower
  {
  }

  lemma AcidulatedLowerIsAcidic(lower: string)
    requires |lower| == 15 && lower[0] == 'a' && lower[1] == 'c' && lower[2] == 'i' && lower[3] == 'd' && lower[4] == 'u'
    requires lower[5] == 'l' && lower[6] == 'a' && lower[7] == 't' && lower[8] == 'e' && lower[9] == 'd' && lower[10] == ' '
    requires lower[11] == 'm' && lower[12] == 'a' && lower[13] == 'l' && lower[14] == 't'
    ensures FirstMatch(lower, CategoryOrder) == SpecialtyAcidic
  {
    AcidulatedNotRoasted(lower);
    AcidulatedMatchesAcidic(lower);
    FirstMatchCascade(lower);
  }

  lemma AcidulatedNotRoasted(lower: string)
    requires |lower| == 15 && lower[0] == 'a' && lower[1] == 'c' && lower[2] == 'i' && lower[3] == 'd' && lower[4] == 'u'
    requires lower[5] == 'l' && lower[6] == 'a' && lower[7] == 't' && lower[8] == 'e' && lower[9] == 'd' && lower[10] == ' '
    requires lower[11] == 'm' && lower[12] == 'a' && lower[13] == 'l' && lower[14] == 't'
    ensures !Matches(lower, Roasted)
  {
    NoKeywordOf(lower, Roasted, [1, 0, 1, 1, 2, 0, 3, 2, 3, 0, 2, 0]);
  }

  lemma AcidulatedMatchesAcidic(lower: string)
    requires |lower| == 15 && lower[0] == 'a' && lower[1] == 'c' && lower[2] == 'i' && lower[3] == 'd' && lower[4] == 'u'
    requires lower[5] == 'l' && lower[6] == 'a' && lower[7] == 't' && lower[8] == 'e' && lower[9] == 'd' && lower[10] == ' '
    requires lower[11] == 'm' && lower[12] == 'a' && lower[13] == 'l' && lower[14] == 't'
    ensures Matches(lower, SpecialtyAcidic)
  {
    assert lower[0..4] == Keywords(SpecialtyAcidic)[0];
    KeywordHit(lower, SpecialtyAcidic, 0, 0);
  }

  /** "Caramunich" is CRYSTAL ("cara") although BASE's "munich" occurs in it too. */
  lemma CaramunichIsCrystal()
    ensures Matches(ToLower("Caramunich"), Base)
    ensures GetMaltCategory("Caramunich") == Crystal
  {
    LowerCased("Caramunich", "caramunich");
    CaramunichLowerIsCrystal("caramunich");
  }

  lemma CaramunichLowerIsCrystal(lower: string)
    requires |lower| == 10 && lower[0] == 'c' && lower[1] == 'a' && lower[2] == 'r' && lower[3] == 'a' && lower[4] == 'm'
    requires lower[5] == 'u' && lower[6] == 'n' && lower[7] == 'i' && lower[8] == 'c' && lower[9] == 'h'
    ensures Matches(lower, Base)
    ensures FirstMatch(lower, CategoryOrder) == Crystal
  {
    CaramunichNotRoastedOrAcidic(lower);
    CaramunichMatchesCrystalAndBase(lower);
    FirstMatchCascade(lower);
  }

  lemma CaramunichMatchesCrystalAndBase(lower: string)
    requires |lower| == 10 && lower[0] == 'c' && lower[1] == 'a' && lower[2] == 'r' && lower[3] == 'a' && lower[4] == 'm'
    requires lower[5] == 'u' && lower[6] == 'n' && lower[7] == 'i' && lower[8] == 'c' && lower[9] == 'h'
    ensures Matches(lower, Crystal) && Matches(lower, Base)
  {
    assert lower[0..4] == Keywords(Crystal)[2];
    KeywordHit(lower, Crystal, 2, 0);
    assert lower[4..10] == Keywords(Base)[5];
    KeywordHit(lower, Base, 5, 4);
  }

  lemma CaramunichNotRoastedOrAcidic(lower: string)
    requires |lower| == 10 && lower[0] == 'c' && lower[1] == 'a' && lower[2] == 'r' && lower[3] == 'a' && lower[4] == 'm'
    requires lower[5] == 'u' && lower[6] == 'n' && lower[7] == 'i' && lower[8] == 'c' && lower[9] == 'h'
    ensures !Matches(lower, Roasted) && !Matches(lower, SpecialtyAcidic)
  {
    NoKeywordOf(lower, Roasted, [1, 0, 2, 2, 4, 0, 0, 0, 2, 0, 1, 0]);
    NoKeywordOf(lower, SpecialtyAcidic, [3, 3, 0]);
  }

  /** "Pilsner" is BASE: none of the four earlier lists has a keyword in it. */
  lemma PilsnerIsBase()
    ensures GetMaltCategory("Pilsner") == Base
  {
    LowerCased("Pilsner", "pilsner");
    PilsnerLowerIsBase("pilsner");
  }

  lemma PilsnerLowerIsBase(lower: string)
    requires |lower| == 7 && lower[0] == 'p' && lower[1] == 'i' && lower[2] == 'l' && lower[3] == 's' && lower[4] == 'n'
    requires lower[5] == 'e' && lower[6] == 'r'
    ensures FirstMatch(lower, CategoryOrder) == Base
  {
    PilsnerNotRoastedOrAcidic(lower);
    PilsnerNotCrystalOrOther(lower);
    PilsnerMatchesBase(lower);
    FirstMatchCascade(lower);
  }

  lemma PilsnerMatchesBase(lower: string)
    requires |lower| == 7 && lower[0] == 'p' && lower[1] == 'i' && lower[2] == 'l' && lower[3] == 's' && lower[4] == 'n'
    requires lower[5] == 'e' && lower[6] == 'r'
    ensures Matches(lower, Base)
  {
    assert lower[0..7] == Keywords(Base)[0];
    KeywordHit(lower, Base, 0, 0);
  }

  lemma PilsnerNotRoastedOrAcidic(lower: string)
    requires |lower| == 7 && lower[0] == 'p' && lower[1] == 'i' && lower[2] == 'l' && lower[3] == 's' && lower[4] == 'n'
    requires lower[5] == 'e' && lower[6] == 'r'
    ensures !Matches(lower, Roasted) && !Matches(lower, SpecialtyAcidic)
  {
    NoKeywordOf(lower, Roasted, [1, 0, 1, 1, 0, 5, 0, 0, 0, 2, 1, 1]);
    NoKeywordOf(lower, SpecialtyAcidic, [0, 0, 1]);
  }

  lemma PilsnerNotCrystalOrOther(lower: string)
    requires |lower| == 7 && lower[0] == 'p' && lower[1] == 'i' && lower[2] == 'l' && lower[3] == 's' && lower[4] == 'n'
    requires lower[5] == 'e' && lower[6] == 'r'
    ensures !Matches(lower, Crystal) && !Matches(lower, SpecialtyOther)
  {
    NoKeywordOf(lower, Crystal, [0, 0, 0, 0]);
    NoKeywordOf(lower, SpecialtyOther, [0, 0, 0, 0, 0, 0, 1, 1, 3, 3]);
  }
}

