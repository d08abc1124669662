/** A two-line prescription on which the dosage test of
    src/lib/medicine-parser.ts, as written with global patterns, loses a line:
    "Dolo 650mg" leaves `lastIndex` of the unit pattern at 10, so the test on
    "Xy 5u", five characters long, fails at once, and the line has no other
    indicator. */
module MedicineParserExample {
  import opened Common
  import opened MedicineParser

  const First: string := "Dolo 650mg"
  const Second: string := "Xy 5u"
  const Text: string := "Dolo 650mg\nXy 5u"

  // ---------------------------------------------------------------------------
  // Small facts about words that do not occur
  // ---------------------------------------------------------------------------

  lemma NotCiAt(s: string, i: nat, w: string, k: nat)
    requires k < |w| && (i + k < |s| ==> LowerChar(s[i + k]) != w[k])
    ensures !CiAt(s, i, w)
  {
    if i + k < |s| {
      assert LowerChar(s[i + k]) != w[k];
    }
  }

  /** No alternative is found where none of them occurs. */
  lemma NoWordAt(words: seq<string>, s: string, i: nat, bounded: bool)
    requires NonEmptyWords(words) && i <= |s|
    requires forall w :: w in words ==> !CiAt(s, i, w)
    ensures FirstWordAt(words, s, i, bounded).None?
  {
    forall k | 0 <= k < |words| ensures !CiAt(s, i, words[k]) {
      assert words[k] in words;
    }
    FirstWordAtSpec(words, s, i, bounded);
  }

  /** No word starts with the character at `i`. */
  lemma NoWordStartsAt(words: seq<string>, s: string, i: nat, bounded: bool)
    requires NonEmptyWords(words) && i < |s|
    requires forall w :: w in words ==> w[0] != LowerChar(s[i])
    ensures FirstWordAt(words, s, i, bounded).None?
  {
    forall w | w in words ensures !CiAt(s, i, w) {
      NotCiAt(s, i, w, 0);
    }
    NoWordAt(words, s, i, bounded);
  }

  /** No word fits at `i`, where the text reads `c0` `c1` in lower case: each
      is too long, or wrong in its first or second letter. */
  lemma NoWordFits(words: seq<string>, s: string, i: nat, bounded: bool, c0: char, c1: char)
    requires NonEmptyWords(words) && i + 1 < |s|
    requires LowerChar(s[i]) == c0 && LowerChar(s[i + 1]) == c1
    requires forall w :: w in words ==> i + |w| > |s| || (0 < |w| && w[0] != c0) || (1 < |w| && w[1] != c1)
    ensures FirstWordAt(words, s, i, bounded).None?
  {
    forall w | w in words ensures !CiAt(s, i, w) {
      if i + |w| > |s| {
      } else if 0 < |w| && w[0] != c0 {
        NotCiAt(s, i, w, 0);
      } else {
        NotCiAt(s, i, w, 1);
      }
    }
    NoWordAt(words, s, i, bounded);
  }

  lemma {:induction false} NoneContained(lowered: string, words: seq<string>)
    requires forall w :: w in words ==> w != [] && w[0] !in lowered
    ensures !ContainsAny(lowered, words)
  {
    if words != [] {
      assert words[0] in words;
      NotContainsMissingChar(lowered, words[0], words[0][0]);
      assert forall w :: w in words[1..] ==> w in words;
      NoneContained(lowered, words[1..]);
    }
  }

  // ---------------------------------------------------------------------------
  // The first line
  // ---------------------------------------------------------------------------

  lemma FirstTrimmed()
    ensures Trim(First) == First && |First| == 10 && !IsHeader(First)
  {
    TrimIdentity(First);
    FirstNotHeader();
  }

  lemma FirstNotHeader()
    ensures !IsHeader(First)
  {
    forall w | w in HeaderWords ensures !CiAt(First, 0, w) {
      if w == "date" || w == "dr." {
        NotCiAt(First, 0, w, 1);
      } else if w == "doctor" {
        NotCiAt(First, 0, w, 2);
      } else {
        NotCiAt(First, 0, w, 0);
      }
    }
    TablesNonEmpty();
    NoWordAt(HeaderWords, First, 0, false);
  }

  lemma FirstHasKeyword()
    ensures HasKeyword(Lower(First))
  {
    var l := Lower(First);
    assert l == "dolo 650mg";
    assert MedicineKeywords[1] == "dolo";
    assert StartsWith(l, "dolo");
    ContainsAnySpec(l, MedicineKeywords);
  }

  /** The unit dosage of the first line is "650mg", ending at index 10. */
  lemma FirstUnitAt()
    ensures MatchAt(DoseUnit, First, 5) == Some(10)
  {
    var s := First;
    assert Run(s, 5, IsDigit) == 8 by {
      assert Run(s, 8, IsDigit) == 8;
      assert Run(s, 7, IsDigit) == 8;
      assert Run(s, 6, IsDigit) == 8;
    }
    assert NumberEnd(s, 5) == 8;
    assert Run(s, 8, IsSpace) == 8;
    assert CiAt(s, 8, "mg");
    assert DoseUnitAt(s, 5) == Some(10);
  }

  lemma NoUnitBeforeDigit(s: string, j: nat)
    requires j <= |s| && !DigitAt(s, j)
    ensures MatchAt(DoseUnit, s, j).None?
  {
    assert DoseUnitAt(s, j).None?;
  }

  lemma FirstDosage()
    ensures FirstMatch(DoseUnit, First, 0) == Some((5, 10))
  {
    var s := First;
    FirstUnitAt();
    NoUnitBeforeDigit(s, 4);
    assert FirstMatch(DoseUnit, s, 4) == Some((5, 10));
    NoUnitBeforeDigit(s, 3);
    assert FirstMatch(DoseUnit, s, 3) == Some((5, 10));
    NoUnitBeforeDigit(s, 2);
    assert FirstMatch(DoseUnit, s, 2) == Some((5, 10));
    NoUnitBeforeDigit(s, 1);
    assert FirstMatch(DoseUnit, s, 1) == Some((5, 10));
    NoUnitBeforeDigit(s, 0);
  }

  const FirstRest: string := "Dolo "

  lemma FirstStrengthAt()
    ensures MatchAt(StrengthStrip, First, 5) == Some(10)
  {
    var s := First;
    TablesNonEmpty();
    assert Run(s, 5, IsDigit) == 8 by {
      assert Run(s, 8, IsDigit) == 8;
      assert Run(s, 7, IsDigit) == 8;
      assert Run(s, 6, IsDigit) == 8;
    }
    assert NumberEnd(s, 5) == 8;
    assert Run(s, 8, IsSpace) == 8;
    assert CiAt(s, 8, "mg");
    assert StrengthStripAt(s, 5) == Some(10);
  }

  lemma FirstStrengthBeforeDigit(j: nat)
    requires j < 5
    ensures MatchAt(StrengthStrip, First, j).None?
  {
    assert StrengthStripAt(First, j).None?;
  }

  /** Removing the strength "650mg" leaves "Dolo ". */
  lemma FirstStrengthStripped()
    ensures ReplaceAll(StrengthStrip, First, "") == FirstRest
  {
    var s := First;
    FirstStrengthAt();
    assert ReplaceFrom(StrengthStrip, s, 5, "") == [];
    FirstStrengthBeforeDigit(4);
    assert ReplaceFrom(StrengthStrip, s, 4, "") == " ";
    FirstStrengthBeforeDigit(3);
    assert ReplaceFrom(StrengthStrip, s, 3, "") == "o ";
    FirstStrengthBeforeDigit(2);
    assert ReplaceFrom(StrengthStrip, s, 2, "") == "lo ";
    FirstStrengthBeforeDigit(1);
    assert ReplaceFrom(StrengthStrip, s, 1, "") == "olo ";
    FirstStrengthBeforeDigit(0);
  }

  lemma FirstRestNoMatch(p: Pattern, j: nat)
    requires p in [FormStrip, AbbreviationStrip, DailyCountStrip, GridStrip, CountStrip, QtyStrip]
    requires j < |FirstRest|
    ensures MatchAt(p, FirstRest, j).None?
  {
    match p
    case FormStrip => FirstRestNoForm(j);
    case AbbreviationStrip => FirstRestNoAbbreviation(j);
    case DailyCountStrip => FirstRestNoDailyCount(j);
    case GridStrip => assert GridStripAt(FirstRest, j).None?;
    case CountStrip => assert CountStripAt(FirstRest, j).None?;
    case QtyStrip =>
      NotCiAt(FirstRest, j, "qty", 0);
      assert QtyStripAt(FirstRest, j).None?;
  }

  lemma FormNotAt0() ensures FormStripAt(FirstRest, 0).None? { TablesNonEmpty(); NoWordFits(MedicineForms, FirstRest, 0, false, 'd', 'o'); }
  lemma FormNotAt1() ensures FormStripAt(FirstRest, 1).None? { TablesNonEmpty(); NoWordFits(MedicineForms, FirstRest, 1, false, 'o', 'l'); }
  lemma FormNotAt2() ensures FormStripAt(FirstRest, 2).None? { TablesNonEmpty(); NoWordFits(MedicineForms, FirstRest, 2, false, 'l', 'o'); }
  lemma FormNotAt3() ensures FormStripAt(FirstRest, 3).None? { TablesNonEmpty(); NoWordFits(MedicineForms, FirstRest, 3, false, 'o', ' '); }
  lemma FormNotAt4() ensures FormStripAt(FirstRest, 4).None? { TablesNonEmpty(); NoWordStartsAt(MedicineForms, FirstRest, 4, false); }

  lemma FirstRestNoForm(j: nat)
    requires j < |FirstRest|
    ensures FormStripAt(FirstRest, j).None?
  {
    if j == 0 { FormNotAt0(); }
    else if j == 1 { FormNotAt1(); }
    else if j == 2 { FormNotAt2(); }
    else if j == 3 { FormNotAt3(); }
    else { FormNotAt4(); }
  }

  /** Only the word's edges are boundaries, and no abbreviation starts there. */
  lemma FirstRestNoAbbreviation(j: nat)
    requires j < |FirstRest|
    ensures AbbreviationStripAt(FirstRest, j).None?
  {
    TablesNonEmpty();
    if j == 0 || j == 4 {
      NoWordStartsAt(Abbreviations, FirstRest, j, true);
    } else {
      assert !IsBoundary(FirstRest, j);
    }
  }

  lemma FirstRestNoDailyCount(j: nat)
    requires j < |FirstRest|
    ensures DailyCountStripAt(FirstRest, j).None?
  {
    TablesNonEmpty();
    if j == 0 || j == 4 {
      NoWordStartsAt(DailyCounts, FirstRest, j, false);
    } else {
      assert !IsBoundary(FirstRest, j);
    }
  }

  lemma FirstRestUntouched(p: Pattern)
    requires p in [FormStrip, AbbreviationStrip, DailyCountStrip, GridStrip, CountStrip, QtyStrip]
    ensures ReplaceAll(p, FirstRest, "") == FirstRest
  {
    forall j | 0 <= j < |FirstRest| ensures MatchAt(p, FirstRest, j).None? {
      FirstRestNoMatch(p, j);
    }
    ReplaceNoMatch(p, FirstRest, 0, "");
  }

  lemma FirstStripped()
    ensures Stripped(First) == FirstRest
  {
    FirstStrengthStripped();
    FirstRestUntouched(FormStrip);
    FirstRestUntouched(AbbreviationStrip);
    FirstRestUntouched(DailyCountStrip);
    FirstRestUntouched(GridStrip);
    FirstRestUntouched(CountStrip);
    FirstRestUntouched(QtyStrip);
  }

  lemma FirstRestKept()
    ensures Blanked(FirstRest) == FirstRest && CollapseRuns(FirstRest, IsSpace, ' ') == FirstRest
  {
    assert Blanked(FirstRest) == FirstRest;
    CollapseRunsIdentity(FirstRest, IsSpace, ' ');
  }

  lemma FirstRestTrimmed()
    ensures Trim(FirstRest) == "Dolo"
  {
    assert TrimStart(FirstRest) == FirstRest;
    assert TrimEnd(FirstRest) == "Dolo";
  }

  lemma FirstRestSquished()
    ensures Squish(Blanked(FirstRest)) == "Dolo"
  {
    FirstRestKept();
    FirstRestTrimmed();
  }

  lemma DoloCapitalized()
    ensures Capitalize("Dolo") == "Dolo"
  {
    assert IndexOfChar("Dolo", ' ').None?;
    assert Split("Dolo", ' ') == ["Dolo"];
    assert Lower("olo") == "olo";
    assert CapitalizeWord("Dolo") == "Dolo";
  }

  /** The first line is named "Dolo". */
  lemma FirstName()
    ensures ExtractName(First) == Some("Dolo")
  {
    FirstStripped();
    FirstRestSquished();
    DoloCapitalized();
  }

  // ---------------------------------------------------------------------------
  // The second line
  // ---------------------------------------------------------------------------

  lemma SecondTrimmed()
    ensures Trim(Second) == Second && |Second| == 5 && !IsHeader(Second)
  {
    TrimIdentity(Second);
    TablesNonEmpty();
    NoWordStartsAt(HeaderWords, Second, 0, false);
  }

  /** The second line in lower case. */
  const SecondLowered: string := "xy 5u"

  lemma SecondLower()
    ensures Lower(Second) == SecondLowered
  {
  }

  lemma NoneInConcat(l: string, a: seq<string>, b: seq<string>)
    requires !ContainsAny(l, a) && !ContainsAny(l, b)
    ensures !ContainsAny(l, a + b)
  {
    ContainsAnyConcat(l, a, b);
  }

  // No keyword of a group starts with a character of the second line.
  lemma NoPain() ensures !ContainsAny(SecondLowered, PainKeywords) { NoneContained(SecondLowered, PainKeywords); }
  lemma NoAntibiotic() ensures !ContainsAny(SecondLowered, AntibioticKeywords) { NoneContained(SecondLowered, AntibioticKeywords); }
  lemma NoDiabetes() ensures !ContainsAny(SecondLowered, DiabetesKeywords) { NoneContained(SecondLowered, DiabetesKeywords); }
  lemma NoHeart() ensures !ContainsAny(SecondLowered, HeartKeywords) { NoneContained(SecondLowered, HeartKeywords); }
  lemma NoStomach() ensures !ContainsAny(SecondLowered, StomachKeywords) { NoneContained(SecondLowered, StomachKeywords); }
  lemma NoVitamin() ensures !ContainsAny(SecondLowered, VitaminKeywords) { NoneContained(SecondLowered, VitaminKeywords); }
  lemma NoOther() ensures !ContainsAny(SecondLowered, OtherKeywords) { NoneContained(SecondLowered, OtherKeywords); }

  lemma NoSecondKeyword()
    ensures !ContainsAny(SecondLowered, MedicineKeywords)
  {
    var l := SecondLowered;
    NoPain(); NoAntibiotic(); NoDiabetes(); NoHeart(); NoStomach(); NoVitamin(); NoOther();
    var g1 := PainKeywords + AntibioticKeywords;
    NoneInConcat(l, PainKeywords, AntibioticKeywords);
    var g2 := g1 + DiabetesKeywords;
    NoneInConcat(l, g1, DiabetesKeywords);
    var g3 := g2 + HeartKeywords;
    NoneInConcat(l, g2, HeartKeywords);
    var g4 := g3 + StomachKeywords;
    NoneInConcat(l, g3, StomachKeywords);
    var g5 := g4 + VitaminKeywords;
    NoneInConcat(l, g4, VitaminKeywords);
    NoneInConcat(l, g5, OtherKeywords);
  }

  lemma NoSecondForm()
    ensures !ContainsAny(SecondLowered, MedicineForms)
  {
    NoneContained(SecondLowered, MedicineForms);
  }

  lemma SecondIndicators()
    ensures !HasForm(Lower(Second)) && !HasKeyword(Lower(Second))
  {
    SecondLower();
    NoSecondForm();
    NoSecondKeyword();
  }

  /** A percentage needs a `%` sign. */
  lemma PercentNeedsSign(s: string)
    requires '%' !in s
    ensures FirstMatch(DosePercent, s, 0).None?
  {
    forall j | 0 <= j <= |s| ensures MatchAt(DosePercent, s, j).None? {
      if DigitAt(s, j) {
        var w := Run(s, Run(s, j, IsDigit), IsSpace);
        if w < |s| {
          assert s[w] in s;
        }
      }
      assert MatchAt(DosePercent, s, j) == DosePercentAt(s, j);
    }
  }

  /** The second line's unit dosage is "5u", starting at index 3. */
  lemma SecondUnitAt()
    ensures MatchAt(DoseUnit, Second, 3) == Some(5)
  {
    var s := Second;
    assert Run(s, 3, IsDigit) == 4;
    assert NumberEnd(s, 3) == 4;
    assert Run(s, 4, IsSpace) == 4;
    assert FirstWordAt(DoseUnits[5..], s, 4, false) == Some(5);
    NotCiAt(s, 4, "g", 0);
    assert FirstWordAt(DoseUnits, s, 4, false) == Some(5);
    assert DoseUnitAt(s, 3) == Some(5);
  }

  lemma SecondDosage()
    ensures FirstMatch(DoseUnit, Second, 0) == Some((3, 5))
    ensures FirstMatch(DosePercent, Second, 0).None?
  {
    var s := Second;
    SecondUnitAt();
    NoUnitBeforeDigit(s, 2);
    assert FirstMatch(DoseUnit, s, 2) == Some((3, 5));
    NoUnitBeforeDigit(s, 1);
    assert FirstMatch(DoseUnit, s, 1) == Some((3, 5));
    NoUnitBeforeDigit(s, 0);
    PercentNeedsSign(s);
  }

  const Rest: string := "Xy "

  lemma StrengthAtDigit()
    ensures MatchAt(StrengthStrip, Second, 3) == Some(5)
  {
    TablesNonEmpty();
    assert Run(Second, 3, IsDigit) == 4;
    assert StrengthStripAt(Second, 3) == Some(5);
  }

  lemma StrengthBeforeDigit(j: nat)
    requires j < 3
    ensures MatchAt(StrengthStrip, Second, j).None?
  {
    assert StrengthStripAt(Second, j).None?;
  }

  lemma StrengthStripped()
    ensures ReplaceAll(StrengthStrip, Second, "") == Rest
  {
    var s := Second;
    StrengthAtDigit();
    assert ReplaceFrom(StrengthStrip, s, 3, "") == [];
    StrengthBeforeDigit(2);
    assert ReplaceFrom(StrengthStrip, s, 2, "") == " ";
    StrengthBeforeDigit(1);
    assert ReplaceFrom(StrengthStrip, s, 1, "") == "y ";
    StrengthBeforeDigit(0);
  }

  /** None of the other removals finds anything in what is left. */
  lemma RestUntouched(p: Pattern)
    requires p in [FormStrip, AbbreviationStrip, DailyCountStrip, GridStrip, CountStrip, QtyStrip]
    ensures ReplaceAll(p, Rest, "") == Rest
  {
    var s := Rest;
    TablesNonEmpty();
    forall j | 0 <= j < |s| ensures MatchAt(p, s, j).None? {
      RestNoMatch(p, j);
    }
    ReplaceNoMatch(p, s, 0, "");
  }

  lemma RestNoMatch(p: Pattern, j: nat)
    requires p in [FormStrip, AbbreviationStrip, DailyCountStrip, GridStrip, CountStrip, QtyStrip]
    requires j < |Rest|
    ensures MatchAt(p, Rest, j).None?
  {
    match p
    case FormStrip => RestNoForm(j);
    case AbbreviationStrip => RestNoAbbreviation(j);
    case DailyCountStrip => RestNoDailyCount(j);
    case GridStrip => assert GridStripAt(Rest, j).None?;
    case CountStrip => assert CountStripAt(Rest, j).None?;
    case QtyStrip =>
      NotCiAt(Rest, j, "qty", 0);
      assert QtyStripAt(Rest, j).None?;
  }

  lemma RestNoForm(j: nat)
    requires j < |Rest|
    ensures FormStripAt(Rest, j).None?
  {
    TablesNonEmpty();
    NoWordStartsAt(MedicineForms, Rest, j, false);
  }

  lemma RestNoAbbreviation(j: nat)
    requires j < |Rest|
    ensures AbbreviationStripAt(Rest, j).None?
  {
    TablesNonEmpty();
    NoWordStartsAt(Abbreviations, Rest, j, true);
  }

  lemma RestNoDailyCount(j: nat)
    requires j < |Rest|
    ensures DailyCountStripAt(Rest, j).None?
  {
    TablesNonEmpty();
    NoWordStartsAt(DailyCounts, Rest, j, false);
  }

  lemma SecondStripped()
    ensures Stripped(Second) == Rest
  {
    StrengthStripped();
    RestUntouched(FormStrip);
    RestUntouched(AbbreviationStrip);
    RestUntouched(DailyCountStrip);
    RestUntouched(GridStrip);
    RestUntouched(CountStrip);
    RestUntouched(QtyStrip);
  }

  lemma RestSquished()
    ensures Squish(Blanked(Rest)) == "Xy"
  {
    assert Blanked(Rest) == Rest;
    assert CollapseRuns(" ", IsSpace, ' ') == " ";
    assert CollapseRuns(Rest, IsSpace, ' ') == Rest;
    assert TrimStart(Rest) == Rest;
    assert TrimEnd(Rest) == "Xy";
  }

  lemma XyCapitalized()
    ensures Capitalize("Xy") == "Xy"
  {
    assert IndexOfChar("Xy", ' ').None?;
    assert Split("Xy", ' ') == ["Xy"];
    assert CapitalizeWord("Xy") == "Xy";
  }

  lemma SecondName()
    ensures NameCore(Second) == "Xy"
    ensures ExtractName(Second) == Some("Xy")
  {
    SecondStripped();
    RestSquished();
    XyCapitalized();
  }

  // ---------------------------------------------------------------------------
  // The whole text
  // ---------------------------------------------------------------------------

  lemma NoNewlines()
    ensures '\n' !in First && '\n' !in Second
  {
  }

  lemma TextSplit()
    ensures Split(Text, '\n') == [First, Second]
  {
    assert Text == First + ['\n'] + Second;
    SplitConcat(First, Second, '\n');
    NoNewlines();
    SplitWithoutSeparator(First, '\n');
    SplitWithoutSeparator(Second, '\n');
  }

  lemma BothNonBlank()
    ensures NonBlank(First) && NonBlank(Second)
  {
    FirstTrimmed();
    SecondTrimmed();
  }

  lemma TextLines()
    ensures Lines(Text) == [First, Second]
  {
    TextSplit();
    BothNonBlank();
    FilterPairKept(First, Second, NonBlank);
  }

  /** On this text the intended rule finds two medicines and the written loop
      only the first: the second, "Xy" with dosage "5u", is lost. */
  lemma DosageLineLostExample()
    ensures ParseLine(Second).Some?
    ensures Parse(Text) == ParseAsWritten(Text) + [ParseLine(Second).value]
    ensures ParseLine(Second).value.name == "Xy"
    ensures ParseLine(Second).value.dosage == Some("5u")
    ensures |ParseAsWritten(Text)| == 1 && ParseAsWritten(Text)[0].name == "Dolo"
  {
    FirstName();
    TextLines();
    FirstTrimmed();
    FirstHasKeyword();
    FirstDosage();
    SecondTrimmed();
    SecondIndicators();
    SecondDosage();
    SecondName();
    LostAfterLongerDosage(First, Second);
    assert FirstPatternText(DosagePatterns, Second) == Some("5u");
  }
}
