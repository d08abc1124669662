/** The prescription text parser of src/lib/medicine-parser.ts: OCR text is
    cut into lines, header lines and lines without any medicine indicator are
    skipped, and each remaining line yields a medicine name with its dosage,
    form, quantity and frequency when present.

    The regular expressions are written out as matchers over character
    sequences. Every pattern used here has at most one way to match at a
    given start: its alternatives begin with different letters, and giving
    back characters of a greedy run of digits or blanks only puts a digit or
    a blank where a letter, a dot or `%` is needed. So each matcher computes
    the single match directly, and searching is "the leftmost start that
    matches". Case-insensitive matching is modelled for ASCII letters. */
module MedicineParser {
  import opened Common

  datatype ParsedMedicine = ParsedMedicine(
    name: string,
    dosage: Option<string>,
    form: Option<string>,
    quantity: Option<string>,
    frequency: Option<string>,
    rawText: string)

  // ---------------------------------------------------------------------------
  // Tables (lines 16-25 and 44-67), grouped as the source groups them
  // ---------------------------------------------------------------------------

  const TabletForms: seq<string> := ["tablet", "tablets", "tab", "tabs"]
  const CapsuleForms: seq<string> := ["capsule", "capsules", "cap", "caps"]
  const LiquidForms: seq<string> := ["syrup", "suspension", "liquid"]
  const InjectionForms: seq<string> := ["injection", "inj"]
  const TopicalForms: seq<string> := ["cream", "ointment", "gel", "lotion"]
  const DropForms: seq<string> := ["drops", "drop"]
  const InhaledForms: seq<string> := ["inhaler", "spray"]
  const PowderForms: seq<string> := ["powder", "sachet"]

  /** MEDICINE_FORMS, in list order. */
  const MedicineForms: seq<string> :=
    TabletForms + CapsuleForms + LiquidForms + InjectionForms + TopicalForms
    + DropForms + InhaledForms + PowderForms

  const PainKeywords: seq<string> :=
    ["paracetamol", "dolo", "crocin", "calpol", "metacin",
     "ibuprofen", "brufen", "combiflam", "disprin", "aspirin"]
  const AntibioticKeywords: seq<string> :=
    ["amoxicillin", "moxclav", "augmentin", "azithromycin", "azee", "zithromax",
     "ciprofloxacin", "ciplox", "ofloxacin", "cefixime", "taxim",
     "metronidazole", "flagyl", "levofloxacin"]
  const DiabetesKeywords: seq<string> :=
    ["metformin", "glycomet", "glucophage", "glimepiride", "amaryl",
     "sitagliptin", "januvia", "vildagliptin", "galvus", "insulin"]
  const HeartKeywords: seq<string> :=
    ["amlodipine", "amlong", "stamlo", "atenolol", "metoprolol",
     "telmisartan", "telma", "losartan", "enalapril", "ramipril"]
  const StomachKeywords: seq<string> :=
    ["pantoprazole", "pan", "pantocid", "omeprazole", "ranitidine",
     "domperidone", "domstal", "ondansetron", "emeset"]
  const VitaminKeywords: seq<string> :=
    ["vitamin", "multivitamin", "b12", "b-complex", "folic acid",
     "calcium", "iron", "zinc", "vitamin d", "vitamin c"]
  const OtherKeywords: seq<string> :=
    ["cetirizine", "allegra", "montair", "montelukast", "levocetrizine",
     "salbutamol", "deriphyllin", "theophylline"]

  /** MEDICINE_KEYWORDS, in list order. */
  const MedicineKeywords: seq<string> :=
    PainKeywords + AntibioticKeywords + DiabetesKeywords + HeartKeywords
    + StomachKeywords + VitaminKeywords + OtherKeywords

  /** The alternatives of the header test on line 82. */
  const HeaderWords: seq<string> :=
    ["rx", "prescription", "date", "patient", "dr.", "doctor", "address", "phone", "mobile"]

  const DoseUnits: seq<string> := ["mg", "mcg", "g", "ml", "iu", "u"]
  /** The units of the strength removed from the name, which adds `%`. */
  const StrengthUnits: seq<string> := ["mg", "mcg", "g", "ml", "iu", "u", "%"]
  const Abbreviations: seq<string> := ["od", "bd", "tds", "qid", "hs", "sos", "prn", "stat"]
  const DailyCounts: seq<string> := ["once", "twice", "thrice"]
  const DailyWords: seq<string> := ["daily", "a day"]
  const TimesOfDay: seq<string> := ["morning", "evening", "night", "bedtime"]
  const MealRelations: seq<string> := ["before", "after"]
  const Meals: seq<string> := ["food", "meal", "breakfast", "lunch", "dinner"]

  predicate NonEmptyWords(words: seq<string>) { forall k :: 0 <= k < |words| ==> words[k] != [] }

  lemma TablesNonEmpty()
    ensures NonEmptyWords(MedicineForms) && NonEmptyWords(HeaderWords)
    ensures NonEmptyWords(DoseUnits) && NonEmptyWords(StrengthUnits) && NonEmptyWords(Abbreviations)
    ensures NonEmptyWords(DailyCounts) && NonEmptyWords(DailyWords) && NonEmptyWords(TimesOfDay)
    ensures NonEmptyWords(MealRelations) && NonEmptyWords(Meals)
  {
    assert NonEmptyWords(TabletForms) && NonEmptyWords(CapsuleForms) && NonEmptyWords(LiquidForms);
    assert NonEmptyWords(InjectionForms) && NonEmptyWords(TopicalForms) && NonEmptyWords(DropForms);
    assert NonEmptyWords(InhaledForms) && NonEmptyWords(PowderForms);
  }

  // ---------------------------------------------------------------------------
  // Matching vocabulary
  // ---------------------------------------------------------------------------

  /** `\b` at position `k`: exactly one of the neighbours is a word character. */
  predicate IsBoundary(s: string, k: int)
    requires 0 <= k <= |s|
  {
    (k > 0 && IsWordChar(s[k - 1])) != (k < |s| && IsWordChar(s[k]))
  }

  /** The lower-case word `w` occurs at `i`, ignoring the case of ASCII letters. */
  predicate CiAt(s: string, i: int, w: string) {
    0 <= i && i + |w| <= |s| && forall k :: 0 <= k < |w| ==> LowerChar(s[i + k]) == w[k]
  }

  predicate IsColonOrSpace(c: char) { c == ':' || IsSpace(c) }

  predicate DigitAt(s: string, i: int) { 0 <= i < |s| && IsDigit(s[i]) }

  /** The letter `x` in either case. */
  predicate XAt(s: string, i: int) { 0 <= i < |s| && LowerChar(s[i]) == 'x' }

  /** The end of the longest run of characters of a class starting at `i`. */
  function Run(s: string, i: nat, inClass: char -> bool): (r: nat)
    requires i <= |s|
    ensures i <= r <= |s|
    ensures r < |s| ==> !inClass(s[r])
    decreases |s| - i
  {
    if i < |s| && inClass(s[i]) then Run(s, i + 1, inClass) else i
  }

  lemma {:induction false} RunInClass(s: string, i: nat, inClass: char -> bool)
    requires i <= |s|
    ensures forall k :: i <= k < Run(s, i, inClass) ==> inClass(s[k])
    decreases |s| - i
  {
    if i < |s| && inClass(s[i]) {
      RunInClass(s, i + 1, inClass);
    }
  }

  /** The end of the first alternative of `words`, tried in order, that occurs
      at `i` (followed by `\b` when `bounded`). */
  function FirstWordAt(words: seq<string>, s: string, i: nat, bounded: bool): (r: Option<nat>)
    requires NonEmptyWords(words) && i <= |s|
    ensures r.Some? ==> i < r.value <= |s|
  {
    if words == [] then None
    else if CiAt(s, i, words[0]) && (!bounded || IsBoundary(s, i + |words[0]|)) then Some(i + |words[0]|)
    else FirstWordAt(words[1..], s, i, bounded)
  }

  /** The alternative found is one of the words, and none is found only when
      no word occurs there (with its boundary). */
  lemma {:induction false} FirstWordAtSpec(words: seq<string>, s: string, i: nat, bounded: bool)
    requires NonEmptyWords(words) && i <= |s|
    ensures var r := FirstWordAt(words, s, i, bounded);
      && (r.Some? ==> exists k :: 0 <= k < |words| && CiAt(s, i, words[k]) && r.value == i + |words[k]|)
      && (r.None? ==> forall k :: 0 <= k < |words| ==> !CiAt(s, i, words[k]) || (bounded && !IsBoundary(s, i + |words[k]|)))
  {
    if words != [] && !(CiAt(s, i, words[0]) && (!bounded || IsBoundary(s, i + |words[0]|))) {
      FirstWordAtSpec(words[1..], s, i, bounded);
      assert forall k :: 1 <= k < |words| ==> words[k] == words[1..][k - 1];
    }
  }

  // ---------------------------------------------------------------------------
  // The patterns
  // ---------------------------------------------------------------------------

  datatype Pattern =
    | DoseUnit           // /(\d+\.?\d*)\s*(mg|mcg|g|ml|iu|u)/gi
    | DosePercent        // /(\d+)\s*%/gi
    | Grid               // /(\d+)\s*x\s*(\d+)/gi
    | DailyCount         // /(once|twice|thrice)\s*(daily|a day)/gi
    | Abbreviation       // /(od|bd|tds|qid|hs|sos|prn|stat)/gi
    | TimesPerDay        // /(\d+)\s*times?\s*(a|per)?\s*day/gi
    | TimeOfDay          // /(morning|evening|night|bedtime)/gi
    | MealTime           // /(before|after)\s*(food|meal|breakfast|lunch|dinner)/gi
    | StrengthStrip      // /\d+\.?\d*\s*(mg|mcg|g|ml|iu|u|%)/gi
    | FormStrip          // new RegExp(MEDICINE_FORMS.join('|'), 'gi')
    | AbbreviationStrip  // /\b(od|bd|tds|qid|hs|sos|prn|stat)\b/gi
    | DailyCountStrip    // /\b(once|twice|thrice)\s*(daily|a day)\b/gi
    | GridStrip          // /\b\d+\s*x\s*\d+\b/gi
    | CountStrip         // /x\d+/gi
    | QtyStrip           // /qty[:\s]*\d+/gi

  /** DOSAGE_PATTERNS and FREQUENCY_PATTERNS, in list order. */
  const DosagePatterns: seq<Pattern> := [DoseUnit, DosePercent]
  const FrequencyPatterns: seq<Pattern> := [Grid, DailyCount, Abbreviation, TimesPerDay, TimeOfDay, MealTime]

  /** The end of `\d+\.?\d*` from a digit. */
  function NumberEnd(s: string, i: nat): (r: nat)
    requires DigitAt(s, i)
    ensures i < r <= |s|
  {
    var p := Run(s, i, IsDigit);
    if p < |s| && s[p] == '.' then Run(s, p + 1, IsDigit) else p
  }

  /** `\d+\s*x\s*\d+` */
  function GridEnd(s: string, i: nat): (r: Option<nat>)
    requires i <= |s|
    ensures r.Some? ==> i < r.value <= |s|
  {
    if !DigitAt(s, i) then None
    else
      var w := Run(s, Run(s, i, IsDigit), IsSpace);
      if !XAt(s, w) then None
      else
        var v := Run(s, w + 1, IsSpace);
        if DigitAt(s, v) then Some(Run(s, v, IsDigit)) else None
  }

  /** `(once|twice|thrice)\s*(daily|a day)`, with `\b` after when `bounded`. */
  function DailyEnd(s: string, i: nat, bounded: bool): (r: Option<nat>)
    requires i <= |s|
    ensures r.Some? ==> i < r.value <= |s|
  {
    TablesNonEmpty();
    match FirstWordAt(DailyCounts, s, i, false)
    case None => None
    case Some(a) => FirstWordAt(DailyWords, s, Run(s, a, IsSpace), bounded)
  }

  /** `\d+\s*times?\s*(a|per)?\s*day` */
  function TimesPerDayEnd(s: string, i: nat): (r: Option<nat>)
    requires i <= |s|
    ensures r.Some? ==> i < r.value <= |s|
  {
    if !DigitAt(s, i) then None
    else
      var w := Run(s, Run(s, i, IsDigit), IsSpace);
      if !CiAt(s, w, "time") then None
      else
        var t := if w + 4 < |s| && LowerChar(s[w + 4]) == 's' then w + 5 else w + 4;
        var u := Run(s, t, IsSpace);
        if CiAt(s, u, "a") then
          var v := Run(s, u + 1, IsSpace);
          if CiAt(s, v, "day") then Some(v + 3) else None
        else if CiAt(s, u, "per") then
          var v := Run(s, u + 3, IsSpace);
          if CiAt(s, v, "day") then Some(v + 3) else None
        else if CiAt(s, u, "day") then Some(u + 3)
        else None
  }

  // One matcher per pattern: the end of the match starting at `i`, if any.
  // Outside the string nothing matches.

  function DoseUnitAt(s: string, i: nat): (r: Option<nat>)
    ensures r.Some? ==> i < r.value <= |s|
  {
    TablesNonEmpty();
    if DigitAt(s, i) then FirstWordAt(DoseUnits, s, Run(s, NumberEnd(s, i), IsSpace), false) else None
  }

  function StrengthStripAt(s: string, i: nat): (r: Option<nat>)
    ensures r.Some? ==> i < r.value <= |s|
  {
    TablesNonEmpty();
    if DigitAt(s, i) then FirstWordAt(StrengthUnits, s, Run(s, NumberEnd(s, i), IsSpace), false) else None
  }

  function DosePercentAt(s: string, i: nat): (r: Option<nat>)
    ensures r.Some? ==> i < r.value <= |s|
  {
    if !DigitAt(s, i) then None
    else
      var w := Run(s, Run(s, i, IsDigit), IsSpace);
      if w < |s| && s[w] == '%' then Some(w + 1) else None
  }

  function GridAt(s: string, i: nat): (r: Option<nat>)
    ensures r.Some? ==> i < r.value <= |s|
  {
    if i <= |s| then GridEnd(s, i) else None
  }

  function GridStripAt(s: string, i: nat): (r: Option<nat>)
    ensures r.Some? ==> i < r.value <= |s|
  {
    if i > |s| || !IsBoundary(s, i) then None
    else match GridEnd(s, i) case None => None case Some(e) => if IsBoundary(s, e) then Some(e) else None
  }

  function DailyCountAt(s: string, i: nat): (r: Option<nat>)
    ensures r.Some? ==> i < r.value <= |s|
  {
    if i <= |s| then DailyEnd(s, i, false) else None
  }

  function DailyCountStripAt(s: string, i: nat): (r: Option<nat>)
    ensures r.Some? ==> i < r.value <= |s|
  {
    if i <= |s| && IsBoundary(s, i) then DailyEnd(s, i, true) else None
  }

  function AbbreviationAt(s: string, i: nat): (r: Option<nat>)
    ensures r.Some? ==> i < r.value <= |s|
  {
    TablesNonEmpty();
    if i <= |s| then FirstWordAt(Abbreviations, s, i, false) else None
  }

  function AbbreviationStripAt(s: string, i: nat): (r: Option<nat>)
    ensures r.Some? ==> i < r.value <= |s|
  {
    TablesNonEmpty();
    if i <= |s| && IsBoundary(s, i) then FirstWordAt(Abbreviations, s, i, true) else None
  }

  function TimesPerDayAt(s: string, i: nat): (r: Option<nat>)
    ensures r.Some? ==> i < r.value <= |s|
  {
    if i <= |s| then TimesPerDayEnd(s, i) else None
  }

  function TimeOfDayAt(s: string, i: nat): (r: Option<nat>)
    ensures r.Some? ==> i < r.value <= |s|
  {
    TablesNonEmpty();
    if i <= |s| then FirstWordAt(TimesOfDay, s, i, false) else None
  }

  function MealTimeAt(s: string, i: nat): (r: Option<nat>)
    ensures r.Some? ==> i < r.value <= |s|
  {
    TablesNonEmpty();
    if i > |s| then None
    else match FirstWordAt(MealRelations, s, i, false)
      case None => None
      case Some(a) => FirstWordAt(Meals, s, Run(s, a, IsSpace), false)
  }

  function FormStripAt(s: string, i: nat): (r: Option<nat>)
    ensures r.Some? ==> i < r.value <= |s|
  {
    TablesNonEmpty();
    if i <= |s| then FirstWordAt(MedicineForms, s, i, false) else None
  }

  function CountStripAt(s: string, i: nat): (r: Option<nat>)
    ensures r.Some? ==> i < r.value <= |s|
  {
    if XAt(s, i) && DigitAt(s, i + 1) then Some(Run(s, i + 1, IsDigit)) else None
  }

  function QtyStripAt(s: string, i: nat): (r: Option<nat>)
    ensures r.Some? ==> i < r.value <= |s|
  {
    if !CiAt(s, i, "qty") then None
    else
      var w := Run(s, i + 3, IsColonOrSpace);
      if DigitAt(s, w) then Some(Run(s, w, IsDigit)) else None
  }

  function Matcher(p: Pattern): (string, nat) -> Option<nat> {
    match p
    case DoseUnit => DoseUnitAt
    case DosePercent => DosePercentAt
    case Grid => GridAt
    case DailyCount => DailyCountAt
    case Abbreviation => AbbreviationAt
    case TimesPerDay => TimesPerDayAt
    case TimeOfDay => TimeOfDayAt
    case MealTime => MealTimeAt
    case StrengthStrip => StrengthStripAt
    case FormStrip => FormStripAt
    case AbbreviationStrip => AbbreviationStripAt
    case DailyCountStrip => DailyCountStripAt
    case GridStrip => GridStripAt
    case CountStrip => CountStripAt
    case QtyStrip => QtyStripAt
  }

  /** The end of the match of `p` starting at `i`, if any. */
  function MatchAt(p: Pattern, s: string, i: nat): (r: Option<nat>)
    requires i <= |s|
    ensures r.Some? ==> i < r.value <= |s|
  {
    MatcherAdvances(p, s, i);
    Matcher(p)(s, i)
  }

  /** A match is never empty and never runs past the end. */
  lemma MatcherAdvances(p: Pattern, s: string, i: nat)
    ensures Matcher(p)(s, i).Some? ==> i < Matcher(p)(s, i).value <= |s|
  {
    match p
    case DoseUnit => assert Matcher(p)(s, i) == DoseUnitAt(s, i);
    case DosePercent => assert Matcher(p)(s, i) == DosePercentAt(s, i);
    case Grid => assert Matcher(p)(s, i) == GridAt(s, i);
    case DailyCount => assert Matcher(p)(s, i) == DailyCountAt(s, i);
    case Abbreviation => assert Matcher(p)(s, i) == AbbreviationAt(s, i);
    case TimesPerDay => assert Matcher(p)(s, i) == TimesPerDayAt(s, i);
    case TimeOfDay => assert Matcher(p)(s, i) == TimeOfDayAt(s, i);
    case MealTime => assert Matcher(p)(s, i) == MealTimeAt(s, i);
    case StrengthStrip => assert Matcher(p)(s, i) == StrengthStripAt(s, i);
    case FormStrip => assert Matcher(p)(s, i) == FormStripAt(s, i);
    case AbbreviationStrip => assert Matcher(p)(s, i) == AbbreviationStripAt(s, i);
    case DailyCountStrip => assert Matcher(p)(s, i) == DailyCountStripAt(s, i);
    case GridStrip => assert Matcher(p)(s, i) == GridStripAt(s, i);
    case CountStrip => assert Matcher(p)(s, i) == CountStripAt(s, i);
    case QtyStrip => assert Matcher(p)(s, i) == QtyStripAt(s, i);
  }

  /** `exec` from index `from`: the leftmost match starting at or after it. */
  function FirstMatch(p: Pattern, s: string, from: nat): (r: Option<(nat, nat)>)
    requires from <= |s|
    ensures r.Some? ==> from <= r.value.0 && r.value.0 < r.value.1 <= |s|
    ensures r.Some? ==> MatchAt(p, s, r.value.0) == Some(r.value.1)
    decreases |s| - from
  {
    match MatchAt(p, s, from)
    case Some(e) => Some((from, e))
    case None => if from == |s| then None else FirstMatch(p, s, from + 1)
  }

  /** The match found is the leftmost one, and none is found only when the
      pattern matches nowhere from `from` on. */
  lemma FirstMatchLeftmost(p: Pattern, s: string, from: nat)
    requires from <= |s|
    ensures var r := FirstMatch(p, s, from);
      && (r.Some? ==> forall j :: from <= j < r.value.0 ==> MatchAt(p, s, j).None?)
      && (r.None? ==> forall j :: from <= j <= |s| ==> MatchAt(p, s, j).None?)
  {
    var m := MatchesOf(p, s);
    FirstMatchIsFirstHit(p, s, from);
    if FirstMatch(p, s, from).Some? {
      FirstHitSkipsNothing(m, from, |s|);
      forall j | from <= j < FirstMatch(p, s, from).value.0 ensures MatchAt(p, s, j).None? {
        assert m(j) == MatchAt(p, s, j);
      }
    } else {
      FirstHitNoneNowhere(m, from, |s|);
      forall j | from <= j <= |s| ensures MatchAt(p, s, j).None? {
        assert m(j) == MatchAt(p, s, j);
      }
    }
  }

  /** Where the pattern matches in `s`, position by position. */
  function MatchesOf(p: Pattern, s: string): nat -> Option<nat> {
    (j: nat) => if j <= |s| then MatchAt(p, s, j) else None
  }

  /** `FirstMatch` is the left-to-right scan of those positions. */
  lemma {:induction false} FirstMatchIsFirstHit(p: Pattern, s: string, from: nat)
    requires from <= |s|
    ensures FirstMatch(p, s, from) == FirstHit(MatchesOf(p, s), from, |s|)
    decreases |s| - from
  {
    assert MatchesOf(p, s)(from) == MatchAt(p, s, from);
    if MatchAt(p, s, from).None? && from < |s| {
      FirstMatchIsFirstHit(p, s, from + 1);
    }
  }

  /** `s.replace(p, rep)` for a global pattern, from index `i` on. */
  function ReplaceFrom(p: Pattern, s: string, i: nat, rep: string): string
    requires i <= |s|
    decreases |s| - i
  {
    if i == |s| then []
    else match MatchAt(p, s, i)
      case Some(e) => rep + ReplaceFrom(p, s, e, rep)
      case None => [s[i]] + ReplaceFrom(p, s, i + 1, rep)
  }

  function ReplaceAll(p: Pattern, s: string, rep: string): string {
    ReplaceFrom(p, s, 0, rep)
  }

  /** Where nothing matches, replacing changes nothing. */
  lemma {:induction false} ReplaceNoMatch(p: Pattern, s: string, i: nat, rep: string)
    requires i <= |s|
    requires forall j :: i <= j < |s| ==> MatchAt(p, s, j).None?
    ensures ReplaceFrom(p, s, i, rep) == s[i..]
    decreases |s| - i
  {
    if i < |s| {
      ReplaceNoMatch(p, s, i + 1, rep);
    }
  }

  // ---------------------------------------------------------------------------
  // Quantity: line.match(/(?:x|qty[:\s]*|quantity[:\s]*)(\d+)/i)
  // ---------------------------------------------------------------------------

  /** The prefix of the quantity pattern ends at `a`, just before the digits. */
  predicate QuantityPrefix(s: string, i: nat, a: nat)
    requires i <= a <= |s|
  {
    || (XAt(s, i) && a == i + 1)
    || (CiAt(s, i, "qty") && i + 3 <= a && forall k :: i + 3 <= k < a ==> IsColonOrSpace(s[k]))
    || (CiAt(s, i, "quantity") && i + 8 <= a && forall k :: i + 8 <= k < a ==> IsColonOrSpace(s[k]))
  }

  /** `m` is a whole run of digits. */
  predicate DigitRun(s: string, a: nat, b: nat)
    requires a <= b <= |s|
  {
    a < b && (forall k :: a <= k < b ==> IsDigit(s[k])) && (b < |s| ==> !IsDigit(s[b]))
  }

  /** The digits captured when the quantity pattern matches at `i`. */
  function QuantityAt(s: string, i: nat): (r: Option<(nat, nat)>)
    requires i <= |s|
    ensures r.Some? ==> i < r.value.0 < r.value.1 <= |s|
  {
    if XAt(s, i) then
      (if DigitAt(s, i + 1) then Some((i + 1, Run(s, i + 1, IsDigit))) else None)
    else if CiAt(s, i, "qty") then
      var w := Run(s, i + 3, IsColonOrSpace);
      if DigitAt(s, w) then Some((w, Run(s, w, IsDigit))) else None
    else if CiAt(s, i, "quantity") then
      var w := Run(s, i + 8, IsColonOrSpace);
      if DigitAt(s, w) then Some((w, Run(s, w, IsDigit))) else None
    else None
  }

  /** A match captures a whole run of digits after the prefix. */
  lemma QuantityAtShape(s: string, i: nat)
    requires i <= |s| && QuantityAt(s, i).Some?
    ensures QuantityPrefix(s, i, QuantityAt(s, i).value.0)
    ensures DigitRun(s, QuantityAt(s, i).value.0, QuantityAt(s, i).value.1)
  {
    var w := if XAt(s, i) then i + 1 else if CiAt(s, i, "qty") then i + 3 else i + 8;
    if !XAt(s, i) {
      RunInClass(s, w, IsColonOrSpace);
    }
    RunInClass(s, QuantityAt(s, i).value.0, IsDigit);
  }

  function FirstQuantity(s: string, from: nat): (r: Option<(nat, nat)>)
    requires from <= |s|
    ensures r.Some? ==> from < r.value.0 < r.value.1 <= |s|
    ensures r.Some? ==> exists i :: from <= i < r.value.0 && QuantityAt(s, i) == Some(r.value)
    decreases |s| - from
  {
    match QuantityAt(s, from)
    case Some(m) => Some(m)
    case None => if from == |s| then None else FirstQuantity(s, from + 1)
  }

  function QuantityOf(line: string): (r: Option<string>) {
    match FirstQuantity(line, 0)
    case None => None
    case Some(m) => Some(line[m.0..m.1])
  }

  /** A quantity is a whole run of digits that directly follows `x`, or `qty`
      or `quantity` and optional colons and blanks. */
  lemma QuantityShape(line: string)
    requires QuantityOf(line).Some?
    ensures exists i, a, b :: (0 <= i < a < b <= |line| && QuantityOf(line).value == line[a..b]
      && QuantityPrefix(line, i, a) && DigitRun(line, a, b))
  {
    var m := FirstQuantity(line, 0).value;
    var i :| 0 <= i < m.0 && QuantityAt(line, i) == Some(m);
    QuantityAtShape(line, i);
  }

  // ---------------------------------------------------------------------------
  // First-match rules for dosage, form and frequency
  // ---------------------------------------------------------------------------

  /** The text of the leftmost match of one pattern, if any. */
  function MatchText(p: Pattern, s: string): (r: Option<string>)
    ensures r.Some? <==> FirstMatch(p, s, 0).Some?
  {
    match FirstMatch(p, s, 0)
    case Some(m) => Some(s[m.0..m.1])
    case None => None
  }

  /** The text matched by the first pattern of the list that matches at all. */
  function FirstPatternText(patterns: seq<Pattern>, s: string): Option<string> {
    FirstSome(patterns, (p: Pattern) => MatchText(p, s))
  }

  /** The patterns are tried in list order: the text is the leftmost match of
      the first pattern that matches, and there is none only when no pattern
      matches. */
  lemma FirstPatternTextSpec(patterns: seq<Pattern>, s: string)
    ensures FirstPatternText(patterns, s).None? <==> forall k :: 0 <= k < |patterns| ==> FirstMatch(patterns[k], s, 0).None?
    ensures FirstPatternText(patterns, s).Some? ==> exists k :: (0 <= k < |patterns| && FirstMatch(patterns[k], s, 0).Some?
      && (forall j :: 0 <= j < k ==> FirstMatch(patterns[j], s, 0).None?)
      && FirstPatternText(patterns, s).value == s[FirstMatch(patterns[k], s, 0).value.0..FirstMatch(patterns[k], s, 0).value.1])
  {
    var f := (p: Pattern) => MatchText(p, s);
    if FirstPatternText(patterns, s).Some? {
      var k := FirstSomeIndex(patterns, f);
      assert f(patterns[k]) == MatchText(patterns[k], s);
      forall j | 0 <= j < k ensures FirstMatch(patterns[j], s, 0).None? {
        assert f(patterns[j]).None?;
      }
    } else {
      FirstSomeNone(patterns, f);
      forall k | 0 <= k < |patterns| ensures FirstMatch(patterns[k], s, 0).None? {
        assert f(patterns[k]).None?;
      }
    }
  }

  /** The first form of the list that occurs in the lower-cased line. */
  function FirstForm(forms: seq<string>, lowered: string): Option<string> {
    FirstSome(forms, (w: string) => if Contains(lowered, w) then Some(w) else None)
  }

  /** The form is the first one of the list that the line contains, and there
      is none only when it contains none of them. */
  lemma FirstFormSpec(forms: seq<string>, lowered: string)
    ensures FirstForm(forms, lowered).None? <==> forall k :: 0 <= k < |forms| ==> !Contains(lowered, forms[k])
    ensures FirstForm(forms, lowered).Some? ==> exists k :: (0 <= k < |forms| && forms[k] == FirstForm(forms, lowered).value
      && Contains(lowered, forms[k]) && forall j :: 0 <= j < k ==> !Contains(lowered, forms[j]))
  {
    var f := (w: string) => if Contains(lowered, w) then Some(w) else None;
    if FirstForm(forms, lowered).Some? {
      var k := FirstSomeIndex(forms, f);
      assert f(forms[k]) == FirstForm(forms, lowered);
      forall j | 0 <= j < k ensures !Contains(lowered, forms[j]) {
        assert f(forms[j]).None?;
      }
    } else {
      FirstSomeNone(forms, f);
      forall k | 0 <= k < |forms| ensures !Contains(lowered, forms[k]) {
        assert f(forms[k]).None?;
      }
    }
  }

  /** `'tablet'` comes before `'tab'` in the list, so it wins. */
  lemma TabletBeatsTab(lowered: string)
    requires Contains(lowered, "tablet")
    ensures FirstForm(MedicineForms, lowered) == Some("tablet")
  {
    assert MedicineForms[0] == "tablet";
  }

  // ---------------------------------------------------------------------------
  // The name
  // ---------------------------------------------------------------------------

  /** `replace(/[^\w\s-]/g, ' ')` */
  function Blank(c: char): char {
    if !IsWordChar(c) && !IsSpace(c) && c != '-' then ' ' else c
  }

  /** The removals of lines 148-154. */
  function Stripped(line: string): string {
    var n1 := ReplaceAll(StrengthStrip, line, "");
    var n2 := ReplaceAll(FormStrip, n1, "");
    var n3 := ReplaceAll(AbbreviationStrip, n2, "");
    var n4 := ReplaceAll(DailyCountStrip, n3, "");
    var n5 := ReplaceAll(GridStrip, n4, "");
    var n6 := ReplaceAll(CountStrip, n5, "");
    ReplaceAll(QtyStrip, n6, "")
  }

  function Blanked(s: string): (r: string)
    ensures |r| == |s| && forall k :: 0 <= k < |s| ==> r[k] == Blank(s[k])
  {
    seq(|s|, k requires 0 <= k < |s| => Blank(s[k]))
  }

  /** The replace chain of lines 147-157, before the length check. */
  function NameCore(line: string): string {
    Squish(Blanked(Stripped(line)))
  }

  /** `word.charAt(0).toUpperCase() + word.slice(1).toLowerCase()` */
  function CapitalizeWord(w: string): (r: string)
    ensures |r| == |w|
  {
    if w == [] then [] else [UpperChar(w[0])] + Lower(w[1..])
  }

  function CapitalizeWords(words: seq<string>): (r: seq<string>)
    ensures |r| == |words| && forall k :: 0 <= k < |words| ==> r[k] == CapitalizeWord(words[k])
  {
    seq(|words|, k requires 0 <= k < |words| => CapitalizeWord(words[k]))
  }

  function Capitalize(n: string): string {
    Join(CapitalizeWords(Split(n, ' ')), " ")
  }

  /** The name, or none when the cleaned text is shorter than two characters. */
  function ExtractName(line: string): Option<string> {
    var n := NameCore(line);
    if |n| < 2 then None else Some(Capitalize(n))
  }

  predicate NameChar(c: char) { IsWordChar(c) || c == '-' }

  /** A word as the name shows it: a non-lower-case first character followed by
      non-upper-case ones, all word characters or dashes. */
  predicate CapitalizedWord(w: string) {
    && w != []
    && !IsLower(w[0])
    && (forall j :: 1 <= j < |w| ==> !IsUpper(w[j]))
    && (forall j :: 0 <= j < |w| ==> NameChar(w[j]))
  }

  /** The cleaned text is word characters and dashes separated by single
      spaces, with no space at either end. */
  lemma NameCoreShape(line: string)
    ensures NoEdgeSpace(NameCore(line)) && Spaced(NameCore(line), NameChar)
  {
    var b := Blanked(Stripped(line));
    assert forall k :: 0 <= k < |b| ==> NameChar(b[k]) || IsSpace(b[k]);
    SquishShape(b, NameChar);
  }

  /** Capitalizing keeps the length, and the words of the result are the
      capitalized words of the input. */
  lemma CapitalizeWordsOf(n: string)
    ensures |Capitalize(n)| == |n|
    ensures Split(Capitalize(n), ' ') == CapitalizeWords(Split(n, ' '))
  {
    var words := Split(n, ' ');
    var caps := CapitalizeWords(words);
    JoinSplit(n, ' ');
    JoinSameLengths(caps, words, " ");
    forall k | 0 <= k < |caps| ensures ' ' !in caps[k] {
      var w := words[k];
      assert ' ' !in w;
      if w != [] {
        assert caps[k] == [UpperChar(w[0])] + Lower(w[1..]);
        assert forall j :: 0 <= j < |caps[k]| ==> caps[k][j] == ' ' ==> w[j] == ' ';
      }
    }
    SplitJoin(caps, ' ');
  }

  lemma CapitalizeWordShape(w: string)
    requires w != [] && forall j :: 0 <= j < |w| ==> NameChar(w[j])
    ensures CapitalizedWord(CapitalizeWord(w))
  {
    var r := CapitalizeWord(w);
    var tail := Lower(w[1..]);
    assert r == [UpperChar(w[0])] + tail;
    NameCharCases(w[0]);
    forall j | 1 <= j < |r| ensures NameChar(r[j]) && !IsUpper(r[j]) {
      assert r[j] == tail[j - 1] == LowerChar(w[j]);
      NameCharCases(w[j]);
    }
  }

  /** Changing the case of a word character or dash gives one again. */
  lemma NameCharCases(c: char)
    requires NameChar(c)
    ensures NameChar(UpperChar(c)) && NameChar(LowerChar(c))
  {
  }

  /** Every name has at least two characters and consists of capitalized
      words separated by single spaces. */
  lemma NameShape(line: string)
    requires ExtractName(line).Some?
    ensures var name := ExtractName(line).value;
      |name| >= 2 && forall k :: 0 <= k < |Split(name, ' ')| ==> CapitalizedWord(Split(name, ' ')[k])
  {
    var n := NameCore(line);
    NameCoreShape(line);
    CapitalizeWordsOf(n);
    SplitNonEmptyParts(n, ' ');
    var words := Split(n, ' ');
    forall k | 0 <= k < |words| ensures CapitalizedWord(CapitalizeWord(words[k])) {
      WordOfNameCore(n, k);
    }
  }

  /** A word of the cleaned text capitalizes to a name word. */
  lemma WordOfNameCore(n: string, k: nat)
    requires Spaced(n, NameChar) && k < |Split(n, ' ')|
    requires forall i :: 0 <= i < |Split(n, ' ')| ==> Split(n, ' ')[i] != []
    ensures CapitalizedWord(CapitalizeWord(Split(n, ' ')[k]))
  {
    var words := Split(n, ' ');
    var w := words[k];
    JoinSplit(n, ' ');
    PartChars(words, k, ' ');
    forall j | 0 <= j < |w| ensures NameChar(w[j]) {
      assert w[j] in n;
      assert ' ' !in w;
    }
    CapitalizeWordShape(w);
  }

  /** Every character of a piece of a split occurs in the split string. */
  lemma {:induction false} PartChars(parts: seq<string>, k: nat, sep: char)
    requires k < |parts|
    ensures forall c :: c in parts[k] ==> c in Join(parts, [sep])
    decreases |parts|
  {
    if |parts| > 1 {
      if k > 0 {
        PartChars(parts[1..], k - 1, sep);
      }
    }
  }

  // ---------------------------------------------------------------------------
  // One line (lines 106-174)
  // ---------------------------------------------------------------------------

  /** `parseMedicineLine` */
  function ParseLine(line: string): Option<ParsedMedicine> {
    match ExtractName(line)
    case None => None
    case Some(name) =>
      Some(ParsedMedicine(
        name,
        FirstPatternText(DosagePatterns, line),
        FirstForm(MedicineForms, Lower(line)),
        QuantityOf(line),
        FirstPatternText(FrequencyPatterns, line),
        line))
  }

  method FindFirstPattern(patterns: seq<Pattern>, line: string) returns (text: Option<string>)
    ensures text == FirstPatternText(patterns, line)
  {
    text := None;
    var k := 0;
    while k < |patterns|
      invariant 0 <= k <= |patterns|
      invariant FirstPatternText(patterns, line) == FirstPatternText(patterns[k..], line)
    {
      var m := FirstMatch(patterns[k], line, 0);
      if m.Some? {
        text := Some(line[m.value.0..m.value.1]);
        return;
      }
      assert patterns[k..][1..] == patterns[k + 1..];
      k := k + 1;
    }
  }

  method FindForm(lowered: string) returns (form: Option<string>)
    ensures form == FirstForm(MedicineForms, lowered)
  {
    form := None;
    var k := 0;
    while k < |MedicineForms|
      invariant 0 <= k <= |MedicineForms|
      invariant FirstForm(MedicineForms, lowered) == FirstForm(MedicineForms[k..], lowered)
    {
      if Contains(lowered, MedicineForms[k]) {
        form := Some(MedicineForms[k]);
        return;
      }
      assert MedicineForms[k..][1..] == MedicineForms[k + 1..];
      k := k + 1;
    }
  }

  method ParseMedicineLine(line: string) returns (r: Option<ParsedMedicine>)
    ensures r == ParseLine(line)
  {
    var dosage := FindFirstPattern(DosagePatterns, line);
    var form := FindForm(Lower(line));
    var frequency := FindFirstPattern(FrequencyPatterns, line);
    var quantity := QuantityOf(line);
    var name := NameCore(line);
    if |name| < 2 {
      return None;
    }
    r := Some(ParsedMedicine(Capitalize(name), dosage, form, quantity, frequency, line));
  }

  // ---------------------------------------------------------------------------
  // The whole text (lines 72-101)
  // ---------------------------------------------------------------------------

  /** `/^(rx|prescription|date|patient|dr\.|doctor|address|phone|mobile)/i` */
  predicate IsHeader(t: string) {
    TablesNonEmpty();
    FirstWordAt(HeaderWords, t, 0, false).Some?
  }

  /** `words.some(w => lowered.includes(w))` */
  predicate ContainsAny(lowered: string, words: seq<string>) {
    words != [] && (Contains(lowered, words[0]) || ContainsAny(lowered, words[1..]))
  }

  lemma {:induction false} ContainsAnySpec(lowered: string, words: seq<string>)
    ensures ContainsAny(lowered, words) <==> exists k :: 0 <= k < |words| && Contains(lowered, words[k])
  {
    if words != [] {
      ContainsAnySpec(lowered, words[1..]);
      assert forall k :: 1 <= k < |words| ==> words[k] == words[1..][k - 1];
    }
  }

  lemma {:induction false} ContainsAnyConcat(lowered: string, a: seq<string>, b: seq<string>)
    ensures ContainsAny(lowered, a + b) <==> ContainsAny(lowered, a) || ContainsAny(lowered, b)
  {
    if a != [] {
      assert (a + b)[1..] == a[1..] + b;
      ContainsAnyConcat(lowered, a[1..], b);
    } else {
      assert a + b == b;
    }
  }

  predicate HasForm(lowered: string) { ContainsAny(lowered, MedicineForms) }

  /** The dosage test, each pattern searched from the start of the line. */
  predicate HasDosage(t: string) {
    FirstMatch(DoseUnit, t, 0).Some? || FirstMatch(DosePercent, t, 0).Some?
  }

  predicate HasKeyword(lowered: string) { ContainsAny(lowered, MedicineKeywords) }

  predicate NonBlank(line: string) { |Trim(line)| > 0 }

  function Lines(ocrText: string): seq<string> {
    Filter(Split(ocrText, '\n'), NonBlank)
  }

  /** What one line contributes. */
  function LineResult(line: string): Option<ParsedMedicine> {
    var t := Trim(line);
    if |t| < 3 || IsHeader(t) then None
    else if HasForm(Lower(t)) || HasDosage(t) || HasKeyword(Lower(t)) then ParseLine(t)
    else None
  }

  /** `parseMedicines` */
  function Parse(ocrText: string): seq<ParsedMedicine> {
    FilterMap(Lines(ocrText), LineResult)
  }

  /** The body of the loop over the lines: each `continue` is a return. */
  method ScanLine(line: string) returns (parsed: Option<ParsedMedicine>)
    ensures parsed == LineResult(line)
  {
    var trimmed := Trim(line);
    var lower := Lower(trimmed);
    if |trimmed| < 3 || IsHeader(trimmed) {
      return None;
    }
    var hasForm := HasForm(lower);
    var hasDosage := HasDosage(trimmed);
    var hasKeyword := HasKeyword(lower);
    parsed := None;
    if hasForm || hasDosage || hasKeyword {
      parsed := ParseMedicineLine(trimmed);
    }
  }

  method ParseMedicines(ocrText: string) returns (medicines: seq<ParsedMedicine>)
    ensures medicines == Parse(ocrText)
  {
    var lines := Lines(ocrText);
    medicines := [];
    var k := 0;
    SliceEnds(lines);
    while k < |lines|
      invariant 0 <= k <= |lines|
      invariant medicines == FilterMap(lines[..k], LineResult)
    {
      var parsed := ScanLine(lines[k]);
      FilterMapStep(lines, k, medicines, LineResult, parsed);
      if parsed.Some? {
        medicines := medicines + [parsed.value];
      }
      k := k + 1;
    }
  }

  // ---------------------------------------------------------------------------
  // Properties of the line-by-line structure
  // ---------------------------------------------------------------------------

  /** Results follow the order of the lines, at most one per line. */
  lemma ParseConcat(a: string, b: string)
    ensures Lines(a + "\n" + b) == Lines(a) + Lines(b)
    ensures Parse(a + "\n" + b) == Parse(a) + Parse(b)
    ensures |Parse(a)| <= |Lines(a)|
  {
    SplitConcat(a, b, '\n');
    FilterConcat(Split(a, '\n'), Split(b, '\n'), NonBlank);
    FilterMapConcat(Lines(a), Lines(b), LineResult);
    FilterMapLength(Lines(a), LineResult);
  }

  /** A line's result keeps the trimmed line, at least three characters long
      and not a header, and the line shows a medicine indicator. */
  lemma LineResultShape(line: string)
    requires LineResult(line).Some?
    ensures var t := Trim(line); var m := LineResult(line).value;
      && m.rawText == t && |t| >= 3 && !IsHeader(t)
      && (HasForm(Lower(t)) || HasDosage(t) || HasKeyword(Lower(t)))
      && ExtractName(t) == Some(m.name)
  {
  }

  /** Each medicine parsed from a text carries a trimmed line of that text,
      at least three characters long, as its raw text. */
  lemma RawTextIsTrimmedLine(ocrText: string)
    ensures forall i :: 0 <= i < |Parse(ocrText)| ==>
      exists line :: line in Split(ocrText, '\n') && Parse(ocrText)[i].rawText == Trim(line)
        && |Parse(ocrText)[i].rawText| >= 3
  {
    var r := Parse(ocrText);
    var all := Split(ocrText, '\n');
    forall i | 0 <= i < |r|
      ensures exists line :: line in all && r[i].rawText == Trim(line) && |r[i].rawText| >= 3
    {
      var line := RawTextOfResult(ocrText, i);
    }
  }

  /** The input line a result comes from. */
  lemma RawTextOfResult(ocrText: string, i: nat) returns (line: string)
    requires i < |Parse(ocrText)|
    ensures line in Split(ocrText, '\n') && Parse(ocrText)[i].rawText == Trim(line)
    ensures |Parse(ocrText)[i].rawText| >= 3
  {
    var lines := Lines(ocrText);
    var r := Parse(ocrText);
    FilterMapFrom(lines, LineResult);
    var k :| 0 <= k < |lines| && LineResult(lines[k]) == Some(r[i]);
    LineResultShape(lines[k]);
    line := lines[k];
    assert line in Split(ocrText, '\n');
  }

  /** A header line never yields a medicine. */
  lemma HeaderSkipped(line: string)
    requires IsHeader(Trim(line))
    ensures LineResult(line).None?
  {
  }

  lemma RxHeader(line: string)
    requires CiAt(Trim(line), 0, "rx")
    ensures LineResult(line).None?
  {
    TablesNonEmpty();
  }

  // ---------------------------------------------------------------------------
  // normalizeMedicineName (lines 180-186)
  // ---------------------------------------------------------------------------

  predicate WordOrSpace(c: char) { IsWordChar(c) || IsSpace(c) }

  function NormalizeMedicineName(name: string): string {
    Squish(Filter(Lower(name), WordOrSpace))
  }

  predicate LowerWordChar(c: char) { IsWordChar(c) && !IsUpper(c) }

  /** Normalized: lower-case word characters separated by single spaces. */
  predicate IsNormalized(s: string) {
    NoEdgeSpace(s) && Spaced(s, LowerWordChar)
  }

  lemma NormalizeShape(name: string)
    ensures IsNormalized(NormalizeMedicineName(name))
  {
    var lowered := Lower(name);
    var kept := Filter(lowered, WordOrSpace);
    forall k | 0 <= k < |kept| ensures LowerWordChar(kept[k]) || IsSpace(kept[k]) {
      assert kept[k] in lowered;
    }
    SquishShape(kept, LowerWordChar);
  }

  lemma NormalizedFixpoint(s: string)
    requires IsNormalized(s)
    ensures NormalizeMedicineName(s) == s
  {
    assert Lower(s) == s by {
      assert forall k :: 0 <= k < |s| ==> Lower(s)[k] == s[k];
    }
    assert forall k :: 0 <= k < |s| ==> WordOrSpace(s[k]);
    FilterKeepsAll(s, WordOrSpace);
    SquishIdentity(s);
  }

  /** Normalizing twice is normalizing once. */
  lemma NormalizeIdempotent(name: string)
    ensures NormalizeMedicineName(NormalizeMedicineName(name)) == NormalizeMedicineName(name)
  {
    NormalizeShape(name);
    NormalizedFixpoint(NormalizeMedicineName(name));
  }

  // ---------------------------------------------------------------------------
  // The dosage test as written: shared `lastIndex` of the global patterns
  // ---------------------------------------------------------------------------

  /** `lastIndex` of the two global dosage patterns. */
  datatype RegexState = RegexState(unitLast: nat, percentLast: nat)

  const Reset := RegexState(0, 0)

  /** `p.test(s)` on a global pattern: the search starts at `lastIndex`, and
      a `lastIndex` past the end fails at once. */
  predicate TestFrom(p: Pattern, s: string, last: nat) {
    last <= |s| && FirstMatch(p, s, last).Some?
  }

  /** `DOSAGE_PATTERNS.some(pattern => pattern.test(trimmedLine))` in the
      state the previous line left. */
  predicate HasDosageAsWritten(t: string, st: RegexState) {
    TestFrom(DoseUnit, t, st.unitLast) || TestFrom(DosePercent, t, st.percentLast)
  }

  /** The state `parseMedicineLine` leaves: `exec` sets `lastIndex` to the end
      of the match, and the loop stops at the first pattern that matches. */
  function ExecEffect(t: string): RegexState {
    match FirstMatch(DoseUnit, t, 0)
    case Some(m) => RegexState(m.1, 0)
    case None => RegexState(0, match FirstMatch(DosePercent, t, 0) case Some(m) => m.1 case None => 0)
  }

  /** One iteration of the loop of lines 77-98 as written. A skipped line
      leaves the state alone; otherwise the patterns are reset after the test,
      and a parsed line then leaves the state of its `exec` calls. */
  function LineStepAsWritten(line: string, st: RegexState): (Option<ParsedMedicine>, RegexState) {
    var t := Trim(line);
    if |t| < 3 || IsHeader(t) then (None, st)
    else if HasForm(Lower(t)) || HasDosageAsWritten(t, st) || HasKeyword(Lower(t)) then (ParseLine(t), ExecEffect(t))
    else (None, Reset)
  }

  function ParseLinesAsWritten(lines: seq<string>, st: RegexState): seq<ParsedMedicine> {
    Scan(lines, st, LineStepAsWritten)
  }

  function ParseAsWritten(ocrText: string): seq<ParsedMedicine> {
    ParseLinesAsWritten(Lines(ocrText), Reset)
  }

  /** A search from a later index finds a match only if a search from the
      start does. */
  lemma TestFromStart(p: Pattern, s: string, last: nat)
    requires TestFrom(p, s, last)
    ensures FirstMatch(p, s, 0).Some?
  {
    FirstMatchLeftmost(p, s, 0);
    var m := FirstMatch(p, s, last).value;
    assert MatchAt(p, s, m.0).Some?;
  }

  /** With the patterns reset, the written test is the intended one. */
  lemma ResetAgrees(t: string)
    ensures HasDosageAsWritten(t, Reset) <==> HasDosage(t)
  {
  }

  lemma TestAsWrittenSound(t: string, st: RegexState)
    requires HasDosageAsWritten(t, st)
    ensures HasDosage(t)
  {
    if TestFrom(DoseUnit, t, st.unitLast) {
      TestFromStart(DoseUnit, t, st.unitLast);
    } else {
      TestFromStart(DosePercent, t, st.percentLast);
    }
  }

  /** The written loop never invents a medicine: each line yields nothing or
      what the intended rule yields. */
  lemma StepAsWrittenSound(line: string, st: RegexState)
    ensures LineStepAsWritten(line, st).0.None? || LineStepAsWritten(line, st).0 == LineResult(line)
  {
    if HasDosageAsWritten(Trim(line), st) {
      TestAsWrittenSound(Trim(line), st);
    }
  }

  /** Every medicine the written loop reports is the intended result of its
      own line: `idx` names those lines, distinct and in the order of the
      reports, so there are never more reports than lines. */
  lemma AsWrittenFromLines(lines: seq<string>, st: RegexState) returns (idx: seq<nat>)
    ensures |ParseLinesAsWritten(lines, st)| <= |lines|
    ensures |idx| == |ParseLinesAsWritten(lines, st)|
    ensures forall k :: 0 <= k < |idx| ==>
      idx[k] < |lines| && LineResult(lines[idx[k]]) == Some(ParseLinesAsWritten(lines, st)[k])
    ensures forall i, j :: 0 <= i < j < |idx| ==> idx[i] < idx[j]
  {
    forall line, t
      ensures LineStepAsWritten(line, t).0.None? || LineStepAsWritten(line, t).0 == LineResult(line)
    {
      StepAsWrittenSound(line, t);
    }
    idx := ScanSound(lines, st, LineStepAsWritten, LineResult);
  }

  /** The first line after a reset: a line with a keyword is parsed as
      intended and leaves the state of its `exec` calls. */
  lemma KeywordLineAsWritten(a: string)
    requires |Trim(a)| >= 3 && !IsHeader(Trim(a)) && HasKeyword(Lower(Trim(a)))
    ensures LineStepAsWritten(a, Reset) == (LineResult(a), ExecEffect(Trim(a)))
    ensures LineResult(a) == ParseLine(Trim(a))
  {
  }

  /** A line whose only indicator is a unit dosage fails the written test
      when `lastIndex` of the unit pattern lies beyond it. */
  lemma DosageLineLost(b: string, st: RegexState)
    requires st.unitLast > |Trim(b)| && st.percentLast == 0
    requires !HasForm(Lower(Trim(b))) && !HasKeyword(Lower(Trim(b)))
    requires FirstMatch(DosePercent, Trim(b), 0).None?
    ensures LineStepAsWritten(b, st).0.None?
  {
  }

  /** The same line is kept by the intended rule. */
  lemma DosageLineKept(b: string)
    requires |Trim(b)| >= 3 && !IsHeader(Trim(b))
    requires FirstMatch(DoseUnit, Trim(b), 0).Some?
    ensures LineResult(b) == ParseLine(Trim(b))
  {
  }

  /** A dosage-only line right after a line whose dosage ended beyond its
      length is lost by the written loop, while the intended rule keeps it. */
  lemma LostAfterLongerDosage(a: string, b: string)
    requires |Trim(a)| >= 3 && !IsHeader(Trim(a)) && HasKeyword(Lower(Trim(a)))
    requires FirstMatch(DoseUnit, Trim(a), 0).Some? && FirstMatch(DoseUnit, Trim(a), 0).value.1 > |Trim(b)|
    requires |Trim(b)| >= 3 && !IsHeader(Trim(b))
    requires !HasForm(Lower(Trim(b))) && !HasKeyword(Lower(Trim(b)))
    requires FirstMatch(DosePercent, Trim(b), 0).None?
    requires FirstMatch(DoseUnit, Trim(b), 0).Some? && ParseLine(Trim(b)).Some?
    ensures ParseLinesAsWritten([a, b], Reset) == Present(LineResult(a))
    ensures FilterMap([a, b], LineResult) == Present(LineResult(a)) + [ParseLine(Trim(b)).value]
  {
    var st := ExecEffect(Trim(a));
    KeywordLineAsWritten(a);
    DosageLineLost(b, st);
    DosageLineKept(b);
    ScanPair(a, b, Reset, LineStepAsWritten);
    FilterMapPair(a, b, LineResult);
  }
}
