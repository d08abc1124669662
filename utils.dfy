/** The string and number helpers of src/lib/utils.ts: slugs, discount
    percentages, the Indian pincode, phone and e-mail checks, truncation,
    initials and the delivery-time estimate. */
module Utils {
  import opened Common

  // ---------------------------------------------------------------------------
  // Decimal digits
  // ---------------------------------------------------------------------------

  predicate AllDigits(s: string) { forall i :: 0 <= i < |s| ==> IsDigit(s[i]) }

  function DigitValue(c: char): nat requires IsDigit(c) { c as int - '0' as int }

  function DigitChar(d: nat): (c: char)
    requires d < 10
    ensures IsDigit(c) && DigitValue(c) == d
  {
    ('0' as int + d) as char
  }

  /** The number a string of decimal digits denotes. */
  function Value(s: string): nat
    requires AllDigits(s)
  {
    if s == [] then 0 else 10 * Value(s[..|s| - 1]) + DigitValue(s[|s| - 1])
  }

  function Pow10(k: nat): (r: nat)
    ensures r >= 1
  {
    if k == 0 then 1 else 10 * Pow10(k - 1)
  }

  lemma {:induction false} Pow10Monotone(i: nat, j: nat)
    requires i <= j
    ensures Pow10(i) <= Pow10(j)
    decreases j
  {
    if i < j {
      Pow10Monotone(i, j - 1);
    }
  }

  /** A digit string lies between its leading digit times the place value of
      that digit and the next multiple of it. */
  lemma {:induction false} ValueBounds(s: string)
    requires AllDigits(s) && s != []
    ensures DigitValue(s[0]) * Pow10(|s| - 1) <= Value(s) < (DigitValue(s[0]) + 1) * Pow10(|s| - 1)
    decreases |s|
  {
    if |s| > 1 {
      var p := s[..|s| - 1];
      ValueBounds(p);
      assert p[0] == s[0];
      ScaleBounds(DigitValue(s[0]), Pow10(|p| - 1), Value(p), DigitValue(s[|s| - 1]));
    }
  }

  /** Appending a digit scales the bounds of the prefix by ten. */
  lemma ScaleBounds(d: nat, p: nat, v: nat, e: nat)
    requires d * p <= v < (d + 1) * p && e < 10
    ensures d * (10 * p) <= 10 * v + e < (d + 1) * (10 * p)
  {
    assert d * (10 * p) == 10 * (d * p);
    assert (d + 1) * (10 * p) == 10 * ((d + 1) * p);
    assert v + 1 <= (d + 1) * p;
  }

  /** `String(n)` for a natural number: decimal, no leading zero. */
  function NatToString(n: nat): (s: string)
    ensures AllDigits(s) && s != [] && Value(s) == n
    ensures n > 0 ==> s[0] != '0'
    ensures n == 0 ==> s == "0"
  {
    if n < 10 then [DigitChar(n)]
    else
      var s := NatToString(n / 10) + [DigitChar(n % 10)];
      assert s[..|s| - 1] == NatToString(n / 10);
      s
  }

  /** `String(n)` for any integer. */
  function IntToString(n: int): string {
    if n < 0 then "-" + NatToString(-n) else NatToString(n)
  }

  /** A digit string without a superfluous leading zero prints back as itself. */
  lemma {:induction false} NatToStringValue(s: string)
    requires AllDigits(s) && s != [] && (s[0] != '0' || |s| == 1)
    ensures NatToString(Value(s)) == s
    decreases |s|
  {
    if |s| > 1 {
      var p := s[..|s| - 1];
      var c := s[|s| - 1];
      LastDigitSplit(s);
      assert p[0] == s[0];
      NatToStringValue(p);
      NatToStringStep(Value(s));
      assert DigitChar(DigitValue(c)) == c;
      assert s == p + [c];
    }
  }

  /** Dividing a number of two or more digits (no leading zero) by ten
      drops its last digit. */
  lemma LastDigitSplit(s: string)
    requires AllDigits(s) && |s| > 1 && s[0] != '0'
    ensures Value(s) >= 10
    ensures Value(s) / 10 == Value(s[..|s| - 1]) && Value(s) % 10 == DigitValue(s[|s| - 1])
  {
    var p := s[..|s| - 1];
    assert p[0] == s[0];
    ValueBounds(p);
    DivModTen(Value(s), Value(p), DigitValue(s[|s| - 1]));
  }

  lemma NatToStringStep(v: nat)
    requires v >= 10
    ensures NatToString(v) == NatToString(v / 10) + [DigitChar(v % 10)]
  {
  }

  lemma DivModTen(v: nat, q: nat, r: nat)
    requires r < 10 && v == 10 * q + r
    ensures v / 10 == q && v % 10 == r
  {
  }

  /** A digit string without a leading zero lies within its order of magnitude. */
  lemma MagnitudeBounds(s: string)
    requires AllDigits(s) && s != [] && s[0] != '0'
    ensures Pow10(|s| - 1) <= Value(s) < Pow10(|s|)
  {
    var p := Pow10(|s| - 1);
    ValueBounds(s);
    var d := DigitValue(s[0]);
    assert 1 <= d <= 9;
    MulMonotone(1, d, p);
    MulMonotone(d + 1, 10, p);
  }

  lemma MulMonotone(a: nat, b: nat, p: nat)
    requires a <= b
    ensures a * p <= b * p
  {
    assert b * p == a * p + (b - a) * p;
  }

  /** A number's decimal string has as many digits as its order of magnitude says. */
  lemma NatToStringLength(n: nat, k: nat)
    requires k >= 1 && Pow10(k - 1) <= n < Pow10(k)
    ensures |NatToString(n)| == k
  {
    var s := NatToString(n);
    MagnitudeBounds(s);
    if |s| > k {
      Pow10Monotone(k, |s| - 1);
    } else if |s| < k {
      Pow10Monotone(|s|, k - 1);
    }
  }

  // ---------------------------------------------------------------------------
  // slugify (lines 31-37)
  // ---------------------------------------------------------------------------

  /** The characters `replace(/[^\w\s-]/g, '')` keeps. */
  predicate KeptInSlug(c: char) { IsWordChar(c) || IsSpace(c) || c == '-' }

  /** The class `[\s_-]` whose runs become one dash. */
  predicate IsSeparator(c: char) { IsSpace(c) || c == '_' || c == '-' }

  predicate IsDash(c: char) { c == '-' }

  /** `replace(/-+$/, '')` */
  function DropTrailingDashes(s: string): (r: string)
    ensures |r| <= |s| && r == s[..|r|]
    ensures forall i :: |r| <= i < |s| ==> s[i] == '-'
    ensures r != [] ==> r[|r| - 1] != '-'
  {
    if s != [] && s[|s| - 1] == '-' then DropTrailingDashes(s[..|s| - 1]) else s
  }

  /** `replace(/^-+|-+$/g, '')`: the leading and the trailing run of dashes go. */
  function StripDashes(s: string): string {
    DropTrailingDashes(DropWhile(s, IsDash))
  }

  function Slugify(text: string): string {
    var cleaned := Filter(Lower(text), KeptInSlug);
    StripDashes(CollapseRuns(cleaned, IsSeparator, '-'))
  }

  predicate IsSlugChar(c: char) { IsLower(c) || IsDigit(c) || c == '-' }

  /** Lower-case ASCII letters, digits and single inner dashes. */
  predicate IsSlug(s: string) {
    && (forall i :: 0 <= i < |s| ==> IsSlugChar(s[i]))
    && (s != [] ==> s[0] != '-' && s[|s| - 1] != '-')
    && (forall i :: 0 <= i < |s| - 1 ==> !(s[i] == '-' && s[i + 1] == '-'))
  }

  /** The characters of the collapsed string are slug characters, given
      that the filtered string held no capital letter. */
  lemma DashedChars(cleaned: string, dashed: string)
    requires forall i :: 0 <= i < |cleaned| ==> KeptInSlug(cleaned[i]) && !IsUpper(cleaned[i])
    requires dashed == CollapseRuns(cleaned, IsSeparator, '-')
    ensures forall i :: 0 <= i < |dashed| ==> IsSlugChar(dashed[i])
  {
    CollapseRunsChars(cleaned, IsSeparator, '-');
    forall i | 0 <= i < |dashed| ensures IsSlugChar(dashed[i]) {
      var c := dashed[i];
      if c != '-' {
        var k :| 0 <= k < |cleaned| && cleaned[k] == c;
      }
    }
  }

  /** Stripping dashes cuts a slice out of the string with no dash at either end. */
  lemma StripDashesSlice(s: string)
    ensures var r := StripDashes(s);
      exists off :: OccursAt(s, r, off)
    ensures var r := StripDashes(s); r != [] ==> r[0] != '-' && r[|r| - 1] != '-'
  {
    var u := DropWhile(s, IsDash);
    var r := DropTrailingDashes(u);
    var off := |s| - |u|;
    assert u == s[off..];
    assert s[off..off + |r|] == r;
    assert OccursAt(s, r, off);
    assert r == StripDashes(s);
  }

  /** A slice keeps the character class and the absence of double dashes. */
  lemma SliceKeepsSlugShape(s: string, r: string, off: int)
    requires OccursAt(s, r, off)
    requires forall i :: 0 <= i < |s| ==> IsSlugChar(s[i])
    requires forall i :: 0 <= i < |s| - 1 ==> !(s[i] == '-' && s[i + 1] == '-')
    ensures forall i :: 0 <= i < |r| ==> IsSlugChar(r[i])
    ensures forall i :: 0 <= i < |r| - 1 ==> !(r[i] == '-' && r[i + 1] == '-')
  {
    assert forall i :: 0 <= i < |r| ==> r[i] == s[off + i];
  }

  /** Every slug is lower-case letters and digits joined by single dashes, with
      no dash at either end. */
  lemma SlugifyIsSlug(text: string)
    ensures IsSlug(Slugify(text))
  {
    var lowered := Lower(text);
    var cleaned := Filter(lowered, KeptInSlug);
    forall i | 0 <= i < |cleaned| ensures KeptInSlug(cleaned[i]) && !IsUpper(cleaned[i]) {
      assert cleaned[i] in lowered;
    }
    var dashed := CollapseRuns(cleaned, IsSeparator, '-');
    DashedChars(cleaned, dashed);
    CollapseRunsNoDoubles(cleaned, IsSeparator, '-');
    StripDashesSlice(dashed);
    var off :| OccursAt(dashed, StripDashes(dashed), off);
    SliceKeepsSlugShape(dashed, StripDashes(dashed), off);
  }

  lemma LowerOfSlug(s: string)
    requires IsSlug(s)
    ensures Lower(s) == s
  {
    assert forall i :: 0 <= i < |s| ==> Lower(s)[i] == s[i];
  }

  lemma StripDashesOfSlug(s: string)
    requires IsSlug(s)
    ensures StripDashes(s) == s
  {
    var u := DropWhile(s, IsDash);
    assert |u| == |s|;
    assert DropTrailingDashes(u) == u;
  }

  lemma FilterOfSlug(s: string)
    requires IsSlug(s)
    ensures Filter(s, KeptInSlug) == s
  {
    assert forall i :: 0 <= i < |s| ==> KeptInSlug(s[i]);
    FilterKeepsAll(s, KeptInSlug);
  }

  lemma CollapseOfSlug(s: string)
    requires IsSlug(s)
    ensures CollapseRuns(s, IsSeparator, '-') == s
  {
    assert forall i :: 0 <= i < |s| ==> IsSeparator(s[i]) ==> s[i] == '-';
    assert forall i :: 0 <= i < |s| - 1 ==> !(IsSeparator(s[i]) && IsSeparator(s[i + 1]));
    CollapseRunsIdentity(s, IsSeparator, '-');
  }

  /** A slug is its own slug. */
  lemma SlugFixpoint(s: string)
    requires IsSlug(s)
    ensures Slugify(s) == s
  {
    LowerOfSlug(s);
    FilterOfSlug(s);
    CollapseOfSlug(s);
    StripDashesOfSlug(s);
  }

  /** `slugify` is idempotent. */
  lemma SlugifyIdempotent(text: string)
    ensures Slugify(Slugify(text)) == Slugify(text)
  {
    SlugifyIsSlug(text);
    SlugFixpoint(Slugify(text));
  }

  // ---------------------------------------------------------------------------
  // calculateDiscount (lines 39-42)
  // ---------------------------------------------------------------------------

  /** `Math.round`: the nearest integer, halves rounded up. */
  function Round(x: real): int { (x + 0.5).Floor }

  lemma RoundNearest(x: real)
    ensures Round(x) as real - 0.5 <= x < Round(x) as real + 0.5
  {
  }

  lemma RoundMonotone(x: real, y: real)
    requires x <= y
    ensures Round(x) <= Round(y)
  {
    assert Round(x) as real <= x + 0.5 <= y + 0.5 < Round(y) as real + 1.0;
  }

  /** The discount in whole percent; a non-positive MRP gives 0. */
  function CalculateDiscount(mrp: real, sellingPrice: real): int {
    if mrp <= 0.0 then 0 else Round((mrp - sellingPrice) / mrp * 100.0)
  }

  /** A selling price between 0 and the MRP gives a percentage between 0 and
      100: 0 at the MRP and 100 when free. */
  lemma DiscountBounds(mrp: real, sellingPrice: real)
    requires 0.0 <= sellingPrice <= mrp
    ensures 0 <= CalculateDiscount(mrp, sellingPrice) <= 100
    ensures mrp > 0.0 && sellingPrice == mrp ==> CalculateDiscount(mrp, sellingPrice) == 0
    ensures mrp > 0.0 && sellingPrice == 0.0 ==> CalculateDiscount(mrp, sellingPrice) == 100
  {
    if mrp > 0.0 {
      var x := (mrp - sellingPrice) / mrp * 100.0;
      assert 0.0 <= (mrp - sellingPrice) / mrp <= 1.0;
      assert sellingPrice == 0.0 ==> (mrp - sellingPrice) / mrp == 1.0;
      RoundMonotone(0.0, x);
      RoundMonotone(x, 100.0);
    }
  }

  /** A non-positive MRP shows no discount, whatever the selling price. */
  lemma DiscountNonPositiveMrp(mrp: real, sellingPrice: real)
    ensures mrp <= 0.0 ==> CalculateDiscount(mrp, sellingPrice) == 0
  {
  }

  /** A lower selling price never shows a smaller discount. */
  lemma DiscountAntitone(mrp: real, lower: real, higher: real)
    requires lower <= higher
    ensures CalculateDiscount(mrp, higher) <= CalculateDiscount(mrp, lower)
  {
    if mrp > 0.0 {
      assert (mrp - higher) / mrp <= (mrp - lower) / mrp;
      RoundMonotone((mrp - higher) / mrp * 100.0, (mrp - lower) / mrp * 100.0);
    }
  }

  // ---------------------------------------------------------------------------
  // validatePincode, validatePhone (lines 44-50)
  // ---------------------------------------------------------------------------

  /** `/^[1-9][0-9]{5}$/` */
  predicate ValidPincode(s: string) {
    |s| == 6 && '1' <= s[0] <= '9' && forall i :: 1 <= i < 6 ==> IsDigit(s[i])
  }

  /** `/^[6-9]\d{9}$/` */
  predicate ValidPhone(s: string) {
    |s| == 10 && '6' <= s[0] <= '9' && forall i :: 1 <= i < 10 ==> IsDigit(s[i])
  }

  lemma Pow10Six()
    ensures Pow10(5) == 100000 && Pow10(6) == 1000000 && Pow10(9) == 1000000000
  {
    assert Pow10(3) == 1000;
  }

  /** A valid pincode is exactly the decimal form of a number from 100000 to 999999. */
  lemma PincodeIsSixDigitNumber(s: string)
    ensures ValidPincode(s) <==> exists n :: 100000 <= n <= 999999 && s == NatToString(n)
  {
    if ValidPincode(s) {
      Pow10Six();
      ValueBounds(s);
      NatToStringValue(s);
      assert 100000 <= Value(s) <= 999999 && s == NatToString(Value(s));
    }
    if exists n :: 100000 <= n <= 999999 && s == NatToString(n) {
      var n :| 100000 <= n <= 999999 && s == NatToString(n);
      Pow10Six();
      NatToStringLength(n, 6);
    }
  }

  /** A valid phone number is a ten-digit string whose value is at least
      6000000000. */
  lemma PhoneIsTenDigitNumber(s: string)
    ensures ValidPhone(s) <==> |s| == 10 && AllDigits(s) && 6000000000 <= Value(s)
  {
    if |s| == 10 && AllDigits(s) {
      Pow10Six();
      ValueBounds(s);
    }
  }

  // ---------------------------------------------------------------------------
  // validateEmail (lines 52-54)
  // ---------------------------------------------------------------------------

  /** `/^[^\s@]+@[^\s@]+\.[^\s@]+$/` matches `s` split as `s[..at]`, `@`,
      `s[at + 1..dot]`, `.`, `s[dot + 1..]`, every piece non-empty and free of
      whitespace and `@`. */
  predicate EmailSplit(s: string, at: int, dot: int) {
    && 0 < at && at + 1 < dot && dot + 1 < |s|
    && s[at] == '@' && s[dot] == '.'
    && (forall i :: 0 <= i < |s| ==> !IsSpace(s[i]))
    && (forall i :: 0 <= i < |s| && i != at ==> s[i] != '@')
  }

  /** The check as a direct test: no whitespace, one `@` that is not first, and
      a dot strictly inside the part after it. */
  predicate ValidEmail(s: string) {
    && (forall i :: 0 <= i < |s| ==> !IsSpace(s[i]))
    && match IndexOfChar(s, '@')
       case None => false
       case Some(at) =>
         var domain := s[at + 1..];
         && at > 0 && '@' !in domain
         && |domain| >= 3 && '.' in domain[1..|domain| - 1]
  }

  lemma ValidEmailMatches(s: string)
    ensures ValidEmail(s) <==> exists at, dot :: EmailSplit(s, at, dot)
  {
    if ValidEmail(s) {
      var at := IndexOfChar(s, '@').value;
      var domain := s[at + 1..];
      var m :| 0 <= m < |domain| - 2 && domain[1..|domain| - 1][m] == '.';
      var dot := at + 2 + m;
      forall i | 0 <= i < |s| && i != at ensures s[i] != '@' {
        if i < at {
          assert s[i] in s[..at];
        } else {
          assert s[i] == domain[i - at - 1];
        }
      }
      assert EmailSplit(s, at, dot);
    }
    if exists at, dot :: EmailSplit(s, at, dot) {
      var at, dot :| EmailSplit(s, at, dot);
      var r := IndexOfChar(s, '@');
      assert s[at] == '@';
      if r.None? {
        assert false;
      }
      assert r.value == at;
      var domain := s[at + 1..];
      assert domain[1..|domain| - 1][dot - at - 2] == '.';
      assert '@' !in domain by {
        forall k | 0 <= k < |domain| ensures domain[k] != '@' {
          assert domain[k] == s[at + 1 + k];
        }
      }
    }
  }

  // ---------------------------------------------------------------------------
  // truncateText, getInitials (lines 56-68)
  // ---------------------------------------------------------------------------

  function Clamp(n: int, len: nat): (r: nat)
    ensures r <= len
  {
    if n < 0 then 0 else if n > len then len else n
  }

  /** `s.substring(start, end)`: both ends clamped to the string, swapped when
      out of order. */
  function Substring(s: string, start: int, end: int): string {
    var a := Clamp(start, |s|);
    var b := Clamp(end, |s|);
    if a <= b then s[a..b] else s[b..a]
  }

  function TruncateText(text: string, maxLength: int): string {
    if |text| <= maxLength then text else Substring(text, 0, maxLength) + "..."
  }

  /** Text that fits is returned as is; longer text keeps its first
      `maxLength` characters (none when `maxLength` is negative) and gains an
      ellipsis. */
  lemma TruncateTextShape(text: string, maxLength: int)
    ensures |text| <= maxLength ==> TruncateText(text, maxLength) == text
    ensures |text| > maxLength ==>
      var keep := if maxLength < 0 then 0 else maxLength;
      TruncateText(text, maxLength) == text[..keep] + "..." && |TruncateText(text, maxLength)| == keep + 3
  {
  }

  /** `word[0]`, with JavaScript's `undefined` for the empty word joined as "". */
  function FirstLetter(word: string): string {
    if word == [] then [] else [word[0]]
  }

  function FirstLetters(words: seq<string>): string {
    if words == [] then [] else FirstLetter(words[0]) + FirstLetters(words[1..])
  }

  function GetInitials(name: string): string {
    Substring(Upper(FirstLetters(Split(name, ' '))), 0, 2)
  }

  lemma InitialsShape(name: string)
    ensures |GetInitials(name)| <= 2
    ensures forall i :: 0 <= i < |GetInitials(name)| ==> !IsLower(GetInitials(name)[i])
  {
  }

  /** Two words separated by one space give the capitals of their first letters. */
  lemma InitialsOfTwoWords(first: string, last: string)
    requires first != [] && last != [] && ' ' !in first && ' ' !in last
    ensures GetInitials(first + " " + last) == [UpperChar(first[0]), UpperChar(last[0])]
  {
    var s := first + " " + last;
    IndexOfCharAfter(first, ' ', last);
    assert s[..|first|] == first && s[|first| + 1..] == last;
    assert Split(s, ' ') == [first, last];
    assert [first, last][1..] == [last];
    assert FirstLetters([last]) == [last[0]];
  }

  /** Consecutive spaces produce empty words, which contribute nothing. */
  lemma InitialsSkipLeadingSpace(name: string)
    ensures GetInitials(" " + name) == GetInitials(name)
  {
    IndexOfCharAfter([], ' ', name);
    assert (" " + name)[1..] == name;
    assert Split(" " + name, ' ') == [""] + Split(name, ' ');
  }

  // ---------------------------------------------------------------------------
  // estimateDeliveryTime (lines 101-110)
  // ---------------------------------------------------------------------------

  /** `Math.ceil` */
  function Ceil(x: real): int { -((-x).Floor) }

  lemma CeilBounds(x: real)
    ensures x <= Ceil(x) as real < x + 1.0
  {
  }

  /** 30 minutes plus 10 per kilometre, rounded up. */
  function DeliveryMinutes(distanceKm: real): int { 30 + Ceil(distanceKm * 10.0) }

  /** The three shapes of the estimate: "N mins", "Hh" and "Hh Mm". */
  datatype Estimate = Minutes(n: int) | Hours(h: int) | HoursMinutes(h: int, m: int)

  function EstimateOf(minutes: int): Estimate {
    if minutes < 60 then Minutes(minutes)
    else if minutes % 60 > 0 then HoursMinutes(minutes / 60, minutes % 60)
    else Hours(minutes / 60)
  }

  function Render(e: Estimate): string {
    match e
    case Minutes(n) => IntToString(n) + " mins"
    case Hours(h) => IntToString(h) + "h"
    case HoursMinutes(h, m) => IntToString(h) + "h " + IntToString(m) + "m"
  }

  function EstimateDeliveryTime(distanceKm: real): string {
    Render(EstimateOf(DeliveryMinutes(distanceKm)))
  }

  /** The estimate always accounts for exactly the computed minutes: under an
      hour in minutes, otherwise whole hours and a remainder strictly between
      0 and 60. */
  lemma EstimateAccountsForMinutes(minutes: int)
    ensures match EstimateOf(minutes)
      case Minutes(n) => n == minutes && n < 60
      case Hours(h) => h >= 1 && h * 60 == minutes
      case HoursMinutes(h, m) => h >= 1 && 0 < m < 60 && h * 60 + m == minutes
  {
  }

  /** Never under 30 minutes for a real distance, and farther is never sooner. */
  lemma DeliveryMinutesMonotone(near: real, far: real)
    requires 0.0 <= near <= far
    ensures 30 <= DeliveryMinutes(near) <= DeliveryMinutes(far)
  {
    CeilBounds(near * 10.0);
    CeilBounds(far * 10.0);
    assert (-(far * 10.0)).Floor <= (-(near * 10.0)).Floor by {
      assert -(far * 10.0) <= -(near * 10.0);
    }
  }

  lemma EstimateExamples()
    ensures EstimateDeliveryTime(2.5) == "55 mins"
    ensures EstimateDeliveryTime(5.0) == "1h 20m"
    ensures EstimateDeliveryTime(9.0) == "2h"
  {
    EstimateNear();
    EstimateMiddle();
    EstimateFar();
  }

  lemma EstimateNear()
    ensures EstimateDeliveryTime(2.5) == "55 mins"
  {
    assert DeliveryMinutes(2.5) == 55 by { assert Ceil(25.0) == 25; }
    assert NatToString(55) == "55" by { NatToStringStep(55); assert NatToString(5) == "5"; }
  }

  lemma EstimateMiddle()
    ensures EstimateDeliveryTime(5.0) == "1h 20m"
  {
    assert DeliveryMinutes(5.0) == 80 by { assert Ceil(50.0) == 50; }
    assert EstimateOf(80) == HoursMinutes(1, 20);
    assert NatToString(20) == "20" by { NatToStringStep(20); assert NatToString(2) == "2"; }
    assert NatToString(1) == "1";
  }

  lemma EstimateFar()
    ensures EstimateDeliveryTime(9.0) == "2h"
  {
    assert DeliveryMinutes(9.0) == 120 by { assert Ceil(90.0) == 90; }
    assert EstimateOf(120) == Hours(2);
    assert NatToString(2) == "2";
  }
}
