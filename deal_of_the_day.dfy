/** The arithmetic of src/components/homepage/DealOfTheDay.tsx: the countdown
    to midnight and the deal's discount percent. Times are integer
    milliseconds. JavaScript's `%` keeps the sign of the dividend, so it is
    written out as `JsRem`; prices are reals. */
module DealOfTheDay {
  import opened Common
  import Utils

  const MsPerSecond: int := 1000
  const MsPerMinute: int := 1000 * 60
  const MsPerHour: int := 1000 * 60 * 60
  const MsPerDay: int := 1000 * 60 * 60 * 24

  /** JavaScript's `a % b` for a positive divisor: truncating, so the
      remainder has the sign of `a`. */
  function JsRem(a: int, b: int): (r: int)
    requires b > 0
    ensures a >= 0 ==> 0 <= r < b
    ensures a < 0 ==> -b < r <= 0
    ensures a >= 0 ==> r == a % b
    ensures a < 0 ==> r == 0 || r == a % b - b
  {
    if a >= 0 then a % b else NegatedRemainder(a, b); -((-a) % b)
  }

  /** How the Euclidean remainder of a negative number relates to that of
      its negation. */
  lemma NegatedRemainder(a: int, b: int)
    requires b > 0
    ensures (-a) % b == 0 ==> a % b == 0
    ensures (-a) % b != 0 ==> a % b == b - (-a) % b
  {
    var q, m := (-a) / b, (-a) % b;
    assert -a == q * b + m;
    if m == 0 {
      DivModUnique(a, b, -q, 0);
    } else {
      DivModUnique(a, b, -q - 1, b - m);
    }
  }

  datatype TimeLeft = TimeLeft(hours: int, minutes: int, seconds: int)

  /** `calculateTimeLeft` for `diff` milliseconds to go. */
  function CalculateTimeLeft(diff: int): TimeLeft {
    TimeLeft(
      diff / MsPerHour,
      JsRem(diff, MsPerHour) / MsPerMinute,
      JsRem(diff, MsPerMinute) / MsPerSecond)
  }

  /** Milliseconds from a moment `msIntoDay` after midnight to the next
      midnight (`midnight.setHours(24, 0, 0, 0)`), on a day of 24 hours. */
  function ToMidnight(msIntoDay: int): (diff: int)
    requires 0 <= msIntoDay < MsPerDay
    ensures 0 < diff <= MsPerDay
  {
    MsPerDay - msIntoDay
  }

  /** For a non-negative diff, minutes and seconds are both in 0..59. */
  lemma CountdownFieldRanges(diff: int)
    requires diff >= 0
    ensures 0 <= CalculateTimeLeft(diff).minutes <= 59
    ensures 0 <= CalculateTimeLeft(diff).seconds <= 59
    ensures CalculateTimeLeft(diff).hours >= 0
  {
  }

  /** For a non-negative diff, the three fields add up to the whole seconds
      left. */
  lemma CountdownRecomposes(diff: int)
    requires diff >= 0
    ensures var t := CalculateTimeLeft(diff);
      t.hours * 3600 + t.minutes * 60 + t.seconds == diff / MsPerSecond
  {
    var h := diff / MsPerHour;
    var r := diff % MsPerHour;
    var m := r / MsPerMinute;
    var r2 := r % MsPerMinute;
    assert diff == h * MsPerHour + m * MsPerMinute + r2;
    assert diff % MsPerMinute == r2 by {
      assert diff == (h * 60 + m) * MsPerMinute + r2;
      DivModUnique(diff, MsPerMinute, h * 60 + m, r2);
    }
    var s := r2 / MsPerSecond;
    assert diff == (h * 3600 + m * 60 + s) * MsPerSecond + r2 % MsPerSecond;
    DivModUnique(diff, MsPerSecond, h * 3600 + m * 60 + s, r2 % MsPerSecond);
  }

  /** `a == q * b + r` with `0 <= r < b` fixes the quotient and remainder. */
  lemma DivModUnique(a: int, b: int, q: int, r: int)
    requires b > 0 && a == q * b + r && 0 <= r < b
    ensures a / b == q && a % b == r
  {
    var q' := a / b;
    var r' := a % b;
    assert a == q' * b + r';
    if q' > q {
      assert q' * b >= (q + 1) * b by { MulMonotone(q + 1, q', b); }
    } else if q' < q {
      assert q * b >= (q' + 1) * b by { MulMonotone(q' + 1, q, b); }
    }
  }

  lemma MulMonotone(x: int, y: int, b: int)
    requires x <= y && b > 0
    ensures x * b <= y * b
  {
    assert y * b == x * b + (y - x) * b;
  }

  /** Up to a day to go, the hours never exceed 24, and reach 24 only at
      exactly a day. */
  lemma CountdownHoursBound(diff: int)
    requires 0 <= diff <= MsPerDay
    ensures 0 <= CalculateTimeLeft(diff).hours <= 24
    ensures CalculateTimeLeft(diff).hours == 24 <==> diff == MsPerDay
  {
  }

  /** The countdown to the next midnight always shows 0..24 hours and 0..59
      minutes and seconds. */
  lemma MidnightCountdownRanges(msIntoDay: int)
    requires 0 <= msIntoDay < MsPerDay
    ensures var t := CalculateTimeLeft(ToMidnight(msIntoDay));
      0 <= t.hours <= 24 && 0 <= t.minutes <= 59 && 0 <= t.seconds <= 59
  {
    CountdownHoursBound(ToMidnight(msIntoDay));
    CountdownFieldRanges(ToMidnight(msIntoDay));
  }

  /** A countdown past its end (negative diff) shows no positive field: the
      truncating `%` keeps the sign of the diff. */
  lemma CountdownOverdue(diff: int)
    requires diff < 0
    ensures CalculateTimeLeft(diff).hours < 0
    ensures -60 <= CalculateTimeLeft(diff).minutes <= 0
    ensures -60 <= CalculateTimeLeft(diff).seconds <= 0
  {
  }

  // ---------------------------------------------------------------------------
  // The discount percent
  // ---------------------------------------------------------------------------

  /** `Math.round(((mrp - price) / mrp) * 100)`; None when `mrp` is 0, where
      JavaScript produces NaN or an infinity instead of a number. */
  function DealDiscount(price: real, mrp: real): (d: Option<int>)
    ensures d.None? <==> mrp == 0.0
    ensures d.Some? ==> d.value as real - 0.5 <= ((mrp - price) / mrp) * 100.0 < d.value as real + 0.5
  {
    if mrp == 0.0 then None
    else
      Utils.RoundNearest(((mrp - price) / mrp) * 100.0);
      Some(Utils.Round(((mrp - price) / mrp) * 100.0))
  }

  /** For a positive MRP the deal shows the same percent as `calculateDiscount`
      in src/lib/utils.ts; that helper shows 0 for a negative MRP, where the
      deal computes a number from the formula. */
  lemma DealDiscountIsCalculateDiscount(price: real, mrp: real)
    ensures mrp > 0.0 ==> DealDiscount(price, mrp) == Some(Utils.CalculateDiscount(mrp, price))
    ensures mrp < 0.0 ==> DealDiscount(price, mrp).Some? && Utils.CalculateDiscount(mrp, price) == 0
  {
  }

  /** For a price between 0 and a positive MRP the percent lies in 0..100,
      is 0 at full price and 100 for a free item. */
  lemma DealDiscountBounds(price: real, mrp: real)
    requires mrp > 0.0 && 0.0 <= price <= mrp
    ensures DealDiscount(price, mrp).Some?
    ensures 0 <= DealDiscount(price, mrp).value <= 100
    ensures price == mrp ==> DealDiscount(price, mrp).value == 0
    ensures price == 0.0 ==> DealDiscount(price, mrp).value == 100
  {
    DealDiscountIsCalculateDiscount(price, mrp);
    Utils.DiscountBounds(mrp, price);
  }

  /** A lower price never gives a smaller percent. */
  lemma DealDiscountMonotone(p1: real, p2: real, mrp: real)
    requires mrp > 0.0 && p1 <= p2
    ensures DealDiscount(p2, mrp).value <= DealDiscount(p1, mrp).value
  {
    DealDiscountIsCalculateDiscount(p1, mrp);
    DealDiscountIsCalculateDiscount(p2, mrp);
    Utils.DiscountAntitone(mrp, p1, p2);
  }
}
