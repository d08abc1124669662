/** `formatTimeAgo` of src/components/patient/RecentlyViewed.tsx: the time
    since a product was viewed, shown in the largest unit it fills. Times are
    integer milliseconds and the current time is a parameter. `Math.floor` of a
    quotient by a positive integer is Dafny's `/` on `int`. */
module RecentlyViewed {
  import Utils

  const Minute: int := 60
  const Hour: int := 3600
  const Day: int := 86400
  const Week: int := 604800

  /** Which label is shown, with its number. */
  datatype TimeAgo = JustNow | MinutesAgo(n: int) | HoursAgo(n: int) | DaysAgo(n: int) | WeeksAgo(n: int)

  /** Whole seconds elapsed, rounded down (negative for a future timestamp). */
  function ElapsedSeconds(now: int, timestamp: int): int {
    (now - timestamp) / 1000
  }

  function Bucket(seconds: int): TimeAgo {
    if seconds < Minute then JustNow
    else if seconds < Hour then MinutesAgo(seconds / Minute)
    else if seconds < Day then HoursAgo(seconds / Hour)
    else if seconds < Week then DaysAgo(seconds / Day)
    else WeeksAgo(seconds / Week)
  }

  /** The text `formatTimeAgo(timestamp)` returns at time `now`. */
  function FormatTimeAgo(now: int, timestamp: int): string {
    Label(Bucket(ElapsedSeconds(now, timestamp)))
  }

  /** The text shown for a bucket. */
  function Label(b: TimeAgo): string
    requires !b.JustNow? ==> b.n >= 0
  {
    match b
    case JustNow => "Just now"
    case MinutesAgo(n) => Utils.NatToString(n) + "m ago"
    case HoursAgo(n) => Utils.NatToString(n) + "h ago"
    case DaysAgo(n) => Utils.NatToString(n) + "d ago"
    case WeeksAgo(n) => Utils.NatToString(n) + "w ago"
  }

  /** Each bucket holds exactly its range of seconds: the five ranges cover
      every elapsed time and never overlap. */
  lemma BucketRanges(seconds: int)
    ensures Bucket(seconds).JustNow? <==> seconds < 60
    ensures Bucket(seconds).MinutesAgo? <==> 60 <= seconds < 3600
    ensures Bucket(seconds).HoursAgo? <==> 3600 <= seconds < 86400
    ensures Bucket(seconds).DaysAgo? <==> 86400 <= seconds < 604800
    ensures Bucket(seconds).WeeksAgo? <==> 604800 <= seconds
  {
  }

  /** The number shown is at least one and below the next unit: minutes
      1..59, hours 1..23, days 1..6, weeks at least 1. */
  lemma BucketNumbers(seconds: int)
    ensures Bucket(seconds).MinutesAgo? ==> 1 <= Bucket(seconds).n <= 59
    ensures Bucket(seconds).HoursAgo? ==> 1 <= Bucket(seconds).n <= 23
    ensures Bucket(seconds).DaysAgo? ==> 1 <= Bucket(seconds).n <= 6
    ensures Bucket(seconds).WeeksAgo? ==> 1 <= Bucket(seconds).n
  {
  }

  /** The number is the elapsed time in its unit, rounded down. */
  lemma BucketRoundsDown(seconds: int)
    ensures var b := Bucket(seconds);
      && (b.MinutesAgo? ==> b.n * 60 <= seconds < (b.n + 1) * 60)
      && (b.HoursAgo? ==> b.n * 3600 <= seconds < (b.n + 1) * 3600)
      && (b.DaysAgo? ==> b.n * 86400 <= seconds < (b.n + 1) * 86400)
      && (b.WeeksAgo? ==> b.n * 604800 <= seconds < (b.n + 1) * 604800)
  {
  }

  /** A view less than a minute ago, or stamped in the future, shows
      "Just now". */
  lemma RecentOrFutureIsJustNow(now: int, timestamp: int)
    requires timestamp > now - 60000
    ensures FormatTimeAgo(now, timestamp) == "Just now"
  {
    assert now - timestamp < 60000;
  }

  /** The elapsed seconds round the elapsed milliseconds down. */
  lemma ElapsedSecondsRoundsDown(now: int, timestamp: int)
    ensures ElapsedSeconds(now, timestamp) * 1000 <= now - timestamp < (ElapsedSeconds(now, timestamp) + 1) * 1000
  {
  }

  /** "Just now" is shown exactly for the first bucket; any other label is
      its number's decimal digits followed by the unit and " ago". */
  lemma FormatShape(now: int, timestamp: int)
    ensures var b := Bucket(ElapsedSeconds(now, timestamp));
      && (FormatTimeAgo(now, timestamp) == "Just now" <==> b.JustNow?)
      && (!b.JustNow? ==> var s := FormatTimeAgo(now, timestamp);
            |s| > 5 && s[|s| - 4..] == " ago" && Utils.AllDigits(s[..|s| - 5])
            && Utils.Value(s[..|s| - 5]) == b.n
            && s[|s| - 5] == (if b.MinutesAgo? then 'm' else if b.HoursAgo? then 'h'
                              else if b.DaysAgo? then 'd' else 'w'))
  {
    var b := Bucket(ElapsedSeconds(now, timestamp));
    BucketNumbers(ElapsedSeconds(now, timestamp));
    LabelOfBucket(b);
  }

  /** The label of a bucket whose number is at least one. */
  lemma LabelOfBucket(b: TimeAgo)
    requires !b.JustNow? ==> b.n >= 1
    ensures (Label(b) == "Just now" <==> b.JustNow?)
    ensures !b.JustNow? ==> var s := Label(b);
      |s| > 5 && s[|s| - 4..] == " ago" && Utils.AllDigits(s[..|s| - 5])
      && Utils.Value(s[..|s| - 5]) == b.n
      && s[|s| - 5] == (if b.MinutesAgo? then 'm' else if b.HoursAgo? then 'h'
                        else if b.DaysAgo? then 'd' else 'w')
  {
    match b
    case JustNow =>
    case MinutesAgo(n) => LabelShape(n, "m ago");
    case HoursAgo(n) => LabelShape(n, "h ago");
    case DaysAgo(n) => LabelShape(n, "d ago");
    case WeeksAgo(n) => LabelShape(n, "w ago");
  }

  /** A number followed by a unit letter and " ago" is not "Just now", and
      its digits and unit can be read back. */
  lemma LabelShape(n: nat, suffix: string)
    requires |suffix| == 5 && suffix[1..] == " ago"
    ensures var s := Utils.NatToString(n) + suffix;
      && s != "Just now"
      && |s| > 5 && s[|s| - 4..] == " ago" && s[|s| - 5] == suffix[0]
      && Utils.AllDigits(s[..|s| - 5]) && Utils.Value(s[..|s| - 5]) == n
  {
    var digits := Utils.NatToString(n);
    var s := digits + suffix;
    assert s[..|s| - 5] == digits;
    assert s[|s| - 4..] == suffix[1..];
    assert s[0] == digits[0];
    assert s[0] != "Just now"[0];
  }
}
