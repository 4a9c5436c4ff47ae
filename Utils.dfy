/** The view helpers of the front end: the relative-time caption `formatDistanceToNow`
    and the status-to-colour mapping `getTaskStatusColors`. Clock readings and the
    result of parsing a date string are parameters (milliseconds since the epoch). */
module Utils {
  import opened Wrappers
  import opened Text

  // ---------------------------------------------------------------------------
  // formatDistanceToNow
  // ---------------------------------------------------------------------------

  function Abs(i: int): (r: nat)
    ensures r == i || r == -i
  {
    if i < 0 then -i else i
  }

  /** `Math.round(x / d)` over the integers: the integer nearest to `x / d`, with a
      half rounded up (towards positive infinity), as `Math.round` does. */
  function RoundDiv(x: int, d: nat): (r: int)
    requires d > 0
    ensures 2 * d * r <= 2 * x + d < 2 * d * (r + 1)
  {
    (2 * x + d) / (2 * d)
  }

  /** The elapsed whole seconds between a date and the clock reading `now`, both in
      milliseconds: the absolute value of the rounded difference. */
  function ElapsedSeconds(dateMs: int, nowMs: int): nat {
    Abs(RoundDiv(nowMs - dateMs, 1000))
  }

  /** The unit `formatDistanceToNow` chooses, with its count. */
  datatype Distance = Seconds(n: nat) | Minutes(n: nat) | Hours(n: nat) | Days(n: nat)

  /** The cascade of the helper: seconds under a minute, then each unit the rounded
      quotient of the previous one until it is under the next unit. */
  function Bucket(seconds: nat): (d: Distance)
    ensures d.Seconds? <==> seconds < 60
    ensures d.Seconds? ==> d.n == seconds
    ensures d.Minutes? ==> 1 <= d.n <= 59 && d.n == RoundDiv(seconds, 60)
    ensures d.Hours? ==> 1 <= d.n <= 23 && d.n == RoundDiv(RoundDiv(seconds, 60), 60)
    ensures d.Days? ==> 1 <= d.n && d.n == RoundDiv(RoundDiv(RoundDiv(seconds, 60), 60), 24)
  {
    if seconds < 60 then Seconds(seconds)
    else
      var minutes := RoundDiv(seconds, 60);
      if minutes < 60 then Minutes(minutes)
      else
        var hours := RoundDiv(minutes, 60);
        if hours < 24 then Hours(hours)
        else Days(RoundDiv(hours, 24))
  }

  /** The caption for a distance: the count in decimal and a plural unit, always
      followed by ` ago` (`1 seconds ago` included). */
  function Render(d: Distance): string {
    NatToString(d.n) + UnitText(d)
  }

  /** `formatDistanceToNow(dateString)`. `dateMs` is `new Date(dateString).getTime()`,
      `None` when it is not a valid date (`NaN`): every comparison with `NaN` is false,
      so the cascade falls through to the days branch and prints `NaN`. */
  function FormatDistanceToNow(dateString: Option<string>, dateMs: Option<int>, nowMs: int): (r: string)
    ensures r == "-" <==> dateString.None? || dateString.value == ""
  {
    if dateString.None? || dateString.value == "" then "-"
    else if dateMs.None? then "NaN days ago"
    else Render(Bucket(ElapsedSeconds(dateMs.value, nowMs)))
  }

  // ---------------------------------------------------------------------------
  // Properties of formatDistanceToNow
  // ---------------------------------------------------------------------------

  /** The unit as a function of the elapsed seconds alone: the rounding of each step
      moves the thresholds to half a unit below the next unit. */
  lemma BucketThresholds(seconds: nat)
    ensures Bucket(seconds).Seconds? <==> seconds < 60
    ensures Bucket(seconds).Minutes? <==> 60 <= seconds < 3570
    ensures Bucket(seconds).Hours? <==> 3570 <= seconds < 84570
    ensures Bucket(seconds).Days? <==> 84570 <= seconds
  {
    var minutes := RoundDiv(seconds, 60);
    assert minutes < 60 <==> seconds < 3570;
    assert minutes < 1410 <==> seconds < 84570;
    if minutes >= 60 {
      assert RoundDiv(minutes, 60) < 24 <==> minutes < 1410;
    }
  }

  /** The unit never gets smaller as more time elapses. */
  lemma BucketMonotone(s1: nat, s2: nat)
    requires s1 <= s2
    ensures UnitRank(Bucket(s1)) <= UnitRank(Bucket(s2))
  {
    BucketThresholds(s1);
    BucketThresholds(s2);
  }

  function UnitRank(d: Distance): nat {
    match d
    case Seconds(_) => 0
    case Minutes(_) => 1
    case Hours(_) => 2
    case Days(_) => 3
  }

  /** Every caption other than `-` ends in ` ago`, after a plural unit. */
  lemma CaptionEndsWithAgo(dateString: Option<string>, dateMs: Option<int>, nowMs: int)
    ensures var r := FormatDistanceToNow(dateString, dateMs, nowMs);
      r != "-" ==> EndsWith(r, " ago") && EndsWith(r, "s ago")
  {
    var r := FormatDistanceToNow(dateString, dateMs, nowMs);
    if r != "-" && dateMs.None? {
      assert r == "NaN day" + "s ago";
    } else if r != "-" {
      var d := Bucket(ElapsedSeconds(dateMs.value, nowMs));
      var unit := UnitText(d);
      assert r == NatToString(d.n) + unit;
      assert r[|r| - 5..] == unit[|unit| - 5..];
    }
  }

  /** The caption reads `<n> seconds ago` exactly when fewer than 60 seconds elapsed,
      and `n` is then the elapsed seconds. */
  lemma SecondsCaptionExactly(dateString: string, dateMs: int, nowMs: int)
    requires dateString != ""
    ensures var s := ElapsedSeconds(dateMs, nowMs);
      (FormatDistanceToNow(Some(dateString), Some(dateMs), nowMs) == NatToString(s) + " seconds ago")
      <==> s < 60
  {
    var s := ElapsedSeconds(dateMs, nowMs);
    RenderInjective(Bucket(s), Seconds(s));
  }

  /** Different distances give different captions, so the caption determines the unit
      and the count. */
  lemma RenderInjective(d1: Distance, d2: Distance)
    ensures Render(d1) == Render(d2) ==> d1 == d2
  {
    if Render(d1) == Render(d2) {
      var u1, u2 := UnitText(d1), UnitText(d2);
      assert u1[0] == ' ' && u2[0] == ' ';
      DigitPrefixUnique(NatToString(d1.n), u1, NatToString(d2.n), u2);
      NatToStringInjective(d1.n, d2.n);
    }
  }

  function UnitText(d: Distance): string {
    match d
    case Seconds(_) => " seconds ago"
    case Minutes(_) => " minutes ago"
    case Hours(_) => " hours ago"
    case Days(_) => " days ago"
  }

  /** Because of the absolute value a date in the future reads like a date equally far
      in the past; the one exception is an exact half second, which `Math.round`
      rounds up on both sides. */
  lemma ElapsedSymmetric(nowMs: int, k: int)
    ensures ElapsedSeconds(nowMs - k, nowMs) == ElapsedSeconds(nowMs + k, nowMs) <==> k % 1000 != 500
  {
    var q, r := k / 1000, k % 1000;
    assert k == 1000 * q + r;
    assert nowMs - (nowMs - k) == k;
    assert nowMs - (nowMs + k) == -k;
    if r < 500 {
      assert RoundDiv(k, 1000) == q;
      assert RoundDiv(-k, 1000) == -q;
    } else if r == 500 {
      assert RoundDiv(k, 1000) == q + 1;
      assert RoundDiv(-k, 1000) == -q;
    } else {
      assert RoundDiv(k, 1000) == q + 1;
      assert RoundDiv(-k, 1000) == -q - 1;
    }
  }

  // ---------------------------------------------------------------------------
  // getTaskStatusColors
  // ---------------------------------------------------------------------------

  /** The four statuses the pages know. */
  predicate IsKnownStatus(status: string) {
    status == "AVAILABLE" || status == "CLAIMED" || status == "COMPLETED" || status == "FAILED"
  }

  const GrayColors := "bg-gray-100 text-gray-800 dark:bg-gray-700 dark:text-gray-300"

  /** `getTaskStatusColors`: blue, yellow, green and red badges for the four statuses,
      gray for everything else. */
  function StatusColors(status: string): (r: string)
    ensures r == GrayColors <==> !IsKnownStatus(status)
  {
    match status
    case "AVAILABLE" => "bg-blue-100 text-blue-800 dark:bg-blue-900 dark:text-blue-300"
    case "CLAIMED" => "bg-yellow-100 text-yellow-800 dark:bg-yellow-900 dark:text-yellow-300"
    case "COMPLETED" => "bg-green-100 text-green-800 dark:bg-green-900 dark:text-green-300"
    case "FAILED" => "bg-red-100 text-red-800 dark:bg-red-900 dark:text-red-300"
    case _ => GrayColors
  }

  /** The four known statuses get four different colour sets. */
  lemma StatusColorsDistinct(a: string, b: string)
    requires IsKnownStatus(a) && IsKnownStatus(b) && a != b
    ensures StatusColors(a) != StatusColors(b)
  {
    ColourLength(a);
    ColourLength(b);
  }

  /** The colour name occurs four times in each set, and the four names have different
      lengths, so the four sets have different lengths. */
  lemma ColourLength(status: string)
    requires IsKnownStatus(status)
    ensures |StatusColors(status)| ==
      if status == "AVAILABLE" then 61 else if status == "CLAIMED" then 69
      else if status == "COMPLETED" then 65 else 57
  {
  }
}
