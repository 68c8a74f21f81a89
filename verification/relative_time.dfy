/** `formatRelativeTime` of frontend/src/components/ChatList.tsx. The clock
    reading `Date.now()`, the parsed time `new Date(dateStr).getTime()`
    (None when the string does not parse, JavaScript's NaN) and the
    locale-formatted date are parameters. */
module RelativeTime {
  import opened Wrappers
  import Text

  const Minute: int := 60
  const Hour: int := 3600
  const Day: int := 86400
  const Week: int := 604800

  /** `Math.floor((now - then) / 1000)`: the elapsed whole seconds, rounded
      down also for dates in the future. */
  function DiffSec(nowMs: int, thenMs: int): (r: int)
    ensures r * 1000 <= nowMs - thenMs < r * 1000 + 1000
  {
    (nowMs - thenMs) / 1000
  }

  datatype Bucket = JustNow | MinutesAgo(minutes: nat) | HoursAgo(hours: nat) | DaysAgo(days: nat) | Older

  /** The if-chain on `diffSec`: each bucket covers one range, the counts
      stay within their unit, and every difference lands in exactly one. */
  function Classify(diffSec: int): (b: Bucket)
    ensures b == JustNow <==> diffSec < Minute
    ensures b.MinutesAgo? <==> Minute <= diffSec < Hour
    ensures b.HoursAgo? <==> Hour <= diffSec < Day
    ensures b.DaysAgo? <==> Day <= diffSec < Week
    ensures b == Older <==> Week <= diffSec
    ensures b.MinutesAgo? ==> 1 <= b.minutes <= 59 && b.minutes * Minute <= diffSec < (b.minutes + 1) * Minute
    ensures b.HoursAgo? ==> 1 <= b.hours <= 23 && b.hours * Hour <= diffSec < (b.hours + 1) * Hour
    ensures b.DaysAgo? ==> 1 <= b.days <= 6 && b.days * Day <= diffSec < (b.days + 1) * Day
  {
    if diffSec < Minute then JustNow
    else if diffSec < Hour then MinutesAgo(diffSec / Minute)
    else if diffSec < Day then HoursAgo(diffSec / Hour)
    else if diffSec < Week then DaysAgo(diffSec / Day)
    else Older
  }

  /** The label of a bucket: the count in decimal followed by its unit, or
      "just now", or the locale date for anything older than a week. */
  function Render(b: Bucket, localeDate: string): (r: string)
    ensures b.JustNow? ==> r == "just now"
    ensures b.Older? ==> r == localeDate
    ensures b.MinutesAgo? ==> Labels(r, b.minutes, "m ago")
    ensures b.HoursAgo? ==> Labels(r, b.hours, "h ago")
    ensures b.DaysAgo? ==> Labels(r, b.days, "d ago")
  {
    match b
    case JustNow => "just now"
    case MinutesAgo(n) => Text.NatToString(n) + "m ago"
    case HoursAgo(n) => Text.NatToString(n) + "h ago"
    case DaysAgo(n) => Text.NatToString(n) + "d ago"
    case Older => localeDate
  }

  /** `r` is a decimal count with no leading zero denoting `n`, followed by `unit`. */
  predicate Labels(r: string, n: nat, unit: string) {
    |r| > |unit| && r[|r| - |unit|..] == unit &&
    Text.AllDigits(r[..|r| - |unit|]) && Text.DigitsValue(r[..|r| - |unit|]) == n &&
    (r[0] == '0' ==> r[..|r| - |unit|] == "0")
  }

  function FormatRelativeTime(dateStr: Option<string>, nowMs: int, thenMs: Option<int>, localeDate: string): (r: string)
    // an absent or empty date shows nothing
    ensures dateStr.None? || dateStr.value == "" ==> r == ""
    // an unparsable date fails every comparison and falls through to the locale date
    ensures dateStr.Some? && dateStr.value != "" && thenMs.None? ==> r == localeDate
    ensures dateStr.Some? && dateStr.value != "" && thenMs.Some? ==>
              r == Render(Classify(DiffSec(nowMs, thenMs.value)), localeDate)
  {
    if dateStr.None? || dateStr.value == "" then ""
    else match thenMs
      case None => localeDate
      case Some(t) => Render(Classify(DiffSec(nowMs, t)), localeDate)
  }

  /** A date less than a minute old, or in the future, is "just now". */
  lemma RecentIsJustNow(dateStr: string, nowMs: int, thenMs: int, localeDate: string)
    requires dateStr != "" && thenMs > nowMs - 60000
    ensures FormatRelativeTime(Some(dateStr), nowMs, Some(thenMs), localeDate) == "just now"
  {
    var d := DiffSec(nowMs, thenMs);
    assert d * 1000 < 60000;
  }

  /** The relative forms never fall back to the locale date: up to a week
      the label ends with its unit. */
  lemma WithinWeekLabel(dateStr: string, nowMs: int, thenMs: int, localeDate: string)
    requires dateStr != "" && nowMs - thenMs < 604800000
    ensures var r := FormatRelativeTime(Some(dateStr), nowMs, Some(thenMs), localeDate);
            r == "just now" ||
            (|r| > 5 && r[|r| - 5..] in {"m ago", "h ago", "d ago"} &&
             forall i :: 0 <= i < |r| - 5 ==> '0' <= r[i] <= '9')
  {
    var d := DiffSec(nowMs, thenMs);
    assert d * 1000 < 604800000;
    var b := Classify(d);
    if !b.JustNow? {
      var n := match b case MinutesAgo(m) => m case HoursAgo(h) => h case DaysAgo(x) => x case _ => 0;
      var digits := Text.NatToString(n);
      var r := Render(b, localeDate);
      assert r == digits + r[|digits|..];
      assert |r| == |digits| + 5;
      assert r[|r| - 5..] == r[|digits|..];
    }
  }
}
