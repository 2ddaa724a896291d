/**
 * `getRelativeTime`: the age of a notification's `updated_at` timestamp,
 * turned into a short phrase by an ordered chain of thresholds.
 *
 * The clock is not modelled. The function receives what the date library
 * computes from the current time and the timestamp: the elapsed minutes
 * and the elapsed whole days, each truncated on its own, and the weekday
 * of the timestamp.
 */
module RelativeTime {
  import Text

  /** The weekday of the timestamp, as the English day-of-week format names it. */
  datatype Weekday = Sunday | Monday | Tuesday | Wednesday | Thursday | Friday | Saturday

  /**
   * A notification's `updated_at` as the date library sees it against the
   * current time: the two truncated differences and the weekday, or an
   * invalid date (a null, empty or unparsable timestamp) whose differences
   * are not numbers. An undefined timestamp reads as the current time, that
   * is, as `Elapsed(0, 0, w)`.
   */
  datatype Age =
    | Elapsed(diffMinutes: int, diffDays: int, weekday: Weekday)
    | InvalidDate

  /** The phrases the formatter produces, one constructor per return statement. */
  datatype Phrase =
    | JustNow
    | FewMinutesAgo
    | MinutesAgo(minutes: nat)
    | HoursAgo(hours: nat)
    | Yesterday
    | LastWeekday(weekday: Weekday)
    | LongTimeAgo

  const MinutesPerHour: int := 60
  const MinutesPerDay: int := 60 * 24

  /**
   * The bucket table stated without an order: for each phrase, the inputs
   * it stands for. The hour count is pinned by bounds, not by a division.
   */
  ghost predicate Describes(p: Phrase, diffMinutes: int, diffDays: int, weekday: Weekday) {
    match p
    case JustNow => diffMinutes < 1
    case FewMinutesAgo => 1 <= diffMinutes < 5
    case MinutesAgo(n) => 5 <= diffMinutes < MinutesPerHour && n == diffMinutes
    case HoursAgo(h) =>
      MinutesPerHour <= diffMinutes < MinutesPerDay
      && MinutesPerHour * h <= diffMinutes < MinutesPerHour * (h + 1)
    case Yesterday => diffMinutes >= MinutesPerDay && diffDays == 1
    case LastWeekday(w) => diffMinutes >= MinutesPerDay && diffDays != 1 && diffDays <= 7 && w == weekday
    case LongTimeAgo => diffMinutes >= MinutesPerDay && diffDays > 7
  }

  /** The formatter: thresholds checked in order, first match wins. */
  function RelativeTime(diffMinutes: int, diffDays: int, weekday: Weekday): (p: Phrase)
    ensures Describes(p, diffMinutes, diffDays, weekday)
    ensures p.MinutesAgo? ==> 5 <= p.minutes < 60
    ensures p.HoursAgo? ==> 1 <= p.hours <= 23
  {
    if diffMinutes < 1 then JustNow
    else if diffMinutes < 5 then FewMinutesAgo
    else if diffMinutes < MinutesPerHour then MinutesAgo(diffMinutes)
    else if diffMinutes < MinutesPerDay then HoursAgo(diffMinutes / MinutesPerHour)
    else if diffDays == 1 then Yesterday
    else if diffDays <= 7 then LastWeekday(weekday)
    else LongTimeAgo
  }

  /**
   * The formatter applied to a timestamp. Every comparison with a
   * difference that is not a number is false, so an invalid date falls
   * through all the tests to the last phrase.
   */
  function PhraseOf(a: Age): (p: Phrase)
    ensures a.Elapsed? ==> Describes(p, a.diffMinutes, a.diffDays, a.weekday)
    ensures a.InvalidDate? ==> p == LongTimeAgo
  {
    match a
    case Elapsed(diffMinutes, diffDays, weekday) => RelativeTime(diffMinutes, diffDays, weekday)
    case InvalidDate => LongTimeAgo
  }

  /** The buckets do not overlap: a phrase that describes the inputs is the one returned. */
  lemma DescribesOnlyResult(p: Phrase, diffMinutes: int, diffDays: int, weekday: Weekday)
    requires Describes(p, diffMinutes, diffDays, weekday)
    ensures p == RelativeTime(diffMinutes, diffDays, weekday)
  {
  }

  /** Under a day, the day difference and the weekday are never consulted. */
  lemma DaysIgnoredWithinADay(diffMinutes: int, d1: int, w1: Weekday, d2: int, w2: Weekday)
    requires diffMinutes < MinutesPerDay
    ensures RelativeTime(diffMinutes, d1, w1) == RelativeTime(diffMinutes, d2, w2)
  {
  }

  /** From a day on, only the day difference and the weekday are consulted. */
  lemma MinutesIgnoredFromADay(m1: int, m2: int, diffDays: int, weekday: Weekday)
    requires m1 >= MinutesPerDay && m2 >= MinutesPerDay
    ensures RelativeTime(m1, diffDays, weekday) == RelativeTime(m2, diffDays, weekday)
  {
  }

  /**
   * The weekday check is `diffDays <= 7` alone: a day difference of zero or
   * less, possible once a full day of minutes has passed, names a weekday.
   */
  lemma NonPositiveDaysNameAWeekday(diffMinutes: int, diffDays: int, weekday: Weekday)
    requires diffMinutes >= MinutesPerDay && diffDays <= 0
    ensures RelativeTime(diffMinutes, diffDays, weekday) == LastWeekday(weekday)
  {
  }

  /** Coarseness of a phrase: later buckets stand for older timestamps. */
  function Rank(p: Phrase): nat {
    match p
    case JustNow => 0
    case FewMinutesAgo => 1
    case MinutesAgo(_) => 2
    case HoursAgo(_) => 3
    case _ => 4
  }

  /** `p` reads as no older than `q`. */
  predicate NoOlder(p: Phrase, q: Phrase) {
    Rank(p) < Rank(q)
    || p == q
    || (p.MinutesAgo? && q.MinutesAgo? && p.minutes <= q.minutes)
    || (p.HoursAgo? && q.HoursAgo? && p.hours <= q.hours)
  }

  /** More elapsed minutes never give a phrase that reads as more recent. */
  lemma OlderReadsOlder(m1: int, m2: int, diffDays: int, weekday: Weekday)
    requires m1 <= m2
    ensures NoOlder(RelativeTime(m1, diffDays, weekday), RelativeTime(m2, diffDays, weekday))
  {
  }

  function WeekdayName(w: Weekday): string {
    match w
    case Sunday => "Sunday"
    case Monday => "Monday"
    case Tuesday => "Tuesday"
    case Wednesday => "Wednesday"
    case Thursday => "Thursday"
    case Friday => "Friday"
    case Saturday => "Saturday"
  }

  const MinutesSuffix: string := " minutes ago"
  const HoursSuffix: string := " hours ago"

  lemma WeekdayNameInjective(v: Weekday, w: Weekday)
    requires WeekdayName(v) == WeekdayName(w)
    ensures v == w
  {
  }

  /**
   * The text the source returns for each phrase. What tells the texts apart:
   * the numeric ones start with a digit and the others with a fixed letter,
   * and minutes and hours differ ten characters from the end.
   */
  function Render(p: Phrase): (s: string)
    ensures |s| >= 8
    ensures p.MinutesAgo? ==> |s| > |MinutesSuffix|
    ensures p.HoursAgo? ==> |s| > |HoursSuffix|
    ensures (p.MinutesAgo? || p.HoursAgo?) <==> Text.IsDigit(s[0])
    ensures p.MinutesAgo? ==>
      s[..|s| - |MinutesSuffix|] == Text.Decimal(p.minutes) && s[|s| - |MinutesSuffix|..] == MinutesSuffix
    ensures p.HoursAgo? ==>
      s[..|s| - |HoursSuffix|] == Text.Decimal(p.hours) && s[|s| - |HoursSuffix|..] == HoursSuffix
    ensures p.MinutesAgo? ==> s[|s| - 10] == 'i'
    ensures p.HoursAgo? ==> s[|s| - 10] == ' '
    ensures p.JustNow? ==> s == "Just now"
    ensures p.FewMinutesAgo? ==> s == "Few minutes ago"
    ensures p.Yesterday? ==> s == "Yesterday"
    ensures p.LongTimeAgo? ==> s == "Long time ago"
    ensures p.JustNow? <==> s[0] == 'J'
    ensures p.FewMinutesAgo? <==> s[0] == 'F'
    ensures p.Yesterday? <==> s[0] == 'Y'
    ensures p.LastWeekday? <==> s[..2] == "La"
    ensures p.LastWeekday? ==> s[..5] == "Last " && s[5..] == WeekdayName(p.weekday)
    ensures p.LongTimeAgo? <==> s[..2] == "Lo"
  {
    match p
    case JustNow => "Just now"
    case FewMinutesAgo => "Few minutes ago"
    case MinutesAgo(n) =>
      var s := Text.Decimal(n) + MinutesSuffix;
      assert s[|s| - 10] == MinutesSuffix[2];
      s
    case HoursAgo(h) =>
      var s := Text.Decimal(h) + HoursSuffix;
      assert s[|s| - 10] == HoursSuffix[0];
      s
    case Yesterday => "Yesterday"
    case LastWeekday(w) =>
      var s := "Last " + WeekdayName(w);
      assert s[..5] == "Last ";
      assert s[..2] == ['L', 'a'];
      s
    case LongTimeAgo =>
      var s := "Long time ago";
      assert s[..2] == ['L', 'o'];
      s
  }

  /** No two phrases render to the same text, so the phrase datatype loses nothing. */
  lemma RenderInjective(p: Phrase, q: Phrase)
    requires Render(p) == Render(q)
    ensures p == q
  {
    match p
    case MinutesAgo(n) =>
      Text.DecimalInjective(n, q.minutes);
    case HoursAgo(h) =>
      Text.DecimalInjective(h, q.hours);
    case LastWeekday(w) =>
      WeekdayNameInjective(w, q.weekday);
    case _ =>
  }
}
