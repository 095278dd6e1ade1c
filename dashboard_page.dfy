/**
 * The pure helpers of the dashboard page: the relative-time text of an
 * activity and the icon and colours chosen for its type.
 */
module DashboardPage {
  import opened Base
  import opened Js
  import opened Server

  // ---------------------------------------------------------------- getTimeAgo

  /** The bucket a time difference falls into. */
  datatype Ago = JustNow | Minutes(n: nat) | Hours(n: nat) | Days(n: nat) | NotANumber

  const MinuteMs := 60_000
  const HourMs := 3_600_000
  const DayMs := 86_400_000

  /**
   * The bucket of `now - new Date(createdAt)` in milliseconds, `None` when the
   * date does not parse and the difference is NaN. Every comparison with NaN
   * is false, so NaN runs through to the days branch. The buckets are
   * contiguous: under a minute (a difference into the future included), whole
   * minutes up to 59, whole hours up to 23, then whole days.
   */
  function Bucket(diffInMs: Option<int>): (a: Ago)
    ensures a == NotANumber <==> diffInMs == None
    ensures diffInMs.Some? ==> var ms := diffInMs.value;
      && (a == JustNow <==> ms < MinuteMs)
      && (a.Minutes? <==> MinuteMs <= ms < HourMs)
      && (a.Hours? <==> HourMs <= ms < DayMs)
      && (a.Days? <==> DayMs <= ms)
    ensures a.Minutes? ==> a.n == diffInMs.value / MinuteMs && 1 <= a.n <= 59
    ensures a.Hours? ==> a.n == diffInMs.value / HourMs && 1 <= a.n <= 23
    ensures a.Days? ==> a.n == diffInMs.value / DayMs && a.n >= 1
  {
    match diffInMs
    case None => NotANumber
    case Some(ms) =>
      var minutes := ms / MinuteMs;
      if minutes < 1 then JustNow
      else if minutes < 60 then Minutes(minutes)
      else
        var hours := minutes / 60;
        if hours < 24 then Hours(hours) else Days(hours / 24)
  }

  /** `` ` ${unit}${n > 1 ? 's' : ''} ago` ``: the text after the number. */
  function UnitTail(unit: string, n: nat): string {
    " " + unit + (if n > 1 then "s" else "") + " ago"
  }

  /** The text shown for a bucket; NaN prints as `NaN` and is not above 1. */
  function Render(a: Ago): string {
    match a
    case JustNow => "Just now"
    case Minutes(n) => NatToString(n) + UnitTail("minute", n)
    case Hours(n) => NatToString(n) + UnitTail("hour", n)
    case Days(n) => NatToString(n) + UnitTail("day", n)
    case NotANumber => "NaN day ago"
  }

  /** `getTimeAgo`, given the difference in milliseconds. */
  function GetTimeAgo(diffInMs: Option<int>): string {
    Render(Bucket(diffInMs))
  }

  /** Reads a relative-time text back into its bucket. */
  function ReadAgo(s: string): Option<Ago> {
    if s == "Just now" then Some(JustNow)
    else if s == "NaN day ago" then Some(NotANumber)
    else
      var k := DigitRun(s, 10);
      if k == 0 then None
      else
        var n := NumeralValue(s[..k], 10);
        var rest := s[k..];
        if rest == UnitTail("minute", n) then Some(Minutes(n))
        else if rest == UnitTail("hour", n) then Some(Hours(n))
        else if rest == UnitTail("day", n) then Some(Days(n))
        else None
  }

  /** The digits of a number end where its unit begins. */
  lemma DigitRunOfNumber(n: nat, tail: string)
    requires tail != [] && tail[0] == ' '
    ensures DigitRun(NatToString(n) + tail, 10) == |NatToString(n)|
    ensures (NatToString(n) + tail)[..|NatToString(n)|] == NatToString(n)
    ensures (NatToString(n) + tail)[|NatToString(n)|..] == tail
  {
    DigitRunPrefix(NatToString(n), tail);
  }

  lemma {:induction false} DigitRunPrefix(p: string, tail: string)
    requires AllDigits(p, 10) && tail != [] && tail[0] == ' '
    ensures DigitRun(p + tail, 10) == |p|
  {
    if p != [] {
      assert (p + tail)[1..] == p[1..] + tail;
      DigitRunPrefix(p[1..], tail);
    }
  }

  /** The text determines the bucket: reading back what is shown gives the bucket. */
  lemma ReadRender(a: Ago)
    ensures ReadAgo(Render(a)) == Some(a)
  {
    match a
    case JustNow =>
    case NotANumber =>
    case Minutes(n) => ReadNumbered(n, "minute");
    case Hours(n) => ReadNumbered(n, "hour");
    case Days(n) => ReadNumbered(n, "day");
  }

  lemma ReadNumbered(n: nat, unit: string)
    requires unit == "minute" || unit == "hour" || unit == "day"
    ensures ReadAgo(NatToString(n) + UnitTail(unit, n)) ==
      Some(if unit == "minute" then Minutes(n) else if unit == "hour" then Hours(n) else Days(n))
  {
    var s := NatToString(n) + UnitTail(unit, n);
    DigitRunOfNumber(n, UnitTail(unit, n));
    NatToStringRoundTrip(n);
    assert IsRadixDigit(s[0], 10);
    assert s != "Just now" && s != "NaN day ago" by {
      assert s[0] != 'J' && s[0] != 'N';
    }
  }

  /** Two buckets show the same text only if they are the same bucket. */
  lemma RenderInjective(a: Ago, b: Ago)
    requires Render(a) == Render(b)
    ensures a == b
  {
    ReadRender(a);
    ReadRender(b);
  }

  /** Exactly one hour reads "1 hour ago", not "60 minutes ago". */
  lemma OneHour()
    ensures GetTimeAgo(Some(HourMs)) == "1 hour ago"
  {
    assert NatToString(1) == "1";
  }

  /** A date that does not parse reads "NaN day ago". */
  lemma UnparsableDate()
    ensures GetTimeAgo(None) == "NaN day ago"
  {
  }

  /** One minute is singular. */
  lemma OneMinute()
    ensures GetTimeAgo(Some(MinuteMs)) == "1 minute ago"
  {
    assert NatToString(1) == "1";
  }

  /** Two minutes are plural. */
  lemma TwoMinutes()
    ensures GetTimeAgo(Some(2 * MinuteMs)) == "2 minutes ago"
  {
    assert NatToString(2) == "2";
  }

  // ---------------------------------------------------------------- activityStyles

  datatype Icon = PieChartIcon | CreditCardIcon

  datatype Style = Style(icon: Icon, iconClass: string, bg: string)

  /** The grey style used for a type the table does not list. */
  function Fallback(): Style {
    Style(PieChartIcon, "text-gray-600 dark:text-gray-300", "bg-gray-100 dark:bg-gray-700")
  }

  /** `activityStyles[type] || fallback`. */
  function StyleFor(kind: string): Style {
    if kind == "book_added" then Style(PieChartIcon, "text-pink-600 dark:text-pink-300", "bg-pink-100 dark:bg-pink-900")
    else if kind == "book_updated" then Style(PieChartIcon, "text-blue-600 dark:text-blue-300", "bg-blue-100 dark:bg-blue-900")
    else if kind == "book_deleted" then Style(PieChartIcon, "text-red-600 dark:text-red-300", "bg-red-100 dark:bg-red-900")
    else if kind == "order_received" then Style(CreditCardIcon, "text-green-600 dark:text-green-300", "bg-green-100 dark:bg-green-900")
    else if kind == "order_deleted" then Style(CreditCardIcon, "text-red-600 dark:text-red-300", "bg-red-100 dark:bg-red-900")
    else Fallback()
  }

  /** The types the table lists. */
  function StyledKinds(): set<string> {
    {"book_added", "book_updated", "book_deleted", "order_received", "order_deleted"}
  }

  /** A type gets the grey style exactly when the table does not list it. */
  lemma FallbackIffUnlisted(kind: string)
    ensures StyleFor(kind) == Fallback() <==> kind !in StyledKinds()
  {
  }

  /** Of the types the server writes, only `order_updated` falls back to grey. */
  lemma OnlyOrderUpdatedFallsBack(t: ActivityType)
    ensures StyleFor(TypeName(t)) == Fallback() <==> t == OrderUpdated
  {
    FallbackIffUnlisted(TypeName(t));
  }

  /** Book changes show the pie-chart icon and order changes the credit-card icon. */
  lemma IconFollowsEntity(t: ActivityType)
    ensures t != OrderUpdated ==>
      (StyleFor(TypeName(t)).icon == PieChartIcon <==> t in {BookAdded, BookUpdated, BookDeleted})
  {
  }
}
