/**
 * The web client's small helpers (walletpoint/www/js/utils.js): text
 * truncation, the null/undefined default, the relative-time wording and
 * the localStorage read that falls back to the raw string.
 */
module FeUtils {
  import opened Wrappers

  /** A JavaScript value that may be null or undefined. */
  datatype JsValue<T> = Null | Undefined | Defined(value: T)

  /** truncate: '' for an empty text, the text when it fits, else a prefix and "...". */
  function Truncate(text: string, maxLength: int): (r: string)
    ensures text == "" ==> r == ""
    ensures text != "" && |text| <= maxLength ==> r == text
    ensures |text| > maxLength && maxLength >= 0 ==> r == text[..maxLength] + "..."
    ensures text != "" && |text| > maxLength && maxLength < 0 ==> r == "..."
    ensures maxLength >= 0 ==> |r| <= maxLength + 3
    ensures r == text || r[..|r| - 3] <= text
  {
    if text == "" then ""
    else if |text| <= maxLength then text
    else
      // substr with a negative length yields the empty string
      var n := if maxLength < 0 then 0 else maxLength;
      text[..n] + "..."
  }

  /** Truncating a truncated text changes nothing more. */
  lemma {:induction false} TruncateIdempotent(text: string, maxLength: int)
    requires maxLength >= 0
    ensures Truncate(Truncate(text, maxLength), maxLength) == Truncate(text, maxLength)
  {
    var once := Truncate(text, maxLength);
    if once != text {
      assert once[..maxLength] == text[..maxLength];
    }
  }

  /** deref: the value unless it is null or undefined. */
  function Deref<T>(v: JsValue<T>, default: T): (r: T)
    ensures v.Defined? ==> r == v.value
    ensures !v.Defined? ==> r == default
  {
    match v
    case Defined(x) => x
    case _ => default
  }

  /** What formatRelativeTime prints. */
  datatype RelativeTime =
    | Dash
    | JustNow
    | MinutesAgo(minutes: int)
    | HoursAgo(hours: int)
    | DaysAgo(days: int)
    | Absolute(dateStr: string)

  const MinuteMs := 60000
  const HourMs := 3600000
  const DayMs := 86400000

  /**
   * formatRelativeTime, with the clock passed in and the date already
   * parsed (None for an Invalid Date, whose NaN fails every comparison).
   * Math.floor of a quotient by a positive divisor is Dafny's division.
   */
  function FormatRelativeTime(dateStr: string, date: Option<int>, now: int): (r: RelativeTime)
  {
    if dateStr == "" then Dash
    else match date
      case None => Absolute(dateStr)
      case Some(d) =>
        var diff := now - d;
        var minutes := diff / MinuteMs;
        var hours := diff / HourMs;
        var days := diff / DayMs;
        if minutes < 1 then JustNow
        else if minutes < 60 then MinutesAgo(minutes)
        else if hours < 24 then HoursAgo(hours)
        else if days < 7 then DaysAgo(days)
        else Absolute(dateStr)
  }

  /**
   * The buckets partition the elapsed time: under a minute (or in the
   * future) is "just now", then whole minutes below an hour, whole hours
   * below a day, whole days below a week, and the date from a week on.
   */
  lemma {:induction false} RelativeTimeBuckets(dateStr: string, d: int, now: int)
    requires dateStr != ""
    ensures var r := FormatRelativeTime(dateStr, Some(d), now);
      var diff := now - d;
      (r.JustNow? <==> diff < MinuteMs) &&
      (r.MinutesAgo? <==> MinuteMs <= diff < HourMs) &&
      (r.HoursAgo? <==> HourMs <= diff < DayMs) &&
      (r.DaysAgo? <==> DayMs <= diff < 7 * DayMs) &&
      (r.Absolute? <==> 7 * DayMs <= diff) &&
      (r.MinutesAgo? ==> r.minutes * MinuteMs <= diff < (r.minutes + 1) * MinuteMs) &&
      (r.HoursAgo? ==> r.hours * HourMs <= diff < (r.hours + 1) * HourMs) &&
      (r.DaysAgo? ==> r.days * DayMs <= diff < (r.days + 1) * DayMs)
  {
    var diff := now - d;
    DivBounds(diff, MinuteMs);
    DivBounds(diff, HourMs);
    DivBounds(diff, DayMs);
  }

  /** Floor division pins the dividend between two multiples of the divisor. */
  lemma {:induction false} DivBounds(x: int, k: int)
    requires k > 0
    ensures (x / k) * k <= x < (x / k + 1) * k
    ensures x / k < 1 <==> x < k
  {
  }

  /** What utils.storage.get answers. */
  datatype Stored<J> = Missing | Parsed(json: J) | Raw(text: string)

  /**
   * storage.get: nothing for a missing or empty item, the parsed JSON
   * otherwise, and the raw string when JSON.parse throws (`parse` answers
   * None for that).
   */
  function StorageGet<J>(item: Option<string>, parse: string -> Option<J>): (r: Stored<J>)
    ensures r.Missing? <==> item.None? || item.value == ""
    ensures r.Raw? <==> item.Some? && item.value != "" && parse(item.value).None?
    ensures r.Raw? ==> r.text == item.value
    ensures r.Parsed? ==> item.Some? && parse(item.value) == Some(r.json)
  {
    match item
    case None => Missing
    case Some(s) =>
      if s == "" then Missing
      else match parse(s)
        case Some(j) => Parsed(j)
        case None => Raw(s)
  }
}
