/** The "time ago" labels of `formatTimestamp` (client/src/components/NotificationCenter.tsx)
    and `formatTime` (client/src/pages/Chat.tsx): elapsed milliseconds bucketed by whole
    minutes, hours and days, each rounded down with `Math.floor`. */
module Elapsed {

  const MinuteMs := 1000 * 60
  const HourMs := 1000 * 60 * 60
  const DayMs := 1000 * 60 * 60 * 24

  /** A label as displayed: "Just now", "Nm ago", "Nh ago", "Nd ago", or the date of the
      timestamp (`toLocaleDateString`, whose text is not modelled). */
  datatype Label = JustNow | MinutesAgo(n: int) | HoursAgo(n: int) | DaysAgo(n: int) | OnDate(timestamp: int)

  /** `formatTimestamp(timestamp)` (NotificationCenter.tsx:103-115), at clock reading `now`.
      A timestamp in the future gives a negative difference and so "Just now". */
  function FormatTimestamp(timestamp: int, now: int): (r: Label)
    ensures r.JustNow? <==> now - timestamp < MinuteMs
    ensures r.MinutesAgo? <==> MinuteMs <= now - timestamp < HourMs
    ensures r.HoursAgo? <==> HourMs <= now - timestamp < DayMs
    ensures r.DaysAgo? <==> DayMs <= now - timestamp < 7 * DayMs
    ensures r.OnDate? <==> now - timestamp >= 7 * DayMs
    ensures r.MinutesAgo? ==> 1 <= r.n < 60 && MinuteMs * r.n <= now - timestamp < MinuteMs * (r.n + 1)
    ensures r.HoursAgo? ==> 1 <= r.n < 24 && HourMs * r.n <= now - timestamp < HourMs * (r.n + 1)
    ensures r.DaysAgo? ==> 1 <= r.n < 7 && DayMs * r.n <= now - timestamp < DayMs * (r.n + 1)
    ensures r.OnDate? ==> r.timestamp == timestamp
  {
    var diff := now - timestamp;
    var minutes := diff / MinuteMs;
    var hours := diff / HourMs;
    var days := diff / DayMs;
    if minutes < 1 then JustNow
    else if minutes < 60 then MinutesAgo(minutes)
    else if hours < 24 then HoursAgo(hours)
    else if days < 7 then DaysAgo(days)
    else OnDate(timestamp)
  }

  /** `formatTime(date)` (Chat.tsx:179-190): the same buckets without the date fallback. */
  function FormatTime(timestamp: int, now: int): (r: Label)
    ensures !r.OnDate?
    ensures r.DaysAgo? <==> now - timestamp >= DayMs
    ensures r.DaysAgo? ==> 1 <= r.n && DayMs * r.n <= now - timestamp < DayMs * (r.n + 1)
  {
    var diff := now - timestamp;
    var minutes := diff / MinuteMs;
    var hours := diff / HourMs;
    var days := diff / DayMs;
    if minutes < 1 then JustNow
    else if minutes < 60 then MinutesAgo(minutes)
    else if hours < 24 then HoursAgo(hours)
    else DaysAgo(days)
  }

  /** The two labels agree for anything under a week old; from a week on the chat keeps
      counting days where the notification list shows the date. */
  lemma FormatTimeAgrees(timestamp: int, now: int)
    ensures now - timestamp < 7 * DayMs ==> FormatTime(timestamp, now) == FormatTimestamp(timestamp, now)
    ensures now - timestamp >= 7 * DayMs ==>
              FormatTimestamp(timestamp, now) == OnDate(timestamp) && FormatTime(timestamp, now).DaysAgo?
              && FormatTime(timestamp, now).n >= 7
  {
  }
}
