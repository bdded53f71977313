/** The dashboard's display helpers: relative dates, percentages, and the
    colour classes for a sentiment label. */
module DisplayUtils {
  import opened Wrappers
  import opened Js
  import opened SentimentAnalysis

  const MinuteMs := 60000
  const HourMs := 3600000
  const DayMs := 86400000

  /** `formatDate(date)` read at time `now` (both in milliseconds since the
      epoch). Under an hour ago (a future date included) counts minutes,
      under a day counts hours, under a week counts days; anything older is
      `toLocaleDateString`, the parameter `localeDate`. Each count is the
      difference divided down and floored. */
  function FormatDate(date: int, now: int, localeDate: int -> string): (s: string)
    ensures now - date < HourMs ==>
              s == IntText((now - date) / MinuteMs) + " minutes ago"
    ensures HourMs <= now - date < DayMs ==>
              s == IntText((now - date) / HourMs) + " hours ago"
              && 1 <= (now - date) / HourMs <= 23
    ensures DayMs <= now - date < 7 * DayMs ==>
              s == IntText((now - date) / DayMs) + " days ago"
              && 1 <= (now - date) / DayMs <= 6
    ensures 7 * DayMs <= now - date ==> s == localeDate(date)
  {
    var diffInMs := now - date;
    var diffInMinutes := diffInMs / MinuteMs;
    var diffInHours := diffInMs / HourMs;
    var diffInDays := diffInMs / DayMs;
    if diffInMinutes < 60 then IntText(diffInMinutes) + " minutes ago"
    else if diffInHours < 24 then IntText(diffInHours) + " hours ago"
    else if diffInDays < 7 then IntText(diffInDays) + " days ago"
    else localeDate(date)
  }

  /** The count a relative date shows reads back, with `parseInt`, as the
      elapsed whole minutes, hours or days. */
  lemma FormatDateReadBack(date: int, now: int, localeDate: int -> string)
    ensures now - date < HourMs ==>
              ParseInt(FormatDate(date, now, localeDate)) == Some((now - date) / MinuteMs)
    ensures HourMs <= now - date < DayMs ==>
              ParseInt(FormatDate(date, now, localeDate)) == Some((now - date) / HourMs)
    ensures DayMs <= now - date < 7 * DayMs ==>
              ParseInt(FormatDate(date, now, localeDate)) == Some((now - date) / DayMs)
  {
    var d := now - date;
    var s := FormatDate(date, now, localeDate);
    if d < HourMs {
      assert s == IntText(d / MinuteMs) + " minutes ago";
      ParseIntText(d / MinuteMs, " minutes ago");
    } else if d < DayMs {
      assert s == IntText(d / HourMs) + " hours ago";
      ParseIntText(d / HourMs, " hours ago");
    } else if d < 7 * DayMs {
      assert s == IntText(d / DayMs) + " days ago";
      ParseIntText(d / DayMs, " days ago");
    }
  }

  /** `formatPercentage(value, total)`: "0%" for a zero total, otherwise
      `Math.round(value / total * 100)` followed by `%`. */
  function FormatPercentage(value: real, total: real): (s: string)
    ensures total == 0.0 ==> s == "0%"
    ensures |s| >= 2 && s[|s| - 1] == '%'
  {
    if total == 0.0 then "0%"
    else IntText(RoundHalfUp(value / total * 100.0)) + "%"
  }

  /** The nearest whole percentage that `value` is of `total`, and 0 of a
      zero total. */
  function Percent(value: real, total: real): (p: int)
    ensures total == 0.0 ==> p == 0
    ensures total != 0.0 ==> p as real - 0.5 <= value / total * 100.0 < p as real + 0.5
  {
    if total == 0.0 then 0 else RoundHalfUp(value / total * 100.0)
  }

  /** The text reads back, with `parseInt`, as the nearest whole
      percentage. */
  lemma FormatPercentageReadBack(value: real, total: real)
    ensures ParseInt(FormatPercentage(value, total)) == Some(Percent(value, total))
  {
    var p := Percent(value, total);
    PercentageText(value, total);
    ParseIntText(p, "%");
  }

  lemma PercentageText(value: real, total: real)
    ensures FormatPercentage(value, total) == IntText(Percent(value, total)) + "%"
  {
    if total == 0.0 {
      assert IntText(0) == "0";
    }
  }

  /** A part of a whole is between 0 and 100 percent of it. */
  lemma PercentOfPart(value: real, total: real)
    requires 0.0 <= value <= total
    ensures 0 <= Percent(value, total) <= 100
  {
    if total != 0.0 {
      assert value / total <= 1.0 by {
        assert value <= total;
      }
    }
  }

  const DefaultColor := "text-muted-foreground"
  const DefaultBadge := "bg-gray-100 text-gray-800"

  /** `getSentimentColor`: the text colour for a label; any other text
      gets the muted default. */
  function SentimentColor(sentiment: string): (c: string)
    ensures sentiment == "positive" ==> c == "text-success"
    ensures sentiment == "negative" ==> c == "text-destructive"
    ensures sentiment == "neutral" ==> c == "text-warning"
    ensures c == DefaultColor <==> sentiment !in {"positive", "negative", "neutral"}
  {
    match sentiment
    case "positive" => "text-success"
    case "negative" => "text-destructive"
    case "neutral" => "text-warning"
    case _ => DefaultColor
  }

  /** `getSentimentBadgeClass`: the badge classes for a label; any other
      text gets the grey default. */
  function SentimentBadgeClass(sentiment: string): (c: string)
    ensures sentiment == "positive" ==> c == "bg-green-100 text-green-800"
    ensures sentiment == "negative" ==> c == "bg-red-100 text-red-800"
    ensures sentiment == "neutral" ==> c == "bg-yellow-100 text-yellow-800"
    ensures c == DefaultBadge <==> sentiment !in {"positive", "negative", "neutral"}
  {
    match sentiment
    case "positive" => "bg-green-100 text-green-800"
    case "negative" => "bg-red-100 text-red-800"
    case "neutral" => "bg-yellow-100 text-yellow-800"
    case _ => DefaultBadge
  }

  /** Every label the classifier produces gets its own colour and its own
      badge, none of them the default: positive is shown in the success
      colour and green, negative in the destructive colour and red, neutral
      in the warning colour and yellow. */
  lemma LabelsDistinguished(s: Sentiment, t: Sentiment)
    ensures SentimentColor(Name(Positive)) == "text-success"
    ensures SentimentColor(Name(Negative)) == "text-destructive"
    ensures SentimentColor(Name(Neutral)) == "text-warning"
    ensures SentimentBadgeClass(Name(Positive)) == "bg-green-100 text-green-800"
    ensures SentimentBadgeClass(Name(Negative)) == "bg-red-100 text-red-800"
    ensures SentimentBadgeClass(Name(Neutral)) == "bg-yellow-100 text-yellow-800"
    ensures SentimentColor(Name(s)) != DefaultColor && SentimentBadgeClass(Name(s)) != DefaultBadge
    ensures s != t ==> SentimentColor(Name(s)) != SentimentColor(Name(t))
    ensures s != t ==> SentimentBadgeClass(Name(s)) != SentimentBadgeClass(Name(t))
  {
  }
}
