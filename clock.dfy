/** The 12-hour clock text `formatCurrentTime` builds from the current hour and minute
    (identical in the chat service and the chat landing component). */
module Clock {
  import opened Wrappers
  import opened Decimal

  /** What `Date.getHours()` and `Date.getMinutes()` can return. */
  type Hour = h: int | 0 <= h < 24
  type Minute = m: int | 0 <= m < 60

  /** The hour as shown: `h % 12`, with 0 shown as 12. */
  function DisplayHour(h: Hour): (d: int)
    ensures 1 <= d <= 12 && d % 12 == h % 12
  {
    if h % 12 == 0 then 12 else h % 12
  }

  function Meridiem(h: Hour): string {
    if h >= 12 then "PM" else "AM"
  }

  /** Minutes below ten get a leading "0"; the text is always two digits. */
  function PadMinutes(m: Minute): (r: string)
    ensures |r| == 2 && AllDigits(r) && Parse(r) == m
    ensures r[0] == '0' <==> m < 10
  {
    ShowLength(m);
    ParseShow(m);
    if m < 10 then
      var r := "0" + Show(m);
      assert r[1..] == Show(m);
      r
    else Show(m)
  }

  /** `${hours}:${minutesStr} ${ampm}`: seven characters, or eight when the hour shown
      has two digits (10, 11 and 12 o'clock). */
  function FormatTime(h: Hour, m: Minute): (r: string)
    ensures 7 <= |r| <= 8
    ensures |r| == 8 <==> DisplayHour(h) >= 10
  {
    ShowLength(DisplayHour(h));
    Show(DisplayHour(h)) + ":" + PadMinutes(m) + " " + Meridiem(h)
  }

  // The three fields of a formatted time, read from the end of the text.
  function HourText(s: string): string
    requires |s| >= 6
  {
    s[..|s| - 6]
  }

  function MinuteText(s: string): string
    requires |s| >= 6
  {
    s[|s| - 5..|s| - 3]
  }

  function SuffixText(s: string): string
    requires |s| >= 6
  {
    s[|s| - 2..]
  }

  /** The text decomposes into its three fields: an hour 1..12 congruent to `h` modulo 12,
      two minute digits reading back as `m` (leading "0" exactly below ten), and "PM"
      exactly from noon on. */
  lemma FormatTimeFields(h: Hour, m: Minute)
    ensures var r := FormatTime(h, m);
      && |r| >= 7 && r[|r| - 6] == ':' && r[|r| - 3] == ' '
      && AllDigits(HourText(r)) && 1 <= Parse(HourText(r)) <= 12
      && Parse(HourText(r)) % 12 == h % 12
      && (h % 12 == 0 <==> Parse(HourText(r)) == 12)
      && AllDigits(MinuteText(r)) && Parse(MinuteText(r)) == m
      && (MinuteText(r)[0] == '0' <==> m < 10)
      && (SuffixText(r) == "PM" <==> h >= 12)
      && (SuffixText(r) == "AM" <==> h < 12)
  {
    var hs, ms, ap := Show(DisplayHour(h)), PadMinutes(m), Meridiem(h);
    var r := FormatTime(h, m);
    assert r == hs + ":" + ms + " " + ap;
    assert |ap| == 2;
    assert HourText(r) == hs;
    assert MinuteText(r) == ms;
    assert SuffixText(r) == ap;
    ParseShow(DisplayHour(h));
  }

  /** Reads a formatted time back into the hour and minute of the 24-hour clock. */
  function ParseTime(s: string): Option<(Hour, Minute)> {
    if |s| < 7 || s[|s| - 6] != ':' || s[|s| - 3] != ' ' then None
    else if !AllDigits(HourText(s)) || !AllDigits(MinuteText(s)) then None
    else
      var hour12, minute, suffix := Parse(HourText(s)), Parse(MinuteText(s)), SuffixText(s);
      if !(1 <= hour12 <= 12) || 60 <= minute || (suffix != "AM" && suffix != "PM") then None
      else Some((hour12 % 12 + (if suffix == "PM" then 12 else 0), minute))
  }

  /** No information is lost: the hour and minute can be recovered from the text. */
  lemma ParseFormatTime(h: Hour, m: Minute)
    ensures ParseTime(FormatTime(h, m)) == Some((h, m))
  {
    FormatTimeFields(h, m);
    var r := FormatTime(h, m);
    var hour12 := Parse(HourText(r));
    assert h < 12 ==> h % 12 == h;
    assert h >= 12 ==> h % 12 == h - 12;
    assert hour12 % 12 == h % 12;
    assert hour12 % 12 + (if SuffixText(r) == "PM" then 12 else 0) == h;
  }

  /** Hence two different times of day never print alike. */
  lemma FormatTimeInjective(h1: Hour, m1: Minute, h2: Hour, m2: Minute)
    requires FormatTime(h1, m1) == FormatTime(h2, m2)
    ensures h1 == h2 && m1 == m2
  {
    ParseFormatTime(h1, m1);
    ParseFormatTime(h2, m2);
  }
}
