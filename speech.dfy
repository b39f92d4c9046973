/** The voice-input extractor (lib/speech.ts): from a transcript it takes the title (up to the
    first sentence terminator), then, from what follows, a date, a time, a priority and a
    category, each found by a regular expression and cut out of the text, and keeps the rest as
    the description. The clock (`new Date()`) and the `Date` string parser are parameters:
    `resolve` gives the calendar date a relative word denotes today, `parseDate` what
    `new Date(dateStr)` gives, `None` for an invalid date. */
module Speech {
  import opened Common
  import opened Text
  import opened Scan

  // ---------------------------------------------------------------------------------------
  // Calendar dates
  // ---------------------------------------------------------------------------------------

  /** A local calendar date as `getFullYear`, `getMonth` (0-based) and `getDate` report it. */
  datatype CalDate = CalDate(year: int, month: nat, day: nat)

  /** `String(n).padStart(2, '0')`. */
  function Padded(n: nat): string { Pad2(NatToString(n)) }

  /** `formatDateToISO`: year, 1-based month and day, the last two zero-padded. */
  function FormatDateToISO(d: CalDate): (r: string)
    ensures d.month < 99 && d.day < 100 ==>
      |r| == |IntToString(d.year)| + 6 && r[|r| - 3] == '-' && r[|r| - 6] == '-'
  {
    Pad2Value(d.month + 1);
    Pad2Value(d.day);
    IntToString(d.year) + "-" + Padded(d.month + 1) + "-" + Padded(d.day)
  }

  /** The three fields of a formatted date read back as the year, the 1-based month and the
      day, the last two as exactly two digits. */
  lemma FormatDateReadBack(d: CalDate)
    requires d.year >= 0 && d.month < 12 && d.day < 100
    ensures var r := FormatDateToISO(d); var n := |r|;
      n >= 7 && r[n - 3] == '-' && r[n - 6] == '-' &&
      AllDigits(r[..n - 6]) && DigitsValue(r[..n - 6]) == d.year &&
      AllDigits(r[n - 5..n - 3]) && DigitsValue(r[n - 5..n - 3]) == d.month + 1 &&
      AllDigits(r[n - 2..]) && DigitsValue(r[n - 2..]) == d.day
  {
    var y, mm, dd := NatToString(d.year), Padded(d.month + 1), Padded(d.day);
    Pad2Value(d.month + 1);
    Pad2Value(d.day);
    NatToStringValue(d.year);
    var r := FormatDateToISO(d);
    assert r == y + "-" + mm + "-" + dd;
    assert r[..|r| - 6] == y;
    assert r[|r| - 5..|r| - 3] == mm;
    assert r[|r| - 2..] == dd;
  }

  /** The dates `parseRelativeDate` understands. */
  datatype Relative = Today | Tomorrow | NextWeek | NextMonth | NextYear

  /** `/next\s+(\w+)/i` at exactly `p`: where the captured word starts and ends. */
  function NextWordAt(s: string, p: nat): (r: Option<(nat, nat)>)
    ensures r.Some? ==> LitAt(s, p, "next") && p + 4 < r.value.0 < r.value.1 <= |s|
  {
    if !LitAt(s, p, "next") then None
    else
      var sp := SpaceRun(s, p + 4);
      var w := WordRun(s, p + 4 + sp);
      if sp > 0 && w > 0 then Some((p + 4 + sp, p + 4 + sp + w)) else None
  }

  /** `parseRelativeDate`: "today" and "tomorrow" as the whole string, ignoring case; otherwise
      the word after the first "next" must be week, month or year. */
  function ParseRelativeDate(dateStr: string): (r: Option<Relative>)
    ensures r == Some(Today) <==> ToLower(dateStr) == "today"
    ensures r == Some(Tomorrow) <==> ToLower(dateStr) == "tomorrow"
    ensures r.Some? && r.value != Today && r.value != Tomorrow ==>
      exists p: nat :: p <= |dateStr| && LitAt(dateStr, p, "next")
  {
    var lower := ToLower(dateStr);
    if lower == "today" then Some(Today)
    else if lower == "tomorrow" then Some(Tomorrow)
    else match Search(dateStr, 0, NextWordAt)
      case None => None
      case Some((p, (a, b))) =>
        assert LitAt(dateStr, p, "next");
        var unit := ToLower(dateStr[a..b]);
        if unit == "week" then Some(NextWeek)
        else if unit == "month" then Some(NextMonth)
        else if unit == "year" then Some(NextYear)
        else None
  }

  // ---------------------------------------------------------------------------------------
  // Times
  // ---------------------------------------------------------------------------------------

  /** A match of `(\d{1,2})(?::(\d{2}))?\s*(am|pm)` (flag `i`): the groups and the match end. */
  datatype ClockMatch = ClockMatch(hours: string, minutes: Option<string>, pm: bool, end: nat)

  /** How many characters `\d{1,2}` takes from a run of `k` digits. */
  function AtMostTwo(k: nat): nat { if k >= 2 then 2 else k }

  /** `(\d{1,2})(?::(\d{2}))?\s*(am|pm)` (flag `i`) at exactly `p`. Every quantifier is greedy
      and backtracking into it cannot help: a shorter choice leaves a digit or ':' where the
      rest of the pattern needs ':', a space or a letter. */
  function TwelveHourAt(s: string, p: nat): (r: Option<ClockMatch>)
    ensures r.Some? ==> 1 <= |r.value.hours| <= 2 && AllDigits(r.value.hours)
    ensures r.Some? && r.value.minutes.Some? ==>
      |r.value.minutes.value| == 2 && AllDigits(r.value.minutes.value)
    ensures r.Some? ==> p < r.value.end <= |s|
  {
    var d := AtMostTwo(DigitCount(s, p));
    if d == 0 then None
    else
      var q := p + d;
      var withMinutes := q < |s| && s[q] == ':' && DigitsAt(s, q + 1, 2);
      var q2 := if withMinutes then q + 3 else q;
      var m := q2 + SpaceRun(s, q2);
      var minutes := if withMinutes then Some(s[q + 1..q + 3]) else None;
      if LitAt(s, m, "am") then Some(ClockMatch(s[p..q], minutes, false, m + 2))
      else if LitAt(s, m, "pm") then Some(ClockMatch(s[p..q], minutes, true, m + 2))
      else None
  }

  /** The 24-hour hour `parseTime12to24` makes of a 12-hour reading. */
  function To24(hour: nat, pm: bool): (r: nat)
    ensures r % 12 == hour % 12
    ensures hour <= 12 ==> r < 24 && (r >= 12 <==> pm)
  {
    if pm && hour != 12 then hour + 12 else if !pm && hour == 12 then 0 else hour
  }

  /** On the 12-hour clock the conversion lands in 0..23, afternoon exactly from 12 on, and
      keeps the hour modulo 12. */
  lemma To24Range(hour: nat, pm: bool)
    requires 1 <= hour <= 12
    ensures To24(hour, pm) < 24
    ensures pm <==> To24(hour, pm) >= 12
    ensures To24(hour, pm) % 12 == hour % 12
  {}

  /** Different 12-hour readings give different 24-hour hours. */
  lemma To24Injective(h1: nat, pm1: bool, h2: nat, pm2: bool)
    requires 1 <= h1 <= 12 && 1 <= h2 <= 12
    requires To24(h1, pm1) == To24(h2, pm2)
    ensures h1 == h2 && pm1 == pm2
  {
    To24Range(h1, pm1);
    To24Range(h2, pm2);
  }

  /** The shape of an extracted time: at least two characters, a colon, then two more. */
  predicate ClockShape(t: string) {
    |t| >= 5 && t[|t| - 3] == ':'
  }

  /** `parseTime12to24`: the first 12-hour reading in the string, as `HH:MM`, the minutes
      defaulting to "00". `parseInt` of the digit group is its value. */
  function ParseTime12to24(timeStr: string): (r: Option<string>)
    ensures r.Some? ==> ClockShape(r.value)
    ensures r.None? <==> forall q :: 0 <= q <= |timeStr| ==> TwelveHourAt(timeStr, q).None?
  {
    match Search(timeStr, 0, TwelveHourAt)
    case None => None
    case Some((_, m)) =>
      var hour := To24(DigitsValue(m.hours), m.pm);
      Some(Padded(hour) + ":" + m.minutes.GetOr("00"))
  }

  /** `t` reads back as `HH:MM`: the field before the colon is digits denoting `h` (exactly two
      of them when `h` is below 100) and the field after it is `mm`. */
  predicate ReadsBackAs(t: string, h: nat, mm: string) {
    |t| >= 5 && t[|t| - 3] == ':' && AllDigits(t[..|t| - 3]) && DigitsValue(t[..|t| - 3]) == h
    && t[|t| - 2..] == mm && (h < 100 ==> |t| == 5)
  }

  /** A padded hour, a colon and two characters of minutes read back as those fields. */
  lemma PaddedReadsBack(h: nat, mm: string)
    requires |mm| == 2
    ensures ReadsBackAs(Padded(h) + ":" + mm, h, mm)
  {
    Pad2Value(h);
    var t := Padded(h) + ":" + mm;
    assert t[..|t| - 3] == Padded(h);
    assert t[|t| - 2..] == mm;
  }

  /** The converted time reads back from the leftmost 12-hour reading: the field before the
      colon denotes the converted hour (two digits whenever that hour is below 100, as it is
      for an hour from 1 to 12), and the field after it is the captured minutes, or "00". */
  lemma ParseTime12to24ReadBack(s: string, p: nat)
    requires p <= |s| && TwelveHourAt(s, p).Some?
    requires forall q :: 0 <= q < p ==> TwelveHourAt(s, q).None?
    ensures var m := TwelveHourAt(s, p).value;
      ParseTime12to24(s).Some?
      && ReadsBackAs(ParseTime12to24(s).value, To24(DigitsValue(m.hours), m.pm), m.minutes.GetOr("00"))
  {
    SearchFinds(s, 0, TwelveHourAt, p);
    var m := TwelveHourAt(s, p).value;
    PaddedReadsBack(To24(DigitsValue(m.hours), m.pm), m.minutes.GetOr("00"));
  }

  /** `/^\d{2}:\d{2}$/`. */
  predicate IsClock24(t: string) {
    |t| == 5 && DigitsAt(t, 0, 2) && t[2] == ':' && DigitsAt(t, 3, 2)
  }

  // ---------------------------------------------------------------------------------------
  // The date and time patterns
  // ---------------------------------------------------------------------------------------

  /** The length of the first of the lower-case `words` at `p` ignoring case, 0 if none is
      there. */
  function LeadWord(s: string, p: nat, words: seq<string>): (k: nat)
    ensures k > 0 ==> p + k <= |s|
  {
    match FirstLit(s, p, words)
    case None => 0
    case Some(j) => |words[j]|
  }

  /** `next\s+(?:week|month|year)` at `g`: where it ends. */
  function NextUnitEnd(s: string, g: nat): (r: Option<nat>)
    ensures r.Some? ==> g < r.value <= |s|
  {
    if !LitAt(s, g, "next") then None
    else
      var sp := SpaceRun(s, g + 4);
      var u := LeadWord(s, g + 4 + sp, ["week", "month", "year"]);
      if sp > 0 && u > 0 then Some(g + 4 + sp + u) else None
  }

  /** `\d{1,2}(?:st|nd|rd|th)?\s+(?:of\s+)?<month>(?:\s+\d{4})?` at `g`: where it ends. Each
      optional part is taken when present; leaving it out would put a letter or a space where
      the rest needs white space or a month name. */
  function DayMonthAt(s: string, g: nat): (r: Option<nat>)
    ensures r.Some? ==> g < r.value <= |s|
  {
    var d := AtMostTwo(DigitCount(s, g));
    var q1 := g + d + LeadWord(s, g + d, ["st", "nd", "rd", "th"]);
    var sp := SpaceRun(s, q1);
    var q2 := q1 + sp;
    var ofLength := if LitAt(s, q2, "of") && SpaceRun(s, q2 + 2) > 0 then 2 + SpaceRun(s, q2 + 2) else 0;
    if d == 0 || sp == 0 then None
    else match MonthAt(s, q2 + ofLength)
      case None => None
      case Some((_, q4)) =>
        var sp2 := SpaceRun(s, q4);
        if sp2 > 0 && DigitsAt(s, q4 + sp2, 4) then Some(q4 + sp2 + 4) else Some(q4)
  }

  /** The group `(tomorrow|today|next\s+(?:week|month|year)|<day month>)` at `g`, in
      alternation order. */
  function DateWordAt(s: string, g: nat): (r: Option<nat>)
    ensures r.Some? ==> g < r.value <= |s|
  {
    if LitAt(s, g, "tomorrow") then Some(g + 8)
    else if LitAt(s, g, "today") then Some(g + 5)
    else
      var n := NextUnitEnd(s, g);
      if n.Some? then n else DayMonthAt(s, g)
  }

  /** The three date patterns, tried in this order. */
  datatype DatePattern = OnDate | IsoDate | SlashDate

  const DatePatterns: seq<DatePattern> := [OnDate, IsoDate, SlashDate]

  /** A date pattern at exactly `p`: where its first group starts and where the match ends (the
      group always runs to the end of the match).
      OnDate: `(?:on|for|due|by)\s+(<date word>)` (flag `i`); IsoDate: `(\d{4}-\d{2}-\d{2})`;
      SlashDate: `(\d{1,2}\/\d{1,2}\/\d{4})`. */
  function DateAt(pat: DatePattern, s: string, p: nat): (r: Option<(nat, nat)>)
    ensures r.Some? ==> p <= r.value.0 < r.value.1 <= |s|
  {
    match pat
    case OnDate =>
      var k := LeadWord(s, p, ["on", "for", "due", "by"]);
      var sp := SpaceRun(s, p + k);
      if k == 0 || sp == 0 then None
      else
        (match DateWordAt(s, p + k + sp)
         case None => None
         case Some(e) => Some((p + k + sp, e)))
    case IsoDate =>
      if p + 10 <= |s| && DigitsAt(s, p, 4) && s[p + 4] == '-' && DigitsAt(s, p + 5, 2) &&
         s[p + 7] == '-' && DigitsAt(s, p + 8, 2)
      then Some((p, p + 10)) else None
    case SlashDate =>
      var d1 := AtMostTwo(DigitCount(s, p));
      var q := p + d1;
      if d1 == 0 || q >= |s| || s[q] != '/' then None
      else
        var d2 := AtMostTwo(DigitCount(s, q + 1));
        var q2 := q + 1 + d2;
        if d2 == 0 || q2 >= |s| || s[q2] != '/' || !DigitsAt(s, q2 + 1, 4) then None
        else Some((p, q2 + 5))
  }

  /** The two time patterns, tried in this order. */
  datatype TimePattern = AtTime | ClockTime

  const TimePatterns: seq<TimePattern> := [AtTime, ClockTime]

  /** A time pattern at exactly `p`: where its group starts and where the match ends.
      AtTime: `(?:at|by)\s+(\d{1,2}(?::\d{2})?\s*(?:am|pm))` (flag `i`);
      ClockTime: `(\d{1,2}:\d{2})`. */
  function TimeAt(pat: TimePattern, s: string, p: nat): (r: Option<(nat, nat)>)
    ensures r.Some? ==> p <= r.value.0 < r.value.1 <= |s|
  {
    match pat
    case AtTime =>
      var k := LeadWord(s, p, ["at", "by"]);
      var sp := SpaceRun(s, p + k);
      if k == 0 || sp == 0 then None
      else
        (match TwelveHourAt(s, p + k + sp)
         case None => None
         case Some(m) => Some((p + k + sp, m.end)))
    case ClockTime =>
      var d := AtMostTwo(DigitCount(s, p));
      var q := p + d;
      if d > 0 && q < |s| && s[q] == ':' && DigitsAt(s, q + 1, 2) then Some((p, q + 3)) else None
  }

  // ---------------------------------------------------------------------------------------
  // The stages of extractReminderInfo
  // ---------------------------------------------------------------------------------------

  predicate IsTerminator(c: char) { c == '.' || c == '!' || c == '?' }

  /** The first terminator at or after `k`. */
  function TerminatorFrom(s: string, k: nat): (r: Option<nat>)
    decreases |s| - k
    ensures r.Some? ==> k <= r.value < |s| && IsTerminator(s[r.value])
    ensures r.Some? ==> forall j :: k <= j < r.value ==> !IsTerminator(s[j])
    ensures r.None? ==> forall j :: k <= j < |s| ==> !IsTerminator(s[j])
  {
    if k >= |s| then None
    else if IsTerminator(s[k]) then Some(k)
    else TerminatorFrom(s, k + 1)
  }

  /** Where `/^[^.!?]*[.!?]/` ends its match: the first terminator. */
  function FirstTerminator(s: string): (r: Option<nat>)
    ensures r.Some? ==> r.value < |s| && IsTerminator(s[r.value])
    ensures r.Some? ==> forall k :: 0 <= k < r.value ==> !IsTerminator(s[k])
    ensures r.None? ==> forall k :: 0 <= k < |s| ==> !IsTerminator(s[k])
  {
    TerminatorFrom(s, 0)
  }

  /** The title and the text left to scan. */
  function TitleStage(text: string): (r: (string, string))
    ensures FirstTerminator(text).None? ==> r == (text, "")
    ensures FirstTerminator(text).Some? ==>
      r.0 != "" && Trimmed(r.0) && IsTerminator(r.0[|r.0| - 1]) && Trimmed(r.1) && |r.0| + |r.1| <= |text|
  {
    match FirstTerminator(text)
    case Some(i) =>
      TrimKeepsLast(text[..i + 1]);
      ReplacePrefix(text, i + 1);
      (Trim(text[..i + 1]), Trim(ReplaceFirst(text, text[..i + 1])))
    case None => (text, "")
  }

  /** Trimming keeps a last character that is not white space. */
  lemma TrimKeepsLast(w: string)
    requires w != [] && !IsSpace(w[|w| - 1])
    ensures Trim(w) != [] && Trim(w)[|Trim(w)| - 1] == w[|w| - 1]
  {
    TrimShape(w);
    var i := |w| - |TrimStart(w)|;
    var r := Trim(w);
    assert i + |r| == |w|;
  }

  /** Removing the title match removes the prefix it is: the title is the text up to and
      including the first terminator, and the scan goes on after it. */
  lemma TitleRest(text: string, i: nat)
    requires FirstTerminator(text) == Some(i)
    ensures TitleStage(text).0 == Trim(text[..i + 1])
    ensures TitleStage(text).1 == Trim(text[i + 1..])
  {
    var w := text[..i + 1];
    ReplacePrefix(text, i + 1);
    assert ReplaceFirst(text, w) == text[i + 1..];
  }

  /** `text.match(pattern)` for a date pattern: the leftmost position where it matches. */
  function DateMatch(pat: DatePattern, s: string): (r: Option<(nat, (nat, nat))>)
    ensures r.Some? ==> r.value.0 <= |s| && DateAt(pat, s, r.value.0) == Some(r.value.1)
    ensures r.Some? ==> forall q :: 0 <= q < r.value.0 ==> DateAt(pat, s, q).None?
    ensures r.None? ==> forall q :: 0 <= q <= |s| ==> DateAt(pat, s, q).None?
  {
    var at := (t: string, q: nat) => DateAt(pat, t, q);
    assert forall q :: at(s, q) == DateAt(pat, s, q);
    Search(s, 0, at)
  }

  /** `text.match(pattern)` for a time pattern: the leftmost position where it matches. */
  function TimeMatch(pat: TimePattern, s: string): (r: Option<(nat, (nat, nat))>)
    ensures r.Some? ==> r.value.0 <= |s| && TimeAt(pat, s, r.value.0) == Some(r.value.1)
    ensures r.Some? ==> forall q :: 0 <= q < r.value.0 ==> TimeAt(pat, s, q).None?
    ensures r.None? ==> forall q :: 0 <= q <= |s| ==> TimeAt(pat, s, q).None?
  {
    var at := (t: string, q: nat) => TimeAt(pat, t, q);
    assert forall q :: at(s, q) == TimeAt(pat, s, q);
    Search(s, 0, at)
  }

  /** Removing a non-empty match with `replace` and trimming leaves a shorter, trimmed text. */
  lemma RemovedShorter(s: string, p: nat, e: nat)
    requires p < e <= |s|
    ensures var rest := Trim(ReplaceFirst(s, s[p..e])); Trimmed(rest) && |rest| < |s|
  {
    var w := s[p..e];
    assert OccursAt(s, w, p);
    var q := IndexOf(s, w, 0).value;
    assert OccursAt(s, w, q);
    assert |ReplaceFirst(s, w)| == |s| - |w|;
  }

  /** What the date loop finds with one pattern: the formatted date and the text with the
      match removed. A relative date wins; otherwise `new Date(dateStr)` must be valid. */
  function TryDate(s: string, pat: DatePattern, resolve: Relative -> CalDate,
                   parseDate: string -> Option<CalDate>): (r: Option<(string, string)>)
    ensures DateMatch(pat, s).None? ==> r.None?
    ensures r.Some? ==> Trimmed(r.value.1) && |r.value.1| < |s|
  {
    match DateMatch(pat, s)
    case None => None
    case Some((p, (g, e))) =>
      var dateStr := s[g..e];
      RemovedShorter(s, p, e);
      var rest := Trim(ReplaceFirst(s, s[p..e]));
      match ParseRelativeDate(dateStr)
      case Some(rel) => Some((FormatDateToISO(resolve(rel)), rest))
      case None =>
        (match parseDate(dateStr)
         case Some(d) => Some((FormatDateToISO(d), rest))
         case None => None)
  }

  /** At the leftmost match of a date pattern: a relative reading of the group wins and gives
      its resolved day; otherwise the group must parse as a date, and gives that day; either
      day is formatted `YYYY-MM-DD`, and the first occurrence of the match is cut from the
      trimmed text. */
  lemma TryDateAt(s: string, pat: DatePattern, resolve: Relative -> CalDate,
                  parseDate: string -> Option<CalDate>, p: nat)
    requires p <= |s| && DateAt(pat, s, p).Some?
    requires forall q :: 0 <= q < p ==> DateAt(pat, s, q).None?
    ensures var (g, e) := DateAt(pat, s, p).value;
      var rest := Trim(ReplaceFirst(s, s[p..e]));
      var rel := ParseRelativeDate(s[g..e]);
      TryDate(s, pat, resolve, parseDate) ==
        if rel.Some? then Some((FormatDateToISO(resolve(rel.value)), rest))
        else if parseDate(s[g..e]).Some? then Some((FormatDateToISO(parseDate(s[g..e]).value), rest))
        else None
  {
    var r := DateMatch(pat, s);
    assert r.Some? && r.value.0 == p;
  }

  /** The date loop: the first pattern that yields a date, and the text after it. */
  function DateStage(s: string, pats: seq<DatePattern>, resolve: Relative -> CalDate,
                     parseDate: string -> Option<CalDate>): (r: (Option<string>, string))
    decreases |pats|
    ensures r.0.None? ==> r.1 == s
    ensures r.0.None? <==> forall i :: 0 <= i < |pats| ==> TryDate(s, pats[i], resolve, parseDate).None?
  {
    if pats == [] then (None, s)
    else match TryDate(s, pats[0], resolve, parseDate)
      case Some((date, rest)) => (Some(date), rest)
      case None =>
        var r := DateStage(s, pats[1..], resolve, parseDate);
        assert forall i :: 1 <= i < |pats| ==> pats[i] == pats[1..][i - 1];
        r
  }

  /** What the time loop finds with one pattern: a 12-hour reading converted, or else a group
      that is exactly `DD:DD`. */
  function TryTime(s: string, pat: TimePattern): (r: Option<(string, string)>)
    ensures r.Some? ==> ClockShape(r.value.0)
    ensures TimeMatch(pat, s).None? ==> r.None?
    ensures r.Some? ==> Trimmed(r.value.1) && |r.value.1| < |s|
    ensures pat == ClockTime && r.Some? ==> IsClock24(r.value.0)
  {
    match TimeMatch(pat, s)
    case None => None
    case Some((p, (g, e))) =>
      var timeStr := s[g..e];
      RemovedShorter(s, p, e);
      var rest := Trim(ReplaceFirst(s, s[p..e]));
      if pat == ClockTime then
        ClockGroupHasNoMeridian(s, p);
        if IsClock24(timeStr) then Some((timeStr, rest)) else None
      else
        match ParseTime12to24(timeStr)
        case Some(t) => Some((t, rest))
        case None => if IsClock24(timeStr) then Some((timeStr, rest)) else None
  }

  /** The group of the 24-hour pattern is digits and a colon, so `parseTime12to24` finds nothing
      in it. */
  lemma ClockGroupHasNoMeridian(s: string, p: nat)
    requires TimeAt(ClockTime, s, p).Some?
    ensures var (g, e) := TimeAt(ClockTime, s, p).value; ParseTime12to24(s[g..e]) == None
  {
    var (g, e) := TimeAt(ClockTime, s, p).value;
    var t := s[g..e];
    forall i | 0 <= i < |t| ensures IsDigit(t[i]) || t[i] == ':' {
      assert t[i] == s[g + i];
    }
    NoWordsInClockText(t);
  }

  /** With the 24-hour pattern the time is the leftmost `\d{1,2}:\d{2}` group exactly when that
      group is `DD:DD`, and then the match is cut from the text. */
  lemma TryClockTime(s: string, p: nat)
    requires p <= |s| && TimeAt(ClockTime, s, p).Some?
    requires forall q :: 0 <= q < p ==> TimeAt(ClockTime, s, q).None?
    ensures var e := TimeAt(ClockTime, s, p).value.1;
      TryTime(s, ClockTime) ==
        if IsClock24(s[p..e]) then Some((s[p..e], Trim(ReplaceFirst(s, s[p..e])))) else None
  {
    var r := TimeMatch(ClockTime, s);
    assert r.Some? && r.value.0 == p;
  }

  /** At the leftmost match of the `at`/`by` pattern: the group converted by
      `parseTime12to24` when it holds a 12-hour reading, else the group itself when it is
      `DD:DD`; the first occurrence of the match is cut from the trimmed text. */
  lemma TryAtTime(s: string, p: nat)
    requires p <= |s| && TimeAt(AtTime, s, p).Some?
    requires forall q :: 0 <= q < p ==> TimeAt(AtTime, s, q).None?
    ensures var (g, e) := TimeAt(AtTime, s, p).value;
      var rest := Trim(ReplaceFirst(s, s[p..e]));
      var t := ParseTime12to24(s[g..e]);
      TryTime(s, AtTime) ==
        if t.Some? then Some((t.value, rest))
        else if IsClock24(s[g..e]) then Some((s[g..e], rest))
        else None
  {
    var r := TimeMatch(AtTime, s);
    assert r.Some? && r.value.0 == p;
  }

  /** The time loop. */
  function TimeStage(s: string, pats: seq<TimePattern>): (r: (Option<string>, string))
    decreases |pats|
    ensures r.0.None? ==> r.1 == s
    ensures r.0.Some? ==> ClockShape(r.0.value)
    ensures r.0.None? <==> forall i :: 0 <= i < |pats| ==> TryTime(s, pats[i]).None?
  {
    if pats == [] then (None, s)
    else match TryTime(s, pats[0])
      case Some((time, rest)) => (Some(time), rest)
      case None =>
        var r := TimeStage(s, pats[1..]);
        assert forall i :: 1 <= i < |pats| ==> pats[i] == pats[1..][i - 1];
        r
  }

  /** The date loop takes the first pattern that yields a date: its date, and the text with
      that pattern's match removed. */
  lemma {:induction false} DateStageFirst(s: string, pats: seq<DatePattern>, resolve: Relative -> CalDate,
                                          parseDate: string -> Option<CalDate>, i: nat)
    requires i < |pats| && TryDate(s, pats[i], resolve, parseDate).Some?
    requires forall j :: 0 <= j < i ==> TryDate(s, pats[j], resolve, parseDate).None?
    ensures var (date, rest) := TryDate(s, pats[i], resolve, parseDate).value;
      DateStage(s, pats, resolve, parseDate) == (Some(date), rest)
    decreases i
  {
    if i > 0 {
      assert TryDate(s, pats[0], resolve, parseDate).None?;
      assert pats[1..][i - 1] == pats[i];
      forall j | 0 <= j < i - 1 ensures TryDate(s, pats[1..][j], resolve, parseDate).None? {
        assert pats[1..][j] == pats[j + 1];
      }
      DateStageFirst(s, pats[1..], resolve, parseDate, i - 1);
    }
  }

  /** The time loop takes the first pattern that yields a time: its time, and the text with
      that pattern's match removed. */
  lemma {:induction false} TimeStageFirst(s: string, pats: seq<TimePattern>, i: nat)
    requires i < |pats| && TryTime(s, pats[i]).Some?
    requires forall j :: 0 <= j < i ==> TryTime(s, pats[j]).None?
    ensures var (time, rest) := TryTime(s, pats[i]).value;
      TimeStage(s, pats) == (Some(time), rest)
    decreases i
  {
    if i > 0 {
      assert TryTime(s, pats[0]).None?;
      assert pats[1..][i - 1] == pats[i];
      forall j | 0 <= j < i - 1 ensures TryTime(s, pats[1..][j]).None? {
        assert pats[1..][j] == pats[j + 1];
      }
      TimeStageFirst(s, pats[1..], i - 1);
    }
  }

  /** Text made of digits and colons holds neither "at"/"by" nor "am"/"pm", so neither a
      12-hour time nor the `at` pattern is found in it. */
  lemma NoWordsInClockText(s: string)
    requires forall i :: 0 <= i < |s| ==> IsDigit(s[i]) || s[i] == ':'
    ensures forall q :: 0 <= q <= |s| ==> TimeAt(AtTime, s, q).None? && TwelveHourAt(s, q).None?
    ensures ParseTime12to24(s) == None
  {
    forall m: nat, w: string | w in ["at", "by", "am", "pm"] ensures !LitAt(s, m, w) {
      LitAtMismatch(s, m, w, 0);
    }
    SearchNone(s, 0, TwelveHourAt);
  }

  /** `s` without the characters `i` to `j`. */
  function RemoveSpan(s: string, i: nat, j: nat): (r: string)
    requires i <= j <= |s|
    ensures |r| == |s| - (j - i) && r[..i] == s[..i] && r[i..] == s[j..]
  {
    s[..i] + s[j..]
  }

  /** When the first literal occurrence of a match is the match itself, removing it with
      `replace` and removing the span agree. */
  lemma ReplaceFirstAtMatch(s: string, i: nat, j: nat)
    requires i <= j <= |s|
    requires IndexOf(s, s[i..j], 0) == Some(i)
    ensures ReplaceFirst(s, s[i..j]) == RemoveSpan(s, i, j)
  {}

  /** The priority step as written: `text.replace(priorityMatch[0], '')` removes the first
      literal occurrence of the matched text, which need not be the match. */
  function PriorityStageAsWritten(s: string): (r: (Option<string>, string))
    ensures r.0 == PriorityStage(s).0
    ensures r.0.None? ==> r.1 == s
  {
    match Search(s, 0, PriorityAt)
    case None => (None, s)
    case Some((p, m)) => (Some(ToLower(s[p..m.wordEnd])), Trim(ReplaceFirst(s, s[p..m.end])))
  }

  /** The priority step, cutting out the match the regular expression found: the priority is
      the lower-cased word of the leftmost match. */
  function PriorityStage(s: string): (r: (Option<string>, string))
    ensures r.0.Some? ==> r.0.value in PriorityWords
    ensures r.0.None? <==> forall q :: 0 <= q <= |s| ==> PriorityAt(s, q).None?
    ensures r.0.None? ==> r.1 == s
  {
    match Search(s, 0, PriorityAt)
    case None => (None, s)
    case Some((p, m)) =>
      assert ToLower(s[p..m.wordEnd]) == PriorityWords[m.word];
      (Some(ToLower(s[p..m.wordEnd])), Trim(RemoveSpan(s, p, m.end)))
  }

  /** The category step as written, with the same `replace`. */
  function CategoryStageAsWritten(s: string): (r: (Option<string>, string))
    ensures r.0 == CategoryStage(s).0
    ensures r.0.None? ==> r.1 == s
  {
    match Search(s, 0, CategoryAt)
    case None => (None, s)
    case Some((p, (c, q))) => (Some(s[p..q]), Trim(ReplaceFirst(s, s[p..q])))
  }

  /** The category step, cutting out the match: the category is the name as written in the
      text, one of the five ignoring case. */
  function CategoryStage(s: string): (r: (Option<string>, string))
    ensures r.0.Some? ==> ToLower(r.0.value) in CategoryNames && Contains(s, r.0.value)
    ensures r.0.None? <==> forall q :: 0 <= q <= |s| ==> CategoryAt(s, q).None?
    ensures r.0.None? ==> r.1 == s
  {
    match Search(s, 0, CategoryAt)
    case None => (None, s)
    case Some((p, (c, q))) =>
      assert OccursAt(s, s[p..q], p);
      assert ToLower(s[p..q]) == CategoryNames[c];
      (Some(s[p..q]), Trim(RemoveSpan(s, p, q)))
  }

  /** The priority step takes the leftmost match: its word, lower-cased, is the priority, and
      the text left is the trimmed text without that match (as written, without the first
      literal occurrence of the matched text). */
  lemma PriorityStageAt(s: string, p: nat)
    requires p <= |s| && PriorityAt(s, p).Some?
    requires forall q :: 0 <= q < p ==> PriorityAt(s, q).None?
    ensures var m := PriorityAt(s, p).value;
      PriorityWords[m.word] == ToLower(s[p..m.wordEnd])
      && PriorityStage(s) == (Some(PriorityWords[m.word]), Trim(RemoveSpan(s, p, m.end)))
      && PriorityStageAsWritten(s) == (Some(PriorityWords[m.word]), Trim(ReplaceFirst(s, s[p..m.end])))
  {
    SearchFinds(s, 0, PriorityAt, p);
  }

  /** The category step takes the leftmost name standing on its own, as written, and the text
      left is the trimmed text without it (as written, without its first literal occurrence). */
  lemma CategoryStageAt(s: string, p: nat)
    requires p <= |s| && CategoryAt(s, p).Some?
    requires forall q :: 0 <= q < p ==> CategoryAt(s, q).None?
    ensures var (c, e) := CategoryAt(s, p).value;
      ToLower(s[p..e]) == CategoryNames[c]
      && CategoryStage(s) == (Some(s[p..e]), Trim(RemoveSpan(s, p, e)))
      && CategoryStageAsWritten(s) == (Some(s[p..e]), Trim(ReplaceFirst(s, s[p..e])))
  {
    SearchFinds(s, 0, CategoryAt, p);
  }

  /** What the extractor returns; only `title` is always set. */
  datatype SpeechData = SpeechData(
    title: string,
    description: Option<string>,
    date: Option<string>,
    time: Option<string>,
    priority: Option<string>,
    category: Option<string>)

  /** What is left, trimmed, when anything is. */
  function Description(rest: string): (r: Option<string>)
    ensures r.Some? ==> r.value != "" && Trimmed(r.value)
    ensures r.None? ==> Trim(rest) == ""
  {
    if Trim(rest) != "" then Some(Trim(rest)) else None
  }

  /** `extractReminderInfo`, stage by stage, as written: the priority and the category are
      cut out with `replace`. */
  function ExtractInfo(text: string, resolve: Relative -> CalDate,
                       parseDate: string -> Option<CalDate>): (r: SpeechData)
    ensures r.description.Some? ==> r.description.value != "" && Trimmed(r.description.value)
    ensures r.priority.Some? ==> r.priority.value in PriorityWords
    ensures r.category.Some? ==> ToLower(r.category.value) in CategoryNames
    ensures r.time.Some? ==> ClockShape(r.time.value)
  {
    var t := TitleStage(text);
    var d := DateStage(t.1, DatePatterns, resolve, parseDate);
    var h := TimeStage(d.1, TimePatterns);
    var p := PriorityStageAsWritten(h.1);
    var c := CategoryStageAsWritten(p.1);
    SpeechData(t.0, Description(c.1), d.0, h.0, p.0, c.0)
  }

  /** `extractReminderInfo` with the priority and the category matches themselves cut out. */
  function ExtractInfoCorrected(text: string, resolve: Relative -> CalDate,
                                parseDate: string -> Option<CalDate>): (r: SpeechData)
    ensures r.description.Some? ==> r.description.value != "" && Trimmed(r.description.value)
    ensures r.priority.Some? ==> r.priority.value in PriorityWords
    ensures r.category.Some? ==> ToLower(r.category.value) in CategoryNames
    ensures r.time.Some? ==> ClockShape(r.time.value)
  {
    var t := TitleStage(text);
    var d := DateStage(t.1, DatePatterns, resolve, parseDate);
    var h := TimeStage(d.1, TimePatterns);
    var p := PriorityStage(h.1);
    var c := CategoryStage(p.1);
    SpeechData(t.0, Description(c.1), d.0, h.0, p.0, c.0)
  }

  /** The two removals differ only in the text they leave: title, date, time and priority are
      the same, and so is everything when each `replace` finds the match itself first. */
  lemma ExtractInfoCorrectedAgrees(text: string, resolve: Relative -> CalDate,
                                   parseDate: string -> Option<CalDate>)
    ensures var a, b := ExtractInfo(text, resolve, parseDate), ExtractInfoCorrected(text, resolve, parseDate);
      a.title == b.title && a.date == b.date && a.time == b.time && a.priority == b.priority
    ensures var h := TimeStage(DateStage(TitleStage(text).1, DatePatterns, resolve, parseDate).1, TimePatterns).1;
      PriorityStageAsWritten(h) == PriorityStage(h)
      && CategoryStageAsWritten(PriorityStage(h).1) == CategoryStage(PriorityStage(h).1) ==>
      ExtractInfo(text, resolve, parseDate) == ExtractInfoCorrected(text, resolve, parseDate)
  {}

  /** When the first literal occurrence of the leftmost priority match is that match, the
      as-written priority step and the corrected one agree. */
  lemma PriorityStagesAgree(s: string, p: nat)
    requires p <= |s| && PriorityAt(s, p).Some?
    requires forall q :: 0 <= q < p ==> PriorityAt(s, q).None?
    requires IndexOf(s, s[p..PriorityAt(s, p).value.end], 0) == Some(p)
    ensures PriorityStageAsWritten(s) == PriorityStage(s)
  {
    PriorityStageAt(s, p);
    ReplaceFirstAtMatch(s, p, PriorityAt(s, p).value.end);
  }

  /** Nothing in the empty string matches a date pattern. */
  lemma NoDateInEmpty(pats: seq<DatePattern>, resolve: Relative -> CalDate,
                      parseDate: string -> Option<CalDate>)
    ensures DateStage("", pats, resolve, parseDate) == (None, "")
    decreases |pats|
  {
    if pats != [] {
      assert DateAt(pats[0], "", 0).None?;
      NoDateInEmpty(pats[1..], resolve, parseDate);
    }
  }

  lemma NoTimeInEmpty(pats: seq<TimePattern>)
    ensures TimeStage("", pats) == (None, "")
    decreases |pats|
  {
    if pats != [] {
      assert TimeAt(pats[0], "", 0).None?;
      NoTimeInEmpty(pats[1..]);
    }
  }

  /** Without a terminator the whole transcript is the title and nothing else is extracted. */
  lemma NoTerminatorAllTitle(text: string, resolve: Relative -> CalDate,
                             parseDate: string -> Option<CalDate>)
    requires forall k :: 0 <= k < |text| ==> !IsTerminator(text[k])
    ensures ExtractInfo(text, resolve, parseDate) == SpeechData(text, None, None, None, None, None)
  {
    assert TitleStage(text) == (text, "");
    NoDateInEmpty(DatePatterns, resolve, parseDate);
    NoTimeInEmpty(TimePatterns);
    assert PriorityAt("", 0).None? && CategoryAt("", 0).None?;
    assert Trim("") == "";
  }

  /** The date loop of `extractReminderInfo`: the patterns in order, stopping at the first
      that yields a date. */
  method FindDate(text: string, resolve: Relative -> CalDate, parseDate: string -> Option<CalDate>)
    returns (date: Option<string>, rest: string)
    ensures (date, rest) == DateStage(text, DatePatterns, resolve, parseDate)
  {
    date, rest := None, text;
    var i := 0;
    while i < |DatePatterns|
      invariant 0 <= i <= |DatePatterns|
      invariant date.None? && rest == text
      invariant DateStage(text, DatePatterns[i..], resolve, parseDate) ==
        DateStage(text, DatePatterns, resolve, parseDate)
    {
      assert DatePatterns[i..][1..] == DatePatterns[i + 1..];
      var found := TryDate(text, DatePatterns[i], resolve, parseDate);
      if found.Some? {
        date, rest := Some(found.value.0), found.value.1;
        break;
      }
      i := i + 1;
    }
  }

  /** The time loop of `extractReminderInfo`. */
  method FindTime(text: string) returns (time: Option<string>, rest: string)
    ensures (time, rest) == TimeStage(text, TimePatterns)
  {
    time, rest := None, text;
    var i := 0;
    while i < |TimePatterns|
      invariant 0 <= i <= |TimePatterns|
      invariant time.None? && rest == text
      invariant TimeStage(text, TimePatterns[i..]) == TimeStage(text, TimePatterns)
    {
      assert TimePatterns[i..][1..] == TimePatterns[i + 1..];
      var found := TryTime(text, TimePatterns[i]);
      if found.Some? {
        time, rest := Some(found.value.0), found.value.1;
        break;
      }
      i := i + 1;
    }
  }

  /** `extractReminderInfo` as the source runs it: the title, then the date and time loops,
      then the priority, the category and the description. */
  method ExtractReminderInfo(transcript: string, resolve: Relative -> CalDate,
                             parseDate: string -> Option<CalDate>) returns (data: SpeechData)
    ensures data == ExtractInfo(transcript, resolve, parseDate)
  {
    var text := transcript;
    var title: string;
    var titleEnd := FirstTerminator(text);
    if titleEnd.Some? {
      title := Trim(text[..titleEnd.value + 1]);
      text := Trim(ReplaceFirst(text, text[..titleEnd.value + 1]));
    } else {
      title := text;
      text := "";
    }
    var date, time;
    date, text := FindDate(text, resolve, parseDate);
    time, text := FindTime(text);
    var priority, afterPriority := PriorityStageAsWritten(text).0, PriorityStageAsWritten(text).1;
    var category, rest := CategoryStageAsWritten(afterPriority).0, CategoryStageAsWritten(afterPriority).1;
    var description: Option<string> := None;
    var trimmed := Trim(rest);
    if trimmed != "" {
      description := Some(trimmed);
    }
    data := SpeechData(title, description, date, time, priority, category);
  }
}
