/** The text-file extractor (lib/fileUpload.ts): the first non-blank line of a file is the
    title, the other lines the description, and a date, a time, a priority and a category are
    looked up in the whole text by regular expressions. Reading the file is left out; the
    `Date` built from a match is a parameter: `parseDate` gives the day of
    `new Date(str).toISOString()` for the matched string, `None` for an invalid date, and
    `localDay` the day of `new Date(year, month, day).toISOString()`. */
module FileUpload {
  import opened Common
  import opened Text
  import opened Scan
  import opened Speech

  /** `ExtractedData`: the fields a text file yields, every one but the title optional. */
  datatype ExtractedData = ExtractedData(
    title: string, description: Option<string>, date: Option<string>, time: Option<string>,
    priority: Option<string>, category: Option<string>)

  // ---------------------------------------------------------------------------------------
  // Dates
  // ---------------------------------------------------------------------------------------

  /** `monthMap`: lower-case month names, short and long, to 0-based months. */
  const MonthMap: map<string, nat> := map[
    "jan" := 0, "january" := 0, "feb" := 1, "february" := 1, "mar" := 2, "march" := 2,
    "apr" := 3, "april" := 3, "may" := 4, "jun" := 5, "june" := 5, "jul" := 6, "july" := 6,
    "aug" := 7, "august" := 7, "sep" := 8, "september" := 8, "oct" := 9, "october" := 9,
    "nov" := 10, "november" := 10, "dec" := 11, "december" := 11]

  /** The table knows both forms of every month the month alternation matches, and maps them
      to the month's index. */
  lemma MonthMapAgrees(m: nat)
    requires m < 12
    ensures MonthShort[m] in MonthMap && MonthMap[MonthShort[m]] == m
    ensures MonthLong[m] in MonthMap && MonthMap[MonthLong[m]] == m
  {
    if m < 6 {
      assert m == 0 || m == 1 || m == 2 || m == 3 || m == 4 || m == 5;
    } else {
      assert m == 6 || m == 7 || m == 8 || m == 9 || m == 10 || m == 11;
    }
  }

  /** The date patterns of `parseDate`, in the order it tries them. */
  datatype DateForm = IsoForm | SlashForm | MonthNameForm

  const DateForms: seq<DateForm> := [IsoForm, SlashForm, MonthNameForm]

  /** What a date pattern captured: the span of `match[1]` for the first two patterns, the
      three groups (month name, day, year) for the third. */
  datatype DateHit = Literal(start: nat, end: nat) | Calendar(name: string, day: string, year: string)

  /** `\b(\d{4}-\d{2}-\d{2})\b` at exactly `p`. */
  function IsoDayAt(s: string, p: nat): (r: Option<DateHit>)
    ensures r.Some? ==> r == Some(Literal(p, p + 10)) && p + 10 <= |s|
    ensures r.Some? ==> DigitsAt(s, p, 4) && WordBoundary(s, p + 10)
  {
    if WordBoundary(s, p) && p + 10 <= |s| && DigitsAt(s, p, 4) && s[p + 4] == '-' &&
      DigitsAt(s, p + 5, 2) && s[p + 7] == '-' && DigitsAt(s, p + 8, 2) && WordBoundary(s, p + 10)
    then Some(Literal(p, p + 10))
    else None
  }

  /** `\b(\d{1,2}\/\d{1,2}\/\d{4})\b` at exactly `p`. Each `\d{1,2}` is greedy; backtracking
      to one digit leaves a digit where '/' is needed. */
  function SlashDayAt(s: string, p: nat): (r: Option<DateHit>)
    ensures r.Some? ==> r.value.Literal? && p < r.value.start + 5 <= r.value.end <= |s|
    ensures r.Some? ==> r.value.start == p && IsDigit(s[p]) && WordBoundary(s, r.value.end)
  {
    var d1 := AtMostTwo(DigitCount(s, p));
    var q := p + d1;
    if !WordBoundary(s, p) || d1 == 0 || q >= |s| || s[q] != '/' then None
    else
      var d2 := AtMostTwo(DigitCount(s, q + 1));
      var q2 := q + 1 + d2;
      if d2 == 0 || q2 >= |s| || s[q2] != '/' || !DigitsAt(s, q2 + 1, 4) || !WordBoundary(s, q2 + 5)
      then None
      else Some(Literal(p, q2 + 5))
  }

  /** The part of `(?:st|nd|rd|th)?,?\s*(\d{4})\b` after a day of `d` digits at `g`: where the
      year starts. The suffix, the comma and the white space are each taken when present: left
      out, the character in question stands where a digit is needed. */
  function YearAfterDay(s: string, g: nat, d: nat): (y: Option<nat>)
    ensures y.Some? ==> g + d <= y.value && DigitsAt(s, y.value, 4) && WordBoundary(s, y.value + 4)
  {
    var q1 := g + d + LeadWord(s, g + d, ["st", "nd", "rd", "th"]);
    var q2 := if q1 < |s| && s[q1] == ',' then q1 + 1 else q1;
    var q3 := q2 + SpaceRun(s, q2);
    if DigitsAt(s, q3, 4) && WordBoundary(s, q3 + 4) then Some(q3) else None
  }

  /** `(\d{1,2})(?:st|nd|rd|th)?,?\s*(\d{4})\b` at exactly `g`: the day and the year as
      written. The one choice backtracking can change is the day's length: when two digits
      leave no year, one digit is tried, the second digit then starting the year. */
  function DayYearAt(s: string, g: nat): (r: Option<(string, string)>)
    ensures r.Some? ==> 1 <= |r.value.0| <= 2 && AllDigits(r.value.0)
    ensures r.Some? ==> |r.value.1| == 4 && AllDigits(r.value.1)
  {
    var k := AtMostTwo(DigitCount(s, g));
    if k == 0 then None
    else
      var two := if k == 2 then YearAfterDay(s, g, 2) else None;
      var d := if two.Some? then 2 else 1;
      var year := if two.Some? then two else YearAfterDay(s, g, 1);
      match year
      case None => None
      case Some(y) =>
        DigitSlice(s, g, d);
        DigitSlice(s, y, 4);
        Some((s[g..g + d], s[y..y + 4]))
  }

  /** The text of a run of digits is all digits. */
  lemma DigitSlice(s: string, p: nat, n: nat)
    requires DigitsAt(s, p, n)
    ensures AllDigits(s[p..p + n])
  {
    var t := s[p..p + n];
    forall i | 0 <= i < |t| ensures IsDigit(t[i]) {
      assert t[i] == s[p + i];
    }
  }

  /** The month alternation at `p` (flag `i`): the name as written and where it ends. The
      lower-cased name is a key of `MonthMap`. */
  function MonthNameAt(s: string, p: nat): (r: Option<(string, nat)>)
    ensures r.Some? <==> MonthAt(s, p).Some?
    ensures r.Some? ==> ToLower(r.value.0) in MonthMap && r.value.1 <= |s|
    ensures r.Some? ==> MonthMap[ToLower(r.value.0)] == MonthAt(s, p).value.0
  {
    match MonthAt(s, p)
    case None => None
    case Some((m, e)) =>
      assert ToLower(s[p..e]) == MonthShort[m] || ToLower(s[p..e]) == MonthLong[m];
      MonthMapAgrees(m);
      Some((s[p..e], e))
  }

  /** `\b(<month>)\s+(\d{1,2})(?:st|nd|rd|th)?,?\s*(\d{4})\b` (flag `i`) at exactly `p`. */
  function MonthDayYearAt(s: string, p: nat): (r: Option<DateHit>)
    ensures r.Some? ==> r.value.Calendar? && ToLower(r.value.name) in MonthMap
    ensures r.Some? ==> AllDigits(r.value.day) && |r.value.year| == 4 && AllDigits(r.value.year)
    ensures r.Some? ==> MonthAt(s, p).Some? && MonthMap[ToLower(r.value.name)] == MonthAt(s, p).value.0
  {
    if !WordBoundary(s, p) then None
    else match MonthNameAt(s, p)
      case None => None
      case Some((name, e)) =>
        var sp := SpaceRun(s, e);
        if sp == 0 then None
        else match DayYearAt(s, e + sp)
          case None => None
          case Some((day, year)) => Some(Calendar(name, day, year))
  }

  /** The first match of one date pattern in `text` (`text.match(pattern)`). */
  function DateSearch(text: string, form: DateForm): (r: Option<(nat, DateHit)>)
    ensures r.Some? && r.value.1.Literal? ==> r.value.1.start < r.value.1.end <= |text|
    ensures r.Some? && r.value.1.Calendar? ==>
      ToLower(r.value.1.name) in MonthMap && AllDigits(r.value.1.day) && AllDigits(r.value.1.year)
    ensures r.Some? && r.value.1.Calendar? ==>
      form == MonthNameForm && r.value.0 <= |text| && MonthAt(text, r.value.0).Some?
      && MonthMap[ToLower(r.value.1.name)] == MonthAt(text, r.value.0).value.0
  {
    match form
    case IsoForm => Search(text, 0, IsoDayAt)
    case SlashForm => Search(text, 0, SlashDayAt)
    case MonthNameForm => Search(text, 0, MonthDayYearAt)
  }

  /** One pass of the loop in `parseDate`: the first match of `form` in `text`, turned into a
      day, `None` when nothing matches or the date is invalid. A `Calendar` match never makes
      an invalid `Date`: month, day and year are numbers. */
  function TryDateForm(text: string, form: DateForm, parseDate: string -> Option<string>,
                       localDay: (nat, nat, nat) -> string): (r: Option<string>)
    ensures DateSearch(text, form).None? ==> r.None?
    ensures DateSearch(text, form).Some? && DateSearch(text, form).value.1.Literal? ==>
      var h := DateSearch(text, form).value.1; r == parseDate(text[h.start..h.end])
    ensures DateSearch(text, form).Some? && DateSearch(text, form).value.1.Calendar? ==>
      var (p, h) := DateSearch(text, form).value;
      r == Some(localDay(DigitsValue(h.year), MonthAt(text, p).value.0, DigitsValue(h.day)))
  {
    match DateSearch(text, form)
    case None => None
    case Some((_, Literal(g, e))) => parseDate(text[g..e])
    case Some((_, Calendar(name, day, year))) =>
      Some(localDay(DigitsValue(year), MonthMap[ToLower(name)], DigitsValue(day)))
  }

  /** `parseDate` from pattern `j` of `forms` on: the first pattern that gives a valid day. */
  function DateFrom(text: string, forms: seq<DateForm>, j: nat, parseDate: string -> Option<string>,
                    localDay: (nat, nat, nat) -> string): (r: Option<string>)
    decreases |forms| - j
    ensures r.None? <==> forall i :: j <= i < |forms| ==> TryDateForm(text, forms[i], parseDate, localDay).None?
  {
    if j >= |forms| then None
    else
      var d := TryDateForm(text, forms[j], parseDate, localDay);
      if d.Some? then d else DateFrom(text, forms, j + 1, parseDate, localDay)
  }

  /** The loop from pattern `j` on returns the date of the first pattern that gives one. */
  lemma {:induction false} DateFromFirst(text: string, forms: seq<DateForm>, j: nat, k: nat,
                                         parseDate: string -> Option<string>, localDay: (nat, nat, nat) -> string)
    requires j <= k < |forms| && TryDateForm(text, forms[k], parseDate, localDay).Some?
    requires forall i :: j <= i < k ==> TryDateForm(text, forms[i], parseDate, localDay).None?
    ensures DateFrom(text, forms, j, parseDate, localDay) == TryDateForm(text, forms[k], parseDate, localDay)
    decreases k - j
  {
    var d := TryDateForm(text, forms[j], parseDate, localDay);
    assert DateFrom(text, forms, j, parseDate, localDay)
      == if d.Some? then d else DateFrom(text, forms, j + 1, parseDate, localDay);
    if j < k {
      DateFromFirst(text, forms, j + 1, k, parseDate, localDay);
    }
  }

  /** `parseDate` as a function of the text. */
  function FileDate(text: string, parseDate: string -> Option<string>,
                    localDay: (nat, nat, nat) -> string): (r: Option<string>)
    ensures r.None? <==> forall i :: 0 <= i < |DateForms| ==> TryDateForm(text, DateForms[i], parseDate, localDay).None?
    ensures var iso, slash := TryDateForm(text, IsoForm, parseDate, localDay), TryDateForm(text, SlashForm, parseDate, localDay);
      r == if iso.Some? then iso else if slash.Some? then slash else TryDateForm(text, MonthNameForm, parseDate, localDay)
  {
    DateFrom(text, DateForms, 0, parseDate, localDay)
  }

  /** `parseDate` returns the date of the first pattern, in the order ISO, slash, month name,
      that gives a valid one. */
  lemma FileDateFirst(text: string, k: nat, parseDate: string -> Option<string>,
                      localDay: (nat, nat, nat) -> string)
    requires k < |DateForms| && TryDateForm(text, DateForms[k], parseDate, localDay).Some?
    requires forall i :: 0 <= i < k ==> TryDateForm(text, DateForms[i], parseDate, localDay).None?
    ensures FileDate(text, parseDate, localDay) == TryDateForm(text, DateForms[k], parseDate, localDay)
  {
    DateFromFirst(text, DateForms, 0, k, parseDate, localDay);
  }

  /** `parseDate`: the loop over the patterns, returning from the first valid date. */
  method ParseDate(text: string, parseDate: string -> Option<string>,
                   localDay: (nat, nat, nat) -> string) returns (date: Option<string>)
    ensures date == FileDate(text, parseDate, localDay)
  {
    var i := 0;
    while i < |DateForms|
      invariant 0 <= i <= |DateForms|
      invariant DateFrom(text, DateForms, i, parseDate, localDay) == FileDate(text, parseDate, localDay)
    {
      var found := TryDateForm(text, DateForms[i], parseDate, localDay);
      if found.Some? {
        return found;
      }
      i := i + 1;
    }
    return None;
  }

  // ---------------------------------------------------------------------------------------
  // Times
  // ---------------------------------------------------------------------------------------

  /** The time patterns of `parseTime`, in the order it tries them. */
  datatype TimeForm = ClockForm | MeridianForm

  const TimeForms: seq<TimeForm> := [ClockForm, MeridianForm]

  /** What a time pattern captured: the span of `HH:MM`, or hours, minutes and whether the
      marker is `pm`. */
  datatype TimeHit = Verbatim(start: nat, end: nat) | Meridian(hours: string, minutes: string, pm: bool)

  /** `\b(\d{2}:\d{2})\b` at exactly `p`. */
  function ClockAt(s: string, p: nat): (r: Option<TimeHit>)
    ensures r.Some? ==> r == Some(Verbatim(p, p + 5)) && p + 5 <= |s| && IsClock24(s[p..p + 5])
  {
    if WordBoundary(s, p) && p + 5 <= |s| && DigitsAt(s, p, 2) && s[p + 2] == ':' &&
      DigitsAt(s, p + 3, 2) && WordBoundary(s, p + 5)
    then
      assert DigitsAt(s[p..p + 5], 0, 2) && DigitsAt(s[p..p + 5], 3, 2);
      Some(Verbatim(p, p + 5))
    else None
  }

  /** `\b(\d{1,2}):(\d{2})\s*(am|pm)\b` (flag `i`) at exactly `p`. Greedy choices again: one
      hour digit instead of two leaves a digit where ':' is needed. */
  function MeridianAt(s: string, p: nat): (r: Option<TimeHit>)
    ensures r.Some? ==> r.value.Meridian?
    ensures r.Some? ==> 1 <= |r.value.hours| <= 2 && AllDigits(r.value.hours)
    ensures r.Some? ==> |r.value.minutes| == 2 && AllDigits(r.value.minutes)
  {
    var d := AtMostTwo(DigitCount(s, p));
    var q := p + d;
    if !WordBoundary(s, p) || d == 0 || q >= |s| || s[q] != ':' || !DigitsAt(s, q + 1, 2) then None
    else
      var m := q + 3 + SpaceRun(s, q + 3);
      if (LitAt(s, m, "am") || LitAt(s, m, "pm")) && WordBoundary(s, m + 2) then
        Some(Meridian(s[p..q], s[q + 1..q + 3], LitAt(s, m, "pm")))
      else None
  }

  /** The first match of one time pattern in `text`. */
  function TimeSearch(text: string, form: TimeForm): (r: Option<(nat, TimeHit)>)
    ensures r.Some? && r.value.1.Verbatim? ==>
      r.value.1.start == r.value.0 && r.value.0 + 5 <= |text| && r.value.1.end == r.value.0 + 5
    ensures r.Some? && r.value.1.Verbatim? ==> IsClock24(text[r.value.0..r.value.0 + 5])
    ensures r.Some? && r.value.1.Meridian? ==>
      1 <= |r.value.1.hours| <= 2 && AllDigits(r.value.1.hours) &&
      |r.value.1.minutes| == 2 && AllDigits(r.value.1.minutes)
    ensures r.Some? ==> (r.value.1.Verbatim? <==> form == ClockForm)
  {
    match form
    case ClockForm => Search(text, 0, ClockAt)
    case MeridianForm => Search(text, 0, MeridianAt)
  }

  /** Two digits denote a number below 100. */
  lemma TwoDigitsBelow100(s: string)
    requires |s| == 2 && AllDigits(s)
    ensures DigitsValue(s) < 100
  {
    var h := s[..1];
    assert h[..0] == [] && h[0] == s[0];
    assert DigitsValue(h) == DigitValue(s[0]);
  }

  /** The 24-hour rendering of a 12-hour match: the hours converted as in `parseTime12to24`,
      both fields through `parseInt` and `padStart(2, '0')`. */
  function MeridianClock(hours: string, minutes: string, pm: bool): (t: string)
    requires AllDigits(hours) && |minutes| == 2 && AllDigits(minutes)
    ensures ClockShape(t)
  {
    TwoDigitsBelow100(minutes);
    Pad2Value(DigitsValue(minutes));
    Padded(To24(DigitsValue(hours), pm)) + ":" + Padded(DigitsValue(minutes))
  }

  /** One pass of the loop in `parseTime`: the first match of `form` in `text`, as a time. The
      24-hour pattern's match is returned as it stands, with no range check. */
  function TryTimeForm(text: string, form: TimeForm): (r: Option<string>)
    ensures r.None? <==> TimeSearch(text, form).None?
    ensures r.Some? ==> ClockShape(r.value)
    ensures form == ClockForm && r.Some? ==> IsClock24(r.value) && Contains(text, r.value)
    ensures TimeSearch(text, form).Some? && TimeSearch(text, form).value.1.Verbatim? ==>
      var g := TimeSearch(text, form).value.0; r == Some(text[g..g + 5])
    ensures TimeSearch(text, form).Some? && TimeSearch(text, form).value.1.Meridian? ==>
      var h := TimeSearch(text, form).value.1; r == Some(MeridianClock(h.hours, h.minutes, h.pm))
  {
    match TimeSearch(text, form)
    case None => None
    case Some((g, Verbatim(_, _))) =>
      assert OccursAt(text, text[g..g + 5], g);
      Some(text[g..g + 5])
    case Some((_, Meridian(h, m, pm))) => Some(MeridianClock(h, m, pm))
  }

  /** `parseTime` from pattern `j` of `forms` on. */
  function TimeFrom(text: string, forms: seq<TimeForm>, j: nat): (r: Option<string>)
    decreases |forms| - j
    ensures r.None? <==> forall i :: j <= i < |forms| ==> TryTimeForm(text, forms[i]).None?
    ensures r.Some? ==> ClockShape(r.value)
  {
    if j >= |forms| then None
    else
      var t := TryTimeForm(text, forms[j]);
      if t.Some? then t else TimeFrom(text, forms, j + 1)
  }

  /** The loop from pattern `j` on returns the time of the first pattern that matches. */
  lemma {:induction false} TimeFromFirst(text: string, forms: seq<TimeForm>, j: nat, k: nat)
    requires j <= k < |forms| && TryTimeForm(text, forms[k]).Some?
    requires forall i :: j <= i < k ==> TryTimeForm(text, forms[i]).None?
    ensures TimeFrom(text, forms, j) == TryTimeForm(text, forms[k])
    decreases k - j
  {
    var t := TryTimeForm(text, forms[j]);
    assert TimeFrom(text, forms, j) == if t.Some? then t else TimeFrom(text, forms, j + 1);
    if j < k {
      TimeFromFirst(text, forms, j + 1, k);
    }
  }

  /** `parseTime` as a function of the text: a clock-like time, none exactly when neither
      pattern matches, and the verbatim `DD:DD` whenever the 24-hour pattern matches. */
  function FileTime(text: string): (r: Option<string>)
    ensures r.Some? ==> ClockShape(r.value)
    ensures r.None? <==> TimeSearch(text, ClockForm).None? && TimeSearch(text, MeridianForm).None?
    ensures TimeSearch(text, ClockForm).Some? ==> r == TryTimeForm(text, ClockForm)
    ensures TimeSearch(text, ClockForm).None? ==> r == TryTimeForm(text, MeridianForm)
  {
    TimeFrom(text, TimeForms, 0)
  }

  /** `parseTime`: the loop over the patterns, returning from the first match. */
  method ParseTime(text: string) returns (time: Option<string>)
    ensures time == FileTime(text)
  {
    var i := 0;
    while i < |TimeForms|
      invariant 0 <= i <= |TimeForms|
      invariant TimeFrom(text, TimeForms, i) == FileTime(text)
    {
      var found := TryTimeForm(text, TimeForms[i]);
      if found.Some? {
        return found;
      }
      i := i + 1;
    }
    return None;
  }

  // ---------------------------------------------------------------------------------------
  // Lines, title and description
  // ---------------------------------------------------------------------------------------

  /** `map(line => line.trim()).filter(Boolean)` over the first `n` parts. */
  function NonBlank(parts: seq<string>, n: nat): (lines: seq<string>)
    requires n <= |parts|
    ensures |lines| <= n
    ensures forall k :: 0 <= k < |lines| ==> lines[k] != "" && Trimmed(lines[k])
  {
    if n == 0 then []
    else
      var prev := NonBlank(parts, n - 1);
      var t := Trim(parts[n - 1]);
      KeepNonBlank(prev, t);
      prev + (if t != "" then [t] else [])
  }

  /** Appending a trimmed string only if it is non-empty keeps every line non-blank and trimmed. */
  lemma KeepNonBlank(ls: seq<string>, t: string)
    requires forall k :: 0 <= k < |ls| ==> ls[k] != "" && Trimmed(ls[k])
    requires Trimmed(t)
    ensures var r := ls + (if t != "" then [t] else []);
      forall k :: 0 <= k < |r| ==> r[k] != "" && Trimmed(r[k])
  {
    var r := ls + (if t != "" then [t] else []);
    forall k | 0 <= k < |r| ensures r[k] != "" && Trimmed(r[k]) {
      if k < |ls| { assert r[k] == ls[k]; }
    }
  }

  /** The lines of the file: split on '\n', trimmed, blank ones dropped. */
  function Lines(text: string): seq<string> {
    var parts := Split(text, '\n');
    NonBlank(parts, |parts|)
  }

  /** Trimming keeps only characters of the string. */
  lemma TrimKeepsOut(s: string, c: char)
    requires c !in s
    ensures c !in Trim(s)
  {
    TrimShape(s);
    var r := Trim(s);
    var i := |s| - |TrimStart(s)|;
    forall k | 0 <= k < |r| ensures r[k] != c {
      assert r[k] == s[i + k];
    }
  }

  /** No string of `ls` holds `c`. */
  predicate FreeOf(ls: seq<string>, c: char) {
    forall k :: 0 <= k < |ls| ==> c !in ls[k]
  }

  lemma FreeOfAppend(ls: seq<string>, t: string, c: char)
    requires FreeOf(ls, c) && c !in t
    ensures FreeOf(ls + (if t != "" then [t] else []), c)
  {
    var r := ls + (if t != "" then [t] else []);
    forall k | 0 <= k < |r| ensures c !in r[k] {
      if k < |ls| { assert r[k] == ls[k]; }
    }
  }

  /** No trimmed part holds a character that no part holds. */
  lemma {:induction false} NonBlankKeepsOut(parts: seq<string>, n: nat, c: char)
    requires n <= |parts|
    requires FreeOf(parts, c)
    ensures FreeOf(NonBlank(parts, n), c)
    decreases n
  {
    if n > 0 {
      NonBlankKeepsOut(parts, n - 1, c);
      assert c !in parts[n - 1];
      TrimKeepsOut(parts[n - 1], c);
      FreeOfAppend(NonBlank(parts, n - 1), Trim(parts[n - 1]), c);
    }
  }

  /** Every line is non-blank, trimmed and free of line breaks. */
  lemma LinesShape(text: string)
    ensures forall k :: 0 <= k < |Lines(text)| ==>
      Lines(text)[k] != "" && Trimmed(Lines(text)[k]) && '\n' !in Lines(text)[k]
  {
    var parts := Split(text, '\n');
    NonBlankKeepsOut(parts, |parts|, '\n');
    assert FreeOf(Lines(text), '\n');
  }

  /** The placeholder title of a file with no non-blank line. */
  const UntitledTitle: string := "Untitled Reminder"

  /** `lines[0] || 'Untitled Reminder'`. */
  function Title(lines: seq<string>): (r: string)
    ensures r != ""
    ensures r != UntitledTitle ==> |lines| > 0 && r == lines[0]
  {
    if |lines| > 0 && lines[0] != "" then lines[0] else UntitledTitle
  }

  /** The title is a non-blank single line, the placeholder exactly when the file has no
      line or its first line is the placeholder itself. */
  lemma TitleShape(lines: seq<string>)
    requires forall k :: 0 <= k < |lines| ==> lines[k] != "" && Trimmed(lines[k]) && '\n' !in lines[k]
    ensures Title(lines) != "" && Trimmed(Title(lines)) && '\n' !in Title(lines)
    ensures Title(lines) == UntitledTitle <==> lines == [] || lines[0] == UntitledTitle
  {
    if lines == [] {
      assert Trimmed(UntitledTitle) && '\n' !in UntitledTitle;
    }
  }

  /** `lines.slice(1).join('\n').trim() || undefined`. */
  function DescriptionOf(lines: seq<string>): (r: Option<string>)
    ensures r.Some? ==> r.value != "" && Trimmed(r.value) && |r.value| <= |Join(if lines == [] then [] else lines[1..], "\n")|
  {
    var d := Trim(Join(if lines == [] then [] else lines[1..], "\n"));
    if d != "" then Some(d) else None
  }

  /** A join of non-empty pieces with a separator starts with the first piece's first
      character and ends with the last piece's last one. */
  lemma {:induction false} JoinEnds(parts: seq<string>, sep: string)
    requires parts != []
    requires forall k :: 0 <= k < |parts| ==> parts[k] != ""
    ensures var j := Join(parts, sep);
      j != [] && j[0] == parts[0][0] && j[|j| - 1] == parts[|parts| - 1][|parts[|parts| - 1]| - 1]
    decreases |parts|
  {
    if |parts| > 1 {
      var rest := parts[1..];
      JoinEnds(rest, sep);
      assert rest[|rest| - 1] == parts[|parts| - 1];
      var j := Join(parts, sep);
      assert j == parts[0] + sep + Join(rest, sep);
    }
  }

  /** On lines as `Lines` makes them, the final `trim()` changes nothing: the description is
      exactly the lines after the first joined by '\n', present when there are two or more. */
  lemma DescriptionJoinsRest(lines: seq<string>)
    requires forall k :: 0 <= k < |lines| ==> lines[k] != "" && Trimmed(lines[k])
    ensures |lines| <= 1 ==> DescriptionOf(lines) == None
    ensures |lines| > 1 ==> DescriptionOf(lines) == Some(Join(lines[1..], "\n"))
  {
    if |lines| > 1 {
      var rest := lines[1..];
      JoinEnds(rest, "\n");
      var j := Join(rest, "\n");
      assert rest[0] == lines[1] && rest[|rest| - 1] == lines[|lines| - 1];
      assert Trimmed(j);
      TrimOfTrimmed(j);
    } else if |lines| == 1 {
      assert lines[1..] == [];
    }
  }

  // ---------------------------------------------------------------------------------------
  // Priority and category
  // ---------------------------------------------------------------------------------------

  /** `\bcategory:\s*(<name>)\b` (flag `i`) at exactly `p`: the span of the captured name.
      The name follows ':' or white space, so it starts on a word boundary and is a bare
      match of `CategoryAt` there. */
  function LabelledAt(s: string, p: nat): (r: Option<(nat, nat)>)
    ensures r.Some? ==> p <= r.value.0 && CategoryAt(s, r.value.0).Some?
    ensures r.Some? ==> r.value.1 == CategoryAt(s, r.value.0).value.1
  {
    if WordBoundary(s, p) && LitAt(s, p, "category") && p + 8 < |s| && s[p + 8] == ':' then
      var g := p + 9 + SpaceRun(s, p + 9);
      match CategoryAt(s, g)
      case Some((_, q)) => Some((g, q))
      case None => None
    else None
  }

  /** `\b(<name>)\s+(?:category|type)\b` (flag `i`) at exactly `p`. White space after the
      name puts a word boundary there, so the name is a bare match of `CategoryAt`. */
  function TypedAt(s: string, p: nat): (r: Option<(nat, nat)>)
    ensures r.Some? ==> r.value.0 == p && CategoryAt(s, p).Some?
    ensures r.Some? ==> r.value.1 == CategoryAt(s, p).value.1
  {
    match CategoryAt(s, p)
    case None => None
    case Some((_, q)) =>
      var sp := SpaceRun(s, q);
      var k := LeadWord(s, q + sp, ["category", "type"]);
      if sp > 0 && k > 0 && WordBoundary(s, q + sp + k) then Some((p, q)) else None
  }

  /** `\b(<name>)\b` (flag `i`) at exactly `p`. */
  function BareAt(s: string, p: nat): (r: Option<(nat, nat)>)
    ensures r.Some? <==> CategoryAt(s, p).Some?
    ensures r.Some? ==> r.value == (p, CategoryAt(s, p).value.1)
  {
    match CategoryAt(s, p)
    case None => None
    case Some((_, q)) => Some((p, q))
  }

  /** The name a category match spanning `g` to `q` captured, as written. */
  function CapturedName(s: string, g: nat, q: nat): (r: string)
    requires CategoryAt(s, g).Some? && q == CategoryAt(s, g).value.1
    ensures ToLower(r) in CategoryNames && Contains(s, r)
  {
    var c := CategoryAt(s, g).value.0;
    assert ToLower(s[g..q]) == CategoryNames[c];
    assert OccursAt(s, s[g..q], g);
    s[g..q]
  }

  /** The category: the name captured by the first of the three patterns that matches, as
      written. The first two patterns only decide which name is taken, never whether one is:
      there is a category exactly when some name stands on its own. */
  function CategoryOf(text: string): (r: Option<string>)
    ensures r.Some? ==> ToLower(r.value) in CategoryNames && Contains(text, r.value)
    ensures r.None? <==> forall q :: 0 <= q <= |text| ==> CategoryAt(text, q).None?
  {
    match Search(text, 0, LabelledAt)
    case Some((_, (g, q))) =>
      assert BareAt(text, g).Some?;
      Some(CapturedName(text, g, q))
    case None =>
      match Search(text, 0, TypedAt)
      case Some((_, (g, q))) =>
        assert BareAt(text, g).Some?;
        Some(CapturedName(text, g, q))
      case None =>
        match Search(text, 0, BareAt)
        case Some((_, (g, q))) => Some(CapturedName(text, g, q))
        case None =>
          forall q | 0 <= q <= |text| ensures CategoryAt(text, q).None? {
            assert BareAt(text, q).None?;
          }
          None
  }

  /** A `category: <name>` label anywhere decides the category: the leftmost one's name. */
  lemma LabelledCategoryWins(text: string, p: nat)
    requires p <= |text| && LabelledAt(text, p).Some?
    requires forall q :: 0 <= q < p ==> LabelledAt(text, q).None?
    ensures var (g, e) := LabelledAt(text, p).value; CategoryOf(text) == Some(text[g..e])
  {
    SearchFinds(text, 0, LabelledAt, p);
  }

  /** Without a label, a `<name> category` or `<name> type` phrase decides: the leftmost one. */
  lemma TypedCategoryNext(text: string, p: nat)
    requires forall q :: 0 <= q <= |text| ==> LabelledAt(text, q).None?
    requires p <= |text| && TypedAt(text, p).Some?
    requires forall q :: 0 <= q < p ==> TypedAt(text, q).None?
    ensures CategoryOf(text) == Some(text[p..TypedAt(text, p).value.1])
  {
    SearchNone(text, 0, LabelledAt);
    SearchFinds(text, 0, TypedAt, p);
  }

  /** With neither, the leftmost name standing on its own is the category. */
  lemma BareCategoryLast(text: string, p: nat)
    requires forall q :: 0 <= q <= |text| ==> LabelledAt(text, q).None? && TypedAt(text, q).None?
    requires p <= |text| && CategoryAt(text, p).Some?
    requires forall q :: 0 <= q < p ==> CategoryAt(text, q).None?
    ensures CategoryOf(text) == Some(text[p..CategoryAt(text, p).value.1])
  {
    SearchNone(text, 0, LabelledAt);
    SearchNone(text, 0, TypedAt);
    forall q | 0 <= q < p ensures BareAt(text, q).None? {}
    SearchFinds(text, 0, BareAt, p);
  }

  /** The priority: the lower-cased word of the first match of the same pattern as in the
      voice extractor, in the whole text, title line included. */
  function PriorityOf(text: string): (r: Option<string>)
    ensures r.Some? ==> r.value in PriorityWords
    ensures r.None? <==> forall q :: 0 <= q <= |text| ==> PriorityAt(text, q).None?
  {
    PriorityStage(text).0
  }

  /** The priority is the word of the leftmost match, lower-cased. */
  lemma PriorityOfFirst(text: string, p: nat)
    requires p <= |text| && PriorityAt(text, p).Some?
    requires forall q :: 0 <= q < p ==> PriorityAt(text, q).None?
    ensures PriorityOf(text) == Some(ToLower(text[p..PriorityAt(text, p).value.wordEnd]))
  {
    PriorityStageAt(text, p);
  }

  // ---------------------------------------------------------------------------------------
  // extractReminderFromText
  // ---------------------------------------------------------------------------------------

  /** `extractReminderFromText` as a function of the text. Date, time, priority and category
      are all looked up in the whole text, not in what follows the title. */
  function ExtractFromText(text: string, parseDate: string -> Option<string>,
                           localDay: (nat, nat, nat) -> string): (r: ExtractedData)
    ensures r.title != "" && Trimmed(r.title) && '\n' !in r.title
    ensures r.title == UntitledTitle <==> Lines(text) == [] || Lines(text)[0] == UntitledTitle
    ensures r.description.Some? <==> |Lines(text)| > 1
    ensures r.description.Some? ==> r.description.value == Join(Lines(text)[1..], "\n")
    ensures r.priority.Some? ==> r.priority.value in PriorityWords
    ensures r.category.Some? ==> ToLower(r.category.value) in CategoryNames
    ensures r.priority == PriorityOf(text) && r.category == CategoryOf(text)
    ensures r.priority.None? <==> forall q :: 0 <= q <= |text| ==> PriorityAt(text, q).None?
    ensures r.category.None? <==> forall q :: 0 <= q <= |text| ==> CategoryAt(text, q).None?
    ensures r.time.None? <==> TimeSearch(text, ClockForm).None? && TimeSearch(text, MeridianForm).None?
    ensures r.date == FileDate(text, parseDate, localDay) && r.time == FileTime(text)
  {
    var lines := Lines(text);
    LinesShape(text);
    TitleShape(lines);
    DescriptionJoinsRest(lines);
    ExtractedData(Title(lines), DescriptionOf(lines), FileDate(text, parseDate, localDay),
                  FileTime(text), PriorityOf(text), CategoryOf(text))
  }

  /** `extractReminderFromText`: the fields filled in one after the other. */
  method ExtractReminderFromText(text: string, parseDate: string -> Option<string>,
                                 localDay: (nat, nat, nat) -> string) returns (data: ExtractedData)
    ensures data == ExtractFromText(text, parseDate, localDay)
  {
    var lines := Lines(text);
    data := ExtractedData(Title(lines), DescriptionOf(lines), None, None, None, None);
    var date := ParseDate(text, parseDate, localDay);
    data := data.(date := date);
    var time := ParseTime(text);
    data := data.(time := time);
    data := data.(priority := PriorityOf(text));
    data := data.(category := CategoryOf(text));
  }

  // ---------------------------------------------------------------------------------------
  // Consequences
  // ---------------------------------------------------------------------------------------

  /** Every date and time pattern starts with a digit or needs one: a text without digits has
      neither. */
  lemma NoDigitsNoDateOrTime(text: string, parseDate: string -> Option<string>,
                             localDay: (nat, nat, nat) -> string)
    requires forall i :: 0 <= i < |text| ==> !IsDigit(text[i])
    ensures FileDate(text, parseDate, localDay) == None
    ensures FileTime(text) == None
  {
    forall q | 0 <= q <= |text|
      ensures ClockAt(text, q).None? && MeridianAt(text, q).None?
      ensures IsoDayAt(text, q).None? && SlashDayAt(text, q).None?
    {}
    forall q | 0 <= q <= |text| ensures MonthDayYearAt(text, q).None? {
      NoDigitsNoDayYear(text);
    }
    SearchNone(text, 0, ClockAt);
    SearchNone(text, 0, MeridianAt);
    SearchNone(text, 0, IsoDayAt);
    SearchNone(text, 0, SlashDayAt);
    SearchNone(text, 0, MonthDayYearAt);
    assert TryTimeForm(text, TimeForms[0]).None? && TryTimeForm(text, TimeForms[1]).None?;
  }

  lemma NoDigitsNoDayYear(text: string)
    requires forall i :: 0 <= i < |text| ==> !IsDigit(text[i])
    ensures forall g :: DayYearAt(text, g).None?
  {
    forall g ensures DayYearAt(text, g).None? {
      assert DigitCount(text, g) == 0;
    }
  }

  /** A text starting with `DD:DD` and a non-word character (or ending there) has that time,
      verbatim: "11:30 pm" gives "11:30", and "99:99" is taken as it stands. */
  lemma LeadingClockVerbatim(text: string)
    requires |text| >= 5 && DigitsAt(text, 0, 2) && text[2] == ':' && DigitsAt(text, 3, 2)
    requires |text| == 5 || !IsWordChar(text[5])
    ensures FileTime(text) == Some(text[..5])
  {
    assert WordBoundary(text, 0) && WordBoundary(text, 5);
    SearchFinds(text, 0, ClockAt, 0);
    assert TryTimeForm(text, ClockForm) == Some(text[0..5]);
  }

  /** A 12-hour match with an hour from 1 to 12 gives a well-formed 24-hour clock whose fields
      read back as the converted hour and the minutes. */
  lemma MeridianClockReadBack(hours: string, minutes: string, pm: bool)
    requires AllDigits(hours) && 1 <= DigitsValue(hours) <= 12
    requires |minutes| == 2 && AllDigits(minutes)
    ensures var t := MeridianClock(hours, minutes, pm);
      IsClock24(t) && DigitsValue(t[..2]) == To24(DigitsValue(hours), pm) &&
      DigitsValue(t[3..]) == DigitsValue(minutes) && (DigitsValue(t[..2]) >= 12 <==> pm)
  {
    var h := To24(DigitsValue(hours), pm);
    To24Range(DigitsValue(hours), pm);
    Pad2Value(h);
    TwoDigitsBelow100(minutes);
    Pad2Value(DigitsValue(minutes));
    var t := MeridianClock(hours, minutes, pm);
    assert t[..2] == Padded(h);
    assert t[3..] == Padded(DigitsValue(minutes));
  }

  /** A label beats an earlier bare name: in "Work. category: Finance" the category is
      "Finance", although "Work" comes first. */
  lemma LabelBeatsEarlierName(s: string)
    requires s == "Work. category: Finance"
    ensures CategoryOf(s) == Some("Finance")
  {
    LabelNotBeforeSix(s);
    FinanceAtSixteen(s);
    LabelAtSix(s);
    LabelledAtSixWins(s);
  }

  lemma LabelledAtSixWins(s: string)
    requires |s| == 23 && s[16..23] == "Finance"
    requires forall q :: 0 <= q < 6 ==> LabelledAt(s, q).None?
    requires LabelledAt(s, 6) == Some((16, 23))
    ensures CategoryOf(s) == Some("Finance")
  {
    LabelledCategoryWins(s, 6);
  }

  lemma LabelNotBeforeSix(s: string)
    requires s == "Work. category: Finance"
    ensures forall q :: 0 <= q < 6 ==> LabelledAt(s, q).None?
  {
    forall q | 0 <= q < 6 ensures !LitAt(s, q, "category") {
      LitAtMismatch(s, q, "category", 0);
    }
  }

  lemma FinanceAtSixteen(s: string)
    requires s == "Work. category: Finance"
    ensures CategoryAt(s, 16) == Some((3, 23))
  {
    LitAtMismatch(s, 16, "work", 0);
    LitAtMismatch(s, 16, "personal", 0);
    LitAtMismatch(s, 16, "health", 0);
    LitAtChars(s, 16, "finance");
    assert FirstLit(s, 16, CategoryNames) == Some(3);
    assert WordBoundary(s, 16) && WordBoundary(s, 23);
  }

  lemma LabelAtSix(s: string)
    requires s == "Work. category: Finance"
    requires CategoryAt(s, 16) == Some((3, 23))
    ensures LabelledAt(s, 6) == Some((16, 23))
  {
    CategoryWordAtSix(s);
    BoundaryAtSix(s);
    ColonSpaceAtFourteen(s);
    LabelledWithOneSpace(s, 6);
  }

  lemma ColonSpaceAtFourteen(s: string)
    requires s == "Work. category: Finance"
    ensures s[14] == ':' && IsSpace(s[15]) && !IsSpace(s[16])
  {}

  lemma CategoryWordAtSix(s: string)
    requires s == "Work. category: Finance"
    ensures LitAt(s, 6, "category")
  {
    LitAtChars(s, 6, "category");
  }

  lemma BoundaryAtSix(s: string)
    requires s == "Work. category: Finance"
    ensures WordBoundary(s, 6)
  {
    assert !IsWordChar(s[5]) && IsWordChar(s[6]);
  }

  /** `category:`, one space and a name give the name that starts after the space. */
  lemma LabelledWithOneSpace(s: string, p: nat)
    requires WordBoundary(s, p) && LitAt(s, p, "category") && p + 10 < |s|
    requires s[p + 8] == ':' && IsSpace(s[p + 9]) && !IsSpace(s[p + 10])
    requires CategoryAt(s, p + 10).Some?
    ensures LabelledAt(s, p) == Some((p + 10, CategoryAt(s, p + 10).value.1))
  {
    assert SpaceRun(s, p + 10) == 0;
    assert SpaceRun(s, p + 9) == 1;
  }

  /** Without a `DD:DD` time, a 12-hour time with an hour from 1 to 12 is what `parseTime`
      returns: a valid 24-hour clock whose fields read back as the converted hour and the
      minutes. */
  lemma FileTimeMeridian(text: string)
    requires TimeSearch(text, ClockForm).None? && TimeSearch(text, MeridianForm).Some?
    requires var h := TimeSearch(text, MeridianForm).value.1; 1 <= DigitsValue(h.hours) <= 12
    ensures var h := TimeSearch(text, MeridianForm).value.1;
      FileTime(text).Some? && var t := FileTime(text).value;
      IsClock24(t) && DigitsValue(t[..2]) == To24(DigitsValue(h.hours), h.pm)
      && DigitsValue(t[3..]) == DigitsValue(h.minutes)
  {
    var h := TimeSearch(text, MeridianForm).value.1;
    MeridianClockReadBack(h.hours, h.minutes, h.pm);
  }
}
