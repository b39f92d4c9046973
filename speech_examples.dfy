/** Worked inputs for the voice-input extractor: which bare clock readings count as a time,
    and two transcripts on which removing the priority or the category word with
    `String.prototype.replace` cuts the wrong place (lib/speech.ts:226 and :234). */
module SpeechExamples {
  import opened Common
  import opened Text
  import opened Scan
  import opened Speech

  /** "Tomorrow" is the relative word whatever its case. */
  lemma TomorrowAnyCase(s: string)
    requires s == "Tomorrow"
    ensures ParseRelativeDate(s) == Some(Tomorrow)
  {
    LitAtChars(s, 0, "tomorrow");
    assert s[0..8] == s;
  }

  /** "next  week": any run of white space may follow "next". */
  lemma NextWeekSpaced(s: string)
    requires s == "next  week"
    ensures ParseRelativeDate(s) == Some(NextWeek)
  {
    LitAtChars(s, 0, "next");
    assert SpaceRun(s, 6) == 0 && SpaceRun(s, 5) == 1 && SpaceRun(s, 4) == 2;
    assert WordRun(s, 10) == 0 && WordRun(s, 9) == 1 && WordRun(s, 8) == 2;
    assert WordRun(s, 7) == 3 && WordRun(s, 6) == 4;
    assert NextWordAt(s, 0) == Some((6, 10));
    SearchFinds(s, 0, NextWordAt, 0);
    assert s[6..10] == "week";
    assert ToLower("week") == "week";
  }

  /** "next weekend": the unit is the whole word after "next", and "weekend" is none. */
  lemma NextWeekendUnknown(s: string)
    requires s == "next weekend"
    ensures ParseRelativeDate(s) == None
  {
    LitAtChars(s, 0, "next");
    assert SpaceRun(s, 5) == 0 && SpaceRun(s, 4) == 1;
    assert WordRun(s, 12) == 0 && WordRun(s, 11) == 1 && WordRun(s, 10) == 2 && WordRun(s, 9) == 3;
    assert WordRun(s, 8) == 4 && WordRun(s, 7) == 5 && WordRun(s, 6) == 6 && WordRun(s, 5) == 7;
    assert NextWordAt(s, 0) == Some((5, 12));
    SearchFinds(s, 0, NextWordAt, 0);
  }

  /** "5pm" reads as 17:00. */
  lemma FivePm(s: string)
    requires s == "5pm"
    ensures ParseTime12to24(s) == Some("17:00")
  {
    assert DigitCount(s, 1) == 0 && DigitCount(s, 0) == 1 && SpaceRun(s, 1) == 0;
    LitAtMismatch(s, 1, "am", 0);
    LitAtChars(s, 1, "pm");
    assert s[0..1] == "5";
    assert TwelveHourAt(s, 0) == Some(ClockMatch("5", None, true, 3));
    SearchFinds(s, 0, TwelveHourAt, 0);
    assert DigitsValue("5") == 5 && To24(5, true) == 17;
    assert NatToString(1) == "1" && NatToString(17) == NatToString(1) + [DigitChar(7)];
    assert Padded(17) == "17";
    assert "17" + ":" + "00" == "17:00";
  }

  /** "12 am" is midnight, 00:00. */
  lemma TwelveAm(s: string)
    requires s == "12 am"
    ensures ParseTime12to24(s) == Some("00:00")
  {
    assert DigitCount(s, 2) == 0 && DigitCount(s, 1) == 1 && DigitCount(s, 0) == 2;
    assert SpaceRun(s, 3) == 0 && SpaceRun(s, 2) == 1;
    LitAtChars(s, 3, "am");
    assert s[0..2] == "12";
    assert TwelveHourAt(s, 0) == Some(ClockMatch("12", None, false, 5));
    SearchFinds(s, 0, TwelveHourAt, 0);
    assert DigitsValue("12") == 12 && To24(12, false) == 0;
    assert NatToString(0) == "0" && Padded(0) == "00";
    assert "00" + ":" + "00" == "00:00";
  }

  /** No `at`/`by` time in text made of digits and colons. */
  lemma NoAtTimeInClockText(s: string)
    requires forall i :: 0 <= i < |s| ==> IsDigit(s[i]) || s[i] == ':'
    ensures TryTime(s, AtTime) == None
  {
    NoWordsInClockText(s);
    SearchNone(s, 0, (t: string, q: nat) => TimeAt(AtTime, t, q));
  }

  /** The `\d{1,2}:\d{2}` pattern takes a string that is exactly `H:MM` or `HH:MM` whole. */
  lemma WholeClockFound(s: string, d: nat)
    requires d == 1 || d == 2
    requires |s| == d + 3 && DigitsAt(s, 0, d) && s[d] == ':' && DigitsAt(s, d + 1, 2)
    ensures Search(s, 0, (t: string, q: nat) => TimeAt(ClockTime, t, q)) == Some((0, (0, |s|)))
  {
    assert DigitCount(s, d) == 0;
    assert DigitCount(s, 0) == d;
    assert TimeAt(ClockTime, s, 0) == Some((0, |s|));
    SearchFinds(s, 0, (t: string, q: nat) => TimeAt(ClockTime, t, q), 0);
  }

  /** A bare time needs two hour digits: `H:MM` on its own yields no time. */
  lemma SingleDigitClockIgnored(s: string)
    requires |s| == 4 && IsDigit(s[0]) && s[1] == ':' && IsDigit(s[2]) && IsDigit(s[3])
    ensures TimeStage(s, TimePatterns) == (None, s)
  {
    NoAtTimeInClockText(s);
    WholeClockFound(s, 1);
    NoWordsInClockText(s);
    assert s[0..4] == s;
    assert TryTime(s, ClockTime) == None;
    assert TimePatterns[1..][1..] == [];
  }

  /** The bare-clock pattern keeps `HH:MM` as it is and leaves nothing behind. */
  lemma TwoDigitClockTry(s: string)
    requires |s| == 5 && IsDigit(s[0]) && IsDigit(s[1]) && s[2] == ':' && IsDigit(s[3]) && IsDigit(s[4])
    ensures TryTime(s, ClockTime) == Some((s, ""))
  {
    WholeClockFound(s, 2);
    NoWordsInClockText(s);
    assert s[0..5] == s && IsClock24(s);
    assert Trim(ReplaceFirst(s, s[0..5])) == "" by {
      ReplacePrefix(s, 5);
      assert Trim("") == "";
    }
  }

  /** `HH:MM` on its own is kept as it is. */
  lemma TwoDigitClockKept(s: string)
    requires |s| == 5 && IsDigit(s[0]) && IsDigit(s[1]) && s[2] == ':' && IsDigit(s[3]) && IsDigit(s[4])
    ensures TimeStage(s, TimePatterns) == (Some(s), "")
  {
    NoAtTimeInClockText(s);
    TwoDigitClockTry(s);
  }

  /** Inside "blow" there is no word boundary. */
  lemma BlowInside(s: string)
    requires s == "blow low"
    ensures forall q :: 1 <= q < 4 ==> !WordBoundary(s, q)
  {
    assert !WordBoundary(s, 1) && !WordBoundary(s, 2) && !WordBoundary(s, 3);
  }

  /** In "blow low" no priority match starts inside "blow". */
  lemma BlowLowNoEarlierMatch(s: string)
    requires s == "blow low"
    ensures forall q :: 0 <= q < 5 ==> PriorityAt(s, q).None?
  {
    forall j | 0 <= j < |PriorityWords| ensures !LitAt(s, 0, PriorityWords[j]) && !LitAt(s, 4, PriorityWords[j]) {
      LitAtMismatch(s, 0, PriorityWords[j], 0);
      LitAtMismatch(s, 4, PriorityWords[j], 0);
    }
    BlowInside(s);
  }

  /** In "blow low" the priority match is the second word. */
  lemma BlowLowMatch(s: string)
    requires s == "blow low"
    ensures PriorityAt(s, 5) == Some(PriorityMatch(2, 8, 8))
  {
    LitAtMismatch(s, 5, "high", 0);
    LitAtMismatch(s, 5, "medium", 0);
    LitAtChars(s, 5, "low");
    assert !LitAt(s, 5, PriorityWords[0]) && !LitAt(s, 5, PriorityWords[1]) && LitAt(s, 5, PriorityWords[2]);
    assert FirstLit(s, 5, PriorityWords) == Some(2);
    assert SpaceRun(s, 8) == 0;
  }

  /** The first literal "low" in "blow low" is inside "blow". */
  lemma BlowLowFirstLow(s: string)
    requires s == "blow low"
    ensures IndexOf(s, "low", 0) == Some(1)
  {
    assert s[0..3][0] != "low"[0];
    assert s[1..4] == "low";
  }

  lemma BlowLowAsWrittenRest(s: string)
    requires s == "blow low"
    ensures Trim(s[..1] + s[4..]) == "b low"
  {
    assert s[..1] + s[4..] == "b low";
    TrimOfTrimmed("b low");
  }

  lemma BlowLowCorrectedRest(s: string)
    requires s == "blow low"
    ensures Trim(RemoveSpan(s, 5, 8)) == "blow"
  {
    assert RemoveSpan(s, 5, 8) == "blow" + [' '];
    TrimTrailingSpace("blow", ' ');
  }

  /** The priority match in "blow low" is the second word. */
  lemma BlowLowSearch(s: string)
    requires s == "blow low"
    ensures Search(s, 0, PriorityAt) == Some((5, PriorityMatch(2, 8, 8)))
    ensures s[5..8] == "low" && ToLower("low") == "low"
  {
    BlowLowNoEarlierMatch(s);
    BlowLowMatch(s);
    SearchFinds(s, 0, PriorityAt, 5);
  }

  /** "low" inside "blow" is not a priority word, so the match is the later "low"; the
      `replace` as written cuts the first "low" instead, out of "blow". */
  lemma PriorityRemovalMisplaced(s: string)
    requires s == "blow low"
    ensures PriorityStageAsWritten(s) == (Some("low"), "b low")
  {
    BlowLowSearch(s);
    BlowLowFirstLow(s);
    BlowLowAsWrittenRest(s);
  }

  /** Cutting out the match itself leaves "blow" whole. */
  lemma PriorityRemovalCorrected(s: string)
    requires s == "blow low"
    ensures PriorityStage(s) == (Some("low"), "blow")
  {
    BlowLowSearch(s);
    BlowLowCorrectedRest(s);
  }

  /** Inside "rework" there is no word boundary. */
  lemma ReworkInside(s: string)
    requires s == "rework work"
    ensures forall q :: 1 <= q < 6 ==> !WordBoundary(s, q)
  {
    assert !WordBoundary(s, 1) && !WordBoundary(s, 2) && !WordBoundary(s, 3);
    assert !WordBoundary(s, 4) && !WordBoundary(s, 5);
  }

  /** In "rework work" no category match starts inside "rework". */
  lemma ReworkWorkNoEarlierMatch(s: string)
    requires s == "rework work"
    ensures forall q :: 0 <= q < 7 ==> CategoryAt(s, q).None?
  {
    forall j | 0 <= j < |CategoryNames| ensures !LitAt(s, 0, CategoryNames[j]) && !LitAt(s, 6, CategoryNames[j]) {
      LitAtMismatch(s, 0, CategoryNames[j], 0);
      LitAtMismatch(s, 6, CategoryNames[j], 0);
    }
    ReworkInside(s);
  }

  /** In "rework work" the category match is the second word. */
  lemma ReworkWorkMatch(s: string)
    requires s == "rework work"
    ensures CategoryAt(s, 7) == Some((0, 11))
  {
    LitAtChars(s, 7, "work");
    assert FirstLit(s, 7, CategoryNames) == Some(0);
  }

  /** The first literal "work" in "rework work" is inside "rework". */
  lemma ReworkWorkFirstWork(s: string)
    requires s == "rework work"
    ensures IndexOf(s, "work", 0) == Some(2)
  {
    assert s[0..4][0] != "work"[0] && s[1..5][0] != "work"[0];
    assert s[2..6] == "work";
    assert !OccursAt(s, "work", 0) && !OccursAt(s, "work", 1) && OccursAt(s, "work", 2);
  }

  lemma ReworkWorkAsWrittenRest(s: string)
    requires s == "rework work"
    ensures Trim(s[..2] + s[6..]) == "re work"
  {
    assert s[..2] + s[6..] == "re work";
    TrimOfTrimmed("re work");
  }

  lemma ReworkWorkCorrectedRest(s: string)
    requires s == "rework work"
    ensures Trim(RemoveSpan(s, 7, 11)) == "rework"
  {
    assert RemoveSpan(s, 7, 11) == "rework" + [' '];
    TrimTrailingSpace("rework", ' ');
  }

  /** The category match in "rework work" is the second word. */
  lemma ReworkWorkSearch(s: string)
    requires s == "rework work"
    ensures Search(s, 0, CategoryAt) == Some((7, (0, 11))) && s[7..11] == "work"
  {
    ReworkWorkNoEarlierMatch(s);
    ReworkWorkMatch(s);
    SearchFinds(s, 0, CategoryAt, 7);
  }

  /** "work" inside "rework" is not a category, so the match is the later "work"; the
      `replace` as written cuts it out of "rework". */
  lemma CategoryRemovalMisplaced(s: string)
    requires s == "rework work"
    ensures CategoryStageAsWritten(s) == (Some("work"), "re work")
  {
    ReworkWorkSearch(s);
    ReworkWorkFirstWork(s);
    ReworkWorkAsWrittenRest(s);
  }

  /** Cutting out the match itself leaves "rework" whole. */
  lemma CategoryRemovalCorrected(s: string)
    requires s == "rework work"
    ensures CategoryStage(s) == (Some("work"), "rework")
  {
    ReworkWorkSearch(s);
    ReworkWorkCorrectedRest(s);
  }
}
