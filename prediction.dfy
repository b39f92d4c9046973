/** The sleep-prediction endpoint (app/api/reminder-sleep-prediction/route.js).
    One pass over the reminder list counts evening, high-priority and work reminders, tracks
    the latest reminder hour and scans titles and descriptions for sleep and stress keywords.
    Clamped linear formulas then give the predicted sleep duration and wake-up consistency,
    rounded to one decimal. Arithmetic is exact (`real`), not IEEE-754. */
module SleepPrediction {
  import opened Common
  import opened Text
  import opened ReminderModel

  /** What the analysis found. `latestReminderHour` is `None` when an hour that does not parse
      (NaN in the source) has entered the running maximum: `Math.max` with NaN stays NaN, and
      the value reaches the client as `null`. */
  datatype FeatureSummary = FeatureSummary(
    totalReminders: nat,
    eveningReminders: nat,
    highPriorityCount: nat,
    workRelatedCount: nat,
    hasSleepMentions: bool,
    hasStressMentions: bool,
    latestReminderHour: Option<int>)

  /** A prediction as the endpoint and the client-side fallback return it. `analysis` is
      optional because the score component also accepts predictions without one. */
  datatype Prediction = Prediction(
    predictedSleepDuration: real,
    predictedWakeupConsistency: real,
    analysis: Option<FeatureSummary>,
    confidence: real)

  const SleepKeywords: seq<string> :=
    ["sleep", "bed", "wake up", "alarm", "rest", "tired", "nap", "dream"]
  const StressKeywords: seq<string> :=
    ["urgent", "important", "deadline", "meeting", "due", "asap", "emergency", "critical"]

  // ---------------------------------------------------------------------------------------
  // The per-reminder tests of the analysis pass
  // ---------------------------------------------------------------------------------------

  /** `reminder.time` is truthy: present and not the empty string. */
  predicate Timed(r: Reminder) { r.time.Some? && r.time.value != "" }

  /** `parseInt(reminder.time.split(':')[0])`; `None` is NaN. */
  function HourOf(r: Reminder): Option<int>
    requires Timed(r)
  {
    ParseIntAuto(Split(r.time.value, ':')[0])
  }

  /** `hour >= 18` for a timed reminder (NaN compares false). */
  predicate IsEvening(r: Reminder) {
    Timed(r) && HourOf(r).Some? && HourOf(r).value >= 18
  }

  predicate IsHighPriority(r: Reminder) { r.priority == High }

  predicate IsWorkRelated(r: Reminder) { r.category == "Work" || r.category == "Finance" }

  /** `title.toLowerCase() + ' ' + (description || '').toLowerCase()`. */
  function FullText(r: Reminder): string {
    ToLower(r.title) + " " + ToLower(r.description.GetOr(""))
  }

  /** `keywords.some(k => text.includes(k))`. */
  predicate MentionsAny(text: string, keywords: seq<string>) {
    exists k :: 0 <= k < |keywords| && Contains(text, keywords[k])
  }

  predicate MentionsSleep(r: Reminder) { MentionsAny(FullText(r), SleepKeywords) }

  predicate MentionsStress(r: Reminder) { MentionsAny(FullText(r), StressKeywords) }

  // ---------------------------------------------------------------------------------------
  // What the pass accumulates, as functions of the prefix processed so far
  // ---------------------------------------------------------------------------------------

  /** How many reminders satisfy `p`. */
  function Count(rs: seq<Reminder>, p: Reminder -> bool): (n: nat)
    ensures n <= |rs|
  {
    if rs == [] then 0 else Count(rs[..|rs| - 1], p) + (if p(rs[|rs| - 1]) then 1 else 0)
  }

  /** Whether some reminder satisfies `p`. */
  function Any(rs: seq<Reminder>, p: Reminder -> bool): bool {
    if rs == [] then false else Any(rs[..|rs| - 1], p) || p(rs[|rs| - 1])
  }

  /** `Math.max(latest, hour)` with NaN as `None`. */
  function MaxHour(latest: Option<int>, hour: Option<int>): Option<int> {
    if latest.None? || hour.None? then None
    else Some(if latest.value >= hour.value then latest.value else hour.value)
  }

  /** The running maximum `latestReminderHour`, starting from 0, over the timed reminders. */
  function Latest(rs: seq<Reminder>): Option<int> {
    if rs == [] then Some(0)
    else
      var r := rs[|rs| - 1];
      if Timed(r) then MaxHour(Latest(rs[..|rs| - 1]), HourOf(r)) else Latest(rs[..|rs| - 1])
  }

  /** The feature summary of a non-empty list. */
  function Summarize(rs: seq<Reminder>): FeatureSummary {
    FeatureSummary(
      |rs|,
      Count(rs, IsEvening),
      Count(rs, IsHighPriority),
      Count(rs, IsWorkRelated),
      Any(rs, MentionsSleep),
      Any(rs, MentionsStress),
      Latest(rs))
  }

  // ---------------------------------------------------------------------------------------
  // The formulas
  // ---------------------------------------------------------------------------------------

  predicate LateNight(h: Option<int>) { h.Some? && h.value >= 22 }

  function Ratio(c: nat, n: nat): real requires n > 0 { c as real / n as real }

  /** The duration before clamping: 7.5 h minus the evening, priority, work, stress and
      late-night terms, plus the sleep-mention bonus. */
  function RawDuration(s: FeatureSummary): real
    requires s.totalReminders > 0
  {
    var n := s.totalReminders;
    7.5
    - Ratio(s.eveningReminders, n) * 1.5
    - Ratio(s.highPriorityCount, n) * 1.0
    - Ratio(s.workRelatedCount, n) * 0.5
    - (if s.hasStressMentions then 0.5 else 0.0)
    + (if s.hasSleepMentions then 0.3 else 0.0)
    - (if LateNight(s.latestReminderHour) then 0.8 else 0.0)
  }

  /** The consistency before clamping: 1.0 plus the priority, work, volume and stress terms. */
  function RawConsistency(s: FeatureSummary): real
    requires s.totalReminders > 0
  {
    var n := s.totalReminders;
    1.0
    + Ratio(s.highPriorityCount, n) * 0.8
    + Ratio(s.workRelatedCount, n) * 0.3
    + n as real / 15.0
    + (if s.hasStressMentions then 0.4 else 0.0)
  }

  const Confidence: real := 0.78

  /** The prediction for a non-empty list's summary. */
  function Predict(s: FeatureSummary): Prediction
    requires s.totalReminders > 0
  {
    Prediction(
      Round1(Clamp(RawDuration(s), 4.0, 10.0)),
      Round1(Clamp(RawConsistency(s), 0.5, 3.0)),
      Some(s),
      Confidence)
  }

  /** `getDefaultPrediction()`: the fixed answer for an absent or empty list. */
  function DefaultPrediction(): Prediction {
    Prediction(7.5, 1.2, Some(FeatureSummary(0, 0, 0, 0, false, false, Some(0))), 0.5)
  }

  /** An element of the request's `reminders` array: a reminder, or something the pass
      cannot read (an element without a `title`, whose `toLowerCase` throws). */
  datatype Entry = Entry(reminder: Reminder) | Malformed

  datatype AnalysisError = AnalysisFailed

  predicate AllReadable(es: seq<Entry>) { forall i :: 0 <= i < |es| ==> es[i].Entry? }

  function Reminders(es: seq<Entry>): (rs: seq<Reminder>)
    requires AllReadable(es)
    ensures |rs| == |es| && forall i :: 0 <= i < |es| ==> rs[i] == es[i].reminder
  {
    seq(|es|, i requires 0 <= i < |es| => es[i].reminder)
  }

  /** The `reminders` value handed to `analyzeReminderPatterns`, as JSON can give it:
      `Falsy` is `undefined`, `null`, `false`, `0` or `""`; `List` an array; `NotAList` any
      other value (a non-empty string, a non-zero number, `true`, an object), `lengthZero`
      telling whether its `length` is 0, as only an object with a `"length": 0` member has. */
  datatype Payload = Falsy | List(entries: seq<Entry>) | NotAList(lengthZero: bool)

  /** What `analyzeReminderPatterns` yields: the default when `!reminders ||
      reminders.length === 0`, a failure (the exception) when an element cannot be read or the
      value has no `forEach`, the prediction otherwise. */
  function Analysis(reminders: Payload): Result<Prediction, AnalysisError> {
    match reminders
    case Falsy => Ok(DefaultPrediction())
    case NotAList(lengthZero) => if lengthZero then Ok(DefaultPrediction()) else Err(AnalysisFailed)
    case List(es) =>
      if |es| == 0 then Ok(DefaultPrediction())
      else if !AllReadable(es) then Err(AnalysisFailed)
      else Ok(Predict(Summarize(Reminders(es))))
  }

  // ---------------------------------------------------------------------------------------
  // The pass itself, as the source runs it
  // ---------------------------------------------------------------------------------------

  /** The variables the pass updates. */
  datatype Tally = Tally(
    eveningReminders: nat,
    highPriorityCount: nat,
    workRelatedCount: nat,
    hasSleepMentions: bool,
    hasStressMentions: bool,
    latestReminderHour: Option<int>)

  /** Their values once the reminders `rs` have been processed. */
  function TallyOf(rs: seq<Reminder>): Tally {
    Tally(Count(rs, IsEvening), Count(rs, IsHighPriority), Count(rs, IsWorkRelated),
          Any(rs, MentionsSleep), Any(rs, MentionsStress), Latest(rs))
  }

  /** What processing one more reminder does to the variables. */
  function Step(t: Tally, r: Reminder): Tally {
    Tally(
      t.eveningReminders + (if IsEvening(r) then 1 else 0),
      t.highPriorityCount + (if IsHighPriority(r) then 1 else 0),
      t.workRelatedCount + (if IsWorkRelated(r) then 1 else 0),
      t.hasSleepMentions || MentionsSleep(r),
      t.hasStressMentions || MentionsStress(r),
      if Timed(r) then MaxHour(t.latestReminderHour, HourOf(r)) else t.latestReminderHour)
  }

  /** The variables after a prefix and one more reminder are one `Step` from those after the
      prefix. */
  lemma TallyStep(seen: seq<Reminder>, r: Reminder)
    ensures TallyOf(seen + [r]) == Step(TallyOf(seen), r)
  {
    CountStep(seen, r, IsEvening);
    CountStep(seen, r, IsHighPriority);
    CountStep(seen, r, IsWorkRelated);
    AnyStep(seen, r, MentionsSleep);
    AnyStep(seen, r, MentionsStress);
    LatestStep(seen, r);
  }

  /** The `forEach` callback: what processing one more reminder does to the variables. */
  method Visit(ghost seen: seq<Reminder>, t: Tally, reminder: Reminder) returns (u: Tally)
    requires t == TallyOf(seen)
    ensures u == TallyOf(seen + [reminder])
  {
    var eveningReminders, latestReminderHour := t.eveningReminders, t.latestReminderHour;
    if Timed(reminder) {
      var hour := HourOf(reminder);
      if hour.Some? && hour.value >= 18 { eveningReminders := eveningReminders + 1; }
      latestReminderHour := MaxHour(latestReminderHour, hour);
    }
    assert eveningReminders == Step(t, reminder).eveningReminders;
    assert latestReminderHour == Step(t, reminder).latestReminderHour;
    var highPriorityCount := t.highPriorityCount;
    if reminder.priority == High { highPriorityCount := highPriorityCount + 1; }
    var workRelatedCount := t.workRelatedCount;
    if reminder.category == "Work" || reminder.category == "Finance" {
      workRelatedCount := workRelatedCount + 1;
    }
    assert workRelatedCount == Step(t, reminder).workRelatedCount;
    var fullText := FullText(reminder);
    var hasSleepMentions, hasStressMentions := t.hasSleepMentions, t.hasStressMentions;
    if MentionsAny(fullText, SleepKeywords) { hasSleepMentions := true; }
    if MentionsAny(fullText, StressKeywords) { hasStressMentions := true; }
    u := Tally(eveningReminders, highPriorityCount, workRelatedCount, hasSleepMentions,
               hasStressMentions, latestReminderHour);
    assert u == Step(t, reminder);
    TallyStep(seen, reminder);
  }

  /** The `forEach` pass of `analyzeReminderPatterns`: visits the reminders in order and stops
      with the exception at the first element it cannot read. */
  method TallyReminders(es: seq<Entry>) returns (result: Result<FeatureSummary, AnalysisError>)
    ensures AllReadable(es) ==> result == Ok(Summarize(Reminders(es)))
    ensures !AllReadable(es) ==> result == Err(AnalysisFailed)
  {
    var t := Tally(0, 0, 0, false, false, Some(0));
    ghost var seen: seq<Reminder> := [];
    var i := 0;
    while i < |es|
      invariant 0 <= i <= |es|
      invariant |seen| == i && forall j :: 0 <= j < i ==> es[j] == Entry(seen[j])
      invariant t == TallyOf(seen)
    {
      if es[i].Malformed? {
        return Err(AnalysisFailed);
      }
      t := Visit(seen, t, es[i].reminder);
      seen := seen + [es[i].reminder];
      i := i + 1;
    }
    assert seen == Reminders(es);
    result := Ok(FeatureSummary(|es|, t.eveningReminders, t.highPriorityCount, t.workRelatedCount,
                                t.hasSleepMentions, t.hasStressMentions, t.latestReminderHour));
  }

  /** `analyzeReminderPatterns`: the default for an absent or empty list; otherwise the pass,
      then the chains of `-=` and `+=` on the two estimates, the clamps and the rounding. */
  method AnalyzeReminderPatterns(reminders: Payload)
    returns (result: Result<Prediction, AnalysisError>)
    ensures result == Analysis(reminders)
  {
    if reminders.Falsy? || (reminders.NotAList? && reminders.lengthZero) || reminders == List([]) {
      return Ok(DefaultPrediction());
    }
    if reminders.NotAList? {
      return Err(AnalysisFailed);
    }
    var tally := TallyReminders(reminders.entries);
    if tally.Err? {
      return Err(tally.error);
    }
    var summary := tally.value;
    var totalReminders := summary.totalReminders;
    var eveningRatio := Ratio(summary.eveningReminders, totalReminders);
    var highPriorityRatio := Ratio(summary.highPriorityCount, totalReminders);
    var workRatio := Ratio(summary.workRelatedCount, totalReminders);

    var predictedSleep := 7.5;
    predictedSleep := predictedSleep - eveningRatio * 1.5;
    predictedSleep := predictedSleep - highPriorityRatio * 1.0;
    predictedSleep := predictedSleep - workRatio * 0.5;
    if summary.hasStressMentions { predictedSleep := predictedSleep - 0.5; }
    if summary.hasSleepMentions { predictedSleep := predictedSleep + 0.3; }
    var latest := summary.latestReminderHour;
    if latest.Some? && latest.value >= 22 {
      predictedSleep := predictedSleep - 0.8;
    }

    var wakeupConsistency := 1.0;
    wakeupConsistency := wakeupConsistency + highPriorityRatio * 0.8;
    wakeupConsistency := wakeupConsistency + workRatio * 0.3;
    wakeupConsistency := wakeupConsistency + totalReminders as real / 15.0;
    if summary.hasStressMentions { wakeupConsistency := wakeupConsistency + 0.4; }

    predictedSleep := Max(4.0, Min(10.0, predictedSleep));
    wakeupConsistency := Max(0.5, Min(3.0, wakeupConsistency));

    result := Ok(Prediction(Round1(predictedSleep), Round1(wakeupConsistency), Some(summary), 0.78));
  }

  /** How each accumulated quantity changes when one more reminder is processed. */
  lemma CountStep(seen: seq<Reminder>, r: Reminder, p: Reminder -> bool)
    ensures Count(seen + [r], p) == Count(seen, p) + (if p(r) then 1 else 0)
  {
    assert (seen + [r])[..|seen|] == seen;
  }

  lemma AnyStep(seen: seq<Reminder>, r: Reminder, p: Reminder -> bool)
    ensures Any(seen + [r], p) == (Any(seen, p) || p(r))
  {
    assert (seen + [r])[..|seen|] == seen;
  }

  lemma LatestStep(seen: seq<Reminder>, r: Reminder)
    ensures Latest(seen + [r]) == if Timed(r) then MaxHour(Latest(seen), HourOf(r)) else Latest(seen)
  {
    assert (seen + [r])[..|seen|] == seen;
  }

  // ---------------------------------------------------------------------------------------
  // The request handler
  // ---------------------------------------------------------------------------------------

  /** The body of a POST: unparsable JSON, the JSON `null` (destructuring it throws), or any
      other JSON value, whose `reminders` member is what `Body` holds (`Falsy` when it has
      none, as for a number, a string or an array). */
  datatype Request = BadJson | NullBody | Body(reminders: Payload)

  /** `{ ok: true, data }` with status 200, or `{ ok: false, error }` with status 500. */
  datatype Response =
    | Success(data: Prediction)
    | Failure(status: nat, error: string)

  const FailureMessage: string := "Failed to analyze sleep patterns"

  /** `POST`: any exception while reading the body or analysing answers 500 with no partial
      result. */
  method Post(request: Request) returns (response: Response)
    ensures response.Failure? <==> !request.Body? || Analysis(request.reminders).Err?
    ensures response.Failure? ==> response == Failure(500, FailureMessage)
    ensures response.Success? ==> request.Body? && Analysis(request.reminders) == Ok(response.data)
  {
    if !request.Body? {
      return Failure(500, FailureMessage);
    }
    var prediction := AnalyzeReminderPatterns(request.reminders);
    match prediction
    case Ok(p) => response := Success(p);
    case Err(_) => response := Failure(500, FailureMessage);
  }

  // ---------------------------------------------------------------------------------------
  // Properties
  // ---------------------------------------------------------------------------------------

  /** An absent or empty list answers exactly the fixed default. */
  lemma EmptyGivesDefault(reminders: Payload)
    requires reminders.Falsy? || reminders == List([]) || reminders == NotAList(true)
    ensures Analysis(reminders) == Ok(Prediction(7.5, 1.2,
              Some(FeatureSummary(0, 0, 0, 0, false, false, Some(0))), 0.5))
  {}

  /** One unreadable element fails the whole request, wherever it stands. */
  lemma MalformedFails(es: seq<Entry>, i: nat)
    requires i < |es| && es[i].Malformed?
    ensures Analysis(List(es)) == Err(AnalysisFailed)
  {}

  /** A truthy value that is not an array and whose `length` is not 0 has no `forEach`: the
      analysis throws. */
  lemma NonArrayFails()
    ensures Analysis(NotAList(false)) == Err(AnalysisFailed)
  {}

  /** `Any` is "some element satisfies". */
  lemma {:induction false} AnyIff(rs: seq<Reminder>, p: Reminder -> bool)
    ensures Any(rs, p) <==> exists i :: 0 <= i < |rs| && p(rs[i])
  {
    if rs != [] {
      var front := rs[..|rs| - 1];
      AnyIff(front, p);
      if Any(front, p) {
        var i :| 0 <= i < |front| && p(front[i]);
        assert p(rs[i]);
      }
      if exists i :: 0 <= i < |rs| && p(rs[i]) {
        var i :| 0 <= i < |rs| && p(rs[i]);
        if i < |front| { assert p(front[i]); }
      }
    }
  }

  /** Every count lies between 0 and the number of reminders. */
  lemma CountsBounded(rs: seq<Reminder>)
    ensures var s := Summarize(rs);
      s.eveningReminders <= s.totalReminders && s.highPriorityCount <= s.totalReminders
      && s.workRelatedCount <= s.totalReminders
  {}

  /** Keyword flags: set exactly when some reminder's lower-cased title and description contain
      one of the sleep (respectively stress) keywords. */
  lemma MentionFlags(rs: seq<Reminder>)
    ensures Summarize(rs).hasSleepMentions <==>
      exists i, k :: 0 <= i < |rs| && 0 <= k < |SleepKeywords| && Contains(FullText(rs[i]), SleepKeywords[k])
    ensures Summarize(rs).hasStressMentions <==>
      exists i, k :: 0 <= i < |rs| && 0 <= k < |StressKeywords| && Contains(FullText(rs[i]), StressKeywords[k])
  {
    AnyIff(rs, MentionsSleep);
    AnyIff(rs, MentionsStress);
  }

  /** "critical" counts as stress on the server. */
  lemma CriticalIsStress()
    ensures "critical" in StressKeywords && |StressKeywords| == 8 && |SleepKeywords| == 8
  {
    assert StressKeywords[7] == "critical";
  }

  /** The hour a timed reminder contributes does not parse. */
  predicate GarbledHour(r: Reminder) { Timed(r) && HourOf(r).None? }

  /** The latest hour is NaN exactly when some timed reminder's hour does not parse. */
  lemma {:induction false} LatestNaN(rs: seq<Reminder>)
    ensures Latest(rs).None? <==> exists i :: 0 <= i < |rs| && GarbledHour(rs[i])
  {
    if rs != [] {
      var front, last := rs[..|rs| - 1], rs[|rs| - 1];
      LatestNaN(front);
      assert forall i :: 0 <= i < |front| ==> front[i] == rs[i];
      if Latest(rs).None? {
        if Latest(front).None? {
          var i :| 0 <= i < |front| && GarbledHour(front[i]);
          assert GarbledHour(rs[i]);
        } else {
          assert GarbledHour(last);
        }
      } else {
        assert !GarbledHour(last) && Latest(front).Some?;
        assert forall i :: 0 <= i < |front| ==> !GarbledHour(rs[i]);
      }
    }
  }

  /** Otherwise the latest hour is the largest parsed hour of the timed reminders, and 0 when
      none is larger. */
  lemma {:induction false} LatestIsMaximum(rs: seq<Reminder>)
    requires Latest(rs).Some?
    ensures Latest(rs).value >= 0
    ensures forall i :: 0 <= i < |rs| && Timed(rs[i]) ==>
      HourOf(rs[i]).Some? && HourOf(rs[i]).value <= Latest(rs).value
    ensures Latest(rs).value == 0 ||
      exists i :: 0 <= i < |rs| && Timed(rs[i]) && HourOf(rs[i]) == Latest(rs)
  {
    LatestNaN(rs);
    if rs != [] {
      var front := rs[..|rs| - 1];
      var r := rs[|rs| - 1];
      assert Latest(front).Some?;
      LatestIsMaximum(front);
      forall i | 0 <= i < |rs| && Timed(rs[i])
        ensures HourOf(rs[i]).Some? && HourOf(rs[i]).value <= Latest(rs).value
      {
        if i < |front| { assert front[i] == rs[i]; }
      }
      if Latest(rs).value != 0 && !(Timed(r) && HourOf(r) == Latest(rs)) {
        var i :| 0 <= i < |front| && Timed(front[i]) && HourOf(front[i]) == Latest(front);
        assert front[i] == rs[i];
      }
    }
  }

  /** Evening means a timed reminder whose leading hour is at least 18. */
  lemma EveningIsHourAtLeast18(r: Reminder)
    ensures IsEvening(r) <==>
      r.time.Some? && r.time.value != "" && ParseIntAuto(Split(r.time.value, ':')[0]).Some?
      && ParseIntAuto(Split(r.time.value, ':')[0]).value >= 18
  {}

  lemma RatioBounds(c: nat, n: nat)
    requires 0 < n && c <= n
    ensures 0.0 <= Ratio(c, n) <= 1.0
  {}

  /** The late-night penalty: moving the latest hour from before 22 to 22 or later takes
      exactly 0.8 h off the unclamped duration, and nothing else changes. */
  lemma LateNightPenalty(s: FeatureSummary, early: int, late: int)
    requires s.totalReminders > 0 && early < 22 <= late
    ensures RawDuration(s.(latestReminderHour := Some(late)))
            == RawDuration(s.(latestReminderHour := Some(early))) - 0.8
    ensures RawConsistency(s.(latestReminderHour := Some(late)))
            == RawConsistency(s.(latestReminderHour := Some(early)))
  {}

  /** Clamp law: both outputs end in range, and rounding to one decimal keeps them there. */
  lemma PredictInRange(s: FeatureSummary)
    requires s.totalReminders > 0
    ensures 4.0 <= Predict(s).predictedSleepDuration <= 10.0
    ensures 0.5 <= Predict(s).predictedWakeupConsistency <= 3.0
    ensures OneDecimal(Predict(s).predictedSleepDuration) && OneDecimal(Predict(s).predictedWakeupConsistency)
  {
    Round1Between(Clamp(RawDuration(s), 4.0, 10.0), 4.0, 10.0);
    Round1Between(Clamp(RawConsistency(s), 0.5, 3.0), 0.5, 3.0);
    Round1Near(Clamp(RawDuration(s), 4.0, 10.0));
    Round1Near(Clamp(RawConsistency(s), 0.5, 3.0));
  }

  /** For a real list's summary the duration never exceeds 7.8 h and the consistency never
      drops below 1.1 (so in particular not below 1.0); from 30 reminders on the consistency
      is exactly 3.0. */
  lemma PredictFromList(rs: seq<Reminder>)
    requires rs != []
    ensures var p := Predict(Summarize(rs));
      4.0 <= p.predictedSleepDuration <= 7.8 && 1.1 <= p.predictedWakeupConsistency <= 3.0
      && p.confidence == 0.78 && p.analysis == Some(Summarize(rs))
    ensures |rs| >= 30 ==> Predict(Summarize(rs)).predictedWakeupConsistency == 3.0
  {
    var s := Summarize(rs);
    var n := |rs|;
    RatioBounds(s.eveningReminders, n);
    RatioBounds(s.highPriorityCount, n);
    RatioBounds(s.workRelatedCount, n);
    var d := Clamp(RawDuration(s), 4.0, 10.0);
    var c := Clamp(RawConsistency(s), 0.5, 3.0);
    assert d <= 7.8;
    Round1Between(d, 4.0, 7.8);
    assert RawConsistency(s) >= 1.0 + 1.0 / 15.0;
    assert 1.0 + 1.0 / 15.0 <= c <= 3.0;
    Round1Monotone(1.0 + 1.0 / 15.0, c);
    Round1Between(c, 0.5, 3.0);
    if n >= 30 {
      assert RawConsistency(s) >= 3.0;
      Round1Grid(3.0);
    }
  }

  /** A non-empty readable list reports confidence 0.78 and echoes its own summary. */
  lemma AnalysisOfList(es: seq<Entry>)
    requires es != [] && AllReadable(es)
    ensures Analysis(List(es)).Ok?
    ensures Analysis(List(es)).value.confidence == 0.78
    ensures Analysis(List(es)).value.analysis == Some(Summarize(Reminders(es)))
    ensures Analysis(List(es)).value.analysis.value.totalReminders == |es|
  {}

  /** The worked example: five reminders, three in the evening, two high-priority, a stress
      keyword, latest hour 20: 7.5 - 0.9 - 0.4 - 0.5 = 5.7 h and consistency 2.1. */
  lemma FiveReminderExample()
    ensures Predict(FeatureSummary(5, 3, 2, 0, false, true, Some(20)))
            == Prediction(5.7, 2.1, Some(FeatureSummary(5, 3, 2, 0, false, true, Some(20))), 0.78)
  {
    var s := FeatureSummary(5, 3, 2, 0, false, true, Some(20));
    assert RawDuration(s) == 5.7;
    assert RawConsistency(s) == 1.0 + 0.32 + 1.0 / 3.0 + 0.4;
    assert Round1(5.7) == 5.7 by { Round1Grid(5.7); }
    assert (RawConsistency(s) * 10.0 + 0.5).Floor == 21;
  }
}
