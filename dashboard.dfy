/** The dashboard graph component (app/_components/dashboard/dashboard-graph.jsx): how the
    prediction it shows is obtained (the endpoint's answer, or a local fallback analysis when
    the request throws), the fallback analysis itself, and the two weekly series drawn from a
    prediction. `Math.random` is an injected sequence of draws. */
module DashboardGraph {
  import opened Common
  import opened Text
  import opened ReminderModel
  import opened SleepPrediction

  // ---------------------------------------------------------------------------------------
  // The local fallback analysis
  // ---------------------------------------------------------------------------------------

  /** The fallback's stress keywords: the server's list without "critical". */
  const FallbackStressKeywords: seq<string> :=
    ["urgent", "important", "deadline", "meeting", "due", "asap", "emergency"]

  /** `(reminder.title + ' ' + (reminder.description || '')).toLowerCase()`. */
  function FallbackText(r: Reminder): string {
    ToLower(r.title + " " + r.description.GetOr(""))
  }

  predicate FallbackStress(r: Reminder) { MentionsAny(FallbackText(r), FallbackStressKeywords) }

  /** What the fallback pass finds; it never looks for sleep keywords. */
  function FallbackSummary(rs: seq<Reminder>): FeatureSummary {
    FeatureSummary(
      |rs|,
      Count(rs, IsEvening),
      Count(rs, IsHighPriority),
      Count(rs, IsWorkRelated),
      false,
      Any(rs, FallbackStress),
      Latest(rs))
  }

  /** `baseSleep` before clamping: 7.5 h minus the evening, priority and stress terms. */
  function FallbackDuration(s: FeatureSummary): real
    requires s.totalReminders > 0
  {
    var n := s.totalReminders;
    7.5
    - Ratio(s.eveningReminders, n) * 1.0
    - Ratio(s.highPriorityCount, n) * 0.8
    - (if s.hasStressMentions then 0.5 else 0.0)
  }

  /** `consistency` before clamping: 1.5 plus the priority and evening terms. */
  function FallbackConsistency(s: FeatureSummary): real
    requires s.totalReminders > 0
  {
    var n := s.totalReminders;
    1.5 + Ratio(s.highPriorityCount, n) * 1.0 + Ratio(s.eveningReminders, n) * 0.5
  }

  const FallbackConfidence: real := 0.7

  /** What `analyzeRemindersFallback` returns. */
  function Fallback(userReminders: Option<seq<Reminder>>): Prediction {
    if userReminders.None? || |userReminders.value| == 0 then
      Prediction(7.5, 1.5, Some(FeatureSummary(0, 0, 0, 0, false, false, Some(0))), 0.5)
    else
      var s := FallbackSummary(userReminders.value);
      Prediction(
        Round1(Clamp(FallbackDuration(s), 4.0, 10.0)),
        Round1(Clamp(FallbackConsistency(s), 0.5, 3.0)),
        Some(s),
        FallbackConfidence)
  }

  /** The variables the fallback's `forEach` updates. */
  datatype FallbackTally = FallbackTally(
    eveningReminders: nat,
    highPriorityCount: nat,
    workRelatedCount: nat,
    hasStressMentions: bool,
    latestHour: Option<int>)

  function FallbackTallyOf(rs: seq<Reminder>): FallbackTally {
    FallbackTally(Count(rs, IsEvening), Count(rs, IsHighPriority), Count(rs, IsWorkRelated),
                  Any(rs, FallbackStress), Latest(rs))
  }

  /** What one more reminder does to the fallback's variables. */
  function FallbackStep(t: FallbackTally, r: Reminder): FallbackTally {
    FallbackTally(
      t.eveningReminders + (if IsEvening(r) then 1 else 0),
      t.highPriorityCount + (if IsHighPriority(r) then 1 else 0),
      t.workRelatedCount + (if IsWorkRelated(r) then 1 else 0),
      t.hasStressMentions || FallbackStress(r),
      if Timed(r) then MaxHour(t.latestHour, HourOf(r)) else t.latestHour)
  }

  lemma FallbackTallyStep(seen: seq<Reminder>, r: Reminder)
    ensures FallbackTallyOf(seen + [r]) == FallbackStep(FallbackTallyOf(seen), r)
  {
    CountStep(seen, r, IsEvening);
    CountStep(seen, r, IsHighPriority);
    CountStep(seen, r, IsWorkRelated);
    AnyStep(seen, r, FallbackStress);
    LatestStep(seen, r);
  }

  /** The `forEach` callback of the fallback. */
  method FallbackVisit(ghost seen: seq<Reminder>, t: FallbackTally, reminder: Reminder)
    returns (u: FallbackTally)
    requires t == FallbackTallyOf(seen)
    ensures u == FallbackTallyOf(seen + [reminder])
  {
    var eveningReminders, latestHour := t.eveningReminders, t.latestHour;
    if Timed(reminder) {
      var hour := HourOf(reminder);
      if hour.Some? && hour.value >= 18 { eveningReminders := eveningReminders + 1; }
      latestHour := MaxHour(latestHour, hour);
    }
    assert eveningReminders == FallbackStep(t, reminder).eveningReminders;
    assert latestHour == FallbackStep(t, reminder).latestHour;
    var highPriorityCount := t.highPriorityCount;
    if reminder.priority == High { highPriorityCount := highPriorityCount + 1; }
    var workRelatedCount := t.workRelatedCount;
    if reminder.category == "Work" || reminder.category == "Finance" {
      workRelatedCount := workRelatedCount + 1;
    }
    assert workRelatedCount == FallbackStep(t, reminder).workRelatedCount;
    var text := FallbackText(reminder);
    var hasStressMentions := t.hasStressMentions;
    if MentionsAny(text, FallbackStressKeywords) { hasStressMentions := true; }
    u := FallbackTally(eveningReminders, highPriorityCount, workRelatedCount, hasStressMentions,
                       latestHour);
    assert u == FallbackStep(t, reminder);
    FallbackTallyStep(seen, reminder);
  }

  /** `analyzeRemindersFallback`: the fixed answer for an absent or empty list; otherwise the
      pass, the `-=` and `+=` chains, the clamps and the rounding. */
  method AnalyzeRemindersFallback(userReminders: Option<seq<Reminder>>) returns (p: Prediction)
    ensures p == Fallback(userReminders)
  {
    if userReminders.None? || |userReminders.value| == 0 {
      return Prediction(7.5, 1.5, Some(FeatureSummary(0, 0, 0, 0, false, false, Some(0))), 0.5);
    }
    var rs := userReminders.value;
    var t := FallbackTally(0, 0, 0, false, Some(0));
    var i := 0;
    while i < |rs|
      invariant 0 <= i <= |rs|
      invariant t == FallbackTallyOf(rs[..i])
    {
      t := FallbackVisit(rs[..i], t, rs[i]);
      assert rs[..i] + [rs[i]] == rs[..i + 1];
      i := i + 1;
    }
    assert rs[..i] == rs;
    var n := |rs|;
    var baseSleep := 7.5;
    baseSleep := baseSleep - Ratio(t.eveningReminders, n) * 1.0;
    baseSleep := baseSleep - Ratio(t.highPriorityCount, n) * 0.8;
    baseSleep := baseSleep - (if t.hasStressMentions then 0.5 else 0.0);
    baseSleep := Max(4.0, Min(10.0, baseSleep));

    var consistency := 1.5;
    consistency := consistency + Ratio(t.highPriorityCount, n) * 1.0;
    consistency := consistency + Ratio(t.eveningReminders, n) * 0.5;
    consistency := Max(0.5, Min(3.0, consistency));

    p := Prediction(
      Round1(baseSleep),
      Round1(consistency),
      Some(FeatureSummary(n, t.eveningReminders, t.highPriorityCount, t.workRelatedCount, false,
                          t.hasStressMentions, t.latestHour)),
      0.7);
  }

  // ---------------------------------------------------------------------------------------
  // Properties of the fallback
  // ---------------------------------------------------------------------------------------

  /** An absent or empty list gives 7.5 h, consistency 1.5 and confidence 0.5. */
  lemma FallbackEmpty(userReminders: Option<seq<Reminder>>)
    requires userReminders.None? || userReminders.value == []
    ensures Fallback(userReminders).predictedSleepDuration == 7.5
    ensures Fallback(userReminders).predictedWakeupConsistency == 1.5
    ensures Fallback(userReminders).confidence == 0.5
  {}

  /** For a non-empty list the unclamped duration lies in [5.2, 7.5] and the unclamped
      consistency in [1.5, 3.0], so neither clamp ever binds; rounding keeps both ranges. */
  lemma FallbackRange(rs: seq<Reminder>)
    requires rs != []
    ensures var s := FallbackSummary(rs);
      5.2 <= FallbackDuration(s) <= 7.5 && 1.5 <= FallbackConsistency(s) <= 3.0
      && Clamp(FallbackDuration(s), 4.0, 10.0) == FallbackDuration(s)
      && Clamp(FallbackConsistency(s), 0.5, 3.0) == FallbackConsistency(s)
    ensures var p := Fallback(Some(rs));
      5.2 <= p.predictedSleepDuration <= 7.5 && 1.5 <= p.predictedWakeupConsistency <= 3.0
      && OneDecimal(p.predictedSleepDuration) && OneDecimal(p.predictedWakeupConsistency)
  {
    var s := FallbackSummary(rs);
    var n := |rs|;
    RatioBounds(s.eveningReminders, n);
    RatioBounds(s.highPriorityCount, n);
    Round1Between(FallbackDuration(s), 5.2, 7.5);
    Round1Between(FallbackConsistency(s), 1.5, 3.0);
    Round1Near(FallbackDuration(s));
    Round1Near(FallbackConsistency(s));
  }

  /** A non-empty list reports confidence 0.7, never a sleep mention, and a stress mention
      exactly when some reminder's text contains one of the seven fallback keywords. */
  lemma FallbackFlags(rs: seq<Reminder>)
    requires rs != []
    ensures Fallback(Some(rs)).confidence == 0.7
    ensures Fallback(Some(rs)).analysis == Some(FallbackSummary(rs))
    ensures !FallbackSummary(rs).hasSleepMentions
    ensures FallbackSummary(rs).hasStressMentions <==>
      exists i, k :: 0 <= i < |rs| && 0 <= k < |FallbackStressKeywords|
        && Contains(FallbackText(rs[i]), FallbackStressKeywords[k])
  {
    AnyIff(rs, FallbackStress);
  }

  /** The fallback list is the server's first seven stress keywords: "critical" is missing. */
  lemma FallbackKeywords()
    ensures |FallbackStressKeywords| == 7 && "critical" !in FallbackStressKeywords
    ensures FallbackStressKeywords == StressKeywords[..7]
  {}

  /** The fallback lower-cases the whole joined text, which is the server's text. */
  lemma FallbackTextIsFullText(r: Reminder)
    ensures FallbackText(r) == FullText(r)
  {
    ToLowerAppend(r.title, " " + r.description.GetOr(""));
    ToLowerAppend(" ", r.description.GetOr(""));
    assert r.title + " " + r.description.GetOr("") == r.title + (" " + r.description.GetOr(""));
  }

  /** So every reminder that stresses the fallback also stresses the server. */
  lemma FallbackStressImpliesStress(r: Reminder)
    requires FallbackStress(r)
    ensures MentionsStress(r)
  {
    FallbackTextIsFullText(r);
    var k :| 0 <= k < |FallbackStressKeywords| && Contains(FallbackText(r), FallbackStressKeywords[k]);
    assert StressKeywords[k] == FallbackStressKeywords[k];
  }

  /** `workRelatedCount` is counted but enters neither formula. */
  lemma WorkCountIgnored(s: FeatureSummary, w: nat)
    requires s.totalReminders > 0
    ensures FallbackDuration(s.(workRelatedCount := w)) == FallbackDuration(s)
    ensures FallbackConsistency(s.(workRelatedCount := w)) == FallbackConsistency(s)
  {}

  // ---------------------------------------------------------------------------------------
  // Which prediction the component holds
  // ---------------------------------------------------------------------------------------

  /** How the request went: it threw (network failure or an unreadable body), or it was
      answered with `{ ok, data }`. */
  datatype FetchOutcome = Threw | Answered(ok: bool, data: Prediction)

  /** The component's state: the prediction shown, whether it is still loading, and every
      value handed to the parent's `onSleepDataUpdate` callback (when the parent gave one). */
  class Dashboard {
    var sleepData: Option<Prediction>
    var loading: bool
    var delivered: seq<Prediction>
    const hasCallback: bool

    constructor(hasCallback: bool)
      ensures sleepData == None && loading && delivered == [] && this.hasCallback == hasCallback
    {
      this.hasCallback := hasCallback;
      sleepData := None;
      loading := true;
      delivered := [];
    }

    /** `fetchSleepPrediction`: an `ok` answer is shown and handed on; an answer that is not
        `ok` changes nothing; only a throw brings in the local fallback. Loading ends in
        every case. */
    method FetchSleepPrediction(userReminders: seq<Reminder>, outcome: FetchOutcome)
      modifies this
      ensures !loading
      ensures outcome.Threw? ==>
        sleepData == Some(Fallback(Some(userReminders)))
        && delivered == old(delivered) + (if hasCallback then [Fallback(Some(userReminders))] else [])
      ensures outcome.Answered? && outcome.ok ==>
        sleepData == Some(outcome.data)
        && delivered == old(delivered) + (if hasCallback then [outcome.data] else [])
      ensures outcome.Answered? && !outcome.ok ==>
        sleepData == old(sleepData) && delivered == old(delivered)
    {
      match outcome {
        case Answered(ok, data) =>
          if ok {
            sleepData := Some(data);
            if hasCallback { delivered := delivered + [data]; }
          }
        case Threw =>
          var fallbackData := AnalyzeRemindersFallback(Some(userReminders));
          sleepData := Some(fallbackData);
          if hasCallback { delivered := delivered + [fallbackData]; }
      }
      loading := false;
    }

    /** The effect on `reminders`: a request is made only when the list is present. */
    method RemindersChanged(reminders: Option<seq<Reminder>>, outcome: FetchOutcome)
      modifies this
      ensures reminders.None? ==>
        sleepData == old(sleepData) && loading == old(loading) && delivered == old(delivered)
      ensures reminders.Some? ==> !loading
      ensures reminders.Some? && outcome.Threw? ==>
        sleepData == Some(Fallback(reminders))
        && delivered == old(delivered) + (if hasCallback then [Fallback(reminders)] else [])
      ensures reminders.Some? && outcome.Answered? && outcome.ok ==>
        sleepData == Some(outcome.data)
        && delivered == old(delivered) + (if hasCallback then [outcome.data] else [])
      ensures reminders.Some? && outcome.Answered? && !outcome.ok ==>
        sleepData == old(sleepData) && delivered == old(delivered)
    {
      if reminders.Some? {
        FetchSleepPrediction(reminders.value, outcome);
      }
    }
  }

  // ---------------------------------------------------------------------------------------
  // The weekly series
  // ---------------------------------------------------------------------------------------

  datatype WeeklyData = WeeklyData(weeklySleep: seq<real>, weeklyWakeup: seq<real>)

  /** Saturday and Friday (indices 5 and 6 of SUN..SAT) as the source counts the weekend. */
  predicate Weekend(index: nat) { index >= 5 }

  /** One day of sleep before rounding: the base, the jitter `(draw - 0.5) * consistency`,
      the day adjustment, clamped to [4, 10]. */
  function SleepDay(baseSleep: real, consistency: real, index: nat, draw: real): real {
    Max(4.0, Min(10.0, SleepRaw(baseSleep, consistency, index, draw)))
  }

  /** The sleep value before the clamp. */
  function SleepRaw(baseSleep: real, consistency: real, index: nat, draw: real): real {
    baseSleep + (draw - 0.5) * consistency + (if Weekend(index) then 0.8 else -0.3)
  }

  /** One day of wake-up time before rounding: 7 plus twice the jitter and the day
      adjustment, clamped to [5, 10]. */
  function WakeDay(consistency: real, index: nat, draw: real): real {
    Max(5.0, Min(10.0, WakeRaw(consistency, index, draw)))
  }

  /** The wake-up value before the clamp. */
  function WakeRaw(consistency: real, index: nat, draw: real): real {
    7.0 + (draw - 0.5) * consistency * 2.0 + (if Weekend(index) then 1.5 else 0.0)
  }

  /** The module-level `generateWeeklyData`: the seven sleep values take the first seven
      random draws, the seven wake-up values the next seven; each is rounded to one decimal.
      The `analysis` argument is not used. */
  function GenerateWeeklyData(baseSleep: real, consistency: real, draws: seq<real>): (w: WeeklyData)
    requires |draws| == 14
    ensures |w.weeklySleep| == 7 && |w.weeklyWakeup| == 7
  {
    WeeklyData(
      seq(7, i requires 0 <= i < 7 => Round1(SleepDay(baseSleep, consistency, i, draws[i]))),
      seq(7, i requires 0 <= i < 7 => Round1(WakeDay(consistency, i, draws[7 + i]))))
  }

  const PlaceholderSleep: seq<real> := [7.0, 8.0, 5.0, 3.0, 6.0, 6.0, 8.0]
  const PlaceholderWakeup: seq<real> := [6.0, 7.0, 8.0, 6.0, 5.0, 9.0, 5.0]

  /** The series a chart draws: generated from the prediction, or the fixed placeholder
      when there is none. Each chart calls the generator on its own draws. */
  function ChartData(sleepData: Option<Prediction>, draws: seq<real>): WeeklyData
    requires |draws| == 14
  {
    match sleepData
    case None => WeeklyData(PlaceholderSleep, PlaceholderWakeup)
    case Some(p) =>
      GenerateWeeklyData(p.predictedSleepDuration, p.predictedWakeupConsistency, draws)
  }

  /** The sleep chart draws the sleep series of its own call, the wake-up chart the wake-up
      series of another call. */
  function SleepChart(sleepData: Option<Prediction>, draws: seq<real>): seq<real>
    requires |draws| == 14
  {
    ChartData(sleepData, draws).weeklySleep
  }

  function WakeChart(sleepData: Option<Prediction>, draws: seq<real>): seq<real>
    requires |draws| == 14
  {
    ChartData(sleepData, draws).weeklyWakeup
  }

  /** Every generated value lies in its clamp range and has one decimal. */
  lemma WeeklyBounds(baseSleep: real, consistency: real, draws: seq<real>)
    requires |draws| == 14
    ensures var w := GenerateWeeklyData(baseSleep, consistency, draws);
      forall i :: 0 <= i < 7 ==>
        4.0 <= w.weeklySleep[i] <= 10.0 && OneDecimal(w.weeklySleep[i])
        && 5.0 <= w.weeklyWakeup[i] <= 10.0 && OneDecimal(w.weeklyWakeup[i])
  {
    forall i | 0 <= i < 7
      ensures 4.0 <= Round1(SleepDay(baseSleep, consistency, i, draws[i])) <= 10.0
      ensures OneDecimal(Round1(SleepDay(baseSleep, consistency, i, draws[i])))
      ensures 5.0 <= Round1(WakeDay(consistency, i, draws[7 + i])) <= 10.0
      ensures OneDecimal(Round1(WakeDay(consistency, i, draws[7 + i])))
    {
      Round1Between(SleepDay(baseSleep, consistency, i, draws[i]), 4.0, 10.0);
      Round1Near(SleepDay(baseSleep, consistency, i, draws[i]));
      Round1Between(WakeDay(consistency, i, draws[7 + i]), 5.0, 10.0);
      Round1Near(WakeDay(consistency, i, draws[7 + i]));
    }
  }

  /** A draw of 0.5 adds no jitter: the day is the clamped base plus its day adjustment, +0.8
      (sleep) and +1.5 (wake-up) for indices 5 and 6, -0.3 and 0 for the others. */
  lemma MidDrawNoJitter(baseSleep: real, consistency: real, index: nat)
    ensures SleepDay(baseSleep, consistency, index, 0.5)
      == Clamp(baseSleep + (if index >= 5 then 0.8 else -0.3), 4.0, 10.0)
    ensures WakeDay(consistency, index, 0.5) == (if index >= 5 then 8.5 else 7.0)
  {}

  /** With the same draw, a weekend day never sleeps or wakes less than a weekday: the raw
      values differ by exactly 1.1 h and 1.5 h, and the clamp is monotone. */
  lemma WeekendLift(baseSleep: real, consistency: real, weekday: nat, weekend: nat, draw: real)
    requires weekday < 5 <= weekend
    ensures SleepDay(baseSleep, consistency, weekday, draw) <= SleepDay(baseSleep, consistency, weekend, draw)
    ensures WakeDay(consistency, weekday, draw) <= WakeDay(consistency, weekend, draw)
    ensures SleepDay(baseSleep, consistency, weekend, draw)
      <= SleepDay(baseSleep, consistency, weekday, draw) + 1.1
    ensures WakeDay(consistency, weekend, draw) <= WakeDay(consistency, weekday, draw) + 1.5
    ensures SleepRaw(baseSleep, consistency, weekend, draw) == SleepRaw(baseSleep, consistency, weekday, draw) + 1.1
    ensures WakeRaw(consistency, weekend, draw) == WakeRaw(consistency, weekday, draw) + 1.5
  {}

  /** With draws in [0, 1) and a non-negative consistency the jitter moves a day by at most
      half the consistency (sleep) and the whole consistency (wake-up) before clamping. */
  lemma JitterBounded(consistency: real, draw: real)
    requires consistency >= 0.0 && 0.0 <= draw < 1.0
    ensures -consistency / 2.0 <= (draw - 0.5) * consistency <= consistency / 2.0
    ensures -consistency <= (draw - 0.5) * consistency * 2.0 <= consistency
  {
    assert -0.5 <= draw - 0.5 < 0.5;
    assert (draw - 0.5) * consistency <= 0.5 * consistency by {
      assert (0.5 - (draw - 0.5)) * consistency >= 0.0;
    }
    assert (draw - 0.5) * consistency >= -0.5 * consistency by {
      assert ((draw - 0.5) + 0.5) * consistency >= 0.0;
    }
  }

  /** Without a prediction both charts show the fixed placeholder series. */
  lemma PlaceholderSeries(draws: seq<real>)
    requires |draws| == 14
    ensures SleepChart(None, draws) == [7.0, 8.0, 5.0, 3.0, 6.0, 6.0, 8.0]
    ensures WakeChart(None, draws) == [6.0, 7.0, 8.0, 6.0, 5.0, 9.0, 5.0]
  {}

  /** With one, each chart shows seven values in its range. */
  lemma ChartShape(p: Prediction, draws: seq<real>)
    requires |draws| == 14
    ensures |SleepChart(Some(p), draws)| == 7 && |WakeChart(Some(p), draws)| == 7
    ensures forall i :: 0 <= i < 7 ==> 4.0 <= SleepChart(Some(p), draws)[i] <= 10.0
    ensures forall i :: 0 <= i < 7 ==> 5.0 <= WakeChart(Some(p), draws)[i] <= 10.0
  {
    WeeklyBounds(p.predictedSleepDuration, p.predictedWakeupConsistency, draws);
  }
}
