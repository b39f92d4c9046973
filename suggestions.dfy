/** The sleep-quality score and the personalised suggestions
    (app/_components/dashboard/personalized_suggestion.jsx). A prediction is turned into three
    sub-scores and a weighted score in [0, 10], and into a list of advice: one duration line,
    one consistency line, up to six lines about the analysis and three closing tips, ordered by
    priority with the generation order kept inside each priority. */
module Suggestions {
  import opened Common
  import opened Text
  import opened ReminderModel
  import opened SleepPrediction

  /** One line of advice, named by the rule that produces it. Each line has the text, priority
      and icon the component writes for it (`Text`, `Level`, `Icon`); the two lines that quote
      a count carry it. */
  datatype Suggestion =
    | ShortSleep | SlightlyShortSleep | HealthyDuration | LongSleep
    | IrregularWake | FairConsistency | ExcellentConsistency
    | ManyEvening(eveningCount: nat) | SomeEvening
    | ManyHighPriority(highPriorityCount: nat) | SomeHighPriority
    | LateNightReminders | StressContent | SleepJournal | WorkBalance
    | DaylightTip | ExerciseTip | ScreenTip
  {
    /** The `priority` of the pushed record. */
    function Level(): Priority {
      match this
      case ShortSleep => High
      case SlightlyShortSleep => Medium
      case HealthyDuration => Low
      case LongSleep => Medium
      case IrregularWake => High
      case FairConsistency => Medium
      case ExcellentConsistency => Low
      case ManyEvening(_) => High
      case SomeEvening => Medium
      case ManyHighPriority(_) => High
      case SomeHighPriority => Medium
      case LateNightReminders => High
      case StressContent => Medium
      case SleepJournal => Low
      case WorkBalance => Medium
      case DaylightTip => Low
      case ExerciseTip => Low
      case ScreenTip => Medium
    }

    /** The `text` of the pushed record. */
    function Text(): string {
      match this
      case ShortSleep =>
        "Your predicted sleep duration is below recommended levels. Consider adjusting your schedule to prioritize 7-9 hours of sleep."
      case SlightlyShortSleep =>
        "Your sleep duration is slightly below optimal. Try to gradually increase it by 15-30 minutes each night."
      case HealthyDuration =>
        "Great! Your predicted sleep duration is within the healthy range. Maintain this consistency for optimal rest."
      case LongSleep =>
        "You might be sleeping too much. While rest is important, excessive sleep can sometimes indicate other health issues."
      case IrregularWake =>
        "Your wake-up times show significant variation. Try setting a consistent alarm time, even on weekends."
      case FairConsistency =>
        "Good consistency in your sleep schedule. Small improvements in wake-up time regularity could enhance sleep quality."
      case ExcellentConsistency =>
        "Excellent sleep consistency! Maintaining regular sleep and wake times supports circadian rhythm and overall sleep quality."
      case ManyEvening(n) =>
        "You have " + NatToString(n) + " reminders scheduled in the evening. Consider moving non-urgent tasks to earlier times to reduce pre-sleep mental load."
      case SomeEvening =>
        "Evening reminders can disrupt wind-down time. Try completing tasks before 8 PM to create a relaxing pre-sleep routine."
      case ManyHighPriority(n) =>
        "You have " + NatToString(n) + " high-priority reminders. High-stress tasks can affect sleep quality. Consider breaking them into smaller, manageable steps."
      case SomeHighPriority =>
        "High-priority tasks identified. Try scheduling demanding tasks earlier in the day to reduce evening stress."
      case LateNightReminders =>
        "Late-night reminders detected. The hour before bed should be screen-free and relaxing for better sleep quality."
      case StressContent =>
        "Stress-related content found in your reminders. Consider incorporating relaxation techniques like meditation or deep breathing before bed."
      case SleepJournal =>
        "It's great that you're tracking sleep-related goals! Consider maintaining a sleep journal to identify patterns."
      case WorkBalance =>
        "Your reminders are heavily work-focused. Ensure you're scheduling personal time and relaxation to maintain work-life balance."
      case DaylightTip =>
        "Get morning daylight exposure to regulate your circadian rhythm and improve sleep-wake cycles."
      case ExerciseTip =>
        "Regular exercise during the day (but not right before bed) can significantly improve sleep quality."
      case ScreenTip =>
        "Limit blue-light exposure from screens at least 1 hour before bedtime, or use blue-light filters."
    }

    /** The `icon` of the pushed record. */
    function Icon(): string {
      match this
      case ShortSleep => "\U{26A0}\U{FE0F}"
      case SlightlyShortSleep => "\U{1F4CA}"
      case HealthyDuration => "\U{2705}"
      case LongSleep => "\U{1F6CC}"
      case IrregularWake => "\U{23F0}"
      case FairConsistency => "\U{1F44D}"
      case ExcellentConsistency => "\U{1F31F}"
      case ManyEvening(_) => "\U{1F319}"
      case SomeEvening => "\U{1F4DD}"
      case ManyHighPriority(_) => "\U{1F3AF}"
      case SomeHighPriority => "\U{26A1}"
      case LateNightReminders => "\U{1F4F1}"
      case StressContent => "\U{1F9D8}"
      case SleepJournal => "\U{1F4D3}"
      case WorkBalance => "\U{2696}\U{FE0F}"
      case DaylightTip => "\U{2600}\U{FE0F}"
      case ExerciseTip => "\U{1F3C3}"
      case ScreenTip => "\U{1F4BB}"
    }
  }

  datatype ScoreAndSuggestions = ScoreAndSuggestions(sleepScore: real, suggestions: seq<Suggestion>)

  const ClosingTips: seq<Suggestion> := [DaylightTip, ExerciseTip, ScreenTip]

  // ---------------------------------------------------------------------------------------
  // Scores
  // ---------------------------------------------------------------------------------------

  /** The duration sub-score: 8 inside the healthy 7-9 h band, lower outside it. */
  function DurationScore(d: real): (r: real)
    ensures r in {2.0, 4.0, 6.0, 7.0, 8.0}
    ensures r == 8.0 <==> 7.0 <= d <= 9.0
  {
    if 7.0 <= d <= 9.0 then 8.0
    else if 6.0 <= d < 7.0 then 6.0
    else if d > 9.0 then 7.0
    else if 5.0 <= d < 6.0 then 4.0
    else 2.0
  }

  /** The consistency sub-score: 10 minus three times the variation, never below 0. */
  function ConsistencyScore(c: real): (r: real)
    ensures r >= 0.0
    ensures c <= 10.0 / 3.0 ==> r == 10.0 - 3.0 * c
    ensures c >= 10.0 / 3.0 ==> r == 0.0
  {
    Max(0.0, 10.0 - c * 3.0)
  }

  /** The deductions and the bonus of the behaviour sub-score, one per analysis finding. */
  function EveningPenalty(a: FeatureSummary): real {
    if a.eveningReminders > 3 then 2.0 else if a.eveningReminders > 0 then 1.0 else 0.0
  }

  function HighPriorityPenalty(a: FeatureSummary): real {
    if a.highPriorityCount > 2 then 2.0 else if a.highPriorityCount > 0 then 1.0 else 0.0
  }

  /** The behaviour sub-score: 5, adjusted only when an analysis is present. */
  function BehaviorScore(analysis: Option<FeatureSummary>): real {
    match analysis
    case None => 5.0
    case Some(a) =>
      5.0 - EveningPenalty(a) - HighPriorityPenalty(a)
      - (if LateNight(a.latestReminderHour) then 1.5 else 0.0)
      - (if a.hasStressMentions then 1.0 else 0.0)
      + (if a.hasSleepMentions then 0.5 else 0.0)
  }

  /** `Math.min(10, Math.max(0, Math.round(finalScore * 100) / 100))`. */
  function SleepScore(p: Prediction): real {
    var finalScore := DurationScore(p.predictedSleepDuration) * 0.4
      + ConsistencyScore(p.predictedWakeupConsistency) * 0.3
      + BehaviorScore(p.analysis) * 0.3;
    Min(10.0, Max(0.0, Round2(finalScore)))
  }

  // ---------------------------------------------------------------------------------------
  // The generated list, rule by rule
  // ---------------------------------------------------------------------------------------

  function DurationAdvice(d: real): Suggestion {
    if d < 6.0 then ShortSleep
    else if 6.0 <= d < 7.0 then SlightlyShortSleep
    else if 7.0 <= d <= 9.0 then HealthyDuration
    else LongSleep
  }

  function ConsistencyAdvice(c: real): Suggestion {
    if c > 2.0 then IrregularWake
    else if c > 1.2 then FairConsistency
    else ExcellentConsistency
  }

  /** `workRelatedCount > totalReminders * 0.6`. */
  predicate WorkHeavy(a: FeatureSummary) {
    a.workRelatedCount as real > a.totalReminders as real * 0.6
  }

  /** The analysis rules, each contributing at most one line. */
  function EveningRule(a: FeatureSummary): (r: seq<Suggestion>)
    ensures |r| <= 1
  {
    if a.eveningReminders > 3 then [ManyEvening(a.eveningReminders)]
    else if a.eveningReminders > 0 then [SomeEvening] else []
  }

  function HighPriorityRule(a: FeatureSummary): (r: seq<Suggestion>)
    ensures |r| <= 1
  {
    if a.highPriorityCount > 2 then [ManyHighPriority(a.highPriorityCount)]
    else if a.highPriorityCount > 0 then [SomeHighPriority] else []
  }

  function LateNightRule(a: FeatureSummary): (r: seq<Suggestion>)
    ensures |r| <= 1
  {
    if LateNight(a.latestReminderHour) then [LateNightReminders] else []
  }

  function StressRule(a: FeatureSummary): (r: seq<Suggestion>)
    ensures |r| <= 1
  {
    if a.hasStressMentions then [StressContent] else []
  }

  function SleepRule(a: FeatureSummary): (r: seq<Suggestion>)
    ensures |r| <= 1
  {
    if a.hasSleepMentions then [SleepJournal] else []
  }

  function WorkRule(a: FeatureSummary): (r: seq<Suggestion>)
    ensures |r| <= 1
  {
    if WorkHeavy(a) then [WorkBalance] else []
  }

  /** The analysis rules' lines in the order they push. */
  function AnalysisAdvice(a: FeatureSummary): seq<Suggestion> {
    EveningRule(a) + HighPriorityRule(a) + LateNightRule(a) + StressRule(a) + SleepRule(a)
    + WorkRule(a)
  }

  /** `list` with the analysis rules' lines pushed onto it, one rule after the other. */
  function PushedAnalysisAdvice(list: seq<Suggestion>, a: FeatureSummary): (r: seq<Suggestion>)
    ensures r == list + AnalysisAdvice(a)
  {
    list + EveningRule(a) + HighPriorityRule(a) + LateNightRule(a) + StressRule(a) + SleepRule(a)
    + WorkRule(a)
  }

  /** The list in generation order, before sorting. */
  function Generated(p: Prediction): seq<Suggestion> {
    var head := [DurationAdvice(p.predictedSleepDuration), ConsistencyAdvice(p.predictedWakeupConsistency)];
    (if p.analysis.Some? then PushedAnalysisAdvice(head, p.analysis.value) else head) + ClosingTips
  }

  // ---------------------------------------------------------------------------------------
  // Ordering by priority
  // ---------------------------------------------------------------------------------------

  /** `priorityOrder`: high 0, medium 1, low 2. */
  function Rank(p: Priority): nat {
    match p
    case High => 0
    case Medium => 1
    case Low => 2
  }

  predicate SortedByRank(s: seq<Suggestion>) {
    forall i, j :: 0 <= i < j < |s| ==> Rank(s[i].Level()) <= Rank(s[j].Level())
  }

  /** The elements of one priority, in their original order. */
  function OfPriority(s: seq<Suggestion>, p: Priority): (r: seq<Suggestion>)
    ensures |r| <= |s|
    ensures forall i :: 0 <= i < |r| ==> r[i].Level() == p
  {
    if s == [] then [] else (if s[0].Level() == p then [s[0]] else []) + OfPriority(s[1..], p)
  }

  /** What the stable comparison sort on the ranks produces: the high elements, then the
      medium ones, then the low ones, each group in its original order. */
  function SortByPriority(s: seq<Suggestion>): seq<Suggestion> {
    OfPriority(s, High) + OfPriority(s, Medium) + OfPriority(s, Low)
  }

  // ---------------------------------------------------------------------------------------
  // The component's computation
  // ---------------------------------------------------------------------------------------

  /** What `sleepScoreAndSuggestions` yields. */
  function Evaluate(sleepData: Option<Prediction>): ScoreAndSuggestions {
    match sleepData
    case None => ScoreAndSuggestions(6.12, [])
    case Some(p) => ScoreAndSuggestions(SleepScore(p), SortByPriority(Generated(p)))
  }

  /** The score half of `sleepScoreAndSuggestions`: the sub-scores, the `-=` / `+=` updates of
      the behaviour score, the weighting, the rounding and the clamp. */
  method ComputeSleepScore(p: Prediction) returns (sleepScore: real)
    ensures sleepScore == SleepScore(p)
  {
    var durationScore := DurationScore(p.predictedSleepDuration);
    var consistencyScore := Max(0.0, 10.0 - p.predictedWakeupConsistency * 3.0);

    var behaviorScore := 5.0;
    if p.analysis.Some? {
      var a := p.analysis.value;
      if a.eveningReminders > 3 { behaviorScore := behaviorScore - 2.0; }
      else if a.eveningReminders > 0 { behaviorScore := behaviorScore - 1.0; }
      if a.highPriorityCount > 2 { behaviorScore := behaviorScore - 2.0; }
      else if a.highPriorityCount > 0 { behaviorScore := behaviorScore - 1.0; }
      if a.latestReminderHour.Some? && a.latestReminderHour.value >= 22 {
        behaviorScore := behaviorScore - 1.5;
      }
      if a.hasStressMentions { behaviorScore := behaviorScore - 1.0; }
      if a.hasSleepMentions { behaviorScore := behaviorScore + 0.5; }
    }
    var finalScore := durationScore * 0.4 + consistencyScore * 0.3 + behaviorScore * 0.3;
    sleepScore := Min(10.0, Max(0.0, Round2(finalScore)));
  }

  /** The list half of `sleepScoreAndSuggestions`: the pushes in rule order. */
  method BuildSuggestions(p: Prediction) returns (newSuggestions: seq<Suggestion>)
    ensures newSuggestions == Generated(p)
  {
    var duration := p.predictedSleepDuration;
    var consistency := p.predictedWakeupConsistency;
    newSuggestions := [];
    if duration < 6.0 {
      newSuggestions := newSuggestions + [ShortSleep];
    } else if duration >= 6.0 && duration < 7.0 {
      newSuggestions := newSuggestions + [SlightlyShortSleep];
    } else if duration >= 7.0 && duration <= 9.0 {
      newSuggestions := newSuggestions + [HealthyDuration];
    } else {
      newSuggestions := newSuggestions + [LongSleep];
    }
    if consistency > 2.0 {
      newSuggestions := newSuggestions + [IrregularWake];
    } else if consistency > 1.2 {
      newSuggestions := newSuggestions + [FairConsistency];
    } else {
      newSuggestions := newSuggestions + [ExcellentConsistency];
    }
    assert newSuggestions == [DurationAdvice(duration), ConsistencyAdvice(consistency)];
    if p.analysis.Some? {
      newSuggestions := PushAnalysisAdvice(newSuggestions, p.analysis.value);
    }
    ghost var beforeTips := newSuggestions;
    newSuggestions := newSuggestions + [DaylightTip];
    newSuggestions := newSuggestions + [ExerciseTip];
    newSuggestions := newSuggestions + [ScreenTip];
    assert newSuggestions == beforeTips + ClosingTips;
  }

  /** The pushes of the analysis rules onto the list built so far. */
  method PushAnalysisAdvice(list: seq<Suggestion>, a: FeatureSummary) returns (pushed: seq<Suggestion>)
    ensures pushed == PushedAnalysisAdvice(list, a)
  {
    pushed := list;
    if a.eveningReminders > 3 {
      pushed := pushed + [ManyEvening(a.eveningReminders)];
    } else if a.eveningReminders > 0 {
      pushed := pushed + [SomeEvening];
    }
    ghost var step := pushed;
    assert step == list + EveningRule(a);
    if a.highPriorityCount > 2 {
      pushed := pushed + [ManyHighPriority(a.highPriorityCount)];
    } else if a.highPriorityCount > 0 {
      pushed := pushed + [SomeHighPriority];
    }
    assert pushed == step + HighPriorityRule(a);
    step := pushed;
    if a.latestReminderHour.Some? && a.latestReminderHour.value >= 22 {
      pushed := pushed + [LateNightReminders];
    }
    assert pushed == step + LateNightRule(a);
    step := pushed;
    if a.hasStressMentions { pushed := pushed + [StressContent]; }
    assert pushed == step + StressRule(a);
    step := pushed;
    if a.hasSleepMentions { pushed := pushed + [SleepJournal]; }
    assert pushed == step + SleepRule(a);
    step := pushed;
    if a.workRelatedCount as real > a.totalReminders as real * 0.6 {
      pushed := pushed + [WorkBalance];
    }
    assert pushed == step + WorkRule(a);
  }

  /** `sleepScoreAndSuggestions`: the fixed answer without sleep data; otherwise the score, the
      generated list, and the sort. */
  method SleepScoreAndSuggestions(sleepData: Option<Prediction>) returns (r: ScoreAndSuggestions)
    ensures r == Evaluate(sleepData)
  {
    if sleepData.None? {
      return ScoreAndSuggestions(6.12, []);
    }
    var sleepScore := ComputeSleepScore(sleepData.value);
    var newSuggestions := BuildSuggestions(sleepData.value);
    newSuggestions := SortByPriority(newSuggestions);
    r := ScoreAndSuggestions(sleepScore, newSuggestions);
  }

  // ---------------------------------------------------------------------------------------
  // Display helpers
  // ---------------------------------------------------------------------------------------

  /** `getScoreDescription`. */
  function ScoreDescription(score: real): string {
    if score >= 8.0 then "Excellent"
    else if score >= 6.0 then "Good"
    else if score >= 4.0 then "Fair"
    else "Needs Improvement"
  }

  /** `getScoreColor`. */
  function ScoreColor(score: real): string {
    if score >= 8.0 then "text-green-600"
    else if score >= 6.0 then "text-amber-600"
    else if score >= 4.0 then "text-orange-600"
    else "text-red-600"
  }

  /** The band a score falls in, 3 for the best. */
  function Band(score: real): nat {
    if score >= 8.0 then 3 else if score >= 6.0 then 2 else if score >= 4.0 then 1 else 0
  }

  /** `suggestions.slice(0, 6)`: the lines rendered. */
  function Displayed(s: seq<Suggestion>): (r: seq<Suggestion>)
    ensures |r| <= 6 && r <= s
    ensures |s| <= 6 ==> r == s
  {
    if |s| <= 6 then s else s[..6]
  }

  // ---------------------------------------------------------------------------------------
  // Properties
  // ---------------------------------------------------------------------------------------

  /** Without sleep data the score is 6.12 and there is no advice. */
  lemma NoDataNoAdvice()
    ensures Evaluate(None) == ScoreAndSuggestions(6.12, [])
    ensures Displayed(Evaluate(None).suggestions) == []
  {}

  /** The duration sub-score table. */
  lemma DurationScoreBands(d: real)
    ensures 7.0 <= d <= 9.0 ==> DurationScore(d) == 8.0
    ensures 6.0 <= d < 7.0 ==> DurationScore(d) == 6.0
    ensures d > 9.0 ==> DurationScore(d) == 7.0
    ensures 5.0 <= d < 6.0 ==> DurationScore(d) == 4.0
    ensures d < 5.0 ==> DurationScore(d) == 2.0
  {}

  /** The behaviour sub-score is 5 without an analysis and always lies in [-1.5, 5.5]. */
  lemma BehaviorScoreRange(analysis: Option<FeatureSummary>)
    ensures -1.5 <= BehaviorScore(analysis) <= 5.5
    ensures analysis.None? ==> BehaviorScore(analysis) == 5.0
    ensures BehaviorScore(analysis) == 5.5 <==>
      analysis.Some? && analysis.value.hasSleepMentions && analysis.value.eveningReminders == 0
      && analysis.value.highPriorityCount == 0 && !LateNight(analysis.value.latestReminderHour)
      && !analysis.value.hasStressMentions
  {}

  /** The score always lies in [0, 10] on the two-decimal grid, and for a prediction whose
      values lie in the prediction engines' ranges it is the rounded weighted sum itself. */
  lemma SleepScoreRange(p: Prediction)
    ensures 0.0 <= SleepScore(p) <= 10.0 && TwoDecimals(SleepScore(p))
    ensures 0.5 <= p.predictedWakeupConsistency <= 3.0 ==>
      SleepScore(p) == Round2(DurationScore(p.predictedSleepDuration) * 0.4
        + (10.0 - 3.0 * p.predictedWakeupConsistency) * 0.3 + BehaviorScore(p.analysis) * 0.3)
  {
    var finalScore := DurationScore(p.predictedSleepDuration) * 0.4
      + ConsistencyScore(p.predictedWakeupConsistency) * 0.3
      + BehaviorScore(p.analysis) * 0.3;
    Round2Near(finalScore);
    assert TwoDecimals(0.0) && TwoDecimals(10.0);
    if 0.5 <= p.predictedWakeupConsistency <= 3.0 {
      BehaviorScoreRange(p.analysis);
      assert 0.0 <= finalScore <= 3.2 + 2.55 + 1.65;
      Round2Monotone(0.0, finalScore);
      Round2Monotone(finalScore, 10.0);
      Round2Grid(0.0);
      Round2Grid(10.0);
    }
  }

  /** The analysis contributes at most six lines. */
  lemma AnalysisAdviceLength(a: FeatureSummary)
    ensures |AnalysisAdvice(a)| <= 6
  {}

  predicate IsDurationLine(s: Suggestion) {
    s.ShortSleep? || s.SlightlyShortSleep? || s.HealthyDuration? || s.LongSleep?
  }

  predicate IsConsistencyLine(s: Suggestion) {
    s.IrregularWake? || s.FairConsistency? || s.ExcellentConsistency?
  }

  /** With sleep data the list holds exactly one duration line, first, and exactly one
      consistency line, second; it ends with the three tips and has between 5 and 11 lines. */
  lemma GeneratedShape(p: Prediction)
    ensures var g := Generated(p);
      5 <= |g| <= 11
      && (forall i :: 0 <= i < |g| ==> (IsDurationLine(g[i]) <==> i == 0))
      && (forall i :: 0 <= i < |g| ==> (IsConsistencyLine(g[i]) <==> i == 1))
      && g[|g| - 3..] == ClosingTips
    ensures p.analysis.None? ==> |Generated(p)| == 5
  {
    var g := Generated(p);
    var head := [DurationAdvice(p.predictedSleepDuration), ConsistencyAdvice(p.predictedWakeupConsistency)];
    var middle := if p.analysis.Some? then AnalysisAdvice(p.analysis.value) else [];
    assert g == head + middle + ClosingTips;
    MiddleLines(p.analysis);
    LinePositions(head, middle);
    assert g[|g| - 3..] == ClosingTips;
  }

  /** Where the duration and consistency lines sit in `head + middle + ClosingTips`. */
  lemma LinePositions(head: seq<Suggestion>, middle: seq<Suggestion>)
    requires |head| == 2
    requires IsDurationLine(head[0]) && !IsConsistencyLine(head[0])
    requires !IsDurationLine(head[1]) && IsConsistencyLine(head[1])
    requires forall i :: 0 <= i < |middle| ==> !IsDurationLine(middle[i]) && !IsConsistencyLine(middle[i])
    ensures var g := head + middle + ClosingTips;
      (forall i :: 0 <= i < |g| ==> (IsDurationLine(g[i]) <==> i == 0))
      && (forall i :: 0 <= i < |g| ==> (IsConsistencyLine(g[i]) <==> i == 1))
  {
    var g := head + middle + ClosingTips;
    forall i | 0 <= i < |g|
      ensures (IsDurationLine(g[i]) <==> i == 0) && (IsConsistencyLine(g[i]) <==> i == 1)
    {
      if i >= 2 + |middle| {
        assert g[i] == ClosingTips[i - 2 - |middle|];
      } else if i >= 2 {
        assert g[i] == middle[i - 2];
      } else {
        assert g[i] == head[i];
      }
    }
  }

  /** The analysis never adds a duration or a consistency line, and adds at most six lines. */
  lemma MiddleLines(analysis: Option<FeatureSummary>)
    ensures var middle := if analysis.Some? then AnalysisAdvice(analysis.value) else [];
      |middle| <= 6
      && forall i :: 0 <= i < |middle| ==> !IsDurationLine(middle[i]) && !IsConsistencyLine(middle[i])
  {
    if analysis.Some? {
      var a := analysis.value;
      ConcatLines(EveningRule(a), HighPriorityRule(a), LateNightRule(a), StressRule(a),
                  SleepRule(a), WorkRule(a));
    }
  }

  lemma ConcatLines(a: seq<Suggestion>, b: seq<Suggestion>, c: seq<Suggestion>,
                    d: seq<Suggestion>, e: seq<Suggestion>, f: seq<Suggestion>)
    requires forall j :: 0 <= j < |a| ==> !IsDurationLine(a[j]) && !IsConsistencyLine(a[j])
    requires forall j :: 0 <= j < |b| ==> !IsDurationLine(b[j]) && !IsConsistencyLine(b[j])
    requires forall j :: 0 <= j < |c| ==> !IsDurationLine(c[j]) && !IsConsistencyLine(c[j])
    requires forall j :: 0 <= j < |d| ==> !IsDurationLine(d[j]) && !IsConsistencyLine(d[j])
    requires forall j :: 0 <= j < |e| ==> !IsDurationLine(e[j]) && !IsConsistencyLine(e[j])
    requires forall j :: 0 <= j < |f| ==> !IsDurationLine(f[j]) && !IsConsistencyLine(f[j])
    ensures var s := a + b + c + d + e + f;
      forall j :: 0 <= j < |s| ==> !IsDurationLine(s[j]) && !IsConsistencyLine(s[j])
  {}

  /** The work-balance line appears exactly when more than 60% of the reminders are work
      or finance reminders. */
  lemma WorkBalanceIff(p: Prediction)
    ensures WorkBalance in Generated(p) <==> p.analysis.Some? && WorkHeavy(p.analysis.value)
  {
    var head := [DurationAdvice(p.predictedSleepDuration), ConsistencyAdvice(p.predictedWakeupConsistency)];
    assert WorkBalance !in head && WorkBalance !in ClosingTips;
    if p.analysis.Some? {
      var a := p.analysis.value;
      var before := EveningRule(a) + HighPriorityRule(a) + LateNightRule(a) + StressRule(a) + SleepRule(a);
      assert WorkBalance !in before;
      assert Generated(p) == head + (before + WorkRule(a)) + ClosingTips;
    } else {
      assert Generated(p) == head + ClosingTips;
    }
  }

  lemma {:induction false} OfPriorityAppend(a: seq<Suggestion>, b: seq<Suggestion>, p: Priority)
    ensures OfPriority(a + b, p) == OfPriority(a, p) + OfPriority(b, p)
  {
    if a != [] {
      var head := if a[0].Level() == p then [a[0]] else [];
      assert (a + b)[0] == a[0];
      assert (a + b)[1..] == a[1..] + b;
      assert OfPriority(a + b, p) == head + OfPriority(a[1..] + b, p);
      OfPriorityAppend(a[1..], b, p);
      assert OfPriority(a, p) == head + OfPriority(a[1..], p);
    } else {
      assert a + b == b;
    }
  }

  /** The sorted list is ordered high, medium, low. */
  lemma SortedBySortByPriority(s: seq<Suggestion>)
    ensures SortedByRank(SortByPriority(s))
  {
    var h, m, l := OfPriority(s, High), OfPriority(s, Medium), OfPriority(s, Low);
    var r := SortByPriority(s);
    forall i, j | 0 <= i < j < |r|
      ensures Rank(r[i].Level()) <= Rank(r[j].Level())
    {
      if i < |h| { assert r[i] == h[i]; }
      else if i < |h| + |m| {
        assert r[i] == m[i - |h|];
        if j < |h| + |m| { assert r[j] == m[j - |h|]; } else { assert r[j] == l[j - |h| - |m|]; }
      } else {
        assert r[i] == l[i - |h| - |m|];
        assert r[j] == l[j - |h| - |m|];
      }
    }
  }

  /** Sorting loses and invents nothing: the result is a permutation of its input. */
  lemma {:induction false} SortByPriorityPermutes(s: seq<Suggestion>)
    ensures multiset(SortByPriority(s)) == multiset(s)
  {
    if s != [] {
      var x, rest := s[0], s[1..];
      SortByPriorityPermutes(rest);
      assert s == [x] + rest;
      FilterStep(x, rest, High);
      FilterStep(x, rest, Medium);
      FilterStep(x, rest, Low);
    }
  }

  lemma FilterStep(x: Suggestion, rest: seq<Suggestion>, q: Priority)
    ensures multiset(OfPriority([x] + rest, q))
      == (if x.Level() == q then multiset{x} else multiset{}) + multiset(OfPriority(rest, q))
  {
    assert ([x] + rest)[1..] == rest;
  }

  /** Stability: within each priority, the sorted list keeps the generation order. */
  lemma SortByPriorityStable(s: seq<Suggestion>, p: Priority)
    ensures OfPriority(SortByPriority(s), p) == OfPriority(s, p)
  {
    var h, m, l := OfPriority(s, High), OfPriority(s, Medium), OfPriority(s, Low);
    OfPriorityAppend(h + m, l, p);
    OfPriorityAppend(h, m, p);
    OnlyPriority(h, High, p);
    OnlyPriority(m, Medium, p);
    OnlyPriority(l, Low, p);
    OfPriorityOfPriority(s, p);
  }

  /** Filtering a list whose elements all have priority `q`. */
  lemma {:induction false} OnlyPriority(s: seq<Suggestion>, q: Priority, p: Priority)
    requires forall i :: 0 <= i < |s| ==> s[i].Level() == q
    ensures OfPriority(s, p) == if p == q then s else []
  {
    if s != [] {
      OnlyPriority(s[1..], q, p);
    }
  }

  lemma {:induction false} OfPriorityOfPriority(s: seq<Suggestion>, p: Priority)
    ensures OfPriority(OfPriority(s, p), p) == OfPriority(s, p)
  {
    OnlyPriority(OfPriority(s, p), p, p);
  }

  /** A list already sorted by rank is its own high, medium and low groups in turn. */
  lemma {:induction false} SortedIsGrouped(t: seq<Suggestion>)
    requires SortedByRank(t)
    ensures t == SortByPriority(t)
  {
    if t != [] {
      var rest := t[1..];
      assert SortedByRank(rest) by {
        forall i, j | 0 <= i < j < |rest| ensures Rank(rest[i].Level()) <= Rank(rest[j].Level()) {
          assert rest[i] == t[i + 1] && rest[j] == t[j + 1];
        }
      }
      assert forall i :: 0 <= i < |rest| ==> Rank(t[0].Level()) <= Rank(rest[i].Level()) by {
        forall i | 0 <= i < |rest| ensures Rank(t[0].Level()) <= Rank(rest[i].Level()) {
          assert rest[i] == t[i + 1];
        }
      }
      SortedIsGrouped(rest);
      ConsGrouped(t[0], rest);
      assert t == [t[0]] + rest;
    }
  }

  /** One step of `SortedIsGrouped`: putting an element of lowest rank in front of a grouped
      list keeps it grouped. */
  lemma ConsGrouped(x: Suggestion, rest: seq<Suggestion>)
    requires rest == SortByPriority(rest)
    requires forall i :: 0 <= i < |rest| ==> Rank(x.Level()) <= Rank(rest[i].Level())
    ensures [x] + rest == SortByPriority([x] + rest)
  {
    match x.Level()
    case High =>
      ConsInGroup(x, rest);
    case Medium =>
      NoneOfPriority(rest, High);
      ConsInGroup(x, rest);
    case Low =>
      NoneOfPriority(rest, High);
      NoneOfPriority(rest, Medium);
      ConsInGroup(x, rest);
  }

  /** `x` joins the front of its own group when no element of `rest` has a higher rank. */
  lemma ConsInGroup(x: Suggestion, rest: seq<Suggestion>)
    requires rest == SortByPriority(rest)
    requires x.Level() != High ==> OfPriority(rest, High) == []
    requires x.Level() == Low ==> OfPriority(rest, Medium) == []
    ensures [x] + rest == SortByPriority([x] + rest)
  {
    var h, m, l := OfPriority(rest, High), OfPriority(rest, Medium), OfPriority(rest, Low);
    OfPriorityCons(x, rest, High);
    OfPriorityCons(x, rest, Medium);
    OfPriorityCons(x, rest, Low);
    Regroup(x, h, m, l, if x.Level() == High then [x] else [],
      if x.Level() == Medium then [x] else [], if x.Level() == Low then [x] else []);
  }

  /** Putting `x` in front of three groups, as the front of the first one that is non-empty
      or its own. */
  lemma Regroup(x: Suggestion, h: seq<Suggestion>, m: seq<Suggestion>, l: seq<Suggestion>,
                xh: seq<Suggestion>, xm: seq<Suggestion>, xl: seq<Suggestion>)
    requires (xh == [x] && xm == [] && xl == [])
      || (h == [] && xh == [] && xm == [x] && xl == [])
      || (h == [] && m == [] && xh == [] && xm == [] && xl == [x])
    ensures [x] + (h + m + l) == (xh + h) + (xm + m) + (xl + l)
  {
    if xh == [x] {
      assert (xh + h) + (xm + m) + (xl + l) == [x] + (h + m + l);
    } else if xm == [x] {
      assert (xh + h) + (xm + m) + (xl + l) == [x] + (m + l);
    } else {
      assert (xh + h) + (xm + m) + (xl + l) == [x] + l;
    }
  }

  lemma OfPriorityCons(x: Suggestion, rest: seq<Suggestion>, p: Priority)
    ensures OfPriority([x] + rest, p) == (if x.Level() == p then [x] else []) + OfPriority(rest, p)
  {
    assert ([x] + rest)[0] == x;
    assert ([x] + rest)[1..] == rest;
  }

  lemma {:induction false} NoneOfPriority(s: seq<Suggestion>, p: Priority)
    requires forall i :: 0 <= i < |s| ==> s[i].Level() != p
    ensures OfPriority(s, p) == []
  {
    if s != [] {
      NoneOfPriority(s[1..], p);
    }
  }

  /** The sort's outcome is the only order that is sorted by rank and stable: any list with
      those two properties and the same elements per priority is the sorted list. */
  lemma SortByPriorityUnique(s: seq<Suggestion>, t: seq<Suggestion>)
    requires SortedByRank(t)
    requires forall p :: OfPriority(t, p) == OfPriority(s, p)
    ensures t == SortByPriority(s)
  {
    SortedIsGrouped(t);
  }

  /** The component's list, with sleep data: the generated advice, sorted and stable. */
  lemma EvaluateSorted(p: Prediction)
    ensures var r := Evaluate(Some(p)).suggestions;
      SortedByRank(r) && multiset(r) == multiset(Generated(p))
      && (forall q :: OfPriority(r, q) == OfPriority(Generated(p), q))
      && 5 <= |r| <= 11
  {
    SortedBySortByPriority(Generated(p));
    SortByPriorityPermutes(Generated(p));
    forall q { SortByPriorityStable(Generated(p), q); }
    GeneratedShape(p);
    assert |SortByPriority(Generated(p))| == |multiset(Generated(p))|;
  }

  /** Description and colour name the same band, and both move up with the score. */
  lemma DescriptionMatchesColor(score: real)
    ensures ScoreDescription(score) == "Excellent" <==> ScoreColor(score) == "text-green-600"
    ensures ScoreDescription(score) == "Good" <==> ScoreColor(score) == "text-amber-600"
    ensures ScoreDescription(score) == "Fair" <==> ScoreColor(score) == "text-orange-600"
    ensures ScoreDescription(score) == "Needs Improvement" <==> ScoreColor(score) == "text-red-600"
    ensures ScoreDescription(score) == ["Needs Improvement", "Fair", "Good", "Excellent"][Band(score)]
  {}

  lemma BandMonotone(x: real, y: real)
    requires x <= y
    ensures Band(x) <= Band(y)
  {}
}
