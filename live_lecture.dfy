/** The faculty's live-lecture monitor: a session clock with Start, Pause and
    End, a classroom emotion distribution refreshed every few seconds while
    the session runs, the engagement score and its band, the attention alert
    derived from the distribution, and the per-student emotion thumbnails.
    The random numbers the page draws are parameters. */
module LiveLecture {

  import opened Types
  import opened Strings

  // ---------------------------------------------------------------------------
  // Emotion distribution and engagement score

  /** Percentages of the class in each emotional state. */
  datatype Distribution = Distribution(focused: nat, confused: nat, bored: nat, distracted: nat)

  /** The distribution shown before the first refresh. */
  const InitialMood := Distribution(55, 15, 20, 10)

  /** The engagement level shown before the first refresh. */
  const InitialEngagement := 75

  /** The distribution one refresh produces for the random number `rand`:
      above 0.7 a confusion spike, above 0.4 a milder one, otherwise a calm
      class. */
  function Scenario(rand: real): (d: Distribution)
    ensures d.focused + d.confused + d.bored + d.distracted == 100
  {
    if rand > 0.7 then Distribution(40, 35, 15, 10)
    else if rand > 0.4 then Distribution(50, 25, 15, 10)
    else Distribution(60, 15, 15, 10)
  }

  /** The weighted engagement: focused counts fully, confused by half, bored
      by a fifth, distracted not at all. */
  function Weighted(d: Distribution): real
  {
    d.focused as real + d.confused as real * 0.5 + d.bored as real * 0.2
  }

  /** `Math.round` of the weighted engagement, computed exactly in tenths. */
  function EngagementScore(d: Distribution): (score: int)
    ensures score as real - 0.5 <= Weighted(d) < score as real + 0.5
  {
    (10 * d.focused + 5 * d.confused + 2 * d.bored + 5) / 10
  }

  // ---------------------------------------------------------------------------
  // Attention alert

  datatype Severity = Critical | Warning

  datatype Alert = Alert(severity: Severity, title: string, details: string, recommendation: string)

  const CriticalTitle: string := "Critical Attention Drop Detected"
  const CriticalRecommendation: string := "Recommended: Pause and Review Concept"
  /** What follows the percentage in a critical alert's details. */
  const CriticalSuffix: string := "%" + " of students are showing confusion in the last 2 minutes"

  /** The fixed warning banner. */
  const WarningAlert := Alert(Warning, "Engagement Warning",
    "Subtle drop in attention detected across the classroom.",
    "Recommended: Ask a question to re-engage.")

  /** The alert rule, first match wins: more than 30% confused is critical;
      otherwise more than 20% confused or more than 15% distracted is a
      warning; otherwise there is no alert. */
  function AlertFor(confused: int, distracted: int): (a: Option<Alert>)
    ensures a.Some? <==> confused > 20 || distracted > 15
    ensures a.Some? ==> (a.value.severity == Critical <==> confused > 30)
    ensures a.Some? && a.value.severity == Warning ==> a.value == WarningAlert
    ensures a.Some? && a.value.severity == Critical ==>
      a.value.title == CriticalTitle && a.value.recommendation == CriticalRecommendation
  {
    if confused > 30 then
      Some(Alert(Critical, CriticalTitle, IntToString(confused) + CriticalSuffix, CriticalRecommendation))
    else if confused > 20 || distracted > 15 then Some(WarningAlert)
    else None
  }

  /** A critical alert's details begin with the confused percentage: reading
      the number back from the text gives it. */
  lemma CriticalDetailsReadBack(confused: int, distracted: int)
    requires confused > 30
    ensures AlertFor(confused, distracted).Some?
    ensures ParseInt(AlertFor(confused, distracted).value.details) == Some(confused)
  {
    ParseIntToString(confused, CriticalSuffix);
  }

  /** The three refresh outcomes: a calm class raises nothing and scores 71,
      the milder spike warns and scores 66, the confusion spike is critical
      and scores 61. */
  lemma ScenarioOutcomes(rand: real)
    ensures rand <= 0.4 ==>
      AlertFor(Scenario(rand).confused, Scenario(rand).distracted) == None
      && EngagementScore(Scenario(rand)) == 71
    ensures 0.4 < rand <= 0.7 ==>
      AlertFor(Scenario(rand).confused, Scenario(rand).distracted) == Some(WarningAlert)
      && EngagementScore(Scenario(rand)) == 66
    ensures rand > 0.7 ==>
      AlertFor(Scenario(rand).confused, Scenario(rand).distracted).Some?
      && AlertFor(Scenario(rand).confused, Scenario(rand).distracted).value.severity == Critical
      && EngagementScore(Scenario(rand)) == 61
  {
  }

  // ---------------------------------------------------------------------------
  // Engagement band

  datatype Band = High | Moderate | Low

  /** The tier of an engagement level: 70 and up is high, 40 and up moderate. */
  function BandOf(level: int): (b: Band)
    ensures b == High <==> level >= 70
    ensures b == Low <==> level < 40
  {
    if level >= 70 then High else if level >= 40 then Moderate else Low
  }

  function BandRank(b: Band): nat
  {
    match b
    case Low => 0
    case Moderate => 1
    case High => 2
  }

  /** A higher level never falls in a lower band. */
  lemma BandMonotone(a: int, b: int)
    requires a <= b
    ensures BandRank(BandOf(a)) <= BandRank(BandOf(b))
  {
  }

  /** The meter's label. */
  function LevelLabel(level: int): string
  {
    if level >= 70 then "High" else if level >= 40 then "Moderate" else "Low"
  }

  /** The label's text colour. */
  function LevelTextColor(level: int): string
  {
    if level >= 70 then "text-green-600" else if level >= 40 then "text-yellow-600" else "text-red-600"
  }

  /** The bar's fill colour. */
  function LevelBarColor(level: int): string
  {
    if level >= 70 then "bg-green-500" else if level >= 40 then "bg-yellow-500" else "bg-red-500"
  }

  /** The label, its colour and the bar's colour all follow the same band. */
  lemma BandsAgree(level: int)
    ensures LevelLabel(level) == "High" <==> BandOf(level) == High
    ensures LevelLabel(level) == "Low" <==> BandOf(level) == Low
    ensures LevelTextColor(level) == "text-green-600" <==> BandOf(level) == High
    ensures LevelTextColor(level) == "text-red-600" <==> BandOf(level) == Low
    ensures LevelBarColor(level) == "bg-green-500" <==> BandOf(level) == High
    ensures LevelBarColor(level) == "bg-red-500" <==> BandOf(level) == Low
  {
  }

  // ---------------------------------------------------------------------------
  // Session clock display

  /** `MM:SS`: whole minutes and remaining seconds, each padded to two digits. */
  function FormatTime(seconds: nat): (r: string)
    ensures |r| >= 5 && r[|r| - 3] == ':'
  {
    ToDecimalLength(seconds % 60);
    PadStart2(ToDecimal(seconds / 60)) + ":" + PadStart2(ToDecimal(seconds % 60))
  }

  /** Reading the clock back: the part before the colon is the whole minutes,
      the two digits after it the remaining seconds, together the elapsed
      time; under 100 minutes the text has exactly five characters. */
  lemma FormatTimeReadBack(seconds: nat, r: string)
    requires r == FormatTime(seconds)
    ensures AllDigits(r[..|r| - 3]) && AllDigits(r[|r| - 2..])
    ensures DigitsValue(r[|r| - 2..]) < 60
    ensures 60 * DigitsValue(r[..|r| - 3]) + DigitsValue(r[|r| - 2..]) == seconds
    ensures |r| == 5 <==> seconds < 6000
  {
    var m, s := seconds / 60, seconds % 60;
    var a, b := PadStart2(ToDecimal(m)), PadStart2(ToDecimal(s));
    assert r == a + ":" + b;
    ClockField(m);
    ClockField(s);
    ClockParts(a, b);
    assert m < 100 <==> seconds < 6000;
  }

  /** One field of the clock: padded digits that read back as the number,
      exactly two of them below 100. */
  lemma ClockField(n: nat)
    ensures AllDigits(PadStart2(ToDecimal(n)))
    ensures DigitsValue(PadStart2(ToDecimal(n))) == n
    ensures |PadStart2(ToDecimal(n))| == 2 <==> n < 100
  {
    ToDecimalLength(n);
    ToDecimalValue(n);
    PadStart2Value(ToDecimal(n));
  }

  /** The pieces around the colon of a clock text. */
  lemma ClockParts(a: string, b: string)
    requires |b| == 2
    ensures var r := a + ":" + b; r[..|r| - 3] == a && r[|r| - 2..] == b
  {
  }

  // ---------------------------------------------------------------------------
  // Student thumbnails

  datatype Emotion = Focused | Confused | Bored | Distracted

  /** The four labels, in the order a random pick indexes them. */
  const Labels: seq<Emotion> := [Focused, Confused, Bored, Distracted]

  function EmotionName(e: Emotion): string
  {
    match e
    case Focused => "Focused"
    case Confused => "Confused"
    case Bored => "Bored"
    case Distracted => "Distracted"
  }

  /** The tag colour for an emotion name; unknown names are grey. */
  function EmotionColor(emotion: string): string
  {
    if emotion == "Focused" then "bg-green-100 text-green-700"
    else if emotion == "Confused" then "bg-blue-100 text-blue-700"
    else if emotion == "Bored" then "bg-gray-100 text-gray-700"
    else if emotion == "Distracted" then "bg-red-100 text-red-700"
    else "bg-gray-100 text-gray-700"
  }

  /** Each label has its own colour except that bored shares the fallback
      grey; focused, confused and distracted are told apart. */
  lemma EmotionColorsDistinct(e: Emotion, f: Emotion)
    requires e != f && e != Bored && f != Bored
    ensures EmotionColor(EmotionName(e)) != EmotionColor(EmotionName(f))
    ensures EmotionColor(EmotionName(e)) != "bg-gray-100 text-gray-700"
  {
  }

  datatype StudentStream = StudentStream(id: nat, name: string, emotion: Emotion, isActive: bool)

  const InitialStreams: seq<StudentStream> := [
    StudentStream(1, "Student 1", Focused, true),
    StudentStream(2, "Student 2", Confused, true),
    StudentStream(3, "Student 3", Focused, true),
    StudentStream(4, "Student 4", Bored, true),
    StudentStream(5, "Student 5", Focused, true),
    StudentStream(6, "Student 6", Focused, true),
    StudentStream(7, "Student 7", Distracted, true),
    StudentStream(8, "Student 8", Focused, true)
  ]

  /** The two random numbers drawn for one thumbnail: whether to relabel it,
      and which label to pick. */
  datatype Draw = Draw(change: real, pick: real)

  /** Random numbers lie in [0, 1). */
  predicate ValidDraw(d: Draw)
  {
    0.0 <= d.change < 1.0 && 0.0 <= d.pick < 1.0
  }

  /** One thumbnail's new label: a draw above 0.6 picks one of the four
      labels, each for a quarter of the second draw's range; anything else
      keeps the current one. */
  function Relabel(e: Emotion, d: Draw): (r: Emotion)
    requires ValidDraw(d)
    ensures d.change <= 0.6 ==> r == e
    ensures d.change > 0.6 ==>
      (r == Focused <==> d.pick < 0.25) && (r == Confused <==> 0.25 <= d.pick < 0.5)
      && (r == Bored <==> 0.5 <= d.pick < 0.75) && (r == Distracted <==> 0.75 <= d.pick)
  {
    if d.change > 0.6 then Labels[(d.pick * 4.0).Floor] else e
  }

  /** The thumbnail refresh: every stream keeps its id, name and activity and
      its place in the list; only its label may change. */
  function RefreshThumbnails(streams: seq<StudentStream>, draws: seq<Draw>): (r: seq<StudentStream>)
    requires |draws| == |streams|
    requires forall k :: 0 <= k < |draws| ==> ValidDraw(draws[k])
    ensures |r| == |streams|
    ensures forall k :: 0 <= k < |r| ==>
      r[k].id == streams[k].id && r[k].name == streams[k].name && r[k].isActive == streams[k].isActive
      && (r[k].emotion == streams[k].emotion || draws[k].change > 0.6)
  {
    if streams == [] then []
    else [streams[0].(emotion := Relabel(streams[0].emotion, draws[0]))]
         + RefreshThumbnails(streams[1..], draws[1..])
  }

  /** Draws that never cross 0.6 leave every thumbnail as it was. */
  lemma {:induction false} QuietDrawsKeepThumbnails(streams: seq<StudentStream>, draws: seq<Draw>)
    requires |draws| == |streams|
    requires forall k :: 0 <= k < |draws| ==> ValidDraw(draws[k]) && draws[k].change <= 0.6
    ensures RefreshThumbnails(streams, draws) == streams
  {
    if streams != [] {
      QuietDrawsKeepThumbnails(streams[1..], draws[1..]);
      assert streams[0].(emotion := streams[0].emotion) == streams[0];
      assert [streams[0]] + streams[1..] == streams;
    }
  }

  // ---------------------------------------------------------------------------
  // The monitor's state

  class LiveSession {
    var isActive: bool
    var timer: nat
    var mood: Distribution
    var engagementLevel: int
    var hasAlert: bool
    var alertSeverity: Severity
    var alertTitle: Option<string>
    var alertDetails: Option<string>
    var alertRecommendation: Option<string>
    var streams: seq<StudentStream>

    /** The banner fields agree: an alert is shown exactly when it has a
        title, details and a recommendation. */
    predicate Valid()
      reads this
    {
      (hasAlert <==> alertTitle.Some?) && (hasAlert <==> alertDetails.Some?)
      && (hasAlert <==> alertRecommendation.Some?)
    }

    /** The monitor as the page first renders it: paused at 0:00. */
    constructor ()
      ensures Valid() && !isActive && timer == 0
      ensures mood == InitialMood && engagementLevel == InitialEngagement
      ensures !hasAlert && alertSeverity == Warning
      ensures streams == InitialStreams
    {
      isActive := false;
      timer := 0;
      mood := InitialMood;
      engagementLevel := InitialEngagement;
      hasAlert := false;
      alertSeverity := Warning;
      alertTitle := None;
      alertDetails := None;
      alertRecommendation := None;
      streams := InitialStreams;
    }

    /** The banner shows `alert`: shown and filled for an alert; otherwise
        hidden (and, with `Valid()`, emptied) with the severity left at
        `prevSeverity`. */
    predicate ShowsBanner(alert: Option<Alert>, prevSeverity: Severity)
      reads this
    {
      match alert
      case Some(a) =>
        hasAlert && alertSeverity == a.severity && alertTitle == Some(a.title)
        && alertDetails == Some(a.details) && alertRecommendation == Some(a.recommendation)
      case None => !hasAlert && alertSeverity == prevSeverity
    }

    /** The analytics a refresh leaves alone are as they were. */
    twostate predicate AnalyticsUnchanged()
      reads this
    {
      mood == old(mood) && engagementLevel == old(engagementLevel) && streams == old(streams)
      && hasAlert == old(hasAlert) && alertSeverity == old(alertSeverity) && alertTitle == old(alertTitle)
      && alertDetails == old(alertDetails) && alertRecommendation == old(alertRecommendation)
    }

    /** The alert banner for the rule's outcome: shown and filled for an
        alert; otherwise hidden and emptied, keeping the last severity. */
    method SetBanner(alert: Option<Alert>)
      modifies this`hasAlert, this`alertSeverity, this`alertTitle, this`alertDetails, this`alertRecommendation
      ensures Valid()
      ensures ShowsBanner(alert, old(alertSeverity))
    {
      match alert {
        case Some(a) =>
          hasAlert := true;
          alertSeverity := a.severity;
          alertTitle := Some(a.title);
          alertDetails := Some(a.details);
          alertRecommendation := Some(a.recommendation);
        case None =>
          hasAlert := false;
          alertTitle := None;
          alertDetails := None;
          alertRecommendation := None;
      }
    }

    /** One analytics refresh, for the random numbers drawn. When no rule
        fires the banner is hidden and emptied but the last severity stays. */
    method UpdateAnalytics(rand: real, draws: seq<Draw>)
      requires |draws| == |streams|
      requires forall k :: 0 <= k < |draws| ==> ValidDraw(draws[k])
      modifies this
      ensures Valid()
      ensures isActive == old(isActive) && timer == old(timer)
      ensures mood == Scenario(rand) && engagementLevel == EngagementScore(Scenario(rand))
      ensures streams == RefreshThumbnails(old(streams), draws)
      ensures ShowsBanner(AlertFor(mood.confused, mood.distracted), old(alertSeverity))
    {
      var d := Scenario(rand);
      mood := d;
      engagementLevel := EngagementScore(d);
      SetBanner(AlertFor(d.confused, d.distracted));
      streams := RefreshThumbnails(streams, draws);
    }

    /** Start: the session runs, and starting it refreshes the analytics at
        once. Starting a running session changes nothing. */
    method Start(rand: real, draws: seq<Draw>)
      requires |draws| == |streams|
      requires forall k :: 0 <= k < |draws| ==> ValidDraw(draws[k])
      requires Valid()
      modifies this
      ensures isActive && timer == old(timer) && Valid()
      ensures !old(isActive) ==>
        mood == Scenario(rand) && engagementLevel == EngagementScore(Scenario(rand))
        && streams == RefreshThumbnails(old(streams), draws)
        && ShowsBanner(AlertFor(mood.confused, mood.distracted), old(alertSeverity))
      ensures old(isActive) ==> AnalyticsUnchanged()
    {
      if !isActive {
        isActive := true;
        UpdateAnalytics(rand, draws);
      }
    }

    /** Pause: the session stops; the clock keeps its value. */
    method Pause()
      modifies this`isActive
      ensures !isActive
    {
      isActive := false;
    }

    /** End: the session stops and the clock goes back to zero. */
    method End()
      modifies this`isActive, this`timer
      ensures !isActive && timer == 0
    {
      isActive := false;
      timer := 0;
    }

    /** One second of the session clock: it advances only while the session
        runs. */
    method Tick()
      modifies this`timer
      ensures timer == old(timer) + (if isActive then 1 else 0)
    {
      if isActive {
        timer := timer + 1;
      }
    }

    /** The three-second polling interval: a refresh, only while the session
        runs. */
    method Poll(rand: real, draws: seq<Draw>)
      requires |draws| == |streams|
      requires forall k :: 0 <= k < |draws| ==> ValidDraw(draws[k])
      requires Valid()
      modifies this
      ensures Valid() && isActive == old(isActive) && timer == old(timer)
      ensures isActive ==>
        mood == Scenario(rand) && engagementLevel == EngagementScore(Scenario(rand))
        && streams == RefreshThumbnails(old(streams), draws)
        && ShowsBanner(AlertFor(mood.confused, mood.distracted), old(alertSeverity))
      ensures !isActive ==> AnalyticsUnchanged()
    {
      if isActive {
        UpdateAnalytics(rand, draws);
      }
    }

    /** What the clock shows. */
    function Clock(): string
      reads this
    {
      FormatTime(timer)
    }
  }
}
