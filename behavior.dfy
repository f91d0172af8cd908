/**
 * The in-memory behaviour repository behind the caregiver dashboard: a list
 * of alerts, newest first, and a list of behaviour points, oldest first.
 * Adding an alert also appends a behaviour point whose score is fixed by the
 * alert's severity; the current risk level classifies the average of the last
 * three scores.
 */
module Behavior {
  import opened Models
  import Decimal

  const RecentAlertCount: nat := 5
  const RiskWindow: nat := 3
  const HighThreshold: real := 0.7
  const MediumThreshold: real := 0.4
  const ScamMessage: string := "Scam call detected and blocked"

  function Min(a: nat, b: nat): nat {
    if a <= b then a else b
  }

  // ---- Scores ----

  /** The score a new alert contributes to the behaviour history. */
  function SeverityScore(s: Severity): (score: real)
    ensures InUnitInterval(score)
  {
    match s
    case Critical => 0.9
    case High => 0.7
    case Medium => 0.5
    case Low => 0.3
  }

  /** A more severe alert never scores lower; the mapping tells the four severities apart. */
  lemma SeverityScoreMonotone(a: Severity, b: Severity)
    ensures SeverityOrdinal(a) <= SeverityOrdinal(b) <==> SeverityScore(a) <= SeverityScore(b)
    ensures SeverityScore(a) == SeverityScore(b) ==> a == b
  {
  }

  /** `coerceIn(0, 1)`. */
  function Clamp(x: real): (r: real)
    ensures InUnitInterval(r)
    ensures InUnitInterval(x) ==> r == x
    ensures x < 0.0 ==> r == 0.0
    ensures x > 1.0 ==> r == 1.0
  {
    if x < 0.0 then 0.0 else if x > 1.0 then 1.0 else x
  }

  /** `map { it.riskScore }`. */
  function Scores(points: seq<BehaviorDataPoint>): (xs: seq<real>)
    ensures |xs| == |points|
    ensures forall i :: 0 <= i < |xs| ==> xs[i] == points[i].riskScore
  {
    if points == [] then [] else [points[0].riskScore] + Scores(points[1..])
  }

  /** `takeLast(k)`. */
  function TakeLast<T>(s: seq<T>, k: nat): (r: seq<T>)
    ensures |r| == Min(k, |s|)
    ensures forall i :: 0 <= i < |r| ==> r[i] == s[|s| - |r| + i]
  {
    s[|s| - Min(k, |s|)..]
  }

  /** The sum of the scores; its bounds are the lemmas `SumAtLeast`, `SumAtMost` and `SumBelow`. */
  function Sum(xs: seq<real>): real {
    if xs == [] then 0.0 else xs[0] + Sum(xs[1..])
  }

  /** `average()` of a non-empty list: scores in [0, 1] average in [0, 1]. */
  function Average(xs: seq<real>): (avg: real)
    requires |xs| > 0
    ensures (forall i :: 0 <= i < |xs| ==> InUnitInterval(xs[i])) ==> InUnitInterval(avg)
  {
    AverageOfUnitScores(xs);
    Sum(xs) / (|xs| as real)
  }

  /** The thresholds: 0.7 and above is HIGH, 0.4 and above MEDIUM, anything else LOW. */
  function Classify(avg: real): (r: RiskLevel)
    ensures r == HighRisk <==> avg >= HighThreshold
    ensures r == MediumRisk <==> MediumThreshold <= avg < HighThreshold
    ensures r == LowRisk <==> avg < MediumThreshold
  {
    if avg >= HighThreshold then HighRisk
    else if avg >= MediumThreshold then MediumRisk
    else LowRisk
  }

  /** A higher average never yields a lower level. */
  lemma ClassifyMonotone(a: real, b: real)
    requires a <= b
    ensures RiskOrdinal(Classify(a)) <= RiskOrdinal(Classify(b))
  {
  }

  /**
   * `getCurrentRiskLevel` on a behaviour history. The average of no scores is
   * NaN, which fails both comparisons, so an empty history is LOW.
   */
  function RiskLevelOf(data: seq<BehaviorDataPoint>): (r: RiskLevel)
    ensures |data| == 0 ==> r == LowRisk
  {
    var recent := Scores(TakeLast(data, RiskWindow));
    if |recent| == 0 then LowRisk else Classify(Average(recent))
  }

  /** Only the last three points matter: older history never changes the level. */
  lemma RiskDependsOnlyOnRecent(older: seq<BehaviorDataPoint>, data: seq<BehaviorDataPoint>)
    requires |data| >= RiskWindow
    ensures RiskLevelOf(older + data) == RiskLevelOf(data)
  {
    var whole := older + data;
    assert TakeLast(whole, RiskWindow) == TakeLast(data, RiskWindow) by {
      forall i | 0 <= i < RiskWindow
        ensures TakeLast(whole, RiskWindow)[i] == TakeLast(data, RiskWindow)[i]
      {
        assert whole[|older| + |data| - RiskWindow + i] == data[|data| - RiskWindow + i];
      }
    }
  }

  lemma {:induction false} SumAtLeast(xs: seq<real>, c: real)
    requires forall i :: 0 <= i < |xs| ==> xs[i] >= c
    ensures Sum(xs) >= c * (|xs| as real)
  {
    if xs != [] {
      SumAtLeast(xs[1..], c);
    }
  }

  lemma {:induction false} SumAtMost(xs: seq<real>, c: real)
    requires forall i :: 0 <= i < |xs| ==> xs[i] <= c
    ensures Sum(xs) <= c * (|xs| as real)
  {
    if xs != [] {
      SumAtMost(xs[1..], c);
    }
  }

  lemma {:induction false} SumBelow(xs: seq<real>, c: real)
    requires |xs| > 0
    requires forall i :: 0 <= i < |xs| ==> xs[i] < c
    ensures Sum(xs) < c * (|xs| as real)
  {
    if |xs| > 1 {
      SumBelow(xs[1..], c);
    }
  }

  lemma AverageOfUnitScores(xs: seq<real>)
    requires |xs| > 0
    ensures (forall i :: 0 <= i < |xs| ==> InUnitInterval(xs[i])) ==> InUnitInterval(Sum(xs) / (|xs| as real))
  {
    if forall i :: 0 <= i < |xs| ==> InUnitInterval(xs[i]) {
      SumAtLeast(xs, 0.0);
      SumAtMost(xs, 1.0);
    }
  }

  lemma AverageAtLeast(xs: seq<real>, c: real)
    requires |xs| > 0 && Sum(xs) >= c * (|xs| as real)
    ensures Average(xs) >= c
  {
  }

  lemma AverageBelow(xs: seq<real>, c: real)
    requires |xs| > 0 && Sum(xs) < c * (|xs| as real)
    ensures Average(xs) < c
  {
  }

  /** When each of the last (up to) three scores is at least 0.7, the level is HIGH. */
  lemma RecentScoresHighMeansHighRisk(data: seq<BehaviorDataPoint>)
    requires |data| > 0
    requires forall i :: 0 <= i < |data| && |data| - RiskWindow <= i ==> data[i].riskScore >= HighThreshold
    ensures RiskLevelOf(data) == HighRisk
  {
    var recent := Scores(TakeLast(data, RiskWindow));
    assert forall i :: 0 <= i < |recent| ==> recent[i] == data[|data| - |recent| + i].riskScore;
    SumAtLeast(recent, HighThreshold);
    AverageAtLeast(recent, HighThreshold);
  }

  /** When each of the last (up to) three scores is below 0.4, or there are none, the level is LOW. */
  lemma RecentScoresLowMeansLowRisk(data: seq<BehaviorDataPoint>)
    requires forall i :: 0 <= i < |data| && |data| - RiskWindow <= i ==> data[i].riskScore < MediumThreshold
    ensures RiskLevelOf(data) == LowRisk
  {
    var recent := Scores(TakeLast(data, RiskWindow));
    assert forall i :: 0 <= i < |recent| ==> recent[i] == data[|data| - |recent| + i].riskScore;
    if |recent| > 0 {
      SumBelow(recent, MediumThreshold);
      AverageBelow(recent, MediumThreshold);
    }
  }

  /** Three HIGH alerts in a row (three scam detections) make the level HIGH, whatever came before. */
  lemma ThreeHighAlertsMakeRiskHigh(data: seq<BehaviorDataPoint>, t1: Timestamp, t2: Timestamp, t3: Timestamp)
    ensures RiskLevelOf(data
      + [BehaviorDataPoint(t1, SeverityScore(High))]
      + [BehaviorDataPoint(t2, SeverityScore(High))]
      + [BehaviorDataPoint(t3, SeverityScore(High))]) == HighRisk
  {
    var d := data
      + [BehaviorDataPoint(t1, SeverityScore(High))]
      + [BehaviorDataPoint(t2, SeverityScore(High))]
      + [BehaviorDataPoint(t3, SeverityScore(High))];
    assert forall i :: 0 <= i < |d| && |d| - RiskWindow <= i ==> d[i].riskScore == 0.7;
    RecentScoresHighMeansHighRisk(d);
  }

  // ---- Alert ids ----

  predicate IsDecimal(s: string) {
    forall i :: 0 <= i < |s| ==> Decimal.IsDigit(s[i])
  }

  /** Every id is the decimal form of a number between 1 and the number of alerts. */
  ghost predicate IdsInRange(alerts: seq<Alert>) {
    forall i :: 0 <= i < |alerts| ==>
      IsDecimal(alerts[i].id) && 1 <= Decimal.StringToNat(alerts[i].id) <= |alerts|
  }

  ghost predicate IdsDistinct(alerts: seq<Alert>) {
    forall i, j :: 0 <= i < j < |alerts| ==> alerts[i].id != alerts[j].id
  }

  /** The id `addAlert` gives a new alert is not the id of any alert already stored. */
  lemma NewIdIsFresh(alerts: seq<Alert>)
    requires IdsInRange(alerts)
    ensures forall i :: 0 <= i < |alerts| ==> alerts[i].id != Decimal.NatToString(|alerts| + 1)
  {
    Decimal.StringToNatOfNatToString(|alerts| + 1);
  }

  /** The alerts the repository starts with: ids 1 to 3, all in the past, newest first. */
  function FixtureAlerts(now: Timestamp): (alerts: seq<Alert>)
    ensures |alerts| == 3
    ensures IdsInRange(alerts) && IdsDistinct(alerts)
    ensures forall i :: 0 <= i < |alerts| ==> alerts[i].timestamp < now
    ensures forall i :: 0 < i < |alerts| ==> alerts[i - 1].timestamp > alerts[i].timestamp
  {
    assert Decimal.StringToNat("1") == 1 && Decimal.StringToNat("2") == 2 && Decimal.StringToNat("3") == 3;
    [ Alert("1", now - 2 * Hour, ScamCall, "Suspicious call from unknown number detected", High),
      Alert("2", now - Day, ScamCall, "Blocked potential scam call", Medium),
      Alert("3", now - 3 * Day, HealthReminder, "Medicine reminder acknowledged", Low) ]
  }

  /** The score of the fixture's behaviour point built from one random draw. */
  function FixtureScore(draw: real): (score: real)
    ensures InUnitInterval(score)
    ensures 0.0 <= draw <= 1.0 ==> 0.3 <= score <= 0.7
  {
    Clamp(0.3 + draw * 0.4)
  }

  class FakeBehaviorRepository {
    var alerts: seq<Alert>
    var behaviorData: seq<BehaviorDataPoint>

    /** Scores lie in 0.0..1.0 and alert ids are unique decimal numbers 1..n. */
    ghost predicate Valid()
      reads this
    {
      && (forall i :: 0 <= i < |behaviorData| ==> InUnitInterval(behaviorData[i].riskScore))
      && IdsInRange(alerts)
      && IdsDistinct(alerts)
    }

    /**
     * Seeds three alerts and eight daily behaviour points, from seven days ago
     * to today. `draws` stands for the eight values `Random.nextFloat()` returns.
     */
    constructor (now: Timestamp, draws: seq<real>)
      requires |draws| == 8
      ensures Valid()
      ensures alerts == FixtureAlerts(now)
      ensures |behaviorData| == 8
      ensures forall k :: 0 <= k < 8 ==>
        behaviorData[k] == BehaviorDataPoint(now - (7 - k) * Day, FixtureScore(draws[k]))
    {
      alerts := FixtureAlerts(now);
      var points: seq<BehaviorDataPoint> := [];
      var i := 7;
      while i >= 0
        invariant -1 <= i <= 7
        invariant |points| == 7 - i
        invariant forall k :: 0 <= k < |points| ==>
          points[k] == BehaviorDataPoint(now - (7 - k) * Day, FixtureScore(draws[k]))
      {
        var baseRisk := 0.3;
        var variation := draws[7 - i] * 0.4;
        points := points + [BehaviorDataPoint(now - i * Day, Clamp(baseRisk + variation))];
        i := i - 1;
      }
      behaviorData := points;
      new;
      assert Decimal.StringToNat("1") == 1 && Decimal.StringToNat("2") == 2 && Decimal.StringToNat("3") == 3;
    }

    /** Prepends an alert with id |alerts| + 1 and appends the matching behaviour point. */
    method AddAlert(alertType: AlertType, message: string, severity: Severity, now: Timestamp)
      requires Valid()
      modifies this
      ensures Valid()
      ensures alerts == [Alert(Decimal.NatToString(|old(alerts)| + 1), now, alertType, message, severity)] + old(alerts)
      ensures behaviorData == old(behaviorData) + [BehaviorDataPoint(now, SeverityScore(severity))]
    {
      var newAlert := Alert(Decimal.NatToString(|alerts| + 1), now, alertType, message, severity);
      NewIdIsFresh(alerts);
      Decimal.StringToNatOfNatToString(|alerts| + 1);
      alerts := [newAlert] + alerts;
      var score := SeverityScore(severity);
      behaviorData := behaviorData + [BehaviorDataPoint(now, score)];
    }

    function GetAlerts(): (r: seq<Alert>)
      reads this
      ensures r == alerts
    {
      alerts
    }

    /** The first five alerts, or all of them when there are fewer, in order. */
    function GetRecentAlerts(): (r: seq<Alert>)
      reads this
      ensures |r| == Min(RecentAlertCount, |alerts|)
      ensures forall i :: 0 <= i < |r| ==> r[i] == alerts[i]
    {
      alerts[..Min(RecentAlertCount, |alerts|)]
    }

    function GetBehaviorHistory(): (r: seq<BehaviorDataPoint>)
      reads this
      ensures r == behaviorData
    {
      behaviorData
    }

    function GetCurrentRiskLevel(): (r: RiskLevel)
      reads this
      ensures r == RiskLevelOf(behaviorData)
    {
      RiskLevelOf(behaviorData)
    }

    /** The dashboard snapshot; the last alert time is that of the newest alert, if any. */
    function GetDashboardData(): (d: DashboardData)
      reads this
      ensures d.currentRiskLevel == RiskLevelOf(behaviorData)
      ensures d.recentAlerts == GetRecentAlerts()
      ensures d.behaviorHistory == behaviorData
      ensures d.lastAlertTime.Some? <==> |alerts| > 0
      ensures |alerts| > 0 ==> d.lastAlertTime == Some(alerts[0].timestamp)
    {
      DashboardData(
        GetCurrentRiskLevel(),
        GetRecentAlerts(),
        GetBehaviorHistory(),
        if |alerts| == 0 then None else Some(alerts[0].timestamp))
    }

    /** A scam detection adds a HIGH scam-call alert. */
    method SimulateScamDetection(now: Timestamp)
      requires Valid()
      modifies this
      ensures Valid()
      ensures alerts == [Alert(Decimal.NatToString(|old(alerts)| + 1), now, ScamCall, ScamMessage, High)] + old(alerts)
      ensures behaviorData == old(behaviorData) + [BehaviorDataPoint(now, SeverityScore(High))]
    {
      AddAlert(ScamCall, ScamMessage, High, now);
    }
  }
}
