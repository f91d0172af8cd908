/**
 * The data model shared by the repositories, the view models and the
 * caregiver dashboard: alerts, behaviour points, risk levels, health logs and
 * medication reminders.
 *
 * Timestamps are whole seconds on the device's local clock; risk scores and
 * temperatures are real numbers (the app stores them as 32-bit floats).
 */
module Models {

  datatype Option<+T> = None | Some(value: T)

  /** Seconds in one hour and in one (local, zone-less) day. */
  const Hour: int := 3600
  const Day: int := 86400

  type Timestamp = int

  datatype AlertType = ScamCall | SuspiciousBehavior | HealthReminder | FamilyNotification

  datatype Severity = Low | Medium | High | Critical

  /** Position of a severity in its declaration order, LOW first. */
  function SeverityOrdinal(s: Severity): (k: nat)
    ensures k < 4
    ensures k == 0 <==> s == Low
    ensures k == 3 <==> s == Critical
  {
    match s
    case Low => 0
    case Medium => 1
    case High => 2
    case Critical => 3
  }

  datatype Alert = Alert(
    id: string,
    timestamp: Timestamp,
    alertType: AlertType,
    message: string,
    severity: Severity)

  /** One point of the behaviour graph; the score is meant to lie in 0.0..1.0. */
  datatype BehaviorDataPoint = BehaviorDataPoint(timestamp: Timestamp, riskScore: real)

  ghost predicate InUnitInterval(x: real) {
    0.0 <= x <= 1.0
  }

  datatype RiskLevel = LowRisk | MediumRisk | HighRisk

  /** Position of a risk level in its declaration order, LOW first. */
  function RiskOrdinal(r: RiskLevel): (k: nat)
    ensures k < 3
    ensures k == 0 <==> r == LowRisk
    ensures k == 2 <==> r == HighRisk
  {
    match r
    case LowRisk => 0
    case MediumRisk => 1
    case HighRisk => 2
  }

  datatype DashboardData = DashboardData(
    currentRiskLevel: RiskLevel,
    recentAlerts: seq<Alert>,
    behaviorHistory: seq<BehaviorDataPoint>,
    lastAlertTime: Option<Timestamp>)

  /** Every vital and the notes are independently optional. */
  datatype HealthLog = HealthLog(
    id: string,
    timestamp: Timestamp,
    bloodPressureSystolic: Option<int>,
    bloodPressureDiastolic: Option<int>,
    bloodSugar: Option<int>,
    temperature: Option<real>,
    heartRate: Option<int>,
    notes: Option<string>)

  /** A reminder is identified by `id`; `isTaken` is its only flag. */
  datatype MedicationReminder = MedicationReminder(
    id: string,
    name: string,
    dosage: string,
    frequency: string,
    time: string,
    isTaken: bool)

  datatype HealthVital = BloodPressure | BloodSugar | Temperature | HeartRate
}
