# Oppam launcher core, modelled in Dafny

Oppam is an Android launcher for elderly users with a caregiver side. This
project models the parts of it that hold logic rather than layout:

- **Roles** (`roles.dfy`): the role manager. It keeps a key/value store
  holding the caregiver PIN (default `1234`, written on first start) and the
  elderly PIN, and the current role (ELDERLY or CAREGIVER). Every operation is a
  method of `RoleManager` whose new state is a pure step function of the old
  one (`AfterSwitchToCaregiver`, `AfterChangePin`, …). The lemmas relate those
  steps to each other.
- **Navigation** (`navigation.dfy`): the start screen chosen from the role
  manager, and the route a chosen role leads to.
- **ElderlyLogin** and **CaregiverLogin** (`elderly_login.dfy`,
  `caregiver_login.dfy`): the remembered state of the two PIN screens and
  their handlers (text edits, number pad, clear key, login/next/create/back
  buttons), as classes over that state that call into the role manager.
- **Pin** (`pin.dfy`): the PIN length limit of both login screens, counted as
  Kotlin's `String.length` counts, in UTF-16 units.
- **Behavior** (`behavior.dfy`): the in-memory behaviour repository. It holds
  alerts (newest first, ids "1", "2", … in order of creation) and risk-score
  points, and derives the current risk level from the average of the last three
  scores (HIGH from 0.7, MEDIUM from 0.4).
- **Health** (`health.dfy`): the in-memory health repository. It holds health
  logs, handed out sorted newest first by a stable sort, with a recent-days
  filter, and medication reminders with a taken flag.
- **HealthLogUi** (`health_log_ui.dfy`): the health-log view model, which
  reloads from the repository after every change.
- **Launcher** (`launcher.dfy`): the launcher view model, with its greeting by
  hour of day and the last button pressed.
- **VoiceInput** (`voice_input.dfy`): the keyword extraction applied to
  recognised speech. The text is lower-cased, then matched against Malayalam and
  English words for symptoms, medication and health metrics. The first matching
  entry of each group goes into a map.
- **Models** and **Decimal** (`models.dfy`, `decimal.dfy`): the shared data
  types, and decimal rendering of naturals (`Int.toString` for non-negative
  values) with its round trip.

Time is modelled as integer seconds (`Hour` = 3600, `Day` = 86400). The
clock, random UUIDs, `Random.nextFloat()` draws and the calendar hour are
parameters of the operations that use them. Risk scores and temperatures are
`real`.

## Model

| member | source | states |
|---|---|---|
| Models.SeverityOrdinal | app/src/main/java/com/oppam/launcher/data/Models.kt:28-33 | the four severities in declaration order, LOW first and CRITICAL last |
| Models.RiskOrdinal | app/src/main/java/com/oppam/launcher/data/Models.kt:46-50 | the three risk levels in order, LOW first and HIGH last |
| Decimal.DigitChar | app/src/main/java/com/oppam/launcher/ui/caregiver/CaregiverLoginScreen.kt:222 | a number below ten renders as one digit character whose value is that number |
| Decimal.DigitValue | app/src/main/java/com/oppam/launcher/ui/caregiver/CaregiverLoginScreen.kt:222 | a digit character's value is below ten |
| Decimal.NatToString | app/src/main/java/com/oppam/launcher/data/FakeBehaviorRepository.kt:76 | a natural renders as a non-empty string of digits with no leading zero |
| Decimal.StringToNatOfNatToString | app/src/main/java/com/oppam/launcher/data/FakeBehaviorRepository.kt:76 | reading back a rendered natural gives the natural (round trip) |
| Decimal.NatToStringInjective | app/src/main/java/com/oppam/launcher/data/FakeBehaviorRepository.kt:76 | two naturals render equally iff they are equal, so alert ids made from distinct counts differ |
| Pin.Utf16Width | app/src/main/java/com/oppam/launcher/ui/auth/ElderlyLoginScreen.kt:121 | a character is one UTF-16 unit, or two exactly when it lies above the Basic Multilingual Plane |
| Pin.Utf16Length | app/src/main/java/com/oppam/launcher/ui/caregiver/CaregiverLoginScreen.kt:115 | `String.length` counts at least one and at most two units per character, and equals the character count iff every character lies in the Basic Multilingual Plane |
| Pin.Utf16LengthAppend | app/src/main/java/com/oppam/launcher/ui/caregiver/CaregiverLoginScreen.kt:221-222 | appending a character adds its width to the length |
| Pin.DigitIsOneUnit | app/src/main/java/com/oppam/launcher/ui/caregiver/CaregiverLoginScreen.kt:221-222 | appending a pad digit adds exactly one to the length |
| Roles.GetString | app/src/main/java/com/oppam/launcher/data/RoleManager.kt:113-116 | a stored key gives its value; a missing key gives the default |
| Roles.SavedCaregiverPin | app/src/main/java/com/oppam/launcher/data/RoleManager.kt:93 | the stored caregiver PIN when the key is present, "1234" when it is absent |
| Roles.Open | app/src/main/java/com/oppam/launcher/data/RoleManager.kt:28-51 | the role starts ELDERLY; the caregiver PIN key is written with 1234 only when it is absent, and the store is otherwise untouched |
| Roles.AfterSwitchToElderly | app/src/main/java/com/oppam/launcher/data/RoleManager.kt:63-65 | entering elderly mode changes the role only |
| Roles.CaregiverPinAccepted | app/src/main/java/com/oppam/launcher/data/RoleManager.kt:113-116 | a PIN is accepted iff it equals the stored caregiver PIN, or "1234" when none is stored |
| Roles.IsCaregiver | app/src/main/java/com/oppam/launcher/data/RoleManager.kt:84-86 | caregiver mode iff the role is not ELDERLY |
| Roles.HasElderlyPin | app/src/main/java/com/oppam/launcher/data/RoleManager.kt:121-123 | when an elderly PIN is stored, the stored value verifies; when none is, no PIN verifies |
| Roles.ElderlyPinAccepted | app/src/main/java/com/oppam/launcher/data/RoleManager.kt:135-138 | a PIN verifies only when one is stored, and then iff it equals the stored one |
| Roles.AfterSwitchToCaregiver | app/src/main/java/com/oppam/launcher/data/RoleManager.kt:71-79 | the role becomes CAREGIVER iff the PIN matches the saved caregiver PIN, and the store never changes |
| Roles.AfterChangePin | app/src/main/java/com/oppam/launcher/data/RoleManager.kt:92-100 | with the right old PIN the caregiver PIN becomes the new one; with a wrong one nothing changes |
| Roles.AfterSetElderlyPin | app/src/main/java/com/oppam/launcher/data/RoleManager.kt:128-130 | the elderly PIN key is overwritten and nothing else changes |
| Roles.AfterClearAll | app/src/main/java/com/oppam/launcher/data/RoleManager.kt:143-146 | the store is emptied and the role is ELDERLY |
| Roles.RoleManager.constructor | app/src/main/java/com/oppam/launcher/data/RoleManager.kt:46-51 | a manager opened on a store is in state `Open(stored)` |
| Roles.RoleManager.GetCurrentRole | app/src/main/java/com/oppam/launcher/data/RoleManager.kt:56-58 | returns the current role |
| Roles.RoleManager.SwitchToElderlyMode | app/src/main/java/com/oppam/launcher/data/RoleManager.kt:63-65 | the new state is `AfterSwitchToElderly` of the old |
| Roles.RoleManager.SwitchToCaregiverMode | app/src/main/java/com/oppam/launcher/data/RoleManager.kt:71-79 | returns whether the PIN was accepted; the new state is `AfterSwitchToCaregiver` of the old |
| Roles.RoleManager.IsCaregiverMode | app/src/main/java/com/oppam/launcher/data/RoleManager.kt:84-86 | true iff the role is CAREGIVER |
| Roles.RoleManager.ChangePin | app/src/main/java/com/oppam/launcher/data/RoleManager.kt:92-100 | returns whether the old PIN was accepted; the new state is `AfterChangePin` of the old |
| Roles.RoleManager.GetDefaultPin | app/src/main/java/com/oppam/launcher/data/RoleManager.kt:106-108 | the default PIN is "1234" |
| Roles.RoleManager.VerifyPin | app/src/main/java/com/oppam/launcher/data/RoleManager.kt:113-116 | accepts exactly the saved caregiver PIN, or "1234" when none is saved |
| Roles.RoleManager.HasElderlyPin | app/src/main/java/com/oppam/launcher/data/RoleManager.kt:121-123 | true iff the elderly PIN key is stored |
| Roles.RoleManager.SetElderlyPin | app/src/main/java/com/oppam/launcher/data/RoleManager.kt:128-130 | the new state is `AfterSetElderlyPin` of the old |
| Roles.RoleManager.VerifyElderlyPin | app/src/main/java/com/oppam/launcher/data/RoleManager.kt:135-138 | accepts exactly the stored elderly PIN; with none stored it accepts nothing |
| Roles.RoleManager.ClearAll | app/src/main/java/com/oppam/launcher/data/RoleManager.kt:143-146 | the new state is `AfterClearAll` of the old |
| Roles.FreshStoreAcceptsDefault | app/src/main/java/com/oppam/launcher/data/RoleManager.kt:46-51 | on an empty store exactly "1234" opens caregiver mode, no elderly PIN exists and the role is not CAREGIVER |
| Roles.SwitchToCaregiverGate | app/src/main/java/com/oppam/launcher/data/RoleManager.kt:71-79 | caregiver mode is on after the switch iff the PIN was accepted or it was already on; a rejected PIN changes nothing |
| Roles.EnterThenLeave | app/src/main/java/com/oppam/launcher/data/RoleManager.kt:63-79 | switching to caregiver and back to elderly equals switching to elderly directly |
| Roles.ChangePinReplacesPin | app/src/main/java/com/oppam/launcher/data/RoleManager.kt:92-100 | after a successful change only the new PIN is accepted |
| Roles.LatestElderlyPinWins | app/src/main/java/com/oppam/launcher/data/RoleManager.kt:128-138 | after setting an elderly PIN it exists and exactly it verifies; setting twice keeps the last; without one nothing verifies |
| Roles.ElderlyPinIndependentOfCaregiverPin | app/src/main/java/com/oppam/launcher/data/RoleManager.kt:128-130 | setting the elderly PIN does not change which caregiver PINs are accepted |
| Roles.ClearAllFallsBackToDefault | app/src/main/java/com/oppam/launcher/data/RoleManager.kt:143-146 | after clearing, no PIN is stored, the role is ELDERLY and the caregiver check falls back to "1234" |
| Roles.CaregiverScenario | app/src/main/java/com/oppam/launcher/data/RoleManager.kt:71-100 | on a fresh store: 0000 is refused, 1234 enters caregiver mode, changing 1234 to 5678 makes 1234 fail and 5678 succeed |
| Roles.ElderlyScenario | app/src/main/java/com/oppam/launcher/data/RoleManager.kt:121-138 | on a fresh store, setting 2468 makes the elderly PIN exist and only 2468 verify |
| Navigation.StartDestination | app/src/main/java/com/oppam/launcher/MainActivity.kt:46-50 | role selection iff no elderly PIN and not caregiver mode; the dashboard iff caregiver mode; the elderly login otherwise |
| Navigation.StartDestinationTotal | app/src/main/java/com/oppam/launcher/MainActivity.kt:46-50 | every pair of flags yields one of the three start routes |
| Navigation.StartDestinationOf | app/src/main/java/com/oppam/launcher/MainActivity.kt:46-50 | on a role-manager state: the dashboard iff the role is CAREGIVER; in elderly mode, the elderly login iff an elderly PIN is stored and role selection iff none is |
| Navigation.FirstLaunchRoutes | app/src/main/java/com/oppam/launcher/MainActivity.kt:46-50 | a first launch starts on role selection, and after an elderly PIN is set on the elderly login |
| Navigation.RouteForRole | app/src/main/java/com/oppam/launcher/MainActivity.kt:59-63 | ELDERLY leads to the elderly login, CAREGIVER to the caregiver login, and neither straight to the dashboard |
| ElderlyLogin.ElderlyLoginScreen.constructor | app/src/main/java/com/oppam/launcher/ui/auth/ElderlyLoginScreen.kt:40-44 | empty fields, no error, first-time iff no elderly PIN is stored |
| ElderlyLogin.ElderlyLoginScreen.LoginEnabled | app/src/main/java/com/oppam/launcher/ui/auth/ElderlyLoginScreen.kt:202 | the button is enabled iff the field being edited (confirmation or PIN) is non-empty |
| ElderlyLogin.ElderlyLoginScreen.ActiveField | app/src/main/java/com/oppam/launcher/ui/auth/ElderlyLoginScreen.kt:119 | the field being edited is the confirmation on the second step and the PIN otherwise, and holds at most four UTF-16 units |
| ElderlyLogin.ElderlyLoginScreen.OnValueChange | app/src/main/java/com/oppam/launcher/ui/auth/ElderlyLoginScreen.kt:120-129 | text of up to four UTF-16 units goes to the active field and clears the error; longer text is ignored |
| ElderlyLogin.ElderlyLoginScreen.OnLoginClick | app/src/main/java/com/oppam/launcher/ui/auth/ElderlyLoginScreen.kt:166-200 | first run: advance to confirmation iff four UTF-16 units, then store the PIN iff the confirmation matches; returning user: a correct PIN enters elderly mode, a wrong one is cleared with an error; only a PIN of four UTF-16 units is ever stored |
| ElderlyLogin.ElderlyLoginScreen.OnBackClick | app/src/main/java/com/oppam/launcher/ui/auth/ElderlyLoginScreen.kt:212-219 | from confirmation it returns to the first entry and clears the confirmation; otherwise it leaves the screen unchanged |
| CaregiverLogin.PadNumbers | app/src/main/java/com/oppam/launcher/ui/caregiver/CaregiverLoginScreen.kt:212-218 | the nested row/column loops lay out the keys 1 to 9 in order |
| CaregiverLogin.CaregiverLoginScreen.constructor | app/src/main/java/com/oppam/launcher/ui/caregiver/CaregiverLoginScreen.kt:39-41 | empty PIN, no error, empty message |
| CaregiverLogin.CaregiverLoginScreen.AccessEnabled | app/src/main/java/com/oppam/launcher/ui/caregiver/CaregiverLoginScreen.kt:187 | enabled iff something has been entered |
| CaregiverLogin.CaregiverLoginScreen.OnValueChange | app/src/main/java/com/oppam/launcher/ui/caregiver/CaregiverLoginScreen.kt:114-119 | text of up to four UTF-16 units replaces the PIN and hides the error; longer text is ignored |
| CaregiverLogin.CaregiverLoginScreen.OnPadPress | app/src/main/java/com/oppam/launcher/ui/caregiver/CaregiverLoginScreen.kt:219-224 | a pad key appends its digit while the PIN holds fewer than four UTF-16 units, and is ignored otherwise |
| CaregiverLogin.CaregiverLoginScreen.OnClearPress | app/src/main/java/com/oppam/launcher/ui/caregiver/CaregiverLoginScreen.kt:264 | the clear key empties the PIN only |
| CaregiverLogin.CaregiverLoginScreen.OnAccessClick | app/src/main/java/com/oppam/launcher/ui/caregiver/CaregiverLoginScreen.kt:173-185 | a PIN that is not four UTF-16 units long gives the 4-digit message and touches nothing else; otherwise the role manager steps by `AfterSwitchToCaregiver`, and a rejected PIN is cleared with the incorrect-PIN message |
| Behavior.SeverityScore | app/src/main/java/com/oppam/launcher/data/FakeBehaviorRepository.kt:89-94 | each severity maps to a score in [0, 1] |
| Behavior.SeverityScoreMonotone | app/src/main/java/com/oppam/launcher/data/FakeBehaviorRepository.kt:89-94 | a more severe alert never scores lower, and distinct severities score differently |
| Behavior.Clamp | app/src/main/java/com/oppam/launcher/data/FakeBehaviorRepository.kt:65 | `coerceIn(0, 1)`: the result is in [0, 1], equals the input inside it and the nearer bound outside |
| Behavior.Scores | app/src/main/java/com/oppam/launcher/data/FakeBehaviorRepository.kt:118 | the risk scores of the points, position by position |
| Behavior.TakeLast | app/src/main/java/com/oppam/launcher/data/FakeBehaviorRepository.kt:118 | the last min(k, n) elements, in their order |
| Behavior.Average | app/src/main/java/com/oppam/launcher/data/FakeBehaviorRepository.kt:119 | scores in [0, 1] average in [0, 1] |
| Behavior.SumAtMost | app/src/main/java/com/oppam/launcher/data/FakeBehaviorRepository.kt:119 | scores all at most c sum to at most c times their count |
| Behavior.Classify | app/src/main/java/com/oppam/launcher/data/FakeBehaviorRepository.kt:121-125 | HIGH iff the average is at least 0.7, MEDIUM iff it is in [0.4, 0.7), LOW iff below 0.4 |
| Behavior.ClassifyMonotone | app/src/main/java/com/oppam/launcher/data/FakeBehaviorRepository.kt:121-125 | a higher average never gives a lower risk level |
| Behavior.RiskLevelOf | app/src/main/java/com/oppam/launcher/data/FakeBehaviorRepository.kt:117-126 | an empty history is LOW |
| Behavior.RiskDependsOnlyOnRecent | app/src/main/java/com/oppam/launcher/data/FakeBehaviorRepository.kt:118 | with at least three points, any older history in front leaves the level unchanged |
| Behavior.AverageOfUnitScores | app/src/main/java/com/oppam/launcher/data/FakeBehaviorRepository.kt:119 | the average of scores in [0, 1] lies in [0, 1] |
| Behavior.SumAtLeast | app/src/main/java/com/oppam/launcher/data/FakeBehaviorRepository.kt:119 | scores all at least c sum to at least c times their count |
| Behavior.SumBelow | app/src/main/java/com/oppam/launcher/data/FakeBehaviorRepository.kt:119 | non-empty scores all below c sum to less than c times their count |
| Behavior.AverageAtLeast | app/src/main/java/com/oppam/launcher/data/FakeBehaviorRepository.kt:119 | a sum of at least c per element averages at least c |
| Behavior.AverageBelow | app/src/main/java/com/oppam/launcher/data/FakeBehaviorRepository.kt:119 | a sum below c per element averages below c |
| Behavior.RecentScoresHighMeansHighRisk | app/src/main/java/com/oppam/launcher/data/FakeBehaviorRepository.kt:117-126 | when the last three scores are all at least 0.7 the risk is HIGH |
| Behavior.RecentScoresLowMeansLowRisk | app/src/main/java/com/oppam/launcher/data/FakeBehaviorRepository.kt:117-126 | when the last three scores are all below 0.4, or there are none, the risk is LOW |
| Behavior.ThreeHighAlertsMakeRiskHigh | app/src/main/java/com/oppam/launcher/data/FakeBehaviorRepository.kt:74-126 | three HIGH alerts in a row make the risk HIGH whatever came before |
| Behavior.NewIdIsFresh | app/src/main/java/com/oppam/launcher/data/FakeBehaviorRepository.kt:76 | an id made from the count plus one differs from every existing id when ids stay in 1..count |
| Behavior.FixtureAlerts | app/src/main/java/com/oppam/launcher/data/FakeBehaviorRepository.kt:25-56 | three alerts with ids "1", "2", "3", each in the past and newest first |
| Behavior.FixtureScore | app/src/main/java/com/oppam/launcher/data/FakeBehaviorRepository.kt:59-66 | the score lies in [0, 1], and in [0.3, 0.7] for a draw in [0, 1] |
| Behavior.FakeBehaviorRepository.constructor | app/src/main/java/com/oppam/launcher/data/FakeBehaviorRepository.kt:18-68 | the three sample alerts, and eight points from seven days ago up to now with clamped scores 0.3 + 0.4 × draw; the invariant holds |
| Behavior.FakeBehaviorRepository.AddAlert | app/src/main/java/com/oppam/launcher/data/FakeBehaviorRepository.kt:74-97 | the alert with id count + 1 goes first, a point with the severity's score is appended, and ids stay distinct |
| Behavior.FakeBehaviorRepository.GetAlerts | app/src/main/java/com/oppam/launcher/data/FakeBehaviorRepository.kt:102 | all alerts, newest first |
| Behavior.FakeBehaviorRepository.GetRecentAlerts | app/src/main/java/com/oppam/launcher/data/FakeBehaviorRepository.kt:107 | the first five alerts, or all if fewer |
| Behavior.FakeBehaviorRepository.GetBehaviorHistory | app/src/main/java/com/oppam/launcher/data/FakeBehaviorRepository.kt:112 | all points in order |
| Behavior.FakeBehaviorRepository.GetCurrentRiskLevel | app/src/main/java/com/oppam/launcher/data/FakeBehaviorRepository.kt:117-126 | the level classified from the average of the last three scores |
| Behavior.FakeBehaviorRepository.GetDashboardData | app/src/main/java/com/oppam/launcher/data/FakeBehaviorRepository.kt:131-138 | the risk level, recent alerts and history, and a last-alert time iff there is an alert, taken from the newest |
| Behavior.FakeBehaviorRepository.SimulateScamDetection | app/src/main/java/com/oppam/launcher/data/FakeBehaviorRepository.kt:143-149 | adds a HIGH scam-call alert with the fixed message |
| Health.SortedDescAllPairs | app/src/main/java/com/oppam/launcher/data/FakeHealthRepository.kt:25 | neighbour-wise newest-first order is order between any two positions |
| Health.InsertDesc | app/src/main/java/com/oppam/launcher/data/FakeHealthRepository.kt:25 | inserting adds one element and puts either it or the old head first |
| Health.InsertDescPermutes | app/src/main/java/com/oppam/launcher/data/FakeHealthRepository.kt:25 | insertion adds exactly the one log to the multiset |
| Health.InsertDescSorted | app/src/main/java/com/oppam/launcher/data/FakeHealthRepository.kt:25 | insertion into a newest-first list keeps it newest first |
| Health.SortByTimestampDesc | app/src/main/java/com/oppam/launcher/data/FakeHealthRepository.kt:25 | the sorted list has the same length |
| Health.SortByTimestampDescCorrect | app/src/main/java/com/oppam/launcher/data/FakeHealthRepository.kt:25 | the sort is a permutation and newest first |
| Health.WithTimestampInsert | app/src/main/java/com/oppam/launcher/data/FakeHealthRepository.kt:25 | insertion puts the new log before every log with its timestamp |
| Health.SortIsStable | app/src/main/java/com/oppam/launcher/data/FakeHealthRepository.kt:25 | logs with equal timestamps keep their relative order |
| Health.After | app/src/main/java/com/oppam/launcher/data/FakeHealthRepository.kt:34 | the filter keeps exactly the logs newer than the cutoff |
| Health.AfterCounts | app/src/main/java/com/oppam/launcher/data/FakeHealthRepository.kt:34 | each log newer than the cutoff is kept as often as it occurs; older ones are dropped |
| Health.AfterKeepsAll | app/src/main/java/com/oppam/launcher/data/FakeHealthRepository.kt:34 | when all logs are newer than the cutoff the filter keeps the list |
| Health.IndexOfFirst | app/src/main/java/com/oppam/launcher/data/FakeHealthRepository.kt:74 | the first position with the id, or -1 iff there is none |
| Health.MarkTaken | app/src/main/java/com/oppam/launcher/data/FakeHealthRepository.kt:73-78 | only the first reminder with the id gets the flag; an unknown id changes nothing |
| Health.MarkTakenKeepsIndex | app/src/main/java/com/oppam/launcher/data/FakeHealthRepository.kt:73-78 | marking does not move any id |
| Health.MarkTakenIdempotent | app/src/main/java/com/oppam/launcher/data/FakeHealthRepository.kt:73-78 | marking twice with the same flag equals marking once |
| Health.MarkTakenUndo | app/src/main/java/com/oppam/launcher/data/FakeHealthRepository.kt:73-78 | marking back to the previous flag restores the list |
| Health.SampleHealthLogs | app/src/main/java/com/oppam/launcher/data/FakeHealthRepository.kt:99-156 | four logs carrying the given ids, all within the last seven days and newest first |
| Health.SampleMedications | app/src/main/java/com/oppam/launcher/data/FakeHealthRepository.kt:158-191 | three reminders with ids "1", "2", "3"; only the first is taken |
| Health.SampleLogsAreRecent | app/src/main/java/com/oppam/launcher/data/FakeHealthRepository.kt:99-156 | the four sample logs are newest first and all within the default seven days |
| Health.FakeHealthRepository.constructor | app/src/main/java/com/oppam/launcher/data/FakeHealthRepository.kt:15-19 | the store starts with the sample logs and reminders |
| Health.FakeHealthRepository.GetHealthLogs | app/src/main/java/com/oppam/launcher/data/FakeHealthRepository.kt:24-26 | all logs, newest first, a permutation of the stored ones that keeps equal timestamps in order |
| Health.FakeHealthRepository.GetRecentHealthLogs | app/src/main/java/com/oppam/launcher/data/FakeHealthRepository.kt:31-36 | the logs newer than the cutoff, each as often as it is stored, newest first |
| Health.FakeHealthRepository.AddHealthLog | app/src/main/java/com/oppam/launcher/data/FakeHealthRepository.kt:41-61 | the log with the given values, id and time is inserted at the front; reminders are unchanged |
| Health.FakeHealthRepository.GetMedications | app/src/main/java/com/oppam/launcher/data/FakeHealthRepository.kt:66-68 | all reminders in order |
| Health.FakeHealthRepository.MarkMedicationTaken | app/src/main/java/com/oppam/launcher/data/FakeHealthRepository.kt:73-78 | reminders step by `MarkTaken`; logs are unchanged |
| Health.FakeHealthRepository.AddMedication | app/src/main/java/com/oppam/launcher/data/FakeHealthRepository.kt:83-94 | a reminder that is not taken is appended and returned |
| HealthLogUi.DefaultHealthLogUiState | app/src/main/java/com/oppam/launcher/ui/healthlog/HealthLogViewModel.kt:96-101 | empty lists and both flags off |
| HealthLogUi.HealthLogViewModel.constructor | app/src/main/java/com/oppam/launcher/ui/healthlog/HealthLogViewModel.kt:15-24 | starts from the default state and loads once, leaving the repository untouched |
| HealthLogUi.HealthLogViewModel.LoadData | app/src/main/java/com/oppam/launcher/ui/healthlog/HealthLogViewModel.kt:29-37 | the state holds the last seven days of logs and all reminders; the flags are kept |
| HealthLogUi.HealthLogViewModel.AddHealthLog | app/src/main/java/com/oppam/launcher/ui/healthlog/HealthLogViewModel.kt:42-64 | the log is added to the repository and appears among the shown recent logs, and the success message is shown |
| HealthLogUi.HealthLogViewModel.ToggleMedicationTaken | app/src/main/java/com/oppam/launcher/ui/healthlog/HealthLogViewModel.kt:69-72 | the reminder is marked in the repository and the state reloaded |
| HealthLogUi.HealthLogViewModel.DismissSuccessMessage | app/src/main/java/com/oppam/launcher/ui/healthlog/HealthLogViewModel.kt:77-81 | only the success flag is cleared |
| HealthLogUi.HealthLogViewModel.SetShowAddDialog | app/src/main/java/com/oppam/launcher/ui/healthlog/HealthLogViewModel.kt:86-90 | only the dialog flag is set |
| Launcher.GreetingForHour | app/src/main/java/com/oppam/launcher/ui/launcher/LauncherViewModel.kt:41-48 | morning iff hour 0-11, afternoon iff 12-16, evening otherwise |
| Launcher.GreetingAdvances | app/src/main/java/com/oppam/launcher/ui/launcher/LauncherViewModel.kt:41-48 | within a day the greeting never goes back to an earlier part of the day |
| Launcher.DefaultLauncherUiState | app/src/main/java/com/oppam/launcher/ui/launcher/LauncherViewModel.kt:71-75 | greeting "Welcome", no last action, not loading |
| Launcher.LauncherViewModel.constructor | app/src/main/java/com/oppam/launcher/ui/launcher/LauncherViewModel.kt:23-26 | the default state with the greeting for the hour |
| Launcher.LauncherViewModel.GreetUser | app/src/main/java/com/oppam/launcher/ui/launcher/LauncherViewModel.kt:31-36 | only the greeting changes, to the one for the hour |
| Launcher.LauncherViewModel.OnCallFamilyClick | app/src/main/java/com/oppam/launcher/ui/launcher/LauncherViewModel.kt:53-56 | only the last action changes, to "Call Family clicked" |
| Launcher.LauncherViewModel.OnHealthLogClick | app/src/main/java/com/oppam/launcher/ui/launcher/LauncherViewModel.kt:58-61 | only the last action changes, to "Health Log clicked" |
| Launcher.LauncherViewModel.OnProtectionModeClick | app/src/main/java/com/oppam/launcher/ui/launcher/LauncherViewModel.kt:63-65 | only the last action changes, to "Protection Mode clicked" |
| VoiceInput.LowerChar | app/src/main/java/com/oppam/launcher/utils/VoiceInputHelper.kt:138 | upper-case ASCII letters map to lower case and all other characters are kept; no upper-case letter remains |
| VoiceInput.ToLower | app/src/main/java/com/oppam/launcher/utils/VoiceInputHelper.kt:138 | lower-casing character by character, same length |
| VoiceInput.ToLowerIdempotent | app/src/main/java/com/oppam/launcher/utils/VoiceInputHelper.kt:138 | lower-casing twice equals lower-casing once |
| VoiceInput.ToLowerOfLower | app/src/main/java/com/oppam/launcher/utils/VoiceInputHelper.kt:138 | text without upper-case letters is unchanged |
| VoiceInput.Contains | app/src/main/java/com/oppam/launcher/utils/VoiceInputHelper.kt:138-142 | the empty word is in every text, and a word longer than the text is never in it |
| VoiceInput.ContainsSurvivesLowering | app/src/main/java/com/oppam/launcher/utils/VoiceInputHelper.kt:138-142 | a lower-case keyword found in the text is still found in its lower case |
| VoiceInput.AbsentFirstChar | app/src/main/java/com/oppam/launcher/utils/VoiceInputHelper.kt:142 | a word whose first character the text lacks does not occur in it |
| VoiceInput.NothingInEmpty | app/src/main/java/com/oppam/launcher/utils/VoiceInputHelper.kt:142 | no non-empty word occurs in the empty text |
| VoiceInput.FirstLabel | app/src/main/java/com/oppam/launcher/utils/VoiceInputHelper.kt:141-150 | the entry of the first matching rule, with no earlier rule matching; none iff no rule matches |
| VoiceInput.FirstLabelCons | app/src/main/java/com/oppam/launcher/utils/VoiceInputHelper.kt:141-150 | the first rule's entry when it matches, otherwise the search of the rest |
| VoiceInput.MatchesTwo | app/src/main/java/com/oppam/launcher/utils/VoiceInputHelper.kt:142 | a two-word rule matches iff either word occurs |
| VoiceInput.MatchesThree | app/src/main/java/com/oppam/launcher/utils/VoiceInputHelper.kt:154 | a three-word rule matches iff one of its words occurs |
| VoiceInput.SymptomEntry | app/src/main/java/com/oppam/launcher/utils/VoiceInputHelper.kt:141-150 | the symptom table tried in order: headache, leg pain, tiredness, stomach pain |
| VoiceInput.MedicationEntry | app/src/main/java/com/oppam/launcher/utils/VoiceInputHelper.kt:153-156 | the medication entry is found iff one of its three words occurs |
| VoiceInput.MetricEntry | app/src/main/java/com/oppam/launcher/utils/VoiceInputHelper.kt:159-164 | blood pressure is tried before sugar |
| VoiceInput.KeywordsOf | app/src/main/java/com/oppam/launcher/utils/VoiceInputHelper.kt:136-167 | the map has no keys other than symptom, medication and metric |
| VoiceInput.ParseHealthKeywords | app/src/main/java/com/oppam/launcher/utils/VoiceInputHelper.kt:136-167 | the map the three `when` blocks build equals the map the keyword tables give for the lower-cased text |
| VoiceInput.NoKeywordsIff | app/src/main/java/com/oppam/launcher/utils/VoiceInputHelper.kt:136-167 | the map is empty iff no group matches |
| VoiceInput.EmptySpeechHasNoKeywords | app/src/main/java/com/oppam/launcher/utils/VoiceInputHelper.kt:136-167 | empty speech gives the empty map |
| VoiceInput.MedicationIff | app/src/main/java/com/oppam/launcher/utils/VoiceInputHelper.kt:153-156 | the medication key is present iff a pill, tablet or took word occurs, and it is always "took medicine" |
| VoiceInput.HeadacheComesFirst | app/src/main/java/com/oppam/launcher/utils/VoiceInputHelper.kt:141-143 | a headache word decides the symptom whatever else is said |
| VoiceInput.StomachComesLast | app/src/main/java/com/oppam/launcher/utils/VoiceInputHelper.kt:141-150 | stomach pain is reported iff no earlier symptom word occurs and a stomach word does |
| VoiceInput.BloodPressureBeatsSugar | app/src/main/java/com/oppam/launcher/utils/VoiceInputHelper.kt:159-164 | the metric is present iff a blood-pressure or sugar word occurs; a blood-pressure word wins |
| VoiceInput.ParsingIgnoresCase | app/src/main/java/com/oppam/launcher/utils/VoiceInputHelper.kt:138 | parsing lower-cased text gives the same map as parsing the original |
| VoiceInput.TabletInAnyCase | app/src/main/java/com/oppam/launcher/utils/VoiceInputHelper.kt:154 | "tablet" in any mix of case records medication |
| VoiceInput.LowerShouted | app/src/main/java/com/oppam/launcher/utils/VoiceInputHelper.kt:138 | "HEADACHE" lower-cases to "headache" |
| VoiceInput.HeadacheWordEntries | app/src/main/java/com/oppam/launcher/utils/VoiceInputHelper.kt:141-164 | "headache" matches the headache symptom and neither a medication nor a metric |
| VoiceInput.ShoutedHeadache | app/src/main/java/com/oppam/launcher/utils/VoiceInputHelper.kt:136-167 | "HEADACHE" gives exactly the headache symptom entry |

## Left out

- Screen layout, colours, fonts, icons, the role-selection screen's cards, the dashboards and every other Compose element that holds no state logic.
- Text-to-speech calls in the login screens and the voice assistant: they only speak and change no state.
- `SharedPreferences` is a map on which every `apply()` takes effect at once. Asynchronous persistence is not modelled.
- The `StateFlow` wrappers: the model holds the current value. Observers and recomposition are not modelled, and neither is the coroutine in `greetUser`, which the model runs at once.
- The `getInstance` singletons: each repository or manager is an object handed to whoever uses it.
- `Float` arithmetic: scores, averages and temperatures are exact reals, so rounding at the 0.4 and 0.7 thresholds is not modelled. The average of no scores is NaN in the source, which classifies as LOW; the model gives LOW for an empty history directly.
- `LocalDateTime.now()`, `UUID.randomUUID()`, `Random.nextFloat()` and `Calendar` become parameters. Where the source reads the clock twice in one operation, the model uses one instant: in `addAlert`, and in HealthLogUi.HealthLogViewModel.AddHealthLog, where the repository's write and the following recent-logs read each call `now()`, so the new log always counts as recent in the model.
- Behavior.FakeBehaviorRepository.constructor: one `now` is used for all eight points, where the source reads the clock once per point.
- VoiceInput.ToLower: only ASCII letters are lower-cased. Kotlin's `lowercase()` also maps other Unicode letters, which matters for none of the keywords, since Malayalam has no case.
- `HealthLog.getFormattedDate` (date formatting) and the `HealthVital` enum's use in the screen are presentation only.
- The speech recogniser, its listener callbacks, `AlertNotificationHelper`, `FakeCallActivity` and the alert overlay are platform I/O.
- The caregiver login's back button is a plain `onBack` callback that touches no state, and it is not modelled; only the elderly login's back button is, as its `NavigateBack` event. The `onLoginSuccess` navigation of both screens is modelled as the `LoginSuccess` event the handlers return.
- `getMedications` hands out the repository's own mutable list, so the view model's state and the repository share one list, and the `StateFlow` may not emit when the same list is set again. The model copies a value on each reload, so this sharing and the non-emission are not captured.
- Calendar arithmetic: dates are one integer clock of seconds, so "n days ago" is exactly n × 86400 seconds and daylight-saving shifts do not occur.
