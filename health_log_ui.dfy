/**
 * The health-log screen's view model: a copy of the recent logs and of the
 * medication reminders, reloaded from the health repository after every
 * change, plus two dialog flags.
 */
module HealthLogUi {
  import opened Models
  import opened Health

  datatype HealthLogUiState = HealthLogUiState(
    recentLogs: seq<HealthLog>,
    medications: seq<MedicationReminder>,
    showAddDialog: bool,
    showSuccessMessage: bool)

  /** The state before the first load: empty lists, both flags off. */
  function DefaultHealthLogUiState(): (u: HealthLogUiState)
    ensures u.recentLogs == [] && u.medications == []
    ensures !u.showAddDialog && !u.showSuccessMessage
  {
    HealthLogUiState([], [], false, false)
  }

  class HealthLogViewModel {
    const repository: FakeHealthRepository
    var uiState: HealthLogUiState

    /** What a load copies from the repository: the last seven days of logs and all reminders. */
    ghost predicate Loaded(now: Timestamp)
      reads this, repository
    {
      && uiState.recentLogs == repository.GetRecentHealthLogs(now, DefaultRecentDays)
      && uiState.medications == repository.GetMedications()
    }

    /** Starts from the default state and loads once; `now` stands for the clock. */
    constructor (repo: FakeHealthRepository, now: Timestamp)
      ensures repository == repo
      ensures Loaded(now)
      ensures !uiState.showAddDialog && !uiState.showSuccessMessage
      ensures repo.healthLogs == old(repo.healthLogs) && repo.medications == old(repo.medications)
    {
      repository := repo;
      uiState := DefaultHealthLogUiState();
      new;
      LoadData(now);
    }

    /** Replaces the two lists in the state; the flags stay. */
    method LoadData(now: Timestamp)
      modifies this
      ensures Loaded(now)
      ensures uiState.showAddDialog == old(uiState.showAddDialog)
      ensures uiState.showSuccessMessage == old(uiState.showSuccessMessage)
    {
      var logs := repository.GetRecentHealthLogs(now, DefaultRecentDays);
      var medications := repository.GetMedications();
      uiState := uiState.(recentLogs := logs, medications := medications);
    }

    /**
     * Records a log through the repository, reloads and shows the success
     * message. The new log is among the recent logs shown.
     */
    method AddHealthLog(
      bloodPressureSystolic: Option<int>, bloodPressureDiastolic: Option<int>, bloodSugar: Option<int>,
      temperature: Option<real>, heartRate: Option<int>, notes: Option<string>,
      id: string, now: Timestamp)
      modifies this, repository
      ensures repository.healthLogs == [HealthLog(id, now, bloodPressureSystolic, bloodPressureDiastolic,
        bloodSugar, temperature, heartRate, notes)] + old(repository.healthLogs)
      ensures repository.medications == old(repository.medications)
      ensures Loaded(now)
      ensures HealthLog(id, now, bloodPressureSystolic, bloodPressureDiastolic, bloodSugar,
        temperature, heartRate, notes) in uiState.recentLogs
      ensures uiState.showSuccessMessage
      ensures uiState.showAddDialog == old(uiState.showAddDialog)
    {
      var log := repository.AddHealthLog(bloodPressureSystolic, bloodPressureDiastolic, bloodSugar,
        temperature, heartRate, notes, id, now);
      LoadData(now);
      uiState := uiState.(showSuccessMessage := true);
      assert multiset(repository.healthLogs)[log] > 0;
      assert multiset(uiState.recentLogs)[log] > 0;
    }

    /** Sets a reminder's taken flag through the repository and reloads. */
    method ToggleMedicationTaken(medicationId: string, taken: bool, now: Timestamp)
      modifies this, repository
      ensures repository.medications == MarkTaken(old(repository.medications), medicationId, taken)
      ensures repository.healthLogs == old(repository.healthLogs)
      ensures Loaded(now)
      ensures uiState.showAddDialog == old(uiState.showAddDialog)
      ensures uiState.showSuccessMessage == old(uiState.showSuccessMessage)
    {
      repository.MarkMedicationTaken(medicationId, taken);
      LoadData(now);
    }

    method DismissSuccessMessage()
      modifies this
      ensures uiState == old(uiState).(showSuccessMessage := false)
    {
      uiState := uiState.(showSuccessMessage := false);
    }

    method SetShowAddDialog(show: bool)
      modifies this
      ensures uiState == old(uiState).(showAddDialog := show)
    {
      uiState := uiState.(showAddDialog := show);
    }
  }
}
