/**
 * The launcher's view model: a greeting chosen from the hour of the day and
 * the name of the last button pressed.
 */
module Launcher {
  const Morning: string := "Good Morning"
  const Afternoon: string := "Good Afternoon"
  const Evening: string := "Good Evening"

  /** Hours 0-11 greet the morning, 12-16 the afternoon, every other hour the evening. */
  function GreetingForHour(hour: int): (greeting: string)
    ensures greeting == Morning <==> 0 <= hour <= 11
    ensures greeting == Afternoon <==> 12 <= hour <= 16
    ensures greeting == Evening <==> !(0 <= hour <= 16)
  {
    if 0 <= hour <= 11 then Morning
    else if 12 <= hour <= 16 then Afternoon
    else Evening
  }

  /** The greeting never gets earlier as the day goes on. */
  lemma GreetingAdvances(h1: int, h2: int)
    requires 0 <= h1 <= h2 <= 23
    ensures GreetingForHour(h1) == Evening ==> GreetingForHour(h2) == Evening
    ensures GreetingForHour(h2) == Morning ==> GreetingForHour(h1) == Morning
  {
  }

  datatype LauncherUiState = LauncherUiState(greeting: string, lastAction: string, isLoading: bool)

  function DefaultLauncherUiState(): (u: LauncherUiState)
    ensures u.greeting == "Welcome" && u.lastAction == "" && !u.isLoading
  {
    LauncherUiState("Welcome", "", false)
  }

  const CallFamilyAction: string := "Call Family clicked"
  const HealthLogAction: string := "Health Log clicked"
  const ProtectionModeAction: string := "Protection Mode clicked"

  class LauncherViewModel {
    var uiState: LauncherUiState

    /** Starts from the default state and greets at once; `hour` stands for the clock's hour of day. */
    constructor (hour: int)
      ensures uiState == DefaultLauncherUiState().(greeting := GreetingForHour(hour))
    {
      uiState := DefaultLauncherUiState();
      new;
      GreetUser(hour);
    }

    /** Replaces only the greeting. */
    method GreetUser(hour: int)
      modifies this
      ensures uiState == old(uiState).(greeting := GreetingForHour(hour))
    {
      var greeting := GreetingForHour(hour);
      uiState := uiState.(greeting := greeting);
    }

    method OnCallFamilyClick()
      modifies this
      ensures uiState == old(uiState).(lastAction := CallFamilyAction)
    {
      uiState := uiState.(lastAction := CallFamilyAction);
    }

    method OnHealthLogClick()
      modifies this
      ensures uiState == old(uiState).(lastAction := HealthLogAction)
    {
      uiState := uiState.(lastAction := HealthLogAction);
    }

    method OnProtectionModeClick()
      modifies this
      ensures uiState == old(uiState).(lastAction := ProtectionModeAction)
    {
      uiState := uiState.(lastAction := ProtectionModeAction);
    }
  }
}
