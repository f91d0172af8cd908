/**
 * The PIN entry of the caregiver login screen, without its layout: the
 * remembered PIN and error state, the text box, the quick number pad, its
 * clear key and the "Access Dashboard" button that asks the role manager to
 * enter caregiver mode.
 */
module CaregiverLogin {
  import opened Roles
  import Decimal
  import opened Pin

  /** What a handler of this screen asks the navigation layer to do. */
  datatype CaregiverLoginEvent = Stay | LoginSuccess
  const IncorrectPinMessage: string := "Incorrect PIN. Try again."
  const ShortPinMessage: string := "Please enter a 4-digit PIN"

  /** The numbers on the pad's three rows of three keys, in the order the nested loops lay them out. */
  method PadNumbers() returns (numbers: seq<nat>)
    ensures |numbers| == 9
    ensures forall i :: 0 <= i < 9 ==> numbers[i] == i + 1
  {
    numbers := [];
    var row := 0;
    while row <= 2
      invariant 0 <= row <= 3
      invariant |numbers| == 3 * row
      invariant forall i :: 0 <= i < |numbers| ==> numbers[i] == i + 1
    {
      var col := 1;
      while col <= 3
        invariant 1 <= col <= 4
        invariant |numbers| == 3 * row + col - 1
        invariant forall i :: 0 <= i < |numbers| ==> numbers[i] == i + 1
      {
        var number := row * 3 + col;
        numbers := numbers + [number];
        col := col + 1;
      }
      row := row + 1;
    }
  }

  class CaregiverLoginScreen {
    const roleManager: RoleManager
    var pin: string
    var showError: bool
    var errorMessage: string

    /** The PIN never exceeds four UTF-16 units; a shown error carries one of the two messages. */
    ghost predicate Valid()
      reads this
    {
      && Utf16Length(pin) <= MaxPinLength
      && errorMessage in {"", IncorrectPinMessage, ShortPinMessage}
      && (showError ==> errorMessage != "")
    }

    constructor (rm: RoleManager)
      ensures Valid()
      ensures roleManager == rm
      ensures pin == "" && !showError && errorMessage == ""
    {
      roleManager := rm;
      pin := "";
      showError := false;
      errorMessage := "";
    }

    /** The access button is enabled iff something has been entered. */
    function AccessEnabled(): (enabled: bool)
      reads this
      ensures enabled <==> Utf16Length(pin) > 0
    {
      pin != ""
    }

    /** An edit of the text box: accepted only up to four UTF-16 units; it hides the error. */
    method OnValueChange(text: string)
      requires Valid()
      modifies this
      ensures Valid()
      ensures errorMessage == old(errorMessage)
      ensures Utf16Length(text) <= MaxPinLength ==> pin == text && !showError
      ensures Utf16Length(text) > MaxPinLength ==> pin == old(pin) && showError == old(showError)
    {
      if Utf16Length(text) <= MaxPinLength {
        pin := text;
        showError := false;
      }
    }

    /** A pad key (1 to 9, or the 0 key): appends its digit while the PIN is shorter than four UTF-16 units. */
    method OnPadPress(number: nat)
      requires number <= 9
      requires Valid()
      modifies this
      ensures Valid()
      ensures showError == old(showError) && errorMessage == old(errorMessage)
      ensures Utf16Length(old(pin)) < MaxPinLength ==> pin == old(pin) + [Decimal.DigitChar(number)]
      ensures Utf16Length(old(pin)) >= MaxPinLength ==> pin == old(pin)
    {
      if Utf16Length(pin) < MaxPinLength {
        DigitIsOneUnit(pin, Decimal.DigitChar(number));
        pin := pin + Decimal.NatToString(number);
      }
    }

    /** The clear key empties the PIN and touches nothing else. */
    method OnClearPress()
      requires Valid()
      modifies this
      ensures Valid()
      ensures pin == "" && showError == old(showError) && errorMessage == old(errorMessage)
    {
      pin := "";
    }

    /** "Access Dashboard": only a PIN of four UTF-16 units is checked, against the role manager. */
    method OnAccessClick() returns (event: CaregiverLoginEvent)
      requires Valid()
      modifies this, roleManager
      ensures Valid()
      ensures Utf16Length(old(pin)) != MaxPinLength ==>
        && event == Stay
        && roleManager.State() == old(roleManager.State())
        && pin == old(pin) && showError && errorMessage == ShortPinMessage
      ensures Utf16Length(old(pin)) == MaxPinLength ==>
        && roleManager.State() == AfterSwitchToCaregiver(old(roleManager.State()), old(pin))
        && (if CaregiverPinAccepted(old(roleManager.State()), old(pin))
            then (event == LoginSuccess && roleManager.currentRole == Caregiver
              && pin == old(pin) && showError == old(showError) && errorMessage == old(errorMessage))
            else (event == Stay && pin == "" && showError && errorMessage == IncorrectPinMessage))
    {
      event := Stay;
      if Utf16Length(pin) == MaxPinLength {
        var ok := roleManager.SwitchToCaregiverMode(pin);
        if ok {
          event := LoginSuccess;
        } else {
          showError := true;
          errorMessage := IncorrectPinMessage;
          pin := "";
        }
      } else {
        showError := true;
        errorMessage := ShortPinMessage;
      }
    }
  }
}
