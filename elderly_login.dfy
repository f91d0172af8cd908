/**
 * The PIN entry of the elderly login screen, without its layout: the screen's
 * remembered state and its three handlers (text edit, the login/next button
 * and the back button).
 *
 * A first-time user (no elderly PIN stored when the screen starts) types a
 * 4-digit PIN, presses Next, types it again and presses Create, which stores
 * it. A returning user types the PIN and presses Login, which checks it
 * against the stored one.
 */
module ElderlyLogin {
  import opened Roles
  import opened Pin

  /** What a handler of this screen asks the navigation layer to do. */
  datatype ElderlyLoginEvent = Stay | LoginSuccess | NavigateBack

  class ElderlyLoginScreen {
    const roleManager: RoleManager
    var pin: string
    var showError: bool
    var isFirstTime: bool
    var confirmPin: string
    var showConfirm: bool

    /** Both fields stay within four UTF-16 units; the confirm step is only reached with a PIN of exactly four. */
    ghost predicate Valid()
      reads this
    {
      && Utf16Length(pin) <= MaxPinLength
      && Utf16Length(confirmPin) <= MaxPinLength
      && (showConfirm ==> isFirstTime && Utf16Length(pin) == MaxPinLength)
    }

    /** The first-time flag is read once, from the store, when the screen starts. */
    constructor (rm: RoleManager)
      ensures Valid()
      ensures roleManager == rm
      ensures isFirstTime == !HasElderlyPin(rm.State())
      ensures pin == "" && confirmPin == "" && !showError && !showConfirm
    {
      roleManager := rm;
      pin := "";
      showError := false;
      isFirstTime := !(ElderlyPinKey in rm.prefs);
      confirmPin := "";
      showConfirm := false;
    }

    /** The field the text box currently shows and edits: the confirmation in the confirm step, else the PIN. */
    function ActiveField(): (field: string)
      reads this
      ensures showConfirm ==> field == confirmPin
      ensures !showConfirm ==> field == pin
      ensures Valid() ==> Utf16Length(field) <= MaxPinLength
    {
      if showConfirm then confirmPin else pin
    }

    /** The login/next button is enabled iff the field being edited is non-empty. */
    function LoginEnabled(): (enabled: bool)
      reads this
      ensures enabled <==> |ActiveField()| > 0
      ensures enabled <==> (if showConfirm then confirmPin != "" else pin != "")
    {
      ActiveField() != ""
    }

    /** An edit of the text box: accepted only up to four UTF-16 units; it clears the error. */
    method OnValueChange(text: string)
      requires Valid()
      modifies this
      ensures Valid()
      ensures isFirstTime == old(isFirstTime) && showConfirm == old(showConfirm)
      ensures Utf16Length(text) <= MaxPinLength ==>
        && pin == (if old(showConfirm) then old(pin) else text)
        && confirmPin == (if old(showConfirm) then text else old(confirmPin))
        && !showError
      ensures Utf16Length(text) > MaxPinLength ==>
        pin == old(pin) && confirmPin == old(confirmPin) && showError == old(showError)
    {
      if Utf16Length(text) <= MaxPinLength {
        if showConfirm {
          confirmPin := text;
        } else {
          pin := text;
        }
        showError := false;
      }
    }

    /** The login/next/create button. */
    method OnLoginClick() returns (event: ElderlyLoginEvent)
      requires Valid()
      modifies this, roleManager
      ensures Valid()
      ensures isFirstTime == old(isFirstTime)
      // first step of the first run: advance iff the PIN is four UTF-16 units long
      ensures old(isFirstTime) && !old(showConfirm) ==>
        && event == Stay
        && roleManager.State() == old(roleManager.State())
        && pin == old(pin) && confirmPin == old(confirmPin)
        && (if Utf16Length(old(pin)) == MaxPinLength
            then showConfirm && showError == old(showError)
            else !showConfirm && showError)
      // confirm step: a match stores the PIN, a mismatch clears only the confirmation
      ensures old(isFirstTime) && old(showConfirm) ==>
        && pin == old(pin) && showConfirm
        && (if old(pin) == old(confirmPin)
            then (event == LoginSuccess
              && roleManager.State() == AfterSetElderlyPin(old(roleManager.State()), old(pin))
              && confirmPin == old(confirmPin) && showError == old(showError))
            else (event == Stay
              && roleManager.State() == old(roleManager.State())
              && confirmPin == "" && showError))
      // returning user: a correct PIN enters ELDERLY mode, a wrong one is cleared
      ensures !old(isFirstTime) ==>
        && confirmPin == old(confirmPin) && showConfirm == old(showConfirm)
        && (if ElderlyPinAccepted(old(roleManager.State()), old(pin))
            then (event == LoginSuccess
              && roleManager.State() == AfterSwitchToElderly(old(roleManager.State()))
              && pin == old(pin) && showError == old(showError))
            else (event == Stay
              && roleManager.State() == old(roleManager.State())
              && pin == "" && showError))
      // whatever this screen stores as the elderly PIN is exactly four UTF-16 units long
      ensures roleManager.prefs != old(roleManager.prefs) ==>
        && roleManager.prefs == old(roleManager.prefs)[ElderlyPinKey := old(pin)]
        && Utf16Length(old(pin)) == MaxPinLength
    {
      event := Stay;
      if isFirstTime {
        if !showConfirm {
          if Utf16Length(pin) == MaxPinLength {
            showConfirm := true;
          } else {
            showError := true;
          }
        } else {
          if pin == confirmPin {
            roleManager.SetElderlyPin(pin);
            event := LoginSuccess;
          } else {
            showError := true;
            confirmPin := "";
          }
        }
      } else {
        var ok := roleManager.VerifyElderlyPin(pin);
        if ok {
          roleManager.SwitchToElderlyMode();
          event := LoginSuccess;
        } else {
          showError := true;
          pin := "";
        }
      }
    }

    /** Back: from the confirm step it returns to the first step; otherwise it leaves the screen. */
    method OnBackClick() returns (event: ElderlyLoginEvent)
      requires Valid()
      modifies this
      ensures Valid()
      ensures old(showConfirm) ==>
        && event == Stay && !showConfirm && confirmPin == ""
        && pin == old(pin) && showError == old(showError) && isFirstTime == old(isFirstTime)
      ensures !old(showConfirm) ==>
        event == NavigateBack && unchanged(this)
    {
      if showConfirm {
        showConfirm := false;
        confirmPin := "";
        event := Stay;
      } else {
        event := NavigateBack;
      }
    }
  }
}
