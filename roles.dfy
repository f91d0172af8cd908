/**
 * The credential store and role session (`RoleManager`): a key-value store
 * holding the caregiver PIN and the elderly PIN, and the current role.
 *
 * Each operation is first given as a function on a `Session` value; the
 * class `RoleManager` holds the same state in mutable fields and each of its
 * methods is proved to step its state by that function. The lemmas at the
 * end relate the operations to each other.
 */
module Roles {
  import opened Models

  datatype UserRole = Elderly | Caregiver

  const CaregiverPinKey: string := "caregiver_pin"
  const ElderlyPinKey: string := "elderly_pin"
  const DefaultPin: string := "1234"

  type Prefs = map<string, string>

  datatype Session = Session(prefs: Prefs, role: UserRole)

  /** `getString(key, default)`: the stored value, or `default` when the key is absent. */
  function GetString(prefs: Prefs, key: string, default: string): (v: string)
    ensures key in prefs ==> v == prefs[key]
    ensures key !in prefs ==> v == default
  {
    if key in prefs then prefs[key] else default
  }

  /** The caregiver PIN every check compares with: the stored one, else "1234". */
  function SavedCaregiverPin(prefs: Prefs): (pin: string)
    ensures CaregiverPinKey in prefs ==> pin == prefs[CaregiverPinKey]
    ensures CaregiverPinKey !in prefs ==> pin == DefaultPin
  {
    GetString(prefs, CaregiverPinKey, DefaultPin)
  }

  // ---- The operations on a session value ----

  /** Construction: the role starts ELDERLY; a missing caregiver PIN is filled with the default. */
  function Open(stored: Prefs): (s: Session)
    ensures s.role == Elderly
    ensures CaregiverPinKey in s.prefs
    ensures CaregiverPinKey !in stored ==> s.prefs == stored[CaregiverPinKey := DefaultPin]
    ensures CaregiverPinKey in stored ==> s.prefs == stored
  {
    var prefs := if CaregiverPinKey in stored then stored else stored[CaregiverPinKey := DefaultPin];
    Session(prefs, Elderly)
  }

  function AfterSwitchToElderly(s: Session): (t: Session)
    ensures t.prefs == s.prefs && t.role == Elderly
  {
    s.(role := Elderly)
  }

  /** Whether `switchToCaregiverMode(pin)` succeeds. */
  predicate CaregiverPinAccepted(s: Session, pin: string)
    ensures CaregiverPinKey in s.prefs ==> (CaregiverPinAccepted(s, pin) <==> pin == s.prefs[CaregiverPinKey])
    ensures CaregiverPinKey !in s.prefs ==> (CaregiverPinAccepted(s, pin) <==> pin == DefaultPin)
  {
    pin == SavedCaregiverPin(s.prefs)
  }

  /** The session after `switchToCaregiverMode(pin)`. */
  function AfterSwitchToCaregiver(s: Session, pin: string): (t: Session)
    ensures t.prefs == s.prefs
    ensures t.role == (if CaregiverPinAccepted(s, pin) then Caregiver else s.role)
  {
    if CaregiverPinAccepted(s, pin) then s.(role := Caregiver) else s
  }

  /** `isCaregiverMode()`: the only other role is ELDERLY. */
  predicate IsCaregiver(s: Session)
    ensures IsCaregiver(s) <==> s.role != Elderly
  {
    s.role == Caregiver
  }

  /** The session after `changePin(oldPin, newPin)`; it succeeds iff `CaregiverPinAccepted(s, oldPin)`. */
  function AfterChangePin(s: Session, oldPin: string, newPin: string): (t: Session)
    ensures t.role == s.role
    ensures CaregiverPinAccepted(s, oldPin) ==> t.prefs == s.prefs[CaregiverPinKey := newPin]
    ensures !CaregiverPinAccepted(s, oldPin) ==> t == s
  {
    if CaregiverPinAccepted(s, oldPin) then s.(prefs := s.prefs[CaregiverPinKey := newPin]) else s
  }

  /** `hasElderlyPin()`: an elderly PIN is stored exactly when some PIN verifies. */
  predicate HasElderlyPin(s: Session)
    ensures HasElderlyPin(s) ==> ElderlyPinKey in s.prefs && ElderlyPinAccepted(s, s.prefs[ElderlyPinKey])
    ensures !HasElderlyPin(s) ==> forall pin :: !ElderlyPinAccepted(s, pin)
  {
    ElderlyPinKey in s.prefs
  }

  function AfterSetElderlyPin(s: Session, pin: string): (t: Session)
    ensures t.role == s.role
    ensures t.prefs == s.prefs[ElderlyPinKey := pin]
  {
    s.(prefs := s.prefs[ElderlyPinKey := pin])
  }

  /** `verifyElderlyPin(pin)`: false when no elderly PIN is stored. */
  predicate ElderlyPinAccepted(s: Session, pin: string)
    ensures ElderlyPinAccepted(s, pin) ==> ElderlyPinKey in s.prefs
    ensures ElderlyPinKey in s.prefs ==> (ElderlyPinAccepted(s, pin) <==> pin == s.prefs[ElderlyPinKey])
  {
    ElderlyPinKey in s.prefs && pin == s.prefs[ElderlyPinKey]
  }

  function AfterClearAll(s: Session): (t: Session)
    ensures t.prefs == map[] && t.role == Elderly
  {
    Session(map[], Elderly)
  }

  // ---- The object ----

  class RoleManager {
    var prefs: Prefs
    var currentRole: UserRole

    function State(): Session
      reads this
    {
      Session(prefs, currentRole)
    }

    /** `stored` is what the preferences file already holds when the manager is created. */
    constructor (stored: Prefs)
      ensures State() == Open(stored)
    {
      prefs := stored;
      currentRole := Elderly;
      new;
      if CaregiverPinKey !in prefs {
        prefs := prefs[CaregiverPinKey := DefaultPin];
      }
    }

    method GetCurrentRole() returns (role: UserRole)
      ensures role == currentRole
    {
      role := currentRole;
    }

    method SwitchToElderlyMode()
      modifies this
      ensures State() == AfterSwitchToElderly(old(State()))
    {
      currentRole := Elderly;
    }

    method SwitchToCaregiverMode(pin: string) returns (ok: bool)
      modifies this
      ensures ok == CaregiverPinAccepted(old(State()), pin)
      ensures State() == AfterSwitchToCaregiver(old(State()), pin)
    {
      var savedPin := GetString(prefs, CaregiverPinKey, DefaultPin);
      if pin == savedPin {
        currentRole := Caregiver;
        ok := true;
      } else {
        ok := false;
      }
    }

    method IsCaregiverMode() returns (b: bool)
      ensures b <==> currentRole == Caregiver
    {
      b := currentRole == Caregiver;
    }

    method ChangePin(oldPin: string, newPin: string) returns (ok: bool)
      modifies this
      ensures ok == CaregiverPinAccepted(old(State()), oldPin)
      ensures State() == AfterChangePin(old(State()), oldPin, newPin)
    {
      var savedPin := GetString(prefs, CaregiverPinKey, DefaultPin);
      if oldPin == savedPin {
        prefs := prefs[CaregiverPinKey := newPin];
        ok := true;
      } else {
        ok := false;
      }
    }

    /** The demo default, whatever the stored PIN currently is. */
    method GetDefaultPin() returns (pin: string)
      ensures pin == "1234"
    {
      pin := DefaultPin;
    }

    /** Same answer as `SwitchToCaregiverMode`, without a role change. */
    method VerifyPin(pin: string) returns (ok: bool)
      ensures CaregiverPinKey in prefs ==> (ok <==> pin == prefs[CaregiverPinKey])
      ensures CaregiverPinKey !in prefs ==> (ok <==> pin == DefaultPin)
    {
      var savedPin := GetString(prefs, CaregiverPinKey, DefaultPin);
      ok := pin == savedPin;
    }

    method HasElderlyPin() returns (b: bool)
      ensures b <==> ElderlyPinKey in prefs
    {
      b := ElderlyPinKey in prefs;
    }

    method SetElderlyPin(pin: string)
      modifies this
      ensures State() == AfterSetElderlyPin(old(State()), pin)
    {
      prefs := prefs[ElderlyPinKey := pin];
    }

    method VerifyElderlyPin(pin: string) returns (ok: bool)
      ensures ok <==> ElderlyPinKey in prefs && prefs[ElderlyPinKey] == pin
    {
      if ElderlyPinKey !in prefs {
        return false;
      }
      var savedPin := prefs[ElderlyPinKey];
      ok := pin == savedPin;
    }

    method ClearAll()
      modifies this
      ensures State() == AfterClearAll(old(State()))
    {
      prefs := map[];
      currentRole := Elderly;
    }
  }

  // ---- Properties relating the operations ----

  /** A manager opened on an empty store accepts exactly "1234" and has no elderly PIN. */
  lemma FreshStoreAcceptsDefault(pin: string)
    ensures SavedCaregiverPin(Open(map[]).prefs) == "1234"
    ensures CaregiverPinAccepted(Open(map[]), pin) <==> pin == "1234"
    ensures !HasElderlyPin(Open(map[])) && !IsCaregiver(Open(map[]))
  {
  }

  /** Only a correct PIN enters caregiver mode; a wrong one changes nothing at all. */
  lemma SwitchToCaregiverGate(s: Session, pin: string)
    ensures IsCaregiver(AfterSwitchToCaregiver(s, pin)) <==> CaregiverPinAccepted(s, pin) || IsCaregiver(s)
    ensures !CaregiverPinAccepted(s, pin) ==> AfterSwitchToCaregiver(s, pin) == s
  {
  }

  /** Leaving caregiver mode undoes entering it: the store is untouched and the role is ELDERLY. */
  lemma EnterThenLeave(s: Session, pin: string)
    ensures AfterSwitchToElderly(AfterSwitchToCaregiver(s, pin)) == AfterSwitchToElderly(s)
    ensures !IsCaregiver(AfterSwitchToElderly(AfterSwitchToCaregiver(s, pin)))
  {
  }

  /** After a successful PIN change exactly the new PIN is accepted. */
  lemma ChangePinReplacesPin(s: Session, oldPin: string, newPin: string, pin: string)
    requires CaregiverPinAccepted(s, oldPin)
    ensures CaregiverPinAccepted(AfterChangePin(s, oldPin, newPin), pin) <==> pin == newPin
  {
  }

  /** After `setElderlyPin(q)` a PIN is present and exactly `q` is accepted, whatever was stored before. */
  lemma LatestElderlyPinWins(s: Session, q: string, p: string)
    ensures HasElderlyPin(AfterSetElderlyPin(s, q))
    ensures ElderlyPinAccepted(AfterSetElderlyPin(s, q), p) <==> p == q
    ensures !HasElderlyPin(s) ==> !ElderlyPinAccepted(s, p)
    ensures AfterSetElderlyPin(AfterSetElderlyPin(s, p), q) == AfterSetElderlyPin(s, q)
  {
  }

  /** Setting the elderly PIN never changes which caregiver PIN is accepted. */
  lemma ElderlyPinIndependentOfCaregiverPin(s: Session, q: string, p: string)
    ensures CaregiverPinAccepted(AfterSetElderlyPin(s, q), p) <==> CaregiverPinAccepted(s, p)
  {
  }

  /** After `clearAll` both keys are gone, the role is ELDERLY, and "1234" is accepted again. */
  lemma ClearAllFallsBackToDefault(s: Session, pin: string)
    ensures !HasElderlyPin(AfterClearAll(s)) && CaregiverPinKey !in AfterClearAll(s).prefs
    ensures !IsCaregiver(AfterClearAll(s))
    ensures CaregiverPinAccepted(AfterClearAll(s), pin) <==> pin == DefaultPin
  {
  }

  /**
   * Open a fresh store; "0000" is refused, "1234" admitted; the PIN is changed
   * to "5678"; after leaving caregiver mode, only "5678" is admitted.
   */
  lemma CaregiverScenario()
    ensures var s0 := Open(map[]);
      && !CaregiverPinAccepted(s0, "0000")
      && AfterSwitchToCaregiver(s0, "0000").role == Elderly
      && var s1 := AfterSwitchToCaregiver(s0, "1234");
      && CaregiverPinAccepted(s0, "1234") && s1.role == Caregiver
      && CaregiverPinAccepted(s1, "1234")
      && var s2 := AfterSwitchToElderly(AfterChangePin(s1, "1234", "5678"));
      && !CaregiverPinAccepted(s2, "1234")
      && CaregiverPinAccepted(s2, "5678")
      && AfterSwitchToCaregiver(s2, "5678").role == Caregiver
  {
  }

  /** A fresh store has no elderly PIN; after storing "2468" only "2468" is accepted. */
  lemma ElderlyScenario()
    ensures var s0 := Open(map[]);
      && !HasElderlyPin(s0)
      && !ElderlyPinAccepted(s0, "0000")
      && var s1 := AfterSetElderlyPin(s0, "2468");
      && HasElderlyPin(s1)
      && ElderlyPinAccepted(s1, "2468")
      && !ElderlyPinAccepted(s1, "0000")
  {
  }
}
