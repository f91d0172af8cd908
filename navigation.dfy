/**
 * The two routing decisions `MainActivity` makes: which screen the app starts
 * on, and where choosing a role on the role-selection screen leads.
 */
module Navigation {
  import Roles

  const RoleSelection: string := "role_selection"
  const ElderlyLogin: string := "elderly_login"
  const CaregiverLogin: string := "caregiver"
  const CaregiverDashboard: string := "caregiver_dashboard"

  /** The start destination, from whether an elderly PIN exists and whether caregiver mode is on. */
  function StartDestination(hasElderlyPin: bool, isCaregiverMode: bool): (route: string)
    ensures route == RoleSelection <==> !hasElderlyPin && !isCaregiverMode
    ensures route == CaregiverDashboard <==> isCaregiverMode
    ensures route == ElderlyLogin <==> hasElderlyPin && !isCaregiverMode
  {
    if !hasElderlyPin && !isCaregiverMode then RoleSelection
    else if isCaregiverMode then CaregiverDashboard
    else ElderlyLogin
  }

  /** Every pair of flags yields one of the three start routes. */
  lemma StartDestinationTotal(hasElderlyPin: bool, isCaregiverMode: bool)
    ensures StartDestination(hasElderlyPin, isCaregiverMode) in {RoleSelection, CaregiverDashboard, ElderlyLogin}
  {
  }

  /** The start route for a role session: the dashboard in caregiver mode, else by whether an elderly PIN is stored. */
  function StartDestinationOf(s: Roles.Session): (route: string)
    ensures route == CaregiverDashboard <==> s.role == Roles.Caregiver
    ensures s.role == Roles.Elderly ==>
      (route == ElderlyLogin <==> Roles.ElderlyPinKey in s.prefs)
      && (route == RoleSelection <==> Roles.ElderlyPinKey !in s.prefs)
  {
    StartDestination(Roles.HasElderlyPin(s), Roles.IsCaregiver(s))
  }

  /** A first launch on an empty store starts on role selection; once an elderly PIN is stored, on the elderly login. */
  lemma FirstLaunchRoutes(pin: string)
    ensures StartDestinationOf(Roles.Open(map[])) == RoleSelection
    ensures StartDestinationOf(Roles.AfterSetElderlyPin(Roles.Open(map[]), pin)) == ElderlyLogin
  {
  }

  /** Where a role chosen on the role-selection screen navigates. */
  function RouteForRole(role: Roles.UserRole): (route: string)
    ensures role == Roles.Elderly ==> route == ElderlyLogin
    ensures role == Roles.Caregiver ==> route == CaregiverLogin
    ensures route != CaregiverDashboard
  {
    match role
    case Elderly => ElderlyLogin
    case Caregiver => CaregiverLogin
  }
}
