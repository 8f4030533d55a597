/** The dashboard route guard: validates the `:roleSlug` route parameter, redirects an
    unknown slug to the first role's dashboard, syncs the role context to a valid slug, and
    chooses which dashboard to render. */
module Guard {
  import opened Wrappers
  import opened Roles

  const DashboardPrefix: string := "/dashboard/"

  /** `isRole(value)`: defined, non-empty and one of the role option values. */
  function IsRole(v: Option<string>): (b: bool)
    ensures b <==> v.Some? && (v.value == "buyer" || v.value == "vendor" || v.value == "admin")
  {
    ParseRoleExactly(if v.Some? then v.value else "");
    v.Some? && v.value != "" && ParseRole(v.value).Some?
  }

  datatype GuardAction = NoAction | Redirect(path: string) | SyncRole(role: Role)

  /** The guard effect, given the slug and the role context's current role. */
  function GuardEffect(slug: Option<string>, current: Role): GuardAction {
    if slug.None? || slug.value == "" then NoAction
    else if !IsRole(slug) then Redirect(DashboardPrefix + RoleValue(RoleOptions[0].value))
    else if RoleValue(current) != slug.value then SyncRole(ParseRole(slug.value).value)
    else NoAction
  }

  datatype Dashboard = BuyerDashboard | VendorDashboard | AdminDashboard

  /** `roleComponentMap`. */
  function DashboardFor(r: Role): Dashboard {
    match r
    case Buyer => BuyerDashboard
    case Vendor => VendorDashboard
    case Admin => AdminDashboard
  }

  /** What the guard renders: nothing for an absent or invalid slug. */
  function Render(slug: Option<string>): Option<Dashboard> {
    if slug.None? || slug.value == "" || !IsRole(slug) then None
    else Some(DashboardFor(ParseRole(slug.value).value))
  }

  /** An absent slug does nothing and renders nothing. */
  lemma AbsentSlugIsInert(current: Role)
    ensures GuardEffect(None, current) == NoAction && Render(None) == None
  {
  }

  /** Any slug that is not a role value redirects to the buyer dashboard and renders
      nothing. */
  lemma InvalidSlugRedirectsToBuyer(s: string, current: Role)
    requires s != "" && s != "buyer" && s != "vendor" && s != "admin"
    ensures GuardEffect(Some(s), current) == Redirect("/dashboard/buyer")
    ensures Render(Some(s)) == None
  {
  }

  /** A valid slug renders the dashboard of that role, and the effect syncs the role context
      exactly when its role differs. */
  lemma ValidSlugRendersItsDashboard(r: Role, current: Role)
    ensures Render(Some(RoleValue(r))) == Some(DashboardFor(r))
    ensures GuardEffect(Some(RoleValue(r)), current) == (if current == r then NoAction else SyncRole(r))
  {
    ParseRoleValue(r);
    assert IsRole(Some(RoleValue(r)));
    assert RoleValue(current) == RoleValue(r) <==> current == r;
  }

  /** The guard settles: after its action is carried out (the role synced, or the browser
      sent to the redirect target), running it again does nothing, and something renders. */
  lemma {:induction false} GuardSettles(slug: Option<string>, current: Role)
    requires slug.Some? && slug.value != ""
    ensures match GuardEffect(slug, current)
            case NoAction => Render(slug).Some?
            case SyncRole(r) => GuardEffect(slug, r) == NoAction && Render(slug) == Some(DashboardFor(r))
            case Redirect(path) =>
              path == DashboardPrefix + "buyer" &&
              GuardEffect(Some("buyer"), current) != Redirect(path) && Render(Some("buyer")) == Some(BuyerDashboard)
  {
    ParseRoleExactly(slug.value);
    if IsRole(slug) {
      var r := ParseRole(slug.value).value;
      ValidSlugRendersItsDashboard(r, current);
      ValidSlugRendersItsDashboard(r, r);
    } else {
      ValidSlugRendersItsDashboard(Buyer, current);
    }
  }

  /** Runs the guard effect against the role context; a redirect is returned as the path the
      router navigates to. */
  method RunGuard(slug: Option<string>, roles: RoleProvider) returns (navigation: Option<string>)
    requires roles.Valid()
    modifies roles
    ensures roles.Valid()
    ensures GuardEffect(slug, old(roles.role)).Redirect? ==>
              navigation == Some(GuardEffect(slug, old(roles.role)).path)
    ensures GuardEffect(slug, old(roles.role)).SyncRole? ==>
              navigation == None
              && roles.State() == SetRoleState(roles.hasWindow, old(roles.State()), GuardEffect(slug, old(roles.role)).role)
    ensures GuardEffect(slug, old(roles.role)).NoAction? ==> navigation == None
    ensures !GuardEffect(slug, old(roles.role)).SyncRole? ==> unchanged(roles)
  {
    var action := GuardEffect(slug, roles.role);
    navigation := None;
    match action
    case NoAction =>
    case Redirect(path) =>
      navigation := Some(path);
    case SyncRole(r) =>
      roles.SetRole(r);
  }
}
