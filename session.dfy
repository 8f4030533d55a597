/** The authentication context of the dashboard app: the signed-in user, replaced by
    sign-up, sign-in and sign-out, mirrored into browser storage, and pushed into the role
    context on every successful sign-in or sign-up. The artificial delays are left out. */
module Session {
  import opened Wrappers
  import opened Roles
  import opened AuthTypes
  import AuthApi

  /** The context's own, smaller user record. */
  datatype SessionUser = SessionUser(name: string, email: string, role: Role)

  const SessionStorageKey: string := "foodiemarket_auth"

  /** The user a sign-up produces: password and vendor verification are ignored. */
  function SignUpUser(p: SignUpPayload): SessionUser {
    SessionUser(p.name, p.email, p.role)
  }

  /** The user a sign-in produces, given the current user. */
  function SignInUser(p: SignInPayload, existing: Option<SessionUser>): SessionUser {
    SessionUser(
      if existing.Some? then existing.value.name else "Foodie",
      p.email,
      p.role.GetOr(if existing.Some? then existing.value.role else Buyer))
  }

  /** Sign-up keeps the name, email and role and depends on nothing else. */
  lemma SignUpUserIgnoresSecrets(p: SignUpPayload, q: SignUpPayload)
    requires p.name == q.name && p.email == q.email && p.role == q.role
    ensures SignUpUser(p) == SignUpUser(q)
    ensures SignUpUser(p).name == p.name && SignUpUser(p).email == p.email && SignUpUser(p).role == p.role
  {
  }

  /** Sign-in in the context resolves name and role exactly as the mock service does for an
      address that is not one of its static accounts. */
  lemma SignInAgreesWithService(p: SignInPayload, existing: Option<SessionUser>, extra: AuthUser)
    requires p.email !in AuthApi.StaticUsers
    requires existing.Some? ==> extra.name == existing.value.name && extra.role == existing.value.role
    ensures var r := AuthApi.MockSignIn(p, if existing.Some? then Some(extra) else None);
            r.Ok? && SignInUser(p, existing) == SessionUser(r.value.name, r.value.email, r.value.role)
  {
  }

  /** Signing in twice with the same payload gives the same user as signing in once. */
  lemma SignInUserIdempotent(p: SignInPayload, existing: Option<SessionUser>)
    ensures SignInUser(p, Some(SignInUser(p, existing))) == SignInUser(p, existing)
  {
  }

  /** The initial user: the stored record, when there is a window and a record. */
  function InitialUser(hasWindow: bool, stored: Option<SessionUser>): Option<SessionUser> {
    if hasWindow then stored else None
  }

  /** `AuthProvider`. `storage` is the record under `SessionStorageKey` (JSON encoding left
      out); `roles` is the role context whose `setRole` the provider calls. */
  class AuthProvider {
    const hasWindow: bool
    var user: Option<SessionUser>
    var storage: Option<SessionUser>
    const roles: RoleProvider

    /** The storage effect keeps the stored record equal to the user. */
    ghost predicate Valid()
      reads this, roles
    {
      roles.Valid() && (hasWindow ==> storage == user)
    }

    constructor (hasWindow: bool, stored: Option<SessionUser>, roles: RoleProvider)
      requires roles.Valid()
      ensures Valid()
      ensures this.hasWindow == hasWindow && this.roles == roles
      ensures user == InitialUser(hasWindow, stored) && storage == stored
    {
      this.hasWindow := hasWindow;
      this.roles := roles;
      user := if hasWindow then stored else None;
      storage := stored;
    }

    /** The storage effect: write the user when there is one, remove the record otherwise. */
    method MirrorStorage()
      modifies this`storage
      ensures storage == (if hasWindow then user else old(storage))
    {
      if hasWindow {
        if user.Some? {
          storage := user;
        } else {
          storage := None;
        }
      }
    }

    /** `persistUser`: replace the user and sync the role context. */
    method PersistUser(next: SessionUser)
      requires Valid()
      modifies this, roles
      ensures Valid()
      ensures user == Some(next) && storage == (if hasWindow then Some(next) else old(storage))
      ensures roles.State() == SetRoleState(roles.hasWindow, old(roles.State()), next.role)
    {
      user := Some(next);
      MirrorStorage();
      roles.SetRole(next.role);
    }

    method SignUp(p: SignUpPayload) returns (registered: SessionUser)
      requires Valid()
      modifies this, roles
      ensures Valid()
      ensures registered == SignUpUser(p) && user == Some(registered) && roles.role == p.role
      ensures roles.State() == SetRoleState(roles.hasWindow, old(roles.State()), p.role)
    {
      registered := SessionUser(p.name, p.email, p.role);
      PersistUser(registered);
    }

    /** Sign-in never fails in the context. */
    method SignIn(p: SignInPayload) returns (signedIn: SessionUser)
      requires Valid()
      modifies this, roles
      ensures Valid()
      ensures signedIn == SignInUser(p, old(user)) && user == Some(signedIn) && roles.role == signedIn.role
      ensures roles.State() == SetRoleState(roles.hasWindow, old(roles.State()), signedIn.role)
    {
      var existing := user;
      var resolvedRole := if p.role.Some? then p.role.value else if existing.Some? then existing.value.role else Buyer;
      var resolvedName := if existing.Some? then existing.value.name else "Foodie";
      signedIn := SessionUser(resolvedName, p.email, resolvedRole);
      PersistUser(signedIn);
    }

    /** Sign-out clears the user and the stored record; the role context is untouched. */
    method SignOut()
      requires Valid()
      modifies this
      ensures Valid()
      ensures user == None && storage == (if hasWindow then None else old(storage))
      ensures roles.State() == old(roles.State())
    {
      user := None;
      MirrorStorage();
    }
  }
}
