/** The mock authentication service: one reserved static account, and the rules by which
    sign-up and sign-in build the returned profile. The artificial delays are left out;
    each request is one step. */
module AuthApi {
  import opened Wrappers
  import opened Roles
  import opened AuthTypes

  datatype StaticRecord = StaticRecord(profile: AuthUser, password: string)

  const AdminEmail: string := "admin@foodiemarket.com"

  /** `STATIC_USERS`, keyed by email. */
  const StaticUsers: map<string, StaticRecord> := map[
    AdminEmail := StaticRecord(
      AuthUser("Marketplace Admin", AdminEmail, Admin, Some(Verified), None),
      "admin123")]

  const ReservedEmailError: string := "This email is reserved by Foodie Market."
  const InvalidCredentialsError: string := "Invalid credentials"

  /** `mockSignUpRequest`; `freshId` stands for the `crypto.randomUUID()` a vendor gets. */
  function MockSignUp(p: SignUpPayload, freshId: string): (r: Result<AuthUser>)
    ensures p.email in StaticUsers <==> r == Err(ReservedEmailError)
    ensures r.Ok? ==> r.value.name == p.name && r.value.email == p.email && r.value.role == p.role
    ensures r.Ok? && p.role == Vendor ==>
              r.value.verificationStatus == Some(Pending) && r.value.vendorVerificationId == Some(freshId)
    ensures r.Ok? && p.role != Vendor ==>
              r.value.verificationStatus == Some(Verified) && r.value.vendorVerificationId == None
  {
    if p.email in StaticUsers then Err(ReservedEmailError)
    else Ok(AuthUser(
      p.name, p.email, p.role,
      Some(if p.role == Vendor then Pending else Verified),
      if p.role == Vendor then Some(freshId) else None))
  }

  /** Sign-up never succeeds for the reserved admin address, whatever else the payload says. */
  lemma SignUpRejectsReservedEmail(p: SignUpPayload, freshId: string)
    requires p.email == "admin@foodiemarket.com"
    ensures MockSignUp(p, freshId) == Err("This email is reserved by Foodie Market.")
  {
  }

  /** `mockSignInRequest`, given the user currently signed in (if any). */
  function MockSignIn(p: SignInPayload, existing: Option<AuthUser>): (r: Result<AuthUser>)
    ensures p.email in StaticUsers && p.password != StaticUsers[p.email].password ==>
              r == Err(InvalidCredentialsError)
    ensures p.email in StaticUsers && p.password == StaticUsers[p.email].password ==>
              r == Ok(StaticUsers[p.email].profile)
    ensures p.email !in StaticUsers ==> r.Ok? && r.value.email == p.email
  {
    if p.email in StaticUsers then
      var record := StaticUsers[p.email];
      if p.password != record.password then Err(InvalidCredentialsError)
      else Ok(record.profile)
    else
      var resolvedRole := p.role.GetOr(if existing.Some? then existing.value.role else Buyer);
      var resolvedName := if existing.Some? then existing.value.name else "Foodie";
      Ok(AuthUser(
        resolvedName,
        p.email,
        resolvedRole,
        Some(if p.role == Some(Vendor)
             then (if existing.Some? then existing.value.verificationStatus.GetOr(Pending) else Pending)
             else Verified),
        if existing.Some? then existing.value.vendorVerificationId else None))
  }

  /** For an ordinary email the role is the requested one, else the existing user's, else
      buyer; the name is the existing user's, else "Foodie"; the verification id is only
      ever carried over. */
  lemma SignInResolvesFallbacks(p: SignInPayload, existing: Option<AuthUser>)
    requires p.email !in StaticUsers
    ensures MockSignIn(p, existing).Ok?
    ensures p.role.Some? ==> MockSignIn(p, existing).value.role == p.role.value
    ensures p.role.None? && existing.Some? ==> MockSignIn(p, existing).value.role == existing.value.role
    ensures p.role.None? && existing.None? ==> MockSignIn(p, existing).value.role == Buyer
    ensures MockSignIn(p, existing).value.name == (if existing.Some? then existing.value.name else "Foodie")
    ensures MockSignIn(p, existing).value.vendorVerificationId ==
              (if existing.Some? then existing.value.vendorVerificationId else None)
  {
  }

  /** The verification status looks at the requested role, not the resolved one: only an
      explicit vendor request keeps (or starts) a pending status. */
  lemma SignInStatusFollowsRequestedRole(p: SignInPayload, existing: Option<AuthUser>)
    requires p.email !in StaticUsers
    ensures p.role == Some(Vendor) ==>
              MockSignIn(p, existing).value.verificationStatus ==
                Some(if existing.Some? && existing.value.verificationStatus.Some?
                     then existing.value.verificationStatus.value else Pending)
    ensures p.role != Some(Vendor) ==> MockSignIn(p, existing).value.verificationStatus == Some(Verified)
  {
  }

  /** A pending vendor signing in again without naming a role keeps the vendor role but is
      reported as verified. */
  lemma PendingVendorWithoutRoleReportedVerified(u: AuthUser, email: string, password: string)
    requires u.role == Vendor && u.verificationStatus == Some(Pending)
    requires email !in StaticUsers
    ensures MockSignIn(SignInPayload(email, password, None), Some(u)) ==
              Ok(AuthUser(u.name, email, Vendor, Some(Verified), u.vendorVerificationId))
  {
  }

  /** A vendor who signed up and then signs in as a vendor keeps the pending status and the
      verification id that sign-up issued. */
  lemma VendorSignUpThenSignIn(p: SignUpPayload, freshId: string, password: string)
    requires p.role == Vendor && p.email !in StaticUsers
    ensures MockSignUp(p, freshId).Ok?
    ensures MockSignIn(SignInPayload(p.email, password, Some(Vendor)), Some(MockSignUp(p, freshId).value)) ==
              Ok(AuthUser(p.name, p.email, Vendor, Some(Pending), Some(freshId)))
  {
  }

  /** Signing in again with the same payload, as the user the first sign-in produced,
      changes nothing: sign-in is idempotent. */
  lemma {:induction false} SignInIdempotent(p: SignInPayload, existing: Option<AuthUser>)
    requires MockSignIn(p, existing).Ok?
    ensures MockSignIn(p, Some(MockSignIn(p, existing).value)) == MockSignIn(p, existing)
  {
    if p.email !in StaticUsers {
      var u := MockSignIn(p, existing).value;
      assert p.role == Some(Vendor) ==> u.verificationStatus.Some?;
    }
  }
}
