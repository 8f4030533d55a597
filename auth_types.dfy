/** The shared authentication records. */
module AuthTypes {
  import opened Wrappers
  import opened Roles

  datatype VerificationStatus = Pending | Verified

  /** A signed-in profile as the mock authentication service returns it. */
  datatype AuthUser = AuthUser(
    name: string,
    email: string,
    role: Role,
    verificationStatus: Option<VerificationStatus>,
    vendorVerificationId: Option<string>)

  /** What a vendor submits for kitchen verification. */
  datatype VendorVerificationPayload = VendorVerificationPayload(
    address: string,
    landmark: string,
    kitchenMediaCount: nat,
    idCardProvided: bool,
    utilityBillProvided: bool)

  datatype SignUpPayload = SignUpPayload(
    name: string,
    email: string,
    password: string,
    role: Role,
    vendorVerification: Option<VendorVerificationPayload>)

  datatype SignInPayload = SignInPayload(email: string, password: string, role: Option<Role>)
}
