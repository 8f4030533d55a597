/** The sign-up page: the vendor requirement checks run in a fixed order, the verification
    payload built from the vendor's details, the file pickers, and the submit handler that
    either reports the first unmet requirement or registers the user, shows the welcome
    toast and navigates to the new user's dashboard. */
module SignUp {
  import opened Wrappers
  import opened JsStrings
  import opened Roles
  import opened AuthTypes
  import Session
  import Toasts

  /** A picked file; only its identity matters here. */
  datatype FileRef = FileRef(name: string)

  datatype VendorRequirementFields = VendorRequirementFields(
    address: string,
    landmark: string,
    kitchenMedia: seq<FileRef>,
    idCardCapture: Option<FileRef>,
    utilityBill: Option<FileRef>)

  const InitialVendorState: VendorRequirementFields := VendorRequirementFields("", "", [], None, None)

  /** The five vendor requirements, in the order they are checked. */
  datatype Requirement = KitchenAddress | Landmark | KitchenMedia | IdCard | UtilityBill

  const RequirementOrder: seq<Requirement> := [KitchenAddress, Landmark, KitchenMedia, IdCard, UtilityBill]

  function RequirementMessage(q: Requirement): string {
    match q
    case KitchenAddress => "Vendors must provide a precise kitchen address."
    case Landmark => "Add a landmark so riders can find your kitchen."
    case KitchenMedia => "Upload at least one kitchen image or video."
    case IdCard => "Capture your government-issued ID to continue."
    case UtilityBill => "Attach a recent utility bill for address verification."
  }

  /** Whether the details meet one requirement; text fields count only once trimmed. */
  predicate Satisfies(d: VendorRequirementFields, q: Requirement) {
    match q
    case KitchenAddress => Trim(d.address) != ""
    case Landmark => Trim(d.landmark) != ""
    case KitchenMedia => |d.kitchenMedia| != 0
    case IdCard => d.idCardCapture.Some?
    case UtilityBill => d.utilityBill.Some?
  }

  /** The `k`-th requirement is the first one not met. */
  predicate FirstUnmet(d: VendorRequirementFields, k: int) {
    && 0 <= k < |RequirementOrder|
    && !Satisfies(d, RequirementOrder[k])
    && forall j :: 0 <= j < k ==> Satisfies(d, RequirementOrder[j])
  }

  /** `validateVendorRequirements`: no message exactly when every requirement is met, and
      otherwise the message of the first unmet requirement. */
  function ValidateVendorRequirements(d: VendorRequirementFields): (r: Option<string>)
    ensures r.None? <==> forall k :: 0 <= k < |RequirementOrder| ==> Satisfies(d, RequirementOrder[k])
    ensures forall k :: FirstUnmet(d, k) ==> r == Some(RequirementMessage(RequirementOrder[k]))
  {
    assert RequirementOrder[0] == KitchenAddress && RequirementOrder[1] == Landmark;
    assert RequirementOrder[2] == KitchenMedia && RequirementOrder[3] == IdCard && RequirementOrder[4] == UtilityBill;
    if Trim(d.address) == "" then Some(RequirementMessage(KitchenAddress))
    else if Trim(d.landmark) == "" then Some(RequirementMessage(Landmark))
    else if |d.kitchenMedia| == 0 then Some(RequirementMessage(KitchenMedia))
    else if d.idCardCapture.None? then Some(RequirementMessage(IdCard))
    else if d.utilityBill.None? then Some(RequirementMessage(UtilityBill))
    else None
  }

  /** An address or landmark made only of whitespace counts as missing. */
  lemma BlankTextIsMissing(d: VendorRequirementFields)
    ensures Satisfies(d, KitchenAddress) <==> !IsBlank(d.address)
    ensures Satisfies(d, Landmark) <==> !IsBlank(d.landmark)
  {
  }

  /** A blank address is reported even when the other requirements are unmet too. */
  lemma BlankAddressReportedFirst(d: VendorRequirementFields)
    requires IsBlank(d.address)
    ensures ValidateVendorRequirements(d) == Some("Vendors must provide a precise kitchen address.")
  {
    assert FirstUnmet(d, 0);
  }

  /** With address and landmark present, missing media is reported before a missing ID or
      bill. */
  lemma MissingMediaReportedBeforeDocuments(d: VendorRequirementFields)
    requires !IsBlank(d.address) && !IsBlank(d.landmark) && d.kitchenMedia == []
    ensures ValidateVendorRequirements(d) == Some("Upload at least one kitchen image or video.")
  {
    assert FirstUnmet(d, 2);
  }

  /** The verification payload: trimmed texts, the media count and two presence flags. */
  function VendorPayload(d: VendorRequirementFields): VendorVerificationPayload {
    VendorVerificationPayload(
      Trim(d.address), Trim(d.landmark), |d.kitchenMedia|, d.idCardCapture.Some?, d.utilityBill.Some?)
  }

  /** A payload built from details that passed validation is complete and its texts carry no
      surrounding whitespace. */
  lemma ValidatedPayloadIsComplete(d: VendorRequirementFields)
    requires ValidateVendorRequirements(d).None?
    ensures var p := VendorPayload(d);
            && p.address != "" && Trim(p.address) == p.address
            && p.landmark != "" && Trim(p.landmark) == p.landmark
            && p.kitchenMediaCount >= 1 && p.idCardProvided && p.utilityBillProvided
  {
    assert Satisfies(d, RequirementOrder[0]) && Satisfies(d, RequirementOrder[1]) && Satisfies(d, RequirementOrder[2]);
    assert Satisfies(d, RequirementOrder[3]) && Satisfies(d, RequirementOrder[4]);
    TrimIdempotent(d.address);
    TrimIdempotent(d.landmark);
  }

  const MaxKitchenMedia: nat := 6

  /** The kitchen-media picker keeps at most the first six picked files. */
  function SelectKitchenMedia(files: Option<seq<FileRef>>): (r: seq<FileRef>)
    ensures |r| <= MaxKitchenMedia
    ensures files.None? ==> r == []
    ensures files.Some? ==> |r| == (if |files.value| < MaxKitchenMedia then |files.value| else MaxKitchenMedia)
    ensures files.Some? ==> forall k :: 0 <= k < |r| ==> r[k] == files.value[k]
  {
    if files.None? then []
    else if |files.value| <= MaxKitchenMedia then files.value
    else files.value[..MaxKitchenMedia]
  }

  /** A single-file picker keeps the first picked file, or nothing. */
  function SelectSingleFile(files: Option<seq<FileRef>>): (r: Option<FileRef>)
    ensures r.Some? <==> files.Some? && files.value != []
    ensures r.Some? ==> r.value == files.value[0]
  {
    if files.Some? && |files.value| > 0 then Some(files.value[0]) else None
  }

  /** The role the form starts with, AS WRITTEN: the `role` query parameter is cast to a
      role without being checked, with "buyer" only when the parameter is absent. */
  function InitialFormRoleAsWritten(roleParam: Option<string>): string {
    roleParam.GetOr(RoleValue(RoleOptions[0].value))
  }

  /** The unchecked cast lets an unknown role string into the form. */
  lemma UncheckedRoleParamLetsUnknownRoleIn()
    ensures InitialFormRoleAsWritten(Some("chef")) == "chef"
    ensures ParseRole("chef").None?
  {
    ParseRoleExactly("chef");
  }

  /** The role the form starts with, as intended: a valid `role` parameter, else the first
      role option. */
  function InitialFormRole(roleParam: Option<string>): Role {
    if roleParam.Some? && ParseRole(roleParam.value).Some? then ParseRole(roleParam.value).value
    else RoleOptions[0].value
  }

  /** The intended initial role agrees with the written one whenever the parameter is absent
      or a role value, and falls back to buyer otherwise. */
  lemma InitialFormRoleAgreesOnValidInput(roleParam: Option<string>)
    ensures roleParam.None? || ParseRole(roleParam.value).Some? ==>
              RoleValue(InitialFormRole(roleParam)) == InitialFormRoleAsWritten(roleParam)
    ensures roleParam.Some? && ParseRole(roleParam.value).None? ==> InitialFormRole(roleParam) == Buyer
  {
    if roleParam.Some? {
      ParseRoleExactly(roleParam.value);
    }
  }

  datatype SignUpForm = SignUpForm(name: string, email: string, password: string, role: Role)

  /** The payload handed to the auth context's `signUp`. */
  function SubmittedPayload(form: SignUpForm, d: VendorRequirementFields): SignUpPayload {
    SignUpPayload(form.name, form.email, form.password, form.role,
                  if form.role == Vendor then Some(VendorPayload(d)) else None)
  }

  /** Only vendors send verification details. */
  lemma OnlyVendorsSendVerification(form: SignUpForm, d: VendorRequirementFields)
    ensures SubmittedPayload(form, d).vendorVerification.Some? <==> form.role == Vendor
  {
  }

  /** The error a submission stops with, if any: only vendors are validated. */
  function SubmitFailure(form: SignUpForm, d: VendorRequirementFields): Option<string> {
    if form.role == Vendor then ValidateVendorRequirements(d) else None
  }

  /** Non-vendors are never stopped by the vendor checks. */
  lemma NonVendorsSkipValidation(form: SignUpForm, d: VendorRequirementFields)
    requires form.role != Vendor
    ensures SubmitFailure(form, d).None?
  {
  }

  function DashboardPath(r: Role): string {
    "/dashboard/" + RoleValue(r)
  }

  function WelcomeToast(r: Role): string {
    "Welcome aboard! Redirecting to your " + RoleValue(r) + " hub."
  }

  /** The page's effect: a signed-in user is sent to their dashboard. */
  function SignedInRedirect(user: Option<Session.SessionUser>): (path: Option<string>)
    ensures path.Some? <==> user.Some?
    ensures path.Some? ==> path.value == DashboardPath(user.value.role)
  {
    if user.Some? then Some(DashboardPath(user.value.role)) else None
  }

  datatype TextField = NameField | EmailField | PasswordField
  datatype VendorTextField = AddressField | LandmarkField
  datatype SingleFileField = IdCardField | UtilityBillField

  /** `SignUpPage`'s state; `lastSignUp` records the payload last handed to `signUp`. */
  class SignUpPage {
    var form: SignUpForm
    var loading: bool
    var error: Option<string>
    var vendorDetails: VendorRequirementFields
    var lastSignUp: Option<SignUpPayload>

    ghost predicate Valid()
      reads this
    {
      |vendorDetails.kitchenMedia| <= MaxKitchenMedia
    }

    constructor (roleParam: Option<string>)
      ensures Valid()
      ensures form == SignUpForm("", "", "", InitialFormRole(roleParam))
      ensures !loading && error == None && vendorDetails == InitialVendorState && lastSignUp == None
    {
      form := SignUpForm("", "", "", InitialFormRole(roleParam));
      loading := false;
      error := None;
      vendorDetails := InitialVendorState;
      lastSignUp := None;
    }

    method ChangeText(field: TextField, value: string)
      modifies this`form
      ensures form == match field
                      case NameField => old(form).(name := value)
                      case EmailField => old(form).(email := value)
                      case PasswordField => old(form).(password := value)
    {
      match field
      case NameField => form := form.(name := value);
      case EmailField => form := form.(email := value);
      case PasswordField => form := form.(password := value);
    }

    method ChooseRole(r: Role)
      modifies this`form
      ensures form == old(form).(role := r)
    {
      form := form.(role := r);
    }

    method ChangeVendorText(field: VendorTextField, value: string)
      requires Valid()
      modifies this`vendorDetails
      ensures Valid()
      ensures vendorDetails == match field
                               case AddressField => old(vendorDetails).(address := value)
                               case LandmarkField => old(vendorDetails).(landmark := value)
    {
      match field
      case AddressField => vendorDetails := vendorDetails.(address := value);
      case LandmarkField => vendorDetails := vendorDetails.(landmark := value);
    }

    method ChangeKitchenMedia(files: Option<seq<FileRef>>)
      modifies this`vendorDetails
      ensures Valid()
      ensures vendorDetails == old(vendorDetails).(kitchenMedia := SelectKitchenMedia(files))
    {
      vendorDetails := vendorDetails.(kitchenMedia := SelectKitchenMedia(files));
    }

    method ChangeSingleFile(field: SingleFileField, files: Option<seq<FileRef>>)
      requires Valid()
      modifies this`vendorDetails
      ensures Valid()
      ensures vendorDetails == match field
                               case IdCardField => old(vendorDetails).(idCardCapture := SelectSingleFile(files))
                               case UtilityBillField => old(vendorDetails).(utilityBill := SelectSingleFile(files))
    {
      match field
      case IdCardField => vendorDetails := vendorDetails.(idCardCapture := SelectSingleFile(files));
      case UtilityBillField => vendorDetails := vendorDetails.(utilityBill := SelectSingleFile(files));
    }

    /** `handleSubmit`. On a validation error nothing is registered and the error shows; on
        success the user is registered, welcomed and sent to their dashboard. Either way the
        page stops loading. */
    method HandleSubmit(auth: Session.AuthProvider, toasts: Toasts.ToastProvider) returns (navigation: Option<string>)
      requires Valid() && auth.Valid()
      modifies this, auth, auth.roles, toasts
      ensures Valid() && auth.Valid()
      ensures !loading && form == old(form) && vendorDetails == old(vendorDetails)
      ensures var failure := SubmitFailure(old(form), old(vendorDetails));
              failure.Some? ==>
                && error == failure && navigation == None && lastSignUp == old(lastSignUp)
                && unchanged(auth, auth.roles, toasts)
      ensures var failure := SubmitFailure(old(form), old(vendorDetails));
              failure.None? ==>
                && error == None
                && lastSignUp == Some(SubmittedPayload(form, vendorDetails))
                && auth.user == Some(Session.SessionUser(form.name, form.email, form.role))
                && auth.roles.State() == SetRoleState(auth.roles.hasWindow, old(auth.roles.State()), form.role)
                && toasts.State() == Toasts.Show(old(toasts.State()), WelcomeToast(form.role), Toasts.DefaultDurationMs)
                && navigation == Some(DashboardPath(form.role))
    {
      loading := true;
      error := None;
      var vendorVerification: Option<VendorVerificationPayload> := None;
      var failure: Option<string> := None;
      if form.role == Vendor {
        failure := ValidateVendorRequirements(vendorDetails);
        if failure.None? {
          vendorVerification := Some(VendorPayload(vendorDetails));
        }
      }
      if failure.Some? {
        error := failure;
        navigation := None;
      } else {
        var payload := SignUpPayload(form.name, form.email, form.password, form.role, vendorVerification);
        lastSignUp := Some(payload);
        var registered := auth.SignUp(payload);
        toasts.ShowToast("Welcome aboard! Redirecting to your " + RoleValue(registered.role) + " hub.");
        navigation := Some("/dashboard/" + RoleValue(registered.role));
      }
      loading := false;
    }
  }
}
