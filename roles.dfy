/** The role context: the three workspace roles, their labels, the role restored from
    browser storage, and the provider whose role and "Switched to ..." toast change. */
module Roles {
  import opened Wrappers

  datatype Role = Buyer | Vendor | Admin

  /** The string a role is written as in storage, routes and payloads. */
  function RoleValue(r: Role): string {
    match r
    case Buyer => "buyer"
    case Vendor => "vendor"
    case Admin => "admin"
  }

  datatype RoleOption = RoleOption(value: Role, labelText: string)

  /** `roleOptions`, in display order. */
  const RoleOptions: seq<RoleOption> :=
    [RoleOption(Buyer, "Buyer"), RoleOption(Vendor, "Vendor"), RoleOption(Admin, "Admin")]

  /** Storage key the provider reads and writes. */
  const RoleStorageKey: string := "homeplate_role"

  /** How long the role toast stays before its timer clears it. */
  const RoleToastDurationMs: nat := 2500

  /** `options.some(option => option.value === s)`, reporting which option matched. */
  function FindRole(options: seq<RoleOption>, s: string): (r: Option<Role>)
    ensures r.Some? ==> RoleValue(r.value) == s
    ensures r.Some? ==> exists k :: 0 <= k < |options| && options[k].value == r.value
    ensures r.None? ==> forall k :: 0 <= k < |options| ==> RoleValue(options[k].value) != s
  {
    if |options| == 0 then None
    else if RoleValue(options[0].value) == s then Some(options[0].value)
    else
      var rest := FindRole(options[1..], s);
      assert rest.Some? ==> options[1..][0] == options[1];
      if rest.Some? then
        assert exists k :: 0 <= k < |options| - 1 && options[1..][k].value == rest.value;
        rest
      else rest
  }

  /** The role whose value is `s`, if `s` is one of the role option values. */
  function ParseRole(s: string): Option<Role> {
    FindRole(RoleOptions, s)
  }

  /** Parsing the value of a role gives that role back. */
  lemma ParseRoleValue(r: Role)
    ensures ParseRole(RoleValue(r)) == Some(r)
  {
    var tail1 := RoleOptions[1..];
    var tail2 := tail1[1..];
    assert tail1[0].value == Vendor && tail2[0].value == Admin;
    assert "buyer"[0] != "vendor"[0] && "buyer"[0] != "admin"[0] && "vendor"[0] != "admin"[0];
    match r
    case Buyer =>
    case Vendor =>
      assert FindRole(RoleOptions, "vendor") == FindRole(tail1, "vendor");
    case Admin =>
      assert FindRole(RoleOptions, "admin") == FindRole(tail1, "admin") == FindRole(tail2, "admin");
  }

  /** Only the three role values parse; whatever parses is the value of what it parses to. */
  lemma ParseRoleExactly(s: string)
    ensures ParseRole(s).Some? <==> (s == "buyer" || s == "vendor" || s == "admin")
    ensures ParseRole(s).Some? ==> RoleValue(ParseRole(s).value) == s
  {
    if s == "buyer" || s == "vendor" || s == "admin" {
      var r := if s == "buyer" then Buyer else if s == "vendor" then Vendor else Admin;
      ParseRoleValue(r);
    }
  }

  /** The initial role: the stored value when it is a known role, otherwise "buyer"
      (also when there is no window, hence no storage). */
  function InitialRole(hasWindow: bool, stored: Option<string>): (r: Role)
    ensures hasWindow && stored.Some? && ParseRole(stored.value).Some? ==> r == ParseRole(stored.value).value
    ensures !(hasWindow && stored.Some? && ParseRole(stored.value).Some?) ==> r == Buyer
  {
    if !hasWindow then Buyer
    else if stored.Some? && stored.value != "" && ParseRole(stored.value).Some? then ParseRole(stored.value).value
    else Buyer
  }

  /** Restoring a role that was persisted gives the same role back. */
  lemma InitialRoleRestoresPersisted(r: Role)
    ensures InitialRole(true, Some(RoleValue(r))) == r
  {
    ParseRoleValue(r);
  }

  /** `options.find(option => option.value === r)?.label`. */
  function FindLabel(options: seq<RoleOption>, r: Role): (l: Option<string>)
    ensures l.Some? ==> exists k :: 0 <= k < |options| && options[k] == RoleOption(r, l.value)
    ensures l.None? ==> forall k :: 0 <= k < |options| ==> options[k].value != r
  {
    if |options| == 0 then None
    else if options[0].value == r then Some(options[0].labelText)
    else
      var rest := FindLabel(options[1..], r);
      if rest.Some? then
        assert exists k :: 0 <= k < |options| - 1 && options[1..][k] == RoleOption(r, rest.value);
        rest
      else rest
  }

  /** The label shown for a role, falling back to its value. */
  function RoleLabel(r: Role): string {
    FindLabel(RoleOptions, r).GetOr(RoleValue(r))
  }

  /** Every role has an option, so the fallback is never used. */
  lemma RoleLabelIsOptionLabel(r: Role)
    ensures FindLabel(RoleOptions, r).Some?
    ensures RoleLabel(r) == match r case Buyer => "Buyer" case Vendor => "Vendor" case Admin => "Admin"
  {
    assert RoleOptions[0].value == Buyer && RoleOptions[1].value == Vendor && RoleOptions[2].value == Admin;
  }

  /** The toast shown after a role change. */
  function SwitchedToast(r: Role): string {
    "Switched to " + RoleLabel(r) + " workspace"
  }

  /** Different roles announce different toasts. */
  lemma SwitchedToastInjective(a: Role, b: Role)
    requires SwitchedToast(a) == SwitchedToast(b)
    ensures a == b
  {
    RoleLabelIsOptionLabel(a);
    RoleLabelIsOptionLabel(b);
    var n := |"Switched to "|;
    assert SwitchedToast(a)[n] == RoleLabel(a)[0];
    assert SwitchedToast(b)[n] == RoleLabel(b)[0];
  }

  /** The provider's state: the role, its toast, the hydration flag, the value stored under
      `RoleStorageKey` and whether the toast timer is pending. */
  datatype RoleState = RoleState(
    role: Role,
    toastMessage: Option<string>,
    hydrated: bool,
    storage: Option<string>,
    toastTimerPending: bool)

  /** The stored value mirrors the role, a toast on screen names the current role, and
      nothing is announced before hydration. */
  predicate ValidRoleState(hasWindow: bool, s: RoleState) {
    && (hasWindow ==> s.storage == Some(RoleValue(s.role)))
    && (s.toastMessage.Some? ==> s.toastMessage == Some(SwitchedToast(s.role)))
    && (!s.hydrated ==> s.toastMessage == None && !s.toastTimerPending)
  }

  /** `setRole(next)` with the effects it triggers: a changed role is persisted and, once
      hydrated, announced with a fresh timer; the same role bails out. */
  function SetRoleState(hasWindow: bool, s: RoleState, next: Role): (r: RoleState)
    ensures r.role == next && r.hydrated == s.hydrated
    ensures next == s.role ==> r == s
    ensures next != s.role ==> r.storage == (if hasWindow then Some(RoleValue(next)) else s.storage)
    ensures next != s.role && s.hydrated ==> r.toastMessage == Some(SwitchedToast(next)) && r.toastTimerPending
    ensures next != s.role && !s.hydrated ==> r.toastMessage == s.toastMessage && r.toastTimerPending == s.toastTimerPending
    ensures ValidRoleState(hasWindow, s) ==> ValidRoleState(hasWindow, r)
  {
    if next == s.role then s
    else
      var persisted := s.(role := next, storage := if hasWindow then Some(RoleValue(next)) else s.storage);
      if s.hydrated then persisted.(toastMessage := Some(SwitchedToast(next)), toastTimerPending := true)
      else persisted
  }

  /** A role that was set survives a reload: the initialiser reads it back from storage. */
  lemma SetRoleSurvivesReload(s: RoleState, next: Role)
    requires ValidRoleState(true, s)
    ensures InitialRole(true, SetRoleState(true, s, next).storage) == next
  {
    InitialRoleRestoresPersisted(next);
  }

  /** Setting the same role twice is setting it once. */
  lemma SetRoleIdempotent(hasWindow: bool, s: RoleState, next: Role)
    ensures SetRoleState(hasWindow, SetRoleState(hasWindow, s, next), next) == SetRoleState(hasWindow, s, next)
  {
  }

  /** What takes the role toast away: its timer (line 47) or `clearToast` (line 55). */
  datatype ToastEvent = TimerFires | Cleared

  /** A toast event when the toast effect re-runs only on a change of role or hydration:
      the pending timer clears the toast, `clearToast` clears it at once and leaves the
      timer pending. */
  function ToastStep(s: RoleState, e: ToastEvent): (r: RoleState)
    ensures r.role == s.role && r.hydrated == s.hydrated && r.storage == s.storage
    ensures e == Cleared || s.toastTimerPending ==> r.toastMessage == None
    ensures e == TimerFires ==> !r.toastTimerPending
    ensures e == Cleared ==> r.toastTimerPending == s.toastTimerPending
    ensures e == TimerFires && !s.toastTimerPending ==> r == s
  {
    match e
    case TimerFires => if s.toastTimerPending then s.(toastMessage := None, toastTimerPending := false) else s
    case Cleared => s.(toastMessage := None)
  }

  /** The same event AS WRITTEN. `useAnalytics` returns a new `{ track }` object on every
      render (hooks/useAnalytics.ts:17) and the toast effect lists it as a dependency, so
      the re-render that a cleared message causes re-runs the effect once hydrated: the
      role's toast is shown again and a new timer armed. */
  function ToastStepAsWritten(s: RoleState, e: ToastEvent): (r: RoleState)
    ensures r.role == s.role && r.hydrated == s.hydrated && r.storage == s.storage
    ensures s.hydrated && s.toastMessage.Some? && (e == Cleared || s.toastTimerPending) ==>
              r.toastMessage == Some(SwitchedToast(s.role)) && r.toastTimerPending
    ensures !s.hydrated ==> r == ToastStep(s, e)
  {
    var t := ToastStep(s, e);
    if s.hydrated && t.toastMessage != s.toastMessage
    then t.(toastMessage := Some(SwitchedToast(s.role)), toastTimerPending := true)
    else t
  }

  function RunToast(s: RoleState, events: seq<ToastEvent>): RoleState
    decreases |events|
  {
    if events == [] then s else RunToast(ToastStep(s, events[0]), events[1..])
  }

  function RunToastAsWritten(s: RoleState, events: seq<ToastEvent>): RoleState
    decreases |events|
  {
    if events == [] then s else RunToastAsWritten(ToastStepAsWritten(s, events[0]), events[1..])
  }

  /** As written, the role toast never goes: whatever timers fire and however often it is
      dismissed, a hydrated provider shows it again with a fresh timer. */
  lemma {:induction false} ToastNeverLeavesAsWritten(s: RoleState, events: seq<ToastEvent>)
    requires s.hydrated && s.toastMessage == Some(SwitchedToast(s.role)) && s.toastTimerPending
    ensures RunToastAsWritten(s, events) == s
    decreases |events|
  {
    if events != [] {
      assert ToastStepAsWritten(s, events[0]) == s;
      ToastNeverLeavesAsWritten(s, events[1..]);
    }
  }

  /** Once cleared, the toast stays cleared through any further toast events. */
  lemma {:induction false} ClearedToastStaysCleared(s: RoleState, events: seq<ToastEvent>)
    requires s.toastMessage == None
    ensures RunToast(s, events).toastMessage == None
    ensures RunToast(s, events).role == s.role && RunToast(s, events).storage == s.storage
    decreases |events|
  {
    if events != [] {
      ClearedToastStaysCleared(ToastStep(s, events[0]), events[1..]);
    }
  }

  /** As intended, an announced toast goes for good: after its timer fires or it is
      dismissed, no later toast event brings it back. */
  lemma ToastGoesForGood(s: RoleState, e: ToastEvent, events: seq<ToastEvent>)
    requires s.toastTimerPending
    ensures RunToast(ToastStep(s, e), events).toastMessage == None
  {
    ClearedToastStaysCleared(ToastStep(s, e), events);
  }

  /** `RoleProvider`, in the corrected form where the toast effect re-runs only on a change
      of role or hydration. */
  class RoleProvider {
    const hasWindow: bool
    var role: Role
    var toastMessage: Option<string>
    var hydrated: bool
    var storage: Option<string>
    var toastTimerPending: bool

    function State(): RoleState
      reads this
    {
      RoleState(role, toastMessage, hydrated, storage, toastTimerPending)
    }

    ghost predicate Valid()
      reads this
    {
      ValidRoleState(hasWindow, State())
    }

    /** First render: the role comes from storage, and the persist effect writes it back. */
    constructor (hasWindow: bool, stored: Option<string>)
      ensures Valid()
      ensures this.hasWindow == hasWindow && role == InitialRole(hasWindow, stored)
      ensures toastMessage == None && !hydrated && !toastTimerPending
      ensures storage == (if hasWindow then Some(RoleValue(role)) else stored)
    {
      this.hasWindow := hasWindow;
      role := InitialRole(hasWindow, stored);
      toastMessage := None;
      hydrated := false;
      toastTimerPending := false;
      storage := if hasWindow then Some(RoleValue(InitialRole(hasWindow, stored))) else stored;
    }

    /** The mount effect `setHydrated(true)`; the toast effect then announces the role. */
    method Hydrate()
      requires Valid()
      modifies this
      ensures Valid()
      ensures hydrated && role == old(role) && storage == old(storage)
      ensures !old(hydrated) ==> toastMessage == Some(SwitchedToast(role)) && toastTimerPending
      ensures old(hydrated) ==> toastMessage == old(toastMessage) && toastTimerPending == old(toastTimerPending)
    {
      if !hydrated {
        hydrated := true;
        toastMessage := Some(SwitchedToast(role));
        toastTimerPending := true;
      }
    }

    /** `setRole(next)` and the effects it triggers. */
    method SetRole(next: Role)
      requires Valid()
      modifies this
      ensures Valid()
      ensures State() == SetRoleState(hasWindow, old(State()), next)
    {
      if next != role {
        role := next;
        if hasWindow {
          storage := Some(RoleValue(next));
        }
        if hydrated {
          toastMessage := Some(SwitchedToast(next));
          toastTimerPending := true;
        }
      }
    }

    /** The toast timer fires and clears the toast. */
    method ToastTimerFires()
      requires Valid()
      modifies this
      ensures Valid()
      ensures State() == ToastStep(old(State()), TimerFires)
    {
      if toastTimerPending {
        toastMessage := None;
        toastTimerPending := false;
      }
    }

    /** `clearToast`: the toast goes away at once; a pending timer stays harmless. */
    method ClearToast()
      requires Valid()
      modifies this`toastMessage
      ensures Valid()
      ensures State() == ToastStep(old(State()), Cleared)
    {
      toastMessage := None;
    }
  }
}
