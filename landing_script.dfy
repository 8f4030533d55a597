/** The static landing page's script: the rotating tagline, the testimonial carousel and
    its auto-cycle timer, the mock sign-in links and the simulated payment flow. */
module LandingScript {
  import opened Wrappers
  import opened JsStrings
  import opened Arith
  import Session
  import Roles

  // ---------------------------------------------------------------- tagline

  const Taglines: seq<string> := [
    "Good food starts at home.",
    "Cooked by people. Delivered with care.",
    "Where great cooks meet busy lives.",
    "From pot to plate — without stress."]

  /** `(taglineIndex + 1) % taglines.length`. */
  function NextTaglineIndex(i: nat): (j: nat)
    ensures j < |Taglines|
    ensures i + 1 < |Taglines| ==> j == i + 1
    ensures i == |Taglines| - 1 ==> j == 0
  {
    (i + 1) % |Taglines|
  }

  // ---------------------------------------------------------------- testimonials

  datatype Testimonial = Testimonial(
    text: string, author: string, meta: string, role: string, roleLabel: string,
    rating: nat, highlight: string, destination: string)

  const Testimonials: seq<Testimonial> := [
    Testimonial("I stopped eating random food outside. This feels like home.", "Amara",
      "Product manager • Victoria Island", "buyer", "Buyer dashboard", 5,
      "Meal planning relief", "./hosting/dist/dashboard/buyer"),
    Testimonial("I’ve made more money cooking from home than I ever imagined.", "Chef Mimi",
      "Vendor since 2021", "vendor", "Vendor cockpit", 5,
      "Escrow confidence", "./hosting/dist/dashboard/vendor"),
    Testimonial("FoodieCircle is how I feed my family without stress.", "Chidinma",
      "Lekki mom of 3", "buyer", "Family planning view", 5,
      "Bulk pots on tap", "./hosting/dist/dashboard/buyer"),
    Testimonial("Escrow clears in minutes so I can restock ingredients fast.", "Chef Tunde",
      "Charcoal grills • Yaba", "vendor", "Vendor payouts", 5,
      "Faster payouts", "./hosting/dist/dashboard/vendor"),
    Testimonial("We spot trust issues early, approve payouts, and keep riders moving.", "Kachi",
      "Marketplace Ops lead", "admin", "Admin ops room", 5,
      "Ops in one view", "./hosting/dist/dashboard/admin")]

  const TestimonialIntervalMs: nat := 6500

  /** `(testimonialIndex + direction + testimonials.length) % testimonials.length`. The
      dividend is never negative, so JavaScript's truncating `%` agrees with Dafny's. */
  function StepIndex(i: nat, direction: int, n: nat): (j: nat)
    requires i < n && (direction == 1 || direction == -1)
    ensures j < n
    ensures direction == 1 ==> j == if i + 1 < n then i + 1 else 0
    ensures direction == -1 ==> j == if i > 0 then i - 1 else n - 1
  {
    StepRemainder(i, direction, n);
    (i + direction + n) % n
  }

  lemma StepRemainder(i: nat, direction: int, n: nat)
    requires i < n && (direction == 1 || direction == -1)
    ensures direction == 1 ==> (i + direction + n) % n == if i + 1 < n then i + 1 else 0
    ensures direction == -1 ==> (i + direction + n) % n == if i > 0 then i - 1 else n - 1
  {
    if direction == 1 {
      if i + 1 < n { ModUnique(i + 1 + n, n, 1, i + 1); } else { ModUnique(i + 1 + n, n, 2, 0); }
    } else {
      if i > 0 { ModUnique(i - 1 + n, n, 1, i - 1); } else { ModUnique(i - 1 + n, n, 0, n - 1); }
    }
  }

  /** Next then previous, or previous then next, returns to the same story. */
  lemma NextThenPrevious(i: nat, n: nat)
    requires i < n
    ensures StepIndex(StepIndex(i, 1, n), -1, n) == i
    ensures StepIndex(StepIndex(i, -1, n), 1, n) == i
  {
  }

  /** The index after `k` forward steps (auto-cycle firings or "next" clicks). */
  function Forward(i: nat, k: nat, n: nat): (j: nat)
    requires i < n
    ensures j < n
  {
    if k == 0 then i else StepIndex(Forward(i, k - 1, n), 1, n)
  }

  /** `k` forward steps land on `(i + k) % n`: the carousel visits every story in turn. */
  lemma {:induction false} ForwardIsModular(i: nat, k: nat, n: nat)
    requires i < n
    ensures Forward(i, k, n) == (i + k) % n
  {
    if k > 0 {
      ForwardIsModular(i, k - 1, n);
      var x := i + k - 1;
      var j := x % n;
      ModSucc(x, n);
      if j + 1 < n {
        ModUnique(j + 1, n, 0, j + 1);
      } else {
        ModUnique(j + 1, n, 1, 0);
      }
    }
  }

  // ---------------------------------------------------------------- app base path and mock sign-in

  const DefaultAppBase: string := "./hosting/dist"

  /** `getAppBasePath()`, given the page's `data-app-base` (absent or empty falls back to the
      default); one trailing "/" is dropped. */
  function GetAppBasePath(appBase: Option<string>): (r: string)
    ensures appBase.None? || appBase == Some("") ==> r == DefaultAppBase
    ensures appBase.Some? && appBase.value != "" && EndsWith(appBase.value, "/") ==>
              r + "/" == appBase.value
    ensures appBase.Some? && appBase.value != "" && !EndsWith(appBase.value, "/") ==> r == appBase.value
  {
    var base := if appBase.None? || appBase.value == "" then DefaultAppBase else appBase.value;
    if EndsWith(base, "/") then base[..|base| - 1] else base
  }

  /** Exactly one trailing slash is removed: `s + "/"` gives back `s`, including when `s`
      itself ends with a slash. */
  lemma StripsExactlyOneSlash(s: string)
    ensures GetAppBasePath(Some(s + "/")) == s
  {
    assert EndsWith(s + "/", "/");
    assert (s + "/")[..|s|] == s;
  }

  const AuthStorageKey: string := "foodiemarket_auth"
  const RoleStorageKey: string := "foodiemarket_role"

  datatype Profile = Profile(name: string, email: string)

  const MockProfiles: map<string, Profile> := map[
    "buyer" := Profile("Lara Buyer", "lara@foodiecircle.com"),
    "vendor" := Profile("Chef Mimi", "chef@foodiecircle.com"),
    "admin" := Profile("Kachi Ops", "ops@foodiecircle.com")]

  datatype MockPayload = MockPayload(name: string, email: string, role: string, verificationStatus: string)

  /** What one click on a `data-auth="mock"` element does: the record written under
      `AuthStorageKey`, the role written under `RoleStorageKey`, and the new location. */
  datatype MockLogin = MockLogin(payload: MockPayload, storedRole: string, location: string)

  /** The click handler of `initMockAuthLinks`, given the element's `data-role` and
      `data-destination` and the page's `data-app-base`. */
  function MockAuthClick(dataRole: Option<string>, dataDestination: Option<string>, appBase: Option<string>): (r: MockLogin)
    ensures r.payload.verificationStatus == "verified"
    ensures r.storedRole == r.payload.role
    ensures dataRole.None? || dataRole == Some("") ==> r.payload.role == "buyer"
    ensures dataRole.Some? && dataRole.value != "" ==> r.payload.role == dataRole.value
    ensures r.payload.role in MockProfiles ==>
              Profile(r.payload.name, r.payload.email) == MockProfiles[r.payload.role]
    ensures r.payload.role !in MockProfiles ==>
              Profile(r.payload.name, r.payload.email) == MockProfiles["buyer"]
    ensures dataDestination.Some? && dataDestination.value != "" ==> r.location == dataDestination.value
    ensures dataDestination.None? || dataDestination == Some("") ==>
              r.location == GetAppBasePath(appBase) + "/dashboard/" + r.payload.role
  {
    var role := if dataRole.None? || dataRole.value == "" then "buyer" else dataRole.value;
    var profile := if role in MockProfiles then MockProfiles[role] else MockProfiles["buyer"];
    var destination :=
      if dataDestination.None? || dataDestination.value == "" then GetAppBasePath(appBase) + "/dashboard/" + role
      else dataDestination.value;
    MockLogin(MockPayload(profile.name, profile.email, role, "verified"), role, destination)
  }

  /** An unknown role signs in with the buyer's profile but keeps its own role string, and
      by default is sent to a dashboard path named after that role. */
  lemma UnknownRoleKeepsItsName(role: string, appBase: Option<string>)
    requires role != "" && role !in MockProfiles
    ensures var r := MockAuthClick(Some(role), None, appBase);
            r.payload == MockPayload("Lara Buyer", "lara@foodiecircle.com", role, "verified")
            && r.location == GetAppBasePath(appBase) + "/dashboard/" + role
  {
  }

  /** Every testimonial's call-to-action signs in as that story's role and goes to its
      destination, which is the default dashboard path on the default base. */
  lemma {:induction false} TestimonialLinksMatchDefaultPaths(k: nat)
    requires k < |Testimonials|
    ensures var t := Testimonials[k];
            var r := MockAuthClick(Some(t.role), Some(t.destination), None);
            r.payload.role == t.role && r.location == t.destination
            && r.location == GetAppBasePath(None) + "/dashboard/" + t.role
  {
    var t := Testimonials[k];
    assert !EndsWith(DefaultAppBase, "/") by {
      assert DefaultAppBase[|DefaultAppBase| - 1] == 't';
    }
    assert GetAppBasePath(None) == DefaultAppBase;
    assert t.destination == DefaultAppBase + "/dashboard/" + t.role by {
      if k == 0 {} else if k == 1 {} else if k == 2 {} else if k == 3 {} else {}
    }
  }

  /** The landing page stores the signed-in user under the same key the app's session reads,
      but its role under a different key from the app's role workspace. */
  lemma StorageKeys()
    ensures AuthStorageKey == Session.SessionStorageKey
    ensures RoleStorageKey != Roles.RoleStorageKey
  {
    assert RoleStorageKey[0] != Roles.RoleStorageKey[0];
  }

  // ---------------------------------------------------------------- landing page state

  /** The page's tagline and carousel state. Whether the `#tagline` and `#testimonial-card`
      elements exist is fixed when the page loads; `stories` is the testimonial list. */
  class LandingPage {
    const hasTagline: bool
    const hasCarousel: bool
    const stories: seq<Testimonial>
    var taglineIndex: nat
    var shownTagline: Option<string>
    var testimonialIndex: nat
    var renderedStory: Option<Testimonial>
    var cycleTimerArmed: bool

    ghost predicate Valid()
      reads this
    {
      && taglineIndex < |Taglines|
      && testimonialIndex < |stories|
      && (renderedStory.Some? ==> hasCarousel && renderedStory.value == stories[testimonialIndex])
      && (cycleTimerArmed ==> |stories| > 1)
    }

    /** The script's state when it is loaded; an empty testimonial list makes rendering
        fail, so it is excluded. */
    constructor (hasTagline: bool, hasCarousel: bool, stories: seq<Testimonial>)
      requires |stories| > 0
      ensures Valid()
      ensures this.hasTagline == hasTagline && this.hasCarousel == hasCarousel && this.stories == stories
      ensures taglineIndex == 0 && shownTagline.None? && testimonialIndex == 0
      ensures renderedStory.None? && !cycleTimerArmed
    {
      this.hasTagline := hasTagline;
      this.hasCarousel := hasCarousel;
      this.stories := stories;
      taglineIndex := 0;
      shownTagline := None;
      testimonialIndex := 0;
      renderedStory := None;
      cycleTimerArmed := false;
    }

    /** `rotateTagline`: show the current tagline, then advance. */
    method RotateTagline()
      requires Valid()
      modifies this`taglineIndex, this`shownTagline
      ensures Valid()
      ensures !hasTagline ==> taglineIndex == old(taglineIndex) && shownTagline == old(shownTagline)
      ensures hasTagline ==> shownTagline == Some(Taglines[old(taglineIndex)])
                             && taglineIndex == NextTaglineIndex(old(taglineIndex))
    {
      if !hasTagline {
        return;
      }
      shownTagline := Some(Taglines[taglineIndex]);
      taglineIndex := (taglineIndex + 1) % |Taglines|;
    }

    /** `renderTestimonial`. */
    method RenderTestimonial()
      requires Valid()
      modifies this`renderedStory
      ensures Valid()
      ensures renderedStory == if hasCarousel then Some(stories[testimonialIndex]) else old(renderedStory)
    {
      if !hasCarousel {
        return;
      }
      renderedStory := Some(stories[testimonialIndex]);
    }

    /** `restartTestimonialCycle`: with more than one story, clear and re-arm the timer. */
    method RestartTestimonialCycle()
      requires Valid()
      modifies this`cycleTimerArmed
      ensures Valid()
      ensures cycleTimerArmed == if |stories| <= 1 then old(cycleTimerArmed) else true
    {
      if |stories| <= 1 {
        return;
      }
      cycleTimerArmed := true;
    }

    /** `changeTestimonial(direction)` for the two directions the page uses: move, render
        (`renderTestimonial`, inlined), restart the cycle. */
    method ChangeTestimonial(direction: int)
      requires Valid() && (direction == 1 || direction == -1)
      modifies this`testimonialIndex, this`renderedStory, this`cycleTimerArmed
      ensures Valid()
      ensures testimonialIndex == StepIndex(old(testimonialIndex), direction, |stories|)
      ensures renderedStory == if hasCarousel then Some(stories[testimonialIndex]) else old(renderedStory)
      ensures cycleTimerArmed == if |stories| <= 1 then old(cycleTimerArmed) else true
    {
      testimonialIndex := (testimonialIndex + direction + |stories|) % |stories|;
      StepRemainder(old(testimonialIndex), direction, |stories|);
      if hasCarousel {
        renderedStory := Some(stories[testimonialIndex]);
      }
      RestartTestimonialCycle();
    }

    /** `initTestimonialCarousel`. */
    method InitTestimonialCarousel()
      requires Valid()
      modifies this`renderedStory, this`cycleTimerArmed
      ensures Valid()
      ensures !hasCarousel ==> renderedStory == old(renderedStory) && cycleTimerArmed == old(cycleTimerArmed)
      ensures hasCarousel ==> renderedStory == Some(stories[testimonialIndex])
                              && cycleTimerArmed == (old(cycleTimerArmed) || |stories| > 1)
    {
      if !hasCarousel {
        return;
      }
      RenderTestimonial();
      if |stories| > 1 {
        RestartTestimonialCycle();
      }
    }

    /** The auto-cycle timer fires: it advances to the next story and re-arms itself. */
    method CycleTimerFires()
      requires Valid() && cycleTimerArmed
      modifies this`testimonialIndex, this`renderedStory, this`cycleTimerArmed
      ensures Valid() && cycleTimerArmed
      ensures testimonialIndex == StepIndex(old(testimonialIndex), 1, |stories|)
      ensures renderedStory == if hasCarousel then Some(stories[testimonialIndex]) else old(renderedStory)
    {
      cycleTimerArmed := false;
      ChangeTestimonial(1);
    }
  }

  // ---------------------------------------------------------------- payment flow

  const StepMessages: seq<string> := [
    "Capturing card token…",
    "Confirming bank hold…",
    "Notifying kitchen…",
    "Scheduling payout…"]

  const WaitingStatus: string := "Waiting for input"
  const FundedStatus: string := "Escrow funded successfully"
  const SubmitLabel: string := "Simulate payment"
  const ProcessingLabel: string := "Processing…"

  /** `stepMessages[i] || "Processing…"`. */
  function StepMessage(i: int): (m: string)
    ensures 0 <= i < |StepMessages| ==> m == StepMessages[i]
    ensures i >= |StepMessages| ==> m == ProcessingLabel
  {
    if 0 <= i < |StepMessages| then StepMessages[i] else ProcessingLabel
  }

  /** Every status text one submission shows, in order, for `n` steps. */
  function StatusTrace(n: nat): (t: seq<string>)
    ensures |t| == n + 2 && t[0] == WaitingStatus && t[n + 1] == FundedStatus
    ensures forall i :: 0 <= i < n ==> t[i + 1] == StepMessage(i)
  {
    [WaitingStatus] + seq(n, i => StepMessage(i)) + [FundedStatus]
  }

  /** On the page's four-step list the submission walks through the four step messages. */
  lemma FourStepTrace()
    ensures StatusTrace(4) == [WaitingStatus] + StepMessages + [FundedStatus]
  {
    assert seq(4, i => StepMessage(i)) == StepMessages;
  }

  /** One `<li>` of the steps list: its two classes and, when it has a `<span>`, the badge
      text. */
  datatype StepItem = StepItem(active: bool, completed: bool, badge: Option<string>)

  function WithBadge(item: StepItem, text: string): StepItem {
    item.(badge := if item.badge.Some? then Some(text) else None)
  }

  /** Every item inactive, with `completed` as given and its badge (if any) reading `text`. */
  function Settled(items: seq<StepItem>, completed: bool, text: string): (r: seq<StepItem>)
    ensures |r| == |items|
    ensures forall k :: 0 <= k < |items| ==> r[k] == WithBadge(StepItem(false, completed, items[k].badge), text)
  {
    seq(|items|, k requires 0 <= k < |items| => WithBadge(StepItem(false, completed, items[k].badge), text))
  }

  /** Settling forgets earlier badge texts: only whether an item has a badge matters. */
  lemma SettleTwice(items: seq<StepItem>, c1: bool, t1: string, c2: bool, t2: string)
    ensures Settled(Settled(items, c1, t1), c2, t2) == Settled(items, c2, t2)
  {
  }

  /** The payment form. The submit button and the result panel may be missing from the
      markup; when present, their state is recorded. `statusLog` records every text put in
      the status element. */
  class PaymentForm {
    const items: array<StepItem>
    const hasButton: bool
    const hasResult: bool
    var buttonDisabled: bool
    var buttonLabel: string
    var resultHidden: bool
    var status: string
    var statusLog: seq<string>

    /** The form as the page's markup sets it up, before the script writes to it. */
    constructor (items: array<StepItem>, hasButton: bool, hasResult: bool,
                 buttonDisabled: bool, buttonLabel: string, resultHidden: bool, status: string)
      ensures this.items == items && this.hasButton == hasButton && this.hasResult == hasResult
      ensures this.buttonDisabled == buttonDisabled && this.buttonLabel == buttonLabel
      ensures this.resultHidden == resultHidden && this.status == status && statusLog == []
    {
      this.items := items;
      this.hasButton := hasButton;
      this.hasResult := hasResult;
      this.buttonDisabled := buttonDisabled;
      this.buttonLabel := buttonLabel;
      this.resultHidden := resultHidden;
      this.status := status;
      statusLog := [];
    }

    /** `statusEl.textContent = text`. */
    method SetStatus(text: string)
      modifies this`status, this`statusLog
      ensures status == text && statusLog == old(statusLog) + [text]
    {
      status := text;
      statusLog := statusLog + [text];
    }

    /** `resetSteps`. */
    method ResetSteps()
      modifies this`status, this`statusLog, this`resultHidden, items
      ensures items[..] == Settled(old(items[..]), false, "Queued")
      ensures status == WaitingStatus && statusLog == old(statusLog) + [WaitingStatus]
      ensures resultHidden == if hasResult then true else old(resultHidden)
    {
      var k := 0;
      while k < items.Length
        modifies items
        invariant 0 <= k <= items.Length
        invariant forall j :: 0 <= j < k ==> items[j] == WithBadge(StepItem(false, false, old(items[j].badge)), "Queued")
        invariant forall j :: k <= j < items.Length ==> items[j] == old(items[j])
      {
        items[k] := WithBadge(StepItem(false, false, items[k].badge), "Queued");
        k := k + 1;
      }
      SetStatus(WaitingStatus);
      if hasResult {
        resultHidden := true;
      }
    }

    /** The step loop: each step becomes active with badge "In progress" while the status
        shows its message, then completed with badge "Done". */
    method RunSteps()
      modifies this`status, this`statusLog, items
      ensures items[..] == Settled(old(items[..]), true, "Done")
      ensures statusLog == old(statusLog) + seq(items.Length, k => StepMessage(k))
      ensures |statusLog| > |old(statusLog)| ==> status == StepMessage(items.Length - 1)
      ensures |statusLog| == |old(statusLog)| ==> status == old(status)
    {
      var i := 0;
      while i < items.Length
        invariant 0 <= i <= items.Length
        invariant forall k :: 0 <= k < i ==> items[k] == WithBadge(StepItem(false, true, old(items[k].badge)), "Done")
        invariant forall k :: i <= k < items.Length ==> items[k] == old(items[k])
        invariant statusLog == old(statusLog) + seq(i, k => StepMessage(k))
        invariant i > 0 ==> status == StepMessage(i - 1)
        invariant i == 0 ==> status == old(status)
      {
        var item := items[i];
        items[i] := WithBadge(item.(active := true), "In progress");
        SetStatus(StepMessage(i));
        items[i] := WithBadge(StepItem(false, true, item.badge), "Done");
        assert seq(i + 1, k => StepMessage(k)) == seq(i, k => StepMessage(k)) + [StepMessage(i)];
        i := i + 1;
      }
    }

    /** The submit handler, with each one-second wait taken as done. */
    method Submit()
      modifies this, items
      ensures items[..] == Settled(old(items[..]), true, "Done")
      ensures statusLog == old(statusLog) + StatusTrace(items.Length) && status == FundedStatus
      ensures resultHidden == if hasResult then false else old(resultHidden)
      ensures buttonDisabled == if hasButton then false else old(buttonDisabled)
      ensures buttonLabel == if hasButton then SubmitLabel else old(buttonLabel)
    {
      if hasButton {
        buttonDisabled := true;
        buttonLabel := ProcessingLabel;
      }
      ghost var before := items[..];
      ResetSteps();
      RunSteps();
      SettleTwice(before, false, "Queued", true, "Done");
      SetStatus(FundedStatus);
      assert statusLog == old(statusLog) + [WaitingStatus] + seq(items.Length, k => StepMessage(k)) + [FundedStatus];
      if hasResult {
        resultHidden := false;
      }
      if hasButton {
        buttonDisabled := false;
        buttonLabel := SubmitLabel;
      }
    }
  }
}
