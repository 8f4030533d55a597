/** The vendor dashboard: the kitchen checklist and its progress, the orders pipeline split
    into status columns, the bid request modal's open/close/submit lifecycle, and the
    three-step bid wizard with its attachment selection. */
module VendorDashboard {
  import opened Wrappers
  import opened Arith

  // ---------------------------------------------------------------- checklist

  datatype ChecklistItem = ChecklistItem(labelText: string, detail: string, complete: bool)

  const InitialChecklist: seq<ChecklistItem> := [
    ChecklistItem("Upload new kitchen shots", "Highlight clean surfaces + plating station", true),
    ChecklistItem("Verify cold-chain logs", "Attach latest HACCP sheet", false),
    ChecklistItem("Refresh tasting menu", "Add seasonal palm wine pairings", false)]

  /** `handleChecklistToggle`'s update: flip `complete` on every item with that label. */
  function ToggleByLabel(items: seq<ChecklistItem>, labelText: string): (r: seq<ChecklistItem>)
    ensures |r| == |items|
    ensures forall i :: 0 <= i < |items| && items[i].labelText == labelText ==>
              r[i] == items[i].(complete := !items[i].complete)
    ensures forall i :: 0 <= i < |items| && items[i].labelText != labelText ==> r[i] == items[i]
  {
    if items == [] then []
    else
      var head := if items[0].labelText == labelText then items[0].(complete := !items[0].complete) else items[0];
      [head] + ToggleByLabel(items[1..], labelText)
  }

  /** Toggling the same label twice restores the list. */
  lemma ToggleTwiceRestores(items: seq<ChecklistItem>, labelText: string)
    ensures ToggleByLabel(ToggleByLabel(items, labelText), labelText) == items
  {
  }

  /** Number of completed items (`items.filter(item => item.complete).length`). */
  function CompletedCount(items: seq<ChecklistItem>): (n: nat)
    ensures n <= |items|
    ensures n == 0 <==> forall i :: 0 <= i < |items| ==> !items[i].complete
    ensures n == |items| <==> forall i :: 0 <= i < |items| ==> items[i].complete
  {
    if items == [] then 0
    else (if items[0].complete then 1 else 0) + CompletedCount(items[1..])
  }

  /** Counting is additive over concatenation. */
  lemma {:induction false} CompletedCountConcat(xs: seq<ChecklistItem>, ys: seq<ChecklistItem>)
    ensures CompletedCount(xs + ys) == CompletedCount(xs) + CompletedCount(ys)
  {
    if xs == [] {
      assert xs + ys == ys;
    } else {
      assert (xs + ys)[1..] == xs[1..] + ys;
      CompletedCountConcat(xs[1..], ys);
    }
  }

  /** The count is the number of positions holding a completed item. */
  lemma {:induction false} CompletedCountIsNumberCompleted(items: seq<ChecklistItem>)
    ensures CompletedCount(items) == |set i | 0 <= i < |items| && items[i].complete|
  {
    if items != [] {
      var xs := items[..|items| - 1];
      var x := items[|items| - 1];
      assert items == xs + [x];
      CompletedCountIsNumberCompleted(xs);
      CompletedCountConcat(xs, [x]);
      var before := set i | 0 <= i < |xs| && xs[i].complete;
      var after := set i | 0 <= i < |items| && items[i].complete;
      assert after == before + (if x.complete then {|xs|} else {});
      assert |xs| !in before;
    }
  }

  /** `Math.round(num / den)` for a non-negative fraction: the nearest integer, halves up. */
  function RoundHalfUp(num: nat, den: nat): (q: nat)
    requires den > 0
    ensures 2 * den * q <= 2 * num + den < 2 * den * (q + 1)
  {
    (2 * num + den) / (2 * den)
  }

  /** `checklistProgress`, as a percentage; `None` stands for the NaN an empty list gives. */
  function ChecklistProgress(items: seq<ChecklistItem>): (p: Option<nat>)
    ensures p.None? <==> |items| == 0
    ensures p.Some? ==> p.value <= 100
    ensures p.Some? ==> 2 * |items| * p.value <= 200 * CompletedCount(items) + |items| < 2 * |items| * (p.value + 1)
  {
    if |items| == 0 then None
    else
      var c := CompletedCount(items);
      var q := RoundHalfUp(100 * c, |items|);
      ProgressAtMostHundred(c, |items|, q);
      Some(q)
  }

  lemma ProgressAtMostHundred(c: nat, n: nat, q: nat)
    requires 0 < n && c <= n
    requires 2 * n * q <= 2 * (100 * c) + n
    ensures q <= 100
  {
    assert n * (2 * q) <= n * 201;
    MulCancelLe(n, 2 * q, 201);
  }

  /** No completed item gives 0%. */
  lemma ProgressWhenNoneComplete(items: seq<ChecklistItem>)
    requires |items| > 0
    requires forall i :: 0 <= i < |items| ==> !items[i].complete
    ensures ChecklistProgress(items) == Some(0)
  {
    var n := |items|;
    var p := ChecklistProgress(items).value;
    assert n * (2 * p) <= n * 1;
    MulCancelLe(n, 2 * p, 1);
  }

  /** Every item completed gives 100%. */
  lemma ProgressWhenAllComplete(items: seq<ChecklistItem>)
    requires |items| > 0
    requires forall i :: 0 <= i < |items| ==> items[i].complete
    ensures ChecklistProgress(items) == Some(100)
  {
    var n := |items|;
    var p := ChecklistProgress(items).value;
    assert n * 201 < n * (2 * p + 2);
    MulCancelLt(n, 201, 2 * p + 2);
  }

  /** The initial checklist is one third done, shown as 33%. */
  lemma InitialProgress()
    ensures ChecklistProgress(InitialChecklist) == Some(33)
  {
    assert CompletedCount(InitialChecklist) == 1;
  }

  // ---------------------------------------------------------------- orders pipeline

  datatype OrderStatus = New | Cooking | Ready | Delivered

  /** `statusColumns`, in display order. */
  const StatusColumns: seq<OrderStatus> := [New, Cooking, Ready, Delivered]

  datatype VendorOrder = VendorOrder(id: string, customer: string, items: string, status: OrderStatus)

  /** The orders of one column (`vendorOrders.filter(order => order.status === status)`). */
  function ColumnOrders(orders: seq<VendorOrder>, status: OrderStatus): (r: seq<VendorOrder>)
    ensures |r| <= |orders|
    ensures forall o :: o in r <==> o in orders && o.status == status
  {
    if orders == [] then []
    else (if orders[0].status == status then [orders[0]] else []) + ColumnOrders(orders[1..], status)
  }

  /** Every order is in the column of its status and in no other. */
  lemma OrderInExactlyOneColumn(orders: seq<VendorOrder>, o: VendorOrder, status: OrderStatus)
    requires o in orders
    ensures o in ColumnOrders(orders, status) <==> status == o.status
  {
  }

  /** One order contributes to the column of its status only. */
  lemma ColumnOrdersCons(o: VendorOrder, rest: seq<VendorOrder>, status: OrderStatus)
    ensures ColumnOrders([o] + rest, status) == (if o.status == status then [o] else []) + ColumnOrders(rest, status)
  {
    assert ([o] + rest)[1..] == rest;
  }

  /** The four columns together hold every order exactly as often as the list does. */
  lemma {:induction false} ColumnsPartitionOrders(orders: seq<VendorOrder>)
    ensures multiset(ColumnOrders(orders, New)) + multiset(ColumnOrders(orders, Cooking))
            + multiset(ColumnOrders(orders, Ready)) + multiset(ColumnOrders(orders, Delivered))
            == multiset(orders)
  {
    if orders != [] {
      var o, rest := orders[0], orders[1..];
      assert orders == [o] + rest;
      ColumnsPartitionOrders(rest);
      ColumnOrdersCons(o, rest, New);
      ColumnOrdersCons(o, rest, Cooking);
      ColumnOrdersCons(o, rest, Ready);
      ColumnOrdersCons(o, rest, Delivered);
      assert multiset(orders) == multiset{o} + multiset(rest);
    }
  }

  /** Hence the column counts add up to the number of orders. */
  lemma ColumnCountsAddUp(orders: seq<VendorOrder>)
    ensures |ColumnOrders(orders, New)| + |ColumnOrders(orders, Cooking)|
            + |ColumnOrders(orders, Ready)| + |ColumnOrders(orders, Delivered)| == |orders|
  {
    ColumnsPartitionOrders(orders);
    assert |multiset(orders)| == |orders|;
  }

  // ---------------------------------------------------------------- bid request lifecycle

  datatype OpenRequest = OpenRequest(id: string, title: string, budget: string)

  /** The dashboard's bid state. Besides the three fields of the source (`activeRequest`,
      `isSubmittingBid`, `bidSent`) it counts modal sessions (each open or close starts a new
      one), keeps the pending 900 ms completions in firing order, each tagged with the session
      that started it, and logs the session of every bid that was sent. */
  datatype BidState = BidState(
    active: Option<OpenRequest>,
    submitting: bool,
    sent: bool,
    session: nat,
    inFlight: seq<nat>,
    bids: seq<nat>)

  const InitialBids: BidState := BidState(None, false, false, 0, [], [])

  /** `openRequestModal(request)`. */
  function OpenModal(s: BidState, request: OpenRequest): BidState {
    s.(active := Some(request), submitting := false, sent := false, session := s.session + 1)
  }

  /** `closeRequestModal()`. */
  function CloseModal(s: BidState): BidState {
    s.(active := None, submitting := false, sent := false, session := s.session + 1)
  }

  /** `handleSubmitBid` up to its await: ignored without an open request, while submitting,
      or once sent; otherwise the bid goes out and its completion is scheduled. */
  function SubmitBid(s: BidState): BidState {
    if s.active.None? || s.submitting || s.sent then s
    else s.(submitting := true, inFlight := s.inFlight + [s.session], bids := s.bids + [s.session])
  }

  /** The oldest pending completion, AS WRITTEN: it marks the bid sent whatever was opened or
      closed meanwhile. */
  function CompleteBidAsWritten(s: BidState): BidState {
    if s.inFlight == [] then s
    else s.(submitting := false, sent := true, inFlight := s.inFlight[1..])
  }

  /** The oldest pending completion, as intended: it marks the bid sent only in the session
      that submitted it. */
  function CompleteBid(s: BidState): BidState {
    if s.inFlight == [] then s
    else if s.inFlight[0] == s.session then s.(submitting := false, sent := true, inFlight := s.inFlight[1..])
    else s.(inFlight := s.inFlight[1..])
  }

  /** Opening and closing both start from a clean slate; closing also drops the request. */
  lemma OpenAndCloseReset(s: BidState, request: OpenRequest)
    ensures var o := OpenModal(s, request); o.active == Some(request) && !o.submitting && !o.sent
    ensures var c := CloseModal(s); c.active.None? && !c.submitting && !c.sent
  {
  }

  /** Submitting is a no-op exactly when there is no request, a submission is under way or
      the bid was sent; otherwise it starts one submission. */
  lemma SubmitGuard(s: BidState)
    ensures SubmitBid(s) == s <==> (s.active.None? || s.submitting || s.sent)
    ensures SubmitBid(s) != s ==> SubmitBid(s).submitting && SubmitBid(s).bids == s.bids + [s.session]
  {
  }

  /** A submission followed by its own completion ends with the bid sent and nothing
      pending. */
  lemma SubmitThenComplete(s: BidState)
    requires s.active.Some? && !s.submitting && !s.sent && s.inFlight == []
    ensures var t := CompleteBid(SubmitBid(s)); !t.submitting && t.sent && t.inFlight == [] && t.bids == s.bids + [s.session]
  {
  }

  /** The race in the source: send a bid on A, close the modal before the delay ends, open
      B; the pending completion then shows B's bid as sent although none was sent for B. */
  lemma StaleCompletionMarksOtherRequestSent(a: OpenRequest, b: OpenRequest)
    ensures var t := CompleteBidAsWritten(OpenModal(CloseModal(SubmitBid(OpenModal(InitialBids, a))), b));
            t.active == Some(b) && t.sent && t.session !in t.bids
    ensures var t := CompleteBid(OpenModal(CloseModal(SubmitBid(OpenModal(InitialBids, a))), b));
            t.active == Some(b) && !t.sent
  {
  }

  /** Bids are logged in session order, none from a later session, and once this session's
      bid went out the submit guard holds: what the source keeps even as written. */
  ghost predicate OneBidPerOpen(s: BidState) {
    && (forall i :: 0 <= i < |s.bids| ==> s.bids[i] <= s.session)
    && (forall i, j :: 0 <= i < j < |s.bids| ==> s.bids[i] < s.bids[j])
    && (s.session in s.bids ==> s.submitting || s.sent)
  }

  /** The invariant of the intended lifecycle. */
  ghost predicate BidInvariant(s: BidState) {
    && OneBidPerOpen(s)
    && (forall t :: t in s.inFlight ==> t in s.bids)
    && (s.sent || s.submitting ==> s.session in s.bids)
    && (s.active.None? ==> s.session !in s.bids)
  }

  lemma InitialBidInvariant()
    ensures BidInvariant(InitialBids)
  {
  }

  /** What the invariant promises: at most one bid per modal session; "sent" only when this
      session's bid went out; nothing in progress or sent without an open request. */
  lemma BidInvariantMeaning(s: BidState)
    requires BidInvariant(s)
    ensures forall i, j :: 0 <= i < j < |s.bids| ==> s.bids[i] != s.bids[j]
    ensures s.sent ==> s.session in s.bids
    ensures s.active.None? ==> !s.submitting && !s.sent
  {
  }

  datatype BidEvent = OpenEvent(request: OpenRequest) | CloseEvent | SubmitEvent | CompleteEvent

  function BidStep(s: BidState, e: BidEvent): BidState {
    match e
    case OpenEvent(r) => OpenModal(s, r)
    case CloseEvent => CloseModal(s)
    case SubmitEvent => SubmitBid(s)
    case CompleteEvent => CompleteBid(s)
  }

  /** Every step of the intended lifecycle keeps the invariant. */
  lemma BidStepPreservesInvariant(s: BidState, e: BidEvent)
    requires BidInvariant(s)
    ensures BidInvariant(BidStep(s, e))
  {
    match e
    case OpenEvent(r) =>
    case CloseEvent =>
    case SubmitEvent =>
      if !(s.active.None? || s.submitting || s.sent) {
        var t := SubmitBid(s);
        assert s.session !in s.bids;
        assert forall i :: 0 <= i < |s.bids| ==> s.bids[i] < s.session;
        assert forall i :: 0 <= i < |t.bids| ==> t.bids[i] <= t.session;
        assert forall x :: x in t.inFlight ==> x in t.bids;
      }
    case CompleteEvent =>
      if s.inFlight != [] {
        assert s.inFlight[0] in s.inFlight;
        var t := CompleteBid(s);
        assert forall x :: x in t.inFlight ==> x in s.inFlight;
      }
  }

  function RunBids(s: BidState, events: seq<BidEvent>): BidState
    decreases |events|
  {
    if events == [] then s else RunBids(BidStep(s, events[0]), events[1..])
  }

  /** From the initial state, any sequence of opens, closes, submissions and completions
      keeps the invariant, hence at most one bid per open. */
  lemma {:induction false} BidLifecycleSafe(s: BidState, events: seq<BidEvent>)
    requires BidInvariant(s)
    ensures BidInvariant(RunBids(s, events))
    decreases |events|
  {
    if events != [] {
      BidStepPreservesInvariant(s, events[0]);
      BidLifecycleSafe(BidStep(s, events[0]), events[1..]);
    }
  }

  /** The lifecycle as written, with the unchecked completion. */
  function BidStepAsWritten(s: BidState, e: BidEvent): BidState {
    match e
    case OpenEvent(r) => OpenModal(s, r)
    case CloseEvent => CloseModal(s)
    case SubmitEvent => SubmitBid(s)
    case CompleteEvent => CompleteBidAsWritten(s)
  }

  /** Even as written, every step keeps at most one bid per open. */
  lemma BidStepAsWrittenKeepsOneBidPerOpen(s: BidState, e: BidEvent)
    requires OneBidPerOpen(s)
    ensures OneBidPerOpen(BidStepAsWritten(s, e))
  {
    match e
    case OpenEvent(r) =>
    case CloseEvent =>
    case SubmitEvent =>
      if !(s.active.None? || s.submitting || s.sent) {
        var t := SubmitBid(s);
        assert s.session !in s.bids;
        assert forall i :: 0 <= i < |s.bids| ==> s.bids[i] < s.session;
        assert forall i :: 0 <= i < |t.bids| ==> t.bids[i] <= t.session;
      }
    case CompleteEvent =>
  }

  function RunBidsAsWritten(s: BidState, events: seq<BidEvent>): BidState
    decreases |events|
  {
    if events == [] then s else RunBidsAsWritten(BidStepAsWritten(s, events[0]), events[1..])
  }

  /** The source as written sends at most one bid per modal open, over any sequence of
      events: the race only makes "sent" show for an open that sent nothing. */
  lemma {:induction false} BidLifecycleAsWrittenOneBidPerOpen(s: BidState, events: seq<BidEvent>)
    requires OneBidPerOpen(s)
    ensures OneBidPerOpen(RunBidsAsWritten(s, events))
    ensures var t := RunBidsAsWritten(s, events);
            forall i, j :: 0 <= i < j < |t.bids| ==> t.bids[i] != t.bids[j]
    decreases |events|
  {
    if events != [] {
      BidStepAsWrittenKeepsOneBidPerOpen(s, events[0]);
      BidLifecycleAsWrittenOneBidPerOpen(BidStepAsWritten(s, events[0]), events[1..]);
    }
  }

  // ---------------------------------------------------------------- bid wizard

  /** `wizardSteps`: Proposal, Attachments, Review. */
  const WizardSteps: seq<string> := ["Proposal", "Attachments", "Review"]
  const LastStep: nat := |WizardSteps| - 1

  /** Step after the primary (Next) action, when it does not submit. */
  function NextStep(step: nat): nat {
    if step < LastStep then step + 1 else step
  }

  /** Step after Back. */
  function BackStep(step: nat): nat {
    if step == 0 then 0 else step - 1
  }

  /** The wizard never leaves 0..2; Back undoes Next below the last step. */
  lemma WizardStaysInBounds(step: nat)
    requires step <= LastStep
    ensures NextStep(step) <= LastStep && BackStep(step) <= LastStep
    ensures step < LastStep ==> BackStep(NextStep(step)) == step
    ensures BackStep(0) == 0 && NextStep(LastStep) == LastStep
  {
  }

  /** The primary button's `disabled` condition. */
  function PrimaryDisabled(step: nat, isSubmitting: bool, bidSent: bool, bidAmount: string): bool {
    (step == LastStep && (isSubmitting || bidSent)) || (step == 0 && bidAmount == "")
  }

  /** At the review step, with a request open, the send button is disabled exactly when
      sending would be ignored. */
  lemma SendDisabledExactlyWhenIgnored(s: BidState, bidAmount: string)
    requires s.active.Some?
    ensures PrimaryDisabled(LastStep, s.submitting, s.sent, bidAmount) <==> SubmitBid(s) == s
  {
  }

  /** `current.filter(item => item !== asset)`. */
  function Without(assets: seq<string>, asset: string): (r: seq<string>)
    ensures asset !in r
    ensures forall x :: x != asset ==> (x in r <==> x in assets)
    ensures asset !in assets ==> r == assets
    ensures NoDuplicates(assets) ==> NoDuplicates(r)
  {
    if assets == [] then []
    else
      var rest := Without(assets[1..], asset);
      if assets[0] == asset then rest
      else
        assert NoDuplicates(assets) ==> assets[0] !in assets[1..];
        [assets[0]] + rest
  }

  predicate NoDuplicates(s: seq<string>) {
    forall i, j :: 0 <= i < j < |s| ==> s[i] != s[j]
  }

  /** `toggleAsset`: remove the asset if selected, otherwise append it. */
  function ToggleAsset(current: seq<string>, asset: string): seq<string> {
    if asset in current then Without(current, asset) else current + [asset]
  }

  /** Toggling flips the membership of that asset only, and never creates duplicates. */
  lemma ToggleAssetFlipsMembership(current: seq<string>, asset: string)
    ensures asset in ToggleAsset(current, asset) <==> asset !in current
    ensures forall x :: x != asset ==> (x in ToggleAsset(current, asset) <==> x in current)
    ensures NoDuplicates(current) ==> NoDuplicates(ToggleAsset(current, asset))
  {
  }

  /** Toggling twice restores membership; starting from an unselected asset it restores the
      list itself. */
  lemma ToggleAssetTwice(current: seq<string>, asset: string)
    ensures forall x :: x in ToggleAsset(ToggleAsset(current, asset), asset) <==> x in current
    ensures asset !in current ==> ToggleAsset(ToggleAsset(current, asset), asset) == current
  {
    ToggleAssetFlipsMembership(current, asset);
    ToggleAssetFlipsMembership(ToggleAsset(current, asset), asset);
    if asset !in current {
      assert Without(current + [asset], asset) == current by {
        WithoutAppended(current, asset);
      }
    }
  }

  lemma {:induction false} WithoutAppended(current: seq<string>, asset: string)
    requires asset !in current
    ensures Without(current + [asset], asset) == current
  {
    if current != [] {
      assert (current + [asset])[1..] == current[1..] + [asset];
      WithoutAppended(current[1..], asset);
    }
  }

  const InitialAssets: seq<string> := ["Signature menu.pdf"]
  const DefaultNotes: string := "Ready to personalize spice & plating per guest."

  // ---------------------------------------------------------------- components

  /** `VendorDashboard`'s state. */
  class VendorDashboardPage {
    var checklistItems: seq<ChecklistItem>
    var activeRequest: Option<OpenRequest>
    var isSubmittingBid: bool
    var bidSent: bool
    var session: nat
    var inFlight: seq<nat>
    var bids: seq<nat>

    function Bids(): BidState
      reads this
    {
      BidState(activeRequest, isSubmittingBid, bidSent, session, inFlight, bids)
    }

    ghost predicate Valid()
      reads this
    {
      |checklistItems| == |InitialChecklist| && BidInvariant(Bids())
    }

    constructor ()
      ensures Valid()
      ensures checklistItems == InitialChecklist && Bids() == InitialBids
    {
      checklistItems := InitialChecklist;
      activeRequest := None;
      isSubmittingBid := false;
      bidSent := false;
      session := 0;
      inFlight := [];
      bids := [];
    }

    /** `checklistProgress` of the current list. */
    function Progress(): Option<nat>
      reads this
    {
      ChecklistProgress(checklistItems)
    }

    method HandleChecklistToggle(labelText: string)
      requires Valid()
      modifies this`checklistItems
      ensures Valid()
      ensures checklistItems == ToggleByLabel(old(checklistItems), labelText)
    {
      checklistItems := ToggleByLabel(checklistItems, labelText);
    }

    method OpenRequestModal(request: OpenRequest)
      requires Valid()
      modifies this
      ensures Valid()
      ensures Bids() == OpenModal(old(Bids()), request) && checklistItems == old(checklistItems)
    {
      activeRequest := Some(request);
      bidSent := false;
      isSubmittingBid := false;
      session := session + 1;
      BidStepPreservesInvariant(old(Bids()), OpenEvent(request));
    }

    method CloseRequestModal()
      requires Valid()
      modifies this
      ensures Valid()
      ensures Bids() == CloseModal(old(Bids())) && checklistItems == old(checklistItems)
    {
      activeRequest := None;
      bidSent := false;
      isSubmittingBid := false;
      session := session + 1;
      BidStepPreservesInvariant(old(Bids()), CloseEvent);
    }

    /** `handleSubmitBid`, up to the await. */
    method HandleSubmitBid()
      requires Valid()
      modifies this
      ensures Valid()
      ensures Bids() == SubmitBid(old(Bids())) && checklistItems == old(checklistItems)
    {
      if activeRequest.None? || isSubmittingBid || bidSent {
        return;
      }
      isSubmittingBid := true;
      inFlight := inFlight + [session];
      bids := bids + [session];
      BidStepPreservesInvariant(old(Bids()), SubmitEvent);
    }

    /** The 900 ms delay of the oldest pending submission ends (intended behaviour). */
    method BidDelayElapsed()
      requires Valid()
      modifies this
      ensures Valid()
      ensures Bids() == CompleteBid(old(Bids())) && checklistItems == old(checklistItems)
    {
      if inFlight == [] {
        return;
      }
      if inFlight[0] == session {
        isSubmittingBid := false;
        bidSent := true;
      }
      inFlight := inFlight[1..];
      BidStepPreservesInvariant(old(Bids()), CompleteEvent);
    }
  }

  /** `BidRequestModal`'s state; it is created afresh each time a request is opened. */
  class BidRequestModal {
    const request: OpenRequest
    var activeStep: nat
    var bidAmount: string
    var notes: string
    var selectedAssets: seq<string>

    ghost predicate Valid()
      reads this
    {
      activeStep <= LastStep && NoDuplicates(selectedAssets)
    }

    constructor (request: OpenRequest)
      ensures Valid()
      ensures this.request == request && activeStep == 0 && bidAmount == request.budget
      ensures notes == DefaultNotes && selectedAssets == InitialAssets
    {
      this.request := request;
      activeStep := 0;
      bidAmount := request.budget;
      notes := DefaultNotes;
      selectedAssets := InitialAssets;
    }

    method SetBidAmount(value: string)
      modifies this`bidAmount
      ensures bidAmount == value
    {
      bidAmount := value;
    }

    method SetNotes(value: string)
      modifies this`notes
      ensures notes == value
    {
      notes := value;
    }

    method ToggleAssetSelection(asset: string)
      requires Valid()
      modifies this`selectedAssets
      ensures Valid()
      ensures selectedAssets == ToggleAsset(old(selectedAssets), asset)
    {
      ToggleAssetFlipsMembership(selectedAssets, asset);
      if asset in selectedAssets {
        selectedAssets := Without(selectedAssets, asset);
      } else {
        selectedAssets := selectedAssets + [asset];
      }
    }

    /** Whether the primary button is disabled, given the dashboard's flags. */
    function PrimaryIsDisabled(dashboard: VendorDashboardPage): bool
      reads this, dashboard
    {
      PrimaryDisabled(activeStep, dashboard.isSubmittingBid, dashboard.bidSent, bidAmount)
    }

    /** `handlePrimaryAction`: Next below the last step, otherwise `onSubmit`. */
    method HandlePrimaryAction(dashboard: VendorDashboardPage)
      requires Valid() && dashboard.Valid()
      modifies this`activeStep, dashboard
      ensures Valid() && dashboard.Valid()
      ensures old(activeStep) < LastStep ==> activeStep == NextStep(old(activeStep)) && unchanged(dashboard)
      ensures old(activeStep) == LastStep ==>
                activeStep == LastStep && dashboard.Bids() == SubmitBid(old(dashboard.Bids()))
                && dashboard.checklistItems == old(dashboard.checklistItems)
    {
      if activeStep < |WizardSteps| - 1 {
        activeStep := activeStep + 1;
        return;
      }
      dashboard.HandleSubmitBid();
    }

    /** `handleBack`. */
    method HandleBack()
      requires Valid()
      modifies this`activeStep
      ensures Valid()
      ensures activeStep == BackStep(old(activeStep))
    {
      if activeStep == 0 {
        return;
      }
      activeStep := activeStep - 1;
    }

    /** A click on the primary button; a disabled button ignores it. The modal is only
        mounted while its request is the dashboard's active one. */
    method ClickPrimary(dashboard: VendorDashboardPage)
      requires Valid() && dashboard.Valid() && dashboard.activeRequest == Some(request)
      modifies this`activeStep, dashboard
      ensures Valid() && dashboard.Valid()
      ensures old(PrimaryIsDisabled(dashboard)) ==> activeStep == old(activeStep) && unchanged(dashboard)
      ensures !old(PrimaryIsDisabled(dashboard)) && old(activeStep) < LastStep ==>
                activeStep == old(activeStep) + 1 && unchanged(dashboard)
      ensures !old(PrimaryIsDisabled(dashboard)) && old(activeStep) == LastStep ==>
                dashboard.Bids() == SubmitBid(old(dashboard.Bids())) && dashboard.Bids() != old(dashboard.Bids())
    {
      if PrimaryIsDisabled(dashboard) {
        return;
      }
      HandlePrimaryAction(dashboard);
    }

    /** A click on Cancel (step 0) or Back (later steps); disabled while submitting. */
    method ClickSecondary(dashboard: VendorDashboardPage)
      requires Valid() && dashboard.Valid()
      modifies this`activeStep, dashboard
      ensures Valid() && dashboard.Valid()
      ensures old(dashboard.isSubmittingBid) ==> activeStep == old(activeStep) && unchanged(dashboard)
      ensures !old(dashboard.isSubmittingBid) && old(activeStep) == 0 ==>
                dashboard.Bids() == CloseModal(old(dashboard.Bids())) && dashboard.checklistItems == old(dashboard.checklistItems)
      ensures !old(dashboard.isSubmittingBid) && old(activeStep) > 0 ==>
                activeStep == old(activeStep) - 1 && unchanged(dashboard)
    {
      if dashboard.isSubmittingBid {
        return;
      }
      if activeStep == 0 {
        dashboard.CloseRequestModal();
      } else {
        HandleBack();
      }
    }
  }
}
