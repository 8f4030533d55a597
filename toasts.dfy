/** The toast context: one message at a time, each shown message with a positive duration
    leaving behind a timer that clears it only if it is still the message on screen. */
module Toasts {
  import opened Wrappers

  const DefaultDurationMs: int := 2500

  /** The message on screen and the pending expiry timers, oldest first; each timer
      remembers the message it was scheduled for. */
  datatype ToastState = ToastState(message: Option<string>, timers: seq<string>)

  const InitialToasts: ToastState := ToastState(None, [])

  /** What an expiry for `expiring` does to the current message. */
  function Expire(current: Option<string>, expiring: string): (r: Option<string>)
    ensures current == Some(expiring) ==> r == None
    ensures current != Some(expiring) ==> r == current
  {
    if current == Some(expiring) then None else current
  }

  /** `showToast(m, durationMs)`. */
  function Show(s: ToastState, m: string, durationMs: int): ToastState {
    ToastState(Some(m), if durationMs > 0 then s.timers + [m] else s.timers)
  }

  /** Timer `i` fires; a timer that does not exist does nothing. */
  function Fire(s: ToastState, i: nat): ToastState {
    if i < |s.timers| then ToastState(Expire(s.message, s.timers[i]), s.timers[..i] + s.timers[i + 1..])
    else s
  }

  /** `clearToast()`. */
  function Clear(s: ToastState): ToastState {
    ToastState(None, s.timers)
  }

  /** Showing a message puts it on screen and adds exactly one timer when the duration is
      positive, none otherwise. */
  lemma ShowSetsMessage(s: ToastState, m: string, durationMs: int)
    ensures Show(s, m, durationMs).message == Some(m)
    ensures durationMs > 0 ==> Show(s, m, durationMs).timers == s.timers + [m]
    ensures durationMs <= 0 ==> Show(s, m, durationMs).timers == s.timers
  {
  }

  /** A timer clears the screen only when the message it was scheduled for is still there. */
  lemma FireClearsOnlyItsOwnMessage(s: ToastState, i: nat)
    requires i < |s.timers|
    ensures Fire(s, i).message == None <==> (s.message == None || s.message == Some(s.timers[i]))
    ensures |Fire(s, i).timers| == |s.timers| - 1
  {
  }

  /** A newer, different message survives the timer of an older one. */
  lemma NewerMessageSurvivesOlderTimer(s: ToastState, a: string, b: string)
    requires a != b
    ensures var t := Show(Show(s, a, DefaultDurationMs), b, DefaultDurationMs);
            Fire(t, |s.timers|).message == Some(b)
  {
    var t := Show(Show(s, a, DefaultDurationMs), b, DefaultDurationMs);
    assert t.timers == s.timers + [a] + [b];
    assert t.timers[|s.timers|] == a;
  }

  /** The message shown with the default duration is cleared by its own timer when nothing
      else was shown in between. */
  lemma DefaultToastExpires(s: ToastState, m: string)
    ensures Fire(Show(s, m, DefaultDurationMs), |s.timers|) == ToastState(None, s.timers)
  {
    var t := Show(s, m, DefaultDurationMs);
    assert t.timers[|s.timers|] == m;
    assert t.timers[..|s.timers|] + t.timers[|s.timers| + 1..] == s.timers;
  }

  datatype ToastEvent = ShowEvent(m: string, durationMs: int) | FireEvent(i: nat) | ClearEvent

  function Step(s: ToastState, e: ToastEvent): ToastState {
    match e
    case ShowEvent(m, d) => Show(s, m, d)
    case FireEvent(i) => Fire(s, i)
    case ClearEvent => Clear(s)
  }

  function Run(s: ToastState, events: seq<ToastEvent>): ToastState
    decreases |events|
  {
    if events == [] then s else Run(Step(s, events[0]), events[1..])
  }

  predicate IsFire(e: ToastEvent) {
    e.FireEvent?
  }

  /** A message shown with a duration of zero or less stays on screen through any number
      of timer firings, as long as no pending timer was scheduled for the same text. */
  lemma {:induction false} StickyToastPersists(s: ToastState, m: string, d: int, fires: seq<ToastEvent>)
    requires d <= 0
    requires m !in s.timers
    requires forall k :: 0 <= k < |fires| ==> IsFire(fires[k])
    ensures Run(Show(s, m, d), fires).message == Some(m)
  {
    StickyToastPersistsFrom(Show(s, m, d), m, fires);
  }

  lemma {:induction false} StickyToastPersistsFrom(t: ToastState, m: string, fires: seq<ToastEvent>)
    requires t.message == Some(m) && m !in t.timers
    requires forall k :: 0 <= k < |fires| ==> IsFire(fires[k])
    ensures Run(t, fires).message == Some(m)
    decreases |fires|
  {
    if fires != [] {
      assert IsFire(fires[0]);
      var next := Step(t, fires[0]);
      var i := fires[0].i;
      if i < |t.timers| {
        assert t.timers[i] != m;
        assert forall x :: x in t.timers[..i] + t.timers[i + 1..] ==> x in t.timers;
      }
      assert next.message == Some(m) && m !in next.timers;
      StickyToastPersistsFrom(next, m, fires[1..]);
    }
  }

  /** `ToastProvider`. */
  class ToastProvider {
    var message: Option<string>
    var timers: seq<string>

    function State(): ToastState
      reads this
    {
      ToastState(message, timers)
    }

    constructor ()
      ensures State() == InitialToasts
    {
      message := None;
      timers := [];
    }

    /** `showToast(nextMessage, durationMs = 2500)`. */
    method ShowToast(nextMessage: string, durationMs: int := DefaultDurationMs)
      modifies this
      ensures State() == Show(old(State()), nextMessage, durationMs)
    {
      message := Some(nextMessage);
      if durationMs > 0 {
        timers := timers + [nextMessage];
      }
    }

    /** The `i`-th pending timer fires. */
    method FireTimer(i: nat)
      modifies this
      ensures State() == Fire(old(State()), i)
    {
      if i < |timers| {
        var expiring := timers[i];
        if message == Some(expiring) {
          message := None;
        }
        timers := timers[..i] + timers[i + 1..];
      }
    }

    /** `clearToast()`. */
    method ClearToast()
      modifies this
      ensures State() == Clear(old(State()))
    {
      message := None;
    }
  }
}
