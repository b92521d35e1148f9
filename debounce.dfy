/** The leading-edge debounce of `onEvent.click` and `onEvent.resize`
    (src/flexiSlider.js:245-253, 260-268). The timer is a flag: a signal runs
    the action only when no timer is pending, and every signal, run or
    dropped, clears and restarts the timer, so the flag is pending after it.
    `Expire` is the timer firing after its timeout with no signal since. */
module Debounce {

  datatype Event = Signal | Expire

  datatype Outcome = Outcome(pending: bool, ran: bool)

  /** One event at the gate. */
  function Step(pending: bool, e: Event): (r: Outcome)
    ensures e.Signal? ==> r.pending && (r.ran <==> !pending)
    ensures e.Expire? ==> !r.pending && !r.ran
  {
    match e
    case Signal => Outcome(true, !pending)
    case Expire => Outcome(false, false)
  }

  /** Whether the timer is pending after the events. */
  function PendingAfter(pending: bool, events: seq<Event>): bool
    decreases |events|
  {
    if |events| == 0 then pending else PendingAfter(Step(pending, events[0]).pending, events[1..])
  }

  /** How many of the events ran the action. */
  function Runs(pending: bool, events: seq<Event>): nat
    decreases |events|
  {
    if |events| == 0 then 0
    else
      var o := Step(pending, events[0]);
      (if o.ran then 1 else 0) + Runs(o.pending, events[1..])
  }

  function Expiries(events: seq<Event>): nat
  {
    if |events| == 0 then 0 else (if events[0].Expire? then 1 else 0) + Expiries(events[1..])
  }

  /** A burst of signals with no expiry in between runs the action at most
      once: for the first signal, and only if no timer was pending. */
  lemma {:induction false} BurstRunsOnce(pending: bool, events: seq<Event>)
    requires forall i :: 0 <= i < |events| ==> events[i].Signal?
    ensures Runs(pending, events) == if pending || |events| == 0 then 0 else 1
    ensures |events| > 0 ==> PendingAfter(pending, events)
    decreases |events|
  {
    if |events| > 0 {
      BurstRunsOnce(true, events[1..]);
    }
  }

  /** Each run needs the gate to have been open: the action runs at most once
      per expiry, plus once if no timer was pending at the start. */
  lemma {:induction false} RunsBoundedByExpiries(pending: bool, events: seq<Event>)
    ensures Runs(pending, events) <= Expiries(events) + (if pending then 0 else 1)
    decreases |events|
  {
    if |events| > 0 {
      RunsBoundedByExpiries(Step(pending, events[0]).pending, events[1..]);
    }
  }

  /** After the timer expires, the next signal runs, whatever came before. */
  lemma {:induction false} SignalAfterExpiryRuns(pending: bool, events: seq<Event>)
    ensures !PendingAfter(pending, events + [Expire])
    ensures Runs(pending, events + [Expire, Signal]) == Runs(pending, events) + 1
    decreases |events|
  {
    if |events| == 0 {
      assert events + [Expire, Signal] == [Expire, Signal] && [Expire, Signal][1..] == [Signal];
      assert events + [Expire] == [Expire];
      assert Runs(false, [Signal]) == 1 + Runs(true, []);
    } else {
      assert (events + [Expire])[1..] == events[1..] + [Expire];
      assert (events + [Expire, Signal])[1..] == events[1..] + [Expire, Signal];
      SignalAfterExpiryRuns(Step(pending, events[0]).pending, events[1..]);
    }
  }
}
