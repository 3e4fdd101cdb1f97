/** The boot worker `cis_audio_pa_state_worker`: a one-shot latch that retries
    the unmute request until the channel accepts it. */
module RetryWorker {

  /** Delay before the first run, requested at module init. */
  const FirstDelayMs: nat := 500
  /** Delay before a retry after a failed unmute request. */
  const RetryDelayMs: nat := 1000

  /** The effect of one run: the new latch, and whether the run enabled the amplifier
      and sent the unmute request, notified mute state 0, and rescheduled itself. */
  datatype Step = Step(retry: bool, attempted: bool, notified: bool, rescheduled: bool)

  /** One run of the worker with latch `retry`, the unmute request returning `setResult`. */
  function Tick(retry: bool, setResult: int): (s: Step)
    // a set latch makes the run a no-op
    ensures retry ==> s == Step(true, false, false, false)
    // a clear latch makes the run attempt; the latch sets exactly when the request succeeded
    ensures !retry ==> s.attempted && (s.retry <==> setResult == 0)
    // the notification goes out exactly when the latch flips
    ensures s.notified <==> !retry && s.retry
    // the run reschedules exactly when the latch is still clear
    ensures s.rescheduled <==> !s.retry
  {
    if retry then Step(true, false, false, false)
    else if setResult == 0 then Step(true, true, true, false)
    else Step(false, true, false, true)
  }

  /** The outcome of a series of runs: the final latch and how many runs attempted,
      notified and rescheduled. */
  datatype Run = Run(retry: bool, attempts: nat, notices: nat, reschedules: nat)

  predicate SomeSuccess(results: seq<int>)
  {
    exists i :: 0 <= i < |results| && results[i] == 0
  }

  /** Consecutive runs from latch `retry`, the i-th unmute request returning `results[i]`. */
  function RunTicks(retry: bool, results: seq<int>): (r: Run)
    // once set, the latch stays set and the worker is inert
    ensures retry ==> r == Run(true, 0, 0, 0)
    // the latch ends set exactly when it was set or some request succeeded
    ensures r.retry <==> retry || SomeSuccess(results)
    // mute state 0 is notified at most once, and only by the run that sets the latch
    ensures r.notices == (if r.retry && !retry then 1 else 0)
    // every attempt ends in either the notification or a reschedule
    ensures r.attempts == r.notices + r.reschedules
    ensures r.attempts <= |results|
    decreases |results|
  {
    if results == [] then Run(retry, 0, 0, 0)
    else
      var s := Tick(retry, results[0]);
      var rest := RunTicks(s.retry, results[1..]);
      assert SomeSuccess(results) <==> results[0] == 0 || SomeSuccess(results[1..]) by {
        if SomeSuccess(results[1..]) {
          var i :| 0 <= i < |results| - 1 && results[1..][i] == 0;
          assert results[i + 1] == 0;
        }
      }
      Run(rest.retry,
          rest.attempts + (if s.attempted then 1 else 0),
          rest.notices + (if s.notified then 1 else 0),
          rest.reschedules + (if s.rescheduled then 1 else 0))
  }

  /** The run whose request first succeeds is the last to attempt: with the k-th request
      the first to succeed, k+1 attempts, k reschedules and one notification. */
  lemma {:induction false} FirstSuccessAt(results: seq<int>, k: nat)
    requires k < |results| && results[k] == 0
    requires forall i :: 0 <= i < k ==> results[i] != 0
    ensures RunTicks(false, results) == Run(true, k + 1, 1, k)
  {
    if k > 0 {
      FirstSuccessAt(results[1..], k - 1);
    }
  }

  /** While the channel keeps refusing, every run attempts and reschedules, without end. */
  lemma {:induction false} NeverSucceeds(results: seq<int>)
    requires forall i :: 0 <= i < |results| ==> results[i] != 0
    ensures RunTicks(false, results) == Run(false, |results|, 0, |results|)
  {
    if results != [] {
      NeverSucceeds(results[1..]);
    }
  }

  /** Two failures then a success: three attempts, two reschedules, one notification,
      and a fourth run that does nothing. */
  lemma BootScenario(e1: int, e2: int, later: int)
    requires e1 != 0 && e2 != 0
    ensures RunTicks(false, [e1, e2, 0]) == Run(true, 3, 1, 2)
    ensures RunTicks(false, [e1, e2, 0, later]) == Run(true, 3, 1, 2)
  {
    FirstSuccessAt([e1, e2, 0], 2);
    FirstSuccessAt([e1, e2, 0, later], 2);
  }
}
