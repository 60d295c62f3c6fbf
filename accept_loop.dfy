/**
 * The accept loop of `Client.Run`: every accepted connection is handed to `connect`, a
 * temporary accept error is retried after a delay that starts at 5 ms, doubles on every
 * further temporary error in a row and is capped at one second, and any other error ends
 * the loop. Durations are in milliseconds; the listener is a sequence of accept outcomes.
 */
module AcceptLoop {

  datatype AcceptEvent = Accepted | TemporaryError | PermanentError

  /** What the loop does with one accept outcome. */
  datatype Step = Serve | Sleep(ms: nat)

  /** How `Run` ends: the listen call failed, an accept failed for good, or the outcomes ran out. */
  datatype RunOutcome = ListenFailed | AcceptFailed | StillAccepting

  const FirstDelay: nat := 5
  const MaxDelay: nat := 1000

  function Pow2(k: nat): (p: nat)
    ensures p >= 1
  {
    if k == 0 then 1 else 2 * Pow2(k - 1)
  }

  /** The delay slept after the `k`-th temporary error in a row. */
  function Delay(k: nat): nat
    requires k >= 1
  {
    var d := FirstDelay * Pow2(k - 1);
    if d > MaxDelay then MaxDelay else d
  }

  /** The number of temporary errors at the end of the history, i.e. since the last success. */
  function Streak(history: seq<AcceptEvent>): (n: nat)
    ensures n <= |history|
  {
    if |history| == 0 || history[|history| - 1] != TemporaryError then 0
    else Streak(history[..|history| - 1]) + 1
  }

  /** The step taken for the outcome `e` after the outcomes in `history`; `e` is not a permanent error. */
  function StepFor(history: seq<AcceptEvent>, e: AcceptEvent): Step
    requires e != PermanentError
  {
    if e == Accepted then Serve else Sleep(Delay(Streak(history) + 1))
  }

  /** The first delay is 5 ms, each further one doubles the previous, and none exceeds one second. */
  lemma DelayStep(k: nat)
    requires k >= 1
    ensures Delay(1) == FirstDelay
    ensures Delay(k + 1) == if 2 * Delay(k) > MaxDelay then MaxDelay else 2 * Delay(k)
  {
    assert Pow2(k) == 2 * Pow2(k - 1);
  }

  /** Every delay lies between 5 ms and one second. */
  lemma DelayBounds(k: nat)
    requires k >= 1
    ensures FirstDelay <= Delay(k) <= MaxDelay
  {
  }

  /** From the ninth temporary error in a row on, the delay is the one-second cap. */
  lemma DelayCapped(k: nat)
    requires k >= 9
    ensures Delay(k) == MaxDelay
  {
    Pow2Grows(8, k - 1);
    assert Pow2(8) == 256;
  }

  lemma {:induction false} Pow2Grows(a: nat, b: nat)
    requires a <= b
    ensures Pow2(a) <= Pow2(b)
    decreases b - a
  {
    if a < b {
      Pow2Grows(a + 1, b);
    }
  }

  /** A success ends the streak: the next temporary error waits 5 ms again. */
  lemma AcceptResetsDelay(history: seq<AcceptEvent>)
    ensures StepFor(history + [Accepted], TemporaryError) == Sleep(FirstDelay)
  {
    assert (history + [Accepted])[|history|] == Accepted;
  }

  /**
   * `Run`: when the listener cannot be set up nothing is accepted. Otherwise the outcomes
   * are taken in order; each success is served and each temporary error slept off with the
   * delay its streak calls for; the first permanent error ends the loop with that error.
   */
  method Run(listenOk: bool, events: seq<AcceptEvent>) returns (steps: seq<Step>, outcome: RunOutcome)
    ensures !listenOk <==> outcome == ListenFailed
    ensures !listenOk ==> steps == []
    ensures listenOk ==> |steps| <= |events| && PermanentError !in events[..|steps|]
    ensures listenOk ==> forall k :: 0 <= k < |steps| ==> steps[k] == StepFor(events[..k], events[k])
    ensures outcome == AcceptFailed <==> listenOk && PermanentError in events
    ensures outcome == AcceptFailed ==> events[|steps|] == PermanentError
    ensures outcome == StillAccepting ==> |steps| == |events|
  {
    if !listenOk {
      return [], ListenFailed;
    }
    var tempDelay: nat := 0;
    steps := [];
    var i := 0;
    while i < |events|
      invariant 0 <= i <= |events| && |steps| == i
      invariant PermanentError !in events[..i]
      invariant forall k :: 0 <= k < i ==> steps[k] == StepFor(events[..k], events[k])
      invariant tempDelay == if Streak(events[..i]) == 0 then 0 else Delay(Streak(events[..i]))
    {
      assert events[..i + 1][..i] == events[..i];
      match events[i] {
      case TemporaryError =>
        if tempDelay == 0 {
          tempDelay := FirstDelay;
        } else {
          tempDelay := tempDelay * 2;
        }
        if tempDelay > MaxDelay {
          tempDelay := MaxDelay;
        }
        if Streak(events[..i]) > 0 {
          DelayStep(Streak(events[..i]));
        } else {
          DelayStep(1);
        }
        steps := steps + [Sleep(tempDelay)];
      case PermanentError =>
        return steps, AcceptFailed;
      case Accepted =>
        tempDelay := 0;
        steps := steps + [Serve];
      }
      i := i + 1;
    }
    return steps, StillAccepting;
  }

}
