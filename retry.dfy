/**
 * The re-arm decision procRequest takes after every read (mb/mb.go:226-234):
 * a failed read with a retry budget bumps the byte-wide retry counter and
 * retries after a jitter while the counter is below the budget; otherwise the
 * sub-request goes back to its cadence, or goes dormant when it has none.
 */
module Retry {
  import opened Base

  /** What happens to a sub-request's timer after a dispatch. */
  datatype Rearm =
    | Jitter(delayMs: int)  // fast retry after a random delay, in milliseconds
    | Cadence               // the next read one scan interval later
    | NoRearm               // dormant: the timer is not started again

  /** The retry counter after an attempt and the re-arm it chose. */
  datatype Step = Step(retryCnt: byte, rearm: Rearm)

  /**
   * One attempt's effect on the retry state machine: `failed` is whether the
   * read returned an error, `retry` the budget, `retryCnt` the counter before
   * the attempt and `d` the jitter drawn for this attempt.
   */
  function RetryStep(failed: bool, retry: byte, scanRate: int, retryCnt: byte, d: int): (r: Step)
    ensures r.rearm.Jitter? ==> failed && retry > 0 && r.retryCnt < retry && r.rearm.delayMs == d
    ensures !r.rearm.Jitter? ==> r.rearm == (if scanRate > 0 then Cadence else NoRearm)
    ensures r.retryCnt != retryCnt ==> failed && retry > 0
  {
    if failed && retry > 0 then
      var cnt := IncU8(retryCnt);
      if cnt < retry then Step(cnt, Jitter(d))
      else Step(cnt, Normal(scanRate))
    else Step(retryCnt, Normal(scanRate))
  }

  /** The re-arm a sub-request falls back on when it does not fast-retry. */
  function Normal(scanRate: int): Rearm
  {
    if scanRate > 0 then Cadence else NoRearm
  }

  /**
   * The steps of a run of attempts on one sub-request, `failures[k]` telling
   * whether attempt k failed and `ds[k]` the jitter drawn for it, starting
   * from counter `retryCnt`.
   */
  function Run(failures: seq<bool>, ds: seq<int>, retry: byte, scanRate: int, retryCnt: byte): seq<Step>
    requires |ds| == |failures|
  {
    if failures == [] then []
    else
      var step := RetryStep(failures[0], retry, scanRate, retryCnt, ds[0]);
      [step] + Run(failures[1..], ds[1..], retry, scanRate, step.retryCnt)
  }

  /**
   * A fast retry is chosen only after a failed read, only with a budget, and
   * only while the bumped counter is still below the budget; in every other
   * case the sub-request resumes its cadence or goes dormant.
   */
  lemma RetryStepCases(failed: bool, retry: byte, scanRate: int, retryCnt: byte, d: int)
    ensures var step := RetryStep(failed, retry, scanRate, retryCnt, d);
      && (step.rearm.Jitter? <==> failed && retry > 0 && IncU8(retryCnt) < retry)
      && (step.rearm.Jitter? ==> step.rearm == Jitter(d) && step.retryCnt < retry)
      && (!step.rearm.Jitter? ==> step.rearm == Normal(scanRate))
      && (step.retryCnt == if failed && retry > 0 then IncU8(retryCnt) else retryCnt)
  {
  }

  /**
   * Consecutive failures from counter `retryCnt`, while the byte does not wrap:
   * attempt k leaves the counter at retryCnt + k + 1, and fast-retries after
   * its own jitter `ds[k]` exactly while that is below the budget, after which
   * the cadence (or dormancy) takes over.
   */
  lemma {:induction false} ConsecutiveFailures(ds: seq<int>, retry: byte, scanRate: int, retryCnt: byte)
    requires retry > 0
    requires retryCnt + |ds| <= 0xFF
    ensures var run := Run(seq(|ds|, _ => true), ds, retry, scanRate, retryCnt);
      && |run| == |ds|
      && forall k :: 0 <= k < |ds| ==>
           run[k] == Step(retryCnt + k + 1, if retryCnt + k + 1 < retry then Jitter(ds[k]) else Normal(scanRate))
    decreases |ds|
  {
    var n := |ds|;
    if n > 0 {
      var fs := seq(n, _ => true);
      var step := RetryStep(true, retry, scanRate, retryCnt, ds[0]);
      assert step.retryCnt == retryCnt + 1;
      var rest := Run(fs[1..], ds[1..], retry, scanRate, step.retryCnt);
      assert fs[1..] == seq(n - 1, _ => true);
      ConsecutiveFailures(ds[1..], retry, scanRate, retryCnt + 1);
      var run := Run(fs, ds, retry, scanRate, retryCnt);
      assert run == [step] + rest;
      forall k | 0 <= k < n
        ensures run[k] == Step(retryCnt + k + 1, if retryCnt + k + 1 < retry then Jitter(ds[k]) else Normal(scanRate))
      {
        if k > 0 {
          assert run[k] == rest[k - 1] && ds[k] == ds[1..][k - 1];
        }
      }
    }
  }

  /**
   * Three failed reads with a budget of three on a sub-request with a cadence:
   * two fast retries, each after its own jitter, then back to the cadence.
   */
  lemma ThreeFailuresThenCadence(scanRate: int, d1: int, d2: int, d3: int)
    requires scanRate > 0
    ensures Run([true, true, true], [d1, d2, d3], 3, scanRate, 0)
         == [Step(1, Jitter(d1)), Step(2, Jitter(d2)), Step(3, Cadence)]
  {
    ConsecutiveFailures([d1, d2, d3], 3, scanRate, 0);
    assert [true, true, true] == seq(3, _ => true);
  }

  /**
   * The counter is never reset, so once it has reached the budget no later
   * attempt fast-retries, successes in between notwithstanding, as long as
   * the byte does not wrap; the counter never decreases.
   */
  lemma {:induction false} ExhaustedStaysExhausted(failures: seq<bool>, ds: seq<int>, retry: byte, scanRate: int, retryCnt: byte)
    requires |ds| == |failures|
    requires retry <= retryCnt
    requires retryCnt + |failures| <= 0xFF
    ensures var run := Run(failures, ds, retry, scanRate, retryCnt);
      && |run| == |failures|
      && forall k :: 0 <= k < |run| ==> run[k].rearm == Normal(scanRate) && retryCnt <= run[k].retryCnt
    decreases |failures|
  {
    if failures != [] {
      var step := RetryStep(failures[0], retry, scanRate, retryCnt, ds[0]);
      assert retryCnt <= step.retryCnt <= retryCnt + 1;
      var rest := Run(failures[1..], ds[1..], retry, scanRate, step.retryCnt);
      ExhaustedStaysExhausted(failures[1..], ds[1..], retry, scanRate, step.retryCnt);
      var run := Run(failures, ds, retry, scanRate, retryCnt);
      assert run == [step] + rest;
      forall k | 0 <= k < |run|
        ensures run[k].rearm == Normal(scanRate) && retryCnt <= run[k].retryCnt
      {
        if k > 0 {
          assert run[k] == rest[k - 1];
        }
      }
    }
  }

  /**
   * The byte-wide counter wraps: a failure at 255 brings it back to 0, below
   * every budget, so fast retries start again.
   */
  lemma CounterWraps(retry: byte, scanRate: int, d: int)
    requires retry > 0
    ensures RetryStep(true, retry, scanRate, 0xFF, d) == Step(0, Jitter(d))
  {
  }

  /**
   * Without a retry budget (every sub-request AddGatherJob creates) the
   * counter never moves and every attempt, failed or not, resumes the cadence
   * or goes dormant.
   */
  lemma {:induction false} NoBudgetNoRetry(failures: seq<bool>, ds: seq<int>, scanRate: int, retryCnt: byte)
    requires |ds| == |failures|
    ensures var run := Run(failures, ds, 0, scanRate, retryCnt);
      && |run| == |failures|
      && forall k :: 0 <= k < |run| ==> run[k] == Step(retryCnt, Normal(scanRate))
    decreases |failures|
  {
    if failures != [] {
      var rest := Run(failures[1..], ds[1..], 0, scanRate, retryCnt);
      NoBudgetNoRetry(failures[1..], ds[1..], scanRate, retryCnt);
      var run := Run(failures, ds, 0, scanRate, retryCnt);
      assert run == [Step(retryCnt, Normal(scanRate))] + rest;
      forall k | 0 <= k < |run|
        ensures run[k] == Step(retryCnt, Normal(scanRate))
      {
        if k > 0 {
          assert run[k] == rest[k - 1];
        }
      }
    }
  }

  /**
   * Successful reads leave the counter where it is and always resume the
   * cadence, or leave a one-shot sub-request dormant after its single read.
   */
  lemma {:induction false} SuccessesKeepCadence(ds: seq<int>, retry: byte, scanRate: int, retryCnt: byte)
    ensures var run := Run(seq(|ds|, _ => false), ds, retry, scanRate, retryCnt);
      && |run| == |ds|
      && forall k :: 0 <= k < |ds| ==> run[k] == Step(retryCnt, Normal(scanRate))
    decreases |ds|
  {
    var n := |ds|;
    if n > 0 {
      var fs := seq(n, _ => false);
      assert fs[1..] == seq(n - 1, _ => false);
      var rest := Run(fs[1..], ds[1..], retry, scanRate, retryCnt);
      SuccessesKeepCadence(ds[1..], retry, scanRate, retryCnt);
      var run := Run(fs, ds, retry, scanRate, retryCnt);
      assert run == [Step(retryCnt, Normal(scanRate))] + rest;
      forall k | 0 <= k < n
        ensures run[k] == Step(retryCnt, Normal(scanRate))
      {
        if k > 0 {
          assert run[k] == rest[k - 1];
        }
      }
    }
  }
}
