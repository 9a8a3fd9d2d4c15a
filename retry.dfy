/** The retry policy of sendWithRetry in worker/internal/rabbitmq/consumer.go,
    as a specification: which attempts are made, after which waits, at what
    time, and what the loop returns. Each attempt's outcome (the error
    UpdateMessageStatus returns, or None) and each wait's outcome (the timer
    fired, or the context was done first) are inputs. */
module RetryPolicy {
  import opened Wrappers
  import opened Errors

  /** The waits before the second, third and fourth attempt, in seconds. */
  const RetryDelays: seq<nat> := [10, 40, 90]

  /** One immediate attempt, then one per delay. */
  const MaxAttempts: nat := |RetryDelays| + 1

  /** How a wait ends: the `select` between the timer and ctx.Done(). */
  datatype Wait = TimerFired | ContextDone

  /** One call of UpdateMessageStatus(id, Sent): its 0-based index, the wait
      that preceded it (None for the first), the clock when it was made and
      what it returned. */
  datatype Attempt = Attempt(index: nat, waited: Option<nat>, at: int, err: Option<Error>)

  /** The attempts made, in order, and the error sendWithRetry returns. */
  datatype RetryRun = RetryRun(attempts: seq<Attempt>, err: Option<Error>)

  /** Inputs that give an outcome for every wait and every attempt the loop can reach. */
  predicate Scripted(waits: seq<Wait>, replies: seq<Option<Error>>)
  {
    |waits| == |RetryDelays| && |replies| == MaxAttempts
  }

  /** The loop of sendWithRetry from iteration `attempt` on, with `lastErr`
      the error of the previous attempt and `clock` the time it was made
      (the start time before the first). */
  function Retry(waits: seq<Wait>, replies: seq<Option<Error>>, attempt: nat, lastErr: Option<Error>, clock: int): RetryRun
    requires Scripted(waits, replies) && attempt <= MaxAttempts
    decreases MaxAttempts - attempt
  {
    if attempt == MaxAttempts then RetryRun([], lastErr)
    else if attempt > 0 && waits[attempt - 1] == ContextDone then RetryRun([], Some(Canceled))
    else
      var waited := if attempt == 0 then None else Some(RetryDelays[attempt - 1]);
      var at := if attempt == 0 then clock else clock + RetryDelays[attempt - 1];
      var here := Attempt(attempt, waited, at, replies[attempt]);
      if replies[attempt].None? then RetryRun([here], None)
      else
        var rest := Retry(waits, replies, attempt + 1, replies[attempt], at);
        RetryRun([here] + rest.attempts, rest.err)
  }

  /** The whole loop, started at time `start`. */
  function SendWithRetry(waits: seq<Wait>, replies: seq<Option<Error>>, start: int): RetryRun
    requires Scripted(waits, replies)
  {
    Retry(waits, replies, 0, None, start)
  }

  // ---------------------------------------------------------------------
  // An independent, closed-form description of the same loop.

  /** The index of the first successful reply, or |replies| when all fail. */
  function FirstSuccess(replies: seq<Option<Error>>): (k: nat)
    ensures k <= |replies|
    ensures forall j :: 0 <= j < k ==> replies[j].Some?
    ensures k < |replies| ==> replies[k].None?
  {
    if replies == [] then 0
    else if replies[0].None? then 0
    else 1 + FirstSuccess(replies[1..])
  }

  /** The index of the first wait cut short, or |waits| when every timer fires. */
  function FirstInterrupt(waits: seq<Wait>): (k: nat)
    ensures k <= |waits|
    ensures forall j :: 0 <= j < k ==> waits[j].TimerFired?
    ensures k < |waits| ==> waits[k].ContextDone?
  {
    if waits == [] then 0
    else if waits[0].ContextDone? then 0
    else 1 + FirstInterrupt(waits[1..])
  }

  /** Attempt k (k > 0) follows wait k - 1, so the loop stops after the
      first success or before the attempt that follows the first interrupted wait. */
  function AttemptsMade(waits: seq<Wait>, replies: seq<Option<Error>>): nat
  {
    var s, c := FirstSuccess(replies), FirstInterrupt(waits);
    (if s <= c then s else c) + 1
  }

  /** nil when some attempt succeeds before any wait is interrupted; the
      context error when a wait is interrupted first; otherwise the last
      attempt's error. */
  function Verdict(waits: seq<Wait>, replies: seq<Option<Error>>): Option<Error>
    requires Scripted(waits, replies)
  {
    var s, c := FirstSuccess(replies), FirstInterrupt(waits);
    if s <= c then None
    else if c < |waits| then Some(Canceled)
    else replies[MaxAttempts - 1]
  }

  /** The delay that precedes attempt k. */
  function WaitBefore(k: nat): Option<nat>
    requires k < MaxAttempts
  {
    if k == 0 then None else Some(RetryDelays[k - 1])
  }

  /** Attempts 0..k-1 have all failed, after waits that all fired. */
  predicate FailedSoFar(waits: seq<Wait>, replies: seq<Option<Error>>, k: nat, lastErr: Option<Error>)
    requires Scripted(waits, replies) && k <= MaxAttempts
  {
    && (forall j :: 0 <= j < k ==> replies[j].Some?)
    && (forall j :: 0 <= j < k - 1 ==> waits[j] == TimerFired)
    && (k > 0 ==> lastErr == replies[k - 1])
  }

  /** From iteration k on, the loop makes as many attempts as the closed
      form leaves and returns its verdict. The loop has at most MaxAttempts
      iterations, so Dafny proves this by unfolding Retry; no written-out
      induction is needed. */
  lemma RetryCountFrom(waits: seq<Wait>, replies: seq<Option<Error>>, k: nat, lastErr: Option<Error>, clock: int)
    requires Scripted(waits, replies) && k <= MaxAttempts
    requires FailedSoFar(waits, replies, k, lastErr)
    ensures k <= AttemptsMade(waits, replies)
    ensures var run := Retry(waits, replies, k, lastErr, clock);
      |run.attempts| == AttemptsMade(waits, replies) - k && run.err == Verdict(waits, replies)
  {
  }

  /** From iteration k on, attempt i is number k + i, returns reply k + i,
      follows its scheduled delay, and is made that delay after the previous
      one, never before `clock`. By induction on MaxAttempts - k. */
  lemma {:induction false} RetryShapeFrom(waits: seq<Wait>, replies: seq<Option<Error>>, k: nat, lastErr: Option<Error>, clock: int)
    requires Scripted(waits, replies) && k <= MaxAttempts
    ensures var run := Retry(waits, replies, k, lastErr, clock);
      && |run.attempts| <= MaxAttempts - k
      && (forall i :: 0 <= i < |run.attempts| ==>
            && run.attempts[i].index == k + i
            && run.attempts[i].err == replies[k + i]
            && run.attempts[i].waited == WaitBefore(k + i))
      && (|run.attempts| > 0 ==> run.attempts[0].at == (if k == 0 then clock else clock + RetryDelays[k - 1]))
      && (forall i :: 0 < i < |run.attempts| ==> run.attempts[i].at == run.attempts[i - 1].at + RetryDelays[k + i - 1])
      && (forall i :: 0 <= i < |run.attempts| ==> run.attempts[i].at >= clock)
    decreases MaxAttempts - k
  {
    if k < MaxAttempts && !(k > 0 && waits[k - 1] == ContextDone) && replies[k].Some? {
      var at := if k == 0 then clock else clock + RetryDelays[k - 1];
      RetryShapeFrom(waits, replies, k + 1, replies[k], at);
    }
  }

  /** The loop from iteration k on, once attempts 0..k-1 have all failed
      after waits that all fired, agrees with the closed form. */
  lemma RetryFrom(waits: seq<Wait>, replies: seq<Option<Error>>, k: nat, lastErr: Option<Error>, clock: int)
    requires Scripted(waits, replies) && k <= MaxAttempts
    requires FailedSoFar(waits, replies, k, lastErr)
    ensures k <= AttemptsMade(waits, replies)
    ensures var run := Retry(waits, replies, k, lastErr, clock);
      && |run.attempts| == AttemptsMade(waits, replies) - k
      && run.err == Verdict(waits, replies)
      && (forall i :: 0 <= i < |run.attempts| ==>
            && run.attempts[i].index == k + i
            && run.attempts[i].err == replies[k + i]
            && run.attempts[i].waited == WaitBefore(k + i))
      && (|run.attempts| > 0 ==> run.attempts[0].at == (if k == 0 then clock else clock + RetryDelays[k - 1]))
      && (forall i :: 0 < i < |run.attempts| ==> run.attempts[i].at == run.attempts[i - 1].at + RetryDelays[k + i - 1])
      && (forall i :: 0 <= i < |run.attempts| ==> run.attempts[i].at >= clock)
  {
    RetryCountFrom(waits, replies, k, lastErr, clock);
    RetryShapeFrom(waits, replies, k, lastErr, clock);
  }

  // ---------------------------------------------------------------------
  // What sendWithRetry promises, for every script.

  /** The loop makes exactly the attempts the closed form says and returns its verdict. */
  lemma SendWithRetryClosedForm(waits: seq<Wait>, replies: seq<Option<Error>>, start: int)
    requires Scripted(waits, replies)
    ensures var run := SendWithRetry(waits, replies, start);
      |run.attempts| == AttemptsMade(waits, replies) && run.err == Verdict(waits, replies)
  {
    RetryFrom(waits, replies, 0, None, start);
  }

  /** At least one and at most len(retryDelays) + 1 = 4 store calls; the
      k-th is attempt k and returns the k-th reply. */
  lemma AttemptsBounded(waits: seq<Wait>, replies: seq<Option<Error>>, start: int)
    requires Scripted(waits, replies)
    ensures var run := SendWithRetry(waits, replies, start);
      && 1 <= |run.attempts| <= MaxAttempts
      && forall i :: 0 <= i < |run.attempts| ==> run.attempts[i].index == i && run.attempts[i].err == replies[i]
  {
    RetryFrom(waits, replies, 0, None, start);
  }

  /** Attempt k + 1 is made only if attempt k failed and the wait between them fired. */
  lemma NextAttemptOnlyAfterFailure(waits: seq<Wait>, replies: seq<Option<Error>>, start: int)
    requires Scripted(waits, replies)
    ensures var run := SendWithRetry(waits, replies, start);
      forall i :: 0 <= i < |run.attempts| - 1 ==> run.attempts[i].err.Some? && waits[i] == TimerFired
  {
    RetryFrom(waits, replies, 0, None, start);
  }

  /** The first attempt is immediate; attempt i > 0 comes retryDelays[i-1]
      seconds after attempt i - 1, so no attempt is made before `start`. */
  lemma WaitSchedule(waits: seq<Wait>, replies: seq<Option<Error>>, start: int)
    requires Scripted(waits, replies)
    ensures var run := SendWithRetry(waits, replies, start);
      && run.attempts[0].waited == None && run.attempts[0].at == start
      && (forall i :: 0 < i < |run.attempts| ==>
            run.attempts[i].waited == Some(RetryDelays[i - 1])
            && run.attempts[i].at == run.attempts[i - 1].at + RetryDelays[i - 1])
      && (forall i :: 0 <= i < |run.attempts| ==> run.attempts[i].at >= start)
  {
    RetryFrom(waits, replies, 0, None, start);
  }

  /** The delays grow strictly: 10 s < 40 s < 90 s. */
  lemma DelaysIncreasing()
    ensures forall i, j :: 0 <= i < j < |RetryDelays| ==> RetryDelays[i] < RetryDelays[j]
  {
  }

  /** nil exactly when the last attempt made succeeded; otherwise either the
      last attempt's error, when all four were made or it was the last one,
      or the context error, when the wait after it was cut short. */
  lemma SendWithRetryResult(waits: seq<Wait>, replies: seq<Option<Error>>, start: int)
    requires Scripted(waits, replies)
    ensures var run := SendWithRetry(waits, replies, start);
      var n := |run.attempts|;
      && n > 0
      && (run.err.None? <==> run.attempts[n - 1].err.None?)
      && (run.attempts[n - 1].err.Some? && n == MaxAttempts ==> run.err == run.attempts[n - 1].err)
      && (run.attempts[n - 1].err.Some? && n < MaxAttempts ==> waits[n - 1] == ContextDone && run.err == Some(Canceled))
  {
    RetryFrom(waits, replies, 0, None, start);
  }

  /** Once a wait is cut short no further attempt is made, and the loop
      returns the context error unless an earlier attempt succeeded. */
  lemma InterruptStopsRetries(waits: seq<Wait>, replies: seq<Option<Error>>, start: int, j: nat)
    requires Scripted(waits, replies) && j < |waits| && waits[j] == ContextDone
    ensures var run := SendWithRetry(waits, replies, start);
      && |run.attempts| <= j + 1
      && ((forall i :: 0 <= i <= j ==> replies[i].Some?) ==> run.err == Some(Canceled))
  {
    RetryFrom(waits, replies, 0, None, start);
  }

  /** A delivery action that always fails is tried exactly four times and
      the last failure is returned. */
  lemma AlwaysFailing(waits: seq<Wait>, replies: seq<Option<Error>>, start: int)
    requires Scripted(waits, replies)
    requires forall i :: 0 <= i < |waits| ==> waits[i] == TimerFired
    requires forall i :: 0 <= i < |replies| ==> replies[i].Some?
    ensures var run := SendWithRetry(waits, replies, start);
      |run.attempts| == 4 && run.err == replies[3]
  {
    RetryFrom(waits, replies, 0, None, start);
  }

  /** A delivery action that fails once and then succeeds is tried twice,
      the second time 10 seconds after the first, and the loop returns nil. */
  lemma FailsOnceThenSucceeds(waits: seq<Wait>, replies: seq<Option<Error>>, start: int)
    requires Scripted(waits, replies)
    requires waits[0] == TimerFired && replies[0].Some? && replies[1].None?
    ensures var run := SendWithRetry(waits, replies, start);
      |run.attempts| == 2 && run.err == None && run.attempts[1].at == start + 10
  {
    RetryFrom(waits, replies, 0, None, start);
  }
}
