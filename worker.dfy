/** The delayed-delivery worker of worker/internal/rabbitmq/consumer.go:
    handleDelivery and sendWithRetry, run sequentially for one delivery.
    Decoding, the clock, the timers and every backend reply are inputs. */
module Worker {
  import opened Wrappers
  import opened Errors
  import opened Domain
  import opened Ports
  import opened RetryPolicy

  /** The time to live of the cache entries the worker writes: 5 minutes. */
  const CacheTTL: nat := 300

  /** The acknowledgement state of an AMQP delivery. */
  datatype Decision = Pending | Acked | Nacked(requeue: bool)

  /** A queued delivery. `decoded` is what json.Unmarshal made of its body
      (None when the body is malformed). It is settled at most once. */
  class Delivery {
    const decoded: Option<Message>
    var decision: Decision

    constructor (decoded: Option<Message>)
      ensures this.decoded == decoded && decision == Pending
    {
      this.decoded := decoded;
      decision := Pending;
    }

    method Ack()
      requires decision == Pending
      modifies this
      ensures decision == Acked
    {
      decision := Acked;
    }

    method Nack(requeue: bool)
      requires decision == Pending
      modifies this
      ensures decision == Nacked(requeue)
    {
      decision := Nacked(requeue);
    }
  }

  /** The environment's outcome for every event one delivery can meet: the
      wait for ScheduledAt, the three retry waits, the backend fault of each
      of the four UpdateMessageStatus(id, Sent) calls, of the
      UpdateMessageStatus(id, Terminally_Failed) call and of the cache write. */
  datatype Script = Script(
    scheduleWait: Wait,
    retryWaits: seq<Wait>,
    attemptFaults: seq<Option<Error>>,
    markFault: Option<Error>,
    cacheFault: Option<Error>)
  {
    predicate Complete()
    {
      Scripted(retryWaits, attemptFaults)
    }
  }

  /** What each attempt's UpdateMessageStatus returns, given the faults and
      whether the record exists (failed attempts change nothing, so this is
      the same for every attempt). */
  function Replies(faults: seq<Option<Error>>, present: bool): (replies: seq<Option<Error>>)
    ensures |replies| == |faults|
    ensures forall i :: 0 <= i < |faults| ==> replies[i] == RecordReply(faults[i], present)
  {
    seq(|faults|, i requires 0 <= i < |faults| => RecordReply(faults[i], present))
  }

  /** The cache after a best-effort write: unchanged when absent or when the write fails. */
  function CacheWrite(cache: Option<map<string, CacheEntry>>, id: string, status: string, fault: Option<Error>): Option<map<string, CacheEntry>>
  {
    match cache
    case None => None
    case Some(entries) => Some(if fault.None? then entries[id := CacheEntry(status, CacheTTL)] else entries)
  }

  /** The effects of handling one delivery: how it was settled, the store's
      records, the cache's entries (None when there is no cache) and the
      attempts made. */
  datatype Effects = Effects(
    decision: Decision,
    rows: map<string, Message>,
    cache: Option<map<string, CacheEntry>>,
    attempts: seq<Attempt>)

  /** handleDelivery as a function of its inputs and the state before it. */
  function Handle(decoded: Option<Message>, now: int, script: Script,
                  rows: map<string, Message>, cache: Option<map<string, CacheEntry>>): Effects
    requires script.Complete()
  {
    match decoded
    case None => Effects(Nacked(false), rows, cache, [])
    case Some(msg) =>
      var delay := msg.scheduledAt - now;
      if delay > 0 && script.scheduleWait == ContextDone then Effects(Nacked(true), rows, cache, [])
      else
        var start := if delay > 0 then msg.scheduledAt else now;
        var run := SendWithRetry(script.retryWaits, Replies(script.attemptFaults, msg.id in rows), start);
        if run.err.Some? then
          var marked := if script.markFault.None? then WithStatus(rows, msg.id, StatusTerminallyFailed) else rows;
          Effects(Acked, marked, CacheWrite(cache, msg.id, StatusTerminallyFailed, script.cacheFault), run.attempts)
        else
          Effects(Acked, WithStatus(rows, msg.id, StatusSent), CacheWrite(cache, msg.id, StatusSent, script.cacheFault), run.attempts)
  }

  /** MessageQueueConsumer with the store and the optional cache it writes to. */
  class Consumer {
    const repo: Repository
    const cache: Option<StatusCache>

    constructor (repo: Repository, cache: Option<StatusCache>)
      ensures this.repo == repo && this.cache == cache
    {
      this.repo := repo;
      this.cache := cache;
    }

    function CacheFrame(): set<object>
    {
      if cache.Some? then {cache.value} else {}
    }

    /** The cache's entries, or None when the consumer has no cache. */
    function CacheView(): Option<map<string, CacheEntry>>
      reads CacheFrame()
    {
      if cache.Some? then Some(cache.value.entries) else None
    }

    /** Up to four attempts to mark msg Sent, the first immediately and the
        others after the waits in RetryDelays. `start` is the clock at entry. */
    method SendWithRetry(msg: Message, waits: seq<Wait>, faults: seq<Option<Error>>, ghost start: int)
      returns (err: Option<Error>, ghost attempts: seq<Attempt>)
      requires repo.Valid() && |waits| == |RetryDelays| && |faults| == MaxAttempts
      modifies repo
      ensures repo.Valid()
      ensures var run := RetryPolicy.SendWithRetry(waits, Replies(faults, msg.id in old(repo.rows)), start);
        err == run.err && attempts == run.attempts
      ensures repo.rows == if err.None? then WithStatus(old(repo.rows), msg.id, StatusSent) else old(repo.rows)
    {
      ghost var replies := Replies(faults, msg.id in repo.rows);
      ghost var clock := start;
      var lastErr: Option<Error> := None;
      attempts := [];
      var attempt := 0;
      while attempt < MaxAttempts
        invariant 0 <= attempt <= MaxAttempts
        invariant repo.Valid() && repo.rows == old(repo.rows)
        invariant attempt > 0 ==> lastErr.Some?
        invariant var whole, rest := Retry(waits, replies, 0, None, start), Retry(waits, replies, attempt, lastErr, clock);
          whole.attempts == attempts + rest.attempts && whole.err == rest.err
      {
        ghost var rest := Retry(waits, replies, attempt, lastErr, clock);
        if attempt > 0 {
          if waits[attempt - 1] == ContextDone {
            assert rest == RetryRun([], Some(Canceled));
            return Some(Canceled), attempts;
          }
          clock := clock + RetryDelays[attempt - 1];
        }
        var e := repo.UpdateMessageStatus(msg.id, StatusSent, faults[attempt]);
        assert e == replies[attempt];
        ghost var here := Attempt(attempt, WaitBefore(attempt), clock, e);
        attempts := attempts + [here];
        if e.None? {
          assert rest == RetryRun([here], None);
          return None, attempts;
        }
        assert rest.attempts == [here] + Retry(waits, replies, attempt + 1, e, clock).attempts;
        lastErr := e;
        attempt := attempt + 1;
      }
      err := lastErr;
    }

    /** handleDelivery: decode, wait for ScheduledAt, retry, record the
        terminal status in the store and the cache, and settle the delivery once. */
    method HandleDelivery(d: Delivery, now: int, script: Script) returns (ghost attempts: seq<Attempt>)
      requires repo.Valid() && d.decision == Pending && script.Complete()
      modifies repo, d, CacheFrame()
      ensures repo.Valid()
      ensures var e := Handle(d.decoded, now, script, old(repo.rows), old(CacheView()));
        d.decision == e.decision && repo.rows == e.rows && CacheView() == e.cache && attempts == e.attempts
    {
      if d.decoded.None? {
        d.Nack(false);
        return [];
      }
      var msg := d.decoded.value;
      var delay := msg.scheduledAt - now;
      ghost var start := now;
      if delay > 0 {
        if script.scheduleWait == ContextDone {
          d.Nack(true);
          return [];
        }
        start := msg.scheduledAt;
      }
      var err;
      err, attempts := SendWithRetry(msg, script.retryWaits, script.attemptFaults, start);
      if err.Some? {
        // A failure to record the terminal status is only logged.
        var _ := repo.UpdateMessageStatus(msg.id, StatusTerminallyFailed, script.markFault);
        if cache.Some? {
          var _ := cache.value.SetStatus(msg.id, StatusTerminallyFailed, CacheTTL, script.cacheFault);
        }
        d.Ack();
        return;
      }
      if cache.Some? {
        var _ := cache.value.SetStatus(msg.id, StatusSent, CacheTTL, script.cacheFault);
      }
      d.Ack();
    }
  }

  // ---------------------------------------------------------------------
  // What handleDelivery promises, for every delivery and every script.

  /** Every delivery is settled: acknowledged, requeued or discarded. */
  lemma AlwaysSettled(decoded: Option<Message>, now: int, script: Script,
                      rows: map<string, Message>, cache: Option<map<string, CacheEntry>>)
    requires script.Complete()
    ensures var e := Handle(decoded, now, script, rows, cache);
      e.decision != Pending
      && (e.decision == Acked <==> decoded.Some? && !(decoded.value.scheduledAt > now && script.scheduleWait == ContextDone))
  {
  }

  /** A body that does not decode is discarded, not requeued, and nothing is written. */
  lemma MalformedDiscarded(now: int, script: Script,
                           rows: map<string, Message>, cache: Option<map<string, CacheEntry>>)
    requires script.Complete()
    ensures Handle(None, now, script, rows, cache) == Effects(Nacked(false), rows, cache, [])
  {
  }

  /** The delivery is requeued exactly when the worker is cancelled while
      waiting for a ScheduledAt in the future; then no attempt is made and
      nothing is written. */
  lemma RequeuedOnlyWhenCancelledBeforeSchedule(decoded: Option<Message>, now: int, script: Script,
                                                rows: map<string, Message>, cache: Option<map<string, CacheEntry>>)
    requires script.Complete()
    ensures var e := Handle(decoded, now, script, rows, cache);
      && (e.decision == Nacked(true) <==>
            decoded.Some? && decoded.value.scheduledAt > now && script.scheduleWait == ContextDone)
      && (e.decision == Nacked(true) ==> e.rows == rows && e.cache == cache && e.attempts == [])
  {
  }

  /** A message that is already due is attempted at once: the first attempt
      is made at `now`, whatever the schedule wait would have done. */
  lemma DueMessageNotDelayed(msg: Message, now: int, script: Script, wait: Wait,
                             rows: map<string, Message>, cache: Option<map<string, CacheEntry>>)
    requires script.Complete() && msg.scheduledAt <= now
    ensures var e := Handle(Some(msg), now, script, rows, cache);
      && |e.attempts| > 0 && e.attempts[0].at == now && e.attempts[0].waited == None
      && e == Handle(Some(msg), now, script.(scheduleWait := wait), rows, cache)
  {
    WaitSchedule(script.retryWaits, Replies(script.attemptFaults, msg.id in rows), now);
  }

  /** No attempt is made before ScheduledAt, nor before the delivery arrived. */
  lemma NoAttemptBeforeSchedule(msg: Message, now: int, script: Script,
                                rows: map<string, Message>, cache: Option<map<string, CacheEntry>>)
    requires script.Complete()
    ensures var e := Handle(Some(msg), now, script, rows, cache);
      forall i :: 0 <= i < |e.attempts| ==> e.attempts[i].at >= msg.scheduledAt && e.attempts[i].at >= now
  {
    var start := if msg.scheduledAt - now > 0 then msg.scheduledAt else now;
    WaitSchedule(script.retryWaits, Replies(script.attemptFaults, msg.id in rows), start);
  }

  /** When the retry loop fails, for any reason including a cancelled retry
      wait, the message is marked Terminally_Failed in the store (unless that
      write fails) and in the cache (if any, unless that write fails), and the
      delivery is acknowledged, not requeued. */
  lemma FailureMarksTerminallyFailed(msg: Message, now: int, script: Script,
                                     rows: map<string, Message>, cache: Option<map<string, CacheEntry>>)
    requires script.Complete()
    requires !(msg.scheduledAt > now && script.scheduleWait == ContextDone)
    requires Verdict(script.retryWaits, Replies(script.attemptFaults, msg.id in rows)).Some?
    ensures var e := Handle(Some(msg), now, script, rows, cache);
      && e.decision == Acked
      && e.rows == (if script.markFault.None? then WithStatus(rows, msg.id, StatusTerminallyFailed) else rows)
      && e.cache == CacheWrite(cache, msg.id, StatusTerminallyFailed, script.cacheFault)
  {
    var start := if msg.scheduledAt - now > 0 then msg.scheduledAt else now;
    SendWithRetryClosedForm(script.retryWaits, Replies(script.attemptFaults, msg.id in rows), start);
  }

  /** When an attempt succeeds, the store holds Sent, the cache (if any,
      unless the write fails) holds Sent, and the delivery is acknowledged. */
  lemma SuccessMarksSent(msg: Message, now: int, script: Script,
                         rows: map<string, Message>, cache: Option<map<string, CacheEntry>>)
    requires script.Complete()
    requires !(msg.scheduledAt > now && script.scheduleWait == ContextDone)
    requires Verdict(script.retryWaits, Replies(script.attemptFaults, msg.id in rows)).None?
    ensures var e := Handle(Some(msg), now, script, rows, cache);
      && e.decision == Acked
      && msg.id in e.rows && e.rows == WithStatus(rows, msg.id, StatusSent)
      && e.cache == CacheWrite(cache, msg.id, StatusSent, script.cacheFault)
  {
    var start := if msg.scheduledAt - now > 0 then msg.scheduledAt else now;
    var replies := Replies(script.attemptFaults, msg.id in rows);
    SendWithRetryClosedForm(script.retryWaits, replies, start);
    assert replies[FirstSuccess(replies)].None?;
  }

  /** A cancellation during a retry wait is not a requeue: the first attempt
      failed, the context was done during the 10 s wait, and the message ends
      Terminally_Failed with the delivery acknowledged. */
  lemma CancelDuringRetryIsTerminal(msg: Message, now: int, script: Script,
                                    rows: map<string, Message>, cache: Option<map<string, CacheEntry>>)
    requires script.Complete() && msg.scheduledAt <= now
    requires script.attemptFaults[0].Some? && script.retryWaits[0] == ContextDone
    ensures var e := Handle(Some(msg), now, script, rows, cache);
      && e.decision == Acked && |e.attempts| == 1
      && e.rows == (if script.markFault.None? then WithStatus(rows, msg.id, StatusTerminallyFailed) else rows)
  {
    var replies := Replies(script.attemptFaults, msg.id in rows);
    SendWithRetryClosedForm(script.retryWaits, replies, now);
  }

  /** The worker writes only the two terminal statuses, only for the
      delivered message's id, and creates no record: every other record is
      unchanged, every record stays filed under its own id, and the cache
      gains only terminal entries with a 5 minute TTL. */
  lemma WritesOnlyTerminalStatus(decoded: Option<Message>, now: int, script: Script,
                                 rows: map<string, Message>, cache: Option<map<string, CacheEntry>>)
    requires script.Complete()
    ensures var e := Handle(decoded, now, script, rows, cache);
      && e.rows.Keys == rows.Keys
      && (forall k :: k in rows && e.rows[k] != rows[k] ==>
            decoded.Some? && k == decoded.value.id && e.rows[k] == rows[k].(status := e.rows[k].status)
            && IsTerminal(e.rows[k].status))
      && (Filed(rows) ==> Filed(e.rows))
      && (e.cache.Some? <==> cache.Some?)
      && (cache.Some? ==> forall k :: k in e.cache.value && (k !in cache.value || e.cache.value[k] != cache.value[k]) ==>
            decoded.Some? && k == decoded.value.id && IsTerminal(e.cache.value[k].status) && e.cache.value[k].ttl == CacheTTL)
  {
  }

  /** The concrete run: a message due in 2 s whose first two attempts fail is
      attempted at +2 s, +12 s and +52 s, and ends Sent in the store and the cache. */
  lemma TwoFailuresThenSent(msg: Message, now: int, cache: map<string, CacheEntry>)
    requires msg.scheduledAt == now + 2
    ensures var script := Script(TimerFired, [TimerFired, TimerFired, TimerFired],
                                 [Some(Backend("down")), Some(Backend("down")), None, None], None, None);
      var rows := map[msg.id := msg];
      var e := Handle(Some(msg), now, script, rows, Some(cache));
      && e.decision == Acked
      && |e.attempts| == 3
      && e.attempts[0].at == now + 2 && e.attempts[1].at == now + 12 && e.attempts[2].at == now + 52
      && e.rows[msg.id].status == StatusSent
      && e.cache == Some(cache[msg.id := CacheEntry(StatusSent, CacheTTL)])
  {
    var script := Script(TimerFired, [TimerFired, TimerFired, TimerFired],
                         [Some(Backend("down")), Some(Backend("down")), None, None], None, None);
    var replies := Replies(script.attemptFaults, true);
    assert replies == [Some(Backend("down")), Some(Backend("down")), None, None];
    WaitSchedule(script.retryWaits, replies, now + 2);
    SendWithRetryClosedForm(script.retryWaits, replies, now + 2);
  }

  /** Redelivery is not idempotent: a message already marked
      Terminally_Failed is attempted again and can end up Sent. */
  lemma RedeliveryOverwritesTerminalStatus(msg: Message, now: int, script: Script)
    requires script.Complete() && msg.scheduledAt <= now
    requires msg.status == StatusTerminallyFailed && script.attemptFaults[0].None?
    ensures var e := Handle(Some(msg), now, script, map[msg.id := msg], None);
      e.rows[msg.id].status == StatusSent && |e.attempts| == 1
  {
    var replies := Replies(script.attemptFaults, true);
    assert replies[0] == None;
    SendWithRetryClosedForm(script.retryWaits, replies, now);
  }
}
