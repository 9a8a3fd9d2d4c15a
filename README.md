# DelayedNotifier: a Dafny model of the delayed-delivery worker

DelayedNotifier schedules notification messages for later delivery. An HTTP
API stores each message with status `Scheduled`. A worker consumes queued
messages, waits until each one's `ScheduledAt`, then tries to deliver it: one
immediate attempt, then retries after 10 s, 40 s and 90 s. It records a
terminal status (`Sent` or `Terminally_Failed`) in the store and, when there
is one, the status cache. Finally it settles the queue delivery exactly once:
ack, nack with requeue, or nack with discard.

This project models that worker sequentially, for one delivery at a time,
together with the producer use case, the domain vocabulary and the
configuration defaults. It proves what the worker promises for every possible
environment.

Files and modules:

- `wrappers.dfy` (`Wrappers`): `Option`, used for Go's nil-able results and for the optional cache.
- `errors.dfy` (`Errors`): the errors the core can return.
- `domain.dfy` (`Domain`): the four status strings, `uint32`, and the `Message` record.
- `config.dfy` (`Config`): `NewConfig` as a function of the environment map.
- `ports.dfy` (`Ports`): the store (`Repository`) and the cache (`StatusCache`).
  Each is a class over a map keyed by message id. The store's invariant
  `Filed` says every record is filed under its own id. Every store operation
  keeps it, and so does the worker (`Worker.WritesOnlyTerminalStatus`).
- `usecases.dfy` (`Usecases`): `MessageUsecases` over a repository.
- `retry.dfy` (`RetryPolicy`): `sendWithRetry` as a pure specification.
  `Retry` follows the Go loop step by step. A closed form (`FirstSuccess`,
  `FirstInterrupt`, `AttemptsMade`, `Verdict`) says independently which
  attempts happen and what is returned. The lemma `RetryFrom` shows the two
  agree. The count and the verdict (`RetryCountFrom`) are checked by Dafny
  unfolding the bounded loop. The shape and timing of each attempt
  (`RetryShapeFrom`) are proved by induction over the remaining iterations.
- `worker.dfy` (`Worker`): the delivery handle, the consumer class and its
  imperative `SendWithRetry` loop and `HandleDelivery`. `Handle` is the
  function that specifies `HandleDelivery`; the lemmas state its outcomes.

How the environment enters the model:

- The decode result of a delivery's body is the `Delivery.decoded` field,
  an `Option<Message>`.
- The clock is the input `now`, in seconds. `ScheduledAt` is an instant in
  the same unit.
- Each wait (for `ScheduledAt`, and before each retry) ends with the timer
  firing or the context being done first. This is `Wait`.
- Every store or cache call takes a `fault`. `None` means the backend itself
  did not fail. The call's result then follows from the map's contents.
- A `Script` gives all of these for one delivery.
- `uuid.NewString` is the `newId` input of the use case.

## Model

| member | source | states |
|---|---|---|
| `RetryPolicy.RetryFrom` | worker/internal/rabbitmq/consumer.go:184-212 | Once attempts 0..k-1 have failed after waits that all fired, the loop from iteration k makes exactly the attempts the closed form predicts. It returns the closed-form verdict. Attempt i is number k+i, returns reply k+i, follows the delay `retryDelays[k+i-1]`, and happens no earlier than the previous one. |
| `RetryPolicy.RetryCountFrom` | worker/internal/rabbitmq/consumer.go:186-211 | Once attempts 0..k-1 have failed after waits that all fired, the loop from iteration k makes exactly the attempts the closed form leaves, and returns the closed-form verdict. |
| `RetryPolicy.RetryShapeFrom` | worker/internal/rabbitmq/consumer.go:188-208 | From iteration k, the i-th attempt is attempt k+i. It returns reply k+i and follows the delay `retryDelays[k+i-1]` after the previous attempt. No attempt is made before the clock at entry. |
| `RetryPolicy.SendWithRetryClosedForm` | worker/internal/rabbitmq/consumer.go:184-212 | The number of attempts is min(first success, first interrupted wait) + 1. The result is nil on success, the context error after an interrupted wait, and otherwise the last attempt's error. |
| `RetryPolicy.AttemptsBounded` | worker/internal/rabbitmq/consumer.go:186-188 | At least 1 and at most len(retryDelays)+1 = 4 calls to `UpdateMessageStatus(id, Sent)`. The i-th call is attempt i. |
| `RetryPolicy.NextAttemptOnlyAfterFailure` | worker/internal/rabbitmq/consumer.go:188-208 | Attempt k+1 is made only if attempt k failed and the wait between them fired. |
| `RetryPolicy.WaitSchedule` | worker/internal/rabbitmq/consumer.go:189-198 | The first attempt has no wait and happens at the start time. Attempt i>0 follows a wait of `retryDelays[i-1]` after attempt i-1. No attempt happens before the start time. |
| `RetryPolicy.DelaysIncreasing` | worker/internal/rabbitmq/consumer.go:22-26 | The delays 10 s < 40 s < 90 s are strictly increasing. |
| `RetryPolicy.SendWithRetryResult` | worker/internal/rabbitmq/consumer.go:203-211 | nil exactly when the last attempt made succeeded. After four failed attempts, the result is the last attempt's error. A failed attempt followed by no further attempt means the next wait was cut short and the result is the context error. |
| `RetryPolicy.InterruptStopsRetries` | worker/internal/rabbitmq/consumer.go:193-197 | After an interrupted wait j, no attempt beyond j+1 is made. If no attempt had succeeded by then, the context error is returned. |
| `RetryPolicy.AlwaysFailing` | worker/internal/rabbitmq/consumer.go:186-211 | When every attempt fails and every timer fires, exactly 4 attempts are made and the fourth error is returned. |
| `RetryPolicy.FailsOnceThenSucceeds` | worker/internal/rabbitmq/consumer.go:188-204 | When the action fails once and then succeeds, exactly 2 attempts are made, 10 s apart, and nil is returned. |
| `Worker.Delivery.Ack` | worker/internal/rabbitmq/consumer.go:166 | Settles a pending delivery as acknowledged. It can be called only once. |
| `Worker.Delivery.Nack` | worker/internal/rabbitmq/consumer.go:140 | Settles a pending delivery as rejected, with or without requeue. It can be called only once. |
| `Worker.Consumer.SendWithRetry` | worker/internal/rabbitmq/consumer.go:184-212 | The loop returns the error the retry specification gives and makes its attempts. The store changes only on a successful attempt, which sets the record's status to `Sent`. |
| `Worker.Consumer.HandleDelivery` | worker/internal/rabbitmq/consumer.go:125-169 | The settlement, the store, the cache and the attempts are those `Handle` gives for the delivery, the clock, the script and the prior state. The delivery is settled exactly once: it is pending on entry, each settlement requires a pending delivery, and `Handle` never leaves it pending. |
| `Worker.AlwaysSettled` | worker/internal/rabbitmq/consumer.go:125-169 | Every delivery ends acked or nacked. It is acked exactly when its body decoded and it was not cancelled during the schedule wait. |
| `Worker.MalformedDiscarded` | worker/internal/rabbitmq/consumer.go:127-130 | A body that does not decode is nacked without requeue. Nothing is written and no attempt is made. |
| `Worker.RequeuedOnlyWhenCancelledBeforeSchedule` | worker/internal/rabbitmq/consumer.go:133-144 | The delivery is requeued if and only if `ScheduledAt` is in the future and the context is done before the timer. A requeued delivery has no write and no attempt. |
| `Worker.DueMessageNotDelayed` | worker/internal/rabbitmq/consumer.go:133-134 | A message with `ScheduledAt` not in the future is first attempted at `now` with no wait. The schedule wait's outcome does not matter for it. |
| `Worker.NoAttemptBeforeSchedule` | worker/internal/rabbitmq/consumer.go:133-144 | No attempt is made before `ScheduledAt` or before the delivery was handled. |
| `Worker.FailureMarksTerminallyFailed` | worker/internal/rabbitmq/consumer.go:147-158 | Any retry failure writes `Terminally_Failed` to the store unless that write fails, whose failure is ignored. It also writes `Terminally_Failed` with a 5-minute TTL to the cache, if present, unless that write fails. Then it acks. |
| `Worker.SuccessMarksSent` | worker/internal/rabbitmq/consumer.go:161-168 | On success the store record holds `Sent` and the cache, if present, holds `Sent` with a 5-minute TTL unless that write fails. The delivery is acked. |
| `Worker.CancelDuringRetryIsTerminal` | worker/internal/rabbitmq/consumer.go:147-157 | Cancellation during a retry wait is not a requeue. After one failed attempt the worker issues a `Terminally_Failed` store write with the already-cancelled context. That write takes effect only if it succeeds. Either way the delivery is acked. |
| `Worker.WritesOnlyTerminalStatus` | worker/internal/rabbitmq/consumer.go:150-163 | The worker creates and deletes no records. It changes only the delivered message's status, only to `Sent` or `Terminally_Failed`, and keeps every record filed under its own id. The cache gains only entries with those statuses and a 5-minute TTL, for that id. |
| `Worker.TwoFailuresThenSent` | worker/internal/rabbitmq/consumer.go:133-168 | A message due in 2 s whose first two attempts fail is attempted at +2 s, +12 s and +52 s. It ends `Sent` in the store and the cache, and is acked. |
| `Worker.RedeliveryOverwritesTerminalStatus` | worker/internal/rabbitmq/consumer.go:203-204 | A redelivered message already stored as `Terminally_Failed` is attempted again and can end `Sent`. Redelivery is not idempotent. |
| `Usecases.RejectsUserId` | internal/usecases/message.go:22-24 | The guard `UserId <= 0` on a `uint32` rejects exactly `UserId == 0`. |
| `Usecases.Stamped` | internal/usecases/message.go:25-26 | The stored record has the fresh id and status `Scheduled`. Every other field (text, scheduled time, user and chat ids) is the caller's. |
| `Usecases.MessageUsecases.CreateAndSendMessage` | internal/usecases/message.go:21-33 | A zero user id returns an error and leaves the store untouched. A store failure returns "" and that error. Otherwise it returns the fresh id, and the store gains exactly that id's stamped record, with status `Scheduled`. |
| `Usecases.MessageUsecases.GetMessageStatus` | internal/usecases/message.go:35-41 | It returns the stored status, or "" and the store's error (not-found or backend). It reads nothing else. |
| `Usecases.MessageUsecases.ListMessages` | internal/usecases/message.go:43-45 | It returns the store's records, or the store's error. |
| `Usecases.MessageUsecases.DeleteMessage` | internal/usecases/message.go:47-49 | It removes the id from the store, or returns the store's error and changes nothing. |
| `Domain.StatusesDistinct` | internal/domain/message.go:5-10 | The four status strings are pairwise distinct. The terminal failure is spelled `Terminally_Failed`. `Scheduled` and `Failed` are not terminal. |
| `Domain.JsonKeysDistinct` | internal/domain/message.go:12-19 | A message has six fields, each listed once. Each field's JSON key is its struct tag, and the keys are distinct. |
| `Config.NormalizePort` | config/config.go:26-36 | The listen address is never empty and starts with ':'. An empty value gives ":8080". Otherwise the value is a suffix of the result, which equals the value exactly when the value already starts with ':'. |
| `Config.NormalizePortCases` | config/config.go:27-35 | Empty gives ":8080". A value without a leading ':' gets one prepended. A value with a leading ':' is kept. |
| `Config.NormalizePortIdempotent` | config/config.go:27-35 | Normalising a normalised address changes nothing. |
| `Config.NewConfig` | config/config.go:19-60 | The error is always nil. `MASTER_DSN` and `RABBIT_URL` are copied, so unset ones stay empty. An unset `REDIS_ADDR` becomes "localhost:6379". `SlaveDSNs` stays nil. |
| `Config.NewConfigWellFormed` | config/config.go:26-59 | The result has a normalised, non-empty HTTP port, a non-empty Redis address and no replica DSNs. |
| `Config.SlaveDsnIgnored` | config/config.go:41-43 | The value of `SLAVE_DSN` has no effect on the configuration. |
| `Config.UnsetVariables` | config/config.go:26-57 | With nothing set, the configuration is port ":8080", empty DSN and RabbitMQ URL, and Redis at "localhost:6379". |
| `Ports.Repository.CreateMessage` | internal/port/repository.go:9 | It inserts the record under its id, or returns the backend's error or a duplicate-id error and changes nothing. |
| `Ports.Repository.GetMessageStatus` | internal/port/repository.go:10 | It returns the record's status, or "" with not-found or the backend's error. |
| `Ports.Repository.ListMessages` | internal/port/repository.go:11 | It returns all stored records, or the backend's error. |
| `Ports.Repository.UpdateMessageStatus` | internal/port/repository.go:12 | It replaces the status of an existing record and nothing else. A missing record gives not-found, a failing backend its error, and in both cases nothing changes. |
| `Ports.Repository.DeleteMessage` | internal/port/repository.go:13 | It removes the id, or returns the backend's error and changes nothing. |
| `Ports.StatusCache.GetStatus` | internal/adapter/cache/redis/redis.go:24-33 | It returns the cached status. A miss gives "" and no error. A failing backend gives "" and its error. |
| `Ports.StatusCache.SetStatus` | internal/port/cache.go:11 | It records the status and TTL for the id, or returns the backend's error and changes nothing. |

## Left out

- `Start` (worker/internal/rabbitmq/consumer.go:94-123): the goroutine per delivery, the `select` on the delivery channel and `Qos(1, 0, false)` are concurrency. The model handles one delivery at a time.
- `NewMessageQueueConsumer` and `Close`: AMQP connection, exchange, queue and binding declaration.
- JSON decoding (`json.Unmarshal`) is an input: `Delivery.decoded`. RFC 3339 timestamps are whole seconds.
- Real timers and `time.Until` are inputs: `now` and the `Wait` outcomes. A timer that fires is taken to fire exactly at its deadline, and store calls take no time.
- Logging is left out. Errors from `Ack`/`Nack` are left out, since the source only logs or discards them.
- Cache expiry: the TTL is recorded in each entry, but entries never expire in the model.
- `Ports.Repository.ListMessages`: returns a set. The SQL `ORDER BY created_at DESC` order is not modelled.
- `Ports.Repository.UpdateMessageStatus`: the PostgreSQL adapter (internal/adapter/repository/postgres/postgres.go) has no `UpdateMessageStatus` at all. The model follows the store contract: a missing id yields not-found and changes nothing.
- `Ports.Repository.CreateMessage`: the primary-key check is an assumption about the store, which is not part of this model.
- `Usecases.MessageUsecases.CreateAndSendMessage`: requires `newId` to be non-empty and not yet stored. This stands for the freshness of `uuid.NewString`. The use case publishes nothing to the queue (the source leaves that as a TODO), so the model has no queue.
- The PostgreSQL, Redis and RabbitMQ producer adapters, the HTTP layer, the UI and the bootstrapping (`cmd/main.go`, `worker/cmd/main.go`, `internal/app/app.go`) are not part of this model. So are reading `.env` and the process environment.
- The tests in internal/usecases/message_test.go construct the use case with a queue and a cache and expect publishing and cache-aside reads. The use case as written has neither, and the model follows the code.
- Duplicate-delivery idempotence and status monotonicity are not behaviours of the code: a redelivered terminal message is retried, as `Worker.RedeliveryOverwritesTerminalStatus` shows. After a cancellation during a retry wait, the worker issues a `Terminally_Failed` write with the already-cancelled context. The write takes effect only if it succeeds, so the record may stay `Scheduled`. Either way the delivery is acked, not requeued.
