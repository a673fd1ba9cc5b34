# DevGuard: verified models of its stateful cores

DevGuard is a control plane around coding agents. This project models the parts of it that
keep state under concurrency, failure or reconnection, and proves what they promise:

- the leased job queue, the worker runtime, the Redis transport and the outbox publisher
  (`Queue`, `Workers`, `Runtime`, `RedisQueue`, `RedisCalls`, `Outbox`);
- the session timeline: event framing, the incremental decoder, replay after a cursor and
  the client that reconnects (`Json`, `Sse`, `Timeline`);
- the deterministic clock of the test harness (`Clock`);
- the two rate limiters (`RateLimit`);
- agent contract verification: canonical JSON, the probe loop, sealed snapshots, the
  verifier and the readiness gate (`Canonical`, `Capabilities`, `Contract`);
- sessions, logins and authorization evidence (`Sessions`, `ActiveSessions`,
  `SessionPace`, `Authorization`).

How the models are built:

- Code that updates state in place is a class whose methods are proved against functions on
  values; the laws are proved about those functions. `Basics` holds shared vocabulary.
- Concurrency is a machine: a run is any sequence of steps, a step that is not enabled
  changes nothing, and a statement about runs holds for every interleaving and every crash.
  Sequential methods carry a ghost run (or a ghost log of operations) and are proved to
  perform steps of the machine, so what holds of every run holds of them; elsewhere lemmas named
  Alone say what the steps of a call do that nothing disturbs.
- Clocks, random numbers, tokens, provider answers and the arrival of chunks are parameters.
- Text is a sequence of Unicode scalar values. Event framing follows section 9.2 of the HTML
  Living Standard, JSON section 7 of RFC 8259, the order of keys section 3.2.3 of RFC 8785.
- Tables and tests are written twice: once as the code has them, where the methods use them, and
  once as what they mean, which is what the results speak of; lemmas equate the two
  (`Authorization.FloorIsLeastRank`, `Outbox.JobIsOfRow`, `Sse.PlainIsSafe`,
  `RateLimit.LimitIsOfClass`).
- SHA-256 is taken to be injective: a digest is a constructor applied to the text.

Results that say what the code does where a reader may expect otherwise, each with the exact
condition or an input that shows it:

- An event numbered 0 is never streamed, because the default cursor is 0 and replay is
  strictly after it (apps/api/src/routes/session.routes.ts:117-138), while the durable store
  numbers a session's events from 0
  (packages/db/src/repositories/workflow-evidence.ts:417):
  `Timeline.PrefixIffNotNumberedFromZero`, `Timeline.ZeroIsNeverShown`.
- Without the optional dead-letter port the outbox cursor passes rows of unknown type, which
  are then never looked at again, although the comment at
  packages/queue/src/publisher.ts:83-87 leaves them for reconciliation:
  `Outbox.PrefixIffNoneStranded`, `Outbox.UnknownRowLost`.
- A row whose payload is too large holds up every later row for ever, since the exception
  ends each pass before the cursor moves: `Outbox.RefusedRowBlocks`.
- Both rate limiters count fixed windows, although the comments call them sliding; sixty
  seconds can let through twice the limit and never more: `RateLimit.SpanAdmitsTwice`,
  `RateLimit.TwiceIsReached`.
- A request may find a session expired although requests came often enough, when the one
  before it was let in but has not written its touch yet. With checks at most a gap apart and
  requests of at most a delay, none does exactly when 2 gap + 4 delay is at most the window;
  an odd window bears one unit more: `SessionPace.ServedExactlyWhen`.
- Authorization evidence is looked up by user id, not by provider subject:
  `Authorization.OtherSubjectAllowed`, `Authorization.AllowOnOwnSubject`. Its age counts from
  when it was recorded, which is not before the provider was asked.
- The runtime asks the transport for an attempt count that only the in-memory one keeps
  (packages/queue/src/runtime.ts:248-252); over Redis it reads 0, and a job that always asks
  for a retry is never given up: `Runtime.UncountedNeverGivesUp`, and command by command
  `RedisQueue.RetriedWithoutEnd`.
- Over Redis a key can be queued without its payload, which no claim then delivers and no call
  can end: a crash between queueing and storing it does so, and a completion whose last command
  lands after the next enqueue (packages/queue/src/redis-transport.ts:52-105). Keys keep their
  payload exactly as long as neither happens: `RedisQueue.QueuedHasPayload`,
  `RedisQueue.OrphanedByCrash`, `RedisQueue.OrphanedByCompletion`.
- An advance of the clock need not end once a callback re-arms itself with delay 0; with
  positive delays it always does: `Clock.ZeroDelayNeverSettles`, `Clock.PositiveDelaysSettle`.
- The runtime never extends a lease while a handler runs, although
  packages/queue/src/runtime.ts:5 says so; `Workers` therefore lets any lease expire under a
  running handler, and one expiration lets two workers execute a job at once:
  `Workers.TwiceAfterExpiry`.

## Model

| member | source | states |
|---|---|---|
| Queue.InMemoryTransport.Enqueue | packages/queue/src/retry.ts:77-86 | a job is accepted exactly when its key is neither pending nor active; the new state is that of the operation log with this enqueue |
| Queue.InMemoryTransport.Claim | packages/queue/src/retry.ts:88-110 | after expired leases are released, takes the earliest due jobs of the queue, at most ten, leaving a due one only when the batch is full and nothing in it is later; each becomes one lease of the caller |
| Queue.InMemoryTransport.Heartbeat | packages/queue/src/retry.ts:112-117 | extends the lease exactly when the caller holds it |
| Queue.InMemoryTransport.Complete | packages/queue/src/retry.ts:119-125 | ends the job exactly when the caller holds it; otherwise says fenced or missing and changes nothing |
| Queue.InMemoryTransport.DeadLetter | packages/queue/src/retry.ts:127-132 | the key is dead and no longer live, whoever held it |
| Queue.InMemoryTransport.Remove | packages/queue/src/retry.ts:134-138 | removes a pending job; an active or missing one is reported and left alone |
| Queue.InMemoryTransport.ReleaseExpiredLeases | packages/queue/src/retry.ts:140-154 | moves exactly the jobs whose lease is over back to pending, due at once, and counts them |
| Queue.Earliest | packages/queue/src/retry.ts:92-94 | finds an entry that becomes available no later than any other |
| Queue.Conservation | packages/queue/src/retry.ts:77-159 | in every history of operations by any workers: accepted enqueues equal completions, removals and dead-letterings plus one if the key is live; a key is never both pending and active; claims and removals are backed by enqueues and expirations; the attempt count is the number of claims |
| Queue.ExclusiveLease | packages/queue/src/retry.ts:88-117 | between two claims of one key the job was enqueued anew, or leases were released at a time not before the last lease end the first claimant was granted |
| Queue.StillHeld | packages/queue/src/retry.ts:88-125 | until then the key is not pending, and if active it is with that claimant up to that lease end |
| Queue.OthersAreFenced | packages/queue/src/retry.ts:77-154 | while a lease lasts, enqueues, removals, early releases and other workers' completions, claims and heartbeats leave it as it is |
| Queue.ExpiredComeBack | packages/queue/src/retry.ts:140-154 | an expired job is claimable by anyone from the release on, with its attempts kept |
| Queue.CancellationFence.Bump | packages/queue/src/retry.ts:173-177 | fences off exactly the jobs of that run built for an earlier generation |
| Queue.CancellationFence.IsFenced | packages/queue/src/retry.ts:179-182 | decides whether a job's generation is behind that of its run |
| Queue.BackoffIsJittered | packages/queue/src/retry.ts:31-42 | the delay lies below the ceiling, which doubles per attempt up to the cap, and never falls with later attempts |
| Queue.BackoffIsShare | packages/queue/src/retry.ts:31-42 | the delay is the random share of the ceiling, in whole milliseconds |
| Queue.ComputeBackoff | packages/queue/src/retry.ts:31-42 | doubles the base once for each attempt before, up to the cap |
| Workers.EffectShown | packages/queue/src/runtime.ts:97-199 | each step of the machine does to a key one of eight things: arrival, expiry, claim, finish, decision to retry, resubmission, loss, withdrawal, or nothing |
| Workers.AttemptsBounded | packages/queue/src/runtime.ts:160-185 | in every run with any workers and crashes, claims of a key stay below the limit its own executions are given plus its arrivals and lease expirations; a key enqueued once is claimed at most limit plus expirations times, whatever limits other keys have |
| Workers.WorkIsBounded | packages/queue/src/runtime.ts:122-199 | the steps that move a key are at most 3 limit + 2 for each arrival and each lease expiration, with the key's own limit, so no key is worked on for ever |
| Workers.PotentialFalls | packages/queue/src/runtime.ts:160-185 | the weighed sum of remaining attempts falls with every step that moves a key |
| Workers.AlwaysAttended | packages/queue/src/runtime.ts:97-199 | where no execution of a key was lost, a lease on it is in the hands of a running execution of its worker |
| Workers.CanProceed | packages/queue/src/runtime.ts:97-199 | while such a key is live or in flight, a running execution moves it whatever its handler returns, or a retry can be enqueued, or a worker that serves its queue can claim it from the time it is due |
| Workers.EveryRunDrains | packages/queue/src/runtime.ts:97-199 | without further arrivals or expirations every continuation moves a key at most as often as its remaining attempts allow, and where workers can move it no more, with no execution lost, every accepted job was completed, removed or dead-lettered |
| Workers.NeverTwiceAtOnce | packages/queue/src/retry.ts:77-154 | a key is pending or in flight at most once per arrival and lease expiration: enqueued once and with no lease run out, it is never executed twice at once |
| Workers.TwiceAfterExpiry | packages/queue/src/retry.ts:88-154 | for every job and two workers: one arrival and one lease expiration, and both execute it at once |
| Workers.AlwaysOnQueue | packages/queue/src/retry.ts:77-110 | a key that producers put on one queue stays on it through claims, releases and retries |
| Workers.EveryJobSettles | packages/queue/src/runtime.ts:97-199 | once nothing of it is pending or in flight, every accepted job was completed, removed or dead-lettered |
| Runtime.JobRegistry.Register | packages/queue/src/envelope.ts:158-164 | one handler per type and version; a second is refused |
| Runtime.WorkerRuntime.ExecuteClaimed | packages/queue/src/runtime.ts:122-199 | a job cancelled since it was built and one without a handler are dead-lettered and no handler is asked; otherwise what the handler answers for the attempts so far decides: completed, dead-lettered, or, below the limit of its queue, completed and enqueued again after the backoff; an exception leaves queue and lease as they are; each as steps of the machine |
| Runtime.WorkerRuntime.RetryLimitsOf | packages/queue/src/retry.ts:21-28 | the limit of a queue is its override, else its default, else 8 |
| Runtime.ClaimFollowedUp | packages/queue/src/runtime.ts:97-199 | in a pass that did not throw every claimed job, if cancelled or without a handler, fails for good, and else has the step its handler answered follow |
| Runtime.WorkerRuntime.ProcessOnce | packages/queue/src/runtime.ts:97-120 | a pass is a run of the machine: a running worker first releases expired leases; unless a handler threw, with room to start with it claims from every served queue a batch of its earliest due jobs, so a due job on one of them means at least one is claimed, and every claimed job is judged and gets the steps of its own outcome, with nothing lost; retries go by the limit of the job's queue, nothing of its own stays in flight, the count is right, and a stopped or draining worker does nothing |
| Runtime.PassKeeps | packages/queue/src/runtime.ts:97-199 | a pass keeps what the results on runs ask for: retry limits by queue, no production, and no lost execution unless a handler threw |
| Runtime.GivenUpByQueue | packages/queue/src/runtime.ts:124-127 | a key enqueued on one queue is given up by that queue's limit, whatever other queues allow |
| Runtime.AttemptsWithinOwnLimit | packages/queue/src/runtime.ts:122-185 | claims of, and work on, such a key are bounded by its own queue's limit |
| Runtime.UncountedNeverGivesUp | packages/queue/src/runtime.ts:248-252 | on a transport without attemptsOf a job that always asks for a retry is claimed any number of times, with nothing expired and nothing dead-lettered |
| Runtime.StepsPerform | packages/queue/src/runtime.ts:158-198 | the steps of an execution perform its operations on the queue and end it |
| Runtime.ClaimsPerform | packages/queue/src/retry.ts:88-110 | a batch of distinct pending jobs is claimed by that many steps of the machine |
| RedisQueue.AlwaysAccounted | packages/queue/src/redis-transport.ts:52-144 | under every interleaving of single commands and every crash, additions to and removals from the pending and the active set balance exactly, per queue and key, with calls caught between two commands counted |
| RedisQueue.DeliveriesBacked | packages/queue/src/redis-transport.ts:52-144 | claims won, removals and a pending entry never exceed accepted enqueues and released leases; releases, completions and dead-letterings never exceed claims and heartbeat revivals; without revivals no accepted job ends twice |
| RedisQueue.RedisConservation | packages/queue/src/redis-transport.ts:52-144 | every entry accepted or revived is ended, pending, active, in a call's hands, merged with another of its key, or lost to a crash between the two commands of a claim or release; whether it still has its payload is what QueuedHasPayload says |
| RedisQueue.QueuedHasPayload | packages/queue/src/redis-transport.ts:52-144 | at every point of a run what is queued, leased or in a call's hands under a key has its payload stored or about to be, exactly when no completion or removal deleted it, and no crash fell before storing it, while the key was so present and no other call was about to store it |
| RedisQueue.PayloadStep | packages/queue/src/redis-transport.ts:52-144 | one command leaves a present key without payload exactly when it is such a deletion or crash |
| RedisQueue.OrphanedByCrash | packages/queue/src/redis-transport.ts:52-64 | a crash after an enqueue's first command leaves a pending key without payload and nobody to store it |
| RedisQueue.OrphanedByCompletion | packages/queue/src/redis-transport.ts:94-105 | from every state in which the job is active and not pending, a completion and an enqueue that both succeed can leave the key pending without payload |
| RedisQueue.OrphanCannotEnd | packages/queue/src/redis-transport.ts:66-123 | a claim passes over a key without payload, and completion, dead-lettering, removal and heartbeat of it return after their first command |
| RedisQueue.RetriedWithoutEnd | packages/queue/src/redis-transport.ts:52-105 | a job that is retried each time is claimed any number of times, with no lease released, revived or lost and nothing dead-lettered |
| RedisCalls.PlayIsSteps | packages/queue/src/redis-transport.ts:52-144 | the commands of one call on end are steps of the machine |
| RedisCalls.EnqueueAlone | packages/queue/src/redis-transport.ts:52-64 | undisturbed, an enqueue queues the key for its time, stores the payload, and accepts exactly a key not queued |
| RedisCalls.ClaimAlone | packages/queue/src/redis-transport.ts:66-85 | undisturbed, a claim moves all keys its scan answered to active with one lease end, counts an attempt for those with a payload and delivers these payloads in order, changing nothing else |
| RedisCalls.HeartbeatAlone | packages/queue/src/redis-transport.ts:87-92 | undisturbed, a heartbeat sets the lease end of any key with a payload, leased or not |
| RedisCalls.CompleteAlone | packages/queue/src/redis-transport.ts:94-105 | undisturbed, a completion ends an active job and forgets its attempts and payload, or changes nothing |
| RedisCalls.DeadLetterAlone | packages/queue/src/redis-transport.ts:107-114 | undisturbed, a key with a payload leaves the active set for the dead letters of its queue, with this time, and its attempts are forgotten |
| RedisCalls.RemoveAlone | packages/queue/src/redis-transport.ts:116-123 | undisturbed, a removal takes the key off both sets, deletes the payload, and says where it was |
| RedisCalls.SweepAlone | packages/queue/src/redis-transport.ts:125-144 | undisturbed and with fewer than a hundred stale leases in each queue, a release brings back exactly the leases that are over, due at once, and counts them |
| RedisCalls.SweepsEveryQueue | packages/queue/src/redis-transport.ts:125-134 | a release goes through the six queues, each once |
| Outbox.KeysDiffer | packages/queue/src/publisher.ts:123-125 | two rows share a unique key exactly when they are one row |
| Outbox.OutboxPublisher.PublishRow | packages/queue/src/publisher.ts:80-118 | a row of one of the three types is refused exactly when its payload is too large; else its own job is enqueued for now, with type, queue, key, run and generation as its fields say, and the row marked; a row of any other type enqueues nothing and is dead-lettered where there is a port; as steps of the machine |
| Outbox.OutboxPublisher.PublishOnce | packages/queue/src/publisher.ts:76-121 | a pass is a run over the next rows after the cursor, up to the limit: every row of the three types is handed over as its own job and marked, every other one dead-lettered where there is a port, and their number is reported; or it ends early exactly when an envelope is refused, with every row before it done so |
| Outbox.JobIsOfRow | packages/queue/src/publisher.ts:38-54 | exactly three event types are handed over, and the job of a row is the one its fields say: type and queue by event type, version 1, generation 0, the run id by precedence |
| Outbox.PrefixIffNoneStranded | packages/queue/src/publisher.ts:76-121 | with any number of publishers and crashes anywhere, handled rows form a prefix exactly when the dead-letter port exists or the cursor has passed no row of unknown type |
| Outbox.UnknownRowLost | packages/queue/src/publisher.ts:82-91 | without the port, one pass over an unknown row and a known one leaves the unknown one behind the cursor, handled by nobody |
| Outbox.NothingSkipped | packages/queue/src/publisher.ts:76-121 | every row of known type at or below the cursor is published; a published row is of one of the three types and its own job was enqueued before; only unknown rows are dead-lettered |
| Outbox.RefusedRowBlocks | packages/queue/src/envelope.ts:86-91 | no row from one with too large a payload on is ever handled |
| Outbox.OneLiveJob | packages/queue/src/publisher.ts:96-118 | of one row at most one job is live at a time, and where nobody else uses its key that job is the one the row's fields say |
| Queue.JobsWereEnqueued | packages/queue/src/retry.ts:77-154 | every live job is one that was enqueued, unchanged |
| Json.ParsePrint | apps/api/src/transport/sse.ts:99-101 | reading the text JSON.stringify writes gives the value back |
| Json.PrintInjective | packages/agent/src/snapshot.ts:106-106 | different values are written differently |
| Json.EscapesAreMinimal | apps/api/src/transport/sse.ts:99-101 | only quotes, backslashes and control characters are escaped |
| Json.TrailingRefused | apps/web/lib/api/sse.ts:56-62 | text after a list or an object is not read |
| Sse.SseConnection.Send | apps/api/src/transport/sse.ts:89-102 | writes the frame exactly when there is data, the id is 1 to 256 letters, digits, dots, underscores, colons and hyphens, and the connection is open, and says so |
| Sse.PlainIsSafe | apps/api/src/transport/sse.ts:141-144 | types of 1 to 64 letters, digits, dots, underscores and hyphens are sent as they are, all others as message |
| Sse.CleanStays | apps/api/src/transport/sse.ts:99-101 | data without undefined parts is sent as it is |
| Sse.StripKeeps | apps/api/src/transport/sse.ts:99-101 | of an object exactly the defined fields are sent, of a list every item, null for undefined |
| Sse.SseConnection.WriteHeartbeat | apps/api/src/transport/sse.ts:103-105 | writes one comment block, or nothing once closed |
| Sse.SseConnection.Close | apps/api/src/transport/sse.ts:106-117 | closes and lets the close hook run once in all |
| Sse.SseConnection.Cancel | apps/api/src/transport/sse.ts:125-129 | closes and lets the close hook run once in all |
| Sse.ParseSseBlock | apps/web/lib/api/sse.ts:40-65 | reads a block line by line as the specification function does: a carriage return and one space dropped, comments and unknown fields passed over, the last id and type, all data lines |
| Sse.LinesJoin | apps/web/lib/api/sse.ts:44-44 | the lines are what the newlines of a block separate |
| Sse.BlocksJoin | apps/web/lib/api/sse.ts:31-32 | the blocks, each with the empty line after it, and the rest make up the text, and the rest has no empty line |
| Sse.ConsumeSseBuffer | apps/web/lib/api/sse.ts:30-38 | gives the frames of the complete blocks and the rest |
| Sse.DecodeSseStream | apps/web/lib/api/sse.ts:10-28 | however the body is cut into chunks, the frames are those of the whole text read before the abort |
| Sse.DecodeAppend | apps/web/lib/api/sse.ts:19-38 | reading two pieces, the rest of the first before the second, is reading the whole |
| Sse.SendRoundTrip | apps/api/src/transport/sse.ts:89-102 | an accepted send is read back with its id, its own type where that is well formed and message otherwise, and its data |
| Sse.WireRoundTrip | apps/api/src/transport/sse.ts:89-105 | any mix of sends and heartbeats decodes to the accepted sends, in order, each with its id, own type and data, with nothing left over |
| Sse.CutWire | apps/web/lib/api/sse.ts:10-38 | a stream cut at any character gives the frames of a prefix of the sends |
| Timeline.ParseCursor | apps/api/src/routes/session.routes.ts:117-125 | the number a Last-Event-ID of this session names, else 0 |
| Timeline.OpenReplay | apps/api/src/routes/session.routes.ts:116-138 | at most 200 events, consecutive in the log, starting with the first after the cursor, and ending with the log unless the page is full; a client that names an event gets the page right after it |
| Timeline.SendReplay | apps/api/src/routes/session.routes.ts:144-151 | sends each replayed event in order |
| Timeline.CursorRoundTrip | apps/api/src/routes/session.routes.ts:118-123 | the id an event is sent with is read back as its sequence number |
| Timeline.TimelineStream.IngestFrame | apps/web/lib/server-state/stream-manager.ts:42-64 | moves the cursor, drops what was seen, and inserts the rest in order |
| Timeline.SortIsStable | apps/web/lib/server-state/stream-manager.ts:62-62 | the events are in order of their numbers, and those of one number all there in the order they came |
| Timeline.LastFieldCounts | apps/web/lib/server-state/stream-manager.ts:46-52 | of a key written twice the last value counts |
| Timeline.TimelineStream.Connect | apps/web/lib/server-state/stream-manager.ts:66-113 | one turn of the loop ingests the frames of what arrived; a failure waits 1, 2, 4, 8 and then always 15 seconds, a success resets it |
| Timeline.ReplayContinues | apps/api/src/routes/session.routes.ts:116-138 | a client that holds the first k events is replayed exactly the page after them |
| Timeline.ConnectionStep | apps/web/lib/server-state/stream-manager.ts:66-79 | a connection cut anywhere moves the client on to a later prefix; an uncut one by the whole page |
| Timeline.ResumeIsExact | apps/web/lib/server-state/stream-manager.ts:42-114 | after any number of connections to a growing log, each cut at any character and mixed with heartbeats, the client shows a gap-free, duplicate-free, ordered prefix of the deliverable events, each with its own number, summary, id and, where well formed, kind, and its cursor names the last |
| Timeline.PrefixIffNotNumberedFromZero | apps/api/src/routes/session.routes.ts:117-138 | once anything is shown, it is a prefix of the whole log exactly when the log does not start at 0 |
| Timeline.ZeroIsNeverShown | apps/api/src/routes/session.routes.ts:117-138 | on every log numbered from 0 a client that catches up shows all events but the first |
| Timeline.CatchesUp | apps/api/src/routes/session.routes.ts:138-151 | n uncut connections bring a client that has k events to k plus n pages, or to the end |
| Timeline.EventuallyComplete | apps/api/src/routes/session.routes.ts:138-151 | from any state a run can reach, enough uncut connections exist, after which the client shows every deliverable event |
| Timeline.PlainSessionSafe | apps/api/src/transport/sse.ts:91-97 | no event of a session is refused for its id when the session id has up to 239 letters, digits, dots, underscores, colons and hyphens |
| Clock.DeterministicClock.SetTimeout | packages/test-harness/src/clock.ts:59-77 | arms a timer under the next id, refusing a negative delay |
| Clock.DeterministicClock.ClearTimer | packages/test-harness/src/clock.ts:71-75 | removes the timer if it is still armed |
| Clock.DeterministicClock.FindFirst | packages/test-harness/src/clock.ts:39-42 | the due timer that is first by time and then by id, if any is due |
| Clock.DeterministicClock.AdvanceBy | packages/test-harness/src/clock.ts:33-49 | fires what is due, callbacks arming and clearing timers meanwhile, and ends at the target |
| Clock.DeterministicClock.AdvanceTo | packages/test-harness/src/clock.ts:52-57 | the same to an absolute time, refusing to go back |
| Clock.AdvanceKeeps | packages/test-harness/src/clock.ts:33-49 | firings stay in order of due time and id, every timer that was due has fired or was cleared, and none is left that is due |
| Clock.FiresAsArmed | packages/test-harness/src/clock.ts:33-77 | a timer fires its callback with the clock reading the time it was armed plus its delay, or is still pending for then, unless it is cleared |
| Clock.AdvanceSplits | packages/test-harness/src/clock.ts:33-49 | advancing by a and then b gives the timers, clock and firing log of advancing by a + b |
| Clock.AdvanceJoins | packages/test-harness/src/clock.ts:33-49 | if the one advance ends, so do its two parts, with the same result |
| Clock.SettledOnce | packages/test-harness/src/clock.ts:38-47 | the result of an advance that ends is unique |
| Clock.PositiveDelaysSettle | packages/test-harness/src/clock.ts:38-47 | an advance ends whenever callbacks arm timers with positive delays, however many |
| Clock.ZeroDelayNeverSettles | packages/test-harness/src/clock.ts:38-47 | a callback that re-arms itself with delay 0 keeps it from ever ending |
| RateLimit.InMemoryRateLimiter.Consume | apps/api/src/transport/rate-limit.ts:21-60 | the verdict is that of the last bucket of the specified map, for the whole history of uses: let through exactly when its count is within the limit of the key's class |
| RateLimit.InMemoryRateLimiter.MakeRoom | apps/api/src/transport/rate-limit.ts:28-40 | drops stale buckets first and then the oldest, down to the limit |
| RateLimit.RedisRateLimiter.Consume | apps/api/src/transport/rate-limit.ts:67-89 | admits by an exact count per window and key; a refusal tells a wait that, from the second reading of the clock, lands in the next window |
| RateLimit.LimitIsOfClass | apps/api/src/transport/kernel.ts:83-93 | the limit is that of the class named before the first colon: 10 logins, 30 callbacks, 15 logouts, 5 tokens a minute, and 300 for any other |
| RateLimit.BucketsAreRecent | apps/api/src/transport/rate-limit.ts:28-48 | the bounded map holds at most maxKeys + 1 buckets and is the recent end of the list of all keys by last use; what it dropped is of an earlier window or has maxKeys others after it |
| RateLimit.LimiterCounts | apps/api/src/transport/rate-limit.ts:42-48 | the count used for a verdict, from the history alone: the uses in this window since maxKeys other keys last came between two of them |
| RateLimit.CurrentKeyKept | apps/api/src/transport/rate-limit.ts:28-40 | a key of this window is forgotten only after at least maxKeys other keys were used since |
| RateLimit.BoundedVersusExact | apps/api/src/transport/rate-limit.ts:21-60 | the bounded limiter never counts more than the unbounded one, and counts the same exactly when the key was never pushed out of this window |
| RateLimit.SameVerdict | apps/api/src/transport/rate-limit.ts:21-60 | while a window sees at most maxKeys keys the two limiters give one verdict |
| RateLimit.RetryLandsInNextWindow | apps/api/src/transport/rate-limit.ts:50-56 | waiting as told lands in the next window, by the shortest whole number of seconds, and both limiters tell the same |
| RateLimit.SpanAdmitsTwice | apps/api/src/transport/rate-limit.ts:25-50 | any sixty seconds let through at most twice the limit of a key, and at most the limit exactly under a condition on the numbers of uses in its two windows |
| RateLimit.SpanFormula | apps/api/src/transport/rate-limit.ts:25-50 | how many requests any sixty seconds let through, from the uses alone |
| RateLimit.TwiceIsReached | apps/api/src/transport/rate-limit.ts:25-50 | for every key some sixty seconds do let through twice its limit |
| RateLimit.BoundedAdmits | apps/api/src/transport/rate-limit.ts:21-60 | the bounded limiter lets through no less than the exact count, and the same while windows see few keys |
| Canonical.LessIsUtf16Order | packages/agent/src/snapshot.ts:97-99 | keys are ordered by their UTF-16 code units, characters beyond the basic plane included |
| Canonical.CanonicalKeysMembers | packages/agent/src/snapshot.ts:97-99 | the keys written are exactly those with a defined value, strictly ascending |
| Canonical.CanonicalizePrints | packages/agent/src/snapshot.ts:94-107 | the canonical text is the JSON text of the value with keys sorted and undefined fields dropped at every depth |
| Canonical.CanonicalizeIffSame | packages/agent/src/snapshot.ts:94-107 | two values have one canonical text exactly when they are equal as unordered objects without their undefined fields |
| Capabilities.RunProbes | packages/agent/src/verifier.ts:151-176 | the probe loop computes the specified claims and failures |
| Capabilities.FailsByName | packages/agent/src/verifier.ts:151-176 | each of the seven probes fails by its own name and the way it failed |
| Capabilities.ProbesIsolated | packages/agent/src/verifier.ts:151-176 | a name owned by a probe is claimed exactly as that probe vouches for it whatever others say; any other name exactly when some valid answer lists it |
| Capabilities.KnownIsOwned | packages/agent/src/ports.ts:59-84 | the suite owns exactly the eighteen capabilities of the matrix |
| Capabilities.SuiteDisjoint | packages/agent/src/ports.ts:59-84 | no two probes own the same capability |
| Capabilities.EvaluateCapabilities | packages/agent/src/capabilities.ts:108-157 | computes verdict, missing, fatal and unknown names as specified |
| Capabilities.VerdictMeans | packages/agent/src/capabilities.ts:108-157 | incompatible exactly if a fatal property is present, a mandatory capability is not verified or an unknown name is claimed; else compatible exactly if all optional ones are verified |
| Capabilities.OperationalExactlyWhen | packages/agent/src/verifier.ts:151-190 | for any provider behaviour: operational exactly if the fatal property is known absent, the first five probes confirm the eight mandatory capabilities they own, and no valid answer lists a name outside the matrix |
| Contract.DigestSeals | packages/agent/src/snapshot.ts:114-128 | two digests agree exactly when identification, suite, claims and fatal properties do |
| Contract.SealedFields | packages/agent/src/snapshot.ts:114-128 | the sealed object has exactly eleven fields, each under its name |
| Contract.SealBinds | packages/agent/src/snapshot.ts:172-209 | accepted snapshots with one digest agree in all a decision rests on, status included |
| Contract.NoMandatoryMissing | packages/agent/src/preflight.ts:103-114 | acceptance and an operational status already imply that no mandatory capability is missing |
| Contract.SealedPasses | packages/agent/src/verifier.ts:192-236 | every snapshot sealed within the configured bounds re-passes integrity verification, and outside them fails only the schema |
| Contract.VerifySnapshotIntegrity | packages/agent/src/snapshot.ts:172-209 | decides integrity, with the first failure in the code's order |
| Contract.NormalizeIdentification | packages/agent/src/mapper.ts:88-116 | accepts exactly a report within the schema, of the one known provider, that is the expected one; the endpoint is the configured one |
| Contract.CheckSchema | packages/agent/src/snapshot.ts:47-68 | decides the schema: lengths, enumerations, the suite version, a positive time to live |
| Contract.CollectReasons | packages/agent/src/verifier.ts:207-213 | probe failures, missing mandatory and optional names, fatal and unknown ones, at most 64 in this order |
| Contract.InMemorySnapshotStore.Record | packages/agent/src/ports.ts:122-130 | supersedes what is there unless it is the same snapshot |
| Contract.RunKeySeals | packages/agent/src/snapshot.ts:131-138 | two verification runs have one key exactly when endpoint, server version, SDK build and suite agree |
| Contract.KeyedFields | packages/agent/src/snapshot.ts:131-138 | the keyed object has exactly four fields, each under its name |
| Contract.ContractVerifier.Verify | packages/agent/src/verifier.ts:90-248 | reuses exactly an accepted snapshot of operational status whose age is between 0 and its time to live, unless forced; else records the sealed one, which passes verification, or refuses and records nothing; signals exactly an integrity failure found and then the outcome; verdict, run key and failures are those of the snapshot returned |
| Contract.Preflight | packages/agent/src/preflight.ts:53-172 | ready exactly when the current snapshot is accepted, operational, of an age between 0 and its time to live, and a live identification, if asked, is the sealed one; drift is reported exactly when only that fails |
| Contract.DriftMeans | packages/agent/src/preflight.ts:186-211 | a live identification drifts exactly when it differs from the sealed one, and the placeholder digest never passes |
| Contract.VerifiedThenReady | packages/agent/src/preflight.ts:53-172 | at any later time: after a verification the store holds what was sealed, and the gate can rely on it exactly when the provider's answers make it operational and at most the time to live has passed; unless a snapshot of the same id was there, which is kept and judged by its own times |
| Sessions.SessionRepository.Touch | packages/auth/src/memory-store.ts:37-52 | compare-and-set on the row version |
| Sessions.SessionRepository.Revoke | packages/auth/src/memory-store.ts:54-63 | compare-and-set on the row version |
| Sessions.TransactionRepository.Consume | packages/auth/src/memory-store.ts:82-92 | consumes once, by compare-and-set |
| Sessions.AuthenticationService.CompleteLogin | packages/auth/src/service.ts:113-190 | the outcome, the consumed transaction and the new session, case by case |
| Sessions.AuthenticationService.ResolvePrincipal | packages/auth/src/service.ts:216-273 | on its own: serves the stored user exactly while the session is unrevoked and neither end is past, and touches as the throttle says |
| Sessions.AuthenticationService.RevokeIfExists | packages/auth/src/service.ts:196-213 | on its own: the session is revoked afterwards, and says whether it was before |
| Sessions.SlidingIsBounded | packages/auth/src/service.ts:232-256 | in every run: expiry minus last-seen stays the window, touches lie more than half a window apart, the absolute end never moves, a touched session expires before it, and revoked stays revoked |
| Sessions.PrincipalBacked | packages/auth/src/service.ts:216-273 | a principal is returned only if at two instants of the call, the read and the last store access, the stored session was that user's, not revoked, and neither its idle end nor its absolute end was past |
| Sessions.RevokedNeverServed | packages/auth/src/service.ts:216-273 | in every run no call begun after a session was revoked returns its user |
| Sessions.SingleUse | packages/auth/src/service.ts:122-142 | under any interleaving and replay a login state is consumed at most once and at most one session comes of it |
| Sessions.ResolveAlone | packages/auth/src/service.ts:216-273 | the steps of a request nothing disturbs: served exactly while the session is good, touched past half the window with a whole one left |
| Sessions.RevokeAlone | packages/auth/src/service.ts:196-213 | the steps of a revocation nothing disturbs: the session is revoked now, unless it was |
| Sessions.LoginAlone | packages/auth/src/service.ts:113-190 | the steps of a login nothing disturbs: the outcome, the state consumed before all else, and the fields of the new session |
| Sessions.StartAlone | packages/auth/src/service.ts:82-94 | a login state is stored for ten minutes |
| ActiveSessions.PromptRequestsServed | packages/auth/src/service.ts:216-273 | in every run, with requests that overlap and race: if none takes longer than a delay between read, check and write, none crashes before its write, and checks come within a gap, with 2 gap + 4 delay at most one more than the window, every request for an unrevoked session is served until one window before its absolute end |
| ActiveSessions.AlwaysOnTime | packages/auth/src/service.ts:232-256 | in such runs every check of the session has been seen within half a window or is about to be written |
| SessionPace.ServedExactlyWhen | packages/auth/src/service.ts:216-273 | for a gap of at least 1 and a lifetime longer than two windows and two, all such requests are served in all such runs exactly when 2 gap + 4 delay is at most the window, for an even window; an odd one bears one unit more |
| SessionPace.SlowRun | packages/auth/src/service.ts:229-256 | beyond that bound with a short gap, in some run that keeps gap and delay a request for an open session is refused: writes are held back until another request has read, and its check comes too late |
| SessionPace.LateRun | packages/auth/src/service.ts:229-256 | the same with a gap of at least the rest of the window after an untouched request: a request comes too late, after at most one write was held back |
| Sessions.ActiveStaysLoggedIn | packages/auth/src/service.ts:229-256 | requests that follow one another never more than half a window apart are all served up to the absolute end less one window |
| Sessions.HalfWindowIsTight | packages/auth/src/service.ts:229-256 | after an untouched request at half the window, a further pause is survived exactly if it is within the rest of the window |
| Authorization.EvidenceStore.FindFresh | apps/api/src/composition/container.ts:320-335 | the first row that allows this subject, repository and capability and has not expired, if there is one |
| Authorization.UserAllowBacked | packages/authorization/src/service.ts:116-187 | in every run a user is allowed only on a provider role for that user and repository of at least the least rank of the capability, answered in the same call, or, for a read or a workflow start the caller does not insist on checking, behind an allowance of the same user, repository and capability recorded less than one TTL before by the call that got the answer |
| Authorization.AllowPassedGate | packages/authorization/src/service.ts:69-115 | in every run a call that is allowed, user or system actor, found its repository linked as active or degraded at a step of its own |
| Authorization.OneAnswerPerCall | packages/authorization/src/service.ts:136-155 | the provider answers a call at most once, for the user, subject and repository the call asks about |
| Authorization.AllowOnOwnSubject | packages/authorization/src/service.ts:62-64 | the answer is about the query's own subject whenever a fresh check is due, and for reused evidence while the user id is queried under one subject |
| Authorization.OtherSubjectAllowed | packages/authorization/src/service.ts:120-129 | otherwise it need not be: for any two subjects of one user id, the second is allowed to read on the only answer given, which was about the first |
| Authorization.DenialIsFresh | packages/authorization/src/service.ts:130-181 | a denial for a low role rests on an answer below the least rank of the capability in that call, never on evidence |
| Authorization.AnswerDecides | packages/authorization/src/service.ts:156-187 | in every run an answered call is allowed exactly from the least rank of its capability on, and denied below |
| Authorization.AloneDecides | packages/authorization/src/service.ts:69-188 | the steps of a call nothing disturbs decide, and leave evidence, as the service does |
| Authorization.SystemAllowScoped | packages/authorization/src/service.ts:190-236 | a system actor is allowed only the run or approval its persisted binding names; its evidence is its own, cannot be reused and is never a user's |
| Authorization.FloorsAreUpward | packages/authorization/src/service.ts:45-60 | a higher role never loses a capability, and no role has none |
| Authorization.FloorIsLeastRank | packages/authorization/src/service.ts:44-60 | the floors are thresholds: read from rank 1, artifacts and policies read from 2, workflows started and cancelled from 3, policies written, approvals resolved and privileged actions from 4, connecting 5 |
| Authorization.FreshIsPrivileged | packages/authorization/src/capabilities.ts:25-37 | evidence may serve the three reads and the start of a workflow, and nothing else |
| Authorization.RepositoryAuthorizationService.Authorize | packages/authorization/src/service.ts:69-188 | each outcome exactly when its condition on scope, linkage, evidence and the rank of the role holds, and the evidence appended, field by field |

## Left out

- Queue.InMemoryTransport.Claim: among jobs that become available at the same time any order is allowed; the code keeps insertion order.
- Runtime.WorkerRuntime.ProcessOnce: handlers run to their end one after another, as the code awaits them; other workers act between passes in this method, and between any two steps in `Workers`.
- RateLimit.RedisRateLimiter.Consume: the expiry of counters of past windows is not modelled.
- Sessions.AuthenticationService.ResolvePrincipal: the method runs undisturbed, so its compare-and-set never loses; lost races and the re-read are steps of the machine in the same module.
- Sessions.AuthenticationService.RevokeIfExists: the method runs undisturbed; in the machine a lost race says nothing about revocation, since the winner may have been a touch.
- Sessions.ActiveStaysLoggedIn: stated for requests that follow one another; overlapping ones are the subject of `ActiveSessions`.
- Authorization.UserAllowBacked: the age of reused evidence is counted from its recording, as the code does, not from the provider's answer.
- Timeline.TimelineStream.Connect: the poll fallback, the stop on authentication errors and the state notifications are not modelled.
- Contract.VerifySnapshotIntegrity: of the schema only lengths, enumerations and bounds are modelled; identifiers are checked by length, not by pattern; the expected endpoint is always given, as both callers do.
- Drain, start and stop of the runtime beyond the flags a pass reads; metrics and logging.
- The `remove` and `inspect` pass-throughs of the queue facade, the BullMQ and PostgreSQL adapters.
- Redis: the metadata key of a dead-lettered job, ties in scores (any order is allowed), and time to live.
- Outbox payloads beyond their size; forbidden payload keys, which no mapping produces; rows that become visible out of id order.
- `deadLetter` does not check the owner, fencing is by worker id and not by lease, and a late retry can enqueue a finished job again; nothing here claims otherwise.
- Lone surrogates in text, and the decoding of bytes to characters.
- Sse.ParseSseBlock: data that is JSON with white space, or with escapes JSON.stringify does not write, stays text, where the code parses it.
- Numbers with a fraction or an exponent are kept as text, and a sequence number with one is ignored by the client model; integers are exact at any size.
- A live session stream sends only the replay taken when it opens; later events wait for the next connection, as in the code.
- Clock: fractional times, callbacks that advance the clock or throw, `pendingTimerCount` and `clearAll`.
- Rate-limit keys whose class part names a built-in property of JavaScript objects.
- startLogin beyond its stored transaction (PKCE, redirect paths), token hashing, and the provider exchange beyond success or failure.
- The compatibility state table of the agent package, event payloads, and the classification of provider errors.
- Malformed authorization queries, which are denied before anything is read.
- HTTP routes, the web pages, the CLI, configuration, sandboxing, policies and approvals.
