# The mail proxy, modelled in Dafny

The mail proxy takes mails over an HTTP API or over SMTP, stores a row per mail in PostgreSQL, puts
a job on a RabbitMQ queue, mirrors the status in KeyDB, and lets worker goroutines send each job
through Microsoft Graph or SendGrid, with exponential backoff and a failed queue. This project
models that behaviour and proves what it promises: that mails are neither lost nor duplicated
without failures, and exactly which steps lose or copy one otherwise, when a cancellation is final, when the status a client reads can be
trusted, how often and how long mails are retried, that the system comes to rest, and that the
SMTP, MIME, payload, sender-config and OAuth parts do what they are for.

`dafny verify dfyconfig.toml` verifies the whole project.

## How it is organised

**The life of a mail.** `Lifecycle` is a transition system over the rows, the cache, the main and
failed queues, the backoff timers, N workers, producers and cancellers. One step is one database,
cache or broker call, so every interleaving is a run. `Work(w, ok, disk)` is the next call of worker
w, and `ok` says whether that call succeeds; `Crash`, `CloseChannel`, `Shutdown` and `Expire` can
happen at any time. `published` and `log` are history that no step reads. `Attempts` counts how
often a mail reached the send stage of a worker, including the times its sender config could not be
loaded. `Calm` runs have no crash and no closed channel.

- `Ledgers` proves once how a step moves a weighted sum over all places; the laws below choose weights.
- `Tokens`, `Survival`, `Duplication`: conservation, at-least-once, what a failure loses and what it
  copies.
- `Integrity`, `Retries`, `Backoff`: job contents, retry counts, attempts and waiting time.
- `Progress`: a measure, termination, and the final states.
- `Cancellation`, `Drain`, `Outcomes`: finality, graceful shutdown, particular mails.
- `StatusCache`, `StatusReports`: runs made of uninterrupted handler calls. Such a block is a
  sequence of fine steps, so every law of calm runs holds for it.
- `StaleCache`: over all interleavings, exactly when the reported status is wrong.
- `Submissions`: what the submission handlers do to the records is the producer's three steps.
- `Witnesses`: runs from the start of the system that reach the states listed below.
- `ConfigIntegrity`: the life cycle and the sender-config table as one system.
- `Consumer`: the worker as sequential imperative code. The handlers are proved to be runs of the
  transition system in which each call gets the answer it was given and the channel may close
  before any call, and the laws above are carried over to them.

**The rest.** `OAuth` is the token cache under an RWMutex, as a transition system of n threads with a
clock, and as a class whose sequential code is a run of it. `SmtpSession` and `Mime` are the envelope, the MIME parts
and the attachment files. `Payload` builds both providers' requests. `SenderConfigs` is the config
table with its constraints. `MailApi` holds the submission, status and cancel handlers. `Settings`,
`Routing`, `Text`, `Sums` and `Models` are shared.

## Where the code and its documentation differ

The model follows the code.

- `MaxRetryCount` = 5 gives 5 attempts in total, that is 4 retries (internal/worker/consumer.go:224-227);
  the repository's readme and section 3.5.1 of its design document promise up to 5 retries.
- The delays are 2, 4, 8, 16 s (internal/worker/consumer.go:259), not 1, 2, 4, 8, 16 s as in section 7.2
  of the design document.
- Permanent failures are retried like any other, unlike section 3.5.2 of the design document.
- A database error during the cancellation check counts as "not cancelled"
  (internal/worker/consumer.go:164), see `Cancellation.ReadErrorUnsettles`.
- Deleting a config that mails refer to is reported as "config not found"
  (internal/services/email_sender_config_service.go:137-143).
- An allowed-domain list of blanks restricts nobody (internal/config/config.go:161-174), see
  `SmtpSession.BlankListAllowsAll`.

## What the code does not support

The first five, and the last, come with their exact condition and with a run from the start of the
system that reaches the state in question.

- Delivery is at least once, not exactly once. A crash or a closing channel gives a mail a further
  owner exactly if a worker holds its delivery unacknowledged after handing the mail on, and so does
  a worker that hands a mail on after its channel closed (`Duplication.MakesCopy`). Acceptances beyond
  the first are at most the copies made; `Duplication.AcceptedTwice` is a run with two.
- A cancellation is not final merely because the row says `cancelled`. The exact condition is
  `Cancellation.Settled`: no worker past its check can still write the row, and the submission can no
  longer fail. `FinalExactlyWhenSettled` proves both directions, over all runs with crashes;
  `Witnesses.CancelledButNotFinal` reaches an unsettled one.
- Cache and row do not agree under every interleaving. If no write about a mail is lost, the reported
  status of a mail at rest is true exactly if the last writers of row and cache fit
  (`StaleCache.WritersFit`). `StatusReports.FastWorkerLeavesStaleCache` has the producer's late
  `queued` over a worker's `sent`, `Witnesses.CancelLeavesWrongReport` a canceller's late `cancelled`.
- `activeJobs == 0` after a shutdown request does not imply that no mail will be attempted: the drain
  cannot see a worker between its shutdown test and the increment. `Drain.DrainIsSilentExactly` gives
  the exact condition, `Witnesses.DrainedButNotSilent` a run.
- A mail waiting in a timer does not survive a crash or a closed channel, because its delivery is
  acknowledged right after the timer starts. `Survival.VanishesExactly` says, for every step of every
  run, when a mail disappears: the step drops a timer that is the last place left to the mail.
  `Witnesses.LostInTimer` is a run.
- The cache write after a submission and the update of a row to `failed` are best effort. An accepted
  mail then still reads as queued, from its row; a mail that could not be published reads as queued
  although no job exists if that update is lost (`MailApi.Recorded`).
- Delays are the intended powers of two exactly up to count 33; count 34 overflows to a negative delay.
  All timers of all runs sleep as intended exactly if `MaxRetryCount` is at most 34.

## Model

| member | source | states |
|---|---|---|
| Tokens.Conservation | internal/worker/consumer.go:125-288 | In every calm run, at every moment, a published mail has exactly one owner among main queue, timers, failed queue, workers that have not handed it on, and finished mails; an unpublished one has none |
| Tokens.StepTokens | internal/worker/consumer.go:125-326 | Every step of any kind changes the number of owners of a mail by exactly what it publishes, plus the copies it makes, minus the timers it drops; without failure it copies and drops nothing |
| Tokens.Invariants | internal/worker/consumer.go:139-220 | In every run a busy worker's delivery is unacknowledged exactly while the channel is open and it has not acked; producers work on distinct rows and publish each at most once |
| Tokens.AtLeastOne | internal/worker/consumer.go:125-326 | Over all runs with crashes, closed channels and shutdown a published mail runs out of owners only in a step that drops a timer of that mail |
| Survival.NothingVanishes | internal/worker/consumer.go:125-326 | In every run, whatever failed before, a published mail that is nowhere (queued, unacked, in a timer, failed, accepted or skipped) was lost in a step of the run that dropped its last place, a timer whose delivery had been acknowledged |
| Survival.VanishesExactly | internal/worker/consumer.go:267-326 | In every run a step makes a mail disappear if and only if it is a crash, or the mail's only timer firing into a closed channel, while the mail waits in a timer and is neither unacked nor queued nor failed nor finished |
| Survival.PresentIsOwned | internal/worker/consumer.go:125-288 | In every reachable state a mail is somewhere exactly if it has an owner: no worker is the only one to know a mail it has handed on |
| Survival.ClosedFirePlaces | internal/worker/consumer.go:267-287 | From any state, a mail survives a timer firing into a closed channel if and only if it is somewhere other than in that timer |
| Survival.LossCause | internal/worker/consumer.go:267-287 | Every lost timer on record was waiting at a crash of the run, or fired into a closed channel |
| Survival.CalmLosesNothing | internal/worker/consumer.go:125-288 | No calm run loses a timer |
| Survival.CalmPresent | internal/worker/consumer.go:125-288 | In every calm run a published mail is always somewhere |
| Survival.CrashPlaces | internal/worker/consumer.go:267-287 | From any state, a mail survives a crash if and only if it was queued, unacked, in the failed queue or finished |
| Survival.CrashLosesExactly | internal/worker/consumer.go:267-287 | After a calm run the condition is shorter: a crash loses a published mail if and only if it sits in a timer and its earlier delivery has been acknowledged |
| Witnesses.LostInTimer | internal/worker/consumer.go:267-287 | With `MaxRetryCount` of at least 2, a run in which a published mail is nowhere after a crash |
| Duplication.Accounting | internal/worker/consumer.go:125-326 | In every run, whatever fails, a mail's owners are one for its publication, plus the copies made by the steps of the run, minus the timers dropped by them |
| Duplication.DuplicatesExactly | internal/worker/consumer.go:201-288 | In every run a step gives a mail a further owner if and only if it publishes it or makes a copy: a crash or closing channel while a worker that has handed the mail on holds its delivery unacknowledged, or a worker handing it on after its channel closed; it leaves more owners than before if and only if copies outnumber dropped timers |
| Duplication.TwoOwnersNeedCopy | internal/worker/consumer.go:201-288 | A mail with two owners goes back to a step of the run that made a copy |
| Duplication.AcceptedAtMostOnce | internal/worker/consumer.go:201-219 | In calm runs a provider accepts a mail at most once |
| Duplication.AcceptancesNeedCopies | internal/worker/consumer.go:201-219 | In every run the acceptances of a mail beyond the first are at most the copies made of it |
| Duplication.CanBeAcceptedAgain | internal/worker/consumer.go:201-219 | From any state with a delivery unacknowledged, its row not cancelled and its attachments saved, a run through a crash has the mail accepted once more |
| Duplication.AcceptedTwice | internal/worker/consumer.go:201-219 | A run from the start in which one mail is accepted twice |
| Integrity.JobIntegrity | internal/worker/consumer.go:139-256 | In every run, crashes included: every job, delivery and log entry equals what was submitted except for the retry count; nonzero counts in queue and timers are below `MaxRetryCount`; failed-queue jobs have exactly max(1, `MaxRetryCount`) |
| Retries.AttemptLaw | internal/worker/consumer.go:178-256 | In every calm run, whatever writes fail, the number of attempts of a mail is an exact function of the retry count its one owner carries |
| Retries.AttemptsOfJob | internal/worker/consumer.go:223-256 | A queued or sleeping job has been attempted exactly as often as its count says, a failed one exactly max(1, `MaxRetryCount`) times |
| Retries.AttemptsBounded | internal/worker/consumer.go:224-227 | Without redelivery no mail is attempted more than max(1, `MaxRetryCount`) times, even if database and cache writes silently fail |
| Retries.WaitLaw | internal/worker/consumer.go:258-287 | With `MaxRetryCount` up to 34, the time a mail has been put to sleep is at every moment an exact function of where it is and its count |
| Retries.TimeSlept | internal/worker/consumer.go:258-287 | A job in a timer with count r has been scheduled for 2^(r+1) - 2 seconds in all, a second being 1 000 000 000 ns; one in the failed queue for 2^limit - 2 seconds |
| Retries.TimersSleepAsIntended | internal/worker/consumer.go:259 | With `MaxRetryCount` up to 34 every timer of every run, crashes included, sleeps for exactly 2^count times 1 000 000 000 ns |
| Witnesses.TimersAsIntendedExactly | internal/worker/consumer.go:224-259 | All timers of all runs sleep for exactly 2^count seconds if and only if `MaxRetryCount` is at most 34 |
| Witnesses.NegativeDelay | internal/worker/consumer.go:224-259 | With `MaxRetryCount` of 35 or more, a calm run that starts a timer with a delay of -1 266 874 889 709 551 616 ns |
| Witnesses.ReachesCount | internal/worker/consumer.go:223-288 | Every retry count below `MaxRetryCount` is reached by a calm run in which one attempt after another fails |
| Backoff.DelayExact | internal/worker/consumer.go:259 | The wrapping int64 delay is 2^count times 1 000 000 000 ns if and only if count is at most 33 |
| Backoff.DelayIncreases | internal/worker/consumer.go:259 | Up to count 33 delays are positive and strictly increasing |
| Backoff.DelayOverflowsAt34 | internal/worker/consumer.go:259 | Count 34 gives -1 266 874 889 709 551 616 ns, so the bound is tight |
| Backoff.FirstDelays | internal/worker/consumer.go:259 | The delays of the default configuration are 2, 4, 8 and 16 seconds |
| Backoff.WrapIs | internal/worker/consumer.go:259 | Truncation gives the one int64 that differs by a multiple of 2^64 |
| Progress.MeasureStep | internal/worker/consumer.go:125-288 | Every producer, broker, worker and timer step lowers one measure; a submission raises it by a constant; no other calm step raises it |
| Progress.Termination | internal/worker/consumer.go:139-288 | However steps interleave, n submissions allow at most n times (20 max(0, `MaxRetryCount`) + 15) internal steps, so no undisturbed run goes on for ever |
| Progress.EveryMailSettles | internal/worker/consumer.go:139-288 | A calm run that can go no further has brought every published mail to exactly one end: accepted, skipped as cancelled, or in the failed queue |
| Cancellation.CancellationIsFinal | internal/worker/consumer.go:164-174 | From a settled cancelled state no run, with any crashes and failed writes, sends the mail or changes the row, as long as the check can read the row |
| Cancellation.FinalExactlyWhenSettled | internal/api/handlers/mail_handler.go:483-505 | A cancelled row is final if and only if no worker past its check can still overwrite it and its submission cannot fail any more |
| Cancellation.ReadErrorUnsettles | internal/worker/consumer.go:162-170 | A database error at the check lets a cancelled mail through, after which the cancellation is not final |
| Witnesses.CancelledButNotFinal | internal/api/handlers/mail_handler.go:483-505 | A calm run from the start to a cancelled row that is not final |
| Cancellation.WorkerUndoes | internal/worker/consumer.go:173-256 | Any worker that may overwrite a row can do so by its own successful calls alone |
| Drain.ActiveJobsCounts | internal/worker/consumer.go:140-148 | In every run `activeJobs` equals the number of workers inside `handleMessage` |
| Drain.DrainIsSilentExactly | internal/worker/consumer.go:129-148 | After shutdown with `activeJobs` 0, no mail is attempted in any continuation without a restart, if and only if no worker is between its shutdown test and the increment |
| Witnesses.DrainedButNotSilent | internal/worker/consumer.go:129-142 | A calm run from the start to a drained state after which a mail can still be attempted |
| Drain.StoppedForGood | internal/worker/consumer.go:128-132 | Once every worker is idle or before the shutdown test, that stays so and no attempt is made until a restart |
| Outcomes.BackendOfEveryAttempt | internal/worker/consumer.go:178-201 | In every run every attempt goes through Graph if and only if the sender is anything followed by the org domain in some capitalisation, with or without a sender config |
| Outcomes.OrgDomainUsesGraph | internal/services/mail_router.go:33-43 | Whoever writes from the org domain, however capitalised, is sent through Graph in every run |
| Outcomes.UnsavedNeverSent | internal/services/smtp_service.go:209-214 | No run has a provider accept a mail with an attachment that was never saved |
| Outcomes.UnsavedFails | internal/worker/consumer.go:204-255 | In calm runs without a cancel request such a mail ends in the failed queue after exactly max(1, `MaxRetryCount`) attempts |
| Outcomes.StaysUncancelled | internal/worker/consumer.go:162-170 | If nobody asks to cancel a mail, its row is never `cancelled` and no worker skips it, in any run |
| Routing.BackendBySender | internal/services/mail_router.go:24-43 | The worker's choice between config and router gives Graph exactly for org senders, for every job a producer can submit |
| Routing.OrgSenderIs | internal/api/handlers/mail_handler.go:85 | An org sender is exactly one whose address ends with the org domain in some capitalisation |
| Text.InDomainIs | internal/services/mail_router.go:37 | The suffix test on lower-cased strings holds exactly for a prefix followed by the domain in some capitalisation |
| Text.ToLowerIs | internal/services/mail_router.go:35-37 | The 26 capitals become the small letters in order, every other character stays |
| Text.TrimOf | internal/config/config.go:166 | Trimming removes exactly what stands around a bare string |
| Text.TrimParts | internal/config/config.go:166 | Every string is its trimmed form with cut characters around it, and that form neither begins nor ends with one |
| Text.SplitJoins | internal/config/config.go:163 | Splitting loses nothing and leaves no separator inside a piece |
| Text.JoinSplits | internal/config/config.go:163 | Pieces without separators are what splitting their join gives back |
| StatusCache.SubmitIs | internal/api/handlers/mail_handler.go:203-243 | The fine steps of an uninterrupted submission: row, publish, then cache, or a failed row and no cache entry |
| Submissions.StepsAre | internal/api/handlers/mail_handler.go:203-243 | The state the producer's three steps lead to, for every combination of failing publish and lost last write |
| Submissions.SubmitsExactly | internal/api/handlers/mail_handler.go:203-243 | A handler that changes rows, cache and queue in that way does, whatever the rest of the system, what the producer's three steps do |
| StatusCache.CancelIs | internal/api/handlers/mail_handler.go:479-513 | The fine steps of an uninterrupted cancel: only an own queued mail, row and cache then say cancelled with count 0 |
| StatusCache.FinishLands | internal/worker/consumer.go:204-288 | An uninterrupted delivery ends with row, cache and whereabouts of the mail in agreement, be it sent, failed or waiting |
| StatusCache.StartLands | internal/worker/consumer.go:129-174 | An uninterrupted start either skips a cancelled mail or leaves a worker about to send it, with row and cache `processing` |
| StatusCache.BlockKeeps | internal/api/handlers/mail_handler.go:203-243 | Every uninterrupted block (submit, cancel, start, finish, timer, expiry) keeps row, cache and whereabouts of every mail consistent |
| StatusCache.AlwaysGood | internal/worker/consumer.go:139-288 | So every run of blocks does |
| StatusReports.CacheAgreesWithRow | internal/worker/consumer.go:263-264 | In every run of blocks a cached status and count equal the row's, except that a mail in backoff is `queued` in the cache and `processing` in the row |
| StatusReports.ExpiryChangesOnlyBackoff | internal/services/keydb_service.go:47-84 | Losing a cache entry changes what `GetStatus` reports if and only if the mail is in backoff |
| StatusReports.CancelOnlyBeforeDelivery | internal/api/handlers/mail_handler.go:483-501 | In every run of blocks a cancel is accepted if and only if the mail is the caller's, sits in the main queue with count 0 and is not cancelled; such a mail has never been attempted |
| StatusReports.FastWorkerLeavesStaleCache | internal/api/handlers/mail_handler.go:231-243 | A run in which the row is `sent` and the status reported is `queued`, because the producer writes the cache after publishing |
| StaleCache.ReportIsTrueExactly | internal/api/handlers/mail_handler.go:231-243 | Over all interleavings in which no write about the mail is lost, cancellations at any time and cache expiry included: while no worker is in the middle of the mail, its reported status and count are the row's, read as queued between deliveries, if and only if the last writers of row and cache fit: no cache entry and not between deliveries, the producer with an untouched row, a worker with a worker, or a canceller with a canceller before any failure was counted |
| Witnesses.CancelLeavesWrongReport | internal/api/handlers/mail_handler.go:494-505 | A run in which the row ends as `sent` and the reported status as `cancelled` |
| StaleCache.AlwaysBooks | internal/worker/consumer.go:172-264 | In every such run row, cache, their last writers and the place of the mail fit together, program point by program point |
| StaleCache.TurnsBounded | internal/worker/consumer.go:125-288 | In every calm run at most one party at a time deals with a mail, up to its last write about it |
| Consumer.MessageHandler.ProcessMessage | internal/worker/consumer.go:125-136 | One round of the loop, with the channel open, closed, or closing before any call, is a run of the transition system in which only this worker moves; it makes exactly one attempt with its mail unless it gives the delivery back or finds the mail cancelled, none with others, leaves the records of other mails alone, and keeps the number of owners of every mail, or at least that number if the channel closed |
| Consumer.MessageHandler.HandleMessage | internal/worker/consumer.go:139-220 | The same for the handling of one delivery |
| Consumer.MessageHandler.AttemptDelivery | internal/worker/consumer.go:172-219 | The part from marking the mail as processing to the bookkeeping of the result is a run of this worker, each call with its given answer |
| Consumer.MessageHandler.HandleRetry | internal/worker/consumer.go:223-288 | So is the retry decision: failed queue, row and cache at the limit, otherwise count, cache and timer; a closed channel swallows the failed job |
| Consumer.FollowingHandles | internal/worker/consumer.go:125-288 | Whatever part of its program a worker follows: the attempts made are the ones that were ahead, others' records stay, owners are kept |
| OAuth.AlwaysInv | pkg/microsoft/oauth.go:44-107 | In every interleaving the RWMutex excludes, the two fields belong to one response outside a write, and all fetches and served tokens satisfy their margins |
| OAuth.OneFetchAtATime | pkg/microsoft/oauth.go:59-92 | At most one thread is inside the token request |
| OAuth.PairFromOneResponse | pkg/microsoft/oauth.go:102-104 | Whenever nobody writes, token and expiry are those of the last stored response; before the first there is no token |
| OAuth.OnlyReceivedIsStored | pkg/microsoft/oauth.go:80-104 | Every stored response was received by a thread that was fetching, so a failed fetch leaves the cache alone |
| OAuth.CheckDecides | pkg/microsoft/oauth.go:47-65 | In every run either check serves the cached token exactly if it is good for more than 60 000 000 000 ns, and goes on to the lock or the fetch otherwise |
| OAuth.OAuthService.Store | pkg/microsoft/oauth.go:102-106 | Token and expiry become those of the response, counted from the clock at the second write |
| OAuth.FetchesAreSpaced | pkg/microsoft/oauth.go:47-64 | After a non-empty token with lifetime E the next fetch starts no earlier than its store time plus E seconds minus 60 000 000 000 ns |
| OAuth.ServedTokensAreValid | pkg/microsoft/oauth.go:47-65 | If each response is stored within 60 000 000 000 ns of being issued, every token served by either check is unexpired at the server when checked |
| OAuth.OAuthService.GetAccessToken | pkg/microsoft/oauth.go:44-56 | Uninterrupted, a call is a run of the system that serves the cached token exactly if fresh and otherwise what one fetch brings |
| OAuth.OAuthService.RefreshToken | pkg/microsoft/oauth.go:59-107 | Under the write lock the second check decides whether to fetch |
| OAuth.OAuthService.FetchAndStore | pkg/microsoft/oauth.go:80-107 | A failed fetch changes neither field; a good one sets both from the same response |
| SmtpSession.Session.Mail | internal/smtp/session.go:72-94 | MAIL succeeds exactly if the cleaned sender is in an allowed domain or none is listed; a refused one changes nothing |
| SmtpSession.Session.Rcpt | internal/smtp/session.go:97-104 | RCPT appends the cleaned address and nothing else |
| SmtpSession.Session.Reset | internal/smtp/session.go:422-425 | Reset clears sender and recipients |
| SmtpSession.CleanEmailIs | internal/smtp/session.go:459-464 | A plain address is kept, with or without surrounding space; what stands in one pair of angle brackets is kept as it is |
| SmtpSession.SingleBrackets | internal/smtp/session.go:459-464 | One bracket without the other is cut too |
| SmtpSession.HoldsTheAddress | internal/smtp/session.go:72-104 | After one more RCPT or allowed MAIL for an address, bracketed or plain, the envelope holds that very address, as the last recipient or as the sender |
| SmtpSession.ToIsRecipientsSinceReset | internal/smtp/session.go:72-104 | After any trace the recipients are the cleaned RCPT list in order since the last Reset; MAIL and DATA do not clear it |
| SmtpSession.FromIsLastAccepted | internal/smtp/session.go:72-94 | After any trace the sender is the cleaned last accepted MAIL since the last Reset, and empty if there is none |
| SmtpSession.Session.Data | internal/smtp/session.go:107-181 | DATA publishes exactly one job built from envelope and message, or none and says which call failed; row and cache after any combination of failing calls; what was saved stays on disk even if publishing fails, and other files stay; the envelope stays; the session's jobs are those of its trace; with a new mail ID the records change as in the producer's three steps |
| SmtpSession.ContentPutsTogether | internal/smtp/session.go:200-232 | Sender and recipients are the envelope's where it has any, and the header's otherwise; CC, BCC and subject are the header's |
| SmtpSession.EntryOfAttachment | internal/smtp/session.go:337-395 | The job's entry of an attachment has its own name, type, true size, and the path it was saved under or none |
| SmtpSession.Session.ParseMailData | internal/smtp/session.go:184-398 | Envelope first, headers as fallback; last plain and HTML bodies, raw text if both are empty; one attachment entry per readable attachment, with its file on disk |
| SmtpSession.Session.SaveInfos | internal/smtp/session.go:381-395 | A saved attachment carries its path, a failed one an empty path; the last attachment under a path determines the file; no other file changes |
| SmtpSession.DomainFilterHolds | internal/smtp/session.go:78-91 | Over all traces in which every DATA comes after an accepted MAIL since the last Reset, with a non-empty list read from the configuration: every job the session has published has a non-empty sender in an allowed domain |
| SmtpSession.SenderIsAllowed | internal/smtp/session.go:72-94 | After an accepted MAIL and no Reset since, the session holds a sender that the list allows |
| SmtpSession.BlankListAllowsAll | internal/config/config.go:161-174 | A list of blanks lets every sender in |
| SmtpSession.UnsavedShows | internal/smtp/session.go:386-390 | An attachment whose save failed reaches the job with an empty storage path |
| Settings.GetEnvAsSlice | internal/config/config.go:161-174 | An unset variable gives the default, any other its trimmed non-blank entries in order |
| Settings.EntriesAreNonBlankPieces | internal/config/config.go:163-170 | The entries are the non-blank comma-separated pieces: none dropped, none invented, none empty |
| Settings.EmptyExactlyWhenBlank | internal/config/config.go:163-171 | The result is empty if and only if every piece is blank |
| Settings.ListIsReadBack | internal/config/config.go:161-174 | A list of entries written with commas is read back as it was, in order and with its repetitions |
| Settings.EntriesConcat | internal/config/config.go:164-170 | The entries of two lists in a row are those of the first, then those of the second |
| Settings.EntriesOne | internal/config/config.go:165-169 | A piece gives what stands between its spaces, if anything does |
| Mime.ParseParts | internal/smtp/session.go:238-352 | For any finite stream of parts and errors the loop ends with the last plain body, the last HTML body, and equally long lists of metadata and contents for exactly the readable attachments in order, with true sizes |
| Mime.FilenameIsFirstNonEmpty | internal/smtp/session.go:275-329 | The chain of fallbacks yields the first non-empty of five candidates, and never an empty name |
| Mime.DispositionFilename | internal/smtp/session.go:283-293 | The loop finds the first `filename=` piece, without quotes |
| Mime.NameIsReadBack | internal/smtp/session.go:283-293 | A name written into a Content-Disposition header in the usual way is read back |
| Mime.FirstParameter | internal/smtp/session.go:285-292 | The first piece that names a file decides, without its quotes and spaces |
| Mime.CandidatesAre | internal/smtp/session.go:275-329 | The sources of a name in order: parsed header, its raw text, the content type's parameter, the extra header, the clock |
| Mime.DefaultExtensionIs | internal/smtp/session.go:313-324 | Images get their subtype if there is just one slash, then PDF and text have their own extension |
| Mime.Storage.SaveAll | internal/smtp/session.go:381-395 | The save loop writes exactly the successful attachments, in order, and sets exactly their paths |
| Mime.LastSaveWins | internal/smtp/session.go:429-450 | A path holds the contents of the last attachment saved under it |
| Mime.OtherFilesKept | internal/smtp/session.go:429-450 | Files under which nothing is saved are left alone |
| Mime.PathsByBaseName | internal/smtp/session.go:432-437 | On one date two attachments share a path exactly when their names have the same base, or both mean the directory itself |
| Mime.BaseIs | internal/smtp/session.go:436 | The base of a path is its last element, whatever comes before and however many slashes after |
| Mime.PathIs | internal/smtp/session.go:431-437 | An ordinary name is stored under the mail's own directory, without its own directories |
| Payload.BuildGraph | internal/services/smtp_service.go:153-199 | The Graph request has the job's recipients in order, HTML if present, and every attachment loaded in order, or fails on the first unreadable one |
| Payload.GraphAttachments | internal/services/smtp_service.go:202-232 | Attachments are loaded all and in order, or the first unreadable one is reported |
| Payload.GraphRecipients | internal/services/smtp_service.go:153-183 | The slice filled by index holds the addresses in order |
| Payload.BuildSendGrid | internal/services/sendgrid_service.go:46-88 | The SendGrid message has the job's recipients in order, the non-empty bodies, and every attachment, or fails on the first unreadable one |
| Payload.SendGridAttachments | internal/services/sendgrid_service.go:103-132 | As for Graph |
| Payload.BuildBoth | internal/services/sendgrid_service.go:46-132 | For every job both requests have equal To, CC, BCC and attachment sequences, or both fail on the same first unreadable attachment; they succeed exactly if all can be read |
| Payload.LoadedIs | internal/services/smtp_service.go:209-228 | A loaded attachment has the base of the entry's name, its type or the default one, and the bytes under its path |
| SenderConfigs.SenderConfigService.CreateConfig | internal/services/email_sender_config_service.go:34-64 | Succeeds exactly for an org address, an encryptable secret, a working database and a pair of client and lower-cased address not yet taken; reports which of these failed; otherwise nothing changes |
| SenderConfigs.SenderConfigService.GetBySenderEmail | internal/services/email_sender_config_service.go:76-83 | Finds an active config of the client for the lower-cased address, and reports none only if there is none or the database fails |
| SenderConfigs.SenderConfigService.UpdateConfig | internal/services/email_sender_config_service.go:105-134 | Replaces exactly the given fields, never owner or address; a failed read, encryption or save changes nothing |
| SenderConfigs.SenderConfigService.DeleteConfig | internal/services/email_sender_config_service.go:137-143 | Deletes exactly an existing config that no mail refers to; any failure, of the database too, reads as not found |
| SenderConfigs.SenderConfigService.GetDecryptedConfig | internal/services/email_sender_config_service.go:151-163 | Returns the config with its decrypted secret, or says which step failed |
| SenderConfigs.SenderConfigService.InsertMailRow | migrations/002_email_sender_configs.sql:31 | A mail row is inserted exactly if its ID is new and the config it refers to exists |
| SenderConfigs.TableInvariant | migrations/002_email_sender_configs.sql:17-31 | After any run of operations addresses are lower-case, end with the org domain, are unique per client, every mail's config exists and every secret decrypts |
| SenderConfigs.LookupIsUnique | internal/services/email_sender_config_service.go:76-83 | In every run a lookup has at most one answer, whatever the capitalisation |
| SenderConfigs.CreatedIsFound | internal/services/email_sender_config_service.go:34-83 | A config just created is the one the client's next lookup finds, in any capitalisation, active, with tenant, client and secret as entered, and no other client's lookup finds it |
| SenderConfigs.SwitchedOffIsNotFound | internal/services/email_sender_config_service.go:76-83 | A config that has been switched off is found by no lookup, and again once switched on |
| SenderConfigs.CreationIs | internal/services/email_sender_config_service.go:34-64 | A creation is possible exactly for an org address not yet used by the same client; other clients may use it |
| SenderConfigs.UpdatedFields | internal/services/email_sender_config_service.go:105-134 | An update changes the fields the request gives, and no other |
| SenderConfigs.ConfigOutlivesMail | migrations/002_email_sender_configs.sql:31 | A stored mail's config is there at any later time with a secret that decrypts, whatever is created, updated or deleted meanwhile |
| ConfigIntegrity.ConfigsOfJobs | migrations/002_email_sender_configs.sql:31 | In every run of submissions, deliveries, retries, crashes and config operations, a job with a config, be it in the queue, a timer, a worker or the failed queue, names an existing config of its own sender's address whose secret decrypts, and deleting that config changes nothing |
| ConfigIntegrity.AlwaysLinked | internal/api/handlers/mail_handler.go:113-115 | In every such run the row of every submitted mail refers to the config its job names |
| ConfigIntegrity.Halves | internal/worker/consumer.go:178-192 | The mail half of such a run is a run of the life cycle and the table half a run of the config operations, so all laws of both hold |
| SenderConfigs.LastSecretReturned | internal/services/email_sender_config_service.go:105-163 | The secret last entered for a config is the one decrypted later, through any operations that do not replace it |
| MailApi.MailHandler.Send | internal/api/handlers/mail_handler.go:67-251 | Succeeds exactly if an org sender has an active config and attachments, row and queue work; otherwise says what failed first; the job then carries a matching config exactly for org senders, its row refers to that config, and so the config cannot be deleted; the records change as in the producer's three steps, or not at all. The job says what the request says, field by field. |
| MailApi.MailHandler.StoreAttachments | internal/api/handlers/mail_handler.go:136-200 | All attachments are written and listed in order, or the first refusal and its reason are reported and the files before it stay |
| MailApi.RefusalIs | internal/api/handlers/mail_handler.go:138-187 | No base64, more bytes than the limit in mebibytes, and a failed write are refused each for its own reason, and nothing else is refused |
| MailApi.JobSaysTheSame | internal/api/handlers/mail_handler.go:203-229 | The job has the request's sender, recipients, CC, BCC, subject, bodies and metadata, and entry i the name, type and path of attachment i |
| MailApi.BatchSaysTheSame | internal/api/handlers/mail_handler.go:254-285 | The job of each accepted mail is found in the queue where the results before it say, and says what the mail says |
| MailApi.LastWriteWins | internal/api/handlers/mail_handler.go:158-175 | Of the attachments that share a path the last one is what the job's entries will read |
| MailApi.JobPinsConfig | migrations/002_email_sender_configs.sql:31 | A config named by a queued job exists and is referred to, so deleting it fails |
| MailApi.MailHandler.Submit | internal/api/handlers/mail_handler.go:203-243 | Row, reference to the config, queue and cache after any combination of failing calls, the ignored ones included; together they are the producer's three steps of the life cycle |
| MailApi.MailHandler.ProcessSingleMail | internal/api/handlers/mail_handler.go:288-412 | The result says what became of the mail; its row and reported status fit the result, whichever ignored writes fail; other mails are untouched; the job has no sender config; the records change as in the producer's three steps, or not at all. The published job says what the request says, field by field. |
| MailApi.MailHandler.SendBatch | internal/api/handlers/mail_handler.go:254-285 | Result i describes mail i, and its row and reported status at the end of the batch, whichever ignored writes fail; the queue grows by the successful jobs. The job of each accepted mail says what that mail says. |
| MailApi.SuccessPosition | internal/api/handlers/mail_handler.go:272-285 | A mail that succeeds is published at the position given by the number of successes before it: batch order is queue order |
| MailApi.SuccessCount | internal/api/handlers/mail_handler.go:272-285 | As many jobs are published as mails succeed |
| MailApi.MailHandler.GetStatus | internal/api/handlers/mail_handler.go:415-444 | Reports the cache entry if it can be read and the row otherwise, as `StatusReports.Report` does when both can be read |
| MailApi.MailHandler.Cancel | internal/api/handlers/mail_handler.go:479-513 | Succeeds exactly when the row can be read and the canceller's read step is enabled, and then leaves what the canceller's three steps of the transition system leave, whichever writes fail |
| MailApi.SizeLimitIsExact | internal/api/handlers/mail_handler.go:148-149 | Dividing the size twice by 1024 and comparing refuses exactly sizes above the limit in bytes |

## Left out

- One worker process with one channel is modelled; several processes would each have their own channel and timers.
- The prefetch buffer between broker and workers is part of the queue, from which a delivery may take any position.
- The columns `error_message`, `sent_at`, the timestamps and `client_name` are not modelled.
- HTTP, AMQP, KeyDB and database wire behaviour, JSON, base64, AES-GCM and JWT are reduced to calls that succeed or fail, and to an encryption that decryption undoes.
- Publishing to the failed queue and publishing from a timer succeed while the channel is open; a broker that refuses a publish on an open channel is not modelled.
- Deliveries that do not parse as a job, which the program nacks, are left out: every published message is a marshalled job.
- Lower-casing and trimming work on ASCII; Unicode case folding is not modelled.
- `GetHistory`, authentication, admin tokens, the encryption service, health checks, route registration, request binding and `main` add only easy members.
- `PublishRetry` and `PublishFailed` of internal/services/queue_service.go have no callers in the modelled code.
- The 30 s limit and the polling ticker of `GracefulShutdown` are not modelled; closing the channel may happen at any time instead.
- The TTL of cache entries is not modelled; an entry may expire at any time instead.
- The path cleaning of client-supplied file names in the HTTP API is a parameter: any function from names to paths.
- A failed write of an attachment leaves the disk as it was; a partly written file is not modelled.
- Saving happens on one date; a save loop that runs over midnight is not modelled.
- MIME streams are finite: a reader that returns errors for ever keeps the loop of internal/smtp/session.go:238-246 going for ever.
- The command ordering that the SMTP library enforces is not modelled; the session is proved for every trace.
- The `client_tokens` table and its cascade, and concurrent updates of one config, are not modelled.
- A config lookup and the insertion of the row that refers to it are one step of `ConfigIntegrity`; a config deleted in between makes the insertion fail, and IDs are not used twice.
- A client token that is not a UUID is refused by `Send` before the lookup; the model starts from a parsed token.
- The overflow of `expires_in` times one second, and the RWMutex's preference for waiting writers, are not modelled.
- OAuth.FetchesAreSpaced: says nothing after an empty token, because the code then always fetches again.
