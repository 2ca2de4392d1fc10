# A verified model of AIM Data's session, login, publish and disclosure logic

A Dafny model of the parts of AIM Data where several tasks, requests or attempts share
state, with proofs of what holds in every run. `dafny verify dfyconfig.toml` checks all
of it.

Each part comes as a class that updates its tables in place, proved method by method
against functions on their values; a state machine whose steps are what the code runs
between two awaits, with every interleaving allowed; and theorems about all runs of that
machine. A "run" starts in the initial state and takes any enabled steps in any order.
The theorems say what can only happen and also what must: which request is answered how,
in both directions, and that an upload gets to its end.

| Files | What they model |
|---|---|
| `mcp_tables`, `mcp_guard`, `mcp_runs`, `mcp_answers` | The MCP session guard: reservations, bindings, the registry lock, the enqueue gate, disabling, and exactly what each request is answered |
| `mcp_watchdog`, `mcp_punctual`, `mcp_lateness` | Its watchdogs and deadlines, and how late things can be |
| `mcp_first_frame`, `mcp_frame_verdicts` | The guard's output buffer and the recognition or refusal of the endpoint event (section 9.2.5 of the HTML Standard) |
| `oauth_flow`, `oauth_runs`, `oauth_results` | The loopback OAuth transaction (sections 4.1 to 4.5 of RFC 7636, section 10.12 of RFC 6749) |
| `publish`, `publish_runs`, `publish_origin`, `publish_retries`, `publish_uploads` | Resumable publishing of a local dataset |
| `sliding_window` | The limiters of the Co-Pilot and the portal |
| `copilot_registry`, `copilot_runs`, `copilot_residue`, `copilot_rate` | The Co-Pilot connection registry, late cleanup, what a session leaves behind, and its message rate |
| `portal`, `portal_runs` | Portal sessions, rotation, settings requests, restarts |
| `disclosure`, `disclosure_replay` | Preview disclosure validators and the replay of decisions |
| `issue_tracker` | The bounded tracker of recent issues |

## Assumptions

- Random values (nonces, states, verifiers, session ids, owner tasks, upload attempts) are
  fresh, and digests are injective where they stand for their argument.
- The wall clock and the monotonic clock advance together, at a fixed distance. Times are
  real numbers; rounding is not modelled. Clocks do not run backwards.
- Token validation, readiness, the token exchange, the receiver's answers, file reads and
  inclusion proofs are inputs of a step: any answer is possible.
- Disabling connectivity is clearing the flag and then detaching everything under the
  enqueue gate (`app/services/connectivity_state.py:89-133`).

## What turned out otherwise

The model follows the code. Where a property one would expect fails, there is a lemma that
shows it failing and one that says when it holds:

- A promotion compares the clock it read before it took the registry lock. Waiting behind
  another connection's POST it can come after its own watchdog's timer fired; the watchdog,
  next in the queue, then finds nothing to drop and ends, and the binding has none
  (`AWatchdogCanBeLost`). A streaming connection lacks a watchdog exactly when its promotion
  was late in that sense (`LateIffUnguarded`).
- A POST holds the registry lock for its whole call into the SDK. A watchdog that renews
  behind it measures its sleep from the clock it read before the wait and begins it after,
  so it sleeps past the deadline by the length of the wait (`ALockWaitOversleeps`), exactly
  when it waited longer than what remains beyond the minute it sleeps at most
  (`RenewalOversleepsIff`). With watchdogs woken on the schedule they compute and delayed by
  the lock alone, a binding outlives its deadline by no more than its connection waited for
  the lock, and not at all if it did not wait
  (`McpPunctual.NoBindingOutlivesItsDeadline`); a revoked token is gone after 60 seconds and
  the waits (`RevokedIsGoneWithin60`).
- A POST compares the deadline with the clock it read before it took the lock, so an
  enqueue can be decided after the deadline (`AnEnqueueCanBeLate`), but by less than its own
  task was delayed, since the lock is free from the sample to the decision
  (`EnqueueBeforeDeadlineIff`); and never when nothing delays it
  (`PromptEnqueuesAreInTime`).
- An endpoint event whose data line ends in a line feed and whose blank line ends in a
  carriage return and line feed matches the regular expression but contains neither marker.
  It is waited on, and nothing that may follow makes it recognised
  (`MixedEndingIsNeverRecognised`; `RecogniseIff` is exact).
- A publish reply without a status is recorded as pending and closed at the full offset with
  nothing sent (`SilentReplyIsDishonest`, `CompletionCanMeanNothingSent`). A checkpoint goes
  into whatever progress record stands, also another attempt's
  (`ForeignCheckpointIsDishonest`). With both looked at first, progress is honest in every
  run (`CompletionMeansAllSent`), and one attempt at a time, answered with a status, needs
  not even look (`RetriesAreCareful`).
- Dropping or replacing a Co-Pilot session throws away the entry of its task without knowing
  whether it still runs. Such a task writes into the maps after its handler has cleaned up
  (`ResidueAfterCleanup`). A cleanup is the end of its session exactly when none of the
  session's own tasks runs at that moment (`CleanupIsFinalIff`).
- The limit of 30 messages a minute is kept per log, and dropping a session throws the log
  away while its handler still receives, so more can pass (`MoreThanTheLimit`). Between two
  removals the limit is exact (`RateBetweenRemovals`), and over the whole life of a session it
  holds for the messages that can start a task (`RateOfASession`).
- A settings request can rotate the portal's access code and then be refused, which leaves
  the rotation in the cache only. A restart brings the old sessions back
  (`RejectedRotationIsUndone`); it does so exactly when the file lists a session that the
  cache does not (`RestartIsSafeIff`).
- Nothing keeps a disclosure version from being used twice. A disclosure is current exactly
  when the last decision of its owner carries its version (`CurrentIffLastVersion`), so a
  reused version brings an old disclosure back (`ReusedVersionComesBack`).
- The docstring of `get_portal_session` calls the sso tier not implemented; the code
  implements it and so does the model. The issue tracker's heading says that old issues are
  cleared; the code only leaves them out of the list, and so does the model.

## Model

| member | source | states |
|---|---|---|
| `McpTables.TokenDeadlineBounds` | app/routers/mcp.py:97-104 | A deadline lies within the hour after the sample, and within the token's expiry exactly when the token had not expired at the sample |
| `McpTables.SubtablesConsistent` | app/routers/mcp.py:467-526 | Whatever subset of the entries is dropped, capacity, distinct owners and the two flags survive |
| `McpTables.ReserveConsistent` | app/routers/mcp.py:202-218 | Sweeping and admitting keeps at most 32 entries and one entry per owner task |
| `McpTables.PromoteConsistent` | app/routers/mcp.py:265-281 | Turning a reservation into a binding keeps capacity, distinct owners and the flags |
| `McpTables.DropReservationCancels` | app/routers/mcp.py:467-472 | A dropped reservation adds exactly its owner to the cancel actions, once, unless that task is done |
| `McpTables.DropSessionCancels` | app/routers/mcp.py:474-481 | The same for a dropped binding |
| `McpTables.AuthenticatedMcpSse.SweepLocked` | app/routers/mcp.py:512-526 | The two loops keep exactly the live, unexpired entries, and hand back one action for each dropped entry whose owner still runs |
| `McpTables.AuthenticatedMcpSse.SweepBindings` | app/routers/mcp.py:519-525 | The second loop, with the actions of the first kept in front |
| `McpTables.AuthenticatedMcpSse.AdmitGet` | app/routers/mcp.py:202-218 | Admission sweeps, then refuses when disabled or full, else reserves with a ten second deadline |
| `McpTables.AuthenticatedMcpSse.Promote` | app/routers/mcp.py:265-281 | Promotion happens exactly when the reservation is still there, its owner's, in time and enabled; otherwise nothing changes |
| `McpTables.AuthenticatedMcpSse.OwnerFinally` | app/routers/mcp.py:302-307 | The owner removes its own entries only, with no cancel action |
| `McpTables.AuthenticatedMcpSse.EnqueueDecision` | app/routers/mcp.py:353-365 | Sweep, decide by binding, token, flags, deadline and connectivity, and stamp the binding if allowed |
| `McpTables.AuthenticatedMcpSse.Renew` | app/routers/mcp.py:416-427 | The watchdog's renewal moves the deadline down to the token's and reports what remains |
| `McpTables.AuthenticatedMcpSse.DetachReservation` | app/routers/mcp.py:467-472 | Removes one reservation and cancels its owner; nothing when it is not there |
| `McpTables.AuthenticatedMcpSse.DetachSession` | app/routers/mcp.py:474-481 | Removes one binding and cancels its owner; nothing when it is not there |
| `McpTables.AuthenticatedMcpSse.DetachSessionIfToken` | app/routers/mcp.py:490-498 | The same only when the binding carries that token id |
| `McpTables.AuthenticatedMcpSse.DetachAll` | app/routers/mcp.py:500-510 | Empties both tables and cancels every owner exactly once |
| `McpGuard.TableStepHolds` | app/routers/mcp.py:202-218 | In one step a reservation can only come from an admission, a binding only from a promotion, and only its own watchdog moves a deadline, downwards |
| `McpGuard.ConnStepHolds` | app/routers/mcp.py:178-310 | In one step a connection keeps its token, gets a session only by claiming one, and moves through its phases as the handler does |
| `McpGuard.WiredStep` | app/routers/mcp.py:265-307 | Entries always belong to the connection they were made for, with its session and its token id |
| `McpRuns.ConservedStep` | app/routers/mcp.py:302-307 | Every step keeps the ledger: an admitted connection is in the tables, or was cancelled, or ended by itself, exactly one of the three |
| `McpRuns.RemovalIsCancelledOnce` | app/routers/mcp.py:467-526 | An entry that goes adds exactly one cancel action for its owner, unless the owner removed it or a sweep found the owner done |
| `McpRuns.CleanupSparesItself` | app/routers/mcp.py:302-307 | The cleanup of one owner takes no entry of another |
| `McpRuns.ActionsAreTheDropped` | app/routers/mcp.py:500-538 | The action list of the class is, as a multiset, the set of owners that lost their entry, less the spared ones |
| `McpRuns.ConsistentStep` | app/routers/mcp.py:202-281 | Capacity, distinct owners and the flags are kept by every step of the whole system |
| `McpRuns.EveryStateIsSafe` | app/routers/mcp.py:202-307 | In every state of every run: at most 32 entries, no task with two, every binding enqueueable and not closing, one fate per admitted connection and at most one cancel |
| `McpRuns.BindingOrigin` | app/routers/mcp.py:265-281 | A binding goes back without a gap to one promotion of its session |
| `McpRuns.ConnOrigin` | app/routers/mcp.py:186-199 | A connection carries the token its GET was validated with |
| `McpRuns.EnqueueProvenance` | app/routers/mcp.py:353-370 | Every enqueue for a session and token follows a GET with that token id and its promotion, with the session bound to them at every moment between, strictly before the deadline at the sampled clock, and enabled |
| `McpRuns.EnqueueRunsEnabled` | app/routers/mcp.py:364-373 | Connectivity stays enabled, and the tables unchanged, for the whole of the SDK call |
| `McpRuns.DisabledMeansEmpty` | app/routers/mcp.py:500-510 | Once disabling has detached, until enabling: both tables empty, nothing enqueued, whatever resumes |
| `McpRuns.NeverAgain` | app/routers/mcp.py:265-281 | An admitted connection that is out of the tables never gets back in |
| `McpRuns.DetachedForever` | app/routers/mcp.py:500-510 | A connection admitted when everything is detached is never promoted or enqueued to again, also after enabling |
| `McpRuns.BoundIsNeverPromotedAgain` | app/routers/mcp.py:265-281 | A session that is bound is never promoted again in the rest of the run |
| `McpRuns.DeadlineNeverIncreases` | app/routers/mcp.py:420-421 | Between two moments at which a session is bound it is bound throughout, to the same GET, and its deadline only comes closer |
| `McpAnswers.PostAnswer` | app/routers/mcp.py:351-373 | A POST that decides is enqueued exactly when its session is bound to its token, with a deadline after the clock the POST sampled, by a task that has not ended; otherwise the gate opens. Only an enqueue stamps its binding |
| `McpAnswers.AdmissionAnswer` | app/routers/mcp.py:202-218 | A GET is admitted exactly when connectivity is enabled and fewer than 32 entries are live at its clock; it then has ten seconds from that clock |
| `McpAnswers.PromotionAnswer` | app/routers/mcp.py:263-281 | A first frame is promoted exactly when its GET still has its reservation, the frame was recognised within ten seconds of the arrival, and connectivity is enabled; the binding made carries the token, the owner and the deadline of these |
| `McpAnswers.TokenDeadlineExactly` | app/routers/mcp.py:97-104 | The deadline is the first moment at which the hour is over or the token, by the wall clock, has expired |
| `McpAnswers.CheckAnswer` | app/routers/mcp.py:395-415 | A watchdog that looks goes on exactly when its session is bound, the deadline is not reached and the token validates; else it closes the session, or ends if there is none |
| `McpAnswers.RenewAnswer` | app/routers/mcp.py:416-432 | A renewal lowers the deadline to the validated token's and no further, and sleeps a minute or what is left; with nothing bound it ends |
| `McpAnswers.CleanupExactly` | app/routers/mcp.py:302-307 | An owner's cleanup takes exactly its reservation, and the binding of its session exactly when it is its own |
| `McpAnswers.EntriesLeaveExactly` | app/routers/mcp.py:467-526 | In every run an entry leaves the tables at a step exactly where the step is one that takes it: a sweep that finds it lapsed or its task ended, its promotion, its cleanup, a detach of it, its watchdog, or disabling |
| `McpWatchdog.LateIffUnguarded` | app/routers/mcp.py:393-435 | A streaming connection lacks a watchdog exactly when its promotion came after the watchdog's timer fired |
| `McpWatchdog.DeadlineBounds` | app/routers/mcp.py:97-104 | No deadline passes creation plus an hour, nor any token expiry ever observed for the binding |
| `McpPunctual.NoBindingOutlivesItsDeadline` | app/routers/mcp.py:394-432 | On schedule, a watched binding outlives its deadline by at most what its connection waited for the lock since the clock of its cycle was sampled, and not at all without a wait; it never sleeps over a minute, nor longer than the deadline had left at the sample |
| `McpPunctual.OnlyTheLockDelaysAWatchdog` | app/routers/mcp.py:353-373 | What a connection waits for its promotion, and while it streams, is time for which a POST's call into the SDK holds the registry lock |
| `McpPunctual.RenewalOversleepsIff` | app/routers/mcp.py:415-432 | A renewal sleeps past the deadline exactly when it waited for the lock longer than what remains beyond a minute |
| `McpPunctual.RevokedIsGoneWithin60` | app/routers/mcp.py:409-432 | On the same schedule, a binding whose token fails every later validation is gone once 60 seconds and its waits for the lock have passed |
| `McpLateness.AWatchdogCanBeLost` | app/routers/mcp.py:264-270 | A punctual run in which a promotion waits behind another connection's POST, its watchdog's timer fires, and the binding stays with no watchdog past its deadline |
| `McpLateness.ALockWaitOversleeps` | app/routers/mcp.py:415-432 | A punctual run in which a watchdog whose renewal queued behind a POST is asleep past the deadline, with the lock free |
| `McpLateness.EnqueueBeforeDeadlineIff` | app/routers/mcp.py:351-365 | An enqueue goes back to the arrival of its POST, which sampled the clock before the deadline, with the lock free ever since; it is decided before deadline and delay together, so in time exactly when the delay is less than was left |
| `McpLateness.PromptEnqueuesAreInTime` | app/routers/mcp.py:351-365 | If no time passes while a POST has only to decide, every enqueue is decided strictly before the deadline |
| `McpLateness.AnEnqueueCanBeLate` | app/routers/mcp.py:351-365 | A run in which a delayed POST enqueues after the deadline |
| `McpFirstFrame.MatchSound` | app/routers/mcp.py:32-34 | What the regular expression matches is an endpoint event with that session id |
| `McpFirstFrame.MatchComplete` | app/routers/mcp.py:32-34 | It matches every endpoint event, whatever mixture of line ends |
| `McpFirstFrame.RecogniseIff` | app/routers/mcp.py:251-262 | A body is recognised exactly when it is one endpoint event of at most 4096 bytes that ends in a marker |
| `McpFirstFrame.MixedEndingIsNeverRecognised` | app/routers/mcp.py:254-256 | An event with one mixture of line ends matches and is waited on, and no continuation of it is ever recognised |
| `McpFirstFrame.PrefixWaits` | app/routers/mcp.py:252-256 | Every proper prefix of a recognised event is waited on |
| `McpFirstFrame.OutputGuard.GuardedSend` | app/routers/mcp.py:243-286 | One SDK message: passed on, buffered, refused, or promoting and flushing |
| `McpFirstFrame.OutputGuard.FlushBuffered` | app/routers/mcp.py:283-286 | Sends the buffer in order, up to where the transport fails |
| `McpFirstFrame.ClientSeesAPrefix` | app/routers/mcp.py:243-295 | For any chunking the client sees an in-order verbatim prefix, none of it when refused, and none before a promotion was granted at the call with which the bodies were one endpoint event within the limit |
| `McpFirstFrame.AnyChunkingPromotes` | app/routers/mcp.py:250-286 | An endpoint event is recognised however it is cut, and then everything is sent |
| `McpFrameVerdicts.VerdictIff` | app/routers/mcp.py:250-262 | A body is waited on exactly while it has no blank line and at most 4096 bytes, and refused exactly when it has one, or too many, and is not one endpoint event that ends in a marker |
| `McpFrameVerdicts.HeldBack` | app/routers/mcp.py:248-256 | While the bodies are undecided nothing is sent and everything is held, whatever the chunking |
| `McpFrameVerdicts.FirstDecision` | app/routers/mcp.py:250-286 | The call with which the bodies are first decided settles it: all that was held goes out, up to a transport failure, if they are one endpoint event and the promotion is granted; otherwise the client is refused with nothing sent |
| `McpFrameVerdicts.SettledStays` | app/routers/mcp.py:243-295 | A client that was refused, or whose transport failed, gets nothing more |
| `McpFrameVerdicts.PassedOn` | app/routers/mcp.py:243-247 | After a promotion every message goes out as it comes, up to the first that fails |
| `OAuthFlow.Flow.Cleanup` | app/services/aim_market_oauth.py:101-110 | The loop leaves a tombstone for each lapsed attempt and drops other lapsed records |
| `OAuthFlow.Flow.DisableAll` | app/services/aim_market_oauth.py:55-61 | The loop turns every attempt into a tombstone with its expiry |
| `OAuthFlow.Flow.Allocate` | app/services/aim_market_oauth.py:120-124 | Cleans, refuses a new key at 1024 records, else stores a new record |
| `OAuthFlow.Flow.CountHit` | app/routers/aim_market_oauth.py:55-60 | At most ten hits a minute, the rest of the record kept |
| `OAuthFlow.Flow.Bootstrap` | app/routers/aim_market_oauth.py:50-62 | Counts both keys and leaves the nonce in the browser's record |
| `OAuthFlow.Flow.StartSection` | app/routers/aim_market_oauth.py:83-96 | Spends the nonce and the previous binding, then stores a pending attempt |
| `OAuthFlow.Flow.CallbackOpen` | app/routers/aim_market_oauth.py:117-129 | Opens only a pending record with that state, and takes its verifier |
| `OAuthFlow.Flow.CallbackWrite` | app/routers/aim_market_oauth.py:156-158 | Writes only where the very same record still is |
| `OAuthFlow.Flow.CompleteSection` | app/routers/aim_market_oauth.py:164-183 | Removes the record and delivers its result only if it is complete and enabled |
| `OAuthRuns.InvStep` | app/routers/aim_market_oauth.py:48-186 | Every step keeps each attempt where its record, its callback and its counters agree |
| `OAuthRuns.AtMostOnce` | app/routers/aim_market_oauth.py:117-183 | In every run each verifier is exchanged at most once, logs in at most once and is delivered at most once |
| `OAuthRuns.StagesOnlyAdvance` | app/routers/aim_market_oauth.py:122-183 | A transaction only moves pending, exchanging, complete, gone |
| `OAuthRuns.StaleForever` | app/routers/aim_market_oauth.py:134-158 | A callback whose record was replaced or removed never finds it again |
| `OAuthRuns.StaleCallbackDoesNothing` | app/routers/aim_market_oauth.py:134-158 | Such a callback completes no login and writes nothing, however late it resumes |
| `OAuthRuns.NonceStartsOnce` | app/routers/aim_market_oauth.py:76-96 | No two starts spend the same nonce, however they interleave |
| `OAuthRuns.ExchangeProvenance` | app/routers/aim_market_oauth.py:89-133 | The verifier exchanged is that of the start that handed out the binding and published the state the callback presented |
| `OAuthResults.StartAnswer` | app/routers/aim_market_oauth.py:83-96 | A start is refused exactly when the nonce does not stand, or when 1024 records are kept and its binding is none of them; else its transaction is pending for ten minutes |
| `OAuthResults.CallbackAnswer` | app/routers/aim_market_oauth.py:117-129 | A callback opens exactly a pending transaction with its state, unexpired and with the configuration unchanged; a transaction past that is answered 410 and everything else 400 |
| `OAuthResults.StartedIsOpened` | app/routers/aim_market_oauth.py:83-129 | A transaction a start handed out is opened by the callback with its binding and its state within ten minutes, if its record is still there and none opened it before |
| `OAuthResults.LoginAnswer` | app/routers/aim_market_oauth.py:134-139 | A callback with its tokens logs in exactly when its record is still there, unexpired |
| `OAuthResults.ResultOrigin` | app/routers/aim_market_oauth.py:130-158 | The result a callback writes is the failure of its exchange, the result of its login, or that of a login come too late |
| `OAuthResults.DeliveredIsWritten` | app/routers/aim_market_oauth.py:156-186 | In every run what is delivered for a flow is the result that its own callback wrote into the record the completion names, and that its exchange or login ended with |
| `OAuthResults.WrittenIsDelivered` | app/routers/aim_market_oauth.py:156-186 | A result a callback wrote into its record is delivered, exactly that one, by a completion for the record within a minute with a standing nonce and the flow enabled, if the record is still there |
| `OAuthResults.CompletionAnswer` | app/routers/aim_market_oauth.py:163-183 | 403, 409, 410 or the result, each exactly when; a transaction that is found is removed whatever the answer |
| `OAuthResults.CleanupAnswer` | app/services/aim_market_oauth.py:101-110 | An expired attempt becomes a tombstone for ten minutes, another expired record goes, an unexpired one stays |
| `OAuthResults.DisableAnswer` | app/services/aim_market_oauth.py:55-61 | Disabling ends every attempt, keeps its expiry, and touches no other record |
| `OAuthResults.CountAnswer` | app/routers/aim_market_oauth.py:55-60 | A hit is counted exactly when its record holds fewer than ten of the last 60 seconds and there is room for it |
| `OAuthResults.BootstrapAnswer` | app/routers/aim_market_oauth.py:50-62 | A bootstrap is answered exactly when both of its keys are counted, and then the browser's record holds the nonce |
| `Publish.RenumberingIsTheRank` | app/routers/marketplace_publish.py:487-494 | Renumbering takes each surviving index to the number of surviving ones before it: a strictly increasing bijection onto 0..n-1 |
| `Publish.LocalMemberProfiles` | app/routers/marketplace_publish.py:423-450 | The two loops compute the inverse of the mapping and the projected profiles |
| `Publish.InverseLooksUp` | app/routers/marketplace_publish.py:429-430 | Turned round, the mapping finds exactly the index each published one came from |
| `Publish.ProfilesComeFromTheirRows` | app/routers/marketplace_publish.py:431-450 | Each published index carries exactly the stored profile of the row it was renumbered from, once, in order |
| `Publish.LocalPublish.RecordLocalPublish` | app/routers/marketplace_publish.py:519-541 | Conflicts with a different frozen manifest; else freezes if absent and replaces the progress; nothing changes on error |
| `Publish.LocalPublish.LocalProgress` | app/routers/marketplace_publish.py:544-557 | Refuses without a record; else sets offset and status and adds the accepted sample |
| `Publish.RecordThenResume` | app/routers/marketplace_publish.py:477-500 | What was recorded as pending resumes with the same members, root, title and hash at the last checkpoint, whatever became of rows, root and label |
| `Publish.SnapshotAnswer` | app/routers/marketplace_publish.py:463-512 | A pending publish resumes from its frozen manifest and checkpoint; any other is made of the surviving rows, each the member at its rank; refused exactly for a missing row, malformed members, no data member beyond the samples, or samples over the limits |
| `PublishRuns.BaseStep` | app/routers/marketplace_publish.py:465-557 | Every step only extends the store of manifests and keeps every attempt on the manifest of its version |
| `PublishRuns.StoreIsImmutable` | app/routers/marketplace_publish.py:525-532 | In every run a stored manifest never changes and is never dropped |
| `PublishRuns.OnlyFrozenMembersAreSent` | app/services/marketplace_push_service.py:440-445 | Whatever crashes, retries or changes, each member sent for a version is one of a manifest frozen for it, kept unchanged at any later time |
| `PublishRuns.ResumeIsFrozen` | app/routers/marketplace_publish.py:477-484 | A resumed attempt, and every attempt that knows its version, works from the manifest stored for it, and a resumed one from the mapping stored with it |
| `PublishRuns.InvStep` | app/routers/marketplace_publish.py:1423-1478 | A step that looks at the reply's status and at whose record it overwrites keeps progress honest |
| `PublishRuns.SkippedWasSent` | app/routers/marketplace_publish.py:1423-1426 | In careful runs, every member and sample a resume skips was sent for that very version |
| `PublishRuns.CompletionMeansAllSent` | app/routers/marketplace_publish.py:1460-1478 | In careful runs, an attempt that ends pending, and a pending record at full offset, have had every member sent |
| `PublishRuns.SilentReplyIsDishonest` | app/routers/marketplace_publish.py:1426-1478 | When the upload is not entered, the record left behind is honest exactly when the reply carried a status |
| `PublishRuns.ForeignCheckpointIsDishonest` | app/routers/marketplace_publish.py:544-557 | A checkpoint into another version's untouched record is honest exactly when the record is the attempt's own |
| `PublishRuns.CompletionCanMeanNothingSent` | app/routers/marketplace_publish.py:1426-1478 | A run that ends with every member claimed and none sent |
| `PublishOrigin.RunTraced` | app/routers/marketplace_publish.py:477-541 | In every run each stored manifest has the members and the mapping some attempt made of the rows live when it began, or those of a manifest stored before the run; an attempt that does not resume has those of its own beginning |
| `PublishOrigin.ProfilesFollowTheManifest` | app/routers/marketplace_publish.py:429-511 | Each published index carries the profile of its own row among the rows that were live when its manifest was made: by the attempt itself or, resumed, by one that began earlier in the run; for a manifest stored before the run, the profile its stored mapping names, or by number where it has none |
| `PublishRetries.RetriesAreCareful` | app/routers/marketplace_publish.py:1423-1478 | One attempt at a time, each reply with a status: then every checkpoint goes into the attempt's own record |
| `PublishRetries.RetriesComplete` | app/routers/marketplace_publish.py:1460-1478 | So plain retries, whatever crashes or is lost, end pending only with every member and sample sent |
| `PublishUploads.ReplyAnswer` | app/routers/marketplace_publish.py:1423-1463 | A publish that contradicts a stored manifest ends; any other is recorded and goes on at the first member not acknowledged for this version, at its samples, or at its end |
| `PublishUploads.ChunkAnswer` | app/services/marketplace_push_service.py:440-448 | An acknowledged chunk sends exactly the next members, up to the chunk size, records the position after them, and leaves the attempt there, at the samples, or at its end when the state is final |
| `PublishUploads.SampleAnswer` | app/services/sample_upload_client.py:30-68 | An acknowledged sample is recorded as accepted and leaves the attempt at the next sample owed, or at its end |
| `PublishUploads.LossAnswer` | app/routers/marketplace_publish.py:1444-1455 | A lost answer or an unreadable sample ends the attempt and leaves the record as it is; what the receiver took it has |
| `PublishUploads.UploadAdvances` | app/services/marketplace_push_service.py:440-448 | In every run, with its own steps acknowledged as pending, each of them leaves an upload with exactly one step less, whatever other attempts do, and the receiver has all that it went past |
| `PublishUploads.UploadIsEnabled` | app/routers/marketplace_publish.py:1458-1473 | An upload with steps left can take its next one, and with none left it is closing |
| `PublishUploads.UploadCompletes` | app/routers/marketplace_publish.py:1423-1478 | A publish answered as pending, whose own steps are then acknowledged so, closes after as many steps as there are chunks of members not acknowledged before and samples not accepted before, with all of them sent |
| `PublishUploads.ResumeGoesOn` | app/routers/marketplace_publish.py:1423-1463 | In every run a resumed attempt answered with its own version never conflicts and goes on from its checkpoint |
| `SlidingWindow.PrunedTwice` | app/routers/copilot.py:277-279 | Pruning early loses nothing for a later window |
| `SlidingWindow.KeptIsWhatMatters` | app/routers/copilot.py:271-286 | In any later window the limiter remembers every admitted call |
| `SlidingWindow.AtMostTheLimit` | app/routers/copilot.py:271-300 | Over a whole trace, wherever the window is put, never more than the limit is admitted |
| `SlidingWindow.RefusedIffFull` | app/models/portal.py:51-63 | A call is refused exactly when the limit of admitted ones lies in the trailing window, also when check and record read the clock apart |
| `SlidingWindow.RetryIsAdmittedFromReset` | app/routers/copilot.py:281-284 | With nothing in between, a refused caller is admitted exactly from now plus the reset time on |
| `CopilotRegistry.ConnectionManager.Connect` | app/routers/copilot.py:156-181 | Replaces the user's session: cancels its task, closes its socket, removes it everywhere, and installs the new one |
| `CopilotRegistry.ConnectionManager.CancelInflight` | app/routers/copilot.py:208-217 | Cancels the task if it runs and drops the entry |
| `CopilotRegistry.ConnectionManager.DisconnectUnlocked` | app/routers/copilot.py:189-202 | Removes the session from every map and from its user |
| `CopilotRegistry.ConnectionManager.CheckMessageRate` | app/routers/copilot.py:271-286 | One call of the limiter of 30 in 60 seconds, with the time to wait |
| `CopilotRegistry.ConnectionManager.CheckConnectionRate` | app/routers/copilot.py:288-300 | One call of the limiter of 10 in 60 seconds |
| `CopilotRegistry.DisconnectedExactly` | app/routers/copilot.py:189-202 | Disconnecting leaves no mention of the session and every entry of every other as it was |
| `CopilotRuns.BaseStep` | app/routers/copilot.py:156-202 | Every step keeps the maps in agreement and the lock with the one connection that is replacing |
| `CopilotRuns.EveryStateAgrees` | app/routers/copilot.py:156-202 | In every state of every run the user map is one to one onto the active sessions, which are those with a connection time |
| `CopilotRuns.LateCleanupSparesTheReplacement` | app/routers/copilot.py:1425-1440 | The late cleanup of a replaced session changes no user's session and nothing of any other session |
| `CopilotRuns.ConnectAnswer` | app/routers/copilot.py:156-181 | Connecting registers the session at once, unless its user has one: then it waits for that one's registered task, if it runs, and for its socket |
| `CopilotRuns.ReplacementAnswer` | app/routers/copilot.py:156-181 | In every run a replacement ends registered on its own socket, with no trace of the session it replaces, which is another |
| `CopilotRuns.ConnectsAlone` | app/routers/copilot.py:156-181 | With nothing in between and no task to wait for, the steps of a connection are together what the method does |
| `CopilotRuns.CleanupAnswer` | app/routers/copilot.py:1425-1430 | A handler that goes waits for the registered task of its session exactly when it runs |
| `CopilotResidue.CleanupIsFinalIff` | app/routers/copilot.py:1425-1440 | A cleanup leaves no mention of its session, and nothing that may follow brings one back exactly when none of its own tasks runs at that moment |
| `CopilotResidue.ForgettingLosesTrackIff` | app/routers/copilot.py:189-217 | Throwing a session's entry away keeps its running tasks registered exactly when none runs under it |
| `CopilotResidue.CarefulSessionsAreForgotten` | app/routers/copilot.py:1425-1440 | If no entry of this session was thrown away under a running task, its cleanup is final, whatever happens to any other session |
| `CopilotResidue.ResidueAfterCleanup` | app/routers/copilot.py:1528-1535 | A run in which a dropped session's task writes after the cleanup |
| `CopilotRate.LogIsKept` | app/routers/copilot.py:271-286 | In every run a session's log is what the limiter remembers of its checks since the log was last removed |
| `CopilotRate.RateBetweenRemovals` | app/routers/copilot.py:271-286 | Between two removals of a session's log no 60 seconds see more than 30 of its messages pass, and a message is refused exactly when the 60 seconds before it saw 30 |
| `CopilotRate.MessageAnswer` | app/routers/copilot.py:1182-1226 | A message goes on to metering exactly when fewer than 30 passed in the 60 seconds before and no registered task of the session runs |
| `CopilotRate.ConnectionLimit` | app/routers/copilot.py:288-300 | No 60 seconds see more than ten connections of a user let through, and one is turned away exactly when the 60 seconds before it saw ten |
| `CopilotRate.RateOfASession` | app/routers/copilot.py:1182-1255 | Over the whole life of a session, however often its log is removed, no 60 seconds see more than 30 of its messages pass that find its user |
| `CopilotRate.TaskOrigin` | app/routers/copilot.py:1182-1305 | A started task goes back to a message that passed the limiter and found its user, with no other message of the session between |
| `CopilotRate.MoreThanTheLimit` | app/routers/copilot.py:189-202 | A run in which a session that is dropped in between passes 31 messages at one moment |
| `Portal.PortalConfigStore.IssueSession` | app/routers/portal.py:109-130 | A login enters its id under the current version; the token goes out only if saved |
| `Portal.PortalConfigStore.RevokePortalSession` | app/routers/portal.py:519-529 | Removes one id, or reports that it is not there |
| `Portal.PortalConfigStore.UpdatePortalSettings` | app/routers/portal.py:370-442 | The cache and the verdict after a settings request, also when it is refused half way; saved only when accepted |
| `Portal.AccessCodeValidator.Attempt` | app/routers/portal.py:89-97 | Check and record together are one call of the limiter of 5 in 15 minutes |
| `PortalRuns.InvStep` | app/models/portal.py:70-75 | Every step keeps both copies of the table under one version each |
| `PortalRuns.AcceptedIsStanding` | app/middleware/portal_auth.py:158-211 | In the code and sso tiers every accepted token is of a login since the last rotation, neither logged out nor revoked since, and carries the current version |
| `PortalRuns.TableIsOfOneVersion` | app/models/portal.py:70-75 | Each id of the table was issued under the version in force, restarts included |
| `PortalRuns.SavedAndIssued` | app/routers/portal.py:109-130 | A token is handed out exactly by a login that was saved, and the file is the cache exactly after a step that writes it |
| `PortalRuns.AcceptedIffListed` | app/middleware/portal_auth.py:130-215 | A token that was handed out is accepted exactly when the portal is on and not open, the tier allows it, it has not expired, and the table lists its session |
| `PortalRuns.StandingIsAccepted` | app/middleware/portal_auth.py:130-215 | A saved login is accepted, exactly until its time is over and where the tier allows it, as long as nothing ended its session and no restart lost it |
| `PortalRuns.StaleForever` | app/middleware/portal_auth.py:158-211 | What was logged out, revoked or rotated away is never accepted again |
| `PortalRuns.RestartIsSafeIff` | app/models/portal.py:85-107 | A restart, after others that were safe, keeps ended sessions out exactly when the file lists no session the cache does not |
| `PortalRuns.SettingsAnswer` | app/routers/portal.py:370-442 | Which settings requests are refused, before and after the code is changed, and every field of the cached configuration afterwards |
| `PortalRuns.AttemptLimit` | app/routers/portal.py:89-97 | No fifteen minutes see more than five attempts of an address let through, and one is turned away exactly when the fifteen minutes before it saw five |
| `PortalRuns.RejectedRotationIsUndone` | app/routers/portal.py:404-427 | A refused request rotates in the cache only, and a restart revives the old token |
| `Disclosure.PublicIffNoBinaryAnywhere` | app/models/preview_disclosure_schemas.py:124-136 | The recursive check passes exactly when no path through the type leads to binary data |
| `Disclosure.Pigeonhole` | app/models/preview_disclosure_schemas.py:233-236 | Distinct positions below n are at most n |
| `Disclosure.AcceptedSampleProofs` | app/models/dataset_commitment_schemas.py:249-287 | An accepted sample has distinct proof ids and distinct leaves inside the tree, hence at most as many proofs as leaves |
| `Disclosure.AcceptedSampleEvidence` | app/models/preview_disclosure_schemas.py:183-294 | It was scanned before signing, signed and attested before approval, in one package under one signer, with no binary data at any depth |
| `Disclosure.AcceptedIff` | app/models/preview_disclosure_schemas.py:183-294 | A request is accepted exactly when every condition on it, its binding, its commitment and its proofs holds, each bound id and digest among them, either with a sample or with nothing of one |
| `Disclosure.FirstFaultIsNamed` | app/models/preview_disclosure_schemas.py:196-291 | A sample that does not agree is refused with exactly the first of its eleven possible faults, in order |
| `Disclosure.RefusalsAreTrue` | app/models/preview_disclosure_schemas.py:95-152 | Every other refusal, of the binding, the request, the commitment or a proof, names a fault that is there |
| `DisclosureReplay.FixtureReplay.Apply` | scripts/build_preview_producer_evidence.py:36-62 | One decision: the saved answer, a conflict, a stale head, or a new head |
| `DisclosureReplay.DecisionsFormOneLine` | scripts/build_preview_producer_evidence.py:52-61 | In every run each owner's decisions form one line: each supersedes exactly the one before, and the first is no withdrawal |
| `DisclosureReplay.DecisionAnswer` | scripts/build_preview_producer_evidence.py:36-62 | After any run: the saved outcome or a conflict for a request id that was decided; any other request is decided, and becomes the last of its line, exactly when it names the version of the last |
| `DisclosureReplay.ReplayIsIdempotent` | scripts/build_preview_producer_evidence.py:47-51 | A decided request changes nothing when sent again: the original result if identical, a conflict otherwise |
| `DisclosureReplay.DecidedOnce` | scripts/build_preview_producer_evidence.py:47-51 | No request id is decided twice |
| `DisclosureReplay.CurrentIffLastVersion` | scripts/build_preview_producer_evidence.py:64-70 | In every run a disclosure is current exactly when it approves a sample and the last decision of its owner carries its version |
| `DisclosureReplay.ComesBackIff` | scripts/build_preview_producer_evidence.py:61-70 | Whatever follows, it is current later exactly when the last decision then carries its version again |
| `DisclosureReplay.CurrentIffLast` | scripts/build_preview_producer_evidence.py:64-70 | With distinct versions, a disclosure is current exactly while it is the last decided, approved and sampled |
| `DisclosureReplay.SupersededStaysSuperseded` | scripts/build_preview_producer_evidence.py:183-198 | With distinct versions, a superseded disclosure is never current again, however often it is sent |
| `DisclosureReplay.ReusedVersionComesBack` | scripts/build_preview_producer_evidence.py:61-70 | After three decisions the first is current again exactly when the third reuses its version |
| `IssueTracking.IssueTracker.Record` | app/core/issue_tracker.py:58-71 | Counts and moves to the end, or appends and evicts from the front |
| `IssueTracking.IssueTracker.GetActiveIssues` | app/core/issue_tracker.py:73-81 | The issues seen in the last hour, in order |
| `IssueTracking.TrackerHoldsTheNewest` | app/core/issue_tracker.py:58-71 | After any history: exactly the newest distinct codes by last occurrence, in that order, up to the size |
| `IssueTracking.TrackedIffFewSince` | app/core/issue_tracker.py:58-71 | A code is tracked exactly when it occurred and fewer distinct codes than the size came after its last occurrence |
| `IssueTracking.CountsAreSinceInsertion` | app/core/issue_tracker.py:59-67 | Each count is the number of records since the code was last inserted, and its times are those of that record and the last |
| `IssueTracking.ActiveAreRecent` | app/core/issue_tracker.py:73-81 | A code is listed as active exactly when it is among the newest and was last recorded within the hour |

## Left out

- NoBindingOutlivesItsDeadline: speaks of punctual runs, in which no timer is overrun and only the registry lock delays a watchdog; a stalled event loop delays every deadline.
- RestartIsSafeIff: is stated while the file could be read at every restart; one that finds it unreadable drops sessions that are still standing, and reading the file again later brings those back rightly.
- CurrentIffLast: assumes that an owner uses each version once, which the code does not check; CurrentIffLastVersion assumes nothing.
- AcceptedSampleProofs: takes inclusion proofs as an oracle and says nothing of Merkle trees or canonical JSON beyond comparing by value.
- ProfilesFollowTheManifest: says of a manifest stored before the run only that its stored mapping is followed, or its own numbers where it has none, not which rows it was made from; a run may begin with an empty store, and then nothing is left open.
- GuardedSend: the verdict of the promotion is an input of the send (`granted`), as is how many transport sends go through; it is not tied to the promotion of McpGuard.
- MCP: the closing and enqueueable flags of a binding already popped are not kept, since no later section reads them; the HTTP error replies, the bearer context and the POST's own response are not modelled.
- MCP: a binding is a value in its table, not an object, so aliasing of a popped binding is not represented.
- OAuth: the first check of a start, before readiness, is left out, which only allows more runs; cookies, redirects, error codes of the token exchange and the content of results are opaque.
- OAuth: one section reads the clock once, where the source may read it again a moment later.
- Publishing: the signed request, its retry when the version id is missing, dataset removal between steps, S3 datasets, malformed metadata and the hashing of members are not modelled; `build_manifest` and the sample limits are arbitrary predicates.
- Publishing: the order of the three refusals inside the member checks is one refusal.
- Co-Pilot: message contents, pings, nudges, billing and the answers of the stream are not modelled; a handler cancelled from outside and a task whose exception escapes are not either. After a failed greeting the source does not await its disconnect; such a handler is Abandoned here and nothing is claimed of its entries.
- Portal: expiry of sessions is checked by the token only; the file is written in one step; losing the signing secret, the open tier's anonymous sessions and dataset access lists are not modelled.
- Disclosure: field formats, the package identity check before parsing (implied by the one after), platform envelopes and reattestation are not modelled.
- RefusalsAreTrue: does not say which of several faults a refusal names, except for the sample's agreement (FirstFaultIsNamed); the validators of one request may each refuse it.
- UploadCompletes: the upload of a manifest is followed to its end only where its own steps are acknowledged; a lost or unreadable step ends the attempt, and the next one resumes.
- Issue tracker: persisting and reloading, which can exceed the size, are not modelled.
- Configuration clamps, logging, metrics, SQL, migrations and HTTP plumbing: easy members or input and output.
