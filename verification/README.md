# AgentVoice, modelled and proved

A Dafny model of the stateful core of AgentVoice: the voice signalling protocol, the bounded event log and its live
projection, the reconciling observers, crash-safe publication of the service runtime, and the parsers and numeric code
around them.

Each component appears twice. A specification gives the state as a value and each operation as a function; where the
program changes state in place, a class with the same fields and loops is proved to compute that function. Properties
are then lemmas over every event, every run or every input. Files and what they cover:

- `Collections.dfy`: options, bytes, insertion-ordered maps and chains of ancestors, used throughout.
- `ClientSession.dfy`, `ClientMediaSession.dfy`: the browser side of a voice connection, as a specification and as the
  object that carries it out. Timers are events that may fire at any moment; an `await` splits a call in two.
- `VoiceManager.dfy`, `NativeLink.dfy`: the manager of native realtime sessions, and the manager joined to the server
  that the header of `src/core/session.ts` describes. Messages from the server carry ghost marks that say whom they
  concern; the program never sees them.
- `AttachChain.dfy`, `VoiceSystem.dfy`: attach and detach requests serialised behind slow stops, and the three parts
  together.
- `Feed.dfy`, `FeedWrites.dfy`: the replay buffer against an unbounded log, and what each call publishes, evicts and
  answers.
- `Projection.dfy`, `ProjectionHolds.dfy`: the live projection; that what it holds is faithful to the log, and that
  nothing is dropped without a reason.
- `LiveFeed.dfy`: the two together with a client that reads a snapshot and the pages after it.
- `Paging.dfy`: byte-bounded paging over a native list, the ancestor check and scoped cursors.
- `ThreadObserver.dfy`, `ThreadScan.dfy`, `ThreadNotes.dfy`: an inventory merged from slow scans, single reads and
  notifications; that none rewinds the others, what a scan must leave behind, and what each notification must do.
- `ProcessTree.dfy`: the transitive closure of a child process over changing process tables with reused pids.
- `RuntimeStage.dfy`: publication by rename, where any file operation may fail or be the last before a crash.
- `Theme.dfy`: the counted fence that keeps late terminal replies from being believed.
- `Fft.dfy`, `AudioAnalyzer.dfy`, `Wav.dfy`: the in-place transform, the streaming analyser that uses it, and the WAV
  printer and parser (WAVE form, Microsoft/IBM Multimedia Programming Interface and Data Specifications 1.0).
- `Plist.dfy`, `Jpeg.dfy`, `RecordingTail.dfy`: a property list printed and read back (section 4.6 of XML 1.0), the
  JPEG check against the segment grammar of ITU-T T.81 Annex B, and the reader of a growing transcript.

The handlers of the two voice classes, like every class here, are tied to the specification function of the same call;
what is proved about them is proved of those functions, over runs, in the modules named `...Laws` and in
`VoiceSystem.dfy`. The laws come in two kinds: what never happens (nothing is crossed, rewound, lost or sent twice) and
what has to happen (a call comes up, a failure is retried, an answer is delivered, a thread that was read is listed).
The second kind is stated from the events alone, not from the functions that handle them.

## Where the code does not keep a promise

Five properties hold only under a condition. Each has a lemma with a run or input in which it fails and one that says
exactly when it holds.

- A redial is meant to be resolved only when the session it awaits connects. An empty failure text resolves it too
  (`src/console/client-session.ts:350-356`). A browser cannot send one (`src/frontend/media-protocol.ts:19`); a native
  error or a refused start can (`src/core/session.ts:77-80` and `124-129`, `src/core/runtime.ts:236`).
  `VoiceSystem.BlankErrorResolves` is such a run of the whole system, `ClientSessionLaws.BlankFailureResolves` what
  the browser side sees of it, and `ClientSessionLaws.ResolvedMeansConnected` the exact condition.
- An unsolicited `closed` or `error` is taken to concern the newest start (`src/core/session.ts:14-16`). If it concerns
  an older one, the successor keeps running unowned: `NativeLinkLaws.StaleEndStrandsSuccessor`. That, and a refused
  stop, are the only ways: `NativeLinkLaws.StrandedExactly`.
- A native cursor that is the empty string is sent as no cursor, so the list begins again
  (`src/core/conversation-items.ts:37`): `ConversationItemsLaws.EmptyTokenRepeats`, and
  `ConversationItemsLaws.NamedExactly` for the exact condition.
- The theme does not know whose replies it hears (`scripts/waveforms/theme.ts:92-113`). A device reply that somebody
  else asked for does harm if it is counted while every counted fence is still open, a colour reply if it arrives while
  one is awaited, and neither does otherwise: `ThemeLaws.ForeignReplyDeceives`, `ThemeLaws.ForeignColourDeceives` and
  `ThemeLaws.FreshExactly`.
- A live snapshot and the pages after it are meant to add up to the projection until a refusal or a changed generation
  says to start over (`docs/conversations.md:143-158`). If the runtime becomes unavailable and comes back within one
  generation, a client that had read everything is told neither: `LiveFeed.ClearedUnnoticed`, and `LiveFeed.CutExactly`
  for the exact condition. The lifecycle event that announces it is described elsewhere (`docs/events.md:291`); whether
  the controller ever brings a runtime back within a generation is not part of this model.

The replay of the event feed reads the last of no frames when a frame is due and the limit is zero or the frame exceeds
the page budget (`FeedLaws.CrashExactly`). Its callers exclude both: the request schema asks for a limit of 1 to 100
(`src/events/conversation.ts:438-444`) and notifications are bounded far below a page
(`src/events/conversation.ts:397`). `FeedLaws.LostMeansOvertaken` shows that no read then breaks down.

## Model

| member | source | states |
|---|---|---|
| VoiceSystem.AnswersNeverCross | src/console/client-session.ts:155-208 | Whatever interleaving of redials, timeouts, offers, attach and detach requests and native messages, an answer given to browser session p carries the SDP of the native session started by p's own offer |
| VoiceSystem.AnswerDelivered | src/core/session.ts:99-110 | In every reachable state, an arriving sdp is given, as exactly one answer, to the browser session whose offer started that native session, if the host is open, that session is pending and the manager still has the native one; otherwise nobody is given anything |
| VoiceSystem.CallComesUp | src/console/client-session.ts:91-286 | From any reachable state that is attached, ready and drained: a redial, the browser's offer, the server's answer and the connection leave the new session live on both sides, with exactly the messages of that call sent, in order, the old peers closed where they should be |
| VoiceSystem.RunKeeps | src/console/host.ts:136-173 | An offered pending browser session is paired with no native session or with the one its own offer started, in every reachable state of browser, link and chain together |
| VoiceSystem.OfferKeeps | src/core/runtime.ts:384-392 | Relaying an offer pairs the newest native session with the browser session that made it; an offer made while detached starts nothing |
| VoiceSystem.ChainBeginKeeps | src/core/runtime.ts:384-387 | A detach link clears the native session before its stop is awaited, so nothing of it can answer a later peer |
| VoiceSystem.WireKeeps | src/console/client-session.ts:155-163 | A native message reaching the browser session never gives an answer to a session it was not made for |
| ClientSessionLaws.Accounts | src/console/client-session.ts:233-356 | Ids prepared and not closed are exactly the live and pending ones, nothing is prepared, closed or settled twice, a waiter exists only for the pending id, and a rejected wait belongs to a session closed before it connected |
| ClientSessionLaws.Reachable | src/console/client-session.ts:91-193 | A live session means phase live; negotiating means pending and no live; detached or stopped means no session and no retry timer; three rapid failures mean no pending session and no timer; the counter stays at most 4 |
| ClientSessionLaws.StepKeeps | src/console/client-session.ts:91-231 | Every public call and every timer keeps the ledger and the shape of the state |
| ClientSessionLaws.RunExtends | src/console/client-session.ts:343-356 | Over any run nothing recorded is lost and a waiter leaves only by being settled |
| ClientSessionLaws.ResolvedMeansConnected | src/console/client-session.ts:100-120 | Over any run, every resolved redial belongs to a session that connected, if and only if no session failed with an empty text while it was awaited |
| ClientSessionLaws.FailureSettles | src/console/client-session.ts:288-294 | When an awaited session fails, its wait is resolved if and only if the failure text is empty, and rejected if and only if it is not |
| ClientSessionLaws.BlankFailureResolves | src/console/client-session.ts:184-190 | A concrete run: a fatal error with an empty text resolves the redial that waits for the session it ends, closed and never connected |
| VoiceSystem.AttachedMeansStopped | src/console/host.ts:188-209 | In every interleaving, while the browser session is attached and not stopped, the latest request was to attach and every detach so far has had its native stop acknowledged; once the requests are worked off without a failure, it is attached exactly if the latest request was to |
| VoiceSystem.ChainFollows | src/console/host.ts:188-209 | Over every run the chain of the whole system is a run of the chain alone, so every law about it holds of the system |
| VoiceSystem.DetachStops | src/core/runtime.ts:384-387 | A link orders the native session stopped exactly when it begins to detach and there is one |
| VoiceSystem.EndReachesBrowser | src/core/session.ts:111-131 | Every end of the native session reaches the browser session at once with its text, then readiness if the host is open and announces it; no other native message but an sdp reaches it |
| VoiceSystem.LostForGood | src/core/runtime.ts:669-674 | A lost connection takes the native session with it, and no later offer starts another |
| VoiceSystem.BlankErrorResolves | src/core/session.ts:124-129 | A concrete run of the whole system: a native session that breaks off without a text, while a redial waits for its answer, resolves the wait for a session that is closed and never connected |
| ClientSessionLaws.RetryBudget | src/console/client-session.ts:288-332 | Without redial, reattachment, signal loss, server close or a healthy session, at most three peers are asked for |
| ClientSessionLaws.CalmRun | src/console/client-session.ts:310-332 | Each peer asked for is paid for by a counted failure or is still open, over any such run |
| ClientSessionLaws.FailureRetries | src/console/client-session.ts:288-332 | Outside a voice change a failure of the pending session, or of the live one with none pending, leaves a retry pending if and only if the runtime is ready and fewer than three failures in a row are counted; at three everything is closed and the phase is failed; what is sent and settled is exactly said |
| ClientSessionLaws.FailureOfChange | src/console/client-session.ts:310-316 | During a voice change a failure arms nothing and counts as three |
| ClientSessionLaws.FailureOverlapped | src/console/client-session.ts:296-305 | A live session that fails while its successor is pending is closed and nothing else changes |
| ClientSessionLaws.AsksExactly | src/console/client-session.ts:91-266 | A new peer is asked for if and only if the event is one that should: exactly one, superseding the pending one, with the live session kept |
| ClientSessionLaws.RetryAsks | src/console/client-session.ts:326-331 | The retry timer asks for exactly one new peer and forgives nothing |
| ClientSessionLaws.ThreeAttempts | src/console/client-session.ts:288-332 | From an idle ready session three attempts that fail in whatever way, with the timer between them, ask for exactly three peers, close each, and end failed with nothing pending |
| ClientSessionLaws.WaitsForNext | src/console/client-session.ts:101-121 | A redial that waits is the only waiter, for the session just asked for; during a voice change neither the renewal nor the health timer of the live session does anything |
| ClientSessionLaws.ReadyTells | src/console/client-session.ts:144-153 | Readiness is remembered and, where nothing is under way, leads to a new peer or, after three failures, to the failed phase |
| ClientSessionLaws.StoppedForGood | src/console/client-session.ts:134-142 | Once stopped, a session neither sends anything nor takes part in anything again |
| ClientSessionLaws.ConnectsExactly | src/console/client-session.ts:210-218 | The pending session becomes the live one if and only if its peer reports a connection for its offer; its predecessor is closed, its waiter resolved |
| ClientSessionLaws.EndsEverything | src/console/client-session.ts:334-341 | Stop, detachment and loss of the signal close the pending and then the live session, tell the waiter, and leave the stated flags |
| ClientSessionLaws.ServerCloses | src/console/client-session.ts:165-173 | A close by the server ends the live session, keeps a pending one and withdraws readiness |
| ClientSessionLaws.PassesOn | src/console/client-session.ts:198-208 | An offer is passed on once, of the pending session only; an answer only after it |
| ClientSessionLaws.ChangingExactly | src/console/client-session.ts:101-121 | A voice change lasts from the redial that starts it until a settled redial resumes |
| ClientSessionLaws.AttachedExactly | src/console/client-session.ts:123-143 | Attachment changes by request alone until the session stops, and it stops by order alone and for good |
| ClientSessionLaws.ForgivesExactly | src/console/client-session.ts:91-231 | Failures in a row are forgotten by the stated events and by nothing else |
| ClientSessionLaws.ResumptionsConserved | src/console/client-session.ts:101-121 | Over any run the waits settled are the redials that have resumed plus those that still may |
| BrowserSession.ClientMediaSession.SettleRedial | src/console/client-session.ts:350-356 | The fields after the call are exactly those the specification prescribes: settles the waiter of one id once |
| BrowserSession.ClientMediaSession.CloseSession | src/console/client-session.ts:343-348 | The fields after the call are exactly those the specification prescribes: settles, then closes one session |
| BrowserSession.ClientMediaSession.DropSessions | src/console/client-session.ts:334-341 | The fields after the call are exactly those the specification prescribes: closes pending and live, in that order |
| BrowserSession.ClientMediaSession.NegotiateSession | src/console/client-session.ts:233-266 | The fields after the call are exactly those the specification prescribes: supersedes the pending peer and asks for a new one |
| BrowserSession.ClientMediaSession.PromoteSession | src/console/client-session.ts:268-286 | The fields after the call are exactly those the specification prescribes: makes the pending session live, closes its predecessor and resolves its waiter |
| BrowserSession.ClientMediaSession.HandleFailure | src/console/client-session.ts:310-332 | The fields after the call are exactly those the specification prescribes: pauses, fails a voice change, or arms the retry |
| BrowserSession.ClientMediaSession.FailPendingSession | src/console/client-session.ts:288-294 | The fields after the call are exactly those the specification prescribes: closes and counts a failed peer |
| BrowserSession.ClientMediaSession.FailLiveSession | src/console/client-session.ts:296-308 | The fields after the call are exactly those the specification prescribes: closes a failed live session, counting it unless a successor is pending |
| BrowserSession.ClientMediaSession.HandleRedial | src/console/client-session.ts:91-98 | The new state is the specified successor for an explicit redial, and the reachable-state invariant holds again |
| BrowserSession.ClientMediaSession.StartRedialAndWait | src/console/client-session.ts:101-120 | The new state is the specified successor for a redial whose caller waits; reports whether a successor was requested and registers its waiter, and the reachable-state invariant holds again |
| BrowserSession.ClientMediaSession.ResumeRedial | src/console/client-session.ts:117-119 | The new state is the specified successor for the finally block that may clear the flag of a later voice change, and the reachable-state invariant holds again |
| BrowserSession.ClientMediaSession.AttachFrontend | src/console/client-session.ts:123-132 | The new state is the specified successor for attachment and detachment, and the reachable-state invariant holds again |
| BrowserSession.ClientMediaSession.StopSession | src/console/client-session.ts:134-140 | The new state is the specified successor for the final stop, and the reachable-state invariant holds again |
| BrowserSession.ClientMediaSession.HandleReady | src/console/client-session.ts:144-153 | The new state is the specified successor for readiness, and the reachable-state invariant holds again |
| BrowserSession.ClientMediaSession.HandleAnswerFromRuntime | src/console/client-session.ts:155-163 | The new state is the specified successor for an answer, and the reachable-state invariant holds again |
| BrowserSession.ClientMediaSession.HandleClosed | src/console/client-session.ts:165-173 | The new state is the specified successor for a server close, and the reachable-state invariant holds again |
| BrowserSession.ClientMediaSession.HandleSignalLost | src/console/client-session.ts:175-182 | The new state is the specified successor for loss of the signal, and the reachable-state invariant holds again |
| BrowserSession.ClientMediaSession.HandleError | src/console/client-session.ts:184-193 | The new state is the specified successor for a server error, and the reachable-state invariant holds again |
| NativeLinkLaws.StopsConserved | src/core/session.ts:110-117 | Stop tokens held equal stops queued at the server plus stop answers in flight plus refusals that went unheard; they agree exactly if and only if there was no such refusal |
| NativeLinkLaws.StopSparesSuccessor | src/core/session.ts:144-183 | The answer to a stop never costs the manager its session, and a queued stop never ends the session the manager is waiting for |
| NativeLinkLaws.DrainedMeansStopped | src/core/session.ts:14-16 | Over any run in which no end of an older session was taken for the newest one's and the stop of the last session was not refused, a manager without a session implies a server that runs none and will run none |
| NativeLinkLaws.StrandedExactly | src/core/session.ts:110-183 | Over any run the server is left with a session nobody manages if and only if an end that was not the newest session's was taken for it, or the stop of the last session was refused |
| NativeLinkLaws.StrandsExactly | src/core/session.ts:63-183 | Step by step, those two events and no others leave a session behind |
| NativeLinkLaws.SdpRelayedExactly | src/core/session.ts:99-110 | In every reachable state an arriving sdp is relayed if and only if it comes from the session the manager has now |
| NativeLinkLaws.EndsAreTold | src/core/session.ts:83-180 | The manager gives its session up on exactly four kinds of event; a failed start and a shutdown order a stop, an end nobody asked for is reported with readiness for the next offer, and nothing else is said but starts and answers |
| NativeLinkLaws.EndExactly | src/core/session.ts:118-131 | Giving up a session on an unsolicited end leaves the server something to run if and only if that end was not the newest session's and the server may still have that one |
| NativeLinkLaws.StaleEndStrandsSuccessor | src/core/session.ts:118-122 | A concrete run in which the end of an old session is taken for its successor's and the successor keeps running unowned |
| NativeLinkLaws.RunKeeps | src/core/session.ts:5-16 | Ordering of starts, announcements and answers on both channels holds in every reachable state of manager and server |
| VoiceManager.VoiceSessionManager.Offer | src/core/session.ts:63-81 | Fields and effects after the call are the specified ones: a new offer supersedes whatever runs |
| VoiceManager.VoiceSessionManager.OnStarted | src/core/session.ts:85-98 | Fields and effects after the call are the specified ones: only the announced current session becomes active |
| VoiceManager.VoiceSessionManager.OnSdp | src/core/session.ts:99-109 | Fields and effects after the call are the specified ones: an answer is relayed only for an active session |
| VoiceManager.VoiceSessionManager.OnClosed | src/core/session.ts:110-123 | Fields and effects after the call are the specified ones: a requested close consumes a stop first |
| VoiceManager.VoiceSessionManager.OnError | src/core/session.ts:124-132 | Fields and effects after the call are the specified ones: an error ends the current session |
| VoiceManager.VoiceSessionManager.IssueStop | src/core/session.ts:170-174 | Fields and effects after the call are the specified ones: a stop is counted before it is sent |
| VoiceManager.VoiceSessionManager.ShutdownSession | src/core/session.ts:145-149 | Fields and effects after the call are the specified ones: detachment stops the session there is |
| VoiceManager.VoiceSessionManager.FailStart | src/core/session.ts:151-159 | Fields and effects after the call are the specified ones: a start that failed is reclaimed by an ordered stop |
| VoiceManager.VoiceSessionManager.OnStopFailed | src/core/session.ts:175-182 | Fields and effects after the call are the specified ones: only a refused stop gives its token back |
| VoiceManager.VoiceSessionManager.ResetSession | src/core/session.ts:139-142 | Fields and effects after the call are the specified ones: a dead connection forgets session and stops |
| AttachChain.AttachedOnlyWhenStopped | src/console/host.ts:188-212 | An attached transport means the latest request was an attach, every earlier detach was stopped and nothing failed; an idle chain without failure has transport, runtime and request agreeing |
| AttachChain.FailureIsFinal | src/console/host.ts:200-210 | After a failed native stop the transport is never attached again, whatever is requested |
| AttachChain.FrontendAttachment.SetFrontendAttached | src/console/host.ts:191-212 | A request fences the old peer at once and queues one link; the chain invariant holds |
| AttachChain.FrontendAttachment.BeginTransition | src/console/host.ts:199-203 | A link runs unless it is an attach that was overtaken; every detach runs |
| AttachChain.FrontendAttachment.FinishTransition | src/console/host.ts:203-210 | A finished link attaches only if it is still the latest request; a failure is remembered |
| FeedLaws.FollowingIsExact | src/events/feed.ts:103-161 | Following the cursor from any start, interleaved with publications, evictions and resets, yields every conversation frame after the start up to the cursor, once and in order, unless told to resynchronise |
| FeedLaws.PageIsNext | src/events/feed.ts:139-161 | A page is exactly the next stretch of the unbounded log, its cursor is where the page ends, and a page that promises more is not empty |
| FeedLaws.CrashExactly | src/events/feed.ts:145-158 | The read of the last of no frames happens if and only if a frame is due and the limit is zero or that frame alone exceeds the page budget |
| FeedLaws.LostMeansOvertaken | src/events/feed.ts:139-161 | With limits of at least one and frames no larger than a page, no read of any run breaks down: a reader loses its place if and only if it reads from below the floor |
| FeedLaws.CatchesUp | src/events/feed.ts:139-161 | While nothing is published, as many reads as frames are due bring a reader fully up to date, whatever the limits |
| FeedLaws.StepKeeps | src/events/feed.ts:44-138 | Every publication keeps the buffer equal to the log above the floor, revisions contiguous in each generation except at gaps, the byte count exact and both bounds |
| FeedLaws.EvictKeeps | src/events/feed.ts:132-136 | Eviction ends within 512 frames and 8 MiB and leaves the newest suffix of the log |
| FeedLaws.StepAppends | src/events/feed.ts:103-138 | Publishing only appends, above every sequence number used before |
| FeedWrites.PublishesExactly | src/events/feed.ts:103-137 | A notification is published if and only if the runtime is available and its revision is new, a skipped revision preceded by a gap, each frame with the current generation and the next sequence number; the fewest oldest frames are evicted that the limits require |
| FeedWrites.CountsExactly | src/events/feed.ts:44-102 | Every other call takes the sequence numbers of what it publishes and logs nothing |
| FeedWrites.RuntimeExactly | src/events/feed.ts:44-69 | A replaced or unavailable runtime drops the buffer and raises the floor, any other change does not; only a replaced one starts revisions anew |
| FeedWrites.ReadsExactly | src/events/feed.ts:139-161 | A read is told to resynchronise if and only if it is below the floor, refused if and only if it is beyond the latest number, and otherwise gets as many due frames as limit and page budget allow |
| LiveFeed.CutExactly | src/events/conversation-projection.ts:67 | Over any run of publications, snapshots and reads, what a client shows and the frames after its cursor add up to the live projection as long as neither generation nor floor tells it to start over, if and only if the projection is never cleared within a generation while a client that shows something has nothing left to read |
| LiveFeed.CaughtUpIsLive | src/events/feed.ts:139-168 | Short of that, a client that has read everything shows exactly what the projection holds |
| LiveFeed.ClientCatchesUp | src/events/feed.ts:139-168 | After any such run, as many reads as frames are due leave a client showing what the projection holds, if it is served and not told to start over |
| LiveFeed.StepExactly | src/events/feed.ts:44-168 | Step by step, that clearing and no other event breaks the agreement; evictions, gaps, resets that raise the floor and refused reads do not |
| LiveFeed.ProjectionIsRun | src/events/feed.ts:103-117 | In every reachable state the projection is the fold of exactly the frames logged since it was last cleared, the synthetic gaps included |
| LiveFeed.PublishFollows | src/events/feed.ts:103-137 | One publication that clears nothing tells the projection exactly the frames it logs, in order |
| LiveFeed.ClearedUnnoticed | src/events/feed.ts:44-68 | A concrete run: a client that is served and not told to start over shows what the projection no longer holds |
| LifecycleFeeds.LifecycleFeed.SetRuntime | src/events/feed.ts:44-69 | Fields after the call agree with the specified state, with the invariant: a changed generation or an unavailable runtime empties the buffer and raises the floor |
| LifecycleFeeds.LifecycleFeed.UpdateInventory | src/events/feed.ts:70-87 | Fields after the call agree with the specified state, with the invariant: inventory events take sequence numbers only while available |
| LifecycleFeeds.LifecycleFeed.PublishVoice | src/events/feed.ts:88-102 | Fields after the call agree with the specified state, with the invariant: a voice event takes one sequence number |
| LifecycleFeeds.LifecycleFeed.EvictOldest | src/events/feed.ts:132-136 | Fields after the call agree with the specified state, with the invariant: the in-place eviction loop |
| LifecycleFeeds.LifecycleFeed.AppendFrame | src/events/feed.ts:115-137 | Fields after the call agree with the specified state, with the invariant: one frame is logged, buffered and followed by eviction |
| LifecycleFeeds.LifecycleFeed.PublishConversation | src/events/feed.ts:103-138 | Fields after the call agree with the specified state, with the invariant: a skipped revision is preceded by a gap frame |
| LifecycleFeeds.LifecycleFeed.ReadPage | src/events/feed.ts:139-161 | The loop returns the specified reply, and a page continues the ghost log exactly |
| ProjectionRefinesLog.CompleteIsWhole | src/events/conversation-projection.ts:75-165 | An item marked complete and not completed comes from the latest start in the log with no gap since, and reads exactly as that start followed by every matching delta, part by part for reasoning; output and progress likewise |
| ProjectionRefinesLog.CompleteExactly | src/events/conversation-projection.ts:76-165 | An unfinished item is marked complete if and only if it started available, no gap concerned it since and every delta could be placed within the text limit |
| ProjectionRefinesLog.CompletedIsCanonical | src/events/conversation-projection.ts:111-123 | A completed item is its last completion, whatever deltas followed |
| ProjectionRefinesLog.RunRefines | src/events/conversation-projection.ts:75-189 | For every log the bounds hold, the total is the sum of the rows' sizes and every item still held is faithful to the log |
| ProjectionRefinesLog.OthersUntouched | src/events/conversation-projection.ts:82-188 | An event for one thread leaves another thread's row as it was or removes it whole |
| ProjectionHolds.HeldUnless | src/events/conversation-projection.ts:75-188 | After any log, an item started or completed and not reverted since is held, unless its row was evicted whole, or became too heavy, or at least 128 other items of its thread were started or completed after it |
| ProjectionHolds.AfterEvent | src/events/conversation-projection.ts:84-188 | After an event its row holds the newest 128 items and turns and the updates there should be, less the fewest oldest pieces that bring it to 384 KiB; other rows are untouched; the fewest oldest rows are gone that bring the whole to 64 rows and 8 MiB |
| ProjectionHolds.AfterGap | src/events/conversation-projection.ts:77-82 | A gap marks the unfinished items of the threads concerned as incomplete and touches nothing else |
| ProjectionHolds.AfterReverted | src/events/conversation-projection.ts:85-90 | A reverted thread is forgotten whole, and nothing else is |
| ProjectionHolds.DeltaTells | src/events/conversation-projection.ts:121-165 | One delta turns an item past the text limit into its summary and drops file output past it; those and an index out of range are what makes the item incomplete |
| ProjectionBounds.ApplyKeeps | src/events/conversation-projection.ts:166-188 | Each event keeps the accounting and at most 64 rows, 128 items and 128 turns a row and 8 MiB in total |
| ProjectionBounds.EvictKeeps | src/events/conversation-projection.ts:184-188 | The eviction loop always has a row to evict and stops within both limits |
| ProjectionBounds.ShrinkKeeps | src/events/conversation-projection.ts:168-181 | Shrinking a row ends within its limit or with an empty row |
| ConversationLog.GrowsReads | src/events/conversation-projection.ts:124-160 | Folding deltas one by one gives the base text followed by everything said on the item's channel, for each kind of item |
| ConversationLog.DeltaFaithful | src/events/conversation-projection.ts:124-165 | One more delta keeps an item faithful, including output overflow, misplaced parts and oversized items |
| ConversationLog.ToldIsLatest | src/events/conversation-projection.ts:82-123 | What the log tells of an item is fixed by its latest start or completion and what came after it |
| ConversationProjection.ConversationProjection.Take | src/events/conversation-projection.ts:75-189 | The in-place update computes exactly the specified next state and keeps accounting and bounds |
| ConversationProjection.ConversationProjection.MarkGap | src/events/conversation-projection.ts:77-82 | The loop marks every unfinished item of the rows concerned, and nothing else |
| ConversationProjection.ConversationProjection.EvictRows | src/events/conversation-projection.ts:184-188 | The loop never asks an empty map for its first key |
| ConversationProjection.ConversationProjection.Fit | src/events/conversation-projection.ts:168-181 | The shrinking loop drops items, then turns, then updates, oldest first |
| ConversationProjection.ConversationProjection.Snapshot | src/events/conversation-projection.ts:190-206 | A snapshot lists a row in its order and within the published maxima |
| RuntimeStage.Operate | src/service-runtime.ts:88-225 | Over any history of installations, each cut short anywhere, what a cleanup would recover was there at first or was published, and is never absent if a runtime existed; if nothing goes wrong it is the last one published; what is refused at first is not touched |
| RuntimeStage.Install | src/service.ts:331-396 | One installation with a failure or crash at any file operation leaves the old runtime or the new one recoverable; short of a refusal it is done if and only if nothing went wrong, and then leaves the new one and no stage |
| RuntimeStage.StageRuntime | src/service-runtime.ts:121-200 | Preparing a candidate never changes what would be recovered; it is refused, changing nothing, if and only if the root is not intact or a cleanup is refused; a failed preparation is removed again |
| RuntimeStage.StagedRuntime.Publish | src/service-runtime.ts:201-209 | After any outcome the two flags say exactly where the old runtime and the candidate are; it is refused, changing nothing, if and only if the root is no longer intact |
| RuntimeStage.StagedRuntime.Rollback | src/service-runtime.ts:210-221 | Uninterrupted, it restores the old state exactly and removes the stage; interrupted, the old or the new runtime is recovered; it is refused, changing nothing, if and only if what was published is no longer intact |
| RuntimeStage.StagedRuntime.Commit | src/service-runtime.ts:222-224 | The new runtime stays recoverable throughout the removal of the stage, and stays in place whatever it is |
| RuntimeStage.Disk.Cleanup | src/service-runtime.ts:88-112 | It is refused, changing nothing, if and only if some stage is not private, more than one publication was interrupted, or the runtime that is to stay where one was is not intact; uninterrupted, the root holds what was recoverable and no stage is left; interrupted, the same is still recoverable |
| RuntimeStage.Disk.Remove | src/service-runtime.ts:111-111 | A removal that is not atomic keeps what is recoverable at every piece |
| RuntimeFiles.ErodingKeeps | src/service-runtime.ts:105-111 | Taking a stage apart changes nothing that a cleanup would recover once the root is in place |
| RuntimeFiles.RemovingKeeps | src/service-runtime.ts:111-111 | Nor does removing the emptied stage |
| ProcessTree.OwnedProcessTree.Scan | src/core/owned-processes.ts:122-166 | A scan fails if and only if the members would exceed 4096; otherwise it keeps the closure of the known processes under the parent relation, less exited ones and stale slots; every captured process descends from the root by the tables observed |
| ProcessTree.OwnedProcessTree.Close | src/core/owned-processes.ts:134-150 | The passes end with the least set containing the known processes and closed under the parent relation |
| ProcessTree.OwnedProcessTree.Pass | src/core/owned-processes.ts:141-149 | One pass adds only reachable processes, and a pass without change means closure |
| ProcessTree.OwnedProcessTree.Capture | src/core/owned-processes.ts:104-110 | A slot with another identity is left alone, a full table refuses a new pid |
| ProcessTree.HeldExactly | src/core/owned-processes.ts:134-166 | After a scan a running process is held if and only if it is reachable and its slot holds no stale identity; an absent one only while its pid exists or it is the root |
| ProcessTables.ReachedIsLeast | src/core/owned-processes.ts:134-150 | A closed set of reachable processes containing the known ones is the reachable set |
| ProcessTree.FilledKeeps | src/core/owned-processes.ts:140-150 | Everything a scan adds descends from the root by observed tables |
| ProcessTree.OwnedProcessTree.SignalCaptured | src/core/owned-processes.ts:75-91 | Nothing is sent after a tracking failure; otherwise every live member is signalled exactly once, by its group or alone, unless a signal is refused, which ends the sending; only groups led by a live member are signalled, never the caller's own |
| ProcessTree.OwnedProcessTree.Outcome | src/core/owned-processes.ts:182-201 | Complete if and only if the root was captured and no captured process can still be running |
| Ancestry.IsDescendantOf | src/core/owned-processes.ts:242-259 | True if and only if some ancestor in the table is the one asked for, in any table, cycles included |
| ThreadInventoryLaws.LastWordStands | src/core/thread-observer.ts:150-282 | Whatever pages, reads, answers and other notifications follow, until a new scan or read begins a thread stands as the last notification left it: closed, or with the status and flags, name, turn with its times, or, for a start, name, parent and first status that it delivered |
| ThreadInventoryLaws.ScansAreModest | src/core/thread-observer.ts:294-380 | In every reachable state a scan holds at most 4096 ids, none twice, from at most 64 pages with distinct cursors, and four reads |
| ThreadInventoryLaws.RunHonours | src/core/thread-observer.ts:150-450 | In every reachable state everything heard since the current scan or read began is honoured, scanning and reading exclude each other and at most 256 threads are held |
| ThreadInventoryLaws.ApplyHonours | src/core/thread-observer.ts:242-282 | A completing scan overwrites nothing notified since it began, drops no such thread by its limit and brings back none that closed |
| ThreadInventoryLaws.AppliedExactly | src/core/thread-observer.ts:246-277 | Short of an overflow a scan leaves exactly the threads it observed and those notified about, with its own evidence for the former |
| ThreadScanLaws.ScanReports | src/core/thread-observer.ts:242-382 | Over any run, told by what was listed and answered since the scan began: a scan that ends leaves the threads listed and answered for with a loaded view, or not answered for and then unknown, and those notified about, each as found or as notified; it overflows if and only if these are more than 256 and is complete if and only if it does not and every listed thread was answered for or had closed first |
| ThreadScanLaws.PageDecides | src/core/thread-observer.ts:294-340 | The last page starts the reading of everything listed, a new cursor within the limits asks for the next page, anything else gives the scan up |
| ThreadScanLaws.AbortKeeps | src/core/thread-observer.ts:232-240 | A scan given up leaves every thread as it was |
| ThreadScanLaws.TakeReads | src/core/thread-observer.ts:342-365 | The next listed thread is read unless it has closed or time is up |
| ThreadNoteLaws.SeedTells | src/core/thread-observer.ts:122-142 | A description makes room for its thread up to 256 and fills what it speaks of: status only where none was known, name unless renamed, first 256 characters |
| ThreadNoteLaws.StartTells | src/core/thread-observer.ts:150-163 | A started thread is described, marked for the running scan and queued for a read |
| ThreadNoteLaws.CloseTells | src/core/thread-observer.ts:180-192 | A closed thread is forgotten, by the running scan too, and nothing else is |
| ThreadNoteLaws.NoteTells | src/core/thread-observer.ts:193-211 | Any other notification makes its thread say what it says, a new thread queued for a read, unless it only names an unseen thread while no scan runs |
| ThreadNoteLaws.ReadTells | src/core/thread-observer.ts:405-450 | Over any run, the answer to a single read is believed altogether for a thread unchanged since the read began and only fills in what is missing otherwise; a failed read only makes the inventory incomplete |
| ThreadInventoryLaws.AnswerHonours | src/core/thread-observer.ts:413-443 | An answer that arrives after newer notifications rewinds nothing |
| ThreadInventoryLaws.NoteHonours | src/core/thread-observer.ts:175-211 | A notification is recorded and keeps what earlier ones said of other threads and fields |
| ThreadInventoryLaws.SeedHonours | src/core/thread-observer.ts:122-142 | A seed speaks for the status only where none was known and never renames a renamed thread |
| ThreadObserver.ThreadObserver.Seed | src/core/thread-observer.ts:122-142 | The fields after the step are the specified ones and bound, exclusion and stamps hold: a thread description from a call |
| ThreadObserver.ThreadObserver.Notification | src/core/thread-observer.ts:150-211 | The fields after the step are the specified ones and bound, exclusion and stamps hold: any notification |
| ThreadObserver.ThreadObserver.BeginReconcile | src/core/thread-observer.ts:220-230 | The fields after the step are the specified ones and bound, exclusion and stamps hold: the start of a scan |
| ThreadObserver.ThreadObserver.TakePage | src/core/thread-observer.ts:294-326 | The fields after the step are the specified ones and bound, exclusion and stamps hold: one page of the listing |
| ThreadObserver.ThreadObserver.Work | src/core/thread-observer.ts:328-380 | The fields after the step are the specified ones and bound, exclusion and stamps hold: a worker of the scan taking an id or receiving its answer |
| ThreadObserver.ThreadObserver.ReadAndApply | src/core/thread-observer.ts:242-282 | The fields after the step are the specified ones and bound, exclusion and stamps hold: the end of a scan |
| ThreadObserver.ThreadObserver.TakeOne | src/core/thread-observer.ts:409-412 | The fields after the step are the specified ones and bound, exclusion and stamps hold: the next pending read |
| ThreadObserver.ThreadObserver.Answer | src/core/thread-observer.ts:413-443 | The fields after the step are the specified ones and bound, exclusion and stamps hold: its answer |
| ThreadObserver.ThreadObserver.Halt | src/core/thread-observer.ts:213-218 | The fields after the step are the specified ones and bound, exclusion and stamps hold: the stop |
| Fft.Transform | scripts/personas/audio.ts:148-172 | For every power-of-two size and every real signal with zero imaginary part, the two arrays end up holding exactly the discrete Fourier transform |
| Fft.Stages | scripts/personas/audio.ts:155-171 | After the stage for length l every block of l holds the transform of its own bit-reversed subsequence |
| Fft.Stage | scripts/personas/audio.ts:155-171 | One stage is one butterfly of every block, from the values before it |
| Fft.OneBlock | scripts/personas/audio.ts:158-170 | The inner loop replaces one block by its butterfly and touches nothing else |
| Fft.StagePoint | scripts/personas/audio.ts:158-170 | A butterfly of two half-length transforms is the transform of twice the length, at every point |
| Fourier.Decimation | scripts/personas/audio.ts:155-171 | The sum over all samples splits into the even and odd ones with one twiddle factor |
| BitReversal.Permute | scripts/personas/audio.ts:149-154 | The swapping loop leaves each value at the bit-reversal of its index |
| BitReversal.NextReversed | scripts/personas/audio.ts:150-152 | Carrying from the high bit down turns the reversal of i - 1 into the reversal of i |
| BitReversal.RevInvolution | scripts/personas/audio.ts:149-154 | Reversing twice is the identity, so swapping each pair once is enough |
| AudioAnalyzer.AudioAnalyzer.Hear | scripts/personas/audio.ts:64-74 | After each sample the ring lays out the last 1024 filtered values, energy and peak are those of the current hop, and the frame is that of the last whole hop of everything heard |
| AudioAnalyzer.AudioAnalyzer.Push | scripts/personas/audio.ts:61-76 | A chunk extends the history by its samples; one longer than two seconds is refused whole |
| AudioAnalyzer.AudioAnalyzer.Analyze | scripts/personas/audio.ts:86-103 | The frame is judged from the last 1024 values, the exact transform of their tapered copy and the hop's energy and peak |
| AudioAnalyzer.ChunkingIsInvisible | scripts/personas/audio.ts:39-76 | Two analysers that heard the same samples show the same frame at the same point of the same hop, however the samples were cut |
| AudioAnalyzer.LaidNext | scripts/personas/audio.ts:69-70 | Writing at the cursor and advancing it keeps the ring the window of the last 1024 values |
| AudioHistory.FilterIs | scripts/personas/audio.ts:64-68 | Each filtered value is the change of the cleaned input plus 0.995 of the value before |
| AudioHistory.EnergyAdds | scripts/personas/audio.ts:71-71 | Energies add up over any cut and that of one value is its square |
| AudioHistory.PeakReached | scripts/personas/audio.ts:72-72 | The peak bounds every value and is reached |
| AudioHistory.WindowIs | scripts/personas/audio.ts:69-70 | The window is the last 1024 values with silence before the first |
| WavLaws.RoundTrip | scripts/personas/spoken.ts:143-164 | Every clip within the accepted rates and durations decodes to the same rate and count with each sample as quantised; no size limit is met |
| WavLaws.QuantisedNear | scripts/personas/spoken.ts:158-162 | Within the range the loss is at most 1/65536, and 1/32768 at the positive clamp |
| WavLaws.QuantisedExact | scripts/personas/spoken.ts:158-162 | Multiples of 1/32768 survive exactly |
| WavLaws.StereoMeans | scripts/personas/source.ts:80-92 | Two channels written in turn as sixteen-bit words decode to the mean of the two quantised values, sample by sample |
| WavLaws.FloatsMean | scripts/personas/source.ts:80-92 | Floats of one channel or two are refused if and only if one is not finite; otherwise each is limited to the range from -1 to 1 and two channels are averaged |
| WavLaws.DecodesMixed | scripts/personas/source.ts:60-93 | For one channel or two, integers or floats: decoding succeeds if and only if every value is finite, with the rate, the count and the mean of the limited values |
| WavLaws.RefusedExactly | scripts/personas/source.ts:55-79 | A file with a whole format chunk is refused for its kind, its rate or alignment, its duration, or a value that is not finite, each if and only if it is so and nothing before it applies |
| WavLaws.EnvelopeExactly | scripts/personas/source.ts:30-38 | Any bytes at all are refused as too large, as no wave file or as cut short if and only if they are |
| WavLaws.CutShort | scripts/personas/source.ts:41-46 | A stream of chunks cut inside its last one is refused for its header or its body |
| WavLaws.SecondDataRefused | scripts/personas/source.ts:51-54 | A second data chunk is refused |
| WavLaws.DecodeContainer | scripts/personas/source.ts:29-60 | Decoding any printed list of chunks depends only on what the chunks say, and bytes after the container are not looked at |
| WavLaws.UnknownIgnored | scripts/personas/source.ts:41-57 | A chunk whose name reads as another than the two looked for, at any place, changes nothing |
| WavLaws.NamesAreMasked | scripts/personas/source.ts:43-52 | Chunk names are read as ASCII: setting or clearing their high bits changes nothing |
| WavLaws.AliasRefused | scripts/personas/source.ts:47-50 | A second chunk whose name reads as the format, high bits aside, is refused as a duplicate |
| WavLaws.HighBitRefused | scripts/personas/source.ts:47-50 | A concrete family: format, data and a third chunk named like the format but with the high bit of its first byte set, whatever the three say, are refused |
| WavLaws.WalkPrinted | scripts/personas/source.ts:41-57 | The chunk walk undoes the chunk printer, padding included |
| WavFiles.EncodeWav | scripts/personas/spoken.ts:143-164 | The filled buffer is the printed container of the clip from the given sample on |
| WavFiles.DecodeWav | scripts/personas/source.ts:29-91 | The loops compute the specified result, every error included |
| WavFiles.FindChunks | scripts/personas/source.ts:39-57 | The offset loop finds the two chunks or the first error |
| WavFiles.ReadFrames | scripts/personas/source.ts:79-89 | The sample loop averages clamped channels and stops at a non-finite one |
| ConversationItemsLaws.FollowReproduces | src/core/conversation-items.ts:26-63 | Over an unchanging list, repeating the read with the returned cursor gives the list in order, nothing twice, for any limits and byte budget, and every call before the last makes progress |
| ConversationItemsLaws.ReadIsStretch | src/core/conversation-items.ts:29-62 | One call returns the next stretch of the list; a call that hands back a cursor returned at least one item; the refusal for a missing cursor is not reached |
| ConversationItemsLaws.NamedExactly | src/core/conversation-items.ts:26-63 | Whatever the sizes and the byte budget, calls that follow the cursor return the beginning of the list for all limits if and only if no token the list hands out is the empty string |
| ConversationItemsLaws.FollowRestarts | src/core/conversation-items.ts:37-37 | Past an empty token the list begins again, so calls for one item each never come to its end: one is refused or every one returns an item |
| ConversationItemsLaws.EmptyTokenRepeats | src/core/conversation-items.ts:37-37 | A concrete list whose third token is empty: the first page of three repeats the first item |
| ConversationReadLaws.ReadsPages | src/core/conversation-items.ts:26-63 | Against a native side that may answer anything: a read gathers one row a page until the limit, the end of the list or the byte budget, and is refused if and only if a page is not as it should be or what does not fit has no cursor to come back with |
| ConversationItems.ReadConversationItems | src/core/conversation-items.ts:15-63 | The loop computes the specified result, every refusal included |
| ConversationReader.Authorize | src/core/conversation-reader.ts:102-116 | A thread is allowed if and only if the root is reached within 31 parents, cycles and unreadable threads included |
| ConversationReader.ConversationReader.Resume | src/core/conversation-reader.ts:127-135 | A token resumes only the native cursor it was issued for, in the same scope and within five minutes, and a held fresh one does resume |
| ConversationReader.ConversationReader.Remember | src/core/conversation-reader.ts:231-239 | A new cursor is kept with its scope; the oldest makes room only when 256 are held |
| ConversationReader.ConversationReader.Purge | src/core/conversation-reader.ts:127-128 | Exactly the expired cursors are dropped |
| ConversationReader.ConversationReader.Begin | src/core/conversation-reader.ts:65-66 | At most four reads are in progress |
| ThemeLaws.BeliefsAreFresh | scripts/waveforms/theme.ts:56-117 | Through any timeouts, losses, repeated notices and colour or device questions asked by others, unless a foreign device reply is counted while every counted fence is open or a foreign colour arrives while one is awaited, a colour is believed only if it answers the latest colour query sent here, and in the sample phase only if that query followed the latest handled notice |
| ThemeLaws.FreshExactly | scripts/waveforms/theme.ts:82-117 | The beliefs can be relied on at every point of a run if and only if no foreign device reply was counted while every counted fence was open and no foreign colour arrived while one was awaited |
| ThemeLaws.HarmDeceives | scripts/waveforms/theme.ts:92-113 | After a foreign reply of either kind some continuation without further harm holds a stale or foreign colour for an answer |
| ThemeLaws.Surplus | scripts/waveforms/theme.ts:82-117 | With more fences open than counted, timeouts and notices make a late colour look fresh |
| ThemeLaws.StepKeeps | scripts/waveforms/theme.ts:82-117 | Every step, foreign questions of both kinds and harmless foreign replies included, keeps colour queries before the fences sent after them and no more fences open than are counted |
| ThemeLaws.ForeignReplyDeceives | scripts/waveforms/theme.ts:92-104 | A concrete run: with a foreign device reply open, a late answer to an older query is believed |
| ThemeLaws.ForeignColourDeceives | scripts/waveforms/theme.ts:106-113 | A concrete run: the colour somebody else asked for is taken for the answer to the first query |
| ThemeLaws.ShowsLastBelief | scripts/waveforms/theme.ts:106-113 | In every reachable state the theme shows the last colour it believed, or the one it began with |
| ThemeLaws.AnswersAdopted | scripts/waveforms/theme.ts:56-117 | A terminal that answers is believed, at the start and after a notice once its fence has come back |
| ThemeLaws.BeginAsks | scripts/waveforms/theme.ts:56-67 | Beginning asks for the colour once, unless the theme was given explicitly or is gone |
| Theme.FxTheme.HandleSequence | scripts/waveforms/theme.ts:82-117 | State, writes and consumption after a sequence are the specified ones, and a deadline runs exactly while an answer is awaited |
| Theme.FxTheme.Begin | scripts/waveforms/theme.ts:56-67 | Starting asks for the colour once, unless the theme is explicit or disposed |
| Theme.FxTheme.Dispose | scripts/waveforms/theme.ts:119-124 | Disposal ends the wait and is final |
| Markup.UnescapeEscape | src/service.ts:87-99 | The five replacements of the reader undo the five of the printer on every string |
| Markup.EscapeIsWritten | src/service.ts:87-99 | The five passes write every special character as its entity and nothing else |
| Markup.NoMarkup | src/service.ts:87-99 | Escaped text opens no tag, so no value can imitate a key |
| Plist.ExtractFinds | src/service.ts:156-166 | The first match for a key is the value under it, wherever the entry stands and whatever the other values are |
| VoiceService.LogsComeBack | src/service.ts:156-166 | The log paths read from the printed property list are those put in |
| VoiceService.ExecutableComesBack | src/service.ts:169-177 | So is the executable |
| VoiceService.EnvironmentComesBack | src/service.ts:104-126 | Looked up by its own name in the printed property list, every nonempty variable of the environment is the one put in, whatever the values contain |
| VoiceService.HomeComesBack | src/service.ts:123 | So is the working directory |
| VoiceService.BundleComesBack | src/service.ts:133 | So is the bundle the agent is associated with |
| VoiceService.RefusesExactly | src/service.ts:87-104 | No property list is made exactly if a path is not absolute or a value holds a control character other than tab, newline and carriage return |
| Plist.ExtractIsFirst | src/service.ts:156-166 | From any text, what is extracted is the text of its first match |
| Plist.NothingExtracted | src/service.ts:156-166 | From any text, nothing is extracted only if there is no match |
| JpegCheck.ValidJpeg | src/attachment/local-images.ts:255-276 | Accepted are exactly the files that split into marker segments and an ending, whose latest frame header has nonzero dimensions and whose scan, if any, runs to an end marker |
| JpegCheck.AcceptsExactly | src/attachment/local-images.ts:255-276 | The loop's decision is membership in the segment grammar, in both directions |
| JpegCheck.TakenApart | src/attachment/local-images.ts:259-275 | Whatever is accepted can be taken apart into segments |
| JpegCheck.AcceptAll | src/attachment/local-images.ts:259-275 | Every printed sequence of segments and ending is accepted if and only if its frame and its end are good |
| VoiceRecordingTail.VoiceRecordingTail.Read | src/attachment/session.ts:41-85 | The lines of all successful reads are exactly the complete lines of the bytes consumed, the rest is pending, and for a file that only grows the bytes consumed are its beginning; a read that fails on its contents loses the lines it took and every later read fails; one that finds the file replaced or too large changes nothing; each refusal occurs if and only if its condition holds |
| VoiceRecordingTail.VoiceRecordingTail.TakeLines | src/attachment/session.ts:59-82 | The loop hands out every complete line, each a record within the limit, the first naming the selection |
| TranscriptLines.CutMore | src/attachment/session.ts:57-82 | Cutting what was left over with what arrives is cutting everything |
| TranscriptLines.CutJoins | src/attachment/session.ts:59-82 | Lines and remainder join to the bytes they came from, and no line break is left inside either |

## Left out

- RuntimeStage.Disk.Cleanup: whether a runtime directory is intact and whether a stage is private are marks on the directory; what the two checks look at (ownership, permissions, links, receipts, hashes) is not modelled, the files the program writes itself count as private, and between the steps of one installation others may touch the root but not the stage.
- LiveFeed.Publish: feed and projection are joined on values; the two objects are each proved against their own half.
- LiveFeed.Step: the client takes a snapshot of every thread and folds frames as the projection does; the request for one thread, and the frames a subscriber receives as they are published, are not modelled apart.
- Fft.Transform: arithmetic is over the reals with cosine and sine given only by angle addition and the half turn; floating-point rounding is not modelled.
- AudioAnalyzer.AudioAnalyzer.Analyze: the arithmetic that turns window, spectrum, energy and peak into levels, bands, onset and centroid is one given function.
- AudioAnalyzer.AudioAnalyzer.constructor: the samples in a hop are given; the check of the sample rate and the rounding that gives the hop are not modelled.
- WavFiles.DecodeWav: how four bytes read as a float32 is a given function that may say "not finite".
- ThreadObserver.ThreadObserver.TakePage: that the deadline has passed is a parameter, and a malformed or failed page is a listing that may fail at any moment.
- ClientMediaSession's test hook for session ids and its refusal of a repeated id: ids come from a fresh supply.
- Timer durations, deadlines and retry delays: timers may fire at any moment, and whether a failed live session had been healthy is a parameter.
- ThreadObserver's retry schedule and what it publishes: when scans and pending reads start is left open, which covers every schedule.
- OwnedProcessTree's joining of overlapping scans and its polling: scans are taken one after another.
- The audio mute flags and notices of `runConsoleHost`, host shutdown, and the version string a native session reports.
- `VoiceService.change` beyond its use of the staged runtime: launchctl, the property list file and the migration of an older label.
- `LocalImageStore` and the PNG, GIF and WebP checks: files, quotas and fixed-offset header tests.
- `SpeechReplay`, `SpokenReplay` and `MicrophoneSource`: playback positions and devices.
- How raw payloads become events: schema parsing, `projectItem` and byte counts are given functions.
- Network, HTTP, terminal, browser and Android code, command-line parsing and configuration.
