# Verified model of the P2P sync worker

The P2P sync worker connects OpenEvent channels with direct-message sessions of
an IM provider. Callers append `send.request` entries to an append-only log; the
worker sends each to the provider and appends a `send.result`; it also appends a
`sync.record` for every message the provider reports, its own included. The
worker keeps no state of its own: it dies on any failure, and a restart rebuilds
its memory from the log. This project models that worker in Dafny and proves
what its users rely on: at most one record per provider message and one result
per request, records of the worker's own messages that point at the result,
per-channel order, a recovery that never conflicts and agrees with the live
memory, and a bounded wait for every request and for every provider event that
has reached the processor's queue.

There are two layers. The lower one is the program, in its own imperative form:
classes with the source's fields and methods, each proved against what it
promises. The upper one is a transition system over the log, the provider and
the worker's memory, with crashes and restarts at any point and an inductive
invariant. The layers meet in the contracts of the lower one: a tick, and a whole
life of the worker from `start` to its end, is proved to be a run of the
transition system, and `Syncer.Lives` runs any number of lives one after the
other, so that whatever holds of reachable states holds of the log the program
leaves behind.

| file | contents |
|---|---|
| `Common.dfy`, `Wire.dfy` | small types; messages, the log, windows of the log |
| `Mapping.dfy` | `P2PMappingIndex`: which channel is which session, and who is who |
| `Memory.dfy`, `Queue.dfy` | `RuntimeState` with its lazily cleaned heap, and what every operation keeps |
| `Replay.dfy` | recovery as a fold over the log, and what the log says without any memory |
| `Meaning.dfy` | what recovery accepts and builds, in the fields of the entries |
| `System.dfy`, `Safety.dfy` | the transition system, its invariant, and the theorems about all runs |
| `Contents.dfy` | what is sent and what is written, in the fields of requests and events |
| `Client.dfy` | the log server as an adversary, publish with reconciliation, the retry loop |
| `Adapter.dfy` | the provider as an adversary that keeps a record of what it was asked and what it said |
| `Sessions.dfy` | a session's history windows, queue and live events, and the account of what happened to it |
| `Rounds.dfy` | which sessions one call of `take_message` looks at, and what it leaves |
| `Puller.dfy` | `ProviderMessagePuller`: history and live events as one acknowledged stream |
| `Overlooked.dfy` | a puller whose call overlooks a session that has an event |
| `Refine.dfy` | stretches of execution, with other writers in between, as runs |
| `Reading.dfy` | windows of the log, the scan and the live loop as folds, and the runs they make |
| `Stale.dfy` | what a worker knows whose scan was told to end too early |
| `Processor.dfy` | `SingleThreadProcessor`: the tick |
| `Waiting.dfy` | how long requests and provider events can wait, tick by tick |
| `Snapshots.dfy` | the rounds of the live loop as the server's answers decide them |
| `Syncer.dfy` | `P2PSyncer`: the recovery scan, the live loop, a whole life, many lives |

## Assumptions

The server, the provider and the other writers are classes whose choices at every
call come from an arbitrary script: who writes first, whether a call fails and
how, whether a failing publish was committed, how far a fetch gets, what is
reported and when. What the proofs need of them is a contract:

- Callers write well-formed requests on the mapped channels, never two different
  ones with one id, and nothing else there (`System.CallerOk`).
- The provider names the message of a request by the request, whatever the
  attempt; it reports the worker's own message only after the send and in the
  session it was sent to; no content it reports has a `source_principal` key
  (`System.Env`, `System.EventOk`).
- The log gives increasing seqs; a fetch returns exactly the entries it says; a
  publish is committed, if at all, before the call returns, and not at all with a
  status that promises so.
- The clock never goes back.
- The status a recovery scan starts from is not older than the log.

The first two and the last are antecedents of the theorems, and each is a statement
about what is on record when the program has ended: every entry of the log is the
worker's own or keeps to `CallerOk` (`Client.OpenEvent.Honest`), every event the
provider reported kept to `EventOk` given what it had accepted by then
(`Adapter.Provider.Honest`), and no status that a life began with was below the
log's last seq (`Syncer.LifeTrust`). Nothing is assumed of the order, timing or
number of failures.

## Findings

- The parser rejects a `source_principal` key at any depth of a payload
  (`src/openevent/im_sdk/codec.py:33`); the encoders do not look for it, although
  `docs/IM_PROTOCOL.md:120-121` forbids it. A provider message whose content has
  such a key is published and can then never be read back: every later recovery
  fails. `Safety.RecoverySurvivesRecord` gives the exact condition,
  `Safety.UnreadableEvent` an input.
- A `take_message` call that asks for history moves the cursor its own loop counts
  from (`src/openevent/im_p2p_syncer/provider_messages.py:85`, `:96`), so it may
  look at one session twice, pass over another one and return None although that
  one has an event to deliver. `Overlooked.PassedOver` is an input, from a newly
  started puller on. `Rounds.NothingLeft` gives the exact condition: None leaves
  nothing to deliver if and only if no session passed over had anything before the
  loop; and `Rounds.LooksAtAll` when none is passed over: if and only if no session
  but perhaps the last in line was due to ask for history, in which case nothing is
  left (`Rounds.LooksAtAllLeavesNone`). `TakeMessage` promises exactly this.
- `_scan_history` takes the reported `max_seq` on trust. If it is lower than what
  the log held, results and records past it are never read, because the live loop
  ignores those kinds: an answered request is chosen again, and a recorded message
  looks new. `Stale.StaleAgrees` and `Stale.StaleScanRuns` give the exact
  conditions, `Stale.AnsweredStaysLive` an input.
- A record is degraded whenever a RESOURCE_EXHAUSTED is found behind the failure
  (`src/openevent/im_p2p_syncer/loop.py:324-341`), and the status asked for before
  a publish can be what failed with it (`src/openevent/im_sdk/client.py:131-139`).
  So content may be omitted, or a result given up as too large, although it was
  never offered to OpenEvent, where `docs/IM-P2P-SYNCER.md:280` speaks of a full
  record that OpenEvent rejects. `Client.RefusedUnsent` is an input; by
  `Client.WhatWasRefused` the draft itself was refused exactly if the status did not
  fail; what follows for a record is in `PublishWithRetry` and `PublishOrDegrade`.

## Model

| member | source | states |
|---|---|---|
| Mapping.P2PMappingIndex.Build | src/openevent/im_p2p_syncer/mapping.py:74-106 | building the index succeeds exactly for mappings in which every principal has a token, every channel exactly two entries, a user and a bot with different principals in one session, and no two channels one session; the result is sound and holds every channel's entries |
| Mapping.SessionsInverse | src/openevent/im_p2p_syncer/mapping.py:29-33 | channel to session and session to channel are inverse lookups |
| Mapping.TwoEntries | src/openevent/im_p2p_syncer/mapping.py:78-86 | an owned channel has exactly one user entry and one bot entry, with different principals |
| Mapping.PeersInvolution | src/openevent/im_p2p_syncer/mapping.py:68-69 | a participant has exactly one peer, whose only peer is that participant |
| Mapping.IdentitiesInverse | src/openevent/im_p2p_syncer/mapping.py:39-66 | for one identity type, principal to external id and external id to principal are inverse lookups |
| Mapping.ResolvedParticipates | src/openevent/im_p2p_syncer/syncer.py:267-278 | a sender that resolves to a principal resolves to a participant of the channel, which is what the role check asks of a record |
| Mapping.LookupsAreEntries | src/openevent/im_p2p_syncer/mapping.py:29-66 | every lookup in the fields of a channel's two entries: its session is theirs, a principal's external id and an external id's principal are those of the entry with both |
| Mapping.SessionsAreEntries | src/openevent/im_p2p_syncer/mapping.py:32-33 | the channel of a session is the one whose entries are in it |
| Memory.RuntimeState.AddSendRequest | src/openevent/im_p2p_syncer/state.py:48-68 | a known id is a conflict exactly if the channel, principal, message type or content differs from the canonical request's; a new one becomes canonical with the message's own fields and is queued; the whole new state |
| Memory.RuntimeState.NextPendingTask | src/openevent/im_p2p_syncer/state.py:70-87 | takes the least queued item whose channel is not blocked by another request, or None exactly when there is none; drops only stale items that come first, keeps every blocked one |
| Memory.PopReady | src/openevent/im_p2p_syncer/state.py:70-87 | the pop, defer and push loop refines a scan for the least sendable item, and ends |
| Memory.SiftFound | src/openevent/im_p2p_syncer/state.py:81-84 | pushing the deferred items back after a find leaves all but the found item and the smaller stale ones |
| Memory.SiftNone | src/openevent/im_p2p_syncer/state.py:85-87 | pushing the deferred items back after an exhausted search leaves exactly the items that are not stale |
| Memory.HeapPop | src/openevent/im_p2p_syncer/state.py:73 | removes one occurrence of the least (seq, id) pair |
| Memory.RuntimeState.ChannelHasPending | src/openevent/im_p2p_syncer/state.py:89-90 | true exactly when some live request is of the channel |
| Memory.RuntimeState.MarkSendResultSuccess | src/openevent/im_p2p_syncer/state.py:92-105 | the whole new state of the live update after a result |
| Memory.RuntimeState.AddSendResult | src/openevent/im_p2p_syncer/state.py:107-152 | the whole new state of the replay update, and which of the five conflicts is raised, decided by the fields of the message, of the first result and of the request; a success that names a message links it to the result's seq |
| Memory.RuntimeState.AddSyncRecord | src/openevent/im_p2p_syncer/state.py:154-167 | the whole new state, and the two prev_seq conflicts; the message is noted under its session, channel and id |
| Memory.RuntimeState.MarkSyncRecord | src/openevent/im_p2p_syncer/state.py:169-176 | the whole new state of the live update after a record |
| Memory.RuntimeState.UnblockChannel | src/openevent/im_p2p_syncer/state.py:181-183 | a channel is unblocked only by the request that blocks it |
| Memory.RuntimeState.RecordEventMs | src/openevent/im_p2p_syncer/state.py:185-188 | the channel's latest time never goes back |
| Queue.RequestKeeps | src/openevent/im_p2p_syncer/state.py:48-68 | adding a request keeps the partition: live requests are the first ones without a result, each queued once or blocking its own channel, never both |
| Queue.ResultKeeps | src/openevent/im_p2p_syncer/state.py:107-152 | replaying a result keeps the partition |
| Queue.MarkKeeps | src/openevent/im_p2p_syncer/state.py:92-105 | marking a result keeps the partition |
| Queue.RecordKeeps | src/openevent/im_p2p_syncer/state.py:169-176 | marking a record keeps the partition |
| Queue.NextKeeps | src/openevent/im_p2p_syncer/state.py:70-87 | choosing a request moves it from the heap to its channel's blocker, so the partition is kept |
| Queue.CompleteKeeps | src/openevent/im_p2p_syncer/state.py:142-145 | taking one request out of the live map and off its channel keeps the partition |
| Queue.IdleChoosesOldest | src/openevent/im_p2p_syncer/state.py:70-87 | with nothing blocked the choice is the oldest live request of all, and None means there is none |
| Replay.StepRecovers | src/openevent/im_p2p_syncer/syncer.py:159-174 | one entry is accepted exactly when it is consistent with the entries before it, and the memory goes on meaning the log |
| Replay.RecoveryMeansLog | src/openevent/im_p2p_syncer/syncer.py:129-174 | recovery accepts exactly the logs whose every entry is consistent with those before it, and builds the memory the log means: first requests, first results, last links, records seen, latest times |
| Replay.FirstTaskMeaning | src/openevent/im_p2p_syncer/state.py:57-67 | the canonical request of an id is the first one written |
| Replay.FirstResultMeaning | src/openevent/im_p2p_syncer/state.py:118-143 | the terminal result of an id is the first one written |
| Replay.LinkMeaning | src/openevent/im_p2p_syncer/state.py:146-152 | the link of a provider message is the last successful first-result that names it |
| Replay.SeenMeaning | src/openevent/im_p2p_syncer/state.py:166 | a key is seen exactly when some record of an owned channel has it |
| Replay.LatestMeaning | src/openevent/im_p2p_syncer/state.py:185-188 | the latest event time is the maximum over the channel's records |
| Replay.AcceptedGrows | src/openevent/im_p2p_syncer/syncer.py:150-152 | whether a longer log is accepted depends on the shorter one and on its last entry |
| Replay.AgreesFetchRequest | src/openevent/im_p2p_syncer/syncer.py:258-261 | reading a request live keeps the memory equal to what the log means |
| Replay.AgreesResult | src/openevent/im_p2p_syncer/loop.py:178-193 | a published first result, once marked, keeps the memory equal to what the longer log means |
| Replay.AgreesRecord | src/openevent/im_p2p_syncer/loop.py:244-278 | a published record, once marked, keeps the memory equal to what the longer log means |
| Replay.RecoveryResumesOldest | src/openevent/im_p2p_syncer/state.py:70-87 | after a recovery the first request offered is the oldest one in the log without a result, as first written; None means every request has one |
| Meaning.CleanMeaning | src/openevent/im_sdk/codec.py:29-33 | a content is free of the forbidden key exactly if no path, through objects and arrays, leads to an object that has it |
| Meaning.ParsesMeaning | src/openevent/im_sdk/codec.py:31-63 | what the parser asks of each kind of payload, field by field |
| Meaning.RecoveryAccepts | src/openevent/im_p2p_syncer/syncer.py:129-174 | recovery succeeds exactly on the logs whose every owned entry is well formed, has the right writer and recipients, and fits the entries before it: a request agrees with the first of its id, a result answers the first request or agrees with the first result, a record points at the last result that names its message or at nothing; all in the fields of the entries |
| Meaning.SameIdSameContent | src/openevent/im_p2p_syncer/state.py:59-62 | in a log that recovers any two requests with one id agree in channel, principal, message type and content, and any two results of one request in all that they tell |
| Meaning.RecoveredMemory | src/openevent/im_p2p_syncer/state.py:38-46 | the memory that recovery builds, in the fields of the log: first requests, live exactly without a result; messages recorded; for each message the last result that names it; each channel's latest record |
| Meaning.TaskIsFirst | src/openevent/im_p2p_syncer/state.py:48-68 | the canonical request of an id has the fields of the first entry written with it |
| Safety.RestartKeeps | src/openevent/im_p2p_syncer/syncer.py:62-67 | restarting on a good log leads to a good state |
| Safety.FetchKeeps | src/openevent/im_p2p_syncer/syncer.py:244-265 | reading one more entry keeps the invariant |
| Safety.SendKeeps | src/openevent/im_p2p_syncer/loop.py:134-156 | sending the chosen request keeps the invariant: every older request has a result in the log |
| Safety.ChosenFacts | src/openevent/im_p2p_syncer/loop.py:78-82 | what is chosen is an unanswered request as first written, and everything older is answered |
| Safety.CommitResultKeeps | src/openevent/im_p2p_syncer/loop.py:178-193 | committing a result keeps the log free of conflicts and of second results |
| Safety.RecordIsCaused | src/openevent/im_p2p_syncer/loop.py:233 | for a message the worker itself sent, the link it puts into the record is its request's result |
| Safety.CommitRecordKeeps | src/openevent/im_p2p_syncer/loop.py:201-278 | committing a record keeps the log free of conflicts and of second records |
| Safety.StepKeeps | src/openevent/im_p2p_syncer/loop.py:62-76 | every step, crashes and restarts included, keeps the invariant |
| Safety.ReachableIsGood | src/openevent/im_p2p_syncer/syncer.py:62-73 | the invariant holds in every state of every run from an empty log |
| Safety.AtMostOnce | docs/IM_PROTOCOL.md:274 | in every reachable log there is at most one record per provider message and one result per request |
| Safety.RecordsPointAtResults | docs/IM_PROTOCOL.md:283-287 | a record of a message the worker sent follows its request's result, is on its channel and has its seq as prev_seq, even after a crash and resend |
| Safety.RecoveryNeverConflicts | src/openevent/im_p2p_syncer/state.py:107-167 | recovery succeeds on the log of every reachable state, so a restart is always possible |
| Safety.RecoveryAgreement | src/openevent/im_p2p_syncer/state.py:92-176 | at rest the live memory equals what a recovery would rebuild, except requests not yet read |
| Safety.SendsInOrder | docs/IM_PROTOCOL.md:294-301 | over a whole run, provider sends happen in non-decreasing request seq |
| Safety.RepeatsInPlace | docs/IM-P2P-SYNCER.md:71-73 | a request is resent only while nothing else has been sent since |
| Safety.SendsOldestUnanswered | src/openevent/im_p2p_syncer/loop.py:78-82 | what is sent has no result yet and every older request has one |
| Safety.RecordsWaitForRequests | docs/IM_PROTOCOL.md:294-299 | when a record commits, every request of its channel among those read has its result in the log |
| Safety.RecordReadable | src/openevent/im_sdk/codec.py:29-33 | a record the encoder accepts is accepted by the parser exactly when its content was omitted or has no source_principal key at any depth |
| Safety.RecoverySurvivesRecord | src/openevent/im_sdk/codec.py:117-147 | publishing such a record leaves the log recoverable exactly under that condition |
| Safety.UnreadableEvent | src/openevent/im_sdk/normalizer.py:52-60 | a concrete event whose record is encoded and cannot be parsed |
| Safety.UnreadableForGood | src/openevent/im_p2p_syncer/syncer.py:159-164 | once an unparsable entry is in an owned channel, every recovery fails |
| Contents.SendsAsAsked | src/openevent/im_p2p_syncer/loop.py:134-156 | in every reachable state whatever was handed to the provider is what the first request of that id asks for: its type and content, in the session of its channel, from the bot whose principal wrote it |
| Contents.ResultsAsSent | src/openevent/im_p2p_syncer/loop.py:178-193 | every result in a reachable log follows and answers the first request of its id, tells success and the provider's id for it, and that request has been handed to the provider |
| Contents.CommitDescribes | src/openevent/im_p2p_syncer/loop.py:230-266 | a record committed for an event is from the event's mapped sender, in its session's channel, to the other principal, with its message id, type and time; it holds the event's own content and text, or is marked as omitted with the reason and the event's own metadata |
| Contents.RecordsAsReported | docs/IM_PROTOCOL.md:155-207 | every record of a reachable log was committed for an event that kept to the provider's contract, and describes it |
| Client.OpenEvent.PublishAutoSeq | src/openevent/im_sdk/client.py:107-120 | the server's side: a publish may commit and still fail, but not with one of the five codes that promise otherwise |
| Client.OpenEvent.Fetch | src/openevent/im_sdk/client.py:160-167 | the server's side: exactly the channels' entries from the requested seq up to the returned one |
| Client.BetweenMembers | src/openevent/im_sdk/client.py:160-172 | the window of a fetch: an entry is in it exactly if it is in the log, on one of the channels, and its seq in the range |
| Client.BetweenIncreases | src/openevent/im_sdk/client.py:160-172 | the window of a fetch is in the order of the log |
| Client.ImProtocolClient.ReconcileUncertainPublish | src/openevent/im_sdk/client.py:141-186 | a status and then fetches, each from where the one before ended; the outcome is unknown exactly if the last of these answers failed, was a status below the one before the publish or a fetch that did not move on; a returned seq names a matching entry written since; an error that is safe to retry means that everything up to the status was read and there was none; every fetch shrinks the interval |
| Client.FirstMatch | src/openevent/im_sdk/client.py:168-172 | the first matching entry of a page that is not too new, or proof that the page has none |
| Wire.MatchesMeaning | src/openevent/im_sdk/client.py:202-214 | an entry matches exactly if it is the draft with a seq |
| Client.NoneUpTo | src/openevent/im_sdk/client.py:158-176 | a page without a match extends the interval known to hold none |
| Client.ImProtocolClient.Publish | src/openevent/im_sdk/client.py:94-129 | against any server choices and other writers: at most one copy is committed; what is returned follows from the answers: an acknowledged seq is returned as it is, a failure with one of the five codes is final, any other is reconciled; a returned seq names a matching entry; anything but an unknown outcome means nothing was committed |
| Client.WhatWasRefused | src/openevent/im_sdk/client.py:131-139 | a publish that ends with RESOURCE_EXHAUSTED ends with the answer that said so, and that answer is about the draft exactly if the status asked for first did not fail |
| Client.CodesOfPublish | src/openevent/im_sdk/client.py:13-19 | what a failed publish comes to for each of the nine codes: five are final, the others are looked into |
| Client.MalformedExactly | src/openevent/im_sdk/client.py:94-106 | only a draft that cannot be encoded or lacks a channel or principal is malformed, and then nothing is asked |
| Client.Publisher.PublishWithRetry | src/openevent/im_p2p_syncer/loop.py:298-321 | over all attempts at most one copy is committed and at most publish_max_attempts publishes are issued; an attempt is followed by another exactly if it failed safely with UNAVAILABLE or DEADLINE_EXCEEDED, with attempts left and without being told to stop; the outcome is that of the last one; none was committed when the payload is reported too large |
| Client.LastRefuses | src/openevent/im_p2p_syncer/loop.py:324-341 | a payload is reported too large only if the very last answer was RESOURCE_EXHAUSTED, to the publish of this draft or to the status asked for before it |
| Client.NoneRefuses | src/openevent/im_p2p_syncer/loop.py:298-321 | a payload is acknowledged only if no answer of any attempt was RESOURCE_EXHAUSTED |
| Client.FollowedExactly | src/openevent/im_p2p_syncer/loop.py:298-329 | a safe failure is followed by another attempt, while attempts are left and the worker was not told to stop, exactly if its cause is UNAVAILABLE or DEADLINE_EXCEEDED |
| Client.StatusOnly | src/openevent/im_p2p_syncer/loop.py:298-341 | what a retry loop comes to whose only call was a status that failed, for each of the nine codes |
| Client.GivenUp | src/openevent/im_p2p_syncer/loop.py:307-319 | a publish that failed and is known not to be committed is given up without a second attempt only if its code is not UNAVAILABLE or DEADLINE_EXCEEDED, the worker was told to stop, or no attempt was left |
| Client.SecondAttempt | src/openevent/im_p2p_syncer/loop.py:298-321 | with either of the two codes a second attempt that is acknowledged gives its seq; with no other code is there a second attempt |
| Client.RefusedUnsent | src/openevent/im_p2p_syncer/loop.py:324-341 | a server for which a draft is reported too large although no publish was ever issued |
| Sessions.HandoffCovers | src/openevent/im_p2p_syncer/provider_messages.py:194-225 | a replacement window is well formed, ends now, contains the unfinished one, and starts no later than the later of the last end among the session's windows that were read to their last page and the latest event time recovered or acknowledged |
| Sessions.NewWindow | src/openevent/im_p2p_syncer/provider_messages.py:219-225 | exactly these times lie in a new window: up to now, not before the epoch, and no further back than the overlap before the known time, or than the lookback if none is known |
| Sessions.HandoffReplaces | src/openevent/im_p2p_syncer/provider_messages.py:207-217 | exactly these times lie in a replacement window: those of a new one from the latest time recovered, acknowledged or read to, and those that the unfinished window still has to bring |
| Sessions.HandoffKeeps | src/openevent/im_p2p_syncer/provider_messages.py:207-217 | each window of a session ends no earlier than the one before it, and starts no later than that one ended or than a known event; a handoff keeps this and the rest of the session's account |
| Sessions.SecondsCoverWindow | src/openevent/im_p2p_syncer/adapters/lark_openapi.py:162-163 | the whole seconds asked for contain the window in milliseconds and are never an empty interval |
| Sessions.QueryKeeps | src/openevent/im_p2p_syncer/provider_messages.py:152-192 | a history query, answered or not, keeps the account of the session: everything its queries returned was delivered or is queued, in order; the scan asks for one window, each time with the token of the last page answered; the high-water mark is the latest end of a window read to its last page |
| Sessions.FinishedScan | src/openevent/im_p2p_syncer/provider_messages.py:185-192 | the queries of a finished scan all asked for its window, the first without a token and each later one with the token of the last page answered before, and only the last was answered with a last page; exactly what they returned was delivered or is queued, in order |
| Sessions.BufferedGrows | src/openevent/im_p2p_syncer/provider_messages.py:131-143 | per session, events arrived stay events delivered followed by events buffered when one more arrives |
| Sessions.OfRemoved | src/openevent/im_p2p_syncer/provider_messages.py:145-150 | taking a session's oldest event out of the buffer shortens that session's events from the front and no other's |
| Puller.ProviderMessagePuller.Start | src/openevent/im_p2p_syncer/provider_messages.py:51-68 | every session starts with one open window that holds exactly the times up to now back to the overlap before its recovered mark, or back to the lookback without one; nothing is outstanding, the order is ascending, and there was one look whether the stream is broken; a failure means that there is no session or that the provider is to blame |
| Puller.ProviderMessagePuller.CollectLiveEvent | src/openevent/im_p2p_syncer/provider_messages.py:131-143 | asks for a live event exactly when there is room; what the provider handed out is at the end of the buffer, once; the buffer never exceeds event_queue_size; nothing is collected under a generation that has not been followed |
| Puller.ProviderMessagePuller.TakeLiveEvent | src/openevent/im_p2p_syncer/provider_messages.py:145-150 | the oldest buffered event of the session, or None exactly when it has none |
| Puller.ProviderMessagePuller.FetchHistoryPage | src/openevent/im_p2p_syncer/provider_messages.py:152-192 | the provider receives one query, with the session, the window and the token of its scan; after a temporary failure only the time of the next query changes, to history_retry_delay_ms from now; a page is queued whole, the scan is at the page's token or done, and the next query may follow at once; the query is in the session's account |
| Puller.ProviderMessagePuller.ScheduleReconnectHandoff | src/openevent/im_p2p_syncer/provider_messages.py:194-217 | a new generation gives every session a replacement window with exactly the times that `Sessions.HandoffReplaces` names, due at once, and loses nothing queued |
| Puller.ProviderMessagePuller.TakeMessage | src/openevent/im_p2p_syncer/provider_messages.py:74-104 | two looks whether the stream is broken, and after both the generation followed is the stream's own, so that a reconnect before or while a live event is taken counts in the same call; at most one event per session is outstanding; what is handed out is the next of the session's history or live events; live events wait for the history; the call is the round that sessions, cursor and answers decide, and leaves the cursor one past the session served; None means what `Rounds.LooksAtAll` and `Rounds.NothingLeft` say, and that there is nothing to deliver or to ask if nothing was asked; a failure means that the provider is to blame |
| Puller.ProviderMessagePuller.GoRound | src/openevent/im_p2p_syncer/provider_messages.py:83-104 | the loop over the sessions is the round of `Rounds`: at each turn the session that cursor and offset name, with the queries, answers and cursor moves that follow from its state |
| Rounds.LooksAtAll | src/openevent/im_p2p_syncer/provider_messages.py:83-98 | a call that returns None has looked at every session exactly when no session but perhaps the last in line, counted from the cursor before the call, was due to ask for history; however many queries it made |
| Rounds.UnseenStays | src/openevent/im_p2p_syncer/provider_messages.py:83-98 | a session that is passed over is left as it was, events to deliver included |
| Rounds.QuietRound | src/openevent/im_p2p_syncer/provider_messages.py:83-104 | a call that asks nothing and returns None leaves no session with anything to deliver or to ask |
| Rounds.NothingLeft | src/openevent/im_p2p_syncer/provider_messages.py:83-104 | after any call that returns None, no session has an event to hand out exactly when none that the call passed over had one before it |
| Rounds.LooksAtAllLeavesNone | src/openevent/im_p2p_syncer/provider_messages.py:83-104 | so None does leave nothing to hand out if no session but perhaps the last in line was due to ask for history |
| Rounds.AskedWhenDue | src/openevent/im_p2p_syncer/provider_messages.py:89-94 | a call asks only for sessions that, when it began, had nothing outstanding and nothing queued, an open scan and a next query time that has come |
| Rounds.FirstServed | src/openevent/im_p2p_syncer/provider_messages.py:83-104 | the sessions take turns: without a query an event is handed out for the first session, in line from the cursor, that can do anything, and the cursor is then one past it |
| Overlooked.PassedOver | src/openevent/im_p2p_syncer/provider_messages.py:94-98 | a newly started puller and a provider for which the third call asks one session twice, returns None, and passes over another one whose live event has been taken from the provider and waits |
| Puller.ProviderMessagePuller.Acknowledge | src/openevent/im_p2p_syncer/provider_messages.py:106-119 | succeeds exactly for the outstanding message of its session, clears it, moves the confirmed time to the later one and changes nothing else |
| Puller.SortedKeys | src/openevent/im_p2p_syncer/provider_messages.py:66 | the session order is ascending and lists every session once |
| Refine.OutboundDone | src/openevent/im_p2p_syncer/loop.py:134-193 | a request sent, published among other writers' entries and marked is a run of the transition system |
| Refine.OutboundLost | docs/IM-P2P-SYNCER.md:71-73 | so is one that was sent and whose result may or may not have been committed when the worker died |
| Refine.InboundDone | src/openevent/im_p2p_syncer/loop.py:201-278 | an event published among other writers' entries and marked is a run |
| Refine.InboundLost | src/openevent/im_p2p_syncer/loop.py:244-276 | so is one whose record may or may not have been committed when the worker died |
| Refine.ResultIsNew | src/openevent/im_sdk/client.py:202-214 | reconciliation cannot mistake another entry for the result: nothing else in the log matches it |
| Refine.RecordIsNew | src/openevent/im_sdk/client.py:202-214 | nor another entry for the record |
| Processor.SingleThreadProcessor.CollectProviderMessages | src/openevent/im_p2p_syncer/loop.py:85-96 | if there is room the puller is asked, once; at most one event is added, and the queue stays exactly what the puller waits for; if none was, the queue is full, history was asked for, or no session has anything to hand out or to ask |
| Processor.JointTaken | src/openevent/im_p2p_syncer/loop.py:95-96 | a taken event keeps the queue equal to what the puller waits for, one per session |
| Processor.JointAcknowledged | src/openevent/im_p2p_syncer/loop.py:123-124 | so does an acknowledged and removed one |
| Processor.SingleThreadProcessor.AcknowledgeAt | src/openevent/im_p2p_syncer/loop.py:120-124 | it may be called only for an event whose key is in inbound_seen; acknowledging a pending event never fails, frees its session and is the only thing acknowledged |
| Processor.SingleThreadProcessor.PublishWithRetry | src/openevent/im_p2p_syncer/loop.py:298-321 | the retry loop as the tick sees it: other writers' entries and at most one copy, which an acknowledged seq names; nothing was refused on the way to it |
| Processor.SingleThreadProcessor.PublishSyncRecord | src/openevent/im_p2p_syncer/loop.py:280-296 | publishing the record puts an entry into the log that is from the sender to the other principal of the channel, with the event's id, type and time, the clock's time as its ingestion time, pointing at the result that named the message, and holds the event's content and text, or in its lightweight form the omission and the event's metadata, with nothing refused on the way; or it ends the worker, or leaves nothing but other writers' entries because the last answer was RESOURCE_EXHAUSTED, to such a record or to the status asked for before it |
| Processor.SingleThreadProcessor.PublishOrDegrade | src/openevent/im_p2p_syncer/loop.py:244-276 | the full record is in the log and nothing was refused, or an answer turned it down with RESOURCE_EXHAUSTED and after that the lightweight one was written with nothing refused; TooLarge means that both were turned down, in that order |
| Processor.SingleThreadProcessor.PublishProviderEvent | src/openevent/im_p2p_syncer/loop.py:201-278 | once it returns, the event had been seen or its record is in the log under the mapped sender, and its key is in inbound_seen; a failure leaves the memory as it was; an unmapped sender ends the worker with nothing published |
| Processor.SingleThreadProcessor.PublishAt | src/openevent/im_p2p_syncer/loop.py:117-125 | publish, then acknowledge, then remove: a failure leaves the puller untouched and acknowledges nothing |
| Processor.SingleThreadProcessor.NextEvent | src/openevent/im_p2p_syncer/loop.py:98-116 | the first event of the queue whose channel has nothing to send; None means that all wait, a failure that a session is not mapped |
| Processor.SingleThreadProcessor.ProcessNextProviderEvent | src/openevent/im_p2p_syncer/loop.py:98-126 | handles the first event of the queue whose channel has nothing to send, all before it waiting, and takes out that one; it is acknowledged once its key is in inbound_seen, with its record in the log unless it had been seen before, and nothing else is; a failure acknowledges nothing and leaves the puller as it was; None means that all wait |
| Processor.SingleThreadProcessor.SendTask | src/openevent/im_p2p_syncer/loop.py:135-175 | the provider is handed the request's own type, content and id, in its session and under the sender's name, at most once; it goes on exactly if the provider says success and an id that is not empty, and with that id; any other answer, or none, ends the worker |
| Processor.SingleThreadProcessor.ReportSent | src/openevent/im_p2p_syncer/loop.py:178-193 | once it returns, a successful result of the request that names the provider message, with the clock's time, is in the log and its seq is what the memory has marked; a failure ends the worker with the message sent |
| Processor.SingleThreadProcessor.ProcessOutboundTask | src/openevent/im_p2p_syncer/loop.py:134-199 | once it returns, the message was handed over once under the bot's identity, the result is in the log, the request has left the queue and nothing is blocked; without an accepted send nothing is written; either way it was a run |
| Processor.SingleThreadProcessor.ProcessNextOutboundTask | src/openevent/im_p2p_syncer/loop.py:78-83 | handles the oldest live request, or finds that there is none |
| Processor.SingleThreadProcessor.TakeTurns | src/openevent/im_p2p_syncer/loop.py:67-76 | the work table from the entry whose turn it is: the other kind of work goes first only if the kind whose turn it is has nothing that can be done, and after either it is the other's turn |
| Processor.SingleThreadProcessor.Act | src/openevent/im_p2p_syncer/loop.py:62-76 | a tick that goes on collects first, whatever it does then: the puller has been asked if there was room for an event |
| Processor.SingleThreadProcessor.Tick | src/openevent/im_p2p_syncer/loop.py:62-76 | a tick is a run of the transition system, to the worker's end if it fails; it is on record with what had been read, whose turn it was and what it did; it stops at once, with nothing pulled, sent or written, exactly if the worker has been told to stop; otherwise it collects whenever there is room; requests and events take turns, oldest request first, events only once recorded and acknowledged; it finds nothing to do only when there is nothing; a failure comes from the provider, the mapping, the server's answers or the stop flag, as its kind says |
| Reading.PageCut | src/openevent/im_p2p_syncer/syncer.py:212-217 | cutting a page at the snapshot gives the two windows of the log on either side of it |
| Reading.RecoverOn | src/openevent/im_p2p_syncer/syncer.py:150-152 | processing the owned entries that follow a prefix recovers the longer prefix |
| Reading.ScanPage | src/openevent/im_p2p_syncer/syncer.py:139-156 | one page, cut at the scan's end, takes the recovery from one prefix of the log to the next |
| Syncer.P2PSyncer.ProcessHistoryMessage | src/openevent/im_p2p_syncer/syncer.py:159-174 | parse, ownership, role and state checks in that order, and the state after each |
| Syncer.P2PSyncer.ScanPageFrom | src/openevent/im_p2p_syncer/syncer.py:139-156 | each turn of the scan moves on unless told to stop, and keeps the memory equal to the recovery of what was read |
| Syncer.P2PSyncer.ScanHistory | src/openevent/im_p2p_syncer/syncer.py:129-157 | whatever is written meanwhile, the memory is what the log says up to the scan's end |
| Syncer.P2PSyncer.StartMessagePullers | src/openevent/im_p2p_syncer/syncer.py:84-92 | every session of the provider starts from the latest recorded event time of its channel |
| Reading.ReachFetches | src/openevent/im_p2p_syncer/syncer.py:244-265 | handling the owned entries of a slice of the log is a run of fetch steps |
| Reading.LiveAllOk | src/openevent/im_p2p_syncer/syncer.py:244-265 | in a good state the live loop accepts whatever is in the log, however much of it is read at once |
| Reading.FaultMeansInsane | src/openevent/im_p2p_syncer/syncer.py:244-265 | so a fault in the live loop means that a writer or the provider broke its contract, or the status was stale |
| Reading.ScanFaultMeansInsane | src/openevent/im_p2p_syncer/syncer.py:159-174 | and so does a fault in the scan |
| Reading.RestartRuns | src/openevent/im_p2p_syncer/syncer.py:62-65 | a scan of what the log was at some moment, with callers writing before and after, is a restart step |
| Syncer.P2PSyncer.ProcessLiveMessage | src/openevent/im_p2p_syncer/syncer.py:244-265 | the checks in order; only requests change the state |
| Reading.LiveMeaning | src/openevent/im_p2p_syncer/syncer.py:244-265 | in fields: the live loop accepts an entry exactly if it is well formed and, on an owned channel, from the right writer and not at odds with the first request of its id; it learns requests, with their own fields, and nothing else |
| Syncer.P2PSyncer.HandleLive | src/openevent/im_p2p_syncer/syncer.py:221-222 | handles exactly one window of the log, in order, as a run; a bad entry ends it only if somebody broke a contract |
| Syncer.P2PSyncer.TakePrefetched | src/openevent/im_p2p_syncer/syncer.py:183-189 | a round that starts from messages fetched ahead handles all of them and nothing else |
| Syncer.P2PSyncer.Sift | src/openevent/im_p2p_syncer/syncer.py:212-217 | a page is split into what the snapshot takes in and what it does not, in order |
| Syncer.P2PSyncer.TakePage | src/openevent/im_p2p_syncer/syncer.py:210-224 | a page is handled up to the snapshot and the rest kept; a fetch that neither moves on nor reaches the snapshot is refused, so a round ends |
| Syncer.P2PSyncer.FinishRound | src/openevent/im_p2p_syncer/syncer.py:225-231 | one tick, at which exactly the snapshot has been handled and read, so that no snapshot due is without its tick; the next round starts where this one stopped, without loss or repeat |
| Syncer.P2PSyncer.Turn | src/openevent/im_p2p_syncer/syncer.py:183-224 | one turn up to the tick: a batch fetched ahead or one fetch; a fetch that fails ends the loop normally if the worker has been told to stop, is tried again only with UNAVAILABLE or DEADLINE_EXCEEDED, and is fatal only with another code; the snapshots due are those of `Snapshots.Follow` |
| Syncer.P2PSyncer.PollEvents | src/openevent/im_p2p_syncer/syncer.py:176-231 | the snapshots are those that the server's answers make due, in order, each with one tick, but the last one may still lack its own when the loop ends other than by a bad entry; at each tick the live messages handled are exactly the owned entries from the start to the snapshot, once and in order, and the memory says what the log says while everybody keeps to their contracts; the ticks follow one another; the loop is a run; it ends normally only when told to stop, and otherwise by the permanent or stuck fetch that was the last call, by the failure of the last tick, or by an entry, which takes a broken contract |
| Snapshots.PageFollows | src/openevent/im_p2p_syncer/syncer.py:195-224 | sorting one page at the snapshot moves the variables of the loop as the calls alone say: the first page of a round sets its snapshot, a page that passes it ends the round, and what lies past it starts one with the last seq of that page as its snapshot |
| Snapshots.SnapshotsReported | src/openevent/im_p2p_syncer/syncer.py:195-209 | every snapshot due is a last seq that the server reported with a page |
| Snapshots.OutsideTick | src/openevent/im_p2p_syncer/syncer.py:225 | what a tick asks the server does not count among the calls of the loop |
| Snapshots.AgreeOnce | src/openevent/im_p2p_syncer/syncer.py:176-231 | in a run that has kept to its contracts, the memory a tick begins with says what the log says at that moment, as far as it has been read |
| Syncer.P2PSyncer.Start | src/openevent/im_p2p_syncer/syncer.py:62-73 | one life of the worker on any log is a run from down to down; the live loop takes over exactly where the scan was told to end, with the snapshots and ticks of `PollEvents`; being told to stop is never a failure, and a failure shows in the last answer, the last tick or the start of the puller |
| Syncer.Life | src/openevent/im_p2p_syncer/syncer.py:62-73 | the same of a newly made worker, whatever an earlier one or other writers left; only the status it starts its scan from has to be current |
| Syncer.Lives | src/openevent/im_p2p_syncer/syncer.py:62-73 | any number of lives in a row, however each ended, is one run from the empty log while writers and provider keep to their contracts and no life begins with a stale status; so the log left is good and recoverable |
| Reading.ScanAndLoopPartition | src/openevent/im_p2p_syncer/syncer.py:65-67 | scan and live loop divide the owned entries between them, without gap or overlap |
| Syncer.LifeAfterLife | src/openevent/im_p2p_syncer/syncer.py:62-73 | what a run from the empty log leaves is reachable, good and recoverable |
| Stale.LiveLearns | src/openevent/im_p2p_syncer/syncer.py:244-265 | the live loop takes any acceptable log and learns its requests from it, and nothing else |
| Stale.StaleAgrees | src/openevent/im_p2p_syncer/syncer.py:129-157 | after a scan told to end at some entry and a live loop that read the rest, the memory agrees with the log exactly when nothing past that entry was the first result of a request, the first record of a message, or a record with a later time than its channel had |
| Stale.StaleScanRuns | src/openevent/im_p2p_syncer/syncer.py:129-157 | on a good log that memory is where some run of the system leads exactly when every owned entry past the scan's end is a request; then it is what a whole scan would have built |
| Stale.AnsweredStaysLive | src/openevent/im_p2p_syncer/syncer.py:129-157 | a request and its result, with the scan told to end between them: recovery has nothing left to send, the worker chooses the answered request |
| Waiting.OneTick | src/openevent/im_p2p_syncer/loop.py:67-76 | a tick that does not answer a waiting request answers an older one or was the events' turn |
| Waiting.BoundedWaiting | src/openevent/im_p2p_syncer/loop.py:62-83 | over ticks that follow one another, as those of the live loop do, the k-th oldest live request is answered within 2k ticks (2k - 1 when it is the requests' turn), whatever arrives later |
| Waiting.OneTickOfEvents | src/openevent/im_p2p_syncer/loop.py:98-126 | a tick that does not handle an event whose channel is free handles one ahead of it or was the requests' turn |
| Waiting.BoundedEventWaiting | src/openevent/im_p2p_syncer/loop.py:62-126 | a provider event with p others ahead of it, whose channel has no request waiting, is handled within 2(p + 1) ticks (2p + 1 when it is the events' turn), whatever arrives later |
| Waiting.ReadOn | src/openevent/im_p2p_syncer/syncer.py:258-261 | what the live loop reads between two ticks is younger than every live request, so the ticks of the loop are such a sequence |

## Left out

- Client.OpenEvent.PublishAutoSeq: a commit that takes effect only after the failed call has returned is not modelled; reconciliation relies on there being none, as the source does.
- Client.OpenEvent.Fetch: the `limit` of a page is the server's free choice of how far it gets; numbers outside uint64 from the server are not modelled.
- Puller.ProviderMessagePuller.TakeMessage: that None means nothing to deliver is stated with its exact condition, because it is false without (`Overlooked.PassedOver`); that it means nothing to ask either is stated for calls without a history query.
- Puller.ProviderMessagePuller.FetchHistoryPage: a page with an event of another session is refused whole; the source has queued the events before it, and then ends.
- Memory.RuntimeState.NextPendingTask: the heap is a multiset with extract-min, not heapq's array; it asks that requests are filed under their own ids, which every operation keeps.
- Memory.RuntimeState.MarkSendResultSuccess: leaves `terminal_results_by_id` alone, as the source does, so that dictionary agrees with the log only right after a recovery.
- Waiting.BoundedWaiting: speaks of ticks that neither fail nor are stopped; the provider's own delivery is not bounded by anything.
- Waiting.BoundedEventWaiting: counts from the processor's queue, which every tick with room tries to fill, and counts ticks at which the event's channel is free; how long an event waits in the puller is not bounded, and while requests of its channel wait, it waits for them, as the source means it to.
- Mapping.P2PMappingIndex.Build: channels are built in an arbitrary order, so which of several configuration errors is reported first is not stated; providers per channel are not configured separately.
- More than one provider per worker, which `src/openevent/im_p2p_syncer/config.py:84-85` rejects.
- Channel validation at startup, tokens, logging, signals, the shutdown lock: plumbing around the protocol. Being stopped is part of the model, `stop` itself is not.
- JSON text and YAML parsing, field types: payloads are typed records. The payload checks and the forbidden key are modelled.
- The provider's REST and WebSocket code, its threads and its bounded callback queue; only the adapter's contract and the rounding to seconds are here.
- A provider that answers a send with success and an id other than the message's own; every other answer, and none, can be met.
- The SHA-256 behind the provider's idempotency key: the naming of messages by requests is injective.
- `SessionPullState` is a value in a map that the puller's methods replace, where the source mutates an object.
- Sleeping: a wait only tells whether the worker was told to stop.
- Optional fields of a record that the worker never sets (`is_init`, `text_preview`, extra data), and error fields of a result.
