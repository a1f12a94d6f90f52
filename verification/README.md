# Verified models of the agent's streaming protocols and transformations

These Dafny modules model the parts of the agent where ordering, recovery and rewriting matter, and
prove what they guarantee over every run or every input:

- **Session projection** (`Projection`, `Journals`, `WatchProtocol`, `WatchGuarantees`, `Convergence`,
  `ConnectionWatcher`, `Sink`, `Snapshots`, `BracketedRuns`, `Divergence`): the per-Operation journal, the
  bounded broadcast channel, and the connection watcher with its cursor, duplicate filter and lag recovery,
  as a step machine over emissions, terminal fallbacks, subscriptions, receptions and forwardings.
- **Ordered responses** (`ConfigResponses`, `Closing`): `session/set_config_option` and
  `session/close` against the watcher's delivery progress and send permit.
- **Aggregate MCP catalog** (`Aggregate`, `Publication`): the conflict-rejection loop, and concurrent
  publication by one watcher per server and a shutdown under the revision mutex.
- **Bounded pagination** (`Base64`, `JsonText`, `ResourceCursors`, `PageReader`, `Pagination`, `Listing`): page
  size bisection, and the chain of context-bound cursors over the sorted records as a client reads it from
  the pages' texts.
- **Outbound rewriting** (`Messages`, `Coalescing`, `Batching`): merging of adjacent stream chunks and
  packing into carriers, for every queue schedule, up to what the recovering web client ends with.
- **Provider history** (`Display`, `History`): correlation of tool results with calls, and when a signed
  native message survives.
- **Smaller pieces** (`TodoCards`, `Progress`, `SystemPrompt`): hidden `todo_write` cards and plans, the
  byte budget of progress messages, XML escaping and guideline de-duplication.

Types whose methods change fields in the program are classes here (`SessionProjection`,
`ProjectionWatch`, `PageBuffer`, `Negotiation`, `ProviderMessage`, `HiddenToolCalls`); each method is
proved equal to a specification function, and the lemmas are about those functions. Loops of the
program are loops here. Concurrency is modelled as a set of steps that may happen in any order the
locks and channels allow.

Where the program does not meet a property everywhere, the exact condition is proved beside it,
with a reachable counterexample:

- Forwarded sequences strictly increase exactly when nothing grouped is forwarded after the largest safe
  sequence. That event clears the watcher's cursor, so after it the duplicate filter is off: the event
  itself and earlier ones served by lag recovery are forwarded again when the channel still holds them
  (`ForwardedStrictlyIncrease`, `CursorLostExactly`, `LastSequenceCanRepeat`).
- A caught-up client can show another foreground state than the projection. It agrees exactly when nothing
  was set since it attached, the last event that set a state was forwarded to it, or that event set the
  state the client shows anyway; an event a journal took in is always forwarded (`ConvergesExactly`, over
  every run). The Kernel gets there: it gives up the session's operation gate while an extension command's
  handler runs (crates/kernel/src/runtime/command/execution.rs:264-267), so a prompt's journal can replace
  the command's, and the command's end is then in no journal and can be lost to lag (`OverlapDiverges`).
- A terminal fallback is filtered out by a caught-up watcher whose cursor is already past the
  fallback's sequence (`FallbackConvergesExactly`). The sink alone admits this (`SwallowedFallback`): it takes
  an event of a run after the run settled, and the Kernel emits AgentSettled last
  (crates/kernel/src/runtime/run/settlement.rs:60-130).
- A fallback can share its sequence with the next Kernel event. A close is answered before the next
  journalled group is forwarded exactly when that happened (`EarlyAnswerExactly`, `CollisionAnswersEarly`).
- The sink alone would let a `CompactionStart` that read the active Operation before a run began replace
  that run's journal (`CompactionInterferesExactly`, `StaleCompactionReplacesJournal`). The Kernel excludes
  it: every start, and the end of a compaction, is emitted under the session's operation gate (in
  crates/kernel/src/runtime: compaction.rs:155-156, run.rs:116-121, command/user_bash.rs:90-101 and
  command/execution.rs:101-119), and under that gate no interleaving lets a compaction touch another
  Operation's journal (`GatedCompactionsNeverInterfere`).
- A tool that a server gains and announces between the bootstrap aggregate and the watcher's
  subscription stays unpublished until the next announcement (`SettledIsCurrent`, `EarlyAnnouncementIsLost`).
- An update that carries the batch key itself is misread by the client: as a single frame even without
  negotiation, because it reads it as a carrier (`SingleFrameExactly`), and when packed, where the key is
  overwritten or refused (`CarrierRoundTrip`). The client gets exactly the coalesced runs if and only if
  none of their updates carries the key (`DeliversExactly`).
- A merged chunk hides a missing timestamp of its source, which the client would have refused
  (`MergeIsInvisibleExactly`); the agent writes one on every event.
- Revisions stop increasing at the largest u64 (`RevisionsIncrease`).
- The comment at crates/acp/src/server.rs:1914-1915 says that an update after a configuration answer is
  always newer than it. The code allows an older one to follow (`OlderUpdateMayFollow`), exactly when an
  older update was broadcast that the watcher had not passed yet when the answer was sent
  (`OlderFollowsExactly`); the method's own description, line 1851, is what holds.

Assumptions: the Kernel emits a Session's events in increasing sequence order. In `BracketedRuns` its
Operations are also bracketed, with fresh run ids, as they are while no extension command's handler runs,
and `Convergence` is about the protocol runs this induces; `Divergence` assumes no brackets. Emissions are
single steps in the protocol; `Sink` also interleaves their two lock sections. Each server's catalog passed
`prepare_catalog`. In `Pagination` every record's text has the bracket structure of one JSON object, as what
the program serializes has (`PageReader.WrittenObject`). In `ConfigResponses` settings changes are serialized and each one is current before its
update is broadcast (crates/kernel/src/runtime/session/settings.rs:53-70, 94-107, 129-152).

## Model

| member | source | states |
|---|---|---|
| Projection.SessionProjection.RecordBroadcastOf | crates/acp/src/projection.rs:195-210 | recording a broadcast keeps the newest sequence and the last known foreground state; unknown states change nothing |
| Projection.SessionProjection.DropSuperseded | crates/acp/src/projection.rs:318-325 | exactly the groups with the new snapshot's key leave the journal, the rest keeps its order |
| Projection.SessionProjection.AppendGroup | crates/acp/src/projection.rs:287-337 | one append opens, extends, ends or bypasses the journal and broadcasts the group; a Start without run id is refused and changes nothing |
| Projection.SessionProjection.PublishTerminalFallback | crates/acp/src/projection.rs:575-603 | the fallback always invalidates the journal, and broadcasts Idle at the next sequence exactly when that sequence is representable |
| Journals.JournalContents | crates/acp/src/projection.rs:287-337 | after a Start the journal holds exactly the latest groups of its own run, and runs exactly until its End |
| Journals.AppendKeepsValid | crates/acp/src/projection.rs:287-337 | every append of a newer group keeps the journal non-empty, Start-first, sorted, of one run and with one group per snapshot key |
| Journals.CursorAgreement | crates/acp/src/projection.rs:364-455 | the recovery plan, the cursor subscription and the lag snapshot accept the same cursors and hand out the same groups; the plan reports whether the Operation runs |
| Journals.FeedsOfOperation | crates/acp/src/projection.rs:402-490 | at any point of an Operation an attachment from the start receives the baseline captured with the start and the retained groups, one from a cursor no baseline, and both the state of that moment |
| Journals.WatchStaysAccepted | crates/acp/src/projection.rs:522-562 | a cursor planned as Watch is accepted by both readers until the next Start or fallback |
| Journals.FallbackRefusesCursors | crates/acp/src/projection.rs:575-603 | after a terminal fallback no cursor is accepted until a new Operation starts |
| Journals.RetentionPreservesView | crates/acp/src/projection.rs:318-325 | for every accepted cursor, the groups before it and then the retained groups from it give the last-writer-wins view of every group ever appended |
| WatchGuarantees.JournalAlwaysValid | crates/acp/src/projection.rs:287-337 | in every reachable state a retained journal is valid |
| WatchGuarantees.ForwardedStrictlyIncrease | crates/acp/src/server.rs:578-698 | over every interleaving the grouped sequences a watcher forwards increase up to the last representable one, and strictly increase throughout exactly when nothing grouped follows that one |
| WatchGuarantees.CursorLostExactly | crates/acp/src/server.rs:162-174 | the cursor disappears exactly after the last representable sequence; otherwise it filters exactly what is not newer |
| WatchGuarantees.LastSequenceCanRepeat | crates/acp/src/server.rs:578-698 | a reachable run forwards the last representable sequence and the one before it a second time, after recovery had served both |
| WatchGuarantees.NothingIsLost | crates/acp/src/server.rs:578-698 | until the watcher stops, every journalled group from its cursor on was forwarded, is pending, is still in the channel or the journal, or was superseded |
| WatchGuarantees.StopsExactlyWhenRefused | crates/acp/src/server.rs:586-636 | a receive stops the watcher exactly when it reports lag and the journal, read at that later moment, refuses the cursor |
| WatchGuarantees.CaughtUpIsComplete | crates/acp/src/server.rs:578-698 | a watcher that caught up has forwarded everything that was not superseded |
| Convergence.ReplayCarriesNoState | crates/acp/src/projection.rs:64-89 | replayed groups contain no state update |
| Convergence.ForegroundConverges | crates/acp/src/projection.rs:195-210 | in every disciplined run a client attached at any point that caught up shows the same state as the projection and as a client connected throughout, fallbacks included |
| Convergence.FallbackConvergesExactly | crates/acp/src/projection.rs:575-603 | a caught-up client ends Idle after a fallback exactly when it already was or its cursor is not past the fallback's sequence |
| Divergence.ConvergesExactly | crates/acp/src/server.rs:578-698 | in every run, bracketed or not, the client shows the newest state forwarded to it, and once caught up agrees with the projection if and only if nothing was set since it attached, the last event that set a state was forwarded, or it set what the client shows anyway; an event some journal took in was forwarded |
| Divergence.SinkIsSilent | crates/acp/src/projection.rs:812-930 | whatever an emission read as active, no snapshot group sets a state, which is all that `ConvergesExactly` asks of events |
| Divergence.SinkRunIsPossible | crates/acp/src/projection.rs:796-930 | every run of Kernel events in increasing sequence among any watcher steps and fallbacks, bracketed or not, is one that `ConvergesExactly` covers |
| Divergence.OverlapDiverges | crates/kernel/src/runtime/command/execution.rs:258-295 | a reachable run of sink events in which a prompt starts inside an extension command: after lag the caught-up client shows a running prompt and the projection an idle session |
| BracketedRuns.SwallowedFallback | crates/acp/src/server.rs:639-643 | the sink alone admits a run whose caught-up client still asks for an action because the duplicate filter dropped the fallback that made the projection idle; it needs an event of a run after that run settled |
| ConnectionWatcher.ReplayReportsNoState | crates/acp/src/server.rs:524-537 | the notifications of a replayed backlog report no state and no pending request, and no group is empty |
| ConnectionWatcher.ReplayKeepsOrder | crates/acp/src/projection.rs:64-89 | replay drops exactly states and notices and keeps the order of the rest |
| ConnectionWatcher.ProjectionWatch.Recovering | crates/acp/src/server.rs:524-537 | the recovery constructor queues exactly the replayed backlog and moves the cursor past all of it |
| ConnectionWatcher.ProjectionWatch.RecordSentOf | crates/acp/src/server.rs:162-174 | only grouped events move the cursor |
| ConnectionWatcher.ProjectionWatch.SentThrough | crates/acp/src/delivery.rs:85-93 | published progress covers the sequence and never decreases |
| ConnectionWatcher.ProjectionWatch.ReceiveLive | crates/acp/src/server.rs:579-585 | a receive without lag yields the next group of the channel |
| ConnectionWatcher.ProjectionWatch.RecoverLagged | crates/acp/src/server.rs:586-632 | a receive that reports lag yields the backlog that the journal then serves from the cursor, or stops the watcher |
| ConnectionWatcher.ProjectionWatch.ForwardNext | crates/acp/src/server.rs:638-697 | one received group is skipped as a duplicate or queued before cursor and progress follow it |
| ConnectionWatcher.ProjectionWatch.ForwardGroups | crates/acp/src/server.rs:638-697 | received groups are queued in order without duplicates, with cursor and progress following each |
| ConfigResponses.AnswerNoOlderThanQueued | crates/acp/src/server.rs:1850-1925 | with any number of handlers, an answer carries settings at least as new as every item already queued |
| ConfigResponses.PermitFreezesQueue | crates/acp/src/delivery.rs:71-83 | while a handler holds the permit only its own answer can enter the queue |
| ConfigResponses.AnswerWaitsForItsChange | crates/acp/src/server.rs:1888-1897 | when an answer is sent the watcher has passed every update that was broadcast when the handler read its barrier |
| ConfigResponses.OlderFollowsExactly | crates/acp/src/server.rs:1914-1924 | from any reachable state some continuation queues an older item behind the answer if and only if, when the answer is sent, an older update is broadcast that the watcher has not passed |
| ConfigResponses.LaterUpdatesAreNewer | crates/acp/src/server.rs:1914-1924 | updates broadcast after an answer are at least as new as it |
| ConfigResponses.OlderUpdateMayFollow | crates/acp/src/server.rs:1914-1924 | a reachable run in which an older update follows the answer |
| Closing.SuccessfulCloseFollowsUpdates | crates/acp/src/server.rs:1737-1838 | in every run, re-attached or not, a successful close answer is given only when the Kernel closed the Session, and follows every journalled group up to its barrier, forwarded by its own watcher or superseded, unless a fallback shares its sequence; the projection is dropped only after the answer |
| Closing.EarlyAnswerExactly | crates/acp/src/server.rs:1800-1815 | in every reachable state a caught-up watcher's close can be answered before the next journalled group is forwarded if and only if an ungrouped event took that group's sequence |
| Closing.CollisionAnswersEarly | crates/acp/src/server.rs:1800-1815 | a reachable state and a run of the close in which a fallback shares a Start's sequence and the successful answer precedes the Start |
| Closing.ProgressNeverDecreases | crates/acp/src/delivery.rs:85-93 | over every run of one watcher its delivery progress never decreases |
| Sink.EmissionFollowsBrackets | crates/acp/src/projection.rs:812-896 | one emission opens or closes the journal exactly as its event opens or closes the Operation |
| Sink.RunFollowsBrackets | crates/acp/src/projection.rs:812-896 | in every well-bracketed run the running journal is the open Operation's, from Start to the matching End |
| Sink.NestedEventsKeepJournal | crates/acp/src/projection.rs:880-890 | events inside an Operation, nested compactions included, never replace or close its journal |
| Snapshots.SnapshotKeysExactly | crates/acp/src/projection.rs:924-938 | two events share a snapshot key if and only if both report the queue or both name the same terminal |
| Snapshots.JournalKeepsNewest | crates/acp/src/projection.rs:318-325 | the journal of any bracketed Operation holds exactly the events whose queue or terminal no later event shows anew, in order |
| Snapshots.RecoveryShowsEveryTerminal | crates/acp/src/projection.rs:364-399 | from every accepted cursor a client that shows the queue and each terminal by their latest event, never looking at a key, ends as after all the Operation's events |
| Sink.WellBracketedIsDisciplined | crates/acp/src/projection.rs:812-896 | an event allowed by the open Operation is emitted as a group that meets the assumptions of the convergence theorem |
| BracketedRuns.BracketedRunIsPossible | crates/acp/src/projection.rs:812-896 | every bracketed run of Kernel events with fresh run ids, interleaved with any subscriptions, overflow, recovery, forwarding and fallbacks, is a disciplined run of the protocol |
| BracketedRuns.BracketedRunsConverge | crates/acp/src/projection.rs:195-210 | so in every such run a caught-up client shows the state of a client connected throughout |
| Sink.InterleavedJournalOwnsItsGroups | crates/acp/src/projection.rs:812-896 | however emits interleave between reading the active Operation and appending, a journal holds only groups of its own run |
| Sink.CompactionInterferesExactly | crates/acp/src/projection.rs:847-868 | a compaction that is not the running Operation touches its journal's boundaries exactly when its start read no active Operation, or its end read a compaction with the running Operation's run id |
| Sink.GatedCompactionsNeverInterfere | crates/kernel/src/runtime/compaction.rs:147-171 | however emissions interleave under the session's operation gate, no compaction touches another Operation's journal |
| Sink.StaleCompactionReplacesJournal | crates/acp/src/projection.rs:812-820 | without that gate a stale read replaces a running journal |
| Aggregate.FindConflicts | crates/mcp/src/session.rs:370-395 | one round finds exactly the servers owning a public name that occurs twice among the candidates |
| Aggregate.SomeChangedServerClashes | crates/mcp/src/session.rs:396-407 | whenever names collide some changed server is not rejected yet, so the assertion never fires |
| Aggregate.Reject | crates/mcp/src/session.rs:369-408 | the rejection loop terminates with the specified rejections |
| Aggregate.Publish | crates/mcp/src/session.rs:346-508 | the whole aggregation publishes the specified snapshot |
| Aggregate.RejectionsSettle | crates/mcp/src/session.rs:369-408 | only changed servers are rejected, and what is left is collision-free |
| Aggregate.PublicationIsSound | crates/mcp/src/session.rs:346-508 | a published snapshot has distinct tool names, every server publishes its new tools or exactly its previous ones, and an unchanged server is never rejected |
| Aggregate.StatusesDescribeTheCatalog | crates/mcp/src/session.rs:409-503 | each published status counts the server's own items in the merged catalog; a rejected server keeps its previous items, is Degraded if and only if the previous snapshot lists it as Ready or Degraded and Failed otherwise, and keeps the revisions listed there, or zero; any other keeps its own status |
| Aggregate.RejectsOnlyCollisions | crates/mcp/src/session.rs:393-408 | nothing is rejected exactly when the new catalogs do not collide |
| Aggregate.RejectedForACollision | crates/mcp/src/session.rs:369-408 | every rejected server had, in the round that rejected it, a tool with the public name of another candidate |
| Aggregate.OutrightCollisionIsRejected | crates/mcp/src/session.rs:369-408 | a changed server whose new tools collide outright is always rejected |
| Publication.StoreNeverBlocks | crates/mcp/src/session.rs:92-100 | in every reachable state a publisher that loaded all views can store its aggregate |
| Publication.RevisionsIncrease | crates/mcp/src/session.rs:94-100 | revisions strictly increase until they reach the largest u64, and every event names the revision and publisher of the snapshot stored with it |
| Publication.EventMatchesStored | crates/mcp/src/session.rs:100-112 | an event announces the revision readers load at that moment |
| Publication.NoServerGoesBack | crates/mcp/src/session.rs:75-112 | no race publishes a server's tools from an older view than an earlier publication did, and every publication is collision-free |
| Publication.SettledIsCurrent | crates/mcp/src/session.rs:63-92 | once all announcements are handled the view of a server read by the latest publication is its newest if and only if it is no older than the view current when its watcher subscribed |
| Publication.EveryReceptionIsPublished | crates/mcp/src/session.rs:76-112 | over every run each watcher has published exactly as often as it received an announcement, but for the one it is working on |
| Publication.SettledIsReachable | crates/mcp/src/session.rs:76-112 | from every reachable state of an open Session the watchers can handle everything announced: some steps lead to a settled state |
| Publication.EarlyAnnouncementIsLost | crates/mcp/src/session.rs:63-75 | a reachable settled state whose publication lacks the tool of a view announced before the subscription |
| Publication.NothingFollowsShutdown | crates/mcp/src/session.rs:311-342 | the shutdown publication is the last one |
| Base64.DecodeEncode | crates/mcp/src/resource.rs:316-319 | decoding an encoded byte string gives it back (section 5 of RFC 4648, no padding) |
| Base64.EncodeDecode | crates/mcp/src/resource.rs:275-277 | only canonical texts decode |
| Base64.EncodeLength | crates/mcp/src/resource.rs:316-319 | the encoded length depends on the byte count alone |
| Base64.AlphabetIsStandard | crates/mcp/src/resource.rs:316-319 | the digits are those of the URL-safe alphabet (section 5 of RFC 4648) |
| Base64.SextetsAreBits | crates/mcp/src/resource.rs:316-319 | every three bytes and their four digits are the same 24-bit number, most significant first, and a shorter rest is padded with zero bits |
| JsonText.ParseQuoted | crates/mcp/src/resource.rs:277-278 | reading back a written JSON string gives the string and leaves what follows |
| JsonText.ParseDigits | crates/mcp/src/resource.rs:277-278 | reading back a written number gives the number and leaves what follows |
| ResourceCursors.ParseSerialized | crates/mcp/src/resource.rs:124-135 | a serialized cursor parses to itself |
| ResourceCursors.SerializedText | crates/mcp/src/resource.rs:124-135 | the cursor's JSON text, member by member |
| ResourceCursors.RedeemToken | crates/mcp/src/resource.rs:275-278 | every issued cursor decodes to itself |
| ResourceCursors.TokensGrow | crates/mcp/src/resource.rs:307-320 | a cursor further down the list is never shorter |
| Pagination.PageBuffer.Write | crates/mcp/src/resource.rs:186-201 | a write is kept whole or refused, by the remaining budget |
| Pagination.PageBuffer.WriteAll | crates/mcp/src/resource.rs:186-201 | serialization succeeds exactly when the whole text fits, however it is cut into writes |
| Pagination.PagesGrow | crates/mcp/src/resource.rs:300-303 | before the last page, a longer page is never smaller, cursor included |
| Pagination.FindPage | crates/mcp/src/resource.rs:297-349 | the bisection finds the largest end that fits and fails exactly when none does |
| Pagination.PageIsLargest | crates/mcp/src/resource.rs:297-349 | the page lies within the limit, and no longer page within the limit fits |
| Pagination.RefusedExactly | crates/mcp/src/resource.rs:349-354 | a position is refused exactly when its record with a cursor does not fit and neither does a cursor-free rest within the limit |
| PageReader.ReadWrittenPage | crates/mcp/src/resource.rs:156-183 | a reader of the page text recovers the kind by the array key, the records in order and the token |
| PageReader.WrittenObject | crates/mcp/src/resource.rs:156-183 | a written JSON object has the bracket structure the reader relies on, whatever its strings hold |
| Pagination.PageReads | crates/mcp/src/resource.rs:156-183 | the text of a page reads as exactly its records under the key of its kind, with the cursor for its end when records are left |
| Pagination.LimitsBoundPages | crates/mcp/src/resource.rs:84-89 | limits below 1 or above 200 are refused, 50 is the default, and a page never exceeds its limit and reaches it when the records fit |
| Pagination.AcceptedExactly | crates/mcp/src/resource.rs:269-292 | a token is accepted if and only if it is within the size limit and decodes to a version 1 cursor of this very listing with a position inside the list |
| Pagination.Result | crates/mcp/src/resource.rs:269-359 | a request answers exactly the page its cursor and limit select, whose text `PageReads` explains, or an error |
| Pagination.IssuedCursorIsAccepted | crates/mcp/src/resource.rs:269-292 | every issued cursor passes the listing's own size, context and range checks |
| Pagination.ForeignCursorIsRefused | crates/mcp/src/resource.rs:279-289 | a cursor of another session, revision, kind or filter is refused |
| Pagination.WalkCovers | crates/mcp/src/resource.rs:269-359 | from any accepted cursor, with any limits, a client that only reads the texts and follows their cursors terminates and lists the rest exactly once in order, or everything before a record that does not fit |
| Pagination.ChainCoversTheList | crates/mcp/src/resource.rs:269-359 | from the first page the chain covers the whole list, and always completes when every record fits alone |
| Listing.SortIsStable | crates/mcp/src/resource.rs:233-266 | the listing order is a stable sort by server and URI that keeps exactly the records |
| Listing.ListedInOrder | crates/mcp/src/resource.rs:233-266 | listed records are ordered by the bytes of their server, then of their URI |
| Listing.ChainListsShownRecords | crates/mcp/src/resource.rs:226-359 | a completed chain lists, in order, every shown record as often as the catalog holds it and nothing else |
| Coalescing.AppendedChunk | crates/acp/src/coalescing.rs:116-152 | appending changes exactly the text and the inclusive endpoint of a chunk |
| Coalescing.MergeKeepsEnvelope | crates/acp/src/coalescing.rs:116-152 | everything else of the notification stays the target's |
| Coalescing.CoalesceUpdates | crates/acp/src/coalescing.rs:180-194 | the loop computes the specified fold |
| Coalescing.ParsesExactly | crates/acp/src/coalescing.rs:53-111 | a notification is read as a chunk if and only if its raw fields make it one, and then as they say |
| Coalescing.MergeableExactly | crates/acp/src/coalescing.rs:155-178 | two notifications merge if and only if both are chunks with equal sessionUpdate, sessionId, messageId, annotations, runId and turnId and the second starts after the first ends |
| Coalescing.FieldTextPreserved | crates/acp/src/coalescing.rs:155-194 | the text of every kind of update, Session and message, as a reader of the raw fields gathers it, is preserved |
| Coalescing.Idempotent | crates/acp/src/coalescing.rs:180-194 | coalescing twice changes nothing |
| Coalescing.SplitInsensitive | crates/acp/src/coalescing.rs:180-194 | coalescing pieces first, on either side or both, changes nothing |
| Coalescing.NothingLeftToMerge | crates/acp/src/coalescing.rs:155-194 | no two adjacent results are still mergeable |
| Coalescing.TextPreserved | crates/acp/src/coalescing.rs:155-194 | the concatenated text of every message is preserved, as the client's transcript keys it |
| Coalescing.LastSequencePreserved | crates/acp/src/coalescing.rs:155-194 | the last sequence a session's chunks reach is preserved |
| Coalescing.MergeIsInvisibleExactly | web/src/workspace/recovery.ts:44-132 | merging two chunks is invisible to every client state exactly when it hides no missing timestamp or the endpoint is not representable |
| Coalescing.ClientCannotTell | web/src/workspace/recovery.ts:44-132 | from every state the client ends with the same cursors, replay demands and transcript as on the original stream of chunks with timestamps, or rejects both |
| Batching.CarrierRoundTrip | crates/acp/src/batching.rs:204-234 | a carrier expands to exactly its updates if and only if none of them carries the batch key |
| Batching.Drain | crates/acp/src/batching.rs:167-191 | a drain takes consecutive updates of one session and stops only at the limit, another frame, the end, or an empty queue |
| Batching.Forward | crates/acp/src/batching.rs:138-200 | for every readiness schedule and negotiation the sink holds the packed frames of consecutive runs that together are the source; a client that never declared the format gets the coalesced updates themselves; one that expands gets exactly the coalesced runs if and only if none of their updates carries the batch key; and then every client sees the same stream as the source |
| Batching.FlagDecidesFrames | crates/acp/src/batching.rs:204-234 | a run of at least two coalesced updates is one frame, holding the parameters of all others under the batch key, if and only if the client declared the format and the product metadata has room; otherwise it is sent update by update |
| Batching.NegotiationIsRespected | crates/acp/src/batching.rs:138-234 | a client that expands a run's frames exactly when it had declared the format sees the coalesced source, however often the declaration changes |
| Batching.UndeclaredGetsUpdates | crates/acp/src/batching.rs:208-210 | without any declaration the sink is exactly the coalesced updates |
| Batching.DeliveryIsScheduleIndependent | crates/acp/src/batching.rs:138-234 | expanding what was sent and coalescing it gives the coalesced source, up to empty product metadata, whenever no coalesced update carries the batch key |
| Batching.SingleFrameExactly | web/src/acp/protocol.ts:182-213 | an unpacked frame is read as it is if and only if it does not carry the batch key |
| Batching.DeliversExactly | crates/acp/src/batching.rs:138-234 | for every schedule and negotiation the client gets exactly the coalesced runs if and only if none of their updates carries the batch key |
| Batching.FramesAreBounded | crates/acp/src/batching.rs:166-234 | every frame is one coalesced update or packs all of its run's, at most the batch limit and of one session, and expands to no more than that unless an update carries the batch key |
| Batching.Negotiation.Observe | crates/acp/src/batching.rs:102-126 | only a single initialize request changes the flag, to whether it declares version 1 |
| Batching.DeclaredExactly | crates/acp/src/batching.rs:102-126 | exactly an initialize request says something, and it declares the format if and only if its metadata path holds version 1 |
| Batching.Negotiation.ForwardInbound | crates/acp/src/batching.rs:86-99 | inbound frames pass unchanged and the flag is the latest declaration |
| Display.SameText | crates/kernel/src/provider/content.rs:104-134 | the slice-wise comparison decides equality of the joined texts |
| Display.MatchesDisplay | crates/kernel/src/provider/content.rs:138-241 | the comparison holds exactly when the stop reason and the merged visible content agree |
| Display.OwnDisplayMatches | crates/kernel/src/provider/content.rs:51-102 | a native message always matches its own display, and other blocks match exactly when they merge to it |
| Display.DisplaySaysTheParts | crates/kernel/src/provider/content.rs:34-102 | the display of a native message says exactly what its parts say, letter by letter and in order, redacted and opaque parts nothing |
| History.ProviderMessage.Remember | crates/kernel/src/provider.rs:531-538 | a later call replaces an earlier one with the same id |
| History.ProviderMessage.Convert | crates/kernel/src/provider.rs:421-540 | conversion with the accumulated index equals conversion by searching the history backwards |
| History.ToRequest | crates/kernel/src/provider.rs:374-411 | the request is exactly the converted history with its last element as prompt, or the first error |
| History.RequestKeepsOrder | crates/kernel/src/provider.rs:374-384 | the sent messages are the conversions of the kept ones, in input order |
| History.SentSaysTheMessage | crates/kernel/src/provider.rs:421-579 | every message that is sent says what was stored, in the same order: blocks, texts, lines of a system message, and the standing sentence for an empty result |
| History.KeptPositions | crates/kernel/src/provider.rs:421-540 | only orphan results and context-excluded messages are dropped |
| History.ResultNamesItsCall | crates/kernel/src/provider.rs:480-513 | a sent result names the most recent earlier assistant call with its id and never has empty content |
| History.RefusedExactly | crates/kernel/src/provider.rs:421-579 | a history is refused exactly when a message that would be sent holds unsupported content |
| History.NativeSurvivesExactly | crates/kernel/src/provider.rs:433-479 | a native message is sent unchanged exactly while its display and stop reason are unedited |
| TodoCards.HiddenToolCalls.Apply | crates/acp/src/plan.rs:87-134 | announced calls are hidden before the event's updates and forgotten after the result |
| TodoCards.Publish | crates/acp/src/server.rs:277-393 | the replay and live loops deliver exactly the specified updates |
| TodoCards.HiddenExactly | crates/acp/src/plan.rs:87-134 | a call is hidden exactly while announced and without a later result |
| TodoCards.AnnouncedExactly | crates/acp/src/plan.rs:92-134 | exactly a `todo_write` start or an assistant message with such a call announces a call, and exactly its result message forgets it |
| TodoCards.CardEscapesExactly | crates/acp/src/plan.rs:112-125 | a tool card is delivered exactly when its call is not an open todo_write; every other update always is |
| TodoCards.CardsExactly | crates/acp/src/mapping.rs:296-420 | which events have a tool card for a call |
| TodoCards.TerminalsExactly | crates/acp/src/mapping.rs:296-420 | which events show terminal output |
| TodoCards.PlansExactly | crates/acp/src/plan.rs:25-69 | a plan is published exactly with the result of an approved plan or a todo list: its text, or one entry per todo in order, by its active form while in progress |
| TodoCards.NoTodoCard | crates/acp/src/plan.rs:87-134 | a call announced first and resulted last never shows a card |
| TodoCards.ReplayPublishesTheSamePlans | crates/acp/src/plan.rs:20-69 | a live run and a replay of its messages publish the same plans in the same order |
| TodoCards.ReplayHidesTheSameCalls | crates/acp/src/server.rs:284-383 | replay shows each message as the live run did when every todo_write start was announced by its message |
| TodoCards.ReplayHidesExactly | crates/acp/src/server.rs:284-383 | live and replay hide the same calls at every point exactly when every todo_write start was announced by its message |
| Progress.Truncate | crates/mcp/src/tool.rs:24-44 | the kept text is the longest character prefix within the budget, with an ellipsis when shortened |
| Progress.BudgetIsExact | crates/mcp/src/tool.rs:24-44 | a message is whole up to a cost of 800, plain text up to 400 bytes, and otherwise cut before the first character that does not fit |
| Progress.CostCoversBothViews | crates/mcp/src/tool.rs:28-35 | the cost model never under-counts the text and its JSON string encoding (section 7 of RFC 8259) |
| Progress.CostIsExact | crates/mcp/src/tool.rs:28-35 | the cost of a character is exactly its display bytes plus its JSON bytes, control characters counting six |
| Progress.BothViewsAreBounded | crates/mcp/src/tool.rs:24-65 | both views together hold at most 806 message bytes |
| SystemPrompt.ChainIsSimultaneous | crates/prompt/src/system.rs:181-188 | the five chained replacements escape every character exactly once |
| SystemPrompt.UnescapeRecovers | crates/prompt/src/system.rs:181-188 | unescaping the predefined entities (section 4.6 of XML 1.0) recovers every string |
| SystemPrompt.NoRawMarkup | crates/prompt/src/system.rs:181-188 | the result has no markup character apart from ampersands that start an entity |
| SystemPrompt.Guidelines | crates/prompt/src/system.rs:140-167 | the listed guidelines are the first occurrences of everything offered |
| SystemPrompt.ListedExactly | crates/prompt/src/system.rs:140-167 | exactly the tools' non-blank guidelines, the two fixed ones and, with bash but without grep, find and ls, the fallback are listed |
| SystemPrompt.FallbackComesFirst | crates/prompt/src/system.rs:143-149 | the fallback is listed first |
| SystemPrompt.ListedOnceInOrder | crates/prompt/src/system.rs:140-167 | every offered guideline is listed exactly once, in order of first appearance |

## Left out

- Coalescing.ClientCannotTell: what the client does with notifications that are no stream chunks is an arbitrary function, and a rejected notification is one absorbing state.
- WatchGuarantees.NothingIsLost: covers journalled groups; events outside any run are not recoverable after lag.
- Re-attaching a second watcher on the same connection during a running configuration request; the new watcher has its own lock and the claim about one watcher does not carry over.
- Notification envelopes, projection indexes, session titles and resume snapshots of settings, which add no ordering.
- Elicitation, permission and plan approval requests beside the notifications.
- Lock poisoning, failed connection sends and cancellation of a close by dropping its task.
- The bootstrap event of an MCP session, which is sent before anyone can subscribe; server start, reconnection and the contents of a stopped server's view.
- Timestamps of collision failures; `occurred_at_ms` is not part of the model.
- Cursor JSON that a client writes itself with other key order, white space or escapes; issued cursors are canonical and clients treat them as opaque.
- JSON-RPC request handling around the relay; a frame's own fields are read only as far as the merge and carrier logic does.
- The early refusal of a listing filter that names a server the host hides.
- Image type tables, tool name rules and argument parsing of the provider library, which are parameters.
- Provider text of audio, resources and links, bash transcripts and compaction summaries, which are given as text.
- Trimming of guideline white space, which is a parameter; the fixed prose of the system prompt.
- OAuth, transports, extension hooks, configuration files, model catalog and the web interface outside carrier expansion and the recovery buffer.
