# Verification of the turn, replay, scanner and runtime-host protocols

This project models, in Dafny 4.11, the parts of the workbench where several steps have to add up to one
promise, and proves those promises for all inputs, all runs and all interleavings.

* **Credential scanner** (`ScannerShapes`, `ScannerFixtures`). The scan of a blob for credential-shaped
  bytes, with its chunked consumption, greedy leftmost spans, line index, two-pointer sweeps, binary
  searches and marker binding. Each loop is proved equal to a quantified rule; the bytes that the scan
  consumes, summed over the positions it looks at, are at most 19/3 of the blob's length.
* **Event replay** (`EventReplay`, `PagedReplay`, `Decimal`, `Utf8`). The log replayed as `id:`/`data:` frames with
  pause and terminal suppression, cut into byte-bounded pages by the server, parsed and reassembled by the
  client. Reading page by page is proved to return exactly the unpaged replay, even of a log that grows.
* **Canonical history** (`CanonicalHistory`, `ConversationStore`). The message history of a turn: a multiset
  difference, then each user message with its own replies; and the store the messages come from. For every
  store the API can write, no message appears twice, and it makes no difference whether a reply was stored
  before or after the user messages of later turns.
* **Federated turns** (`FederatedTurn`, `FederatedWorker`, `FederatedMeaning`, `FederatedCrash`,
  `FederatedEquivalence`, `FederatedSafety`, `FederatedClaims`, `FederatedPublic`, `FederatedProjection`,
  `FederatedOutcomes`, `FederatedAttempts`). A run is the list of
  durable states it writes, so a crash is a prefix of that list and a rerun starts from its last state.
  `FederatedMeaning` is the reference: a fold of the runtime's events without stores, keys or crashes. Crashes
  anywhere and any number of times are proved invisible if and only if nothing behind the terminal event leads
  to another outcome. What the client is told in the end is tied to what the runtime said, and what is published
  for each event to the text it carries; the blocks a turn streams are whole lines and together its message.
* **Federated turns in company** (`FederatedSteps`, `FederatedCompany`, `FederatedSettlement`,
  `FederatedOwners`, `FederatedClaimants`). The worker move by move, one read or write at a time, proved to
  write the states of a run when it is left alone. Crashes and the appends of others between any two moves are
  invisible, but for the places in the log, under the same condition; and any number of workers that hold the
  turn one after another, the earlier ones still going on, leave at most one terminal event, which agrees with
  the outcome.
* **Goose host** (`QueryMachine`, `GooseHost`, `ToolTransport`). The query state machine, the `select!`
  loop as a machine over its branches, and the tool transport as a machine over its locked sections and
  polls; the host receives the transport's frames and delivers results to it. The wire is lawful under every
  schedule, its tool frames included, and every begun tool call is pending or has exactly one fate in every
  reachable state.
* **DSH sidecar and Grant framing** (`DshSidecar`, `GrantFraming`). The second implementation of the host
  rules (`HostWire`), with its "is this still the active query" guards, its command chain, its Grants and its
  shutdown; and the length-prefixed Grant frame with its incremental receiver, over every split of the stream
  and every moment of the acknowledgement, and its exact-length reader.

`HostedTurn` puts the hosts under the federated turn: what either host can write for a query is a stream in
which the turn's crashes are invisible, and the turn ends as the host's last event for the query says.

Where the code does not do what its documentation promises, the code is kept, an input is given, and the
condition is proved under which it does, in the first two cases the exact one:

* `FederatedEquivalence.CrashEquivalence`: an event or a failure behind the terminal event changes the outcome of
  an uninterrupted run but not of a crashed one. The failure is what occurs (`LateFailureShows`): the executor
  delivers nothing behind a terminal event, but its cleanup there can fail.
* `GrantFraming.SplitsAgree` with `GrantFraming.DecodersAgree`: of a stream that goes on behind a whole frame the
  receiver accepts the Grant if and only if the acknowledgement went out when precisely the frame had arrived
  (`OverlongIsKept`), where the exact-length reader always accepts it.
* `FederatedOwners.OneTerminalForManyOwners`: a worker writes the turn under the owner it finds when it loads the
  turn, not under its own claim (mvp/src/workbench/api/conversations.py:916-938). The turn settles once in every
  interleaving in which no claim is loaded twice. Without that it need not: in `LateLoadBreaksSafety` a worker
  whose claim has passed on loads under the next one, and the log gets two terminal events.

A sidecar whose channel held several Grants could lose a seal: a start that is refused after its Grant is
used up makes it forget the terminal before. `DshSidecar.SealableIsTheRule` says exactly when the last
terminal on the wire can be sealed. The process gets one Grant on its descriptor
(`startPreopenedGrantReceiver`, mvp/sidecars/deepseek-harness/src/grant-channel.ts:249-357), and then it always
can: `DshSidecar.OneGrantKeepsTheSeal`.

`Basics` holds the shared datatype and function.

`dafny verify dfyconfig.toml` checks everything.

## Model

| member | source | states |
|---|---|---|
| ScannerShapes.ConsumeBytes | mvp/scripts/scan_changed_credentials.py:131-143 | consuming in chunks of any positive size stops exactly at the end of the longest run of allowed bytes |
| ScannerShapes.FirstByteDecides | mvp/scripts/scan_changed_credentials.py:146-214 | which family a credential shape belongs to, and so that the branches of the matcher exclude each other, is decided by its first byte |
| ScannerShapes.ShapeIsUnique | mvp/scripts/scan_changed_credentials.py:146-214 | at one position at most one end makes a credential shape |
| ScannerShapes.ShapesAreSpelled | mvp/scripts/scan_changed_credentials.py:17-43 | what counts as a credential, in the characters of its text: prefixes and headers in either case, the alphabets, and bodies of at least twenty characters |
| ScannerShapes.KeyPrefixIdles | mvp/scripts/scan_changed_credentials.py:146-214 | no body is consumed at the two positions behind the start of a key prefix, which pays for the bytes of a failed body |
| ScannerShapes.BearerPrefixIdles | mvp/scripts/scan_changed_credentials.py:164-183 | no body is consumed anywhere between a `bearer` prefix and the end of its whitespace run, so those runs are pairwise disjoint |
| ScannerShapes.SpentOnBearer | mvp/scripts/scan_changed_credentials.py:164-183 | behind a bearer prefix the scan consumes the blanks and, if there are any, the token; the other prefixes likewise (`SpentOnKey`, `SpentOnFine`, `SpentOnShort`), and nothing elsewhere |
| ScannerShapes.CredentialSpanAt | mvp/scripts/scan_changed_credentials.py:146-214 | a span is found exactly where a shape starts, with the shape's end; the work is the number of bytes consumed at that position; a failure names a stretch in which nothing more is consumed and which pays for it |
| ScannerShapes.FindSecretSpans | mvp/scripts/scan_changed_credentials.py:217-233 | the spans are the greedy leftmost cover: sorted, disjoint, in bounds, and every position where a shape begins is a reported start or inside an earlier span; the work is the sum of the bytes consumed at the positions looked at, and three times that is at most nineteen times the blob |
| ScannerShapes.CoverIsUnique | mvp/scripts/scan_changed_credentials.py:217-233 | two leftmost covers of the same blob agree span by span |
| ScannerShapes.ScanIsDetermined | mvp/scripts/scan_changed_credentials.py:131-233 | the spans found are the same for every chunk size |
| ScannerFixtures.BisectLeft | mvp/scripts/scan_changed_credentials.py:358-360 | the binary search returns the number of starts below the bound |
| ScannerFixtures.MaskLine | mvp/scripts/scan_changed_credentials.py:268-290 | the masked line is the lowered line with exactly the bytes of overlapping spans blanked |
| ScannerFixtures.TermsNeverOverlap | mvp/scripts/scan_changed_credentials.py:293-312 | occurrences of the marker and rejection terms never overlap, so a scan from left to right misses none |
| ScannerFixtures.TermsAreSpelled | mvp/scripts/scan_changed_credentials.py:44-47 | the rejection terms and the marker, as they are spelled, with the characters that may not stand before the marker and must stand behind it |
| ScannerFixtures.FindMatches | mvp/scripts/scan_changed_credentials.py:293-312 | the match list is sorted and holds every occurrence of the pattern and nothing else |
| ScannerFixtures.KeepNear | mvp/scripts/scan_changed_credentials.py:310-335 | the sweep that never moves back keeps a marker if and only if some rejection term meets its 256-byte window |
| ScannerFixtures.OverlapFrom | mvp/scripts/scan_changed_credentials.py:249-290 | a line lists exactly the spans that overlap it, although the sweep starts where the line before stopped |
| ScannerFixtures.IndexFixtureLines | mvp/scripts/scan_changed_credentials.py:236-340 | the lines partition the blob, each with its overlapping spans, and the markers are exactly the qualifying ones of every line, in order |
| ScannerFixtures.BindsAtMostOne | mvp/scripts/scan_changed_credentials.py:343-401 | by the binding rule a marker binds at most one span |
| ScannerFixtures.ReachBack | mvp/scripts/scan_changed_credentials.py:370-383 | the reverse scan with its early exit finds exactly the spans of the line before that reach the marker's window |
| ScannerFixtures.ReachForward | mvp/scripts/scan_changed_credentials.py:384-396 | the forward scan with its early exit finds exactly the spans of the line after that start inside the window |
| ScannerFixtures.BindMarker | mvp/scripts/scan_changed_credentials.py:354-399 | a marker binds the first span behind it on its line if within reach, and only on a line without spans the unique span in reach on an adjacent line |
| ScannerFixtures.AllowedFixtureSpans | mvp/scripts/scan_changed_credentials.py:343-401 | outside the test roots nothing is allowed; inside, the allowed spans are exactly those some qualifying marker binds, no more than there are markers |
| ScannerFixtures.LinesAreUnique | mvp/scripts/scan_changed_credentials.py:249-262 | a blob has one division into lines |
| ScannerFixtures.AllowedSetIsTheRule | mvp/scripts/scan_changed_credentials.py:343-401 | membership in the allowed set is the declarative rule of path, blob and spans, independent of how the index was built |
| ScannerFixtures.CountFindings | mvp/scripts/scan_changed_credentials.py:425-431 | the two counters are the numbers of allowed and of other spans |
| ScannerFixtures.CleanMeansAllAllowed | mvp/scripts/scan_changed_credentials.py:425-438 | a file has no finding if and only if every credential-shaped span in it is allowed by a fixture marker |
| ScannerFixtures.ScanFile | mvp/scripts/scan_changed_credentials.py:415-431 | a file's two counts are the numbers of its credentials that the rule allows and does not allow, and the second is zero if and only if the file is clean |
| ScannerFixtures.Scan | mvp/scripts/scan_changed_credentials.py:404-438 | the run reports the sums of all files' counts, and its exit code is 0 if every changed file is clean and 1 otherwise |
| Decimal.ValueOfText | mvp/src/workbench/api/conversations.py:3139-3149 | reading the decimal text of a number gives the number back |
| Decimal.TextIsInjective | mvp/runtime-hosts/goose-host-v2/src/tool_transport.rs:132-133 | different numbers have different decimal texts |
| Utf8.Utf8RoundTrip | mvp/src/workbench/api/conversations.py:2245-2257 | the bytes that page sizes are counted in are those of UTF-8: a decoder that refuses anything but the shortest form reads every text back |
| EventReplay.StateIsTheRule | mvp/src/workbench/api/conversations.py:2273-2298 | the running pause and terminal-cause state is, at every event, the declarative rule over the events before it |
| EventReplay.StaleIsSuppressed | mvp/src/workbench/api/conversations.py:2276-2301 | an event is skipped if and only if the rule suppresses it |
| EventReplay.ReplayExtends | mvp/src/workbench/api/conversations.py:2268-2309 | appending events to the log only extends the frames at their end |
| EventReplay.ReplayShows | mvp/src/workbench/api/conversations.py:2268-2309 | the replay holds exactly the projections of the events the rule does not suppress |
| EventReplay.ReplayIncreases | mvp/src/workbench/api/conversations.py:2302-2309 | frame cursors strictly increase |
| EventReplay.BehindDistributes | mvp/src/workbench/api/conversations.py:2300-2305 | taking the frames behind a cursor distributes over concatenation |
| EventReplay.EventFrames | mvp/src/workbench/api/conversations.py:2268-2309 | the frames after a cursor, computed without projecting earlier events, are exactly the frames of the full replay with a greater cursor |
| PagedReplay.CursorRoundTrip | mvp/src/workbench/api/conversations.py:3139-3149 | a frame's id, sent back as Last-Event-ID, is read as the frame's cursor |
| PagedReplay.RequestCursorIs | mvp/src/workbench/api/conversations.py:3139-3149 | exactly which ids are cursors, and which: none and the empty one stand before everything, a number behind its event, a pair for itself, and negative ones are refused |
| PagedReplay.FirstReadIsEverything | mvp/src/workbench/api/conversations.py:3139-3149 | a read without an id, or with an empty one, is a read of the whole replay |
| PagedReplay.LegacyIdResumesBehindItsEvent | mvp/src/workbench/api/conversations.py:3139-3149 | a bare number leaves exactly the frames of later events |
| PagedReplay.PageBytesGrow | mvp/src/workbench/api/conversations.py:2245-2257 | the bytes of a page's text are the sum of the bytes of its frames |
| PagedReplay.PageRoundTrip | mvp/canvas-spike/src/renderer/api.ts:281-285 | the client reads back from a page's text exactly the ids and data of its frames |
| PagedReplay.CutPage | mvp/src/workbench/api/conversations.py:2245-2257 | a page is the longest run of frames that fits; only an oversized first frame is refused |
| PagedReplay.ServePage | mvp/src/workbench/api/conversations.py:2241-2257 | the page served is the longest fitting run of what the log shows behind the cursor |
| PagedReplay.ResumeContinues | mvp/src/workbench/api/conversations.py:2300-2309 | resuming behind the last frame read gives exactly the frames that were left |
| PagedReplay.GrowthKeepsFrames | mvp/src/workbench/api/conversations.py:2268-2309 | a longer log shows the same frames first, behind any cursor |
| PagedReplay.NextIdIsNew | mvp/canvas-spike/src/renderer/api.ts:287-290 | the id of a frame further on was never seen, so the repeated-cursor error does not fire |
| PagedReplay.Round | mvp/canvas-spike/src/renderer/api.ts:271-292 | one round ends the read with the history of the log it was served from, or keeps a first part of it and moves on |
| PagedReplay.ReadHistory | mvp/canvas-spike/src/renderer/api.ts:265-294 | the loop ends; it returns exactly the unpaged replay of the log at its last request behind the given cursor, all of it if no id is given, or the frames before the first one no page can hold; it never reports an invalid cursor; it is a bad request if and only if the given id is no cursor |
| CanonicalHistory.CanonicalMessages | mvp/src/workbench/api/conversations.py:1994-2052 | the turn is corrupt if and only if its user message is missing; otherwise the history is, entry by entry, the runner's messages that stay and then the turns up to the sequence of the first message with the current id (`HistoryIs`) |
| CanonicalHistory.HistoryIs | mvp/src/workbench/api/conversations.py:1994-2052 | a runner message stays if and only if those before it that say the same use up the durable ones; what stays keeps its order and is the multiset difference; then each eligible user in order stands with its role and text, and behind it every reply with the same base, in stored order |
| CanonicalHistory.PrefixIsSubsequence | mvp/src/workbench/api/conversations.py:2025-2040 | the prefix keeps the order of the runner's messages |
| CanonicalHistory.PrefixConserves | mvp/src/workbench/api/conversations.py:2025-2040 | as multisets of role and text, the prefix is the runner's messages minus the durable messages |
| CanonicalHistory.TurnsAre | mvp/src/workbench/api/conversations.py:2010-2024 | the turn part holds exactly the user messages up to the current one and the replies to them, nothing of a turn queued later |
| CanonicalHistory.TurnCount | mvp/src/workbench/api/conversations.py:2042-2051 | a user message appears once, and a reply once for each user message its id answers to |
| CanonicalHistory.EachAtMostOnce | mvp/src/workbench/api/conversations.py:2014-2051 | no message appears twice if and only if no reply id answers to two of the users |
| CanonicalHistory.SuffixedIdsAreUnambiguous | mvp/src/workbench/api/conversations.py:683-692 | with user ids that all end in `:user`, as every writer's do, no reply is claimed twice |
| CanonicalHistory.ReplyOrderIsImmaterial | mvp/src/workbench/api/conversations.py:1994-2052 | two lists give the same history if the users up to the current turn, each user's own replies and the messages to take out of the runner's are the same, wherever and with whatever sequences they are stored |
| ConversationStore.RecordedIsStored | mvp/src/workbench/conversations/repository.py:254-289 | whatever is written, the store's ids are distinct, its sequences count up, and every id ends in its role's suffix |
| ConversationStore.FirstWritingsAreStored | mvp/src/workbench/conversations/repository.py:254-303 | the store is the first writing of each message of a command, in their order, with the command's id, the role and the content it was written with, and numbered from 1 |
| ConversationStore.StoredMessagesAppearOnce | mvp/src/workbench/api/conversations.py:2014-2051 | in the history from any store no message appears twice |
| ConversationStore.OneReply | mvp/src/workbench/api/conversations.py:1247-1257 | a command has one reply in the store, found whenever it came |
| ConversationStore.UsersUpToCurrent | mvp/src/workbench/api/conversations.py:2004-2013 | the users with a sequence up to the current turn's are those up to its id in the order of the users, whatever replies lie in between |
| ConversationStore.ArrivalOrderIsImmaterial | mvp/src/workbench/api/conversations.py:1994-2052 | two stores with the same messages and the same order of user messages give every turn the same canonical messages, or both none: replies may be stored before or after the user messages of later turns, in any order |
| FederatedMeaning.ProjectionFacts | mvp/src/workbench/runtime/engine_host/v2/mapper.py:202-271 | the buffered text agrees with what the assistant is recorded to have said, every completed message carries it, and a terminal status is the last part of its event |
| FederatedMeaning.PointsAreSound | mvp/src/workbench/api/conversations.py:1413-1485 | at every point of the fold the result list is what the turn's log entries show, all earlier events are remembered by digest, and no key of a later cursor is taken |
| FederatedProjection.EventsAreJudged | mvp/src/workbench/runtime/federated_conversation.py:344-376 | the next event is skipped if it repeats the one before, taken if it has the next cursor and can be projected, and refused otherwise |
| FederatedProjection.DeltaIs | mvp/src/workbench/runtime/engine_host/v2/mapper.py:232-271 | exactly which text fragments are taken, and that precisely the stretch up to the last line end is published |
| FederatedProjection.MessageIs | mvp/src/workbench/runtime/engine_host/v2/mapper.py:246-271 | exactly which messages are taken: those that may be published and go on where the body stands; what is new is published, and then the message |
| FederatedProjection.CompletionIs | mvp/src/workbench/runtime/engine_host/v2/mapper.py:254-271 | a `completed` status publishes what was held back, the body as the message, and then the status |
| FederatedProjection.StatusIs | mvp/src/workbench/runtime/federated_conversation.py:377-408 | any other status is published as it is, and is terminal if it is completed, failed or cancelled |
| FederatedProjection.UnbufferedIs | mvp/src/workbench/runtime/federated_conversation.py:392-408 | a turn without buffered text publishes each fragment and message for itself, if it may be published |
| FederatedProjection.PointsHoldValidText | mvp/src/workbench/runtime/engine_host/v2/mapper.py:210-226 | the text state that a turn saves always passes the mapper's own checks on it |
| FederatedCrash.AppendOnce | mvp/src/workbench/api/conversations.py:2494-2545 | appending a part that the log already holds changes nothing and finds it in its place; otherwise it is added at the end |
| FederatedCrash.PartsAgain | mvp/src/workbench/api/conversations.py:1434-1450 | appending an event's parts with any number of them already in the log gives the same log and the same public result |
| FederatedCrash.EventTaken | mvp/src/workbench/api/conversations.py:1434-1495 | from any part of the way into an event, taking it ends in the same saved state, and every state on the way is again part of the way |
| FederatedCrash.LoopAfterTerminal | mvp/src/workbench/api/conversations.py:1413-1433 | after a terminal event the loop tolerates only repeats of it; anything else fails the turn |
| FederatedCrash.LoopCompletes | mvp/src/workbench/api/conversations.py:1408-1575 | from any state between or within events the loop writes only states that lead to the turn's meaning, and reaches it |
| FederatedCrash.HearsEvent | mvp/src/workbench/api/conversations.py:1351-1373 | what recovery rebuilds from the log is the result and the assistant message the event loop would have had |
| FederatedCrash.RecoveryCompletes | mvp/src/workbench/api/conversations.py:1326-1395 | a crash between a terminal's last append and its save is recovered to the turn's meaning |
| FederatedCrash.SealedCompletes | mvp/src/workbench/api/conversations.py:1384-1395 | with an outcome saved a rerun goes straight to the finish and ends the same |
| FederatedCrash.CrashesChangeNothing | mvp/src/workbench/api/conversations.py:1267-1708 | wherever crashes fall, and however many, the turn ends with the log, message, outcome, status and result that the fold of its events says |
| FederatedEquivalence.TerminalIsReached | mvp/src/workbench/api/conversations.py:1460-1495 | an uninterrupted run saves the terminal's outcome on its way and ends with what the rest of the stream makes of it |
| FederatedEquivalence.SaveSettles | mvp/src/workbench/api/conversations.py:1384-1395 | a crash right after the terminal's save settles the turn with the terminal's own outcome |
| FederatedEquivalence.CrashEquivalence | mvp/src/workbench/api/conversations.py:1267-1708 | no list of crashes makes a difference if and only if nothing behind the terminal event leads to another outcome |
| FederatedEquivalence.CrashAnywhere | mvp/src/workbench/api/conversations.py:1267-1708 | with the terminal event last and a stream that then ends, any number of crashes between any durable writes, or none, settle the turn as the fold of its events says |
| FederatedEquivalence.LateEventShows | mvp/src/workbench/api/conversations.py:1430-1433 | with any other event behind a `completed` status, which the worker guards against, crashes do make a difference |
| FederatedEquivalence.LateFailureShows | mvp/src/workbench/runtime/engine_host/v2/supervisor.py:1423-1429 | with a failure behind a `completed` status, as the executor's cleanup can raise one, crashes do make a difference |
| FederatedOutcomes.SettledTurnsTell | mvp/src/workbench/api/conversations.py:1614-1708 | a settled turn ends in `finished`, `failed` as cancelled or `failed`, with the status and phase of each, exactly as the runtime's terminal status says; without one, as the failure's category says, or failed |
| FederatedOutcomes.CrashedTurnsTell | mvp/src/workbench/api/conversations.py:1540-1575 | so it is after any number of crashes |
| FederatedAttempts.CorruptTurnsFail | mvp/src/workbench/api/conversations.py:1326-1370 | two terminals in the log, one that the turn cannot go on from, or messages that contradict each other make a run write one state: the turn failed, with an empty result |
| FederatedAttempts.HearingIs | mvp/src/workbench/api/conversations.py:1350-1373 | the pass over the log fails if and only if the turn's messages there are empty or do not agree; otherwise it hears what they say and shows what the entries show |
| FederatedAttempts.RecoveredTurnsSettle | mvp/src/workbench/api/conversations.py:1326-1395 | recovery from any other turn whose log has the terminal settles it by the status there, with the message its entries say, unless the stored message says otherwise |
| FederatedAttempts.UnsettledAttemptsKeepTheTurn | mvp/src/workbench/api/conversations.py:1498-1530 | an attempt that asks for another, or raises, keeps what it has published and can be claimed again; a corrupt snapshot fails the turn |
| FederatedSteps.MoveFollows | mvp/src/workbench/api/conversations.py:1267-1708 | a worker that is left alone writes, move by move, exactly the states of `Run` |
| FederatedCompany.MoveAlike | mvp/src/workbench/api/conversations.py:1267-1708 | a move from states that differ only in the entries of others, and so in the places of the turn's own, leads to states that differ only so |
| FederatedCompany.CompanyIsUnnoticed | mvp/src/workbench/api/conversations.py:1267-1708 | with others appending between any two moves of the worker, a turn comes move for move to what it would have come to alone with the same crashes, but for the places of its entries |
| FederatedCompany.OthersAreKept | mvp/src/workbench/api/conversations.py:2494-2545 | whatever the worker and its crashes do, the log only grows and has what others have appended |
| FederatedSettlement.SettlesInCompany | mvp/src/workbench/api/conversations.py:1267-1708 | however the worker's moves, its crashes and the appends of others interleave, a turn that has ended has ended as the fold of its events says, but for the places of its entries |
| FederatedSettlement.CanAlwaysSettle | mvp/src/workbench/api/conversations.py:1267-1708 | from wherever such a play is, the turn ends if the worker only goes on |
| FederatedSettlement.CompanyEquivalence | mvp/src/workbench/api/conversations.py:1267-1708 | crashes and the appends of others between any two moves make no difference but for places in the log if and only if nothing behind the terminal event leads to another outcome |
| FederatedPublic.StepPublishes | mvp/src/workbench/runtime/engine_host/v2/mapper.py:202-271 | one event extends the buffered body by what it says and publishes the next stretch of it in order; a delta holds back only what follows the last line end, a message completes the body |
| FederatedPublic.StreamedTextIsTheMessage | mvp/src/workbench/runtime/engine_host/v2/mapper.py:202-271 | when a turn has an assistant message, the text blocks streamed before it put together are exactly that message |
| FederatedPublic.CompletionPublishesAll | mvp/src/workbench/runtime/engine_host/v2/mapper.py:250-271 | a completed turn has published everything it buffered, and that is its message |
| FederatedPublic.ProjectedEventsAreOneStream | mvp/src/workbench/runtime/federated_conversation.py:360-376 | what is projected has the cursors 1, 2, 3 and so on, each repeated at most in place and unchanged, and the turn's cursor is the last of them |
| FederatedSafety.FinishSealed | mvp/src/workbench/api/conversations.py:1614-1708 | finishing a settled turn again adds no second terminal event |
| FederatedSafety.FinishUnsealed | mvp/src/workbench/api/conversations.py:1614-1708 | the outcome and the cursor are saved before the keyed terminal event, which then agrees with them |
| FederatedSafety.LoopIsSafe | mvp/src/workbench/api/conversations.py:1408-1575 | every state the loop writes, for any stream and any ending, has at most one terminal event, agreeing with the stored outcome and cursor |
| FederatedSafety.RunIsSafe | mvp/src/workbench/api/conversations.py:1267-1708 | every state of every run of a claimed turn is safe |
| FederatedSafety.SingleTerminal | mvp/src/workbench/api/conversations.py:1267-1708 | over any number of attempts one after another, each with its own stream, ending and crash, and with others appending in between, the turn has at most one terminal event and it agrees with the outcome and the status |
| FederatedSafety.OneAttemptMore | mvp/src/workbench/api/conversations.py:1267-1708 | every attempt goes on from where the attempts before it have left the turn, leaves an ended turn alone, and keeps what others append behind it |
| FederatedOwners.NextKeeps | mvp/src/workbench/api/conversations.py:2494-2545 | whatever happens next, a claim, a load, a move of any worker that ever loaded the turn or an append of others, the log keeps at most one terminal event, a worker past its save keeps the stored outcome and cursor, and the owner of a committed turn can only settle it as it is stored |
| FederatedOwners.OneTerminalForManyOwners | mvp/src/workbench/conversations/repository.py:1095-1228 | for every interleaving of any number of workers, with the turn's writes refused to all but the owner and its appends to none, and of the appends of others: if no claim is loaded twice, the turn has at most one terminal event and it agrees with the outcome and the status |
| FederatedOwners.LateLoadBreaksSafety | mvp/src/workbench/api/conversations.py:916-938 | a run in which a claim is loaded twice and the log gets two terminal events |
| FederatedClaimants.SoleWorkerRuns | mvp/src/workbench/api/conversations.py:916-938 | a turn that has not ended can be claimed and loaded at any time, and a worker that is then left alone brings it to the end of a whole run |
| FederatedClaimants.EndedTurnsStay | mvp/src/workbench/conversations/repository.py:1095-1216 | a turn that has ended keeps its status, state and result, whatever its workers, later claims and others do |
| FederatedClaimants.NothingIsLost | mvp/src/workbench/api/conversations.py:2494-2545 | the log only grows, and keeps what others append, in every interleaving of the workers |
| FederatedWorker.TurnStore.AppendEntry | mvp/src/workbench/api/conversations.py:2494-2545 | the store after an append is that of the specification; a changed identity writes nothing |
| FederatedWorker.TurnStore.AppendMessage | mvp/src/workbench/conversations/repository.py:254-289 | a stored message wins over a new one under the same id |
| FederatedWorker.TurnStore.FinishTurn | mvp/src/workbench/api/conversations.py:1614-1708 | the three durable writes of the finish, in order |
| FederatedWorker.TurnStore.AppendEvent | mvp/src/workbench/api/conversations.py:1434-1450 | the loop over an event's parts writes the specified states |
| FederatedWorker.TurnStore.HearLog | mvp/src/workbench/api/conversations.py:1350-1373 | the pass over the log computes what the turn's entries show and say |
| FederatedWorker.TurnStore.RecoverTurn | mvp/src/workbench/api/conversations.py:1326-1395 | recovery writes the specified states, with each corruption check in its place |
| FederatedWorker.TurnStore.RunStream | mvp/src/workbench/api/conversations.py:1396-1575 | the event loop writes exactly the states of the specification |
| FederatedWorker.TurnStore.ProcessTurn | mvp/src/workbench/api/conversations.py:1267-1575 | a whole claim of a turn writes exactly the states of `Run`; all of them are safe if the turn was safe when it was claimed; and a fresh turn ends as the runtime's terminal status or its stream's end says |
| FederatedClaims.SettleTurn | mvp/src/workbench/api/conversations.py:1267-1575 | a claim from any state a crash can have left behind settles the turn as the fold of its events says and as the runtime told, and writes only such states on its way |
| QueryMachine.LawfulPrefix | mvp/runtime-hosts/goose-host-v2/src/host.rs:133-141 | a trace cut short by a failed write is lawful |
| HostWire.CursorsRunFromOne | mvp/sidecars/deepseek-harness/src/event-mapper.ts:79-107 | by the rules of the wire a query's events carry its identity and the cursors 1, 2, 3 and so on, and none before the last is terminal |
| HostWire.TerminalEndsQuery | mvp/runtime-hosts/goose-host-v2/src/query.rs:182-241 | a corollary of the rules that both hosts keep (`ObeysHostRules`, `DshSidecar.WireEventsAreLawful`): only another query's first event comes behind a terminal one |
| QueryMachine.ObeysHostRules | mvp/runtime-hosts/goose-host-v2/src/query.rs:53-241 | every trace the query machine emits keeps those rules |
| QueryMachine.CompletionHasOutput | mvp/runtime-hosts/goose-host-v2/src/query.rs:182-200 | a completed query has a non-empty message right before, which is the concatenation of its output tokens |
| QueryMachine.Machine.Start | mvp/runtime-hosts/goose-host-v2/src/query.rs:53-116 | a start is accepted if and only if no query is active and the request is admitted; a rejected one changes nothing; a fixture emits the events of its disposition, one by one |
| QueryMachine.Machine.StartReal | mvp/runtime-hosts/goose-host-v2/src/query.rs:118-153 | as for fixtures, with `Running` alone |
| QueryMachine.Machine.PushReal | mvp/runtime-hosts/goose-host-v2/src/query.rs:155-180 | usage emits nothing, a token is added to the output, and what is emitted has the next cursor |
| QueryMachine.Machine.CompleteReal | mvp/runtime-hosts/goose-host-v2/src/query.rs:182-200 | completion succeeds if and only if the active query has said something; otherwise the query stays as it was |
| QueryMachine.Machine.FinishReal | mvp/runtime-hosts/goose-host-v2/src/query.rs:214-225 | an active query always finishes: with its message and `Completed` if the provider succeeded and something was said, and otherwise with one `Failed` whose reason tells which of the two was missing |
| QueryMachine.Machine.Cancel | mvp/runtime-hosts/goose-host-v2/src/query.rs:227-241 | only the active run is cancelled, and a mismatch changes nothing |
| GooseHost.WireEventsAreLawful | mvp/runtime-hosts/goose-host-v2/src/host.rs:170-498 | the query events on a lawful wire are a trace the query machine could emit |
| GooseHost.WirePrefix | mvp/runtime-hosts/goose-host-v2/src/host.rs:133-141 | what is on the wire when a write fails is lawful |
| GooseHost.Host.WriteEvents | mvp/runtime-hosts/goose-host-v2/src/host.rs:489-497 | the events of the machine are written in order and nothing between |
| GooseHost.Host.OnStart | mvp/runtime-hosts/goose-host-v2/src/host.rs:205-332 | an unreadable request ends the process; others are answered accepted, with the query's first events, if and only if none is active and the machine admits them |
| GooseHost.Host.OnCancel | mvp/runtime-hosts/goose-host-v2/src/host.rs:333-365 | a cancel under a task is stored and answered later, a second one or one for another run ends the process, and one without a task ends the query at once |
| GooseHost.Host.OnStatus | mvp/runtime-hosts/goose-host-v2/src/host.rs:377-405 | a seal if and only if the request names the terminal's identity and cursor; otherwise the process ends |
| GooseHost.Host.OnToolResult | mvp/runtime-hosts/goose-host-v2/src/host.rs:366-376 | a tool result goes to the transport of the task and settles the pending request that it names with all its ids; without a task, or if the transport does not accept it, the process ends |
| GooseHost.Host.OnToolRequest | mvp/runtime-hosts/goose-host-v2/src/host.rs:416-430 | the next frame that the transport has sent goes to the wire, in the order of sending |
| GooseHost.Host.OnInputClosed | mvp/runtime-hosts/goose-host-v2/src/host.rs:176-182 | without a task the host is done; with one it is cancelled and no terminal may follow |
| GooseHost.Host.OnProvider | mvp/runtime-hosts/goose-host-v2/src/host.rs:438-448 | a provider event always finds an active query and is written with its identity and next cursor |
| GooseHost.Host.OnProviderDone | mvp/runtime-hosts/goose-host-v2/src/host.rs:449-497 | a task that ends after the input was lost blocks without a terminal; a cancelled one is answered with the stored command id, which is always there, and the cancelled event; a failed one adds one failed event and no message; a successful one its message and the completion, or a failed event if nothing was said |
| GooseHost.Host.Serve | mvp/runtime-hosts/goose-host-v2/src/host.rs:170-502 | the main result on the host: every schedule takes the branches that are open, one after another, each with exactly its effect (`Takes`), and keeps the wire lawful, the task tied to the active query, the tool frames those of the transport in order and, once input is lost, the wire free of terminals |
| GooseHost.ToolFramesAreInside | mvp/runtime-hosts/goose-host-v2/src/host.rs:416-430 | a corollary of `Serve`: a tool frame is written only while its own query is open, none behind its terminal |
| GooseHost.CancelFollowsExecute | mvp/runtime-hosts/goose-host-v2/src/host.rs:416-430 | a corollary of `Serve`: within a query the wire has at most one execute frame for a request, and at most one cancel frame, behind it and with its ids |
| GooseHost.SealsNameTheTerminal | mvp/runtime-hosts/goose-host-v2/src/host.rs:377-405 | a corollary of `Serve`: a seal names the identity and the cursor of the terminal event that is the last on the wire |
| GooseHost.CancelIsAcceptedJustBefore | mvp/runtime-hosts/goose-host-v2/src/host.rs:469-497 | a corollary of `Serve`: a cancelled event comes directly behind the acceptance of a cancel, and such an acceptance only before one |
| ToolTransport.RequestIdIsInjective | mvp/runtime-hosts/goose-host-v2/src/tool_transport.rs:132-133 | request ids of one run differ when their numbers do |
| ToolTransport.EveryRunIsSound | mvp/runtime-hosts/goose-host-v2/src/tool_transport.rs:48-215 | every step keeps that request ids are unique, pending and settled calls are disjoint and together all begun calls, pending call ids are distinct, results are where they were sent, and a closed transport has nothing pending |
| ToolTransport.EveryReachableStateIsSound | mvp/runtime-hosts/goose-host-v2/src/tool_transport.rs:35-215 | so it is in every state that a transport can reach |
| ToolTransport.FramesComeInOrder | mvp/runtime-hosts/goose-host-v2/src/tool_transport.rs:150-179 | every frame sent has its place: an execute frame is the first of its request, a cancel frame follows the execute frame with its ids |
| ToolTransport.ExactlyOneFate | mvp/runtime-hosts/goose-host-v2/src/tool_transport.rs:48-147 | a begun call is pending or settled, never both, and completed if and only if a result was delivered to it |
| ToolTransport.PendingIdsAreDistinct | mvp/runtime-hosts/goose-host-v2/src/tool_transport.rs:118-147 | two pending requests never carry the same tool call id |
| ToolTransport.FatesStay | mvp/runtime-hosts/goose-host-v2/src/tool_transport.rs:48-188 | a call settles at most once: its fate is never changed by any later step |
| ToolTransport.ResultsReachTheirOwnCalls | mvp/runtime-hosts/goose-host-v2/src/tool_transport.rs:48-103 | in every state that a transport can reach, a result that a call was given came in a frame with the call's own request id, tool call id and tool id |
| ToolTransport.ReturnedCallsAreSettled | mvp/runtime-hosts/goose-host-v2/src/tool_transport.rs:190-215 | a call returns only with a delivered result, a close or a failed write, and what it received is what was sent to it |
| ToolTransport.CancelFollowsExecute | mvp/runtime-hosts/goose-host-v2/src/tool_transport.rs:150-179 | a request has at most one execute frame and at most one cancel frame, behind it |
| ToolTransport.CancelledRunsBeginNothing | mvp/runtime-hosts/goose-host-v2/src/native_agent.rs:364-375 | a call that starts after the run is cancelled begins nothing, so it writes no execute frame |
| ToolTransport.NextStaysClosed | mvp/runtime-hosts/goose-host-v2/src/tool_transport.rs:105-131 | after a close nothing is ever pending again and the first reason stays |
| ToolTransport.Transport.Begin | mvp/runtime-hosts/goose-host-v2/src/tool_transport.rs:118-147 | a call is begun under a fresh id if the run is not cancelled, the call identified, the transport open and the call id new; otherwise it is refused with the reason of the first check that fails |
| ToolTransport.Transport.Deliver | mvp/runtime-hosts/goose-host-v2/src/tool_transport.rs:48-103 | a result settles a request if and only if it is pending, not completed, and the run, the tool call id and the tool id all match; each rejection has its own condition and changes nothing |
| ToolTransport.Transport.PollCall | mvp/runtime-hosts/goose-host-v2/src/tool_transport.rs:200-213 | a result is taken first; without one a cancelled signal writes the cancel frame, once |
| ToolTransport.Transport.CloseTransport | mvp/runtime-hosts/goose-host-v2/src/tool_transport.rs:105-116 | the drained calls are all settled with the reason, and nothing else changes |
| ToolTransport.Transport.PlatformResult | mvp/runtime-hosts/goose-host-v2/src/native_agent.rs:385-414 | an interrupted call returns no result of its own, and not before its request is settled |
| ToolTransport.Transport.Serve | mvp/runtime-hosts/goose-host-v2/src/tool_transport.rs:48-215 | any schedule of steps takes the transport through exactly the states of the specification |
| DshSidecar.WireEventsAreLawful | mvp/sidecars/deepseek-harness/src/server.ts:524-617 | the events on a lawful wire of the sidecar keep the same rules as the Goose host's |
| DshSidecar.SealableIsTheRule | mvp/sidecars/deepseek-harness/src/server.ts:302-319 | on every lawful wire the terminal that can be sealed is the last one, if and only if no start was refused after its Grant was used up since |
| DshSidecar.StatusAnswersAreExact | mvp/sidecars/deepseek-harness/src/checkpoint.ts:35-55 | every status answered on a lawful wire is sealed if and only if it names the last terminal before it and no start was refused late since |
| DshSidecar.OneGrantKeepsTheSeal | mvp/sidecars/deepseek-harness/src/grant-channel.ts:138-178 | with at most one Grant used up the last terminal on the wire can always be sealed |
| DshSidecar.Sidecar.OnStart | mvp/sidecars/deepseek-harness/src/server.ts:290-462 | a start while a query is active, or without a Grant, changes nothing, one refused after its Grant is used up clears terminal and checkpoint, an accepted one uses its Grant and is answered with exactly the first events of its kind |
| DshSidecar.Sidecar.OnCancel | mvp/sidecars/deepseek-harness/src/server.ts:464-491 | a held query ends at once with the next cursor, a native one is aborted and waited for, any other cancel is an error |
| DshSidecar.Sidecar.OnStatus | mvp/sidecars/deepseek-harness/src/checkpoint.ts:35-55 | a seal is acknowledged if and only if it names the terminal's identity and cursor; otherwise the status is answered with an error |
| DshSidecar.Sidecar.OnNativeText | mvp/sidecars/deepseek-harness/src/server.ts:363-376 | a chunk of the active session is emitted with the next cursor; one of any other session is dropped |
| DshSidecar.Sidecar.OnCompletion | mvp/sidecars/deepseek-harness/src/server.ts:378-413 | a stale completion leaves no trace; a success adds exactly two frames, the message and the completed terminal, even if a cancel waits; a failure the failed terminal, or, if cancelled, nothing yet |
| DshSidecar.Sidecar.OnCancelSettled | mvp/sidecars/deepseek-harness/src/server.ts:464-482 | the waiting cancel writes the acceptance and the cancelled terminal, an error if the session ended otherwise, nothing after the input is closed |
| DshSidecar.Sidecar.OnInputClosed | mvp/sidecars/deepseek-harness/src/server.ts:502-519 | shutdown makes every session stale and nothing is written any more |
| DshSidecar.Sidecar.Serve | mvp/sidecars/deepseek-harness/src/server.ts:290-617 | every interleaving of commands, chunks, completions, settlements and the end of input takes the steps that are due, each with exactly its effect (`Takes`), and keeps the wire lawful; while the input is open and nothing is going on, the terminal that can be sealed is the last on the wire unless a start was refused late since, and with one Grant it always is |
| DshSidecar.LateRefusalLosesTheSeal | mvp/sidecars/deepseek-harness/src/server.ts:303-319 | with a second Grant the other case happens: a concrete run in which a status that names the last terminal is answered with an error |
| HostedTurn.HostedTurnsSurviveCrashes | mvp/src/workbench/runtime/federated_conversation.py:344-408 | a query of a host that keeps the rules gives the turn contiguous cursors from 1 and a stream in which crashes are invisible |
| HostedTurn.GooseTurnsSurviveCrashes | mvp/runtime-hosts/goose-host-v2/src/host.rs:170-498 | so it is for any query on any wire the Goose host can write |
| HostedTurn.DshTurnsSurviveCrashes | mvp/sidecars/deepseek-harness/src/server.ts:290-617 | and for any query on any wire the DSH sidecar can write |
| HostedTurn.GooseTurnsEndAsWritten | mvp/runtime-hosts/goose-host-v2/src/host.rs:469-497 | whatever crashes there are, a turn that takes the last event of a Goose query ends as completed, failed or cancelled as that event on the wire |
| HostedTurn.DshTurnsEndAsWritten | mvp/sidecars/deepseek-harness/src/server.ts:378-413 | and so it is for a query of the sidecar |
| GrantFraming.Big32RoundTrip | mvp/sidecars/deepseek-harness/src/grant-channel.ts:291-292 | a length written as four big-endian bytes is read back |
| GrantFraming.FramesLookLikeThis | mvp/src/workbench/runtime/provider_grants/private_transport.py:148-159 | a frame byte by byte: its magic, the version, the two lengths with their high bytes first, the header and the secret |
| GrantFraming.FrameRoundTrip | mvp/src/workbench/runtime/provider_grants/private_transport.py:148-159 | for every header of 1 to 65536 bytes and secret of 0 to 65536 bytes the written frame is decoded to both exactly |
| GrantFraming.VerdictsAre | mvp/sidecars/deepseek-harness/src/grant-channel.ts:282-304 | what has arrived is delivered if it is a frame, trailing if it goes on behind one, badly framed if it begins like none, and otherwise read on |
| GrantFraming.OnlyFramesAreDelivered | mvp/sidecars/deepseek-harness/src/grant-channel.ts:282-304 | whatever is delivered is an encoded frame, and of one header and secret only |
| GrantFraming.DeliveryNeedsTheExactLength | mvp/sidecars/deepseek-harness/src/grant-channel.ts:277-304 | no strict prefix of a delivered stream is delivered |
| GrantFraming.VerdictsAreFinal | mvp/sidecars/deepseek-harness/src/grant-channel.ts:282-304 | on the bytes alone, more of them never make a bad stream good, and they make a whole frame one with trailing bytes |
| GrantFraming.Receiver.OnData | mvp/sidecars/deepseek-harness/src/grant-channel.ts:282-346 | a chunk takes a receiver that still listens to the verdict on all bytes so far; one that has failed or keeps its Grant has destroyed its socket and does not hear it |
| GrantFraming.Receiver.OnFlushed | mvp/sidecars/deepseek-harness/src/grant-channel.ts:343-346 | when the acknowledgement is out a delivered Grant is kept, unless more bytes came before |
| GrantFraming.Receiver.OnEnd | mvp/sidecars/deepseek-harness/src/grant-channel.ts:277-281 | the end of the stream makes a receiver fail that is still reading |
| GrantFraming.SplitsAgree | mvp/sidecars/deepseek-harness/src/grant-channel.ts:267-348 | for every split into chunks and every moment of the acknowledgement the receiver ends with the verdict on the whole stream; of a stream that goes on behind its frame it keeps the Grant if and only if the acknowledgement went out when precisely the frame had arrived |
| GrantFraming.OverlongIsKept | mvp/sidecars/deepseek-harness/src/grant-channel.ts:343-346 | a whole frame, its acknowledgement and then more bytes: the Grant is kept, though the bytes as a whole have trailing ones |
| GrantFraming.Receive | mvp/sidecars/deepseek-harness/src/grant-channel.ts:267-348 | over any stream of chunks, acknowledgement and end the receiver goes through the specified states |
| GrantFraming.ReadOnce | mvp/runtime-hosts/goose-host-v2/src/grant_channel.rs:266-296 | the exact reads succeed if and only if a whole frame is there, give its header and secret, and fail at the part that is missing |
| GrantFraming.DecodersAgree | mvp/runtime-hosts/goose-host-v2/src/grant_channel.rs:266-296 | the results of the receiver and of the exact-length reader on one stream: the receiver fails if and only if the reader does or the stream overruns its frame without an acknowledgement in time; otherwise both have the same header and secret |
| GrantFraming.AckRoundTrip | mvp/sidecars/deepseek-harness/src/grant-channel.ts:231-246 | an acknowledgement of 1 to 8192 bytes is read back exactly, whatever follows it |
| GrantFraming.AcksLookLikeThis | mvp/sidecars/deepseek-harness/src/grant-channel.ts:231-246 | an acknowledgement byte by byte; one with a payload of more than 8192 bytes is refused |
| GrantFraming.OnlyAcksAreRead | mvp/src/workbench/runtime/provider_grants/private_transport.py:161-172 | whatever is read as an acknowledgement is one, and all of it |
| GrantFraming.GrantIsNoAck | mvp/src/workbench/runtime/provider_grants/private_transport.py:161-172 | no Grant frame is read as an acknowledgement |

## Left out

- Git, the file system, SQLite, sockets, subprocesses, FastAPI, Electron and React: stores are sequences and maps, pipes are step inputs and outputs.
- Deadlines and clocks: a scanner deadline aborts outside the claims, and a tool timeout is a step that may come at any time.
- Regular expressions, JSON, SHA-256 and the text policy of the public mapper: patterns are finite literal terms (proved non-overlapping), JSON is newline-free text, a digest is the event it stands for, and the policy is a pair of arbitrary predicates.
- FederatedCrash.CrashesChangeNothing: does not claim equality of the buffered text, which recovery rebuilds in a normal form.
- FederatedEquivalence.CrashEquivalence: is about endings that settle the turn; an ending that asks for another attempt, reports a corrupt snapshot or raises another exception leaves no final state to compare; what it leaves is FederatedAttempts.UnsettledAttemptsKeepTheTurn, and FederatedSafety.SingleTerminal covers it.
- FederatedWorker.TurnStore.ProcessTurn: the checks on the turn's runtime pin and on the types in its saved state, and the executor being absent, end a run before its first write and are not modelled.
- FederatedSafety.SingleTerminal: attempts come one after another; workers that overlap are FederatedOwners.OneTerminalForManyOwners. The retry notice that the worker appends to the log under a key of its own is one of the entries others append.
- FederatedSteps.MoveFollows: recovery reads the log once, where the code reads it for the terminal status and again for the turn's entries.
- FederatedOwners.OneTerminalForManyOwners: expired leases and retry backoff are claims that may come at any time, and a worker whose fenced write is refused stops.
- PagedReplay.ReadHistory: Last-Event-ID is read as an optional minus sign and digits, not with the other spellings Python's `int` accepts, and a read that the user cancels is not modelled.
- QueryMachine.Machine.Start: cursors do not wrap around at 64 bits, and which requests pass validation is a parameter.
- GooseHost.Host.OnStart: Grant validation, envelope parsing and the model-host switch are one readable-or-not input; an error of any of them ends the process.
- ToolTransport.Transport.Deliver: a call whose task was aborted, so that its receiver is gone, is not modelled.
- DshSidecar.Sidecar.OnStart: input digests, prompt-section order, the Grant's own checks and the waiting for the Grant are one input, refused before or after the Grant is used up.
- DshSidecar.Sidecar.OnNativeText: sessions emit nothing before `startQuery` returns, as the session awaits its plugins first.
- `createNdjsonToolTransport` of the DSH sidecar: the same request and settlement discipline as ToolTransport, with less in it.
- GrantFraming.Receiver.OnData: a delivered header parses and passes `validateFormalGrant`, and the socket has no error.
- GrantFraming.ReadOnce: headers parse and credential modes fit; the checks on the Grant's fields, and the channel that hands Grants out once, are not modelled.
- `_terminal_response`, the intervention, pause and approval endpoints, sequential orchestration, the Python runner and agent profiles: each is settled by reading one branch or one transaction.
- The provider libraries and the native agent's conversation effects: the native task is an arbitrary producer of events, tool calls and one result.
