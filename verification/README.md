# LAN Commander: verified protocol models

LAN Commander is a control center and an agent that talk over one WebSocket. This
project models the stateful parts of both and proves what they guarantee over
whole runs, in any interleaving and with any failures the model lists.

Every class with mutable fields is modelled as a class whose methods are proved
equal to a function or a specification; every set of goroutines sharing state is
modelled as a transition system whose steps are the locked sections; and the main
results are theorems about all runs of those functions and transition systems.

| file | models |
|---|---|
| `Common.dfy`, `Decimal.dfy` | bytes, wrapping int64, string tests, decimal numbers |
| `AtomicUpload.dfy` | the agent's upload chunks: temporary file, metadata file, commit by rename; and chunks without a transfer ID |
| `UploadHistory.dfy` | whole runs of upload requests from any senders |
| `Upload.dfy` | the control center's upload loop against the agent over a lossy connection |
| `Download.dfy` | chunk reads, the download loop against any agent, and both together |
| `AgentConnection.dfy`, `Generations.dfy` | connection state of agents; pumps, reconnects, connects and stops in any interleaving |
| `Redial.dfy` | when lost connections are dialled again, how often, and what ends that |
| `Correlation.dfy` | requests and responses matched by ID |
| `Exchange.dfy` | requests and responses as one system: callers, connections and agents |
| `IpGuard.dfy`, `GuardHistory.dfy` | per-address slots and failure windows, and what they mean over a history |
| `Admission.dfy` | the agent's connections, client table, slots and login attempts |
| `AgentLink.dfy` | one connection's read pump, write pump and reply queue |
| `Handshake.dfy` | authentication of a connection, and the control center's handshake |
| `Paging.dfy` | directory pages and their merge |
| `Sessions.dfy` | saved sessions and token protection |
| `AuditFile.dfy`, `AuditRing.dfy` | the two audit logs |

## Reading the main results

*Uploads.* `Upload.Upload` runs the real loop against the real agent. For every
split of the reads, cancellation point, lost request or reply, failing call on the
agent and interleaved traffic of others, its contract says what the agent serves,
request by request, as a function of the turns (`UploadLog`): the requests of others
and the transfer's own messages, nothing else. Every destination holds what those
requests make of it. The transfer replaces its destination at most once and only by
its whole source (`Settled`); it does so exactly if the turns of the loop bring the
whole source to the agent (`CommitsIn`, a condition on the source and the turns, not
on the agent's disk); and success is reported exactly if the reply to the last chunk
arrived as well. So a destination that nobody else writes to holds the whole source
after a commit and what it held before otherwise (`Replaces`), and
`FailureAfterCommit`: an upload reports a failure although the file is in place if
and only if that last reply was lost.
`UploadHistory` drops the honest client: whatever sequence of requests anybody sends
to proper destinations, temporary files hold exactly the transcript of accepted
chunks, and a destination holds its last commit with the chunks that were written
straight into it since, by senders of the original protocol.

*Reconnects.* A pump that has not left its loop and a reconnect in progress never
coexist for one agent, so an install, which checks nothing, always replaces exactly
the generation that failed. One agent per endpoint is *not* kept by reconnects.
`UniqueUnlessClash` is exact: along any run it is kept if and only if no reconnect
installs on a taken endpoint and no connect inserts on one. A connect checks the
agents one by one, each under its own lock, so the second clash does happen, when a
reconnect overtakes the check (`ConnectCanBeOvertaken`); `OnlyInstallsClash` shows
that nothing but such installs breaks the rule.

`Redial` says which lost connections are dialled again: after a failed read, all but
those of agents disconnected deliberately (`FailureRedials`, `HaltedIsNotRedialled`);
five times at most; and from every reachable state with success
(`LostConnectionIsRestored`) or without (`UnreachableAgentIsGivenUp`).

*Replies.* `AgentLink.NoReplyLost` and `Correlation.AnswersMatch` treat the two ends.
`Exchange` runs both together, with the requests on their way between them and any
number of connections: `HandledOnce` shows that no request is handled twice, and
`AnswerIsItsHandlersReply` that an answered one got the reply which its one handler
decided. That answers do arrive is `RequestIsAnswered` and, over all runs of the control
center, `Correlation.FirstResponseWins`; which kind of reply each request gets is
`AgentLink.ReplyTable`, and `Handshake.NothingWithoutToken` that without a correct token
it is an error.

*The guard.* `BlocksExactlyWhenFitting` states which limits make a block last as
long as configured: exactly those with `block <= window + 1` (in clock ticks) or at
most one allowed failure; the shipped limits (one minute each) do (`DefaultsFit`).
`AdmittedAsTokensSay` reads an address's history off the messages that the server
handled, and shows that the server refuses it exactly while that history leaves a trip
in force. `BlockedAddressHasBoundedBudget` combines admission, slots, the per-connection
attempt limit and the read loop.

*The handshake.* `HandshakeMeansAuthed` is the safe direction. `HandshakeExactly`
says when a correct token is let in: if and only if no periodic update was queued
between the authentication and its reply (`Overtaken`), on any connection whose
demand for the token was sent, as on every connection that is not closed.
`CorrectTokenCanBeTurnedAway` is a run in which an update does overtake the reply,
and `AnonymousIsLetIn` shows that agents without a token have no such gap.

## Assumptions

* Connections deliver in order and never duplicate; a request or its reply may be
  lost.
* Requests of one transfer are handled one at a time, as they are when its sender
  waits for each reply: the agent's file calls take no lock, so two connections that
  send chunks of the same transfer at once are not covered.
* Transfer IDs and message IDs are fresh (they are UUIDs). SHA-256 is an arbitrary
  function from bytes to text; it is required to be non-empty only where success is
  promised.
* Paths are canonical, and upload destinations, the original protocol's included, are
  not themselves named like an upload's temporary or metadata file (`Scratch`).
* Files never exceed 2^63 - 1 bytes: a write beyond fails. int64 sums wrap, and
  `ShapeIsExact` shows that wrapping never lets a chunk through.
* Clocks are monotone; times are integers, 0 standing for Go's zero time.

## Model

| member | source | states |
|---|---|---|
| Decimal.FormatParse | agent/internal/filesystem/fs.go:275-286 | the total written to the metadata file is read back unchanged, for every int64 |
| Decimal.NotANumber | agent/internal/filesystem/fs.go:281-286 | a metadata file with anything but digits, signs and whitespace names no total |
| Common.FoldsLetters | agent/internal/filesystem/fs.go:340 | two texts match exactly if they have one length and at each place the same character, or the same letter in upper and lower case |
| AtomicUpload.UuidIsValid | control-center/backend/transfer/transfer.go:187 | every ID the control center gives a transfer, 36 hexadecimal digits and hyphens, is accepted |
| AtomicUpload.RefusedIds | agent/internal/filesystem/fs.go:228-233 | an ID is refused exactly if it is blank or contains a slash, a backslash or two dots in a row |
| AtomicUpload.ScratchNames | agent/internal/filesystem/fs.go:239-240 | temporary files lie beside the destination, under names that begin with the prefix and end in .part or .meta |
| AtomicUpload.AcceptedExactly | agent/internal/filesystem/fs.go:227-350 | which chunks are accepted, from the ID, the sizes, what was received, the digest and the calls needed: exactly those, and what each comes to |
| AtomicUpload.ShapeIsExact | agent/internal/filesystem/fs.go:245-268 | the agent's wrapping int64 checks, with the file size limit, admit exactly the chunks the unbounded protocol admits |
| AtomicUpload.DecideByStages | agent/internal/filesystem/fs.go:245-349 | the protocol's answer is what the agent's successive checks and calls find out |
| AtomicUpload.AgentDisk.Prepare | agent/internal/filesystem/fs.go:270-299 | a chunk goes on exactly if it is the first, or the recorded total and the temporary size match; otherwise both files are gone |
| AtomicUpload.AgentDisk.FlushTemp | agent/internal/filesystem/fs.go:301-327 | the chunk is appended and flushed, or both files are gone |
| AtomicUpload.AgentDisk.Finalize | agent/internal/filesystem/fs.go:331-349 | the destination is replaced exactly if the digest matches and the rename succeeds; otherwise both files are gone |
| AtomicUpload.AgentDisk.WriteAtomicUploadChunk | agent/internal/filesystem/fs.go:227-350 | for every disk, chunk and set of failing calls: accepted exactly when the protocol accepts, with exactly the protocol's effect on the whole disk; a blank ID or one with a separator is refused and changes nothing |
| AtomicUpload.AgentDisk.CancelAtomicUpload | agent/internal/filesystem/fs.go:354-373 | removes the transfer's two files and nothing else, always so under a UUID; an improper ID is refused and changes nothing |
| UploadHistory.NamesApart | agent/internal/filesystem/fs.go:239-240 | temporary and metadata names of different transfers never coincide |
| AtomicUpload.AgentDisk.WriteFileChunk | agent/internal/filesystem/fs.go:174-222 | a chunk without a transfer ID is written straight into its destination, padded or truncated as its offset asks, whichever call fails |
| AtomicUpload.OverwritePlacesTheChunk | agent/internal/filesystem/fs.go:186-222 | written successfully, such a chunk is where it belongs, no other byte changes and a gap is zero; at the end it is appended, at offset 0 it is the whole file |
| AtomicUpload.OverwriteSucceedsExactly | agent/internal/filesystem/fs.go:174-222 | such a write succeeds exactly if no call it needs fails and no byte lies beyond the largest file |
| AtomicUpload.OverwriteKeepsTheRest | agent/internal/filesystem/fs.go:186-222 | whatever fails, a chunk further on changes no byte before or behind it |
| UploadHistory.OnlyOwnPaths | agent/internal/filesystem/fs.go:174-373 | apart from its own temporary files, a request changes exactly what its change record says: nothing, a commit, or a chunk written through |
| UploadHistory.OthersUntouched | agent/internal/filesystem/fs.go:239-244 | a request leaves the state of every other transfer as it was |
| UploadHistory.OwnSlot | agent/internal/filesystem/fs.go:227-350 | what a transfer has on disk after a stored, refused or committing request of its own |
| UploadHistory.ServeKeepsClean | agent/internal/filesystem/fs.go:227-350 | any request keeps every transfer at nothing, or some but not all of the advertised bytes; a refused one leaves nothing of its own |
| UploadHistory.RunKeepsClean | agent/internal/filesystem/fs.go:227-373 | the same after every run of requests |
| UploadHistory.TempIsTranscript | agent/internal/filesystem/fs.go:227-373 | after every run, the temporary file is the concatenation of the consecutive chunks accepted since the last one at offset 0, fewer bytes than the recorded total |
| UploadHistory.CommitIsTranscript | agent/internal/filesystem/fs.go:331-349 | what a commit puts in place is one transfer's transcript and its last chunk, of the advertised size and the stated digest: between digests in lower case, exactly that one |
| UploadHistory.DestinationFollowsChanges | agent/internal/filesystem/fs.go:174-226 | after every run, a destination holds what the last commit to it put there, with the chunks written straight into it since, else its old content |
| Upload.HandleSendFile | agent/internal/server/handlers.go:209-264 | a chunk of a transfer goes to the atomic upload, one without to the destination; an acknowledgement echoing it, with the committed flag for transfers only, is sent exactly if it was accepted |
| Upload.CheckAck | control-center/backend/transfer/transfer.go:261-279 | for a reply of any agent: taken as an acknowledgement exactly if it repeats offset and final flag, and the path if it names one, and does not deny the commit |
| Upload.SendUploadChunk | control-center/backend/transfer/transfer.go:253-281 | true only if the agent accepted this chunk and its reply arrived |
| Upload.InStepDecision | control-center/backend/transfer/transfer.go:206-233 | the agent's answer to the client's next chunk: stored up to the new offset, committed as the whole source, or refused, and exactly when which |
| Upload.TurnEffect | control-center/backend/transfer/transfer.go:199-250 | one turn with any interleaved traffic and loss commits the whole source once, keeps both ends in step, or leaves nothing |
| Upload.SendingTurn | control-center/backend/transfer/transfer.go:207-232 | a turn that sends a chunk passes, with both ends in step, or settles the upload |
| Upload.CommitsInOneTurn | control-center/backend/transfer/transfer.go:198-250 | an upload is committed in one turn at most |
| Upload.SendChunks | control-center/backend/transfer/transfer.go:198-250 | the loop: the agent serves exactly what the turns say; one replacement by the whole source exactly if they bring it to the agent, success exactly if the last reply arrived too |
| Upload.SendCancel | control-center/backend/transfer/transfer.go:187-197 | the agent serves the requests of others and then the cancel message, unless that is lost; a delivered one leaves no temporary file and commits nothing |
| Upload.CancelsAfterFailureOnly | control-center/backend/transfer/transfer.go:188-197 | a cancel message reaches the agent exactly after a failed upload that had tried to send something, unless it is lost |
| Upload.LogAfterTurn | control-center/backend/transfer/transfer.go:201-250 | what the agent serves over the whole loop is what it served up to a turn, in that turn, and from the next one on if it passes |
| Upload.OnlyMineCount | agent/internal/filesystem/fs.go:224-226 | a destination that no other request names depends on this transfer's own changes only |
| Upload.Upload | control-center/backend/transfer/transfer.go:167-251 | end to end, with the cancel message: exactly the requests of others and the transfer's own are served, and every destination holds what they make of it; one that nobody else writes to becomes the whole source exactly if the turns bring it to the agent and is unchanged otherwise; success exactly if the last reply arrived too; no leftovers unless the cancel is lost |
| Upload.FailureAfterCommit | control-center/backend/transfer/transfer.go:257-260 | success implies a replaced destination; failure is reported for a replaced one if and only if the reply to the last chunk was lost |
| Upload.FavourableSucceeds | control-center/backend/transfer/transfer.go:200-250 | with nothing lost, cancelled or failing and enough turns, success is reported, the whole source is committed, and a destination that nobody else writes to holds it |
| Upload.UploadAlone | control-center/backend/transfer/transfer.go:167-251 | such an upload under a UUID, end to end: it succeeds, the destination holds the source, and no temporary file is left |
| Upload.FullReads | control-center/backend/transfer/transfer.go:204-205 | reads that yield all that is asked for take 64 KiB each, so a source of n bytes takes ceil(n/65536) chunks |
| Download.ReadFileChunk | agent/internal/filesystem/fs.go:121-172 | a non-empty true section of the file, clamped to the request and the end, or an error exactly if the file cannot be opened, the offset is outside it, or nothing can be read |
| Download.HandleGetFile | agent/internal/server/handlers.go:154-206 | the reply is a true section with size, final flag and digest, the whole requested one on a healthy disk; there is none exactly if the file cannot be opened, nothing can be read or the final chunk's digest fails |
| Download.StreamEndsOnce | control-center/backend/transfer/transfer.go:98-149 | a sequence of replies completes a file at one point only |
| Download.StreamIsOneFile | control-center/backend/transfer/transfer.go:98-149 | what makes replies one complete file, chunk by chunk: consecutive offsets, at most 64 KiB each, one total that they add up to, the last and only the last final, with the digest of them all |
| Download.Receive | control-center/backend/transfer/transfer.go:96-149 | for any agent, the loop accepts exactly complete verified streams and stops within the advertised size |
| Download.Download | control-center/backend/transfer/transfer.go:65-164 | success exactly if the replies are one complete file and nothing local fails; then the destination is their concatenation; otherwise the disk is unchanged; at most max(1, advertised total) requests |
| Download.HonestStream | agent/internal/server/handlers.go:175-205 | the agent's replies for an unchanging file are one complete file: that file, in max(1, ceil(n/65536)) chunks |
| Download.DownloadFromAgent | control-center/backend/transfer/transfer.go:65-164 | both sides together copy the file exactly, with exactly that many requests, unless cancelled or failing locally |
| AgentConnection.AgentConnection.CheckReconnect | control-center/backend/client/client.go:260-265 | the check of the current generation, of closing and of cancellation that the pumps and reconnects of the model decide by; `Redial` says over runs what it lets through |
| AgentConnection.AgentConnection.InstallGeneration | control-center/backend/client/client.go:194-207 | installs and returns what it replaces, or changes nothing once closed or cancelled |
| AgentConnection.AgentConnection.MarkAsDisconnected | control-center/backend/client/client.go:209-215 | disconnects only if the generation is current |
| AgentConnection.AgentConnection.UpdateLastSeen | control-center/backend/client/client.go:217-223 | touched by the current generation only |
| AgentConnection.AgentConnection.UpdateAgentInfo | control-center/backend/client/client.go:225-240 | non-empty fields are taken over, from the current generation of an open agent only |
| AgentConnection.AgentConnection.UpdateSystemInfo | control-center/backend/client/client.go:242-258 | likewise, together with the system information |
| AgentConnection.AgentConnection.MarkStopped | control-center/backend/client/client.go:267-274 | closed and disconnected; returns the last generation |
| Generations.ReactHandsOver | control-center/backend/client/client.go:726-797 | every step of a pump or reconnect hands the agent to at most one successor serving the current generation |
| Generations.StepKeepsInv | control-center/backend/client/client.go:194-280 | single flight, chains and fences survive every step of every thread |
| Generations.SingleFlightAlways | control-center/backend/client/client.go:726-937 | in every interleaving: at most one looping pump or reconnect per agent; connected agents are open; no pump of a connected agent's current generation is past its mark |
| Generations.InstallReplacesTheFailed | control-center/backend/client/client.go:917-925 | an install happens after a dial, replaces exactly the generation whose failure started the reconnect, and extends one increasing chain |
| Generations.StopIsFinal | control-center/backend/client/client.go:267-280 | once closed, an agent stays closed and disconnected; once closed or cancelled, it never gets another generation |
| Generations.CurrentIsLive | control-center/backend/client/client.go:167-174 | in every interleaving, a generation offered for sending belongs to an open agent, ends its chain, is served by whatever is active, and has no pump past its mark |
| Generations.SupersededPumpIsHarmless | control-center/backend/client/client.go:726-797 | once its generation is replaced, in the rest of any run a pump has left its loop and nothing it does changes any agent |
| Generations.UniqueUnlessClash | control-center/backend/client/client.go:353-374 | along every run connected agents keep distinct endpoints if and only if no reconnect installs, and no connect inserts, on a taken endpoint |
| Generations.OnlyInstallsClash | control-center/backend/client/client.go:194-207 | they stay distinct in every run in which no install takes a connected agent's endpoint or overtakes a connect that has already looked |
| Generations.TwoAgentsForOneEndpoint | control-center/backend/client/client.go:862-933 | a run that ends with two connected agents for one endpoint |
| Generations.ConnectCanBeOvertaken | control-center/backend/client/client.go:356-373 | a run in which a connect inserts on a taken endpoint, although it looked |
| Redial.FailureRedials | control-center/backend/client/client.go:749-758 | in every interleaving, a pump that failed to read starts a reconnect for its generation if and only if its agent is neither closed nor cancelled and the manager is not closing |
| Redial.ReconnectGoesOn | control-center/backend/client/client.go:862-889 | likewise a reconnect goes on to wait, and after each wait to dial, if and only if so |
| Redial.HaltedIsNotRedialled | control-center/backend/client/client.go:862-889 | once an agent is closed or cancelled or the manager is closing, in the rest of any run no reconnect starts for it, and none comes to dial or install any more |
| Redial.AtMostFiveDials | control-center/backend/client/client.go:875-936 | in every run, a reconnect fails at most five times, and gives up exactly then |
| Redial.WhyReconnectsEnd | control-center/backend/client/client.go:862-937 | in every interleaving, a reconnect ends by installing, with unusable options, because its agent is halted, or after five failed attempts |
| Redial.LostConnectionIsRestored | control-center/backend/client/client.go:726-933 | from every reachable state, an agent whose connection is lost and that can be reached is connected again over a new generation with its own pump, at the end of its chain |
| Redial.UnreachableAgentIsGivenUp | control-center/backend/client/client.go:875-936 | from every reachable state, one that cannot be reached is dialled five times, and is then disconnected with nothing active for it |
| Redial.DisconnectHalts | control-center/backend/client/client.go:512-530 | from every reachable state, disconnecting leaves the agent unlisted, closed, cancelled and without a generation to send over, and nothing else changed |
| Redial.PumpEnds | control-center/backend/client/client.go:727-731 | a pump that left its loop disconnects the agent exactly if its generation is still the current one, and is finished |
| Redial.CancelledThreadsStop | control-center/backend/client/client.go:737-745 | once cancelled, a reading pump leaves its loop without a reconnect and a waiting reconnect is over |
| Redial.UndisturbedPumpReadsOn | control-center/backend/client/client.go:735-759 | in every run, a pump leaves its loop only after a failed read or because its agent is halted |
| Redial.ReadFromMeansConnected | control-center/backend/client/client.go:167-174 | in every interleaving, an open agent with a pump in its loop can be sent to, over that pump's generation, and a closed one cannot |
| Redial.MessageUpdates | control-center/backend/client/client.go:217-258 | in every interleaving, a message changes the last-seen time of its own agent, and unless that is closed each field that it fills in |
| Redial.ConnectAdds | control-center/backend/client/client.go:353-377 | from every reachable state, a connect to an endpoint without a connected agent adds one, connected, listed and read from, or nothing once the manager is closing |
| Redial.ConnectFinds | control-center/backend/client/client.go:356-367 | one that finds a connected agent with its endpoint changes nothing |
| Redial.NoAgentsAfterClosing | control-center/backend/client/client.go:658-683 | once the manager is closing, no run adds an agent |
| Correlation.PendingExactly | control-center/backend/client/client.go:570-579 | in every interleaving, until the manager closes, exactly the requests that have not returned are pending |
| Correlation.LateReplyIsForwarded | control-center/backend/client/client.go:574-579 | once a request returned, in the rest of any run its answer stays, and further messages with its ID go to the callback and touch no request |
| Correlation.FirstResponseWins | control-center/backend/client/client.go:782-788 | in every run, once a response is put for a caller that waits with an empty channel, the caller can take it at any time and returns exactly that one; later ones are dropped |
| Correlation.ResponseIsReturned | control-center/backend/client/client.go:776-790 | from every reachable state before closing, a response received for such a caller can become what it returns, and the callback does not see it |
| Correlation.OutcomeIsReturned | control-center/backend/client/client.go:586-596 | a caller that stops waiting for another reason returns that reason and no answer, in the rest of any run |
| Correlation.ClosingForgetsAll | control-center/backend/client/client.go:670-676 | after the manager closed, whatever is received for an earlier request goes to the callback, in the rest of any run |
| Correlation.PendingTable.Matches | control-center/backend/client/client.go:776-795 | a message is a response exactly if it has an awaited ID |
| Correlation.StepKeepsInv | control-center/backend/client/client.go:550-597 | every received message is in one place only, and a request's places hold only its own ID |
| Correlation.AnswersMatch | control-center/backend/client/client.go:550-597 | in every interleaving, a returned response carries the request's ID and went neither to the callback nor to another request; a returned request is no longer pending |
| Correlation.HeldWasReceived | control-center/backend/client/client.go:747-790 | whatever a request or the callback holds was received by a read pump |
| Exchange.StepKeepsSingle | control-center/backend/client/client.go:555-583 | every step of either end keeps each request in one place: on its way, read, or owed a reply |
| Exchange.HandledOnce | agent/internal/server/server.go:300-317 | in every interleaving of both ends, no two replies owed by any agents are for the same request |
| Exchange.SiteSays | control-center/backend/client/client.go:555-583 | every step of either end keeps what a request says as its caller sent it, until it is owed what its handler replies to that |
| Exchange.AnswerIsItsHandlersReply | control-center/backend/client/client.go:550-597 | in every interleaving of both ends, an answered request was handled once, as its caller sent it, and its answer is exactly the reply decided there |
| Exchange.RequestIsAnswered | control-center/backend/client/client.go:550-597 | from every reachable state of both ends, a request sent over a connection at rest can be answered, with the kind of reply its body, the login and the handler call for |
| Exchange.MessagesAreTakenInOrder | control-center/backend/client/client.go:747-768 | in every run, each message of a connection is taken once, in the order written |
| IpGuard.Guard.AdmitConnection | agent/internal/server/ipguard.go:55-68 | refuses for a block first, then for too many slots, else takes a slot |
| IpGuard.Guard.ReleaseConnection | agent/internal/server/ipguard.go:71-79 | gives one slot back and drops the entry at the last |
| IpGuard.Guard.RecordFailure | agent/internal/server/ipguard.go:83-100 | prunes, counts within the window, and trips at the limit |
| IpGuard.Guard.RecordSuccess | agent/internal/server/ipguard.go:103-107 | forgets the address's failures |
| IpGuard.Guard.PruneLocked | agent/internal/server/ipguard.go:111-120 | the loop drops exactly the stale records, and only from a large map |
| GuardHistory.PruningIsInvisible | agent/internal/server/ipguard.go:109-120 | after every run, the guard with and without pruning answers every admission alike |
| GuardHistory.BlockedIffActiveTrip | agent/internal/server/ipguard.go:83-100 | given fitting limits, an address is blocked at t if and only if an uncancelled trip's block still lasts at t |
| GuardHistory.BlocksExactlyWhenFitting | agent/internal/server/ipguard.go:12-20 | that equivalence holds for all histories exactly when the block fits the window |
| GuardHistory.TripMeansFailures | agent/internal/server/ipguard.go:90-99 | a trip ends a series of maxFailures failures within one window |
| GuardHistory.EnoughFailuresTrip | agent/internal/server/ipguard.go:90-99 | after a success or at first, maxFailures failures within one window always trip, and block the address for exactly the block's length |
| GuardHistory.TwentyFailuresTrip | agent/internal/server/ipguard.go:9-21 | with the shipped limits: twenty failures within a minute block for a minute |
| GuardHistory.PruningBounds | agent/internal/server/ipguard.go:109-120 | recording a failure among fewer than 1024 records drops none; among more it keeps exactly the others that are blocked or failed within the window |
| GuardHistory.QuietIntervalIsShort | agent/internal/server/ipguard.go:90-99 | an interval of one window's length without trip or success holds at most 2 * (maxFailures - 1) failures |
| GuardHistory.RecordsPerAddress | agent/internal/server/ipguard.go:83-107 | in every run each address's record depends on its own failures and successes only |
| GuardHistory.RefusedIffActiveTrip | agent/internal/server/ipguard.go:53-120 | the guard as it runs refuses an address for failures if and only if a trip of that address is in force |
| Admission.RegisteredIffRoom | agent/internal/server/server.go:226-235 | in every reachable state a connection gets into the table if and only if there is room, and keeps its slot accounted for either way |
| Admission.LeavingFreesOneSlot | agent/internal/server/server.go:237-253 | in every reachable state a leaving connection is still in the table, and leaving frees exactly one slot of its address and no other's |
| Admission.ArrivalTakesOneSlot | agent/internal/server/server.go:173-207 | an address let in holds one slot more, which it gives back if the upgrade fails or the table is full |
| Admission.FailedReadEnds | agent/internal/server/server.go:279-296 | from every reachable state, a connection whose read fails leaves the table and gives its slot back |
| Admission.MessageIsHandled | agent/internal/server/server.go:291-326 | from every reachable state, a connection reads on after any message it handled, unless that was its fifth wrong token |
| Admission.ClosedReadsNothing | agent/internal/server/server.go:291-299 | once closed, a connection reads no message in the rest of any run |
| Admission.StepKeepsInv | agent/internal/server/server.go:173-253 | slots, table and attempts stay accounted for in every step |
| Admission.ReachableInv | agent/internal/server/server.go:173-327 | in every reachable state: active counts equal the connections between admission and release and never exceed maxActive, no zero entries, at most MaxClients clients, at most MaxAuthAttempts wrong tokens per connection |
| Admission.AdmissionIsExact | agent/internal/server/ipguard.go:55-68 | in every reachable state an address is let in if and only if it is not blocked and has a connection to spare |
| Admission.GuardFollowsTokens | agent/internal/server/handlers.go:70-86 | in every run, the guard inside the server is the one made by exactly the wrong and right tokens handled, the admissions and the releases |
| Admission.AdmittedAsTokensSay | agent/internal/server/ipguard.go:55-68 | in every run, under fitting limits, an address is refused for failures if and only if the tokens handled for it leave a trip in force, and let in if and only if not and it has a connection to spare |
| Admission.RunSpends | agent/internal/server/handlers.go:70-82 | while an address is held, its wrong tokens are paid from the attempts its live connections have left |
| Admission.BlockedAddressHasBoundedBudget | agent/internal/server/handlers.go:70-82 | in every run, from the wrong token that completes a trip in the history of tokens until its block ends, without a login, fewer than maxActive * MaxAuthAttempts further wrong tokens of that address are processed |
| AgentLink.Client.Greet | agent/internal/server/server.go:209-223 | the accept handler sends the greeting and then starts the pumps, in atomic steps of the connection |
| AgentLink.Client.ServeOne | agent/internal/server/server.go:291-317 | one turn of the read pump reads the request, decides its answer, sends what was decided and returns |
| AgentLink.Client.WritePumpTurn | agent/internal/server/server.go:349-373 | one turn of the write pump, step by step: it writes the oldest message unless that fails, or pushes if authenticated, or stops; it ends exactly when it saw the connection done or a write failed, and then has closed it |
| AgentLink.Client.WriteNext | agent/internal/server/server.go:360-365 | the oldest queued message is written, unless the write fails or the socket is closed |
| AgentLink.Client.SendMsg | agent/internal/server/server.go:413-432 | queues, or drops once done, or closes a full connection |
| AgentLink.Client.PushSystemUpdate | agent/internal/server/server.go:376-394 | queues or skips, and never closes |
| AgentLink.Client.HandleAuth | agent/internal/server/handlers.go:57-96 | the authentication handler decides and sends what it decided, in atomic steps of the connection |
| AgentLink.Client.HandleMessage | agent/internal/server/handlers.go:18-54 | so does the handler of every message, and then it returns |
| AgentLink.HandlerOwesOne | agent/internal/server/handlers.go:18-54 | every handler sends exactly one message with its request's ID, a keep-alive none |
| AgentLink.ReplyTable | agent/internal/server/handlers.go:18-96 | the replies to each kind of request, in order, and whom it lets in: an operation gets a result exactly if it succeeds on an authenticated connection |
| AgentLink.WhatCloses | agent/internal/server/server.go:422-431 | an open connection is done exactly by a message for which 64 are queued, a failed write, a close from outside, or the end of the fifth wrong token's handler |
| AgentLink.WhatSendingQueues | agent/internal/server/server.go:422-432 | a message is queued if there is room and dropped if not; once the connection is done it may be dropped anyway |
| AgentLink.ClosedSocketIsSilent | agent/internal/server/server.go:291-299 | once the socket is closed, no message is read or written in the rest of any run |
| AgentLink.RequestIsHandled | agent/internal/server/server.go:291-326 | from every state of an open connection with room in its queue, the read pump can read a request, handle it and read on, with the replies queued |
| AgentLink.FifthWrongTokenCloses | agent/internal/server/handlers.go:70-81 | in every run of an agent with a token, a connection that has received five wrong tokens and is not handling one is done |
| AgentLink.QueueGetsWritten | agent/internal/server/server.go:358-365 | from every state with a running write pump and a live socket, the pump can write all that is queued, in order |
| AgentLink.NoReplyLost | agent/internal/server/server.go:349-432 | in every run, while the connection is open, written, in-flight and queued replies are exactly those of the handled requests, in order, whatever pushes are queued or skipped |
| AgentLink.RepliesAreOwed | agent/internal/server/handlers.go:18-54 | in every run, closed connections included, whatever is sent with a request's ID is the reply its handler decided |
| Handshake.StepKeepsAuth | agent/internal/server/handlers.go:18-96 | authentication is never withdrawn; operations run, and anything but errors and the demand for a token is sent, only when authenticated |
| Handshake.AuthOnlyByToken | agent/internal/server/handlers.go:30-96 | in token mode, being authenticated, being welcomed or having run an operation implies an earlier correct token on this connection |
| Handshake.NothingWithoutToken | agent/internal/server/handlers.go:30-96 | in every run of an agent with a token, a connection that is authenticated, ran an operation, or was sent a result, an update, a welcome or the agent's details, has received a correct token |
| Handshake.Handshake | control-center/backend/client/client.go:448-509 | succeeds exactly on an anonymous greeting, or on auth_required with a token and then auth_ok after only agent_info messages |
| Handshake.HandshakeMeansAuthed | control-center/backend/client/client.go:448-509 | in every interleaving, a successful handshake means that the agent has authenticated this connection |
| Handshake.StageAlways | agent/internal/server/server.go:349-394 | in every run with one correct token, what precedes its reply is the demand for it and the updates that overtook the reply |
| Handshake.HandshakeExactly | agent/internal/server/handlers.go:84-92 | in every run with one correct token whose reply arrived: the handshake succeeds if and only if the demand arrived first and no update overtook the reply |
| Handshake.AnonymousIsLetIn | agent/internal/server/server.go:217-220 | in every run of an agent without a token, an open connection's first message lets the control center in |
| Handshake.CorrectTokenCanBeTurnedAway | agent/internal/server/handlers.go:84-92 | a run in which an update overtakes the reply and a correct token is turned away |
| Paging.ListDir | agent/internal/filesystem/fs.go:55-117 | the page is the readable entries of the clamped range, with the true total and the next offset; an error exactly for a negative offset or a directory that cannot be read |
| Paging.ReadableKeeps | agent/internal/filesystem/fs.go:93-106 | exactly the entries whose details can be read are kept, as often as they occur |
| Paging.ListDirPages | control-center/app.go:540-568 | for any agent: at most 12 requests, continuing exactly while pages advance below the limit; all their entries in order |
| Paging.OffsetsIncrease | control-center/app.go:558-562 | the requested offsets strictly increase, whatever the agent answers |
| Paging.ListFromAgent | control-center/app.go:540-568 | both sides together list the readable ones of a prefix; with all readable, exactly the first min(N, 5000) entries, Total N, HasMore iff N > 5000, in exactly as many requests as that has pages |
| Sessions.RestoringKeepsTheToken | control-center/backend/session/session.go:368-398 | restoring keeps the logical session, returns its token and leaves no plain text, or fails and still keeps it |
| Sessions.RestoringSucceedsExactly | control-center/backend/session/session.go:368-398 | restoring succeeds exactly if the token can be unprotected or protected and a row that holds plain text can be updated |
| Sessions.SessionManager.Save | control-center/backend/session/session.go:174-229 | in the map from endpoints to sessions, exactly this endpoint's entry is set, keeping its creation time |
| Sessions.SessionManager.RestoreToken | control-center/backend/session/session.go:368-398 | changes only the row's token columns, and no logical session |
| Sessions.SessionManager.LoadById | control-center/backend/session/session.go:343-366 | the row's session with its logical token, leaving no plain text, or nothing |
| Sessions.SessionManager.LoadByHost | control-center/backend/session/session.go:311-340 | what the map says about the endpoint; nothing exactly if it has no entry, an error exactly if its token cannot be restored |
| Sessions.SessionManager.LoadAll | control-center/backend/session/session.go:254-308 | every session with its logical token and no plain text left; or a failure midway that changes no logical session |
| Sessions.SessionManager.Delete | control-center/backend/session/session.go:232-251 | removes exactly that session from the map |
| Sessions.SaveThenLoad | control-center/backend/session/session.go:174-340 | a saved session is loaded back with its token and connection options, the first creation time and the last connection time |
| AuditFile.Logger.Rotate | agent/internal/audit/audit.go:120-127 | one previous generation is kept |
| AuditFile.Logger.Log | agent/internal/audit/audit.go:89-117 | appends, rotating first when the line would not fit; the size field equals the file's size |
| AuditFile.RetainsARecentSuffix | agent/internal/audit/audit.go:87-127 | in every run whose reopens succeed, both files are a suffix of all lines ever logged, all of it or more than maxSize bytes; the current file stays within maxSize or is one line |
| AuditFile.FilesAreBounded | agent/internal/audit/audit.go:15-17 | with renames succeeding, neither file ever exceeds the larger of maxSize and the longest line |
| AuditFile.NothingAfterFailedReopen | agent/internal/audit/audit.go:102-117 | after a rotation whose reopen fails, no further line is logged and what was kept stays |
| AuditRing.Logger.Log | control-center/backend/audit/audit.go:141-190 | with a successful insert, appends one row and the same entry, dropping the oldest at capacity |
| AuditRing.Logger.TurnAround | control-center/backend/audit/audit.go:240-242 | the two-index loop reverses the slice in place |
| AuditRing.Logger.GetRecentFromDB | control-center/backend/audit/audit.go:215-244 | the last rows, oldest first |
| AuditRing.Logger.GetRecent | control-center/backend/audit/audit.go:193-213 | the last entries of the chosen source, up to the clamped limit |
| AuditRing.Logger.Clear | control-center/backend/audit/audit.go:268-277 | empties both |
| AuditRing.RingFollowsTable | control-center/backend/audit/audit.go:141-190 | in every run, the rows are the events since the last Clear with strictly increasing IDs, and memory holds the last of them that fit |
| AuditRing.NumbersGoOn | control-center/backend/audit/audit.go:141-190 | in every run, events are numbered one after the other, and clearing reuses no number |
| AuditRing.BothPathsAgree | control-center/backend/audit/audit.go:193-264 | in every run, memory and database give the same last min(limit, capacity, n) entries, in order |

## Left out

- Path cleaning and traversal checks, and the file-mode and parent-directory checks before a transfer starts.
- AtomicUpload.AgentDisk.CancelAtomicUpload: does not model a failing removal and its error, because removals are taken to succeed throughout.
- Removing a file is taken to succeed, and the agent is not stopped in the middle of a chunk: a crash could leave a temporary file behind.
- A chunk of a closed connection that is still being handled while a later connection delivers the cancel message: messages are ordered over the whole transfer.
- Go's saturation of time differences after 292 years.
- AtomicUpload.AgentDisk.WriteAtomicUploadChunk: the error texts of refusals are not modelled, only the refusal.
- Sessions.SessionManager.Save: does not state the returned row ID, which depends on the driver when a row is replaced.
- Sessions.SessionManager.LoadAll: takes the order of the rows as a parameter instead of sorting by last connection, and a closed database is not modelled.
- AuditRing.Logger.Log: models successful inserts only; after a failed insert a fallback ID can coincide with a later row's.
- AuditRing.RingFollowsTable: starts from an empty table; entries already stored when the logger opens are only in the database path.
- AuditFile.Logger.Log: short and failing writes, and the truncation of long details, are not modelled.
- AgentLink.NoReplyLost: marshalling a reply is taken to succeed.
- Admission.ReachableInv: models an agent with a token configured; message contents other than the token's correctness are not modelled.
- The heartbeat, which only writes keep-alive messages, and the bounded wait for a pump after a disconnect.
- WebSocket framing, TLS, discovery, JSON encoding, command execution, screenshots, system metrics, the user interface, scripts and backups.
- The choice between an existing connection and an error when connecting to a taken endpoint with other options: neither changes the state.
