# Crew services: a verified model

Crew services pass messages between agent sessions, keep discussion boards that
several sites share through a repository, and run code reviews with reused
workers. This project models the parts whose correctness is hard to see in any
one function and proves what they promise over every input, every run and every
interleaving.

| file | models |
|---|---|
| `Delivery.dfy`, `Activation.dfy` | the delivery ledger and the claim, begin, insert, settle protocol the three drivers share |
| `DshDriver.dfy`, `CodexDriver.dfy`, `ClaudeDriver.dfy` | each driver's own dispatch on that protocol |
| `Transcript.dfy`, `DispatchRecords.dfy` | the resumable transcript scan, and the dispatch records its passes keep |
| `BoardStore.dfy`, `BoardReceipts.dfy` | the board index and its transactions; receipts that make writes exactly-once |
| `BoardFiles.dfy`, `BoardWrites.dfy` | the files a shared board's writes become; local operations and pulled files |
| `BoardOperations.dfy`, `BoardPulled.dfy` | what each local operation and each pulled file does, in terms of what was asked or signed |
| `BoardAuthority.dfy`, `BoardPurges.dfy` | by whose right each row changes; what a purge leaves |
| `BoardHistory.dfy`, `BoardSync.dfy`, `BoardSites.dfy`, `SettleExample.dfy` | what every write keeps, the absorbed reindex, and two sites' copies staying in agreement, for one write and for runs of turns |
| `BoardDeltas.dfy`, `BoardCrossing.dfy`, `BoardConvergence.dfy` | what crossing writes add, why their order does not matter, and two sites that write at the same time converging |
| `BoardNotices.dfy`, `NoticeOutcomes.dfy` | who hears about a post, and how one notice is sent and what becomes of it |
| `ReviewOutbox.dfy` | the review notice outbox |
| `WorkerPool.dfy`, `WorkerBindings.dfy` | ownership of review workers; which worker serves which task and workspace |
| `Rpc.dfy`, `RpcCalls.dfy` | the JSON-RPC client's channels; what becomes of each call |
| `WebSocket.dfy`, `Connections.dfy` | WebSocket framing; what a whole connection leads to |
| `Format.dfy`, `Ids.dfy`, `CodeRanges.dfy`, `BackwardScan.dfy` | repo paths and frontmatter; IDs; Markdown code ranges and folds; the backward chunked scan |
| `Wrappers.dfy` | what the others share |

## How to read it

Protocols are state machines. A step is one hold of a mutex, one request reaching
the ledger, one answer, or one crash; a run is any sequence of such steps, so the
theorems quantify over every interleaving. Each machine has an invariant, a lemma
that every step keeps it, and theorems that read off the invariant what a user of
the system relies on. Loops of the source are methods with loops, proved against a
specification function or an outright property; objects whose fields the source
updates are classes.

What is not code of this system is a parameter or an arbitrary choice of a run:
the clock, new IDs and random bytes, directory look-ups, what a host or the
fabric answers and when a late request lands, JSON (any codec that reads back what
it prints), regular-expression matches (any ordered, disjoint matches of the
pattern's shape), and text rules such as trimming. A pulled file names a network the
site is configured for.

The delivery drivers rely on their hosts for what the source says they rely on,
and the model assumes no more. DSH: a refusal, or a call that never left, has no
effect; an unclear answer that is not a timeout is decided by the end of the
reconcile wait (internal/dshdriver/config.go:27-31); a look after the wait tells
what the session holds. Codex: a refused request has no effect
(internal/codexadapter/session.go:136-138) and a steer enters only the turn it
names. Claude Code: it shows a message in its transcript only after the message was
handed over; a post may be lost, late or refused. No host is
assumed to deduplicate. Claims carry distinct operation IDs, as they hold a
nanosecond clock reading.

## Where the obvious claim is false

- A body loses one trailing newline in a printed and parsed file; the theorem
  (`Format.ParsePrinted`) says exactly that, and agreement between sites
  (`BoardSync.SameText`) is up to one trailing newline.
- A settle's target is trimmed by the writer and not by the reader, and the link
  pattern lets pass some spaces that trimming takes, such as a vertical tab. So the
  reader ignores the file exactly when the untrimmed target is no link, and takes it
  as another link otherwise. `BoardSync.SettleCommutesIff` proves that the copies
  still agree exactly when there is nothing to trim, or both links are there already;
  `SettleExample.SettlesPart` gives rules, rows and targets for all three.
- Writes that cross do not converge when both rename a thread: each site ends with
  the other's title (`BoardConvergence.RenamesCross`). Opens, replies, edits,
  retractions and acknowledgements do (`BoardConvergence.SitesConverge`).
- A file once accepted need not be replayed without error: if it names a post of
  another thread it is passed over, and once that thread is purged replaying it
  fails in the store and ends the pull. `BoardHistory.FailsIffStray` gives the exact
  condition and `BoardHistory.StrayReplayFails` how it comes about. It never changes a row.
- A signed ID is checked only by how it begins: `BoardWrites.OwnIsMadeIff` proves
  that an ID a site made passes for another signer's exactly when the maker's name
  goes on from the signer's with a hyphen.
- A notice's text is stored before it is submitted unless a purge of the post comes
  between reading the notice and storing its text: storing to a purged row is a
  silent success. `BoardNotices.PurgeCanOutrunStoring` gives the run and
  `BoardNotices.SubmitsAfterStoring` the exact condition, on the run.
- The Codex driver recognises only the literal policy `no_wake`:
  `CodexDriver.QueuedIffNotLiteralNoWake` proves that a message can end in Codex's
  own queue exactly when its policy is not that literal. The one other name for it,
  `never_wake`, is no longer handed out: the ledger rewrites it on acceptance
  (internal/service/service.go:239) and its table admits only the three current names
  (internal/sqlite/migrations/008_activation_policies.sql:23).
- A fragmented binary WebSocket message is handled like text:
  `WebSocket.MessagesArriveInOrder` says what the handler gets of any messages,
  `WebSocket.BinaryIsHandledIffFragmented` that it gets the text messages alone exactly
  when no binary message came in pieces, and `WebSocket.PiecesOfBinaryAreHandled` is one
  that did.
- The list of an edit's notices may name a participant twice, exactly when someone
  who hears is mentioned twice (`BoardNotices.MentionNoticesOnce`). Nobody is told twice
  by it: the notices table has one row for a post and a participant, and
  `BoardNotices.OneNoticeEach` proves that over any posts and edits.
- The backward scan of an empty file reads no line, although an empty file has one
  empty line: `BackwardScan.EmptyFileHasOneUnreadLine`.

## Model

| member | source | states |
|---|---|---|
| Ids.EncodeDigits | internal/board/ids.go:28-43 | the streaming loop emits exactly 26 Crockford digits whose base-32 value is the 128-bit number, although its 64-bit accumulator wraps |
| Ids.NewId | internal/board/ids.go:15-44 | an ID is the site, a hyphen and the 26 digits of the number spelled by the millisecond and the random bytes |
| Ids.DigitsInjective | internal/board/ids.go:28-43 | equal values of equally long digit strings come from equal digits |
| Ids.IdDeterminesSiteAndNumber | internal/board/ids.go:15-44 | one ID comes from one site and one number, even for sites whose names hold hyphens |
| Ids.NumberDeterminesBits | internal/board/ids.go:15-27 | one number comes from one time and one set of random bytes |
| Ids.IdsSortByNumber | internal/board/ids.go:15-44 | IDs of one site sort as text exactly as their numbers do |
| Ids.IdsSortByTime | internal/board/ids.go:15-27 | an ID made in an earlier millisecond sorts before every one made later at that site |
| Ids.IdMatchesPattern | internal/board/format.go:160-160 | every ID of a well-named site matches the repo's ID pattern |
| BackwardScan.LinesAreTheText | internal/crewcli/model.go:23-61 | the lines of a text, joined, are the text, and none holds a newline |
| BackwardScan.LinesPrepend | internal/crewcli/model.go:44-52 | putting a chunk before a text joins the chunk's last piece and the text's first line |
| BackwardScan.LastModel | internal/crewcli/model.go:23-61 | for every non-empty file, chunk size and extractor, the chunked backward read returns the extractor's value on the last line where it is not empty |
| BackwardScan.EmptyFileHasOneUnreadLine | internal/crewcli/model.go:38-38 | the one empty line of an empty file is what the scan leaves unread |
| Transcript.ScanFromIsOneScan | internal/claudedriver/transcript.go:51-92 | reading line by line finds what one look at all complete lines finds, up to the first that shows the message |
| Transcript.ScanTranscript | internal/claudedriver/transcript.go:51-92 | the scan loop returns that, reading again from the start when the file shrank |
| Transcript.ResumeIsOneScan | internal/claudedriver/transcript.go:51-92 | a scan resumed at the offset an earlier one stopped at, after the file has grown, finds with it what one scan of the grown file finds |
| Transcript.ResumedPassesAreOneScan | internal/claudedriver/transcript.go:51-92 | so do any number of passes over an append-only transcript |
| DispatchRecords.StepKeepsInv | internal/claudedriver/driver.go:683-784 | every step of pump passes, hook passes, saves and crashes keeps the invariant |
| DispatchRecords.EvidenceIsNeverLost | internal/claudedriver/driver.go:683-784 | in every run no stored offset, in memory or on disk, lies past a line that shows the message unless the record says inserted, and reading on from it finds the message exactly when reading the whole transcript does; an acknowledgement, and a record that says inserted, rest on a complete such line begun after the hand-over |
| DispatchRecords.ReadsWhatIsShown | internal/claudedriver/transcript.go:51-92 | a pass that reads says inserted exactly if a complete line shows the message, and stops after the first that does |
| DispatchRecords.PassesLearnWhatIsShown | internal/claudedriver/driver.go:683-784 | what it read it writes back, to memory and, if it can be saved, to disk; only a record dropped meanwhile stays dropped |
| DispatchRecords.AcknowledgedWhenAccepted | internal/claudedriver/driver.go:683-784 | the message counts as acknowledged exactly once an acknowledgement was accepted, and a restart has what the disk had |
| WebSocket.MaskUndone | internal/codexadapter/daemon.go:148-177 | masking twice with one key gives the payload back |
| WebSocket.WriteFrame | internal/codexadapter/daemon.go:148-177 | what is written is the masked final frame of the payload in its shortest length form |
| WebSocket.ReadsWhatWasWritten | internal/codexadapter/daemon.go:216-257 | reading any well-formed frame back returns its fin bit, opcode and payload and leaves the bytes after it, for all three length forms and every mask |
| WebSocket.TakeFrame | internal/codexadapter/daemon.go:216-257 | the reader, with its two length reads and its unmasking in place, reads that frame, or says it is too large or cut short |
| WebSocket.ReadMessages | internal/codexadapter/daemon.go:181-214 | the read loop handles, answers and stops as the frames of its input say, also when a pong cannot be written |
| WebSocket.FramesParseBack | internal/codexadapter/daemon.go:216-257 | the bytes of any frames parse back into those frames |
| WebSocket.MessagesArriveInOrder | internal/codexadapter/daemon.go:181-214 | for any text and binary messages under any fragmentation and masking with pings and pongs between, within the size limit, the handler gets exactly the text messages and the binary messages of more than one frame, in order, and every ping is answered (RFC 6455, sections 5.2 to 5.4) |
| WebSocket.BinaryIsHandledIffFragmented | internal/codexadapter/daemon.go:204-206 | the handler gets the text messages alone exactly when no binary message came in more than one frame |
| WebSocket.PiecesOfBinaryAreHandled | internal/codexadapter/daemon.go:204-206 | a binary message in two frames is handled |
| Connections.ConnectionsAreReadUpTo | internal/codexadapter/daemon.go:181-214 | every connection's bytes are read up to the first frame that ends the reading, a close, an unknown opcode, a message grown too large or a pong that cannot be written, and everything before it, and only that, is handled and answered in order |
| Connections.FramesThenCut | internal/codexadapter/daemon.go:216-257 | wherever the bytes break off after any frames, those frames are read, and then a frame too large if its head is there, else the end |
| Connections.BrokenConnectionsAreReadUpTo | internal/codexadapter/daemon.go:181-257 | so any frames in any order, broken off anywhere, are read up to the first that ends the reading |
| CodeRanges.SplitFences | internal/board/render.go:113-138 | one pass over the lines finds the fenced blocks, each from a line that opens a fence to the first that closes it, and the prose with where each byte came from |
| CodeRanges.CloserIsFirst | internal/board/render.go:124-126 | a block ends at the first later line whose mark is the same, at least as long, and followed by nothing but blanks |
| CodeRanges.FencesOrdered | internal/board/render.go:113-138 | the blocks are ordered, disjoint and in bounds, and each starts with a space, backtick or tilde |
| CodeRanges.ProseIsOutsideFences | internal/board/render.go:127-131 | the prose is exactly the bytes outside the blocks, in order |
| CodeRanges.InlineSpans | internal/board/render.go:139-170 | inline spans are ordered and disjoint, each pairs a run of backticks with the next run of the same length, and every run outside them has no later run of its length |
| CodeRanges.FindCodeRanges | internal/board/render.go:113-171 | the ranges are the blocks and the spans' images in the body |
| CodeRanges.CodeRangesInBounds | internal/board/render.go:113-171 | every range is in bounds; blocks, and spans, are ordered and disjoint in the body |
| CodeRanges.Mask | internal/board/render.go:82-90 | masking blanks exactly the `<` bytes inside code |
| CodeRanges.MatchTexts | internal/board/render.go:94-99 | what the fold is given: the section and its groups, a group that did not match as the empty string |
| CodeRanges.ReplaceFolds | internal/board/render.go:82-107 | the result is the body with each matched section replaced |
| CodeRanges.FoldsKeepOutOfCode | internal/board/render.go:79-107 | no replaced fold starts inside code, and none has any byte of its closing tag there |
| CodeRanges.WritingBackIsIdentity | internal/board/render.go:92-106 | a fold that writes its section back leaves the body as it was |
| CodeRanges.OutsideIsKept | internal/board/render.go:92-106 | every byte outside the replaced sections comes through unchanged |
| CodeRanges.OutsideKeepsOrder | internal/board/render.go:92-106 | and two such bytes keep their order |
| Format.BoardPathReadsBack | internal/board/format.go:28-28 | a path is read as a board's exactly when it is the path built for that valid name |
| Format.ThreadPathReadsBack | internal/board/format.go:30-32 | the same for a thread's path |
| Format.EventPathReadsBack | internal/board/format.go:42-44 | the same for an event's path |
| Format.BlobPathReadsBack | internal/board/format.go:46-48 | the same for a blob's path |
| Format.PostPathReadsBack | internal/board/format.go:34-40 | a post's path is read back with its board, thread, ID and revision, for every revision from 1 to the largest int |
| Format.PostPathsOnly | internal/board/format.go:170-191 | a path is read as a post's revision exactly when it is in the posts directory of a valid board and thread and its name is the ID alone, for revision 1, or the ID, .r and digits that read as the revision |
| Format.DecimalReadsBack | internal/board/format.go:37-37 | a revision number printed in decimal reads back as itself |
| Format.ParsePrinted | internal/board/format.go:100-129 | parsing a printed file gives back its head and its body less one trailing newline, for every body, also with lines of three dashes |
| Delivery.StepKeepsInv | internal/sqlite/delivery.go:106-433 | every claim, lost answer, release, late request, expiry, cancellation, lease loss, seat change, late insert, crash and stuck settlement keeps the protocol's invariant |
| Delivery.BeginKeeps | internal/sqlite/delivery.go:326-330 | recording a dispatch keeps it |
| Delivery.PutKeeps | internal/fabricclient/client.go:132-149 | a dispatch that knows nothing went in may insert, and the invariant holds |
| Delivery.PutLateKeeps | internal/fabricclient/client.go:132-149 | or send something whose fate is open |
| Delivery.SettleKeeps | internal/fabricclient/client.go:258-271 | requeueing or failing when nothing went in or can, acknowledging what the session holds, and giving up keep it |
| Delivery.Safety | internal/sqlite/delivery.go:356-433 | under the invariant the message is in at most once, counting what may still land; a delivered row means the session the claim resolved to holds it; a queued, claimed, failed, expired or cancelled row means no session holds it or will |
| Delivery.RequeuedIsAbsent | internal/sqlite/delivery.go:391-433 | a row goes from dispatching back to the queue only when no session holds the message or ever will from what was sent |
| Delivery.RequestsMoveTheRowOnce | internal/sqlite/delivery.go:301-433 | a request moves the row exactly when it comes in time, to where it asks; a second copy changes nothing, nor does any request once the row has ended |
| Activation.ClaimsExactly | internal/sqlite/delivery.go:256-299 | which action a claim gets, for every policy name, set of capabilities and availability |
| DshDriver.NextKeepsInv | internal/dshdriver/driver.go:598-647 | every step of the send, wait, look loop keeps the invariant |
| DshDriver.InsertedAtMostOnce | internal/dshdriver/driver.go:543-688 | in every run the message enters at most once; delivered means held; queued or failed means absent for good |
| DshDriver.ResendsOnlyWhenAbsent | internal/dshdriver/driver.go:590-647 | a message is about to be sent again only when the session does not hold it and nothing sent can still land |
| DshDriver.NoWakeIsInjected | internal/dshdriver/driver.go:515-602 | a message goes in by inject exactly when its policy is no_wake or never_wake, and is steered exactly when it is next_step |
| DshDriver.DispatchesSettle | internal/dshdriver/driver.go:598-688 | in every run, told by the events: a dispatch gives up as unknown exactly on a cut wait, an unreadable look, or a message seen absent after a timeout or a second unclear failure; a first unclear one seen absent is sent again; a refusal seen absent is requeued, not-found fails, and what is accepted or seen is acknowledged |
| DshDriver.OthersAsk | internal/dshdriver/driver.go:720-761 | a dispatch left in flight is acknowledged if it is seen and else given up, and a claim let go is released |
| CodexDriver.NextKeepsCore | internal/codexadapter/driver.go:673-815 | every step of steering, queueing, looking, resuming and acknowledging keeps the invariant |
| CodexDriver.InsertedAtMostOnce | internal/codexadapter/driver.go:673-955 | in every run the message enters Codex at most once; delivered means held; queued means absent for good |
| CodexDriver.NoWakeOnlySteers | internal/codexadapter/driver.go:673-861 | a no_wake message goes in only by a steer into the turn active as it goes in; it is in no native queue, so nothing a resume starts is it, and its dispatch never resumes a thread |
| CodexDriver.QueuedIffNotLiteralNoWake | internal/codexadapter/driver.go:704-724 | a message can end in the native queue exactly when its policy is not the literal no_wake |
| CodexDriver.DispatchesEnd | internal/codexadapter/driver.go:673-825 | in every run, told by the events and the claim's action: which steps end a dispatch and how, a refused one seen absent being requeued and any other given up, and what it goes on to otherwise, a wake_then_deliver resuming its thread before it is acknowledged |
| CodexDriver.OthersAsk | internal/codexadapter/driver.go:892-931 | a dispatch left in flight is acknowledged if it is seen and else given up, and a claim let go is released |
| ClaudeDriver.NextKeepsInv | internal/claudedriver/driver.go:488-895 | every step of the pump and of the hooks keeps the invariant |
| ClaudeDriver.InsertedAtMostOnce | internal/claudedriver/driver.go:488-567 | in every run the message enters at most once and delivered means held |
| ClaudeDriver.NeverRequeued | internal/claudedriver/driver.go:683-771 | a begun dispatch never goes back to the queue |
| ClaudeDriver.PolicyIsKept | internal/claudedriver/driver.go:569-614 | a no_wake message is only ever hook context, a next_turn one only a later post, and a post that may join a turn is a next_step one |
| ClaudeDriver.PostedExactly | internal/claudedriver/driver.go:569-614 | a claimed message is posted as next exactly when it is a next_step one for a busy session, as later exactly when it may start a turn of an idle one, and otherwise waits |
| ClaudeDriver.DispatchesGoIn | internal/claudedriver/driver.go:488-771 | in every run what was recorded goes in once, the way its record says; a later pass acknowledges what the session shows and gives up what it does not; a claim let go is released |
| Rpc.KeyIsInjective | internal/codexadapter/rpc.go:808-820 | identifiers have equal keys exactly when they are equal, number and string apart |
| Rpc.KeyOfIsOwn | internal/codexadapter/rpc.go:277-337 | a turn's key is taken for a thread's exactly when it is that thread's |
| Rpc.StepKeepsInv | internal/codexadapter/rpc.go:278-337 | every request, response, abandonment, wait, completion, forget, handshake and failure keeps the channel invariant |
| Rpc.ChannelsAreNeverMisused | internal/codexadapter/rpc.go:467-859 | in every run no channel is closed twice, written after closing or written while full |
| Rpc.ResponseReachesItsRequest | internal/codexadapter/rpc.go:467-512 | what a caller receives is the response to its own request and to no other, by number and kind of identifier |
| Rpc.CompletionReturnedOnce | internal/codexadapter/rpc.go:278-312 | with one waiter and no cancelling, forgetting or failing, a completion that arrives before or after the wait is returned exactly once |
| Rpc.AppServer.CloseEach | internal/codexadapter/rpc.go:843-850 | the loop closes every channel of a map, each once |
| Rpc.AppServer.Fail | internal/codexadapter/rpc.go:828-859 | failing once closes the unfinished handshake, every request, every waiter and the client itself, each by one close, and drops all it kept; failing again changes nothing; for the maps, channels and flags this is the machine's own Fail step |
| Rpc.AppServer.ForgetThread | internal/codexadapter/rpc.go:313-337 | exactly the thread's own waiters, completions, messages and tool errors go, which is the machine's own ForgetThread step |
| Rpc.ClientIsValid | internal/codexadapter/rpc.go:278-337 | in every run of the machine its client meets what the class's methods ask for |
| Rpc.KeysOfThread | internal/codexadapter/rpc.go:317-321 | one such loop finds exactly the keys of the thread's own turns |
| RpcCalls.RequestsGoOut | internal/codexadapter/rpc.go:467-480 | a request goes out under a number of its own exactly when the client has neither failed nor begun to close; otherwise nothing else changes |
| RpcCalls.RequestsAreAnswered | internal/codexadapter/rpc.go:494-512 | in every run a request still waiting receives the first response with its number once that has been read, and nothing if failure came first; until then it has nothing to receive |
| RpcCalls.NobodyWaitsForNothing | internal/codexadapter/rpc.go:828-859 | once the client has failed nothing is waited for and every caller may stop; what is pending is always a caller's that still waits |
| RpcCalls.WaitsAreGivenUp | internal/codexadapter/rpc.go:304-309 | a wait given up takes the entry under its key and nothing else |
| RpcCalls.OnlyTrackedTurnsAreWaitedFor | internal/codexadapter/rpc.go:278-337 | waiting for a turn of a thread that is not tracked is refused, and no completion is kept but for a tracked thread |
| WorkerPool.RetainUntil | internal/review/service.go:591-599 | a retention lasts at least twelve hours from admission and never shortens one for the same worker and workspace |
| WorkerPool.StepKeepsInv | internal/review/service.go:303-421 | every step of runs, releases, expiry, reclaim and retry keeps the invariant |
| WorkerPool.WorkersAreExclusive | internal/review/service.go:522-672 | in every run a worker in use or retained idle is so for one task alone and has not been released |
| WorkerPool.WorkersAreConserved | internal/review/service.go:522-672 | in every run no worker is released successfully twice, and each acquired one either has one place or is gone |
| WorkerPool.LeavesOnlyByRelease | internal/review/service.go:600-672 | a worker leaves the pool only by the answer to a release call |
| WorkerBindings.WorkersServeTheirWorkspace | internal/review/service.go:522-573 | in every run a review uses a worker that was acquired for its own task while that was acquiring for the very workspace last asked for, and a retained worker is the task's own |
| WorkerBindings.AcquiredForOne | internal/review/service.go:522-573 | a worker is acquired for one task and one workspace |
| WorkerBindings.RequestsAreServed | internal/review/service.go:522-561 | a request uses the idle retained worker exactly if it was acquired for the same workspace, begins its release for any other, acquires one if none is retained, and changes nothing while it is busy |
| WorkerBindings.OldWorkersGoFirst | internal/review/service.go:540-573 | when a task gets a new worker, the release of every worker it had before has been called |
| WorkerBindings.KeptForTwelveHours | internal/review/service.go:591-599 | a retained worker is the newest its task acquired, and expires twelve hours after the latest admission it served |
| WorkerBindings.ReclaimsOnce | internal/review/service.go:561-573 | one request takes a worker from another task at most once |
| WorkerBindings.RunsEnd | internal/review/service.go:522-609 | a run ends exactly when its worker is retained or dropped, or a release or an acquisition it needs fails |
| WorkerPool.Affinities.TakeIdle | internal/review/service.go:574-590 | the loop takes out an idle affinity nearest its expiry, or none when all are busy |
| WorkerPool.Affinities.ReapExpired | internal/review/service.go:610-624 | the loop takes out exactly the idle expired affinities and returns each one's worker once |
| BoardStore.Store.Apply | internal/board/boardsqlite/store.go:134-151 | a write is all of its changes or none |
| BoardStore.ApplyAppend | internal/board/boardsqlite/store.go:134-151 | applying two lists in one go is applying them one after the other |
| BoardReceipts.ApplyIsTheStores | internal/board/boardsqlite/store.go:134-151 | keeping receipts changes nothing else a write does |
| BoardReceipts.ApplyKeepsReceipts | internal/board/boardsqlite/store.go:234-258 | no change removes a receipt or its request; a result only goes with a purge |
| BoardReceipts.RetryChangesNothing | internal/board/service.go:315-372 | in any run, repeating a done request changes nothing and returns the first result or a purged refusal, and reusing its ID for another request changes nothing |
| BoardReceipts.AppliedAtMostOnce | internal/board/service.go:315-372 | no operation ID is ever applied twice |
| BoardReceipts.PurgedStaysPurged | internal/board/boardsqlite/store.go:234-258 | a purged receipt stays purged |
| BoardFiles.BoardReadsBack | internal/board/format.go:131-133 | a board's file is classified and read back, its description less one trailing newline |
| BoardFiles.ThreadReadsBack | internal/board/format.go:135-137 | a thread's file is classified and read back |
| BoardFiles.PostReadsBack | internal/board/format.go:139-141 | a revision's file is classified and read back, its text less one trailing newline |
| BoardFiles.EventReadsBack | internal/board/format.go:143-146 | an event's file is classified and read back |
| BoardWrites.ApplyIsResult | internal/board/boardsqlite/store.go:153-232 | the store takes each write's changes exactly when its keys are free and its parents present, and they leave the stated rows, whether the event comes first or last |
| BoardWrites.ShareChanges | internal/board/shared.go:110-186 | the loop over a write's changes, with its tables of the threads and posts the write adds and its look-up of a board's network, collects the files they mean for a shared board, in order |
| BoardWrites.WriteIsApplied | internal/board/service.go:315-372 | a local operation leaves what the store leaves of its plan's changes, applied in one go |
| BoardWrites.PullIsApplied | internal/board/shared.go:313-599 | and so does a pulled file of its verdict's |
| BoardWrites.OwnIsMadeIff | internal/board/shared.go:510-519 | an ID a site made passes the signer check exactly for that site and for a site whose name, with a hyphen, begins its name; the length tells which |
| BoardOperations.OperationsDoAsAsked | internal/board/service.go:384-662 | every operation, whoever asks, is accepted exactly when what it names is there and is theirs to change and its text is within bounds, and then leaves exactly the rows its own fields say; otherwise it leaves everything as it was |
| BoardOperations.EditAsAsked | internal/board/service.go:541-583 | an edit by the author of a visible post stores the given body and mentions as the next revision and no other row |
| BoardOperations.OpenAsAsked | internal/board/service.go:429-466 | opening a thread adds the thread and its opening post with the given title, body, kind and mentions |
| BoardOperations.ReplyAsAsked | internal/board/service.go:480-530 | a reply adds a post under the given parent, or the opening post, with the given body, kind, urgency and mentions |
| BoardOperations.PurgeAsAsked | internal/board/service.go:644-662 | only a person purges, and the opening post takes its thread |
| BoardOperations.SettleAsAsked | internal/board/curation.go:60-73 | settling into a link adds it once, with its note |
| BoardOperations.AckAsAsked | internal/board/curation.go:128-163 | one mentioned by a decision acknowledges it once |
| BoardPulled.FilesDoAsSigned | internal/board/shared.go:313-599 | every pulled file, whoever signed it, is taken exactly on the stated conditions of what the index holds and who signed, and then leaves exactly the rows the file holds; otherwise it leaves everything as it was |
| BoardPulled.EventAsSigned | internal/board/shared.go:510-599 | the same of each kind of event file |
| BoardAuthority.EveryStepIsByRight | internal/board/shared.go:510-599 | in every run a post is retracted only by its author here or by its own site's event, hidden only by a person here, purged only by a person here or a purge event; new threads, posts and acknowledgements are of the writer's or signer's own site; threads change only by curating or purging |
| BoardPurges.PostIsPurged | internal/board/boardsqlite/store.go:269-290 | purging a post empties its row and all its revisions, and its own events but purges, and no row of another post or thread |
| BoardPurges.ThreadIsPurged | internal/board/boardsqlite/store.go:204-226 | purging the opening post does so to every post of the thread, and takes the thread's title, links and aliases |
| BoardPurges.PurgedIsGone | internal/board/service.go:635-662 | in every run, from a purge on, no revision of the post holds text or mentions and its author and note are gone; of a purged thread, for all its posts, with its title, links and aliases |
| BoardPurges.EmptyIndexHasNothingLeft | internal/board/service.go:635-662 | every index that began empty is such a run |
| BoardHistory.PlanIsSound | internal/board/service.go:384-662 | a local operation adds first revisions of its own site, and revises or withdraws only visible posts |
| BoardHistory.VerdictIsSound | internal/board/shared.go:335-599 | so does every pulled file that is taken |
| BoardHistory.EffectGrows | internal/board/service.go:429-662 | such a write keeps the index in order and only grows it |
| BoardHistory.RunGrows | internal/board/shared.go:313-599 | over any interleaving of local writes and pulled files the index stays in order and only grows |
| BoardHistory.PostHistory | internal/board/service.go:541-720 | a post's revisions are exactly 1 to n with revision n current, none is overwritten, its site never changes, its author only goes with a purge, and once not visible it never is again |
| BoardHistory.OnlyItsAuthorRevises | internal/board/shared.go:393-466 | a later revision comes only from its author's edit here or from a file its own site signed, and only while the post is visible |
| BoardHistory.AcceptedIsAbsorbed | internal/board/shared.go:313-599 | a file accepted in causal order leaves the index holding what it adds, or overtaken by a purge or withdrawal |
| BoardHistory.AbsorbedStays | internal/board/shared.go:313-599 | and it stays so however the index grows |
| BoardHistory.AbsorbedIsInert | internal/board/shared.go:292-599 | such a file commits no write and changes no row |
| BoardHistory.FailsIffStray | internal/board/shared.go:393-434 | replaying it is an error of the store exactly when it is a first revision for a thread the index has and its post is in another, purged thread |
| BoardHistory.StrayReplayFails | internal/board/shared.go:393-434 | so a file that was accepted fails once the other thread is purged |
| BoardHistory.ReindexChangesNothing | internal/board/shared.go:307-312 | at any point of any run, re-applying any files accepted so far, in any order, commits no write and changes no row, and a replay fails exactly for a stray file |
| BoardSync.EffectAgrees | internal/board/shared.go:110-186 | a write and its mirror at the other site leave agreeing copies agreeing on threads, posts, revisions, events and acknowledgements |
| BoardSync.PostIsTaken | internal/board/shared.go:393-434 | the file of a new post is taken as that post |
| BoardSync.RevisionIsTaken | internal/board/shared.go:435-466 | the file of an edit is taken as that revision |
| BoardSync.ThreadIsTaken | internal/board/shared.go:372-391 | the file of a new thread is taken as that thread |
| BoardSync.EventIsJudged | internal/board/shared.go:510-531 | a new event file of the signer's comes down to judging its event |
| BoardSync.OpenOpCommutes | internal/board/service.go:429-466 | opening a thread, shared and pulled, leaves the copies agreeing |
| BoardSync.ReplyOpCommutes | internal/board/service.go:480-530 | so does a reply |
| BoardSync.EditOpCommutes | internal/board/service.go:541-583 | so does an edit |
| BoardSync.RetractOpCommutes | internal/board/service.go:595-612 | so does a retraction |
| BoardSync.PurgeOpCommutes | internal/board/service.go:644-662 | so does a purge, of any site's post |
| BoardSync.CurateOpCommutes | internal/board/curation.go:35-109 | so does a rename, a close, or a settle whose target means the same trimmed and as given |
| BoardSync.AckOpCommutes | internal/board/curation.go:128-163 | so does an acknowledgement |
| BoardSync.CopiesStayInAgreement | internal/board/shared.go:110-186 | if two sites' copies of a shared board agree, any of these operations at one, shared as files and pulled at the other, has every file taken and leaves them agreeing, text up to one trailing newline, exactly unless it is a settle whose target does not mean the same trimmed and as given |
| BoardSync.SettleCommutesIff | internal/board/shared.go:556-565 | a settle's file is ignored exactly when its target as given is no link, and the copies agree afterwards exactly when there is nothing to trim or the target is a link and the thread has it and the trimmed one already |
| SettleExample.SettlesPart | internal/board/curation.go:19-73 | with a link pattern and a trimming like the code's, a target with a space before it is ignored, one with a vertical tab after it is taken and parts the copies, and does no harm where both links are |
| BoardSync.NewBoardAgrees | internal/board/shared.go:335-352 | a board newly shared and pulled starts in agreement |
| BoardSync.NamesKept | internal/board/service.go:217-221 | writes keep board names and IDs within the repo's patterns |
| BoardSync.PlanIsWellNamed | internal/board/service.go:384-530 | a local operation with this site's own new IDs adds only such names |
| BoardSync.VerdictIsWellNamed | internal/board/shared.go:313-333 | so does every pulled file that is taken, since its path was classified |
| BoardSites.ExchangeKeeps | internal/board/shared.go:110-186 | a write at one site, refused or shared and pulled by the other, has every file taken and keeps both indexes in order, well named and in agreement |
| BoardSites.SitesStayInStep | internal/board/shared.go:313-333 | two sites taking turns, in any order and for any number of writes, take every file of each other's and agree after every turn |
| BoardSites.BoardIsOneFromItsMaking | internal/board/shared.go:335-352 | so the copies are in order and agree from the board's own file on, whatever else the two indexes held before |
| BoardSites.FromNothing | internal/board/shared.go:335-352 | and two sites with empty indexes can begin so |
| BoardDeltas.StillResult | internal/board/boardsqlite/store.go:153-232 | activity times aside, an open, reply, edit, retraction or acknowledgement adds exactly its own rows |
| BoardCrossing.Delivered | internal/board/shared.go:313-599 | the file of such a write is taken wherever the write can be sent, and adds what the write does |
| BoardCrossing.AfterOther | internal/board/shared.go:313-599 | a write of one site can still be sent after a write of the other's, and its file and rows are the same |
| BoardCrossing.WritesCross | internal/board/shared.go:313-599 | the order of two writes of two sites does not matter |
| BoardConvergence.OwnWritePasses | internal/board/shared.go:313-599 | a site's own write passes all of the other's that are under way to it |
| BoardConvergence.OneWrites | internal/board/shared.go:110-186 | a write at one site keeps what is under way takeable and the copies agreeing once it is taken |
| BoardConvergence.OtherPulls | internal/board/shared.go:313-333 | so does pulling the next file, which is never refused |
| BoardConvergence.SitesConverge | internal/board/shared.go:307-333 | two sites that open, reply, edit, retract and acknowledge as they like, pulling each other's files when they come to it, never refuse a file, and at every moment pulling what is still under way leaves the copies in order and agreeing; with nothing under way they may also take turns with any shared operation |
| BoardConvergence.RenamesCross | internal/board/shared.go:567-579 | after two renames of one thread that cross, the copies agree on its title exactly when both asked for the same |
| BoardNotices.StepKeepsInv | internal/board/notices.go:324-472 | every read, composition, store, submission, record, crash and purge keeps the invariant |
| BoardNotices.MaterialIsFrozen | internal/board/notices.go:387-472 | in every run all submissions of one notice carry the same operation ID, recipient, policy and text, and an idempotent receiver's accepted material is that |
| BoardNotices.SubmitsAfterStoring | internal/board/notices.go:398-411 | a submission was made ready by the storing or the reuse of its text, with only purges after, and follows the durable storing of that text exactly when that step was not the storing of an already purged row |
| BoardNotices.PurgeCanOutrunStoring | internal/board/notices.go:398-411 | a run in which a purge comes between and the text goes out unstored |
| BoardNotices.Collect | internal/board/notices.go:35-59 | each participant called is kept once, with the strongest of its reasons |
| BoardNotices.NoticesFor | internal/board/notices.go:30-69 | exactly the participants called who are of this site and not the author hear, once each, for the strongest reason |
| BoardNotices.MentionNoticesOnce | internal/board/notices.go:71-80 | the list of an edit's notices names each participant once exactly when no one who hears is mentioned twice |
| BoardNotices.MentionedHears | internal/board/notices.go:71-80 | an edit's notices go to exactly those mentioned who hear |
| BoardNotices.InsertsOnce | internal/board/boardsqlite/store.go:176-182 | inserting a list of notices adds one for each participant named who has none of that post, and keeps the rows there |
| BoardNotices.OneNoticeEach | internal/board/service.go:541-580 | over any posts and edits a participant has at most one notice of a post, has one exactly if the post or a revision called them and they hear, and keeps it as it is |
| NoticeOutcomes.RowsSayWhatHappened | internal/board/notices.go:324-472 | in every run a notice's row says exactly what the latest recorded answer said, keeps exactly the text that was stored, and is cleared by a purge for good |
| NoticeOutcomes.SubmissionsAreAdded | internal/board/notices.go:387-472 | each submission sends the text the pass read or composed, and nothing else is sent; the first to reach the receiver is what it took |
| NoticeOutcomes.NewEntriesAreExplained | internal/board/notices.go:30-80 | every notice a post adds is for the strongest reason it called its recipient, and every one an edit adds is for a mention new in it |
| ReviewOutbox.MovesAtMostOnce | internal/review/submission_sqlite.go:317-393 | whatever passes do, a notice keeps its text, moves to its fallback at most once, goes to its first recipient or that fallback, and once sent or abandoned stays so |
| ReviewOutbox.NoticesMoveAtMostOnce | internal/review/notice.go:131-231 | so over any passes on the table: each notice's row is what the marks put on it make, and moves at most once |
| ReviewOutbox.ListedRowIsHeld | internal/review/notice.go:140-145 | a notice listed at the start of a pass is handled by the row the table still has for it |
| ReviewOutbox.DenTaskReadsBack | internal/review/notice.go:284-300 | every task's recipient is read back as that task, whatever slashes its project holds |
| ReviewOutbox.NoticeRetryDelay | internal/review/notice.go:233-241 | the backoff is the base doubled once an attempt, held at the cap |
| ReviewOutbox.DelayNeverShrinks | internal/review/notice.go:233-241 | more failed attempts never wait less |
| ReviewOutbox.PutOff | internal/review/notice.go:210-222 | a notice is put off by the backoff and never past its expiry |
| ReviewOutbox.Outbox.Handle | internal/review/notice.go:145-227 | a notice past its expiry is abandoned unsent, any other that can be sent is tried, and it is marked for what the answer was: accepted, sent; rejected, abandoned; unreachable, moved to another fallback or put off by the backoff up to its expiry; a failing Den note, put off likewise; a failing fabric, put behind the others |
| ReviewOutbox.Outbox.SendNotices | internal/review/notice.go:124-230 | a pass goes past every unreachable recipient and failing Den note, ends early only on a store, context or fabric failure, and leaves the table with exactly its marks |

## Left out

- Attachments, media and blobs: external decoders and files; bodies are modelled without blob references.
- The notice, subscription and outbox tables of the board store: a write's notices and files are part of its transaction, so they exist only if it commits, which is what the theorems about commits say; which notices a write makes is modelled apart in `BoardNotices`.
- BoardSync.CopiesStayInAgreement: leaves out hides, which are never shared and after which a copy ignores remote revisions, and compares neither last-activity times, sync marks nor event notes, which each site keeps for itself.
- BoardConvergence.SitesConverge: a purge, settle, rename or close is made only with nothing under way; those that cross other writes are settled by the order of pulling at each site and need not agree. Two sites are modelled, not more, and each pulls the other's files in the order they were written.
- BoardNotices.OneNoticeEach: is about posts written and edited at this site; a pulled post goes through the same two lists, but makes no notice when it is history.
- BoardHistory.ReindexChangesNothing: covers files accepted after what they refer to; an event for a thread the site does not have yet is passed over without a trace and is applied by a later reindex.
- Reading pages, search, digests and open acknowledgements of the board: queries over the same tables.
- The git syncer and commit signatures: a pulled file arrives with the signer the syncer checked.
- WorkerPool.WorkersAreExclusive: does not cover shutting the service down, which releases retained workers even while a run borrows one.
- WorkerPool.StepKeepsInv: takes retaining a worker and clearing its busy mark, two holds of the mutex in the source, as one step, and runs of one task as not overlapping.
- Rpc.CompletionReturnedOnce: the completion's collected last message and tool error, server requests and dynamic tools are not modelled.
- Delivery.StepKeepsInv: adapter leases and claim deadlines are not timed; a request may be refused, and a claim may expire, at any step.
- DshDriver.InsertedAtMostOnce: the event window a look reads is taken to be long enough to show a message that was taken in.
- The prompt, message and notice wording, image rendering, and the outer loops that pick sessions and pages.
- The fabric server beyond one delivery's row, the human notifier's routes, the development server, command lines and HTTP handlers: wiring around the parts above.
