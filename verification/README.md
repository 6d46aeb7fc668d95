# clast, modelled and proved in Dafny

clast keeps a durable journal of coding-agent sessions: it sweeps several harnesses for sessions, copies what
changed, lets a person curate the copies, and reads them back for day-by-day summaries. This project models the
parts of clast whose correctness the code states in prose and enforces with loops and shared state, and proves
those statements for all inputs and all runs.

Code that changes things step by step is modelled by classes and methods with loops, each proved equal to a
function of its input or old state; what clast promises is then proved about that function, or about whole
histories of such steps.

## The parts

- **The amp catch-up protocol** (`Clock`, `AmpServer`, `AmpEnumerate`, `AmpCompleteness`, `AmpReplies`,
  `AmpDiscover`, `AmpCheckpoint`, `AmpSweeps`, `AmpLoss`, `AmpOverlap`, `AmpCaches`, `AmpRecapture`, `AmpExport`). The server is an
  oracle that may change any thread between two calls and silently stops at 100 rows. The checkpoint is a file
  rewritten only by atomic updates.
- **Streaming capture and the offline readers** (`Lines`, `ClaudeScan`, `ParentWalk`, `PiEntries`, `PiScan`,
  `PiReader`, `Devin`, `DevinTranscript`, `DevinVoices`, `ToolPairing`, `StepViews`, `BlockReading`, `BlockVoices`,
  `Transcripts`). Any chunking equals a fold over lines; capture and reader count the same conversation; tool results
  are conserved; and a transcript says, kind by kind, exactly what its records do.
- **Identities** (`Ulid`): the ULID specification's sections "Monotonicity", "Encoding" and "Binary Layout and Byte
  Order".
- **The settings splice** (`Splice`): an edit and its inverse on an ordered JSON tree (RFC 8259, sections 4 and 5).
- **Two journal state machines** (`Journal`, `Curation`, `Registry`, `RegistryEffects`).
- **The retro document** (`Retro`), **the summary pool** (`Summarize`) and **the streaming reply reader** (`Sse`;
  the WHATWG HTML standard, section 9.2.6, "Interpreting an event stream").

## Where the code and its comments part

- `internal/source/amp/scanstate.go:52-78` promises that the floor advances only over coverage that is committed or
  recoverably queued. A dirty window holds the floor at its first midnight, and the next sweep drops rows stamped
  at or before the floor (`internal/source/amp/discover.go:383`), so a thread stamped exactly then is seen by
  neither. `AmpSweeps.NoThreadLostWhileTheFileStands` proves the promise for every stamp where no floor was held so,
  and `AmpLoss.LostExactlyAtMidnight` that each midnight, and nothing else, can be such a stamp.
- The same promise fails at other stamps when sweeps overlap, since a settle checks only the settling run's own
  revision, and when the file is lost during a scan, which `internal/source/amp/scanstate.go:446-448` takes in its
  stride. `AmpOverlap.LossNeedsOverlapOrTearing` proves these two the only causes.
- `internal/source/amp/capture.go:92-114` says committed truth is never replaced by a worse read. The veto compares
  with the journal as walked at the sweep's start, so of two overlapping sweeps the later can write an older
  revision over a newer: `AmpOverlap.GoingBackNeedsOverlap`, `Curation.VettedGoesBackOnlyInOverlap`.
- `internal/verbs/capture/capture.go:329-338` says a backfill cannot make a curated session stale. It writes back the
  session as walked, so it can when another sweep overlapped: `Curation.BackfillStalesOnlyInOverlap`.
- `internal/source/pi/scan.go:259-264` says capture and readers can never disagree. They do on a line that is over
  the 16 MiB cap only by its carriage return, which the reader strips before it measures:
  `PiReader.ReaderSeesTheSameEntries`.
- `internal/source/devin/read.go:58-63` says the reader derives the chain as capture does. With repeated node ids
  their links part exactly when an id's last row drops a parent an earlier row had (`Devin.LinksAgreeExactly`), and the
  chains exactly when that happens at the root capture found and leads to a node not on it yet
  (`Devin.ChainsAgreeExactly`).
- `internal/registry/ulid.go:19-23` promises strictly ascending ids; the 80-bit increment wraps without notice:
  `Ulid.NextAfter` gives the exact exception.
- `internal/verbs/initverb/initverb.go:138-162` writes a new project before it resolves the label, so an init
  refused for its label leaves a project behind: `Registry.RefusedInitWrites`, `Registry.RetryMeetsItsOwnProject`.
- `internal/journal/breadcrumbs.go:34-47` says a crumb's file and its day can never disagree. The file is dated on the
  writing machine's clock and the day on the crumb's own, so they agree when the two clocks share a zone;
  `Breadcrumbs.DaysReadAllExactly` says exactly which filing the days' reads rest on.
- `internal/llm/sse.go:32-36` says the stream ends at the done marker. The scanner's error is consulted after it too
  (`internal/llm/sse.go:99-101`), so a complete reply fails when the read that brought the marker came with an error:
  `Sse.AfterTheMarker`.
- The event-stream standard discards an event still open at the end of the body; the code treats it as complete
  (`internal/llm/sse.go:102-107`), and reads a field name with no colon as nothing. The model follows the code.

## Assumptions

- Amp: one clock shared with the server, which stamps a change strictly after every earlier reading; any change of
  a thread, its archived and pinned facets included, moves its stamp forward; stamps lie at or after the start of
  2025, where an initial enumeration begins; a page below the cap shows every matching thread, and a readable row
  never lies. Each update of the checkpoint is one atomic step.
- Amp caches: a thread's environment is fixed at its creation, and its export never shrinks.
- JSON, RFC 3339, URLs and SHA-256 are function parameters. The pi theorems assume of JSON only that a trailing
  carriage return is white space and that what decodes is valid, and that both of pi's decoders accept the same
  lines.
- Identities: milliseconds below 2^48 and entropy available. Minted ids are assumed unused in `Registry`.
- A cancelled call is a failed call.

## Checking it

`dafny verify dfyconfig.toml`, with Dafny 4.11.

## Model

| member | source | states |
|---|---|---|
| `AmpCompleteness.EnumerationComplete` | internal/source/amp/discover.go:202-278 | Despite the silent 100-row cap and other threads changing between any two searches, a thread that stands still, stamped in [from, through) above MinTime and before any dirty window, ends up found at its exact revision. |
| `AmpCompleteness.FoundExactlyAboveMinTime` | internal/source/amp/discover.go:365-396 | For such a thread outside the pending lane, found at its revision if and only if stamped strictly above MinTime: a stamp equal to MinTime is dropped. |
| `AmpCompleteness.FoundIsReal` | internal/source/amp/discover.go:202-278 | Nothing is invented: every found revision was on some page, and lies above MinTime unless its id was pending. |
| `AmpCompleteness.GoneIsAbsent` | internal/source/amp/discover.go:401-422 | An id reported gone was pending and was absent from the server at one of the calls. |
| `AmpReplies.PendingIsAnswered` | internal/source/amp/discover.go:234-263 | Every pending id is found, or gone, or its lookup came back with rows none of which could be read; one that stands still is found at its own stamp, and one that is nowhere is gone, unless its page was so. |
| `AmpReplies.DirtyIsBroken` | internal/source/amp/discover.go:287-337 | Coverage is reported broken only from the start of a window some call broke: unreadable rows, or a full page of at most a day with both facets asked. |
| `AmpReplies.EndsForCause` | internal/source/amp/discover.go:202-278 | An enumeration breaks only with the last search's failure or a cancelled list, is quietly absent only when the very first command cannot be spawned, and otherwise completes. |
| `AmpReplies.ListedIsFoundOrQueued` | internal/source/amp/discover.go:424-504 | A list below its cap queues an id exactly when it shows it, enumeration did not find it, and the floor does not rule it out: no floor, a listed stamp above it, or no commit at or below it; any other list queues nothing. |
| `AmpCompleteness.DirtyInRange` | internal/source/amp/discover.go:170-174 | Broken coverage always starts at a UTC midnight inside the scanned range. |
| `AmpCompleteness.DayCost` | internal/source/amp/discover.go:287-363 | A day costs at most 7, 3 or 1 searches, by how many facets are still unasked, and the recursion ends. |
| `AmpCompleteness.DaysCost` | internal/source/amp/discover.go:287-337 | A capped stretch of days costs at most 7 searches a day. |
| `AmpCompleteness.WindowCost` | internal/source/amp/discover.go:287-337 | A whole day costs at most 7 searches, n days at most 1 + 7n, a week at most 50. |
| `AmpCompleteness.ScanWindowAccounts` | internal/source/amp/discover.go:287-337 | A window that finishes accounts for every still thread it should contain: found, or at or after a dirty bound. |
| `AmpCompleteness.ScanFacetAccounts` | internal/source/amp/discover.go:340-358 | Splitting a capped day on a facet loses nothing: a thread is in exactly one half. |
| `AmpCompleteness.ScanWindowWitnessed` | internal/source/amp/discover.go:287-337 | Every sink entry a window leaves was there before or stood on a page of the window at that stamp. |
| `AmpDiscover.Scanner.AbsorbRows` | internal/source/amp/discover.go:365-396 | The sink after a page equals the fold of its rows: unreadable rows and rows at or before MinTime skipped, the freshest stamp kept per id. |
| `AmpDiscover.Scanner.TakeFinalPage` | internal/source/amp/discover.go:287-337 | A page that will not be split is absorbed, and marks its window dirty on unreadable rows or at the cap. |
| `AmpDiscover.Scanner.ScanWindow` | internal/source/amp/discover.go:287-337 | The loop over days and the split on facets reach exactly the state the specification reaches, errors included. |
| `AmpDiscover.Scanner.Subdivide` | internal/source/amp/discover.go:340-358 | Both halves of a facet split are scanned, in order, stopping at the first failure. |
| `AmpDiscover.Scanner.LookupId` | internal/source/amp/discover.go:401-422 | One lookup by id, none for an id already found: a clean empty page proves the id gone, anything else is absorbed. What that comes to is `AmpReplies.PendingIsAnswered`. |
| `AmpDiscover.Scanner.Corroborate` | internal/source/amp/discover.go:424-504 | The list cross-check queues exactly the ids listed in the scanned span, fresher than what is committed, that enumeration missed. |
| `AmpDiscover.Scanner.Enumerate` | internal/source/amp/discover.go:202-278 | The week windows, the pending lane and the cross-check compose to the specified outcome; a failed search abandons the scan. |
| `AmpCatchUp.Tomorrow` | internal/source/amp/discover.go:118-150 | The end bound is the UTC midnight after the scan starts, never more than a day away. |
| `AmpCatchUp.Discover` | internal/source/amp/discover.go:118-150 | One discovery: the checkpoint changes only after a complete enumeration, and then exactly as the scan records. |
| `AmpCheckpoint.StateFile.MergePending` | internal/source/amp/scanstate.go:597-684 | The three loops of the merge compute emitted plus (current minus (base and gone)). |
| `AmpCheckpoint.StateFile.RecordScan` | internal/source/amp/scanstate.go:591-685 | The new checkpoint of a scan, whole: phase, floor, pending set, and the caches carried over. |
| `AmpCheckpoint.StepPends` | internal/source/amp/scanstate.go:597-684 | One update leaves pending exactly what it queues and what was pending and it does not drain: of a scan, what it found or queues, and every id pending unless its run had known it and proved it gone. |
| `AmpCheckpoint.PendingExactly` | internal/source/amp/scanstate.go:52-78 | Over every interleaving of any runs, an id is pending if and only if it was pending at the start or was queued by an emission, a corroboration or a note, and no settle, gone-proof of a run that knew it, or overflow reset has drained it since. |
| `AmpCheckpoint.PendingLeavesByWitness` | internal/source/amp/scanstate.go:52-78 | Over every interleaving of any runs, an id leaves the pending set only by a settle, by a gone-proof of a run that had it in its base and did not emit it, or by an overflow reset. |
| `AmpCheckpoint.StepKeepsFloor` | internal/source/amp/scanstate.go:591-685 | No update that does not reset the checkpoint lowers the floor, or loses a verdict or a recorded cap. |
| `AmpCheckpoint.FloorNeverRegresses` | internal/source/amp/scanstate.go:591-685 | Over every interleaving without an overflow reset the floor never goes back. |
| `AmpCheckpoint.UnattributedStoresNoFloor` | internal/source/amp/scanstate.go:591-685 | A scope with no account evidence never comes to hold a floor. |
| `AmpCheckpoint.FloorStaysClean` | internal/source/amp/scanstate.go:618-639 | The floor advances to the first of the scan start, the end bound and the earliest dirty window, and no further; without account evidence it does not move. |
| `AmpCheckpoint.StartsTheDayBefore` | internal/source/amp/discover.go:118-150 | With a floor, a scan starts at the midnight before the floor's own day. |
| `AmpSweeps.StepKeepsInv` | internal/source/amp/scanstate.go:52-78 | Every step of a server, a sweep, a commit, a crash or a lost checkpoint file keeps the invariant tying floor, pending set, journal and sweeps in progress. |
| `AmpSweeps.InvHolds` | internal/source/amp/scanstate.go:52-78 | The invariant holds after every legal history of non-overlapping sweeps. |
| `AmpSweeps.NoThreadLost` | internal/source/amp/scanstate.go:52-78 | Over every such history, the checkpoint file lost at any moment included, a live thread stamped at or below the floor is pending, committed at that revision or later, or terminally settled at it, unless some scan stored a floor held by a dirty window at that very stamp, or wrote the file, after that stamp, leaving the id unanswered. |
| `AmpSweeps.NoThreadLostWhenAnswered` | internal/source/amp/scanstate.go:640-684 | Even with the file lost during a scan, nothing is lost, a held stamp apart, when every scan answers for the pending ids it had read. |
| `AmpSweeps.NoThreadLostWhileTheFileStands` | internal/source/amp/scanstate.go:52-78 | When the file is not lost during a scan, the one exception left is a stamp where a floor was held. |
| `AmpSweeps.HeldAreMidnights` | internal/source/amp/scanstate.go:624-639 | Only a UTC midnight can be such a stamp. |
| `AmpSweeps.ForgottenExactly` | internal/source/amp/scanstate.go:640-684 | Nothing is forgotten if and only if every scan answers for each pending id it had read (found, gone or queued again) or finds it still in the file it rewrites. |
| `AmpSweeps.RecaptureNeverRegresses` | internal/verbs/capture/capture.go:252-269 | Over every history of non-overlapping sweeps, each vetting its exports against the journal as walked at its start, no commit goes back: what stands later is the same or strictly ahead in (stamp, messages, clean), and no shorter. |
| `AmpLoss.MidnightCanBeLost` | internal/source/amp/scanstate.go:624-639 | For any midnight stamp there is a history of three sweeps, with one unreadable search row and a thread list that fails each time, that loses the thread. |
| `AmpLoss.LostWithAWorkingList` | internal/source/amp/discover.go:424-504 | The list need not fail: a thread committed at an older revision is lost likewise when the dirty sweep's list shows it without a readable stamp, the other two lists being correct. |
| `AmpLoss.LossIsHeld` | internal/source/amp/scanstate.go:624-639 | In every history of non-overlapping sweeps over a file that stands, a lost thread is stamped where a dirty window held a stored floor. |
| `AmpLoss.LostExactlyAtMidnight` | internal/source/amp/scanstate.go:624-639 | Some history of non-overlapping sweeps loses a thread stamped u if and only if u is a UTC midnight. |
| `AmpOverlap.OverlapCanLose` | internal/source/amp/capture.go:86-92 | A concrete history in which one sweep settles the old revision of an id another sweep queued at a newer one. |
| `AmpOverlap.TearingCanLose` | internal/source/amp/scanstate.go:444-458 | A concrete history in which the file vanishes during a scan whose lookup of a queued id comes back unreadable: the rewritten file has the floor and not the id. |
| `AmpOverlap.LossNeedsOverlapOrTearing` | internal/source/amp/scanstate.go:434-458 | At a stamp where no floor was held, some history loses a thread if and only if sweeps may overlap or the file may be lost during a scan. |
| `AmpOverlap.GoingBackNeedsOverlap` | internal/verbs/capture/capture.go:200-269 | Some history takes a commit back to an earlier revision if and only if sweeps may overlap: the veto reads the journal as walked at the sweep's start. |
| `AmpRecapture.SupersedesExactly` | internal/source/amp/capture.go:115-136 | A fresh read is accepted exactly when it is strictly ahead, no shorter, and, at the same stamp, repairs a flagged commit. |
| `AmpCaches.Source.CachedVerdict` | internal/source/amp/scanstate.go:486-495 | A verdict hit equals the verdict the fetched document would give, across runs and rescopes. |
| `AmpCaches.Source.RecordVerdict` | internal/source/amp/scanstate.go:503-523 | The verdict is remembered in memory and, below the cap, in the file. |
| `AmpCaches.Source.ExportQuarantined` | internal/source/amp/scanstate.go:529-546 | A quarantine answer of yes means the export exceeds the budget of this run. |
| `AmpCaches.Source.QuarantineExport` | internal/source/amp/scanstate.go:555-575 | The cap is recorded, never lowered, and the id is settled. |
| `AmpCaches.Source.Save` | internal/source/amp/scanstate.go:309-345 | Recorded caps per id only rise between resets. |
| `AmpCaches.Source.ExportOnce` | internal/source/amp/export.go:201-225 | A fetch gives the true document within budget; over budget it records and settles. |
| `AmpCaches.Source.ExportFor` | internal/source/amp/export.go:231-260 | A quarantine refusal spends no call, settles the id, and happens only when the export is over budget. |
| `AmpCaches.Source.Correlate` | internal/source/amp/correlate.go:31-56 | From cache or fetch, the directory is the one the thread's own evidence gives. |
| `AmpCaches.CorrelatesExactly` | internal/source/amp/correlate.go:58-85 | A document binds to its directory exactly when it has an environment, its executor is neither virtual nor a sandbox, the install is this one, and the hostnames, as far as both are known, agree. |
| `AmpExport.Completeness` | internal/source/amp/export.go:131-188 | Clean if and only if non-empty, gap-free, every assistant message complete and an idle agent anchored; flagged if and only if only the agent is mid-turn. |
| `AmpExport.NoGapsIsContiguous` | internal/source/amp/export.go:139-155 | With a non-negative first id, gap-free means the ids run on one by one from the first. |
| `AmpExport.AcquireExport` | internal/source/amp/export.go:269-321 | The first deciding attempt of three is the answer; when none decides, the freshest document is captured with its note; only with no document at all does the last error stand; a pause broken off before any decides is a cancellation, whatever document is in hand. |
| `Lines.CutIsExact` | internal/source/fingerprint.go:27-53 | Cutting a stream into lines loses no byte and leaves no newline in a line. |
| `Lines.CutIsUnique` | internal/source/fingerprint.go:27-53 | It is the only cut with those properties. |
| `Lines.NewlinesCountLines` | internal/source/fingerprint.go:10-17 | Newline bytes, plus one for an unterminated non-empty end, count the lines. |
| `FileTail.FingerprintFile` | internal/source/fingerprint.go:18-54 | For every way of reading a stream in pieces, the line count and hash are the stream's. |
| `FileTail.Unchanged` | internal/verbs/capture/capture.go:186-195 | The sweep reports unchanged exactly when count and hash equal the record. |
| `ClaudeScan.CaptureScan.Write` | internal/source/claude/capture.go:126-145 | After any chunk the observer stands where a line-by-line fold of all bytes so far stands, the 16 MiB cap included. |
| `ClaudeScan.CaptureScan.AppendPartial` | internal/source/claude/capture.go:147-157 | The open line is buffered, or flagged over the cap, however it is cut. |
| `ClaudeScan.CaptureScan.EndLine` | internal/source/claude/capture.go:159-168 | Ending a line folds it in, as a bad line when over the cap. |
| `ClaudeScan.CaptureScan.ScanLine` | internal/source/claude/scan.go:100-145 | One line changes the facts and the seen ids exactly as the counting rules say. |
| `ClaudeScan.CaptureScan.Finish` | internal/source/claude/capture.go:172-176 | After closing an unterminated end, facts and line count are those of all the lines. |
| `ClaudeScan.Capture` | internal/source/claude/capture.go:36-68 | For every chunking: the artifact is the stream, the facts are the fold over its lines, and the fingerprint is the re-reader's. |
| `ClaudeScan.CaptureThenSweep` | internal/verbs/capture/capture.go:186-195 | A sweep over unmodified bytes reports unchanged in any chunking, and, for a hash that tells streams apart, over those bytes only. |
| `ClaudeScan.CountsAreIdentities` | internal/source/claude/scan.go:87-94 | Prompts and replies add up to the distinct ids that spoke plus the entries without an id. |
| `ClaudeScan.CountsByKind` | internal/source/claude/scan.go:119-145 | Users are the entries of kind user, human prompts of the main conversation, that have no id or are the first to speak under theirs; assistants the same for replies. |
| `ClaudeScan.SubstantiveExactly` | internal/source/claude/capture.go:56-60 | A session is substantive if and only if some reply of the main conversation has an id no prompt spoke under before it. |
| `ClaudeScan.CopiedHistoryCountsOnce` | internal/source/claude/scan.go:91-94 | Copied history, repeating entries whose ids already spoke, leaves both counts alone. |
| `ClaudeScan.LastActiveIsLatest` | internal/source/claude/scan.go:84-86 | Liveness is the latest readable timestamp of the main conversation, in whatever order lines stand. |
| `ClaudeScan.FactsOfTheMain` | internal/source/claude/scan.go:100-118 | The directory is the first the main conversation names, the branch the last, the start its first readable time. |
| `ClaudeScan.BadLinesAreCounted` | internal/source/claude/scan.go:100-104 | Bad lines are those over the cap or that do not parse. |
| `ParentWalk.WalkIsTheChain` | internal/source/pi/scan.go:259-279 | The walk ends at a root if and only if a duplicate-free linked path from the head does, and then it is that path, the only one; otherwise it stops at a missing or repeated node. |
| `PiEntries.ParentOf` | internal/source/pi/scan.go:286-294 | A parent is never the empty string. |
| `PiEntries.WalkLeaf` | internal/source/pi/scan.go:265-279 | The loop ends, computes the walk, and returns an empty break exactly when it reached a root. |
| `PiEntries.ConversationIsTheThread` | internal/source/pi/read.go:112-152 | The conversation is the one root-to-leaf thread of last entries when there is one, and the whole file exactly when there is none. |
| `PiEntries.TallyCounts` | internal/source/pi/scan.go:158-187 | Users and assistants number the messages of those roles; substantive if and only if some reply did not fail and holds a block. |
| `PiScan.Scan.Write` | internal/source/pi/scan.go:74-99 | After any chunk the observer stands where a line-by-line fold stands, or has failed with the header gate's own verdict. |
| `PiScan.Scan.Handle` | internal/source/pi/scan.go:137-187 | One line: gate, oversize, blank, torn tail, bad, header again, or entry, as the rules order them. |
| `PiScan.Scan.CheckHeader` | internal/source/pi/scan.go:197-218 | The header gate refuses exactly the lines the reference refuses. |
| `PiScan.GatePassesExactly` | internal/source/pi/scan.go:197-218 | A stream passes the gate if and only if its first line, of a megabyte at most, is a header that carries the id looked for. |
| `PiScan.BadLinesAreCounted` | internal/source/pi/scan.go:137-195 | Bad lines are those over the cap, or that are neither blank nor an entry with an id nor another header; the first is named by its number. |
| `PiScan.ActiveIsLatest` | internal/source/pi/scan.go:137-218 | A session starts when its header says, and was last active at the latest readable time of it or of an entry. |
| `PiScan.Scan.Finish` | internal/source/pi/scan.go:123-133 | After an unterminated end, the state and line count are those of the whole stream. |
| `PiReader.Result` | internal/source/pi/scan.go:230-257 | The counts are those of the conversation, and the reported break is the walk's. |
| `PiReader.Capture` | internal/source/pi/capture.go:26-76 | For every chunking a capture fails exactly when the gate refuses the stream, and otherwise reports the conversation's counts and the stream's fingerprint. |
| `PiReader.ForEachLine` | internal/source/pi/read.go:74-110 | However the buffered reader cuts its pieces, every line is delivered once, as nothing when over the cap. |
| `PiReader.ActiveEntries` | internal/source/pi/read.go:116-152 | The reader returns the conversation of the artifact's entries. |
| `PiReader.EntryAgrees` | internal/source/pi/read.go:74-110 | Capture and reader differ on a line if and only if it is one byte over the cap, by its carriage return, and an entry. |
| `PiReader.ReaderSeesTheSameEntries` | internal/source/pi/read.go:71-152 | Capture and reader see the same entries if and only if no line after the header is an entry that is over the cap by its carriage return alone. |
| `PiReader.CaptureThenRead` | internal/source/pi/scan.go:259-294 | On every stream both sides see alike, a successful capture's counts are those of the entries the reader returns. |
| `Devin.AnalyzeChain` | internal/source/devin/capture.go:120-199 | Counts are those of the walked chain; incomplete if and only if the walk met a missing node or a cycle, which the last diagnostic names. |
| `Devin.CountChain` | internal/source/devin/capture.go:164-196 | The walk ends and counts each node of the chain once. |
| `Devin.CountsAreSpoken` | internal/source/devin/capture.go:140-196 | Users number the chain's places where the user typed, assistants those where an assistant speaks. |
| `Devin.ReadActiveChain` | internal/source/devin/read.go:64-99 | The reader's chain is the reverse of the nodes walked along its own links. |
| `Devin.LinksAgreeExactly` | internal/source/devin/read.go:64-72 | Capture and reader follow the same links if and only if no id's last row drops a parent an earlier row had. |
| `Devin.ChainsAgreeExactly` | internal/source/devin/read.go:64-99 | The reader replays the very chain capture counted unless, and only unless, the node capture takes for its root has, to the reader, a parent that is a node not yet on the chain. |
| `Devin.GoingOnDropsAParent` | internal/source/devin/read.go:64-72 | That happens only where the root's last row drops a parent an earlier row of it had. |
| `DevinTranscript.ReadTranscript` | internal/source/devin/read.go:199-289 | Both passes make exactly the specified events and pairings over shared call objects. |
| `DevinTranscript.OwedVerdictsArePlaced` | internal/source/devin/read.go:268-287 | Each verdict row no message spoke for is placed in exactly one event. |
| `DevinVoices.TranscriptSays` | internal/source/devin/read.go:199-289 | The transcript says, in each kind, exactly what the chain's messages say, in order and once: prompts, replies, thoughts, calls under their ids and names, results (failed also by the last verdict row of their id) and meta events; then the verdicts no message answered with, in row order. |
| `DevinVoices.TranscriptOnward` | internal/source/devin/read.go:214-262 | What earlier messages say comes before what later ones do. |
| `DevinVoices.ThoughtReplyCalls` | internal/source/devin/read.go:226-250 | Of one message, its thought comes first, then its reply, then its calls. |
| `DevinVoices.LastRowStands` | internal/source/devin/read.go:127-159 | A later row of an id replaces an earlier one. |
| `DevinTranscript.CaptureThenRead` | internal/source/devin/read.go:219-224 | The prompts the reader shows number the prompts of its own chain, and the users the capture counted unless the chain goes on for the reader past the root capture found. |
| `ToolPairing.PairedIsFaithful` | internal/source/pi/read.go:275-289 | Folding calls and results pairs a result with a call exactly as the order of the records says. |
| `ToolPairing.ResultsAreConserved` | internal/source/devin/read.go:233-262 | Every result is held by exactly one event: the call it matches, or an orphan exactly when no call matches. |
| `ToolPairing.NothingIsOverwritten` | internal/source/devin/read.go:255-262 | Events stay in place and a result once written is never replaced. |
| `ToolPairing.PromptsAreKept` | internal/source/devin/read.go:219-224 | Every prompt record is one event and stays one. |
| `ToolPairing.Reading.Say` | internal/source/pi/read.go:251-254 | Appends an event and touches no call. |
| `ToolPairing.Reading.Call` | internal/source/pi/read.go:308-313 | Appends a call event, registered under its id unless the id is empty. |
| `ToolPairing.Reading.Answer` | internal/source/pi/read.go:275-289 | Writes the result into the shared open call, or appends an orphan event. |
| `BlockReading.ReadUserBlocks` | internal/source/amp/read.go:221-270 | Runs of text and images flush into prompts around the blocks that end them, in stream order. |
| `BlockVoices.PromptsKeepEverything` | internal/source/claude/read.go:140-171 | The prompts are the runs, and the runs together hold every text and image once and in order. |
| `BlockVoices.UserTurnSays` | internal/source/amp/read.go:221-270 | A user turn says, in each kind in order and once, exactly its runs, amp's hidden text and unknown blocks as one meta event each, and its results; it says nothing of another kind. |
| `BlockVoices.UserTurnOnward` | internal/source/amp/read.go:221-270 | What the first blocks end comes before what later ones do. |
| `BlockReading.JoinedAppend` | internal/source/amp/read.go:225-232 | A prompt's texts join with one newline between two and nothing else. |
| `BlockReading.ReadAssistantBlocks` | internal/source/amp/read.go:276-305 | Assistant blocks become events one to one, calls registered for pairing; which events is `BlockVoices.AssistantTurnSays`. |
| `BlockVoices.AssistantTurnSays` | internal/source/amp/read.go:276-305 | An assistant turn says, in each kind in order and once, exactly its non-empty shown texts as replies, its thoughts, its calls under their ids and names, and for amp hidden text and unknown blocks as one meta event each; it answers nothing. |
| `BlockVoices.AssistantTurnOnward` | internal/source/amp/read.go:276-305 | What earlier blocks say comes before what later ones do. |
| `ClaudeTranscript.ReadTranscript` | internal/source/claude/read.go:75-107 | The reader's events are those of its records, entries repeating an id dropped. |
| `ClaudeTranscript.CopiedTurnsAddNothing` | internal/source/claude/read.go:70-71 | Replaying turns already read adds no event and changes no pairing. |
| `ClaudeTranscript.TranscriptSays` | internal/source/claude/read.go:75-213 | The transcript says, in each kind, exactly what the records read say, in order and once: prompts, replies (plain strings included), thoughts, calls, every result block to the pairing and nothing else, and meta events. |
| `ClaudeTranscript.TranscriptOnward` | internal/source/claude/read.go:75-107 | What earlier lines say comes before what later ones do. |
| `AmpTranscript.ReadTranscript` | internal/source/amp/read.go:133-188 | The document's mode and agent first, then its messages in order, with a model event exactly where an assistant message names a model other than the last one named, then the agent's last state. |
| `AmpTranscript.TranscriptSays` | internal/source/amp/read.go:133-322 | The transcript says, in each kind, exactly what the document does, in order and once: its mode and agent, each message's prompts, replies, thoughts, calls, results and meta events, the model where a message names another than the last named, and the state it stopped in. |
| `AmpTranscript.TranscriptOnward` | internal/source/amp/read.go:140-158 | What earlier messages say comes before what later ones do. |
| `AmpTranscript.ModelComesFirst` | internal/source/amp/read.go:146-154 | The model a message announces comes before what the message says. |
| `PiTranscript.ReadTranscript` | internal/source/pi/read.go:244-297 | From an artifact delivered in any pieces, the reader's events are those of the conversation's entries. |
| `PiTranscript.TranscriptSays` | internal/source/pi/read.go:244-325 | The transcript says, in each kind, exactly what the conversation's entries say, in order and once: prompts, replies, thoughts, calls, every result message to the pairing and nothing else, and meta events, the error of a failed reply among them. |
| `PiTranscript.TranscriptOnward` | internal/source/pi/read.go:244-297 | What earlier entries say comes before what later ones do. |
| `PiTranscript.FailureComesLast` | internal/source/pi/read.go:301-320 | A reply's failure is told after all it said. |
| `Numerals.LessIsNumLess` | internal/registry/ulid.go:19-23 | For digit sequences of one length, lexicographic order is number order and equal numbers are equal digits. |
| `Ulid.BytesAreBits` | internal/registry/ulid.go:86-105 | Bytes and their bits write the same number. |
| `Ulid.EncodeCrockford` | internal/registry/ulid.go:86-105 | The 26 characters spell in base 32 the number the 16 bytes write, prefix by prefix. |
| `Ulid.SpellingKeepsOrder` | internal/registry/ulid.go:19-23 | Texts are equal if and only if the bytes are, and in order if and only if the bytes are. |
| `Ulid.TimestampIsPrefix` | internal/registry/ulid.go:88-90 | The first ten characters spell exactly the first six bytes. |
| `Ulid.CarryAdds` | internal/registry/ulid.go:65-73 | The carry loop adds one to the 80-bit half, or wraps from full to zero. |
| `Ulid.Source.Increment` | internal/registry/ulid.go:65-73 | The random half grows by one, or wraps when it was full. |
| `Ulid.Source.Next` | internal/registry/ulid.go:49-83 | An identity is well shaped, spells timestamp and random half, and exceeds the last unless the clock stood still and the half was full. |
| `Ulid.NextAfter` | internal/registry/ulid.go:49-83 | As strings, an identity sorts after the one before it if and only if it does not wrap. |
| `Ulid.MintAll` | internal/registry/ulid.go:49-83 | One source under any run of clock readings: the last identity and all it mints ascend strictly from end to end if and only if none of them wraps. |
| `Ulid.CrockfordValue` | internal/registry/ulid.go:126-133 | The value of a character is its place in the alphabet, or -1. |
| `Ulid.AlphabetIsCrockfords` | internal/registry/ulid.go:16-17 | The alphabet is the digits and the capital letters but I, L, O and U, 32 in all; `Ulid.AlphabetAscends` says they ascend. |
| `Ulid.AlphabetAscends` | internal/registry/ulid.go:16-17 | A later character of the alphabet is a greater one. |
| `Ulid.IsIdentityShaped` | internal/registry/ulid.go:114-124 | True exactly for 26 characters of the alphabet. |
| `JsonTree.SetKeepsOthers` | internal/harness/claudecode/splice.go:61-74 | Setting a member keeps every other; deleting what was added, or setting back what was, restores the object. |
| `Splice.RoundTripExactly` | internal/harness/claudecode/splice.go:271-302 | Install then remove restores the document, in order, if and only if it has no empty hooks object and no empty SessionStart array. |
| `Splice.RunsTouchOnlyTheShim` | internal/harness/claudecode/splice.go:61-74 | Over any series of installs and removals every other key, group and hook stays in order; the shim is there once or not at all. |
| `Splice.RemovalTakesOneHook` | internal/harness/claudecode/splice.go:254-258 | From any document, a removal takes out the first shim and leaves every other hook in order. |
| `Splice.FindShimEntry` | internal/harness/claudecode/splice.go:360-371 | The nested loops find the first shim, or report none. |
| `Splice.RemoveShimEntry` | internal/harness/claudecode/splice.go:380-410 | One hook goes, and with it each container it leaves empty. |
| `Splice.SettingsFile.WriteBakOnce` | internal/harness/claudecode/splice.go:418-434 | The backup is written once and never overwritten. |
| `Splice.SettingsFile.Splice` | internal/harness/claudecode/splice.go:82-130 | The whole effect on file and backup: missing, malformed, already spliced, spliced. |
| `Splice.SettingsFile.Unsplice` | internal/harness/claudecode/splice.go:310-344 | The whole effect of a removal: missing, malformed, not spliced, unspliced. |
| `Curation.CuratedHasEntry` | internal/verbs/curate/curate.go:40-79 | In every history, crashes included, a curated session has its entry.md and a recorded fingerprint. |
| `Curation.ReservedReasonIsCapturesOwn` | internal/verbs/dismiss/dismiss.go:46-60 | Wherever the auto:no-op reason stands, a sweep wrote it and nothing has touched it since. |
| `Curation.SweepTouchesOnlyItsOwnDismissal` | internal/verbs/capture/capture.go:372-405 | A sweep changes no curation document but its own dismissal, and never entry.md. |
| `Curation.SweepEffect` | internal/verbs/capture/capture.go:200-405 | What a sweep does with one session, case by case: unchanged, project backfilled, unreadable, vetoed, or artifact and session.json replaced by the fresh read, with a session without substance dismissed where nothing was decided and one with substance freed of such a dismissal. |
| `Curation.StaleOnlyByAWrite` | internal/journal/walk.go:52-68 | A curated session is stale only through a write made since its curation with another fingerprint: a recapture, or a backfill by a sweep that another overlapped. |
| `Curation.BackfillStalesOnlyInOverlap` | internal/verbs/capture/capture.go:329-370 | A backfill can turn a curated session stale if and only if sweeps may overlap. |
| `Curation.EntryIsKept` | internal/verbs/curate/curate.go:40-79 | An entry once written stays, and a curated session stays curated. |
| `Curation.VettedFactsNeverRegress` | internal/verbs/capture/capture.go:252-269 | Over all sweeps of a vetting source, none overlapping another, the committed facts never go back, though each is vetted against the walk of its sweep's start. |
| `Curation.VettedGoesBackOnlyInOverlap` | internal/verbs/capture/capture.go:200-269 | A vetted commit can go back if and only if sweeps may overlap. |
| `Curation.Store.CaptureOne` | internal/verbs/capture/capture.go:200-327 | One discovered session against the one walked: unchanged, backfilled, unreadable, vetoed or committed; a veto leaves everything as it stood. |
| `Curation.Store.Run` | internal/verbs/capture/capture.go:95-163 | A whole sweep walks the journal once, and takes every session found of it, in order, against that walk and apart from every other session. |
| `Curation.Store.ApplyAutoDismissal` | internal/verbs/capture/capture.go:383-405 | Dismisses a session without substance, or retracts its own dismissal, and nothing else. |
| `Curation.Store.CurateOne` | internal/verbs/curate/curate.go:40-79 | entry.md then curation.json; the session ends curated and not stale. |
| `Curation.Store.DismissOne` | internal/verbs/dismiss/dismiss.go:46-85 | Refused for the reserved reason, an unknown or a curated session, and otherwise the dismissal is written, and nothing else. |
| `Curation.Store.UndismissOne` | internal/verbs/undismiss/undismiss.go:28-48 | Removes a dismissal and refuses anything else. |
| `Registry.RunsKeep` | internal/verbs/initverb/initverb.go:80-191 | Every run of init, label, adopt and relink keeps one clone per machine and directory, labels unique in a project, and slugs, ids and non-empty remotes unique; and likewise with labels unique only per machine, as merged files have them. |
| `Registry.InitKeeps` | internal/verbs/initverb/initverb.go:80-191 | Init keeps that invariant on every path, refused ones included. |
| `Registry.LabelKeeps` | internal/verbs/registryacts/registryacts.go:41-99 | A relabel keeps it. |
| `Registry.AdoptKeeps` | internal/verbs/registryacts/registryacts.go:101-152 | An adoption keeps it. |
| `Registry.RelinkKeeps` | internal/verbs/registryacts/registryacts.go:154-232 | A relink keeps it. |
| `Registry.MergedFilesStayApart` | internal/verbs/initverb/initverb.go:80-191 | Two machines' clone files with no id in common, come together, keep one clone per machine and directory, labels unique per machine, and ids unique. |
| `Registry.CurrentCloneIsSingle` | internal/verbs/registryacts/registryacts.go:247-257 | A directory on a machine has at most one clone, so the current clone is never ambiguous. |
| `Registry.InitIsIdempotent` | internal/verbs/initverb/initverb.go:110-116 | After an init that registered, init in the same place reports current and writes nothing. |
| `Registry.RefusedInitWrites` | internal/verbs/initverb/initverb.go:131-162 | An init is refused and has yet written if and only if it would make a new project (unregistered directory, resolvable identity no project has, free slug) and names an identity-shaped label; it then leaves exactly that project. |
| `Registry.RetryMeetsItsOwnProject` | internal/verbs/initverb/initverb.go:138-162 | After such a refusal with no remotes, trying again collides with the project it left. |
| `Registry.ShapedLabelsAreDirectoryNames` | internal/verbs/initverb/initverb.go:258-289 | An identity-shaped label can only be a directory name: no flag and no joined fallback gives one. |
| `Registry.SuggestLabel` | internal/registry/label.go:29-42 | A suggestion is free, and there is none only when the last fallback is taken. |
| `Registry.LabelFor` | internal/verbs/initverb/initverb.go:258-289 | A resolved label is never one already taken. |
| `Registry.Journal.Init` | internal/verbs/initverb/initverb.go:80-191 | The effect and answer of init on the journal, whole. |
| `Registry.Journal.Label` | internal/verbs/registryacts/registryacts.go:41-99 | The effect and answer of label, whole. |
| `Registry.Journal.SetLabel` | internal/verbs/registryacts/registryacts.go:90-94 | The loop over the clones file changes that clone's label alone. |
| `Registry.Journal.Adopt` | internal/verbs/registryacts/registryacts.go:101-152 | The effect and answer of adopt, whole. |
| `Registry.Journal.Relink` | internal/verbs/registryacts/registryacts.go:154-232 | The effect and answer of relink, whole. |
| `RegistryEffects.RelinkMoves` | internal/verbs/registryacts/registryacts.go:154-232 | A locator that means exactly one clone of this machine: its row gets this directory and nothing else anywhere changes, and the act is refused if and only if another clone of the machine stands there. |
| `RegistryEffects.RelinkNeedsOne` | internal/verbs/registryacts/registryacts.go:154-212 | A locator that means no clone, or more than one, is refused as such and writes nothing. |
| `RegistryEffects.RelinkIsCurrent` | internal/verbs/registryacts/registryacts.go:154-232 | After a relink that answered an id, the directory's current clone is that one, its id, project and label unchanged; an init there answers current; and where it stood before, if elsewhere, nothing stands. |
| `RegistryEffects.LabelSets` | internal/verbs/registryacts/registryacts.go:41-99 | A relabel writes the label of the clone that stands in the directory and nothing else; refused if and only if the label is shaped like an identity or another clone of the project carries it. |
| `RegistryEffects.AdoptClaims` | internal/verbs/registryacts/registryacts.go:101-152 | An adoption gives the project of the clone that stands there its identity remote, where it has none, and writes nothing else; refused if and only if that remote is missing, cannot be read or is another project's. |
| `RegistryEffects.NoCloneNoAct` | internal/verbs/registryacts/registryacts.go:41-115 | Where no clone stands, label and adopt are refused and write nothing. |
| `RegistryEffects.InitRegisters` | internal/verbs/initverb/initverb.go:80-191 | An init that registers adds exactly one clone, here and under the minted id, to the project the identity remote names or to the one it makes, whose slug and remote no other has. |
| `RegistryEffects.InitLabels` | internal/verbs/initverb/initverb.go:258-289 | The new clone's label is the one asked for, or the directory's name, or where a clone of the project has that, the parent's, or both joined. |
| `RegistryEffects.InitRefusedExactly` | internal/verbs/initverb/initverb.go:110-289 | Where no clone stands, init is refused for nothing but remotes that give no identity, a new slug shaped like an identity or in use, or a label that cannot be had, in that order. |
| `Summarize.StepKeeps` | internal/verbs/retroverb/retroverb.go:116-198 | Every step of dispatcher, workers and cancellation keeps the pool's invariant. |
| `Summarize.RunIsSound` | internal/verbs/retroverb/retroverb.go:116-198 | The invariant holds at every moment of every run. |
| `Summarize.FewAndOnce` | internal/verbs/retroverb/retroverb.go:151-179 | At most four jobs are in flight and no job runs twice. |
| `Summarize.NeverStuck` | internal/verbs/retroverb/retroverb.go:151-189 | Until the call returns, some step other than a cancellation is possible. |
| `Summarize.EveryStepIsProgress` | internal/verbs/retroverb/retroverb.go:151-189 | Every step takes from a bounded amount of work, so every run returns. |
| `Summarize.ReturnIsRight` | internal/verbs/retroverb/retroverb.go:191-197 | Summaries come back only when every job ended well: hits number the ends from the cache and requests the fresh ones, together the jobs, each with its own text under its session unless another job is for the same session; else the first recorded error, or the caller's cancellation. |
| `Breadcrumbs.DayReadIsTheWellFiled` | internal/journal/breadcrumbs.go:156-190 | A day's read is every crumb of that work day filed under it or the next, each as often as written, and nothing else, for any journal and cutoff. |
| `WorkDay.WorkDayIsADayLong` | internal/journal/day.go:86-100 | A reading belongs to a work day if and only if it lies in the 24 hours from that day's cutoff on. |
| `Breadcrumbs.DaysReadAllExactly` | internal/journal/breadcrumbs.go:156-190 | The reads of the days give every crumb of every day if and only if every crumb is filed under its work day or the next. |
| `Breadcrumbs.OwnDateIsWellFiled` | internal/journal/breadcrumbs.go:34-47 | A crumb filed under its own local date is always filed right. |
| `Breadcrumbs.AppendKeepsFiling` | internal/journal/breadcrumbs.go:63-90 | Appending under the crumb's local date keeps all crumbs filed right and adds exactly that one. |
| `Breadcrumbs.Journal.AppendBreadcrumb` | internal/journal/breadcrumbs.go:63-90 | The file of that date and machine gains one last line, the crumb; the file of every other date and machine holds what it held. |
| `Breadcrumbs.ReadBreadcrumbsForDay` | internal/journal/breadcrumbs.go:170-189 | Both files are read and filtered on the work day. |
| `Retro.GatherBreadcrumbs` | internal/verbs/retro/retro.go:138-156 | The window loop ends for a window that starts no later than it ends, with every day read once. |
| `Retro.WindowIsPartitioned` | internal/verbs/retro/retro.go:133-156 | The reads of a window's days give every well-filed crumb of the window once. |
| `Retro.WindowedKeeps` | internal/verbs/retro/retro.go:116-131 | The window keeps the sessions of its days, first and last included, as they came, and no other. |
| `Retro.EntriesKeep` | internal/verbs/retro/retro.go:177-220 | Entries come session by session, one for each that has a readable one. |
| `Retro.BuildGroups` | internal/verbs/retro/retro.go:177-233 | One group per project with a session or a crumb, holding exactly that project's, in order; the groups in ascending order of their slugs. |
| `Retro.AscendingIsUnique` | internal/verbs/retro/retro.go:221-232 | There is one ascending order of the same slugs, whatever order the map gave them in. |
| `Retro.EachInOnePlace` | internal/verbs/retro/retro.go:177-246 | Every session and crumb is in exactly one group, or, for a crumb with no slug, in the global list alone. |
| `Retro.SortedKeeps` | internal/verbs/retro/retro.go:193-212 | The chronological sort reorders, loses nothing, and leaves elements of one instant in the order they came in. |
| `Retro.Run` | internal/verbs/retro/retro.go:96-114 | The document holds what is in the window, in time order and at one instant as it came, in its groups, by slug, and its global list. |
| `Sse.Reader.Flush` | internal/llm/sse.go:44-80 | The collected lines act as one event: done, malformed, error, or deltas. |
| `Sse.Reader.ReadStream` | internal/llm/sse.go:84-109 | Over a body that comes in any reads, the loop reaches the specified state and reply, a read error counting exactly when its read was met before the reply was finished or failed. |
| `Sse.Scanner.Scan` | internal/llm/sse.go:82-84 | The next line in hand, reading on only when there is none; the lines of a broken read are still handed over. |
| `Sse.ReadInvertsWrite` | internal/llm/sse.go:37-109 | Reading serialised events, comments and other fields among them, cut into reads anyhow, gives what the events themselves say. |
| `Sse.ReplyIsThePayloads` | internal/llm/sse.go:44-109 | The reply to serialised events is the joined contents of the payloads before the first that closes the stream, each reported; and if that one is an error or does not parse, the reply fails with exactly that. |
| `Sse.BrokenBodyFails` | internal/llm/sse.go:84-101 | A body that breaks before its done marker never passes for a reply: it fails with the read error, or with the event that had failed it already. |
| `Sse.JoinAppend` | internal/llm/sse.go:44-52 | An event's data lines join with one newline between two and nothing else. |
| `Sse.ReturnsAreTrimmed` | internal/llm/sse.go:84-97 | A carriage return before the newline makes no difference. |
| `Sse.LastBlankIsOptional` | internal/llm/sse.go:102-107 | A body that ends before its last blank line reads the same. |
| `Sse.AfterTheMarker` | internal/llm/sse.go:84-101 | After the done marker nothing that follows has an effect, in the same read or a later one, except that the reply fails if and only if the read that brought the marker came with an error. |
| `Sse.DoneMarkerIsOptional` | internal/llm/sse.go:32-36 | A stream without the done marker, or with anything after it, gives the same reply and reports. |
| `Sse.ReplyIsTold` | internal/llm/sse.go:65-71 | On any lines, the reply is the concatenation of the reported content deltas. |

## Left out

- The scan lock (`internal/source/amp/scanstate.go:347-396`): it steals stale locks and degrades to none by design; atomic updates are assumed instead.
- The order in which amp emits sessions and lists pending ids: both are sets here.
- The wording of diagnostics, notes and refusals, and the reported message counts: presentation.
- amp's scope descriptor and account evidence (`internal/source/amp/scanstate.go:169-281`): scopes are opaque values.
- amp's canonical projection and entry ids (`internal/source/amp/capture.go:144-260`): JSON canonicalisation is not opened up.
- AmpSweeps.NoThreadLost: does not cover overlapping sweeps, nor a stamp where a floor was held, nor a revision no later than the write of a scan that forgot its id, because the property can fail there; AmpLoss and AmpOverlap give such histories and prove there is no other cause.
- In the registry, unreadable or mismatched project and clones files, which the view skips, are not part of the model; an init can overwrite an unreadable project.json in its way.
- Registry.RunsKeep: does not cover projects merged in from another machine's journal, nor labels across machines after a merge, because two machines can each take a slug, a remote or a label before they see the other's; labels per machine are covered.
- PiReader.CaptureThenRead: does not equate the counts on a stream with an entry over the cap only by its carriage return, because the two sides see different entries exactly there (PiReader.ReaderSeesTheSameEntries).
- DevinTranscript.CaptureThenRead: does not equate the counts where the reader's chain goes on past the root capture found, because the two sides show different nodes exactly there (Devin.ChainsAgreeExactly).
- Splice.RoundTripExactly: does not cover documents whose hooks or SessionStart, or a group's hooks, have another JSON type, or which repeat those two names; the tree stands for the bytes, whose white space the path edits keep.
- Devin's store, the export document's bytes and its conversation hash: rows are taken as read.
- The claude reader's own line splitting, which fails on a line over the cap where the capture counts it bad.
- Time zones and calendar arithmetic: a day is an integer, a reading a day and a minute.
- The cap on one line of a streamed reply and the cutting of a read's bytes into lines: a read is the lines it completes, and an overlong line a read that broke.
- Curation: one verb's own document writes are not interleaved with another verb's; a crash may fall between them.
- Rendering a summary prompt, cache keys and the endpoint: a job's outcome is any of hit, fetched or failed. The progress line is not modelled.
- Sidecar files, prompts, schemas, command wiring, configuration, manifests, doctor and the renderers: presentation or thin wiring.
