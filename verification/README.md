# TraceUX: a verified model of its stateful core

TraceUX records browser sessions and replays them from a small SQLite server.
This project models, in Dafny 4.11, the parts of it whose correctness spans
whole runs, and proves what those parts promise. `dafny verify dfyconfig.toml`
checks everything.

| file | what it models |
|---|---|
| `Text.dfy` | SQL `LOWER` and `LIKE`, substring tests, blank-separated words, byte order |
| `Tables.dfy` | the recording tables, their keys, and row enumeration in rowid order |
| `SearchIndex.dfy` | the optional search index: triggers, worker, and the invariant |
| `SearchInvariant.dfy` | every step of every run keeps the invariant |
| `SearchTheorems.dfy`, `SearchRoom.dfy`, `SearchFreshness.dfy` | exactness, rowids, progress counts, settling; exactly when the index overflows; what a reused rowid breaks |
| `SearchStore.dfy` | the database object that performs those steps in place |
| `SessionQuery.dfy`, `SessionLaws.dfy`, `SessionList.dfy` | the session list: standard scan, what each filter and word finds, indexed query, paging |
| `Tracker.dfy`, `Handle.dfy` | batch numbering in a tab, and the queued handle |
| `Recording.dfy`, `SeekTable.dfy` | storing and paging batches; the seek table and its cache |
| `Stylesheets.dfy`, `StylesheetStore.dfy`, `StylesheetRuns.dfy`, `StylesheetReplay.dfy` | stylesheet deduplication, garbage collection, saves in flight, expansion on server and dashboard |
| `Playback.dfy` | from the tab to the player: batches, saves, pages and stylesheets together |
| `Feedback.dfy` | feedback reservations, showings and answers |
| `Exports.dfy`, `RateLimiter.dfy`, `SpaceSweep.dfy` | the controllers that bound work, requests and disk |
| `Latency.dfy`, `Performance.dfy`, `Analyze.dfy`, `Intervals.dfy`, `Pbkdf2.dfy` | histograms and percentiles, regrouping, slot folding, key derivation |

The main results:

* **The index is exact whenever it may be used.** In every state reached by any
  interleaving of ingest, deletion, toggling and worker steps, each document is
  the current text of a live row of its session; rows written after the build
  began, and rows of sessions the cursor has passed, have their document unless
  an overflow was noted; so ready and not overflowed means one document per row
  and no others. From that, `ListSessionsContext` returns exactly the list of
  `listSessionsStandard`, and following the last row's cursor lists every
  matching session once.
* **The worker settles**: in an endless run whose setting stands still, the index
  ends up ready when enabled and off when not, and off leaves nothing behind. It
  overflows exactly when some session runs out of item numbers
  (`SearchRoom.RunOverflowsIff`), so with room for every step it ends up answering the
  session list.
* **What is replayed is what was recorded**: after any run of saves of what a tab
  sent, in any order and with any repetition, of deletions and of collections, the
  player shows the events of the batches still stored, each once, in recording order
  and with their stylesheets put back (`Playback.PlayTab`).
* **Cooldowns, limits and caps over whole runs**, not only call by call: export jobs
  and files always keep theirs; feedback cooldowns and request limits keep theirs
  exactly under conditions on when a request read the clock.
* **A disk sweep deletes only what it must**: each batch begins on a measurement over
  budget and takes the sessions seen longest ago, whatever others do in between.

Where the code was found not to meet a property in general, the exact condition
is proved:

* `SessionList.CursorWithoutTime`: a `before_id` without a `before`, which the API
  refuses.
* `Tracker.RestoredPageCollides` and `Tracker.TwoHoldersCollide`: a page the browser
  restores, or a duplicated tab, that goes on from a number already handed on.
* `Recording.NothingOverwritten`: batches that share a session and number.
* `SeekTable.ServedIsCurrentIff`: the cached seek table. The comment at
  server/sessions_api.go:293-295 takes chunks to be append-only, but
  server/store/ingest.go:196-199 rewrites one whose number arrives again, and no
  deletion of a session empties the cache, so sound numbering does not suffice
  either: `SeekTable.DeletedSessionGoesStale` is the failing run. An entry is
  current when nothing disturbed its session since (`SeekTable.UndisturbedIsCurrent`).
* `StylesheetRuns.ResolvesForeverIff`: a chunk inserted after its session, and with it
  its links, was deleted in the middle of the save;
  `StylesheetRuns.InterruptedSaveDangles` is the failing run.
* `Stylesheets.RoundTrip` and `Stylesheets.ClientIsServer`: texts already shaped like
  references.
* `SearchFreshness.ReusedLogClashes` and `SearchFreshness.ReusedSessionMiscounts`: log
  numbers and session rowids handed out twice while the index is built.
* `Playback.ChunkBack` and `Playback.PlayTab`: the same texts, over the whole way.
* `Feedback.ShowingKeepsCooledIff`: a mark reads the clock before it waits for the
  only connection (server/store/feedback_campaigns.go:277-287,
  server/store/store.go:63), so a showing may carry a reading from before a younger
  reservation; `Feedback.WaitingMarkBreaksCooldown` is the failing run, and
  `Feedback.LateMarkIff` the like for the lease.
* `RateLimiter.AnswerAgreesIff`: calls read the clock before they take the lock
  (server/security.go:36-37), so an entry may be pruned by a later reading;
  `RateLimiter.PrunedTooSoon` and `RateLimiter.LateReadingsBreakBound` are the failing
  inputs, and `RateLimiter.Limiter.TwiceTheLimit` has the bound in general and in order.
* `SpaceSweep.SwitchedOnMeanwhile`: the comment at server/store/spacesweep.go:125-127
  puts the search index before any recording, and only the start of a sweep does so.
* `Analyze.EvaluateHours`: the last hour bucket in an hour that a clock change repeats.

## Assumptions

* Each SQL statement or transaction is one step; the clock never goes back. A request
  may have read it some time before its statement runs or it takes a lock.
* A request that names a delivery's token starts after the reservation that gave the
  token out: `Feedback.Store` counts by a flag whether this was so.
* Rowids are new: a number once handed out is not handed out again after a
  delete. SQLite's max + 1 rule alone does not give this. A reused log number at or
  below the build's cutoff breaks the build, and a reused session rowid the cursor
  has still to come to breaks total = done + remaining, as deleting the old session
  lowers the total and inserting the new one adds nothing; `SearchFreshness` has
  both as exact conditions.
* A quoted FTS5 trigram phrase is an ASCII case-blind substring test.
* Session ids made by the tracker, delivery tokens, export ids and temporary file
  names are new.
* The stylesheet hash is injective on the stylesheets seen. Storing a stylesheet
  and linking it, and building one seek table, are one step each.
* Strings are sequences of characters; where the source counts bytes, a character
  stands for a byte.

## Model

| member | source | states |
|---|---|---|
| `SearchInvariant.ApplyKeeps` | server/store/search_index.go:212-274 | every ingest, delete, toggle or worker step keeps the invariant: sound documents, exact mappings, completeness short of overflow, cutoffs below new rowids, honest progress |
| `SearchInvariant.RunKeeps` | server/store/search_index.go:348-438 | the invariant survives any run of admitted steps from any state that has it |
| `SearchInvariant.Reachable` | server/store/search_index.go:344-441 | every state reachable from the empty database has the invariant, whatever the interleaving |
| `SearchInvariant.SessionInKeeps` | server/store/search_index.go:349-352 | inserting a session with its trigger keeps the invariant: its rowid range was empty and lies beyond the build's cutoff |
| `SearchInvariant.SessionUpKeeps` | server/store/search_index.go:353-359 | updating a session rewrites its document exactly when a URL changed, and the index stays current |
| `SearchInvariant.SessionOutKeeps` | server/store/search_index.go:360-368 | deleting a session clears its range, its mappings and its place in the progress count, and nothing of others |
| `SearchInvariant.PageInKeeps` | server/store/search_index.go:369-373 | a new page meets a free rowid and keeps the invariant |
| `SearchInvariant.PageUpKeeps` | server/store/search_index.go:374-381 | a changed page text replaces that page's document and keeps the invariant |
| `SearchInvariant.EventInKeeps` | server/store/search_index.go:387-406 | a tracked event gets a new rowid or overflows the index; either way the invariant holds |
| `SearchInvariant.LogInKeeps` | server/store/search_index.go:407-432 | a session log gets a new rowid and mapping or overflows the index; a service log changes nothing |
| `SearchInvariant.LogOutKeeps` | server/store/search_index.go:433-437 | deleting a log keeps the invariant |
| `SearchInvariant.StartBuildKeeps` | server/store/search_index.go:443-489 | starting a build from an off index establishes the invariant: nothing is due yet and all later rows lie above the cutoffs |
| `SearchInvariant.IndexSessionLive` | server/store/search_index.go:535-606 | one session of a build batch makes all its rows current and lets the cursor move onto it, without touching any taken rowid or mapping |
| `SearchInvariant.BuildBatchKeeps` | server/store/search_index.go:496-620 | a whole build batch, empty or not, keeps the invariant; the empty one proves the index complete |
| `SearchInvariant.BatchShrinks` | server/store/search_index.go:502-517 | a non-empty batch lowers the number of sessions left in (next, cutoff] by exactly its size |
| `SearchInvariant.DropKeeps` | server/store/search_index.go:640-692 | a drop batch keeps the invariant and ends in a state without tables |
| `SearchTheorems.ReadyIsExact` | server/store/search_index.go:518-530 | ready and not overflowed: one document per session, page, tracked event and session log, each with that row's current text, and no others |
| `SearchTheorems.ExactCount` | server/store/search_index.go:443-489 | an exact index holds as many documents as there are rows to find |
| `SearchTheorems.PackIsExact` | server/store/search_index.go:491-494 | the 24-bit packing is injective and ordered, and BETWEEN base and base with all low bits set selects exactly one session's items |
| `SearchTheorems.RowidsDistinct` | server/store/search_index.go:369-438 | no two live documents share a rowid, no insert of a trigger or of the build ever met a taken one, and items below 10002 are exactly the session and page documents |
| `SearchTheorems.NewItemIsHighest` | server/store/search_index.go:387-406 | a newly allocated item is above every other of its range; when it cannot be, the last item was in use and the index overflows |
| `SearchTheorems.LogOutIsExact` | server/store/search_index.go:433-437 | deleting a log removes exactly that log's document and mapping |
| `SearchTheorems.OthersUntouched` | server/store/search_index.go:344-441 | an ingest or deleting step touches no document of a session other than its own |
| `Tables.DropSessionRows` | server/sessions_api.go:386-407 | a deleted session goes with its own pages, events and logs, and every other row stays |
| `SearchFreshness.BatchClash` | server/store/search_index.go:535-606 | building a list of sessions meets a taken rowid or log number exactly when one of them gets all its rows in and has a log that is mapped already |
| `SearchFreshness.ReusedLogClashes` | server/store/search_index.go:462-479 | while a build runs, a log under a number given out again breaks the build of the sessions ahead exactly when the number is at or below the cutoff, its session is among them and fits, and the trigger indexed it |
| `SearchFreshness.AllAhead` | server/store/search_index.go:502-517 | the sessions ahead of the cursor, in the build's order, are exactly those in (next, cutoff] |
| `SearchFreshness.ReusedSessionMiscounts` | server/store/search_index.go:360-368 | a session inserted during a build keeps total = done + remaining exactly when its rowid is not one the cursor has still to come to |
| `SearchTheorems.CountsAndResidue` | server/store/search_index.go:613-619 | in every reachable state sessions_total is sessions_done plus the sessions left while building, and off implies no triggers and no tables |
| `SearchTheorems.WorkDescends` | server/store/search_index.go:212-274 | every unhindered worker step short of the settled state lowers a lexicographic measure |
| `SearchTheorems.BusyWaits` | server/store/search_index.go:199-274 | a busy server keeps the worker from building and dropping, an error from everything, and otherwise the step is what it would be |
| `SearchTheorems.DropsLowest` | server/store/search_index.go:647-649 | a drop batch takes the lowest rowids first, as many as it may or all there are |
| `SearchTheorems.SteadyDescends` | server/store/search_index.go:212-274 | no step that leaves the setting alone raises the measure, and working steps lower it |
| `SearchTheorems.Settles` | server/store/search_index.go:168-210 | in any endless run with a steady setting and recurring worker turns the index reaches ready or off as the setting asks |
| `SearchTheorems.RestsOnlyWhenSettled` | server/store/search_index.go:212-274 | the worker asks not to be called back exactly when it has settled or an error waits |
| `SearchRoom.SessionOverflowsIff` | server/store/search_index.go:574-581 | building a session overflows the index exactly when the greatest of 10001 and its items in use, with its session and page documents written, plus its events and logs up to the cutoffs, exceeds 0xFFFFFF; it is then the session recorded |
| `SearchRoom.BuiltEvents` | server/store/search_index.go:582-590 | a session that fits has its old tracked events numbered on from the greatest item in use, in rowid order, and no other event mapped anew |
| `SearchRoom.BuiltLogs` | server/store/search_index.go:591-606 | and its old logs, mapped, after those |
| `SearchRoom.BatchIsUpcoming` | server/store/search_index.go:502-517 | a batch is the next sessions past the cursor in rowid order, as many as asked for or as there are |
| `SearchRoom.EventOverflowsIff` | server/store/search_index.go:387-406 | a tracked event takes the number after the greatest in use, and overflows the index exactly when the session's last number is in use; overflowed, the index gains nothing |
| `SearchRoom.LogOverflowsIff` | server/store/search_index.go:407-432 | the like for a session's log and its mapping; a service log leaves the index alone |
| `SearchRoom.StepOverflowsIff` | server/store/search_index.go:212-274 | after any step the index counts as overflowed exactly when the step was short of a number, or it was before and nothing started afresh |
| `SearchRoom.RunOverflowsIff` | server/store/search_index.go:344-441 | and over any run exactly when some step was short of a number since the last start |
| `SearchRoom.RoomySettles` | server/store/search_index.go:199-274 | an endless fair run with the index on and room at every step comes to a ready, exact index that was not overflowed |
| `SearchRoom.UndisturbedBuild` | server/store/search_index.go:443-620 | an index built in one go ends usable exactly when every session's events and logs fit below 0xFFFFFF |
| `SearchStore.Database.InsertSession` | server/store/search_index.go:349-352 | the in-place insert and trigger perform the specified step and keep the invariant |
| `SearchStore.Database.UpdateSession` | server/store/search_index.go:353-359 | the in-place update and its delete-then-insert trigger perform the specified step and keep the invariant |
| `SearchStore.Database.SavePage` | server/store/ingest.go:215-219 | the upsert inserts or updates depending on whether the index was seen, fires the matching trigger, and keeps the invariant |
| `SearchStore.Database.SaveCustomEvent` | server/store/sessions.go:424-434 | INSERT OR IGNORE: an equal event changes nothing, a new one performs the specified insert |
| `SearchStore.Database.InsertLog` | server/store/search_index.go:407-432 | the mapping inserted as the range's MAX(rowid) is the document just written |
| `SearchStore.Database.DeleteSession` | server/store/search_index.go:360-368 | the cascade, then the session trigger, amount to the specified deletion |
| `SearchStore.Database.DeleteLog` | server/store/search_index.go:433-437 | the log trigger performs the specified deletion |
| `SearchStore.Database.SetEnabled` | server/store/search_index.go:297-319 | only the setting and the error change |
| `SearchStore.Database.DisableForLowDisk` | server/store/search_index.go:321-333 | true exactly while an index is wanted or present; false means nothing of it exists |
| `SearchStore.Database.IndexOne` | server/store/search_index.go:535-606 | the statements for one session, with currentMax advancing and the overflow continue, perform the specified step |
| `SearchStore.Database.IndexBatch` | server/store/search_index.go:535-607 | the loop over a batch's ids is the fold of the single-session step |
| `SearchStore.Database.BuildBatch` | server/store/search_index.go:496-620 | the whole transaction performs the specified batch, reports done exactly when ready, and keeps the invariant |
| `SearchStore.Database.DropBatch` | server/store/search_index.go:640-692 | the drop transaction performs the specified step and reports done exactly when off |
| `SearchStore.Database.RunStep` | server/store/search_index.go:212-274 | the worker's dispatch performs the specified step and return value, and keeps the invariant |
| `Text.LikeIsContains` | server/store/sessions.go:235-258 | a term without wildcards between two % signs is a case-blind substring test |
| `Text.JoinedContains` | server/store/search_index.go:351 | a blank-free term occurs in two fields joined by a blank exactly when it occurs in one of them |
| `Text.LowerIs` | server/store/sessions.go:239-258 | LOWER turns the 26 capital letters into small ones and changes nothing else |
| `Text.ContainsIs` | server/store/session_search_query.go:67 | containing a text is being something before, the text and something after |
| `Text.LikeIs` | server/store/sessions.go:239-258 | LIKE by its four cases: the end, any run, any one character, and a letter in either case |
| `Text.FieldsAre` | server/store/session_search_query.go:30 | splitting at blanks yields the words between them in order |
| `Text.LessIs` | server/store/session_search_query.go:107-110 | in byte order the first difference decides and a proper prefix comes first |
| `SessionQuery.AliasesNeverMatch` | server/store/session_search_query.go:11-13 | a term missing from the alias text matches no alias branch of the standard query |
| `SessionQuery.RowMatches` | server/store/sessions.go:235-258 | for a usable term the standard per-term condition holds exactly when some row's indexed text contains the term |
| `SessionQuery.DocHitIsTermHit` | server/store/session_search_query.go:63-71 | an exact index finds a session under a usable term exactly when the standard scan of its rows does |
| `SessionQuery.OrderIsUnique` | server/store/sessions.go:276 | there is only one list of a set of sessions by started_at and id descending |
| `SessionLaws.Unfiltered` | server/store/sessions.go:192-206 | without filters exactly the sessions of a second or more match |
| `SessionLaws.BySite` | server/store/sessions.go:196-201 | a site filter leaves the sessions of that site |
| `SessionLaws.ByBrowser` | server/store/sessions.go:203-206 | a browser filter leaves the sessions whose browser column equals it |
| `SessionLaws.ByOs` | server/store/sessions.go:207-210 | an os filter leaves the sessions whose os column equals it |
| `SessionLaws.ByDevice` | server/store/sessions.go:211-214 | a device filter leaves the sessions whose device column equals it |
| `SessionLaws.ByCountry` | server/store/sessions.go:215-218 | a country filter leaves the sessions whose country column equals it |
| `SessionLaws.ByUrl` | server/store/sessions.go:219-226 | a url filter looks at entry, exit and every page of the session, with LIKE |
| `SessionLaws.ByPlainUrl` | server/store/sessions.go:219-226 | and without wildcards is a case-blind part of one of them |
| `SessionLaws.ByAction` | server/store/sessions.go:227-261 | a search needs each of its words found |
| `SessionLaws.EventFinds` | server/store/sessions.go:235-244 | a word is found in an event's name or track id, in the names of its category, or in those of clicks for a click |
| `SessionLaws.PageFinds` | server/store/sessions.go:246-251 | a word is found in a page's url or title or in the names of its category |
| `SessionLaws.LogFinds` | server/store/sessions.go:252-257 | a word is found in a log's message, url or severity or in the names of its category |
| `SessionLaws.SessionFinds` | server/store/sessions.go:233-258 | a session is found by its own events, entry, exit, pages and logs and by nothing of another session |
| `SessionLaws.ByIdentity` | server/store/sessions.go:262-267 | an identity filter looks at the three ids of the visitor, with LIKE |
| `SessionLaws.ByPlainIdentity` | server/store/sessions.go:262-267 | and without wildcards is a case-blind part of one of them |
| `SessionLaws.ByDuration` | server/store/sessions.go:268-271 | a minimum duration leaves the sessions that lasted as long |
| `SessionLaws.ByCursor` | server/store/sessions.go:272-278 | a cursor leaves older sessions and, with an id, those of the same moment before it |
| `SessionLaws.UsableIs` | server/store/session_search_query.go:64-80 | the index may answer for ASCII words of three characters or more without wildcards that are part of no category name |
| `SessionLaws.IndexedTexts` | server/store/search_index.go:349-432 | the columns each kind of document joins |
| `SessionLaws.ListedIs` | server/store/sessions.go:279-281 | the list is the newest matches, as many as asked for, by start time and then id descending, and no newer match is left out |
| `SessionList.NextCandidates` | server/store/session_search_query.go:98-131 | moving the cursor to a batch's last candidate leaves exactly the candidates not yet seen, in the same order |
| `SessionList.ListIndexed` | server/store/session_search_query.go:86-160 | 500-row cursor batches, filtered, re-sorted and cut to the limit, are the newest accepted candidates overall |
| `SessionList.AcceptedIsMatching` | server/store/session_search_query.go:162-261 | with an exact index the accepted candidates are exactly the sessions the standard scan matches |
| `SessionList.ListSessions` | server/store/session_search_query.go:33-61 | the answer is the standard scan's list for every filter the API allows, and comes from the index exactly when that is ready, not overflowed and fit for each word |
| `SessionList.CursorWithoutTime` | server/sessions_api.go:47-50 | a before_id without a before: the indexed query is empty and agrees with the standard one exactly when that is empty too |
| `SessionList.PagesListAll` | server/store/sessions.go:269-277 | pages asked for with the last row's start time and id list every matching session once, newest first, each but the last full |
| `Tracker.Tab.Load` | tracker/src/main.ts:484-505 | a page load resumes the stored session and number or starts a fresh one, and no later batch can reuse a number |
| `Tracker.Tab.Emit` | tracker/src/main.ts:890-895 | an event joins the buffer, and past 5,000 the oldest goes; as long as none went, what was recorded is what was sent and what waits, in order |
| `Tracker.Tab.Flush` | tracker/src/main.ts:602-609 | a flush sends the buffer under the next number of its session; numbering stays free of repeats and in recording order |
| `Tracker.Tab.EndSession` | tracker/src/main.ts:1296-1304 | ending a visit ships the buffer once |
| `Tracker.Tab.NewSession` | tracker/src/main.ts:1311-1342 | a session split ships the tail under the old session and restarts the number; the number left in storage is still safe |
| `Tracker.Tab.Unload` | tracker/src/main.ts:1403-1408 | leaving a page ships the buffer; what is stored suffices for the next page |
| `Tracker.RestoredPageCollides` | tracker/src/main.ts:602-609 | a page brought back after a later one resumed its number reuses a number exactly when the later page flushed |
| `Tracker.TwoHoldersCollide` | tracker/src/main.ts:484-486 | two holders of one stored number, a duplicated tab or a restored page, keep the numbering sound exactly when only one of them flushes, in any interleaving |
| `Handle.QueuedHandle.Dispatch` | tracker/src/main.ts:318-324 | a call goes through, waits or is lost by the handle's state; every call made is received, waits or is lost, once |
| `Handle.QueuedHandle.Ask` | tracker/src/main.ts:328-334 | a promise is answered at once when the tracker runs or is given up on, and waits otherwise; answers given never change |
| `Handle.QueuedHandle.Activate` | tracker/src/main.ts:381-396 | the queue drains with the calls, promises and stops of its own actions in between, or as far as the action that throws; without those the tracker gets the calls made in order, and every waiting promise is answered |
| `Handle.QueuedHandle.React` | tracker/src/main.ts:318-396 | what an action does to the handle while it runs goes straight to the tracker: its calls are received in order and its promises answered at once |
| `Handle.QueuedHandle.Fail` | tracker/src/main.ts:397-402 | queued calls are lost and waiting promises refused, before or after the tracker runs |
| `Handle.QueuedHandle.Stop` | tracker/src/main.ts:371-380 | the runtime's stop when there is one, else everything waiting is refused |
| `Handle.QueuedHandle.Start` | tracker/src/main.ts:456-458 | with the catch of start, however activation goes no promise is left waiting |
| `Recording.Ingest.EnsureSession` | server/store/ingest.go:95-100 | a missing session gets a row with no events, an existing one is left alone |
| `Recording.Ingest.UpsertChunk` | server/store/ingest.go:196-201 | the chunk is stored under its session and number, or refused without its session; only its own session's count may lag until the save's next statement |
| `Recording.Ingest.Recount` | server/store/ingest.go:202-205 | event_count becomes the number of stored events; the counts of all sessions without a save in between stay right under any interleaving |
| `Recording.Ingest.DeleteSession` | server/sessions_api.go:386-407 | the session's chunks and count go, even between the statements of a save, and all other counts stay right |
| `Recording.Ingest.SaveEvents` | server/store/ingest.go:172-206 | the three statements in a row store the batch and leave the session's count right |
| `Recording.Ingest.CountEvents` | server/store/ingest.go:202-205 | the sum over chunks is the length of the recording |
| `Recording.EventsPage` | server/sessions_api.go:223-260 | a page is whole chunks after after_seq, no more than it takes to reach the limit, with next_seq and has_more exact |
| `Recording.Replay` | server/sessions_api.go:195-265 | following next_seq until has_more is false yields the whole stored recording, for every page size |
| `Recording.StoredAsSent` | server/store/ingest.go:196-199 | after any order and repetition of deliveries each accepted batch is stored as it was sent |
| `Recording.ReplayIsRecording` | server/sessions_api.go:195-265 | the stored recording is exactly the delivered events, each once, in recording order |
| `Recording.NothingOverwritten` | server/store/ingest.go:196-199 | all arrivals stay readable exactly when no two different ones share a session and number |
| `Recording.ReplayOfTab` | server/sessions_api.go:195-265 | tab, server and player together: whatever arrives of what a tab sent is played once and in recording order |
| `SeekTable.Describe` | server/store/sessionindex.go:48-66 | a chunk's row of the seek table has its event count, whether it holds a full snapshot, and its time span, and is the only such row |
| `SeekTable.BuildTable` | server/store/sessionindex.go:34-70 | the loop builds the specified table of the non-empty chunks in order |
| `SeekTable.TablesEqual` | server/store/sessionindex.go:34-70 | two states give the same table exactly when the session's non-empty chunk numbers and their descriptions are the same |
| `SeekTable.RewrittenChunk` | server/sessions_api.go:293-296 | rewriting a chunk leaves the table right exactly when the chunk's row stays the same; the count never tells |
| `SeekTable.CountTellsStaleness` | server/sessions_api.go:293-296 | when chunks are only added, an equal count means the same chunks and table |
| `SeekTable.SeekTables.Lookup` | server/sessions_api.go:277-314 | a hit serves the entry as it is; a miss serves and remembers the table built, with the count read before, emptying the cache rather than growing it |
| `SeekTable.EntryHasOrigin` | server/sessions_api.go:282-309 | in any run of arrivals, session deletions and interleaved lookups every entry was counted and built at moments of that run |
| `SeekTable.ServedIsCurrentIff` | server/sessions_api.go:293-296 | a table served from the cache is current exactly when the session has the rows it had when the entry was built |
| `SeekTable.UndisturbedIsCurrent` | server/sessions_api.go:293-296 | no deletion of the session and no different batch under a used number since the entry was counted: then it is current |
| `SeekTable.NumberedMeansNoRewrite` | server/store/ingest.go:196-199 | with sound numbering an entry is disturbed exactly by a deletion of its session |
| `SeekTable.DeletedSessionGoesStale` | server/sessions_api.go:386-407 | the failing run: cached, deleted, sent to again by the open tab, and the old table is served |
| `Stylesheets.WalkAgrees` | server/store/cssdedupe.go:154-177 | two rewritings of a document agree exactly when they agree on each of its stylesheet texts |
| `Stylesheets.WalkTwice` | server/store/cssdedupe.go:154-177 | walking twice is walking once with the composed rewriting |
| `Stylesheets.TextsAfter` | server/store/cssdedupe.go:154-177 | the texts of a rewritten document are exactly the rewritten texts |
| `Stylesheets.TextsAre` | server/store/cssdedupe.go:154-177 | a document's stylesheet texts are the strings under its _cssText keys, however deep |
| `Stylesheets.DedupedShape` | server/store/cssdedupe.go:57-91 | deduping replaces strings of 16,384 characters or more under _cssText that do not start like a reference, and leaves every other part of the document as it was |
| `Stylesheets.SheetsReplaced` | server/store/cssdedupe.go:57-91 | every such stylesheet becomes its prefixed hash, every other stays, and no large one is left but what starts like a reference |
| `Stylesheets.RefsAre` | server/store/cssdedupe.go:36-47 | a reference is the prefix and 64 hex digits |
| `Stylesheets.RoundTrip` | server/store/cssdedupe.go:57-136 | dedupe then expand gives the document back exactly when no text in it already had the shape of a reference |
| `Stylesheets.NeedsExactly` | server/store/cssdedupe.go:118-128 | a deduped document resolves exactly when every replaced sheet and every reference it brought along is held |
| `Stylesheets.DedupeIdempotent` | server/store/cssdedupe.go:67-71 | deduping twice is deduping once |
| `Stylesheets.ClientIsServer` | dashboard/src/lib/cssAssets.ts:20-22 | the dashboard's expansion equals the server's exactly when no text is reference-shaped without being hex, or both fail |
| `Stylesheets.ClientRoundTrip` | dashboard/src/lib/cssAssets.ts:77-99 | what the dashboard shows of a deduped document is the document exactly when it held no reference-shaped text |
| `StylesheetStore.Store.PutAsset` | server/store/cssdedupe.go:182-206 | both inserts are idempotent: the sheet is held under its hash and linked to the session |
| `StylesheetStore.Store.DedupeWalk` | server/store/cssdedupe.go:57-91 | the storing walk returns the deduped document and adds exactly its large sheets and their links |
| `StylesheetStore.GrownMeans` | server/store/cssdedupe.go:57-91 | deduping stores and links exactly the document's stylesheets of 16,384 characters or more |
| `StylesheetStore.Store.StoredAreLarge` | server/store/cssdedupe.go:57-91 | every stored stylesheet has 16,384 characters or more and lies under its own hash |
| `StylesheetStore.Store.SaveEvents` | server/store/ingest.go:172-199 | a save nothing interrupts stores the deduped batch, and references of every live chunk stay linked and held |
| `StylesheetStore.Store.DeleteSession` | server/store/cssdedupe.go:26-30 | chunks and links go with their session, and every other chunk stays resolvable |
| `StylesheetStore.Store.CollectGarbage` | server/store/cssdedupe.go:299-307 | exactly the sheets no session refers to are dropped, and every live chunk stays resolvable |
| `StylesheetStore.Store.ReadsBack` | server/store/cssdedupe.go:99-136 | after any run of uninterrupted saves, deletions and collections a chunk reads back, on server and dashboard, as last saved exactly when that held nothing reference-shaped |
| `StylesheetRuns.StepKeeps` | server/store/ingest.go:172-199 | each statement of a save in flight, each deletion, re-creation and collection keeps the invariant |
| `StylesheetRuns.Reachable` | server/store/ingest.go:172-199 | every state reached by any interleaving of saves in flight, deletions, re-creations and collections has it |
| `StylesheetRuns.StoredAreLarge` | server/store/cssdedupe.go:57-91 | the same over any interleaving of saves in flight, and a stored chunk's texts are those saved or references to its large ones |
| `StylesheetRuns.EditTexts` | server/store/cssdedupe.go:154-177 | one replacement in place changes one text and keeps the others |
| `StylesheetRuns.FinishedSaveIsDeduped` | server/store/cssdedupe.go:57-91 | a save that has replaced every large sheet, in whatever order, stores the deduped document |
| `StylesheetRuns.ResolvesForeverIff` | server/store/cssdedupe.go:299-307 | from any state, in particular the one its insert left, a stored chunk resolves in every later state exactly when all its references are linked to its session there |
| `StylesheetRuns.IntactSaveIsLinked` | server/store/ingest.go:172-199 | a save whose session was not deleted since its first put, of a document with no reference-shaped text of its own, stores a chunk that resolves for as long as it stands |
| `StylesheetRuns.ReadsBack` | server/store/cssdedupe.go:103-136 | in every reachable state a chunk that resolves reads back as last saved exactly when that held nothing reference-shaped |
| `StylesheetRuns.ClientReadsBack` | dashboard/src/lib/cssAssets.ts:77-99 | and so it does on the dashboard, exactly when nothing had a reference's length and prefix |
| `StylesheetRuns.InterruptedSaveDangles` | server/store/ingest.go:172-199 | the failing run: put, session deleted, re-created, sheet collected, chunk inserted with a dangling reference |
| `StylesheetRuns.StoreIsState` | server/store/cssdedupe.go:57-91 | what the store object holds between uninterrupted saves is such a state with no save in flight |
| `StylesheetReplay.ExpandDoc` | server/store/cssdedupe.go:118-128 | the in-place walk expands what it can and notes exactly when something is missing |
| `StylesheetReplay.RehydrateCSS` | server/store/cssdedupe.go:103-136 | the result is the expanded document, or an error exactly when a reference is missing |
| `StylesheetReplay.CollectCSSRefs` | dashboard/src/lib/cssAssets.ts:25-40 | exactly the hashes referred to, added to those found before |
| `StylesheetReplay.Player.Fetch` | dashboard/src/lib/cssAssets.ts:42-54 | the cache answers first and failures are not remembered |
| `StylesheetReplay.Player.LoadAssets` | dashboard/src/lib/cssAssets.ts:57-64 | all hashes or a failure, from cache and server, the cache only growing with true contents |
| `StylesheetReplay.Player.Show` | dashboard/src/lib/cssAssets.ts:57-99 | collect, load and substitute give what expanding with everything known would give |
| `Playback.Play` | dashboard/src/pages/Replay/hooks/useReplay.ts:146-160 | page by page with stylesheets loaded and put back, the whole recording is shown exactly when every sheet it refers to is found, whatever the page size and the cache |
| `Playback.ChunkBack` | dashboard/src/lib/cssAssets.ts:77-99 | a stored chunk whose sheets are found shows the events that were sent exactly when none of their texts was shaped like a reference |
| `Playback.DocsPlay` | server/sessions_api.go:195-265 | the stored chunks, as sent, play as the batches still stored, each once and in the order they were sent |
| `Playback.PlayTab` | server/store/ingest.go:172-206 | the whole way: after any run of saves of what a tab sent, of deletions and of collections, the player shows exactly the events of the batches still stored, in recording order and with their stylesheets, if and only if no text of theirs was shaped like a reference, and shows nothing exactly when a sheet is missing |
| `Feedback.Store.Reserve` | server/store/feedback_campaigns.go:208-275 | a reservation succeeds exactly when the site has the campaign enabled, the visitor is known, and no delivery of the campaign to the same user, or visitor without one, has the same occurrence, was reserved within 120 seconds, or was shown within a day or a week as the campaign recurs; each refusal has its reason |
| `Feedback.Store.MarkShown` | server/store/feedback_campaigns.go:277-289 | succeeds exactly for a reservation less than 120 seconds old at the reading the request took before it waited for the connection, and changes only it; all cooldowns hold over the run exactly when every showing was timely |
| `Feedback.Store.MarkClosed` | server/store/feedback_campaigns.go:290-293 | succeeds exactly for a shown delivery, and changes only it; completions follow their showings exactly when every reading did |
| `Feedback.Store.SaveFeedback` | server/store/feedback.go:65-107 | the response and the answered delivery come together, at most one per token, with the reading taken before the transaction |
| `Feedback.ShowingKeepsCooledIff` | server/store/feedback_campaigns.go:252-261 | the exact condition: a showing keeps the cooldowns exactly when no younger delivery to the identity was reserved with the showing's reading inside its cooldown |
| `Feedback.PromptIsTimely` | server/store/feedback_campaigns.go:277-287 | a mark that read the clock no earlier than any younger reservation was made meets the condition |
| `Feedback.WaitingMarkBreaksCooldown` | server/store/feedback_campaigns.go:277-289 | the failing run: a mark that read the clock in time waits for the connection, a second tab reserves, and both are shown two seconds apart |
| `Feedback.LateMarkIff` | server/store/feedback_campaigns.go:286-287 | a mark that runs after the lease succeeds exactly when it had read the clock before the lease ended |
| `Feedback.CooldownHolds` | server/store/feedback_campaigns.go:252-261 | with timely showings, two of them to one identity of one campaign are further apart than the cooldown, however many tabs reserved |
| `Feedback.OneLiveReservation` | server/store/feedback_campaigns.go:242-251 | at most one reservation per identity can be live |
| `Feedback.LeaseIsFinal` | server/store/feedback_campaigns.go:286-287 | over any run, a reservation that outlived its lease stays a reservation for good, as far as the marks that run later read the clock later |
| `Feedback.AdvancesTransitive` | server/store/feedback_campaigns.go:277-300 | moving only from reserved to shown to one final status, with showings no earlier than the earliest reading, holds over whole runs |
| `Exports.Manager.Bounded` | server/session_export.go:46-48 | in every reachable state: four jobs at most, one preparation, preparing implies busy, every file is being written or held by a ready job, no ready file above the cap, none left after closing |
| `Exports.Manager.CancelledOnlyBy` | server/session_export.go:196-207 | over any run a preparation is cancelled only by its deadline or client or by the removal of its own job |
| `Exports.Manager.Prepare` | server/session_export.go:60-94 | an equal preparation is shared; otherwise closed, too many, or accepted exactly when open, idle and below four jobs |
| `Exports.Manager.StartDirect` | server/session_export.go:221-236 | a direct export takes the same single slot |
| `Exports.Manager.CreateTemp` | server/session_export.go:275-279 | the preparation owns its new file |
| `Exports.Manager.Write` | server/session_export.go:307-317 | a write beyond the cap or after cancellation changes nothing; others lower the remaining bytes by what was written |
| `Exports.Manager.Discard` | server/session_export.go:293-297 | a failed preparation removes its file |
| `Exports.Manager.FinishJob` | server/session_export.go:96-135 | the file goes to the job if it is still listed and closable, and is removed otherwise; the slot is free |
| `Exports.Manager.FinishDirect` | server/session_export.go:232-254 | a direct export's file goes whatever happened |
| `Exports.Manager.Remove` | server/session_export.go:196-207 | the job and its file go, its own preparation is cancelled, and nothing else changes |
| `Exports.Manager.Cancel` | server/session_export.go:176-188 | only the owner can cancel, and cancelling removes exactly that job and stops no other preparation |
| `Exports.Manager.Expire` | server/session_export.go:190-194 | an expired job goes with its file, and no other preparation stops |
| `Exports.Manager.Close` | server/session_export.go:209-217 | after closing, no job is left and only a running worker's file, and the worker is stopped exactly when its job was listed |
| `Exports.Manager.Download` | server/session_export.go:149-172 | served exactly to the owner of a ready job, from that job's own file |
| `RateLimiter.Limiter.Allow` | server/security.go:35-60 | whatever a call read before it took the lock: after calls in time, its answer differs from that of a limiter that never prunes exactly when its entry was full and pruned inside the window it still had at the reading |
| `RateLimiter.AnswerAgreesIff` | server/security.go:41-59 | the exact condition for one call: it is in time, or would be allowed without pruning, or nothing is allowed |
| `RateLimiter.Limiter.AfterPruningInTime` | server/security.go:36-47 | a reading no earlier than that of the latest pruning is in time for every key |
| `RateLimiter.PrunedTooSoon` | server/security.go:36-47 | the failing input of pruning: a full entry pruned at a later reading is empty to a call that read earlier |
| `RateLimiter.Limiter.Prune` | server/security.go:41-47 | exactly the expired entries go |
| `RateLimiter.Limiter.TwiceTheLimit` | server/security.go:35-60 | with calls in time, any half-open interval one window long holds at most twice the limit of allowed calls per key and besides only those that read the clock before their own window began, of which there are none when readings are in order |
| `RateLimiter.Limiter.RefusedOnlyWhenFull` | server/security.go:49-59 | without pruning a call is refused only when its window holds as many allowed calls as the limit, counting those that read too early for it |
| `RateLimiter.Limiter.AllowedBelowLimit` | server/security.go:35-60 | with readings in order a call with fewer than the limit of allowed calls in the window before it is allowed |
| `RateLimiter.LateReadingsBreakBound` | server/security.go:35-60 | the failing input of the bound: with a limit of 3, seven allowed calls in one window length when two were counted after reading early |
| `RateLimiter.SameWindow` | server/security.go:49-59 | an allowed call in a window keeps the bound for every interval |
| `RateLimiter.NewWindow` | server/security.go:49-52 | a new window keeps the bound for intervals across its start |
| `SpaceSweep.SweepToBudget` | server/store/spacesweep.go:109-202 | nothing is deleted when disabled, under budget, not incremental or with an index at the start, and the reason says which; otherwise the batches lead from the old state to the new one through what others do in between, each begun on a measurement over budget, at most 5000 sessions in all, and the sweep stops when and only when no batch may follow |
| `SpaceSweep.Prune` | server/store/spacesweep.go:160-197 | the loop measures, deletes and measures again: every batch is a Round of the run, and the reason for stopping is true of the last measured state |
| `SpaceSweep.EveryBatch` | server/store/spacesweep.go:160-197 | every batch began over budget by its own measurement, deleted the sessions seen longest ago, all below the floor, and led on to the next measurement |
| `SpaceSweep.AloneDeletesOldest` | server/store/spacesweep.go:160-197 | undisturbed, the sweep deletes the sessions seen longest ago and no others, and the tables every batch met were over budget |
| `SpaceSweep.AnotherBatchIff` | server/store/spacesweep.go:160-164 | another batch follows exactly when the footprint is over budget, fewer than 5000 are gone and someone is below the floor |
| `SpaceSweep.SwitchedOnMeanwhile` | server/store/spacesweep.go:125-138 | an index switched on between two batches does not hold up the next one: only the start looks at it |
| `SpaceSweep.DeleteOldest` | server/store/spacesweep.go:166-171 | one batch deletes a full share or all that are below the floor, those seen longest ago, and none only when none is below the floor |
| `Latency.BucketIndex` | server/store/performance.go:392-399 | the bucket is the one whose bounds enclose the duration |
| `Latency.BucketIs` | server/store/performance.go:392-399 | a duration above the bounds before i and not above bound i belongs to bucket i |
| `Latency.BucketOfDuration` | server/store/performance.go:18-20 | the twelve buckets by their bounds |
| `Latency.CountAtMostIs` | server/store/performance.go:159-182 | the rank count is of the samples up to a duration, each once |
| `Latency.ErrorsAndSum` | server/store/performance.go:429-437 | errors counts exactly the failed samples, and the sum is that of all durations |
| `Latency.MergeIsOnePass` | server/store/performance.go:474-483 | merging two aggregates is aggregating all their samples in one pass |
| `Latency.MergedIsOnePass` | server/store/performance.go:404-493 | any split into batches and any grouping of merges, in any order, gives the one-pass aggregate |
| `Latency.CountersMean` | server/store/performance.go:429-437 | buckets sum to the requests, failures are among them, each prefix counts the samples up to its bound, and the maximum is attained |
| `Latency.Percentile` | server/store/performance.go:159-182 | the loop returns the specified percentile |
| `Latency.PercentileIsBound` | server/store/performance.go:159-182 | a percentile is the bound of the bucket holding the exact nearest-rank value, or the maximum in the last bucket, and never below that value |
| `Latency.NearestRankExists` | server/store/performance.go:159-182 | every rank of a non-empty sample has exactly one nearest-rank value |
| `Latency.PercentilesOrdered` | server/store/performance.go:144-151 | p50 <= p95 <= p99: a larger percentage never reports less |
| `Performance.KeyIsMinute` | server/store/performance.go:416-423 | an observation is filed under the minute it was made in, or the present one |
| `Performance.SampleIs` | server/store/performance.go:434-436 | a response of 500 or more, or one marked so, counts as an error |
| `Performance.AcceptableIs` | server/store/performance.go:364-369 | a batch is refused for a name beyond 512 characters or a duration outside an hour |
| `Performance.FiledIs` | server/store/performance.go:349-383 | each field is filed from its own text, trimmed, cut and named when empty |
| `Performance.SamplesAre` | server/store/performance.go:404-437 | each row gets the samples of exactly the observations filed under it |
| `Performance.FiledFits` | server/store/performance.go:349-383 | what is filed has a name in each field and fits it, and a too long endpoint refuses the batch |
| `Performance.TrimIsCore` | server/store/performance.go:350-353 | trimming takes blanks and nothing else off both ends, and leaves none there |
| `Performance.Accumulator.Record` | server/store/performance.go:429-437 | counting one observation in place is merging a single sample |
| `Performance.Accumulator.Add` | server/store/performance.go:126-142 | addRow and addAggregate merge in place |
| `Performance.Metrics.Save` | server/store/performance.go:404-493 | a batch is stored whole, or not at all exactly when some duration or endpoint length is out of range, and every row stays the one-pass aggregate of all its observations |
| `Performance.Gather` | server/store/performance.go:630-650 | the summary merges all rows, each endpoint and minute merges exactly its rows, and requests are conserved between all three levels |
| `Performance.PerformanceSeries` | server/store/performance.go:674-707 | at most 120 points, each the merge of one run of consecutive starts, and no request lost |
| `Performance.RunsPartition` | server/store/performance.go:688-692 | the runs of consecutive starts partition the sorted starts |
| `Analyze.BucketStarts` | server/analyze_api.go:710-716 | the bucket starts are increasing slot boundaries from the window's start, each the next of the one before, within the point limit |
| `Analyze.SlotCounts` | server/store/analyze.go:335-350 | each slot of the map counts exactly its rows in the range, and no slot is empty |
| `Analyze.BucketAt` | server/analyze_api.go:733 | the search finds the last start not after an instant |
| `Analyze.Fold` | server/analyze_api.go:726-739 | every matching row of the window is counted once, in the bucket containing its time, empty buckets are zero, and the total counts them all |
| `Analyze.SeriesSums` | server/analyze_api.go:736-739 | the buckets add up to the number of rows in the window |
| `Analyze.EvaluateHours` | server/analyze_api.go:645-661 | a window of the last hours has as many buckets as steps fit it and exact counts, and its last bucket holds the present exactly when the hour start is that of the hour in progress |
| `Pbkdf2.Derive` | server/store/users.go:61-89 | the buffer-reusing loop returns the key that section 5.2 of RFC 8018 defines, for every password, salt, count and length |
| `Pbkdf2.IntIs` | server/store/users.go:68-71 | the block number goes in as its four base-256 digits, most significant first |
| `Pbkdf2.KeyOctet` | server/store/users.go:61-89 | octet by octet, the key is the exclusive-or over the iterations of each block's pseudorandom octets |
| `Pbkdf2.DeriveBlock` | server/store/users.go:75-85 | the in-place iterations compute the exclusive-or of U_1 to U_c |
| `Pbkdf2.KeyIsPrefix` | server/store/users.go:86-88 | a shorter key is a prefix of a longer one |
| `Intervals.CountSplits` | server/analyze_api.go:736-739 | counts of adjoining intervals add up |
| `Intervals.CountIs` | server/analyze_api.go:736-739 | a count is of the instants from the start on and before the end, each once |

## Left out

- SearchIndex: retry timing, host load and the adaptive batch size are parameters (`busy`, `size`); the disk bytes the status page reports are not modelled.
- SessionQuery: the search text and the columns are ASCII as far as case and blanks go; Go's Unicode lower-casing of the search text is not modelled.
- Tables.Store: columns neither the session list nor the index reads are left out, and a session's listed duration is given as a value.
- Tracker.Tab: one tab with the storage it owns; a duplicated tab and a restored page are outside its steps (Tracker.TwoHoldersCollide and Tracker.RestoredPageCollides say when they break the numbering). Sampling, idle detection and the snapshot timer only decide which events exist.
- Tracker: retries and lost sends are the free choice of arrivals in Recording.ReplayIsRecording; log batches and the widget are left out.
- Handle.QueuedHandle.Activate: an answer to a promise that itself throws.
- Recording.Ingest.EnsureSession: the refusal of a session that belongs to another site, and gzip.
- Recording.Replay: the stored chunks do not change while the player pages through them.
- Stylesheets.Walk: documents are JSON trees with ordered fields; number precision, escapes in the key and duplicate keys are not modelled.
- StylesheetStore.Store.SaveEvents: a save nothing interrupts; interrupted saves are the steps of StylesheetRuns, where a sheet that fails to store stays inline.
- StylesheetStore.Store.ReadsBack: the same; StylesheetRuns.ReadsBack covers interrupted saves.
- Feedback.Store: campaign texts, placement, and deletion of sites, campaigns or responses.
- Exports.Manager: the context's deadlines and the HTTP download itself; throttling and progress numbers.
- SpaceSweep.SweepToBudget: the footprint is a function of the tables and the index documents, collection and vacuum are part of it, and a session seen while the sweep runs is seen after the cutoff.
- Playback.PlayTab: the stored chunks and sheets do not change while the player pages through them, and an event is its type, timestamp and data.
- RetentionSweep (server/store/sites.go:599-673): it is a sequence of the session and log deletions and the collection modelled elsewhere.
- Latency.Percentile: ranks are computed with integers, averages and rounding of floating point are left out.
- Performance.Filed: of the blanks trimmed, those beyond U+00A0.
- Performance.Gather: loading, ordering and the cut to the limit.
- Analyze.EvaluateHours: calendar days and custom ranges take their bucket starts as given instants (Analyze.BucketStarts); time zones, retention marks and the matching of rows are left out.
- Pbkdf2.Derive: HMAC-SHA256 is a parameter, and block numbers beyond four octets wrap as the code's do.
- HTTP routing, JSON decoding, cookies, Slack, settings, validators, users and the dashboard pages.
