# Verification models of Alice and Odysseus

Dafny models of the stateful and the parsing parts of the Python backend and of
the desktop shell, with proofs of what those parts are relied on for. One file
for each part:

| file | what it models |
|---|---|
| `Strings.dfy` | Option and Result, and Python's `replace`, `strip`, `lower`, `split`, `join`, `str` and `<` on strings |
| `IcsText.dfy` | the escaper of iCalendar TEXT values and a reader for section 3.3.11 of RFC 5545 |
| `CivilTime.dfy` | the proleptic Gregorian calendar and the printed forms of dates and times |
| `IcsCalendar.dfy` | calendar export, a strict RFC 5545 reader, the import rules |
| `Recurrence.dfy` | expansion of recurring events, the row filter before it, compound uids |
| `SessionStore.dfy` | chat sessions: two tables and the lazily hydrated cache in front of them |
| `Download.dfy` | the verifying downloader as a protocol that may be killed between any two steps |
| `Auth.dfy` | accounts, login sessions, second factor |
| `TokenCache.dfy` | the prefix index over API tokens, its invalidation and refresh |
| `Scopes.dfy` | the scope normaliser and the stored form of scopes |
| `EmailTools.dfy` | merging the newest messages of several accounts; numbering attachments |
| `AgentLoop.dfy` | the agent loop as a producer of events |
| `ContextGate.dfy` | context clamping, the memory estimate, the load gate |
| `Watchdog.dfy` | the shell's restart budget |

Code that changes things step by step is written as methods, and as classes
where the source has objects whose fields change. Each such method is proved
equal to a function of the old state, and the laws are proved about those
functions, over whole runs where the source is a state machine. Instants are
counted in microseconds, except in `Auth.dfy` (seconds) and `Watchdog.dfy`
(real seconds). Clocks, random tokens, row ids, the network, the language
model and the tools are parameters, and so is what a network or a file system
does; the download protocol allows whatever they may do. A one-way hash is
modelled by what it can be asked: a password or token matches its own hash and
no other.

## Where the code and its comments disagree

The models follow the code.

- The duplicate test of the calendar import is described as being by source uid
  and start; it compares start and title (`IcsCalendar.DedupIgnoresUid`).
- `_expand_rrule` returns an event with a blank rule without an overlap check,
  because the row filter is said to have made it; the filter treats a rule of
  blanks as a rule (`Recurrence.ListingExactIff`).
- `_largest_fitting_key` walks the picker order from its end, the largest tier;
  its comment says smallest first (`ContextGate.SuggestionRight`).
- `cleanup_empty_sessions` is documented to clean up empty and old sessions; no
  session is ever archived by it (`SessionStore.CleanupRefines`).

## Laws that fail, and exactly when

- An export does not read back if a uid or a rule holds a line break or a year
  has not four digits (`IcsCalendar.ReadExportIff`); it loses carriage returns,
  fractions of seconds and parts of days (`IcsCalendar.CanonicalIff`).
- A repeated import duplicates components without a uid
  (`IcsCalendar.ReimportIdempotent`), and so can importing a calendar's own
  export (`IcsCalendar.SelfImportIff`).
- The final list of events puts a whole second in UTC after its own fractions
  (`Recurrence.PrintedOrderIff`).
- The row filter of the listing goes by the start of an event, its series begins
  in the whole second before it; the first occurrence is lost to a window that
  ends between the two (`Recurrence.PrefilterCompleteIff`).
- Adjacent windows lose an occurrence without duration that lies on the cut
  (`Recurrence.CutsLoseNothingIff`).
- Compound uids do not resolve for base uids with "::" or a trailing colon
  (`Recurrence.ResolveCompoundIff`), and occurrences within one minute share one
  (`Recurrence.OccurrenceUidIff`).
- A text message that is itself a JSON list of typed objects comes back as a
  list (`SessionStore.ContentRoundTripIff`).
- A truncation picks its rows by time stamp and cuts the history by position;
  the two differ if the clock has gone back (`SessionStore.TruncateKeepsHeadIff`).
- Keeping more messages than there are breaks the counter
  (`SessionStore.TruncateCountIff`), and so does persisting through a session
  that is not in memory (`SessionStore.PersistCountIff`); the next cleanup
  then deletes messages, unless another chat keeps it from committing
  (`SessionStore.StaleAddThenCleanupLosesIff`).
- A cleanup of the sessions compares a time without a zone, as the table gives
  it, to one with a zone (`session_manager.py:619` and `634`), which raises: it
  deletes nothing as long as some session with messages is not archived
  (`SessionStore.CleanupRefines`, `SessionStore.EmptyChatStays`), and so never
  archives anything.
- A manifest whose entries for one path contradict each other can be published
  with files that do not match; any other is safe (`Download.CrashSafeIff`).
- A restart at the very instant a session expires drops a session the check
  would still accept (`Auth.RestartTransparentIff`); a first user created other
  than by the setup need not be an administrator (`Auth.AdminAfterCreateIff`).
- A token change announced during a refresh leaves wrong answers if it changes
  what is granted (`TokenCache.StepKeepsIff`, `TokenCache.AlwaysRightIff`,
  `TokenCache.OverlapLeavesStaleIndex`).
- A mailbox whose order is not by date, or a fetch that fails in front of one
  that succeeds, gives a wrong selection (`EmailMerge.ReliableIff`,
  `EmailMerge.FailureIff`).
- A first load can run with a context the gate would now refuse
  (`ContextGate.FirstLoadIff`).

## Model

| member | source | states |
|---|---|---|
| `IcsText.EscapeIsTransduce` | backend/odysseus/routes/calendar_routes.py:86-101 | The six chained replacements give, on every text, what one left-to-right pass over its characters gives; an escape that has been added is never escaped again. |
| `IcsText.EscapeRoundTrip` | backend/odysseus/routes/calendar_routes.py:86-101 | The TEXT reader of RFC 5545 section 3.3.11, which refuses bare commas, semicolons and line breaks, accepts every escaped text and returns the original with CRLF, CR and LF all read as LF. |
| `IcsText.EscapeInjective` | backend/odysseus/routes/calendar_routes.py:86-101 | Two texts are escaped alike if and only if they differ in newline style at most. |
| `IcsText.EscapeOneLine` | backend/odysseus/routes/calendar_routes.py:86-101 | No raw CR or LF is left, so an escaped value can never end its content line. |
| `CivilTime.ReadDateOfBasic` | backend/odysseus/routes/calendar_routes.py:1161-1162 | Reading a printed DATE back gives midnight of the printed day, for every day of the years 1000 to 9999. |
| `CivilTime.ReadDateTimeOfBasic` | backend/odysseus/routes/calendar_routes.py:1165-1166 | Reading a printed DATE-TIME back gives the printed instant without its fraction of a second. |
| `CivilTime.ReadIsoOfIso` | backend/odysseus/routes/calendar_routes.py:426-429 | Reading what `isoformat` prints gives the instant back to the microsecond, for every year up to 9999. |
| `CivilTime.ExtendedDateInjective` | backend/odysseus/routes/calendar_routes.py:525-526 | Two dates are printed alike in an occurrence's uid if and only if they are the same day. |
| `CivilTime.ExtendedMinuteInjective` | backend/odysseus/routes/calendar_routes.py:527-528 | Two times are printed alike in an occurrence's uid if and only if they fall into the same minute. |
| `IcsCalendar.Export` | backend/odysseus/routes/calendar_routes.py:1150-1176 | The list of lines grown in place and joined is the preamble, the lines of every event in order and the end of the calendar. |
| `IcsCalendar.AppendEvent` | backend/odysseus/routes/calendar_routes.py:1156-1173 | One pass of the loop appends exactly the lines of its event, the optional ones only where there is a value. |
| `IcsCalendar.ReadExport` | backend/odysseus/routes/calendar_routes.py:1150-1176 | An RFC 5545 reader that splits at CRLF, unfolds, parses each line and refuses repeated or unreadable properties accepts the export and finds every event with its texts unescaped and its times read back, whatever the texts contain, and refuses it if a year has not four digits; uids and rules are taken to hold no line break. |
| `IcsCalendar.ReadExportIff` | backend/odysseus/routes/calendar_routes.py:1158-1172 | The export reads back as its events if and only if no event has a line break in its uid or its rule, the two values that are printed unescaped, and every year printed has four digits. |
| `IcsCalendar.ReadCalendarName` | backend/odysseus/routes/calendar_routes.py:1150-1155 | The text opens with the version, the product and a line from which the calendar's name is read back, newlines normalised, and it closes with the end of the calendar. |
| `IcsCalendar.ExportedRight` | backend/odysseus/routes/calendar_routes.py:1144-1148 | Every row of the calendar that is not cancelled is exported, as often as it is there, and no other. |
| `IcsCalendar.Import` | backend/odysseus/routes/calendar_routes.py:1035-1118 | The two counters and the rows added: every component with a start is stored in order, unless it has a uid and a committed row of the calendar already has its start and title; the counters add up to the components. |
| `IcsCalendar.StoredRow` | backend/odysseus/routes/calendar_routes.py:1075-1112 | Every row an import adds belongs to a component: for each of the four kinds of stamp its start is that instant, converted to UTC if zoned; it is marked UTC exactly for UTC and zoned stamps and all-day exactly for dates; its end is the instant of DTEND, or midnight of its day, and without one an hour or a day later; its texts and rule are the component's, its uid the fresh one. |
| `IcsCalendar.ExportImportRoundTrip` | backend/odysseus/routes/calendar_routes.py:1035-1176 | Exporting events and importing the text into a fresh calendar stores, in order, each event's title, description, location, start, end, all-day and UTC flags and rule, up to newline style, whole seconds and whole days. |
| `IcsCalendar.CanonicalIff` | backend/odysseus/routes/calendar_routes.py:1150-1173 | The stored copy equals the exported event if and only if its texts have no CR, a timed event starts and ends on whole seconds, and an all-day event at midnight and not in UTC. |
| `IcsCalendar.StoredAfterImport` | backend/odysseus/routes/calendar_routes.py:21-35 | After an import every component with a start finds its duplicate: the key computed for the query is the start the row is stored with, for dates, floating, UTC and zoned times alike. |
| `IcsCalendar.Reimport` | backend/odysseus/routes/calendar_routes.py:1050-1072 | Importing a file a second time adds exactly one row for each of its components that has a start and no uid. |
| `IcsCalendar.ReimportIdempotent` | backend/odysseus/routes/calendar_routes.py:1050-1072 | A second import adds nothing if and only if every component with a start has a uid. |
| `IcsCalendar.DedupIgnoresUid` | backend/odysseus/routes/calendar_routes.py:1050-1072 | The duplicate test is by start and title, not by uid as its comment says: giving the components of a file any other uids changes nothing in what its import stores. |
| `IcsCalendar.SkippedIff` | backend/odysseus/routes/calendar_routes.py:1050-1072 | A component with a start and a uid, wherever it stands in a file, is skipped if and only if the calendar has a committed row with its start and title, be it the same event or another; otherwise exactly its row is added between those of the components before and after it, which it does not affect. |
| `IcsCalendar.NewRowsConcat` | backend/odysseus/routes/calendar_routes.py:1050-1107 | Importing a file is importing its parts, each against the rows committed before: a twin within one file is not recognised. |
| `IcsCalendar.SelfImportIff` | backend/odysseus/routes/calendar_routes.py:1035-1176 | Importing a calendar's own export back into it adds no row if and only if every exported event has a uid and some row of the calendar has the start and title it was exported with. |
| `IcsCalendar.KnowsItself` | backend/odysseus/routes/calendar_routes.py:1035-1176 | An event is such a row for itself if its title has no CR and it starts on a whole second, or day if it is all-day. |
| `Recurrence.Between` | backend/odysseus/routes/calendar_routes.py:508 | The walk along a finite or endless ascending series ends, and returns exactly the instants between the bounds, in order. |
| `Recurrence.Expand` | backend/odysseus/routes/calendar_routes.py:449-546 | Widening the window by the duration and filtering gives, in ascending order and once each, precisely the occurrences that overlap the window, for durations of any sign; blank and unparsable rules give the base event as the code does. |
| `Recurrence.HandedOutRight` | backend/odysseus/routes/calendar_routes.py:413-546 | Everything an event contributes to a listing carries its series and its duration and prints a start that reads back as its own, as a date, or as a time with its fraction and its mark of UTC; an occurrence of a rule is marked as one and its uid names its own day or minute, and the event itself keeps its uid and start. |
| `Recurrence.ImportedShown` | backend/odysseus/routes/calendar_routes.py:1075-1112 | What a client reads of an imported event is what the file said: zoned times as the UTC instant they stand for, UTC times, floating times and dates as they are. |
| `Recurrence.ExpansionUnique` | backend/odysseus/routes/calendar_routes.py:503-546 | That description determines the whole result, uids and end times included. |
| `Recurrence.WindowAdditive` | backend/odysseus/routes/calendar_routes.py:517-520 | For any duration: expanding [a, c) is expanding [a, b) and [b, c) with the occurrences that straddle b, the last of the one and the first of the other, listed once, and with those in between that end no later than b and start no earlier, of which there are none if occurrences last. |
| `Recurrence.CutsLoseNothingIff` | backend/odysseus/routes/calendar_routes.py:517-520 | Cutting a window in two loses no occurrence for any cut if and only if occurrences have a positive duration. |
| `Recurrence.ListEvents` | backend/odysseus/routes/calendar_routes.py:742-776 | The rows fetched are expanded one by one in order, each contributing its own expansion and the rest nothing, and the whole is sorted by printed start. |
| `Recurrence.SortPrintedRight` | backend/odysseus/routes/calendar_routes.py:775 | The final list holds the same occurrences in the order of their printed starts, those printed alike in the order they had. |
| `Recurrence.PrintedOrderIff` | backend/odysseus/routes/calendar_routes.py:422-429 | Of two different starts with four-digit years, all-day ones at midnight, the earlier is listed first, if and only if it is not a whole second in UTC and the other a fraction of the same second. |
| `Recurrence.ListedInTime` | backend/odysseus/routes/calendar_routes.py:742-776 | A listing of occurrences on whole seconds, all-day ones at midnight, is in the order of time, UTC or not, all-day or timed. |
| `Recurrence.PrefilterCompleteIff` | backend/odysseus/routes/calendar_routes.py:753-760 | The row filter in front of the expansion drops no recurring event that has an occurrence in the window, if and only if the window does not end between the whole second in which the series begins and the start of the event, a fraction of that second later, while that first occurrence reaches into it. |
| `Recurrence.ListingExactIff` | backend/odysseus/routes/calendar_routes.py:742-772 | An event contributes precisely its occurrences that overlap the window, if and only if it is neither one whose rule is nothing but blanks and which ended before the window, nor one whose first occurrence the row filter drops for the fraction of a second. |
| `Recurrence.ResolveCompoundIff` | backend/odysseus/routes/calendar_routes.py:104-118 | A compound uid resolves to its base uid if and only if the base is not empty, holds no "::" and does not end in a colon. |
| `Recurrence.ResolveBaseUidRight` | backend/odysseus/routes/calendar_routes.py:104-118 | For every uid: what stands in front of the first "::", the whole uid if it has none, and an error exactly for the empty uid and for one that begins with "::". |
| `Recurrence.OccurrenceUidIff` | backend/odysseus/routes/calendar_routes.py:522-528 | Two occurrences of an event share a uid if and only if they fall on one day (all-day) or into one minute (timed). |
| `Recurrence.ExpansionResolves` | backend/odysseus/routes/calendar_routes.py:104-118 | Every uid an expansion hands out leads back to its series, under exactly that condition on the base uid. |
| `SessionStore.ContentRoundTripIff` | backend/odysseus/core/session_manager.py:32-44 | A stored message content is read back as it was if and only if it is text that does not itself parse as a JSON list of objects mentioning "type", or a list whose JSON is recognised as one. |
| `SessionStore.GetTransparent` | backend/odysseus/core/session_manager.py:347-368 | In every consistent state, whatever part of it is in memory, a read finds a session if and only if it has a row, and returns its stored messages in order, its metadata and the right count. |
| `SessionStore.RestartTransparent` | backend/odysseus/core/session_manager.py:67-98 | After a restart that preloads any subset of the sessions a read finds the same sessions, metadata, counts and messages; the histories are equal if and only if none of the messages was held in memory without a time stamp, as one is after a replacement. |
| `SessionStore.AddRefines` | backend/odysseus/core/session_manager.py:187-254 | Adding a message keeps memory, rows and counter consistent and appends it to its own chat only, with its time stamp, or else the present time, and its row id. |
| `SessionStore.AddedMessageRead` | backend/odysseus/core/session_manager.py:187-254 | A read after an addition finds the history as it was read before and the message at its end, with its own time stamp or else the present time, and its row id. |
| `SessionStore.LateMessageDropped` | backend/odysseus/core/session_manager.py:206-212 | A message for a session that is gone changes neither table and drops that session, and no other, from memory. |
| `SessionStore.NoOrphanRow` | backend/odysseus/core/session_manager.py:201-254 | Whatever is persisted, no message row is without its session row, and one is added exactly if there is a session row. |
| `SessionStore.TruncateRefines` | backend/odysseus/core/session_manager.py:256-292 | A truncation that cuts in time order keeps them consistent and leaves the first messages of that chat and all other chats; a negative count changes nothing. |
| `SessionStore.TruncateKeepsHeadIff` | backend/odysseus/core/session_manager.py:265-281 | The rows a truncation leaves, which it picks by time stamp, are the head of the chat, which is read in table order, if and only if no row kept is younger than a row that had to go. |
| `SessionStore.ByTimeFixesIff` | backend/odysseus/core/session_manager.py:265-267 | Reading by time stamp and reading in table order agree if and only if the rows are in time order. |
| `SessionStore.TimelyRunAdmissible` | backend/odysseus/core/session_manager.py:187-650 | With a clock that does not go back behind a stored time stamp the table stays in time order over every run, so every truncation cuts in time order. |
| `SessionStore.TruncateCountIff` | backend/odysseus/core/session_manager.py:272-281 | The stored counter is right after a truncation if and only if no more messages were to be kept than there were. |
| `SessionStore.TruncateBeyond` | backend/odysseus/core/session_manager.py:256-292 | Keeping more messages than there are removes none, in the table or in memory. |
| `SessionStore.ReplaceRefines` | backend/odysseus/core/session_manager.py:294-341 | Replacing keeps them consistent and makes that chat the given messages, and no other; those without a time stamp are stored a microsecond apart from the present time on. |
| `SessionStore.ReplacedMessagesRead` | backend/odysseus/core/session_manager.py:294-341 | A read after a replacement finds the given messages in order, under their new row ids and with the time stamps they came with. |
| `SessionStore.CreateRefines` | backend/odysseus/core/session_manager.py:443-487 | Creating succeeds if and only if the id is new, and adds an empty chat. |
| `SessionStore.DeleteRefines` | backend/odysseus/core/session_manager.py:489-529 | Deleting removes that chat, its rows and its cache entry, and nothing else. |
| `SessionStore.CleanupRefines` | backend/odysseus/core/session_manager.py:612-650 | A cleanup commits if and only if every chat with messages is archived, and then deletes exactly the sessions without messages; otherwise it raises and changes no chat. It never loses a message and never archives a session. |
| `SessionStore.PassedIff` | backend/odysseus/core/session_manager.py:619-640 | A cleanup that raises has come past exactly the sessions in front of the first one that has messages and is not archived. |
| `SessionStore.EmptyChatStays` | backend/odysseus/core/session_manager.py:612-650 | One chat in use keeps every empty session: of a session with a message and an empty one the empty one is still found after a cleanup. |
| `SessionStore.PersistCountIff` | backend/odysseus/core/session_manager.py:235 | Persisting a message writes the right counter if and only if the cached history already holds it on top of all stored ones. |
| `SessionStore.StaleAddThenCleanupLosesIff` | backend/odysseus/core/session_manager.py:201-254 | If the session is not in memory when a message is persisted, the counter becomes zero; the next cleanup then deletes the session with all its messages if and only if every other chat with messages is archived, and otherwise deletes nothing. |
| `SessionStore.StepRefines` | backend/odysseus/core/session_manager.py:187-650 | Each operation on tables and cache, a cleanup that raises and a message for a deleted session included, does to the chats, their messages with time stamps and row ids and their metadata, what the same operation on a plain map from sessions to chats does, and keeps the invariant. |
| `SessionStore.RunRefines` | backend/odysseus/core/session_manager.py:187-650 | The same for every run of operations. |
| `SessionStore.ReadAfterRun` | backend/odysseus/core/session_manager.py:347-427 | After any run from an empty database a read of any session succeeds exactly if the plain map has it, and returns the metadata and the messages the plain map has, though one that came without a time stamp in a replacement may still lack it. |
| `SessionStore.ReadAfterRestart` | backend/odysseus/core/session_manager.py:67-98 | After any run and a restart a read returns exactly what the plain map has, time stamps and row ids included. |
| `SessionStore.SessionManager.LoadSessions` | backend/odysseus/core/session_manager.py:67-98 | In place: the cache becomes metadata-only entries of the sessions the query returns. |
| `SessionStore.SessionManager.LoadSessionFromDb` | backend/odysseus/core/session_manager.py:402-427 | In place: a session with a row is hydrated from its message rows, one without is reported missing. |
| `SessionStore.SessionManager.SyncSessionMetadata` | backend/odysseus/core/session_manager.py:370-400 | In place: metadata and count of the cached entry become those of the row, its history stays. |
| `SessionStore.SessionManager.GetSession` | backend/odysseus/core/session_manager.py:347-368 | In place: hydrate if absent or empty with a positive count, refresh, touch; everything else stays. |
| `SessionStore.SessionManager.PersistMessage` | backend/odysseus/core/session_manager.py:201-254 | In place: the row, the counter and the time stamp, or, without a session row, the cache entry dropped and nothing written. |
| `SessionStore.SessionManager.AddMessage` | backend/odysseus/core/session_manager.py:187-199 | In place: the specification of an addition, for which AddRefines is proved. |
| `SessionStore.SessionManager.TruncateMessages` | backend/odysseus/core/session_manager.py:256-292 | In place, deleting row by row: the specification of a truncation, for which TruncateRefines is proved. |
| `SessionStore.SessionManager.ReplaceMessages` | backend/odysseus/core/session_manager.py:294-341 | In place, inserting row by row: the specification of a replacement, for which ReplaceRefines is proved. |
| `SessionStore.SessionManager.CreateSession` | backend/odysseus/core/session_manager.py:443-487 | In place: a row and an empty cache entry, or nothing on a conflict. |
| `SessionStore.SessionManager.DeleteSession` | backend/odysseus/core/session_manager.py:489-529 | In place: rows, session and cache entry gone; nothing is committed for an id known nowhere; the result says which. |
| `SessionStore.SessionManager.CleanupEmptySessions` | backend/odysseus/core/session_manager.py:612-650 | In place, session by session in the order of the query: it raises at the first that is neither empty nor archived, which leaves the tables as they were and the cache without the empty sessions met before; if there is none, those counted empty are deleted and their number returned. |
| `Download.NextKeeps` | backend/alice_ai/model_manager/downloader.py:325-463 | Every step of the protocol keeps the invariant that a published directory is complete and that each program point has verified what it says. |
| `Download.BehaviourSafe` | backend/alice_ai/model_manager/downloader.py:325-463 | So it holds at every point of every run of calls, each of which may raise or be killed between any two steps. |
| `Download.PublishedIsVerified` | backend/alice_ai/model_manager/downloader.py:325-463 | From an empty cache, for a manifest whose entries do not contradict each other: whenever the sentinel is in the target, every expected file is there with its expected size and digest, and without checksums the main file is there and not empty. |
| `Download.ReturnMeansPublished` | backend/alice_ai/model_manager/downloader.py:325-378 | A call that returned has published. One that raised leaves the target published if and only if it was adopting what it found there, all of it verified, and the write of the sentinel raised after creating it. |
| `Download.PublishedIsFinal` | backend/alice_ai/model_manager/downloader.py:335-337 | Once published, no later call or kill changes the disk: every later call is a cache hit. |
| `Download.RefetchKeepsAwaiting` | backend/alice_ai/model_manager/downloader.py:433-463 | Fetching one file again leaves the verified files of other paths verified. |
| `Download.MatchEndsAwaiting` | backend/alice_ai/model_manager/downloader.py:433-463 | Once the file fetched again matches its entry, it and all files before it match theirs, earlier entries for its path included. |
| `Download.CrashSafeIff` | backend/alice_ai/model_manager/downloader.py:325-463 | For every manifest without the sentinel: no run from an empty cache, whatever is killed or raises in it, publishes anything but what was expected, if and only if no two entries for one path contradict each other in digest or size (or no fetch attempt is allowed). |
| `Download.IncoherentUnsafe` | backend/alice_ai/model_manager/downloader.py:413-463 | Any manifest with entries that contradict each other has a run that returns normally with a published directory that is not what was expected. |
| `Download.CoherentIffSatisfiable` | backend/alice_ai/model_manager/downloader.py:413-463 | No two entries contradict each other if and only if some directory passes the verification of all of them. |
| `Download.Downloader.Download` | backend/alice_ai/model_manager/downloader.py:325-378 | The method, step by step on two directories. It returns exactly if the target is published; or every expected file in it can be read and matches and the sentinel can be written; or the check does not raise, the preflight passes, some allowed attempt succeeds with only retriable failures before it, every file matches at once or after its one refetch, and sentinel, removal and rename go through. What is then published is stated, and every intermediate disk is a step of the protocol. |
| `Download.Downloader.AllFilesVerifyInPlace` | backend/alice_ai/model_manager/downloader.py:308-323 | It answers yes exactly if the target is there and every file can be read and matches, and raises exactly if a file cannot be read and all before it match. |
| `Download.Downloader.Fetch` | backend/alice_ai/model_manager/downloader.py:381-410 | It succeeds exactly if some attempt within the allowed number does and all before it fail in a way that is retried; `.partial` is then what that attempt left. |
| `Download.Downloader.VerifyAll` | backend/alice_ai/model_manager/downloader.py:413-463 | It succeeds exactly if every file, taken in order, matches at once or after its one refetch; without checksums, if the main file is there and not empty. |
| `Download.Downloader.VerifyOne` | backend/alice_ai/model_manager/downloader.py:433-463 | One file: it succeeds exactly if the file can be read and matches, or is fetched again without an error, can be read and then matches. |
| `Download.AllHoldIff` | backend/alice_ai/model_manager/downloader.py:413-463 | Where no path is listed twice, verification succeeds if and only if every file arrived right or the one time it is fetched again brings it right, whatever becomes of the others. |
| `Download.Downloader.RefetchOne` | backend/alice_ai/model_manager/downloader.py:465-491 | The second fetch replaces its own file and may leave unexpected ones, and nothing else. |
| `Download.Downloader.Publish` | backend/alice_ai/model_manager/downloader.py:364-377 | Sentinel, removal and rename in this order, each of which may be the last; it succeeds exactly if the sentinel is written, nothing is left in the way and the rename works, and the target is then `.partial` with the sentinel. |
| `Download.Downloader.Relaunch` | backend/alice_ai/model_manager/downloader.py:325-378 | A kill and a new call: only the disk survives. |
| `Auth.StepKeeps` | backend/odysseus/core/auth.py:189-515 | Every account, session and second-factor operation keeps accounts, sessions, saved sessions and backup codes consistent. |
| `Auth.ReachableConsistent` | backend/odysseus/core/auth.py:189-515 | From an unconfigured server, in every reachable state: every session belongs to an existing user, every name is trimmed, lower-case and not reserved, and there is an administrator unless there are no users. |
| `Auth.TokenNamesItsAccount` | backend/odysseus/core/auth.py:471-494 | In every reachable state a token names the very account it was issued to, however that account was renamed and whatever accounts of its old name came and went. |
| `Auth.DeletedTokenDead` | backend/odysseus/core/auth.py:218-260 | No token of a deleted account validates ever again, a later account of the same name included. |
| `Auth.DeletedOwnerTokenless` | backend/odysseus/core/auth.py:246-258 | No API token row is left that the deleted account owned, over every later run, until one is minted for that name again or a rename moves one to it. |
| `Auth.RenameMovesSessions` | backend/odysseus/core/auth.py:262-294 | A rename moves every session of the old name to the new one, touches no other, and no token gains or loses validity. |
| `Auth.ChecksAgree` | backend/odysseus/core/auth.py:446-494 | In every state a token validates if and only if it names a user, and both checks leave the same sessions behind. |
| `Auth.RestartTransparentIff` | backend/odysseus/core/auth.py:112-126 | A restart changes no later check if and only if no session expires at that very instant, which loading drops and the check would still accept. |
| `Auth.AdminAfterCreateIff` | backend/odysseus/core/auth.py:196-216 | Creating a user leaves an administrator if and only if there was one, the new user is one, or the name is refused. |
| `Auth.BackupCodesSpentOnce` | backend/odysseus/core/auth.py:365-407 | In every reachable state, for every code: the times it is left plus the times it was accepted since 2FA was enabled is the times it was issued. |
| `Auth.NormalizeTwice` | backend/odysseus/core/auth.py:196-198 | Normalising a name again changes nothing. |
| `Auth.NormalizeAlike` | backend/odysseus/core/auth.py:196-198 | Case and surrounding white space make no difference to which account a name means. |
| `Auth.NormalizeRight` | backend/odysseus/core/auth.py:196-198 | A normalised name is the lower-case form of the name without the white space around it. |
| `Auth.AnswersByTheBook` | backend/odysseus/core/auth.py:189-444 | Over every run each answer is the one a plain book of accounts gives: a login, a password change and the disabling of 2FA succeed if and only if the password given is the one last set for the account of that name; a code passes if and only if 2FA is off, or a secret is stored and the code is an unspent backup code or the one-time password holds; a setup succeeds only on an empty server; creations, deletions and renames by their stated guards. |
| `Auth.RefusedChangesNothing` | backend/odysseus/core/auth.py:189-444 | An operation that is refused leaves the whole state as it was. |
| `Auth.LoginRight` | backend/odysseus/core/auth.py:432-444 | The token of a login names that account for 604800 seconds and no longer, every other token is worth what it was, and no account changes. |
| `Auth.RevokedRight` | backend/odysseus/core/auth.py:501-515 | Revoking a user's sessions ends exactly those that name the user, other than the one spared. |
| `Auth.TokenLastsIff` | backend/odysseus/core/auth.py:432-515 | Over every run a token validates if and only if its time has not passed and nothing in the run has ended its session: its own revocation, one of its user that does not spare it, the deletion of its account, or a check or restart after it had run out. |
| `Auth.OtherTokensStay` | backend/odysseus/core/auth.py:246-258 | Deleting an account leaves the API token rows of all others. |
| `Auth.TokensFollow` | backend/odysseus/routes/auth_routes.py:296-315 | Renaming moves exactly the API token rows of the old name, in whatever case it was stored, to the new one. |
| `Auth.AuthManager.LoadSessions` | backend/odysseus/core/auth.py:112-126 | In place: what the file holds without what has expired, saved back. |
| `Auth.AuthManager.AddUser` | backend/odysseus/core/auth.py:196-216 | In place: the new account, or nothing for an empty, reserved or taken name. |
| `Auth.AuthManager.FirstRunSetup` | backend/odysseus/core/auth.py:189-194 | In place: an administrator, only while there are no users. |
| `Auth.AuthManager.RemoveUser` | backend/odysseus/core/auth.py:218-260 | In place: the account, all its sessions and the API token rows it owns gone, or nothing for an unknown name, oneself or a requester who is no administrator. |
| `Auth.AuthManager.MoveUser` | backend/odysseus/core/auth.py:262-294 | In place: account moved, every live session of it renamed, sessions saved if there were any. |
| `Auth.AuthManager.Login` | backend/odysseus/core/auth.py:432-444 | In place: a session for the right password, nothing for a wrong one. |
| `Auth.AuthManager.CheckToken` | backend/odysseus/core/auth.py:446-469 | In place: the verdict, and a session that is expired or orphaned dropped and saved. |
| `Auth.AuthManager.WhoIs` | backend/odysseus/core/auth.py:471-494 | In place: the user, and the same sessions dropped. |
| `Auth.AuthManager.RevokeAll` | backend/odysseus/core/auth.py:501-515 | In place: all sessions of the user but the spared one, and their number. |
| `Auth.AuthManager.VerifyCode` | backend/odysseus/core/auth.py:386-407 | In place: a backup code is accepted and removed once, otherwise the one-time password decides; without a stored secret it fails. |
| `Auth.AuthManager.SetPassword` | backend/odysseus/core/auth.py:331-339 | In place: the new password, or nothing for an unknown name or a wrong current password. |
| `Auth.AuthManager.ConfirmEnable` | backend/odysseus/core/auth.py:365-384 | In place: the pending secret becomes the secret, 2FA is on and the codes are fresh, or nothing. |
| `Auth.AuthManager.Disable` | backend/odysseus/core/auth.py:409-420 | In place: secret, pending secret and codes gone, or nothing for a wrong password. |
| `TokenCache.IndexRefinesScan` | backend/odysseus/app.py:317-331 | Looking a token up among the rows filed under its first eight characters gives the same id, owner and scopes, or the same refusal, as a scan of all active rows. |
| `TokenCache.ScanIff` | backend/odysseus/app.py:400-419 | A token is let in, with the id, owner and scopes of its row, if and only if it has an active row and from 12 to 100 characters. |
| `TokenCache.AnswerChanges` | backend/odysseus/app.py:306-331 | A new row lets in its own token, new scopes reach exactly the token of that id, a removal shuts out exactly that of its id or those of its owner, and no change of the table alters any other answer. |
| `TokenCache.MintedIsGranted` | backend/odysseus/app.py:306-331 | From its minting on an active token is granted with its owner and scopes throughout every orderly run, wherever no change is unannounced, until something concerns its row. |
| `TokenCache.RemovedIsRefused` | backend/odysseus/app.py:306-331 | Once a token row is removed, no orderly run, at any point where its changes are announced, grants its id again, unless a row with that id is minted anew. |
| `TokenCache.StepKeepsIff` | backend/odysseus/app.py:306-331 | An event leaves every answer what a scan of the table gives, once no invalidation is on its way, if and only if it is not the last invalidation arriving while a refresh holds rows that grant something else. |
| `TokenCache.AlwaysRightIff` | backend/odysseus/app.py:306-331 | The answers are right throughout a run, wherever no invalidation is on its way, if and only if every event of the run is orderly in this sense. |
| `TokenCache.AnswersRight` | backend/odysseus/app.py:400-419 | After any orderly run with every change announced, the bearer lookup answers as a scan of the table would. |
| `TokenCache.OverlapLeavesStaleIndex` | backend/odysseus/app.py:317-331 | A refresh that overlaps a removal and its invalidation leaves an old index marked clean, and the removed token is still accepted. |
| `TokenCache.TokenAuth.Refresh` | backend/odysseus/app.py:317-331 | In place: afterwards the flag is clean and the index is the active rows by prefix. |
| `TokenCache.TokenAuth.Authenticate` | backend/odysseus/app.py:400-419 | In place, refreshing if dirty: the answer a scan of the table gives. |
| `TokenCache.TokenAuth.CreateToken` | backend/odysseus/routes/api_token_routes.py:112-149 | In place: the row added, and what it grants read back as the normalised scopes. |
| `TokenCache.TokenAuth.UpdateToken` | backend/odysseus/routes/api_token_routes.py:152-176 | In place: the scopes of that row replaced, or nothing for an unknown id. |
| `TokenCache.TokenAuth.DeleteToken` | backend/odysseus/routes/api_token_routes.py:179-187 | In place: the row removed, or nothing for an unknown id. |
| `Scopes.NormalizeScopes` | backend/odysseus/routes/api_token_routes.py:36-69 | The loops over the request: the normal form, the first scope that is not allowed, or an unknown profile. |
| `Scopes.ProfileFirst` | backend/odysseus/routes/api_token_routes.py:36-48 | A profile decides whatever scopes are given with it, and is accepted exactly if it is one of the three; without profile and scopes the request is for chat. |
| `Scopes.RequestedWords` | backend/odysseus/routes/api_token_routes.py:45-48 | However the words of a text are set apart by blanks and commas, they are what is requested, in order. |
| `Scopes.DedupeOrder` | backend/odysseus/routes/api_token_routes.py:50-55 | Of two scopes the one asked for first comes first. |
| `Scopes.EnsureReads` | backend/odysseus/routes/api_token_routes.py:57-67 | The five in-place insertions, one after the other. |
| `Scopes.NormalizedRight` | backend/odysseus/routes/api_token_routes.py:36-69 | No duplicates; the requested scopes in first-occurrence order; exactly the missing read scopes added, each immediately before its write scope. |
| `Scopes.NormalizedIdempotent` | backend/odysseus/routes/api_token_routes.py:36-69 | Normalising a normalised list changes nothing. |
| `Scopes.NormalizedSurvivesStorage` | backend/odysseus/routes/api_token_routes.py:125-126 | The comma-joined column reads back, with the splitting the middleware does, as the list that was stored. |
| `EmailMerge.SortRight` | backend/odysseus/mcp_servers/email_server.py:521 | The sort is newest-first and keeps messages of one instant in their order. |
| `EmailMerge.StableSortUnique` | backend/odysseus/mcp_servers/email_server.py:521 | Those two properties leave only one list, so the result does not depend on the sorting algorithm. |
| `EmailMerge.TopK` | backend/odysseus/mcp_servers/email_server.py:497-522 | If every mailbox is newest-first and loses nothing by failed fetches, the newest k of each, concatenated, sorted and cut to k are the newest k of all that can be fetched, ties included. |
| `EmailMerge.ListEmails` | backend/odysseus/mcp_servers/email_server.py:446-482 | Of the newest k by position, fetched one by one, exactly those whose header comes, in order. |
| `EmailMerge.ListAcrossAccounts` | backend/odysseus/mcp_servers/email_server.py:497-522 | The loop with its two accumulators: the messages shown, each tagged with its account, sorted and cut to k, which is the global top k under the conditions of TopK; and the text of every error, in order. |
| `EmailMerge.FailureIff` | backend/odysseus/mcp_servers/email_server.py:450-480 | For a mailbox that is newest-first the answer for k is right in the company of any reliable accounts, if and only if none of its newest k fails to be fetched or nothing older can be. |
| `EmailMerge.ReliableIff` | backend/odysseus/mcp_servers/email_server.py:497-522 | The answer is right for every k and in the company of any reliable accounts, if and only if the account is newest-first by date and loses nothing by failed fetches. |
| `Attachments.ListAttachments` | backend/odysseus/mcp_servers/email_server.py:591-618 | The loop numbers the attachment leaves of the tree consecutively from zero, in walk order, each under its own filename, or its number if it has none. |
| `Attachments.ExtractAttachment` | backend/odysseus/mcp_servers/email_server.py:621-649 | The other loop selects the leaf of that number, with its filename or number, and nothing for any other index or an empty payload. |
| `Attachments.AttachmentIff` | backend/odysseus/mcp_servers/email_server.py:591-604 | The attachments are the leaves, however deep they are nested in a multipart message, that are not text or are marked as attached, and nothing else. |
| `Attachments.ListThenExtract` | backend/odysseus/mcp_servers/email_server.py:591-649 | An index extracts something if and only if the listing has a non-empty entry for it, and then that entry's name and as many bytes. |
| `AgentLoop.AgentStream` | backend/odysseus/alice_agent.py:185-264 | The nested loops produce exactly the specified stream of events and list of messages, for every model output, tool outcome and point of failure. |
| `AgentLoop.RunRound` | backend/odysseus/alice_agent.py:203-257 | One round: deltas, cleaned text, the permitted calls in order, the announcement; or the end; or the handler. |
| `AgentLoop.RunTools` | backend/odysseus/alice_agent.py:231-255 | Each call sees the reports of those before it, and a failure leaves the loop at once. |
| `AgentLoop.RunTool` | backend/odysseus/alice_agent.py:232-255 | One call: its start, its output with success flag and exit code, its report; a thrown exception becomes an error report. |
| `AgentLoop.PermittedRight` | backend/odysseus/alice_agent.py:219-222 | Exactly the blocks of the six tools are kept, each as often as it was written. |
| `AgentLoop.CallShown` | backend/odysseus/alice_agent.py:232-255 | One call shows the first line of its content up to 200 characters, then up to 8000 characters of its output with the exit code; it is shown as successful exactly if the result has no error and no exit code but zero, and an exception as a failure with exit code one. |
| `AgentLoop.CallsOneByOne` | backend/odysseus/alice_agent.py:231-255 | Every call is made with the reports of all calls before it, and only the one that fails, if any, the last, has none of its own. |
| `AgentLoop.RoundShown` | backend/odysseus/alice_agent.py:203-226 | A round streams every segment as it comes and then the text stripped of its tool blocks; it is the last one if and only if nothing raises and none of its blocks is permitted. |
| `AgentLoop.SmoothStream` | backend/odysseus/alice_agent.py:185-264 | If nothing the loop calls raises and every result is a dictionary, no error is streamed. |
| `AgentLoop.StreamAccepted` | backend/odysseus/alice_agent.py:185-264 | Every stream is accepted by the event grammar, and by its strict form if every tool result is a dictionary. |
| `AgentLoop.OneDoneLast` | backend/odysseus/alice_agent.py:185-264 | An accepted stream has exactly one [DONE], last, right after a done or error event. |
| `AgentLoop.StartsAreAnswered` | backend/odysseus/alice_agent.py:231-248 | In an accepted stream every tool_start names one of the six tools, and the next event is the output of that tool; without the dictionary assumption it may be the error. |
| `AgentLoop.RoundsNumbered` | backend/odysseus/alice_agent.py:203-257 | The agent_step numbers are 1, 2, ... and at most ten. |
| `AgentLoop.CallsInOrder` | backend/odysseus/alice_agent.py:231-255 | The calls of a round appear in block order, each start directly followed by its own output, and a completed loop has one report for each. |
| `AgentLoop.RoundTranscript` | backend/odysseus/alice_agent.py:204-257 | A completed round adds to the messages the assistant's turn, exactly as it was streamed, and one turn for each permitted call in it. |
| `AgentLoop.StreamTranscript` | backend/odysseus/alice_agent.py:201-257 | The final messages are those sent, one group for each announced round, being the assistant's turn and one report for each call started in it, and only after an error part of one more: that turn and reports of some of its calls. |
| `ContextGate.ClampInRange` | backend/alice_ai/model_manager/catalog.py:193-218 | Every chosen context lies between 4096 and the least of 262144 and the model's own maximum (32768 if unknown); an admissible request is granted as asked, a smaller or larger one gets the nearest bound, and none the default of 8192, cut to the maximum. |
| `ContextGate.ReclampLowers` | backend/alice_ai/model_manager/catalog.py:193-218 | Clamping again once the real maximum is known is the minimum with it, so it never raises a context; with the same maximum it changes nothing. |
| `ContextGate.EstimateProportional` | backend/alice_ai/model_manager/context.py:125-158 | Either estimate is the context times a rate fixed by the model. |
| `ContextGate.ExtraMonotone` | backend/alice_ai/model_manager/manager.py:258-271 | With one estimator a larger context never needs less extra memory. |
| `ContextGate.GateIff` | backend/alice_ai/model_manager/manager.py:241-279 | Ok if and only if memory covers the comfortable size and what the context takes beyond 4096 tokens; refused, with the suggestion, if and only if it covers neither that nor the floor and the same excess; a warning between the two, which names the context exactly if one was given. |
| `ContextGate.GateMonotone` | backend/alice_ai/model_manager/manager.py:241-279 | More memory or a smaller context never makes the verdict worse. |
| `ContextGate.SuggestionRight` | backend/alice_ai/model_manager/manager.py:281-288 | A refusal suggests the last tier of the picker order whose floor fits, and none if and only if none fits. |
| `ContextGate.Manager.SetContextLength` | backend/alice_ai/model_manager/manager.py:318-335 | The clamped value is stored, gated and what the next load chooses. |
| `ContextGate.Manager.EnsureReady` | backend/alice_ai/model_manager/manager.py:351-378 | A published model is left alone, otherwise a download brings the configuration or nothing changes. |
| `ContextGate.Manager.Load` | backend/alice_ai/model_manager/manager.py:383-465 | Which of refusal, missing confirmation, missing model, loader failure and success a load ends in, and what each leaves resident and stored; a load runs with the checked context cut to the real maximum. |
| `ContextGate.LoadedNoWorse` | backend/alice_ai/model_manager/manager.py:405-428 | With one estimator the context a load runs with is gated no worse than the one it checked. |
| `ContextGate.FirstLoadIff` | backend/alice_ai/model_manager/manager.py:405-428 | A first load, which checks by size and runs with the geometry it then finds, lets through what the gate would then refuse, if and only if the memory above the floor lies between the two estimates. |
| `ContextGate.FirstLoadSafe` | backend/alice_ai/model_manager/manager.py:405-428 | That cannot happen where the geometry needs no more per token than the estimate by size. |
| `ContextGate.FirstLoadCanDisagree` | backend/alice_ai/model_manager/manager.py:405-428 | A concrete machine and model where it does. |
| `Watchdog.Watch` | shell/alice_shell/__main__.py:173-209 | Every death seen is answered by a restart, in order, until stop, quit or the budget; any four attempts in a row contain a gap longer than the window; the window closes if and only if a death follows three attempts with no such gap between any of them. |
| `Watchdog.ThreePerWindow` | shell/alice_shell/__main__.py:173-209 | Attempts three places apart are more than 120 seconds apart, so no such window holds more than three. |

## Left out

- IcsCalendar.ReadExport: the reader models the part of RFC 5545 a calendar of VEVENTs needs; nested components, property repetition rules beyond once-only, alternative value types and TZID lookup (import takes zoned times with their offset) are not in it, and the exporter's missing final CRLF and unfolded long lines are accepted.
- IcsCalendar.ExportImportRoundTrip: the import library re-serialises a rule; the model keeps its text. Commit failures, the 10 MB limit and the choice of the target calendar are not modelled.
- IcsCalendar.Export: years are printed without padding, as the C library does on Linux; elsewhere years before 1000 may be padded.
- Recurrence.Expand: a rule is the ascending series its parser yields; the lemmas about the row filter also take it to be in whole seconds and not before the second of the start, as dateutil's rules are unless RDATE lines name earlier instants. The parser itself, and the trimming of a trailing Z after UNTIL, are not modelled. An occurrence ending after year 9999, which raises in the source, is listed, and the printed end, which is printed as the start is, is not part of an occurrence.
- Recurrence.ListEvents: the join on the caller's calendars and the ordering of the query are not modelled; rows are those of the caller, in any order.
- SessionStore.RunRefines: requires fresh row ids, contents that survive storage and, for truncation, a count within the length and a cut in time order; the lemmas named above say what happens otherwise. The relationship that messages are read through has no order of its own; the model takes table order, and rows of one instant stay in table order where the query orders by time stamp.
- Download.AllHoldIff: the general statement, for manifests that list a path more than once, is the one in Downloader.VerifyAll, file after file.
- SessionStore.CleanupRefines: every session row has a time of last access, as the column's default sees to; a row without one would be passed over where the model raises.
- SessionStore.SessionManager.AddMessage: failing commits and session objects kept by callers outside the cache are not modelled; metadata other than the time stamp and row id, headers and documents are left out; rename, archive and importance changes are one step that sets the metadata.
- Download.Downloader.Download: one writer at a time; the expected files do not change between calls; renaming is atomic, and so is the appearance of the sentinel, after which its write may still raise; no expected file goes by the sentinel's name; a rename onto a directory that is not empty raises. Progress reports, waiting times, the manifest sources and the disk-space arithmetic are left out.
- Auth.ReachableConsistent: tokens are new, creation times increase, and the first user comes from the setup. Privileges, migrations of old files, locks and failing writes of the session file are left out; `_save_sessions` is an assignment.
- Auth.AuthManager.RemoveUser: deleting the API token rows may fail in the source, which then only logs it; in the model it succeeds. The rename route's move of API token rows (`routes/auth_routes.py`) is a step of its own, next to the rename of the account. The effect of a deletion on the bearer lookup is the removal by owner in the token table.
- TokenCache.AnswersRight: a change and its invalidation are two events, a refresh is a read and a publication; the lock that keeps refreshes from overlapping each other is assumed. Last-used stamps, the header prefix and owner changes by a rename are left out.
- EmailMerge.ListEmails: what the search returns is given, and whether a header can be fetched is part of it; dates are instants, an unreadable one the least instant. Decoding of headers and cached summaries are left out.
- Attachments.ExtractAttachment: replacing unsafe characters of the name and writing the file are left out; an extraction returns the name and the bytes.
- AgentLoop.AgentStream: the text of an error event is left out, as is a consumer that stops reading; parsing and stripping of tool blocks, and the choice of the text shown of a result, are parameters.
- ContextGate.Manager.Load: floating-point arithmetic is over the reals; explicit-tier planning, adapters and the choice file's other entries are left out; one tier is modelled.
- Watchdog.Watch: waiting for health after a restart is part of the time between polls; the clock is monotone and over the reals.
- Strings: white space is the six ASCII characters and case is ASCII; Python's functions know more of both.
- HTTP routes, CSRF and proxy checks, SSE framing, SMTP, IMAP and CalDAV traffic, model runtimes, device probes, natural-language dates and thinking extraction: input and output around foreign interfaces, or heuristics without a specification.
- `update_session_name`, `get_privileges`, `list_models` and the other projections of state: they would add easy members only.
