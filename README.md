# Daily work log: a Dafny model of its core

A developer's daily work log lives in a git repository as one Markdown file per day,
`logs/<year>/<MM>/<YYYY-MM-DD>.md`. The file has a `---` frontmatter block (date, last
update, hours and commit counts) and `###` sections of `- item` bullets. Three
programs work on it:

- **The local server** (`server.js`) finds today's log (`getTodayFilePath`) and, on
  `GET /api/tasks`, parses it into a frontmatter dictionary and a section dictionary
  (`readTodayLog`, `parseLog`). It also defines `generateMarkdown`, which stamps a
  parsed log, adds new entries to its sections and returns the Markdown text, but
  nothing in `server.js` calls it and no program here writes the `.md` log. The
  `POST /api/tasks` handler only records manual tasks: it fans every posted entry out
  into the day's manual-task JSON list, one record per entry (`saveManualTask`), then
  commits. `loadManualTasks` reads back the records of the day. Posted entries
  therefore never reach the Markdown log; they are kept for the later daily analysis.
- **The browser extension's popup** (`chrome-extension/popup/popup.js`) does three
  things:
  - It names today's file (`getTodayFilename`) and fetches it through a five-minute
    cache (`fetchTodayLog`, `getCachedData`, `cacheData`).
  - It parses the file into four lists by keyword (`parseDailyLog`).
  - It keeps a quick-add list for the day in local storage (`handleQuickAdd`,
    `addToTodayData`, `getDefaultData`).
- **The activity collector** (`scripts/collect-activity.js`) reads each project's
  `git log --oneline` (`getGitActivity`) and merges each run into the day's JSON
  activity file (`mergeData`). It also counts how many times it has run that day
  (`main`).

The model is split into one Dafny module per concern:

| module | file | what it holds |
|---|---|---|
| `Text` | `text.dfy` | the string built-ins the programs rely on: ECMAScript `trim`, ASCII `toLowerCase`, `includes`, `split`/`join`, `padStart` and decimal digits |
| `Markdown` | `markdown.dfy` | reading that the server and the popup share: the lazy frontmatter expression, the `/^###\s+/m` split, the first line of a segment and the bullet rule |
| `Dates` | `dates.dfy` | the file names and paths of a day |
| `ServerLog` | `server_log.dfy` | `parseLog` and `generateMarkdown`. The parsed log is a class whose two dictionaries `generateMarkdown` updates in place. |
| `LogRoundTrip` | `log_roundtrip.dfy` | writing a log and parsing it back |
| `FrontmatterRoundTrip` | `frontmatter_roundtrip.dfy` | the written frontmatter read back by the server and by the popup |
| `ManualTasks` | `manual_tasks.dfy` | the manual-task store, the POST fan-out and `loadManualTasks` |
| `Popup` | `popup.dfy` | `parseDailyLog`, the quick-add storage, the cache and the fetch decision |
| `Collector` | `collector.dfy` | `getGitActivity`, `mergeData`, the run count, and the stored activity object that `mergeData` updates in place |

Some modelling choices:

- A JavaScript object used as a dictionary is a `Dict`: a sequence of key/value pairs
  in insertion order. A new key goes at the end and an existing key keeps its place.
  That is the order `Object.entries` walks for keys that are not integer-like.
- The clock, the locale's time format and the network answer are parameters.
- The server's section table gives the last heading as the literal
  `'## 📅 Tomorrow\\'s Plan'` (`server.js:202`). As written, that literal ends at the
  second quote, so the line is a syntax error. The model uses the heading the authors
  evidently meant, `## 📅 Tomorrow's Plan`.

## Model

| member | source | states |
|---|---|---|
| Text.Trim | server.js:115-125 | trimmed text starts and ends with a non-white-space character (ECMAScript white space and line terminators) and is no longer than the input |
| Text.TrimEmptyIffBlank | chrome-extension/popup/popup.js:246-248 | a description trims to empty exactly when every character is white space, the case in which `handleQuickAdd` returns |
| Text.SplitJoin | server.js:113-115 | `split(':')` pieces hold no separator and joining them with the separator gives the line back |
| Text.SplitUnique | server.js:113-115 | a split is determined by its pieces: separator-free pieces that join to the text are its split |
| Text.ToLower | server.js:125 | lower-casing keeps the length and maps every character on its own |
| Text.Includes | chrome-extension/popup/popup.js:169-176 | `includes` holds exactly when the pattern occurs at some position |
| Text.Pad2Value | server.js:20-21 | `padStart(2, '0')` of a day or month number reads back as that number |
| Text.DigitsValueOfNatToString | scripts/collect-activity.js:28 | `String(n)` reads back as `n` |
| Markdown.FrontmatterSpan | server.js:110 | the frontmatter match is the one a backtracking engine reports: the leftmost opening `---\n` with a closing `\n---` after it, then the nearest closing; no match when none exists |
| Markdown.FrontmatterBody | server.js:110-111 | a frontmatter group exists exactly when some opening/closing pair matches, and it is never empty |
| Markdown.HeaderEnd | server.js:122 | `/^###\s+/m` matches at a position exactly when it starts a line, `###` follows and then white space; the match runs to the end of the white space |
| Markdown.SplitSections | server.js:122 | the split always gives at least one segment; the first segment is a prefix of the text and the last is a suffix of it; Markdown.SplitSectionsHeaded gives the full inverse |
| Markdown.SplitSectionsHeaded | server.js:122 | text made of a header-free prefix and `### ` segments splits back into the prefix and the segments |
| Markdown.FirstLine | server.js:124 | `^([^\n]+)` matches exactly when the segment starts with a character other than `\n`, and captures the non-empty text up to the first line break |
| Markdown.SegmentTitle | server.js:124-126 | a segment gets a title exactly when its first character is not a line break |
| Markdown.IsBulletLine | server.js:129 | the bullet filter: a line is kept when its trimmed text is not empty and starts with `-` (properties in Markdown.IndentedBulletKeepsDash, Markdown.MarkerLineIsBullet and LogRoundTrip.BulletOfCleanItem) |
| Markdown.BulletText | server.js:130 | the bullet map: a leading `-` and the white space after it are removed from the untrimmed line, then the rest is trimmed (properties in the same lemmas) |
| Markdown.BulletItems | server.js:127-130 | the filter then the map over a segment's lines gives no more items than lines; Markdown.BulletItemsAppend and LogRoundTrip.BulletsOfBulletLines state how it reads written items |
| Markdown.BulletItemsAppend | server.js:127-130 | the bullet filter and map work line by line: the items of two runs of lines are the items of each, in order |
| Markdown.IndentedBulletKeepsDash | server.js:128-130 | an indented `  - x` counts as a bullet but keeps its dash (`- x`), since `^-\s*` is tried on the untrimmed line |
| Markdown.MarkerLineIsBullet | chrome-extension/popup/popup.js:166-167 | a `---` marker line passes the bullet filter and is read as `--` |
| Dates.DailyLogFileName | server.js:17-22 | the log name ends in `.md` and, for a real month and day, is the year's digits plus nine characters long |
| Dates.DailyLogFileNameInjective | server.js:17-22 | two dates with the same log file name are the same date |
| Dates.TodayFilePath | server.js:17-28 | the directory is `<tasksDir>/<year>/<MM>` and the file is that directory plus the day's log name |
| Dates.TodayPaths | scripts/collect-activity.js:26-40 | the activity file sits in `<logsDir>/<year>/<MM>` and its year, month and day parts spell the date stem |
| Dates.ActivityFileMatchesLogFile | scripts/collect-activity.js:26-40 | the collector's activity file and the server's log file of one day carry the same date stem |
| ServerLog.Assign | server.js:116 | assigning a key sets its value and keeps every other key's value |
| ServerLog.AssignKeys | server.js:116 | an existing key keeps its place in the key order and a new key goes at the end |
| ServerLog.AssignKeepsUnique | server.js:116 | an assignment keeps the keys of the dictionary unique |
| ServerLog.ParseLog | server.js:103-137 | `parseLog` returns a fresh object whose frontmatter and sections are those of the document read in order |
| ServerLog.LogData.ReadFrontmatter | server.js:112-118 | the frontmatter loop files each line in turn and leaves the sections alone; the keys stay unique |
| ServerLog.LogData.ReadSections | server.js:123-134 | the section loop files each titled segment in turn and leaves the frontmatter alone; the keys stay unique |
| ServerLog.ParseSections | server.js:121-134 | the sections `parseLog` files from a document have unique keys; LogRoundTrip.ReadTaskSections and ServerLog.SectionsFromLookup say what is filed |
| ServerLog.ParseFrontmatter | server.js:110-119 | no frontmatter block gives an empty dictionary; the keys are unique and every value is text |
| ServerLog.FrontmatterLineRule | server.js:112-118 | a line without a colon is skipped; a line whose text before its first colon is empty is skipped; otherwise the trimmed text before the first colon maps to the trimmed rest, colons included |
| ServerLog.FrontmatterFromText | server.js:115-116 | reading lines files only text values |
| ServerLog.LastTitled | server.js:122-134 | finds the last segment carrying a title, or reports that none does |
| ServerLog.SectionsFromLookup | server.js:122-134 | a title's items are those of the last segment with that title; a later duplicate heading replaces an earlier one |
| ServerLog.AddItems | server.js:173-191 | a non-empty list is appended after a section's existing items, creating the section if needed; an empty list changes nothing; other keys are untouched |
| ServerLog.ApplyEntries | server.js:172-191 | adding the four entry lists keeps the section keys unique; ServerLog.ApplyEntriesSections says where each list lands |
| ServerLog.ApplyEntriesSections | server.js:172-191 | each of the four entry lists lands in its own section, and every other section is unchanged |
| ServerLog.AddEntries | server.js:172-191 | the four additions in the source's order give that result |
| ServerLog.StampedFrontmatter | server.js:145-156 | an existing log's `updated` becomes the call's timestamp; every other key and the key order are kept, with `updated` added at the end if it was missing |
| ServerLog.NewLogFrontmatter | server.js:145-156 | a new log's frontmatter has the keys date, updated, hours_active, hours_coding, commits_today, projects and tags, in that order, with the call's date and timestamp |
| ServerLog.GeneratedDoc | server.js:140-191 | the log `generateMarkdown` writes: the existing or default frontmatter with `updated` stamped, and the sections with the new entries; its properties are ServerLog.StampedFrontmatter, ServerLog.NewLogFrontmatter and ServerLog.ApplyEntriesSections |
| ServerLog.RenderSectionsOnlyOrdered | server.js:194-213 | only the keys of the section table are written: dictionaries that agree on them give the same text |
| ServerLog.EmptySectionWritten | server.js:205-212 | a present but empty section still gets its heading and blank lines |
| ServerLog.WriteFrontmatter | server.js:158-167 | the frontmatter text is `---`, one `key: value` line per entry in order (lists as `[a, b]`), then `---` and a blank line |
| ServerLog.RenderFrontmatter | server.js:158-167 | the frontmatter text as a value; FrontmatterRoundTrip.FrontmatterRoundTrip shows `parseLog` reads it back |
| ServerLog.WriteSection | server.js:206-211 | one section is its heading, a blank line, a `- item` line per item and a blank line |
| ServerLog.WriteSections | server.js:194-213 | the section text is the blocks of the present keys, in the table's order |
| ServerLog.RenderSections | server.js:194-213 | the section text as a value; ServerLog.RenderSectionsOnlyOrdered and ServerLog.EmptySectionWritten state what it writes |
| ServerLog.RenderLog | server.js:158-215 | the whole Markdown: frontmatter text, then section text; LogRoundTrip.RoundTripSections and FrontmatterRoundTrip.FrontmatterRoundTrip read it back |
| ServerLog.GenerateMarkdown | server.js:140-216 | an existing log is stamped and extended in place, and the Markdown of the result is returned; with no log, the Markdown of a new default log with the entries is returned. An existing log whose keys are unique keeps them unique. |
| LogRoundTrip.RoundTripSections | server.js:103-216 | for a log whose items are clean single lines, whose frontmatter lines cannot pass for headers and which has no `##` section, parsing the written Markdown gives back each task section exactly |
| LogRoundTrip.GenerateThenParse | server.js:140-216 | parsing what `generateMarkdown` wrote gives each task section as it was, followed by the entries added to it |
| LogRoundTrip.SegmentReadsBack | server.js:124-130 | a written section segment is read back with its heading as the title and its items as the list |
| LogRoundTrip.BulletsOfBulletLines | server.js:127-130 | `- item` lines of clean items are read back as those items |
| LogRoundTrip.WrittenSections | server.js:194-203 | with no `##` section present, only the four task sections are written |
| LogRoundTrip.FrontmatterSegmentTitle | server.js:122-126 | the frontmatter block is read as a segment titled `---` |
| LogRoundTrip.ReadTaskSections | server.js:122-134 | reading the written task segments files every task key with its items, whatever was filed before |
| FrontmatterRoundTrip.FrontmatterBodyOfLog | server.js:110 | over the written log, the lazy frontmatter match captures exactly the `key: value` lines, when no key is empty or starts with `-` and no key or value holds a line break |
| FrontmatterRoundTrip.EntryOfLine | server.js:112-118 | the written line of an entry with a text value, a key free of `:` and no white space at either end of key or value is read back as that entry, filed after the earlier ones |
| FrontmatterRoundTrip.ReadLines | server.js:112-118 | the written lines of such entries, under distinct keys, are read back as those entries in order |
| FrontmatterRoundTrip.FrontmatterRoundTrip | server.js:110-167 | `parseLog` of what `generateMarkdown` wrote gives back the frontmatter exactly, for a non-empty frontmatter of such entries with unique keys |
| FrontmatterRoundTrip.CommitsReadFromLog | chrome-extension/popup/popup.js:150-159 | the popup reads the `commits_today` figure of the log `generateMarkdown` writes, wherever the line stands, when no line before it mentions `commits_today:` |
| ManualTasks.Records | server.js:259-278 | one record per item, in order |
| ManualTasks.FanOut | server.js:259-278 | the records of one POST, list after list; ManualTasks.FanOutRoundTrip, ManualTasks.FanOutKind and ManualTasks.FanOutSize state its properties |
| ManualTasks.TodaysTasks | server.js:55-56 | a record is kept exactly when it is dated today, and no more records come out than went in |
| ManualTasks.ManualTaskStore.SaveManualTask | server.js:63-84 | saving appends one record with the kind, content, date and timestamp |
| ManualTasks.ManualTaskStore.SaveAll | server.js:260-262 | a list's loop appends that list's records, in order |
| ManualTasks.ManualTaskStore.PostTasks | server.js:259-278 | a POST appends the completed, learning, in-progress and blocker records, in that order |
| ManualTasks.ManualTaskStore.LoadManualTasks | server.js:49-60 | loading gives the stored records dated today, in stored order |
| ManualTasks.FanOutRoundTrip | server.js:259-278 | every posted entry is saved once, under its list's kind: the records of each kind read back as that list |
| ManualTasks.FanOutKind | server.js:259-278 | the records of any one kind read back as the list of that kind |
| ManualTasks.FanOutSize | server.js:259-278 | a POST adds exactly one record per entry |
| ManualTasks.RecordsOfKind | server.js:261 | a list's records read back as the list under its own kind and give nothing under any other kind |
| ManualTasks.TodaysTasksAppend | server.js:56 | filtering distributes over the parts of the stored list |
| ManualTasks.RecordsToday | server.js:76-79 | every record of a POST carries the POST's date |
| ManualTasks.LoadAfterPost | server.js:49-84 | after a POST, today's load is the earlier load followed by the POST's records |
| ManualTasks.OtherDayHidden | server.js:55-56 | records saved on another day never appear in today's load |
| Popup.RunEnd | chrome-extension/popup/popup.js:153-155 | a greedy `[\d.]+` or `\d+` run stops at the first character outside the class |
| Popup.LabelledRun | chrome-extension/popup/popup.js:153-155 | a captured run is non-empty and made only of run characters; no capture means no position matches the label, white space and a run character |
| Popup.CommitsReadBack | chrome-extension/popup/popup.js:155-159 | a `commits_today: N` line as `generateMarkdown` writes it reads back as N, after any frontmatter text that does not itself mention `commits_today:` |
| Popup.LabelledRunSkips | chrome-extension/popup/popup.js:153-155 | the match search passes over positions where no match starts: the leftmost match is the first position that matches |
| Popup.ParseDailyLog | chrome-extension/popup/popup.js:138-181 | the parse reads the numbers only when a frontmatter block exists, and each list collects the items of the segments routed to it, in document order |
| Popup.RouteSegment | chrome-extension/popup/popup.js:165-177 | one segment's bullet items are pushed onto the one list its keywords pick, and the other lists are unchanged |
| Popup.PushItems | chrome-extension/popup/popup.js:169-177 | `push(...items)` appends the items to the chosen list only |
| Popup.Classify | chrome-extension/popup/popup.js:169-177 | the keyword tests in the source's order; Popup.ClassifyNoneIff, Popup.ClassifyByWholeText, Popup.LearningsAlias and Popup.InProgressMisrouted state what it does |
| Popup.ClassifyNoneIff | chrome-extension/popup/popup.js:169-177 | a segment is routed to no list exactly when its lower-cased text mentions none of the five keywords |
| Popup.BucketItemsAppend | chrome-extension/popup/popup.js:165-178 | the segments of two documents in a row route their items in document order |
| Popup.UnroutedContributesNothing | chrome-extension/popup/popup.js:169-177 | a segment that mentions none of the keywords adds to no list |
| Popup.BucketsPartition | chrome-extension/popup/popup.js:169-177 | every routed segment goes to exactly one list: the four lists together hold the routed items once each |
| Popup.ClassifyByWholeText | chrome-extension/popup/popup.js:169-170 | the whole segment is searched, not just its title: any segment whose text mentions "completed tasks" goes to the completed list |
| Popup.LearningsAlias | chrome-extension/popup/popup.js:171 | a "learnings" mention routes to the learning list when nothing mentions completed tasks |
| Popup.InProgressMisrouted | chrome-extension/popup/popup.js:169-174 | a server-written "In Progress" section whose item mentions completed tasks is filed as completed |
| Popup.TodayFilenameMatchesServer | chrome-extension/popup/popup.js:103-109 | the popup names the same file that the server reads through `getTodayFilePath` for the date |
| Popup.TodayFilename | chrome-extension/popup/popup.js:103-109 | today's file name; Popup.TodayFilenameMatchesServer shows it is the server's |
| Popup.FetchPathAsWrittenMissesLog | chrome-extension/popup/popup.js:119 | the request's fixed `logs/2026/feb/` directory never names the server's log file for any date |
| Popup.FetchPathFindsLog | chrome-extension/popup/popup.js:103-119 | the corrected request path, built from the date's year and month, is exactly the server's log file |
| Popup.DefaultData | chrome-extension/popup/popup.js:303-310 | the default lists are all empty |
| Popup.QuickAdd | chrome-extension/popup/popup.js:283-296 | the `switch` on the kind; Popup.QuickAddAppendsOne and Popup.QuickAddNoDedup state what it does |
| Popup.StartOfDay | chrome-extension/popup/popup.js:275-278 | the lists an add starts from; Popup.NewDayStartsEmpty and Popup.SameDayKeeps state them |
| Popup.QuickAddAppendsOne | chrome-extension/popup/popup.js:283-296 | a known kind appends the item to its own list only; an unknown kind changes nothing |
| Popup.QuickAddNoDedup | chrome-extension/popup/popup.js:283-296 | the same description added twice is kept twice |
| Popup.NewDayStartsEmpty | chrome-extension/popup/popup.js:275-278 | on a new day the stored lists are dropped, so after one add only the new item is left |
| Popup.SameDayKeeps | chrome-extension/popup/popup.js:275-278 | on the same day the stored lists are kept and grow by the new item |
| Popup.StoredThenLooked | chrome-extension/popup/popup.js:313-334 | a stored parse is served while it is younger than five minutes, and not afterwards |
| Popup.CacheLookup | chrome-extension/popup/popup.js:313-325 | a hit returns the parse stored for that file, and a file never cached is a miss |
| Popup.StoreKeepsOthers | chrome-extension/popup/popup.js:327-338 | caching one file leaves every other file's lookup unchanged |
| Popup.ExpiredStaysExpired | chrome-extension/popup/popup.js:318 | once an entry has expired it stays expired |
| Popup.RefetchHitsCache | chrome-extension/popup/popup.js:111-136 | within five minutes of a fresh parse, a second fetch returns the same data from the cache whatever the network answers, and changes nothing |
| Popup.MissingIsNotFound | chrome-extension/popup/popup.js:122-125 | on a cache miss a 404 gives "not found", never an empty log, and nothing is cached |
| Popup.Fetched | chrome-extension/popup/popup.js:111-136 | the fetch decision as a value; Popup.RefetchHitsCache and Popup.MissingIsNotFound state it |
| Popup.ExtensionStorage.constructor | chrome-extension/popup/popup.js:274-278 | empty storage holds no lists, no date and no cache |
| Popup.ExtensionStorage.CacheData | chrome-extension/popup/popup.js:327-338 | that file's cache entry is replaced, stamped with the current time |
| Popup.ExtensionStorage.AddToTodayData | chrome-extension/popup/popup.js:272-301 | the day's lists (reset on a new day) get the `[time] description` item, and are stored under today's name; the cache is untouched |
| Popup.ExtensionStorage.HandleQuickAdd | chrome-extension/popup/popup.js:242-254 | a blank description changes nothing; otherwise the trimmed description is added |
| Popup.ExtensionStorage.FetchTodayLog | chrome-extension/popup/popup.js:111-136 | a cache hit is returned as it is; on a miss an OK response is parsed and cached, a 404 gives "not found" and any other status an error |
| Collector.CountOfAppend | scripts/collect-activity.js:144-152 | per-project counts add up over the parts of a commit list |
| Collector.NonBlank | scripts/collect-activity.js:143 | a line is kept exactly when it is present and not blank after trimming, and no more lines come out than went in |
| Collector.Tagged | scripts/collect-activity.js:147-152 | one commit per line, in order, each tagged with the project |
| Collector.GetGitActivity | scripts/collect-activity.js:123-161 | the loop gives the activity of the projects' outputs taken in order |
| Collector.GitOf | scripts/collect-activity.js:123-161 | the activity of all projects; Collector.GitOfSpec and Collector.GitFromCommits state it |
| Collector.CountProject | scripts/collect-activity.js:137-153 | one project: a trimmed output that is not empty is split into lines, the blank ones dropped and the rest counted and recorded |
| Collector.GitFromCommits | scripts/collect-activity.js:134-158 | the commit list is every project's lines in project order, and the total is its length |
| Collector.GitOfSpec | scripts/collect-activity.js:123-161 | with distinct project names, the commits are every project's non-blank lines and the counters agree with them: the total is their number and each project's count is its own number of lines |
| Collector.MergeCommitsSpec | scripts/collect-activity.js:241-248 | stored commits keep their places and the fresh incoming ones follow in order; the total grows by their number and each project's count by its own share |
| Collector.MergeCommits | scripts/collect-activity.js:241-248 | the commit merge; Collector.MergeCommitsSpec states it |
| Collector.Fresh | scripts/collect-activity.js:243 | an incoming commit is fresh exactly when its message was not stored before the merge |
| Collector.MergePreservesConsistency | scripts/collect-activity.js:241-248 | merging keeps the counters in agreement with the commit list |
| Collector.BatchDuplicatesKept | scripts/collect-activity.js:241-244 | the set of stored messages is built once, so two equal new messages in one batch are both appended |
| Collector.AllSeenUnchanged | scripts/collect-activity.js:242-248 | an incoming batch whose messages are all stored changes nothing |
| Collector.MergeTwice | scripts/collect-activity.js:237-248 | merging the same git activity a second time appends nothing and leaves the counters alone |
| Collector.MergeData | scripts/collect-activity.js:237-263 | the merge of a stored snapshot with new data; Collector.CollectedFields and Collector.MergeTwice state it |
| Collector.Collected | scripts/collect-activity.js:294-310 | what a run writes; Collector.CollectedFields, Collector.CountsRuns and Collector.CountsRunsFrom state it |
| Collector.CollectedFields | scripts/collect-activity.js:294-310 | the first run of a day writes its own snapshot with count 1; a later run keeps the stored date and manual tasks, takes the new ActivityWatch data, summary and time, and raises the count |
| Collector.CountsRuns | scripts/collect-activity.js:294-310 | n runs on a day without a file leave the count at n |
| Collector.CountsRunsFrom | scripts/collect-activity.js:305-310 | each run on an existing file raises the count by one |
| Collector.ActivityLog.constructor | scripts/collect-activity.js:294-302 | the stored object holds the given snapshot |
| Collector.ActivityLog.MergeIn | scripts/collect-activity.js:237-263 | `mergeData` on the stored object updates it in place to the merge of its old value with the new data |
| Collector.Collect | scripts/collect-activity.js:304-310 | with no file, a fresh object holds the new snapshot; otherwise the stored object itself is merged into and its count becomes `(collectionCount or 1) + 1` |

## Findings

| source | as written | input that shows it | evidently intended | confidence | as-written member | corrected member |
|---|---|---|---|---|---|---|
| chrome-extension/popup/popup.js:119 | the popup requests `main/logs/2026/feb/<file>` for every date | any date, e.g. 2026-02-14: the server reads the log through `getTodayFilePath` at `logs/2026/02/2026-02-14.md`, and `feb` is not `02`, so the request gets a 404 and the popup shows no log | the request uses the year and the two-digit month of the date the file is named after, as the server's `getTodayFilePath` does | high (by reading; not executed) | Popup.FetchPathAsWrittenMissesLog | Popup.FetchPathFindsLog |

## Left out

- File, HTTP and git I/O are not modelled: `fs`, `execSync`, `fetch`, Express routing, `git add/commit/push`, and the `ENOENT` handling of `readTodayLog`. Each file or response is a value passed in.
- Fetching and summarising ActivityWatch data (`fetchActivityWatchData`, `analyzeActivityData`) are not modelled. Their results enter the collector as opaque text.
- `lib/claude-client.js` and `chrome-extension/background/background.js` are not part of this model.
- The popup's DOM and UI are not modelled: status messages, rendering, tab switching, and the `SYNC_TO_GITHUB` message that `handleQuickAdd` sends.
- The clock, `toISOString`, `toLocaleTimeString` and the local date parts are parameters. Local and UTC dates are not related.
- Popup.HoursOf keeps the text captured after `hours_active:` / `hours_coding:`, because `parseFloat` (floating point) is not modelled.
- Popup.CommitsReadBack: `parseInt` is modelled as an exact, unbounded decimal value. JavaScript's loss of precision above 2^53 is not modelled.
- Text.ToLower folds ASCII letters only. JavaScript's `toLowerCase` also folds non-ASCII letters, which the model leaves unchanged.
- JavaScript's ordering of integer-like object keys and the special `__proto__` key are not modelled. Dictionaries keep plain insertion order.
- JSON parse errors and crashes on missing fields are not modelled: a stored list without `tasks`, or an activity file without `gitActivity`. A stored activity file without `manualTasks` is treated as an empty list, and one without `collectionCount` as 0.
- ManualTasks.ManualTaskStore.PostTasks uses one date and one timestamp for the whole POST. In the source, each record reads the clock again.
- Collector.MergeData: the merge's `lastUpdated` uses the same `now` as the new data's.
- Popup.ExtensionStorage.AddToTodayData: the copy of today's name that the source also writes into the stored lists object (`data.todayDate`) is not kept in `Buckets`. The name is kept in `todayDate`.
- Collector.GitOfSpec requires distinct project names. With a repeated name, the later project's count overwrites the earlier one in `byProject` while the total still adds both.
- FrontmatterRoundTrip.FrontmatterRoundTrip is stated for text values. A `Num` or `List` value is read back as text: `0` as `"0"`, `[a, b]` as `"[a, b]"`.
- FrontmatterRoundTrip.FrontmatterRoundTrip requires a non-empty frontmatter. `generateMarkdown` always writes one, since it always sets `updated`.
- LogRoundTrip.RoundTripSections requires that the log hold no `##` section. A `##` heading is not split on when reading. `activity summary` and `work analysis` are written before every `###` section, so their items would be read into the first segment, the one that begins with the frontmatter's `---`; `ai insights` and `tomorrow's plan` follow the task sections, so their items would be read into the last `###` section written before them, or into that first segment when none was written.
