# ApocaCache library maintainer, modelled in Dafny

This project models the ApocaCache library maintainer. The service mirrors
Kiwix ZIM archives into a local data directory, keeps a small SQLite cache of
meta4 metadata, and rebuilds the `library.xml` catalogue that `kiwix-serve`
reads. It covers four parts of the maintainer:

- **Configuration** (`configuration.dfy`, module `Configuration`). It models the
  environment variables, the cron schedule, the comma-separated language filter,
  and the download list with its options. It also models the rule deciding which
  configured items are downloaded at all.
- **Meta4 cache** (`database.dfy`, module `Database`). The `meta4_files` table is
  a sequence of rows in rowid order with `book_id` unique among non-NULL ids.
  `INSERT OR REPLACE` deletes the row holding the same `book_id` and appends the
  new one; a NULL `book_id` replaces nothing. The `meta4_status` table is an
  append-only log whose newest row is the current status. The dictionary handed
  to an upsert tells an absent key from a key holding `None` where the source
  does: for `book_id`, `file_size` and `mirrors`. A batch is one transaction: it
  commits, or it rolls back on the first entry that raises, which is one
  without a `book_id` key or with `None` mirrors.
- **Content manager** (`content.dfy`, module `Content`). It covers:
  - the filter over the server's listing page;
  - the planning loops of `update_content`, which choose the downloads and update
    `content_state` as they go;
  - `_download_file`, which streams into a `.tmp` file and renames it into place,
    removing the `.tmp` on any failure;
  - `cleanup` of leftover `.tmp` entries.
- **Library manager** (`library.dfy`, module `Library`). It derives book metadata
  from a ZIM file name and builds one book per `.zim` entry while totalling the
  sizes. It publishes the catalogue through `library.xml.tmp` and a rename.

The other modules are support code:

- `Wrappers` provides `Option` and `Result`.
- `Strings` models Python's `str.split`/`join`, `split()` on whitespace, `strip`,
  `lower`, `int()`, `strptime` with `%Y-%m-%d %H:%M`, and `replace(pat, '')`.
- `LibraryXml` holds the `<library>`/`<book>` document.
- `Files` is the file system, a `FileSystem` class holding a map from path to
  contents and a set of directories. Paths are joined and split as `posixpath` does.

The outside world becomes inputs:

- the environment as a map;
- the already-parsed YAML document;
- the listing page as a sequence of links with their two following siblings;
- each HTTP reply as a status, a `content-length` header, a body and an
  interrupted flag;
- the stored content state;
- timestamps as a `now` string.

The `_download_file` coroutines are created during planning but only run at
`asyncio.gather`. The model therefore runs them one after another, after
planning, in planning order.

## Model

| member | source | states |
|---|---|---|
| Configuration.LanguageFilter | library-maintainer/src/config.py:38 | `LANGUAGE_FILTER.split(",")` is never empty, no part holds a comma, and joining it back with commas gives the variable's text |
| Configuration.Config.ShouldDownloadContent | library-maintainer/src/config.py:78-85 | true when `download_all` is set; otherwise true when the filter is empty, and with a non-empty filter true iff the item's language is listed (the filter from `split(",")` is never empty, but the field can be assigned); `Admits` is the same rule on values, and the two lemmas below state what it means for the filter read from `LANGUAGE_FILTER` |
| Configuration.ListedLanguagesAdmitted | library-maintainer/src/config.py:83-86 | with `download_all` off, a filter built from comma-free languages admits an item iff its language is one of them |
| Configuration.UnsetFilterAdmitsOnlyBlankLanguage | library-maintainer/src/config.py:38-39 | with `LANGUAGE_FILTER` unset the filter is `[""]`, so an item is admitted iff `DOWNLOAD_ALL` is true or its language is blank |
| Configuration.TrueFlagSpellings | library-maintainer/src/config.py:39 | `DOWNLOAD_ALL` counts as set iff it is `true` in any mix of upper and lower case |
| Configuration.ParseSchedule | library-maintainer/src/config.py:42-50 | the schedule succeeds iff the text has exactly five whitespace-separated fields; they become minute, hour, day, month and day of week in order; any other count is an error carrying the count |
| Configuration.ScheduleRoundTrip | library-maintainer/src/config.py:43-50 | five non-blank fields written with single spaces parse back to the same schedule |
| Configuration.DefaultScheduleParses | library-maintainer/src/config.py:42 | the default `"0 2 1 * *"` parses to minute 0, hour 2, day 1, every month, every weekday |
| Configuration.ItemsFromEntries | library-maintainer/src/config.py:68-72 | the content list converts every entry in order; it fails iff some entry lacks name/language/category or has an unknown key, and the failure names the first such entry |
| Configuration.OptionsFromSection | library-maintainer/src/config.py:75-76 | an options section succeeds iff all its keys are option names; the unknown keys are reported on failure |
| Configuration.Config.FromEnvironment | library-maintainer/src/config.py:30-54 | data and config directories, `library.xml` path, server URL default, language filter, `download_all`, empty content list and default options (2, 3, true, true) |
| Configuration.LoadOutcomeSucceeds | library-maintainer/src/config.py:57-76 | loading succeeds iff there is no file, or a document with no section holding `None`, whose entries all convert and whose option keys are all known; it then holds the converted entries in order and exactly the given options, and keeps what is not given |
| Configuration.LoadOutcomeFails | library-maintainer/src/config.py:61-76 | an empty document raises; a `content:` or `options:` section holding `None` raises (`for item in None`, `ContentOptions(**None)`) when its turn comes; a failed load keeps the options, reports the entry error (keeping the list) or else the options error |
| Configuration.Config.LoadDownloadList | library-maintainer/src/config.py:57-76 | the method's error, list and options are exactly the load outcome of the two lemmas above, from the list and options it had: a `content` key replaces the list, then an `options` key replaces the options, a key holding `None` raises, and the first error stops the load with the earlier assignment kept |
| Configuration.Config.Load | library-maintainer/src/config.py:30-55 | building a configuration fails with the schedule's error when the schedule is malformed; otherwise it fails iff loading the download list from the defaults fails, with that error; on success it carries the parsed schedule, `/data`, `/config`, `library.xml` under `/data`, the server URL, the filter and the flag from the environment, and the list and options of that load (the defaults when there is no file) |
| Configuration.Config.Build | library-maintainer/src/config.py:32-55 | with a parsed schedule: the environment fields are read with their defaults, and the result fails iff loading the download list from the defaults fails, carrying that error, or else that load's list and options |
| Database.MirrorsColumn | library-maintainer/src/database.py:70 | the mirrors column is `""` when the key is absent and the joined list when given; `"|".join(None)` raises exactly when the key holds `None` |
| Database.SizeColumn | library-maintainer/src/database.py:79 | `file_size` is 0 when the key is absent, NULL when it holds `None`, and the value when given |
| Database.DecodeMirrors | library-maintainer/src/database.py:150 | NULL and `""` read as no mirrors; otherwise the list is non-empty, no part holds `|`, and the parts join back with `|` to the column text |
| Database.MirrorsRoundTrip | library-maintainer/src/database.py:97 | a stored mirror list reads back unchanged when no mirror contains the pipe separator and it is not `[""]` |
| Database.EmptyMirrorCollapses | library-maintainer/src/database.py:70 | the list `[""]` is stored as `""` and reads back as `[]` |
| Database.LookupRow | library-maintainer/src/database.py:135-142 | selecting by `book_id` finds a row iff one has that id, and the row found has it |
| Database.LookupUnique | library-maintainer/src/database.py:32 | with `book_id` unique, looking up a row's id finds exactly that row |
| Database.Without | library-maintainer/src/database.py:102-106 | the REPLACE conflict resolution keeps exactly the rows with a different `book_id` |
| Database.UpsertKeepsUnique | library-maintainer/src/database.py:102-117 | an upsert keeps `book_id` unique |
| Database.UpsertThenLookup | library-maintainer/src/database.py:102-117 | after an upsert its id finds the new row and every other id finds what it found before |
| Database.FreshExactly | library-maintainer/src/database.py:275-302 | `needs_update(b, d)` is false iff a row for `b` holds the non-empty `book_date` `d` |
| Database.UpsertLeavesBookDateNull | library-maintainer/src/database.py:103-106 | the upsert's column list omits `book_date`, so after any upsert of `b`, `needs_update(b, d)` is true for every `d` |
| Database.BatchAllOrNothing | library-maintainer/src/database.py:65-92 | a batch is rolled back iff one of its entries raises: its mirrors hold `None` or it has no `book_id` key |
| Database.NullIdAppends | library-maintainer/src/database.py:69-88 | an entry whose `book_id` holds `None` commits and appends a row with a NULL `book_id`, replacing no row |
| Database.IdOf | library-maintainer/src/database.py:77 | `meta4_data["book_id"]` is the given id, or NULL when the key holds `None` |
| Database.BatchKeepsUnique | library-maintainer/src/database.py:69-88 | a committed batch keeps `book_id` unique |
| Database.BatchUntouched | library-maintainer/src/database.py:69-88 | an id that no entry of a committed batch names keeps its row |
| Database.BatchLastWriteWins | library-maintainer/src/database.py:69-88 | in a committed batch the last entry for an id decides its row |
| Database.ListingOnePerBook | library-maintainer/src/database.py:174-184 | the listing holds each stored non-NULL `book_id` exactly once and no other id |
| Database.DatabaseManager.constructor | library-maintainer/src/database.py:17-20 | the database lives at `data_dir/meta4_cache.db` and opens on the existing tables |
| Database.DatabaseManager.UpdateMeta4Info | library-maintainer/src/database.py:94-127 | mirrors holding `None` raise before anything is written, and the table is unchanged; otherwise the row for `book_id` is replaced wholesale with the columns above, `get_meta4_info` returns the new fields and `needs_update` is true for every date; other ids are unchanged either way |
| Database.DatabaseManager.NeedsUpdate | library-maintainer/src/database.py:275-302 | with `book_id` unique, false iff a row for the id holds the non-empty `book_date` equal to the new date; `FreshExactly` and `UpsertLeavesBookDateNull` state the same on tables |
| Database.DatabaseManager.BatchUpdateMeta4Info | library-maintainer/src/database.py:63-92 | the table becomes the in-order upserts of the batch, or stays unchanged when the batch rolls back |
| Database.DatabaseManager.GetMeta4Info | library-maintainer/src/database.py:129-160 | None iff no row has the id; otherwise the fields of that row, with mirrors decoded |
| Database.DatabaseManager.GetAllMeta4Info | library-maintainer/src/database.py:162-188 | one record per row, in table order, each with its `book_id` |
| Database.DatabaseManager.GetMeta4DownloadStatus | library-maintainer/src/database.py:190-224 | the newest status row, or `{0, 0, None, False}` when the log is empty |
| Database.DatabaseManager.UpdateMeta4DownloadStatus | library-maintainer/src/database.py:226-250 | appends one row stamped `now`, which becomes the current status |
| Database.DatabaseManager.CleanupOldEntries | library-maintainer/src/database.py:252-273 | the statement raises on its misplaced placeholder and the error is swallowed, so neither table changes |
| Strings.ParseInt | library-maintainer/src/content_manager.py:72 | `int(size)` succeeds only on text holding a digit |
| Strings.ParseIntGrammar | library-maintainer/src/content_manager.py:72 | `int(size)` succeeds iff the text, without surrounding whitespace, is an optional `+`/`-` followed by digits with single `_` between digits |
| Strings.ParseIntSignedDigits | library-maintainer/src/content_manager.py:72 | whitespace around an optional sign and a run of digits (single `_` allowed between two digits) is ignored, and the value is the digits' decimal value, negated after `-` |
| Strings.UnderscoreIgnored | library-maintainer/src/content_manager.py:72 | a `_` between digits does not change the value read |
| Strings.ParseIntOfIntText | library-maintainer/src/content_manager.py:72 | reading back the decimal text of any integer gives that integer |
| Content.LinkOutcome | library-maintainer/src/content_manager.py:65-74 | a `.zim` link without two text siblings raises; one is kept iff its date (without `[]`) is a `%Y-%m-%d %H:%M` date and its size (without `()`) an integer; the entry holds the href, the date text and the size |
| Content.ScanConcat | library-maintainer/src/content_manager.py:65-76 | the listing of two runs of links is the first's entries followed by the second's, so document order is kept |
| Content.ScanStep | library-maintainer/src/content_manager.py:65-74 | one more link extends the listing by exactly that link's outcome |
| Content.ScanRaises | library-maintainer/src/content_manager.py:66-69 | the listing raises iff some `.zim` link lacks its two text siblings |
| Content.ListedEntriesConform | library-maintainer/src/content_manager.py:65-74 | every listed entry is a `.zim` href with a valid date, kept from a link of the page |
| Content.ContentManager.GetAvailableContent | library-maintainer/src/content_manager.py:54-76 | the loop returns exactly the listing of the page; a status other than 200 or an unreachable server raises |
| Content.SucceededDownloadPlacesBody | library-maintainer/src/content_manager.py:80-109 | a successful download leaves the whole body at `dest`, no `.tmp`, and every other path as it was |
| Content.FailedDownloadKeepsDest | library-maintainer/src/content_manager.py:111-119 | a failed download leaves `dest` exactly as it was and no `.tmp` |
| Content.MissingLengthAcceptsOnlyEmpty | library-maintainer/src/content_manager.py:89-105 | with verification on, a reply without `content-length` succeeds only with an empty body |
| Content.ContentManager.StreamBody | library-maintainer/src/content_manager.py:92-95 | the 8192-byte chunk loop leaves the open `.tmp` holding exactly the body, and changes no other file |
| Content.ContentManager.DownloadFile | library-maintainer/src/content_manager.py:78-119 | the 8192-byte chunk loop streams the body into `dest.tmp`; the call returns true iff status 200, a readable length, a creatable `.tmp`, a complete stream, a matching size when verifying, and a successful rename; the files become the body at `dest` on success and lose the `.tmp` either way |
| Content.PlannedTasksAreAdmittedMatches | library-maintainer/src/content_manager.py:130-140 | every planned download is for an item the filter admits and a listed path starting with `<category>/<name>`, placed at `data_dir/<path>` |
| Content.PlanSchedulesMissing | library-maintainer/src/content_manager.py:143-153 | an admitted item's listed match whose destination is missing is always scheduled |
| Content.PlanSchedulesStale | library-maintainer/src/content_manager.py:143-153 | an admitted item's listed match whose name has no recorded date, or a different one, is scheduled, unless the same run already scheduled another file of that name with that date |
| Content.StateTracksLastTask | library-maintainer/src/content_manager.py:155-160 | each name that got downloads records the date, size and path of its last one; other names' entries are unchanged |
| Content.PlanIdleWhenCurrent | library-maintainer/src/content_manager.py:143-145 | when every admitted match exists and carries its recorded date, nothing is scheduled and the state is unchanged |
| Content.PlannedDestsAreZim | library-maintainer/src/content_manager.py:136-140 | destinations built from listed `.zim` paths are `.zim` paths |
| Content.TwoMatchesReplanEveryRun | library-maintainer/src/content_manager.py:143-160 | for an admitted item matching two listed files with different dates, when the state records the second: both files are fetched again even if present, and the state ends as it started, so every run repeats both downloads |
| Content.RunAllLeavesNoTemp | library-maintainer/src/content_manager.py:162-164 | running the downloads leaves none of their `.tmp` files and creates no other `.tmp` |
| Content.ContentManager.constructor | library-maintainer/src/content_manager.py:25-43 | the state starts as the stored state, or empty when there is none |
| Content.ContentManager.PlanDownloads | library-maintainer/src/content_manager.py:130-160 | the outer loop over the configured items produces the tasks and the state of the planning specification, starting from no tasks and the old state |
| Content.ContentManager.PlanMatches | library-maintainer/src/content_manager.py:135-160 | the inner loop over the listed files extends the tasks and the state as the planning specification does for one item |
| Content.ContentManager.RunDownloads | library-maintainer/src/content_manager.py:162-163 | awaiting the tasks turns the files into the sequential result of their downloads, whose properties the lemmas above state |
| Content.ContentManager.UpdateContent | library-maintainer/src/content_manager.py:121-174 | a failed listing changes nothing; otherwise the nested loops leave exactly the planned state, the downloads turn the files into their sequential result, and the state is saved iff something was scheduled |
| Content.ContentManager.Cleanup | library-maintainer/src/content_manager.py:176-186 | does nothing when `cleanup_incomplete` is off or the directory cannot be listed; otherwise removes exactly the data directory's entries ending in `.tmp` |
| Files.FileSystem.Discard | library-maintainer/src/content_manager.py:117-118 | removing a path if it exists leaves every other file and every directory as it was |
| Files.BaseNameOfEntry | library-maintainer/src/library_manager.py:30 | the base name of an entry's path is the entry's name |
| Library.NameParts | library-maintainer/src/library_manager.py:30-31 | the list is non-empty, no part holds `_`, and the parts join back with `_` to the base name with every `.zim` removed |
| Library.ZimMetadataOf | library-maintainer/src/library_manager.py:26-40 | the creator is the stem's first `_`-free segment; a stem without `_` is name and creator, undated, in `eng`; publisher `Kiwix` and description `Kiwix ZIM file for ` + creator; `NameAndDateRebuildStem` and `MetadataOfVersionedFile` give name, date and language |
| Library.NameAndDateRebuildStem | library-maintainer/src/library_manager.py:33-40 | with a `_` in the stem, name + `_` + date is the stem; without one, name is the stem, date `''` and language `eng`; publisher is `Kiwix` and description `Kiwix ZIM file for ` + creator |
| Library.NamePartsOfZimEntry | library-maintainer/src/library_manager.py:30-31 | the name parts of an entry `<stem>.zim` are the `_`-separated parts of the stem, when the stem holds no `/` and no `.zim` |
| Library.MetadataOfVersionedFile | library-maintainer/src/library_manager.py:30-39 | a file `p0_p1_…_date.zim` in any directory has name `p0_…` (all parts but the date), that date, language `p1` and creator `p0` |
| Library.MetadataOfSingleName | library-maintainer/src/library_manager.py:34-39 | a file `<stem>.zim` whose stem has no `_` (such as `small.zim`) has name and creator `stem`, date `''` and language `eng` |
| Library.ZimNames | library-maintainer/src/library_manager.py:56-57 | exactly the listed names ending in `.zim`; a listing without repeats gives each of them once |
| Library.ZimNamesConcat | library-maintainer/src/library_manager.py:56-57 | the `.zim` names of two runs of a listing are those of the first followed by those of the second, so listing order is kept |
| Library.BooksMatchZimEntries | library-maintainer/src/library_manager.py:56-84 | one book per `.zim` entry in listing order; its title, creator, publisher, date, description and language are the file name's metadata, its id is `kiwix_` + name, its path the entry's path and its size that file's size; the url is base URL + that creator + `/` + file name outside testing, and the fixed test URL when testing |
| Library.LibraryManager.CollectBooks | library-maintainer/src/library_manager.py:53-84 | the loop builds exactly those books and a total equal to the sum of their sizes |
| Library.LibraryManager.MakeBook | library-maintainer/src/library_manager.py:58-84 | the book built for one `.zim` entry is its catalogue entry, with the size of the file it names |
| Library.LibraryManager.WriteLibrary | library-maintainer/src/library_manager.py:89-95 | the document is published iff both `library.xml.tmp` and `library.xml` can be written; then `library.xml` holds it and no `.tmp` remains; otherwise only the `.tmp` is removed |
| Library.LibraryManager.UpdateLibrary | library-maintainer/src/library_manager.py:42-108 | an unlistable data directory escapes and changes nothing; otherwise the catalogue is published iff both `library.xml.tmp` and `library.xml` can be written; on success `library.xml` holds the document and the total is the sum of the book sizes; on failure only the `.tmp` is removed; no `.tmp` remains either way |
| Library.LibraryManager.Cleanup | library-maintainer/src/library_manager.py:110-117 | removes a leftover `library.xml.tmp` and nothing else |
| Library.LibraryManager.constructor | library-maintainer/src/library_manager.py:22-24 | the manager keeps its configuration |

## Left out

- Concurrency: the semaphore bounding simultaneous downloads and `asyncio.gather`.
  Downloads run one after another in planning order, so
  `max_concurrent_downloads` is carried but never read.
- The network, HTML parsing, YAML, JSON and XML are inputs or values:
  - each request is a `Reply` value;
  - the page is already parsed into links and their siblings;
  - the download list is an already-parsed document;
  - the catalogue is a `LibraryDocument` value, not pretty-printed text.
- Retries, mirror failover and checksum checks: the downloader has none, and `retry_attempts` is never read.
- Loading and saving `content_state.json`. The stored state is a constructor
  argument, and saving sets `savedState`. A failed save (logged and ignored)
  is not modelled.
- Timing, logging and metrics calls (`time.time()`, `structlog`, `monitoring`)
  have no effect on the modelled state.
- `datetime.now()` timestamps are the parameter `now`.
- SQLite internals, the schema creation in `_init_db`, and the `id` column are
  not modelled. Rowid order is the order of the row sequence.
- Database exceptions other than a missing `book_id` key or `None` mirrors (a
  locked or unreadable database, a value of the wrong type) and the fallbacks
  they trigger are not modelled.
- Content.ExpectedSize: the `content-length` header arrives already classified
  as absent, text `int()` rejects, or a number; parsing the header text is not
  modelled.
- Strings.ParseInt: digits are ASCII only. The Unicode digits and whitespace
  that Python's `int()` also accepts are not modelled.
- Content.LinkOutcome: `strptime` is modelled only for the canonical
  zero-padded form `YYYY-MM-DD HH:MM` with one space. Python also accepts
  single-digit fields and any run of whitespace in place of the space (such as
  `2024-01-15  10:30`); such links are skipped here.
- Configuration.TrueFlagSpellings: `lower()` folds ASCII letters only.
- Files.FileSystem.Valid: directories named `*.tmp` or `*.zim` are excluded.
  In the source, `os.path.getsize` on a directory returns the directory's own
  size, so a `*.zim` directory would be catalogued as a book, and `os.remove`
  on a `*.tmp` directory would raise during cleanup. The exclusion drops both
  behaviours.
- Database.DatabaseManager.BatchUpdateMeta4Info: every row of a batch is
  stamped with the one time `now`. The source reads the clock once per upsert,
  so rows of one batch may get increasing times.
- Files.SizeOf: the size of a written `library.xml` is not modelled and reads as 0.
- Library.LibraryManager.UpdateLibrary: a file that vanishes between the
  listing and `getsize` is not modelled, since nothing else changes the
  directory during a run. A `.zim` file name holding a character that XML
  forbids (such as `\x01`) makes `minidom.parseString` raise before
  `temp_file` is assigned, so the handler's own `UnboundLocalError` escapes
  (library_manager.py:87, 107). The model has no such failure and publishes
  for every listable directory.
- Configuration.Config.LoadDownloadList: a `content` or `options` section holding
  `None` is modelled and raises. A `content` section that is not a list, an entry
  that is not a mapping, and option values other than integers and booleans are
  not modelled, because the document arrives already shaped into those types.
- Configuration.ItemsFromEntries: every field value is text, and the exact
  TypeError message is not modelled.
- `main.py` (the scheduler and service loop), `monitoring.py`
  (Prometheus metrics) and `web_server.py` (HTTP handlers that call members
  the content manager does not have) are not part of this model.
