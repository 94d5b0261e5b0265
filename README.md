# Judgment reader: seeding, loading and notification core

A Dafny model of the data core of the judgment reader. The pipeline does the following:

- It reads the National Archives case-law Atom feed for one day at a time.
- It downloads each judgment's XML and reads its metadata (court, neutral citation, date).
- It merges that metadata with a language-model summary into one case record per judgment.
- It loads the batch into a relational database:
  - a base-table pass inserts the roles, courts and chambers the batch names that are not known yet;
  - the name-to-id caches are then read again;
  - a per-case loop writes the judgment, party, counsel and counsel-assignment rows.
- Three lambdas read the result: a report lambda turns yesterday's citations into an HTML fragment of links, a contact lambda pages through an SES contact list, and an SES lambda does both.

The modules follow the repository's files:

| module | file | models |
|---|---|---|
| `Wrappers` | `wrappers.dfy` | `Option`, `Result` and log lines |
| `Strings` | `strings.dfy` | ASCII `.lower()`, `str.replace`, unpadded decimal formatting, `os.path.join` |
| `Calendar` | `calendar.dfy` | proleptic Gregorian dates, day numbers, `± timedelta(days=1)` |
| `Feed` | `feed.dfy` | the feed URL, entry titles and links, and the three `download_url` error policies (`daily_pipeline/extract.py`, `seed_data/extract.py`, `seed_data/extract_asyncio.py`) |
| `Metadata` | `metadata.dfy` | the three `get_metadata` variants, `get_all_metadata`, `convert_judgment` |
| `Load` | `load.dfy` | `seed_data/load.py`: mapping readers, `seed_db_base_tables`, the `insert_*_table` helpers, `seed_judgment_data` |
| `Seeding` | `seeding.dfy` | `list_days_between`, the seeding window, the record merge and the per-day loops of both seeding scripts |
| `ReportLambda` | `report_lambda.dfy` | the report lambda |
| `ContactLambda` | `contact_lambda.dfy` | the contact lambda |
| `SesLambda` | `ses_lambda.dfy` | the SES lambda, as written and corrected |

How the state is modelled:

- **The database** is a class `Load.Database`. It holds one sequence of rows per table and one identifier counter. Each `insert_*` helper is a method whose postcondition gives the new state as a pure function of the old one.
- **The base maps** are a class `Load.BaseMaps`. Their counsel map is updated in place, as `counsel_map.update` does.
- **The loader's case loop** is a method `Load.SeedJudgmentData`, proved equal to the pure function `Load.LoadBatch`. The properties of the load are lemmas about that function.
- **The lambdas' loops** are methods proved against specification functions: `ContactLambda.Collected`, `SesLambda.CollectedOrPartial` and `ReportLambda.Links`.
- **The outside world** becomes parameters:
  - the HTTP responses (`Fetch`) and the parsed XML documents (`Source`);
  - the SES client's replies in call order (`Reply`);
  - the rows a SQL query returns (`CitationRow`);
  - the seeding scripts' world (`Seeding.World`), which holds:
    - the feed response for each URL and the download response for each link;
    - whether the `judgments` folder exists before the first day;
    - the directory listings and the parsed files;
    - the language-model summaries;
    - the loader's reading of a merged dictionary as a case record (`asCase`).
  - Lemmas that depend on the merged metadata assume `Seeding.ReadsMetadata`: the loader reads each of the keys `court_name`, `neutral_citation` and `judgment_date` as it stands, a string as that text and `None` as no value.

## Model

| member | source | states |
|---|---|---|
| Strings.Lower | seed_data/load.py:27-64 | Lower-casing keeps the length, leaves no upper-case letter, moves each upper-case letter down by 32 and leaves every other character as it was. |
| Strings.LowerIdempotent | seed_data/load.py:191-193 | Lower-casing twice is lower-casing once, so the gate's second `.lower()` of the ruling changes nothing. |
| Strings.LowerEmpty | seed_data/load.py:191-192 | A lower-cased name is empty exactly when the name is, so the gate's truthiness test on the lowered court name is that of the original. |
| Strings.ReplaceCharIsMap | daily_pipeline/extract.py:36 | Replacing every `/` by `-` maps each character on its own. |
| Strings.ReplaceAbsent | daily_pipeline/extract.py:36 | Replacing a pattern that does not occur leaves the string unchanged. |
| Strings.ReplaceXmlLeavesNone | daily_pipeline/daily_parse_xml.py:46-47 | After `replace('xml', 'html')` no `xml` remains anywhere in the name. |
| Strings.DecimalString | daily_pipeline/extract.py:46-49 | A number is written as a non-empty string of digits with no leading zero, except for 0 itself. |
| Strings.DecimalRoundTrip | daily_pipeline/extract.py:48-49 | Reading the written digits back gives the number. |
| Strings.DecimalInjective | seed_data/extract.py:44-46 | Different numbers are written differently. |
| Calendar.DayNumber | seed_data/initial_seeding.py:22 | A valid date has a non-negative day number, zero only for 0001-01-01 (the date arithmetic of `datetime`). |
| Calendar.NextDay | seed_data/initial_seeding.py:22 | `+ timedelta(days=1)` gives a valid date whose day number is one more. |
| Calendar.PrevDay | daily_pipeline/extract.py:45 | `- timedelta(days=1)` gives a valid date whose next day is the original and whose day number is one less. |
| Calendar.DayNumberInjective | seed_data/initial_seeding.py:20-22 | Two valid dates with the same day number are the same date. |
| Feed.TakeDigits | seed_data/extract.py:44-46 | Reading digits off a string gives a prefix of it made only of digits. |
| Feed.ReadParamsRoundTrip | seed_data/extract.py:45-46 | `&name=value` parameters written in order read back as the same values, in order. |
| Feed.FeedUrlRoundTrip | daily_pipeline/extract.py:46-49 | The feed URL is the base URL, then `from_date_0..2` and `to_date_0..2` carrying day, month and year; reading it back gives the date. |
| Feed.FeedUrlInjective | seed_data/extract_asyncio.py:42-46 | Different days have different feed URLs. |
| Feed.DailyFeedIsYesterday | daily_pipeline/extract.py:43-49 | The daily URL is the feed URL of the day before today. |
| Feed.TitleShape | daily_pipeline/extract.py:36 | A title never contains `/` and always ends in `.xml`. |
| Feed.TitleOfSitePath | seed_data/extract.py:30 | For an href made of the site base plus a path without that base, the title is the path with `/` turned into `-`, then `.xml`. |
| Feed.CourtOfAppealExample | seed_data/test_extract.py:40-54 | The entry `.../ewca/civ/2025/108` gives the title `ewca-civ-2025-108.xml` and the link `.../ewca/civ/2025/108/data.xml`. |
| Feed.JudgmentsOfWellFormed | daily_pipeline/extract.py:32-40 | A feed whose entries all carry an alternate link with an href gives one judgment per entry, in feed order, built from that href. |
| Feed.JudgmentsOfMalformed | daily_pipeline/extract.py:34 | The first entry without an alternate link or href raises that entry's `TypeError` or `KeyError`. |
| Feed.JudgmentsOfMalformedPrefix | seed_data/extract_asyncio.py:27-33 | Once the entries read so far raise, the later entries change nothing. |
| Feed.ReadEntries | seed_data/extract.py:27-33 | The entry loop computes exactly the judgments of the feed, or the failure of its first bad entry. |
| Feed.GetDailyJudgments | daily_pipeline/extract.py:18-40 | A failed request is logged and re-raised as a `RequestException`; otherwise the result is the judgments of the feed. |
| Feed.GetSeedJudgments | seed_data/extract.py:17-39 | A client error is logged and re-raised and a timeout escapes. An empty feed returns `None` with an information line. Otherwise the result is the feed's judgments. |
| Feed.FeedRaised | seed_data/extract.py:17-39 | The feed read raises exactly when the request fails or an entry lacks its link or `href`. A failed request gives a client error or a timeout, and a bad entry gives its own `TypeError` or `KeyError`. |
| Feed.FeedEntryErrorRaised | seed_data/extract.py:27-28 | The first entry whose link has no `href` makes the feed read raise `KeyError`, and no folder is made. |
| Feed.DownloadPolicies | daily_pipeline/extract.py:76-89 | All three `download_url`s write the same file when the request succeeds. On failure none writes one: the daily one re-raises, the sequential seeder's never raises, and the gather seeder's re-raises client errors and lets timeouts escape. |
| Feed.SequentialWritesSuccessful | seed_data/extract.py:74-79 | The sequential downloads write exactly the files whose request succeeded, in feed order. |
| Feed.DownloadDaysJudgments | seed_data/extract.py:17-81 | A feed failure is raised with nothing written. An empty feed writes nothing. Otherwise one download per entry is awaited in feed order and none raises. What it raises is exactly what the feed read raises. `os.makedirs` runs exactly when the feed lists at least one judgment. The log is the feed read's line on a client error, "No judgments found for this day." for an empty feed, and otherwise each download's line in feed order followed by "All judgments for day … downloaded.". |
| Feed.SequentialLogLines | seed_data/extract.py:61-66 | The sequential downloads log one line each, in feed order. The line is "Downloaded" for a fetched file, the timeout error line for a timeout, and the download error line for any other failure. |
| Feed.Tasks | seed_data/extract_asyncio.py:73-76 | One download task per entry, with that entry's link and title and the given folder. |
| Feed.GatherRaisedSpec | seed_data/extract_asyncio.py:77 | Gathering raises exactly when some download fails, and what it raises is the failure of a failed task. |
| Feed.GatherDayRaisedSpec | seed_data/extract_asyncio.py:68-77 | Past a feed that reads, the gather seeder's day raises nothing exactly when every one of its downloads succeeds. |
| Feed.GatherDaysJudgments | seed_data/extract_asyncio.py:17-78 | A feed failure is raised with no task. Otherwise there is one task per entry, gathered, raising as the gathered downloads do. Tasks, and with them `os.makedirs`, exist exactly when the feed lists at least one judgment. The log is the feed read's line. A gather that succeeds logs one "Downloaded" per task, then "All judgments for day … downloaded.". A gather that raises a client error carries the failing download's error line; one that times out carries none. |
| Metadata.FindSpec | daily_pipeline/daily_parse_xml.py:21 | `soup.find(tag)` is `None` exactly when no element has that tag, and otherwise is the first such element. |
| Metadata.CitationSpec | daily_pipeline/daily_parse_xml.py:21-23 | The citation is the first `neutralCitation` element's text when it exists and is non-empty, and `None` otherwise (both directions). |
| Metadata.AttrSpec | daily_pipeline/daily_parse_xml.py:25-30 | An attribute read is the first element's non-empty attribute value, and `None` when the element or attribute is missing or empty (both directions). |
| Metadata.DateAndCourtSpec | seed_data/parse_xml.py:24-28 | The date is the first `FRBRdate`'s non-empty `date`, and the court is the first `TLCOrganization`'s non-empty `showAs`. |
| Metadata.NoRelevantElements | seed_data/parse_xml.py:21-28 | A document with none of the three elements gives all three fields `None`. |
| Metadata.AllPresentExample | prompt-engineering/test_parse_xml.py:9-19 | The all-present document gives `High Court`, `2025 EWCA Civ 123`, `2025-02-15`. |
| Metadata.EmptyValuesExample | prompt-engineering/test_parse_xml.py:32-43 | Empty text and empty attributes give all three fields `None`. |
| Metadata.MetadataDictKeys | daily_pipeline/daily_parse_xml.py:16-32 | The dictionary has exactly the keys `court_name`, `neutral_citation` and `judgment_date`, each holding its field or `None`. |
| Metadata.MetadataVariants | seed_data/parse_xml.py:9-21 | A parsed file gives its metadata in every variant. A missing file is logged and fails with `UnboundLocalError`. An unreadable file fails with `UnboundLocalError` in the seed and prompt variants, and escapes as the read error in the daily one. |
| Metadata.AllMetadataInOrder | prompt-engineering/parse_xml.py:32-34 | When every file parses, there is one result per file name, in input order, with no log line. |
| Metadata.AllMetadataFails | prompt-engineering/parse_xml.py:32-34 | One file that does not parse makes the whole list fail with `UnboundLocalError`. |
| Metadata.AllMetadataErrors | prompt-engineering/parse_xml.py:9-21 | The only failure of the list is `UnboundLocalError`. |
| Metadata.ConvertWritesOnlyBodies | daily_pipeline/daily_parse_xml.py:35-51 | A file is written exactly when the document has a `judgmentBody`. It holds the first such element, under the folder joined with the name with every `xml` made `html`. Otherwise the missing body is logged. |
| Load.NameMapOf | seed_data/load.py:27-64 | A mapping reader's keys are the rows' lower-cased names. Each value is the id of a row with that name, and the last such row wins. |
| Load.ReadMaps | seed_data/load.py:67-81 | The five maps are keyed by the names of their tables, and on a well-formed database all their ids are positive. |
| Load.SeedEffect | seed_data/load.py:83-122 | A base-table pass appends new rows to roles, courts and chambers, in that order and with consecutive ids, and changes no other table. |
| Load.SeedEffectWellFormed | seed_data/load.py:92-119 | A pass keeps every id positive and below the next fresh id. It keeps the ids of each table pairwise distinct (`DistinctIds`). |
| Load.BatchNamesLowered | seed_data/load.py:87-113 | Every role, court and chamber name a pass considers is lower-cased. |
| Load.SeedAddsMissingKeys | seed_data/load.py:87-119 | After a pass, each table's names are the old names plus every role, court and chamber of the batch. |
| Load.ReseedSubmitsNothing | seed_data/load.py:91-114 | With the maps re-read after a pass, the same batch has no missing role, court or chamber, so a second pass submits nothing. |
| Load.SubmittedRolesComeFromParties | seed_data/load.py:87-91 | A submitted role is unknown and is the lower-cased role of some party; the ruling never adds a role. |
| Load.StageCounsels | seed_data/load.py:201-205 | Counsel staging succeeds exactly when every chamber resolves. Then it is exactly the entries unknown to the counsel cache, in order and repeats included. Each is staged as its lower-cased name and its chamber's id, none is cached, and every unknown entry is covered. |
| Load.StagePartiesSpec | seed_data/load.py:195-205 | Party staging succeeds exactly when every role and chamber lookup does. Then it gives one party row (name, role id, citation) per party in order. Its counsel rows are exactly the unknown entries of every party, party by party. |
| Load.AssignmentCount | seed_data/load.py:219-223 | There is one assignment per counsel entry of the case. |
| Load.AssignmentAt | seed_data/load.py:219-223 | Assignments are in party-then-counsel order: entry `k` of party `j` is the pair (that party's id, that counsel's id). |
| Load.AssignedIds | seed_data/load.py:216-223 | Entry `k` of party `j` is assigned the id of the last party row with the same lower-cased name. A counsel the cache knew keeps its cached id. A new counsel gets the id of the last new counsel row with its name. |
| Load.RejectedCaseWritesNothing | seed_data/load.py:191-202 | A case with no court, one the gate rejects, or one whose role or chamber lookup raises writes nothing and leaves the counsel cache alone. It fails with `AttributeError`, passes silently, or fails with `KeyError`, respectively. |
| Load.AcceptedCaseWrites | seed_data/load.py:195-225 | An accepted case with parties writes one judgment row and one party row per party in order, with consecutive fresh ids. It writes exactly the unknown counsel entries as counsel rows, in order, with the ids after the parties'. Its assignments are exactly one per entry, in party-then-counsel order: the party's id from the party rows the case returned, and the counsel's id from the merged cache (see `Load.AssignedIds`). It touches no reference table. |
| Load.MergeKeepsCached | seed_data/load.py:218 | Merging new counsel ids keeps every cached name. |
| Load.NewCounselUncached | seed_data/load.py:204-205 | Every inserted counsel name was absent from the cache. |
| Load.CounselCacheGrows | seed_data/load.py:217-218 | A case never removes or changes a cached counsel id. |
| Load.LoadedCounselCached | seed_data/load.py:217-222 | After an accepted case every counsel name of the case is cached. |
| Load.CounselReused | seed_data/load.py:204-218 | A later case naming a counsel of an earlier loaded case stages no new row for that name, whatever its chamber. |
| Load.LoadBatchStops | seed_data/load.py:179-225 | An error stops the case loop, and what earlier cases wrote stays written. |
| Load.BatchCounselCacheGrows | seed_data/load.py:177-218 | Over a whole batch the counsel cache only grows. |
| Load.SeedResolvesBatch | seed_data/load.py:83-122 | After a pass and a re-read of the maps, every court of the batch has a positive id and every role and chamber lookup succeeds. |
| Load.ResolvedBatchHasNoKeyError | seed_data/load.py:197-202 | A batch whose lookups all resolve never stops on `KeyError`. |
| Load.Database.InsertNames | seed_data/load.py:91-94 | Inserting names appends one row per name with fresh ids and keeps the database well formed. |
| Load.Database.InsertJudgments | seed_data/load.py:125-132 | The judgment rows are appended as given. |
| Load.Database.InsertParties | seed_data/load.py:135-144 | Non-empty rows are appended and their (name, id) pairs returned. With no rows nothing is inserted and nothing can be fetched. |
| Load.Database.InsertCounsel | seed_data/load.py:147-155 | Counsel rows are appended with fresh ids and their (lower-cased name, id) pairs returned. |
| Load.Database.InsertAssignments | seed_data/load.py:158-166 | The assignment rows are appended as given. |
| Load.BaseMaps.UpdateCounsel | seed_data/load.py:218 | `counsel_map.update` merges the new ids into the shared map in place, new values winning. |
| Load.GetBaseMaps | seed_data/load.py:67-81 | The five maps are read from the current tables. |
| Load.Enumerate | seed_data/load.py:91 | The list built from a set holds each of its names exactly once. |
| Load.SeedDbBaseTables | seed_data/load.py:83-122 | The pass inserts exactly the missing roles, then, if every case has a court, the missing courts and chambers, each once. It leaves the maps untouched, and a case without a court stops it with `AttributeError` after the roles. |
| Load.StagePartyCounsel | seed_data/load.py:201-205 | The inner counsel loop computes the counsel staging. |
| Load.StageCase | seed_data/load.py:195-205 | The party loop computes the party staging. |
| Load.CollectAssignments | seed_data/load.py:219-223 | The assignment loop computes the assignment rows. |
| Load.SeedCase | seed_data/load.py:179-225 | One iteration of the case loop changes the database and the counsel cache exactly as the case's load does. |
| Load.SeedJudgmentData | seed_data/load.py:169-225 | The case loop changes the database and the counsel cache exactly as loading the batch does. |
| Seeding.MinusDays | seed_data/initial_seeding.py:37 | Subtracting days gives the date that many days earlier, and fails below year 1. |
| Seeding.PlusDays | seed_data/initial_seeding.py:22 | Adding days gives the date that many days later. |
| Seeding.Subtract | seed_data/initial_seeding.py:38 | Subtracting a whole number of days, negative included, moves the day number by that amount. |
| Seeding.DaysFrom | seed_data/initial_seeding.py:22 | `n` consecutive valid days starting at the given day. |
| Seeding.ListDaysBetweenSpec | seed_data/initial_seeding.py:20-22 | `list_days_between` gives `(end - start) + 1` consecutive days from `start` to `end`, and is empty exactly when `end` is before `start`. |
| Seeding.WindowSpec | seed_data/initial_seeding.py:37-39 | A positive `DAYS_TO_SEED` gives exactly that many consecutive days, ending yesterday. |
| Seeding.EmptyWindow | seed_data/initial_seeding.py:38-39 | A `DAYS_TO_SEED` of zero or less gives no day. |
| Seeding.FixedRangeTwoDays | seed_data/initial_seeding_asyncio.py:33-35 | 2025-01-02 to 2025-01-03 is exactly those two days. |
| Seeding.MergeSpec | seed_data/initial_seeding_asyncio.py:49 | `metadata \| api_data` has the keys of both, with the summary winning on a shared key. A failed summary is not a dictionary and the merge raises `TypeError`. |
| Seeding.MergedRecordKeys | seed_data/initial_seeding_asyncio.py:47-49 | A merged record holds the three metadata keys next to the summary's. |
| Seeding.RecordCarriesMetadata | seed_data/initial_seeding_asyncio.py:47-49 | When the summary does not override the metadata keys, the record carries the document's court, citation and date. |
| Seeding.ProcessAllSpec | seed_data/initial_seeding_asyncio.py:43-50 | Processing succeeds exactly when every file reads and has a summary. Then record `i` is file `i`'s metadata merged with its summary. |
| Seeding.ProcessJudgments | seed_data/transform.py:10-23 | The per-file loop computes the processing of the listed files. |
| Seeding.ResolveLoadNoKeyError | seed_data/initial_seeding.py:45-48 | Because the maps are re-read after the base-table pass, the load never stops on `KeyError`. |
| Seeding.ResolveThenLoad | seed_data/initial_seeding_asyncio.py:51-54 | The maps are read, the base tables seeded, the maps read again and the batch loaded. The database ends as that sequence says, never with `KeyError`. |
| Seeding.Uploads | seed_data/load.py:274-280 | One upload per file, keyed by the file's name. |
| Seeding.Removals | seed_data/initial_seeding.py:50-53 | One removal per downloaded file. |
| Seeding.LoadFiles | seed_data/initial_seeding.py:44-48 | Processing then resolving and loading changes the database as the day's load says, never with `KeyError`. |
| Seeding.DownloadDay | seed_data/initial_seeding.py:42 | The day's download raises exactly what `Seeding.DownloadRaised` says for the script, the sequential or the gathering one. It makes the judgments folder exactly when `Seeding.MadeFolder` holds. |
| Seeding.SeedDay | seed_data/initial_seeding.py:40-54 | One day of a script changes the database and records its steps as the day's run says, never with a load `KeyError`. It reports whether its download made the `judgments` folder. |
| Seeding.SeedDays | seed_data/initial_seeding.py:39-54 | The day loop runs the days in order and stops at the first error. The database and the steps are those of the days it reached. The folder exists from the start or from the first download that made it. |
| Seeding.EmptyDaySkipped | seed_data/initial_seeding.py:43 | The dated script skips a day whose folder is empty: nothing is read, loaded, uploaded or removed. |
| Seeding.FeedKeyErrorStopsDay | seed_data/extract.py:27-28 | A feed entry whose link lacks `href` stops the day, and so the loop, right after the download with `KeyError`, leaving the tables untouched. |
| Seeding.DownloadFailures | seed_data/initial_seeding_asyncio.py:39 | The dated script's day fails at the download exactly when the feed read raises. The asyncio script's day also fails then, and past a good feed it fails exactly when one of the file downloads fails. |
| Seeding.MissingFolderStopsRun | seed_data/initial_seeding.py:42-43 | With no folder at the start, a first day whose feed lists nothing makes no folder. `os.listdir` then stops the run with `FileNotFoundError` right after that download. |
| Seeding.FolderMadeBy | seed_data/extract.py:49-51 | The folder exists after the days run so far only if it did at the start or one of their downloads made it, and that day is returned. |
| Seeding.FolderStaysMade | seed_data/extract.py:49-51 | Once a day's download made the folder, it exists after every later day. |
| Seeding.FolderKept | seed_data/initial_seeding.py:50-53 | A folder that existed at the start exists after every day: the loop removes files, never the folder. |
| Seeding.NoCourtRecord | seed_data/initial_seeding_asyncio.py:43-50 | A file whose document has no court and whose summary supplies none gives a batch in which some case has no court. |
| Seeding.NoCourtStopsDay | seed_data/load.py:97-98 | Such a file stops its day with `AttributeError` in the base-table pass. The steps end with that pass: no second cache read, load, upload or removal. |
| Seeding.ProcessAndLoadSteps | seed_data/initial_seeding.py:44-48 | Successful processing and loading go process, read maps, seed base tables, read maps, load. |
| Seeding.CompletedDayOrder | seed_data/initial_seeding.py:42-54 | A completed day downloads, then processes, reads, seeds, reads, loads, uploads every file, removes every file and pauses, in that order. |
| Seeding.CompletedDayTables | seed_data/initial_seeding.py:45-48 | A completed day's tables are the load of its records against the tables as they are after its base-table pass. |
| Seeding.LoadFitsNoKeyError | seed_data/initial_seeding.py:44-48 | On a well-formed database, processing and loading never stop on `KeyError`. |
| Seeding.DayLoadHasNoKeyError | seed_data/initial_seeding_asyncio.py:51-54 | On a well-formed database no day's processing or load stops on `KeyError`. A `KeyError` of the feed read is a download failure (`Seeding.FeedKeyErrorStopsDay`). |
| Seeding.DayStartsWithDownload | seed_data/initial_seeding.py:42 | Every day, however it ends, first downloads that day's files. |
| Seeding.CompletedRunCoversDays | seed_data/initial_seeding.py:39-42 | A run that completes has downloaded every day of the list. |
| Seeding.AsWrittenDayFails | seed_data/initial_seeding_asyncio.py:55 | As written, every day of the asyncio script fails before it uploads or removes anything. |
| Seeding.AsWrittenStopsAfterFirstDay | seed_data/initial_seeding_asyncio.py:35-58 | As written, the asyncio script never gets past its first day. |
| Seeding.CorrectedDayUploadsAndRemoves | seed_data/initial_seeding_asyncio.py:51-58 | With the folder passed to the upload, a day whose processing and load succeed completes: it uploads every file under its name, removes every file and pauses 15 seconds. |
| ContactLambda.FirstFinal | judgment-reader-contact-lambda/judgment_reader_contact_lambda.py:33-41 | The loop's last call is the first reply that is an error or has a falsy `NextToken`. |
| ContactLambda.GetSubscribedEmails | judgment-reader-contact-lambda/judgment_reader_contact_lambda.py:13-41 | The loop returns the addresses of every page up to the first with a falsy token, or re-raises a `ClientError` with no partial list. The first request names only the list, and each later one adds the previous page's `NextToken`. |
| ContactLambda.Handler | judgment-reader-contact-lambda/judgment_reader_contact_lambda.py:57-67 | The handler returns status 200 and the collected addresses, and a `ClientError` propagates with its error line. It makes the same requests as `get_subscribed_emails`, one per page up to the last. |
| ContactLambda.EmailsAppend | judgment-reader-contact-lambda/judgment_reader_contact_lambda.py:29-31 | Collecting is concatenation: the addresses of `a + b` are those of `a` then those of `b`. |
| ContactLambda.EmailsSplit | judgment-reader-contact-lambda/judgment_reader_contact_lambda.py:29-31 | Page `i`'s addresses sit, in contact order, between the earlier and the later pages' addresses. |
| ContactLambda.MissingContactsAddNothing | judgment-reader-contact-lambda/judgment_reader_contact_lambda.py:29 | A page without `Contacts` adds no address. |
| ContactLambda.SinglePageOneCall | judgment-reader-contact-lambda/test_judgment_reader_contact_lambda.py:36-49 | A single page with `NextToken` `None` ends after one call with that page's addresses. |
| ContactLambda.FirstCallFails | judgment-reader-contact-lambda/test_judgment_reader_contact_lambda.py:52-66 | A `ClientError` on the first call is re-raised. |
| ReportLambda.Citations | judgment-reader-report-lambda/judgment_reader_report_lambda.py:26-34 | One citation per row, in row order. |
| ReportLambda.GetJudgmentHtmlHyperlinks | judgment-reader-report-lambda/judgment_reader_report_lambda.py:37-43 | The `+=` loop builds the links of the judgments in input order. |
| ReportLambda.Handler | judgment-reader-report-lambda/judgment_reader_report_lambda.py:46-59 | The handler returns status 200 and the links of yesterday's citations, and every citation occurs in the fragment. |
| ReportLambda.LinkShape | judgment-reader-report-lambda/judgment_reader_report_lambda.py:41-42 | A link carries its citation after `selected_citation=` and again as the link text, and ends in `<br>`. |
| ReportLambda.ReadLinkRoundTrip | judgment-reader-report-lambda/judgment_reader_report_lambda.py:41-42 | A link determines its citation: reading it back gives the citation. |
| ReportLambda.LinksAppend | judgment-reader-report-lambda/judgment_reader_report_lambda.py:39-43 | The links of `a + b` are the links of `a` followed by the links of `b`. |
| ReportLambda.LinksSplit | judgment-reader-report-lambda/judgment_reader_report_lambda.py:40-42 | Judgment `i`'s link sits between the links of the earlier and the later judgments. |
| ReportLambda.NoLinksIffNoJudgments | judgment-reader-report-lambda/judgment_reader_report_lambda.py:39-43 | The fragment is `""` exactly when there are no judgments. |
| ReportLambda.EveryCitationLinked | judgment-reader-report-lambda/judgment_reader_report_lambda.py:40-42 | Every judgment's link, and so its citation, occurs in the fragment. |
| SesLambda.GetSubscribedEmails | ses_lambda/ses_lambda.py:38-61 | Every request passes `PageSize=50` and `NextToken`, `None` on the first call. The loop stops at the first falsy token. A `ClientError` is swallowed and the addresses of the pages before it are returned. |
| SesLambda.SwallowedErrorIsEmptyLastPage | ses_lambda/ses_lambda.py:58-61 | Without an error the result is the contact lambda's list. With one, it is the list the contact lambda would collect had the failing call returned an empty last page. |
| SesLambda.GetJudgmentHtmlHyperlinksAsWritten | ses_lambda/ses_lambda.py:76-81 | As written, the builder returns `""` for no judgments and fails with `UnboundLocalError` for any judgment. |
| SesLambda.HyperlinksAsWrittenFail | ses_lambda/test_ses_lambda.py:57-73 | As written, the test's two judgments fail, while the corrected builder's fragment contains `JUDGMENT001`. |
| SesLambda.HandlerAsWritten | ses_lambda/ses_lambda.py:84-98 | As written, the handler answers status 200 with the addresses and `""` exactly when there is no judgment, and fails otherwise. |
| SesLambda.GetJudgmentHtmlHyperlinks | ses_lambda/ses_lambda.py:76-81 | Corrected, the builder returns the links, with the `neutration_citation=` head, of the judgments in order, and every judgment occurs in them. |
| SesLambda.Handler | ses_lambda/ses_lambda.py:84-98 | Corrected, the handler returns status 200, the addresses and the links of yesterday's citations, and every citation occurs in them. |

## Left out

- Network, disk and cloud I/O are parameters, not effects:
  - the HTTP requests and the feed's XML parsing (`Fetch`, `FeedEntry`);
  - file contents (`Source`);
  - SES replies (`Reply`);
  - the rows returned by SQL queries;
  - directory listings and language-model summaries (`Seeding.World`).
- Database connections, the S3 and SES client constructors, credentials and environment variables are not modelled. `DAYS_TO_SEED` is taken as a whole number, not parsed.
- The `WHERE judgment_date = CURRENT_DATE - INTERVAL '1 day'` filter of both lambdas is evaluated by the database. The model takes the rows it returns.
- Uploads to S3 (`seed_data/load.py:228-280`) appear only as one `Uploaded` step per file, keyed by its name. Their failures, retries and concurrency are not modelled.
- `Feed.GatherRaisedSpec`: `asyncio.gather` re-raises the failure of whichever failing download finishes first. The lemma says only that it raises the failure of some failed task. The function `Feed.GatherRaised`, which the seeding loop uses, fixes one order: the first failing task in list order.
- Timeouts, the `asyncio.sleep` pauses and the scheduling of concurrent tasks are not modelled. A pause is a `Slept` step.
- Log lines keep only their level and fixed text; interpolated values are dropped. The SES lambda's `print` of a swallowed error is not modelled.
- `Feed.GatherDaysJudgments`: when gather raises, the lines that the other, concurrent downloads logged before it depend on scheduling and are not in its log.
- The seeding scripts' own progress lines are not modelled: the day headers (seed_data/initial_seeding.py:40-41, seed_data/initial_seeding_asyncio.py:36-38, 44) and "Processing judgments..." / "Successfully processed judgments." (seed_data/transform.py:14, 22). A day's `Seeding.Step`s also do not carry the download log that `Feed.DownloadDaysJudgments` and `Feed.GatherDaysJudgments` return.
- `Strings.Lower` lower-cases ASCII letters only, whereas Python's `str.lower` also folds non-ASCII letters.
- `execute_values` sends its rows in pages of 100, and `fetchall` then sees only the last page. The model assumes every insert fits in one page.
- The database hands out ids from one counter shared by all tables, instead of one sequence per table. Only freshness and positivity of ids matter to the loader.
- Date arithmetic past year 9999 (`OverflowError` in `datetime`) is not modelled. Subtraction below year 1 is the `None` of `Seeding.MinusDays`.
- Both contact loops assume every contact has an `EmailAddress`. A missing one would be `None` in the contact lambda (`.get`) and a `KeyError` in the SES lambda.
- The SES lambda's first request passes `NextToken=None`, exactly as the code writes it. The client library's own validation of that argument is not modelled.
- `Seeding.CombineFile` treats a file that cannot be read or decoded as failing at `get_xml_data`, which reads it before `get_metadata` does.
- `Seeding.World.listing` is given per day. The model does not derive it from the files the downloads wrote, only whether the `judgments` folder exists.
- The loader's reading of a merged dictionary (`asCase`) is a parameter. `Seeding.ReadsMetadata` constrains only the three metadata keys, and the parties, ruling and other summary fields are whatever `asCase` gives.
- `Seeding.SeedDays` returns the load witnesses of the days it reached, not of the whole list, when a day fails.
- The daily pipeline's orchestration (`daily_pipeline/daily_pipeline.py`, `daily_pipeline/daily_transform.py`) and its load and upload modules are not part of this model. Nor are the Streamlit dashboard, the language-model prompts and the `prompt-engineering` database prototype.
- Behaviours of the code worth noting, which the model follows:
  - Counsel identity is the lower-cased name alone; the chamber is not part of the key (seed_data/load.py:203-205, 222).
  - A new counsel named twice in one case is inserted twice, because only the cache is consulted, and the cache keeps the id returned last (seed_data/load.py:204-205, 154, 218).
  - A case is loaded only when its court name, date and citation are truthy and its court, ruling role and judgment type resolve (seed_data/load.py:192-194).
  - A missing party role or chamber raises `KeyError` and stops the batch (seed_data/load.py:197-202).
  - Download failures are swallowed only by the sequential seeder (seed_data/extract.py:63-66). The daily pipeline re-raises them (daily_pipeline/extract.py:87-89). The gather seeder re-raises client errors and does not catch timeouts (seed_data/extract_asyncio.py:63-65).
  - Nothing checks whether a judgment is already loaded before inserting it again (seed_data/load.py:192-215).

## Findings

| source | as written | input that shows it | evidently intended | confidence | as-written member | corrected member |
|---|---|---|---|---|---|---|
| ses_lambda/ses_lambda.py:78-81 | The loop does `html_content += ...` on a name never assigned, and the function returns the untouched `html_str`. | `["JUDGMENT001", "JUDGMENT002"]`, the judgments of the handler test: the first iteration raises `UnboundLocalError`, yet the test expects `JUDGMENT001` in `JudgmentData`. | Append each link to `html_str` and return it, as the report lambda does. | not executed | SesLambda.HyperlinksAsWrittenFail | SesLambda.GetJudgmentHtmlHyperlinks |
| seed_data/initial_seeding_asyncio.py:55 | The upload is passed the list `judgment_filepaths`, where `upload_multiple_files_to_s3` expects a folder and calls `os.listdir` on it (seed_data/load.py:274). | Any day reaching that line, even one with no files: `os.listdir` of a list raises `TypeError`, so no file is uploaded or removed and no later day is seeded. | Pass the folder `"judgments"`, as the dated script does at seed_data/initial_seeding.py:49. | not executed | Seeding.AsWrittenStopsAfterFirstDay | Seeding.CorrectedDayUploadsAndRemoves |
