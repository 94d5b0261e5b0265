/**
 * The two seeding scripts: the list of days to seed, the per-file record
 * built from the metadata and the language-model summary, and the per-day
 * loop of download, processing, base-table pass, re-read of the caches,
 * load, upload and clean-up.
 *
 * The outside world of one run is a `World` value: what the network
 * answers to each feed and file URL, whether the judgments folder exists
 * when the run starts, what the folder lists after each day's download,
 * what reading each path gives, what the summary call returns for each
 * file, and how the loader reads a combined dictionary as a case record.
 */
module Seeding {
  import opened Wrappers
  import opened Strings
  import opened Calendar
  import opened Load
  import opened Metadata
  import Feed

  // ---------------------------------------------------------------------
  // Days.
  // ---------------------------------------------------------------------

  /** `d - timedelta(days = k)`; `None` where `datetime` overflows below year 1. */
  function MinusDays(d: Date, k: nat): (r: Option<Date>)
    requires Valid(d)
    ensures r.Some? <==> k <= DayNumber(d)
    ensures r.Some? ==> Valid(r.value) && DayNumber(r.value) == DayNumber(d) - k
    decreases k
  {
    if k == 0 then Some(d)
    else if d == Date(1, 1, 1) then None
    else MinusDays(PrevDay(d), k - 1)
  }

  /** `d + timedelta(days = k)`. */
  function PlusDays(d: Date, k: nat): (r: Date)
    requires Valid(d)
    ensures Valid(r) && DayNumber(r) == DayNumber(d) + k
    decreases k
  {
    if k == 0 then d else PlusDays(NextDay(d), k - 1)
  }

  /** `d - timedelta(days = n)` for any whole `n`. */
  function Subtract(d: Date, n: int): (r: Option<Date>)
    requires Valid(d)
    ensures r.Some? <==> n <= DayNumber(d)
    ensures r.Some? ==> Valid(r.value) && DayNumber(r.value) == DayNumber(d) - n
  {
    if n >= 0 then MinusDays(d, n) else Some(PlusDays(d, -n))
  }

  /** `n` consecutive days from `start`. */
  function DaysFrom(start: Date, n: nat): (r: seq<Date>)
    requires Valid(start)
    ensures |r| == n
    ensures forall i | 0 <= i < n :: Valid(r[i]) && DayNumber(r[i]) == DayNumber(start) + i
    ensures n > 0 ==> r[0] == start
    ensures forall i | 0 <= i < n - 1 :: r[i + 1] == NextDay(r[i])
    decreases n
  {
    if n == 0 then [] else [start] + DaysFrom(NextDay(start), n - 1)
  }

  /** `list_days_between`: `range((end - start).days + 1)` days from `start`. */
  function ListDaysBetween(start: Date, end: Date): seq<Date>
    requires Valid(start) && Valid(end)
  {
    var n := DayNumber(end) - DayNumber(start) + 1;
    DaysFrom(start, if n > 0 then n else 0)
  }

  /**
   * The list is inclusive at both ends and consecutive: `(end - start) + 1`
   * days from `start` to `end`, and none when `end` is before `start`.
   */
  lemma ListDaysBetweenSpec(start: Date, end: Date)
    requires Valid(start) && Valid(end)
    ensures var r := ListDaysBetween(start, end);
      && (DayNumber(start) <= DayNumber(end) ==> |r| == DayNumber(end) - DayNumber(start) + 1)
      && (r == [] <==> DayNumber(end) < DayNumber(start))
      && (r != [] ==> r[0] == start && r[|r| - 1] == end)
      && (forall i | 0 <= i < |r| - 1 :: r[i + 1] == NextDay(r[i]))
      && (forall i | 0 <= i < |r| :: Valid(r[i]) && DayNumber(r[i]) == DayNumber(start) + i)
  {
    var r := ListDaysBetween(start, end);
    if r != [] {
      DayNumberInjective(r[|r| - 1], end);
    }
  }

  /**
   * The window of the dated script: it ends yesterday and starts
   * `DAYS_TO_SEED - 1` days before that.
   */
  function SeedingWindow(today: Date, daysToSeed: int): Option<seq<Date>>
    requires Valid(today)
  {
    var end :- MinusDays(today, 1);
    var start :- Subtract(end, daysToSeed - 1);
    Some(ListDaysBetween(start, end))
  }

  /** A positive `DAYS_TO_SEED` gives exactly that many consecutive days, the last being yesterday. */
  lemma WindowSpec(today: Date, daysToSeed: int)
    requires Valid(today) && 1 <= daysToSeed <= DayNumber(today)
    ensures SeedingWindow(today, daysToSeed).Some?
    ensures var r := SeedingWindow(today, daysToSeed).value;
      && |r| == daysToSeed
      && r[|r| - 1] == PrevDay(today)
      && forall i | 0 <= i < |r| :: Valid(r[i]) && DayNumber(r[i]) == DayNumber(today) - daysToSeed + i
  {
    var end := MinusDays(today, 1).value;
    DayNumberInjective(end, PrevDay(today));
    var start := Subtract(end, daysToSeed - 1).value;
    ListDaysBetweenSpec(start, end);
  }

  /** A `DAYS_TO_SEED` of zero or less gives no days at all. */
  lemma EmptyWindow(today: Date, daysToSeed: int)
    requires Valid(today) && today != Date(1, 1, 1) && daysToSeed <= 0
    ensures SeedingWindow(today, daysToSeed) == Some([])
  {
    var end := MinusDays(today, 1).value;
    var start := Subtract(end, daysToSeed - 1).value;
    ListDaysBetweenSpec(start, end);
  }

  /** The fixed range of the asyncio script. */
  const ASYNC_START := Date(2025, 1, 2)
  const ASYNC_END := Date(2025, 1, 3)

  lemma FixedRangeTwoDays()
    ensures Valid(ASYNC_START) && Valid(ASYNC_END)
    ensures ListDaysBetween(ASYNC_START, ASYNC_END) == [ASYNC_START, ASYNC_END]
  {
    assert NextDay(ASYNC_START) == ASYNC_END;
    var r := ListDaysBetween(ASYNC_START, ASYNC_END);
    assert |r| == 2;
  }

  // ---------------------------------------------------------------------
  // Records: metadata merged with the summary.
  // ---------------------------------------------------------------------

  /** What `get_case_summary` returns: the summary dictionary, or `[]` (or `None`) when the call failed. */
  datatype ApiData = Summary(fields: map<string, Json>) | NoSummary

  datatype SeedError =
    | DownloadFailed(failure: Feed.Failure)  // raised by `download_days_judgments`
    | FolderMissing                          // `os.listdir("judgments")` before any download made the folder
    | LoadFailed(error: LoadError)
    | ReadFailed  // `get_xml_data` could not open or decode the file
    | TypeError   // `dict | list`, or `os.listdir` given a list

  /**
   * `metadata | api_data`: the keys of both, the summary's value winning
   * on a shared key; a failed summary is not a dictionary and the union
   * raises.
   */
  function Merge(metadata: map<string, Json>, api: ApiData): Result<map<string, Json>, SeedError>
  {
    match api
    case NoSummary => Err(TypeError)
    case Summary(fields) => Ok(metadata + fields)
  }

  lemma MergeSpec(metadata: map<string, Json>, api: ApiData)
    ensures var r := Merge(metadata, api);
      && (r.Ok? <==> api.Summary?)
      && (r.Err? ==> r.error == TypeError)
      && (r.Ok? ==> r.value.Keys == metadata.Keys + api.fields.Keys)
      && (r.Ok? ==> forall k | k in api.fields :: r.value[k] == api.fields[k])
      && (r.Ok? ==> forall k | k in metadata && k !in api.fields :: r.value[k] == metadata[k])
  {
  }

  /** Merging a file's metadata keeps the three metadata keys next to the summary's own. */
  lemma MergedRecordKeys(doc: Document, fields: map<string, Json>)
    ensures Merge(MetadataDict(MetadataOf(doc)), Summary(fields)).value.Keys
      == {"court_name", "neutral_citation", "judgment_date"} + fields.Keys
  {
    MetadataDictKeys(MetadataOf(doc));
  }

  /**
   * Everything outside the scripts that a run depends on: the answer to
   * each feed URL and each file URL, whether the judgments folder exists
   * at the start, what the folder lists after each day's download, what
   * reading each path gives, the summary of each path, and the loader's
   * reading of a combined dictionary as a case record.
   */
  datatype World = World(
    feeds: string -> Feed.Fetch<seq<Feed.FeedEntry>>,
    downloads: string -> Feed.Fetch<Feed.Bytes>,
    folderAtStart: bool,
    listing: Date -> seq<string>,
    files: string -> Source,
    summaries: string -> ApiData,
    asCase: map<string, Json> -> CaseRecord)

  /** A dictionary value the loader can read as an optional text: a string or `None`. */
  predicate IsText(v: Json)
  {
    v.Str? || v.Null?
  }

  /**
   * The loader reads the three metadata keys as they stand: a string as
   * that text and `None` as no value.
   */
  ghost predicate ReadsMetadata(asCase: map<string, Json> -> CaseRecord)
  {
    forall d: map<string, Json> | "court_name" in d && "neutral_citation" in d && "judgment_date" in d ::
      && (IsText(d["court_name"]) ==> OptionalText(asCase(d).courtName) == d["court_name"])
      && (IsText(d["neutral_citation"]) ==> OptionalText(asCase(d).neutralCitation) == d["neutral_citation"])
      && (IsText(d["judgment_date"]) ==> OptionalText(asCase(d).judgmentDate) == d["judgment_date"])
  }

  const JUDGMENTS := "judgments"

  /**
   * One file: `get_xml_data` reads it first, so a file that cannot be read
   * fails there; then the metadata is merged with the summary.
   */
  function CombineFile(w: World, name: string): Result<CaseRecord, SeedError>
  {
    var path := PathJoin(JUDGMENTS, name);
    match w.files(path)
    case Parsed(doc) =>
      var combined :- Merge(MetadataDict(MetadataOf(doc)), w.summaries(path));
      Ok(w.asCase(combined))
    case _ => Err(ReadFailed)
  }

  /** A file that reads and has a summary. */
  predicate Combines(w: World, name: string)
  {
    w.files(PathJoin(JUDGMENTS, name)).Parsed? && w.summaries(PathJoin(JUDGMENTS, name)).Summary?
  }

  /** The per-file loop of both scripts: one record per file, stopping at the first failure. */
  function ProcessAll(w: World, names: seq<string>): Result<seq<CaseRecord>, SeedError>
  {
    if names == [] then Ok([])
    else
      var records :- ProcessAll(w, names[..|names| - 1]);
      var record :- CombineFile(w, names[|names| - 1]);
      Ok(records + [record])
  }

  /**
   * Processing succeeds exactly when every file reads and has a summary;
   * then record `i` is the loader's reading of file `i`'s metadata merged
   * with its summary.
   */
  lemma {:induction false} ProcessAllSpec(w: World, names: seq<string>)
    ensures ProcessAll(w, names).Ok? <==> forall i | 0 <= i < |names| :: Combines(w, names[i])
    ensures ProcessAll(w, names).Err? ==> ProcessAll(w, names).error in {ReadFailed, TypeError}
    ensures ProcessAll(w, names).Ok? ==>
      && |ProcessAll(w, names).value| == |names|
      && forall i | 0 <= i < |names| ::
           var path := PathJoin(JUDGMENTS, names[i]);
           ProcessAll(w, names).value[i] == w.asCase(MetadataDict(MetadataOf(w.files(path).doc)) + w.summaries(path).fields)
  {
    if names != [] {
      var prefix := names[..|names| - 1];
      assert forall i | 0 <= i < |prefix| :: prefix[i] == names[i];
      ProcessAllSpec(w, prefix);
    }
  }

  /**
   * When the summary does not override them, a file's record carries its
   * metadata: the court, citation and date the document gives, and no
   * value where it gives none.
   */
  lemma {:induction false} RecordCarriesMetadata(w: World, name: string)
    requires ReadsMetadata(w.asCase) && Combines(w, name)
    requires var fields := w.summaries(PathJoin(JUDGMENTS, name)).fields;
      "court_name" !in fields && "neutral_citation" !in fields && "judgment_date" !in fields
    ensures CombineFile(w, name).Ok?
    ensures var m := MetadataOf(w.files(PathJoin(JUDGMENTS, name)).doc);
      var c := CombineFile(w, name).value;
      c.courtName == m.courtName && c.neutralCitation == m.neutralCitation && c.judgmentDate == m.judgmentDate
  {
    var path := PathJoin(JUDGMENTS, name);
    var m := MetadataOf(w.files(path).doc);
    var fields := w.summaries(path).fields;
    var d := MetadataDict(m) + fields;
    MetadataDictKeys(m);
    assert d["court_name"] == OptionalText(m.courtName);
    assert d["neutral_citation"] == OptionalText(m.neutralCitation);
    assert d["judgment_date"] == OptionalText(m.judgmentDate);
    var c := w.asCase(d);
    assert OptionalText(c.courtName) == OptionalText(m.courtName);
    assert OptionalText(c.neutralCitation) == OptionalText(m.neutralCitation);
    assert OptionalText(c.judgmentDate) == OptionalText(m.judgmentDate);
  }

  /** The loop of `process_all_judgments` and of the asyncio script. */
  method ProcessJudgments(w: World, names: seq<string>) returns (records: Result<seq<CaseRecord>, SeedError>)
    ensures records == ProcessAll(w, names)
  {
    var data := [];
    var i := 0;
    while i < |names|
      invariant 0 <= i <= |names|
      invariant ProcessAll(w, names[..i]) == Ok(data)
    {
      assert names[..i + 1][..i] == names[..i];
      var record := CombineFile(w, names[i]);
      if record.Err? {
        records := Err(record.error);
        assert ProcessAll(w, names[..i + 1]) == records;
        ProcessStops(w, names, i + 1);
        return;
      }
      data := data + [record.value];
      i := i + 1;
    }
    assert names[..i] == names;
    records := Ok(data);
  }

  lemma {:induction false} ProcessStops(w: World, names: seq<string>, i: nat)
    requires i <= |names| && ProcessAll(w, names[..i]).Err?
    ensures ProcessAll(w, names) == ProcessAll(w, names[..i])
    decreases |names| - i
  {
    if i < |names| {
      assert names[..|names| - 1][..i] == names[..i];
      ProcessStops(w, names[..|names| - 1], i);
      assert names[..|names|] == names;
    } else {
      assert names[..i] == names;
    }
  }

  // ---------------------------------------------------------------------
  // Resolve, re-read, load.
  // ---------------------------------------------------------------------

  /**
   * The order in which one base-table pass submitted its new names (a
   * Python set has no order the program relies on).
   */
  datatype Pass = Pass(roles: seq<string>, courts: seq<string>, chambers: seq<string>)

  /** `p` is an order the base-table pass over `batch` may submit, given the tables `t` it starts from. */
  predicate PassFor(t: Tables, batch: seq<CaseRecord>, p: Pass)
  {
    var m := ReadMaps(t);
    && IsEnumeration(p.roles, Missing(BatchRoles(batch), m.roleMap))
    && (CourtsNamed(batch) ==>
          && IsEnumeration(p.courts, Missing(BatchCourts(batch), m.courtMap))
          && IsEnumeration(p.chambers, Missing(BatchChambers(batch), m.chamberMap)))
    && (!CourtsNamed(batch) ==> p.courts == [] && p.chambers == [])
  }

  /**
   * Read the caches, seed the base tables, read the caches again, load:
   * the load resolves against the tables as they are after the base-table
   * pass.
   */
  function ResolveLoad(t: Tables, batch: seq<CaseRecord>, p: Pass): Loaded
  {
    var seeded := SeedEffect(t, p.roles, p.courts, p.chambers);
    if !CourtsNamed(batch) then Loaded(seeded, ReadMaps(t).counselMap, Some(AttributeError))
    else LoadBatch(seeded, ReadMaps(seeded), batch)
  }

  /** Because the caches are re-read after the base-table pass, no load stops on a `KeyError`. */
  lemma ResolveLoadNoKeyError(t: Tables, batch: seq<CaseRecord>, p: Pass)
    requires WellFormed(t) && PassFor(t, batch, p)
    ensures ResolveLoad(t, batch, p).error != Some(KeyError)
  {
    if CourtsNamed(batch) {
      var seeded := SeedEffect(t, p.roles, p.courts, p.chambers);
      SeedResolvesBatch(t, batch, p.roles, p.courts, p.chambers);
      ResolvedBatchHasNoKeyError(seeded, ReadMaps(seeded), batch);
    }
  }

  /** The step order of both scripts, on the database and the caches. */
  method ResolveThenLoad(db: Database, batch: seq<CaseRecord>) returns (error: Option<LoadError>, ghost pass: Pass)
    requires db.Valid()
    modifies db
    ensures db.Valid()
    ensures PassFor(old(db.State()), batch, pass)
    ensures var r := ResolveLoad(old(db.State()), batch, pass); db.State() == r.tables && error == r.error
    ensures error != Some(KeyError)
  {
    ghost var t0 := db.State();
    var maps := GetBaseMaps(db);
    var roles, courts, chambers;
    error, roles, courts, chambers := SeedDbBaseTables(batch, db, maps);
    pass := Pass(roles, courts, chambers);
    if error.Some? {
      return;
    }
    var updated := GetBaseMaps(db);
    error := SeedJudgmentData(db, batch, updated);
    ResolveLoadNoKeyError(t0, batch, pass);
  }

  // ---------------------------------------------------------------------
  // The per-day loop.
  // ---------------------------------------------------------------------

  /** What one iteration of a script's day loop does, in order. */
  datatype Step =
    | Downloaded(day: Date)
    | Processed(names: seq<string>)
    | MapsRead
    | BaseTablesSeeded
    | JudgmentsLoaded
    | Uploaded(key: string, path: string)
    | Removed(path: string)
    | Slept(seconds: int)

  /**
   * Which script: the dated one, the asyncio one as written (it passes the
   * list of paths where the upload expects a folder), and the asyncio one
   * with the folder passed.
   */
  datatype Script = Dated | AsyncAsWritten | AsyncCorrected

  datatype Run = Run(tables: Tables, steps: seq<Step>, error: Option<SeedError>)

  /**
   * What processing one day's files gave, what its base-table pass
   * submitted, in its order, and what resolving and loading the records
   * then gave.
   */
  datatype DayLoad = DayLoad(records: Result<seq<CaseRecord>, SeedError>, pass: Pass, loaded: Loaded)

  /** `d` is what processing `names` and then resolving and loading the records does to the tables `t`. */
  predicate LoadFits(t: Tables, w: World, names: seq<string>, d: DayLoad)
  {
    && d.records == ProcessAll(w, names)
    && (d.records.Ok? ==> PassFor(t, d.records.value, d.pass) && d.loaded == ResolveLoad(t, d.records.value, d.pass))
  }

  /** One upload per file, keyed by the file's name. */
  function Uploads(names: seq<string>): (r: seq<Step>)
    ensures |r| == |names|
    ensures forall i | 0 <= i < |names| :: r[i] == Uploaded(names[i], PathJoin(JUDGMENTS, names[i]))
  {
    if names == [] then [] else [Uploaded(names[0], PathJoin(JUDGMENTS, names[0]))] + Uploads(names[1..])
  }

  /** One removal per file. */
  function Removals(names: seq<string>): (r: seq<Step>)
    ensures |r| == |names|
    ensures forall i | 0 <= i < |names| :: r[i] == Removed(PathJoin(JUDGMENTS, names[i]))
  {
    if names == [] then [] else [Removed(PathJoin(JUDGMENTS, names[0]))] + Removals(names[1..])
  }

  /** Processing the files of one day, then resolving and loading the records, as `d` says. */
  function ProcessAndLoad(t: Tables, names: seq<string>, d: DayLoad): Run
  {
    var records, loaded := d.records, d.loaded;
    if records.Err? then Run(t, [Processed(names)], Some(records.error))
    else if !CourtsNamed(records.value) then
      Run(loaded.tables, [Processed(names), MapsRead, BaseTablesSeeded], Some(LoadFailed(AttributeError)))
    else if loaded.error.Some? then
      Run(loaded.tables, [Processed(names), MapsRead, BaseTablesSeeded, MapsRead, JudgmentsLoaded], Some(LoadFailed(loaded.error.value)))
    else
      Run(loaded.tables, [Processed(names), MapsRead, BaseTablesSeeded, MapsRead, JudgmentsLoaded], None)
  }

  /** What a day's `download_days_judgments` raises: the sequential one only on the feed, the gathering one also on a file. */
  function DownloadRaised(s: Script, w: World, day: Date): Option<Feed.Failure>
  {
    if s == Dated then Feed.FeedRaised(w.feeds(Feed.FeedUrl(day)))
    else Feed.GatherDayRaised(day, JUDGMENTS, w.feeds, w.downloads)
  }

  /** Whether a day's download made the judgments folder. */
  predicate MadeFolder(w: World, day: Date)
  {
    Feed.MakesFolder(w.feeds(Feed.FeedUrl(day)))
  }

  /**
   * A day gets as far as its files: the download raised nothing, the
   * folder exists for `os.listdir`, and the dated script found files.
   */
  predicate ReachesFiles(s: Script, w: World, day: Date, folder: bool)
  {
    && DownloadRaised(s, w, day).None?
    && (folder || MadeFolder(w, day))
    && !(s == Dated && w.listing(day) == [])
  }

  /**
   * One day of a script, `folder` saying whether the judgments folder
   * existed before it: a failed download or a missing folder stops the
   * day before anything is read.
   */
  function Day(s: Script, t: Tables, w: World, day: Date, folder: bool, d: DayLoad): Run
  {
    var names := w.listing(day);
    var raised := DownloadRaised(s, w, day);
    if raised.Some? then Run(t, [Downloaded(day)], Some(DownloadFailed(raised.value)))
    else if !folder && !MadeFolder(w, day) then Run(t, [Downloaded(day)], Some(FolderMissing))
    else if s == Dated && names == [] then Run(t, [Downloaded(day)], None)
    else Finish(s, day, names, ProcessAndLoad(t, names, d))
  }

  /** The rest of a day once its files are loaded: upload, remove, pause. */
  function Finish(s: Script, day: Date, names: seq<string>, r: Run): Run
  {
    var steps := [Downloaded(day)] + r.steps;
    if r.error.Some? then Run(r.tables, steps, r.error)
    else if s == AsyncAsWritten then Run(r.tables, steps, Some(TypeError))
    else Run(r.tables, steps + Uploads(names) + Removals(names) + [Slept(if s == Dated then 5 else 15)], None)
  }

  /** A day that gets as far as its files processes and loads them, then finishes. */
  lemma DayReachingFiles(s: Script, t: Tables, w: World, day: Date, folder: bool, d: DayLoad)
    requires ReachesFiles(s, w, day, folder)
    ensures Day(s, t, w, day, folder, d) == Finish(s, day, w.listing(day), ProcessAndLoad(t, w.listing(day), d))
  {
  }

  /** A day that gets as far as its files resolves and loads their records as `d` says. */
  predicate DayFits(s: Script, t: Tables, w: World, day: Date, folder: bool, d: DayLoad)
  {
    ReachesFiles(s, w, day, folder) ==> LoadFits(t, w, w.listing(day), d)
  }

  /**
   * Whether the judgments folder exists once the loop has run `days`: it
   * did at the start, or a day's download made it; the scripts only ever
   * remove files, never the folder.
   */
  function FolderAfter(w: World, days: seq<Date>): bool
  {
    if days == [] then w.folderAtStart
    else FolderAfter(w, days[..|days| - 1]) || MadeFolder(w, days[|days| - 1])
  }

  /** One more day of the loop: the folder exists after it if it did before or its download made it. */
  lemma FolderAfterStep(w: World, days: seq<Date>, i: nat)
    requires i < |days|
    ensures FolderAfter(w, days[..i + 1]) == (FolderAfter(w, days[..i]) || MadeFolder(w, days[i]))
  {
    assert days[..i + 1][..i] == days[..i];
  }

  /** The day loop: days in order, stopping at the first error. */
  function RunDays(s: Script, t: Tables, w: World, days: seq<Date>, loads: seq<DayLoad>): Run
    requires |loads| == |days|
  {
    if days == [] then Run(t, [], None)
    else
      var n := |days| - 1;
      var prev := RunDays(s, t, w, days[..n], loads[..n]);
      if prev.error.Some? then prev
      else
        var r := Day(s, prev.tables, w, days[n], FolderAfter(w, days[..n]), loads[n]);
        Run(r.tables, prev.steps + r.steps, r.error)
  }

  /** Every day the loop reaches fits the tables it starts from. */
  predicate LoadsFit(s: Script, t: Tables, w: World, days: seq<Date>, loads: seq<DayLoad>)
    requires |loads| == |days|
  {
    days == [] ||
      var n := |days| - 1;
      && LoadsFit(s, t, w, days[..n], loads[..n])
      && var prev := RunDays(s, t, w, days[..n], loads[..n]);
         prev.error.None? ==> DayFits(s, prev.tables, w, days[n], FolderAfter(w, days[..n]), loads[n])
  }

  /** Running one more day of the list: the loop's step, as the recursion states it. */
  lemma {:induction false} RunDaysExtend(s: Script, t: Tables, w: World, days: seq<Date>, loads: seq<DayLoad>, load: DayLoad)
    requires |loads| < |days|
    requires RunDays(s, t, w, days[..|loads|], loads).error.None?
    ensures var i := |loads|;
      var prev := RunDays(s, t, w, days[..i], loads);
      var folder := FolderAfter(w, days[..i]);
      var r := Day(s, prev.tables, w, days[i], folder, load);
      && RunDays(s, t, w, days[..i + 1], loads + [load]) == Run(r.tables, prev.steps + r.steps, r.error)
      && (LoadsFit(s, t, w, days[..i], loads) && DayFits(s, prev.tables, w, days[i], folder, load)
          ==> LoadsFit(s, t, w, days[..i + 1], loads + [load]))
  {
    var i := |loads|;
    RunDaysSnoc(s, t, w, days, loads, load);
    var prev := RunDays(s, t, w, days[..i], loads);
    if LoadsFit(s, t, w, days[..i], loads) && DayFits(s, prev.tables, w, days[i], FolderAfter(w, days[..i]), load) {
      LoadsFitSnoc(s, t, w, days, loads, load);
    }
  }

  /** The run of one more day continues the run of the days before it. */
  lemma {:induction false} RunDaysSnoc(s: Script, t: Tables, w: World, days: seq<Date>, loads: seq<DayLoad>, load: DayLoad)
    requires |loads| < |days|
    requires RunDays(s, t, w, days[..|loads|], loads).error.None?
    ensures var i := |loads|;
      var prev := RunDays(s, t, w, days[..i], loads);
      var r := Day(s, prev.tables, w, days[i], FolderAfter(w, days[..i]), load);
      RunDays(s, t, w, days[..i + 1], loads + [load]) == Run(r.tables, prev.steps + r.steps, r.error)
  {
    var i := |loads|;
    assert days[..i + 1][..i] == days[..i];
    assert (loads + [load])[..i] == loads;
  }

  /** One more day that fits the tables it starts from keeps every day fitting. */
  lemma {:induction false} LoadsFitSnoc(s: Script, t: Tables, w: World, days: seq<Date>, loads: seq<DayLoad>, load: DayLoad)
    requires |loads| < |days|
    requires var i := |loads|;
      var prev := RunDays(s, t, w, days[..i], loads);
      && LoadsFit(s, t, w, days[..i], loads) && prev.error.None?
      && DayFits(s, prev.tables, w, days[i], FolderAfter(w, days[..i]), load)
    ensures LoadsFit(s, t, w, days[..|loads| + 1], loads + [load])
  {
    var i := |loads|;
    var longer, more := days[..i + 1], loads + [load];
    assert longer[..i] == days[..i] && more[..i] == loads;
    assert longer[i] == days[i] && more[i] == load;
  }

  /** Once a prefix of the days has failed, the remaining days change nothing. */
  lemma {:induction false} RunDaysStops(s: Script, t: Tables, w: World, days: seq<Date>, loads: seq<DayLoad>, i: nat)
    requires |loads| == |days| && i <= |days|
    requires RunDays(s, t, w, days[..i], loads[..i]).error.Some?
    ensures RunDays(s, t, w, days, loads) == RunDays(s, t, w, days[..i], loads[..i])
  {
    RunDaysStopsUpTo(s, t, w, days, loads, i, |days|, RunDays(s, t, w, days[..i], loads[..i]));
    assert days[..|days|] == days && loads[..|days|] == loads;
  }

  /** Each longer prefix of a run whose first `i` days failed with run `r` is `r`. */
  lemma {:induction false} RunDaysStopsUpTo(s: Script, t: Tables, w: World, days: seq<Date>, loads: seq<DayLoad>, i: nat, j: nat, r: Run)
    requires |loads| == |days| && i <= j <= |days| && r.error.Some?
    requires RunDays(s, t, w, days[..i], loads[..i]) == r
    ensures RunDays(s, t, w, days[..j], loads[..j]) == r
    decreases j
  {
    if i < j {
      RunDaysStopsUpTo(s, t, w, days, loads, i, j - 1, r);
      RunDaysAfterFailure(s, t, w, days, loads, j, r);
    }
  }

  /** A run whose first `j - 1` days failed with run `r` does not run day `j - 1`. */
  lemma {:induction false} RunDaysAfterFailure(s: Script, t: Tables, w: World, days: seq<Date>, loads: seq<DayLoad>, j: nat, r: Run)
    requires |loads| == |days| && 0 < j <= |days| && r.error.Some?
    requires RunDays(s, t, w, days[..j - 1], loads[..j - 1]) == r
    ensures RunDays(s, t, w, days[..j], loads[..j]) == r
  {
    assert days[..j][..j - 1] == days[..j - 1] && loads[..j][..j - 1] == loads[..j - 1];
  }

  /** Processing the day's files, then resolving and loading their records. */
  method LoadFiles(db: Database, w: World, names: seq<string>) returns (error: Option<SeedError>, steps: seq<Step>, ghost load: DayLoad)
    requires db.Valid()
    modifies db
    ensures db.Valid()
    ensures LoadFits(old(db.State()), w, names, load)
    ensures ProcessAndLoad(old(db.State()), names, load) == Run(db.State(), steps, error)
    ensures error != Some(LoadFailed(KeyError))
  {
    ghost var t0 := db.State();
    var records := ProcessJudgments(w, names);
    load := DayLoad(records, Pass([], [], []), Loaded(t0, map[], None));
    steps := [Processed(names)];
    if records.Err? {
      ProcessAllSpec(w, names);
      return Some(records.error), steps, load;
    }
    var loadError;
    ghost var pass;
    loadError, pass := ResolveThenLoad(db, records.value);
    load := DayLoad(records, pass, ResolveLoad(t0, records.value, pass));
    if loadError.Some? && !CourtsNamed(records.value) {
      return Some(LoadFailed(loadError.value)), [Processed(names), MapsRead, BaseTablesSeeded], load;
    }
    steps := [Processed(names), MapsRead, BaseTablesSeeded, MapsRead, JudgmentsLoaded];
    error := if loadError.Some? then Some(LoadFailed(loadError.value)) else None;
  }

  /**
   * A day's `await download_days_judgments(day, "judgments")`: what it
   * raises, and whether it made the judgments folder.
   */
  method DownloadDay(s: Script, w: World, day: Date) returns (raised: Option<Feed.Failure>, made: bool)
    ensures raised == DownloadRaised(s, w, day)
    ensures made == MadeFolder(w, day)
  {
    if s == Dated {
      var effects, log;
      raised, effects, log := Feed.DownloadDaysJudgments(day, JUDGMENTS, w.feeds, w.downloads);
      made := Feed.MakeDirs(JUDGMENTS) in effects;
    } else {
      var tasks, log;
      tasks, raised, log := Feed.GatherDaysJudgments(day, JUDGMENTS, w.feeds, w.downloads);
      made := tasks != [];
    }
  }

  /**
   * One day of a script, on the database: the dated script downloads one
   * file after the other, the asyncio script gathers the downloads.
   * `made` says whether the download made the judgments folder.
   */
  method SeedDay(s: Script, db: Database, w: World, day: Date, folder: bool)
      returns (error: Option<SeedError>, steps: seq<Step>, made: bool, ghost load: DayLoad)
    requires db.Valid()
    modifies db
    ensures db.Valid()
    ensures made == MadeFolder(w, day)
    ensures DayFits(s, old(db.State()), w, day, folder, load)
    ensures Day(s, old(db.State()), w, day, folder, load) == Run(db.State(), steps, error)
    ensures error != Some(LoadFailed(KeyError))
  {
    load := DayLoad(Ok([]), Pass([], [], []), Loaded(db.State(), map[], None));
    var raised;
    raised, made := DownloadDay(s, w, day);
    if raised.Some? {
      return Some(DownloadFailed(raised.value)), [Downloaded(day)], made, load;
    }
    if !folder && !made {
      return Some(FolderMissing), [Downloaded(day)], made, load;
    }
    var names := w.listing(day);
    if s == Dated && names == [] {
      return None, [Downloaded(day)], made, load;
    }
    var loadSteps;
    error, loadSteps, load := LoadFiles(db, w, names);
    steps := [Downloaded(day)] + loadSteps;
    if error.Some? {
      return;
    }
    if s == AsyncAsWritten {
      return Some(TypeError), steps, made, load;
    }
    steps := steps + Uploads(names) + Removals(names) + [Slept(if s == Dated then 5 else 15)];
  }

  /**
   * The loop has run the days `days[..|loads|]`, with `loads` as the
   * witnesses of what each of them loaded, and that run is `r`.
   */
  ghost predicate Reached(s: Script, t: Tables, w: World, days: seq<Date>, loads: seq<DayLoad>, r: Run)
  {
    && |loads| <= |days|
    && LoadsFit(s, t, w, days[..|loads|], loads)
    && RunDays(s, t, w, days[..|loads|], loads) == r
  }

  /** One more day, run on the tables the earlier days left, extends what the loop has reached. */
  lemma {:induction false} ReachedStep(s: Script, t: Tables, w: World, days: seq<Date>, loads: seq<DayLoad>, load: DayLoad, prev: Run, r: Run)
    requires Reached(s, t, w, days, loads, prev) && prev.error.None? && |loads| < |days|
    requires DayFits(s, prev.tables, w, days[|loads|], FolderAfter(w, days[..|loads|]), load)
    requires Day(s, prev.tables, w, days[|loads|], FolderAfter(w, days[..|loads|]), load) == r
    ensures Reached(s, t, w, days, loads + [load], Run(r.tables, prev.steps + r.steps, r.error))
  {
    var i := |loads|;
    RunDaysExtend(s, t, w, days, loads, load);
    assert |loads + [load]| == i + 1;
    assert RunDays(s, t, w, days[..i + 1], loads + [load]) == Run(r.tables, prev.steps + r.steps, r.error);
    assert LoadsFit(s, t, w, days[..i + 1], loads + [load]);
  }

  /**
   * The day loop of a script's `main`: each day in order, stopping at the
   * first error, with the judgments folder existing from the first
   * download that made it.
   */
  method SeedDays(s: Script, db: Database, w: World, days: seq<Date>)
    returns (error: Option<SeedError>, steps: seq<Step>, ghost loads: seq<DayLoad>)
    requires db.Valid()
    modifies db
    ensures db.Valid()
    ensures error.None? ==> |loads| == |days|
    ensures Reached(s, old(db.State()), w, days, loads, Run(db.State(), steps, error))
    ensures error != Some(LoadFailed(KeyError))
  {
    ghost var t0 := db.State();
    error, steps, loads := None, [], [];
    assert days[..0] == [];
    var folder := w.folderAtStart;
    var i := 0;
    while i < |days|
      invariant 0 <= i <= |days| && |loads| == i
      invariant db.Valid()
      invariant folder == FolderAfter(w, days[..i])
      invariant Reached(s, t0, w, days, loads, Run(db.State(), steps, None))
    {
      ghost var before := db.State();
      var dayError, daySteps, made;
      ghost var load;
      dayError, daySteps, made, load := SeedDay(s, db, w, days[i], folder);
      ReachedStep(s, t0, w, days, loads, load, Run(before, steps, None), Run(db.State(), daySteps, dayError));
      steps, loads := steps + daySteps, loads + [load];
      if dayError.Some? {
        return dayError, steps, loads;
      }
      FolderAfterStep(w, days, i);
      folder := folder || made;
      i := i + 1;
    }
  }

  // ---------------------------------------------------------------------
  // Properties of the day loop.
  // ---------------------------------------------------------------------

  /** The dated script skips a day whose folder exists but is empty: nothing is read, loaded or removed. */
  lemma {:induction false} EmptyDaySkipped(t: Tables, w: World, day: Date, folder: bool, d: DayLoad)
    requires DownloadRaised(Dated, w, day).None? && (folder || MadeFolder(w, day))
    requires w.listing(day) == []
    ensures Day(Dated, t, w, day, folder, d) == Run(t, [Downloaded(day)], None)
  {
  }

  /**
   * A download that raises stops the day, and the loop, with that error
   * right after the download: the tables are untouched.  A feed entry
   * whose link lacks `href` stops it with the `KeyError` of the feed read.
   */
  lemma {:induction false} FeedKeyErrorStopsDay(s: Script, t: Tables, w: World, day: Date, folder: bool, d: DayLoad, i: nat)
    requires w.feeds(Feed.FeedUrl(day)).Fetched?
    requires var entries := w.feeds(Feed.FeedUrl(day)).body;
      && i < |entries| && Feed.HrefOf(entries[i]) == Feed.Raised(Feed.KeyError)
      && forall j | 0 <= j < i :: Feed.HrefOf(entries[j]).Returned?
    ensures Day(s, t, w, day, folder, d) == Run(t, [Downloaded(day)], Some(DownloadFailed(Feed.KeyError)))
  {
    Feed.FeedEntryErrorRaised(w.feeds(Feed.FeedUrl(day)).body, i);
  }

  /**
   * The dated script's downloads never raise: its day fails at the
   * download only when the feed does.  The asyncio script's day also fails
   * when one of its file downloads does.
   */
  lemma {:induction false} DownloadFailures(w: World, day: Date)
    ensures DownloadRaised(Dated, w, day) == Feed.FeedRaised(w.feeds(Feed.FeedUrl(day)))
    ensures Feed.FeedRaised(w.feeds(Feed.FeedUrl(day))).Some? ==>
      DownloadRaised(AsyncCorrected, w, day) == Feed.FeedRaised(w.feeds(Feed.FeedUrl(day)))
    ensures Feed.FeedRaised(w.feeds(Feed.FeedUrl(day))).None? ==>
      var js := Feed.JudgmentsOf(w.feeds(Feed.FeedUrl(day)).body).value;
      (DownloadRaised(AsyncCorrected, w, day).None? <==> forall i | 0 <= i < |js| :: w.downloads(js[i].link).Fetched?)
  {
    if Feed.FeedRaised(w.feeds(Feed.FeedUrl(day))).None? {
      Feed.GatherDayRaisedSpec(day, JUDGMENTS, w.feeds, w.downloads);
    }
  }

  /**
   * With no judgments folder at the start, a first day whose feed reads
   * but lists nothing makes no folder, and `os.listdir` stops the run
   * right after that download, for both scripts.
   */
  lemma {:induction false} MissingFolderStopsRun(s: Script, t: Tables, w: World, days: seq<Date>, loads: seq<DayLoad>)
    requires |loads| == |days| && |days| >= 1 && !w.folderAtStart
    requires w.feeds(Feed.FeedUrl(days[0])) == Feed.Fetched([])
    ensures RunDays(s, t, w, days, loads) == Run(t, [Downloaded(days[0])], Some(FolderMissing))
  {
    var first := days[..1];
    assert first[..0] == [] && loads[..1][..0] == [];
    assert Feed.JudgmentsOf([]) == Feed.Returned([]);
    assert !MadeFolder(w, days[0]);
    assert DownloadRaised(s, w, days[0]).None?;
    assert RunDays(s, t, w, first, loads[..1]) == Run(t, [Downloaded(days[0])], Some(FolderMissing));
    RunDaysStops(s, t, w, days, loads, 1);
  }

  /**
   * The folder exists after the days the loop has run only when it did at
   * the start or one of their downloads made it: that day is `i`.
   */
  lemma {:induction false} FolderMadeBy(w: World, days: seq<Date>, j: nat) returns (i: nat)
    requires j <= |days|
    requires FolderAfter(w, days[..j]) && !w.folderAtStart
    ensures i < j && MadeFolder(w, days[i])
  {
    FolderAfterStep(w, days, j - 1);
    if MadeFolder(w, days[j - 1]) {
      i := j - 1;
    } else {
      i := FolderMadeBy(w, days, j - 1);
    }
  }

  /** Once a day's download made the folder, it exists after every later day: no later day stops at `os.listdir`. */
  lemma {:induction false} FolderStaysMade(w: World, days: seq<Date>, i: nat, j: nat)
    requires i < j <= |days|
    requires MadeFolder(w, days[i])
    ensures FolderAfter(w, days[..j])
  {
    FolderAfterStep(w, days, j - 1);
    if i < j - 1 {
      FolderStaysMade(w, days, i, j - 1);
    }
  }

  /** A folder that existed at the start exists after every day. */
  lemma {:induction false} FolderKept(w: World, days: seq<Date>, j: nat)
    requires j <= |days| && w.folderAtStart
    ensures FolderAfter(w, days[..j])
  {
    if j == 0 {
      assert days[..0] == [];
    } else {
      FolderAfterStep(w, days, j - 1);
      FolderKept(w, days, j - 1);
    }
  }

  /** Processing and loading that succeed go through the five steps in order. */
  lemma {:induction false} ProcessAndLoadSteps(t: Tables, names: seq<string>, d: DayLoad)
    requires ProcessAndLoad(t, names, d).error.None?
    ensures ProcessAndLoad(t, names, d).steps == [Processed(names), MapsRead, BaseTablesSeeded, MapsRead, JudgmentsLoaded]
  {
  }

  /**
   * A day that completes runs the steps in the order download, process,
   * read the caches, seed the base tables, read the caches again, load;
   * only then does it upload every file under its own name, remove every
   * file, and pause.
   */
  lemma {:induction false} CompletedDayOrder(s: Script, t: Tables, w: World, day: Date, folder: bool, d: DayLoad)
    requires Day(s, t, w, day, folder, d).error.None?
    requires w.listing(day) != []
    ensures s != AsyncAsWritten
    ensures var names := w.listing(day);
      Day(s, t, w, day, folder, d).steps
        == [Downloaded(day)] + [Processed(names), MapsRead, BaseTablesSeeded, MapsRead, JudgmentsLoaded]
           + Uploads(names) + Removals(names) + [Slept(if s == Dated then 5 else 15)]
  {
    var names := w.listing(day);
    ProcessAndLoadSteps(t, names, d);
    assert Day(s, t, w, day, folder, d) == Finish(s, day, names, ProcessAndLoad(t, names, d));
  }

  /**
   * A completed day's tables are those of loading its records, resolved
   * against the tables as they stand after its base-table pass.
   */
  lemma {:induction false} CompletedDayTables(s: Script, t: Tables, w: World, day: Date, folder: bool, d: DayLoad)
    requires DayFits(s, t, w, day, folder, d)
    requires Day(s, t, w, day, folder, d).error.None?
    requires !(s == Dated && w.listing(day) == [])
    ensures ProcessAll(w, w.listing(day)).Ok?
    ensures var batch := ProcessAll(w, w.listing(day)).value;
      var seeded := SeedEffect(t, d.pass.roles, d.pass.courts, d.pass.chambers);
      && CourtsNamed(batch)
      && Day(s, t, w, day, folder, d).tables == LoadBatch(seeded, ReadMaps(seeded), batch).tables
  {
  }

  /**
   * A day whose files all read and have summaries, one of them with no
   * court in its metadata and none in its summary, stops with the
   * `AttributeError` of the base-table pass, before the second cache read
   * and the load.
   */
  lemma {:induction false} NoCourtStopsDay(s: Script, t: Tables, w: World, day: Date, folder: bool, d: DayLoad, i: nat)
    requires ReadsMetadata(w.asCase)
    requires ReachesFiles(s, w, day, folder) && DayFits(s, t, w, day, folder, d)
    requires var names := w.listing(day); i < |names| && forall k | 0 <= k < |names| :: Combines(w, names[k])
    requires var path := PathJoin(JUDGMENTS, w.listing(day)[i]);
      MetadataOf(w.files(path).doc).courtName.None? && "court_name" !in w.summaries(path).fields
    ensures Day(s, t, w, day, folder, d).error == Some(LoadFailed(AttributeError))
    ensures Day(s, t, w, day, folder, d).steps == [Downloaded(day), Processed(w.listing(day)), MapsRead, BaseTablesSeeded]
  {
    NoCourtRecord(w, w.listing(day), i);
    DayReachingFiles(s, t, w, day, folder, d);
  }

  /** The record of a file with no court in its metadata and none in its summary has no court. */
  lemma {:induction false} NoCourtRecord(w: World, names: seq<string>, i: nat)
    requires ReadsMetadata(w.asCase)
    requires i < |names| && forall k | 0 <= k < |names| :: Combines(w, names[k])
    requires var path := PathJoin(JUDGMENTS, names[i]);
      Combines(w, names[i]) && MetadataOf(w.files(path).doc).courtName.None? && "court_name" !in w.summaries(path).fields
    ensures ProcessAll(w, names).Ok? && !CourtsNamed(ProcessAll(w, names).value)
  {
    var path := PathJoin(JUDGMENTS, names[i]);
    ProcessAllSpec(w, names);
    var records := ProcessAll(w, names).value;
    var m := MetadataOf(w.files(path).doc);
    var combined := MetadataDict(m) + w.summaries(path).fields;
    MetadataDictKeys(m);
    assert combined["court_name"] == Null;
    assert records[i] == w.asCase(combined);
    assert OptionalText(records[i].courtName) == Null;
  }

  /** On a well-formed database, processing and loading as the witness says never stops on a `KeyError`. */
  lemma {:induction false} LoadFitsNoKeyError(t: Tables, w: World, names: seq<string>, d: DayLoad)
    requires WellFormed(t) && LoadFits(t, w, names, d)
    ensures ProcessAndLoad(t, names, d).error != Some(LoadFailed(KeyError))
  {
    ProcessAllSpec(w, names);
    if d.records.Ok? {
      ResolveLoadNoKeyError(t, d.records.value, d.pass);
    }
  }

  /**
   * On a well-formed database the loader never stops a day on a
   * `KeyError`; a `KeyError` of the feed read is a download failure
   * (`FeedKeyErrorStopsDay`).
   */
  lemma {:induction false} DayLoadHasNoKeyError(s: Script, t: Tables, w: World, day: Date, folder: bool, d: DayLoad)
    requires WellFormed(t) && DayFits(s, t, w, day, folder, d)
    ensures Day(s, t, w, day, folder, d).error != Some(LoadFailed(KeyError))
  {
    var names := w.listing(day);
    if ReachesFiles(s, w, day, folder) {
      LoadFitsNoKeyError(t, w, names, d);
      DayReachingFiles(s, t, w, day, folder, d);
    }
  }

  /** Every day, however it ends, starts by downloading that day's files. */
  lemma {:induction false} DayStartsWithDownload(s: Script, t: Tables, w: World, day: Date, folder: bool, d: DayLoad)
    ensures |Day(s, t, w, day, folder, d).steps| >= 1
    ensures Day(s, t, w, day, folder, d).steps[0] == Downloaded(day)
  {
  }

  /** When the loop completes, every day of the list was downloaded. */
  lemma {:induction false} CompletedRunCoversDays(s: Script, t: Tables, w: World, days: seq<Date>, loads: seq<DayLoad>)
    requires |loads| == |days|
    requires RunDays(s, t, w, days, loads).error.None?
    ensures forall i | 0 <= i < |days| :: Downloaded(days[i]) in RunDays(s, t, w, days, loads).steps
  {
    if days != [] {
      var n := |days| - 1;
      var prev := RunDays(s, t, w, days[..n], loads[..n]);
      assert prev.error.None?;
      var folder := FolderAfter(w, days[..n]);
      var r := Day(s, prev.tables, w, days[n], folder, loads[n]);
      assert RunDays(s, t, w, days, loads).steps == prev.steps + r.steps;
      CompletedRunCoversDays(s, t, w, days[..n], loads[..n]);
      assert forall i | 0 <= i < n :: days[..n][i] == days[i];
      DayStartsWithDownload(s, prev.tables, w, days[n], folder, loads[n]);
      DownloadsAppend(days, prev.steps, r.steps);
    }
  }

  /** Steps that download every day but the last, followed by steps that start with its download, download every day. */
  lemma DownloadsAppend(days: seq<Date>, before: seq<Step>, after: seq<Step>)
    requires days != [] && after != [] && after[0] == Downloaded(days[|days| - 1])
    requires forall i | 0 <= i < |days| - 1 :: Downloaded(days[i]) in before
    ensures forall i | 0 <= i < |days| :: Downloaded(days[i]) in before + after
  {
    forall i | 0 <= i < |days|
      ensures Downloaded(days[i]) in before + after
    {
      if i < |days| - 1 {
        var k :| 0 <= k < |before| && before[k] == Downloaded(days[i]);
        assert (before + after)[k] == before[k];
      } else {
        assert (before + after)[|before|] == after[0];
      }
    }
  }

  /** The asyncio script as written fails on every day, before uploading or removing anything. */
  lemma {:induction false} AsWrittenDayFails(t: Tables, w: World, day: Date, folder: bool, d: DayLoad)
    ensures Day(AsyncAsWritten, t, w, day, folder, d).error.Some?
    ensures forall x | x in Day(AsyncAsWritten, t, w, day, folder, d).steps :: !x.Removed? && !x.Uploaded?
  {
    var r := ProcessAndLoad(t, w.listing(day), d);
    assert forall x | x in r.steps :: !x.Removed? && !x.Uploaded?;
    if ReachesFiles(AsyncAsWritten, w, day, folder) {
      assert Day(AsyncAsWritten, t, w, day, folder, d) == Finish(AsyncAsWritten, day, w.listing(day), r);
    }
  }

  /**
   * With the folder passed to the upload, a day of the asyncio script whose
   * download, processing and load succeed completes: every file is
   * uploaded under its own name and removed, and the loop pauses before
   * the next day.
   */
  lemma {:induction false} CorrectedDayUploadsAndRemoves(t: Tables, w: World, day: Date, folder: bool, d: DayLoad)
    requires DownloadRaised(AsyncCorrected, w, day).None? && (folder || MadeFolder(w, day))
    requires ProcessAndLoad(t, w.listing(day), d).error.None?
    ensures Day(AsyncCorrected, t, w, day, folder, d).error.None?
    ensures var names := w.listing(day);
      Day(AsyncCorrected, t, w, day, folder, d).steps
        == [Downloaded(day), Processed(names), MapsRead, BaseTablesSeeded, MapsRead, JudgmentsLoaded]
           + Uploads(names) + Removals(names) + [Slept(15)]
  {
    var names := w.listing(day);
    var r := ProcessAndLoad(t, names, d);
    ProcessAndLoadSteps(t, names, d);
    DayReachingFiles(AsyncCorrected, t, w, day, folder, d);
    assert [Downloaded(day)] + r.steps == [Downloaded(day), Processed(names), MapsRead, BaseTablesSeeded, MapsRead, JudgmentsLoaded];
  }

  /** The asyncio script as written never gets past its first day. */
  lemma {:induction false} AsWrittenStopsAfterFirstDay(t: Tables, w: World, days: seq<Date>, loads: seq<DayLoad>)
    requires |loads| == |days| && |days| >= 1
    ensures RunDays(AsyncAsWritten, t, w, days, loads) == Day(AsyncAsWritten, t, w, days[0], w.folderAtStart, loads[0])
    ensures RunDays(AsyncAsWritten, t, w, days, loads).error.Some?
    ensures forall x | x in RunDays(AsyncAsWritten, t, w, days, loads).steps :: !x.Removed? && !x.Uploaded?
  {
    var first := Day(AsyncAsWritten, t, w, days[0], w.folderAtStart, loads[0]);
    AsWrittenDayFails(t, w, days[0], w.folderAtStart, loads[0]);
    assert days[..1][..0] == [] && loads[..1][..0] == [];
    assert RunDays(AsyncAsWritten, t, w, days[..1], loads[..1]) == first;
    RunDaysStops(AsyncAsWritten, t, w, days, loads, 1);
  }
}
