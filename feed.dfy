/**
 * Discovery and download of judgment files from the National Archives
 * atom feed, in its three variants: the daily pipeline (synchronous,
 * re-raising), the sequential seeder (error-swallowing downloads) and the
 * gather-based seeder (re-raising downloads).  The network is a parameter:
 * a function from URL to the response it gives.
 */
module Feed {
  import opened Wrappers
  import opened Strings
  import opened Calendar

  const BASE_URL: string := "https://caselaw.nationalarchives.gov.uk/atom.xml?per_page=9999"

  /** The site prefix removed from an entry's link to form its file name. */
  const SITE_BASE: string := "https://caselaw.nationalarchives.gov.uk/"

  // ---------------------------------------------------------------------
  // Feed URL.
  // ---------------------------------------------------------------------

  /** `&name=value`, the value written as an unpadded decimal. */
  function Param(name: string, value: nat): string
  {
    "&" + name + "=" + DecimalString(value)
  }

  /** The query parameters of a feed URL, in the order they are written. */
  const DATE_PARAMS: seq<string> := ["from_date_0", "from_date_1", "from_date_2", "to_date_0", "to_date_1", "to_date_2"]

  /** `&n0=v0&n1=v1...` */
  function Params(names: seq<string>, values: seq<nat>): string
    requires |names| == |values|
  {
    if names == [] then "" else Param(names[0], values[0]) + Params(names[1..], values[1..])
  }

  /**
   * `create_daily_atom_feed_url(date)`: day, month and year as the from
   * date, then the same three as the to date.
   */
  function FeedUrl(d: Date): string
  {
    BASE_URL + (Param("from_date_0", d.day) + (Param("from_date_1", d.month) + (Param("from_date_2", d.year)
      + (Param("to_date_0", d.day) + (Param("to_date_1", d.month) + (Param("to_date_2", d.year) + ""))))))
  }

  /** The daily pipeline's `create_daily_atom_feed_url()`: the feed of the day before `today`. */
  function DailyFeedUrl(today: Date): string
    requires Valid(today) && today != Date(1, 1, 1)
  {
    FeedUrl(PrevDay(today))
  }

  /** The longest prefix of decimal digits. */
  function TakeDigits(s: string): (r: string)
    ensures r <= s
    ensures forall i | 0 <= i < |r| :: IsDigit(r[i])
  {
    if s == [] || !IsDigit(s[0]) then [] else [s[0]] + TakeDigits(s[1..])
  }

  lemma {:induction false} TakeDigitsStops(a: string, rest: string)
    requires forall i | 0 <= i < |a| :: IsDigit(a[i])
    requires rest == [] || !IsDigit(rest[0])
    ensures TakeDigits(a + rest) == a
  {
    if a == [] {
      assert a + rest == rest;
    } else {
      assert (a + rest)[1..] == a[1..] + rest;
      TakeDigitsStops(a[1..], rest);
    }
  }

  /** Reads `&name=<digits>` from the front of `s`, giving the number and what follows. */
  function ReadParam(s: string, name: string): Option<(nat, string)>
  {
    var key := "&" + name + "=";
    if !(key <= s) then None
    else
      var digits := TakeDigits(s[|key|..]);
      if digits == [] then None
      else Some((DecimalValue(digits), s[|key| + |digits|..]))
  }

  /** Reads the parameters `names`, in order, from the front of `s`. */
  function ReadParams(s: string, names: seq<string>): Option<(seq<nat>, string)>
  {
    if names == [] then Some(([], s))
    else
      var p :- ReadParam(s, names[0]);
      var q :- ReadParams(p.1, names[1..]);
      Some(([p.0] + q.0, q.1))
  }

  /**
   * Reads a feed URL back: the base, then the six date parameters in order
   * and nothing else, with the from date equal to the to date.
   */
  function ParseFeedUrl(url: string): Option<Date>
  {
    if !(BASE_URL <= url) then None
    else
      var p :- ReadParams(url[|BASE_URL|..], DATE_PARAMS);
      var v := p.0;
      if p.1 == [] && |v| == 6 && v[3] == v[0] && v[4] == v[1] && v[5] == v[2] then Some(Date(v[2], v[1], v[0])) else None
  }

  lemma ReadParamRoundTrip(name: string, v: nat, rest: string)
    requires rest == [] || rest[0] == '&'
    ensures ReadParam(Param(name, v) + rest, name) == Some((v, rest))
  {
    var key := "&" + name + "=";
    var digits := DecimalString(v);
    var s := Param(name, v) + rest;
    assert s == key + (digits + rest);
    assert s[|key|..] == digits + rest;
    TakeDigitsStops(digits, rest);
    DecimalRoundTrip(v);
    assert s[|key| + |digits|..] == rest;
  }

  lemma {:induction false} ParamsStartWithAmp(names: seq<string>, values: seq<nat>, rest: string)
    requires |names| == |values|
    requires rest == [] || rest[0] == '&'
    ensures var s := Params(names, values) + rest; s == [] || s[0] == '&'
  {
    if names != [] {
      var p := Param(names[0], values[0]);
      var q := Params(names[1..], values[1..]) + rest;
      assert p[0] == '&';
      assert Params(names, values) + rest == p + q;
      assert (p + q)[0] == p[0];
    }
  }

  lemma {:induction false} ReadParamsRoundTrip(names: seq<string>, values: seq<nat>, rest: string)
    requires |names| == |values|
    requires rest == [] || rest[0] == '&'
    ensures ReadParams(Params(names, values) + rest, names) == Some((values, rest))
  {
    var s := Params(names, values) + rest;
    if names == [] {
      assert s == rest;
    } else {
      var tail := Params(names[1..], values[1..]) + rest;
      assert s == Param(names[0], values[0]) + tail;
      ParamsStartWithAmp(names[1..], values[1..], rest);
      ReadParamRoundTrip(names[0], values[0], tail);
      assert ReadParam(s, names[0]) == Some((values[0], tail));
      ReadParamsRoundTrip(names[1..], values[1..], rest);
      assert ReadParams(tail, names[1..]) == Some((values[1..], rest));
      assert [values[0]] + values[1..] == values;
    }
  }

  /** The six date parameters of the feed URL, in the order `Params` writes them. */
  lemma FeedUrlQuery(d: Date)
    ensures FeedUrl(d) == BASE_URL + Params(DATE_PARAMS, [d.day, d.month, d.year, d.day, d.month, d.year])
  {
    var names := DATE_PARAMS;
    var values: seq<nat> := [d.day, d.month, d.year, d.day, d.month, d.year];
    assert Params(names[6..], values[6..]) == "";
    assert Params(names[5..], values[5..]) == Param("to_date_2", d.year);
    assert Params(names[4..], values[4..]) == Param("to_date_1", d.month) + Params(names[5..], values[5..]);
    assert Params(names[3..], values[3..]) == Param("to_date_0", d.day) + Params(names[4..], values[4..]);
    assert Params(names[2..], values[2..]) == Param("from_date_2", d.year) + Params(names[3..], values[3..]);
    assert Params(names[1..], values[1..]) == Param("from_date_1", d.month) + Params(names[2..], values[2..]);
    assert Params(names, values) == Param("from_date_0", d.day) + Params(names[1..], values[1..]);
  }

  /**
   * The feed URL carries the date: reading it back gives the date, so the
   * from and to groups hold the same day, month and year, in that order.
   */
  lemma FeedUrlRoundTrip(d: Date)
    requires Valid(d)
    ensures ParseFeedUrl(FeedUrl(d)) == Some(d)
  {
    var values: seq<nat> := [d.day, d.month, d.year, d.day, d.month, d.year];
    var query := Params(DATE_PARAMS, values);
    FeedUrlQuery(d);
    assert (BASE_URL + query)[|BASE_URL|..] == query;
    assert query + [] == query;
    ReadParamsRoundTrip(DATE_PARAMS, values, []);
  }

  /** Different dates give different feed URLs. */
  lemma FeedUrlInjective(a: Date, b: Date)
    requires Valid(a) && Valid(b) && FeedUrl(a) == FeedUrl(b)
    ensures a == b
  {
    FeedUrlRoundTrip(a);
    FeedUrlRoundTrip(b);
  }

  /** The daily pipeline asks for the feed of exactly the previous day. */
  lemma DailyFeedIsYesterday(today: Date, yesterday: Date)
    requires Valid(yesterday) && NextDay(yesterday) == today
    ensures today != Date(1, 1, 1)
    ensures DailyFeedUrl(today) == FeedUrl(yesterday)
  {
    assert today.day >= 2 || today.month >= 2 || today.year >= 2;
    DayNumberInjective(PrevDay(today), yesterday);
  }

  // ---------------------------------------------------------------------
  // File name and download link of a feed entry.
  // ---------------------------------------------------------------------

  /** Every occurrence of the site base removed, every `/` made `-`, then `.xml`. */
  function EntryTitle(href: string): string
  {
    ReplaceAll(ReplaceAll(href, SITE_BASE, ""), "/", "-") + ".xml"
  }

  function EntryLink(href: string): string
  {
    href + "/data.xml"
  }

  datatype Judgment = Judgment(title: string, link: string)

  function JudgmentOf(href: string): Judgment
  {
    Judgment(EntryTitle(href), EntryLink(href))
  }

  /** A title is a flat file name: it has no `/` and ends in `.xml`. */
  lemma TitleShape(href: string)
    ensures '/' !in EntryTitle(href)
    ensures |EntryTitle(href)| >= 4 && EntryTitle(href)[|EntryTitle(href)| - 4..] == ".xml"
  {
    var stripped := ReplaceAll(href, SITE_BASE, "");
    ReplaceCharIsMap(stripped, '/', '-');
  }

  lemma ShortAbsent(pat: string, s: string)
    requires |s| < |pat|
    ensures !Occurs(pat, s)
  {
    forall i | 0 <= i <= |s| ensures !(pat <= s[i..]) {
    }
  }

  /** For a link under the site base, the title is the rest of the link with `/` made `-`. */
  lemma TitleOfSitePath(path: string)
    requires !Occurs(SITE_BASE, path)
    ensures EntryTitle(SITE_BASE + path) == MapChar(path, '/', '-') + ".xml"
  {
    var href := SITE_BASE + path;
    assert SITE_BASE <= href;
    assert href[|SITE_BASE|..] == path;
    assert ReplaceAll(href, SITE_BASE, "") == ReplaceAll(path, SITE_BASE, "");
    ReplaceAbsent(path, SITE_BASE, "");
    ReplaceCharIsMap(path, '/', '-');
    assert "/" == ['/'] && "-" == ['-'];
  }

  /** The Court of Appeal entry `ewca/civ/2025/108`. */
  lemma CourtOfAppealExample()
    ensures JudgmentOf(SITE_BASE + "ewca/civ/2025/108")
         == Judgment("ewca-civ-2025-108.xml", SITE_BASE + "ewca/civ/2025/108" + "/data.xml")
  {
    var path := "ewca/civ/2025/108";
    ShortAbsent(SITE_BASE, path);
    TitleOfSitePath(path);
    var mapped := MapChar(path, '/', '-');
    assert mapped == "ewca-civ-2025-108" by {
      assert |mapped| == 17;
      forall i | 0 <= i < 17 ensures mapped[i] == "ewca-civ-2025-108"[i] {
      }
    }
  }

  // ---------------------------------------------------------------------
  // Reading the feed.
  // ---------------------------------------------------------------------

  /** The `href` of an entry's alternate link, if the link and the attribute exist. */
  datatype Link = Link(href: Option<string>)

  datatype FeedEntry = FeedEntry(alternate: Option<Link>)

  /** The exceptions that leave these functions. */
  datatype Failure =
    | RequestError  // requests.exceptions.RequestException
    | ClientError   // aiohttp.ClientError
    | TimeoutError  // asyncio.TimeoutError
    | TypeError     // subscripting a missing link
    | KeyError      // a link without `href`

  datatype Outcome<T> = Returned(value: T) | Raised(failure: Failure)

  /** What the network answers to a request; `HttpError` is a status that `raise_for_status` rejects. */
  datatype Fetch<T> = Fetched(body: T) | HttpError | ConnectionError | Timeout

  function HrefOf(e: FeedEntry): Outcome<string>
  {
    match e.alternate
    case None => Raised(TypeError)
    case Some(link) => if link.href.None? then Raised(KeyError) else Returned(link.href.value)
  }

  /** The entry loop: a title and link per entry, in feed order, stopping at a malformed entry. */
  function JudgmentsOf(entries: seq<FeedEntry>): Outcome<seq<Judgment>>
  {
    if entries == [] then Returned([])
    else
      match JudgmentsOf(entries[..|entries| - 1])
      case Raised(f) => Raised(f)
      case Returned(js) =>
        match HrefOf(entries[|entries| - 1])
        case Raised(f) => Raised(f)
        case Returned(href) => Returned(js + [JudgmentOf(href)])
  }

  predicate WellFormedFeed(entries: seq<FeedEntry>)
  {
    forall i | 0 <= i < |entries| :: HrefOf(entries[i]).Returned?
  }

  /** One judgment per entry, in feed order; an empty feed gives the empty list. */
  lemma {:induction false} JudgmentsOfWellFormed(entries: seq<FeedEntry>)
    requires WellFormedFeed(entries)
    ensures JudgmentsOf(entries).Returned?
    ensures |JudgmentsOf(entries).value| == |entries|
    ensures forall i | 0 <= i < |entries| :: JudgmentsOf(entries).value[i] == JudgmentOf(HrefOf(entries[i]).value)
  {
    if entries != [] {
      var prefix := entries[..|entries| - 1];
      assert forall i | 0 <= i < |prefix| :: prefix[i] == entries[i];
      JudgmentsOfWellFormed(prefix);
    }
  }

  /** A malformed entry makes the whole read fail with that entry's error. */
  lemma {:induction false} JudgmentsOfMalformed(entries: seq<FeedEntry>, i: nat)
    requires i < |entries| && HrefOf(entries[i]).Raised?
    requires forall j | 0 <= j < i :: HrefOf(entries[j]).Returned?
    ensures JudgmentsOf(entries) == Raised(HrefOf(entries[i]).failure)
  {
    var prefix := entries[..|entries| - 1];
    if i < |entries| - 1 {
      assert forall j | 0 <= j < i :: prefix[j] == entries[j];
      JudgmentsOfMalformed(prefix, i);
    } else {
      assert WellFormedFeed(prefix);
      JudgmentsOfWellFormed(prefix);
    }
  }

  /** The loop over the parsed entries, shared by the three variants. */
  method ReadEntries(entries: seq<FeedEntry>) returns (result: Outcome<seq<Judgment>>)
    ensures result == JudgmentsOf(entries)
  {
    var judgments: seq<Judgment> := [];
    var i := 0;
    while i < |entries|
      invariant 0 <= i <= |entries|
      invariant JudgmentsOf(entries[..i]) == Returned(judgments)
    {
      assert entries[..i + 1][..i] == entries[..i];
      var href := HrefOf(entries[i]);
      if href.Raised? {
        JudgmentsOfMalformedPrefix(entries, i + 1);
        return Raised(href.failure);
      }
      judgments := judgments + [JudgmentOf(href.value)];
      i := i + 1;
    }
    assert entries[..i] == entries;
    return Returned(judgments);
  }

  /** Once a prefix of the feed fails, the whole read fails the same way. */
  lemma {:induction false} JudgmentsOfMalformedPrefix(entries: seq<FeedEntry>, i: nat)
    requires i <= |entries| && JudgmentsOf(entries[..i]).Raised?
    ensures JudgmentsOf(entries) == JudgmentsOf(entries[..i])
    decreases |entries|
  {
    if i < |entries| {
      var prefix := entries[..|entries| - 1];
      assert prefix[..i] == entries[..i];
      JudgmentsOfMalformedPrefix(prefix, i);
    } else {
      assert entries[..i] == entries;
    }
  }

  /**
   * The daily pipeline's `get_judgments_from_atom_feed`: a failed request is
   * logged and re-raised; otherwise the entries are read.
   */
  method GetDailyJudgments(response: Fetch<seq<FeedEntry>>) returns (result: Outcome<seq<Judgment>>, log: seq<Log>)
    ensures !response.Fetched? ==> result == Raised(RequestError) && log == [LogError("Error requesting data from URL")]
    ensures response.Fetched? ==> result == JudgmentsOf(response.body) && log == []
  {
    if !response.Fetched? {
      return Raised(RequestError), [LogError("Error requesting data from URL")];
    }
    result := ReadEntries(response.body);
    log := [];
  }

  /**
   * The seeders' `get_judgments_from_atom_feed`: a client error is logged and
   * re-raised, a timeout escapes unlogged, and an empty feed gives `None`
   * with an information line instead of `[]`.
   */
  method GetSeedJudgments(response: Fetch<seq<FeedEntry>>) returns (result: Outcome<Option<seq<Judgment>>>, log: seq<Log>)
    ensures (response.HttpError? || response.ConnectionError?) ==>
      result == Raised(ClientError) && log == [LogError("Error requesting data from URL")]
    ensures response.Timeout? ==> result == Raised(TimeoutError) && log == []
    ensures response.Fetched? && JudgmentsOf(response.body).Raised? ==>
      result == Raised(JudgmentsOf(response.body).failure) && log == []
    ensures response.Fetched? && JudgmentsOf(response.body) == Returned([]) ==>
      result == Returned(None) && log == [LogInfo("No judgments found for this day.")]
    ensures response.Fetched? && JudgmentsOf(response.body).Returned? && JudgmentsOf(response.body).value != [] ==>
      result == Returned(Some(JudgmentsOf(response.body).value)) && log == []
  {
    match response {
      case HttpError => return Raised(ClientError), [LogError("Error requesting data from URL")];
      case ConnectionError => return Raised(ClientError), [LogError("Error requesting data from URL")];
      case Timeout => return Raised(TimeoutError), [];
      case Fetched(entries) =>
        var judgments := ReadEntries(entries);
        if judgments.Raised? {
          return Raised(judgments.failure), [];
        }
        if judgments.value != [] {
          return Returned(Some(judgments.value)), [];
        }
        return Returned(None), [LogInfo("No judgments found for this day.")];
    }
  }

  /**
   * What fetching and reading a seeder's feed raises: a failed request as a
   * client error, a timeout, or the error of a malformed entry.
   */
  function FeedRaised(response: Fetch<seq<FeedEntry>>): (r: Option<Failure>)
    ensures r.Some? <==> !response.Fetched? || JudgmentsOf(response.body).Raised?
    ensures r.Some? && response.Fetched? ==> r.value == JudgmentsOf(response.body).failure
  {
    match response
    case Fetched(entries) => if JudgmentsOf(entries).Raised? then Some(JudgmentsOf(entries).failure) else None
    case Timeout => Some(TimeoutError)
    case _ => Some(ClientError)
  }

  /**
   * Whether a seeder's `download_days_judgments` runs `os.makedirs`: every
   * download starts with it, and there is one download per entry of a feed
   * that read and was not empty.
   */
  predicate MakesFolder(response: Fetch<seq<FeedEntry>>)
  {
    response.Fetched? && JudgmentsOf(response.body).Returned? && JudgmentsOf(response.body).value != []
  }

  /** A malformed entry stops the day's download with that entry's error, and no folder is made. */
  lemma FeedEntryErrorRaised(entries: seq<FeedEntry>, i: nat)
    requires i < |entries| && HrefOf(entries[i]).Raised?
    requires forall j | 0 <= j < i :: HrefOf(entries[j]).Returned?
    ensures FeedRaised(Fetched(entries)) == Some(HrefOf(entries[i]).failure)
    ensures !MakesFolder(Fetched(entries))
  {
    JudgmentsOfMalformed(entries, i);
  }

  // ---------------------------------------------------------------------
  // Downloading files.
  // ---------------------------------------------------------------------

  type Bytes = seq<bv8>

  datatype Effect = MakeDirs(folder: string) | WriteFile(path: string, content: Bytes)

  /** The result of one `download_url` call. */
  datatype Download = Download(effects: seq<Effect>, log: seq<Log>, raised: Option<Failure>)

  /** The daily pipeline's `download_url`: writes `folder/name`; a failed request is logged and re-raised. */
  function DownloadDaily(folder: string, name: string, response: Fetch<Bytes>): Download
  {
    if response.Fetched? then Download([MakeDirs(folder), WriteFile(folder + "/" + name, response.body)], [LogInfo("XML saved to")], None)
    else Download([MakeDirs(folder)], [LogError("Error downloading the file from URL")], Some(RequestError))
  }

  /** The sequential seeder's `download_url`: a timeout or a client error is only logged. */
  function DownloadSeed(folder: string, name: string, response: Fetch<Bytes>): Download
  {
    match response
    case Fetched(body) => Download([MakeDirs(folder), WriteFile(PathJoin(folder, name), body)], [LogInfo("Downloaded")], None)
    case Timeout => Download([MakeDirs(folder)], [LogError("Timeout error while downloading")], None)
    case _ => Download([MakeDirs(folder)], [LogError("Error downloading file from URL")], None)
  }

  /** The gather-based seeder's `download_url`: a client error is logged and re-raised; a timeout escapes. */
  function DownloadAsync(folder: string, name: string, response: Fetch<Bytes>): Download
  {
    match response
    case Fetched(body) => Download([MakeDirs(folder), WriteFile(PathJoin(folder, name), body)], [LogInfo("Downloaded")], None)
    case Timeout => Download([MakeDirs(folder)], [], Some(TimeoutError))
    case _ => Download([MakeDirs(folder)], [LogError("Error downloading file from URL")], Some(ClientError))
  }

  /**
   * The three error policies side by side: all write the same file when the
   * request succeeds; on failure the daily one re-raises, the sequential
   * seeder never raises, and the gather-based seeder re-raises client errors
   * and lets timeouts escape.  None writes a file on failure.
   */
  lemma DownloadPolicies(folder: string, name: string, response: Fetch<Bytes>)
    requires '/' !in name && folder != [] && folder[|folder| - 1] != '/'
    ensures response.Fetched? ==>
      && DownloadDaily(folder, name, response).effects == DownloadSeed(folder, name, response).effects
      && DownloadSeed(folder, name, response).effects == DownloadAsync(folder, name, response).effects
      && WriteFile(folder + "/" + name, response.body) in DownloadDaily(folder, name, response).effects
    ensures DownloadDaily(folder, name, response).raised.None? <==> response.Fetched?
    ensures DownloadSeed(folder, name, response).raised.None?
    ensures DownloadAsync(folder, name, response).raised ==
      (if response.Fetched? then None else if response.Timeout? then Some(TimeoutError) else Some(ClientError))
    ensures !response.Fetched? ==>
      && DownloadDaily(folder, name, response).effects == [MakeDirs(folder)]
      && DownloadSeed(folder, name, response).effects == [MakeDirs(folder)]
      && DownloadAsync(folder, name, response).effects == [MakeDirs(folder)]
  {
    if |name| > 0 {
      assert name[0] in name;
    }
  }

  /** The files written by a list of downloads, in order. */
  function Written(effects: seq<Effect>): seq<string>
  {
    if effects == [] then []
    else Written(effects[..|effects| - 1]) + (if effects[|effects| - 1].WriteFile? then [effects[|effects| - 1].path] else [])
  }

  lemma {:induction false} WrittenAppend(a: seq<Effect>, b: seq<Effect>)
    ensures Written(a + b) == Written(a) + Written(b)
    decreases |b|
  {
    if b == [] {
      assert a + b == a;
    } else {
      var b' := b[..|b| - 1];
      assert (a + b)[..|a + b| - 1] == a + b';
      WrittenAppend(a, b');
    }
  }

  /** The effects of awaiting the seeder's downloads one after the other. */
  function SequentialEffects(folder: string, js: seq<Judgment>, files: string -> Fetch<Bytes>): seq<Effect>
  {
    if js == [] then []
    else
      var j := js[|js| - 1];
      SequentialEffects(folder, js[..|js| - 1], files) + DownloadSeed(folder, j.title, files(j.link)).effects
  }

  /** The files a list of judgments yields: one per successful download, in feed order. */
  function SuccessfulFiles(folder: string, js: seq<Judgment>, files: string -> Fetch<Bytes>): seq<string>
  {
    if js == [] then []
    else
      var j := js[|js| - 1];
      SuccessfulFiles(folder, js[..|js| - 1], files) + (if files(j.link).Fetched? then [PathJoin(folder, j.title)] else [])
  }

  /**
   * Downloads are isolated: the files written are exactly those of the
   * successful requests, in feed order; a failure does not stop the rest.
   */
  lemma {:induction false} SequentialWritesSuccessful(folder: string, js: seq<Judgment>, files: string -> Fetch<Bytes>)
    ensures Written(SequentialEffects(folder, js, files)) == SuccessfulFiles(folder, js, files)
  {
    if js != [] {
      var j := js[|js| - 1];
      SequentialWritesSuccessful(folder, js[..|js| - 1], files);
      var d := DownloadSeed(folder, j.title, files(j.link)).effects;
      WrittenAppend(SequentialEffects(folder, js[..|js| - 1], files), d);
      assert Written(d) == (if files(j.link).Fetched? then [PathJoin(folder, j.title)] else []) by {
        assert d[..|d| - 1] == [MakeDirs(folder)] || |d| == 1;
        assert Written([MakeDirs(folder)]) == [] by {
          assert [MakeDirs(folder)][..0] == [];
        }
      }
    }
  }

  /** The lines the sequential seeder's downloads log, awaited one after the other. */
  function SequentialLog(folder: string, js: seq<Judgment>, files: string -> Fetch<Bytes>): seq<Log>
  {
    if js == [] then []
    else
      var j := js[|js| - 1];
      SequentialLog(folder, js[..|js| - 1], files) + DownloadSeed(folder, j.title, files(j.link)).log
  }

  /**
   * One line per download, in feed order: `Downloaded` for a file that was
   * fetched, otherwise the error line of the failure that was swallowed.
   */
  lemma {:induction false} SequentialLogLines(folder: string, js: seq<Judgment>, files: string -> Fetch<Bytes>)
    ensures |SequentialLog(folder, js, files)| == |js|
    ensures forall i | 0 <= i < |js| ::
      SequentialLog(folder, js, files)[i] ==
        (if files(js[i].link).Fetched? then LogInfo("Downloaded")
         else if files(js[i].link).Timeout? then LogError("Timeout error while downloading")
         else LogError("Error downloading file from URL"))
  {
    if js != [] {
      var prefix, j := js[..|js| - 1], js[|js| - 1];
      SequentialLogLines(folder, prefix, files);
      var last := DownloadSeed(folder, j.title, files(j.link)).log;
      assert |last| == 1;
      forall i | 0 <= i < |prefix|
        ensures SequentialLog(folder, js, files)[i] == SequentialLog(folder, prefix, files)[i]
      {
      }
      assert prefix + [j] == js;
    }
  }

  /** The line both seeders log once every download of a day has been awaited. */
  const ALL_DOWNLOADED := LogInfo("All judgments for day downloaded.")

  /**
   * The sequential seeder's `download_days_judgments`: fetch the day's feed,
   * then await one download per entry, in feed order; with no entries
   * nothing is downloaded.
   */
  method DownloadDaysJudgments(day: Date, folder: string, feeds: string -> Fetch<seq<FeedEntry>>, files: string -> Fetch<Bytes>)
    returns (raised: Option<Failure>, effects: seq<Effect>, log: seq<Log>)
    ensures var response := feeds(FeedUrl(day));
      && (response.HttpError? || response.ConnectionError? ==>
            raised == Some(ClientError) && effects == [] && log == [LogError("Error requesting data from URL")])
      && (response.Timeout? ==> raised == Some(TimeoutError) && effects == [] && log == [])
      && (response.Fetched? && JudgmentsOf(response.body).Raised? ==>
            raised == Some(JudgmentsOf(response.body).failure) && effects == [] && log == [])
      && (response.Fetched? && JudgmentsOf(response.body).Returned? ==>
            raised == None && effects == SequentialEffects(folder, JudgmentsOf(response.body).value, files))
    ensures var response := feeds(FeedUrl(day));
      && (response.Fetched? && JudgmentsOf(response.body) == Returned([]) ==> log == [LogInfo("No judgments found for this day.")])
      && (MakesFolder(response) ==> log == SequentialLog(folder, JudgmentsOf(response.body).value, files) + [ALL_DOWNLOADED])
    ensures raised == FeedRaised(feeds(FeedUrl(day)))
    ensures MakeDirs(folder) in effects <==> MakesFolder(feeds(FeedUrl(day)))
  {
    var judgments;
    judgments, log := GetSeedJudgments(feeds(FeedUrl(day)));
    effects := [];
    if judgments.Raised? {
      return Some(judgments.failure), effects, log;
    }
    if judgments.value.None? {
      return None, effects, log;
    }
    var js := judgments.value.value;
    var i := 0;
    while i < |js|
      invariant 0 <= i <= |js|
      invariant effects == SequentialEffects(folder, js[..i], files)
      invariant log == SequentialLog(folder, js[..i], files)
    {
      assert js[..i + 1][..i] == js[..i];
      var d := DownloadSeed(folder, js[i].title, files(js[i].link));
      effects, log := effects + d.effects, log + d.log;
      i := i + 1;
    }
    assert js[..i] == js;
    SequentialEffectsMakeDirs(folder, js, files);
    raised, log := None, log + [ALL_DOWNLOADED];
  }

  /** Every awaited download starts with `os.makedirs`, so the folder is made exactly when there is a download. */
  lemma {:induction false} SequentialEffectsMakeDirs(folder: string, js: seq<Judgment>, files: string -> Fetch<Bytes>)
    ensures MakeDirs(folder) in SequentialEffects(folder, js, files) <==> js != []
  {
    if js != [] {
      var j := js[|js| - 1];
      SequentialEffectsMakeDirs(folder, js[..|js| - 1], files);
      var d := DownloadSeed(folder, j.title, files(j.link)).effects;
      assert d[0] == MakeDirs(folder);
      assert SequentialEffects(folder, js, files) == SequentialEffects(folder, js[..|js| - 1], files) + d;
    }
  }

  /** A download task of the gather-based seeder. */
  datatype Task = Task(folder: string, link: string, title: string)

  /** The list comprehension of tasks: exactly one per entry, in feed order. */
  function Tasks(folder: string, js: seq<Judgment>): (tasks: seq<Task>)
    ensures |tasks| == |js|
    ensures forall i | 0 <= i < |js| :: tasks[i].link == js[i].link && tasks[i].title == js[i].title && tasks[i].folder == folder
  {
    seq(|js|, i requires 0 <= i < |js| => Task(folder, js[i].link, js[i].title))
  }

  /**
   * What `asyncio.gather` over its tasks raises: nothing when every download
   * succeeds, otherwise the failure of a failing download (here the first in
   * list order).
   */
  function GatherRaised(tasks: seq<Task>, files: string -> Fetch<Bytes>): Option<Failure>
  {
    if tasks == [] then None
    else
      var t := tasks[0];
      var d := DownloadAsync(t.folder, t.title, files(t.link));
      if d.raised.Some? then d.raised else GatherRaised(tasks[1..], files)
  }

  /** Gather succeeds exactly when every download does, and a failure it raises is one of theirs. */
  lemma {:induction false} GatherRaisedSpec(tasks: seq<Task>, files: string -> Fetch<Bytes>)
    ensures GatherRaised(tasks, files).None? <==> forall i | 0 <= i < |tasks| :: files(tasks[i].link).Fetched?
    ensures GatherRaised(tasks, files).Some? ==> exists i | 0 <= i < |tasks| ::
      GatherRaised(tasks, files) == DownloadAsync(tasks[i].folder, tasks[i].title, files(tasks[i].link)).raised
  {
    if tasks != [] {
      GatherRaisedSpec(tasks[1..], files);
      var r := GatherRaised(tasks, files);
      if r.Some? && DownloadAsync(tasks[0].folder, tasks[0].title, files(tasks[0].link)).raised.None? {
        var i :| 0 <= i < |tasks[1..]| && r == DownloadAsync(tasks[1..][i].folder, tasks[1..][i].title, files(tasks[1..][i].link)).raised;
        assert tasks[1..][i] == tasks[i + 1];
      }
      assert forall i | 0 <= i < |tasks[1..]| :: tasks[1..][i] == tasks[i + 1];
    }
  }

  /** What the gather-based seeder's `download_days_judgments` raises for `day`. */
  function GatherDayRaised(day: Date, folder: string, feeds: string -> Fetch<seq<FeedEntry>>, files: string -> Fetch<Bytes>): (r: Option<Failure>)
    ensures FeedRaised(feeds(FeedUrl(day))).Some? ==> r == FeedRaised(feeds(FeedUrl(day)))
  {
    var response := feeds(FeedUrl(day));
    if FeedRaised(response).Some? then FeedRaised(response)
    else GatherRaised(Tasks(folder, JudgmentsOf(response.body).value), files)
  }

  /**
   * Past a feed that reads, the gather-based seeder raises exactly when one
   * of the day's downloads fails.
   */
  lemma GatherDayRaisedSpec(day: Date, folder: string, feeds: string -> Fetch<seq<FeedEntry>>, files: string -> Fetch<Bytes>)
    requires FeedRaised(feeds(FeedUrl(day))).None?
    ensures var js := JudgmentsOf(feeds(FeedUrl(day)).body).value;
      GatherDayRaised(day, folder, feeds, files).None? <==> forall i | 0 <= i < |js| :: files(js[i].link).Fetched?
  {
    var js := JudgmentsOf(feeds(FeedUrl(day)).body).value;
    GatherRaisedSpec(Tasks(folder, js), files);
  }

  /**
   * The gather-based seeder's `download_days_judgments`: fetch the feed, then
   * create one task per entry and gather them.
   */
  method GatherDaysJudgments(day: Date, folder: string, feeds: string -> Fetch<seq<FeedEntry>>, files: string -> Fetch<Bytes>)
    returns (tasks: seq<Task>, raised: Option<Failure>, log: seq<Log>)
    ensures var response := feeds(FeedUrl(day));
      && (response.HttpError? || response.ConnectionError? ==>
            raised == Some(ClientError) && tasks == [] && log == [LogError("Error requesting data from URL")])
      && (response.Timeout? ==> raised == Some(TimeoutError) && tasks == [] && log == [])
      && (response.Fetched? && JudgmentsOf(response.body).Raised? ==>
            raised == Some(JudgmentsOf(response.body).failure) && tasks == [] && log == [])
      && (response.Fetched? && JudgmentsOf(response.body).Returned? ==>
            tasks == Tasks(folder, JudgmentsOf(response.body).value) && raised == GatherRaised(tasks, files))
      && (response.Fetched? && JudgmentsOf(response.body) == Returned([]) ==> log == [LogInfo("No judgments found for this day.")])
    ensures tasks != [] && raised.None? ==> log == seq(|tasks|, _ => LogInfo("Downloaded")) + [ALL_DOWNLOADED]
    ensures tasks != [] && raised == Some(ClientError) ==> log == [LogError("Error downloading file from URL")]
    ensures tasks != [] && raised == Some(TimeoutError) ==> log == []
    ensures raised == GatherDayRaised(day, folder, feeds, files)
    ensures tasks != [] <==> MakesFolder(feeds(FeedUrl(day)))
  {
    var judgments;
    judgments, log := GetSeedJudgments(feeds(FeedUrl(day)));
    if judgments.Raised? {
      return [], Some(judgments.failure), log;
    }
    if judgments.value.None? {
      return [], None, log;
    }
    tasks := Tasks(folder, judgments.value.value);
    raised := GatherRaised(tasks, files);
    GatherRaisedSpec(tasks, files);
    if raised.None? {
      log := seq(|tasks|, _ => LogInfo("Downloaded")) + [ALL_DOWNLOADED];
    } else if raised == Some(ClientError) {
      log := [LogError("Error downloading file from URL")];
    } else {
      log := [];
    }
  }
}
