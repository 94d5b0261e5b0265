/**
 * Metadata extraction from judgment XML and the HTML conversion of the
 * daily pipeline.  A parsed document is the sequence of its elements in
 * document order; `soup.find(tag)` is the first element with that tag.  A
 * found element is always truthy, so a field is `None` exactly when the
 * element is missing or its text or attribute is missing or empty.
 */
module Metadata {
  import opened Wrappers
  import opened Strings

  datatype Element = Element(tag: string, text: string, attrs: map<string, string>)

  type Document = seq<Element>

  /** What opening and parsing a file gives. */
  datatype Source =
    | Parsed(doc: Document)
    | NotFound     // FileNotFoundError
    | Unreadable   // any other exception while reading, e.g. a decoding error

  /** The three keys of the metadata dictionary. */
  datatype Metadata = Metadata(courtName: Option<string>, neutralCitation: Option<string>, judgmentDate: Option<string>)

  datatype MetadataError =
    | UnboundLocalError  // `soup` used after the read failed
    | ReadError          // the read error itself, propagated

  /** A result together with the lines logged on the way. */
  datatype Logged<T> = Logged(result: Result<T, MetadataError>, log: seq<Log>)

  /** `soup.find(tag)`. */
  function Find(doc: Document, tag: string): Option<Element>
  {
    if doc == [] then None
    else if doc[0].tag == tag then Some(doc[0])
    else Find(doc[1..], tag)
  }

  /** Element `i` is the first with `tag`. */
  predicate IsFirst(doc: Document, tag: string, i: int)
  {
    0 <= i < |doc| && doc[i].tag == tag && forall j | 0 <= j < i :: doc[j].tag != tag
  }

  lemma {:induction false} FindSpec(doc: Document, tag: string)
    ensures Find(doc, tag).None? <==> forall i | 0 <= i < |doc| :: doc[i].tag != tag
    ensures Find(doc, tag).Some? ==> exists i :: IsFirst(doc, tag, i) && doc[i] == Find(doc, tag).value
  {
    if doc != [] && doc[0].tag != tag {
      FindSpec(doc[1..], tag);
      assert forall i | 1 <= i < |doc| :: doc[1..][i - 1] == doc[i];
      if Find(doc, tag).Some? {
        var i :| IsFirst(doc[1..], tag, i) && doc[1..][i] == Find(doc, tag).value;
        assert IsFirst(doc, tag, i + 1);
      }
    } else if doc != [] {
      assert IsFirst(doc, tag, 0);
    }
  }

  lemma FirstUnique(doc: Document, tag: string, i: int, j: int)
    requires IsFirst(doc, tag, i) && IsFirst(doc, tag, j)
    ensures i == j
  {
  }

  /** A truthy attribute value of a found element. */
  function AttrOf(e: Option<Element>, name: string): Option<string>
  {
    if e.Some? && name in e.value.attrs && e.value.attrs[name] != "" then Some(e.value.attrs[name]) else None
  }

  function CitationOf(doc: Document): Option<string>
  {
    var e := Find(doc, "neutralCitation");
    if e.Some? && e.value.text != "" then Some(e.value.text) else None
  }

  function DateOf(doc: Document): Option<string>
  {
    AttrOf(Find(doc, "FRBRdate"), "date")
  }

  function CourtOf(doc: Document): Option<string>
  {
    AttrOf(Find(doc, "TLCOrganization"), "showAs")
  }

  /** The normalisation of `get_metadata`: each field is a non-empty value or `None`. */
  function MetadataOf(doc: Document): Metadata
  {
    Metadata(CourtOf(doc), CitationOf(doc), DateOf(doc))
  }

  /**
   * The citation in terms of the document alone: it is `v` exactly when the
   * first `neutralCitation` element has the non-empty text `v`, and `None`
   * exactly when there is no such element or its text is empty.
   */
  lemma CitationSpec(doc: Document, v: string)
    ensures CitationOf(doc) == Some(v) <==> v != "" && exists i :: IsFirst(doc, "neutralCitation", i) && doc[i].text == v
    ensures CitationOf(doc) == None <==>
      (forall i | 0 <= i < |doc| :: doc[i].tag != "neutralCitation")
      || exists i :: IsFirst(doc, "neutralCitation", i) && doc[i].text == ""
  {
    FindSpec(doc, "neutralCitation");
    forall i, j | IsFirst(doc, "neutralCitation", i) && IsFirst(doc, "neutralCitation", j) ensures i == j {
      FirstUnique(doc, "neutralCitation", i, j);
    }
  }

  /** An attribute field in terms of the document: the first element's non-empty attribute, or `None`. */
  lemma AttrSpec(doc: Document, tag: string, name: string, v: string)
    ensures AttrOf(Find(doc, tag), name) == Some(v) <==>
      v != "" && exists i :: IsFirst(doc, tag, i) && name in doc[i].attrs && doc[i].attrs[name] == v
    ensures AttrOf(Find(doc, tag), name) == None <==>
      (forall i | 0 <= i < |doc| :: doc[i].tag != tag)
      || exists i :: IsFirst(doc, tag, i) && (name !in doc[i].attrs || doc[i].attrs[name] == "")
  {
    FindSpec(doc, tag);
    forall i, j | IsFirst(doc, tag, i) && IsFirst(doc, tag, j) ensures i == j {
      FirstUnique(doc, tag, i, j);
    }
  }

  /** The date is the first `FRBRdate`'s `date`, the court the first `TLCOrganization`'s `showAs`. */
  lemma DateAndCourtSpec(doc: Document, date: string, court: string)
    ensures DateOf(doc) == Some(date) <==>
      date != "" && exists i :: IsFirst(doc, "FRBRdate", i) && "date" in doc[i].attrs && doc[i].attrs["date"] == date
    ensures CourtOf(doc) == Some(court) <==>
      court != "" && exists i :: IsFirst(doc, "TLCOrganization", i) && "showAs" in doc[i].attrs && doc[i].attrs["showAs"] == court
  {
    AttrSpec(doc, "FRBRdate", "date", date);
    AttrSpec(doc, "TLCOrganization", "showAs", court);
  }

  /** A document without the three elements yields three `None`s. */
  lemma NoRelevantElements(doc: Document)
    requires forall i | 0 <= i < |doc| :: doc[i].tag !in {"neutralCitation", "FRBRdate", "TLCOrganization"}
    ensures MetadataOf(doc) == Metadata(None, None, None)
  {
    FindSpec(doc, "neutralCitation");
    FindSpec(doc, "FRBRdate");
    FindSpec(doc, "TLCOrganization");
  }

  /** A judgment with all three values present. */
  lemma AllPresentExample()
    ensures MetadataOf([
      Element("judgment", "", map[]),
      Element("FRBRdate", "", map["date" := "2025-02-15"]),
      Element("TLCOrganization", "", map["showAs" := "High Court"]),
      Element("neutralCitation", "2025 EWCA Civ 123", map[])])
      == Metadata(Some("High Court"), Some("2025 EWCA Civ 123"), Some("2025-02-15"))
  {
  }

  /** Empty text and empty attribute values count as missing. */
  lemma EmptyValuesExample()
    ensures MetadataOf([
      Element("neutralCitation", "", map[]),
      Element("FRBRdate", "", map["date" := ""]),
      Element("TLCOrganization", "", map["showAs" := ""])])
      == Metadata(None, None, None)
  {
  }

  /** A JSON-like value, as held in the record dictionaries. */
  datatype Json = Null | Str(s: string) | Items(items: seq<Json>) | Object(fields: map<string, Json>)

  function OptionalText(v: Option<string>): Json
  {
    if v.Some? then Str(v.value) else Null
  }

  /** The dictionary `get_metadata` returns. */
  function MetadataDict(m: Metadata): map<string, Json>
  {
    map["court_name" := OptionalText(m.courtName),
        "neutral_citation" := OptionalText(m.neutralCitation),
        "judgment_date" := OptionalText(m.judgmentDate)]
  }

  /** The dictionary has exactly the three keys, each holding its field or `None`. */
  lemma MetadataDictKeys(m: Metadata)
    ensures MetadataDict(m).Keys == {"court_name", "neutral_citation", "judgment_date"}
    ensures MetadataDict(m)["court_name"] == OptionalText(m.courtName)
    ensures MetadataDict(m)["neutral_citation"] == OptionalText(m.neutralCitation)
    ensures MetadataDict(m)["judgment_date"] == OptionalText(m.judgmentDate)
  {
  }

  /**
   * The daily pipeline's `get_metadata`: a missing file is logged and the
   * following lookup fails on the unbound `soup`; any other read error
   * escapes as it is.
   */
  function GetMetadataDaily(file: Source): Logged<Metadata>
  {
    match file
    case Parsed(doc) => Logged(Ok(MetadataOf(doc)), [])
    case NotFound => Logged(Err(UnboundLocalError), [LogError("File was not found")])
    case Unreadable => Logged(Err(ReadError), [])
  }

  /**
   * The seeder's and the prompt-engineering `get_metadata`: both read
   * failures are logged, and both then fail on the unbound `soup`.
   */
  function GetMetadata(file: Source): Logged<Metadata>
  {
    match file
    case Parsed(doc) => Logged(Ok(MetadataOf(doc)), [])
    case NotFound => Logged(Err(UnboundLocalError), [LogError("File was not found")])
    case Unreadable => Logged(Err(UnboundLocalError), [LogError("Invalid xml content")])
  }

  /**
   * The variants agree on every readable file and on a missing one; they
   * differ only on other read errors, which the daily variant does not
   * catch.  No variant returns metadata for a file it could not read.
   */
  lemma MetadataVariants(file: Source)
    ensures file.Parsed? ==> GetMetadata(file) == GetMetadataDaily(file) && GetMetadata(file).result == Ok(MetadataOf(file.doc))
    ensures file.NotFound? ==> GetMetadata(file) == GetMetadataDaily(file) && GetMetadata(file).result == Err(UnboundLocalError)
    ensures file.Unreadable? ==> GetMetadata(file).result == Err(UnboundLocalError) && GetMetadataDaily(file).result == Err(ReadError)
    ensures GetMetadata(file).result.Ok? <==> file.Parsed?
    ensures GetMetadataDaily(file).result.Ok? <==> file.Parsed?
  {
  }

  /** `get_all_metadata`: `get_metadata` on each file in order; the first failure ends the list. */
  function GetAllMetadata(names: seq<string>, files: string -> Source): Logged<seq<Metadata>>
  {
    if names == [] then Logged(Ok([]), [])
    else
      var prev := GetAllMetadata(names[..|names| - 1], files);
      if prev.result.Err? then prev
      else
        var last := GetMetadata(files(names[|names| - 1]));
        match last.result
        case Err(e) => Logged(Err(e), prev.log + last.log)
        case Ok(m) => Logged(Ok(prev.result.value + [m]), prev.log + last.log)
  }

  /** When every file can be read, there is one result per file, in input order. */
  lemma {:induction false} AllMetadataInOrder(names: seq<string>, files: string -> Source)
    requires forall i | 0 <= i < |names| :: files(names[i]).Parsed?
    ensures GetAllMetadata(names, files).result.Ok?
    ensures |GetAllMetadata(names, files).result.value| == |names|
    ensures forall i | 0 <= i < |names| :: GetAllMetadata(names, files).result.value[i] == MetadataOf(files(names[i]).doc)
    ensures GetAllMetadata(names, files).log == []
  {
    if names != [] {
      var prefix := names[..|names| - 1];
      assert forall i | 0 <= i < |prefix| :: prefix[i] == names[i];
      AllMetadataInOrder(prefix, files);
    }
  }

  /** A file that cannot be read ends the whole call with `UnboundLocalError`. */
  lemma {:induction false} AllMetadataFails(names: seq<string>, files: string -> Source, k: nat)
    requires k < |names| && !files(names[k]).Parsed?
    ensures GetAllMetadata(names, files).result == Err(UnboundLocalError)
  {
    var prefix := names[..|names| - 1];
    if k < |names| - 1 {
      assert prefix[k] == names[k];
      AllMetadataFails(prefix, files, k);
    } else {
      AllMetadataErrors(prefix, files);
    }
  }

  /** The only failure `get_all_metadata` reports is the unbound `soup`. */
  lemma {:induction false} AllMetadataErrors(names: seq<string>, files: string -> Source)
    ensures GetAllMetadata(names, files).result.Err? ==> GetAllMetadata(names, files).result.error == UnboundLocalError
  {
    if names != [] {
      AllMetadataErrors(names[..|names| - 1], files);
    }
  }

  /** What `convert_judgment` does to the file system. */
  datatype Conversion = Conversion(folder: string, written: Option<(string, Element)>, log: seq<Log>, raised: Option<MetadataError>)

  /** The name of the HTML file: every `xml` in the XML file's name replaced by `html`. */
  function HtmlName(xmlName: string): string
  {
    ReplaceAll(xmlName, "xml", "html")
  }

  /**
   * `convert_judgment`: create the folder, read the file, then write the
   * `judgmentBody` element under the HTML name, or log that there is none.
   */
  function ConvertJudgment(htmlFolder: string, file: Source, xmlName: string): Conversion
  {
    match file
    case NotFound => Conversion(htmlFolder, None, [LogError("File was not found")], Some(UnboundLocalError))
    case Unreadable => Conversion(htmlFolder, None, [], Some(ReadError))
    case Parsed(doc) =>
      var body := Find(doc, "judgmentBody");
      if body.Some? then Conversion(htmlFolder, Some((PathJoin(htmlFolder, HtmlName(xmlName)), body.value)), [], None)
      else Conversion(htmlFolder, None, [LogError("No judgmentBody found in the XML.")], None)
  }

  /**
   * A file is written exactly when the document has a `judgmentBody`; it is
   * the first such element, written under a name with no `xml` left in it.
   */
  lemma ConvertWritesOnlyBodies(htmlFolder: string, file: Source, xmlName: string)
    ensures ConvertJudgment(htmlFolder, file, xmlName).written.Some? <==>
      file.Parsed? && exists i | 0 <= i < |file.doc| :: file.doc[i].tag == "judgmentBody"
    ensures ConvertJudgment(htmlFolder, file, xmlName).written.Some? ==>
      && ConvertJudgment(htmlFolder, file, xmlName).written.value.0 == PathJoin(htmlFolder, HtmlName(xmlName))
      && !Occurs("xml", HtmlName(xmlName))
      && exists i :: IsFirst(file.doc, "judgmentBody", i) && file.doc[i] == ConvertJudgment(htmlFolder, file, xmlName).written.value.1
    ensures file.Parsed? && ConvertJudgment(htmlFolder, file, xmlName).written.None? ==>
      ConvertJudgment(htmlFolder, file, xmlName).log == [LogError("No judgmentBody found in the XML.")]
  {
    ReplaceXmlLeavesNone(xmlName);
    if file.Parsed? {
      FindSpec(file.doc, "judgmentBody");
    }
  }
}
