/**
 * `ScraperController`: the POST action `Index`, which validates the keyword,
 * extracts the results and saves them in three formats, and the three
 * download actions, which hand back what was last saved.
 */
module Scraper {
  import opened Wrappers
  import opened Text
  import opened Models
  import opened Extraction
  import Csv
  import opened FileSystem

  const JsonFile: string := "Results.json"
  const XmlFile: string := "Results.xml"
  const CsvFile: string := "Results.csv"

  const KeywordRequired: string := "Klíčové slovo je povinné!"
  const NoResults: string := "Nebyly nalezeny žádné výsledky pro zadané klíčové slovo."

  /** What `Index` renders: an error message, the results, or nothing because the fetch threw. */
  datatype IndexView = ErrorView(error: string) | ResultsView(results: seq<SearchResult>) | Unhandled

  /** What a download action answers: the file, or 404 with a message. */
  datatype Download =
    | FileResult(content: string, contentType: string, fileName: string)
    | NotFound(message: string)

  class ScraperController {
    /** The working directory. */
    const fs: FileStore
    /** `JsonSerializer.Serialize(results, JsonOptions)`, whose output is not modelled. */
    const serializeJson: seq<SearchResult> -> string
    /** `XmlSerializer.Serialize` for `List<SearchResult>`, whose output is not modelled. */
    const serializeXml: seq<SearchResult> -> string
    /** The line terminator `File.WriteAllLinesAsync` appends (`Environment.NewLine`). */
    const newLine: string

    constructor (fs: FileStore, serializeJson: seq<SearchResult> -> string,
                 serializeXml: seq<SearchResult> -> string, newLine: string)
      ensures this.fs == fs && this.serializeJson == serializeJson
      ensures this.serializeXml == serializeXml && this.newLine == newLine
    {
      this.fs := fs;
      this.serializeJson := serializeJson;
      this.serializeXml := serializeXml;
      this.newLine := newLine;
    }

    /** The directory after the three exports of `results`, in the order `Index` writes them. */
    function Snapshot(files: map<string, string>, results: seq<SearchResult>): (after: map<string, string>)
      ensures after.Keys == files.Keys + {JsonFile, XmlFile, CsvFile}
    {
      files[JsonFile := serializeJson(results)][XmlFile := serializeXml(results)][CsvFile := Csv.CsvText(results, newLine)]
    }

    /**
     * The POST action. `keyword` is the bound form field (null when missing);
     * `fetched` is the parsed page the search for it returned, or `None` when
     * the request failed.
     */
    method Index(keyword: Option<string>, fetched: Option<ResultPage>) returns (view: IndexView)
      modifies fs
      ensures IsNullOrWhiteSpace(keyword) ==> view == ErrorView(KeywordRequired) && fs.files == old(fs.files)
      ensures !IsNullOrWhiteSpace(keyword) && fetched.None? ==> view == Unhandled && fs.files == old(fs.files)
      ensures !IsNullOrWhiteSpace(keyword) && fetched.Some? && Extract(fetched.value) == []
        ==> view == ErrorView(NoResults) && fs.files == old(fs.files)
      ensures !IsNullOrWhiteSpace(keyword) && fetched.Some? && Extract(fetched.value) != []
        ==> view == ResultsView(Extract(fetched.value)) && fs.files == Snapshot(old(fs.files), Extract(fetched.value))
    {
      if IsNullOrWhiteSpace(keyword) {
        return ErrorView(KeywordRequired);
      }
      if fetched.None? {
        return Unhandled;
      }
      var results := GetGoogleResults(fetched.value);
      if |results| == 0 {
        return ErrorView(NoResults);
      }
      SaveResultsAsJson(results);
      SaveResultsAsXml(results);
      SaveResultsAsCsv(results);
      return ResultsView(results);
    }

    method SaveResultsAsJson(results: seq<SearchResult>)
      modifies fs
      ensures fs.files == old(fs.files)[JsonFile := serializeJson(results)]
    {
      fs.WriteAll(JsonFile, serializeJson(results));
    }

    method SaveResultsAsXml(results: seq<SearchResult>)
      modifies fs
      ensures fs.files == old(fs.files)[XmlFile := serializeXml(results)]
    {
      fs.WriteAll(XmlFile, serializeXml(results));
    }

    method SaveResultsAsCsv(results: seq<SearchResult>)
      modifies fs
      ensures fs.files == old(fs.files)[CsvFile := Csv.CsvText(results, newLine)]
    {
      var lines := Csv.BuildLines(results);
      assert lines == [Csv.Header] + Csv.Rows(results);
      fs.WriteAll(CsvFile, Csv.FileText(lines, newLine));
    }

    /** The GET action shared by the three downloads: the file as saved, or 404. */
    method DownloadFile(name: string, contentType: string, missing: string) returns (d: Download)
      ensures name in fs.files ==> d == FileResult(fs.files[name], contentType, name)
      ensures name !in fs.files ==> d == NotFound(missing)
    {
      var present := fs.Exists(name);
      if !present {
        return NotFound(missing);
      }
      var bytes := fs.ReadAll(name);
      return FileResult(bytes, contentType, name);
    }

    method DownloadJson() returns (d: Download)
      ensures JsonFile in fs.files ==> d == FileResult(fs.files[JsonFile], "application/json", JsonFile)
      ensures JsonFile !in fs.files ==> d == NotFound("Soubor neexistuje.")
    {
      d := DownloadFile(JsonFile, "application/json", "Soubor neexistuje.");
    }

    method DownloadXml() returns (d: Download)
      ensures XmlFile in fs.files ==> d == FileResult(fs.files[XmlFile], "application/xml", XmlFile)
      ensures XmlFile !in fs.files ==> d == NotFound("Soubor XML neexistuje.")
    {
      d := DownloadFile(XmlFile, "application/xml", "Soubor XML neexistuje.");
    }

    method DownloadCsv() returns (d: Download)
      ensures CsvFile in fs.files ==> d == FileResult(fs.files[CsvFile], "text/csv", CsvFile)
      ensures CsvFile !in fs.files ==> d == NotFound("Soubor CSV neexistuje.")
    {
      d := DownloadFile(CsvFile, "text/csv", "Soubor CSV neexistuje.");
    }

    /** After the exports every format holds exactly its encoding of `results`; other files are as they were. */
    lemma SnapshotContents(files: map<string, string>, results: seq<SearchResult>, name: string)
      ensures Snapshot(files, results)[JsonFile] == serializeJson(results)
      ensures Snapshot(files, results)[XmlFile] == serializeXml(results)
      ensures Snapshot(files, results)[CsvFile] == Csv.CsvText(results, newLine)
      ensures name !in {JsonFile, XmlFile, CsvFile} ==>
        (name in Snapshot(files, results) <==> name in files) &&
        (name in files ==> Snapshot(files, results)[name] == files[name])
    {
    }

    /** A new export replaces the previous one entirely: only the last results remain. */
    lemma SnapshotReplaces(files: map<string, string>, earlier: seq<SearchResult>, later: seq<SearchResult>)
      ensures Snapshot(Snapshot(files, earlier), later) == Snapshot(files, later)
    {
    }
  }
}
