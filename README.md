# Search-result scraper: extraction and export core

A model of `ScraperController` of the Scraper web application. The controller
takes a keyword, fetches the search engine's result page for it, turns every
result container on the page into a `SearchResult` record (title, link,
snippet, icon; each may be null), and saves the records as `Results.json`,
`Results.xml` and `Results.csv` in the working directory. Three download
actions hand those files back, or answer 404 when a file was never written.

Modules, one per part of the controller:

- `Wrappers`: `Option`, standing for C#'s nullable references.
- `Text`: .NET's `char.IsWhiteSpace`, `string.IsNullOrWhiteSpace` and `Trim()`,
  with `Trim` specified by `IsTrimOf` (only white space is cut, none is left at
  either end) and proved to be the only function meeting it.
- `Models`: the `SearchResult` record.
- `Extraction`: the page as the outcome of the container query (`None` when
  `SelectNodes` found nothing), each container as the outcome of its four
  probes, and the `foreach` loop of `GetGoogleResultsAsync` as a method proved
  against the function `Extract`.
- `Csv`: the header, the interpolated line per record, the list of lines and
  the text `File.WriteAllLines` makes of it, with a splitter that cuts a line
  at its double quotes; `Csv.RowReadsBack` proves that it recovers the four
  fields whenever no field holds a double quote.
- `FileSystem`: the working directory as a class holding a map from file name
  to text.
- `Scraper`: the controller class: the POST `Index` action, the three saves and
  the three downloads.

## Model

| member | source | states |
|---|---|---|
| `Text.IsWhiteSpace` | Controllers/ScraperController.cs:75-78 | definition, no contract: the characters .NET's `char.IsWhiteSpace` accepts, which `Trim()` and the keyword test at :29 rely on; used by `Trim`, `IsBlank` and `IsNullOrWhiteSpace`; the set is .NET's documented list (see "## Left out") |
| `Text.IsNullOrWhiteSpace` | Controllers/ScraperController.cs:29 | the keyword is rejected exactly when it is null or every character is white space (the empty string included) |
| `Text.IsBlank` | Controllers/ScraperController.cs:29 | true exactly when every character is white space |
| `Text.TrimStart` | Controllers/ScraperController.cs:75-78 | the result is a suffix of the input, everything cut off is white space, and it does not start with white space |
| `Text.TrimEnd` | Controllers/ScraperController.cs:75-78 | the result is a prefix of the input, everything cut off is white space, and it does not end with white space |
| `Text.Trim` | Controllers/ScraperController.cs:75-78 | the result is a slice of the input with only white space cut off on either side and no white space left at its ends |
| `Text.TrimUnique` | Controllers/ScraperController.cs:75-78 | any string meeting that description is the result of `Trim`, so the description determines trimming |
| `Text.TrimmedHasNoEdgeWhiteSpace` | Controllers/ScraperController.cs:75-78 | a trimmed value neither starts nor ends with white space |
| `Text.TrimIdempotent` | Controllers/ScraperController.cs:75-78 | trimming a trimmed value changes nothing |
| `Extraction.Element.GetAttributeValue` | Controllers/ScraperController.cs:76-78 | the attribute's value when the node has it, otherwise the default given (`string.Empty` at both calls) |
| `Extraction.InnerTextOf` | Controllers/ScraperController.cs:75 | null exactly when the probe found no node; otherwise the trimmed inner text |
| `Extraction.AttributeOf` | Controllers/ScraperController.cs:76 | null exactly when the probe found no node; otherwise the trimmed attribute, and the empty string when the node lacks the attribute |
| `Extraction.ToSearchResult` | Controllers/ScraperController.cs:69-79 | each of the four fields is null exactly when its probe missed; title and snippet are the trimmed text, link and icon the trimmed `href` and `src`, or `""` when the present node lacks them |
| `Extraction.ExtractAll` | Controllers/ScraperController.cs:68-80 | one record per container, the i-th record built from the i-th container |
| `Extraction.Extract` | Controllers/ScraperController.cs:66-83 | no match gives the empty list; otherwise exactly as many records as containers |
| `Extraction.GetGoogleResults` | Controllers/ScraperController.cs:63-83 | the loop's list equals `Extract` of the page: one record per container, in document order, empty when nothing matched |
| `Extraction.BareContainerKept` | Controllers/ScraperController.cs:68-80 | a container whose four probes all missed still yields a record, with every field null |
| `Extraction.ExtractedFieldsTrimmed` | Controllers/ScraperController.cs:75-78 | no non-null field of an extracted record starts or ends with white space |
| `Extraction.RecordTrimmed` | Controllers/ScraperController.cs:74-79 | no non-null field of the record built for a container starts or ends with white space |
| `Csv.Field` | Controllers/ScraperController.cs:146 | a null field is rendered as the empty string, any other field as its value |
| `Csv.Row` | Controllers/ScraperController.cs:146 | the interpolated line: its four fields as rendered, each between double quotes, joined by commas, so its length is theirs plus 11 and it starts and ends with a quote; read back by `RowReadsBack`, shown not injective by `RowsCollide` |
| `Csv.Rows` | Controllers/ScraperController.cs:145-147 | one line per record, the i-th line being the i-th record's line |
| `Csv.BuildLines` | Controllers/ScraperController.cs:144-147 | `|results| + 1` lines; line 0 is `Title,Link,Snippet,Icon`; line i+1 is the i-th record's four fields quoted and comma-joined, null as empty |
| `Csv.RowReadsBack` | Controllers/ScraperController.cs:146 | when no field holds a double quote, cutting a line at its quotes gives back its four fields as written (null read back as empty) |
| `Csv.RowsCollide` | Controllers/ScraperController.cs:146 | fields are not escaped: two different records can be written as the same line |
| `Csv.NullWrittenAsEmpty` | Controllers/ScraperController.cs:146 | a null field and an empty field are written alike |
| `Csv.FileText` | Controllers/ScraperController.cs:149 | the text `File.WriteAllLinesAsync` writes: empty for no lines, otherwise it starts with the first line and its terminator; line breaks counted by `TerminatorsInFile` |
| `Csv.CsvText` | Controllers/ScraperController.cs:141-149 | the content of `Results.csv`; it starts with the header line and its terminator; line breaks counted by `CsvNewLines` |
| `Csv.TerminatorsInFile` | Controllers/ScraperController.cs:149 | the file text holds the one-character terminator once per line plus wherever the lines hold it |
| `Csv.CsvNewLines` | Controllers/ScraperController.cs:144-149 | with `\n` line ends, `Results.csv` holds `|results| + 1` line breaks plus every line break kept inside a field |
| `Csv.CsvLineCount` | Controllers/ScraperController.cs:144-149 | with no line break inside any field, `Results.csv` holds exactly `|results| + 1` lines |
| `Csv.HeaderHasNoNewLine` | Controllers/ScraperController.cs:144 | the header is a single line |
| `FileSystem.FileStore.WriteAll` | Controllers/ScraperController.cs:102 | writing a file replaces its whole content and changes no other file |
| `FileSystem.FileStore.Exists` | Controllers/ScraperController.cs:109 | true exactly when the directory holds the file (saved earlier, or present at start) |
| `FileSystem.FileStore.ReadAll` | Controllers/ScraperController.cs:112 | the content is exactly what the file holds |
| `Scraper.ScraperController.Index` | Controllers/ScraperController.cs:27-47 | a null or blank keyword gives the required-keyword error and no file changes; a failed fetch escapes and no file changes; no records gives the no-results error and no file changes; otherwise the view shows the extracted records and all three files hold their encodings of them |
| `Scraper.ScraperController.Snapshot` | Controllers/ScraperController.cs:42-44 | the directory after the three saves: it holds the files it held before plus the three exports; contents stated by `SnapshotContents` and `SnapshotReplaces`, and `Index`'s contract is given in terms of it |
| `Scraper.ScraperController.SaveResultsAsJson` | Controllers/ScraperController.cs:99-103 | `Results.json` now holds the JSON serialization of the records; no other file changes |
| `Scraper.ScraperController.SaveResultsAsXml` | Controllers/ScraperController.cs:119-126 | `Results.xml` now holds the XML serialization of the records; no other file changes |
| `Scraper.ScraperController.SaveResultsAsCsv` | Controllers/ScraperController.cs:141-150 | `Results.csv` now holds the header and record lines, each followed by the line terminator; no other file changes |
| `Scraper.ScraperController.DownloadFile` | Controllers/ScraperController.cs:107-114 | the stored content verbatim with its content type and file name, or not-found when the file does not exist |
| `Scraper.ScraperController.DownloadJson` | Controllers/ScraperController.cs:107-114 | `Results.json` verbatim as `application/json`, or not-found with "Soubor neexistuje." |
| `Scraper.ScraperController.DownloadXml` | Controllers/ScraperController.cs:129-136 | `Results.xml` verbatim as `application/xml`, or not-found with "Soubor XML neexistuje." |
| `Scraper.ScraperController.DownloadCsv` | Controllers/ScraperController.cs:153-160 | `Results.csv` verbatim as `text/csv`, or not-found with "Soubor CSV neexistuje." |
| `Scraper.ScraperController.SnapshotContents` | Controllers/ScraperController.cs:42-44 | after the three saves each format holds exactly its encoding of the records, and every other file is as it was |
| `Scraper.ScraperController.SnapshotReplaces` | Controllers/ScraperController.cs:42-44 | a later export replaces an earlier one entirely: only the last records remain |

Behaviour of the source worth knowing, as the model states it:

- CSV fields are written without escaping (Controllers/ScraperController.cs:146):
  `Csv.RowsCollide` shows two different records written as the same line, and
  `Csv.RowReadsBack` states when a line still reads back.
- `Index` does not catch a failed fetch (Controllers/ScraperController.cs:34, :58):
  the exception leaves the action. The model returns `Unhandled` and changes no file.
- The three saves run one after another (Controllers/ScraperController.cs:42-44),
  so one that throws stops the ones after it. Write failures are not modelled,
  see below.
- A present node whose text is only white space gives `""`, not null
  (Controllers/ScraperController.cs:75-78).

## Left out

- The HTTP request (URL with `Uri.EscapeDataString`, the User-Agent header, `GetStringAsync`): network I/O. `Index` receives the parsed page, or `None` when the request failed.
- HtmlAgilityPack parsing and XPath evaluation (`LoadHtml`, `SelectNodes`, `SelectSingleNode`, `InnerText`, attribute lookup rules such as case folding and entity decoding): a library; the page and its probes are abstract data.
- The output of `JsonSerializer` with its indented, Latin-ranges encoder options and of `XmlSerializer`: library code; both are function-valued fields of the controller, so their content is not stated and no JSON or XML round trip is claimed.
- The file system beyond a name-to-text map: the directory path, text encodings and byte-order marks, and I/O errors during writes.
- `Environment.NewLine`: a field of the controller; the line-count lemmas take `\n`.
- async/await and overlapping requests: the store is sequential, so torn snapshots are not modelled.
- Views and `ViewBag`: `Index` returns the message or records it would render; the GET `Index` and `About` actions only render views.
- `Text.IsWhiteSpace`: the set of .NET white-space characters is written out by hand from the Unicode categories Zs, Zl and Zp and the controls U+0009 to U+000D and U+0085.
