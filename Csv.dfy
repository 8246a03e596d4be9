/**
 * The CSV export of `SaveResultsAsCsvAsync`: a header line, then one line per
 * record with its four fields put between double quotes and joined by commas.
 * Field content is not escaped, so the encoding can only be read back when no
 * field holds a double quote.
 */
module Csv {
  import opened Wrappers
  import opened Models

  const Header: string := "Title,Link,Snippet,Icon"

  /** A field as string interpolation renders it: null becomes the empty string. */
  function Field(value: Option<string>): (s: string)
    ensures value.None? ==> s == ""
    ensures value.Some? ==> s == value.value
  {
    value.GetOr("")
  }

  /** The interpolated line `"{Title}","{Link}","{Snippet}","{Icon}"` of one record. */
  function Row(r: SearchResult): (line: string)
    ensures |line| == |Field(r.title)| + |Field(r.link)| + |Field(r.snippet)| + |Field(r.icon)| + 11
    ensures line[0] == '"' && line[|line| - 1] == '"'
  {
    "\"" + Field(r.title) + "\",\"" + Field(r.link) + "\",\"" + Field(r.snippet) + "\",\"" + Field(r.icon) + "\""
  }

  /** The `Select` projection of the records onto their lines. */
  function Rows(results: seq<SearchResult>): (rows: seq<string>)
    ensures |rows| == |results|
    ensures forall i :: 0 <= i < |results| ==> rows[i] == Row(results[i])
  {
    if results == [] then [] else [Row(results[0])] + Rows(results[1..])
  }

  /** The list of lines: the header, then `AddRange` of the projected records. */
  method BuildLines(results: seq<SearchResult>) returns (lines: seq<string>)
    ensures |lines| == |results| + 1
    ensures lines[0] == Header
    ensures forall i :: 0 <= i < |results| ==> lines[i + 1] == Row(results[i])
  {
    lines := [Header];
    lines := lines + Rows(results);
  }

  /** The text `File.WriteAllLines` writes: every line followed by the line terminator. */
  function FileText(lines: seq<string>, newLine: string): (text: string)
    ensures lines == [] ==> text == []
    ensures lines != [] ==> |lines[0] + newLine| <= |text| && text[..|lines[0] + newLine|] == lines[0] + newLine
  {
    if lines == [] then [] else lines[0] + newLine + FileText(lines[1..], newLine)
  }

  /** The content of `Results.csv` for a list of records. */
  function CsvText(results: seq<SearchResult>, newLine: string): (text: string)
    ensures |Header + newLine| <= |text| && text[..|Header + newLine|] == Header + newLine
  {
    FileText([Header] + Rows(results), newLine)
  }

  /** How often `c` occurs inside the lines themselves. */
  function Occurrences(lines: seq<string>, c: char): nat {
    if lines == [] then 0 else multiset(lines[0])[c] + Occurrences(lines[1..], c)
  }

  /** The one-character terminator `c` occurs once per line, plus wherever the lines hold it. */
  lemma {:induction false} TerminatorsInFile(lines: seq<string>, c: char)
    ensures multiset(FileText(lines, [c]))[c] == |lines| + Occurrences(lines, c)
  {
    if lines != [] {
      TerminatorsInFile(lines[1..], c);
      assert FileText(lines, [c]) == lines[0] + [c] + FileText(lines[1..], [c]);
    }
  }

  /** The line breaks inside the fields of the records, as rendered. */
  function InnerNewLines(results: seq<SearchResult>): nat {
    if results == [] then 0
    else
      var r := results[0];
      multiset(Field(r.title))['\n'] + multiset(Field(r.link))['\n']
        + multiset(Field(r.snippet))['\n'] + multiset(Field(r.icon))['\n']
        + InnerNewLines(results[1..])
  }

  /**
   * With `\n` as terminator, `Results.csv` holds one line break per record
   * and one for the header, plus every line break kept inside a field: a
   * snippet spread over several lines spreads its record over several lines.
   */
  lemma {:induction false} CsvNewLines(results: seq<SearchResult>)
    ensures multiset(CsvText(results, "\n"))['\n'] == |results| + 1 + InnerNewLines(results)
  {
    var lines := [Header] + Rows(results);
    TerminatorsInFile(lines, '\n');
    assert lines[1..] == Rows(results);
    HeaderHasNoNewLine();
    assert Occurrences(lines, '\n') == Occurrences(Rows(results), '\n');
    RowsNewLines(results);
  }

  /**
   * The header is one line. The fact is split in two: stated on the literal
   * alone it is cheap, while asking for the multiset count of the literal
   * directly exceeds the solver's resource limit.
   */
  lemma HeaderHasNoNewLine()
    ensures multiset(Header)['\n'] == 0
  {
    HeaderIsOneLine();
  }

  /** The header literal holds no line break. */
  lemma HeaderIsOneLine()
    ensures '\n' !in Header
  {
  }

  /** The line breaks inside the record lines are exactly those inside the fields. */
  lemma {:induction false} RowsNewLines(results: seq<SearchResult>)
    ensures Occurrences(Rows(results), '\n') == InnerNewLines(results)
  {
    if results != [] {
      assert Rows(results)[1..] == Rows(results[1..]);
      RowsNewLines(results[1..]);
    }
  }

  /** With no line break inside any field, `Results.csv` has exactly one line more than there are records. */
  lemma CsvLineCount(results: seq<SearchResult>)
    requires InnerNewLines(results) == 0
    ensures multiset(CsvText(results, "\n"))['\n'] == |results| + 1
  {
    CsvNewLines(results);
  }

  /** `s` cut at every occurrence of `c`; there is always at least one piece. */
  function SplitOn(s: string, c: char): (pieces: seq<string>)
    ensures |pieces| >= 1
  {
    if s == [] then [[]]
    else
      var rest := SplitOn(s[1..], c);
      if s[0] == c then [[]] + rest else [[s[0]] + rest[0]] + rest[1..]
  }

  /**
   * Reading a line back: cutting it at its double quotes must give the empty
   * piece, the four fields separated by commas, and the empty piece again.
   */
  function SplitRow(line: string): (fields: Option<seq<string>>)
    ensures fields.Some? ==> |fields.value| == 4
  {
    var p := SplitOn(line, '"');
    if |p| == 9 && p[0] == [] && p[2] == "," && p[4] == "," && p[6] == "," && p[8] == []
    then Some([p[1], p[3], p[5], p[7]])
    else None
  }

  /** Cutting `a`, `c` and `b` at `c`, with no `c` in `a`, gives `a` and then the pieces of `b`. */
  lemma {:induction false} SplitOnFirst(a: string, c: char, b: string)
    requires c !in a
    ensures SplitOn(a + [c] + b, c) == [a] + SplitOn(b, c)
  {
    if a == [] {
      assert a + [c] + b == [c] + b;
      assert ([c] + b)[1..] == b;
    } else {
      var s := a + [c] + b;
      assert s[0] == a[0] != c;
      assert s[1..] == a[1..] + [c] + b;
      SplitOnFirst(a[1..], c, b);
      assert [a[0]] + a[1..] == a;
    }
  }

  ghost predicate Unquoted(r: SearchResult) {
    '"' !in Field(r.title) && '"' !in Field(r.link) && '"' !in Field(r.snippet) && '"' !in Field(r.icon)
  }

  /**
   * When no field holds a double quote, the line of a record reads back as
   * its four fields as rendered (null read back as the empty string).
   */
  lemma RowReadsBack(r: SearchResult)
    requires Unquoted(r)
    ensures SplitRow(Row(r)) == Some([Field(r.title), Field(r.link), Field(r.snippet), Field(r.icon)])
  {
    var t, l, s, i := Field(r.title), Field(r.link), Field(r.snippet), Field(r.icon);
    RowPieces(t, l, s, i);
    RowRebracketed(t, l, s, i);
  }

  /** Concatenation of strings is associative. */
  lemma Assoc(a: string, b: string, c: string)
    ensures a + b + c == a + (b + c)
  {
  }

  /** The interpolated line of `Row` and its rebracketing `QuotedJoin` are the same string. */
  lemma RowRebracketed(t: string, l: string, s: string, i: string)
    ensures "\"" + t + "\",\"" + l + "\",\"" + s + "\",\"" + i + "\"" == QuotedJoin(t, l, s, i)
  {
    var q, c := ['"'], [','];
    var sep := q + c + q;
    assert "\"" == q && "," == c && "\",\"" == sep;
    var e4 := i + q;
    var e3 := s + (q + (c + (q + e4)));
    var e2 := l + (q + (c + (q + e3)));
    var e1 := t + (q + (c + (q + e2)));
    Assoc(q, c, q);
    Assoc(sep, i, q);
    Assoc(q + c, q, e4);
    Assoc(q, c, q + e4);
    Assoc(s, sep, e4);
    Assoc(q + c, q, e3);
    assert QuotedJoin(t, l, s, i) == q + e1;
  }

  /**
   * `Row` of the fields `t`, `l`, `s`, `i`, rebracketed from the right piece
   * by piece (between the quotes) so that `RowPieces` can take it apart one
   * quote at a time; `RowReadsBack` proves that the two agree.
   */
  function QuotedJoin(t: string, l: string, s: string, i: string): string {
    [] + "\"" + (t + "\"" + ("," + "\"" + (l + "\"" + ("," + "\"" + (s + "\"" + ("," + "\"" + (i + "\"" + [])))))))
  }

  /** A quote-free join cut at its eight quotes gives the nine expected pieces. */
  lemma RowPieces(t: string, l: string, s: string, i: string)
    requires '"' !in t && '"' !in l && '"' !in s && '"' !in i
    ensures SplitRow(QuotedJoin(t, l, s, i)) == Some([t, l, s, i])
  {
    var q := '"';
    var s4 := [','] + [q] + (s + [q] + ([','] + [q] + (i + [q] + [])));
    var s3 := l + [q] + s4;
    var s2 := [','] + [q] + s3;
    var s1 := t + [q] + s2;
    LastPieces(s, i);
    assert SplitOn(s3, q) == [l, ",", s, ",", i, []] by { SplitOnFirst(l, q, s4); }
    assert SplitOn(s2, q) == [",", l, ",", s, ",", i, []] by { SplitOnFirst([','], q, s3); }
    assert SplitOn(s1, q) == [t, ",", l, ",", s, ",", i, []] by { SplitOnFirst(t, q, s2); }
    assert QuotedJoin(t, l, s, i) == [] + [q] + s1;
    SplitOnFirst([], q, s1);
  }

  /** The pieces of the last two fields of a line, with the quotes and comma around them. */
  lemma LastPieces(s: string, i: string)
    requires '"' !in s && '"' !in i
    ensures SplitOn([','] + ['"'] + (s + ['"'] + ([','] + ['"'] + (i + ['"'] + []))), '"') == [",", s, ",", i, []]
  {
    var q := '"';
    var s7 := i + [q] + [];
    var s6 := [','] + [q] + s7;
    var s5 := s + [q] + s6;
    assert SplitOn(s7, q) == [i, []] by { SplitOnFirst(i, q, []); }
    assert SplitOn(s6, q) == [",", i, []] by { SplitOnFirst([','], q, s7); }
    assert SplitOn(s5, q) == [s, ",", i, []] by { SplitOnFirst(s, q, s6); }
    SplitOnFirst([','], q, s5);
  }

  /** Without escaping, a quote and comma inside a field shift the fields: two records share a line. */
  lemma RowsCollide()
    ensures var a := SearchResult(Some("a\",\"b"), Some(""), None, None);
            var b := SearchResult(Some("a"), Some("b\",\""), None, None);
            a != b && Row(a) == Row(b)
  {
  }

  /** A null field and an empty field are written alike. */
  lemma NullWrittenAsEmpty(r: SearchResult)
    ensures Row(r.(title := None)) == Row(r.(title := Some("")))
    ensures Row(r.(link := None)) == Row(r.(link := Some("")))
    ensures Row(r.(snippet := None)) == Row(r.(snippet := Some("")))
    ensures Row(r.(icon := None)) == Row(r.(icon := Some("")))
  {
  }
}
