/**
 * Turning the result page into `SearchResult` records, as
 * `GetGoogleResultsAsync` does once the page has been fetched and parsed.
 *
 * The HTML layer is abstract: a page is the outcome of the container query
 * `//div[contains(@class, 'tF2Cxc')]`, which finds either nothing (null) or a
 * sequence of containers, and each container is the outcome of its four
 * `SelectSingleNode` probes.
 */
module Extraction {
  import opened Wrappers
  import opened Text
  import opened Models

  /** An HTML node as far as the extractor looks at it. */
  datatype Element = Element(innerText: string, attributes: map<string, string>) {

    /** `GetAttributeValue(name, def)`: the attribute, or `def` when the node has none. */
    function GetAttributeValue(name: string, def: string): (value: string)
      ensures name in attributes ==> value == attributes[name]
      ensures name !in attributes ==> value == def
    {
      if name in attributes then attributes[name] else def
    }
  }

  /**
   * A result container and what its probes found: `.//h3`, `.//a`,
   * `.//div[contains(@class, 'VwiC3b')]` and `.//img[contains(@class, 'XNo5Ab')]`.
   */
  datatype Container = Container(
    heading: Option<Element>,
    anchor: Option<Element>,
    snippet: Option<Element>,
    icon: Option<Element>)

  /** The parsed page: what `SelectNodes` gave for the container query. */
  datatype ResultPage = ResultPage(matches: Option<seq<Container>>)

  /** The containers the page holds; none when the query found nothing. */
  function Containers(page: ResultPage): seq<Container> {
    page.matches.GetOr([])
  }

  /** `node?.InnerText?.Trim()` */
  function InnerTextOf(node: Option<Element>): (r: Option<string>)
    ensures r.Some? <==> node.Some?
    ensures r.Some? ==> IsTrimOf(r.value, node.value.innerText)
  {
    match node
    case None => None
    case Some(e) => Some(Trim(e.innerText))
  }

  /** `node?.GetAttributeValue(name, string.Empty)?.Trim()` */
  function AttributeOf(node: Option<Element>, name: string): (r: Option<string>)
    ensures r.Some? <==> node.Some?
    ensures r.Some? && name in node.value.attributes ==> IsTrimOf(r.value, node.value.attributes[name])
    ensures r.Some? && name !in node.value.attributes ==> r.value == ""
  {
    match node
    case None => None
    case Some(e) => Some(Trim(e.GetAttributeValue(name, "")))
  }

  /**
   * The record built for one container. A field is null exactly when its
   * probe found no node; otherwise it is the trimmed text or attribute, and a
   * link or icon node without `href` or `src` gives the empty string.
   */
  function ToSearchResult(c: Container): (r: SearchResult)
    ensures r.title.Some? <==> c.heading.Some?
    ensures r.link.Some? <==> c.anchor.Some?
    ensures r.snippet.Some? <==> c.snippet.Some?
    ensures r.icon.Some? <==> c.icon.Some?
    ensures c.heading.Some? ==> IsTrimOf(r.title.value, c.heading.value.innerText)
    ensures c.snippet.Some? ==> IsTrimOf(r.snippet.value, c.snippet.value.innerText)
    ensures c.anchor.Some? && "href" in c.anchor.value.attributes
      ==> IsTrimOf(r.link.value, c.anchor.value.attributes["href"])
    ensures c.anchor.Some? && "href" !in c.anchor.value.attributes ==> r.link == Some("")
    ensures c.icon.Some? && "src" in c.icon.value.attributes
      ==> IsTrimOf(r.icon.value, c.icon.value.attributes["src"])
    ensures c.icon.Some? && "src" !in c.icon.value.attributes ==> r.icon == Some("")
  {
    SearchResult(
      InnerTextOf(c.heading),
      AttributeOf(c.anchor, "href"),
      InnerTextOf(c.snippet),
      AttributeOf(c.icon, "src"))
  }

  /** The records for a sequence of containers: one each, in document order. */
  function ExtractAll(nodes: seq<Container>): (rs: seq<SearchResult>)
    ensures |rs| == |nodes|
    ensures forall i :: 0 <= i < |nodes| ==> rs[i] == ToSearchResult(nodes[i])
  {
    if nodes == [] then [] else [ToSearchResult(nodes[0])] + ExtractAll(nodes[1..])
  }

  /** The records a page yields. */
  function Extract(page: ResultPage): (rs: seq<SearchResult>)
    ensures page.matches.None? ==> rs == []
    ensures page.matches.Some? ==> |rs| == |page.matches.value|
  {
    ExtractAll(Containers(page))
  }

  /** The loop of `GetGoogleResultsAsync` over the containers of the parsed page. */
  method GetGoogleResults(page: ResultPage) returns (results: seq<SearchResult>)
    ensures results == Extract(page)
    ensures |results| == |Containers(page)|
    ensures forall i :: 0 <= i < |results| ==> results[i] == ToSearchResult(Containers(page)[i])
  {
    results := [];
    var nodes := page.matches;
    if nodes.Some? {
      var ns := nodes.value;
      for k := 0 to |ns|
        invariant |results| == k
        invariant forall i :: 0 <= i < k ==> results[i] == ToSearchResult(ns[i])
      {
        results := results + [ToSearchResult(ns[k])];
      }
    }
  }

  /** A container whose four probes all missed still gives a record: an all-null one. */
  lemma BareContainerKept(nodes: seq<Container>, i: nat)
    requires i < |nodes| && nodes[i] == Container(None, None, None, None)
    ensures |ExtractAll(nodes)| == |nodes|
    ensures ExtractAll(nodes)[i] == SearchResult(None, None, None, None)
  {
  }

  /** No value the extractor emits starts or ends with white space. */
  lemma ExtractedFieldsTrimmed(page: ResultPage, i: nat)
    requires i < |Extract(page)|
    ensures Trimmed(Extract(page)[i])
  {
    RecordTrimmed(Containers(page)[i]);
  }

  /** Every non-null field of `r` is free of white space at both ends. */
  ghost predicate Trimmed(r: SearchResult) {
    && (r.title.Some? ==> NoEdgeWhiteSpace(r.title.value))
    && (r.link.Some? ==> NoEdgeWhiteSpace(r.link.value))
    && (r.snippet.Some? ==> NoEdgeWhiteSpace(r.snippet.value))
    && (r.icon.Some? ==> NoEdgeWhiteSpace(r.icon.value))
  }

  /** The record of one container has only trimmed values. */
  lemma RecordTrimmed(c: Container)
    ensures Trimmed(ToSearchResult(c))
  {
    if c.heading.Some? { TrimmedHasNoEdgeWhiteSpace(c.heading.value.innerText); }
    if c.anchor.Some? { TrimmedHasNoEdgeWhiteSpace(c.anchor.value.GetAttributeValue("href", "")); }
    if c.snippet.Some? { TrimmedHasNoEdgeWhiteSpace(c.snippet.value.innerText); }
    if c.icon.Some? { TrimmedHasNoEdgeWhiteSpace(c.icon.value.GetAttributeValue("src", "")); }
  }
}
