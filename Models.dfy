/** The record the controller extracts (`Scraper.Models.SearchResult`). */
module Models {
  import opened Wrappers

  /** One search result; every field may be null, independently of the others. */
  datatype SearchResult = SearchResult(
    title: Option<string>,
    link: Option<string>,
    snippet: Option<string>,
    icon: Option<string>)
}
