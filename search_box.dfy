/**
 * The search box of the home page: every edit rewrites the `q` URL parameter
 * and replaces the current history entry with the home page for it.
 */
module SearchBox {
  import opened Wrappers
  import opened UrlParams

  /**
   * `handleSearch(term)`: a non-empty term sets `q` to it, an empty one deletes
   * `q`; every other parameter is copied unchanged and the target is the root path.
   */
  method HandleSearch(search: seq<Pair>, term: string) returns (target: Location)
    ensures target.path == "/" && target.mode == Replace
    ensures target.query == if term != "" then Replaced(search, "q", term) else Removed(search, "q")
    ensures FirstValue(target.query, "q") == if term != "" then Some(term) else None
    ensures forall other :: other != "q" ==> FirstValue(target.query, other) == FirstValue(search, other)
    ensures Removed(target.query, "q") == Removed(search, "q")
  {
    var params := new SearchParams(search);
    if term != "" {
      params.Set("q", term);
      ReplacedLaw(search, "q", term);
    } else {
      params.Delete("q");
      RemovedIdempotent(search, "q");
      forall other | other != "q" ensures FirstValue(params.list, other) == FirstValue(search, other) {
        RemovedKeepsOthers(search, "q", other);
      }
    }
    target := Location("/", params.list, Replace);
  }
}
