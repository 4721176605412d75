/**
 * The section-type picker of the sections gallery: its selected value follows
 * the `section` URL parameter, picking an entry toggles that parameter, and
 * "All Sections" removes it. Navigation is returned as the target location.
 */
module SectionFilter {
  import opened Wrappers
  import opened Text
  import opened UrlParams

  /** The value the URL selects: its `section` parameter, unless missing, "" or "all". */
  function SelectedFromUrl(search: seq<Pair>): (value: string)
    ensures value != "all"
    ensures value == "" || FirstValue(search, "section") == Some(value)
    ensures value == "" <==> !Truthy(FirstValue(search, "section")) || FirstValue(search, "section") == Some("all")
  {
    var current := FirstValue(search, "section");
    if Truthy(current) && current.value != "all" then current.value else ""
  }

  /**
   * After picking a slug other than "" and "all", the URL selects that slug; after
   * a toggle off or a clear it selects nothing. So the state the picker sets and
   * the state it later reads back from the URL agree.
   */
  lemma UrlRoundTrip(search: seq<Pair>, slug: string)
    ensures slug != "" && slug != "all" ==> SelectedFromUrl(Replaced(search, "section", slug)) == slug
    ensures SelectedFromUrl(Removed(search, "section")) == ""
  {
    ReplacedLaw(search, "section", slug);
  }

  class Picker {
    var value: string
    var open: bool

    constructor ()
      ensures value == "" && !open
    {
      value := "";
      open := false;
    }

    /** The effect on `currentSection`: the value becomes what the URL selects. */
    method SyncWithUrl(search: seq<Pair>)
      modifies this`value
      ensures value == SelectedFromUrl(search)
    {
      var currentSection := FirstValue(search, "section");
      if Truthy(currentSection) && currentSection.value != "all" {
        value := currentSection.value;
      } else {
        value := "";
      }
    }

    /** The popover's `onOpenChange`. */
    method SetOpen(o: bool)
      modifies this`open
      ensures open == o
    {
      open := o;
    }

    /**
     * `onSelect(slug)`: picking the selected slug clears the value and deletes
     * `section`; any other slug becomes the value and the `section` parameter.
     * The popover closes and every other parameter is kept.
     */
    method OnSelect(slug: string, search: seq<Pair>) returns (target: Location)
      modifies this`value, this`open
      ensures !open
      ensures value == if slug == old(value) then "" else slug
      ensures target.path == "/sections" && target.mode == Push
      ensures target.query == if slug == old(value) then Removed(search, "section")
                              else Replaced(search, "section", slug)
      ensures forall other :: other != "section" ==> FirstValue(target.query, other) == FirstValue(search, other)
      ensures Removed(target.query, "section") == Removed(search, "section")
    {
      var toggleOff := slug == value;
      value := if toggleOff then "" else slug;
      open := false;
      var params := new SearchParams(search);
      if toggleOff {
        params.Delete("section");
        RemovedIdempotent(search, "section");
        forall other | other != "section" ensures FirstValue(params.list, other) == FirstValue(search, other) {
          RemovedKeepsOthers(search, "section", other);
        }
      } else {
        params.Set("section", slug);
        ReplacedLaw(search, "section", slug);
      }
      target := Location("/sections", params.list, Push);
    }

    /** "All Sections": clears the value, closes the popover and deletes `section` only. */
    method ClearFilter(search: seq<Pair>) returns (target: Location)
      modifies this`value, this`open
      ensures value == "" && !open
      ensures target == Location("/sections", Removed(search, "section"), Push)
      ensures forall other :: other != "section" ==> FirstValue(target.query, other) == FirstValue(search, other)
    {
      value := "";
      open := false;
      var params := new SearchParams(search);
      params.Delete("section");
      forall other | other != "section" ensures FirstValue(params.list, other) == FirstValue(search, other) {
        RemovedKeepsOthers(search, "section", other);
      }
      target := Location("/sections", params.list, Push);
    }
  }
}
