/**
 * The home page's reading of its URL parameters: each of `category`, `font`
 * and `style` may be missing, one value or repeated, and is normalised to a
 * list before the site query is built.
 */
module HomePage {
  import opened Wrappers
  import opened Text
  import SiteQuery

  /** A search parameter as the framework delivers it. */
  datatype SearchParam = Absent | One(value: string) | Many(values: seq<string>)

  datatype SearchParams = SearchParams(q: Option<string>, category: SearchParam, font: SearchParam, style: SearchParam)

  /** `normalizeParam`: missing or "" gives [], one value a singleton, a list itself. */
  function NormalizeParam(p: SearchParam): (r: seq<string>)
    ensures p.Absent? || p == One("") ==> r == []
    ensures p.One? && p.value != "" ==> r == [p.value]
    ensures p.Many? ==> r == p.values
  {
    match p
    case Absent => []
    case One(s) => if s == "" then [] else [s]
    case Many(xs) => xs
  }

  /** `list.length ? list : undefined`. */
  function NonEmptyOrUndefined(xs: seq<string>): (r: Option<seq<string>>)
    ensures r.None? <==> xs == []
    ensures r.Some? ==> r.value == xs
  {
    if |xs| > 0 then Some(xs) else None
  }

  /** The filters `Home` passes to the site query; `q` is forwarded as it came. */
  function HomeFilters(params: SearchParams): (f: SiteQuery.SiteFilters)
    ensures f.q == params.q
    ensures f.category.None? <==> NormalizeParam(params.category) == []
    ensures f.font.None? <==> NormalizeParam(params.font) == []
    ensures f.style.None? <==> NormalizeParam(params.style) == []
  {
    SiteQuery.SiteFilters(params.q,
                          NonEmptyOrUndefined(NormalizeParam(params.category)),
                          NonEmptyOrUndefined(NormalizeParam(params.font)),
                          NonEmptyOrUndefined(NormalizeParam(params.style)))
  }

  /**
   * Turning an empty list into `undefined` is undone by the query's default:
   * the query sees exactly the normalised lists.
   */
  lemma UndefinedDefaultsBack(params: SearchParams)
    ensures HomeFilters(params).category.GetOr([]) == NormalizeParam(params.category)
    ensures HomeFilters(params).font.GetOr([]) == NormalizeParam(params.font)
    ensures HomeFilters(params).style.GetOr([]) == NormalizeParam(params.style)
  {
  }

  /**
   * `Home` up to the fetch: a filter clause is in the query exactly when the
   * corresponding URL parameter normalises to a non-empty list, the type
   * clause comes first and the clauses keep their fixed order, and the
   * parameters are `q` as given (sent as a wildcard pattern) and the
   * normalised lists.
   */
  method Home(params: SearchParams) returns (conditions: seq<SiteQuery.Condition>, queryParams: SiteQuery.Params)
    ensures SiteQuery.NameOrCategoryMatchesQ in conditions <==> Truthy(params.q)
    ensures SiteQuery.CategoryIn in conditions <==> NormalizeParam(params.category) != []
    ensures SiteQuery.FontsIn in conditions <==> NormalizeParam(params.font) != []
    ensures SiteQuery.StylesIn in conditions <==> NormalizeParam(params.style) != []
    ensures queryParams.categories == NormalizeParam(params.category)
    ensures queryParams.fonts == NormalizeParam(params.font)
    ensures queryParams.styles == NormalizeParam(params.style)
    ensures |conditions| >= 1 && conditions[0] == SiteQuery.IsWebsite && SiteQuery.InClauseOrder(conditions)
    ensures queryParams == SiteQuery.BuildParams(params.q, NormalizeParam(params.category),
                                                 NormalizeParam(params.font), NormalizeParam(params.style))
  {
    UndefinedDefaultsBack(params);
    conditions, queryParams := SiteQuery.GetSites(HomeFilters(params));
  }
}
