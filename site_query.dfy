/**
 * The home gallery query: the filter conditions on website documents built
 * from the search text and the category, font and style filters, and the
 * query parameters. The GROQ text is abstract (each clause is a constructor)
 * and the fetch is left to the caller.
 */
module SiteQuery {
  import opened Wrappers
  import opened Text

  /** The clauses joined by `&&` in the website filter. */
  datatype Condition = IsWebsite | NameOrCategoryMatchesQ | CategoryIn | FontsIn | StylesIn

  /** The position of each clause in the fixed clause order. */
  function Rank(c: Condition): nat {
    match c
    case IsWebsite => 0
    case NameOrCategoryMatchesQ => 1
    case CategoryIn => 2
    case FontsIn => 3
    case StylesIn => 4
  }

  /** Each clause comes later in the fixed order than every clause before it. */
  predicate InClauseOrder(conditions: seq<Condition>) {
    forall i, j :: 0 <= i < j < |conditions| ==> Rank(conditions[i]) < Rank(conditions[j])
  }

  /** One optional clause: present exactly when its filter is on. */
  function Clause(on: bool, c: Condition): seq<Condition> {
    if on then [c] else []
  }

  /** The clause list for the given filters being on, in the fixed order. */
  function Conditions(textOn: bool, categoryOn: bool, fontOn: bool, styleOn: bool): seq<Condition> {
    [IsWebsite] + Clause(textOn, NameOrCategoryMatchesQ) + Clause(categoryOn, CategoryIn)
      + Clause(fontOn, FontsIn) + Clause(styleOn, StylesIn)
  }

  /** The clause list starts with the type clause and holds each optional clause exactly when its filter is on. */
  lemma ConditionsMembers(textOn: bool, categoryOn: bool, fontOn: bool, styleOn: bool)
    ensures var cs := Conditions(textOn, categoryOn, fontOn, styleOn);
      && |cs| >= 1 && cs[0] == IsWebsite
      && (NameOrCategoryMatchesQ in cs <==> textOn)
      && (CategoryIn in cs <==> categoryOn)
      && (FontsIn in cs <==> fontOn)
      && (StylesIn in cs <==> styleOn)
  {
  }

  /** Whichever filters are on, the clause list keeps the fixed order. */
  lemma ConditionsOrdered(textOn: bool, categoryOn: bool, fontOn: bool, styleOn: bool)
    ensures InClauseOrder(Conditions(textOn, categoryOn, fontOn, styleOn))
  {
    var a := [IsWebsite] + Clause(textOn, NameOrCategoryMatchesQ);
    AppendClause([IsWebsite], textOn, NameOrCategoryMatchesQ);
    var b := a + Clause(categoryOn, CategoryIn);
    AppendClause(a, categoryOn, CategoryIn);
    var c := b + Clause(fontOn, FontsIn);
    AppendClause(b, fontOn, FontsIn);
    AppendClause(c, styleOn, StylesIn);
  }

  /** Appending a clause ranked after every clause so far keeps the order. */
  lemma AppendClause(cs: seq<Condition>, on: bool, c: Condition)
    requires InClauseOrder(cs)
    requires forall i :: 0 <= i < |cs| ==> Rank(cs[i]) < Rank(c)
    ensures InClauseOrder(cs + Clause(on, c))
    ensures forall i :: 0 <= i < |cs + Clause(on, c)| ==> Rank((cs + Clause(on, c))[i]) <= Rank(c)
  {
  }

  /** The argument of `getSites`; None is an omitted field. */
  datatype SiteFilters = SiteFilters(q: Option<string>, category: Option<seq<string>>,
                                     font: Option<seq<string>>, style: Option<seq<string>>)

  /** The named parameters of the query; `q` None is `undefined`. */
  datatype Params = Params(q: Option<string>, categories: seq<string>, fonts: seq<string>, styles: seq<string>)

  /**
   * The conditions: the type clause first, then the text match iff `q` is set,
   * then one clause per non-empty list, always in the order type, text,
   * category, font, style.
   */
  method BuildConditions(q: Option<string>, category: seq<string>, font: seq<string>, style: seq<string>)
    returns (conditions: seq<Condition>)
    ensures |conditions| >= 1 && conditions[0] == IsWebsite
    ensures NameOrCategoryMatchesQ in conditions <==> Truthy(q)
    ensures CategoryIn in conditions <==> |category| > 0
    ensures FontsIn in conditions <==> |font| > 0
    ensures StylesIn in conditions <==> |style| > 0
    ensures InClauseOrder(conditions)
    ensures conditions == Conditions(Truthy(q), |category| > 0, |font| > 0, |style| > 0)
  {
    conditions := [IsWebsite];
    if Truthy(q) {
      conditions := conditions + [NameOrCategoryMatchesQ];
    }
    assert conditions == [IsWebsite] + Clause(Truthy(q), NameOrCategoryMatchesQ);
    ghost var withText := conditions;
    if |category| > 0 {
      conditions := conditions + [CategoryIn];
    }
    assert conditions == withText + Clause(|category| > 0, CategoryIn);
    ghost var withCategory := conditions;
    if |font| > 0 {
      conditions := conditions + [FontsIn];
    }
    assert conditions == withCategory + Clause(|font| > 0, FontsIn);
    ghost var withFont := conditions;
    if |style| > 0 {
      conditions := conditions + [StylesIn];
    }
    assert conditions == withFont + Clause(|style| > 0, StylesIn);
    ConditionsMembers(Truthy(q), |category| > 0, |font| > 0, |style| > 0);
    ConditionsOrdered(Truthy(q), |category| > 0, |font| > 0, |style| > 0);
  }

  /** The parameters: `q` as a wildcard pattern when set, the three lists as given. */
  function BuildParams(q: Option<string>, category: seq<string>, font: seq<string>, style: seq<string>): (p: Params)
    ensures p.q.Some? <==> Truthy(q)
    ensures p.q.Some? ==> p.q.value == Wildcard(q.value) && p.q.value[1..|p.q.value| - 1] == q.value
    ensures p.categories == category && p.fonts == font && p.styles == style
  {
    Params(if Truthy(q) then Some(Wildcard(q.value)) else None, category, font, style)
  }

  /**
   * `getSites(filters)` up to the fetch: omitted lists default to empty, and
   * the conditions and parameters are built from the defaulted values.
   */
  method GetSites(filters: SiteFilters) returns (conditions: seq<Condition>, params: Params)
    ensures |conditions| >= 1 && conditions[0] == IsWebsite
    ensures NameOrCategoryMatchesQ in conditions <==> Truthy(filters.q)
    ensures CategoryIn in conditions <==> filters.category.Some? && |filters.category.value| > 0
    ensures FontsIn in conditions <==> filters.font.Some? && |filters.font.value| > 0
    ensures StylesIn in conditions <==> filters.style.Some? && |filters.style.value| > 0
    ensures InClauseOrder(conditions)
    ensures params == BuildParams(filters.q, filters.category.GetOr([]), filters.font.GetOr([]),
                                  filters.style.GetOr([]))
  {
    var category := filters.category.GetOr([]);
    var font := filters.font.GetOr([]);
    var style := filters.style.GetOr([]);
    conditions := BuildConditions(filters.q, category, font, style);
    params := BuildParams(filters.q, category, font, style);
  }
}
