/**
 * The sections gallery query: the filter conditions on website documents, the
 * per-section filter, the query parameters, and the flattening of the fetched
 * websites into one list of section items. The GROQ text is abstract: each
 * clause is a constructor, and the fetch itself is the `result` parameter.
 */
module SectionQuery {
  import opened Wrappers
  import opened Text

  /** The clauses joined by `&&` in the website filter. */
  datatype Condition = IsWebsite | HasSections | NameMatchesQ

  /** The filter on a website's `sections` array. */
  datatype SectionFilter = AnySection | SectionTypeIsSlug

  /** The named parameters of the query; None is `undefined`. */
  datatype Params = Params(q: Option<string>, sectionSlug: Option<string>)

  /** The query, as its website conditions and its section filter. */
  datatype Query = Query(conditions: seq<Condition>, sectionFilter: SectionFilter)

  type Image = string

  datatype SectionTypeRef = SectionTypeRef(name: string, slug: string)

  /** A section as the projection returns it. */
  datatype SectionDoc = SectionDoc(key: string, image: Image, labelText: Option<string>, sectionType: SectionTypeRef)

  /** A website as the projection returns it; `sections` may be missing. */
  datatype WebsiteDoc = WebsiteDoc(name: string, slug: string, url: string, sections: Option<seq<SectionDoc>>)

  /** What the fetch resolved to: the website list, or something that is not an array. */
  datatype FetchResult = NotAnArray | Websites(docs: seq<WebsiteDoc>)

  datatype WebsiteRef = WebsiteRef(name: string, slug: string, url: string)

  /** One section instance of the gallery, with the website it belongs to. */
  datatype SectionItem = SectionItem(key: string, image: Image, labelText: Option<string>,
                                     sectionType: SectionTypeRef, website: WebsiteRef)

  /** The website clauses: always the type and "has sections", then the name match iff `q` is set. */
  method BuildConditions(q: Option<string>) returns (conditions: seq<Condition>)
    ensures |conditions| >= 2 && conditions[0] == IsWebsite && conditions[1] == HasSections
    ensures NameMatchesQ in conditions <==> Truthy(q)
    ensures |conditions| == if Truthy(q) then 3 else 2
    ensures conditions == if Truthy(q) then [IsWebsite, HasSections, NameMatchesQ] else [IsWebsite, HasSections]
  {
    conditions := [IsWebsite, HasSections];
    if Truthy(q) {
      conditions := conditions + [NameMatchesQ];
    }
  }

  /** The section filter: every section, unless a slug other than "all" is given. */
  method BuildSectionFilter(sectionSlug: Option<string>) returns (filter: SectionFilter)
    ensures filter == AnySection <==> !Truthy(sectionSlug) || sectionSlug.value == "all"
  {
    filter := AnySection;
    if Truthy(sectionSlug) && sectionSlug.value != "all" {
      filter := SectionTypeIsSlug;
    }
  }

  /** The parameters: `q` as a wildcard pattern when set, `sectionSlug` passed through. */
  function BuildParams(q: Option<string>, sectionSlug: Option<string>): (p: Params)
    ensures p.q.Some? <==> Truthy(q)
    ensures p.q.Some? ==> p.q.value == Wildcard(q.value) && p.q.value[1..|p.q.value| - 1] == q.value
    ensures p.sectionSlug == sectionSlug
  {
    Params(if Truthy(q) then Some(Wildcard(q.value)) else None, sectionSlug)
  }

  function WebsiteRefOf(site: WebsiteDoc): WebsiteRef {
    WebsiteRef(site.name, site.slug, site.url)
  }

  /** `{...section, website: {name, slug, url}}`. */
  function ItemOf(section: SectionDoc, site: WebsiteDoc): SectionItem {
    SectionItem(section.key, section.image, section.labelText, section.sectionType, WebsiteRefOf(site))
  }

  /** The section of an item, without its website. */
  function SectionOf(item: SectionItem): SectionDoc {
    SectionDoc(item.key, item.image, item.labelText, item.sectionType)
  }

  /** The sections of one website, in order; none when `sections` is missing. */
  function SiteItems(site: WebsiteDoc): (items: seq<SectionItem>)
    ensures site.sections.None? ==> items == []
    ensures site.sections.Some? ==> |items| == |site.sections.value|
    ensures site.sections.Some? ==>
              forall k :: 0 <= k < |items| ==>
                SectionOf(items[k]) == site.sections.value[k] && items[k].website == WebsiteRefOf(site)
  {
    match site.sections
    case None => []
    case Some(sections) => seq(|sections|, k requires 0 <= k < |sections| => ItemOf(sections[k], site))
  }

  /** The flattening the loops compute: each website's items, website after website. */
  function Flattened(sites: seq<WebsiteDoc>): seq<SectionItem> {
    if sites == [] then [] else SiteItems(sites[0]) + Flattened(sites[1..])
  }

  /** How many sections the websites carry in all. */
  function SectionCount(sites: seq<WebsiteDoc>): nat {
    if sites == [] then 0
    else (if sites[0].sections.Some? then |sites[0].sections.value| else 0) + SectionCount(sites[1..])
  }

  /** `getSections`' post-processing: the flattened websites, or nothing for a non-array. */
  method FlattenSections(result: FetchResult) returns (all: seq<SectionItem>)
    ensures result.NotAnArray? ==> all == []
    ensures result.Websites? ==> all == Flattened(result.docs)
  {
    all := [];
    if result.NotAnArray? {
      return;
    }
    var sites := result.docs;
    var i := 0;
    while i < |sites|
      invariant 0 <= i <= |sites|
      invariant all == Flattened(sites[..i])
    {
      var site := sites[i];
      if site.sections.Some? {
        var sections := site.sections.value;
        var j := 0;
        while j < |sections|
          invariant 0 <= j <= |sections|
          invariant all == Flattened(sites[..i]) + SiteItems(site)[..j]
        {
          all := all + [ItemOf(sections[j], site)];
          assert SiteItems(site)[..j + 1] == SiteItems(site)[..j] + [ItemOf(sections[j], site)];
          j := j + 1;
        }
        assert SiteItems(site)[..j] == SiteItems(site);
      }
      FlattenedSnoc(sites[..i], site);
      assert sites[..i + 1] == sites[..i] + [site];
      i := i + 1;
    }
    assert sites[..i] == sites;
  }

  /** Flattening distributes over concatenation: the output keeps website order. */
  lemma {:induction false} FlattenedConcat(a: seq<WebsiteDoc>, b: seq<WebsiteDoc>)
    ensures Flattened(a + b) == Flattened(a) + Flattened(b)
  {
    if a == [] {
      assert a + b == b;
    } else {
      assert (a + b)[1..] == a[1..] + b;
      FlattenedConcat(a[1..], b);
    }
  }

  /** One more website adds exactly its own items at the end. */
  lemma FlattenedSnoc(a: seq<WebsiteDoc>, site: WebsiteDoc)
    ensures Flattened(a + [site]) == Flattened(a) + SiteItems(site)
  {
    FlattenedConcat(a, [site]);
    assert Flattened([site]) == SiteItems(site) + Flattened([]);
  }

  /** The output has one item per section of every website. */
  lemma {:induction false} FlattenedLength(sites: seq<WebsiteDoc>)
    ensures |Flattened(sites)| == SectionCount(sites)
  {
    if sites != [] {
      FlattenedLength(sites[1..]);
    }
  }

  /**
   * Every item is a section of some website, carrying exactly that website's
   * name, slug and url; and every section of every website appears.
   */
  lemma {:induction false} FlattenedItems(sites: seq<WebsiteDoc>)
    ensures forall item :: item in Flattened(sites) ==>
              exists i :: 0 <= i < |sites| && sites[i].sections.Some?
                && item.website == WebsiteRefOf(sites[i]) && SectionOf(item) in sites[i].sections.value
    ensures forall i, k :: 0 <= i < |sites| && sites[i].sections.Some? && 0 <= k < |sites[i].sections.value| ==>
              ItemOf(sites[i].sections.value[k], sites[i]) in Flattened(sites)
  {
    if sites != [] {
      FlattenedItems(sites[1..]);
      var head := SiteItems(sites[0]);
      var rest := Flattened(sites[1..]);
      forall item | item in Flattened(sites)
        ensures exists i :: 0 <= i < |sites| && sites[i].sections.Some?
                  && item.website == WebsiteRefOf(sites[i]) && SectionOf(item) in sites[i].sections.value
      {
        if item in head {
          var k :| 0 <= k < |head| && head[k] == item;
          assert SectionOf(item) == sites[0].sections.value[k];
        } else {
          assert item in rest;
          var i :| 0 <= i < |sites[1..]| && sites[1..][i].sections.Some?
                   && item.website == WebsiteRefOf(sites[1..][i]) && SectionOf(item) in sites[1..][i].sections.value;
          assert sites[i + 1] == sites[1..][i];
        }
      }
      forall i, k | 0 <= i < |sites| && sites[i].sections.Some? && 0 <= k < |sites[i].sections.value|
        ensures ItemOf(sites[i].sections.value[k], sites[i]) in Flattened(sites)
      {
        if i == 0 {
          assert head[k] == ItemOf(sites[0].sections.value[k], sites[0]);
        } else {
          assert sites[1..][i - 1] == sites[i];
        }
      }
    }
  }

  /**
   * `getSections({q, sectionSlug})`: the query and parameters sent, and the
   * section items made of what the fetch (`result`) resolved to.
   */
  method GetSections(q: Option<string>, sectionSlug: Option<string>, result: FetchResult)
    returns (query: Query, params: Params, items: seq<SectionItem>)
    ensures |query.conditions| >= 2 && query.conditions[..2] == [IsWebsite, HasSections]
    ensures NameMatchesQ in query.conditions <==> Truthy(q)
    ensures query.conditions == if Truthy(q) then [IsWebsite, HasSections, NameMatchesQ] else [IsWebsite, HasSections]
    ensures query.sectionFilter == AnySection <==> !Truthy(sectionSlug) || sectionSlug.value == "all"
    ensures params == BuildParams(q, sectionSlug)
    ensures items == if result.Websites? then Flattened(result.docs) else []
  {
    var conditions := BuildConditions(q);
    var filter := BuildSectionFilter(sectionSlug);
    query := Query(conditions, filter);
    params := BuildParams(q, sectionSlug);
    items := FlattenSections(result);
  }
}
