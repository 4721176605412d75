/**
 * Search and lookup over the built-in site table: a case-insensitive
 * substring match on name or url, and lookup by slug. The table itself is a
 * constant of the program; here it is the `sites` parameter.
 */
module StaticSites {
  import opened Wrappers
  import opened Seqs
  import opened Text

  datatype Site = Site(id: string, name: string, slug: string, url: string, image: string)

  /** The filter callback: the lowered name or the lowered url contains the lowered query. */
  predicate Matches(site: Site, lowerQuery: string) {
    Includes(ToLower(site.name), lowerQuery) || Includes(ToLower(site.url), lowerQuery)
  }

  /** `sites.filter(...)` with the callback above. */
  function FilterMatching(sites: seq<Site>, lowerQuery: string): (r: seq<Site>)
    ensures IsSubsequence(r, sites)
    ensures forall s :: s in r ==> s in sites && Matches(s, lowerQuery)
    ensures forall s :: s in sites && Matches(s, lowerQuery) ==> s in r
  {
    if sites == [] then []
    else
      var rest := FilterMatching(sites[1..], lowerQuery);
      if Matches(sites[0], lowerQuery) then
        assert ([sites[0]] + rest)[1..] == rest;
        [sites[0]] + rest
      else
        rest
  }

  /**
   * `getSites(query)`: every site for an absent or empty query, otherwise, in
   * table order, exactly the sites whose name or url contains the query
   * ignoring case.
   */
  function GetSites(sites: seq<Site>, query: Option<string>): (r: seq<Site>)
    ensures query.None? || query == Some("") ==> r == sites
    ensures IsSubsequence(r, sites) && |r| <= |sites|
    ensures query.Some? && query.value != "" ==>
              forall s :: s in r <==> s in sites && Matches(s, ToLower(query.value))
  {
    if query.None? || query.value == "" then
      SubsequenceReflexive(sites);
      sites
    else
      var r := FilterMatching(sites, ToLower(query.value));
      SubsequenceMembers(r, sites);
      r
  }

  /** The filter keeps every matching site as many times as the table lists it. */
  lemma {:induction false} FilterMatchingCounts(sites: seq<Site>, lowerQuery: string)
    ensures forall s :: Matches(s, lowerQuery) ==> multiset(FilterMatching(sites, lowerQuery))[s] == multiset(sites)[s]
  {
    if sites != [] {
      FilterMatchingCounts(sites[1..], lowerQuery);
      assert sites == [sites[0]] + sites[1..];
      assert multiset(sites) == multiset([sites[0]]) + multiset(sites[1..]);
      if Matches(sites[0], lowerQuery) {
        assert FilterMatching(sites, lowerQuery) == [sites[0]] + FilterMatching(sites[1..], lowerQuery);
        assert multiset(FilterMatching(sites, lowerQuery))
               == multiset([sites[0]]) + multiset(FilterMatching(sites[1..], lowerQuery));
      }
    }
  }

  /** The filter keeps relative order across any split of the table. */
  lemma {:induction false} FilterMatchingConcat(a: seq<Site>, b: seq<Site>, lowerQuery: string)
    ensures FilterMatching(a + b, lowerQuery) == FilterMatching(a, lowerQuery) + FilterMatching(b, lowerQuery)
  {
    if a == [] {
      assert a + b == b;
    } else {
      assert (a + b)[0] == a[0] && (a + b)[1..] == a[1..] + b;
      FilterMatchingConcat(a[1..], b, lowerQuery);
    }
  }

  /** Searching is case-insensitive: a query and its lower-case form give the same sites. */
  lemma SearchIgnoresCase(sites: seq<Site>, query: string)
    ensures GetSites(sites, Some(query)) == GetSites(sites, Some(ToLower(query)))
  {
    ToLowerIdempotent(query);
  }

  /** `sites[i]` is the first site whose slug is `slug`. */
  ghost predicate FirstWithSlug(sites: seq<Site>, slug: string, i: int) {
    0 <= i < |sites| && sites[i].slug == slug && forall j :: 0 <= j < i ==> sites[j].slug != slug
  }

  /** `getSiteBySlug(slug)`: the first site with that slug, or none when no site has it. */
  function GetSiteBySlug(sites: seq<Site>, slug: string): (r: Option<Site>)
    ensures r.None? <==> forall i :: 0 <= i < |sites| ==> sites[i].slug != slug
    ensures r.Some? ==> exists i :: FirstWithSlug(sites, slug, i) && sites[i] == r.value
  {
    if sites == [] then None
    else if sites[0].slug == slug then
      assert FirstWithSlug(sites, slug, 0);
      Some(sites[0])
    else
      var r := GetSiteBySlug(sites[1..], slug);
      assert r.Some? ==> exists i :: FirstWithSlug(sites, slug, i) && sites[i] == r.value by {
        if r.Some? {
          var i :| FirstWithSlug(sites[1..], slug, i) && sites[1..][i] == r.value;
          assert FirstWithSlug(sites, slug, i + 1);
        }
      }
      assert (forall i :: 0 <= i < |sites[1..]| ==> sites[1..][i].slug != slug) ==>
             (forall i :: 0 <= i < |sites| ==> sites[i].slug != slug) by {
        if forall i :: 0 <= i < |sites[1..]| ==> sites[1..][i].slug != slug {
          forall i | 0 <= i < |sites| ensures sites[i].slug != slug {
            if i > 0 { assert sites[i] == sites[1..][i - 1]; }
          }
        }
      }
      r
  }
}
