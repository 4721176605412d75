/**
 * The tag row of a site's detail view: one tag for the category, one per style
 * and one per font, in that order, each shown as a link to the home page
 * filtered by it when it has a slug, and as a plain badge otherwise.
 */
module MetadataTags {
  import opened Wrappers
  import opened Text

  datatype TagKind = Category | Style | Font

  /** The `type` string of a tag, also the name of the URL parameter it links to. */
  function KindName(k: TagKind): string {
    match k
    case Category => "category"
    case Style => "style"
    case Font => "font"
  }

  datatype Named = Named(name: string, slug: string)

  /** A font reference; unlike categories and styles, its slug is optional. */
  datatype FontRef = FontRef(name: string, slug: Option<string>)

  /** The parts of a site the tag row uses. */
  datatype Site = Site(category: Option<Named>, styles: Option<seq<Named>>, fonts: Option<seq<FontRef>>)

  datatype Tag = Tag(labelText: string, kind: TagKind, slug: Option<string>)

  /** What one tag renders as. */
  datatype Rendered = Link(href: string, labelText: string, kind: TagKind, slug: string) | Badge(labelText: string)

  function CategoryCount(site: Site): nat {
    if site.category.Some? then 1 else 0
  }

  function Styles(site: Site): seq<Named> {
    site.styles.GetOr([])
  }

  function Fonts(site: Site): seq<FontRef> {
    site.fonts.GetOr([])
  }

  function CategoryTags(site: Site): seq<Tag> {
    if site.category.Some? then [Tag(site.category.value.name, Category, Some(site.category.value.slug))] else []
  }

  /**
   * The tag row of a site, all at once: the category tag if there is a
   * category, then every style, then every font, each with its source's
   * name, kind and slug.
   */
  function TagsOf(site: Site): (tags: seq<Tag>)
    ensures |tags| == CategoryCount(site) + |Styles(site)| + |Fonts(site)|
  {
    CategoryAndStyleTags(site) + FontTags(site)
  }

  function CategoryAndStyleTags(site: Site): seq<Tag> {
    var styles := Styles(site);
    CategoryTags(site) + seq(|styles|, i requires 0 <= i < |styles| => Tag(styles[i].name, Style, Some(styles[i].slug)))
  }

  function FontTags(site: Site): seq<Tag> {
    var fonts := Fonts(site);
    seq(|fonts|, i requires 0 <= i < |fonts| => Tag(fonts[i].name, Font, fonts[i].slug))
  }

  /**
   * The `tags` array, built as the component does: the category tag if there
   * is a category, then a loop over the styles, then a loop over the fonts.
   */
  method BuildTags(site: Site) returns (tags: seq<Tag>)
    ensures tags == TagsOf(site)
    ensures |tags| == CategoryCount(site) + |Styles(site)| + |Fonts(site)|
    ensures site.category.Some? ==> tags[0] == Tag(site.category.value.name, Category, Some(site.category.value.slug))
    ensures forall i :: 0 <= i < |Styles(site)| ==>
              tags[CategoryCount(site) + i] == Tag(Styles(site)[i].name, Style, Some(Styles(site)[i].slug))
    ensures forall i :: 0 <= i < |Fonts(site)| ==>
              tags[CategoryCount(site) + |Styles(site)| + i] == Tag(Fonts(site)[i].name, Font, Fonts(site)[i].slug)
  {
    tags := [];
    if site.category.Some? {
      tags := tags + [Tag(site.category.value.name, Category, Some(site.category.value.slug))];
    }
    var c := |tags|;
    if site.styles.Some? && |site.styles.value| > 0 {
      var styles := site.styles.value;
      var i := 0;
      while i < |styles|
        invariant 0 <= i <= |styles|
        invariant |tags| == c + i
        invariant site.category.Some? ==> tags[0] == Tag(site.category.value.name, Category, Some(site.category.value.slug))
        invariant forall k :: 0 <= k < i ==> tags[c + k] == Tag(styles[k].name, Style, Some(styles[k].slug))
      {
        tags := tags + [Tag(styles[i].name, Style, Some(styles[i].slug))];
        i := i + 1;
      }
    }
    var s := |tags|;
    if site.fonts.Some? && |site.fonts.value| > 0 {
      var fonts := site.fonts.value;
      var i := 0;
      while i < |fonts|
        invariant 0 <= i <= |fonts|
        invariant |tags| == s + i
        invariant site.category.Some? ==> tags[0] == Tag(site.category.value.name, Category, Some(site.category.value.slug))
        invariant forall k :: 0 <= k < |Styles(site)| ==>
                    tags[c + k] == Tag(Styles(site)[k].name, Style, Some(Styles(site)[k].slug))
        invariant forall k :: 0 <= k < i ==> tags[s + k] == Tag(fonts[k].name, Font, fonts[k].slug)
      {
        tags := tags + [Tag(fonts[i].name, Font, fonts[i].slug)];
        i := i + 1;
      }
    }
    SameTags(site, tags);
  }

  /** A row that agrees with `TagsOf(site)` on the length and on every part is that row. */
  lemma SameTags(site: Site, tags: seq<Tag>)
    requires |tags| == CategoryCount(site) + |Styles(site)| + |Fonts(site)|
    requires site.category.Some? ==> tags[0] == Tag(site.category.value.name, Category, Some(site.category.value.slug))
    requires forall i :: 0 <= i < |Styles(site)| ==>
               tags[CategoryCount(site) + i] == Tag(Styles(site)[i].name, Style, Some(Styles(site)[i].slug))
    requires forall i :: 0 <= i < |Fonts(site)| ==>
               tags[CategoryCount(site) + |Styles(site)| + i] == Tag(Fonts(site)[i].name, Font, Fonts(site)[i].slug)
    ensures tags == TagsOf(site)
  {
    var c := CategoryCount(site);
    var n := |Styles(site)|;
    var front := CategoryAndStyleTags(site);
    var back := FontTags(site);
    assert |front| == c + n;
    forall k | 0 <= k < c + n ensures tags[k] == front[k] {
      if k >= c {
        assert tags[c + (k - c)] == Tag(Styles(site)[k - c].name, Style, Some(Styles(site)[k - c].slug));
      }
    }
    forall k | 0 <= k < |back| ensures tags[c + n + k] == back[k] {
    }
    assert tags[..c + n] == front;
    assert tags[c + n..] == back;
    assert tags == tags[..c + n] + tags[c + n..];
  }

  /** One tag: a link to `/?{type}={slug}` when its slug is non-empty, a plain badge otherwise. */
  function RenderTag(t: Tag): (r: Rendered)
    ensures r.Link? <==> Truthy(t.slug)
    ensures r.labelText == t.labelText
    ensures r.Link? ==> r.kind == t.kind && r.slug == t.slug.value
                        && r.href == "/?" + KindName(t.kind) + "=" + t.slug.value
  {
    if Truthy(t.slug) then Link("/?" + KindName(t.kind) + "=" + t.slug.value, t.labelText, t.kind, t.slug.value)
    else Badge(t.labelText)
  }

  /** The row: nothing at all for no tags, otherwise every tag rendered in order. */
  function Render(tags: seq<Tag>): (view: Option<seq<Rendered>>)
    ensures view.None? <==> tags == []
    ensures view.Some? ==> |view.value| == |tags| && forall i :: 0 <= i < |tags| ==> view.value[i] == RenderTag(tags[i])
  {
    if |tags| == 0 then None
    else Some(seq(|tags|, i requires 0 <= i < |tags| => RenderTag(tags[i])))
  }

  /**
   * `MetadataTags({site})`: the rendering of the site's tag row, which is
   * nothing exactly when the site has no category, styles or fonts.
   */
  method View(site: Site) returns (view: Option<seq<Rendered>>)
    ensures view == Render(TagsOf(site))
    ensures view.None? <==> site.category.None? && Styles(site) == [] && Fonts(site) == []
    ensures view.Some? ==> |view.value| == CategoryCount(site) + |Styles(site)| + |Fonts(site)|
  {
    var tags := BuildTags(site);
    view := Render(tags);
  }
}
