# Design.sites bookmark store and gallery queries, in Dafny

This project models the client-side core of Design.sites, a gallery of website designs. It has three parts.

- **The bookmark store** (`BookmarkStore`, `BookmarkLaws`). This is the shared state behind the bookmark dialog:
  - the signed-in user;
  - the folders, with their bookmark counts;
  - the bookmarks, and the set of bookmarked website ids;
  - the loading flag, the dialog's open flag, and the website being bookmarked.

  Each store action is a method of the `Store` class. An action that changes state before it awaits a remote call is split into the part before the await and the part after it, so the optimistic update and the rollback are separate steps. These are `fetchFolders`, `addBookmark` and `deleteFolder`. `fetchBookmarks` and `addFolder` change nothing before their await and are one method each. The reply of every remote call is a parameter. The reads and inserts take a `Reply`: `Reply.Failed` is an error, and `Reply.Succeeded(data)` is a success. The two deletes (the undo of a bookmark and `deleteFolder`) take a success flag `ok`.
- **The gallery queries** (`StaticSites`, `SiteQuery`, `SectionQuery`, `HomePage`). These build the filter conditions and parameters for the content backend and post-process what it returns. They also cover the search and slug lookup over the built-in site table.
- **The UI rules** (`MetadataTags`, `Header`, `SectionFilter`, `SearchBox`, `CreateFolderInput`):
  - the tag row of a site;
  - the header's hide-on-scroll rule;
  - the section picker and the search box, which rewrite URL parameters (`UrlParams` models `URLSearchParams`);
  - the new-folder form.

`Text` holds the JavaScript string operations these use: `toLowerCase`, `includes`, `trim`, and truthiness of an optional string.

Two behaviours of the code are easy to miss, and the model follows both:
- `setOpen(false)` clears the target website. This is because its `websiteId` parameter defaults to null.
- `addFolder` accepts any name as given. Only the form trims the name and refuses a blank one.

## Model

| member | source | states |
|---|---|---|
| BookmarkStore.CanAddBookmark | src/stores/useBookmarkStore.ts:145-151 | The guard of `addBookmark`: a user, a non-empty target, and a target not yet saved. `AddBookmarkBegin` goes ahead exactly when it holds, and `DoubleSubmit` shows that it fails for the second save. |
| BookmarkStore.Store.constructor | src/stores/useBookmarkStore.ts:46-53 | The store starts signed out, with no folders, bookmarks or ids, not loading, closed, and without a target. |
| BookmarkStore.Store.SetUser | src/stores/useBookmarkStore.ts:55 | Only the user changes. |
| BookmarkStore.Store.SetOpen | src/stores/useBookmarkStore.ts:57-63 | The open flag and the target become the arguments. A missing target clears it. A folder refresh starts exactly when the dialog opens while signed in. |
| BookmarkStore.Store.FetchFoldersBegin | src/stores/useBookmarkStore.ts:65-69 | Without a user nothing happens. Otherwise loading is set before the read. |
| BookmarkStore.Store.FetchFoldersFinish | src/stores/useBookmarkStore.ts:73-94 | An error keeps the folders and clears loading. Rows replace the folders one for one, each with its flattened count. A null success fails at the map and changes nothing. |
| BookmarkStore.Store.FetchFolders | src/stores/useBookmarkStore.ts:65-95 | The whole action: no effect without a user; otherwise the effect of the error or of the rows as above. A null success leaves the folders as they were and loading still set. |
| BookmarkStore.FolderFromRow | src/stores/useBookmarkStore.ts:89-92 | The count is 0 when the relation is missing and the first count when rows exist. It is undefined when the relation is empty. Every other column is kept. |
| BookmarkStore.Store.FetchBookmarks | src/stores/useBookmarkStore.ts:97-114 | On success the bookmarks become the rows read, or none if null. The id set becomes exactly their website ids. Without a user, or on an error, nothing changes. |
| BookmarkStore.WebsiteIds | src/stores/useBookmarkStore.ts:110-111 | A website id is in the set if and only if some bookmark has it. |
| BookmarkStore.Store.AddFolder | src/stores/useBookmarkStore.ts:116-141 | Without a user, on an error, or on an empty reply, nothing changes and null is returned. Otherwise the inserted row, with the untrimmed name, is returned, and is prepended with count 0. |
| BookmarkStore.WithCount | src/stores/useBookmarkStore.ts:160-162 | The folders with that id get their count (missing read as 0) plus the delta. Everything else is unchanged: the lengths, the other fields, and the other folders. |
| BookmarkStore.Store.AddBookmarkBegin | src/stores/useBookmarkStore.ts:143-169 | The guard: a user, a non-empty target, and a target not yet saved. A refused call changes nothing. Otherwise the target joins the id set, the folder's count goes up by one, the dialog closes, and the prior ids and folders are captured. |
| BookmarkStore.Store.AddBookmarkFinish | src/stores/useBookmarkStore.ts:171-193 | An error restores the captured ids and folders and reopens the dialog. An inserted row is appended to the bookmarks and yields the undo action. A null success changes nothing. |
| BookmarkStore.Store.Undo | src/stores/useBookmarkStore.ts:194-211 | If the delete succeeds, the website leaves the id set and the folder's count goes down by one. The bookmark list is untouched. A failed delete changes nothing. |
| BookmarkStore.Store.AddBookmark | src/stores/useBookmarkStore.ts:143-218 | The whole action. A refused call changes nothing. A failed insert ends in the prior ids and folders with the dialog open. A successful insert keeps the optimistic state and appends one bookmark for the target and folder. |
| BookmarkStore.WithoutFolder | src/stores/useBookmarkStore.ts:227 | The filter keeps every folder without that id and no folder with it, in their original order. |
| BookmarkStore.WithoutFolderKeepsCounts | src/stores/useBookmarkStore.ts:227 | Every folder without that id is kept as many times as the list holds it. |
| BookmarkStore.Store.DeleteFolderBegin | src/stores/useBookmarkStore.ts:220-227 | Without a user nothing changes. Otherwise the list is snapshotted and the folder is removed. |
| BookmarkStore.Store.DeleteFolderFinish | src/stores/useBookmarkStore.ts:235-241 | A failed delete restores the snapshot. A successful one keeps the list. |
| BookmarkStore.Store.DeleteFolder | src/stores/useBookmarkStore.ts:220-242 | The whole action: the folder is gone exactly when there is a user and the delete succeeded. Otherwise the list is as before. |
| BookmarkStore.Store.IsBookmarked | src/stores/useBookmarkStore.ts:244-246 | True exactly when the website id is in the id set. |
| BookmarkLaws.RaiseThenLowerRestoresCounts | src/stores/useBookmarkStore.ts:160-208 | A raise followed by a lower gives every folder back its count as read (missing as 0), and every other field. The list comes back unchanged if and only if every folder with that id had a count. |
| BookmarkLaws.RaiseThenLowerMaterialisesCount | src/stores/useBookmarkStore.ts:160-208 | Any folder with that id and no count comes back from a raise and a lower with count 0, not with no count, and with its other fields as they were. |
| BookmarkLaws.WithoutFolderConcat | src/stores/useBookmarkStore.ts:227 | Removing a folder distributes over concatenation of folder lists. |
| BookmarkLaws.WithoutAbsentFolder | src/stores/useBookmarkStore.ts:227 | Removing an id no folder has leaves the list unchanged. |
| BookmarkLaws.AddThenUndo | src/stores/useBookmarkStore.ts:143-211 | After a successful add and its undo: the id set is as before; every folder reads the same count and keeps its other fields; the dialog stays closed; user, target and loading are unchanged. The bookmark list keeps the inserted bookmark at its end, although its website is no longer in the id set, because the undo never touches the list. |
| BookmarkLaws.SaveAndUndoScenario | src/stores/useBookmarkStore.ts:116-211 | Concrete run: create a folder (one folder, count 0), save a site into it (the site is saved and the count is 1), then undo (not saved, count 0). |
| BookmarkLaws.FailedSaveScenario | src/stores/useBookmarkStore.ts:183-187 | Concrete run: a failed insert leaves the site unsaved, the dialog open, and the count at 0. |
| BookmarkLaws.DoubleSubmit | src/stores/useBookmarkStore.ts:143-168 | From any store that may save its target: the first save's optimistic step runs, and a second save of the same site is refused. The store ends as the first step left it: the site's id added, that folder's count raised by one, the dialog closed, and everything else unchanged. |
| StaticSites.Matches | src/features/sites/lib/getSites.ts:12-15 | The filter callback: the lowered name or the lowered url contains the lowered query. Its laws are stated by `FilterMatching`, `FilterMatchingCounts`, `GetSites` and `SearchIgnoresCase`. |
| StaticSites.FilterMatching | src/features/sites/lib/getSites.ts:11-16 | Keeps exactly the sites whose lowered name or url contains the query, in table order. |
| StaticSites.FilterMatchingCounts | src/features/sites/lib/getSites.ts:11-16 | Every matching site is kept as many times as the table lists it. |
| StaticSites.GetSites | src/features/sites/lib/getSites.ts:4-17 | A missing or empty query returns the whole table. Otherwise it returns, in table order, exactly the sites whose name or url contains the query, ignoring case, and never more sites than the table has. |
| StaticSites.FilterMatchingConcat | src/features/sites/lib/getSites.ts:11-16 | The filter distributes over concatenation of tables. |
| StaticSites.SearchIgnoresCase | src/features/sites/lib/getSites.ts:9-14 | A query and its lower-case form find the same sites. |
| StaticSites.GetSiteBySlug | src/features/sites/lib/getSites.ts:19-21 | None exactly when no site has the slug. Otherwise the result is the first site with it. |
| Text.ToLower | src/features/sites/lib/getSites.ts:9 | Pointwise lower-casing: same length, and each character lowered. |
| Text.ToLowerIdempotent | src/features/sites/lib/getSites.ts:9 | Lowering twice is lowering once. |
| Text.Includes | src/features/sites/lib/getSites.ts:13-14 | True exactly when the needle occurs at some position of the text. |
| Text.Trim | src/components/bookmark/CreateFolderInput.tsx:14 | Only white space is removed: the result is the slice of the input that starts right after its leading white space, and only white space follows it. It has no white space at either end, and it is empty exactly when the input is blank. |
| Text.TrimIdempotent | src/components/bookmark/CreateFolderInput.tsx:14-18 | Trimming a trimmed name changes nothing. |
| Text.Wildcard | src/features/lib/getSites.ts:65 | The pattern is the search text with one `*` on each side. |
| SiteQuery.BuildConditions | src/features/lib/getSites.ts:18-46 | The type clause comes first. There is a text clause exactly when `q` is truthy, and a clause per list exactly when that list is non-empty. Clauses are always in the order type, text, category, font, style. |
| SiteQuery.Conditions | src/features/lib/getSites.ts:18-46 | The clause list for a given set of active filters: the type clause, then the text, category, font and style clauses that are on. Its laws are `ConditionsMembers` and `ConditionsOrdered`, and `BuildConditions` is proved equal to it. |
| SiteQuery.ConditionsMembers | src/features/lib/getSites.ts:18-46 | For any set of active filters, the clause list starts with the type clause and contains each optional clause exactly when its filter is on. |
| SiteQuery.ConditionsOrdered | src/features/lib/getSites.ts:18-46 | For any set of active filters, every clause comes strictly later in the order type, text, category, font, style than the clauses before it. |
| SiteQuery.BuildParams | src/features/lib/getSites.ts:64-69 | `q` is the wildcard pattern exactly when truthy, and undefined otherwise. The three lists are passed as given. |
| SiteQuery.GetSites | src/features/lib/getSites.ts:10-69 | Omitted lists default to empty. The conditions and the parameters follow from the defaulted filters. |
| HomePage.NormalizeParam | src/app/page.tsx:14-17 | Missing or empty gives [], one value gives a singleton, and a list is passed through. |
| HomePage.NonEmptyOrUndefined | src/app/page.tsx:33-35 | An empty list becomes undefined. A non-empty list is kept. |
| HomePage.HomeFilters | src/app/page.tsx:31-36 | `q` is forwarded as it came. Each list filter is omitted exactly when the parameter normalises to []. |
| HomePage.UndefinedDefaultsBack | src/app/page.tsx:31-36 | After the query's defaults, the query receives exactly the normalised lists. |
| HomePage.Home | src/app/page.tsx:19-36 | Each filter clause is sent exactly when its URL parameter normalises to a non-empty list. The type clause comes first and the clauses keep the order type, text, category, font, style. The parameters are exactly those built from `q` as given (its wildcard pattern when truthy) and the normalised lists. |
| SectionQuery.BuildConditions | src/features/lib/getSections.ts:26-30 | The clauses are exactly the type and "has sections", in that order, followed by the name match exactly when `q` is truthy. |
| SectionQuery.BuildSectionFilter | src/features/lib/getSections.ts:41-44 | Every section is kept unless a truthy slug other than "all" is given. |
| SectionQuery.BuildParams | src/features/lib/getSections.ts:63-66 | `q` is the wildcard pattern exactly when truthy. `sectionSlug` is passed as given. |
| SectionQuery.SiteItems | src/features/lib/getSections.ts:75-86 | One item per section of the website, in order. Each item is the section plus the website's name, slug and url. A website without sections gives none. |
| SectionQuery.FlattenSections | src/features/lib/getSections.ts:70-90 | The loops produce the flattening: each website's items, website after website. A non-array result gives []. |
| SectionQuery.Flattened | src/features/lib/getSections.ts:73-88 | The reference flattening: each website's items, website after website. Its laws are `FlattenedConcat`, `FlattenedSnoc`, `FlattenedLength` and `FlattenedItems`, and `FlattenSections` is proved equal to it. |
| SectionQuery.FlattenedConcat | src/features/lib/getSections.ts:73-88 | Flattening distributes over concatenation of website lists. |
| SectionQuery.FlattenedSnoc | src/features/lib/getSections.ts:73-88 | Appending a website appends its items. |
| SectionQuery.FlattenedLength | src/features/lib/getSections.ts:73-88 | There are as many items as the websites carry sections in all. |
| SectionQuery.FlattenedItems | src/features/lib/getSections.ts:73-88 | Every item is a section of one of the websites, labelled with that website. Every section of every website is some item. |
| SectionQuery.GetSections | src/features/lib/getSections.ts:23-91 | The conditions are exactly the type and "has sections" clauses, plus the name match when `q` is truthy. The section filter and parameters are as above. The items are the flattened fetch result. |
| MetadataTags.TagsOf | src/features/common/MetadataTags.tsx:12-43 | The reference tag row: the category tag, then the style tags, then the font tags, one per category, style and font. |
| MetadataTags.BuildTags | src/features/common/MetadataTags.tsx:12-43 | The loops build exactly `TagsOf(site)`: the category tag when there is a category, then one tag per style, then one per font. Each tag carries its source's name, kind and slug. |
| MetadataTags.RenderTag | src/features/common/MetadataTags.tsx:51-81 | A tag is a link to `/?{type}={slug}` exactly when its slug is non-empty. Otherwise it is a badge with the same label. |
| MetadataTags.Render | src/features/common/MetadataTags.tsx:45-81 | Nothing is rendered for no tags. Otherwise every tag is rendered, in order. |
| MetadataTags.View | src/features/common/MetadataTags.tsx:11-84 | The component renders exactly `Render(TagsOf(site))`. That is nothing exactly when the site has no category, styles or fonts, and otherwise one element per tag. |
| Header.ScrollState.constructor | src/features/common/Header.tsx:12-13 | The header starts visible, at position 0, with the invariant established. |
| Header.ScrollState.HandleScroll | src/features/common/Header.tsx:16-28 | A move up, or a position below 50, shows the header. A move down past 50 hides it. Otherwise the visibility is kept. The position is remembered. A hidden header always has a last position past 50. |
| Header.ScrollScenario | src/features/common/Header.tsx:16-28 | Concrete run: at exactly 50 the header stays shown, at 100 it hides, a repeated 100 keeps it hidden, and 60 shows it. |
| UrlParams.FirstValue | src/features/sections/SectionFilter.tsx:40 | `get` is none exactly when no pair has the name. Otherwise it is the value of the first pair with it. |
| UrlParams.Removed | src/features/common/SearchBox.tsx:16 | `delete` keeps the order and leaves no pair with the name. Every pair of another name is kept. |
| UrlParams.RemovedKeepsCounts | src/features/common/SearchBox.tsx:16 | Every pair of another name is kept as many times as it occurs. |
| UrlParams.RemovedKeepsOthers | src/features/common/SearchBox.tsx:16 | Deleting a name does not change what `get` returns for another name. |
| UrlParams.RemovedIdempotent | src/features/sections/SectionFilter.tsx:68 | Deleting twice is deleting once. |
| UrlParams.FirstValueAppend | src/features/common/SearchBox.tsx:14 | Appending a pair only affects `get` for a name that was absent. |
| UrlParams.FirstIndex | src/features/sections/SectionFilter.tsx:70 | For a name that is present: the index of the first pair with it. |
| UrlParams.Replaced | src/features/common/SearchBox.tsx:14 | `set`: replace the first pair with the name and drop the later ones, or append the pair. Its laws are `ReplacedLaw`, `ReplaceFirstLaw` and `ReplaceFirstPosition`. |
| UrlParams.ReplacedLaw | src/features/common/SearchBox.tsx:14 | After `set`, `get` returns the new value and one pair has the name. Other names read as before, and their pairs are the same pairs in the same order. An absent name is appended as a pair at the end. A present name gets the pair at the place of its first pair, and its later pairs are dropped. |
| UrlParams.ReplaceFirstLaw | src/features/sections/SectionFilter.tsx:70 | The same law, for a name that is already present: `get` returns the new value, other names read as before, one pair has the name, and the pair takes the place of the first pair with the name while the later ones are dropped. |
| UrlParams.ReplaceFirstPosition | src/features/sections/SectionFilter.tsx:70 | For a present name: the pairs before its first pair, then the new pair, then the rest without pairs of the name. |
| UrlParams.RemovedConcat | src/features/common/SearchBox.tsx:16 | `delete` distributes over concatenation. |
| UrlParams.RemovedAbsent | src/features/common/SearchBox.tsx:16 | Deleting an absent name changes nothing. |
| UrlParams.SearchParams.constructor | src/features/common/SearchBox.tsx:12 | The copy holds the current parameters. |
| UrlParams.SearchParams.Set | src/features/common/SearchBox.tsx:14 | The list becomes the `set` of the old list. |
| UrlParams.SearchParams.Delete | src/features/common/SearchBox.tsx:16 | The list becomes the `delete` of the old list. |
| SearchBox.HandleSearch | src/features/common/SearchBox.tsx:11-22 | A non-empty term sets `q` and an empty one deletes it. Every other parameter is unchanged. The entry `/` replaces the current history entry. |
| SectionFilter.SelectedFromUrl | src/features/sections/SectionFilter.tsx:40-49 | The value is the `section` parameter unless that is missing, "" or "all", in which case it is "". It is never "all". |
| SectionFilter.UrlRoundTrip | src/features/sections/SectionFilter.tsx:43-81 | Picking a slug other than "" and "all" makes the URL select that slug. Clearing it makes the URL select nothing. |
| SectionFilter.Picker.constructor | src/features/sections/SectionFilter.tsx:35-36 | Closed, and nothing selected. |
| SectionFilter.Picker.SyncWithUrl | src/features/sections/SectionFilter.tsx:43-49 | The value becomes what the URL selects. |
| SectionFilter.Picker.SetOpen | src/features/sections/SectionFilter.tsx:87 | The popover's open flag becomes the argument. |
| SectionFilter.Picker.OnSelect | src/features/sections/SectionFilter.tsx:52-73 | Picking the selected slug clears the value and deletes `section`. Any other slug becomes the value and the `section` parameter. The popover closes, other parameters are kept, and `/sections` is pushed. |
| SectionFilter.Picker.ClearFilter | src/features/sections/SectionFilter.tsx:75-81 | Clears the value, closes the popover, deletes only `section`, and pushes `/sections`. |
| CreateFolderInput.FolderForm.constructor | src/components/bookmark/CreateFolderInput.tsx:8-9 | The name is empty and no creation is in progress. |
| CreateFolderInput.FolderForm.SetName | src/components/bookmark/CreateFolderInput.tsx:29 | The name becomes the typed text. |
| CreateFolderInput.FolderForm.SubmitDisabled | src/components/bookmark/CreateFolderInput.tsx:39 | Disabled exactly when the name is blank or a creation is in progress. |
| CreateFolderInput.FolderForm.SubmitBegin | src/components/bookmark/CreateFolderInput.tsx:12-16 | A blank name does nothing. Otherwise the form is creating, and the request is the trimmed name, which is not blank. |
| CreateFolderInput.FolderForm.SubmitFinish | src/components/bookmark/CreateFolderInput.tsx:17-22 | A resolved call clears the name. Creation ends either way. |
| CreateFolderInput.FolderForm.Submit | src/components/bookmark/CreateFolderInput.tsx:12-22 | A blank name never reaches the store. Otherwise the form ends cleared and idle. A folder is created exactly when the name is not blank, there is a user and the insert returns a row. It is that row with the user, the trimmed non-blank name and no count, and it is at the front of the store's list with count 0. When nothing is created the store's folders are unchanged. |

## Left out

- Supabase and Sanity are not modelled; each reply or fetched result is a parameter. The outcomes are success, error, or null data. What the server stores, how it orders rows, and how it evaluates GROQ (`match`, `in`, `order(addedDate desc)`) are not modelled. The query text is abstract: each clause is a constructor.
- The server-echoed rows of `addFolder` and `addBookmark` are the inserted values plus the server-assigned id and creation time (`RowKey`). Extra columns the server may add are not modelled.
- The `...f` spread in `fetchFolders` (src/stores/useBookmarkStore.ts:90) also copies the `bookmarks` relation itself into each stored folder. The model's folder keeps the folder columns and the flattened count, not that relation.
- Interleaving of concurrent async actions is a matter of which Begin and Finish steps run in what order. The model states each step, not the schedules. The "run to completion" methods assume no other action runs in between.
- Toasts, `console` logging, React rendering, class names, icons, keyboard handling, the revalidation constant, `isPending` and `startTransition` carry no modelled state and are left out.
- CreateFolderInput.FolderForm.Submit: assumes `addFolder` resolves, which the store always does. The thrown path is covered by `SubmitFinish(Threw)`.
- `URLSearchParams.toString()` is not modelled: no serialisation or percent-encoding. A location carries the ordered pair list itself.
- Text.ToLower: lowers ASCII letters only, not full Unicode case mapping.
- `Text.IsSpace` is the set `String.prototype.trim` removes: the ECMAScript WhiteSpace code points (TAB, VT, FF, SP, U+00A0, U+FEFF and every other Zs character) and the four LineTerminator code points.
- Header.ScrollState.HandleScroll: positions are reals. JavaScript number precision, NaN and the event listener's registration are left out.
- The built-in site table (`src/data/sites.ts`) is the `sites` parameter of `StaticSites` rather than its constant. `src/features/sites/types` is not part of this model; `StaticSites.Site` keeps the fields the functions read.
- SectionFilter's button label and `selectedType` lookup are rendering only and are left out.
