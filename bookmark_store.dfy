/**
 * The bookmark store: the signed-in user's folders, bookmarks and the set of
 * saved website ids, with the save dialog's open flag and target website.
 *
 * Every remote call (folder and bookmark reads, inserts and deletes) is a
 * parameter carrying its outcome. An action that changes state before it
 * awaits a reply is split into a Begin method (the synchronous part up to the
 * await, returning what the rest of the action captured) and a Finish method
 * (the continuation once the reply is known).
 */
module BookmarkStore {
  import opened Wrappers
  import opened Seqs

  /** The signed-in user; the store only uses the id. */
  datatype User = User(id: string)

  /** A row of `bookmark_folders`, with the bookmark count the UI shows (`count?`). */
  datatype Folder = Folder(id: string, userId: string, name: string, createdAt: string, count: Option<int>)

  /** A row of `bookmarks`; its type discriminator is always `website` and is not stored here. */
  datatype Bookmark = Bookmark(id: string, userId: string, folderId: string, websiteId: string, createdAt: string)

  /** One element of the `bookmarks(count)` relation the folder read returns. */
  datatype CountRow = CountRow(count: int)

  /** A folder as the folder read returns it: the count relation may be absent. */
  datatype FolderRow = FolderRow(id: string, userId: string, name: string, createdAt: string,
                                 bookmarks: Option<seq<CountRow>>)

  /** The columns the database assigns to an inserted row. */
  datatype RowKey = RowKey(id: string, createdAt: string)

  /** The outcome of a remote call: an error, or success with the returned data (which may be null). */
  datatype Reply<T> = Failed | Succeeded(data: Option<T>)

  /** What `addBookmark` keeps across its insert: its arguments and the rollback snapshot. */
  datatype PendingAdd = PendingAdd(userId: string, folderId: string, websiteId: string,
                                   previousIds: set<string>, previousFolders: seq<Folder>)

  /** What the undo action of a saved bookmark captured. */
  datatype UndoAction = UndoAction(bookmarkId: string, websiteId: string, folderId: string)

  /** `f.count || 0`: an absent count reads as zero. */
  function CountOrZero(f: Folder): int {
    f.count.GetOr(0)
  }

  /** A fetched folder with its count flattened: the first count row, zero when the relation is absent. */
  function FolderFromRow(row: FolderRow): (f: Folder)
    ensures f.(count := None) == Folder(row.id, row.userId, row.name, row.createdAt, None)
    ensures row.bookmarks.None? ==> f.count == Some(0)
    ensures row.bookmarks.Some? && row.bookmarks.value != [] ==> f.count == Some(row.bookmarks.value[0].count)
    ensures row.bookmarks == Some([]) ==> f.count.None? && CountOrZero(f) == 0
  {
    var count := match row.bookmarks
      case None => Some(0)
      case Some(rows) => if rows != [] then Some(rows[0].count) else None;
    Folder(row.id, row.userId, row.name, row.createdAt, count)
  }

  /** `f.id === folderId ? { ...f, count: (f.count || 0) + delta } : f`. */
  function Bumped(f: Folder, folderId: string, delta: int): Folder {
    if f.id == folderId then f.(count := Some(CountOrZero(f) + delta)) else f
  }

  /** The folder list with `delta` added to the count of every folder whose id is `folderId`. */
  function WithCount(folders: seq<Folder>, folderId: string, delta: int): (r: seq<Folder>)
    ensures |r| == |folders|
    ensures forall i :: 0 <= i < |folders| ==> r[i].(count := folders[i].count) == folders[i]
    ensures forall i :: 0 <= i < |folders| && folders[i].id != folderId ==> r[i] == folders[i]
    ensures forall i :: 0 <= i < |folders| && folders[i].id == folderId ==>
              r[i].count == Some(CountOrZero(folders[i]) + delta)
  {
    seq(|folders|, i requires 0 <= i < |folders| => Bumped(folders[i], folderId, delta))
  }

  /** The folder list without the folders whose id is `folderId`. */
  function WithoutFolder(folders: seq<Folder>, folderId: string): (r: seq<Folder>)
    ensures IsSubsequence(r, folders)
    ensures forall i :: 0 <= i < |r| ==> r[i].id != folderId
    ensures forall f :: f in folders && f.id != folderId ==> f in r
  {
    if folders == [] then []
    else if folders[0].id == folderId then WithoutFolder(folders[1..], folderId)
    else
      var rest := WithoutFolder(folders[1..], folderId);
      assert ([folders[0]] + rest)[1..] == rest;
      [folders[0]] + rest
  }

  /** Removing a folder keeps every other folder as many times as the list holds it. */
  lemma {:induction false} WithoutFolderKeepsCounts(folders: seq<Folder>, folderId: string)
    ensures forall f: Folder :: f.id != folderId ==> multiset(WithoutFolder(folders, folderId))[f] == multiset(folders)[f]
  {
    if folders != [] {
      WithoutFolderKeepsCounts(folders[1..], folderId);
      assert folders == [folders[0]] + folders[1..];
      assert multiset(folders) == multiset([folders[0]]) + multiset(folders[1..]);
      if folders[0].id != folderId {
        assert WithoutFolder(folders, folderId) == [folders[0]] + WithoutFolder(folders[1..], folderId);
        assert multiset(WithoutFolder(folders, folderId))
               == multiset([folders[0]]) + multiset(WithoutFolder(folders[1..], folderId));
      }
    }
  }

  /** The ids of the websites the bookmarks point at (`new Set(bookmarks.map(b => b.website_id))`). */
  function WebsiteIds(bookmarks: seq<Bookmark>): (ids: set<string>)
    ensures forall w :: w in ids <==> exists b :: b in bookmarks && b.websiteId == w
  {
    if bookmarks == [] then {}
    else
      assert forall b :: b in bookmarks <==> b == bookmarks[0] || b in bookmarks[1..];
      {bookmarks[0].websiteId} + WebsiteIds(bookmarks[1..])
  }

  /** The guard of `addBookmark`: a user, a non-empty target website, not yet saved. */
  predicate CanAddBookmark(user: Option<User>, activeWebsiteId: Option<string>, ids: set<string>) {
    user.Some? && activeWebsiteId.Some? && activeWebsiteId.value != "" && activeWebsiteId.value !in ids
  }

  class Store {
    var user: Option<User>
    var folders: seq<Folder>
    var bookmarks: seq<Bookmark>
    var bookmarkedWebsiteIds: set<string>
    var isLoading: bool
    var isOpen: bool
    var activeWebsiteId: Option<string>

    /** The store as created: signed out, empty, closed, not loading. */
    constructor ()
      ensures user == None && folders == [] && bookmarks == [] && bookmarkedWebsiteIds == {}
      ensures !isLoading && !isOpen && activeWebsiteId == None
    {
      user := None;
      folders := [];
      bookmarks := [];
      bookmarkedWebsiteIds := {};
      isLoading := false;
      isOpen := false;
      activeWebsiteId := None;
    }

    /** `setUser`: replaces the user and nothing else. */
    method SetUser(u: Option<User>)
      modifies this`user
      ensures user == u
    {
      user := u;
    }

    /**
     * `setOpen(open, websiteId)`; an omitted `websiteId` is passed as None, so
     * closing the dialog this way also clears the target. Opening it while
     * signed in starts a folder refresh, whose reply arrives through
     * FetchFoldersFinish; `refreshing` says whether one was started.
     */
    method SetOpen(open: bool, websiteId: Option<string>) returns (refreshing: bool)
      modifies this`isOpen, this`activeWebsiteId, this`isLoading
      ensures isOpen == open && activeWebsiteId == websiteId
      ensures refreshing <==> open && user.Some?
      ensures isLoading == (refreshing || old(isLoading))
    {
      isOpen := open;
      activeWebsiteId := websiteId;
      refreshing := false;
      if open && user.Some? {
        refreshing := FetchFoldersBegin();
      }
    }

    /** The part of `fetchFolders` before its read: nothing without a user, else loading. */
    method FetchFoldersBegin() returns (started: bool)
      modifies this`isLoading
      ensures started <==> user.Some?
      ensures isLoading == (started || old(isLoading))
    {
      started := user.Some?;
      if started {
        isLoading := true;
      }
    }

    /**
     * The rest of `fetchFolders` once the read replied. An error keeps the
     * folders and clears the flag; rows replace the folders, each with its count
     * flattened. A success without data fails at the `map`, so nothing changes.
     */
    method FetchFoldersFinish(reply: Reply<seq<FolderRow>>)
      modifies this`folders, this`isLoading
      ensures reply.Failed? ==> folders == old(folders) && !isLoading
      ensures reply == Succeeded(None) ==> folders == old(folders) && isLoading == old(isLoading)
      ensures reply.Succeeded? && reply.data.Some? ==>
                && !isLoading
                && |folders| == |reply.data.value|
                && forall i :: 0 <= i < |folders| ==> folders[i] == FolderFromRow(reply.data.value[i])
    {
      match reply
      case Failed =>
        isLoading := false;
      case Succeeded(None) =>
      case Succeeded(Some(rows)) =>
        folders := seq(|rows|, i requires 0 <= i < |rows| => FolderFromRow(rows[i]));
        isLoading := false;
    }

    /** `fetchFolders` run to completion with the given reply. */
    method FetchFolders(reply: Reply<seq<FolderRow>>)
      modifies this`folders, this`isLoading
      ensures user.None? ==> folders == old(folders) && isLoading == old(isLoading)
      ensures user.Some? && reply.Failed? ==> folders == old(folders) && !isLoading
      ensures user.Some? && reply.Succeeded? && reply.data.Some? ==>
                && !isLoading
                && |folders| == |reply.data.value|
                && forall i :: 0 <= i < |folders| ==> folders[i] == FolderFromRow(reply.data.value[i])
      ensures user.Some? && reply == Succeeded(None) ==> folders == old(folders) && isLoading
    {
      var started := FetchFoldersBegin();
      if started {
        FetchFoldersFinish(reply);
      }
    }

    /**
     * `fetchBookmarks`: with a user and a successful read, the bookmarks become
     * the rows read (none for null data) and the id set exactly their website ids.
     */
    method FetchBookmarks(reply: Reply<seq<Bookmark>>)
      modifies this`bookmarks, this`bookmarkedWebsiteIds
      ensures user.None? || reply.Failed? ==>
                bookmarks == old(bookmarks) && bookmarkedWebsiteIds == old(bookmarkedWebsiteIds)
      ensures user.Some? && reply.Succeeded? ==>
                && bookmarks == reply.data.GetOr([])
                && forall w :: w in bookmarkedWebsiteIds <==> exists b :: b in bookmarks && b.websiteId == w
    {
      if user.None? {
        return;
      }
      match reply
      case Failed =>
      case Succeeded(data) =>
        bookmarks := data.GetOr([]);
        bookmarkedWebsiteIds := WebsiteIds(bookmarks);
    }

    /**
     * `addFolder(name)`: inserts a folder for the user; the name is sent as given.
     * On success the new folder, with count zero, goes to the front of the list
     * and the inserted row is returned; otherwise nothing changes and None is returned.
     */
    method AddFolder(name: string, reply: Reply<RowKey>) returns (created: Option<Folder>)
      modifies this`folders
      ensures user.None? || !reply.Succeeded? || reply.data.None? ==>
                created.None? && folders == old(folders)
      ensures user.Some? && reply.Succeeded? && reply.data.Some? ==>
                && created == Some(Folder(reply.data.value.id, user.value.id, name, reply.data.value.createdAt, None))
                && folders == [created.value.(count := Some(0))] + old(folders)
    {
      created := None;
      if user.None? {
        return;
      }
      match reply
      case Failed =>
      case Succeeded(None) =>
      case Succeeded(Some(key)) =>
        var row := Folder(key.id, user.value.id, name, key.createdAt, None);
        folders := [row.(count := Some(0))] + folders;
        created := Some(row);
    }

    /**
     * The synchronous part of `addBookmark(folderId)`: the guard, then the
     * optimistic update, which saves the target website, raises the folder's
     * count and closes the dialog (keeping the target). A refused call changes
     * nothing and returns None; otherwise the captured state is returned.
     */
    method AddBookmarkBegin(folderId: string) returns (pending: Option<PendingAdd>)
      modifies this`bookmarkedWebsiteIds, this`folders, this`isOpen
      ensures pending.Some? <==> old(CanAddBookmark(user, activeWebsiteId, bookmarkedWebsiteIds))
      ensures pending.None? ==>
                && bookmarkedWebsiteIds == old(bookmarkedWebsiteIds)
                && folders == old(folders) && isOpen == old(isOpen)
      ensures pending.Some? ==>
                && pending.value == PendingAdd(user.value.id, folderId, activeWebsiteId.value,
                                               old(bookmarkedWebsiteIds), old(folders))
                && bookmarkedWebsiteIds == old(bookmarkedWebsiteIds) + {activeWebsiteId.value}
                && folders == WithCount(old(folders), folderId, 1)
                && !isOpen
    {
      if !CanAddBookmark(user, activeWebsiteId, bookmarkedWebsiteIds) {
        return None;
      }
      var websiteId := activeWebsiteId.value;
      pending := Some(PendingAdd(user.value.id, folderId, websiteId, bookmarkedWebsiteIds, folders));
      bookmarkedWebsiteIds := bookmarkedWebsiteIds + {websiteId};
      folders := WithCount(folders, folderId, 1);
      isOpen := false;
    }

    /**
     * The rest of `addBookmark` once the insert replied. An error restores the
     * snapshot of the id set and folders and reopens the dialog. An inserted row
     * is appended to the bookmarks and an undo action for it is returned.
     */
    method AddBookmarkFinish(p: PendingAdd, reply: Reply<RowKey>) returns (undo: Option<UndoAction>)
      modifies this`bookmarkedWebsiteIds, this`folders, this`isOpen, this`bookmarks
      ensures reply.Failed? ==>
                && bookmarkedWebsiteIds == p.previousIds && folders == p.previousFolders && isOpen
                && bookmarks == old(bookmarks) && undo.None?
      ensures reply == Succeeded(None) ==>
                && bookmarkedWebsiteIds == old(bookmarkedWebsiteIds) && folders == old(folders)
                && isOpen == old(isOpen) && bookmarks == old(bookmarks) && undo.None?
      ensures reply.Succeeded? && reply.data.Some? ==>
                && bookmarkedWebsiteIds == old(bookmarkedWebsiteIds) && folders == old(folders)
                && isOpen == old(isOpen)
                && bookmarks == old(bookmarks) + [Bookmark(reply.data.value.id, p.userId, p.folderId,
                                                           p.websiteId, reply.data.value.createdAt)]
                && undo == Some(UndoAction(reply.data.value.id, p.websiteId, p.folderId))
    {
      undo := None;
      match reply
      case Failed =>
        bookmarkedWebsiteIds := p.previousIds;
        isOpen := true;
        folders := p.previousFolders;
      case Succeeded(None) =>
      case Succeeded(Some(key)) =>
        bookmarks := bookmarks + [Bookmark(key.id, p.userId, p.folderId, p.websiteId, key.createdAt)];
        undo := Some(UndoAction(key.id, p.websiteId, p.folderId));
    }

    /**
     * The undo action, once the remote delete of the bookmark replied: on
     * success the website leaves the id set and the folder's count goes down by
     * one; the bookmark list is not touched. On failure nothing changes.
     */
    method Undo(u: UndoAction, ok: bool)
      modifies this`bookmarkedWebsiteIds, this`folders
      ensures ok ==> bookmarkedWebsiteIds == old(bookmarkedWebsiteIds) - {u.websiteId}
      ensures ok ==> folders == WithCount(old(folders), u.folderId, -1)
      ensures !ok ==> bookmarkedWebsiteIds == old(bookmarkedWebsiteIds) && folders == old(folders)
    {
      if ok {
        bookmarkedWebsiteIds := bookmarkedWebsiteIds - {u.websiteId};
        folders := WithCount(folders, u.folderId, -1);
      }
    }

    /** `addBookmark(folderId)` run to completion with the given insert reply. */
    method AddBookmark(folderId: string, reply: Reply<RowKey>) returns (undo: Option<UndoAction>)
      modifies this`bookmarkedWebsiteIds, this`folders, this`isOpen, this`bookmarks
      ensures !old(CanAddBookmark(user, activeWebsiteId, bookmarkedWebsiteIds)) ==>
                && bookmarkedWebsiteIds == old(bookmarkedWebsiteIds) && folders == old(folders)
                && isOpen == old(isOpen) && bookmarks == old(bookmarks) && undo.None?
      ensures old(CanAddBookmark(user, activeWebsiteId, bookmarkedWebsiteIds)) && reply.Failed? ==>
                && bookmarkedWebsiteIds == old(bookmarkedWebsiteIds) && folders == old(folders)
                && isOpen && bookmarks == old(bookmarks) && undo.None?
      ensures old(CanAddBookmark(user, activeWebsiteId, bookmarkedWebsiteIds)) && reply.Succeeded? ==>
                && bookmarkedWebsiteIds == old(bookmarkedWebsiteIds) + {activeWebsiteId.value}
                && folders == WithCount(old(folders), folderId, 1)
                && !isOpen
                && (reply.data.None? ==> bookmarks == old(bookmarks) && undo.None?)
                && (reply.data.Some? ==>
                      && |bookmarks| == |old(bookmarks)| + 1 && bookmarks[..|old(bookmarks)|] == old(bookmarks)
                      && bookmarks[|old(bookmarks)|].websiteId == activeWebsiteId.value
                      && bookmarks[|old(bookmarks)|].folderId == folderId
                      && bookmarks == old(bookmarks) + [Bookmark(reply.data.value.id, user.value.id, folderId,
                                                                 activeWebsiteId.value, reply.data.value.createdAt)]
                      && undo == Some(UndoAction(reply.data.value.id, activeWebsiteId.value, folderId)))
    {
      var pending := AddBookmarkBegin(folderId);
      undo := None;
      if pending.Some? {
        undo := AddBookmarkFinish(pending.value, reply);
      }
    }

    /**
     * The synchronous part of `deleteFolder(folderId)`: nothing without a user;
     * otherwise the folder list is snapshotted and the folder removed from it.
     */
    method DeleteFolderBegin(folderId: string) returns (snapshot: Option<seq<Folder>>)
      modifies this`folders
      ensures snapshot.Some? <==> user.Some?
      ensures snapshot.None? ==> folders == old(folders)
      ensures snapshot.Some? ==> snapshot.value == old(folders) && folders == WithoutFolder(old(folders), folderId)
    {
      if user.None? {
        return None;
      }
      snapshot := Some(folders);
      folders := WithoutFolder(folders, folderId);
    }

    /** The rest of `deleteFolder` once the delete replied: a failure restores the snapshot. */
    method DeleteFolderFinish(snapshot: seq<Folder>, ok: bool)
      modifies this`folders
      ensures folders == if ok then old(folders) else snapshot
    {
      if !ok {
        folders := snapshot;
      }
    }

    /** `deleteFolder(folderId)` run to completion with the given delete outcome. */
    method DeleteFolder(folderId: string, ok: bool)
      modifies this`folders
      ensures folders == if user.Some? && ok then WithoutFolder(old(folders), folderId) else old(folders)
    {
      var snapshot := DeleteFolderBegin(folderId);
      if snapshot.Some? {
        DeleteFolderFinish(snapshot.value, ok);
      }
    }

    /** `isBookmarked(websiteId)`: membership in the id set. */
    function IsBookmarked(websiteId: string): (saved: bool)
      reads this`bookmarkedWebsiteIds
      ensures saved <==> websiteId in bookmarkedWebsiteIds
    {
      websiteId in bookmarkedWebsiteIds
    }
  }
}
