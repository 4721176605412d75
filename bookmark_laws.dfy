/**
 * Laws of the bookmark store: what the optimistic updates, their rollbacks and
 * the undo action add up to, and the scenarios the store is designed around.
 */
module BookmarkLaws {
  import opened Wrappers
  import opened BookmarkStore

  /**
   * Raising a folder's count and lowering it again restores every count as the
   * UI reads it (absent as zero) and leaves everything else alone; the list is
   * restored exactly when every folder concerned had a count to begin with.
   */
  lemma RaiseThenLowerRestoresCounts(folders: seq<Folder>, folderId: string)
    ensures var back := WithCount(WithCount(folders, folderId, 1), folderId, -1);
      && |back| == |folders|
      && (forall i :: 0 <= i < |folders| ==>
            CountOrZero(back[i]) == CountOrZero(folders[i]) && back[i].(count := folders[i].count) == folders[i])
      && ((forall i :: 0 <= i < |folders| && folders[i].id == folderId ==> folders[i].count.Some?) <==>
            back == folders)
  {
    var up := WithCount(folders, folderId, 1);
    var back := WithCount(up, folderId, -1);
    forall i | 0 <= i < |folders|
      ensures CountOrZero(back[i]) == CountOrZero(folders[i])
      ensures back[i].(count := folders[i].count) == folders[i]
    {
      assert up[i].(count := folders[i].count) == folders[i];
      assert back[i].(count := up[i].count) == up[i];
    }
    if forall i :: 0 <= i < |folders| && folders[i].id == folderId ==> folders[i].count.Some? {
      forall i | 0 <= i < |folders| ensures back[i] == folders[i] {
        assert back[i].(count := folders[i].count) == folders[i];
      }
    }
    if back == folders {
      forall i | 0 <= i < |folders| && folders[i].id == folderId ensures folders[i].count.Some? {
        assert up[i].id == folderId;
        assert back[i].count.Some?;
      }
    }
  }

  /** An absent count does not come back: raising and lowering leaves an explicit zero. */
  lemma RaiseThenLowerMaterialisesCount(folders: seq<Folder>, folderId: string, i: int)
    requires 0 <= i < |folders| && folders[i].id == folderId && folders[i].count.None?
    ensures WithCount(WithCount(folders, folderId, 1), folderId, -1)[i] == folders[i].(count := Some(0))
  {
    var up := WithCount(folders, folderId, 1);
    assert up[i].count == Some(1) && up[i].(count := None) == folders[i];
  }

  /** Removing a folder distributes over concatenation: the rest keep their order. */
  lemma {:induction false} WithoutFolderConcat(a: seq<Folder>, b: seq<Folder>, folderId: string)
    ensures WithoutFolder(a + b, folderId) == WithoutFolder(a, folderId) + WithoutFolder(b, folderId)
  {
    if a == [] {
      assert a + b == b;
    } else {
      assert (a + b)[1..] == a[1..] + b;
      WithoutFolderConcat(a[1..], b, folderId);
    }
  }

  /** Removing a folder nobody has leaves the list as it is. */
  lemma {:induction false} WithoutAbsentFolder(folders: seq<Folder>, folderId: string)
    requires forall i :: 0 <= i < |folders| ==> folders[i].id != folderId
    ensures WithoutFolder(folders, folderId) == folders
  {
    if folders != [] {
      WithoutAbsentFolder(folders[1..], folderId);
    }
  }

  /**
   * A save followed at once by a successful undo: the id set is as before, every
   * count reads as before, the dialog is closed, and nothing else changes except
   * the bookmark list: the inserted bookmark stays at its end although its
   * website is no longer in the id set.
   */
  method AddThenUndo(s: Store, folderId: string, key: RowKey)
    requires CanAddBookmark(s.user, s.activeWebsiteId, s.bookmarkedWebsiteIds)
    modifies s
    ensures s.bookmarkedWebsiteIds == old(s.bookmarkedWebsiteIds)
    ensures |s.folders| == |old(s.folders)|
    ensures forall i :: 0 <= i < |s.folders| ==>
              CountOrZero(s.folders[i]) == CountOrZero(old(s.folders)[i])
              && s.folders[i].(count := old(s.folders)[i].count) == old(s.folders)[i]
    ensures !s.isOpen
    ensures s.user == old(s.user) && s.activeWebsiteId == old(s.activeWebsiteId) && s.isLoading == old(s.isLoading)
    ensures s.bookmarks == old(s.bookmarks) + [Bookmark(key.id, old(s.user).value.id, folderId,
                                                        old(s.activeWebsiteId).value, key.createdAt)]
    ensures |s.bookmarks| == |old(s.bookmarks)| + 1 && s.bookmarks[..|old(s.bookmarks)|] == old(s.bookmarks)
    ensures s.bookmarks[|old(s.bookmarks)|].websiteId == old(s.activeWebsiteId).value
    ensures s.bookmarks[|old(s.bookmarks)|].websiteId !in s.bookmarkedWebsiteIds
  {
    var undo := s.AddBookmark(folderId, Succeeded(Some(key)));
    s.Undo(undo.value, true);
    RaiseThenLowerRestoresCounts(old(s.folders), folderId);
  }

  /**
   * No folders, create "Inspiration" (one folder, count zero), save website
   * "w1" into it (saved, count one), then undo (unsaved, count zero).
   */
  method SaveAndUndoScenario() returns (created: Option<Folder>, foldersAfterCreate: nat, countAfterCreate: int,
                                         savedAfterAdd: bool, countAfterAdd: int,
                                         savedAfterUndo: bool, countAfterUndo: int)
    ensures created.Some? && created.value.name == "Inspiration"
    ensures foldersAfterCreate == 1 && countAfterCreate == 0
    ensures savedAfterAdd && countAfterAdd == 1
    ensures !savedAfterUndo && countAfterUndo == 0
  {
    var s := new Store();
    s.SetUser(Some(User("u1")));
    created := s.AddFolder("Inspiration", Succeeded(Some(RowKey("f1", "t0"))));
    assert s.folders == [Folder("f1", "u1", "Inspiration", "t0", Some(0))];
    foldersAfterCreate := |s.folders|;
    countAfterCreate := CountOrZero(s.folders[0]);
    var refreshing := s.SetOpen(true, Some("w1"));
    assert CanAddBookmark(s.user, s.activeWebsiteId, s.bookmarkedWebsiteIds);
    var undo := s.AddBookmark("f1", Succeeded(Some(RowKey("b1", "t1"))));
    assert s.folders[0].count == Some(1) && undo == Some(UndoAction("b1", "w1", "f1"));
    savedAfterAdd := s.IsBookmarked("w1");
    countAfterAdd := CountOrZero(s.folders[0]);
    s.Undo(undo.value, true);
    savedAfterUndo := s.IsBookmarked("w1");
    countAfterUndo := CountOrZero(s.folders[0]);
  }

  /** A save whose insert fails: the website is not saved and the dialog is open again. */
  method FailedSaveScenario() returns (saved: bool, open: bool, count: int)
    ensures !saved && open && count == 0
  {
    var s := new Store();
    s.SetUser(Some(User("u1")));
    var created := s.AddFolder("Inspiration", Succeeded(Some(RowKey("f1", "t0"))));
    var refreshing := s.SetOpen(true, Some("w1"));
    var undo := s.AddBookmark("f1", Failed);
    saved := s.IsBookmarked("w1");
    open := s.isOpen;
    count := CountOrZero(s.folders[0]);
  }

  /**
   * Two saves of the target website while the first insert is pending: the
   * second is refused and changes nothing, so only one insert is ever issued
   * and the state is the one the first save left.
   */
  method DoubleSubmit(s: Store, folderId: string) returns (first: Option<PendingAdd>, second: Option<PendingAdd>)
    requires CanAddBookmark(s.user, s.activeWebsiteId, s.bookmarkedWebsiteIds)
    modifies s
    ensures first.Some? && second.None?
    ensures s.bookmarkedWebsiteIds == old(s.bookmarkedWebsiteIds) + {old(s.activeWebsiteId).value}
    ensures s.folders == WithCount(old(s.folders), folderId, 1)
    ensures !s.isOpen
    ensures s.user == old(s.user) && s.bookmarks == old(s.bookmarks) && s.isLoading == old(s.isLoading)
    ensures s.activeWebsiteId == old(s.activeWebsiteId)
  {
    first := s.AddBookmarkBegin(folderId);
    second := s.AddBookmarkBegin(folderId);
  }
}
