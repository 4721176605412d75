/**
 * The new-folder form of the bookmark dialog: the typed name, trimmed, is
 * handed to the store's `addFolder`; a blank name is never submitted, and the
 * form shows a creation in progress until the call settles.
 */
module CreateFolderInput {
  import opened Wrappers
  import opened Text
  import BookmarkStore

  /** How the awaited `addFolder` call settled: resolved (with a folder or null), or thrown. */
  datatype Settled = Resolved | Threw

  class FolderForm {
    var name: string
    var isCreating: bool

    constructor ()
      ensures name == "" && !isCreating
    {
      name := "";
      isCreating := false;
    }

    /** The input's `onChange`. */
    method SetName(n: string)
      modifies this`name
      ensures name == n
    {
      name := n;
    }

    /** The submit button is disabled while the name is blank or a creation is in progress. */
    function SubmitDisabled(): (disabled: bool)
      reads this
      ensures disabled <==> IsBlank(name) || isCreating
    {
      Trim(name) == "" || isCreating
    }

    /**
     * The part of `handleSubmit` before the await: a blank name does nothing;
     * otherwise the form is creating and the trimmed name is what `addFolder`
     * receives.
     */
    method SubmitBegin() returns (request: Option<string>)
      modifies this`isCreating
      ensures request.None? <==> IsBlank(name)
      ensures request.None? ==> isCreating == old(isCreating)
      ensures request.Some? ==> request.value == Trim(name) && !IsBlank(request.value) && isCreating
    {
      var trimmed := Trim(name);
      if trimmed == "" {
        return None;
      }
      assert !IsSpace(trimmed[0]);
      isCreating := true;
      request := Some(trimmed);
    }

    /** The rest of `handleSubmit`: a resolved call clears the name; in every case creation ends. */
    method SubmitFinish(settled: Settled)
      modifies this`name, this`isCreating
      ensures !isCreating
      ensures name == if settled == Resolved then "" else old(name)
    {
      if settled == Resolved {
        name := "";
      }
      isCreating := false;
    }

    /**
     * `handleSubmit` against the store, whose `addFolder` always resolves: a
     * blank name never reaches the store; otherwise the store is asked for the
     * trimmed name and the name is cleared, whatever the store replied.
     */
    method Submit(store: BookmarkStore.Store, reply: BookmarkStore.Reply<BookmarkStore.RowKey>)
      returns (created: Option<BookmarkStore.Folder>)
      modifies this`name, this`isCreating, store`folders
      ensures old(IsBlank(name)) ==>
                && created.None? && store.folders == old(store.folders)
                && name == old(name) && isCreating == old(isCreating)
      ensures !old(IsBlank(name)) ==> name == "" && !isCreating
      ensures created.Some? ==>
                && created.value.name == old(Trim(name)) && !IsBlank(created.value.name)
                && store.folders == [created.value.(count := Some(0))] + old(store.folders)
      ensures created.None? ==> store.folders == old(store.folders)
      ensures created.Some? <==> !old(IsBlank(name)) && store.user.Some? && reply.Succeeded? && reply.data.Some?
      ensures created.Some? ==>
                created.value == BookmarkStore.Folder(reply.data.value.id, store.user.value.id, old(Trim(name)),
                                                      reply.data.value.createdAt, None)
    {
      var request := SubmitBegin();
      created := None;
      if request.None? {
        return;
      }
      created := store.AddFolder(request.value, reply);
      SubmitFinish(Resolved);
    }
  }
}
