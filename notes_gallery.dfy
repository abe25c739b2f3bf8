/** The notes gallery (`/notes`): the notes in `InkCaliber/notes` and its
    trash twin `InkCaliber/.trash/notes`, keyed by file name (`<title>.json`). */
module NotesGallery {
  import opened Wrappers
  import opened Strings
  import opened Library
  import opened NoteEditor

  const CreateFailedAlert: string := "Failed to create new note"
  const TrashFailedAlert: string := "Error moving to trash."
  const RestoreFailedAlert: string := "Restore failed. A note with this name might already exist."
  const DeleteFailedAlert: string := "Error deleting note."
  const NameTakenAlert: string := "A note with this name already exists."
  const RenameFailedAlert: string := "Rename failed."

  /** The document `handleCreateNewNote` writes for a new note: an empty
      rich-text document. */
  const EmptyNoteJson: string := "{\"type\":\"doc\",\"content\":[]}"

  function EmptyNote(): (r: Doc)
    ensures r.json == EmptyNoteJson && r.empty
  {
    Doc(EmptyNoteJson, true)
  }

  class NotesGallery {
    var active: map<string, Doc>
    var trash: map<string, Doc>
    var notes: seq<Listed>
    var trashNotes: seq<Listed>
    /** The last alert shown. */
    var alert: Option<string>
    /** The `file` parameter of the note editor the page navigated to. */
    var openedFile: Option<string>

    constructor (active: map<string, Doc>, trash: map<string, Doc>)
      ensures this.active == active && this.trash == trash
      ensures notes == [] && trashNotes == [] && alert == None && openedFile == None
    {
      this.active := active;
      this.trash := trash;
      notes := [];
      trashNotes := [];
      alert := None;
      openedFile := None;
    }

    /** `loadNotes`, given what `readDir` returns for each folder (`None`
        when it fails): a folder that cannot be read shows empty. */
    method LoadNotes(activeListing: Option<seq<DirEntry>>, trashListing: Option<seq<DirEntry>>)
      modifies this`notes, this`trashNotes
      ensures notes == if activeListing.Some? then ListByExtension(activeListing.value, JsonExt) else []
      ensures trashNotes == if trashListing.Some? then ListByExtension(trashListing.value, JsonExt) else []
    {
      if activeListing.Some? {
        notes := ListByExtension(activeListing.value, JsonExt);
      } else {
        notes := [];
      }
      if trashListing.Some? {
        trashNotes := ListByExtension(trashListing.value, JsonExt);
      } else {
        trashNotes := [];
      }
    }

    /** `handleCreateNewNote`, given the outcome of `mkdir`, the names
        `readDir` returns (`None` when it fails) and the outcome of the write.
        The new note's number is one more than the largest listed one, so
        its file is not among the listed names. */
    method HandleCreateNewNote(mkdirOk: bool, listing: Option<seq<string>>, writeOk: bool)
      modifies this`active, this`alert, this`openedFile
      ensures !mkdirOk || listing.None? ==> active == old(active) && openedFile == old(openedFile) && alert == Some(CreateFailedAlert)
      ensures mkdirOk && listing.Some? ==>
                var title := NextUntitledTitle(NoteScheme, listing.value);
                (writeOk ==> active == old(active)[title + JsonExt := EmptyNote()] && openedFile == Some(title) && alert == old(alert))
                && (!writeOk ==> active == old(active) && openedFile == old(openedFile) && alert == Some(CreateFailedAlert))
    {
      if !mkdirOk || listing.None? {
        alert := Some(CreateFailedAlert);
        return;
      }
      var nextNum := NextUntitledNumber(NoteScheme, listing.value);
      var newName := UntitledTitle(NoteScheme, nextNum);
      assert newName == NextUntitledTitle(NoteScheme, listing.value);
      if !writeOk {
        alert := Some(CreateFailedAlert);
        return;
      }
      active := active[newName + JsonExt := EmptyNote()];
      openedFile := Some(newName);
    }

    /** `handleMoveToTrash`; returns whether the page reloads its lists. */
    method HandleMoveToTrash(name: string, renameOk: bool) returns (reload: bool)
      modifies this`active, this`trash, this`alert
      ensures var r := ToTrash(Folders(old(active), old(trash)), name, renameOk);
              reload == r.Some?
              && (r.Some? ==> active == r.value.active && trash == r.value.trash && alert == old(alert))
              && (r.None? ==> active == old(active) && trash == old(trash) && alert == Some(TrashFailedAlert))
    {
      var r := ToTrash(Folders(active, trash), name, renameOk);
      if r.None? {
        alert := Some(TrashFailedAlert);
        return false;
      }
      active := r.value.active;
      trash := r.value.trash;
      return true;
    }

    /** `handleRestore`; returns whether the page reloads its lists. */
    method HandleRestore(name: string, renameOk: bool) returns (reload: bool)
      modifies this`active, this`trash, this`alert
      ensures var r := FromTrash(Folders(old(active), old(trash)), name, renameOk);
              reload == r.Some?
              && (r.Some? ==> active == r.value.active && trash == r.value.trash && alert == old(alert))
              && (r.None? ==> active == old(active) && trash == old(trash) && alert == Some(RestoreFailedAlert))
    {
      var r := FromTrash(Folders(active, trash), name, renameOk);
      if r.None? {
        alert := Some(RestoreFailedAlert);
        return false;
      }
      active := r.value.active;
      trash := r.value.trash;
      return true;
    }

    /** `handlePermanentDelete`: nothing without confirmation; otherwise the
        trashed note is removed. */
    method HandlePermanentDelete(name: string, confirmed: bool, removeOk: bool) returns (reload: bool)
      modifies this`trash, this`alert
      ensures !confirmed ==> trash == old(trash) && alert == old(alert) && !reload
      ensures confirmed ==>
                var r := DeleteForever(Folders(active, old(trash)), name, removeOk);
                reload == r.Some?
                && (r.Some? ==> trash == r.value.trash && alert == old(alert))
                && (r.None? ==> trash == old(trash) && alert == Some(DeleteFailedAlert))
    {
      if !confirmed {
        return false;
      }
      var r := DeleteForever(Folders(active, trash), name, removeOk);
      if r.None? {
        alert := Some(DeleteFailedAlert);
        return false;
      }
      trash := r.value.trash;
      return true;
    }

    /** `handleRename` of the note `oldName` to the typed `newName`; returns
        whether the dialog closes and whether the page reloads its lists. */
    method HandleRename(oldName: string, newName: string, renameOk: bool) returns (closed: bool, reload: bool)
      modifies this`active, this`alert
      ensures var r := GuardedRename(old(active), oldName, newName, JsonExt, renameOk);
              active == r.files
              && (closed <==> r.result == SameName || r.result == Done)
              && (reload <==> r.result == Done)
              && alert == match r.result
                          case Exists => Some(NameTakenAlert)
                          case RenameFailed => Some(RenameFailedAlert)
                          case _ => old(alert)
    {
      var r := GuardedRename(active, oldName, newName, JsonExt, renameOk);
      active := r.files;
      closed := r.result == SameName || r.result == Done;
      reload := r.result == Done;
      if r.result == Exists {
        alert := Some(NameTakenAlert);
      } else if r.result == RenameFailed {
        alert := Some(RenameFailedAlert);
      }
    }
  }
}
