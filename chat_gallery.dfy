/** The chat gallery (`/chat/<provider>`): the chats of one provider in
    `InkCaliber/chat/<provider>` and its trash twin
    `InkCaliber/.trash/chat/<provider>`, keyed by file name (`<title>.json`). */
module ChatGallery {
  import opened Wrappers
  import opened Strings
  import opened Library
  import opened ChatEditor

  const CreateFailedAlert: string := "Failed to create new chat"
  const TrashFailedAlert: string := "Error moving to trash."
  const RestoreFailedAlert: string := "Restore failed. A chat with this name might already exist."
  const DeleteFailedAlert: string := "Error deleting chat."
  const NameTakenAlert: string := "A chat with this name already exists."
  const RenameFailedAlert: string := "Rename failed."

  /** The record `handleCreateNewChat` writes for a new chat. */
  function NewChat(title: string, now: string): (r: ChatData)
    ensures r.title == title && r.systemPrompt == "default" && r.messages == []
    ensures r.createdAt == now && r.updatedAt == now
  {
    ChatData(title, "default", [], now, now)
  }

  class ChatGallery {
    const provider: string
    var active: map<string, ChatData>
    var trash: map<string, ChatData>
    var chats: seq<Listed>
    var trashChats: seq<Listed>
    /** The last alert shown. */
    var alert: Option<string>
    /** The `file` parameter of the chat editor the page navigated to. */
    var openedFile: Option<string>

    constructor (provider: string, active: map<string, ChatData>, trash: map<string, ChatData>)
      ensures this.provider == provider && this.active == active && this.trash == trash
      ensures chats == [] && trashChats == [] && alert == None && openedFile == None
    {
      this.provider := provider;
      this.active := active;
      this.trash := trash;
      chats := [];
      trashChats := [];
      alert := None;
      openedFile := None;
    }

    /** `loadChats`, given what `readDir` returns for each folder (`None`
        when it fails): a folder that cannot be read shows empty. */
    method LoadChats(activeListing: Option<seq<DirEntry>>, trashListing: Option<seq<DirEntry>>)
      modifies this`chats, this`trashChats
      ensures chats == if activeListing.Some? then ListByExtension(activeListing.value, JsonExt) else []
      ensures trashChats == if trashListing.Some? then ListByExtension(trashListing.value, JsonExt) else []
    {
      if activeListing.Some? {
        chats := ListByExtension(activeListing.value, JsonExt);
      } else {
        chats := [];
      }
      if trashListing.Some? {
        trashChats := ListByExtension(trashListing.value, JsonExt);
      } else {
        trashChats := [];
      }
    }

    /** `handleCreateNewChat`, given the outcome of `mkdir`, the names
        `readDir` returns (`None` when it fails) and the outcome of the write.
        The new chat's number is one more than the largest listed one, so
        its file is not among the listed names. */
    method HandleCreateNewChat(mkdirOk: bool, listing: Option<seq<string>>, now: string, writeOk: bool)
      modifies this`active, this`alert, this`openedFile
      ensures !mkdirOk || listing.None? ==> active == old(active) && openedFile == old(openedFile) && alert == Some(CreateFailedAlert)
      ensures mkdirOk && listing.Some? ==>
                var title := NextUntitledTitle(ChatScheme, listing.value);
                (writeOk ==> active == old(active)[title + JsonExt := NewChat(title, now)] && openedFile == Some(title) && alert == old(alert))
                && (!writeOk ==> active == old(active) && openedFile == old(openedFile) && alert == Some(CreateFailedAlert))
    {
      if !mkdirOk || listing.None? {
        alert := Some(CreateFailedAlert);
        return;
      }
      var nextNum := NextUntitledNumber(ChatScheme, listing.value);
      var newName := UntitledTitle(ChatScheme, nextNum);
      assert newName == NextUntitledTitle(ChatScheme, listing.value);
      if !writeOk {
        alert := Some(CreateFailedAlert);
        return;
      }
      active := active[newName + JsonExt := NewChat(newName, now)];
      openedFile := Some(newName);
    }

    /** `handleMoveToTrash`; returns whether the page reloads its lists. */
    method HandleMoveToTrash(name: string, renameOk: bool) returns (reload: bool)
      modifies this`active, this`trash, this`alert
      ensures var r := ToTrash(Folders(old(active), old(trash)), name, renameOk);
              reload == r.Some?
              && (r.Some? ==> active == r.value.active && trash == r.value.trash && alert == old(alert))
              && (r.None? ==> active == old(active) && trash == old(trash) && alert == Some(TrashFailedAlert))
    {
      var r := ToTrash(Folders(active, trash), name, renameOk);
      if r.None? {
        alert := Some(TrashFailedAlert);
        return false;
      }
      active := r.value.active;
      trash := r.value.trash;
      return true;
    }

    /** `handleRestore`; returns whether the page reloads its lists. */
    method HandleRestore(name: string, renameOk: bool) returns (reload: bool)
      modifies this`active, this`trash, this`alert
      ensures var r := FromTrash(Folders(old(active), old(trash)), name, renameOk);
              reload == r.Some?
              && (r.Some? ==> active == r.value.active && trash == r.value.trash && alert == old(alert))
              && (r.None? ==> active == old(active) && trash == old(trash) && alert == Some(RestoreFailedAlert))
    {
      var r := FromTrash(Folders(active, trash), name, renameOk);
      if r.None? {
        alert := Some(RestoreFailedAlert);
        return false;
      }
      active := r.value.active;
      trash := r.value.trash;
      return true;
    }

    /** `handlePermanentDelete`: nothing without confirmation; otherwise the
        trashed chat is removed. */
    method HandlePermanentDelete(name: string, confirmed: bool, removeOk: bool) returns (reload: bool)
      modifies this`trash, this`alert
      ensures !confirmed ==> trash == old(trash) && alert == old(alert) && !reload
      ensures confirmed ==>
                var r := DeleteForever(Folders(active, old(trash)), name, removeOk);
                reload == r.Some?
                && (r.Some? ==> trash == r.value.trash && alert == old(alert))
                && (r.None? ==> trash == old(trash) && alert == Some(DeleteFailedAlert))
    {
      if !confirmed {
        return false;
      }
      var r := DeleteForever(Folders(active, trash), name, removeOk);
      if r.None? {
        alert := Some(DeleteFailedAlert);
        return false;
      }
      trash := r.value.trash;
      return true;
    }

    /** `handleRename` of the chat `oldName` to the typed `newName`; returns
        whether the dialog closes and whether the page reloads its lists. */
    method HandleRename(oldName: string, newName: string, renameOk: bool) returns (closed: bool, reload: bool)
      modifies this`active, this`alert
      ensures var r := GuardedRename(old(active), oldName, newName, JsonExt, renameOk);
              active == r.files
              && (closed <==> r.result == SameName || r.result == Done)
              && (reload <==> r.result == Done)
              && alert == match r.result
                          case Exists => Some(NameTakenAlert)
                          case RenameFailed => Some(RenameFailedAlert)
                          case _ => old(alert)
    {
      var r := GuardedRename(active, oldName, newName, JsonExt, renameOk);
      active := r.files;
      closed := r.result == SameName || r.result == Done;
      reload := r.result == Done;
      if r.result == Exists {
        alert := Some(NameTakenAlert);
      } else if r.result == RenameFailed {
        alert := Some(RenameFailedAlert);
      }
    }
  }
}
