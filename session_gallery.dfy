/** The session gallery (`/`): the drawing sessions, one folder each under
    `InkCaliber`, and their trash twins under `InkCaliber/.trash`. */
module SessionGallery {
  import opened Wrappers
  import opened Strings
  import opened Library
  import DrawingEditor

  /** One session folder: its files by name. */
  type Folder = map<string, DrawingEditor.SessionFile>

  const TrashFailedAlert: string := "Error moving to trash."
  const RestoreFailedAlert: string := "Restore failed. A folder with this name might already exist."
  const WipeFailedAlert: string := "Could not complete permanent deletion."
  const RenameFailedAlert: string := "Rename failed."

  /** The folder after `remove` of each listed name in turn, and whether all
      of them went through. A `remove` fails for a name that is missing or
      in `failing`, and the first failure ends the loop. */
  function RemoveEach(folder: Folder, names: seq<string>, failing: set<string>): (r: (Folder, bool))
    ensures r.0.Keys <= folder.Keys
    ensures forall k :: k in r.0 ==> r.0[k] == folder[k]
    ensures forall k :: k in folder && k !in names ==> k in r.0
    ensures r.1 ==> forall k :: k in names ==> k !in r.0
    ensures r.1 ==> forall k :: k in names ==> k !in failing
  {
    if names == [] then (folder, true)
    else if names[0] !in folder || names[0] in failing then (folder, false)
    else RemoveEach(folder - {names[0]}, names[1..], failing)
  }

  /** A listing of every entry of the folder, each once, with no `remove`
      failing, empties it. */
  lemma {:induction false} FullListingEmpties(folder: Folder, names: seq<string>, failing: set<string>)
    requires forall k :: k in folder <==> k in names
    requires forall i, j :: 0 <= i < j < |names| ==> names[i] != names[j]
    requires forall k :: k in names ==> k !in failing
    ensures RemoveEach(folder, names, failing) == (map[], true)
  {
    if names != [] {
      var rest := folder - {names[0]};
      forall k
        ensures k in rest <==> k in names[1..]
      {
        if k in names[1..] {
          var j :| 0 <= j < |names[1..]| && names[1..][j] == k;
          assert names[j + 1] == k;
        }
      }
      FullListingEmpties(rest, names[1..], failing);
    } else {
      assert folder.Keys == {};
    }
  }

  /** `handlePermanentDelete` once confirmed: the trashed folder is read
      (`listing`, `None` when `readDir` fails, as it does for a missing
      folder), its files removed one by one, and the folder itself removed,
      which fails unless it is empty. Gives the new trash and whether every
      step went through. */
  function Wipe(trash: map<string, Folder>, name: string, listing: Option<seq<string>>, failing: set<string>, folderRemoveOk: bool): (r: (map<string, Folder>, bool))
    ensures r.1 <==> name in trash && listing.Some? && RemoveEach(trash[name], listing.value, failing) == (map[], true) && folderRemoveOk
    ensures r.1 ==> r.0 == trash - {name}
    ensures !r.1 && name in trash && listing.Some? ==> r.0 == trash[name := RemoveEach(trash[name], listing.value, failing).0]
    ensures name !in trash || listing.None? ==> r.0 == trash
  {
    if name !in trash || listing.None? then (trash, false)
    else
      var (left, ok) := RemoveEach(trash[name], listing.value, failing);
      if ok && left == map[] && folderRemoveOk then (trash - {name}, true)
      else (trash[name := left], false)
  }

  /** Wiping a trashed folder whose listing is complete and whose removals
      all succeed takes it out of the trash and leaves the rest as it was. */
  lemma WipeCompleteListing(trash: map<string, Folder>, name: string, names: seq<string>)
    requires name in trash
    requires forall k :: k in trash[name] <==> k in names
    requires forall i, j :: 0 <= i < j < |names| ==> names[i] != names[j]
    ensures Wipe(trash, name, Some(names), {}, true) == (trash - {name}, true)
  {
    FullListingEmpties(trash[name], names, {});
  }

  class SessionGallery {
    /** `InkCaliber`'s session folders and `InkCaliber/.trash`'s, by name. */
    var root: map<string, Folder>
    var trash: map<string, Folder>
    var sessions: seq<Listed>
    var trashSessions: seq<Listed>
    var alert: Option<string>

    constructor (root: map<string, Folder>, trash: map<string, Folder>)
      ensures this.root == root && this.trash == trash
      ensures sessions == [] && trashSessions == [] && alert == None
    {
      this.root := root;
      this.trash := trash;
      sessions := [];
      trashSessions := [];
      alert := None;
    }

    /** `loadSessions`, given what `readDir` returns for `InkCaliber` and for
        its trash (`None` when it fails). A failure keeps the lists shown
        until then; the trash is read only after `InkCaliber` was. */
    method LoadSessions(rootListing: Option<seq<DirEntry>>, trashListing: Option<seq<DirEntry>>)
      modifies this`sessions, this`trashSessions
      ensures rootListing.None? ==> sessions == old(sessions) && trashSessions == old(trashSessions)
      ensures rootListing.Some? ==> sessions == ListSessions(rootListing.value)
      ensures rootListing.Some? && trashListing.Some? ==> trashSessions == ListSessions(trashListing.value)
      ensures trashListing.None? ==> trashSessions == old(trashSessions)
    {
      if rootListing.None? {
        return;
      }
      sessions := ListSessions(rootListing.value);
      if trashListing.None? {
        return;
      }
      trashSessions := ListSessions(trashListing.value);
    }

    /** `handleMoveToTrash`; returns whether the page reloads its lists. */
    method HandleMoveToTrash(name: string, renameOk: bool) returns (reload: bool)
      modifies this`root, this`trash, this`alert
      ensures var r := ToTrash(Folders(old(root), old(trash)), name, renameOk);
              reload == r.Some?
              && (r.Some? ==> root == r.value.active && trash == r.value.trash && alert == old(alert))
              && (r.None? ==> root == old(root) && trash == old(trash) && alert == Some(TrashFailedAlert))
    {
      var r := ToTrash(Folders(root, trash), name, renameOk);
      if r.None? {
        alert := Some(TrashFailedAlert);
        return false;
      }
      root := r.value.active;
      trash := r.value.trash;
      return true;
    }

    /** `handleRestore`; returns whether the page reloads its lists. */
    method HandleRestore(name: string, renameOk: bool) returns (reload: bool)
      modifies this`root, this`trash, this`alert
      ensures var r := FromTrash(Folders(old(root), old(trash)), name, renameOk);
              reload == r.Some?
              && (r.Some? ==> root == r.value.active && trash == r.value.trash && alert == old(alert))
              && (r.None? ==> root == old(root) && trash == old(trash) && alert == Some(RestoreFailedAlert))
    {
      var r := FromTrash(Folders(root, trash), name, renameOk);
      if r.None? {
        alert := Some(RestoreFailedAlert);
        return false;
      }
      root := r.value.active;
      trash := r.value.trash;
      return true;
    }

    /** `handlePermanentDelete`: nothing without confirmation; otherwise the
        folder's files are removed one by one and then the folder. A failure
        part-way keeps what was already removed. */
    method HandlePermanentDelete(name: string, confirmed: bool, listing: Option<seq<string>>, failing: set<string>, folderRemoveOk: bool)
      returns (reload: bool)
      modifies this`trash, this`alert
      ensures !confirmed ==> trash == old(trash) && alert == old(alert) && !reload
      ensures confirmed ==>
                var (after, ok) := Wipe(old(trash), name, listing, failing, folderRemoveOk);
                trash == after && reload == ok
                && alert == if ok then old(alert) else Some(WipeFailedAlert)
    {
      if !confirmed {
        return false;
      }
      if name !in trash || listing.None? {
        alert := Some(WipeFailedAlert);
        return false;
      }
      var removedAll := RemoveEntries(name, listing.value, failing);
      if !removedAll || trash[name] != map[] || !folderRemoveOk {
        alert := Some(WipeFailedAlert);
        return false;
      }
      trash := trash - {name};
      return true;
    }

    /** The loop of `handlePermanentDelete`: `remove` of each listed file of
        the trashed folder `name`, stopping at the first failure. */
    method RemoveEntries(name: string, entries: seq<string>, failing: set<string>) returns (ok: bool)
      requires name in trash
      modifies this`trash
      ensures var (left, all) := RemoveEach(old(trash)[name], entries, failing);
              ok == all && trash == old(trash)[name := left]
    {
      var i := 0;
      while i < |entries|
        invariant 0 <= i <= |entries|
        invariant name in trash
        invariant trash == old(trash)[name := trash[name]]
        invariant RemoveEach(trash[name], entries[i..], failing) == RemoveEach(old(trash)[name], entries, failing)
      {
        var entry := entries[i];
        if entry !in trash[name] || entry in failing {
          return false;
        }
        assert entries[i..][1..] == entries[i + 1..];
        trash := trash[name := trash[name] - {entry}];
        i := i + 1;
      }
      assert entries[i..] == [];
      return true;
    }

    /** `handleRename`: a blank name is ignored; otherwise the folder is
        renamed to the trimmed name with no collision check. Returns whether
        the dialog closes (the lists are then reloaded). */
    method HandleRename(oldName: string, newName: string, renameOk: bool) returns (closed: bool)
      modifies this`root, this`alert
      ensures IsBlank(newName) ==> root == old(root) && alert == old(alert) && !closed
      ensures !IsBlank(newName) ==>
                var r := PlainRename(old(root), oldName, Trim(newName), renameOk);
                closed == r.Some?
                && (r.Some? ==> root == r.value && alert == old(alert))
                && (r.None? ==> root == old(root) && alert == Some(RenameFailedAlert))
    {
      TrimEmptyIffBlank(newName);
      var t := Trim(newName);
      if t == "" {
        return false;
      }
      var r := PlainRename(root, oldName, t, renameOk);
      if r.None? {
        alert := Some(RenameFailedAlert);
        return false;
      }
      root := r.value;
      return true;
    }
  }
}
