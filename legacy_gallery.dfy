/** The gallery of the older desktop app (`/`): the `.excalidraw` files
    directly in `InkCaliber`, with no trash. */
module LegacyGallery {
  import opened Wrappers
  import opened Strings
  import opened Scene
  import opened Library

  const SceneExt: string := ".excalidraw"
  const DeleteFailedAlert: string := "Error deleting file."
  const RenameFailedAlert: string := "Could not rename file. Name might already exist."

  /** The shown list without the entries called `name`, in order. */
  function DropName(xs: seq<Listed>, name: string): (r: seq<Listed>)
    ensures |r| <= |xs|
    ensures forall l :: l in r <==> l in xs && l.name != name
  {
    if xs == [] then []
    else (if xs[0].name == name then [] else [xs[0]]) + DropName(xs[1..], name)
  }

  /** Dropping from a concatenation drops from each part, so the entries kept
      stay in their order. */
  lemma {:induction false} DropNameAppend(a: seq<Listed>, b: seq<Listed>, name: string)
    ensures DropName(a + b, name) == DropName(a, name) + DropName(b, name)
    decreases |a|
  {
    if a != [] {
      assert (a + b)[1..] == a[1..] + b;
      DropNameAppend(a[1..], b, name);
    } else {
      assert a + b == b;
    }
  }

  /** One entry is dropped exactly when it has the name. */
  lemma DropNameSingle(x: Listed, name: string)
    ensures DropName([x], name) == if x.name == name then [] else [x]
  {
  }

  /** Every entry with another name is kept as often as it was listed, and
      none with the name is kept. */
  lemma {:induction false} DropNameCounts(xs: seq<Listed>, name: string)
    ensures forall l :: multiset(DropName(xs, name))[l] == if l.name == name then 0 else multiset(xs)[l]
    decreases |xs|
  {
    if xs != [] {
      DropNameCounts(xs[1..], name);
      assert xs == [xs[0]] + xs[1..];
    }
  }

  class LegacyGallery {
    /** The drawings in `InkCaliber`, by file name. */
    var files: map<string, Scene>
    var listed: seq<Listed>
    var alert: Option<string>

    constructor (files: map<string, Scene>)
      ensures this.files == files && listed == [] && alert == None
    {
      this.files := files;
      listed := [];
      alert := None;
    }

    /** `loadFiles`, given what `readDir` returns (`None` when it fails).
        Any failure, including one `stat`, keeps the list shown until then. */
    method LoadFiles(listing: Option<seq<DirEntry>>)
      modifies this`listed
      ensures listing.None? || ListAllOrNothing(listing.value, SceneExt).None? ==> listed == old(listed)
      ensures listing.Some? && ListAllOrNothing(listing.value, SceneExt).Some? ==>
                listed == ListByExtension(listing.value, SceneExt)
    {
      if listing.None? {
        return;
      }
      var r := ListAllOrNothing(listing.value, SceneExt);
      if r.Some? {
        listed := r.value;
      }
    }

    /** `handleDelete`: nothing without confirmation; a successful `remove`
        (which fails for a missing file) drops the file from the shown list
        without reloading it. */
    method HandleDelete(fileName: string, confirmed: bool, removeOk: bool)
      modifies this`files, this`listed, this`alert
      ensures !confirmed ==> files == old(files) && listed == old(listed) && alert == old(alert)
      ensures confirmed && removeOk && fileName in old(files) ==>
                files == old(files) - {fileName} && listed == DropName(old(listed), fileName) && alert == old(alert)
      ensures confirmed && !(removeOk && fileName in old(files)) ==>
                files == old(files) && listed == old(listed) && alert == Some(DeleteFailedAlert)
    {
      if !confirmed {
        return;
      }
      if !removeOk || fileName !in files {
        alert := Some(DeleteFailedAlert);
        return;
      }
      files := files - {fileName};
      listed := DropName(listed, fileName);
    }

    /** `handleRename`: a blank name is ignored; otherwise the file is renamed
        to the trimmed name with `.excalidraw` appended when missing, with no
        collision check. Returns whether the dialog closes (the list is then
        reloaded). */
    method HandleRename(oldName: string, newName: string, renameOk: bool) returns (closed: bool)
      modifies this`files, this`alert
      ensures IsBlank(newName) ==> files == old(files) && alert == old(alert) && !closed
      ensures !IsBlank(newName) ==>
                var r := PlainRename(old(files), oldName, NormalizeRename(newName, SceneExt).value, renameOk);
                closed == r.Some?
                && (r.Some? ==> files == r.value && alert == old(alert))
                && (r.None? ==> files == old(files) && alert == Some(RenameFailedAlert))
    {
      var target := NormalizeRename(newName, SceneExt);
      if target.None? {
        return false;
      }
      var r := PlainRename(files, oldName, target.value, renameOk);
      if r.None? {
        alert := Some(RenameFailedAlert);
        return false;
      }
      files := r.value;
      return true;
    }
  }
}
