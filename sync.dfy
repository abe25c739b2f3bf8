/** What the autosaving editors share: the sync indicator, the outcomes of one
    save's file-system calls, and the folder an editor writes its named files into. */
module Sync {
  import opened Wrappers

  /** The sync indicator. The chat and note editors use the first four; the
      drawing editors use `Saved`, `Syncing`, `Error` and `Loading`. */
  datatype SyncStatus = Saved | Syncing | Unsaved | Error | Loading

  /** Whether each file-system call of one save succeeds, in the order the
      save makes them. A rename also fails when its source file is missing. */
  datatype SaveIo = SaveIo(mkdirOk: bool, renameOk: bool, writeOk: bool)

  /** The part of a chat or note editor that a save reads and changes: the
      title field (`fileNameRef`), the name the file has on disk
      (`originalFileNameRef`, "" before the first save), the indicator, the
      editor's folder keyed by name without extension, and the `file`
      URL parameter. */
  datatype EditorFiles<D> = EditorFiles(
    fileName: string,
    originalFileName: string,
    status: SyncStatus,
    files: map<string, D>,
    urlFile: Option<string>)

  /** A title change is pending on disk: the file already has a name and the
      title field now says something else. */
  predicate Renaming<D>(s: EditorFiles<D>) {
    s.originalFileName != "" && s.fileName != s.originalFileName
  }

  /** The folder after a successful rename of `from` to `to`: the content
      moves, a file already at `to` is replaced, nothing else changes. */
  function Moved<D>(files: map<string, D>, from: string, to: string): (r: map<string, D>)
    requires from in files
    ensures to in r && r[to] == files[from]
    ensures from != to ==> from !in r
    ensures forall k :: k != from && k != to ==> (k in r <==> k in files) && (k in r ==> r[k] == files[k])
  {
    (files - {from})[to := files[from]]
  }

  /** A rename onto the name the file already has changes nothing. */
  lemma MovedToSelf<D>(files: map<string, D>, name: string)
    requires name in files
    ensures Moved(files, name, name) == files
  {
  }

  /** Moving a file away and back restores the folder, when the intermediate
      name was free. */
  lemma MovedBack<D>(files: map<string, D>, from: string, to: string)
    requires from in files && to !in files
    ensures Moved(Moved(files, from, to), to, from) == files
  {
    var there := Moved(files, from, to);
    var back := Moved(there, to, from);
    assert forall k :: k in back <==> k in files;
  }
}
