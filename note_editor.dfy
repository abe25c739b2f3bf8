/** The note editor (`/notes/active`): a rich-text note kept in
    `InkCaliber/notes/<title>.json`, saved one second after the last change.
    Unlike the chat editor, a rename that fails for any reason other than a
    name collision is ignored and the note is still written. */
module NoteEditor {
  import opened Wrappers
  import opened Strings
  import opened Sync

  /** The editor's JSON document, as the rich-text editor hands it out,
      with whether the editor reports it as empty. */
  datatype Doc = Doc(json: string, empty: bool)

  /** The steps of `saveNote` that a successful rename needs all went through. */
  predicate RenameDone(s: EditorFiles<Doc>, io: SaveIo) {
    !IsBlank(s.fileName) && io.mkdirOk && Renaming(s) && s.fileName !in s.files
    && io.renameOk && s.originalFileName in s.files
  }

  /** What `saveNote(doc)` leaves behind. */
  function SaveNoteStep(s: EditorFiles<Doc>, doc: Doc, io: SaveIo): (r: EditorFiles<Doc>)
    ensures IsBlank(s.fileName) ==> r == s
    ensures r.fileName == s.fileName
    ensures !IsBlank(s.fileName) ==> r.status == Saved || r.status == Error
    // a title that names another existing note: nothing renamed, nothing written
    ensures !IsBlank(s.fileName) && io.mkdirOk && Renaming(s) && s.fileName in s.files ==> r == s.(status := Error)
    ensures !IsBlank(s.fileName) ==>
              (r.status == Saved <==> io.mkdirOk && io.writeOk && !(Renaming(s) && s.fileName in s.files))
    // the written note lands under the title, whether the rename worked or not
    ensures !IsBlank(s.fileName) && r.status == Saved ==> s.fileName in r.files && r.files[s.fileName] == doc
    ensures RenameDone(s, io) ==> r.originalFileName == s.fileName && r.urlFile == Some(s.fileName) && s.originalFileName !in r.files
    // a failed rename is swallowed: the old file and the old binding stay
    ensures !IsBlank(s.fileName) && io.mkdirOk && Renaming(s) && s.fileName !in s.files && !RenameDone(s, io) ==>
              r.originalFileName == s.originalFileName && r.urlFile == s.urlFile
              && (s.originalFileName in s.files ==> s.originalFileName in r.files && r.files[s.originalFileName] == s.files[s.originalFileName])
    ensures !IsBlank(s.fileName) && r.status == Saved && s.originalFileName == "" ==>
              r.originalFileName == s.fileName && r.urlFile == Some(s.fileName)
    // no other file is touched
    ensures forall k :: k != s.fileName && k != s.originalFileName ==>
              (k in r.files <==> k in s.files) && (k in r.files ==> r.files[k] == s.files[k])
  {
    if IsBlank(s.fileName) then s
    else if !io.mkdirOk then s.(status := Error)
    else if Renaming(s) && s.fileName in s.files then s.(status := Error)
    else
      var afterRename :=
        if Renaming(s) && io.renameOk && s.originalFileName in s.files then
          s.(files := Moved(s.files, s.originalFileName, s.fileName), originalFileName := s.fileName, urlFile := Some(s.fileName))
        else s;
      if !io.writeOk then afterRename.(status := Error)
      else
        var written := afterRename.(files := afterRename.files[s.fileName := doc], status := Saved);
        if s.originalFileName == "" then written.(originalFileName := s.fileName, urlFile := Some(s.fileName)) else written
  }

  /** After a rename that failed and was swallowed, the note exists under both
      names and the editor still believes it is to be renamed; every later
      save then stops at the collision check, reports an error and writes
      nothing. */
  lemma FailedRenameThenStuck(s: EditorFiles<Doc>, doc: Doc, later: Doc, io: SaveIo)
    requires !IsBlank(s.fileName) && Renaming(s)
    requires s.originalFileName in s.files && s.fileName !in s.files
    requires io.mkdirOk
    ensures var first := SaveNoteStep(s, doc, SaveIo(true, false, true));
            first.status == Saved && s.originalFileName in first.files && s.fileName in first.files
            && SaveNoteStep(first, later, io) == first.(status := Error)
  {
  }

  /** The note editor: its title field, the note's name on disk, the
      indicator, the notes folder, the pending save and the editor's document. */
  class NoteEditor {
    var fileName: string
    var originalFileName: string
    var status: SyncStatus
    var files: map<string, Doc>
    var urlFile: Option<string>
    /** The debounced save waiting to fire, with the document it will write. */
    var pending: Option<Doc>
    var editorDoc: Doc

    function Files(): EditorFiles<Doc>
      reads this
    {
      EditorFiles(fileName, originalFileName, status, files, urlFile)
    }

    constructor (initialFile: Option<string>, files: map<string, Doc>)
      ensures fileName == initialFile.GetOr("") && originalFileName == initialFile.GetOr("")
      ensures status == Saved && this.files == files && urlFile == initialFile && pending == None
      ensures editorDoc == Doc("", true)
    {
      fileName := initialFile.GetOr("");
      originalFileName := initialFile.GetOr("");
      status := Saved;
      this.files := files;
      urlFile := initialFile;
      pending := None;
      editorDoc := Doc("", true);
    }

    /** `loadNote`: the stored note replaces the document only while the
        editor is still empty, so a load never overwrites typing. */
    method LoadNote(name: string)
      modifies this`editorDoc
      ensures editorDoc == if name in files && old(editorDoc).empty then files[name] else old(editorDoc)
    {
      if name in files {
        var json := files[name];
        if editorDoc.empty {
          editorDoc := json;
        }
      }
    }

    method SaveNote(doc: Doc, io: SaveIo)
      modifies this`originalFileName, this`status, this`files, this`urlFile
      ensures Files() == SaveNoteStep(old(Files()), doc, io)
    {
      var currentFileName := fileName;
      var currentOriginalName := originalFileName;
      if IsBlank(currentFileName) {
        return;
      }
      status := Syncing;
      if !io.mkdirOk {
        status := Error;
        return;
      }
      if currentOriginalName != "" && currentFileName != currentOriginalName {
        if currentFileName in files {
          status := Error;
          return;
        }
        TryRename(currentOriginalName, currentFileName, io.renameOk);
      }
      if !io.writeOk {
        status := Error;
        return;
      }
      files := files[currentFileName := doc];
      status := Saved;
      if currentOriginalName == "" {
        originalFileName := currentFileName;
        urlFile := Some(currentFileName);
      }
    }

    /** The inner `try` around the rename: a failure leaves everything as it was. */
    method TryRename(from: string, to: string, renameOk: bool)
      modifies this`originalFileName, this`files, this`urlFile
      ensures renameOk && from in old(files) ==>
                files == Moved(old(files), from, to) && originalFileName == to && urlFile == Some(to)
      ensures !(renameOk && from in old(files)) ==>
                files == old(files) && originalFileName == old(originalFileName) && urlFile == old(urlFile)
    {
      if renameOk && from in files {
        files := Moved(files, from, to);
        originalFileName := to;
        urlFile := Some(to);
      }
    }

    /** `debouncedSave(doc)`: cancels the pending save and schedules a new one. */
    method DebouncedSave(doc: Doc)
      modifies this`pending
      ensures pending == Some(doc)
    {
      if pending.Some? {
        pending := None;
      }
      pending := Some(doc);
    }

    method FireSave(io: SaveIo)
      requires pending.Some?
      modifies this`originalFileName, this`status, this`files, this`urlFile, this`pending
      ensures pending == None
      ensures Files() == SaveNoteStep(old(Files()), old(pending).value, io)
    {
      var doc := pending.value;
      pending := None;
      SaveNote(doc, io);
    }

    /** The editor's `onUpdate`: every edit marks the note unsaved and
        reschedules the save with the new document. */
    method OnUpdate(doc: Doc)
      modifies this`editorDoc, this`status, this`pending
      ensures editorDoc == doc && status == Unsaved && pending == Some(doc)
    {
      editorDoc := doc;
      status := Unsaved;
      DebouncedSave(doc);
    }

    method HandleTitleChange(newTitle: string)
      modifies this`fileName, this`status, this`pending
      ensures fileName == newTitle && status == Unsaved && pending == Some(editorDoc)
    {
      fileName := newTitle;
      status := Unsaved;
      DebouncedSave(editorDoc);
    }
  }
}
