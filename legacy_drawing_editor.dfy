/** The drawing editor of the older desktop app: each drawing is one file
    `InkCaliber/<name>.excalidraw`. It fingerprints geometry as well as
    versions, shows `Syncing` as soon as a change is seen, saves one second
    after the last change, and names a new drawing only after the folder
    exists. */
module LegacyDrawingEditor {
  import opened Wrappers
  import opened Strings
  import opened Sync
  import opened Scene
  import DrawingEditor

  /** Delay of the autosave timer, in milliseconds. */
  const SaveDelayMs: nat := 1000

  /** The file name a new drawing gets, given the current time as an ISO string. */
  function DrawingName(iso: string): (r: string)
    ensures StartsWith(r, "drawing-session-") && EndsWith(r, ".excalidraw")
    ensures |r| == 16 + |iso| + 11
    ensures forall i :: 0 <= i < |iso| ==> r[16 + i] == if iso[i] == ':' || iso[i] == '.' then '-' else iso[i]
    ensures forall i :: 0 <= i < |r| ==> r[i] != ':' && (r[i] == '.' ==> i == |r| - 11)
  {
    var r := "drawing-session-" + DrawingEditor.TimestampSlug(iso) + ".excalidraw";
    assert r[|r| - 11..] == ".excalidraw";
    r
  }

  /** Whether the folder creation and the write of one save succeed. */
  datatype LegacyIo = LegacyIo(mkdirOk: bool, writeOk: bool)

  /** The part of the editor a save changes: the file reference, the indicator
      and `InkCaliber`, by file name. */
  datatype LegacySession = LegacySession(sessionFile: Option<string>, status: SyncStatus, files: map<string, Scene>)

  /** What `saveToSessionFile(scene)` leaves behind. */
  function LegacySaveStep(s: LegacySession, scene: Scene, now: string, io: LegacyIo): (r: LegacySession)
    ensures r.status == Saved <==> io.mkdirOk && io.writeOk
    ensures r.status == Saved || r.status == Error
    // the reference is bound only once the folder exists, and only when unbound
    ensures !io.mkdirOk ==> r == s.(status := Error)
    ensures io.mkdirOk && DrawingEditor.Unbound(s.sessionFile) ==> r.sessionFile == Some(DrawingName(now))
    ensures !DrawingEditor.Unbound(s.sessionFile) ==> r.sessionFile == s.sessionFile
    ensures r.status == Saved ==> r.sessionFile.value in r.files && r.files[r.sessionFile.value] == scene
    ensures r.status == Error ==> r.files == s.files
    ensures r.sessionFile.Some? ==>
              forall k :: k != r.sessionFile.value ==> (k in r.files <==> k in s.files) && (k in r.files ==> r.files[k] == s.files[k])
  {
    if !io.mkdirOk then s.(status := Error)
    else
      var name := if DrawingEditor.Unbound(s.sessionFile) then DrawingName(now) else s.sessionFile.value;
      if !io.writeOk then s.(sessionFile := Some(name), status := Error)
      else s.(sessionFile := Some(name), files := s.files[name := scene], status := Saved)
  }

  /** A drawing is named once: after the first save that got past the folder
      creation, later saves write the same file. */
  lemma NamedOnce(s: LegacySession, a: Scene, b: Scene, t1: string, t2: string, io2: LegacyIo)
    requires DrawingEditor.Unbound(s.sessionFile)
    ensures var first := LegacySaveStep(s, a, t1, LegacyIo(true, false));
            first.sessionFile == Some(DrawingName(t1))
            && LegacySaveStep(first, b, t2, io2).sessionFile == Some(DrawingName(t1))
  {
    assert DrawingName(t1)[0] == 'd';
  }

  /** The autosave state: the loaded flag, the last fingerprint (`None`
      before any), the pending save and the indicator. */
  datatype LegacyAutoSave = LegacyAutoSave(isLoaded: bool, last: Option<seq<LegacyStamp>>, pending: Option<Scene>, status: SyncStatus)

  /** What `handleAutoSave(elements, appState)` leaves behind. */
  function LegacyAutoSaveStep(a: LegacyAutoSave, elements: seq<Element>, appState: AppState): (r: LegacyAutoSave)
    ensures r.isLoaded == a.isLoaded
    ensures !a.isLoaded || a.last == Some(LegacyFingerprint(elements)) ==> r == a
    ensures a.isLoaded ==> r.last == Some(LegacyFingerprint(elements))
    // a seen change shows `Syncing` at once, before the timer fires
    ensures a.isLoaded && a.last != Some(LegacyFingerprint(elements)) ==>
              r.status == Syncing && r.pending == Some(Scene(elements, appState))
  {
    if !a.isLoaded then a
    else
      var fp := LegacyFingerprint(elements);
      if a.last == Some(fp) then a
      else a.(last := Some(fp), status := Syncing, pending := Some(Scene(elements, appState)))
  }

  /** Moving one element without a version bump schedules a save here and
      nothing in the drawing editor, both starting from a loaded scene. */
  lemma MoveSavedOnlyByLegacy(els: seq<Element>, i: nat, dx: real, app: AppState, status: SyncStatus)
    requires i < |els| && dx != 0.0
    ensures var moved := els[i := els[i].(x := els[i].x + dx)];
            var drawing := DrawingEditor.AutoSave(true, Some(Fingerprint(els)), None);
            var legacy := LegacyAutoSave(true, Some(LegacyFingerprint(els)), None, status);
            DrawingEditor.AutoSaveStep(drawing, moved, app, DrawingEditor.MainBranch) == drawing
            && LegacyAutoSaveStep(legacy, moved, app).pending == Some(Scene(moved, app))
            && LegacyAutoSaveStep(legacy, moved, app).status == Syncing
  {
    MoveOnlyTripsLegacy(els, i, dx);
  }

  /** After a failed load the fingerprint is still unset, so the first
      change report, even of an empty canvas, schedules a save that will
      overwrite the file that could not be read. */
  lemma FailedLoadThenFirstReportSaves(elements: seq<Element>, app: AppState)
    ensures LegacyAutoSaveStep(LegacyAutoSave(true, None, None, Error), elements, app).pending == Some(Scene(elements, app))
  {
  }

  /** The legacy drawing editor. `initialFile` is the URL's `file`
      parameter and `theme` the stored theme at mount. */
  class LegacyDrawingEditor {
    const theme: string
    const initialFile: Option<string>
    var canvas: Scene
    var sessionFile: Option<string>
    var status: SyncStatus
    var files: map<string, Scene>
    var isLoaded: bool
    var lastFingerprint: Option<seq<LegacyStamp>>
    var pending: Option<Scene>

    function SessionState(): LegacySession
      reads this
    {
      LegacySession(sessionFile, status, files)
    }

    function AutoState(): LegacyAutoSave
      reads this
    {
      LegacyAutoSave(isLoaded, lastFingerprint, pending, status)
    }

    constructor (theme: string, initialFile: Option<string>, files: map<string, Scene>)
      ensures this.theme == theme && this.initialFile == initialFile && this.files == files
      ensures sessionFile == initialFile && status == Saved
      ensures !isLoaded && lastFingerprint == None && pending == None
      ensures canvas == Scene([], AppState(theme, ""))
    {
      this.theme := theme;
      this.initialFile := initialFile;
      canvas := Scene([], AppState(theme, ""));
      sessionFile := initialFile;
      status := Saved;
      this.files := files;
      isLoaded := false;
      lastFingerprint := None;
      pending := None;
    }

    /** `loadInitialData`: a missing or `new` file loads nothing; a file that
        cannot be read leaves the canvas and shows `Error`. */
    method LoadInitialData()
      modifies this`canvas, this`lastFingerprint, this`isLoaded, this`status
      ensures isLoaded
      ensures DrawingEditor.Unbound(initialFile) ==>
                canvas == old(canvas) && lastFingerprint == old(lastFingerprint) && status == old(status)
      ensures !DrawingEditor.Unbound(initialFile) && initialFile.value in files ==>
                canvas == Scene(files[initialFile.value].elements, files[initialFile.value].appState.(theme := theme))
                && lastFingerprint == Some(LegacyFingerprint(files[initialFile.value].elements))
                && status == Saved
      ensures !DrawingEditor.Unbound(initialFile) && initialFile.value !in files ==>
                canvas == old(canvas) && lastFingerprint == old(lastFingerprint) && status == Error
    {
      if initialFile.None? || initialFile.value == "" || initialFile.value == "new" {
        isLoaded := true;
        return;
      }
      status := Loading;
      var name := initialFile.value;
      if name !in files {
        status := Error;
        isLoaded := true;
        return;
      }
      var data := files[name];
      canvas := Scene(data.elements, data.appState.(theme := theme));
      lastFingerprint := Some(LegacyFingerprint(data.elements));
      isLoaded := true;
      status := Saved;
    }

    method SaveToSessionFile(scene: Scene, now: string, io: LegacyIo)
      modifies this`sessionFile, this`status, this`files
      ensures SessionState() == LegacySaveStep(old(SessionState()), scene, now, io)
    {
      status := Syncing;
      if !io.mkdirOk {
        status := Error;
        return;
      }
      if sessionFile.None? || sessionFile.value == "" || sessionFile.value == "new" {
        sessionFile := Some(DrawingName(now));
      }
      if !io.writeOk {
        status := Error;
        return;
      }
      files := files[sessionFile.value := scene];
      status := Saved;
    }

    /** `handleAutoSave`. */
    method HandleAutoSave(elements: seq<Element>, appState: AppState)
      modifies this`lastFingerprint, this`status, this`pending
      ensures AutoState() == LegacyAutoSaveStep(old(AutoState()), elements, appState)
    {
      if !isLoaded {
        return;
      }
      var currentFingerprint := LegacyFingerprint(elements);
      if Some(currentFingerprint) == lastFingerprint {
        return;
      }
      lastFingerprint := Some(currentFingerprint);
      status := Syncing;
      if pending.Some? {
        pending := None;
      }
      pending := Some(Scene(elements, appState));
    }

    /** The pending timer fires: the scene it carries is written. */
    method FireSave(now: string, io: LegacyIo)
      requires pending.Some?
      modifies this`sessionFile, this`status, this`files, this`pending
      ensures pending == None
      ensures SessionState() == LegacySaveStep(old(SessionState()), old(pending).value, now, io)
    {
      var scene := pending.value;
      pending := None;
      SaveToSessionFile(scene, now, io);
    }
  }
}
