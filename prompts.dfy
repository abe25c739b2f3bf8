/** The system-prompt list of the chat feature (the prompt-management page):
    loading with defaults, edit by id, append, delete by id and set a single
    default. Every change rewrites `InkCaliber/system-prompts/prompts.json`. */
module Prompts {
  import opened Wrappers
  import opened Strings

  datatype SystemPrompt = SystemPrompt(id: string, name: string, content: string, isDefault: bool)

  /** `prompts.json` as a read finds it: missing (or unreadable), not JSON,
      or a JSON object whose `prompts` field may be absent. */
  datatype PromptsFile = Missing | Unparsable | Parsed(prompts: Option<seq<SystemPrompt>>)

  /** The defaults the prompt-management page installs. */
  const ManagerDefaults: seq<SystemPrompt> := [
    SystemPrompt("default", "Default Assistant", "You are a helpful AI assistant.", true),
    SystemPrompt("brainstorm", "Brainstorming Partner", "You are a creative brainstorming partner.", false)
  ]

  /** What a load shows, and what it writes back (only when it fell back to the defaults). */
  datatype Loaded = Loaded(prompts: seq<SystemPrompt>, writeBack: Option<seq<SystemPrompt>>)

  /** The list a load shows: the file's `prompts` (or `[]` when the field is
      absent) when it parses, else `defaults`, which are then written back. */
  function LoadPrompts(file: PromptsFile, defaults: seq<SystemPrompt>): (r: Loaded)
    ensures file.Parsed? ==> r.writeBack == None && r.prompts == file.prompts.GetOr([])
    ensures !file.Parsed? ==> r.prompts == defaults && r.writeBack == Some(defaults)
    ensures r.writeBack.Some? ==> r.writeBack.value == r.prompts
  {
    if file.Parsed? then Loaded(file.prompts.GetOr([]), None) else Loaded(defaults, Some(defaults))
  }

  /** Of the page's defaults exactly one is the default, `default`, listed first. */
  lemma ManagerDefaultsShape()
    ensures |ManagerDefaults| == 2
    ensures ManagerDefaults[0].id == "default" && ManagerDefaults[0].isDefault
    ensures ManagerDefaults[1].id == "brainstorm" && !ManagerDefaults[1].isDefault
    ensures CountDefaults(ManagerDefaults) == 1
  {
  }

  // ---------------------------------------------------------------------
  // The list operations
  // ---------------------------------------------------------------------

  /** `handleSavePrompt` on an existing prompt: every entry with the edited
      id gets the form's name and content. */
  function EditPrompt(ps: seq<SystemPrompt>, id: string, name: string, content: string): (r: seq<SystemPrompt>)
    ensures |r| == |ps|
    ensures forall i :: 0 <= i < |ps| ==> r[i].id == ps[i].id && r[i].isDefault == ps[i].isDefault
    ensures forall i :: 0 <= i < |ps| && ps[i].id != id ==> r[i] == ps[i]
    ensures forall i :: 0 <= i < |ps| && ps[i].id == id ==> r[i].name == name && r[i].content == content
  {
    seq(|ps|, i requires 0 <= i < |ps| => if ps[i].id == id then ps[i].(name := name, content := content) else ps[i])
  }

  /** `handleSavePrompt` on a new prompt: one entry appended, never a default. */
  function AppendPrompt(ps: seq<SystemPrompt>, id: string, name: string, content: string): (r: seq<SystemPrompt>)
    ensures |r| == |ps| + 1 && r[..|ps|] == ps
    ensures r[|ps|] == SystemPrompt(id, name, content, false)
  {
    ps + [SystemPrompt(id, name, content, false)]
  }

  /** `handleSavePrompt`: `None` when the form's name or content is blank
      (nothing changes, nothing is written); otherwise the new list. A new
      prompt's id is the decimal text of the current time in milliseconds. */
  function SavePrompt(ps: seq<SystemPrompt>, editing: Option<SystemPrompt>, name: string, content: string, nowMillis: nat): (r: Option<seq<SystemPrompt>>)
    ensures r.None? <==> IsBlank(name) || IsBlank(content)
    ensures r.Some? && editing.Some? ==> r.value == EditPrompt(ps, editing.value.id, name, content)
    ensures r.Some? && editing.None? ==> r.value == AppendPrompt(ps, NatToString(nowMillis), name, content)
  {
    if IsBlank(name) || IsBlank(content) then None
    else if editing.Some? then Some(EditPrompt(ps, editing.value.id, name, content))
    else Some(AppendPrompt(ps, NatToString(nowMillis), name, content))
  }

  /** `handleDeletePrompt`: the entries whose id differs from `id`, in order. */
  function DeletePrompt(ps: seq<SystemPrompt>, id: string): (r: seq<SystemPrompt>)
    ensures |r| <= |ps|
    ensures forall p :: p in r <==> p in ps && p.id != id
  {
    if ps == [] then []
    else (if ps[0].id == id then [] else [ps[0]]) + DeletePrompt(ps[1..], id)
  }

  /** Deleting from a concatenation deletes from each part. */
  lemma {:induction false} DeleteAppend(a: seq<SystemPrompt>, b: seq<SystemPrompt>, id: string)
    ensures DeletePrompt(a + b, id) == DeletePrompt(a, id) + DeletePrompt(b, id)
    decreases |a|
  {
    if a != [] {
      assert (a + b)[1..] == a[1..] + b;
      DeleteAppend(a[1..], b, id);
    } else {
      assert a + b == b;
    }
  }

  /** A list with no entry of the id is left as it is, so deleting twice is deleting once. */
  lemma {:induction false} DeleteAbsent(ps: seq<SystemPrompt>, id: string)
    requires forall p :: p in ps ==> p.id != id
    ensures DeletePrompt(ps, id) == ps
    decreases |ps|
  {
    if ps != [] {
      assert ps[0] in ps;
      assert forall p :: p in ps[1..] ==> p in ps;
      DeleteAbsent(ps[1..], id);
      assert ps == [ps[0]] + ps[1..];
    }
  }

  lemma DeleteIdempotent(ps: seq<SystemPrompt>, id: string)
    ensures DeletePrompt(DeletePrompt(ps, id), id) == DeletePrompt(ps, id)
  {
    DeleteAbsent(DeletePrompt(ps, id), id);
  }

  /** `handleSetDefault`: `isDefault` becomes "the id is `id`" on every entry. */
  function SetDefault(ps: seq<SystemPrompt>, id: string): (r: seq<SystemPrompt>)
    ensures |r| == |ps|
    ensures forall i :: 0 <= i < |ps| ==> r[i] == ps[i].(isDefault := ps[i].id == id)
  {
    seq(|ps|, i requires 0 <= i < |ps| => ps[i].(isDefault := ps[i].id == id))
  }

  function CountDefaults(ps: seq<SystemPrompt>): nat {
    if ps == [] then 0 else (if ps[0].isDefault then 1 else 0) + CountDefaults(ps[1..])
  }

  function CountId(ps: seq<SystemPrompt>, id: string): nat {
    if ps == [] then 0 else (if ps[0].id == id then 1 else 0) + CountId(ps[1..], id)
  }

  /** After set-default there are as many defaults as entries with the id:
      exactly one when ids are unique and the id is listed, none when it is not. */
  lemma {:induction false} SetDefaultCount(ps: seq<SystemPrompt>, id: string)
    ensures CountDefaults(SetDefault(ps, id)) == CountId(ps, id)
    decreases |ps|
  {
    if ps != [] {
      SetDefaultCount(ps[1..], id);
      assert SetDefault(ps, id)[1..] == SetDefault(ps[1..], id);
    }
  }

  /** Neither editing nor setting the default changes the ids, so either may
      follow the other: an edit does not move the default. */
  lemma EditThenSetDefault(ps: seq<SystemPrompt>, editId: string, name: string, content: string, id: string)
    ensures SetDefault(EditPrompt(ps, editId, name, content), id) == EditPrompt(SetDefault(ps, id), editId, name, content)
  {
  }

  /** The prompt-management page: the list it shows and the file it keeps. */
  class PromptManager {
    var prompts: seq<SystemPrompt>
    var file: PromptsFile

    constructor (file: PromptsFile)
      ensures prompts == [] && this.file == file
    {
      prompts := [];
      this.file := file;
    }

    /** `savePromptsToFile` after a list change: the file holds the list when the write succeeds. */
    method Persist(writeOk: bool)
      modifies this`file
      ensures file == if writeOk then Parsed(Some(prompts)) else old(file)
    {
      if writeOk {
        file := Parsed(Some(prompts));
      }
    }

    /** `loadPrompts`. A failed `mkdir` leaves the list empty; a failed write
        of the defaults still shows them. */
    method LoadPromptsFromFile(mkdirOk: bool, writeOk: bool)
      modifies this
      ensures !mkdirOk ==> prompts == old(prompts) && file == old(file)
      ensures mkdirOk ==> prompts == LoadPrompts(old(file), ManagerDefaults).prompts
      ensures mkdirOk && LoadPrompts(old(file), ManagerDefaults).writeBack.Some? && writeOk ==> file == Parsed(Some(prompts))
      ensures mkdirOk && (LoadPrompts(old(file), ManagerDefaults).writeBack.None? || !writeOk) ==> file == old(file)
    {
      if !mkdirOk {
        return;
      }
      var loaded := LoadPrompts(file, ManagerDefaults);
      prompts := loaded.prompts;
      if loaded.writeBack.Some? {
        Persist(writeOk);
      }
    }

    method HandleSavePrompt(editing: Option<SystemPrompt>, name: string, content: string, nowMillis: nat, writeOk: bool)
      modifies this
      ensures SavePrompt(old(prompts), editing, name, content, nowMillis).None? ==> prompts == old(prompts) && file == old(file)
      ensures SavePrompt(old(prompts), editing, name, content, nowMillis).Some? ==>
                prompts == SavePrompt(old(prompts), editing, name, content, nowMillis).value &&
                file == if writeOk then Parsed(Some(prompts)) else old(file)
    {
      var updated := SavePrompt(prompts, editing, name, content, nowMillis);
      if updated.Some? {
        prompts := updated.value;
        Persist(writeOk);
      }
    }

    method HandleDeletePrompt(id: string, writeOk: bool)
      modifies this
      ensures prompts == DeletePrompt(old(prompts), id)
      ensures file == if writeOk then Parsed(Some(prompts)) else old(file)
    {
      prompts := DeletePrompt(prompts, id);
      Persist(writeOk);
    }

    method HandleSetDefault(id: string, writeOk: bool)
      modifies this
      ensures prompts == SetDefault(old(prompts), id)
      ensures file == if writeOk then Parsed(Some(prompts)) else old(file)
    {
      prompts := SetDefault(prompts, id);
      Persist(writeOk);
    }
  }
}
