/** The chat editor (`/chat/<provider>/active`): a conversation with one AI
    provider, kept in `InkCaliber/chat/<provider>/<title>.json` and saved
    one second after the last change. */
module ChatEditor {
  import opened Wrappers
  import opened Strings
  import opened Sync
  import opened AiService
  import opened Prompts

  datatype ChatData = ChatData(
    title: string,
    systemPrompt: string,
    messages: seq<Message>,
    createdAt: string,
    updatedAt: string)

  /** The defaults this editor installs when `prompts.json` cannot be read
      (its brainstorming text is longer than the prompt page's). */
  const EditorDefaults: seq<SystemPrompt> := [
    SystemPrompt("default", "Default Assistant", "You are a helpful AI assistant.", true),
    SystemPrompt("brainstorm", "Brainstorming Partner",
      "You are a creative brainstorming partner. Help generate innovative ideas and explore possibilities.", false)
  ]

  /** The record a save writes: the data with its title set to the file name
      and its update time set to the save's time. */
  function Stamped(data: ChatData, name: string, now: string): ChatData {
    data.(title := name, updatedAt := now)
  }

  /** The steps of `saveChat` up to a successful rename all went through. */
  predicate RenameDone(s: EditorFiles<ChatData>, io: SaveIo) {
    !IsBlank(s.fileName) && io.mkdirOk && Renaming(s) && s.fileName !in s.files
    && io.renameOk && s.originalFileName in s.files
  }

  /** What `saveChat(data)` leaves behind. */
  function SaveChatStep(s: EditorFiles<ChatData>, data: ChatData, now: string, io: SaveIo): (r: EditorFiles<ChatData>)
    ensures IsBlank(s.fileName) ==> r == s
    ensures r.fileName == s.fileName
    ensures !IsBlank(s.fileName) ==> r.status == Saved || r.status == Error
    // a title that names another existing chat: nothing renamed, nothing written
    ensures !IsBlank(s.fileName) && io.mkdirOk && Renaming(s) && s.fileName in s.files ==> r == s.(status := Error)
    ensures !IsBlank(s.fileName) ==>
              (r.status == Saved <==> io.mkdirOk && io.writeOk && (Renaming(s) ==> RenameDone(s, io)))
    ensures !IsBlank(s.fileName) && r.status == Saved ==>
              s.fileName in r.files && r.files[s.fileName] == Stamped(data, s.fileName, now)
              && r.files[s.fileName].title == s.fileName && r.originalFileName == s.fileName
    ensures !IsBlank(s.fileName) && r.status == Saved && (Renaming(s) || s.originalFileName == "") ==> r.urlFile == Some(s.fileName)
    // a rename that went through moved the file, even when the write then failed
    ensures RenameDone(s, io) ==> r.originalFileName == s.fileName && r.urlFile == Some(s.fileName) && s.originalFileName !in r.files
    ensures RenameDone(s, io) && !io.writeOk ==> r.files == Moved(s.files, s.originalFileName, s.fileName)
    ensures r.status == Error && !RenameDone(s, io) ==> r == s.(status := Error)
    // no other file is touched
    ensures forall k :: k != s.fileName && k != s.originalFileName ==>
              (k in r.files <==> k in s.files) && (k in r.files ==> r.files[k] == s.files[k])
  {
    if IsBlank(s.fileName) then s
    else if !io.mkdirOk then s.(status := Error)
    else if Renaming(s) && s.fileName in s.files then s.(status := Error)
    else if Renaming(s) && !(io.renameOk && s.originalFileName in s.files) then s.(status := Error)
    else
      var moved := if Renaming(s) then
        s.(files := Moved(s.files, s.originalFileName, s.fileName), originalFileName := s.fileName, urlFile := Some(s.fileName))
      else s;
      if !io.writeOk then moved.(status := Error)
      else
        var written := moved.(files := moved.files[s.fileName := Stamped(data, s.fileName, now)], status := Saved);
        if s.originalFileName == "" then written.(originalFileName := s.fileName, urlFile := Some(s.fileName)) else written
  }

  /** Once a save has succeeded, saving again with the same title does not
      rename: the file name and the title stay bound. */
  lemma SavedThenNoRename(s: EditorFiles<ChatData>, data: ChatData, now: string, io: SaveIo)
    requires !IsBlank(s.fileName) && SaveChatStep(s, data, now, io).status == Saved
    ensures !Renaming(SaveChatStep(s, data, now, io))
  {
  }

  /** A rename onto a free name followed by a good write leaves exactly one
      file for the chat, under the new name, and nothing at the old one. */
  lemma RenameThenWrite(s: EditorFiles<ChatData>, data: ChatData, now: string)
    requires !IsBlank(s.fileName) && Renaming(s)
    requires s.originalFileName in s.files && s.fileName !in s.files
    ensures SaveChatStep(s, data, now, SaveIo(true, true, true)).files ==
              (s.files - {s.originalFileName})[s.fileName := Stamped(data, s.fileName, now)]
  {
  }

  /** The first entry of `ps` with the id (`systemPrompts.find`). */
  function FindPrompt(ps: seq<SystemPrompt>, id: string): (r: Option<SystemPrompt>)
    ensures r.None? <==> forall p :: p in ps ==> p.id != id
    ensures r.Some? ==> r.value.id == id && exists i :: 0 <= i < |ps| && ps[i] == r.value && FirstWithId(ps, id, i)
  {
    if ps == [] then None
    else if ps[0].id == id then
      assert FirstWithId(ps, id, 0);
      Some(ps[0])
    else
      var r := FindPrompt(ps[1..], id);
      if r.Some? then
        (var i :| 0 <= i < |ps[1..]| && ps[1..][i] == r.value && FirstWithId(ps[1..], id, i);
         assert ps[i + 1] == r.value && FirstWithId(ps, id, i + 1);
         r)
      else r
  }

  predicate FirstWithId(ps: seq<SystemPrompt>, id: string, i: int) {
    0 <= i < |ps| && ps[i].id == id && forall j :: 0 <= j < i ==> ps[j].id != id
  }

  /** The system instruction a message is sent with: the content of the
      chat's selected prompt, if it is listed. */
  function PromptContent(ps: seq<SystemPrompt>, id: string): Option<string> {
    var p := FindPrompt(ps, id);
    if p.Some? then Some(p.value.content) else None
  }

  const NoProviderError: string := "No provider selected"

  /** The error of a send whose provider has no key. */
  function NoKeyError(provider: string): string {
    "No API key configured for " + provider + ". Please configure it in settings."
  }

  /** `getAIResponse`: the reply of the chat's provider to one message. */
  function AIResponse(provider: Option<string>, keys: StoredKeys, sdk: Result<string, string>): (r: Result<string, string>)
    ensures (provider == None || provider == Some("")) ==> r == Failure(NoProviderError)
    ensures provider.Some? && provider.value != "" && GetAPIKey(keys, provider.value).GetOr("") == "" ==>
              r == Failure(NoKeyError(provider.value))
    ensures r.Success? <==> provider == Some(GeminiId) && GetAPIKey(keys, GeminiId).GetOr("") != "" && sdk.Success?
    ensures r.Success? ==> r.value == sdk.value
    ensures r.Failure? ==> r.error != ""
  {
    if provider.None? || provider.value == "" then Failure(NoProviderError)
    else
      var key := GetAPIKey(keys, provider.value);
      if key.None? || key.value == "" then
        Failure(NoKeyError(provider.value))
      else
        match CreateAIService(provider.value, ServiceConfig(key.value, None))
        case Failure(e) =>
          assert e != "" by { assert e == "Unknown AI provider: " + provider.value; }
          Failure(e)
        case Success(service) => SendMessage(service, sdk)
  }

  /** The assistant entry appended for a reply: its text, or the error text. */
  function ReplyMessage(reply: Result<string, string>, at: string): (m: Message)
    ensures m.role == Assistant && m.timestamp == at
    ensures reply.Success? ==> m.content == reply.value
    ensures reply.Failure? ==> m.content == "Error: " + reply.error
  {
    Message(Assistant, if reply.Success? then reply.value else "Error: " + reply.error, at)
  }

  /** `handleMessageEdit`: the message at `index` gets the new content. */
  function EditMessage(ms: seq<Message>, index: nat, content: string): (r: seq<Message>)
    requires index < |ms|
    ensures |r| == |ms|
    ensures r[index] == Message(ms[index].role, content, ms[index].timestamp)
    ensures forall j :: 0 <= j < |ms| && j != index ==> r[j] == ms[j]
  {
    ms[index := ms[index].(content := content)]
  }

  // ---------------------------------------------------------------------
  // The prompt id slug
  // ---------------------------------------------------------------------

  /** `s.replace(/\s+/g, '-')`: every maximal run of whitespace becomes one dash. */
  function DashWhitespaceRuns(s: string): (r: string)
    ensures |r| <= |s|
  {
    DashFrom(s, false)
  }

  /** The replacement read left to right; `inRun` says whether the text
      before `s` ended in whitespace. A whitespace character gives a dash
      only when it starts a run, and any other character is kept. */
  function DashFrom(s: string, inRun: bool): (r: string)
    ensures |r| <= |s|
  {
    if s == [] then []
    else if IsWhitespace(s[0]) then (if inRun then [] else ['-']) + DashFrom(s[1..], true)
    else [s[0]] + DashFrom(s[1..], false)
  }

  /** Whether text ends inside a whitespace run, given whether what came before it did. */
  function RunAfter(a: string, inRun: bool): bool {
    if a == [] then inRun else IsWhitespace(a[|a| - 1])
  }

  /** The replacement works piece by piece: the second piece is read knowing
      whether the first ended inside a run. */
  lemma {:induction false} DashFromAppend(a: string, b: string, inRun: bool)
    ensures DashFrom(a + b, inRun) == DashFrom(a, inRun) + DashFrom(b, RunAfter(a, inRun))
  {
    if a == [] {
      assert a + b == b;
    } else {
      var w := IsWhitespace(a[0]);
      assert (a + b)[0] == a[0] && (a + b)[1..] == a[1..] + b;
      DashFromAppend(a[1..], b, w);
      assert RunAfter(a[1..], w) == RunAfter(a, inRun);
      var h := if w then (if inRun then [] else ['-']) else [a[0]];
      calc {
        DashFrom(a + b, inRun);
        h + DashFrom(a[1..] + b, w);
        h + (DashFrom(a[1..], w) + DashFrom(b, RunAfter(a, inRun)));
        (h + DashFrom(a[1..], w)) + DashFrom(b, RunAfter(a, inRun));
        DashFrom(a, inRun) + DashFrom(b, RunAfter(a, inRun));
      }
    }
  }

  /** Text cut anywhere except inside a whitespace run is replaced piece by
      piece; with `DashRun` and `DashKeeps` this determines the replacement
      of every text from its maximal runs. */
  lemma DashAppend(a: string, b: string)
    requires a == [] || b == [] || !IsWhitespace(a[|a| - 1]) || !IsWhitespace(b[0])
    ensures DashWhitespaceRuns(a + b) == DashWhitespaceRuns(a) + DashWhitespaceRuns(b)
  {
    DashFromAppend(a, b, false);
    if b != [] {
      assert DashFrom(b, RunAfter(a, false)) == DashFrom(b, false);
    }
  }

  /** Inside a run, more whitespace adds nothing. */
  lemma {:induction false} DashInRun(s: string)
    requires IsBlank(s)
    ensures DashFrom(s, true) == []
  {
    if s != [] {
      assert forall i :: 0 <= i < |s| - 1 ==> s[1..][i] == s[i + 1];
      DashInRun(s[1..]);
    }
  }

  /** A whole run of whitespace becomes one dash. */
  lemma DashRun(run: string)
    requires run != [] && IsBlank(run)
    ensures DashWhitespaceRuns(run) == "-"
  {
    assert IsWhitespace(run[0]);
    DashInRun(run[1..]);
  }

  /** Any other character is kept. */
  lemma DashKeeps(c: char)
    requires !IsWhitespace(c)
    ensures DashWhitespaceRuns([c]) == [c]
  {
    assert [c][1..] == [];
  }

  /** Every character of the replacement is a dash or a character of the
      input that is not whitespace. */
  lemma {:induction false} DashFromChars(s: string, inRun: bool)
    ensures forall i :: 0 <= i < |DashFrom(s, inRun)| ==>
              DashFrom(s, inRun)[i] == '-' || (DashFrom(s, inRun)[i] in s && !IsWhitespace(DashFrom(s, inRun)[i]))
  {
    if s != [] {
      var w := IsWhitespace(s[0]);
      DashFromChars(s[1..], w);
      var h := if w then (if inRun then [] else ['-']) else [s[0]];
      var t := DashFrom(s[1..], w);
      assert DashFrom(s, inRun) == h + t;
      forall i | 0 <= i < |h + t|
        ensures (h + t)[i] == '-' || ((h + t)[i] in s && !IsWhitespace((h + t)[i]))
      {
        if i >= |h| {
          assert (h + t)[i] == t[i - |h|];
          assert t[i - |h|] in s[1..] ==> t[i - |h|] in s;
        }
      }
    }
  }

  /** No whitespace is left after the replacement. */
  lemma DashNoWhitespace(s: string)
    ensures forall i :: 0 <= i < |DashWhitespaceRuns(s)| ==> !IsWhitespace(DashWhitespaceRuns(s)[i])
  {
    DashFromChars(s, false);
    assert !IsWhitespace('-');
  }

  /** The id `handleCreatePrompt` gives a new prompt. */
  function PromptSlug(name: string): string {
    DashWhitespaceRuns(ToLower(name))
  }

  predicate NoAsciiUpper(s: string) {
    forall i :: 0 <= i < |s| ==> !IsAsciiUpper(s[i])
  }

  lemma DashKeepsNoUpper(s: string)
    requires NoAsciiUpper(s)
    ensures NoAsciiUpper(DashWhitespaceRuns(s))
  {
    DashFromChars(s, false);
    assert !IsAsciiUpper('-');
  }

  /** A string with no whitespace and no upper-case letter is its own slug. */
  lemma {:induction false} SlugOfPlain(s: string)
    requires NoAsciiUpper(s)
    requires forall i :: 0 <= i < |s| ==> !IsWhitespace(s[i])
    ensures PromptSlug(s) == s
  {
    if s != [] {
      SlugOfPlain(s[1..]);
      assert ToLower(s) == [s[0]] + ToLower(s[1..]);
      assert ToLower(s)[1..] == ToLower(s[1..]);
      assert s == [s[0]] + s[1..];
    }
  }

  /** A slug is free of whitespace and upper-case letters and is its own slug. */
  lemma SlugIdempotent(name: string)
    ensures forall i :: 0 <= i < |PromptSlug(name)| ==> !IsWhitespace(PromptSlug(name)[i]) && !IsAsciiUpper(PromptSlug(name)[i])
    ensures PromptSlug(PromptSlug(name)) == PromptSlug(name)
  {
    DashKeepsNoUpper(ToLower(name));
    DashNoWhitespace(ToLower(name));
    SlugOfPlain(PromptSlug(name));
  }

  lemma LowerExample()
    ensures ToLower("A \t b") == "a \t b"
  {
    var r := ToLower("A \t b");
    assert r[0] == LowerChar('A') == 'a';
    assert r[1] == ' ' && r[2] == '\t' && r[3] == ' ' && r[4] == 'b';
  }

  lemma DashExample()
    ensures DashWhitespaceRuns(" \t b") == "-b"
  {
    assert " \t b"[1..] == "\t b" && "\t b"[1..] == " b" && " b"[1..] == "b" && "b"[1..] == [];
    assert IsWhitespace(' ') && IsWhitespace('\t') && !IsWhitespace('b');
  }

  /** A run of several whitespace characters gives a single dash. */
  lemma SlugExample()
    ensures PromptSlug("A \t b") == "a-b"
  {
    calc {
      PromptSlug("A \t b");
      DashWhitespaceRuns(ToLower("A \t b"));
      { LowerExample(); }
      DashWhitespaceRuns("a \t b");
      { assert "a \t b"[1..] == " \t b"; }
      "a" + DashWhitespaceRuns(" \t b");
      { DashExample(); }
      "a-b";
    }
  }

  // ---------------------------------------------------------------------
  // The editor
  // ---------------------------------------------------------------------

  /** What one send hands to the provider: the typed text, the history as
      it was before the text was appended, and the system instruction. */
  datatype AiCall = AiCall(message: string, history: seq<Message>, systemPrompt: Option<string>)

  /** A send that went out: the call made and the chat afterwards. */
  datatype Sent = Sent(call: AiCall, data: ChatData)

  /** The chat with one more message at the end. */
  function Appended(data: ChatData, m: Message): ChatData {
    data.(messages := data.messages + [m])
  }

  /** What `handleSendMessage` does with the typed `input`, given the
      provider's `reply`: nothing for a blank input; otherwise the input is
      sent with the earlier history and the chat's prompt, and the chat ends
      with the input and then the reply, all else kept. */
  function SendStep(data: ChatData, input: string, prompts: seq<SystemPrompt>, reply: Result<string, string>, sentAt: string, repliedAt: string): (r: Option<Sent>)
    ensures r.None? <==> IsBlank(input)
    ensures r.Some? ==> r.value.call == AiCall(input, data.messages, PromptContent(prompts, data.systemPrompt))
    ensures r.Some? ==>
              var ms := r.value.data.messages;
              |ms| == |data.messages| + 2 && ms[..|data.messages|] == data.messages
              && ms[|data.messages|] == Message(User, input, sentAt)
              && ms[|data.messages| + 1] == ReplyMessage(reply, repliedAt)
              && r.value.data.(messages := data.messages) == data
  {
    if IsBlank(input) then None
    else
      var withUser := Appended(data, Message(User, input, sentAt));
      Some(Sent(AiCall(input, data.messages, PromptContent(prompts, data.systemPrompt)),
                Appended(withUser, ReplyMessage(reply, repliedAt))))
  }

  class ChatEditor {
    const provider: Option<string>
    var fileName: string
    var originalFileName: string
    var status: SyncStatus
    var files: map<string, ChatData>
    var urlFile: Option<string>
    /** The debounced save waiting to fire, with the data it will write. */
    var pending: Option<ChatData>
    var chatData: ChatData
    var messageInput: string
    var systemPrompts: seq<SystemPrompt>
    var promptsFile: PromptsFile

    function Files(): EditorFiles<ChatData>
      reads this
    {
      EditorFiles(fileName, originalFileName, status, files, urlFile)
    }

    /** Opening the editor, with `?file=` given or not; `now` stamps the empty chat. */
    constructor (provider: Option<string>, initialFile: Option<string>, files: map<string, ChatData>, promptsFile: PromptsFile, now: string)
      ensures this.provider == provider && this.files == files && this.promptsFile == promptsFile
      ensures fileName == initialFile.GetOr("") && originalFileName == initialFile.GetOr("")
      ensures urlFile == initialFile && status == Saved && pending == None
      ensures chatData == ChatData("", "default", [], now, now) && messageInput == "" && systemPrompts == []
    {
      this.provider := provider;
      fileName := initialFile.GetOr("");
      originalFileName := initialFile.GetOr("");
      status := Saved;
      this.files := files;
      urlFile := initialFile;
      pending := None;
      chatData := ChatData("", "default", [], now, now);
      messageInput := "";
      systemPrompts := [];
      this.promptsFile := promptsFile;
    }

    /** `loadSystemPrompts`. */
    method LoadSystemPrompts(mkdirOk: bool, writeOk: bool)
      modifies this`systemPrompts, this`promptsFile
      ensures !mkdirOk ==> systemPrompts == old(systemPrompts) && promptsFile == old(promptsFile)
      ensures mkdirOk ==> systemPrompts == LoadPrompts(old(promptsFile), EditorDefaults).prompts
      ensures promptsFile == if mkdirOk && writeOk && !old(promptsFile).Parsed? then Parsed(Some(EditorDefaults)) else old(promptsFile)
    {
      if !mkdirOk {
        return;
      }
      var loaded := LoadPrompts(promptsFile, EditorDefaults);
      systemPrompts := loaded.prompts;
      if loaded.writeBack.Some? && writeOk {
        promptsFile := Parsed(Some(systemPrompts));
      }
    }

    /** `loadChat`: a chat that cannot be read leaves the editor as it is. */
    method LoadChat(name: string)
      modifies this`chatData
      ensures chatData == if name in files then files[name] else old(chatData)
    {
      if name in files {
        chatData := files[name];
      }
    }

    /** `saveChat(data)`. */
    method SaveChat(data: ChatData, now: string, io: SaveIo)
      modifies this`originalFileName, this`status, this`files, this`urlFile
      ensures Files() == SaveChatStep(old(Files()), data, now, io)
    {
      var currentFileName := fileName;
      var currentOriginalName := originalFileName;
      if IsBlank(currentFileName) {
        return;
      }
      status := Syncing;
      if !io.mkdirOk {
        status := Error;
        return;
      }
      if currentOriginalName != "" && currentFileName != currentOriginalName {
        if currentFileName in files {
          status := Error;
          return;
        }
        if !io.renameOk || currentOriginalName !in files {
          status := Error;
          return;
        }
        files := Moved(files, currentOriginalName, currentFileName);
        originalFileName := currentFileName;
        urlFile := Some(currentFileName);
      }
      if !io.writeOk {
        status := Error;
        return;
      }
      files := files[currentFileName := Stamped(data, currentFileName, now)];
      status := Saved;
      if currentOriginalName == "" {
        originalFileName := currentFileName;
        urlFile := Some(currentFileName);
      }
    }

    /** `debouncedSave(data)`: the pending save, if any, is cancelled and
        replaced, so at most one is pending and it carries the latest data. */
    method DebouncedSave(data: ChatData)
      modifies this`pending
      ensures pending == Some(data)
    {
      if pending.Some? {
        pending := None;
      }
      pending := Some(data);
    }

    /** The timer of the pending save goes off. */
    method FireSave(now: string, io: SaveIo)
      requires pending.Some?
      modifies this`originalFileName, this`status, this`files, this`urlFile, this`pending
      ensures pending == None
      ensures Files() == SaveChatStep(old(Files()), old(pending).value, now, io)
    {
      var data := pending.value;
      pending := None;
      SaveChat(data, now, io);
    }

    method HandleTitleChange(newTitle: string)
      modifies this`fileName, this`status, this`pending
      ensures fileName == newTitle && status == Unsaved && pending == Some(chatData)
    {
      fileName := newTitle;
      status := Unsaved;
      DebouncedSave(chatData);
    }

    method HandleInputChange(text: string)
      modifies this`messageInput
      ensures messageInput == text
    {
      messageInput := text;
    }

    /** `handleSendMessage`: the user's text is appended at once (and a save
        scheduled), then, once the provider answered, its reply or the error
        (and a save scheduled again). `sdk` is the provider's reply to `call`. */
    method HandleSendMessage(keys: StoredKeys, sdk: Result<string, string>, sentAt: string, repliedAt: string) returns (call: Option<AiCall>)
      modifies this`chatData, this`messageInput, this`status, this`pending
      ensures var step := SendStep(old(chatData), old(messageInput), old(systemPrompts), AIResponse(provider, keys, sdk), sentAt, repliedAt);
              (step.None? ==> call == None && chatData == old(chatData) && messageInput == old(messageInput)
                              && status == old(status) && pending == old(pending))
              && (step.Some? ==> call == Some(step.value.call) && chatData == step.value.data
                                 && messageInput == "" && status == Unsaved && pending == Some(chatData))
    {
      if IsBlank(messageInput) {
        return None;
      }
      var text := messageInput;
      var before := chatData;
      call := Some(AiCall(text, before.messages, PromptContent(systemPrompts, before.systemPrompt)));
      var withUser := Appended(before, Message(User, text, sentAt));
      chatData := withUser;
      messageInput := "";
      status := Unsaved;
      pending := Some(withUser);   // debouncedSave(updatedData)
      // the reply arrives
      var withReply := Appended(withUser, ReplyMessage(AIResponse(provider, keys, sdk), repliedAt));
      chatData := withReply;
      status := Unsaved;
      pending := Some(withReply);  // debouncedSave(finalData)
    }

    method HandleAddAssistantMessage(now: string)
      modifies this`chatData, this`status, this`pending
      ensures chatData == old(chatData).(messages := old(chatData).messages + [Message(Assistant, "", now)])
      ensures status == Unsaved && pending == Some(chatData)
    {
      chatData := chatData.(messages := chatData.messages + [Message(Assistant, "", now)]);
      status := Unsaved;
      DebouncedSave(chatData);
    }

    method HandleMessageEdit(index: nat, newContent: string)
      requires index < |chatData.messages|
      modifies this`chatData, this`status, this`pending
      ensures chatData == old(chatData).(messages := EditMessage(old(chatData).messages, index, newContent))
      ensures status == Unsaved && pending == Some(chatData)
    {
      chatData := chatData.(messages := EditMessage(chatData.messages, index, newContent));
      status := Unsaved;
      DebouncedSave(chatData);
    }

    /** A cleared selection (`null` or "") is ignored. */
    method HandleSystemPromptChange(promptId: Option<string>)
      modifies this`chatData, this`status, this`pending
      ensures promptId.None? || promptId == Some("") ==>
                chatData == old(chatData) && status == old(status) && pending == old(pending)
      ensures promptId.Some? && promptId.value != "" ==>
                chatData == old(chatData).(systemPrompt := promptId.value) && status == Unsaved && pending == Some(chatData)
    {
      if promptId.None? || promptId.value == "" {
        return;
      }
      chatData := chatData.(systemPrompt := promptId.value);
      status := Unsaved;
      DebouncedSave(chatData);
    }

    /** `handleCreatePrompt`: the new prompt is listed even when writing
        `prompts.json` fails; `closed` says that the dialog closed and its
        fields were cleared, which happens only after a good write. */
    method HandleCreatePrompt(name: string, content: string, writeOk: bool) returns (closed: bool)
      modifies this`systemPrompts, this`promptsFile
      ensures IsBlank(name) || IsBlank(content) ==>
                !closed && systemPrompts == old(systemPrompts) && promptsFile == old(promptsFile)
      ensures !IsBlank(name) && !IsBlank(content) ==>
                systemPrompts == AppendPrompt(old(systemPrompts), PromptSlug(name), name, content)
                && closed == writeOk
                && promptsFile == if writeOk then Parsed(Some(systemPrompts)) else old(promptsFile)
    {
      if IsBlank(name) || IsBlank(content) {
        return false;
      }
      systemPrompts := AppendPrompt(systemPrompts, PromptSlug(name), name, content);
      closed := false;
      if writeOk {
        promptsFile := Parsed(Some(systemPrompts));
        closed := true;
      }
    }
  }
}
