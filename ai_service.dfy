/** The AI service layer of the chat feature: the Gemini history sanitiser
    and role mapping, the provider factory, the placeholder services, and the
    API-key store kept in the browser's local storage. The SDK itself is not
    modelled: its reply to a request is an input. */
module AiService {
  import opened Wrappers
  import opened Strings

  datatype Role = User | Assistant

  datatype Message = Message(role: Role, content: string, timestamp: string)

  /** What `sanitizeHistory` puts between two merged contents. */
  const Separator := "\n\n"

  // ---------------------------------------------------------------------
  // sanitizeHistory
  // ---------------------------------------------------------------------

  /** One non-blank message taken into the sanitised list: appended to the
      last entry when the roles agree, pushed as a new entry otherwise. */
  function Absorb(acc: seq<Message>, m: Message): seq<Message> {
    if acc != [] && acc[|acc| - 1].role == m.role then
      acc[..|acc| - 1] + [acc[|acc| - 1].(content := acc[|acc| - 1].content + Separator + m.content)]
    else
      acc + [m]
  }

  /** The list `sanitizeHistory` builds, message by message from the front:
      blank messages are skipped, the rest absorbed. */
  function Sanitized(history: seq<Message>): seq<Message> {
    if history == [] then []
    else
      var acc := Sanitized(history[..|history| - 1]);
      var m := history[|history| - 1];
      if IsBlank(m.content) then acc else Absorb(acc, m)
  }

  /** The loop of `sanitizeHistory`: `lastRole` starts unset and follows the
      role of the last entry pushed. */
  method SanitizeHistory(history: seq<Message>) returns (sanitized: seq<Message>)
    ensures sanitized == Sanitized(history)
  {
    if |history| == 0 {
      return [];
    }
    sanitized := [];
    var lastRole: Option<Role> := None;
    for i := 0 to |history|
      invariant sanitized == Sanitized(history[..i])
      invariant lastRole == if sanitized == [] then None else Some(sanitized[|sanitized| - 1].role)
    {
      var msg := history[i];
      assert history[..i + 1][..i] == history[..i];
      if IsBlank(msg.content) {
        continue;
      }
      if lastRole == Some(msg.role) {
        var lastMsg := sanitized[|sanitized| - 1];
        sanitized := sanitized[..|sanitized| - 1] + [lastMsg.(content := lastMsg.content + Separator + msg.content)];
      } else {
        sanitized := sanitized + [msg];
        lastRole := Some(msg.role);
      }
    }
    assert history[..|history|] == history;
  }

  /** The messages of `history` whose content is not blank, in order. */
  function NonBlank(history: seq<Message>): (r: seq<Message>)
    ensures |r| <= |history|
    ensures forall i :: 0 <= i < |r| ==> !IsBlank(r[i].content) && r[i] in history
  {
    if history == [] then []
    else
      var m := history[|history| - 1];
      NonBlank(history[..|history| - 1]) + (if IsBlank(m.content) then [] else [m])
  }

  // A reference definition by maximal same-role runs, read from the front.

  /** The length of the maximal run of same-role messages that starts `h`. */
  function RunLength(h: seq<Message>): (k: nat)
    requires h != []
    ensures 1 <= k <= |h|
    ensures forall i :: 0 <= i < k ==> h[i].role == h[0].role
    ensures k < |h| ==> h[k].role != h[0].role
  {
    if |h| > 1 && h[1].role == h[0].role then 1 + RunLength(h[1..]) else 1
  }

  /** The contents of `ms`, in order, with the separator between them. */
  function Joined(ms: seq<Message>): string
    requires ms != []
  {
    if |ms| == 1 then ms[0].content else ms[0].content + Separator + Joined(ms[1..])
  }

  /** One entry per maximal run: the run's role, its first timestamp and the
      join of its contents. */
  function Runs(h: seq<Message>): seq<Message>
    decreases |h|
  {
    if h == [] then []
    else
      var k := RunLength(h);
      [Message(h[0].role, Joined(h[..k]), h[0].timestamp)] + Runs(h[k..])
  }

  lemma {:induction false} JoinedSnoc(ms: seq<Message>, m: Message)
    requires ms != []
    ensures Joined(ms + [m]) == Joined(ms) + Separator + m.content
  {
    if |ms| > 1 {
      assert (ms + [m])[1..] == ms[1..] + [m];
      JoinedSnoc(ms[1..], m);
    }
  }

  /** The merged entry for the run that starts `h`. */
  function RunHead(h: seq<Message>): Message
    requires h != []
  {
    Message(h[0].role, Joined(h[..RunLength(h)]), h[0].timestamp)
  }

  lemma RunsUnfold(h: seq<Message>)
    requires h != []
    ensures Runs(h) == [RunHead(h)] + Runs(h[RunLength(h)..])
  {
  }

  lemma RunsSingle(m: Message)
    ensures Runs([m]) == [m]
  {
    assert [m][..1] == [m];
    RunsUnfold([m]);
  }

  /** Where the first run ends once a message is appended. */
  lemma RunLengthSnoc(h: seq<Message>, m: Message)
    requires h != []
    ensures RunLength(h) < |h| ==> RunLength(h + [m]) == RunLength(h)
    ensures RunLength(h) == |h| && m.role == h[0].role ==> RunLength(h + [m]) == |h| + 1
    ensures RunLength(h) == |h| && m.role != h[0].role ==> RunLength(h + [m]) == |h|
  {
    var h' := h + [m];
    var k := RunLength(h);
    var k' := RunLength(h');
    assert forall i :: 0 <= i < |h| ==> h'[i] == h[i];
    assert h'[|h|] == m;
  }

  lemma AbsorbBehind(head: Message, rest: seq<Message>, m: Message)
    requires rest != []
    ensures Absorb([head] + rest, m) == [head] + Absorb(rest, m)
  {
    var l := [head] + rest;
    assert l[|l| - 1] == rest[|rest| - 1];
    assert l[..|l| - 1] == [head] + rest[..|rest| - 1];
  }

  /** A history that is one run has one entry: the join of all its contents. */
  lemma OneRun(h: seq<Message>)
    requires h != [] && RunLength(h) == |h|
    ensures Runs(h) == [Message(h[0].role, Joined(h), h[0].timestamp)]
  {
    assert h[..|h|] == h && h[|h|..] == [];
    RunsUnfold(h);
  }

  /** A single run followed by a message of its role is one longer run. */
  lemma OneRunSameRole(h: seq<Message>, m: Message)
    requires h != [] && RunLength(h) == |h| && m.role == h[0].role
    ensures Runs(h + [m]) == Absorb(Runs(h), m)
  {
    var h' := h + [m];
    RunLengthSnoc(h, m);
    assert h'[0] == h[0];
    OneRun(h);
    OneRun(h');
    JoinedSnoc(h, m);
  }

  /** A single run followed by a message of another role gains a second run. */
  lemma OneRunNewRole(h: seq<Message>, m: Message)
    requires h != [] && RunLength(h) == |h| && m.role != h[0].role
    ensures Runs(h + [m]) == Absorb(Runs(h), m)
  {
    var h' := h + [m];
    RunLengthSnoc(h, m);
    RunsUnfold(h);
    RunsUnfold(h');
    assert h[RunLength(h)..] == [];
    assert Runs(h) == [RunHead(h)];
    assert h'[..|h|] == h[..RunLength(h)];
    assert h'[|h|..] == [m];
    RunsSingle(m);
  }

  /** Appending one message to the input of `Runs` is absorbing it into the output. */
  lemma {:induction false} RunsSnoc(h: seq<Message>, m: Message)
    ensures Runs(h + [m]) == Absorb(Runs(h), m)
    decreases |h|
  {
    if h == [] {
      assert h + [m] == [m];
      RunsSingle(m);
    } else if RunLength(h) == |h| {
      if m.role == h[0].role {
        OneRunSameRole(h, m);
      } else {
        OneRunNewRole(h, m);
      }
    } else {
      RunsSnoc(h[RunLength(h)..], m);
      LaterRunSnoc(h, m);
    }
  }

  lemma SnocSlices(h: seq<Message>, m: Message, k: nat)
    requires 0 < k <= |h|
    ensures (h + [m])[0] == h[0]
    ensures (h + [m])[..k] == h[..k] && (h + [m])[k..] == h[k..] + [m]
  {
  }

  /** With a second run behind the first, the message is absorbed by what
      follows the first run. */
  lemma LaterRunSnoc(h: seq<Message>, m: Message)
    requires h != [] && RunLength(h) < |h|
    requires Runs(h[RunLength(h)..] + [m]) == Absorb(Runs(h[RunLength(h)..]), m)
    ensures Runs(h + [m]) == Absorb(Runs(h), m)
  {
    var h' := h + [m];
    var k := RunLength(h);
    var rest := h[k..];
    RunLengthSnoc(h, m);
    SnocSlices(h, m, k);
    var head := Message(h[0].role, Joined(h[..k]), h[0].timestamp);
    RunsUnfold(rest);
    calc {
      Runs(h');
      { RunsUnfold(h'); }
      [head] + Runs(rest + [m]);
      [head] + Absorb(Runs(rest), m);
      { AbsorbBehind(head, Runs(rest), m); }
      Absorb([head] + Runs(rest), m);
      { RunsUnfold(h); }
      Absorb(Runs(h), m);
    }
  }


  /** The sanitised history is the list of maximal same-role runs of the
      non-blank messages, each merged into one entry. */
  lemma {:induction false} SanitizedIsRuns(history: seq<Message>)
    ensures Sanitized(history) == Runs(NonBlank(history))
    decreases |history|
  {
    if history != [] {
      var init := history[..|history| - 1];
      var m := history[|history| - 1];
      SanitizedIsRuns(init);
      if IsBlank(m.content) {
        assert Sanitized(history) == Sanitized(init);
        assert NonBlank(history) == NonBlank(init) + [];
        assert NonBlank(init) + [] == NonBlank(init);
      } else {
        assert Sanitized(history) == Absorb(Sanitized(init), m);
        assert NonBlank(history) == NonBlank(init) + [m];
        RunsSnoc(NonBlank(init), m);
      }
    }
  }

  lemma {:induction false} RunsShape(h: seq<Message>)
    ensures |Runs(h)| <= |h|
    ensures h != [] ==> Runs(h) != [] && Runs(h)[0].role == h[0].role
    ensures forall i :: 0 <= i < |Runs(h)| - 1 ==> Runs(h)[i].role != Runs(h)[i + 1].role
    decreases |h|
  {
    if h != [] {
      var k := RunLength(h);
      RunsShape(h[k..]);
      var head := Message(h[0].role, Joined(h[..k]), h[0].timestamp);
      assert Runs(h) == [head] + Runs(h[k..]);
      if k < |h| {
        assert h[k..][0] == h[k];
      }
    }
  }

  /** No two adjacent entries of the sanitised history share a role, and
      there are no more entries than non-blank inputs. */
  lemma SanitizedAlternates(history: seq<Message>)
    ensures |Sanitized(history)| <= |NonBlank(history)| <= |history|
    ensures forall i :: 0 <= i < |Sanitized(history)| - 1 ==>
              Sanitized(history)[i].role != Sanitized(history)[i + 1].role
  {
    SanitizedIsRuns(history);
    RunsShape(NonBlank(history));
  }

  lemma NotBlankAppend(a: string, b: string)
    requires !IsBlank(a)
    ensures !IsBlank(a + b)
  {
    var i :| 0 <= i < |a| && !IsWhitespace(a[i]);
    assert (a + b)[i] == a[i];
  }

  /** Every entry of the sanitised history has a non-blank content: blank
      inputs contribute nothing and merging keeps the first content in front. */
  lemma {:induction false} SanitizedNonBlank(history: seq<Message>)
    ensures forall i :: 0 <= i < |Sanitized(history)| ==> !IsBlank(Sanitized(history)[i].content)
    decreases |history|
  {
    if history != [] {
      var acc := Sanitized(history[..|history| - 1]);
      var m := history[|history| - 1];
      SanitizedNonBlank(history[..|history| - 1]);
      if !IsBlank(m.content) {
        var r := Absorb(acc, m);
        assert Sanitized(history) == r;
        if acc != [] && acc[|acc| - 1].role == m.role {
          NotBlankAppend(acc[|acc| - 1].content, Separator + m.content);
          forall i | 0 <= i < |r| ensures !IsBlank(r[i].content) {
            if i < |acc| - 1 {
              assert r[i] == acc[i];
            } else {
              var a := acc[|acc| - 1].content;
              assert r[i].content == a + Separator + m.content == a + (Separator + m.content);
            }
          }
        } else {
          forall i | 0 <= i < |r| ensures !IsBlank(r[i].content) {
            if i < |acc| {
              assert r[i] == acc[i];
            }
          }
        }
      }
    }
  }

  predicate Alternating(h: seq<Message>) {
    forall i :: 0 <= i < |h| - 1 ==> h[i].role != h[i + 1].role
  }

  lemma {:induction false} RunsOfAlternating(h: seq<Message>)
    requires Alternating(h)
    ensures Runs(h) == h
    decreases |h|
  {
    if h != [] {
      var k := RunLength(h);
      assert k == 1;
      assert h[..1] == [h[0]];
      RunsOfAlternating(h[1..]);
      assert h == [h[0]] + h[1..];
    }
  }

  lemma {:induction false} NonBlankOfNonBlank(h: seq<Message>)
    requires forall i :: 0 <= i < |h| ==> !IsBlank(h[i].content)
    ensures NonBlank(h) == h
    decreases |h|
  {
    if h != [] {
      NonBlankOfNonBlank(h[..|h| - 1]);
      assert h[..|h| - 1] + [h[|h| - 1]] == h;
    }
  }

  /** A history that already alternates and has no blank message is left as it is. */
  lemma SanitizedIdentity(history: seq<Message>)
    requires forall i :: 0 <= i < |history| ==> !IsBlank(history[i].content)
    requires Alternating(history)
    ensures Sanitized(history) == history
  {
    SanitizedIsRuns(history);
    NonBlankOfNonBlank(history);
    RunsOfAlternating(history);
  }

  // ---------------------------------------------------------------------
  // Gemini request
  // ---------------------------------------------------------------------

  datatype GeminiContent = GeminiContent(role: string, text: string)

  function GeminiRole(r: Role): string {
    if r == Assistant then "model" else "user"
  }

  /** The `map` from sanitised messages to the SDK's history entries. */
  function ToGeminiHistory(ms: seq<Message>): (r: seq<GeminiContent>)
    ensures |r| == |ms|
    ensures forall i :: 0 <= i < |ms| ==> r[i] == GeminiContent(GeminiRole(ms[i].role), ms[i].content)
  {
    seq(|ms|, i requires 0 <= i < |ms| => GeminiContent(GeminiRole(ms[i].role), ms[i].content))
  }

  /** The history handed to the SDK alternates strictly between `user` and
      `model`, and never has more entries than the chat history. */
  lemma GeminiHistoryAlternates(history: seq<Message>)
    ensures |ToGeminiHistory(Sanitized(history))| <= |history|
    ensures forall i :: 0 <= i < |ToGeminiHistory(Sanitized(history))| ==>
              ToGeminiHistory(Sanitized(history))[i].role in {"user", "model"}
    ensures forall i :: 0 <= i < |ToGeminiHistory(Sanitized(history))| - 1 ==>
              ToGeminiHistory(Sanitized(history))[i].role != ToGeminiHistory(Sanitized(history))[i + 1].role
  {
    SanitizedAlternates(history);
    var s := Sanitized(history);
    forall i | 0 <= i < |s| - 1
      ensures ToGeminiHistory(s)[i].role != ToGeminiHistory(s)[i + 1].role
    {
      assert s[i].role != s[i + 1].role;
    }
  }

  // ---------------------------------------------------------------------
  // Services and the factory
  // ---------------------------------------------------------------------

  const GeminiId := "gemini"
  const ChatGPTId := "chatgpt"
  const ClaudeId := "claude"

  /** The three provider names differ. */
  lemma ProviderIdsDistinct()
    ensures GeminiId != ChatGPTId && GeminiId != ClaudeId && ChatGPTId != ClaudeId
  {
    assert GeminiId[0] == 'g' && ChatGPTId[0] == 'c' && ClaudeId[0] == 'c';
    assert ChatGPTId[1] == 'h' && ClaudeId[1] == 'l';
  }

  const DefaultGeminiModel := "gemini-2.5-flash-lite"
  const ChatGPTNotImplemented := "ChatGPT integration not yet implemented. Please use Gemini for now."
  const ClaudeNotImplemented := "Claude integration not yet implemented. Please use Gemini for now."

  datatype ServiceConfig = ServiceConfig(apiKey: string, model: Option<string>)

  datatype Service = GeminiService(apiKey: string, model: string) | ChatGPTService | ClaudeService

  /** `createAIService`: one service per known provider name; any other name
      is the factory's error. */
  function CreateAIService(provider: string, config: ServiceConfig): (r: Result<Service, string>)
    ensures r.Failure? <==> provider !in {GeminiId, ChatGPTId, ClaudeId}
    ensures r.Failure? ==> r.error == "Unknown AI provider: " + provider
    ensures provider == ChatGPTId ==> r == Success(ChatGPTService)
    ensures provider == ClaudeId ==> r == Success(ClaudeService)
    ensures provider == GeminiId ==> r.Success? && r.value.GeminiService? && r.value.apiKey == config.apiKey
    ensures provider == GeminiId && (config.model == None || config.model == Some("")) ==>
              r.value.model == DefaultGeminiModel
    ensures provider == GeminiId && config.model.Some? && config.model.value != "" ==>
              r.value.model == config.model.value
  {
    if provider == GeminiId then
      Success(GeminiService(config.apiKey, if config.model.Some? && config.model.value != "" then config.model.value else DefaultGeminiModel))
    else if provider == ChatGPTId then Success(ChatGPTService)
    else if provider == ClaudeId then Success(ClaudeService)
    else Failure("Unknown AI provider: " + provider)
  }

  /** What the Gemini service hands to the SDK for one `sendMessage`. */
  datatype GeminiRequest = GeminiRequest(
    model: string,
    systemInstruction: Option<string>,
    history: seq<GeminiContent>,
    message: string)

  function GeminiRequestFor(model: string, message: string, history: seq<Message>, systemPrompt: Option<string>): (req: GeminiRequest)
    ensures req.model == model && req.message == message
    ensures req.systemInstruction.Some? <==> systemPrompt.Some? && systemPrompt.value != ""
    ensures req.systemInstruction.Some? ==> req.systemInstruction == systemPrompt
    ensures req.history == ToGeminiHistory(Sanitized(history))
  {
    var instruction := if systemPrompt.Some? && systemPrompt.value != "" then systemPrompt else None;
    GeminiRequest(model, instruction, ToGeminiHistory(Sanitized(history)), message)
  }

  /** `sendMessage` of each service. `sdk` is the SDK's reply to the Gemini
      request: the response text, or the message of the error it threw. */
  function SendMessage(service: Service, sdk: Result<string, string>): (r: Result<string, string>)
    ensures service.ChatGPTService? ==> r == Failure(ChatGPTNotImplemented)
    ensures service.ClaudeService? ==> r == Failure(ClaudeNotImplemented)
    ensures service.GeminiService? ==> (r.Success? <==> sdk.Success?)
    ensures service.GeminiService? && sdk.Success? ==> r.value == sdk.value
    ensures service.GeminiService? && sdk.Failure? ==>
              r.error == "Gemini API Error: " + (if sdk.error == "" then "Unknown error" else sdk.error)
    ensures r.Failure? ==> r.error != ""
  {
    match service
    case ChatGPTService => Failure(ChatGPTNotImplemented)
    case ClaudeService => Failure(ClaudeNotImplemented)
    case GeminiService(_, _) =>
      match sdk
      case Success(text) => Success(text)
      case Failure(e) => Failure("Gemini API Error: " + (if e == "" then "Unknown error" else e))
  }

  // ---------------------------------------------------------------------
  // API-key storage
  // ---------------------------------------------------------------------

  const ApiKeysStorageKey := "inkcaliber_ai_api_keys"

  /** The local-storage slot under `ApiKeysStorageKey`: absent (or empty),
      holding text that does not parse, or holding a JSON object of keys. */
  datatype StoredKeys = NotStored | Unparsable | Stored(keys: map<string, string>)

  /** `getAPIKeys`: the stored object, or `{}` when nothing usable is stored. */
  function GetAPIKeys(slot: StoredKeys): (keys: map<string, string>)
    ensures !slot.Stored? ==> keys == map[]
  {
    if slot.Stored? then slot.keys else map[]
  }

  function GetAPIKey(slot: StoredKeys, provider: string): Option<string> {
    var keys := GetAPIKeys(slot);
    if provider in keys then Some(keys[provider]) else None
  }

  /** `hasAPIKey`: a key is stored and is not blank. */
  function HasAPIKey(slot: StoredKeys, provider: string): (r: bool)
    ensures r <==> GetAPIKey(slot, provider).Some? && !IsBlank(GetAPIKey(slot, provider).value)
  {
    var key := GetAPIKey(slot, provider);
    TrimEmptyIffBlank(key.GetOr(""));
    key.Some? && key.value != "" && |Trim(key.value)| > 0
  }

  /** The slot after `saveAPIKey(provider, apiKey)`. */
  function KeysAfterSave(slot: StoredKeys, provider: string, apiKey: string): (r: StoredKeys)
    ensures r.Stored?
    ensures GetAPIKey(r, provider) == Some(apiKey)
    ensures forall q :: q != provider ==> GetAPIKey(r, q) == GetAPIKey(slot, q)
  {
    Stored(GetAPIKeys(slot)[provider := apiKey])
  }

  /** After saving a non-blank key the provider counts as configured. */
  lemma SavedKeyIsConfigured(slot: StoredKeys, provider: string, apiKey: string)
    requires !IsBlank(apiKey)
    ensures HasAPIKey(KeysAfterSave(slot, provider, apiKey), provider)
  {
  }

  /** The browser's local storage, as far as the key helpers use it. */
  class KeyStore {
    var slot: StoredKeys

    constructor (initial: StoredKeys)
      ensures slot == initial
    {
      slot := initial;
    }

    /** `saveAPIKey`: read the keys, set one, and write the object back. */
    method SaveAPIKey(provider: string, apiKey: string)
      modifies this
      ensures slot == KeysAfterSave(old(slot), provider, apiKey)
    {
      var keys := GetAPIKeys(slot);
      keys := keys[provider := apiKey];
      slot := Stored(keys);
    }
  }
}
