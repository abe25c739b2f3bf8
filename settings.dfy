/** The AI settings page (`/chat/settings`): one key field per provider,
    saved into the key store, and a connection test that sends one greeting
    through the provider's service. */
module Settings {
  import opened Wrappers
  import opened Strings
  import opened AiService

  const SavedAlert: string := "API keys saved successfully!"
  const BlankKeyMessage: string := "Please enter an API key first"
  const SuccessMessage: string := "Connection successful! API key is valid."
  const FallbackMessage: string := "Connection failed. " + "Please check your API key."
  const TestGreeting: string := "Hello! Please respond with a short greeting."
  const TestSystemPrompt: string := "You are a helpful assistant."

  /** The stored key of a provider as its field shows it. */
  function FieldValue(slot: StoredKeys, provider: string): (r: string)
    ensures GetAPIKey(slot, provider).Some? ==> r == GetAPIKey(slot, provider).value
    ensures GetAPIKey(slot, provider).None? ==> r == ""
  {
    GetAPIKey(slot, provider).GetOr("")
  }

  /** One field's part of `handleSave`: a non-blank field is saved trimmed. */
  function SaveField(slot: StoredKeys, provider: string, field: string): StoredKeys {
    if IsBlank(field) then slot else KeysAfterSave(slot, provider, Trim(field))
  }

  /** The key store after `handleSave` of the three fields, one field after
      the other. */
  function SettingsSave(slot: StoredKeys, gemini: string, chatgpt: string, claude: string): StoredKeys {
    SaveField(SaveField(SaveField(slot, GeminiId, gemini), ChatGPTId, chatgpt), ClaudeId, claude)
  }

  /** What a save does to the key store: each non-blank field replaces its
      provider's key with the trimmed text, each blank field leaves its key
      as it was, and no other key changes. */
  lemma SettingsSaveEffects(slot: StoredKeys, gemini: string, chatgpt: string, claude: string)
    ensures var r := SettingsSave(slot, gemini, chatgpt, claude);
            && GetAPIKey(r, GeminiId) == (if IsBlank(gemini) then GetAPIKey(slot, GeminiId) else Some(Trim(gemini)))
            && GetAPIKey(r, ChatGPTId) == (if IsBlank(chatgpt) then GetAPIKey(slot, ChatGPTId) else Some(Trim(chatgpt)))
            && GetAPIKey(r, ClaudeId) == (if IsBlank(claude) then GetAPIKey(slot, ClaudeId) else Some(Trim(claude)))
            && forall q :: q !in {GeminiId, ChatGPTId, ClaudeId} ==> GetAPIKey(r, q) == GetAPIKey(slot, q)
  {
    ProviderIdsDistinct();
  }

  /** After a save every provider whose field was not blank is configured. */
  lemma SaveConfigures(slot: StoredKeys, gemini: string, chatgpt: string, claude: string)
    ensures !IsBlank(gemini) ==> HasAPIKey(SettingsSave(slot, gemini, chatgpt, claude), GeminiId)
    ensures !IsBlank(chatgpt) ==> HasAPIKey(SettingsSave(slot, gemini, chatgpt, claude), ChatGPTId)
    ensures !IsBlank(claude) ==> HasAPIKey(SettingsSave(slot, gemini, chatgpt, claude), ClaudeId)
  {
    SettingsSaveEffects(slot, gemini, chatgpt, claude);
    TrimTrimmedNotBlank(gemini);
    TrimTrimmedNotBlank(chatgpt);
    TrimTrimmedNotBlank(claude);
  }

  /** The trimmed text of a non-blank field is itself not blank. */
  lemma TrimTrimmedNotBlank(s: string)
    ensures !IsBlank(s) ==> !IsBlank(Trim(s))
  {
    TrimEmptyIffBlank(s);
    if !IsBlank(s) {
      TrimOfTrimmed(Trim(s));
      TrimEmptyIffBlank(Trim(s));
    }
  }

  /** The test result shown under a provider's field. */
  datatype TestStatus = TestStatus(provider: string, success: bool, message: string)

  /** The service `handleTest` builds from the trimmed key. */
  function TestService(provider: string, apiKey: string): Result<Service, string> {
    CreateAIService(provider, ServiceConfig(Trim(apiKey), None))
  }

  /** What `handleTest(provider, apiKey)` shows, given the SDK's reply to the
      greeting: an error without any call for a blank key; otherwise success
      exactly when the service answered, and else the error message, or a
      fallback text when that message is empty. */
  function TestOutcome(provider: string, apiKey: string, sdk: Result<string, string>): (r: TestStatus)
    ensures r.provider == provider
    ensures IsBlank(apiKey) ==> !r.success && r.message == BlankKeyMessage
    ensures !IsBlank(apiKey) ==> (r.success <==> provider == GeminiId && sdk.Success?)
    ensures r.success ==> r.message == SuccessMessage
    ensures !IsBlank(apiKey) && provider == GeminiId && sdk.Failure? ==>
              r.message == "Gemini API Error: " + (if sdk.error == "" then "Unknown error" else sdk.error)
    ensures !IsBlank(apiKey) && provider == ChatGPTId ==> r.message == ChatGPTNotImplemented
    ensures !IsBlank(apiKey) && provider == ClaudeId ==> r.message == ClaudeNotImplemented
    ensures !IsBlank(apiKey) && provider !in {GeminiId, ChatGPTId, ClaudeId} ==>
              r.message == "Unknown AI provider: " + provider
  {
    if IsBlank(apiKey) then TestStatus(provider, false, BlankKeyMessage)
    else
      match TestService(provider, apiKey)
      case Failure(e) => TestStatus(provider, false, if e == "" then FallbackMessage else e)
      case Success(service) =>
        match SendMessage(service, sdk)
        case Success(_) => TestStatus(provider, true, SuccessMessage)
        case Failure(e) => TestStatus(provider, false, if e == "" then FallbackMessage else e)
  }

  /** Every failure the services can report carries a message, so the
      fallback text is never shown. */
  lemma FallbackNeverShown(provider: string, apiKey: string, sdk: Result<string, string>)
    ensures TestOutcome(provider, apiKey, sdk).message != FallbackMessage
  {
    assert |FallbackMessage| == 45;
    if IsBlank(apiKey) {
      assert |BlankKeyMessage| == 29;
    } else if provider == GeminiId && sdk.Success? {
      assert |SuccessMessage| == 40;
    } else if provider == GeminiId {
      NotFallback("Gemini API Error: ", if sdk.error == "" then "Unknown error" else sdk.error);
    } else if provider == ChatGPTId {
      assert |ChatGPTNotImplemented| == 67;
    } else if provider == ClaudeId {
      assert |ClaudeNotImplemented| == 66;
    } else {
      NotFallback("Unknown AI provider: ", provider);
    }
  }

  /** A text whose second character is not the fallback's is not the fallback. */
  lemma NotFallback(head: string, tail: string)
    requires |head| > 1 && head[1] != 'o'
    ensures head + tail != FallbackMessage
  {
    assert (head + tail)[1] == head[1];
    assert FallbackMessage[1] == "Connection failed. "[1] == 'o';
  }

  /** The request a connection test of a Gemini key hands to the SDK: the
      greeting, no history, the test's system prompt and the default model.
      The key under test is not part of the request: it goes to the service
      that `CreateAIService` builds. */
  function TestRequest(): (req: GeminiRequest)
    ensures req.model == DefaultGeminiModel && req.message == TestGreeting
    ensures req.history == [] && req.systemInstruction == Some(TestSystemPrompt)
  {
    var h: seq<Message> := [];
    assert Sanitized(h) == [];
    GeminiRequestFor(DefaultGeminiModel, TestGreeting, h, Some(TestSystemPrompt))
  }

  class ChatSettings {
    const store: KeyStore
    var geminiKey: string
    var chatgptKey: string
    var claudeKey: string
    var testStatus: Option<TestStatus>
    var testing: bool
    var alert: Option<string>

    constructor (store: KeyStore)
      ensures this.store == store
      ensures geminiKey == "" && chatgptKey == "" && claudeKey == ""
      ensures testStatus == None && !testing && alert == None
    {
      this.store := store;
      geminiKey := "";
      chatgptKey := "";
      claudeKey := "";
      testStatus := None;
      testing := false;
      alert := None;
    }

    /** The mount effect: each field shows its stored key, or nothing. */
    method LoadKeys()
      modifies this`geminiKey, this`chatgptKey, this`claudeKey
      ensures geminiKey == FieldValue(store.slot, GeminiId)
      ensures chatgptKey == FieldValue(store.slot, ChatGPTId)
      ensures claudeKey == FieldValue(store.slot, ClaudeId)
    {
      geminiKey := GetAPIKey(store.slot, GeminiId).GetOr("");
      chatgptKey := GetAPIKey(store.slot, ChatGPTId).GetOr("");
      claudeKey := GetAPIKey(store.slot, ClaudeId).GetOr("");
    }

    /** `handleSave`. */
    method HandleSave()
      modifies store, this`alert
      ensures store.slot == SettingsSave(old(store.slot), geminiKey, chatgptKey, claudeKey)
      ensures alert == Some(SavedAlert)
    {
      SaveKeyField(GeminiId, geminiKey);
      SaveKeyField(ChatGPTId, chatgptKey);
      SaveKeyField(ClaudeId, claudeKey);
      alert := Some(SavedAlert);
    }

    /** One field of `handleSave`: saved trimmed unless it is blank. */
    method SaveKeyField(provider: string, field: string)
      modifies store
      ensures store.slot == SaveField(old(store.slot), provider, field)
    {
      if !IsBlank(field) {
        store.SaveAPIKey(provider, Trim(field));
      }
    }

    /** `handleTest(provider, apiKey)`, given the SDK's reply; returns the
        request handed to the SDK, if any. A blank key calls nothing. */
    method HandleTest(provider: string, apiKey: string, sdk: Result<string, string>) returns (request: Option<GeminiRequest>)
      modifies this`testStatus, this`testing
      ensures testStatus == Some(TestOutcome(provider, apiKey, sdk))
      ensures !IsBlank(apiKey) ==> !testing
      ensures request.Some? <==> !IsBlank(apiKey) && provider == GeminiId
      ensures request.Some? ==> request.value == TestRequest()
      ensures IsBlank(apiKey) ==> testing == old(testing)
    {
      if IsBlank(apiKey) {
        testStatus := Some(TestStatus(provider, false, BlankKeyMessage));
        return None;
      }
      testing := true;
      testStatus := None;
      var service := CreateAIService(provider, ServiceConfig(Trim(apiKey), None));
      request := None;
      if service.Failure? {
        var e := service.error;
        testStatus := Some(TestStatus(provider, false, if e == "" then FallbackMessage else e));
      } else {
        if service.value.GeminiService? {
          request := Some(GeminiRequestFor(service.value.model, TestGreeting, [], Some(TestSystemPrompt)));
        }
        var reply := SendMessage(service.value, sdk);
        if reply.Success? {
          testStatus := Some(TestStatus(provider, true, SuccessMessage));
        } else {
          var e := reply.error;
          testStatus := Some(TestStatus(provider, false, if e == "" then FallbackMessage else e));
        }
      }
      testing := false;
    }
  }
}
