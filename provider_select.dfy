/** The provider picker (`/chat`): the fixed list of AI providers with
    whether each has a key, and where choosing one leads. */
module ProviderSelect {
  import opened Wrappers
  import opened Strings
  import opened AiService

  datatype ProviderStatus = Ready | NeedsConfig

  datatype ProviderInfo = ProviderInfo(id: string, name: string, status: ProviderStatus)

  function StatusFor(slot: StoredKeys, id: string): ProviderStatus {
    if HasAPIKey(slot, id) then Ready else NeedsConfig
  }

  /** `loadProviders`: Gemini, ChatGPT and Claude, in that order, each ready
      exactly when a non-blank key is stored for it. */
  function ProviderList(slot: StoredKeys): (r: seq<ProviderInfo>)
    ensures |r| == 3
    ensures r[0].id == GeminiId && r[0].name == "Google Gemini"
    ensures r[1].id == ChatGPTId && r[1].name == "ChatGPT"
    ensures r[2].id == ClaudeId && r[2].name == "Claude"
    ensures forall i :: 0 <= i < |r| ==> (r[i].status == Ready <==> HasAPIKey(slot, r[i].id))
  {
    [ ProviderInfo(GeminiId, "Google Gemini", StatusFor(slot, GeminiId)),
      ProviderInfo(ChatGPTId, "ChatGPT", StatusFor(slot, ChatGPTId)),
      ProviderInfo(ClaudeId, "Claude", StatusFor(slot, ClaudeId)) ]
  }

  /** What choosing a provider does: an alert, or a navigation. */
  datatype Selection = ComingSoon(alert: string) | Navigate(path: string)

  /** `handleProviderSelect`: every provider but Gemini only alerts; Gemini
      goes to the settings when it needs a key and to its chats otherwise. */
  function SelectProvider(p: ProviderInfo): (r: Selection)
    ensures r.ComingSoon? <==> p.id != GeminiId
    ensures r.ComingSoon? ==> r.alert == p.name + " integration is coming soon! Please use Gemini for now."
    ensures p.id == GeminiId && p.status == NeedsConfig ==> r == Navigate("/chat/settings")
    ensures p.id == GeminiId && p.status == Ready ==> r == Navigate("/chat/gemini")
  {
    if p.id != GeminiId then ComingSoon(p.name + " integration is coming soon! Please use Gemini for now.")
    else if p.status == NeedsConfig then Navigate("/chat/settings")
    else Navigate("/chat/" + p.id)
  }

  /** Of the listed providers only the first one, Gemini, ever navigates,
      and it reaches its chats exactly when a Gemini key is stored. */
  lemma OnlyGeminiNavigates(slot: StoredKeys, i: nat)
    requires i < 3
    ensures SelectProvider(ProviderList(slot)[i]).Navigate? <==> i == 0
    ensures i == 0 ==> (SelectProvider(ProviderList(slot)[i]) == Navigate("/chat/gemini") <==> HasAPIKey(slot, GeminiId))
  {
    var ps := ProviderList(slot);
    assert ps[1].id != GeminiId && ps[2].id != GeminiId by {
      assert ps[1].id[0] == 'c' && ps[2].id[0] == 'c' && GeminiId[0] == 'g';
    }
  }

  /** Saving a non-blank Gemini key turns the picker's Gemini entry into a
      link to the Gemini chats. */
  lemma SavedGeminiKeyOpensChats(slot: StoredKeys, apiKey: string)
    requires !IsBlank(apiKey)
    ensures SelectProvider(ProviderList(KeysAfterSave(slot, GeminiId, apiKey))[0]) == Navigate("/chat/gemini")
  {
    SavedKeyIsConfigured(slot, GeminiId, apiKey);
  }
}
