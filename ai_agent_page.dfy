/**
 * The AI-agent page of the admin console: the agent configuration it
 * loads (defaults, then the tenant's name, then the saved settings), the
 * test chat that sends the conversation to `testAIChat`, and the list of
 * boss profiles it edits in place.
 */
module AiAgentPage {
  import opened Wrappers
  import opened Text
  import opened Seqs
  import opened Domain
  import opened Llm
  import opened AgentTools
  import opened AgentChat

  // -------------------------------------------------------------- config

  /** A configuration value: the settings are text except `max_retries`. */
  datatype ConfigValue = TextValue(text: string) | NumberValue(number: int)

  type Config = map<string, ConfigValue>

  /** The page's initial configuration. */
  const DefaultConfig: Config := map[
    "name" := TextValue("Touch Labs"),
    "context" := TextValue(""),
    "persona_name" := TextValue("Luna"),
    "greeting" := TextValue("Hi! Thank you for calling. This is Luna, your AI booking assistant. How can I help you today?"),
    "escalation_phone" := TextValue(""),
    "voice_style" := TextValue("friendly, professional, warm."),
    "max_retries" := NumberValue(2),
    "llm_provider" := TextValue("groq")]

  /**
   * `{ ...prev, name: tenant.name || 'Touch Labs', ...savedAI }` with
   * `savedAI = tenant.ai_config || {}`.
   */
  function MergeConfig(prev: Config, tenantName: Option<string>, saved: Option<Config>): (r: Config)
    ensures r.Keys == prev.Keys + {"name"} + saved.GetOr(map[]).Keys
    ensures forall k :: k in saved.GetOr(map[]) ==> r[k] == saved.GetOr(map[])[k]
    ensures "name" !in saved.GetOr(map[]) ==> r["name"] == TextValue(StringOr(tenantName, "Touch Labs"))
    ensures forall k :: k in prev && k != "name" && k !in saved.GetOr(map[]) ==> r[k] == prev[k]
  {
    (prev + map["name" := TextValue(StringOr(tenantName, "Touch Labs"))]) + saved.GetOr(map[])
  }

  /** `const { name, ...aiConfig } = config`: the saved tenant name and the saved `ai_config`. */
  function SplitConfig(config: Config): (Option<string>, Config) {
    (if "name" in config && config["name"].TextValue? then Some(config["name"].text) else None,
     config - {"name"})
  }

  /**
   * Saving a configuration and loading the page again gives the same
   * configuration back, when it has every default key and a non-empty name.
   */
  lemma SaveThenLoadConfig(config: Config)
    requires DefaultConfig.Keys <= config.Keys
    requires config["name"].TextValue? && config["name"].text != ""
    ensures var (name, ai) := SplitConfig(config);
      MergeConfig(DefaultConfig, name, Some(ai)) == config
  {
    var (name, ai) := SplitConfig(config);
    var r := MergeConfig(DefaultConfig, name, Some(ai));
    assert r.Keys == config.Keys;
    forall k | k in config ensures r[k] == config[k] {
    }
  }

  /** A name cleared before saving comes back as 'Touch Labs'. */
  lemma ClearedNameReloads(config: Config)
    requires config["name" := TextValue("")] == config
    ensures var (name, ai) := SplitConfig(config);
      MergeConfig(DefaultConfig, name, Some(ai))["name"] == TextValue("Touch Labs")
  {
    assert "name" in config;
  }

  // ----------------------------------------------------------- test chat

  /** The test chat: its messages and the text in its input box. */
  datatype ChatPanel = ChatPanel(messages: seq<Message<Payload>>, input: string)

  const MissingTenant := "\U{26A0}\U{FE0F} Error: Tenant Context is missing. Please refresh the page or check your account setup."

  const NoResponse := "Error: No response"

  /** The panel after a send, and the history sent to `testAIChat`, if any. */
  datatype Send = Send(panel: ChatPanel, request: Option<seq<Message<Payload>>>)

  /** The first half of `handleSendMessage`, up to the call to `testAIChat`. */
  function SendMessage(panel: ChatPanel, tenantId: string): (r: Send)
    ensures Trim(panel.input) == "" ==> r == Send(panel, None)
    ensures Trim(panel.input) != "" && tenantId == "" ==>
      r == Send(ChatPanel(panel.messages + [Chat("user", panel.input), Chat("assistant", MissingTenant)], ""), None)
    ensures Trim(panel.input) != "" && tenantId != "" ==>
      r.request == Some(panel.messages + [Chat("user", panel.input)]) && r.panel == ChatPanel(r.request.value, "")
  {
    if Trim(panel.input) == "" then Send(panel, None)
    else if tenantId == "" then
      Send(ChatPanel(panel.messages + [Chat("user", panel.input), Chat("assistant", MissingTenant)], ""), None)
    else
      var history := panel.messages + [Chat("user", panel.input)];
      Send(ChatPanel(history, ""), Some(history))
  }

  /** The second half: `[...prev, { role: 'assistant', content: response || 'Error: No response' }]`. */
  function ReceiveReply(messages: seq<Message<Payload>>, response: Option<string>): (r: seq<Message<Payload>>)
    ensures |r| == |messages| + 1 && r[..|messages|] == messages
    ensures r[|messages|].Chat? && r[|messages|].role == "assistant" && r[|messages|].content != ""
  {
    messages + [Chat("assistant", StringOr(response, NoResponse))]
  }

  /**
   * A message sent with a tenant reaches the agent as the old history plus
   * the user's message, and the history then ends with that message and
   * the agent's text (or 'Error: No response' when there is none).
   */
  lemma SendToAgent(store: Store, panel: ChatPanel, tenantId: string, session: Option<string>, today: int,
                    llm: (seq<Message<Payload>>, seq<string>) -> Reply, reply: WriteReply, accounts: AccountSetup)
    requires Trim(panel.input) != "" && tenantId != ""
    ensures var s := SendMessage(panel, tenantId);
      && s.request == Some(panel.messages + [Chat("user", panel.input)])
      && var answer := TestAIChat(store, s.request.value, Some(tenantId), session, today, llm, reply, accounts).text;
      && ReceiveReply(s.panel.messages, answer)
         == panel.messages + [Chat("user", panel.input), Chat("assistant", StringOr(answer, NoResponse))]
      && s.panel.input == ""
  {
    var s := SendMessage(panel, tenantId);
    var answer := TestAIChat(store, s.request.value, Some(tenantId), session, today, llm, reply, accounts).text;
    ReplyAfter(panel.messages, Chat("user", panel.input), answer);
  }

  /** The reply is appended after the history the request carried. */
  lemma ReplyAfter(messages: seq<Message<Payload>>, sent: Message<Payload>, answer: Option<string>)
    ensures ReceiveReply(messages + [sent], answer) == messages + [sent, Chat("assistant", StringOr(answer, NoResponse))]
  {
  }

  // ----------------------------------------------------------- boss list

  function WithoutId(id: string): BossProfile -> bool {
    (p: BossProfile) => p.id != id
  }

  /** `prev.filter((p) => p.id !== bp.id)` after a removal. */
  function RemoveBoss(list: seq<BossProfile>, id: string): (r: seq<BossProfile>)
    ensures forall i :: 0 <= i < |r| ==> r[i].id != id && r[i] in list
    ensures forall i :: 0 <= i < |list| && list[i].id != id ==> list[i] in r
  {
    Filter(list, WithoutId(id))
  }

  /** `[result.data, ...prev]` after a creation: the new profile first, as the newest-first list has it. */
  function AddBoss(list: seq<BossProfile>, created: BossProfile): (r: seq<BossProfile>)
    ensures |r| == |list| + 1 && r[0] == created && r[1..] == list
  {
    [created] + list
  }

  /**
   * Removing an id nobody has leaves the list as it is, and removing a
   * profile just added, whose id is new, gives back the list before it.
   */
  lemma BossListEdits(list: seq<BossProfile>, created: BossProfile, id: string)
    requires forall i :: 0 <= i < |list| ==> list[i].id != id
    ensures RemoveBoss(list, id) == list
    ensures created.id == id ==> RemoveBoss(AddBoss(list, created), id) == list
  {
    FilterAll(list, WithoutId(id));
    if created.id == id {
      FilterConcat([created], list, WithoutId(id));
      assert [created][1..] == [];
    }
  }
}
