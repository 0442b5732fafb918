/**
 * `testAIChat`, the admin page's agent: the tools offered to the language
 * model (the admin tools only when the tenant has an active boss), the
 * dispatch of the first tool call the model makes, and the follow-up
 * request that turns the tool's result into the reply text.
 */
module AgentChat {
  import opened Wrappers
  import opened Seqs
  import opened Domain
  import opened IsoTime
  import opened Llm
  import opened Availability
  import opened AgentTools

  const BaseTools: seq<string> := ["get_services", "check_availability", "book_appointment"]

  const AdminTools: seq<string> :=
    ["create_staff", "delete_staff", "list_staff", "set_staff_schedule", "create_service", "update_service", "delete_service"]

  function ActiveBossOf(tenant: string): BossProfile -> bool {
    (b: BossProfile) => b.tenantId == tenant && b.isActive
  }

  /** The boss-profile query: the tenant's active bosses. */
  function BossRoster(bosses: seq<BossProfile>, tenant: string): seq<BossProfile> {
    Filter(bosses, ActiveBossOf(tenant))
  }

  predicate HasBossMode(bosses: seq<BossProfile>, tenant: string) {
    BossRoster(bosses, tenant) != []
  }

  /** The names in the `tools` array: the three customer tools, then the admin tools in boss mode. */
  function OfferedTools(bosses: seq<BossProfile>, tenant: string): seq<string> {
    BaseTools + (if HasBossMode(bosses, tenant) then AdminTools else [])
  }

  /**
   * The tool list always starts with the three customer tools, and an
   * admin tool is offered exactly when the tenant has an active boss.
   */
  lemma ToolGating(bosses: seq<BossProfile>, tenant: string, name: string)
    requires name in AdminTools
    ensures OfferedTools(bosses, tenant)[..|BaseTools|] == BaseTools
    ensures name in OfferedTools(bosses, tenant) <==>
      exists i :: 0 <= i < |bosses| && bosses[i].tenantId == tenant && bosses[i].isActive
  {
    var tools := OfferedTools(bosses, tenant);
    assert tools[..|BaseTools|] == BaseTools;
    assert name !in BaseTools;
    if exists i :: 0 <= i < |bosses| && bosses[i].tenantId == tenant && bosses[i].isActive {
      var i :| 0 <= i < |bosses| && bosses[i].tenantId == tenant && bosses[i].isActive;
      assert bosses[i] in BossRoster(bosses, tenant);
    } else if HasBossMode(bosses, tenant) {
      var b := BossRoster(bosses, tenant)[0];
      assert b in bosses;
    }
  }

  // ------------------------------------------------------------- dispatch

  /** The `if` chain over the tool name, run for the call's parsed arguments. */
  function Dispatch(store: Store, tenant: string, session: Option<string>, today: int, call: ToolCall,
                    reply: WriteReply, accounts: AccountSetup): Dispatched {
    match call.arguments
    case Malformed(msg) => Dispatched(NoWrite, Thrown(msg))
    case Parsed(args) =>
      var name := call.name;
      if name == "get_services" then GetServicesTool(store, tenant)
      else if name == "check_availability" then CheckAvailabilityTool(store, tenant, session, today, args)
      else if name == "book_appointment" then BookAsWritten(store, tenant, session, args, reply)
      else if name == "list_staff" then ListStaffTool(store, tenant)
      else if name == "create_staff" then CreateStaffTool(tenant, args, accounts, reply)
      else if name == "delete_staff" then Acknowledge(DeleteStaff(args.staffId.GetOr("undefined")), reply)
      else if name == "set_staff_schedule" then SetStaffScheduleTool(session, args, reply)
      else if name == "create_service" then CreateServiceTool(session, args, reply)
      else if name == "update_service" then UpdateServiceTool(store, tenant, args, reply)
      else if name == "delete_service" then Acknowledge(DeleteService(args.serviceId.GetOr("undefined")), reply)
      else Dispatched(NoWrite, Result(Empty))
  }

  /**
   * Arguments that are not JSON throw before any branch runs, and a name
   * outside both tool lists leaves the result empty and writes nothing.
   */
  lemma DispatchEdges(store: Store, tenant: string, session: Option<string>, today: int, call: ToolCall,
                      reply: WriteReply, accounts: AccountSetup)
    ensures call.arguments.Malformed? ==>
      Dispatch(store, tenant, session, today, call, reply, accounts) == Dispatched(NoWrite, Thrown(call.arguments.error))
    ensures call.arguments.Parsed? && call.name !in BaseTools && call.name !in AdminTools ==>
      Dispatch(store, tenant, session, today, call, reply, accounts) == Dispatched(NoWrite, Result(Empty))
  {
  }

  // ------------------------------------------------------------ the chat

  /** The outcome of one `testAIChat` call: the returned text and the write the tool made. */
  datatype ChatResult = ChatResult(text: Option<string>, write: Write)

  const NoContext := "Error: Could not identify business context. (ID Missing)"

  /** The `catch` block's text, with its trailing space. */
  function CaughtError(msg: string): string {
    "Error: " + msg + " "
  }

  /** `[...conversation, responseMessage, { role: 'tool', tool_call_id, content }]` */
  function FollowUp(conversation: seq<Message<Payload>>, response: Reply, callId: string, p: Payload): seq<Message<Payload>> {
    conversation + [AssistantReply(response), ToolOutput(callId, p)]
  }

  /**
   * `testAIChat(messages, tenantConfig, tenantArg)`. The model is `llm`,
   * a function of the conversation and the offered tool names (the second
   * request offers none); `reply` answers the tool's one write and
   * `accounts` describes the account service `create_staff` meets; `today`
   * is the current UTC date. `book_appointment` runs as written
   * (`BookAsWritten`).
   */
  function TestAIChat(store: Store, messages: seq<Message<Payload>>, tenantArg: Option<string>, session: Option<string>,
                      today: int, llm: (seq<Message<Payload>>, seq<string>) -> Reply, reply: WriteReply, accounts: AccountSetup): (r: ChatResult)
    ensures !TruthyString(OptionStringOr(tenantArg, session)) ==> r == ChatResult(Some(NoContext), NoWrite)
  {
    var active := OptionStringOr(tenantArg, session);
    if !TruthyString(active) then ChatResult(Some(NoContext), NoWrite)
    else
      var tenant := active.value;
      var conversation := [SystemPrompt] + messages;
      var response := llm(conversation, OfferedTools(store.bosses, tenant));
      match response.toolCalls
      case None => ChatResult(response.content, NoWrite)
      case Some(calls) =>
        if calls == [] then ChatResult(Some(CaughtError(UndefinedRead("function"))), NoWrite)
        else
          var d := Dispatch(store, tenant, session, today, calls[0], reply, accounts);
          match d.outcome
          case Thrown(msg) => ChatResult(Some(CaughtError(msg)), d.write)
          case Result(p) => ChatResult(llm(FollowUp(conversation, response, calls[0].id, p), []).content, d.write)
  }

  /**
   * With a tenant, the model sees the system prompt and then the page's
   * messages, with the tools of `OfferedTools`; a reply without tool calls
   * is returned as it is and writes nothing.
   */
  lemma PlainReply(store: Store, messages: seq<Message<Payload>>, tenantArg: Option<string>, session: Option<string>,
                   today: int, llm: (seq<Message<Payload>>, seq<string>) -> Reply, reply: WriteReply, accounts: AccountSetup)
    requires TruthyString(OptionStringOr(tenantArg, session))
    requires llm([SystemPrompt] + messages, OfferedTools(store.bosses, OptionStringOr(tenantArg, session).value)).toolCalls.None?
    ensures
      var response := llm([SystemPrompt] + messages, OfferedTools(store.bosses, OptionStringOr(tenantArg, session).value));
      TestAIChat(store, messages, tenantArg, session, today, llm, reply, accounts) == ChatResult(response.content, NoWrite)
  {
  }

  /**
   * Only the first call is dispatched: the write, and the tool message of
   * the follow-up, depend on `calls[0]` alone. The follow-up is the
   * conversation, then the model's reply, then one tool message with that
   * call's id, and the text is the model's answer to it with no tools.
   */
  lemma FirstCallOnly(store: Store, messages: seq<Message<Payload>>, tenant: string, session: Option<string>,
                      today: int, llm: (seq<Message<Payload>>, seq<string>) -> Reply, reply: WriteReply, accounts: AccountSetup)
    requires tenant != ""
    ensures
      var conversation := [SystemPrompt] + messages;
      var response := llm(conversation, OfferedTools(store.bosses, tenant));
      var r := TestAIChat(store, messages, Some(tenant), session, today, llm, reply, accounts);
      response.toolCalls.Some? && response.toolCalls.value != [] ==>
        var call := response.toolCalls.value[0];
        var d := Dispatch(store, tenant, session, today, call, reply, accounts);
        && r.write == d.write
        && (d.outcome.Thrown? ==> r.text == Some(CaughtError(d.outcome.message)))
        && (d.outcome.Result? ==>
              var f := FollowUp(conversation, response, call.id, d.outcome.payload);
              && r.text == llm(f, []).content
              && |f| == |messages| + 3 && f[0] == SystemPrompt && f[1..|messages| + 1] == messages
              && f[|messages| + 1] == AssistantReply(response)
              && f[|messages| + 2] == ToolOutput(call.id, d.outcome.payload))
  {
    var conversation := [SystemPrompt] + messages;
    var response := llm(conversation, OfferedTools(store.bosses, tenant));
    if response.toolCalls.Some? && response.toolCalls.value != [] {
      var call := response.toolCalls.value[0];
      var d := Dispatch(store, tenant, session, today, call, reply, accounts);
      if d.outcome.Result? {
        var f := FollowUp(conversation, response, call.id, d.outcome.payload);
        assert f[1..|messages| + 1] == messages;
      }
    }
  }

  /**
   * An empty `tool_calls` array is truthy, so `tool_calls[0].function`
   * throws: the text is the caught `TypeError` and nothing is written.
   */
  lemma EmptyToolCalls(store: Store, messages: seq<Message<Payload>>, tenant: string, session: Option<string>,
                       today: int, llm: (seq<Message<Payload>>, seq<string>) -> Reply, reply: WriteReply, accounts: AccountSetup)
    requires tenant != ""
    requires llm([SystemPrompt] + messages, OfferedTools(store.bosses, tenant)).toolCalls == Some([])
    ensures TestAIChat(store, messages, Some(tenant), session, today, llm, reply, accounts)
         == ChatResult(Some(CaughtError(UndefinedRead("function"))), NoWrite)
  {
  }

  /**
   * The chat books on top of an existing appointment: when the model asks
   * to book `CxArgs` ("Friday 01:00 at +05:00"), the insert is `CxRow`,
   * which overlaps the same member's confirmed booking `CxBooked`.
   */
  lemma ChatDoubleBooks(messages: seq<Message<Payload>>, today: int,
                        llm: (seq<Message<Payload>>, seq<string>) -> Reply, accounts: AccountSetup)
    requires llm([SystemPrompt] + messages, OfferedTools(CxStore.bosses, "t")).toolCalls
          == Some([ToolCall("c1", "book_appointment", Parsed(CxArgs))])
    ensures TestAIChat(CxStore, messages, Some("t"), None, today, llm, Saved("a1"), accounts).write == InsertAppointment(CxRow)
    ensures CxRow.staffId == CxBooked.staffId && CxBooked.status != Cancelled
         && Overlaps(Interval(CxBooked.start, CxBooked.end), CxRow.start, CxRow.end)
  {
    CxBooksRow();
  }
}
