/**
 * The customer chat agent (`chatWithAI` and its `handleToolCall`). Unlike
 * the admin test agent it runs every tool call the model makes, in order,
 * appending one tool message per call; its availability answer is a fixed
 * list of four times, and a booking goes to the first staff member.
 * Services and staff come from the signed-in session's tenant.
 */
module ChatTools {
  import opened Wrappers
  import opened Text
  import opened Seqs
  import opened Domain
  import opened IsoTime
  import opened Llm
  import AgentTools

  /** The tool names `chatWithAI` offers. */
  const ChatToolNames: seq<string> := ["get_services", "check_availability", "book_appointment"]

  /** The four times the availability tool always answers: 10:00 AM, 11:30 AM, 2:00 PM and 4:30 PM. */
  const MockSlots: seq<int> := [600, 690, 840, 990]

  datatype ChatServiceSummary = ChatServiceSummary(name: string, price: int, duration: int)

  /** What `handleToolCall` returns, as the JSON it stringifies. */
  datatype ChatPayload =
    | ServiceList(services: seq<ChatServiceSummary>)
    | ChatError(error: string)
    | SlotList(slots: seq<int>, date: int, service: string)
    | Booked(bookingId: string)

  /** A handled call: its answer and the appointment it inserted, or the message it threw. */
  datatype ToolStep = Answered(payload: ChatPayload, inserted: Option<Appointment>) | Threw(message: string)

  /**
   * What the handlers read: the tables, the session's tenant, today's UTC
   * date, the runtime's zone and the database session's zone (each as its
   * offset east of UTC, in minutes).
   */
  datatype ChatContext = ChatContext(store: Store, session: Option<string>, today: int, localOffset: int, dbOffset: int)

  /** `getServices()` with no argument: the session tenant's services, or none. */
  function SessionServices(ctx: ChatContext): seq<Service> {
    if TruthyString(ctx.session) then AgentTools.TenantServices(ctx.store, ctx.session.value) else []
  }

  /** `getStaff()` with no argument: the session tenant's profiles, or none. */
  function SessionStaff(ctx: ChatContext): seq<Profile> {
    if TruthyString(ctx.session) then Filter(ctx.store.profiles, AgentTools.InTenant(ctx.session.value)) else []
  }

  function NameIncludes(query: string): Service -> bool {
    (s: Service) => NameMatches(s.name, query)
  }

  /** The outcome of `services.find(s => s.name.toLowerCase().includes(query.toLowerCase()))`. */
  datatype Match = Found(service: Service) | NoMatch | Throws(message: string)

  /**
   * The first service whose lower-cased name contains the lower-cased
   * query. A missing query throws, but only once there is a service to test.
   */
  function FindByName(services: seq<Service>, query: Option<string>): (r: Match)
    ensures services == [] ==> r == NoMatch
    ensures services != [] && query.None? ==> r == Throws(UndefinedRead("toLowerCase"))
    ensures r.Found? ==> query.Some? && r.service in services && NameMatches(r.service.name, query.value)
    ensures r.Found? ==>
      exists i :: 0 <= i < |services| && services[i] == r.service && (forall j :: 0 <= j < i ==> !NameMatches(services[j].name, query.value))
    ensures r.NoMatch? && query.Some? ==> forall i :: 0 <= i < |services| ==> !NameMatches(services[i].name, query.value)
  {
    if services == [] then NoMatch
    else if query.None? then Throws(UndefinedRead("toLowerCase"))
    else match FirstIndex(services, NameIncludes(query.value))
      case None => NoMatch
      case Some(i) => Found(services[i])
  }

  /** The `RangeError` that `toISOString` throws for an absent or invalid start time. */
  const InvalidTime := "Invalid time value"

  /** The `check_availability` handler. */
  function CheckTool(ctx: ChatContext, args: ToolArgs): ToolStep {
    match FindByName(SessionServices(ctx), args.serviceName)
    case Throws(msg) => Threw(msg)
    case NoMatch => Answered(ChatError("Service not found"), None)
    case Found(s) => Answered(SlotList(MockSlots, args.date.GetOr(ctx.today), s.name), None)
  }

  /**
   * The `book_appointment` handler. The end is computed by the runtime,
   * `new Date(start_time)` plus the duration; the start is stored as the
   * string the model wrote, which the database reads in its own zone.
   */
  function BookTool(ctx: ChatContext, args: ToolArgs, reply: WriteReply): ToolStep {
    match FindByName(SessionServices(ctx), args.serviceName)
    case Throws(msg) => Threw(msg)
    case NoMatch => Answered(ChatError("Service not found. Please pick from list."), None)
    case Found(s) =>
      var staff := SessionStaff(ctx);
      if staff == [] then Answered(ChatError("No staff available"), None)
      else
        var local := if args.startTime.Some? then Instant(args.startTime.value, ctx.localOffset) else None;
        if local.None? then Threw(InvalidTime)
        else if !TruthyString(ctx.session) then Answered(ChatError("No tenant"), None)
        else match reply
          case Failed(msg) => Answered(ChatError(msg), None)
          case Saved(id) =>
            var row := Appointment(id, ctx.session.value, staff[0].id, s.id, args.clientName.GetOr(""),
                                   args.clientPhone.GetOr(""), Instant(args.startTime.value, ctx.dbOffset).value,
                                   local.value + s.durationMinutes, Confirmed, "chat");
            Answered(Booked(id), Some(row))
  }

  /** `handleToolCall(toolCall)`; `reply` answers the insert a booking makes. */
  function HandleToolCall(ctx: ChatContext, call: ToolCall, reply: WriteReply): ToolStep {
    match call.arguments
    case Malformed(msg) => Threw(msg)
    case Parsed(args) =>
      if call.name == "get_services" then
        var ss := SessionServices(ctx);
        Answered(ServiceList(seq(|ss|, i requires 0 <= i < |ss| => ChatServiceSummary(ss[i].name, ss[i].price, ss[i].durationMinutes))), None)
      else if call.name == "check_availability" then CheckTool(ctx, args)
      else if call.name == "book_appointment" then BookTool(ctx, args, reply)
      else Answered(ChatError("Unknown tool"), None)
  }

  /**
   * The availability answer is the four fixed times for the first matching
   * service, on the requested date or today, and never writes.
   */
  lemma CheckAnswers(ctx: ChatContext, call: ToolCall, reply: WriteReply)
    requires call.name == "check_availability" && call.arguments.Parsed?
    requires call.arguments.args.serviceName.Some?
    ensures
      var args := call.arguments.args;
      var step := HandleToolCall(ctx, call, reply);
      && step.Answered? && step.inserted.None?
      && match FindByName(SessionServices(ctx), args.serviceName)
         case Found(s) => step.payload == SlotList(MockSlots, args.date.GetOr(ctx.today), s.name)
         case _ => step.payload == ChatError("Service not found")
  {
  }

  /**
   * A booking is the first matching service, for the first staff member of
   * the tenant, marked as booked through the chat. It starts at the
   * instant the database reads and ends `duration_minutes` (no default)
   * after the instant the runtime reads; the two differ only for a time
   * without a zone, by the difference of the two zones, so the booking
   * lasts exactly the duration when they agree.
   */
  lemma BookingRow(ctx: ChatContext, call: ToolCall, reply: WriteReply)
    requires call.arguments.Parsed?
    ensures
      var args := call.arguments.args;
      var step := HandleToolCall(ctx, call, reply);
      step.Answered? && step.inserted.Some? ==>
        var a := step.inserted.value;
        && call.name == "book_appointment"
        && FindByName(SessionServices(ctx), args.serviceName).Found?
        && a.serviceId == FindByName(SessionServices(ctx), args.serviceName).service.id
        && SessionStaff(ctx) != [] && a.staffId == SessionStaff(ctx)[0].id
        && TruthyString(ctx.session) && a.tenantId == ctx.session.value
        && var d := FindByName(SessionServices(ctx), args.serviceName).service.durationMinutes;
        && args.startTime.Some? && Some(a.start) == Instant(args.startTime.value, ctx.dbOffset)
        && Some(a.end - d) == Instant(args.startTime.value, ctx.localOffset)
        && a.end - a.start == d + (if args.startTime.value.zone.NoZone? then ctx.dbOffset - ctx.localOffset else 0)
        && (ctx.dbOffset == ctx.localOffset || !args.startTime.value.zone.NoZone? ==> a.end - a.start == d)
        && a.bookedVia == "chat" && a.status == Confirmed
        && reply.Saved? && a.id == reply.id && step.payload == Booked(reply.id)
  {
  }

  /** Without staff, a booking with a matching service is refused and writes nothing. */
  lemma NoStaffRefused(ctx: ChatContext, call: ToolCall, reply: WriteReply)
    requires call.name == "book_appointment" && call.arguments.Parsed?
    requires FindByName(SessionServices(ctx), call.arguments.args.serviceName).Found?
    requires SessionStaff(ctx) == []
    ensures HandleToolCall(ctx, call, reply) == Answered(ChatError("No staff available"), None)
  {
  }

  /** A tool name the chat does not offer is answered with an error and writes nothing. */
  lemma UnknownToolRefused(ctx: ChatContext, call: ToolCall, reply: WriteReply)
    requires call.arguments.Parsed? && call.name !in ChatToolNames
    ensures HandleToolCall(ctx, call, reply) == Answered(ChatError("Unknown tool"), None)
  {
  }

  // ------------------------------------------------------------- the loop

  /**
   * The state after the loop has handled some calls: the tool messages
   * appended, the appointments inserted, and the message of the first call
   * that threw, after which no call runs.
   */
  datatype Run = Run(tools: seq<Message<ChatPayload>>, inserted: seq<Appointment>, error: Option<string>)

  /** One pass of the loop body: the handled call `callId` either throws or is appended. */
  function Step(prev: Run, callId: string, step: ToolStep): Run {
    match step
    case Threw(msg) => prev.(error := Some(msg))
    case Answered(p, w) =>
      Run(prev.tools + [ToolOutput(callId, p)], prev.inserted + (if w.Some? then [w.value] else []), None)
  }

  /** The loop over the first `n` calls; `db(i)` answers the insert of call `i`. */
  function RunCalls(ctx: ChatContext, calls: seq<ToolCall>, db: nat -> WriteReply, n: nat): Run
    requires n <= |calls|
    decreases n
  {
    if n == 0 then Run([], [], None)
    else
      var prev := RunCalls(ctx, calls, db, n - 1);
      if prev.error.Some? then prev
      else Step(prev, calls[n - 1].id, HandleToolCall(ctx, calls[n - 1], db(n - 1)))
  }

  /**
   * Until a call throws, the loop appends exactly one tool message per
   * call, in order, each carrying its call's id and answer.
   */
  lemma {:induction false} RunCallsMessages(ctx: ChatContext, calls: seq<ToolCall>, db: nat -> WriteReply, n: nat)
    requires n <= |calls|
    requires RunCalls(ctx, calls, db, n).error.None?
    ensures var r := RunCalls(ctx, calls, db, n);
      && |r.tools| == n
      && forall i :: 0 <= i < n ==>
           HandleToolCall(ctx, calls[i], db(i)).Answered?
           && r.tools[i] == ToolOutput(calls[i].id, HandleToolCall(ctx, calls[i], db(i)).payload)
    decreases n
  {
    if n > 0 {
      var prev := RunCalls(ctx, calls, db, n - 1);
      assert prev.error.None?;
      RunCallsMessages(ctx, calls, db, n - 1);
    }
  }

  /**
   * A throwing call ends the loop: the error is that of the first call that
   * threw, every call before it answered, and only those were appended.
   */
  lemma {:induction false} RunCallsStops(ctx: ChatContext, calls: seq<ToolCall>, db: nat -> WriteReply, n: nat) returns (k: nat)
    requires n <= |calls|
    requires RunCalls(ctx, calls, db, n).error.Some?
    ensures k < n && HandleToolCall(ctx, calls[k], db(k)).Threw?
    ensures RunCalls(ctx, calls, db, n).error == Some(HandleToolCall(ctx, calls[k], db(k)).message)
    ensures RunCalls(ctx, calls, db, n) == RunCalls(ctx, calls, db, k + 1)
    ensures |RunCalls(ctx, calls, db, n).tools| == k
    ensures forall i :: 0 <= i < k ==> HandleToolCall(ctx, calls[i], db(i)).Answered?
    decreases n
  {
    var prev := RunCalls(ctx, calls, db, n - 1);
    if prev.error.Some? {
      k := RunCallsStops(ctx, calls, db, n - 1);
    } else {
      k := n - 1;
      RunCallsMessages(ctx, calls, db, n - 1);
    }
  }

  /** Once a call has thrown, the later calls change nothing. */
  lemma {:induction false} ErrorPersists(ctx: ChatContext, calls: seq<ToolCall>, db: nat -> WriteReply, n: nat, m: nat)
    requires n <= m <= |calls|
    requires RunCalls(ctx, calls, db, n).error.Some?
    ensures RunCalls(ctx, calls, db, m) == RunCalls(ctx, calls, db, n)
    decreases m
  {
    if m > n {
      ErrorPersists(ctx, calls, db, n, m - 1);
    }
  }

  /** The text `chatWithAI` returns and the appointments its calls inserted. */
  datatype ChatOutcome = ChatOutcome(text: Option<string>, inserted: seq<Appointment>)

  /** The result of `chatWithAI(messages, tenantConfig)`. */
  function Chat(ctx: ChatContext, messages: seq<Message<ChatPayload>>, llm: (seq<Message<ChatPayload>>, seq<string>) -> Reply,
                db: nat -> WriteReply): ChatOutcome
  {
    var conversation := [SystemPrompt] + messages;
    var response := llm(conversation, ChatToolNames);
    match response.toolCalls
    case None => ChatOutcome(response.content, [])
    case Some(calls) =>
      var r := RunCalls(ctx, calls, db, |calls|);
      match r.error
      case Some(msg) => ChatOutcome(Some("Error: " + msg), r.inserted)
      case None => ChatOutcome(llm(conversation + [AssistantReply(response)] + r.tools, []).content, r.inserted)
  }

  /**
   * `chatWithAI`, with the `for...of` loop pushing onto the conversation. An
   * exception leaves the appointments inserted before it in place.
   */
  method ChatWithAI(ctx: ChatContext, messages: seq<Message<ChatPayload>>, llm: (seq<Message<ChatPayload>>, seq<string>) -> Reply,
                    db: nat -> WriteReply) returns (text: Option<string>, inserted: seq<Appointment>)
    ensures ChatOutcome(text, inserted) == Chat(ctx, messages, llm, db)
  {
    var conversation := [SystemPrompt] + messages;
    var response := llm(conversation, ChatToolNames);
    if response.toolCalls.None? {
      return response.content, [];
    }
    var calls := response.toolCalls.value;
    var head := conversation + [AssistantReply(response)];
    conversation := head;
    inserted := [];
    var i := 0;
    while i < |calls|
      invariant 0 <= i <= |calls|
      invariant RunCalls(ctx, calls, db, i).error.None?
      invariant conversation == head + RunCalls(ctx, calls, db, i).tools
      invariant inserted == RunCalls(ctx, calls, db, i).inserted
    {
      var step := HandleToolCall(ctx, calls[i], db(i));
      ghost var next := Step(RunCalls(ctx, calls, db, i), calls[i].id, step);
      assert RunCalls(ctx, calls, db, i + 1) == next;
      if step.Threw? {
        ErrorPersists(ctx, calls, db, i + 1, |calls|);
        assert RunCalls(ctx, calls, db, |calls|) == next;
        return Some("Error: " + step.message), inserted;
      }
      conversation := conversation + [ToolOutput(calls[i].id, step.payload)];
      if step.inserted.Some? {
        inserted := inserted + [step.inserted.value];
      }
      i := i + 1;
    }
    text := llm(conversation, []).content;
  }

  /**
   * A call that throws ends the chat with "Error: " and the first thrown
   * call's message; no second request is made, and the appointments the
   * calls before it inserted stay inserted.
   */
  lemma ChatThrows(ctx: ChatContext, messages: seq<Message<ChatPayload>>, llm: (seq<Message<ChatPayload>>, seq<string>) -> Reply,
                   db: nat -> WriteReply) returns (k: nat)
    requires llm([SystemPrompt] + messages, ChatToolNames).toolCalls.Some?
    requires var calls := llm([SystemPrompt] + messages, ChatToolNames).toolCalls.value;
      RunCalls(ctx, calls, db, |calls|).error.Some?
    ensures var calls := llm([SystemPrompt] + messages, ChatToolNames).toolCalls.value;
      && k < |calls| && HandleToolCall(ctx, calls[k], db(k)).Threw?
      && (forall i :: 0 <= i < k ==> HandleToolCall(ctx, calls[i], db(i)).Answered?)
      && Chat(ctx, messages, llm, db) == ChatOutcome(Some("Error: " + HandleToolCall(ctx, calls[k], db(k)).message),
                                                     RunCalls(ctx, calls, db, k + 1).inserted)
  {
    var calls := llm([SystemPrompt] + messages, ChatToolNames).toolCalls.value;
    k := RunCallsStops(ctx, calls, db, |calls|);
  }

  /**
   * With tool calls and no exception, the second request sees the
   * conversation, the model's reply, and one tool message per call in order.
   */
  lemma ChatHistory(ctx: ChatContext, messages: seq<Message<ChatPayload>>, llm: (seq<Message<ChatPayload>>, seq<string>) -> Reply,
                    db: nat -> WriteReply)
    ensures
      var conversation := [SystemPrompt] + messages;
      var response := llm(conversation, ChatToolNames);
      response.toolCalls.Some? && RunCalls(ctx, response.toolCalls.value, db, |response.toolCalls.value|).error.None? ==>
        var calls := response.toolCalls.value;
        var tools := RunCalls(ctx, calls, db, |calls|).tools;
        && Chat(ctx, messages, llm, db).text == llm(conversation + [AssistantReply(response)] + tools, []).content
        && |tools| == |calls|
        && forall i :: 0 <= i < |calls| ==> tools[i].ToolOutput? && tools[i].callId == calls[i].id
  {
    var conversation := [SystemPrompt] + messages;
    var response := llm(conversation, ChatToolNames);
    if response.toolCalls.Some? {
      var calls := response.toolCalls.value;
      if RunCalls(ctx, calls, db, |calls|).error.None? {
        RunCallsMessages(ctx, calls, db, |calls|);
      }
    }
  }
}
