# Touch Labs booking core, modelled in Dafny

Touch Labs is a multi-tenant booking back office for service businesses:
salons, clinics and the like. Staff have weekly working hours, and customers
book services with them. An AI receptionist answers chats and calls. It can
list services, check availability and book. A "boss" using the admin test
chat can also manage staff, schedules and services.

This project models the decision logic of that system and proves what it
promises:

- **Availability** (`Availability`). This is the slot search of
  `getAvailableSlots`. It builds a 30-minute grid over the day's working
  rows and offers a grid instant when some row covers the whole service
  duration and its staff member has no overlapping booking that is not
  cancelled. The first such row, in store order, names the staff member.
  The model has the source's loops as methods (`BuildBusyMap`, `DayBounds`,
  `ScanGrid`, `GetAvailableSlots`), each proved against a specification
  function. The lemmas state soundness, completeness, shape, and that a
  booking takes its slot.
- **The admin test agent** (`AgentTools`, `AgentChat`). This covers which
  tools are offered (admin tools only in boss mode), that only the first
  tool call runs, and each tool's branch, including the `update_service`
  merge and the `create_service` defaults. The chat (`TestAIChat`) runs
  `book_appointment` as written (`BookAsWritten`), which can double-book
  (`ChatDoubleBooks`). A corrected branch that checks the UTC day of the
  booked instant (`BookAppointment`) is modelled beside it, and its
  bookings are proved free (`BookedSlotIsFree`). The chat does not call
  the corrected branch.
- **The customer chat** (`ChatTools`). This covers `handleToolCall` and the
  `chatWithAI` loop, which appends one tool message per call.
- **Smaller rules** from `actions.ts`:
  - `ScheduleStore`: schedule replacement and the default week;
  - `BossCodes`: boss codes and their lookup key;
  - `IsoTime`: start-time normalisation;
  - `SqlLike`: PostgreSQL's `LIKE`/`ILIKE` and PostgREST's `*` alias for `%`, used by the service search.
- **The admin pages**: the pure helpers and state updates in the schedules,
  appointments, AI-agent, calls, dashboard, onboarding, staff and layout
  components.

Shared vocabulary lives in these modules: `Domain` (tables, time, JavaScript
`||`), `Text` (strings), `Seqs` (`find`, `filter`), `Llm` (messages and tool
calls) and `Wrappers` (`Option`).

How the model represents things:

- **Time.** Instants are integer minutes since 1970-01-01T00:00Z. A date is
  a day number, and the weekday is taken in UTC.
- **Slot labels.** A slot's `h:mm AM/PM` label is rendered in UTC, so it is
  one-to-one with the minute of the day. The model uses that minute as the
  label.
- **Database.** Its tables are sequences in query order.
- **Outside answers.** Each answer to a write is a parameter, and so is the
  language model, as a function from the conversation and the offered tool
  names to a reply.

## Model

| member | source | states |
|---|---|---|
| Availability.BuildBusyMap | src/lib/actions.ts:708-715 | The loop's map is `BusyMap`: every appointment pushed onto its staff member's list, in list order |
| Availability.LookupBusyMap | src/lib/actions.ts:708-715 | Looking a staff member up in the busy map, a missing entry read as empty, gives exactly that member's intervals, in order |
| Availability.BusyOfOverlap | src/lib/actions.ts:758-759 | A member's busy list overlaps `[t, t+d)` iff one of that member's appointments overlaps it |
| Availability.MinStart | src/lib/actions.ts:722-732 | The earliest row start, or 24:00 with no rows: a lower bound of every start, attained by one |
| Availability.MaxEnd | src/lib/actions.ts:722-732 | The latest row end, or 00:00 with no rows: an upper bound of every end, attained by one |
| Availability.DayBounds | src/lib/actions.ts:722-732 | The loop over the rows computes `MinStart` and `MaxEnd` |
| Availability.FirstFitSpec | src/lib/actions.ts:747-762 | `find`: the first row that fits at `t`, every earlier row failing; none when no row fits |
| Availability.ScanGrid | src/lib/actions.ts:743-771 | The grid loop computes `Scan` from the earliest start to the capped close |
| Availability.GetAvailableSlots | src/lib/actions.ts:663-779 | The whole action, step by step, returns `SlotsFor`: tenant, service (the first tenant service with `name ILIKE '%query%'`, each `*` read as `%`), rows, bounds, then the grid |
| Availability.LiteralQuerySelects | src/lib/actions.ts:668-673 | A query without `%`, `_`, backslash or `*` finds the first tenant service whose lower-cased name contains the lower-cased query |
| Availability.PercentQuerySelectsAny | src/lib/actions.ts:668-673 | The query `%` finds the tenant's first service, whatever its name |
| Availability.StarQuerySelectsAny | src/lib/actions.ts:668-673 | The query `*` also finds the tenant's first service, whatever its name |
| SqlLike.StarlessUnchanged | src/lib/actions.ts:673 | A filter value without `*` reaches the database unchanged, and so does `%q%` around it |
| SqlLike.StarIsPercent | src/lib/actions.ts:673 | The query `*` reaches the database as the pattern `%%%` |
| SqlLike.LikeAny | src/lib/actions.ts:673 | A lone `%` matches every string |
| SqlLike.LikePrefix | src/lib/actions.ts:673 | A pattern without `%` or backslash, followed by `%`, matches exactly the strings it fits at the start, `_` standing for any one character |
| SqlLike.LikeSomewhere | src/lib/actions.ts:673 | `%q%` matches exactly the strings that `q` fits somewhere in |
| SqlLike.FitsLiteral | src/lib/actions.ts:673 | For a query without pattern characters, fitting somewhere is being a substring |
| SqlLike.LowerKeepsPattern | src/lib/actions.ts:673 | Lower-casing commutes with wrapping in `%` and creates no pattern character |
| SqlLike.ILikeLiteral | src/lib/actions.ts:673 | For a query without pattern characters, `ILIKE '%q%'` is the case-insensitive substring test |
| SqlLike.PercentMatchesAll | src/lib/actions.ts:673 | The query `%` matches every name |
| SqlLike.UnderscoreMatchesAnyChar | src/lib/actions.ts:673 | The query `_` matches every name that is not empty |
| SqlLike.UnderscoreFindsSpace | src/lib/actions.ts:673 | The query `a_b` matches the name `a b`: `hair_cut` finds `Hair Cut` |
| Availability.FitsMeaning | src/lib/actions.ts:747-762 | The `find` test holds iff the row covers `[m, m+d)` and none of its staff's appointments overlaps it |
| Availability.OpenDayShape | src/lib/actions.ts:737-771 | Slots lie on the 30-minute grid from the earliest start, stay below the latest end and 24:00, strictly ascend, and are exactly the staff map's keys |
| Availability.OpenDaySound | src/lib/actions.ts:747-769 | Each slot's recorded staff member is on the first row, in store order, that is free for the whole duration |
| Availability.StaffRow | src/lib/actions.ts:747-768 | The member offered at a minute holds the first free row at that minute |
| Availability.OpenDayComplete | src/lib/actions.ts:743-769 | Every grid minute at which some row is free is offered |
| Availability.OpenUnfold | src/lib/actions.ts:663-779 | An open result has a tenant and a found service, and is the grid loop over the day's rows |
| Availability.EmptyResults | src/lib/actions.ts:665-735 | 'No tenant' iff the tenant is falsy; 'not found' iff no tenant service has `name ILIKE '%query%'`, each `*` read as `%`; 'No staff working' iff no row is on shift; a closed day has max end ≤ min start; results without slots have no slots and no staff |
| Availability.IgnoredAppointment | src/lib/actions.ts:700-706 | A cancelled appointment, or one of another tenant or day, never changes the result |
| Availability.SlotsForService | src/lib/actions.ts:668-692 | With the tenant and the service found, the result is `ForService` of that service |
| Availability.BookedNotOffered | src/lib/actions.ts:754-762 | A member with a blocking appointment from minute `m` is not offered at `m` |
| Availability.BookingTakesSlot | src/lib/actions.ts:695-769 | After booking the offered member at a slot, availability no longer offers that member there |
| Availability.AppendBlocking | src/lib/actions.ts:700-706 | An appended blocking appointment is among the day's queried appointments |
| Availability.ForServiceOpen | src/lib/actions.ts:692-735 | The result for a known service is an open day iff the day's rows open before they close |
| Availability.BookingOnService | src/lib/actions.ts:695-769 | `BookingTakesSlot` for a known tenant and service |
| Availability.SlotOffered | src/lib/actions.ts:663-779 | An offered minute is a minute of the day, and its member holds a working row covering the duration, clear of every blocking appointment |
| Availability.SlotFree | src/lib/actions.ts:663-779 | Conversely, a grid minute with a free working row is offered to someone |
| Availability.ServiceSlotFree | src/lib/actions.ts:692-769 | For a known service, a grid minute with a free working row is offered to someone |
| IsoTime.AppendZ | src/lib/actions.ts:1070-1072 | Appending `Z` gives a string ending in `Z` |
| IsoTime.Normalize | src/lib/actions.ts:1070-1072 | Normalisation keeps the written date and clock, and ends in `Z` or holds a `+` |
| IsoTime.NormalizeIdempotent | src/lib/actions.ts:1070-1072 | Normalising twice is normalising once; a string is left alone iff it ends in `Z` or holds `+` |
| IsoTime.Instant | src/lib/actions.ts:1074 | `new Date(s)`: a `Z` time is UTC, a `+hh:mm` time is shifted back by its offset, and `-hh:mmZ` is an invalid date |
| IsoTime.NormalizedInstantIsAbsolute | src/lib/actions.ts:1070-1074 | After normalisation, the runtime's own zone does not change the instant |
| IsoTime.ZuluInstant | src/lib/actions.ts:1070-1074 | A UTC (or zone-less) time of day lands on its own date at that minute |
| AgentTools.TenantServices | src/lib/actions.ts:70-82 | `getServices(tenant)`: exactly the tenant's services |
| AgentTools.ServiceDuration | src/lib/actions.ts:1088-1090 | The booked duration is positive when stored durations are non-negative (0 falls back to 60) |
| AgentTools.BookingRow | src/lib/actions.ts:1091-1102 | The inserted row: this tenant, the staff member found, the start, start + duration, confirmed, booked via 'ai_chat' |
| AgentTools.BookWith | src/lib/actions.ts:1076-1110 | An availability error is passed on; an invalid instant, or a label with no staff member, answers 'Selected time slot is no longer available.' with no write; a failed insert passes its error on with no write; a write happens only for a label in the staff map, for that staff member |
| AgentTools.BookWithSaves | src/lib/actions.ts:1085-1107 | A valid instant whose time-of-day label has a staff member, with a successful insert, writes that staff member's row at that instant with the database's id and confirms the booking |
| AgentTools.BookAsWritten | src/lib/actions.ts:1063-1112 | As written: no start time throws from `split`; otherwise availability for the calendar date written in the string |
| AgentTools.BookAppointment | src/lib/actions.ts:1063-1112 | Corrected: availability for the UTC day of the instant booked |
| AgentTools.CorrectionAgreesOnUtc | src/lib/actions.ts:1064-1074 | For a UTC or zone-less time the corrected and the as-written branch agree |
| AgentTools.DurationOfFound | src/lib/actions.ts:678 | With unique ids, the booked duration is that of the service availability used |
| AgentTools.BookedSlotIsFree | src/lib/actions.ts:1063-1112 | A corrected booking lies inside a working row of its staff member, with no blocking appointment overlapping it |
| AgentTools.RebookingTakesOther | src/lib/actions.ts:1063-1112 | Repeating a booking against the store that holds it never books the same member at the same time again |
| AgentTools.GetServicesTool | src/lib/actions.ts:1047-1049 | One `{name, price, duration}` summary per tenant service, in order; no write |
| AgentTools.CheckAvailabilityTool | src/lib/actions.ts:1050-1062 | The slots of the requested date (today by default), or the availability error; no write |
| AgentTools.ListStaffTool | src/lib/actions.ts:1113-1115 | `{id, name, email, role}` per tenant profile, in order; no write |
| AgentTools.IssuedPassword | src/lib/actions.ts:253 | The reported password: with a service key the one sent, or 'ChangeMe123!' when it is missing or empty; without one '(Offline User)' |
| AgentTools.CreateStaffTool | src/lib/actions.ts:200-253 | A created member is reported with its id and the issued password, and written with the default week exactly when the schedule insert succeeds; an account or profile error is passed on unwritten |
| AgentTools.ScheduleErrorUnreported | src/lib/actions.ts:249-253 | A failed default-schedule insert is reported as the same success, while the member is written without a week |
| AgentTools.Acknowledge | src/lib/actions.ts:1124-1129 | `{ success: true }` iff the write succeeded, else the error and no write |
| AgentTools.SetStaffScheduleTool | src/lib/actions.ts:1127-1129 | `saveStaffSchedules` for the session's tenant; a call without a schedule throws after the delete |
| AgentTools.CreateServiceForm | src/lib/actions.ts:1131-1138 | The fields sent: description '' and buffer 0 when falsy, color '#6366f1' when falsy |
| AgentTools.CreateServiceTool | src/lib/actions.ts:84-105 | No tenant gives 'No tenant'; a success writes the form for the session's tenant; a failure passes the error on |
| AgentTools.Updated | src/lib/actions.ts:107-127 | A written update keeps the service's id, tenant and active flag |
| AgentTools.MergeFields | src/lib/actions.ts:1147-1154 | name, description, duration and color fall back when falsy; price and buffer fall back only when missing, so 0 is kept |
| AgentTools.MergeKeepsZero | src/lib/actions.ts:1151-1152 | An explicit 0 price or buffer is written as 0 |
| AgentTools.MergeIdempotent | src/lib/actions.ts:1141-1156 | Merging the same call over the updated record changes nothing; an empty call merges to what is stored |
| AgentTools.UpdateServiceTool | src/lib/actions.ts:1140-1156 | An unknown id writes nothing and answers 'Service not found with that ID.'; a known one writes the merge |
| AgentTools.UnknownServiceRefused | src/lib/actions.ts:1141-1145 | An id naming none of the tenant's services is refused, whatever else the call carries |
| AgentTools.CxFridayOffers | src/lib/actions.ts:743-770 | In the counterexample store, Friday's availability offers the staff member at 20:00 UTC |
| AgentTools.AsWrittenDoubleBooks | src/lib/actions.ts:1064-1074 | As written, a `+05:00` time booked under Friday's availability lands on Thursday over an existing booking |
| AgentChat.ToolGating | src/lib/actions.ts:860-1022 | The tools start with the three customer tools; an admin tool is offered iff the tenant has an active boss |
| AgentChat.DispatchEdges | src/lib/actions.ts:1043-1160 | Unparseable arguments throw before any branch; an unknown name gives an empty result and no write |
| AgentChat.TestAIChat | src/lib/actions.ts:786-798 | No tenant from the argument or the session gives the 'Could not identify business context' text and no write |
| AgentChat.ChatDoubleBooks | src/lib/actions.ts:1063-1112 | When the model books "Friday 01:00 at +05:00", the chat inserts a row over the same member's existing confirmed booking |
| AgentChat.PlainReply | src/lib/actions.ts:1024-1040 | The model sees the system prompt, then the messages; a reply without tool calls is returned as is |
| AgentChat.FirstCallOnly | src/lib/actions.ts:1040-1184 | Only `tool_calls[0]` runs; the follow-up is conversation, reply, one tool message with that call's id; a throw gives 'Error: msg ' |
| AgentChat.EmptyToolCalls | src/lib/actions.ts:1040-1042 | An empty `tool_calls` array throws a TypeError, caught as the text; no write |
| ChatTools.FindByName | src/lib/ai/chat.ts:63-66 | The first service whose lower-cased name holds the lower-cased query; none when none does; a missing query throws once there is a service |
| ChatTools.CheckAnswers | src/lib/ai/chat.ts:61-75 | The four fixed times on the requested date (today by default) for the matched service, or 'Service not found'; no write |
| ChatTools.BookingRow | src/lib/ai/chat.ts:77-103 | A booking is for the first matching service and the first staff member, booked via 'chat'; it starts where the database reads the written time and ends `duration_minutes` after where the runtime reads it, so it lasts the duration unless a zone-less time meets two different zones |
| ChatTools.NoStaffRefused | src/lib/ai/chat.ts:84-86 | Without staff a booking is refused with 'No staff available' and writes nothing |
| ChatTools.UnknownToolRefused | src/lib/ai/chat.ts:106 | An unknown tool name answers 'Unknown tool' and writes nothing |
| ChatTools.RunCallsMessages | src/lib/ai/chat.ts:145-155 | Until a call throws, one tool message per call, in order, each with its call's id and answer |
| ChatTools.RunCallsStops | src/lib/ai/chat.ts:145-155 | A throw ends the loop at the first throwing call, after which nothing more is appended |
| ChatTools.ErrorPersists | src/lib/ai/chat.ts:145-155 | After a throw, later calls change nothing |
| ChatTools.ChatWithAI | src/lib/ai/chat.ts:110-170 | The method with its loop returns `Chat`: the text and the appointments inserted |
| ChatTools.ChatThrows | src/lib/ai/chat.ts:166-169 | A throwing call gives 'Error: ' + its message, keeping the inserts made before it |
| ChatTools.ChatHistory | src/lib/ai/chat.ts:144-162 | Without a throw, the second request sees conversation, reply and one tool message per call in order |
| ScheduleStore.WorkingDays | src/lib/actions.ts:410-419 | One row per kept day (working, both times non-empty) |
| ScheduleStore.WorkingDaysRows | src/lib/actions.ts:410-419 | Each inserted row is a kept day stamped working, for this staff member and tenant |
| ScheduleStore.WorkingDaysConcat | src/lib/actions.ts:410-419 | Rows are written in the week's order |
| ScheduleStore.WorkingDaysEmpty | src/lib/actions.ts:421 | Nothing is inserted iff no day is kept |
| ScheduleStore.SaveStaffSchedules | src/lib/actions.ts:390-431 | No tenant: 'No tenant' and nothing touched; otherwise delete, then insert the kept days if any, passing an insert error on |
| ScheduleStore.ReplaceStaffRowsEffect | src/lib/actions.ts:404-424 | After the replacement the member's rows are the new rows, and others' rows are unchanged |
| ScheduleStore.SaveReplacesWeek | src/lib/actions.ts:390-431 | A successful save leaves exactly the kept days and changes no one else; no tenant changes nothing |
| ScheduleStore.FailedInsertClears | src/lib/actions.ts:404-426 | A failed insert still deleted: the member has no rows |
| ScheduleStore.DefaultWeek | src/lib/actions.ts:240-247 | The default week has five rows |
| ScheduleStore.DefaultWeekDays | src/lib/actions.ts:240-247 | One working 09:00-17:00 row for each of Monday to Friday, none for other days |
| ScheduleStore.CreateStaffWeek | src/lib/actions.ts:238-250 | A new member has exactly the default week when its insert succeeds and no rows when it fails; no one else changes |
| BossCodes.BossCodeShape | src/lib/actions.ts:615-616 | A code has no white space and no lower-case letter, and ends in a dash and its four suffix digits, which read back |
| BossCodes.NamePartKeeps | src/lib/actions.ts:616 | The name part keeps the non-space characters of the upper-cased name, in order |
| BossCodes.TypedCodeKey | src/lib/actions.ts:654 | A code typed in any case with white space around it looks up as itself |
| BossCodes.GeneratedCodeFound | src/lib/actions.ts:615-654 | A generated code is found from its lower-cased, padded form and from itself |
| BossCodes.LookupBossCode | src/lib/actions.ts:648-659 | A found profile is active and has the key as its code |
| BossCodes.LookupUnique | src/lib/actions.ts:651-656 | Exactly one active profile with the key is found |
| BossCodes.LookupMissing | src/lib/actions.ts:651-658 | No active profile with the key gives null |
| Domain.StringOr | src/lib/actions.ts:665 | JavaScript's logical or on strings: the first when present and non-empty, else the fall-back |
| Domain.NumberOr | src/lib/actions.ts:678 | The logical or on numbers: the first when present and non-zero, else the fall-back |
| SchedulesPage.DefaultSchedule | src/app/admin/schedules/page.tsx:18-23 | Seven rows, day i at index i |
| SchedulesPage.DefaultScheduleDays | src/app/admin/schedules/page.tsx:18-23 | Days 1-5 work 09:00-17:00; days 0 and 6 are off with empty times |
| SchedulesPage.Prefix5 | src/app/admin/schedules/page.tsx:59-60 | `slice(0, 5)`: a prefix of at most five characters, the whole string when short |
| SchedulesPage.Loaded | src/app/admin/schedules/page.tsx:52-66 | Always seven rows in day order; empty data gives the default schedule |
| SchedulesPage.LoadedDay | src/app/admin/schedules/page.tsx:54-63 | A found row keeps its flag and 5-character times; a missing day is off with empty times |
| SchedulesPage.LoadDefaultWeek | src/app/admin/schedules/page.tsx:52-66 | A new member's stored week loads as the default schedule |
| SchedulesPage.SaveThenLoad | src/app/admin/schedules/page.tsx:52-91 | Saving an edited week and loading it again gives each kept day back, and every other day off |
| SchedulesPage.SaveAllOffReloadsDefault | src/app/admin/schedules/page.tsx:65-91 | A week saved with no working day reloads as the Monday-Friday default |
| SchedulesPage.UpdateRow | src/app/admin/schedules/page.tsx:72-78 | The row count is kept |
| SchedulesPage.UpdateRowEffect | src/app/admin/schedules/page.tsx:72-78 | Only the edited field of the row with that day changes; the week's shape and the other rows are kept |
| SchedulesPage.UpdateRowLastWins | src/app/admin/schedules/page.tsx:72-78 | Two edits of one field: the last wins |
| SchedulesPage.UpdateRowCommutes | src/app/admin/schedules/page.tsx:72-78 | Edits of different days commute |
| SchedulesPage.InsertByDistance | src/app/admin/schedules/page.tsx:140-145 | Insertion keeps the multiset and the order by distance from today |
| SchedulesPage.SortByDistance | src/app/admin/schedules/page.tsx:140-145 | A permutation sorted by `(day − today + 7) % 7` |
| SchedulesPage.DistanceRange | src/app/admin/schedules/page.tsx:141-143 | The distance is in [0, 7), and 0 iff the row is today's |
| SchedulesPage.TodayFirst | src/app/admin/schedules/page.tsx:140-145 | Today's row comes first, and the length is kept |
| SchedulesPage.NextOffset | src/app/admin/schedules/page.tsx:156-162 | The offset is in [0, 7) and lands on the row's weekday |
| AppointmentsPage.Filtered | src/app/admin/appointments/page.tsx:74 | 'all' gives every row; any other filter exactly the rows with that status |
| AppointmentsPage.FilteredOrder | src/app/admin/appointments/page.tsx:74 | The filter keeps order (it distributes over concatenation) and is idempotent |
| AppointmentsPage.FilteredNone | src/app/admin/appointments/page.tsx:74 | A status no row has gives an empty list |
| AppointmentsPage.Badge | src/app/admin/appointments/page.tsx:27-32 | 'badge-cancelled' iff cancelled or no_show; 'badge-pending' iff the status is none of the four |
| AppointmentsPage.StoredStatusHasBadge | src/app/admin/appointments/page.tsx:180 | Every stored status has its own colour; no_show shares cancelled's |
| AppointmentsPage.Actions | src/app/admin/appointments/page.tsx:185 | Complete and cancel are offered iff the status is 'confirmed' |
| AppointmentsPage.FormDuration | src/app/admin/appointments/page.tsx:89-90 | Positive for non-negative durations; 30 for an unknown service |
| AppointmentsPage.HandleCreate | src/app/admin/appointments/page.tsx:83-111 | An incomplete form warns and changes nothing; an invalid date sends nothing |
| AppointmentsPage.CreateSends | src/app/admin/appointments/page.tsx:83-111 | A complete form sends its fields with end − start the service's duration (30 by default); success resets and closes, failure keeps both |
| AppointmentsPage.BlankRefused | src/app/admin/appointments/page.tsx:84-87 | A reset form is refused |
| AiAgentPage.MergeConfig | src/app/admin/ai-agent/page.tsx:45-50 | Saved fields override; the name falls back to the tenant's name, then 'Touch Labs'; other keys keep the defaults |
| AiAgentPage.SaveThenLoadConfig | src/app/admin/ai-agent/page.tsx:45-50 | A configuration saved as the tenant's name plus `ai_config`, then reloaded, comes back unchanged when it has every default key and a non-empty name |
| AiAgentPage.ClearedNameReloads | src/app/admin/ai-agent/page.tsx:46 | A cleared name is reloaded as 'Touch Labs' |
| AiAgentPage.SendMessage | src/app/admin/ai-agent/page.tsx:88-98 | Blank input changes nothing; no tenant adds the user message and the warning; otherwise it sends history + user |
| AiAgentPage.ReceiveReply | src/app/admin/ai-agent/page.tsx:99-104 | Exactly one non-empty assistant message is appended |
| AiAgentPage.SendToAgent | src/app/admin/ai-agent/page.tsx:88-107 | A send reaches `testAIChat` with history + user, and ends with that history + the answer (or 'Error: No response') |
| AiAgentPage.RemoveBoss | src/app/admin/ai-agent/page.tsx:251 | Exactly the entries with other ids remain |
| AiAgentPage.AddBoss | src/app/admin/ai-agent/page.tsx:284-290 | The new profile is prepended to the list |
| AiAgentPage.BossListEdits | src/app/admin/ai-agent/page.tsx:251-290 | Removing an absent id changes nothing; removing a just-added new profile restores the list |
| CallsPage.FormatDuration | src/app/admin/calls/page.tsx:35-40 | '—' iff the length is missing or 0 |
| CallsPage.TwoDigits | src/app/admin/calls/page.tsx:39 | Seconds below 60 are written as two digits that read back |
| CallsPage.DurationReadBack | src/app/admin/calls/page.tsx:35-40 | `m:ss` reads back with ss < 60 and m·60 + ss = the length |
| CallsPage.StatusStyle | src/app/admin/calls/page.tsx:28-33 | The in-progress style iff the status is missing or unknown |
| CallsPage.Toggle | src/app/admin/calls/page.tsx:82-87 | Clicking the expanded card collapses it; any other card becomes the expanded one |
| CallsPage.ToggleEffect | src/app/admin/calls/page.tsx:82-87 | A card is expanded after a click iff it was clicked and was not open; two clicks close it again |
| DashboardPage.TimeAgo | src/app/admin/page.tsx:33-40 | An unreadable time gives 'NaN day(s) ago' |
| DashboardPage.HoursOfMinutes | src/app/admin/page.tsx:35-37 | Whole hours of whole minutes are the whole hours of the difference |
| DashboardPage.DaysOfHours | src/app/admin/page.tsx:37-39 | Whole days of whole hours are the whole days of the difference |
| DashboardPage.TimeAgoUnits | src/app/admin/page.tsx:33-40 | Under an hour 'N min ago', under a day 'N hr ago', else 'N day(s) ago', with N the floor in that unit |
| DashboardPage.Shown | src/app/admin/page.tsx:64 | Missing stats show all-zero counts and empty lists |
| OnboardPage.StripDashes | src/app/admin/onboard/page.tsx:17 | Trimming the ends never lengthens |
| OnboardPage.Dashed | src/app/admin/onboard/page.tsx:17 | After the first replace: only `[a-z0-9-]`, never two dashes in a row |
| OnboardPage.StripShape | src/app/admin/onboard/page.tsx:17 | Trimming the ends of such a string gives a well-formed slug |
| OnboardPage.SlugIsWellFormed | src/app/admin/onboard/page.tsx:17 | A slug holds only `[a-z0-9-]`, never starts or ends with '-', never holds '--' |
| OnboardPage.SlugKeepsLettersAndDigits | src/app/admin/onboard/page.tsx:17 | The ASCII letters and digits of the lower-cased name all appear in the slug, in order |
| OnboardPage.SlugOfSlug | src/app/admin/onboard/page.tsx:17 | A well-formed slug is its own slug |
| OnboardPage.SlugIdempotent | src/app/admin/onboard/page.tsx:17 | `slug(slug(x)) = slug(x)` |
| OnboardPage.AfterSetup | src/app/admin/onboard/page.tsx:27-30 | A non-string error shows 'Setup failed'; the form goes on iff there is no error or an empty one |
| AdminLayout.IsActive | src/app/admin/layout.tsx:111-114 | '/admin' is active iff the path is exactly '/admin'; any other link iff the path starts with it |
| AdminLayout.NavPrefixFree | src/app/admin/layout.tsx:25-53 | No link below the dashboard is a prefix of another |
| AdminLayout.OneActive | src/app/admin/layout.tsx:25-114 | At most one sidebar entry is highlighted |
| AdminLayout.DisplayName | src/app/admin/layout.tsx:121 | The display name is never empty |
| AdminLayout.DisplayNameFromEmail | src/app/admin/layout.tsx:87-121 | Without a full name, the e-mail's local part is shown; 'Admin' when there is none |
| AdminLayout.UserInitials | src/app/admin/layout.tsx:122 | At most two characters, none lower-case |
| AdminLayout.UnknownUserInitials | src/app/admin/layout.tsx:121-122 | Before the user is read: 'Admin' and 'A' |
| AdminLayout.ShouldRedirect | src/app/admin/layout.tsx:97-98 | A redirect needs a signed-in user with a profile, off the onboarding page |
| AdminLayout.RedirectSettles | src/app/admin/layout.tsx:97-98 | A profile with a tenant is never redirected, and the onboarding page never redirects again |
| Names.Heads | src/app/admin/staff/page.tsx:130 | At most one character per word |
| Names.Initials | src/app/admin/staff/page.tsx:130 | At most two characters, none lower-case |
| Names.HeadsSkipEmpty | src/app/admin/staff/page.tsx:130 | Empty words, from repeated spaces, contribute nothing |
| Names.InitialsFirst | src/app/admin/staff/page.tsx:130 | A name not starting with a space has its upper-cased first character first |
| Names.InitialsTwoWords | src/app/admin/staff/page.tsx:130 | 'first last' gives both first letters, upper-cased |
| Names.InitialsDoubleSpace | src/app/admin/staff/page.tsx:130 | Doubling a space leaves the initials alone |
| StaffPage.OpenEdit | src/app/admin/staff/page.tsx:49-59 | The member's fields, a missing e-mail or phone as '', no password |
| StaffPage.OpenCreate | src/app/admin/staff/page.tsx:61-65 | The blank form with role 'staff', for a new member |
| StaffPage.SaveRequestOf | src/app/admin/staff/page.tsx:67-112 | Creating without name or e-mail is refused with 'Name and Email required'; an edit resets the password iff one was typed |
| StaffPage.OpenThenSave | src/app/admin/staff/page.tsx:49-112 | Saving an unchanged edit resends the member's fields with no reset; saving a blank create is refused |
| StaffPage.AccountPassword | src/lib/actions.ts:209 | The account's password is never empty (default 'ChangeMe123!') |
| StaffPage.CreatedToast | src/app/admin/staff/page.tsx:106 | The create toast names the typed password, or 'ChangeMe123!' when none was typed |
| StaffPage.ToastPassword | src/lib/actions.ts:253 | With a service key the toast names the password the server reports; without one it agrees with '(Offline User)' only if that was typed |
| StaffPage.EditToast | src/app/admin/staff/page.tsx:79-90 | A failed reset reports 'Profile updated, but password reset failed: …', otherwise the profile update's outcome |
| StaffPage.ToggleActive | src/app/admin/staff/page.tsx:123-129 | The value sent is the negation of the current one, with the matching toast |
| StaffPage.ToggleTwice | src/app/admin/staff/page.tsx:123-129 | Toggling twice restores the state |
| StaffPage.MemberInitials | src/app/admin/staff/page.tsx:130 | A member's avatar holds at most two upper-case initials, the first from the name |

## Left out

- Database queries, authentication, `revalidatePath` and the auth-admin calls are not modelled as I/O. Tables are input sequences, and each write's answer is a parameter. Of `createStaffMember`, only the answer, the reported password and the default week are modelled. This also leaves out `onboardTenant`, staff deletion, password reset and `debugFixAccount`.
- The Groq model is a function parameter. Prompt text, `tenantConfig` and the model name are not modelled, and neither is a failure of the completion call itself.
- Locale formatting (`toLocaleTimeString`, `toLocaleDateString`) is not modelled. A slot label is its UTC minute of the day, and the schedules page's next-occurrence date is its day offset.
- ISO parsing is not modelled: schedule rows in `Availability` carry minutes, and appointment times are instants in minutes.
- Milliseconds are not modelled: instants are whole minutes.
- `Math.random` in the boss-code suffix is a parameter in [1000, 9999].
- The double-booking race between two concurrent conversations is not modelled, because it is concurrency.
- Float prices and the revenue sum of `getDashboardStats` are not modelled: prices are whole units and the dashboard's figures are inputs.
- Only ASCII letters are case-mapped. JavaScript's full Unicode mapping (`İ`, `ß`, the Kelvin sign) and UTF-16 code units for `n[0]` are not modelled.
- Prototype keys (`constructor`, `__proto__`) in the calls page's `statusConfig` lookup are not modelled.
- `IsoTime.Instant`: a `-hh:mm` offset followed by the appended `Z` is treated as an invalid date. A zone-less time is read at a fixed local offset.
- ChatTools.BookingRow: the runtime's and the database's zones are each one fixed offset; daylight-saving changes are not modelled.
- SchedulesPage.SortByDistance: the contract does not state that the sort is stable; ties cannot occur for seven distinct days.
- SchedulesPage.Loaded: stored `null` time columns are not modelled, because `ScheduleRecord` times are strings.
- JSX rendering, toasts' timing, spinners, `setTimeout` and the services, settings, login and landing pages are not modelled: they are markup.
- `handleSave` of the AI-agent page is modelled only as the split of the configuration (`SplitConfig`); the write itself is I/O.

Where the code departs from what its prompts and comments suggest, the model follows the code:

- A slot label keeps the first free staff member; later ones are skipped.
- Only `cancelled` appointments stop blocking; `no_show` still blocks.
- The availability service lookup does not filter out inactive services.
- The availability service lookup is `name ILIKE '%query%'`, sent through PostgREST, which reads `*` as `%`. So `%`, `*`, `_` and a backslash in the requested name are pattern characters: `%` and `*` find any service, and `hair_cut` finds `Hair Cut`. The customer chat's lookup is the plain substring test `includes`.
- Admin tools run whenever the model calls them; boss mode only decides which tools are offered.

## Findings

| source | as written | input that shows it | evidently intended | confidence | as-written member | corrected member |
|---|---|---|---|---|---|---|
| src/lib/actions.ts:1064-1074 | `book_appointment` computes availability for the calendar date written in `start_time`, but books the instant that the whole string denotes in UTC; the chat (`AgentChat.TestAIChat`) runs this branch, and `AgentChat.ChatDoubleBooks` shows its insert | `start_time` = Friday 01:00+05:00 (day 1, a Friday shift) is Thursday 20:00 UTC, which is offered by Friday's grid but lands on an existing Thursday 20:00-21:00 booking of the same staff member | check availability for the UTC day of the instant that is booked | not executed | AgentTools.AsWrittenDoubleBooks | AgentTools.BookedSlotIsFree |
