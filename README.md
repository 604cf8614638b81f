# WhatsApp AI agent: a Dafny model of its decision logic

The system is a multi-tenant FastAPI service. It answers WhatsApp messages for
registered companies with an OpenAI chat completion. This project models its core
and proves properties of it:

- **Inbound webhook.** The Meta verification handshake (`GET /webhook`) and the
  guard chain of `POST /webhook`. The chain parses the JSON, finds the company,
  and checks the `X-Hub-Signature-256` HMAC header.
- **Message handling.** Extracting the sender and text from the payload. Selecting
  the last five turns of the conversation for that sender and company. Assembling
  the chat message list, the fail-soft reply, saving the turn, and the Graph API
  reply request.
- **Outbound providers.** Choosing between Meta Cloud and Z-API, and building
  each provider's request.
- **Tenant dashboard.** The token scan, the guarded settings update and the
  dashboard-link notification.
- **Repair script.** The one-off repair of Z-API instance ids that were encrypted
  twice.
- **Google Calendar.** The free-slot enumeration and the meeting-scheduling
  conversation, with its attempts counter and moving window.

How the model stands in for the outside world:

- The database is a sequence of rows. The dashboard and the repair script change
  it in place through `Models.CompanyStore`.
- External services are parameters of the functions that use them: Fernet
  `decrypt`/`encrypt`, HMAC-SHA256 `hmacHex`, `json.loads`, the chat completion,
  environment variables, the clock, and the Google free/busy ranges.
- An HTTP call that the code would make is returned as a value: the request, the
  effect list, or the insert.

Module layout. Each source file has its own module:

| module | source file |
|---|---|
| `WhatsappService` | `ai_agent/services/whatsapp.py` |
| `AiService` | `ai_agent/services/ai.py` |
| `AiAgentRoot` | `ai_agent.py` |
| `Signature` | `ai_agent/utils/signature.py` |
| `WebhookRoute` | `ai_agent/routes/webhook.py` |
| `MainApp` | `main.py` |
| `ProviderFactory` | `whatsapp/provider_factory.py` |
| `MetaCloud` | `whatsapp/meta_cloud.py` |
| `ZApi` | `whatsapp/zapi.py` |
| `Dashboard` | `ai_agent/routes/dashboard.py` |
| `FixDoubleEncryption` | `fix_double_encryption.py` |
| `Calendar` | `google_calendar/calendar.py` |
| `Scheduler` | `google_calendar/scheduler.py` |

Shared pieces:

- `Models`: the `companies` and `conversations` rows and the lookups on them.
- `Json`: decoded JSON values and subscript chains.
- `Web`: requests and responses.
- `Strings`: Python's `lower`, `strip`, `in`, `startswith` and `split`.
- `Utf8`: `str.encode("utf-8")`.
- `Wrappers`: `Option`, `Result`, and `PyStr`, the f-string rendering of an optional value.

Some consequences of the code, as proved:

- **Conflicting `DEBUG_MODE` defaults.** The route reads `DEBUG_MODE` with default
  `"False"`, and the service reads it with default `"true"`. With the variable
  unset, signatures are therefore enforced, yet no reply is ever posted
  (`WebhookRoute.UnsetDebugModeSplitsDefaults`).
- **Unchecked prefix.** The signature check compares only the text after the first
  `=`, so the algorithm prefix is never checked (`Signature.PrefixNeverChecked`).
- **Slot confirmation never fires.** The confirmation compares 16-character slot
  prefixes against the lower-cased message. Any ISO-formatted slot (upper-case
  `T`) is therefore never confirmed (`Scheduler.IsoSlotsNeverConfirm`).
- **A null phone_number_id is a lookup, not a miss.** SQLAlchemy turns `== None` into
  `IS NULL`. A payload whose phone_number_id is JSON null finds the company whose
  column is NULL, or raises when there are several such rows
  (`Models.NullKeyMatchesNullColumn`).

## Model

| member | source | states |
|---|---|---|
| WhatsappService.DebugMode | ai_agent/services/whatsapp.py:15 | The flag is true iff the variable, or the default when the variable is unset, lower-cases to "true". |
| WhatsappService.ServiceDebugByDefault | ai_agent/services/whatsapp.py:15 | With DEBUG_MODE unset, the service is in debug mode. |
| WhatsappService.Matching | ai_agent/services/whatsapp.py:20-22 | The WHERE clause keeps only rows of the log whose phone number and company id are the arguments. |
| WhatsappService.Reversed | ai_agent/services/whatsapp.py:28 | Element k of the result is element n-1-k of the input. |
| WhatsappService.Interleave | ai_agent/services/whatsapp.py:28-30 | Exactly 2·n entries; entry 2k is the user message and entry 2k+1 the assistant reply of turn k. |
| WhatsappService.GetRecentMessages | ai_agent/services/whatsapp.py:18-31 | The loop that walks the descending query result backwards and appends two entries per row returns exactly RecentHistory. |
| WhatsappService.ReversedReversed | ai_agent/services/whatsapp.py:23-28 | Reversing twice gives back the sequence. |
| WhatsappService.RecentTurnsOldestFirst | ai_agent/services/whatsapp.py:23-28 | Reversing the newest-first selection gives the last min(limit, n) matching turns in log order. |
| WhatsappService.RecentHistoryShape | ai_agent/services/whatsapp.py:18-31 | The history interleaves at most `limit` turns, the latest matching ones oldest first, and each is a log row of this phone number and company. |
| WhatsappService.SuffixBelongs | ai_agent/services/whatsapp.py:21-22 | Every turn of any suffix of the matching rows is in the log and belongs to the tenant. |
| WhatsappService.MatchingSnoc | ai_agent/services/whatsapp.py:21-22 | Appending a row to the log appends it to the match list iff it belongs to the tenant. |
| WhatsappService.OtherTenantTurnInvisible | ai_agent/services/whatsapp.py:21-22 | Saving a turn of another phone number or company leaves this tenant's history unchanged. |
| WhatsappService.SavedTurnComesLast | ai_agent/services/whatsapp.py:23-30 | After a turn is saved, its user message and reply are the last two entries of its tenant's next history. |
| WhatsappService.MatchingSorted | ai_agent/services/whatsapp.py:23 | When the log is sorted by timestamp, so is the list of matching rows. |
| WhatsappService.LatestTurnsSelected | ai_agent/services/whatsapp.py:23-24 | When the log is sorted by timestamp, the query keeps min(limit, n) rows, newest first. Every matching turn it leaves out is no newer than any turn it keeps. |
| WhatsappService.SendReply | ai_agent/services/whatsapp.py:81-98 | Skipped iff debug mode. A send error iff not debug and the token cannot be decrypted. Otherwise the URL is the v17.0 Graph prefix, the phone_number_id as an f-string renders it, then "/messages". The request carries "Bearer " + decrypted token, the JSON content type, `to` = recipient and `text.body` = message. |
| WhatsappService.Extract | ai_agent/services/whatsapp.py:36-50 | Only three error kinds are possible. CompanyNotFound iff the phone_number_id path exists and the lookup finds no row. LookupFailed iff the lookup raises. Success iff the lookup finds one row and `…messages[0].text.body` and `…messages[0].from` are strings; the result is then exactly that row, that text and that sender. |
| WhatsappService.HistoryStep | ai_agent/services/whatsapp.py:28-30 | Appending row i's two entries turns the history of rows i+1.. into that of rows i.. . |
| WhatsappService.Generation | ai_agent/services/ai.py:34-42 | The completion is requested iff the API key is set. Its message list ends with the history and then the user text. |
| WhatsappService.EffectsInOrder | ai_agent/services/whatsapp.py:56-74 | Generation effects first, then the save, then one post iff the sender produced a request. SendFailed iff the sender failed. |
| WhatsappService.HandleMessage | ai_agent/services/whatsapp.py:34-78 | A failed extraction has no effects and stops with its error. Otherwise the outcome is that of generating, saving and sending. |
| WhatsappService.HandleMessageStopsEarly | ai_agent/services/whatsapp.py:36-78 | The outcome has no effects exactly when the stop is CompanyNotFound, LookupFailed or ExtractionFailed. CompanyNotFound iff the phone_number_id exists but the lookup finds no row. |
| WhatsappService.PostComesLast | ai_agent/services/whatsapp.py:65-74 | A post can only be the last effect, and it directly follows the save. |
| WhatsappService.DeliverSavesBeforePost | ai_agent/services/whatsapp.py:65-98 | On every path that sends: the turn is saved just before, the request carries the saved reply to the saved sender, and debug mode is off. |
| WhatsappService.SaveBeforePost | ai_agent/services/whatsapp.py:34-98 | The same, for a whole inbound payload. |
| AiService.BuildMessages | ai_agent/services/ai.py:15-23 | Length 2 + len(history). The system message uses the lower-cased tone. The history is unchanged in the middle and the user message is last. |
| AiService.GenerateResponse | ai_agent/services/ai.py:9-47 | The fixed Portuguese apology when the key is missing or the completion fails. Otherwise the stripped completion content. |
| AiService.GenerateResponseStripped | ai_agent/services/ai.py:43-47 | Every reply is already stripped. An empty reply can only come from a whitespace-only completion. |
| AiAgentRoot.LegacyMessages | ai_agent.py:13-17 | Length 2 + len(history). The system message uses the tone as given. The history is in the middle and the user message is last. |
| AiAgentRoot.LegacyGenerateResponse | ai_agent.py:11-25 | "Sorry, I couldn't process that right now." on failure; the stripped content otherwise. |
| AiAgentRoot.LayoutsAgreeIffLowerTone | ai_agent.py:13-17 | The two layouts are equal iff the tone is already lower-case. They always agree after the system message. |
| Signature.VerifySignature | ai_agent/utils/signature.py:5-13 | 403 "Missing or invalid signature format" iff the header is absent, empty or has no '='. Accepted iff the digest between the first and second '=' equals the hex HMAC of the raw body under the UTF-8 secret. A non-ASCII side raises (500). |
| Signature.PrefixNeverChecked | ai_agent/utils/signature.py:9 | The digest read is the segment after the first '=', whatever precedes it. |
| Signature.GenuineHeaderAccepted | ai_agent/utils/signature.py:9-13 | "sha256=" + the true digest is accepted; for any secret with a different HMAC the same header is refused. |
| WebhookRoute.VerifyWebhook | ai_agent/routes/webhook.py:16-33 | 422 for a missing parameter. The challenge iff mode is "subscribe" and the token equals the debug company's decrypted verify token. 500 when that decryption raises, otherwise 403. |
| WebhookRoute.ReceiveWebhook | ai_agent/routes/webhook.py:36-53 | 400 when the body is not JSON or lacks the phone_number_id path. Once the company is looked up: 404 with no row, 500 when the lookup raises, 500 outside debug mode when the webhook secret cannot be decrypted, and `verify_signature`'s own error when the check fails. With a company and (debug mode or a passing check), 200 `{"status": "received"}` and `handle_message` runs on the payload. `handle_message` runs iff the answer is 200. |
| WebhookRoute.SignatureGuardsHandling | ai_agent/routes/webhook.py:45-52 | Outside debug mode, handling implies that the company exists, its secret decrypts, and the signature over the raw body verifies. |
| WebhookRoute.DebugIgnoresSignature | ai_agent/routes/webhook.py:45-50 | In debug mode the answer does not depend on the signature header. |
| WebhookRoute.UnsetDebugModeSplitsDefaults | ai_agent/routes/webhook.py:14 | With DEBUG_MODE unset the route checks signatures while the service is in debug mode, so no handled message posts a reply. |
| MainApp.QueryParam | main.py:26-29 | A parameter is the query value under its own name, or "" when absent. |
| MainApp.Handshake | main.py:31-38 | 404 "Company not found" when the lookup finds no row, 500 iff it raises. 200 with the challenge iff one row is found, mode is "subscribe" and the token equals that row's stored verify_token as-is. With a row found, every other case is 403 "Invalid verification token". |
| MainApp.MetaHandshakeNeverAnswered | main.py:24-38 | A request without a `hub_mode` key, such as Meta's dotted one, is never answered 200. |
| MainApp.CorrectedHandshakeAnswersMeta | ai_agent/routes/webhook.py:18-20 | With the dotted parameter names bound, Meta's request gets its challenge iff it carries the company's token. |
| MainApp.MainReceiveWebhook | main.py:41-45 | 500 iff the body is not JSON; otherwise always `{"status": "received"}`. |
| ProviderFactory.GetProvider | whatsapp/provider_factory.py:4-10 | Unsupported iff the name is neither "meta" nor "zapi" (exact, case-sensitive). Each variant is built from its own two config keys. A missing key is an error, reported in the order the keys are read. |
| ProviderFactory.GetProviderReadsOnlyItsKeys | whatsapp/provider_factory.py:6-8 | Configs that agree on the chosen variant's keys give the same result. |
| ProviderFactory.SendMessage | whatsapp/base.py:3-6 | `send_message` dispatched on the variant. Meta: the v19.0 Graph URL of its phone_number_id, the bearer token, `to` = recipient and `text.body` = message. Z-API: `{base_url}/send-messages`, no headers, `phone` = recipient and `message` = message. |
| MetaCloud.GraphUrl | whatsapp/meta_cloud.py:10 | The URL starts with the versioned Graph prefix and ends with "/messages", and the phone_number_id sits between the two. |
| MetaCloud.GraphUrlInjective | whatsapp/meta_cloud.py:10 | Distinct phone number ids give distinct URLs. |
| MetaCloud.TextPayload | whatsapp/meta_cloud.py:15-20 | Exactly messaging_product "whatsapp", `to`, type "text", and `text` = {body: message}. |
| MetaCloud.GraphHeaders | whatsapp/meta_cloud.py:11-14 | Authorization "Bearer " + token and Content-Type application/json. |
| MetaCloud.SendMessage | whatsapp/meta_cloud.py:4-20 | The v19.0 URL holds the stored phone_number_id, the bearer header holds the stored token, and the payload carries the recipient and message. |
| ZApi.NewZApiProvider | whatsapp/zapi.py:5-6 | The base URL starts with "https://api.z-api.io/instances/". |
| ZApi.BaseUrlSegments | whatsapp/zapi.py:6 | When neither credential holds a '/', the path segments of the base URL are exactly the host, "instances", the instance id, "token" and the api token. |
| ZApi.BaseUrlShape | whatsapp/zapi.py:6 | The base URL is its segments joined by '/'. |
| ZApi.PathSegments | whatsapp/zapi.py:6 | The path splits into instances / id / token / api token. |
| ZApi.HostSegments | whatsapp/zapi.py:6 | The scheme and host contribute "https:", "" and "api.z-api.io". |
| ZApi.SendMessage | whatsapp/zapi.py:8-13 | URL = base URL + "/send-messages", no headers, payload exactly `phone` and `message`. |
| Dashboard.ScanStop | ai_agent/routes/dashboard.py:26-27 | The first row whose token decryption does not yield a different token, or the row count when there is none. |
| Dashboard.ViewCompanySettings | ai_agent/routes/dashboard.py:23-29 | The loop returns the first row in scan order whose decrypted token equals `token`, 403 when none does, and 500 when a decryption raises first. |
| Dashboard.ScanStopAt | ai_agent/routes/dashboard.py:26-27 | ScanStop is the first row that is not a mismatch. |
| Dashboard.WithSettings | ai_agent/routes/dashboard.py:50-53 | Exactly ai_prompt, tone, language and active take the form values; every other column is kept. |
| Dashboard.UpdateCompanySettings | ai_agent/routes/dashboard.py:32-56 | For an unknown id: 404 before any token check. Otherwise 500 when the stored token cannot be decrypted, and 403 on a wrong token. Every failure leaves the table unchanged. On success only that row gets the four settings, and the answer is a 303 redirect to "/dashboard?token=" + token. |
| Dashboard.UpdateKeepsKeys | ai_agent/routes/dashboard.py:50-55 | Replacing a row by one with the same id and phone_number_id keeps both unique. |
| Dashboard.DashboardUrl | ai_agent/routes/dashboard.py:66 | The link is "https://{domain}/dashboard?token=" followed by the decrypted token, which can be read back. |
| Dashboard.NotifyDashboardUrl | ai_agent/routes/dashboard.py:59-72 | 404 for an unknown company. For a known one, 500 iff its verify token cannot be decrypted, and success otherwise. On success the link message goes out through the v19.0 Meta provider built from MY_COMPANY_TOKEN and MY_COMPANY_PHONE_ID, to the company's phone_number_id, and the answer is the fixed detail. |
| FixDoubleEncryption.RepairRow | fix_double_encryption.py:14-26 | Only the zapi_instance_id column can change. It is rewritten to encrypt(decrypt(decrypt(old))) iff the column is set, its first decryption starts with "gAAAAA", and the second decryption succeeds. Otherwise the row is untouched. |
| FixDoubleEncryption.RepairedDecryptsOnce | fix_double_encryption.py:19-21 | Under the round-trip axiom, a rewritten value decrypts in one step to the fully decrypted original. |
| FixDoubleEncryption.DoubleEncryptedRepaired | fix_double_encryption.py:16-21 | A value encrypted twice, whose inner ciphertext has the Fernet prefix, is repaired to one that decrypts to the plaintext. |
| FixDoubleEncryption.SingleEncryptedKept | fix_double_encryption.py:23-24 | A value whose first decryption lacks the prefix is kept. |
| FixDoubleEncryption.RepairTwice | fix_double_encryption.py:7-28 | For a double-encrypted value whose plaintext lacks the prefix, running the repair again changes nothing. |
| FixDoubleEncryption.FixZapiInstanceIds | fix_double_encryption.py:7-28 | Every row becomes RepairRow of its old value: a failing row stays as it was and the loop goes on. Row count and key uniqueness are kept. |
| Calendar.HourOf | google_calendar/calendar.py:46 | The hour of a time is in 0..23. |
| Calendar.SuggestAvailableSlots | google_calendar/calendar.py:32-59 | The 15-minute stepping loop returns exactly SlotsFrom(start, end, slot, busy). |
| Calendar.SlotsShape | google_calendar/calendar.py:43-55 | Every suggestion lasts exactly slot_minutes and ends by the window end. Its start is start + 15·k with an hour in [9, 18), and no busy range meets it. |
| Calendar.SlotsStep | google_calendar/calendar.py:46-57 | One turn of the loop keeps or skips the current candidate. |
| Calendar.SlotsAfter | google_calendar/calendar.py:42-57 | No suggestion starts before the window start. |
| Calendar.SlotsIncreasing | google_calendar/calendar.py:42-57 | Suggestions are strictly increasing by start. |
| Calendar.SlotsMember | google_calendar/calendar.py:43-55 | A slot is suggested iff its start is a candidate, it fits in the window, its start hour is in [9, 18), and no busy range (closed intervals) meets it. |
| Calendar.NoBusyAllInHours | google_calendar/calendar.py:50-55 | With no busy ranges, every in-hours candidate that fits is suggested. |
| Calendar.ShortWindowEmpty | google_calendar/calendar.py:43 | A window shorter than one slot yields nothing. |
| Calendar.NoCache.Get | google_calendar/calendar.py:10 | Always None. |
| Calendar.NoCache.Set | google_calendar/calendar.py:11 | Changes nothing. |
| Scheduler.Take16 | google_calendar/scheduler.py:28-29 | `s[:16]`: a prefix of s, exactly 16 characters when s is at least that long, and s itself when it is shorter. |
| Scheduler.MatchIndex | google_calendar/scheduler.py:27-31 | The first matching slot in list order: none before it matches, and it matches. |
| Scheduler.FirstMatch | google_calendar/scheduler.py:27-31 | None iff no slot matches; otherwise the slot at MatchIndex. |
| Scheduler.UppercaseSlotNeverMatches | google_calendar/scheduler.py:25-30 | A slot whose two prefixes each hold an upper-case letter never matches the lower-cased message. |
| Scheduler.IsoSlotsNeverConfirm | google_calendar/scheduler.py:25-31 | Slots in ISO text, with 'T' at index 10, are never confirmed. |
| Scheduler.EventTime | google_calendar/scheduler.py:51-52 | `{"dateTime": …, "timeZone": "America/Sao_Paulo"}` exactly. |
| Scheduler.MeetingScheduler.constructor | google_calendar/scheduler.py:6-12 | Company id stored, window start = now, attempts = 0; 30-minute slots, a one-day step and 5 attempts are constants. |
| Scheduler.MeetingScheduler.SuggestSlots | google_calendar/scheduler.py:14-22 | The slots are exactly those the enumeration gives for the window from the current start to eight hours later, with 30-minute slots. Every one lies in that window, lasts 30 minutes and starts in hours. `SlotsMember` and `SlotsIncreasing` characterise the enumeration. |
| Scheduler.MeetingScheduler.HandleUserResponse | google_calendar/scheduler.py:24-43 | A matching slot wins over a refusal, and confirm leaves the state unchanged. A refusal adds exactly one attempt: at max_attempts the result is abort with the window kept, otherwise the window moves one day on and the result is retry with the new slots. Anything else is clarify with nothing changed. |
| Scheduler.MeetingScheduler.ScheduleEvent | google_calendar/scheduler.py:45-54 | An insert into "primary" for this company, with exactly summary, description and start/end taken from the slot in America/Sao_Paulo. An omitted summary or description takes the Portuguese default of the signature. |
| Models.CompanyByPhoneId | database/crud.py:14-19 | `scalar_one_or_none` over the condition: no row iff the key is a string or null and no row satisfies it; a raise iff the key is of another JSON type or two rows satisfy it; otherwise the only row that satisfies it. A null key matches the rows whose column is NULL. |
| Models.MatchScanCounts | database/crud.py:16-19 | The scan finds no row iff none satisfies the condition, raises iff two do, and otherwise returns the sole match. |
| Models.NullKeyMatchesNullColumn | database/crud.py:16-19 | A JSON null finds the one row with a NULL phone_number_id, and raises when two rows have it NULL. |
| Models.CompanyByPhoneIdUnique | database/models.py:12 | Under the unique constraint a string key held by a row finds exactly that row. |
| Models.IndexOfId | ai_agent/routes/dashboard.py:43-44 | The position of the row with that primary key; none iff no row has it. |
| Models.CompanyStore.constructor | database/models.py:7-19 | The store holds the given rows, whose keys are unique. |
| Json.Child | ai_agent/services/whatsapp.py:36-37 | One subscript succeeds exactly where Python's would not raise. |
| Json.AtConcat | ai_agent/services/whatsapp.py:36-48 | Reading a path in two goes is reading the concatenated path. |
| Json.StrAt | ai_agent/services/whatsapp.py:49-50 | A string is found iff the path leads to a string. |
| Strings.Lower | ai_agent/services/ai.py:18 | Same length; each character is lower-cased. |
| Strings.LowerIsLower | google_calendar/scheduler.py:25 | Lower-casing removes every capital and is idempotent. |
| Strings.Strip | ai_agent/services/ai.py:43 | The result is the infix left after removing leading and trailing whitespace. |
| Strings.StripIdempotent | ai_agent/services/ai.py:43 | Stripping twice is stripping once. |
| Strings.ContainsIff | google_calendar/scheduler.py:30 | `sub in s` iff sub occurs at some index. |
| Strings.UpperNeverInLower | google_calendar/scheduler.py:25-30 | A string with a capital never occurs in a lower-cased one. |
| Strings.Split | ai_agent/utils/signature.py:9 | `split` yields at least one part. |
| Strings.SplitJoin | ai_agent/utils/signature.py:9 | Joining the parts with the separator gives back the string. |
| Strings.SplitCount | ai_agent/utils/signature.py:6-9 | There is one more part than separators, so a header with '=' has a second part. |
| Strings.SplitPartsFree | ai_agent/utils/signature.py:9 | No part holds the separator. |
| Strings.SplitSecondPart | ai_agent/utils/signature.py:9 | With a separator-free head, the second part is the text between the first and second separator. |
| Utf8.DecodeEncode | ai_agent/utils/signature.py:10 | UTF-8 decoding undoes `encode("utf-8")`. |
| Utf8.EncodeInjective | ai_agent/utils/signature.py:10 | Distinct secrets give distinct HMAC keys. |
| Wrappers.PyStr | ai_agent/routes/dashboard.py:66 | An f-string renders None as "None" and a string as itself. |

## Left out

- Network I/O. These are modelled as the request value they would post; the reply bodies and status checks are not modelled:
  - the httpx posts in `ai_agent/services/whatsapp.py`, `whatsapp/meta_cloud.py` and `whatsapp/zapi.py`;
  - the Graph send of `notify_dashboard_url`.
- The OpenAI client is the parameter `complete`. The model name, temperature and token limit do not affect any modelled property.
- Fernet and HMAC-SHA256 are parameters. Only the round trip decrypt(encrypt(x)) = x is assumed of Fernet, and nothing of HMAC.
- The Google API (`get_service`, `get_availability`, `create_event` and OAuth):
  - the busy ranges are a parameter;
  - `schedule_event` returns the insert it would perform.
- Time zones and ISO-8601 text: `Calendar` works in integer minutes of one zone, and the formatting of `isoformat()` is not modelled.
- Scheduler.MeetingScheduler.SuggestSlots: models the call as its arithmetic intends. The source passes keyword names (`start_time`, `end_time`, ...) that `suggest_available_slots` does not accept. Because of that mismatch, `HandleUserResponse` takes the slots of a retry as the parameter `newSlots`.
- Database sessions, commits, async execution, and the tenacity retry around `save_conversation`:
  - a save is one `Save` effect;
  - turns are stamped in insertion order, and ties between equal timestamps are not modelled.
- Models.CompanyByPhoneId: a number, boolean, list or object phone_number_id is modelled as a query that raises, as a driver that type-checks its parameters does. A database driver that coerces such a value could match a row instead.
- AiAgentRoot.LegacyGenerateResponse: the OpenAI client of ai_agent.py is built at import time, outside the `try` and before `load_dotenv()`. A missing key therefore fails the import itself, and the function has no key input.
- WhatsappService.Extract: a `text.body` or `from` that is not a JSON string counts as an extraction failure. Python would carry such a value on.
- WebhookRoute.ReceiveWebhook: the 400 detail carries only the fixed prefix, not the exception text. The 422 answer for a missing query parameter is modelled only by its status and a short detail.
- The HTML rendering of the dashboard: `ViewCompanySettings` returns the company it would render.
- Dashboard.NotifyDashboardUrl and Dashboard.UpdateCompanySettings: FastAPI's 422 answer for a missing or non-integer `Form(...)` field is not modelled. Nor is the 500 that `notify_dashboard_url` gives when `provider.send_message` raises; the model returns the request it would post and the success answer.
- SQL NULL in the `verify_token`, `whatsapp_token`, `ai_prompt`, `language` and `tone` columns: those are plain strings here. In the source a NULL tone makes `tone.lower()` in `build_messages` raise AttributeError, and a NULL prompt or language renders as "None" in the f-string.
- Strings.Lower: maps ASCII and Latin-1 capitals only. Python lower-cases all of Unicode.
- Strings.Strip: removes the whitespace `IsSpace` lists, not every Unicode space.
- The legacy root `whatsapp.py` is not part of this model. `MainReceiveWebhook` treats its `handle_message` as one that never raises.
- `home` and `lifespan` in `main.py`: a constant greeting and database start-up.
- The `create_company`, admin and registration scripts and routes are outside the core.

## Findings

| source | as written | input that shows it | evidently intended | confidence | as-written member | corrected member |
|---|---|---|---|---|---|---|
| main.py:24-38 | Without aliases, `hub_mode`, `hub_challenge` and `hub_verify_token` bind the query keys spelled with underscores. | Meta's verification request `?hub.mode=subscribe&hub.challenge=c&hub.verify_token=t&phone_number_id=p`, for a company p with stored token t: `hub_mode` is "" and the answer is 403. | Bind `hub.mode`, `hub.challenge` and `hub.verify_token`, as ai_agent/routes/webhook.py:18-20 does with `alias=`. | not executed | MainApp.MetaHandshakeNeverAnswered | MainApp.CorrectedHandshakeAnswersMeta |
