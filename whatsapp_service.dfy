/** ai_agent/services/whatsapp.py: conversation history, the handling of one
    inbound WhatsApp message, and the reply sender. */
module WhatsappService {
  import opened Wrappers
  import opened Strings
  import opened Json
  import opened Web
  import opened Models
  import opened AiService
  import opened MetaCloud

  // ---------------------------------------------------------------------------
  // DEBUG_MODE

  /** `os.getenv("DEBUG_MODE", default).lower() == "true"`. */
  function DebugMode(env: Option<string>, default: string): (b: bool)
    ensures env.Some? ==> (b <==> Lower(env.value) == "true")
    ensures env.None? ==> (b <==> Lower(default) == "true")
  {
    Lower(match env case Some(v) => v case None => default) == "true"
  }

  /** This module reads DEBUG_MODE with default "true": an unset variable means debug. */
  function ServiceDebugMode(env: Option<string>): bool
  {
    DebugMode(env, "true")
  }

  lemma ServiceDebugByDefault()
    ensures ServiceDebugMode(None)
  {
    assert Lower("true") == "true";
  }

  // ---------------------------------------------------------------------------
  // get_recent_messages

  /** The WHERE clause: the turn is this phone number's, within this company. */
  predicate BelongsTo(t: Turn, phone: string, companyId: int)
  {
    t.phoneNumber == phone && t.companyId == companyId
  }

  /** The rows of `conversations` (kept in insertion order) that the WHERE clause keeps. */
  function Matching(log: seq<Turn>, phone: string, companyId: int): (r: seq<Turn>)
    ensures |r| <= |log|
    ensures forall k :: 0 <= k < |r| ==> r[k] in log && BelongsTo(r[k], phone, companyId)
    decreases |log|
  {
    if |log| == 0 then []
    else
      var last := log[|log| - 1];
      Matching(log[..|log| - 1], phone, companyId) + (if BelongsTo(last, phone, companyId) then [last] else [])
  }

  function Reversed<T>(s: seq<T>): (r: seq<T>)
    ensures |r| == |s|
    ensures forall k :: 0 <= k < |s| ==> r[k] == s[|s| - 1 - k]
    decreases |s|
  {
    if |s| == 0 then [] else Reversed(s[1..]) + [s[0]]
  }

  function Min(a: int, b: int): int
  {
    if a <= b then a else b
  }

  /** The query result: `order_by(timestamp.desc()).limit(limit)`, newest first.
      Turns are stamped when saved, so insertion order is timestamp order. */
  function RecentRows(log: seq<Turn>, phone: string, companyId: int, limit: nat): (r: seq<Turn>)
  {
    var m := Matching(log, phone, companyId);
    Reversed(m[|m| - Min(limit, |m|)..])
  }

  /** A user entry then an assistant entry for every turn, in the given order. */
  function Interleave(turns: seq<Turn>): (r: seq<ChatMessage>)
    ensures |r| == 2 * |turns|
    ensures forall k :: 0 <= k < |turns| ==>
      r[2 * k] == ChatMessage("user", turns[k].userMessage)
      && r[2 * k + 1] == ChatMessage("assistant", turns[k].aiResponse)
    decreases |turns|
  {
    if |turns| == 0 then []
    else
      var t := turns[|turns| - 1];
      Interleave(turns[..|turns| - 1])
        + [ChatMessage("user", t.userMessage), ChatMessage("assistant", t.aiResponse)]
  }

  /** What `get_recent_messages` returns: the selected rows put back oldest-first, interleaved. */
  function RecentHistory(log: seq<Turn>, phone: string, companyId: int, limit: nat): seq<ChatMessage>
  {
    Interleave(Reversed(RecentRows(log, phone, companyId, limit)))
  }

  lemma InterleaveSnoc(turns: seq<Turn>, t: Turn)
    ensures Interleave(turns + [t])
            == Interleave(turns) + [ChatMessage("user", t.userMessage), ChatMessage("assistant", t.aiResponse)]
  {
    assert (turns + [t])[..|turns|] == turns;
  }

  lemma ReversedFrom<T>(s: seq<T>, i: nat)
    requires i < |s|
    ensures Reversed(s[i..]) == Reversed(s[i + 1..]) + [s[i]]
  {
    assert s[i..][1..] == s[i + 1..];
  }

  /** One turn of the loop in `get_recent_messages`: appending row i's two entries
      extends the history of rows i+1.. to that of rows i.. . */
  lemma HistoryStep(conversations: seq<Turn>, i: nat, messages: seq<ChatMessage>)
    requires i < |conversations|
    requires messages == Interleave(Reversed(conversations[i + 1..]))
    ensures messages + [ChatMessage("user", conversations[i].userMessage)]
              + [ChatMessage("assistant", conversations[i].aiResponse)]
            == Interleave(Reversed(conversations[i..]))
  {
    var rest := Reversed(conversations[i + 1..]);
    var t := conversations[i];
    ReversedFrom(conversations, i);
    InterleaveSnoc(rest, t);
    AppendPair(messages, ChatMessage("user", t.userMessage), ChatMessage("assistant", t.aiResponse));
  }

  lemma AppendPair<T>(m: seq<T>, x: T, y: T)
    ensures m + [x] + [y] == m + [x, y]
  {
  }

  /** `get_recent_messages`: build `messages` by appending, walking the query result backwards. */
  method GetRecentMessages(log: seq<Turn>, phone: string, companyId: int, limit: nat)
    returns (messages: seq<ChatMessage>)
    ensures messages == RecentHistory(log, phone, companyId, limit)
  {
    var conversations := RecentRows(log, phone, companyId, limit);
    messages := [];
    var i := |conversations|;
    while i > 0
      invariant 0 <= i <= |conversations|
      invariant messages == Interleave(Reversed(conversations[i..]))
    {
      i := i - 1;
      var conv := conversations[i];
      HistoryStep(conversations, i, messages);
      messages := messages + [ChatMessage("user", conv.userMessage)];
      messages := messages + [ChatMessage("assistant", conv.aiResponse)];
    }
    assert conversations[0..] == conversations;
  }

  lemma ReversedReversed<T>(s: seq<T>)
    ensures Reversed(Reversed(s)) == s
  {
  }

  /** The turns the history is made of, oldest first: the last `min(limit, n)` of the n
      matching turns, in log order. */
  lemma RecentTurnsOldestFirst(log: seq<Turn>, phone: string, companyId: int, limit: nat)
    ensures var m := Matching(log, phone, companyId);
      Reversed(RecentRows(log, phone, companyId, limit)) == m[|m| - Min(limit, |m|)..]
  {
    var m := Matching(log, phone, companyId);
    ReversedReversed(m[|m| - Min(limit, |m|)..]);
  }

  /** Shape of the history: it interleaves (user then assistant, as Interleave states)
      at most `limit` turns, the latest matching ones in log order, and every one of
      them is a row of this phone number within this company. */
  lemma RecentHistoryShape(log: seq<Turn>, phone: string, companyId: int, limit: nat)
    ensures var m := Matching(log, phone, companyId);
      var turns := m[|m| - Min(limit, |m|)..];
      |turns| <= limit
      && RecentHistory(log, phone, companyId, limit) == Interleave(turns)
      && (forall k :: 0 <= k < |turns| ==> turns[k] in log && BelongsTo(turns[k], phone, companyId))
  {
    var m := Matching(log, phone, companyId);
    RecentTurnsOldestFirst(log, phone, companyId, limit);
    assert RecentHistory(log, phone, companyId, limit)
        == Interleave(Reversed(RecentRows(log, phone, companyId, limit)));
    SuffixBelongs(log, phone, companyId, |m| - Min(limit, |m|));
  }

  /** Every turn of a suffix of the matching rows is a row of the log that belongs
      to this tenant. */
  lemma SuffixBelongs(log: seq<Turn>, phone: string, companyId: int, start: nat)
    requires start <= |Matching(log, phone, companyId)|
    ensures var turns := Matching(log, phone, companyId)[start..];
      forall k :: 0 <= k < |turns| ==> turns[k] in log && BelongsTo(turns[k], phone, companyId)
  {
    var m := Matching(log, phone, companyId);
    forall k | 0 <= k < |m[start..]|
      ensures m[start..][k] in log && BelongsTo(m[start..][k], phone, companyId)
    {
      assert m[start..][k] == m[start + k];
    }
  }

  lemma MatchingSnoc(log: seq<Turn>, t: Turn, phone: string, companyId: int)
    ensures Matching(log + [t], phone, companyId)
            == Matching(log, phone, companyId) + (if BelongsTo(t, phone, companyId) then [t] else [])
  {
    assert (log + [t])[..|log|] == log;
    assert (log + [t])[|log + [t]| - 1] == t;
  }

  /** Turns of any other phone number or company never reach this history. */
  lemma OtherTenantTurnInvisible(log: seq<Turn>, t: Turn, phone: string, companyId: int, limit: nat)
    requires !BelongsTo(t, phone, companyId)
    ensures RecentHistory(log + [t], phone, companyId, limit) == RecentHistory(log, phone, companyId, limit)
  {
    MatchingSnoc(log, t, phone, companyId);
    assert Matching(log + [t], phone, companyId) == Matching(log, phone, companyId);
  }

  /** A turn just saved for this tenant is the newest entry of its next history. */
  lemma SavedTurnComesLast(log: seq<Turn>, t: Turn, limit: nat)
    requires limit > 0
    ensures var h := RecentHistory(log + [t], t.phoneNumber, t.companyId, limit);
      |h| >= 2
      && h[|h| - 2] == ChatMessage("user", t.userMessage)
      && h[|h| - 1] == ChatMessage("assistant", t.aiResponse)
  {
    MatchingSnoc(log, t, t.phoneNumber, t.companyId);
    var m := Matching(log + [t], t.phoneNumber, t.companyId);
    RecentHistoryShape(log + [t], t.phoneNumber, t.companyId, limit);
    var turns := m[|m| - Min(limit, |m|)..];
    assert turns[|turns| - 1] == t;
  }

  /** Timestamps never decrease along the log. */
  ghost predicate SortedByTime(log: seq<Turn>)
  {
    forall i, j :: 0 <= i < j < |log| ==> log[i].timestamp <= log[j].timestamp
  }

  lemma {:induction false} MatchingSorted(log: seq<Turn>, phone: string, companyId: int)
    requires SortedByTime(log)
    ensures SortedByTime(Matching(log, phone, companyId))
    decreases |log|
  {
    if |log| > 0 {
      var init := log[..|log| - 1];
      var last := log[|log| - 1];
      assert SortedByTime(init);
      MatchingSorted(init, phone, companyId);
      var mi := Matching(init, phone, companyId);
      forall k | 0 <= k < |mi| ensures mi[k].timestamp <= last.timestamp {
        var j :| 0 <= j < |init| && init[j] == mi[k];
      }
    }
  }

  /** On a time-ordered log the query keeps the latest turns: every matching turn it
      leaves out is no newer than any turn it keeps, and it keeps min(limit, n) of them. */
  lemma LatestTurnsSelected(log: seq<Turn>, phone: string, companyId: int, limit: nat)
    requires SortedByTime(log)
    ensures var m := Matching(log, phone, companyId);
      var rows := RecentRows(log, phone, companyId, limit);
      |rows| == Min(limit, |m|)
      && (forall i, j :: 0 <= i < |m| - |rows| <= j < |m| ==> m[i].timestamp <= m[j].timestamp)
      && (forall k :: 0 <= k < |rows| - 1 ==> rows[k].timestamp >= rows[k + 1].timestamp)
  {
    MatchingSorted(log, phone, companyId);
  }

  // ---------------------------------------------------------------------------
  // send_reply

  datatype SendResult =
    | Skipped                       // DEBUG_MODE: only a log line
    | SendError                     // the token could not be decrypted
    | Posted(request: HttpRequest)  // the POST httpx makes

  /** `send_reply(to, message, company)`; the Graph URL embeds the phone_number_id
      column as an f-string does, so a NULL column shows as "None". */
  function SendReply(to: string, message: string, company: Company, debugEnv: Option<string>,
                     decrypt: string -> Option<string>): (r: SendResult)
    ensures r == Skipped <==> ServiceDebugMode(debugEnv)
    ensures r == SendError <==> !ServiceDebugMode(debugEnv) && DecryptedWhatsappToken(company, decrypt).None?
    ensures r.Posted? ==>
      var u := r.request.url;
      |u| == |GraphPrefix("v17.0")| + |PyStr(company.phoneNumberId)| + |MessagesSuffix|
      && StartsWith(u, GraphPrefix("v17.0"))
      && u[|GraphPrefix("v17.0")|..|u| - |MessagesSuffix|] == PyStr(company.phoneNumberId)
      && u[|u| - |MessagesSuffix|..] == MessagesSuffix
      && HeaderValue(r.request.headers, "Authorization")
         == Some("Bearer " + DecryptedWhatsappToken(company, decrypt).value)
      && HeaderValue(r.request.headers, "Content-Type") == Some("application/json")
      && StrAt(r.request.json, [Key("to")]) == Some(to)
      && StrAt(r.request.json, [Key("text"), Key("body")]) == Some(message)
  {
    if ServiceDebugMode(debugEnv) then Skipped
    else
      match DecryptedWhatsappToken(company, decrypt)
      case None => SendError
      case Some(token) =>
        Posted(GraphMessagesRequest("v17.0", PyStr(company.phoneNumberId), token, JStr(to), message))
  }

  // ---------------------------------------------------------------------------
  // handle_message

  const ValuePath: seq<Step> := [Key("entry"), Index(0), Key("changes"), Index(0), Key("value")]
  const PhoneIdPath: seq<Step> := [Key("metadata"), Key("phone_number_id")]
  const MessagePath: seq<Step> := [Key("messages"), Index(0)]
  const TextPath: seq<Step> := [Key("text"), Key("body")]
  const FromPath: seq<Step> := [Key("from")]

  /** How `handle_message` ends. Every exception is caught and only printed;
      LookupFailed is the company query raising. */
  datatype Stop = Finished | ExtractionFailed | CompanyNotFound | LookupFailed | SendFailed

  /** What the handler does to the world, in order. */
  datatype Effect =
    | Complete(messages: seq<ChatMessage>)   // the chat completion request
    | Save(turn: Turn)                       // save_conversation
    | Post(request: HttpRequest)             // the Graph API send

  datatype HandleOutcome = HandleOutcome(effects: seq<Effect>, stop: Stop)

  /** The values the handler reads from the environment and the database. */
  datatype Services = Services(
    companies: seq<Company>,
    conversations: seq<Turn>,
    now: int,
    decrypt: string -> Option<string>,
    openAiKey: Option<string>,
    complete: seq<ChatMessage> -> Option<string>,
    debugEnv: Option<string>)

  /** The company and message fields an inbound payload resolves to. */
  datatype Inbound = Inbound(company: Company, userText: string, sender: string)

  /** The extraction steps of `handle_message`, in the source's order: the value,
      its phone_number_id, the company, then the first message's text body and sender. */
  function Extract(data: Json, companies: seq<Company>): (r: Result<Inbound, Stop>)
    ensures r.Err? ==> r.error == ExtractionFailed || r.error == CompanyNotFound || r.error == LookupFailed
    ensures r == Err(CompanyNotFound) <==>
      At(data, ValuePath + PhoneIdPath).Some?
      && CompanyByPhoneId(companies, At(data, ValuePath + PhoneIdPath).value) == NoRow
    ensures r == Err(LookupFailed) <==>
      At(data, ValuePath + PhoneIdPath).Some?
      && CompanyByPhoneId(companies, At(data, ValuePath + PhoneIdPath).value) == Raised
    ensures r.Ok? <==>
      At(data, ValuePath + PhoneIdPath).Some?
      && CompanyByPhoneId(companies, At(data, ValuePath + PhoneIdPath).value).OneRow?
      && StrAt(data, ValuePath + MessagePath + TextPath).Some?
      && StrAt(data, ValuePath + MessagePath + FromPath).Some?
    ensures r.Ok? ==>
      r.value == Inbound(CompanyByPhoneId(companies, At(data, ValuePath + PhoneIdPath).value).company,
                         StrAt(data, ValuePath + MessagePath + TextPath).value,
                         StrAt(data, ValuePath + MessagePath + FromPath).value)
  {
    AtConcat(data, ValuePath, PhoneIdPath);
    AtConcat(data, ValuePath + MessagePath, TextPath);
    AtConcat(data, ValuePath + MessagePath, FromPath);
    AtConcat(data, ValuePath, MessagePath);
    match At(data, ValuePath)
    case None => Err(ExtractionFailed)
    case Some(value) =>
      match At(value, PhoneIdPath)
      case None => Err(ExtractionFailed)
      case Some(phoneId) =>
        match CompanyByPhoneId(companies, phoneId)
        case NoRow => Err(CompanyNotFound)
        case Raised => Err(LookupFailed)
        case OneRow(company) =>
          match At(value, MessagePath)
          case None => Err(ExtractionFailed)
          case Some(msg) =>
            match StrAt(msg, TextPath)
            case None => Err(ExtractionFailed)
            case Some(text) =>
              match StrAt(msg, FromPath)
              case None => Err(ExtractionFailed)
              case Some(sender) => Ok(Inbound(company, text, sender))
  }

  /** The sender's five latest turns with this company, as `get_recent_messages` returns them. */
  function History(inb: Inbound, s: Services): seq<ChatMessage>
  {
    RecentHistory(s.conversations, inb.sender, inb.company.id, 5)
  }

  /** The reply `generate_response` gives. */
  function Reply(inb: Inbound, s: Services): string
  {
    GenerateResponse(inb.userText, inb.company.aiPrompt, inb.company.language, inb.company.tone,
                     History(inb, s), s.openAiKey, s.complete)
  }

  /** The completion request, made only when an API key is configured. */
  function Generation(inb: Inbound, s: Services): (g: seq<Effect>)
    ensures |g| <= 1
    ensures |g| == 1 <==> ApiKeyPresent(s.openAiKey)
    ensures forall k :: 0 <= k < |g| ==> g[k].Complete?
    ensures |g| == 1 ==>
      g[0].Complete? && |g[0].messages| >= 2
      && g[0].messages[1..|g[0].messages| - 1] == History(inb, s)
      && g[0].messages[|g[0].messages| - 1] == ChatMessage("user", inb.userText)
  {
    if ApiKeyPresent(s.openAiKey) then
      [Complete(BuildMessages(inb.userText, inb.company.aiPrompt, inb.company.language, inb.company.tone,
                              History(inb, s)))]
    else []
  }

  /** The row `save_conversation` inserts: sender, text body, reply, company id, now. */
  function SavedTurn(inb: Inbound, reply: string, s: Services): Turn
  {
    Turn(inb.sender, inb.userText, reply, inb.company.id, s.now)
  }

  /** The effects of one handled message, in order: the generation step, the save,
      then the post when the sender produced a request. */
  function EffectsInOrder(gen: seq<Effect>, turn: Turn, sent: SendResult): (r: HandleOutcome)
    ensures r.stop == Finished || r.stop == SendFailed
    ensures r.stop == SendFailed <==> sent == SendError
    ensures |gen| + 1 <= |r.effects| <= |gen| + 2
    ensures r.effects[..|gen|] == gen && r.effects[|gen|] == Save(turn)
    ensures sent.Posted? <==> |r.effects| == |gen| + 2
    ensures sent.Posted? ==> r.effects[|gen| + 1] == Post(sent.request)
  {
    var saved := gen + [Save(turn)];
    assert saved[..|gen|] == gen;
    match sent
    case Skipped => HandleOutcome(saved, Finished)
    case SendError => HandleOutcome(saved, SendFailed)
    case Posted(req) =>
      assert (saved + [Post(req)])[..|gen|] == gen;
      HandleOutcome(saved + [Post(req)], Finished)
  }

  /** What happens once the company and message fields are known: generate, save,
      then send. */
  function Deliver(inb: Inbound, reply: string, s: Services): HandleOutcome
  {
    EffectsInOrder(Generation(inb, s), SavedTurn(inb, reply, s),
                   SendReply(inb.sender, reply, inb.company, s.debugEnv, s.decrypt))
  }

  /** `handle_message(data)`: nothing happens unless every field is found and the
      company exists; otherwise Deliver's effects. */
  function HandleMessage(data: Json, s: Services): (r: HandleOutcome)
    ensures Extract(data, s.companies).Err? ==> r.effects == [] && r.stop == Extract(data, s.companies).error
    ensures Extract(data, s.companies).Ok? ==> r == Deliver(Extract(data, s.companies).value, Reply(Extract(data, s.companies).value, s), s)
  {
    match Extract(data, s.companies)
    case Err(stop) => HandleOutcome([], stop)
    case Ok(inb) => Deliver(inb, Reply(inb, s), s)
  }

  /** With no company for the phone_number_id, or a lookup that raises, nothing is
      generated, saved or sent; the same holds for any payload missing one of the
      fields read. */
  lemma HandleMessageStopsEarly(data: Json, s: Services)
    ensures var r := HandleMessage(data, s);
      (r.stop == CompanyNotFound || r.stop == ExtractionFailed || r.stop == LookupFailed) <==> r.effects == []
    ensures HandleMessage(data, s).stop == CompanyNotFound <==>
      At(data, ValuePath + PhoneIdPath).Some?
      && CompanyByPhoneId(s.companies, At(data, ValuePath + PhoneIdPath).value) == NoRow
  {
    var e := Extract(data, s.companies);
    if e.Ok? {
      var inb := e.value;
      var reply := Reply(inb, s);
      var sent := SendReply(inb.sender, reply, inb.company, s.debugEnv, s.decrypt);
      var r := EffectsInOrder(Generation(inb, s), SavedTurn(inb, reply, s), sent);
      assert HandleMessage(data, s) == r;
    }
  }

  /** A post can only be the last effect, right after the save. */
  lemma PostComesLast(gen: seq<Effect>, turn: Turn, sent: SendResult, j: nat)
    requires j < |EffectsInOrder(gen, turn, sent).effects| && EffectsInOrder(gen, turn, sent).effects[j].Post?
    requires forall k :: 0 <= k < |gen| ==> gen[k].Complete?
    ensures var r := EffectsInOrder(gen, turn, sent);
      sent.Posted? && j == |r.effects| - 1 && j >= 1
      && r.effects[j - 1] == Save(turn) && r.effects[j] == Post(sent.request)
  {
  }

  /** On every path that sends, the turn is saved just before, and the Graph request
      carries exactly the saved reply to the saved sender; debug mode never sends. */
  lemma DeliverSavesBeforePost(inb: Inbound, reply: string, s: Services, j: nat)
    requires j < |Deliver(inb, reply, s).effects| && Deliver(inb, reply, s).effects[j].Post?
    ensures var r := Deliver(inb, reply, s);
      var turn := SavedTurn(inb, reply, s);
      j == |r.effects| - 1 && j >= 1
      && r.effects[j - 1] == Save(turn)
      && StrAt(r.effects[j].request.json, [Key("text"), Key("body")]) == Some(turn.aiResponse)
      && StrAt(r.effects[j].request.json, [Key("to")]) == Some(turn.phoneNumber)
      && !ServiceDebugMode(s.debugEnv)
  {
    var sent := SendReply(inb.sender, reply, inb.company, s.debugEnv, s.decrypt);
    var g := Generation(inb, s);
    var turn := SavedTurn(inb, reply, s);
    assert Deliver(inb, reply, s) == EffectsInOrder(g, turn, sent);
    PostComesLast(g, turn, sent, j);
    assert Deliver(inb, reply, s).effects[j].request == sent.request;
  }

  /** The same, for a whole inbound payload. */
  lemma SaveBeforePost(data: Json, s: Services, j: nat)
    requires j < |HandleMessage(data, s).effects| && HandleMessage(data, s).effects[j].Post?
    ensures Extract(data, s.companies).Ok?
    ensures var r := HandleMessage(data, s);
      var inb := Extract(data, s.companies).value;
      var turn := SavedTurn(inb, Reply(inb, s), s);
      j == |r.effects| - 1 && j >= 1
      && r.effects[j - 1] == Save(turn)
      && StrAt(r.effects[j].request.json, [Key("text"), Key("body")]) == Some(turn.aiResponse)
      && StrAt(r.effects[j].request.json, [Key("to")]) == Some(turn.phoneNumber)
      && !ServiceDebugMode(s.debugEnv)
  {
    var inb := Extract(data, s.companies).value;
    DeliverSavesBeforePost(inb, Reply(inb, s), s, j);
  }
}
