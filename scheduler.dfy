/** google_calendar/scheduler.py: the meeting-scheduling conversation. A scheduler
    holds the start of the window it is offering slots in and a count of the
    user's refusals. Times are integer minutes, as in module Calendar. */
module Scheduler {
  import opened Wrappers
  import opened Strings
  import opened Json
  import opened Calendar

  /** A suggested slot as it travels through the conversation: the `start` and
      `end` entries of the dict, ISO-8601 text. */
  datatype SlotText = SlotText(start: string, end: string)

  datatype Outcome = Confirm(slot: SlotText) | Retry(slots: seq<SlotText>) | Abort | Clarify

  /** `s[:16]`: the date and the hours and minutes of an ISO-8601 timestamp. */
  function Take16(s: string): (p: string)
    ensures |p| <= 16 && p <= s
    ensures |s| >= 16 ==> |p| == 16
    ensures |s| <= 16 ==> p == s
  {
    if |s| <= 16 then s else s[..16]
  }

  /** The slot's start or end, cut to 16 characters, occurs in the message. */
  predicate Matches(slot: SlotText, message: string)
  {
    Contains(message, Take16(slot.start)) || Contains(message, Take16(slot.end))
  }

  /** The position of the first slot, in list order, that matches; |slots| when none does. */
  function MatchIndex(slots: seq<SlotText>, message: string): (i: nat)
    ensures i <= |slots|
    ensures forall k :: 0 <= k < i ==> !Matches(slots[k], message)
    ensures i < |slots| ==> Matches(slots[i], message)
  {
    if slots == [] || Matches(slots[0], message) then 0
    else
      assert forall k :: 1 <= k < |slots| ==> slots[k] == slots[1..][k - 1];
      1 + MatchIndex(slots[1..], message)
  }

  /** The slot the loop over `suggested_slots` returns. */
  function FirstMatch(slots: seq<SlotText>, message: string): (r: Option<SlotText>)
    ensures r.None? <==> forall k :: 0 <= k < |slots| ==> !Matches(slots[k], message)
    ensures r.Some? ==> r.value == slots[MatchIndex(slots, message)] && Matches(r.value, message)
  {
    var i := MatchIndex(slots, message);
    if i < |slots| then Some(slots[i]) else None
  }

  const NegativeKeywords: seq<string> :=
    ["nenhum", "n\U{00E3}o posso", "n\U{00E3}o consigo", "nenhuma hora", "sem disponibilidade"]

  /** `any(k in user_message for k in negative_keywords)`. */
  predicate Refusal(message: string)
  {
    exists k :: 0 <= k < |NegativeKeywords| && Contains(message, NegativeKeywords[k])
  }

  /** A slot whose two 16-character prefixes each hold an upper-case letter never
      matches a lower-cased message. */
  lemma UppercaseSlotNeverMatches(slot: SlotText, message: string, i: nat, j: nat)
    requires i < |Take16(slot.start)| && IsUpper(Take16(slot.start)[i])
    requires j < |Take16(slot.end)| && IsUpper(Take16(slot.end)[j])
    ensures !Matches(slot, Lower(message))
  {
    UpperNeverInLower(message, Take16(slot.start), i);
    UpperNeverInLower(message, Take16(slot.end), j);
  }

  /** `isoformat()` text has an upper-case 'T' at index 10, inside the prefix; so
      slots as the calendar formats them are never confirmed. */
  lemma IsoSlotsNeverConfirm(slots: seq<SlotText>, message: string)
    requires forall k :: 0 <= k < |slots| ==>
      |slots[k].start| >= 16 && slots[k].start[10] == 'T' && |slots[k].end| >= 16 && slots[k].end[10] == 'T'
    ensures FirstMatch(slots, Lower(message)) == None
  {
    forall k | 0 <= k < |slots| ensures !Matches(slots[k], Lower(message)) {
      UppercaseSlotNeverMatches(slots[k], message, 10, 10);
    }
  }

  /** Summary and description `schedule_event` uses when the caller passes none. */
  const DefaultSummary := "Reuni\U{00E3}o com Assistente IA"
  const DefaultDescription := "Agendamento autom\U{00E1}tico pelo assistente"
  const EventTimeZone := "America/Sao_Paulo"
  /** Suggestions are sought in the eight hours after the window start. */
  const WindowMinutes := 8 * 60

  /** The insert `create_event` performs: company, calendar and event body. */
  datatype EventInsert = EventInsert(companyId: string, calendarId: string, body: Json)

  /** One point of the event: `{"dateTime": ..., "timeZone": "America/Sao_Paulo"}`. */
  function EventTime(dateTime: string): (j: Json)
    ensures j.JObj? && j.fields.Keys == {"dateTime", "timeZone"}
    ensures StrAt(j, [Key("dateTime")]) == Some(dateTime)
    ensures StrAt(j, [Key("timeZone")]) == Some(EventTimeZone)
  {
    JObj(map["dateTime" := JStr(dateTime), "timeZone" := JStr(EventTimeZone)])
  }

  class MeetingScheduler {
    const companyId: string
    /** Minutes per suggested slot. */
    const slotDuration: int := 30
    /** Minutes the window moves on each refusal: one day. */
    const windowStep: int := 1440
    const maxAttempts: int := 5
    var currentWindowStart: int
    var attempts: int

    ghost predicate Valid()
      reads this
    {
      0 <= attempts
    }

    /** `MeetingScheduler(company_id)`; `now` is `datetime.now(pytz.UTC)`. */
    constructor(companyId: string, now: int)
      ensures Valid()
      ensures this.companyId == companyId && currentWindowStart == now && attempts == 0
    {
      this.companyId := companyId;
      currentWindowStart := now;
      attempts := 0;
    }

    /** `suggest_slots` as its window arithmetic means it: 30-minute slots in the
        eight hours from the window start, given that window's busy ranges. */
    function SuggestSlots(busy: seq<(int, int)>): (r: seq<Suggestion>)
      reads this
      ensures forall s :: s in r ==>
        currentWindowStart <= s.start && s.end == s.start + slotDuration
        && s.end <= currentWindowStart + WindowMinutes && InHours(s.start)
      ensures r == SlotsFrom(currentWindowStart, currentWindowStart + WindowMinutes, slotDuration, busy)
    {
      SlotsShape(currentWindowStart, currentWindowStart + WindowMinutes, slotDuration, busy);
      SlotsFrom(currentWindowStart, currentWindowStart + WindowMinutes, slotDuration, busy)
    }

    /** `handle_user_response`. `newSlots` stands for what `suggest_slots` returns
        after the window has moved. A matching slot wins over a refusal; a
        refusal counts one attempt and either aborts, leaving the window where it
        is, or moves the window on by a day and retries; anything else asks the
        user to clarify and changes nothing. */
    method HandleUserResponse(userMessage: string, suggestedSlots: seq<SlotText>, newSlots: seq<SlotText>)
      returns (o: Outcome)
      requires Valid()
      modifies this
      ensures Valid()
      ensures FirstMatch(suggestedSlots, Lower(userMessage)).Some? ==>
        o == Confirm(FirstMatch(suggestedSlots, Lower(userMessage)).value)
        && attempts == old(attempts) && currentWindowStart == old(currentWindowStart)
      ensures FirstMatch(suggestedSlots, Lower(userMessage)).None? && Refusal(Lower(userMessage)) ==>
        attempts == old(attempts) + 1
        && (attempts >= maxAttempts ==> o == Abort && currentWindowStart == old(currentWindowStart))
        && (attempts < maxAttempts ==> o == Retry(newSlots) && currentWindowStart == old(currentWindowStart) + windowStep)
      ensures FirstMatch(suggestedSlots, Lower(userMessage)).None? && !Refusal(Lower(userMessage)) ==>
        o == Clarify && attempts == old(attempts) && currentWindowStart == old(currentWindowStart)
    {
      var message := Lower(userMessage);
      for i := 0 to |suggestedSlots|
        invariant forall k :: 0 <= k < i ==> !Matches(suggestedSlots[k], message)
      {
        var slot := suggestedSlots[i];
        var startStr := Take16(slot.start);
        var endStr := Take16(slot.end);
        if Contains(message, startStr) || Contains(message, endStr) {
          assert MatchIndex(suggestedSlots, message) == i;
          return Confirm(slot);
        }
      }
      assert FirstMatch(suggestedSlots, message).None?;
      if Refusal(message) {
        attempts := attempts + 1;
        if attempts >= maxAttempts {
          return Abort;
        }
        currentWindowStart := currentWindowStart + windowStep;
        return Retry(newSlots);
      }
      return Clarify;
    }

    /** `schedule_event`: the event inserted into the company's primary calendar.
        None stands for an argument the caller leaves out, which takes the default. */
    function ScheduleEvent(slot: SlotText, summary: Option<string>, description: Option<string>): (r: EventInsert)
      ensures r.companyId == companyId && r.calendarId == "primary"
      ensures r.body.JObj? && r.body.fields.Keys == {"summary", "description", "start", "end"}
      ensures summary.Some? ==> StrAt(r.body, [Key("summary")]) == summary
      ensures summary.None? ==> StrAt(r.body, [Key("summary")]) == Some(DefaultSummary)
      ensures description.Some? ==> StrAt(r.body, [Key("description")]) == description
      ensures description.None? ==> StrAt(r.body, [Key("description")]) == Some(DefaultDescription)
      ensures StrAt(r.body, [Key("start"), Key("dateTime")]) == Some(slot.start)
      ensures StrAt(r.body, [Key("end"), Key("dateTime")]) == Some(slot.end)
      ensures StrAt(r.body, [Key("start"), Key("timeZone")]) == Some(EventTimeZone)
      ensures StrAt(r.body, [Key("end"), Key("timeZone")]) == Some(EventTimeZone)
    {
      var body := JObj(map[
        "summary" := JStr(if summary.Some? then summary.value else DefaultSummary),
        "description" := JStr(if description.Some? then description.value else DefaultDescription),
        "start" := EventTime(slot.start),
        "end" := EventTime(slot.end)]);
      assert At(body, [Key("start"), Key("dateTime")]) == At(EventTime(slot.start), [Key("dateTime")]);
      assert At(body, [Key("start"), Key("timeZone")]) == At(EventTime(slot.start), [Key("timeZone")]);
      assert At(body, [Key("end"), Key("dateTime")]) == At(EventTime(slot.end), [Key("dateTime")]);
      assert At(body, [Key("end"), Key("timeZone")]) == At(EventTime(slot.end), [Key("timeZone")]);
      EventInsert(companyId, "primary", body)
    }
  }
}
