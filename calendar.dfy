/** google_calendar/calendar.py: enumerating free meeting slots in a window. Times are
    integer minutes in the America/Sao_Paulo zone, counted from a local midnight, so
    the hour of a time is its minute of the day divided by 60. The busy ranges come
    from the Google free/busy query and are a parameter here. */
module Calendar {
  import opened Wrappers

  /** Candidate starts are this many minutes apart. */
  const Step := 15
  const MinutesPerDay := 1440
  /** Slots start at or after 09:00 and before 18:00. */
  const OpeningHour := 9
  const ClosingHour := 18

  /** One suggestion: `{"start": ..., "end": ...}`. */
  datatype Suggestion = Suggestion(start: int, end: int)

  /** `current.hour`. */
  function HourOf(t: int): (h: int)
    ensures 0 <= h < 24
  {
    (t % MinutesPerDay) / 60
  }

  predicate InHours(t: int)
  {
    OpeningHour <= HourOf(t) < ClosingHour
  }

  /** `any(start <= slot_end and end >= current for start, end in busy)`: closed
      intervals, so a busy range that only touches the slot is a conflict. */
  predicate Conflict(busy: seq<(int, int)>, slotStart: int, slotEnd: int)
  {
    exists k :: 0 <= k < |busy| && busy[k].0 <= slotEnd && busy[k].1 >= slotStart
  }

  /** The suggestions the loop produces from `current` on. */
  function SlotsFrom(current: int, end: int, slotMinutes: int, busy: seq<(int, int)>): seq<Suggestion>
    decreases end - slotMinutes - current
  {
    if current + slotMinutes > end then []
    else if !InHours(current) || Conflict(busy, current, current + slotMinutes) then
      SlotsFrom(current + Step, end, slotMinutes, busy)
    else
      [Suggestion(current, current + slotMinutes)] + SlotsFrom(current + Step, end, slotMinutes, busy)
  }

  /** `suggest_available_slots` once the busy ranges are fetched: step through the
      window in 15-minute strides and keep every in-hours slot that meets no busy range. */
  method SuggestAvailableSlots(start: int, end: int, slotMinutes: int, busy: seq<(int, int)>)
    returns (suggestions: seq<Suggestion>)
    ensures suggestions == SlotsFrom(start, end, slotMinutes, busy)
  {
    suggestions := [];
    var current := start;
    while current + slotMinutes <= end
      invariant suggestions + SlotsFrom(current, end, slotMinutes, busy) == SlotsFrom(start, end, slotMinutes, busy)
      decreases end - slotMinutes - current
    {
      var slotEnd := current + slotMinutes;
      if !InHours(current) {
        current := current + Step;
        continue;
      }
      var conflict := Conflict(busy, current, slotEnd);
      if !conflict {
        suggestions := suggestions + [Suggestion(current, slotEnd)];
      }
      current := current + Step;
    }
  }

  /** A candidate start of the loop begun at `current`. */
  predicate Candidate(current: int, t: int)
  {
    current <= t && (t - current) % Step == 0
  }

  /** Every suggestion is a candidate, in hours, conflict-free, lasts exactly
      slotMinutes and ends inside the window. */
  lemma {:induction false} SlotsShape(current: int, end: int, slotMinutes: int, busy: seq<(int, int)>)
    ensures forall s :: s in SlotsFrom(current, end, slotMinutes, busy) ==>
      s.end == s.start + slotMinutes && s.end <= end && Candidate(current, s.start)
      && InHours(s.start) && !Conflict(busy, s.start, s.end)
    decreases end - slotMinutes - current
  {
    if current + slotMinutes <= end {
      SlotsShape(current + Step, end, slotMinutes, busy);
      forall t | Candidate(current + Step, t) ensures Candidate(current, t) {
        assert t - current == (t - (current + Step)) + Step;
      }
    }
  }

  /** One turn of the loop: the candidate at `current` is kept or skipped. */
  lemma SlotsStep(current: int, end: int, slotMinutes: int, busy: seq<(int, int)>)
    requires current + slotMinutes <= end
    ensures var rest := SlotsFrom(current + Step, end, slotMinutes, busy);
      SlotsFrom(current, end, slotMinutes, busy) == rest
      || SlotsFrom(current, end, slotMinutes, busy) == [Suggestion(current, current + slotMinutes)] + rest
  {
  }

  /** Every suggestion starts at or after `current`. */
  lemma {:induction false} SlotsAfter(current: int, end: int, slotMinutes: int, busy: seq<(int, int)>)
    ensures var r := SlotsFrom(current, end, slotMinutes, busy);
      forall k :: 0 <= k < |r| ==> current <= r[k].start
  {
    var r := SlotsFrom(current, end, slotMinutes, busy);
    SlotsShape(current, end, slotMinutes, busy);
    assert forall k :: 0 <= k < |r| ==> r[k] in r;
  }

  /** Suggestions are strictly increasing by start time. */
  lemma {:induction false} SlotsIncreasing(current: int, end: int, slotMinutes: int, busy: seq<(int, int)>)
    ensures var r := SlotsFrom(current, end, slotMinutes, busy);
      forall i, j :: 0 <= i < j < |r| ==> r[i].start < r[j].start
    decreases end - slotMinutes - current
  {
    if current + slotMinutes <= end {
      var r := SlotsFrom(current, end, slotMinutes, busy);
      var rest := SlotsFrom(current + Step, end, slotMinutes, busy);
      SlotsIncreasing(current + Step, end, slotMinutes, busy);
      SlotsStep(current, end, slotMinutes, busy);
      if r != rest {
        SlotsAfter(current + Step, end, slotMinutes, busy);
        forall i, j | 0 <= i < j < |r| ensures r[i].start < r[j].start {
          assert r[j] == rest[j - 1];
          if i > 0 {
            assert r[i] == rest[i - 1];
          }
        }
      }
    }
  }

  /** A slot is suggested exactly when its start is a candidate, it fits before the
      window end, its start hour is in [9, 18) and no busy range meets it. */
  lemma {:induction false} SlotsMember(current: int, end: int, slotMinutes: int, busy: seq<(int, int)>, t: int)
    ensures Suggestion(t, t + slotMinutes) in SlotsFrom(current, end, slotMinutes, busy)
      <==> Candidate(current, t) && t + slotMinutes <= end && InHours(t) && !Conflict(busy, t, t + slotMinutes)
    decreases end - slotMinutes - current
  {
    SlotsShape(current, end, slotMinutes, busy);
    if current + slotMinutes <= end {
      SlotsMember(current + Step, end, slotMinutes, busy, t);
      if t != current && Candidate(current, t) {
        assert t - (current + Step) == (t - current) - Step;
        assert Candidate(current + Step, t);
      }
    }
  }

  /** With no busy ranges, each in-hours candidate that fits is suggested. */
  lemma NoBusyAllInHours(current: int, end: int, slotMinutes: int, t: int)
    requires Candidate(current, t) && t + slotMinutes <= end && InHours(t)
    ensures Suggestion(t, t + slotMinutes) in SlotsFrom(current, end, slotMinutes, [])
  {
    SlotsMember(current, end, slotMinutes, [], t);
  }

  /** A window shorter than one slot yields nothing. */
  lemma ShortWindowEmpty(current: int, end: int, slotMinutes: int, busy: seq<(int, int)>)
    requires end - current < slotMinutes
    ensures SlotsFrom(current, end, slotMinutes, busy) == []
  {
  }

  /** The discovery cache handed to the Google client: it never holds anything. */
  class NoCache {
    constructor()
    {
    }

    /** `get` always misses. */
    method Get(url: string) returns (r: Option<string>)
      ensures r == None
    {
      r := None;
    }

    /** `set` stores nothing: the method has no frame to write to. */
    method Set(url: string, content: string)
      ensures unchanged(this)
    {
    }
  }
}
