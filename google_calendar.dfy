/**
 * The Google Calendar side of appointment booking: a lawyer's weekly availability
 * hours, the generator of free slots that avoids busy events, the list of the user's
 * calendars and the merged, deduplicated event list fetched three calendars at a time.
 *
 * Instants are integer milliseconds of local time since 1970-01-01T00:00, which was a
 * Thursday. The Calendar API's HTTP answers are parameters.
 */
module GoogleCalendar {
  import opened Wrappers
  import opened Strings

  const MsPerMinute: int := 60000
  const MsPerHour: int := 3600000
  const MsPerDay: int := 86400000
  /** Slots are generated from 08:00 ... */
  const OpeningHour: int := 8
  /** ... up to 19:00 of each day. */
  const ClosingHour: int := 19
  /** Days scanned from the start date on. */
  const DaysScanned: int := 8
  /** A slot must start at least this long after "now". */
  const MinimumNotice: int := 15 * MsPerMinute
  /** Calendars whose events are requested together. */
  const BatchSize: int := 3
  const PrimaryId: string := "primary"
  const PrimarySummary: string := "Primary Calendar"

  // ---------------------------------------------------------------------------
  // Availability hours
  // ---------------------------------------------------------------------------

  /** A range "HH:mm" to "HH:mm". */
  datatype TimeSlot = TimeSlot(start: string, end: string)
  datatype DayAvailability = DayAvailability(enabled: bool, timeSlots: seq<TimeSlot>)
  datatype AvailabilityHours = AvailabilityHours(
    monday: DayAvailability, tuesday: DayAvailability, wednesday: DayAvailability,
    thursday: DayAvailability, friday: DayAvailability, saturday: DayAvailability,
    sunday: DayAvailability)

  /** The entry of a week day numbered as `Date.getDay()` numbers them (0 is Sunday). */
  function DayOf(a: AvailabilityHours, d: int): DayAvailability
    requires 0 <= d < 7
  {
    if d == 0 then a.sunday else if d == 1 then a.monday else if d == 2 then a.tuesday
    else if d == 3 then a.wednesday else if d == 4 then a.thursday
    else if d == 5 then a.friday else a.saturday
  }

  /** `getDay()` of an instant. */
  function Weekday(t: int): (d: int)
    ensures 0 <= d < 7
  {
    (t / MsPerDay + 4) % 7
  }

  /** `getHours() * 60 + getMinutes()` of an instant. */
  function MinuteOfDay(t: int): (m: int)
    ensures 0 <= m < 24 * 60
  {
    (t % MsPerDay) / MsPerMinute
  }

  /** `Number(piece)` on the forms a clock field takes: the empty string is 0, a run of
      digits is its decimal value, anything else is NaN (None). */
  function NumberOf(piece: string): Option<int> {
    if forall i :: 0 <= i < |piece| ==> IsDigit(piece[i]) then Some(DecimalValue(piece))
    else None
  }

  /** `h * 60 + m` where `[h, m] = s.split(':').map(Number)`; None (NaN) when a field is
      missing or not a number. */
  function ClockMinutes(s: string): Option<int> {
    var parts := Split(s, ':');
    if |parts| < 2 then None
    else
      var h := NumberOf(parts[0]);
      var m := NumberOf(parts[1]);
      if h.Some? && m.Some? then Some(h.value * 60 + m.value) else None
  }

  /** The "HH:mm" rendering of a time of day. */
  function Clock(h: nat, m: nat): string {
    ZeroPad(NatToString(h), 2) + ":" + ZeroPad(NatToString(m), 2)
  }

  /** Reading an "HH:mm" rendering gives back its minute of the day. */
  lemma ClockMinutesOfClock(h: nat, m: nat)
    ensures ClockMinutes(Clock(h, m)) == Some(h * 60 + m)
  {
    var hh := ZeroPad(NatToString(h), 2);
    var mm := ZeroPad(NatToString(m), 2);
    NatToStringValue(h);
    NatToStringValue(m);
    ZeroPadValue(NatToString(h), 2);
    ZeroPadValue(NatToString(m), 2);
    assert ':' !in hh;
    assert ':' !in mm;
    SplitAfterPiece(hh, ':', mm);
    SplitNoSeparator(mm, ':');
    assert Split(Clock(h, m), ':') == [hh, mm];
  }

  /** `slotTime >= startTime && slotTime < endTime`; a NaN bound makes it false. */
  predicate InTimeSlot(minute: int, slot: TimeSlot) {
    var s := ClockMinutes(slot.start);
    var e := ClockMinutes(slot.end);
    s.Some? && e.Some? && s.value <= minute < e.value
  }

  /** `timeSlots.some(...)`. */
  function AnySlotContains(slots: seq<TimeSlot>, minute: int): bool {
    if slots == [] then false
    else InTimeSlot(minute, slots[0]) || AnySlotContains(slots[1..], minute)
  }

  /** `some` holds iff one of the ranges contains the minute. */
  lemma {:induction false} AnySlotContainsMeans(slots: seq<TimeSlot>, minute: int)
    decreases |slots|
    ensures AnySlotContains(slots, minute) <==> exists i :: 0 <= i < |slots| && InTimeSlot(minute, slots[i])
  {
    if slots != [] {
      AnySlotContainsMeans(slots[1..], minute);
      if AnySlotContains(slots[1..], minute) {
        var i :| 0 <= i < |slots[1..]| && InTimeSlot(minute, slots[1..][i]);
        assert InTimeSlot(minute, slots[i + 1]);
      }
      if exists i :: 0 <= i < |slots| && InTimeSlot(minute, slots[i]) {
        var i :| 0 <= i < |slots| && InTimeSlot(minute, slots[i]);
        if i > 0 {
          assert slots[i] == slots[1..][i - 1];
        }
      }
    }
  }

  /** Whether a slot starting at `t` lies in the lawyer's availability hours. */
  function IsSlotInAvailabilityHours(t: int, hours: Option<AvailabilityHours>): bool {
    if hours.None? then true
    else
      var day := DayOf(hours.value, Weekday(t));
      if !day.enabled || |day.timeSlots| == 0 then false
      else AnySlotContains(day.timeSlots, MinuteOfDay(t))
  }

  /**
   * Without availability hours every slot is accepted; on a disabled day or a day
   * without ranges none is; otherwise a slot is accepted iff its minute of the day lies
   * in one of the day's `[start, end)` ranges.
   */
  lemma AvailabilityRule(t: int, hours: Option<AvailabilityHours>)
    ensures hours.None? ==> IsSlotInAvailabilityHours(t, hours)
    ensures hours.Some? && (!DayOf(hours.value, Weekday(t)).enabled
                            || |DayOf(hours.value, Weekday(t)).timeSlots| == 0)
            ==> !IsSlotInAvailabilityHours(t, hours)
    ensures hours.Some? && DayOf(hours.value, Weekday(t)).enabled ==>
      (IsSlotInAvailabilityHours(t, hours) <==>
         exists i :: 0 <= i < |DayOf(hours.value, Weekday(t)).timeSlots|
           && InTimeSlot(MinuteOfDay(t), DayOf(hours.value, Weekday(t)).timeSlots[i]))
  {
    if hours.Some? {
      AnySlotContainsMeans(DayOf(hours.value, Weekday(t)).timeSlots, MinuteOfDay(t));
    }
  }

  // ---------------------------------------------------------------------------
  // Free slots
  // ---------------------------------------------------------------------------

  /** The `dateTime` of an event's start or end: absent or empty (a falsy value; an
      all-day event only has a `date`), a text `new Date` cannot read, or the instant it
      reads as. */
  datatype DateTime = NoDateTime | Unreadable | At(ms: int)

  /** An event as the Calendar API returns it. */
  datatype CalendarEvent = CalendarEvent(id: string, summary: string,
                                         start: DateTime, end: DateTime)

  /** `event.start?.dateTime` is truthy: the filter keeps the event. */
  predicate IsTimed(e: CalendarEvent) {
    !e.start.NoDateTime?
  }

  /** Both ends read as instants, so `toISOString` on them does not throw. */
  predicate Readable(e: CalendarEvent) {
    e.start.At? && e.end.At?
  }

  /** A busy range from its start to its end. */
  datatype Busy = Busy(start: int, end: int)

  /** `events.filter(e => e.start?.dateTime).map(...)`: one busy range per timed event,
      or None when the map meets a timed event with an Invalid Date at either end,
      where `toISOString` throws a RangeError. */
  function BusySlots(events: seq<CalendarEvent>): Option<seq<Busy>> {
    if events == [] then Some([])
    else if IsTimed(events[0]) && !Readable(events[0]) then None
    else
      match BusySlots(events[1..])
      case None => None
      case Some(rest) =>
        if IsTimed(events[0]) then Some([Busy(events[0].start.ms, events[0].end.ms)] + rest)
        else Some(rest)
  }

  /** The busy ranges cannot be built exactly when some timed event has an end that does
      not read as an instant. */
  lemma {:induction false} BusySlotsThrows(events: seq<CalendarEvent>)
    decreases |events|
    ensures BusySlots(events).None? <==>
      exists i :: 0 <= i < |events| && IsTimed(events[i]) && !Readable(events[i])
  {
    if events != [] {
      BusySlotsThrows(events[1..]);
      if exists i :: 0 <= i < |events[1..]| && IsTimed(events[1..][i]) && !Readable(events[1..][i]) {
        var i :| 0 <= i < |events[1..]| && IsTimed(events[1..][i]) && !Readable(events[1..][i]);
        assert IsTimed(events[i + 1]) && !Readable(events[i + 1]);
      }
      if exists i :: 0 <= i < |events| && IsTimed(events[i]) && !Readable(events[i]) {
        var i :| 0 <= i < |events| && IsTimed(events[i]) && !Readable(events[i]);
        if i > 0 {
          assert IsTimed(events[1..][i - 1]) && !Readable(events[1..][i - 1]);
        }
      }
    }
  }

  /** When the busy ranges are built, every one comes from a timed event, and every
      event with readable ends gives one. */
  lemma {:induction false} BusySlotsMembers(events: seq<CalendarEvent>)
    decreases |events|
    ensures BusySlots(events).Some? ==>
      forall b :: b in BusySlots(events).value ==>
        exists e :: e in events && e.start == At(b.start) && e.end == At(b.end)
    ensures BusySlots(events).Some? ==>
      forall e :: e in events && e.start.At? && e.end.At? ==>
        Busy(e.start.ms, e.end.ms) in BusySlots(events).value
  {
    if events != [] {
      BusySlotsMembers(events[1..]);
      assert forall e :: e in events[1..] ==> e in events;
      assert forall e :: e in events ==> e == events[0] || e in events[1..];
    }
  }

  /** An all-day event, wherever it sits, does not change the busy ranges. */
  lemma {:induction false} AllDayEventsNeverBlock(before: seq<CalendarEvent>, e: CalendarEvent,
                                                  after: seq<CalendarEvent>)
    requires e.start.NoDateTime?
    decreases |before|
    ensures BusySlots(before + [e] + after) == BusySlots(before + after)
  {
    if before == [] {
      assert ([e] + after)[1..] == after;
      assert before + [e] + after == [e] + after;
      assert before + after == after;
    } else {
      AllDayEventsNeverBlock(before[1..], e, after);
      assert (before + [e] + after)[1..] == before[1..] + [e] + after;
      assert (before + after)[1..] == before[1..] + after;
    }
  }

  /** `currentTime < busy.end && slotEnd > busy.start` for some busy range. */
  predicate Overlaps(t: int, slotEnd: int, b: Busy) {
    t < b.end && slotEnd > b.start
  }

  /** `busySlots.some(busy => currentTime < busy.end && slotEnd > busy.start)`. */
  predicate IsBusy(t: int, slotEnd: int, busy: seq<Busy>) {
    busy != [] && (Overlaps(t, slotEnd, busy[0]) || IsBusy(t, slotEnd, busy[1..]))
  }

  /** A candidate is busy iff it overlaps one of the busy ranges. */
  lemma {:induction false} IsBusyMeansOverlap(t: int, slotEnd: int, busy: seq<Busy>)
    decreases |busy|
    ensures IsBusy(t, slotEnd, busy) <==> exists i :: 0 <= i < |busy| && Overlaps(t, slotEnd, busy[i])
  {
    if busy != [] {
      IsBusyMeansOverlap(t, slotEnd, busy[1..]);
      if Overlaps(t, slotEnd, busy[0]) {
        assert Overlaps(t, slotEnd, busy[0]);
      } else if IsBusy(t, slotEnd, busy[1..]) {
        var i :| 0 <= i < |busy[1..]| && Overlaps(t, slotEnd, busy[1..][i]);
        assert Overlaps(t, slotEnd, busy[i + 1]);
      } else {
        forall i | 0 <= i < |busy| ensures !Overlaps(t, slotEnd, busy[i]) {
          if i > 0 {
            assert busy[i] == busy[1..][i - 1];
          }
        }
      }
    }
  }

  /** What one slot search is given. */
  datatype SlotQuery = SlotQuery(busy: seq<Busy>, start: int, end: int, duration: int,
                                 interval: int, hours: Option<AvailabilityHours>,
                                 minTime: int)

  /** Midnight of the `d`-th scanned day. */
  function Midnight(q: SlotQuery, d: int): int {
    q.start - q.start % MsPerDay + d * MsPerDay
  }

  function Opening(q: SlotQuery, d: int): int {
    Midnight(q, d) + OpeningHour * MsPerHour
  }

  function Closing(q: SlotQuery, d: int): int {
    Midnight(q, d) + ClosingHour * MsPerHour
  }

  /** The test a candidate start `t` must pass to be offered. */
  predicate Acceptable(q: SlotQuery, t: int, dayEnd: int) {
    var slotEnd := t + q.duration * MsPerMinute;
    && !IsBusy(t, slotEnd, q.busy)
    && IsSlotInAvailabilityHours(t, q.hours)
    && t >= q.minTime
    && slotEnd <= q.end
    && slotEnd <= dayEnd
  }

  /** What passing the test says about the slot, with the busy check spelled out. */
  lemma AcceptableMeans(q: SlotQuery, t: int, dayEnd: int)
    requires Acceptable(q, t, dayEnd)
    ensures t >= q.minTime && t + q.duration * MsPerMinute <= q.end
    ensures forall i :: 0 <= i < |q.busy| ==> !Overlaps(t, t + q.duration * MsPerMinute, q.busy[i])
    ensures IsSlotInAvailabilityHours(t, q.hours)
  {
    IsBusyMeansOverlap(t, t + q.duration * MsPerMinute, q.busy);
  }

  /** Minutes between two candidate starts, in milliseconds. */
  function Step(q: SlotQuery): (step: int)
    requires q.interval > 0
    ensures step > 0
  {
    q.interval * MsPerMinute
  }

  /** The `k`-th point of the grid starting at `base`. */
  function GridPoint(base: int, step: int, k: nat): int {
    base + k * step
  }

  ghost predicate OnGrid(t: int, base: int, step: int) {
    exists k: nat :: t == GridPoint(base, step, k)
  }

  /** The slots offered among the candidates `cur, cur + step, ...` while they are
      before the day's closing and the range's end. */
  function DaySlots(q: SlotQuery, cur: int, dayEnd: int): seq<int>
    requires q.interval > 0
    decreases dayEnd - cur
  {
    if cur < dayEnd && cur < q.end then
      (if Acceptable(q, cur, dayEnd) then [cur] else []) + DaySlots(q, cur + Step(q), dayEnd)
    else []
  }

  lemma DaySlotsUnfold(q: SlotQuery, cur: int, dayEnd: int)
    requires q.interval > 0
    requires cur < dayEnd && cur < q.end
    ensures DaySlots(q, cur, dayEnd)
            == (if Acceptable(q, cur, dayEnd) then [cur] else []) + DaySlots(q, cur + Step(q), dayEnd)
  {
  }

  /** The inner loop of `getAvailableSlots` exactly as written, for any interval, run
      for at most `fuel` rounds: None when the rounds run out before the loop ends. */
  function DayLoopAsWritten(q: SlotQuery, cur: int, dayEnd: int, fuel: nat): Option<seq<int>>
    decreases fuel
  {
    if !(cur < dayEnd && cur < q.end) then Some([])
    else if fuel == 0 then None
    else
      match DayLoopAsWritten(q, cur + q.interval * MsPerMinute, dayEnd, fuel - 1)
      case None => None
      case Some(rest) => Some((if Acceptable(q, cur, dayEnd) then [cur] else []) + rest)
  }

  /** With an interval of zero or less the candidate never moves forward, so once the
      loop is entered no number of rounds finishes it. */
  lemma {:induction false} NonPositiveIntervalNeverEnds(q: SlotQuery, cur: int, dayEnd: int, fuel: nat)
    requires q.interval <= 0
    requires cur < dayEnd && cur < q.end
    decreases fuel
    ensures DayLoopAsWritten(q, cur, dayEnd, fuel) == None
  {
    if fuel > 0 {
      assert q.interval * MsPerMinute <= 0;
      NonPositiveIntervalNeverEnds(q, cur + q.interval * MsPerMinute, dayEnd, fuel - 1);
    }
  }

  /** With a positive interval the loop ends within `dayEnd - cur + 1` rounds and gives
      `DaySlots`. */
  lemma {:induction false} PositiveIntervalEnds(q: SlotQuery, cur: int, dayEnd: int, fuel: nat)
    requires q.interval > 0
    requires fuel >= dayEnd - cur + 1
    decreases dayEnd - cur
    ensures DayLoopAsWritten(q, cur, dayEnd, fuel) == Some(DaySlots(q, cur, dayEnd))
  {
    if cur < dayEnd && cur < q.end {
      PositiveIntervalEnds(q, cur + Step(q), dayEnd, fuel - 1);
    }
  }

  /** The slots offered on days `d` to 7. */
  function SlotsFrom(q: SlotQuery, d: int): seq<int>
    requires q.interval > 0
    requires 0 <= d <= DaysScanned
    decreases DaysScanned - d
  {
    if d == DaysScanned then []
    else DaySlots(q, Opening(q, d), Closing(q, d)) + SlotsFrom(q, d + 1)
  }

  /** What `getAvailableSlots` answers for a query. */
  function FreeSlots(q: SlotQuery): seq<int>
    requires q.interval > 0
  {
    SlotsFrom(q, 0)
  }

  /** Every slot offered within a day is a candidate of that day's grid that passes
      the test. */
  lemma {:induction false} DaySlotsSound(q: SlotQuery, cur: int, dayEnd: int, base: int, k0: nat)
    requires q.interval > 0
    requires cur == GridPoint(base, Step(q), k0)
    decreases dayEnd - cur
    ensures forall t :: t in DaySlots(q, cur, dayEnd) ==>
      cur <= t < dayEnd && t < q.end && OnGrid(t, base, Step(q)) && Acceptable(q, t, dayEnd)
  {
    if cur < dayEnd && cur < q.end {
      assert cur + Step(q) == GridPoint(base, Step(q), k0 + 1);
      DaySlotsSound(q, cur + Step(q), dayEnd, base, k0 + 1);
      assert cur == GridPoint(base, Step(q), k0);
    }
  }

  /** Every candidate of the day that passes the test is offered. */
  lemma {:induction false} DaySlotsComplete(q: SlotQuery, cur: int, dayEnd: int, k: nat)
    requires q.interval > 0
    requires GridPoint(cur, Step(q), k) < dayEnd && GridPoint(cur, Step(q), k) < q.end
    requires Acceptable(q, GridPoint(cur, Step(q), k), dayEnd)
    decreases k
    ensures GridPoint(cur, Step(q), k) in DaySlots(q, cur, dayEnd)
  {
    assert cur <= GridPoint(cur, Step(q), k);
    if k > 0 {
      assert GridPoint(cur + Step(q), Step(q), k - 1) == GridPoint(cur, Step(q), k);
      DaySlotsComplete(q, cur + Step(q), dayEnd, k - 1);
    }
  }

  /** No slot of a day comes before the candidate the scan starts from. */
  lemma {:induction false} DaySlotsAbove(q: SlotQuery, cur: int, dayEnd: int)
    requires q.interval > 0
    decreases dayEnd - cur
    ensures forall t :: t in DaySlots(q, cur, dayEnd) ==> cur <= t
  {
    if cur < dayEnd && cur < q.end {
      DaySlotsAbove(q, cur + Step(q), dayEnd);
    }
  }

  /** Slots of one day are strictly increasing. */
  lemma {:induction false} DaySlotsIncreasing(q: SlotQuery, cur: int, dayEnd: int)
    requires q.interval > 0
    decreases dayEnd - cur
    ensures forall i, j :: 0 <= i < j < |DaySlots(q, cur, dayEnd)| ==>
      DaySlots(q, cur, dayEnd)[i] < DaySlots(q, cur, dayEnd)[j]
  {
    if cur < dayEnd && cur < q.end {
      var rest := DaySlots(q, cur + Step(q), dayEnd);
      DaySlotsIncreasing(q, cur + Step(q), dayEnd);
      DaySlotsAbove(q, cur + Step(q), dayEnd);
      var all := DaySlots(q, cur, dayEnd);
      if Acceptable(q, cur, dayEnd) {
        assert all == [cur] + rest;
        forall i, j | 0 <= i < j < |all| ensures all[i] < all[j] {
          if i == 0 {
            assert all[j] == rest[j - 1];
            assert all[j] in rest;
          } else {
            assert all[i] == rest[i - 1] && all[j] == rest[j - 1];
          }
        }
      } else {
        assert all == rest;
      }
    }
  }

  /** Which scanned day a slot belongs to, and that it passes that day's test. */
  ghost predicate OfferedOnDay(q: SlotQuery, t: int, d: int)
    requires q.interval > 0
  {
    && 0 <= d < DaysScanned
    && Opening(q, d) <= t < Closing(q, d)
    && OnGrid(t, Opening(q, d), Step(q))
    && Acceptable(q, t, Closing(q, d))
  }

  lemma {:induction false} SlotsFromSound(q: SlotQuery, d: int)
    requires q.interval > 0
    requires 0 <= d <= DaysScanned
    decreases DaysScanned - d
    ensures forall t :: t in SlotsFrom(q, d) ==>
      t >= Opening(q, d) && exists e :: d <= e < DaysScanned && OfferedOnDay(q, t, e)
  {
    if d < DaysScanned {
      assert Opening(q, d) == GridPoint(Opening(q, d), Step(q), 0);
      DaySlotsSound(q, Opening(q, d), Closing(q, d), Opening(q, d), 0);
      SlotsFromSound(q, d + 1);
      forall t | t in SlotsFrom(q, d)
        ensures t >= Opening(q, d) && exists e :: d <= e < DaysScanned && OfferedOnDay(q, t, e)
      {
        if t in DaySlots(q, Opening(q, d), Closing(q, d)) {
          assert OfferedOnDay(q, t, d);
        } else {
          assert t in SlotsFrom(q, d + 1);
        }
      }
    }
  }

  /**
   * Every free slot starts at or after 08:00 of one of the eight scanned days, on that
   * day's grid of `interval` minutes; it ends by 19:00 and by the range end, starts at
   * least 15 minutes after now, overlaps no timed busy event and lies in the
   * availability hours.
   */
  lemma FreeSlotsSound(q: SlotQuery, t: int)
    requires q.interval > 0
    requires t in FreeSlots(q)
    ensures exists d :: 0 <= d < DaysScanned && OfferedOnDay(q, t, d)
    ensures t >= q.minTime && t + q.duration * MsPerMinute <= q.end
    ensures forall i :: 0 <= i < |q.busy| ==> !Overlaps(t, t + q.duration * MsPerMinute, q.busy[i])
    ensures IsSlotInAvailabilityHours(t, q.hours)
  {
    SlotsFromSound(q, 0);
    var d :| 0 <= d < DaysScanned && OfferedOnDay(q, t, d);
    AcceptableMeans(q, t, Closing(q, d));
  }

  /** Every grid candidate of a scanned day that passes the test is a free slot. */
  lemma {:induction false} FreeSlotsComplete(q: SlotQuery, d: int, k: nat)
    requires q.interval > 0
    requires 0 <= d < DaysScanned
    requires GridPoint(Opening(q, d), Step(q), k) < Closing(q, d)
    requires GridPoint(Opening(q, d), Step(q), k) < q.end
    requires Acceptable(q, GridPoint(Opening(q, d), Step(q), k), Closing(q, d))
    ensures GridPoint(Opening(q, d), Step(q), k) in FreeSlots(q)
  {
    DaySlotsComplete(q, Opening(q, d), Closing(q, d), k);
    SlotsFromContainsDay(q, 0, d, GridPoint(Opening(q, d), Step(q), k));
  }

  lemma {:induction false} SlotsFromContainsDay(q: SlotQuery, from: int, d: int, t: int)
    requires q.interval > 0
    requires 0 <= from <= d < DaysScanned
    requires t in DaySlots(q, Opening(q, d), Closing(q, d))
    decreases d - from
    ensures t in SlotsFrom(q, from)
  {
    assert SlotsFrom(q, from) == DaySlots(q, Opening(q, from), Closing(q, from)) + SlotsFrom(q, from + 1);
    if from < d {
      SlotsFromContainsDay(q, from + 1, d, t);
    }
  }

  /** Free slots come out in strictly increasing order, hence without repetition. */
  lemma {:induction false} SlotsFromIncreasing(q: SlotQuery, d: int)
    requires q.interval > 0
    requires 0 <= d <= DaysScanned
    decreases DaysScanned - d
    ensures forall i, j :: 0 <= i < j < |SlotsFrom(q, d)| ==> SlotsFrom(q, d)[i] < SlotsFrom(q, d)[j]
  {
    if d < DaysScanned {
      var day := DaySlots(q, Opening(q, d), Closing(q, d));
      var rest := SlotsFrom(q, d + 1);
      DaySlotsIncreasing(q, Opening(q, d), Closing(q, d));
      assert Opening(q, d) == GridPoint(Opening(q, d), Step(q), 0);
      DaySlotsSound(q, Opening(q, d), Closing(q, d), Opening(q, d), 0);
      SlotsFromIncreasing(q, d + 1);
      SlotsFromSound(q, d + 1);
      assert Closing(q, d) < Opening(q, d + 1);
      ConcatIncreasing(day, rest);
    }
  }

  predicate Increasing(s: seq<int>) {
    forall i, j :: 0 <= i < j < |s| ==> s[i] < s[j]
  }

  lemma ConcatIncreasing(a: seq<int>, b: seq<int>)
    requires Increasing(a) && Increasing(b)
    requires forall x, y :: x in a && y in b ==> x < y
    ensures Increasing(a + b)
  {
    var all := a + b;
    forall i, j | 0 <= i < j < |all| ensures all[i] < all[j] {
      if j >= |a| && i < |a| {
        assert all[i] in a && all[j] in b;
      } else if i >= |a| {
        assert all[i] == b[i - |a|] && all[j] == b[j - |a|];
      }
    }
  }

  lemma FreeSlotsIncreasing(q: SlotQuery)
    requires q.interval > 0
    ensures forall i, j :: 0 <= i < j < |FreeSlots(q)| ==> FreeSlots(q)[i] < FreeSlots(q)[j]
  {
    SlotsFromIncreasing(q, 0);
  }

  /**
   * `getAvailableSlots` over the merged events: eight days from the start date, candidate
   * starts every `slotInterval` minutes from 08:00 while before 19:00 and before the end.
   * None when the promise rejects: the busy ranges cannot be built because a timed event
   * has an Invalid Date at either end. A non-positive interval would never advance, so
   * the source needs a positive one.
   */
  method AvailableSlots(events: seq<CalendarEvent>, startDate: int, endDate: int,
                        slotDuration: int, slotInterval: int,
                        hours: Option<AvailabilityHours>, now: int)
    returns (slots: Option<seq<int>>)
    requires slotInterval > 0
    ensures slots.None? <==>
      exists i :: 0 <= i < |events| && IsTimed(events[i]) && !Readable(events[i])
    ensures BusySlots(events).Some? ==>
      slots == Some(FreeSlots(SlotQuery(BusySlots(events).value, startDate, endDate,
                                        slotDuration, slotInterval, hours,
                                        now + MinimumNotice)))
  {
    BusySlotsThrows(events);
    var ranges := BusySlots(events);
    if ranges.None? {
      return None;
    }
    var busy := ranges.value;
    var minTime := now + MinimumNotice;
    ghost var q := SlotQuery(busy, startDate, endDate, slotDuration, slotInterval, hours, minTime);
    var midnight := startDate - startDate % MsPerDay;
    var found := [];
    var dayOffset := 0;
    while dayOffset < DaysScanned
      invariant 0 <= dayOffset <= DaysScanned
      invariant found + SlotsFrom(q, dayOffset) == FreeSlots(q)
    {
      var targetDay := midnight + dayOffset * MsPerDay + OpeningHour * MsPerHour;
      var dayEnd := midnight + dayOffset * MsPerDay + ClosingHour * MsPerHour;
      assert targetDay == Opening(q, dayOffset) && dayEnd == Closing(q, dayOffset);
      var daySlots := CollectDay(busy, endDate, slotDuration, slotInterval, hours, minTime,
                                 targetDay, dayEnd);
      DaySlotsIgnoresStart(q, 0, targetDay, dayEnd);
      found := found + daySlots;
      dayOffset := dayOffset + 1;
    }
    assert found == FreeSlots(q);
    slots := Some(found);
  }

  /** The inner loop of `getAvailableSlots`: the candidates of one day, every
      `slotInterval` minutes from 08:00, kept when they pass the test. */
  method CollectDay(busy: seq<Busy>, endDate: int, slotDuration: int, slotInterval: int,
                    hours: Option<AvailabilityHours>, minTime: int, targetDay: int, dayEnd: int)
    returns (daySlots: seq<int>)
    requires slotInterval > 0
    ensures daySlots == DaySlots(SlotQuery(busy, 0, endDate, slotDuration, slotInterval, hours,
                                           minTime), targetDay, dayEnd)
  {
    ghost var q := SlotQuery(busy, 0, endDate, slotDuration, slotInterval, hours, minTime);
    daySlots := [];
    var currentTime := targetDay;
    while currentTime < dayEnd && currentTime < endDate
      invariant daySlots + DaySlots(q, currentTime, dayEnd) == DaySlots(q, targetDay, dayEnd)
      decreases dayEnd - currentTime
    {
      DaySlotsUnfold(q, currentTime, dayEnd);
      ghost var next := DaySlots(q, currentTime + Step(q), dayEnd);
      var slotEnd := currentTime + slotDuration * MsPerMinute;
      var isBusy := IsBusy(currentTime, slotEnd, busy);
      var isInAvailability := IsSlotInAvailabilityHours(currentTime, hours);
      if !isBusy && isInAvailability && currentTime >= minTime && slotEnd <= endDate
         && slotEnd <= dayEnd {
        assert Acceptable(q, currentTime, dayEnd);
        assert DaySlots(q, currentTime, dayEnd) == [currentTime] + next;
        daySlots := daySlots + [currentTime];
      } else {
        assert DaySlots(q, currentTime, dayEnd) == next;
      }
      currentTime := currentTime + slotInterval * MsPerMinute;
    }
  }

  /** `DaySlots` does not depend on the start date recorded in the query. */
  lemma {:induction false} DaySlotsIgnoresStart(q: SlotQuery, start: int, cur: int, dayEnd: int)
    requires q.interval > 0
    decreases dayEnd - cur
    ensures DaySlots(q, cur, dayEnd) == DaySlots(q.(start := start), cur, dayEnd)
  {
    if cur < dayEnd && cur < q.end {
      DaySlotsIgnoresStart(q, start, cur + Step(q), dayEnd);
    }
  }

  // ---------------------------------------------------------------------------
  // Calendars and merged events
  // ---------------------------------------------------------------------------

  datatype Calendar = Calendar(id: string, summary: string)

  /** An item of the calendar list. */
  datatype CalendarEntry = CalendarEntry(id: string, summary: string, accessRole: string,
                                         deleted: bool)

  /** The calendar-list request: a list, a 401, another HTTP error, or a thrown error. */
  datatype ListResponse = Listed(items: seq<CalendarEntry>) | Unauthorized | ListError

  const Primary: Calendar := Calendar(PrimaryId, PrimarySummary)

  predicate Usable(e: CalendarEntry) {
    e.accessRole != "none" && !e.deleted
  }

  /** `summary || id`. */
  function CalendarOf(e: CalendarEntry): Calendar {
    Calendar(e.id, if e.summary != "" then e.summary else e.id)
  }

  /** The usable entries, as calendars, in list order. */
  function UsableCalendars(items: seq<CalendarEntry>): seq<Calendar> {
    if items == [] then []
    else (if Usable(items[0]) then [CalendarOf(items[0])] else []) + UsableCalendars(items[1..])
  }

  lemma {:induction false} UsableCalendarsMembers(items: seq<CalendarEntry>)
    decreases |items|
    ensures forall c :: c in UsableCalendars(items) ==>
      exists e :: e in items && Usable(e) && c == CalendarOf(e)
    ensures forall e :: e in items && Usable(e) ==> CalendarOf(e) in UsableCalendars(items)
    ensures forall c :: c in UsableCalendars(items) ==> c.summary != "" || c.id == ""
  {
    if items != [] {
      UsableCalendarsMembers(items[1..]);
      assert forall e :: e in items[1..] ==> e in items;
      assert forall e :: e in items ==> e == items[0] || e in items[1..];
    }
  }

  /** `getGoogleCalendarList`: any failure falls back to the primary calendar alone. */
  function CalendarList(r: ListResponse): (cals: seq<Calendar>)
    ensures !r.Listed? ==> cals == [Primary]
    ensures r.Listed? ==> |cals| <= |r.items|
  {
    match r
    case Listed(items) => UsableCalendarsLength(items); UsableCalendars(items)
    case _ => [Primary]
  }

  lemma {:induction false} UsableCalendarsLength(items: seq<CalendarEntry>)
    decreases |items|
    ensures |UsableCalendars(items)| <= |items|
  {
    if items != [] {
      UsableCalendarsLength(items[1..]);
    }
  }

  /** The ids occurring in a list of events. */
  function IdsOf(events: seq<CalendarEvent>): set<string> {
    set e | e in events :: e.id
  }

  /** `events.filter((e, i, self) => i === self.findIndex(x => x.id === e.id))`: the first
      event of each id, in order. */
  function FirstOfEachId(events: seq<CalendarEvent>): seq<CalendarEvent>
    decreases |events|
  {
    if events == [] then []
    else
      var init := events[..|events| - 1];
      var last := events[|events| - 1];
      FirstOfEachId(init) + (if last.id in IdsOf(init) then [] else [last])
  }

  lemma FirstOfEachIdUnfold(events: seq<CalendarEvent>)
    requires events != []
    ensures events == events[..|events| - 1] + [events[|events| - 1]]
    ensures IdsOf(events) == IdsOf(events[..|events| - 1]) + {events[|events| - 1].id}
  {
    assert events == events[..|events| - 1] + [events[|events| - 1]];
  }

  /** Deduplication loses no id. */
  lemma {:induction false} FirstOfEachIdCovers(events: seq<CalendarEvent>)
    decreases |events|
    ensures IdsOf(FirstOfEachId(events)) == IdsOf(events)
  {
    if events != [] {
      var init := events[..|events| - 1];
      FirstOfEachIdCovers(init);
      FirstOfEachIdUnfold(events);
    }
  }

  /** The deduplicated list has pairwise distinct ids. */
  lemma {:induction false} FirstOfEachIdDistinct(events: seq<CalendarEvent>)
    decreases |events|
    ensures forall i, j :: 0 <= i < j < |FirstOfEachId(events)| ==>
      FirstOfEachId(events)[i].id != FirstOfEachId(events)[j].id
  {
    if events != [] {
      var init := events[..|events| - 1];
      var last := events[|events| - 1];
      FirstOfEachIdDistinct(init);
      FirstOfEachIdCovers(init);
      if last.id !in IdsOf(init) {
        var r0 := FirstOfEachId(init);
        var r := FirstOfEachId(events);
        assert r == r0 + [last];
        forall i, j | 0 <= i < j < |r| ensures r[i].id != r[j].id {
          if j == |r| - 1 {
            assert r[i] in r0;
          } else {
            assert r[i] == r0[i] && r[j] == r0[j];
          }
        }
      }
    }
  }

  /** Every kept event is the first one of the input carrying its id. */
  lemma {:induction false} FirstOfEachIdKeepsFirst(events: seq<CalendarEvent>)
    decreases |events|
    ensures forall e :: e in FirstOfEachId(events) ==>
      exists k :: 0 <= k < |events| && events[k] == e
                  && forall m :: 0 <= m < k ==> events[m].id != e.id
  {
    if events != [] {
      var init := events[..|events| - 1];
      var last := events[|events| - 1];
      var r0 := FirstOfEachId(init);
      FirstOfEachIdKeepsFirst(init);
      forall e | e in FirstOfEachId(events)
        ensures exists k :: 0 <= k < |events| && events[k] == e
                            && forall m :: 0 <= m < k ==> events[m].id != e.id
      {
        if e in r0 {
          var k :| 0 <= k < |init| && init[k] == e && forall m :: 0 <= m < k ==> init[m].id != e.id;
          assert events[k] == e;
          forall m | 0 <= m < k ensures events[m].id != e.id {
            assert events[m] == init[m];
          }
        } else {
          assert e == last && last.id !in IdsOf(init);
          forall m | 0 <= m < |events| - 1 ensures events[m].id != e.id {
            assert events[m] in init;
          }
          assert events[|events| - 1] == e;
        }
      }
    }
  }

  /** The `i`-th batch: `calendars.slice(i, i + 3)` for `i` a multiple of 3. */
  function Batches(calendars: seq<Calendar>): seq<seq<Calendar>>
    decreases |calendars|
  {
    if calendars == [] then []
    else if |calendars| <= BatchSize then [calendars]
    else [calendars[..BatchSize]] + Batches(calendars[BatchSize..])
  }

  /** The batches from `i` on are the batch `[i, hi)` followed by those from `hi` on. */
  lemma BatchesStep(calendars: seq<Calendar>, i: int, hi: int)
    requires 0 <= i < |calendars|
    requires hi == if i + BatchSize < |calendars| then i + BatchSize else |calendars|
    ensures Batches(calendars[i..]) == [calendars[i..hi]] + Batches(calendars[hi..])
  {
    if |calendars| - i > BatchSize {
      assert calendars[i..][..BatchSize] == calendars[i..hi];
      assert calendars[i..][BatchSize..] == calendars[hi..];
    } else {
      assert calendars[i..] == calendars[i..hi] && calendars[hi..] == [];
    }
  }

  function Concat<T>(parts: seq<seq<T>>): seq<T> {
    if parts == [] then [] else parts[0] + Concat(parts[1..])
  }

  /** Batches hold one to three calendars and, read in order, give every calendar once. */
  lemma {:induction false} BatchesPartition(calendars: seq<Calendar>)
    decreases |calendars|
    ensures Concat(Batches(calendars)) == calendars
    ensures forall b :: b in Batches(calendars) ==> 1 <= |b| <= BatchSize
    ensures |Batches(calendars)| == (|calendars| + BatchSize - 1) / BatchSize
  {
    if |calendars| > BatchSize {
      BatchesPartition(calendars[BatchSize..]);
      assert calendars[..BatchSize] + calendars[BatchSize..] == calendars;
    } else if calendars != [] {
      assert Concat([calendars]) == calendars + Concat([]);
    }
  }

  /** The events a calendar yields: its list, or nothing when its request fails. */
  function EventsOf(fetch: string -> Option<seq<CalendarEvent>>, c: Calendar): seq<CalendarEvent> {
    fetch(c.id).GetOr([])
  }

  function AllEvents(fetch: string -> Option<seq<CalendarEvent>>, cals: seq<Calendar>)
    : seq<CalendarEvent>
  {
    if cals == [] then [] else EventsOf(fetch, cals[0]) + AllEvents(fetch, cals[1..])
  }

  lemma {:induction false} AllEventsAppend(fetch: string -> Option<seq<CalendarEvent>>,
                                           a: seq<Calendar>, b: seq<Calendar>)
    decreases |a|
    ensures AllEvents(fetch, a + b) == AllEvents(fetch, a) + AllEvents(fetch, b)
  {
    if a == [] {
      assert a + b == b;
    } else {
      AllEventsAppend(fetch, a[1..], b);
      assert (a + b)[0] == a[0];
      assert (a + b)[1..] == a[1..] + b;
    }
  }

  /** One batch of the loop: its events extend those of the calendars before it, and
      it is the first of the remaining batches. */
  lemma BatchLoopStep(fetch: string -> Option<seq<CalendarEvent>>, calendars: seq<Calendar>,
                      i: int, hi: int)
    requires 0 <= i < |calendars|
    requires hi == if i + BatchSize < |calendars| then i + BatchSize else |calendars|
    ensures AllEvents(fetch, calendars[..hi])
            == AllEvents(fetch, calendars[..i]) + AllEvents(fetch, calendars[i..hi])
    ensures Batches(calendars[i..]) == [calendars[i..hi]] + Batches(calendars[hi..])
  {
    AllEventsAppend(fetch, calendars[..i], calendars[i..hi]);
    assert calendars[..i] + calendars[i..hi] == calendars[..hi];
    BatchesStep(calendars, i, hi);
  }

  /**
   * `getGoogleCalendarEvents`: the calendar list (or the primary calendar), requested
   * three at a time, events of all calendars concatenated in calendar order and then
   * deduplicated by id. The batches are returned so their sizes can be stated.
   */
  method GoogleCalendarEvents(list: ListResponse, fetch: string -> Option<seq<CalendarEvent>>)
    returns (events: seq<CalendarEvent>, batches: seq<seq<Calendar>>)
    ensures batches == Batches(CalendarList(list))
    ensures events == FirstOfEachId(AllEvents(fetch, CalendarList(list)))
  {
    var calendars := CalendarList(list);
    var merged: seq<CalendarEvent> := [];
    batches := [];
    var i := 0;
    while i < |calendars|
      invariant 0 <= i <= |calendars|
      invariant batches + Batches(calendars[i..]) == Batches(calendars)
      invariant merged == AllEvents(fetch, calendars[..i])
      decreases |calendars| - i
    {
      var hi := if i + BatchSize < |calendars| then i + BatchSize else |calendars|;
      var batch := calendars[i..hi];
      // `Promise.all(batch.map(...))`, then `eventsArrays.push(...batchResults)`
      var batchEvents := AllEvents(fetch, batch);
      BatchLoopStep(fetch, calendars, i, hi);
      merged := merged + batchEvents;
      assert (batches + [batch]) + Batches(calendars[hi..]) == batches + Batches(calendars[i..]);
      batches := batches + [batch];
      i := hi;
    }
    assert calendars[..i] == calendars;
    events := FirstOfEachId(merged);
  }
}
