/**
 * The weekly-availability editor: availability hours are projected onto the current
 * week as calendar events, edited there (create, move, resize, delete) and read back
 * into availability hours, each day's ranges sorted by start.
 *
 * Instants are those of the Google Calendar model; an invalid `Date` is None.
 */
module AvailabilityCalendar {
  import opened Wrappers
  import opened Strings
  import opened GoogleCalendar

  /** `Object.entries(avail)` order; position `p` is the week day `DayAt(p)`. */
  const DayKeys: seq<string> :=
    ["monday", "tuesday", "wednesday", "thursday", "friday", "saturday", "sunday"]
  /** The week day (0 is Sunday) at position `p` of `DayKeys`. */
  function DayAt(p: int): int {
    if p == 6 then 0 else p + 1
  }

  /** The position in `DayKeys` of week day `d`. */
  function PositionOf(d: int): int {
    if d == 0 then 6 else d - 1
  }

  const AvailIdPrefix: string := "avail-"

  datatype EventKind = Availability | External

  /** A calendar event of the editor; `id` is absent on a freshly drawn range. */
  datatype CustomEvent = CustomEvent(id: Option<string>, kind: EventKind,
                                     start: Option<int>, end: Option<int>)

  const Closed: DayAvailability := DayAvailability(false, [])
  const DefaultAvailability: AvailabilityHours :=
    AvailabilityHours(Closed, Closed, Closed, Closed, Closed, Closed, Closed)

  /** `avail[dayKey] = v` for the week day `d` (0 is Sunday). */
  function SetDay(a: AvailabilityHours, d: int, v: DayAvailability): (r: AvailabilityHours)
    requires 0 <= d < 7
    ensures DayOf(r, d) == v
    ensures forall e :: 0 <= e < 7 && e != d ==> DayOf(r, e) == DayOf(a, e)
  {
    if d == 0 then a.(sunday := v) else if d == 1 then a.(monday := v)
    else if d == 2 then a.(tuesday := v) else if d == 3 then a.(wednesday := v)
    else if d == 4 then a.(thursday := v) else if d == 5 then a.(friday := v)
    else a.(saturday := v)
  }

  /** `startOfWeek(today, { weekStartsOn: 1 })`: midnight of the Monday of that week. */
  function WeekStart(today: int): int {
    today - today % MsPerDay - PositionOf(Weekday(today)) * MsPerDay
  }

  lemma WeekStartIsMondayMidnight(today: int)
    ensures WeekStart(today) % MsPerDay == 0
    ensures Weekday(WeekStart(today)) == 1
  {
    var k := PositionOf(Weekday(today));
    var mid := today - today % MsPerDay;
    assert mid == (today / MsPerDay) * MsPerDay;
    assert WeekStart(today) == (today / MsPerDay - k) * MsPerDay;
  }

  /** The instant of "H:M" on the day starting at `date`: `setMinutes(setHours(date, H), M)`;
      an unreadable field gives an invalid date. */
  function AtClock(date: int, s: string): Option<int> {
    var v := ClockMinutes(s);
    if v.Some? then Some(date + v.value * MsPerMinute) else None
  }

  /** `format(t, 'HH:mm')`. */
  function Format(t: int): string {
    Clock(MinuteOfDay(t) / 60, MinuteOfDay(t) % 60)
  }

  function DigitValue(c: char): int {
    c as int - '0' as int
  }

  /** An "HH:mm" string, two digits each, of a time of day: the form `format` writes. */
  predicate Canonical(s: string) {
    && |s| == 5 && s[2] == ':'
    && IsDigit(s[0]) && IsDigit(s[1]) && IsDigit(s[3]) && IsDigit(s[4])
    && DigitValue(s[0]) * 10 + DigitValue(s[1]) < 24
    && DigitValue(s[3]) * 10 + DigitValue(s[4]) < 60
  }

  /** The minute of the day a canonical string denotes. */
  function CanonicalMinutes(s: string): int
    requires Canonical(s)
  {
    (DigitValue(s[0]) * 10 + DigitValue(s[1])) * 60 + DigitValue(s[3]) * 10 + DigitValue(s[4])
  }

  /** Two-digit rendering of a number below 100. */
  lemma TwoDigits(h: nat)
    requires h < 100
    ensures ZeroPad(NatToString(h), 2) == [('0' as int + h / 10) as char, ('0' as int + h % 10) as char]
  {
    if h >= 10 {
      assert NatToString(h / 10) == [('0' as int + h / 10) as char];
    }
  }

  /** A canonical string reads as its minute of the day and is written back unchanged. */
  lemma CanonicalReadsBack(s: string)
    requires Canonical(s)
    ensures ClockMinutes(s) == Some(CanonicalMinutes(s))
    ensures 0 <= CanonicalMinutes(s) < 24 * 60
    ensures Clock(CanonicalMinutes(s) / 60, CanonicalMinutes(s) % 60) == s
  {
    var h := DigitValue(s[0]) * 10 + DigitValue(s[1]);
    var m := DigitValue(s[3]) * 10 + DigitValue(s[4]);
    var v := CanonicalMinutes(s);
    assert v / 60 == h && v % 60 == m;
    assert h / 10 == DigitValue(s[0]) && h % 10 == DigitValue(s[1]);
    assert m / 10 == DigitValue(s[3]) && m % 10 == DigitValue(s[4]);
    TwoDigits(h);
    TwoDigits(m);
    assert ZeroPad(NatToString(h), 2) == s[..2];
    assert ZeroPad(NatToString(m), 2) == s[3..];
    assert s == s[..2] + ":" + s[3..];
    ClockMinutesOfClock(h, m);
  }

  // ---------------------------------------------------------------------------
  // availabilityToEvents
  // ---------------------------------------------------------------------------

  function SlotEvent(key: string, date: int, slot: TimeSlot, index: nat): CustomEvent {
    CustomEvent(Some(AvailIdPrefix + key + "-" + NatToString(index)), Availability,
                AtClock(date, slot.start), AtClock(date, slot.end))
  }

  /** The events of the first `n` ranges of a day, `index` numbering them. */
  function SlotEvents(key: string, date: int, slots: seq<TimeSlot>, n: nat): seq<CustomEvent>
    requires n <= |slots|
  {
    if n == 0 then [] else SlotEvents(key, date, slots, n - 1) + [SlotEvent(key, date, slots[n - 1], n - 1)]
  }

  lemma {:induction false} SlotEventsShape(key: string, date: int, slots: seq<TimeSlot>, n: nat)
    requires n <= |slots|
    ensures |SlotEvents(key, date, slots, n)| == n
    ensures forall i :: 0 <= i < n ==> SlotEvents(key, date, slots, n)[i] == SlotEvent(key, date, slots[i], i)
  {
    if n > 0 {
      SlotEventsShape(key, date, slots, n - 1);
    }
  }

  /** The events of the day at position `p`: one per range when the day is enabled. */
  function DayEvents(a: AvailabilityHours, weekStart: int, p: int): seq<CustomEvent>
    requires 0 <= p < 7
  {
    var day := DayOf(a, DayAt(p));
    if day.enabled then SlotEvents(DayKeys[p], weekStart + p * MsPerDay, day.timeSlots, |day.timeSlots|)
    else []
  }

  /** The events of the days at positions before `p`. */
  function EventsBeforeDay(a: AvailabilityHours, weekStart: int, p: int): seq<CustomEvent>
    requires 0 <= p <= 7
  {
    if p == 0 then [] else EventsBeforeDay(a, weekStart, p - 1) + DayEvents(a, weekStart, p - 1)
  }

  /** The events `availabilityToEvents` projects onto the week starting at `weekStart`. */
  function AvailEvents(a: AvailabilityHours, weekStart: int): seq<CustomEvent> {
    EventsBeforeDay(a, weekStart, 7)
  }

  /** The `i`-th range of an enabled day becomes an availability event with id
      `avail-{day}-{i}`; a disabled day contributes nothing. */
  lemma DayEventsShape(a: AvailabilityHours, weekStart: int, p: int)
    requires 0 <= p < 7
    ensures !DayOf(a, DayAt(p)).enabled ==> DayEvents(a, weekStart, p) == []
    ensures DayOf(a, DayAt(p)).enabled ==>
      |DayEvents(a, weekStart, p)| == |DayOf(a, DayAt(p)).timeSlots|
    ensures forall i :: 0 <= i < |DayEvents(a, weekStart, p)| ==>
      DayEvents(a, weekStart, p)[i].id == Some(AvailIdPrefix + DayKeys[p] + "-" + NatToString(i))
      && DayEvents(a, weekStart, p)[i].kind == Availability
  {
    var day := DayOf(a, DayAt(p));
    SlotEventsShape(DayKeys[p], weekStart + p * MsPerDay, day.timeSlots, |day.timeSlots|);
  }

  /** The inner loop of `availabilityToEvents`: one event per range of a day. */
  method SlotEventsOfDay(dayKey: string, targetDate: int, slots: seq<TimeSlot>)
    returns (dayEvents: seq<CustomEvent>)
    ensures dayEvents == SlotEvents(dayKey, targetDate, slots, |slots|)
  {
    dayEvents := [];
    var i := 0;
    while i < |slots|
      invariant 0 <= i <= |slots|
      invariant dayEvents == SlotEvents(dayKey, targetDate, slots, i)
    {
      dayEvents := dayEvents + [SlotEvent(dayKey, targetDate, slots[i], i)];
      i := i + 1;
    }
  }

  /** `availabilityToEvents`: for each day in key order, one event per range. */
  method AvailabilityToEvents(a: AvailabilityHours, today: int) returns (events: seq<CustomEvent>)
    ensures events == AvailEvents(a, WeekStart(today))
  {
    var weekStart := WeekStart(today);
    events := [];
    var p := 0;
    while p < 7
      invariant 0 <= p <= 7
      invariant events == EventsBeforeDay(a, weekStart, p)
    {
      var day := DayOf(a, DayAt(p));
      ghost var next := DayEvents(a, weekStart, p);
      assert EventsBeforeDay(a, weekStart, p + 1) == events + next;
      if day.enabled {
        var dayEvents := SlotEventsOfDay(DayKeys[p], weekStart + p * MsPerDay, day.timeSlots);
        assert dayEvents == next;
        events := events + dayEvents;
      } else {
        assert next == [];
        assert events + next == events;
      }
      p := p + 1;
    }
  }

  // ---------------------------------------------------------------------------
  // Sorting ranges by start
  // ---------------------------------------------------------------------------

  /** `a.localeCompare(b) <= 0` on clock strings, taken as code-unit order. */
  predicate LexLe(a: string, b: string)
    decreases |a|
  {
    a == [] || (b != [] && (a[0] < b[0] || (a[0] == b[0] && LexLe(a[1..], b[1..]))))
  }

  lemma {:induction false} LexLeTotal(a: string, b: string)
    decreases |a|
    ensures LexLe(a, b) || LexLe(b, a)
  {
    if a != [] && b != [] && a[0] == b[0] {
      LexLeTotal(a[1..], b[1..]);
    }
  }

  lemma {:induction false} LexLeTrans(a: string, b: string, c: string)
    requires LexLe(a, b) && LexLe(b, c)
    decreases |a|
    ensures LexLe(a, c)
  {
    if a != [] && a[0] == b[0] && b[0] == c[0] {
      LexLeTrans(a[1..], b[1..], c[1..]);
    }
  }

  predicate SortedByStart(s: seq<TimeSlot>) {
    forall i, j :: 0 <= i < j < |s| ==> LexLe(s[i].start, s[j].start)
  }

  /** Puts `x` after every range of `s` that does not start later, as a stable sort
      places the newest element. */
  function InsertSlot(x: TimeSlot, s: seq<TimeSlot>): seq<TimeSlot>
    decreases |s|
  {
    if s == [] then [x]
    else if LexLe(s[|s| - 1].start, x.start) then s + [x]
    else InsertSlot(x, s[..|s| - 1]) + [s[|s| - 1]]
  }

  /** `timeSlots.sort((a, b) => a.start.localeCompare(b.start))`, stable. */
  function SortSlots(s: seq<TimeSlot>): seq<TimeSlot>
    decreases |s|
  {
    if s == [] then [] else InsertSlot(s[|s| - 1], SortSlots(s[..|s| - 1]))
  }

  lemma {:induction false} InsertSlotSpec(x: TimeSlot, s: seq<TimeSlot>)
    requires SortedByStart(s)
    decreases |s|
    ensures multiset(InsertSlot(x, s)) == multiset(s) + multiset{x}
    ensures SortedByStart(InsertSlot(x, s))
  {
    if s == [] {
    } else if LexLe(s[|s| - 1].start, x.start) {
      var r := s + [x];
      forall i, j | 0 <= i < j < |r| ensures LexLe(r[i].start, r[j].start) {
        if j == |r| - 1 && i < |s| - 1 {
          LexLeTrans(s[i].start, s[|s| - 1].start, x.start);
        }
      }
    } else {
      var init := s[..|s| - 1];
      var last := s[|s| - 1];
      assert s == init + [last];
      InsertSlotSpec(x, init);
      var mid := InsertSlot(x, init);
      LexLeTotal(last.start, x.start);
      forall e | e in mid ensures LexLe(e.start, last.start) {
        assert e in multiset(mid);
        if e != x {
          assert e in multiset(init);
          var k :| 0 <= k < |init| && init[k] == e;
          assert s[k] == e;
        }
      }
      var r := mid + [last];
      forall i, j | 0 <= i < j < |r| ensures LexLe(r[i].start, r[j].start) {
        if j == |r| - 1 {
          assert r[i] in mid;
        } else {
          assert r[i] == mid[i] && r[j] == mid[j];
        }
      }
    }
  }

  /** Sorting yields the same ranges, ordered by start. */
  lemma {:induction false} SortSlotsSpec(s: seq<TimeSlot>)
    decreases |s|
    ensures multiset(SortSlots(s)) == multiset(s)
    ensures SortedByStart(SortSlots(s))
  {
    if s != [] {
      SortSlotsSpec(s[..|s| - 1]);
      InsertSlotSpec(s[|s| - 1], SortSlots(s[..|s| - 1]));
      assert s == s[..|s| - 1] + [s[|s| - 1]];
    }
  }

  /** A sorted list is left as it is. */
  lemma {:induction false} SortSlotsSorted(s: seq<TimeSlot>)
    requires SortedByStart(s)
    decreases |s|
    ensures SortSlots(s) == s
  {
    if s != [] {
      var init := s[..|s| - 1];
      assert SortedByStart(init);
      SortSlotsSorted(init);
      if |init| > 0 {
        assert LexLe(init[|init| - 1].start, s[|s| - 1].start);
      }
      assert init + [s[|s| - 1]] == s;
    }
  }

  // ---------------------------------------------------------------------------
  // eventsToAvailability
  // ---------------------------------------------------------------------------

  /** The event becomes a range of week day `d`. */
  predicate Lands(e: CustomEvent, d: int) {
    e.kind == Availability && e.start.Some? && e.end.Some? && Weekday(e.start.value) == d
  }

  /** `format` throws on the invalid end of an event whose start is valid. */
  predicate Throws(e: CustomEvent) {
    e.kind == Availability && e.start.Some? && e.end.None?
  }

  /** Some event makes `format` throw. */
  predicate AnyThrows(events: seq<CustomEvent>)
    decreases |events|
  {
    events != [] && (AnyThrows(events[..|events| - 1]) || Throws(events[|events| - 1]))
  }

  lemma {:induction false} AnyThrowsSpec(events: seq<CustomEvent>)
    decreases |events|
    ensures AnyThrows(events) <==> exists i :: 0 <= i < |events| && Throws(events[i])
  {
    if events != [] {
      var init := events[..|events| - 1];
      AnyThrowsSpec(init);
      if exists i :: 0 <= i < |init| && Throws(init[i]) {
        var i :| 0 <= i < |init| && Throws(init[i]);
        assert events[i] == init[i];
      }
      if exists i :: 0 <= i < |events| && Throws(events[i]) {
        var i :| 0 <= i < |events| && Throws(events[i]);
        if i < |init| {
          assert init[i] == events[i];
        }
      }
    }
  }

  function SlotOf(e: CustomEvent): TimeSlot
    requires e.start.Some? && e.end.Some?
  {
    TimeSlot(Format(e.start.value), Format(e.end.value))
  }

  /** The ranges pushed to week day `d`, in event order. */
  function Bucket(events: seq<CustomEvent>, d: int): seq<TimeSlot>
    decreases |events|
  {
    if events == [] then []
    else
      var last := events[|events| - 1];
      Bucket(events[..|events| - 1], d) + (if Lands(last, d) then [SlotOf(last)] else [])
  }

  /** A day after the events are read, before the sort. */
  function Collected(events: seq<CustomEvent>, d: int): DayAvailability {
    DayAvailability(Bucket(events, d) != [], Bucket(events, d))
  }

  function RebuiltDay(events: seq<CustomEvent>, d: int): DayAvailability {
    DayAvailability(Bucket(events, d) != [], SortSlots(Bucket(events, d)))
  }

  /** What `eventsToAvailability` returns; None when `format` throws. */
  function Rebuild(events: seq<CustomEvent>): Option<AvailabilityHours> {
    if AnyThrows(events) then None
    else Some(AvailabilityHours(RebuiltDay(events, 1), RebuiltDay(events, 2), RebuiltDay(events, 3),
                                RebuiltDay(events, 4), RebuiltDay(events, 5), RebuiltDay(events, 6),
                                RebuiltDay(events, 0)))
  }

  lemma RebuildDay(events: seq<CustomEvent>, d: int)
    requires 0 <= d < 7 && !AnyThrows(events)
    ensures DayOf(Rebuild(events).value, d) == RebuiltDay(events, d)
  {
  }

  /**
   * Every day starts disabled and empty; only availability events with a valid start
   * contribute; a day that receives a range is enabled; each day's ranges are those
   * of its events, sorted by start.
   */
  lemma RebuildSpec(events: seq<CustomEvent>, d: int)
    requires 0 <= d < 7 && !AnyThrows(events)
    ensures DayOf(Rebuild(events).value, d).enabled <==>
      exists i :: 0 <= i < |events| && Lands(events[i], d)
    ensures SortedByStart(DayOf(Rebuild(events).value, d).timeSlots)
    ensures multiset(DayOf(Rebuild(events).value, d).timeSlots)
            == multiset(Bucket(events, d))
  {
    RebuildDay(events, d);
    SortSlotsSpec(Bucket(events, d));
    BucketNonEmpty(events, d);
  }

  lemma {:induction false} BucketNonEmpty(events: seq<CustomEvent>, d: int)
    decreases |events|
    ensures Bucket(events, d) != [] <==> exists i :: 0 <= i < |events| && Lands(events[i], d)
  {
    if events != [] {
      var init := events[..|events| - 1];
      BucketNonEmpty(init, d);
      if exists i :: 0 <= i < |init| && Lands(init[i], d) {
        var i :| 0 <= i < |init| && Lands(init[i], d);
        assert events[i] == init[i];
      }
      if exists i :: 0 <= i < |events| && Lands(events[i], d) {
        var i :| 0 <= i < |events| && Lands(events[i], d);
        if i < |init| {
          assert init[i] == events[i];
        }
      }
    }
  }

  lemma BucketStep(events: seq<CustomEvent>, i: int, d: int)
    requires 0 <= i < |events|
    ensures Bucket(events[..i + 1], d)
            == Bucket(events[..i], d) + (if Lands(events[i], d) then [SlotOf(events[i])] else [])
  {
    assert events[..i + 1][..i] == events[..i];
  }

  /** Every day is `Collected` for the first `i` events. */
  predicate CollectedAll(na: AvailabilityHours, events: seq<CustomEvent>) {
    forall d :: 0 <= d < 7 ==> DayOf(na, d) == Collected(events, d)
  }

  /** One event whose end cannot be formatted makes the whole reading throw. */
  lemma ThrowingEvent(events: seq<CustomEvent>, i: int)
    requires 0 <= i < |events| && Throws(events[i])
    ensures AnyThrows(events)
  {
    assert events[..i + 1][..i] == events[..i];
    assert AnyThrows(events[..i + 1]);
    AnyThrowsAppend(events[..i + 1], events[i + 1..]);
    assert events[..i + 1] + events[i + 1..] == events;
  }

  /** The effect of one event on the availability being collected. */
  function Push(na: AvailabilityHours, e: CustomEvent): AvailabilityHours
    requires !Throws(e)
  {
    if e.kind == Availability && e.start.Some? then
      var d := Weekday(e.start.value);
      SetDay(na, d, DayAvailability(true, DayOf(na, d).timeSlots + [SlotOf(e)]))
    else na
  }

  lemma CollectStep(na: AvailabilityHours, events: seq<CustomEvent>, i: int)
    requires 0 <= i < |events| && !Throws(events[i])
    requires !AnyThrows(events[..i]) && CollectedAll(na, events[..i])
    ensures !AnyThrows(events[..i + 1]) && CollectedAll(Push(na, events[i]), events[..i + 1])
  {
    assert events[..i + 1] == events[..i] + [events[i]];
    forall d | 0 <= d < 7 {
      BucketStep(events, i, d);
    }
    AnyThrowsAppend(events[..i], [events[i]]);
  }

  /** `eventsToAvailability`: push each availability event's range onto its day, then
      sort every day's ranges. */
  method EventsToAvailability(events: seq<CustomEvent>) returns (r: Option<AvailabilityHours>)
    ensures r == Rebuild(events)
  {
    var na := DefaultAvailability;
    var i := 0;
    while i < |events|
      invariant 0 <= i <= |events|
      invariant !AnyThrows(events[..i])
      invariant CollectedAll(na, events[..i])
    {
      var e := events[i];
      ghost var na0 := na;
      if e.kind == Availability && e.start.Some? {
        if e.end.None? {
          ThrowingEvent(events, i);
          return None;
        }
        var d := Weekday(e.start.value);
        var day := DayOf(na, d);
        na := SetDay(na, d, DayAvailability(true, day.timeSlots + [TimeSlot(Format(e.start.value),
                                                                          Format(e.end.value))]));
      }
      assert na == Push(na0, e);
      CollectStep(na0, events, i);
      i := i + 1;
    }
    assert events[..i] == events;
    var p := 0;
    while p < 7
      invariant 0 <= p <= 7
      invariant forall d :: 0 <= d < 7 ==>
        DayOf(na, d) == (if PositionOf(d) < p then RebuiltDay(events, d) else Collected(events, d))
    {
      var d := DayAt(p);
      var day := DayOf(na, d);
      na := SetDay(na, d, DayAvailability(day.enabled, SortSlots(day.timeSlots)));
      p := p + 1;
    }
    forall d | 0 <= d < 7 ensures DayOf(na, d) == DayOf(Rebuild(events).value, d) {
      RebuildDay(events, d);
    }
    r := Some(na);
  }

  // ---------------------------------------------------------------------------
  // Round trip
  // ---------------------------------------------------------------------------

  /** The instant `M` minutes after midnight on day `p` of a week starting on a Monday at
      midnight falls on week day `DayAt(p)`, at minute `M`. */
  lemma InstantOfWeek(weekStart: int, p: int, v: int)
    requires weekStart % MsPerDay == 0 && Weekday(weekStart) == 1
    requires 0 <= p < 7 && 0 <= v < 24 * 60
    ensures Weekday(weekStart + p * MsPerDay + v * MsPerMinute) == DayAt(p)
    ensures MinuteOfDay(weekStart + p * MsPerDay + v * MsPerMinute) == v
  {
    var w := weekStart / MsPerDay;
    var t := weekStart + p * MsPerDay + v * MsPerMinute;
    assert weekStart == w * MsPerDay;
    assert t == (w + p) * MsPerDay + v * MsPerMinute;
    assert 0 <= v * MsPerMinute < MsPerDay;
    assert t / MsPerDay == w + p;
    assert t % MsPerDay == v * MsPerMinute;
    assert (w + 4) % 7 == 1;
    assert (p + 1) % 7 == DayAt(p);
  }

  /** The first `n` ranges are canonical. */
  predicate CanonicalUpTo(slots: seq<TimeSlot>, n: nat)
    requires n <= |slots|
  {
    n == 0 || (CanonicalUpTo(slots, n - 1) && Canonical(slots[n - 1].start)
               && Canonical(slots[n - 1].end))
  }

  predicate CanonicalSlots(slots: seq<TimeSlot>) {
    CanonicalUpTo(slots, |slots|)
  }

  /** Every range of every enabled day is written in canonical "HH:mm" form. */
  predicate CanonicalHours(a: AvailabilityHours) {
    forall d :: 0 <= d < 7 && DayOf(a, d).enabled ==> CanonicalSlots(DayOf(a, d).timeSlots)
  }

  /** A canonical clock string placed on day `p` of the week reads back as itself, on
      week day `DayAt(p)`. */
  lemma FormatAtClock(weekStart: int, p: int, s: string)
    requires weekStart % MsPerDay == 0 && Weekday(weekStart) == 1
    requires 0 <= p < 7 && Canonical(s)
    ensures AtClock(weekStart + p * MsPerDay, s).Some?
    ensures Weekday(AtClock(weekStart + p * MsPerDay, s).value) == DayAt(p)
    ensures Format(AtClock(weekStart + p * MsPerDay, s).value) == s
  {
    CanonicalReadsBack(s);
    InstantOfWeek(weekStart, p, CanonicalMinutes(s));
  }

  lemma {:induction false} BucketAppend(x: seq<CustomEvent>, y: seq<CustomEvent>, d: int)
    decreases |y|
    ensures Bucket(x + y, d) == Bucket(x, d) + Bucket(y, d)
  {
    if y == [] {
      assert x + y == x;
    } else {
      var yi := y[..|y| - 1];
      BucketAppend(x, yi, d);
      assert (x + y)[..|x + y| - 1] == x + yi;
      assert (x + y)[|x + y| - 1] == y[|y| - 1];
    }
  }

  lemma {:induction false} AnyThrowsAppend(x: seq<CustomEvent>, y: seq<CustomEvent>)
    decreases |y|
    ensures AnyThrows(x + y) <==> AnyThrows(x) || AnyThrows(y)
  {
    if y == [] {
      assert x + y == x;
    } else {
      var yi := y[..|y| - 1];
      AnyThrowsAppend(x, yi);
      assert (x + y)[..|x + y| - 1] == x + yi;
      assert (x + y)[|x + y| - 1] == y[|y| - 1];
    }
  }

  /** The event of a canonical range lands on its day, as that range. */
  lemma EventOfSlot(key: string, weekStart: int, p: int, slot: TimeSlot, index: nat, d: int)
    requires weekStart % MsPerDay == 0 && Weekday(weekStart) == 1
    requires 0 <= p < 7 && Canonical(slot.start) && Canonical(slot.end)
    ensures !Throws(SlotEvent(key, weekStart + p * MsPerDay, slot, index))
    ensures Lands(SlotEvent(key, weekStart + p * MsPerDay, slot, index), d) <==> d == DayAt(p)
    ensures Lands(SlotEvent(key, weekStart + p * MsPerDay, slot, index), d) ==>
      SlotOf(SlotEvent(key, weekStart + p * MsPerDay, slot, index)) == slot
  {
    FormatAtClock(weekStart, p, slot.start);
    FormatAtClock(weekStart, p, slot.end);
  }

  /** Each event is readable, lands on day `d` exactly when `onDay`, and then as the
      range at the same position. */
  predicate LandsAs(events: seq<CustomEvent>, slots: seq<TimeSlot>, d: int, onDay: bool)
    decreases |events|
  {
    && |events| == |slots|
    && (events == [] ||
        var e := events[|events| - 1];
        && LandsAs(events[..|events| - 1], slots[..|slots| - 1], d, onDay)
        && !Throws(e) && Lands(e, d) == onDay
        && (onDay ==> SlotOf(e) == slots[|slots| - 1]))
  }

  lemma {:induction false} BucketOfLandsAs(events: seq<CustomEvent>, slots: seq<TimeSlot>, d: int,
                                           onDay: bool)
    requires LandsAs(events, slots, d, onDay)
    decreases |events|
    ensures !AnyThrows(events)
    ensures Bucket(events, d) == if onDay then slots else []
  {
    if events != [] {
      var init := events[..|events| - 1];
      var e := events[|events| - 1];
      var sinit := slots[..|slots| - 1];
      assert LandsAs(init, sinit, d, onDay) && !Throws(e) && Lands(e, d) == onDay;
      BucketOfLandsAs(init, sinit, d, onDay);
      assert AnyThrows(events) == (AnyThrows(init) || Throws(e));
      if onDay {
        assert SlotOf(e) == slots[|slots| - 1];
        assert Bucket(events, d) == Bucket(init, d) + [SlotOf(e)];
        assert slots == sinit + [slots[|slots| - 1]];
      } else {
        assert Bucket(events, d) == Bucket(init, d);
      }
    }
  }

  /** A day's events land, as its own ranges, on that day and on no other. */
  lemma {:induction false} SlotEventsLandAs(key: string, weekStart: int, p: int, slots: seq<TimeSlot>,
                                            d: int, n: nat)
    requires weekStart % MsPerDay == 0 && Weekday(weekStart) == 1
    requires 0 <= p < 7 && n <= |slots| && CanonicalUpTo(slots, n)
    decreases n
    ensures LandsAs(SlotEvents(key, weekStart + p * MsPerDay, slots, n), slots[..n], d, d == DayAt(p))
  {
    if n > 0 {
      var date := weekStart + p * MsPerDay;
      var init := SlotEvents(key, date, slots, n - 1);
      var e := SlotEvent(key, date, slots[n - 1], n - 1);
      var all := SlotEvents(key, date, slots, n);
      assert all == init + [e];
      SlotEventsLandAs(key, weekStart, p, slots, d, n - 1);
      EventOfSlot(key, weekStart, p, slots[n - 1], n - 1, d);
      assert all[..|all| - 1] == init && all[|all| - 1] == e;
      assert slots[..n][..n - 1] == slots[..n - 1] && slots[..n][n - 1] == slots[n - 1];
    }
  }

  /** The events of the day at position `p` bring exactly that day's ranges, when it is
      enabled, to its week day, and nothing to any other. */
  lemma DayEventsLand(a: AvailabilityHours, weekStart: int, p: int, d: int)
    requires weekStart % MsPerDay == 0 && Weekday(weekStart) == 1
    requires 0 <= p < 7 && CanonicalHours(a)
    ensures !AnyThrows(DayEvents(a, weekStart, p))
    ensures Bucket(DayEvents(a, weekStart, p), d)
            == if d == DayAt(p) && DayOf(a, d).enabled then DayOf(a, d).timeSlots else []
  {
    var day := DayOf(a, DayAt(p));
    if day.enabled {
      var n := |day.timeSlots|;
      assert CanonicalSlots(day.timeSlots);
      SlotEventsLandAs(DayKeys[p], weekStart, p, day.timeSlots, d, n);
      assert day.timeSlots[..n] == day.timeSlots;
      BucketOfLandsAs(DayEvents(a, weekStart, p), day.timeSlots, d, d == DayAt(p));
    }
  }

  lemma {:induction false} BucketFromDay(a: AvailabilityHours, weekStart: int, p: int, d: int)
    requires weekStart % MsPerDay == 0 && Weekday(weekStart) == 1
    requires 0 <= p <= 7 && 0 <= d < 7 && CanonicalHours(a)
    ensures !AnyThrows(EventsBeforeDay(a, weekStart, p))
    ensures Bucket(EventsBeforeDay(a, weekStart, p), d)
            == if PositionOf(d) < p && DayOf(a, d).enabled then DayOf(a, d).timeSlots else []
  {
    if p > 0 {
      BucketFromDay(a, weekStart, p - 1, d);
      DayEventsLand(a, weekStart, p - 1, d);
      BucketAppend(EventsBeforeDay(a, weekStart, p - 1), DayEvents(a, weekStart, p - 1), d);
      AnyThrowsAppend(EventsBeforeDay(a, weekStart, p - 1), DayEvents(a, weekStart, p - 1));
    }
  }

  /**
   * Reading back the events projected from canonical availability hours gives, for
   * every week day, the same ranges sorted by start; the day is enabled iff it was
   * enabled with at least one range.
   */
  lemma RoundTrip(a: AvailabilityHours, today: int, d: int)
    requires 0 <= d < 7 && CanonicalHours(a)
    ensures Rebuild(AvailEvents(a, WeekStart(today))).Some?
    ensures DayOf(Rebuild(AvailEvents(a, WeekStart(today))).value, d)
      == DayAvailability(DayOf(a, d).enabled && DayOf(a, d).timeSlots != [],
                         SortSlots(if DayOf(a, d).enabled then DayOf(a, d).timeSlots else []))
  {
    WeekStartIsMondayMidnight(today);
    BucketFromDay(a, WeekStart(today), 7, d);
    RebuildDay(AvailEvents(a, WeekStart(today)), d);
  }

  // ---------------------------------------------------------------------------
  // Editing the event list
  // ---------------------------------------------------------------------------

  /** `prev.filter(ev => ev.id !== id)`; two absent ids are equal. */
  function WithoutId(events: seq<CustomEvent>, id: Option<string>): seq<CustomEvent> {
    if events == [] then []
    else (if events[0].id != id then [events[0]] else []) + WithoutId(events[1..], id)
  }

  /** `prev.find(ev => ev.id === event.id) ?? event`. */
  function FindById(events: seq<CustomEvent>, event: CustomEvent): CustomEvent {
    if events == [] then event
    else if events[0].id == event.id then events[0]
    else FindById(events[1..], event)
  }

  lemma {:induction false} WithoutIdSpec(events: seq<CustomEvent>, id: Option<string>)
    decreases |events|
    ensures forall e :: e in WithoutId(events, id) <==> e in events && e.id != id
    ensures |WithoutId(events, id)| <= |events|
  {
    if events != [] {
      WithoutIdSpec(events[1..], id);
    }
  }

  /** `moveEvent` and `resizeEvent`: an external event is left alone; otherwise every
      event sharing its id is removed and the (first such, or the dragged) event is
      appended with its new start and end. */
  function MoveEvent(prev: seq<CustomEvent>, event: CustomEvent, start: Option<int>,
                     end: Option<int>): seq<CustomEvent>
  {
    if event.kind == External then prev
    else WithoutId(prev, event.id) + [FindById(prev, event).(start := start, end := end)]
  }

  /**
   * Moving never touches the list for an external event. Otherwise the events with
   * another id stay, in order, the moved event comes last with the new times, and no
   * other event keeps the moved id.
   */
  lemma MoveEventSpec(prev: seq<CustomEvent>, event: CustomEvent, start: Option<int>,
                      end: Option<int>)
    ensures event.kind == External ==> MoveEvent(prev, event, start, end) == prev
    ensures event.kind == Availability ==>
      var r := MoveEvent(prev, event, start, end);
      && r[..|r| - 1] == WithoutId(prev, event.id)
      && r[|r| - 1].start == start && r[|r| - 1].end == end
      && r[|r| - 1].id == event.id
      && forall e :: e in prev && e.id != event.id ==> e in r
  {
    WithoutIdSpec(prev, event.id);
    FindByIdSameId(prev, event);
  }

  lemma {:induction false} FindByIdSameId(events: seq<CustomEvent>, event: CustomEvent)
    decreases |events|
    ensures FindById(events, event).id == event.id
  {
    if events != [] && events[0].id != event.id {
      FindByIdSameId(events[1..], event);
    }
  }

  /** `handleSelectEvent` after the user confirms: availability events with the clicked
      id are deleted; a click on an external event deletes nothing. */
  function DeleteEvent(events: seq<CustomEvent>, event: CustomEvent, confirmed: bool)
    : seq<CustomEvent>
  {
    if event.kind == Availability && confirmed then WithoutId(events, event.id) else events
  }

  lemma DeleteEventSpec(events: seq<CustomEvent>, event: CustomEvent, confirmed: bool)
    ensures event.kind == External || !confirmed ==> DeleteEvent(events, event, confirmed) == events
    ensures event.kind == Availability && confirmed ==>
      forall e :: e in DeleteEvent(events, event, confirmed) <==> e in events && e.id != event.id
  {
    WithoutIdSpec(events, event.id);
  }

  /** `handleSelectSlot`: a drawn range becomes a new availability event without id. */
  function SelectSlot(events: seq<CustomEvent>, start: int, end: int): seq<CustomEvent> {
    events + [CustomEvent(None, Availability, Some(start), Some(end))]
  }

  /** `events.filter(e => e.type === 'AVAILABILITY')`, from which every handler rebuilds
      the availability hours. */
  function AvailabilityOnly(events: seq<CustomEvent>): seq<CustomEvent>
    decreases |events|
  {
    if events == [] then []
    else
      var last := events[|events| - 1];
      AvailabilityOnly(events[..|events| - 1]) + (if last.kind == Availability then [last] else [])
  }

  lemma {:induction false} AvailabilityOnlyThrows(events: seq<CustomEvent>)
    decreases |events|
    ensures AnyThrows(AvailabilityOnly(events)) == AnyThrows(events)
  {
    if events != [] {
      var init := events[..|events| - 1];
      var last := events[|events| - 1];
      var r := AvailabilityOnly(events);
      AvailabilityOnlyThrows(init);
      if last.kind == Availability {
        assert r[..|r| - 1] == AvailabilityOnly(init) && r[|r| - 1] == last;
      } else {
        assert r == AvailabilityOnly(init);
      }
    }
  }

  lemma {:induction false} AvailabilityOnlyBucket(events: seq<CustomEvent>, d: int)
    decreases |events|
    ensures Bucket(AvailabilityOnly(events), d) == Bucket(events, d)
  {
    if events != [] {
      var init := events[..|events| - 1];
      var last := events[|events| - 1];
      var r := AvailabilityOnly(events);
      AvailabilityOnlyBucket(init, d);
      if last.kind == Availability {
        assert r[..|r| - 1] == AvailabilityOnly(init) && r[|r| - 1] == last;
      } else {
        assert r == AvailabilityOnly(init);
      }
    }
  }

  lemma {:induction false} AvailabilityOnlyMembers(events: seq<CustomEvent>)
    decreases |events|
    ensures forall e :: e in AvailabilityOnly(events) <==> e in events && e.kind == Availability
  {
    if events != [] {
      var init := events[..|events| - 1];
      AvailabilityOnlyMembers(init);
      assert events == init + [events[|events| - 1]];
    }
  }

  /** Filtering out external events changes neither what a day receives nor whether
      reading throws, so every handler rebuilds what the whole list would give. */
  lemma AvailabilityOnlyRebuild(events: seq<CustomEvent>)
    ensures Rebuild(AvailabilityOnly(events)) == Rebuild(events)
  {
    AvailabilityOnlyThrows(events);
    forall d | 0 <= d < 7 {
      AvailabilityOnlyBucket(events, d);
    }
  }

  /** A drawn range adds its start day's range to the rebuilt availability. */
  lemma SelectSlotAddsRange(events: seq<CustomEvent>, start: int, end: int)
    ensures Bucket(SelectSlot(events, start, end), Weekday(start))
            == Bucket(events, Weekday(start)) + [TimeSlot(Format(start), Format(end))]
  {
    var r := SelectSlot(events, start, end);
    assert r[..|r| - 1] == events;
  }
}
