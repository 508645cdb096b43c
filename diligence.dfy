/**
 * The time tracker of the work a lawyer does for a client: the list of diligence
 * entries read from the database, the running entry, starting and stopping the
 * stopwatch, the `HH:MM:SS` rendering of a duration, and the totals.
 *
 * Instants are milliseconds. The database writes the component issues are returned as
 * values (`Write`); the snapshot listener is the method `OnSnapshot`, called with the
 * documents of the query in snapshot order.
 */
module Diligence {
  import opened Wrappers
  import opened Strings
  import opened Lists

  const DefaultCategory := "Autre"
  const DefaultDescription := "Travail sur le dossier"

  /** A diligence document as stored; absent fields are `None`. */
  datatype StoredDiligence = StoredDiligence(
    id: string,
    lawyerId: string,
    clientId: string,
    startTime: int,
    endTime: Option<int>,
    duration: Option<int>,
    description: string,
    category: string,
    createdAt: int,
    updatedAt: int,
    billable: Option<bool>)

  /** An entry as the component holds it: `billable` is filled in. */
  datatype DiligenceEntry = DiligenceEntry(
    id: string,
    lawyerId: string,
    clientId: string,
    startTime: int,
    endTime: Option<int>,
    duration: Option<int>,
    description: string,
    category: string,
    createdAt: int,
    updatedAt: int,
    billable: bool)

  /** A write the component sends to the `diligences` collection. */
  datatype Write =
    | NoWrite
    | AddDiligence(lawyerId: string, clientId: string, startTime: int, description: string,
                   category: string, createdAt: int, updatedAt: int, billable: bool)
    | StopEntry(id: string, endTime: int, duration: int, description: string, category: string,
                billable: bool, updatedAt: int)

  /** The entry built from a document: billable unless it says otherwise. */
  function EntryOf(d: StoredDiligence): (e: DiligenceEntry)
    ensures e.billable <==> d.billable != Some(false)
    ensures e.id == d.id && e.endTime == d.endTime && e.duration == d.duration
  {
    DiligenceEntry(d.id, d.lawyerId, d.clientId, d.startTime, d.endTime, d.duration,
                   d.description, d.category, d.createdAt, d.updatedAt, d.billable.GetOr(true))
  }

  /** Position of the last entry without an end, or -1. */
  function ActiveIndex(entries: seq<DiligenceEntry>): (r: int)
    decreases |entries|
    ensures -1 <= r < |entries|
    ensures r >= 0 ==> entries[r].endTime.None?
    ensures forall j :: r < j < |entries| ==> entries[j].endTime.Some?
  {
    if entries == [] then -1
    else if entries[|entries| - 1].endTime.None? then |entries| - 1
    else ActiveIndex(entries[..|entries| - 1])
  }

  function ActiveEntry(entries: seq<DiligenceEntry>): Option<DiligenceEntry> {
    var k := ActiveIndex(entries);
    if k >= 0 then Some(entries[k]) else None
  }

  lemma ActiveIndexAppend(entries: seq<DiligenceEntry>, e: DiligenceEntry)
    ensures ActiveIndex(entries + [e]) == if e.endTime.None? then |entries| else ActiveIndex(entries)
  {
    assert (entries + [e])[..|entries + [e]| - 1] == entries;
  }

  /** Whole seconds from `start` to `end`, rounded down (`Math.floor` of a quotient). */
  function ElapsedSeconds(start: int, end: int): int {
    (end - start) / 1000
  }

  // ---------------------------------------------------------------------------
  // formatDuration
  // ---------------------------------------------------------------------------

  function Pad2(n: nat): string {
    ZeroPad(NatToString(n), 2)
  }

  /** `formatDuration`: hours, minutes and seconds, each padded to two digits. */
  function FormatDuration(seconds: nat): string {
    Pad2(seconds / 3600) + ":" + Pad2((seconds % 3600) / 60) + ":" + Pad2(seconds % 60)
  }

  lemma {:induction false} ShortNumber(n: nat)
    requires n < 100
    ensures |NatToString(n)| <= 2
  {
    if n >= 10 {
      assert |NatToString(n / 10)| == 1;
    }
  }

  /** A padded number reads back as itself. */
  lemma Pad2Value(n: nat)
    ensures |Pad2(n)| >= 2 && AllDigits(Pad2(n))
    ensures DecimalValue(Pad2(n)) == n
    ensures n < 100 ==> |Pad2(n)| == 2
  {
    NatToStringValue(n);
    ZeroPadValue(NatToString(n), 2);
    if n < 100 {
      ShortNumber(n);
    }
  }

  predicate AllDigits(s: string) {
    forall i :: 0 <= i < |s| ==> IsDigit(s[i])
  }

  /** `H:MM:SS`: digits, a colon, two digits, a colon, two digits. */
  predicate IsClock(r: string) {
    && |r| >= 8 && r[|r| - 6] == ':' && r[|r| - 3] == ':'
    && AllDigits(r[..|r| - 6]) && AllDigits(r[|r| - 5..|r| - 3]) && AllDigits(r[|r| - 2..])
  }

  function ClockHours(r: string): nat requires IsClock(r) { DecimalValue(r[..|r| - 6]) }
  function ClockMinutes(r: string): nat requires IsClock(r) { DecimalValue(r[|r| - 5..|r| - 3]) }
  function ClockSeconds(r: string): nat requires IsClock(r) { DecimalValue(r[|r| - 2..]) }

  /** Gluing three digit fields with colons gives a clock that reads back as them. */
  lemma FieldsReadBack(h: string, m: string, s: string)
    requires |h| >= 2 && |m| == 2 && |s| == 2
    requires AllDigits(h) && AllDigits(m) && AllDigits(s)
    ensures IsClock(h + ":" + m + ":" + s)
    ensures ClockHours(h + ":" + m + ":" + s) == DecimalValue(h)
    ensures ClockMinutes(h + ":" + m + ":" + s) == DecimalValue(m)
    ensures ClockSeconds(h + ":" + m + ":" + s) == DecimalValue(s)
  {
    var r := h + ":" + m + ":" + s;
    assert r[..|r| - 6] == h;
    assert r[|r| - 5..|r| - 3] == m;
    assert r[|r| - 2..] == s;
  }

  /** Hours, minutes below 60 and seconds below 60 make up the duration. */
  lemma ClockParts(seconds: nat)
    ensures (seconds % 3600) / 60 < 60 && seconds % 60 < 60
    ensures 3600 * (seconds / 3600) + 60 * ((seconds % 3600) / 60) + seconds % 60 == seconds
  {
    var q, rem := seconds / 3600, seconds % 3600;
    var mm, ss := rem / 60, rem % 60;
    assert seconds == 60 * (60 * q + mm) + ss;
    assert seconds % 60 == ss by {
      Remainder60(seconds, 60 * q + mm, ss);
    }
  }

  lemma Remainder60(a: int, k: int, r: int)
    requires a == 60 * k + r && 0 <= r < 60
    ensures a % 60 == r
  {
  }

  /** The rendering is an `H:MM:SS` clock whose fields read back as the hours, the
      minutes (below 60) and the seconds (below 60) that make up the duration. */
  lemma FormatDurationReadsBack(seconds: nat)
    ensures IsClock(FormatDuration(seconds))
    ensures ClockMinutes(FormatDuration(seconds)) < 60 && ClockSeconds(FormatDuration(seconds)) < 60
    ensures 3600 * ClockHours(FormatDuration(seconds)) + 60 * ClockMinutes(FormatDuration(seconds))
            + ClockSeconds(FormatDuration(seconds)) == seconds
  {
    var hv, mv, sv := seconds / 3600, (seconds % 3600) / 60, seconds % 60;
    ClockParts(seconds);
    Pad2Value(hv);
    Pad2Value(mv);
    Pad2Value(sv);
    FieldsReadBack(Pad2(hv), Pad2(mv), Pad2(sv));
  }

  // ---------------------------------------------------------------------------
  // Totals
  // ---------------------------------------------------------------------------

  /** `entry.duration || 0`. */
  function DurationOf(e: DiligenceEntry): int {
    e.duration.GetOr(0)
  }

  /** `reduce((acc, entry) => acc + (entry.duration || 0), 0)`. */
  function TotalTime(entries: seq<DiligenceEntry>): int
    decreases |entries|
  {
    if entries == [] then 0 else TotalTime(entries[..|entries| - 1]) + DurationOf(entries[|entries| - 1])
  }

  function IsBillable(e: DiligenceEntry): bool {
    e.billable
  }

  function BillableTime(entries: seq<DiligenceEntry>): int {
    TotalTime(Filter(entries, IsBillable))
  }

  predicate NonNegativeDurations(entries: seq<DiligenceEntry>) {
    forall i :: 0 <= i < |entries| ==> DurationOf(entries[i]) >= 0
  }

  /** With no negative duration, the billable time never exceeds the total, and the
      difference is the time of the entries that are not billable. */
  lemma {:induction false} BillableAtMostTotal(entries: seq<DiligenceEntry>)
    requires NonNegativeDurations(entries)
    decreases |entries|
    ensures 0 <= BillableTime(entries) <= TotalTime(entries)
    ensures TotalTime(entries) - BillableTime(entries)
            == TotalTime(Filter(entries, (e: DiligenceEntry) => !e.billable))
  {
    if entries != [] {
      var init := entries[..|entries| - 1];
      var last := entries[|entries| - 1];
      assert NonNegativeDurations(init) by {
        forall i | 0 <= i < |init| ensures DurationOf(init[i]) >= 0 {
          assert init[i] == entries[i];
        }
      }
      BillableAtMostTotal(init);
      var billed := Filter(init, IsBillable);
      var unbilled := Filter(init, (e: DiligenceEntry) => !e.billable);
      if last.billable {
        assert Filter(entries, IsBillable) == billed + [last];
        assert (billed + [last])[..|billed + [last]| - 1] == billed;
        assert Filter(entries, (e: DiligenceEntry) => !e.billable) == unbilled;
      } else {
        assert Filter(entries, IsBillable) == billed;
        assert Filter(entries, (e: DiligenceEntry) => !e.billable) == unbilled + [last];
        assert (unbilled + [last])[..|unbilled + [last]| - 1] == unbilled;
      }
    }
  }

  // ---------------------------------------------------------------------------
  // The component
  // ---------------------------------------------------------------------------

  /** The loop of the snapshot listener: the entries in snapshot order, and the last
      one without an end. */
  method CollectEntries(docs: seq<StoredDiligence>) returns (entries: seq<DiligenceEntry>, active: Option<DiligenceEntry>)
    ensures entries == Map(docs, EntryOf)
    ensures active == ActiveEntry(entries)
  {
    entries := [];
    active := None;
    var i := 0;
    while i < |docs|
      invariant 0 <= i <= |docs|
      invariant entries == Map(docs[..i], EntryOf)
      invariant active == ActiveEntry(entries)
    {
      var entry := EntryOf(docs[i]);
      ActiveIndexAppend(entries, entry);
      entries := entries + [entry];
      assert entries == Map(docs[..i + 1], EntryOf);
      if entry.endTime.None? {
        active := Some(entry);
      }
      i := i + 1;
    }
    assert docs[..i] == docs;
  }

  class DiligenceTracker {
    const lawyerId: string
    const clientId: string
    var diligences: seq<DiligenceEntry>
    var activeEntry: Option<DiligenceEntry>
    var elapsedSeconds: int
    var description: string
    var category: string
    var billable: bool

    constructor (lawyerId: string, clientId: string)
      ensures this.lawyerId == lawyerId && this.clientId == clientId
      ensures diligences == [] && activeEntry == None && elapsedSeconds == 0
      ensures description == "" && category == "" && billable
    {
      this.lawyerId := lawyerId;
      this.clientId := clientId;
      diligences := [];
      activeEntry := None;
      elapsedSeconds := 0;
      description := "";
      category := "";
      billable := true;
    }

    /** The snapshot listener: every document becomes an entry, the last one without an
        end is the running one, and its elapsed time is computed against `now`. */
    method OnSnapshot(docs: seq<StoredDiligence>, now: int)
      modifies this
      ensures diligences == Map(docs, EntryOf)
      ensures activeEntry == ActiveEntry(diligences)
      ensures elapsedSeconds == if activeEntry.Some? then ElapsedSeconds(activeEntry.value.startTime, now)
                                else old(elapsedSeconds)
      ensures description == old(description) && category == old(category) && billable == old(billable)
    {
      var entries, active := CollectEntries(docs);
      diligences := entries;
      activeEntry := active;
      if active.Some? {
        elapsedSeconds := ElapsedSeconds(active.value.startTime, now);
      }
    }

    /** `startDiligence`: nothing while an entry runs; otherwise a new billable entry
        starting now, filed under the chosen category or 'Autre'. */
    method StartDiligence(now: int) returns (w: Write)
      modifies this
      ensures old(activeEntry).Some? ==> w == NoWrite && description == old(description)
      ensures old(activeEntry).None? ==>
        && w == AddDiligence(lawyerId, clientId, now, "",
                             if old(category) != "" then old(category) else DefaultCategory,
                             now, now, true)
        && description == ""
      ensures diligences == old(diligences) && activeEntry == old(activeEntry)
      ensures elapsedSeconds == old(elapsedSeconds)
      ensures category == old(category) && billable == old(billable)
    {
      if activeEntry.Some? {
        return NoWrite;
      }
      w := AddDiligence(lawyerId, clientId, now, "",
                        if category != "" then category else DefaultCategory, now, now, true);
      description := "";
    }

    /** `stopDiligence`: nothing unless an entry runs; otherwise close it with its
        duration in whole seconds, the typed description or the default one, the
        category chosen now, else its own, else 'Autre'; then reset the form. */
    method StopDiligence(now: int) returns (w: Write)
      modifies this
      ensures old(activeEntry).None? ==>
        w == NoWrite && description == old(description) && category == old(category)
        && billable == old(billable)
      ensures old(activeEntry).Some? ==>
        var active := old(activeEntry).value;
        && w == StopEntry(active.id, now, ElapsedSeconds(active.startTime, now),
                          if old(description) != "" then old(description) else DefaultDescription,
                          if old(category) != "" then old(category)
                          else if active.category != "" then active.category
                          else DefaultCategory,
                          old(billable), now)
        && description == "" && category == "" && billable
      ensures diligences == old(diligences) && activeEntry == old(activeEntry)
      ensures elapsedSeconds == old(elapsedSeconds)
    {
      if activeEntry.None? {
        return NoWrite;
      }
      var active := activeEntry.value;
      var duration := ElapsedSeconds(active.startTime, now);
      w := StopEntry(active.id, now, duration,
                     if description != "" then description else DefaultDescription,
                     if category != "" then category
                     else if active.category != "" then active.category
                     else DefaultCategory,
                     billable, now);
      description := "";
      category := "";
      billable := true;
    }
  }

  /** A stop issued at or after the start records a non-negative duration that is
      the elapsed time to the second, and never an empty description or category. */
  lemma StopEntryWellFormed(active: DiligenceEntry, now: int, description: string, category: string)
    requires now >= active.startTime
    ensures var d := ElapsedSeconds(active.startTime, now);
      0 <= d && d * 1000 <= now - active.startTime < (d + 1) * 1000
    ensures (if description != "" then description else DefaultDescription) != ""
    ensures (if category != "" then category
             else if active.category != "" then active.category else DefaultCategory) != ""
  {
  }

  /** The running entry is an entry without an end, and no later entry lacks one. */
  lemma ActiveEntrySpec(entries: seq<DiligenceEntry>)
    ensures ActiveEntry(entries).Some? <==> exists i :: 0 <= i < |entries| && entries[i].endTime.None?
    ensures ActiveEntry(entries).Some? ==>
              ActiveEntry(entries).value in entries && ActiveEntry(entries).value.endTime.None?
  {
    var k := ActiveIndex(entries);
    if k < 0 {
      assert forall i :: 0 <= i < |entries| ==> entries[i].endTime.Some?;
    } else {
      assert entries[k] in entries;
    }
  }
}
