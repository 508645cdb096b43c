/**
 * The transcript pipeline of the video-call service: from the list of transcription
 * sessions the provider returns for a room, keep those inside the appointment window,
 * keep those with both parties present or a significant duration, sort them by start,
 * and join the non-blank texts under a timestamp header.
 *
 * The HTTP call is replaced by its answer (`Response`). Numeric fields the provider may
 * omit are 0 when absent and text fields are "" when absent: the code only tests them
 * for truthiness, and 0 and "" are falsy exactly like a missing field. The header's
 * date rendering (`toLocaleString('fr-FR')`) is the parameter `dateLabel`. The
 * appointment date is given already read by `new Date`: absent, invalid or an instant.
 */
module DailyTranscripts {
  import opened Wrappers
  import opened Strings
  import opened Lists

  /** One transcription session as the provider lists it. */
  datatype Transcript = Transcript(
    id: string,
    startTs: int,                       // seconds since the epoch; 0 when absent
    participantsCount: int,             // 0 when absent
    participants: Option<seq<string>>,
    duration: int,                      // seconds; 0 when absent
    transcript: string,
    text: string,
    vttUrl: string)

  /** The answer of the transcript endpoint: 404, another failing status, or a body
      whose `data` list may be missing. */
  datatype Response = NotFound | Failed(status: int, body: string) | Listed(data: Option<seq<Transcript>>)

  /** Why the pipeline raises instead of returning a text. */
  datatype Error = MissingApiKey | RequestFailed(status: int, body: string)

  const QuarterHourMs := 15 * 60 * 1000
  const HourMs := 60 * 60 * 1000
  const SectionSeparator := "\n\n"

  // ---------------------------------------------------------------------------
  // The stages
  // ---------------------------------------------------------------------------

  /** The `appointmentDate` argument: absent or empty, a text `new Date` cannot read (an
      invalid date, whose time is NaN), or an instant in milliseconds. */
  datatype AppointmentDate = NoDate | InvalidDate | Instant(ms: int)

  /** The window test: a start is required, and it must lie between a quarter of an
      hour before the appointment and an hour after its planned end. Against an invalid
      date every comparison is false, so no session passes. */
  function InWindow(appointmentDate: AppointmentDate, durationMinutes: int): Transcript -> bool {
    (t: Transcript) =>
      && t.startTs != 0
      && appointmentDate.Instant?
      && appointmentDate.ms - QuarterHourMs <= t.startTs * 1000
      && t.startTs * 1000 <= appointmentDate.ms + durationMinutes * 60 * 1000 + HourMs
  }

  /** The window applies when a date (even an unreadable one) and a non-zero duration
      are given. */
  predicate HasWindow(appointmentDate: AppointmentDate, durationMinutes: int) {
    appointmentDate != NoDate && durationMinutes != 0
  }

  function Relevant(data: seq<Transcript>, appointmentDate: AppointmentDate, durationMinutes: int)
    : seq<Transcript>
  {
    if HasWindow(appointmentDate, durationMinutes)
    then Filter(data, InWindow(appointmentDate, durationMinutes))
    else data
  }

  /** `participants_count || (participants && participants.length) || 0`. */
  function ParticipantCount(t: Transcript): int {
    if t.participantsCount != 0 then t.participantsCount
    else if t.participants.Some? && |t.participants.value| != 0 then |t.participants.value|
    else 0
  }

  /** At least two participants, or more than thirty seconds of recording. */
  predicate BothPresent(t: Transcript) {
    ParticipantCount(t) >= 2 || t.duration > 30
  }

  /** `a.start_ts || 0`. */
  function StartKey(t: Transcript): int {
    t.startTs
  }

  /** The text field, else the alternative text field. */
  function TextOf(t: Transcript): string {
    if t.transcript != "" then t.transcript else t.text
  }

  predicate HasText(t: Transcript) {
    JsTrim(TextOf(t)) != []
  }

  function Header(t: Transcript, dateLabel: int -> string): string {
    if t.startTs != 0 then dateLabel(t.startTs) else "Session"
  }

  function Section(t: Transcript, dateLabel: int -> string): string {
    "\n--- " + Header(t, dateLabel) + " ---\n" + TextOf(t)
  }

  /** The sections pushed for the sorted sessions, one per session with text. */
  function Sections(ts: seq<Transcript>, dateLabel: int -> string): seq<string>
    decreases |ts|
  {
    if ts == [] then []
    else
      var last := ts[|ts| - 1];
      Sections(ts[..|ts| - 1], dateLabel) + (if HasText(last) then [Section(last, dateLabel)] else [])
  }

  /** The sessions that end up in the text, in the order they appear there. */
  function Contributing(data: seq<Transcript>, appointmentDate: AppointmentDate, durationMinutes: int)
    : seq<Transcript>
  {
    Filter(SortBy(Filter(Relevant(data, appointmentDate, durationMinutes), BothPresent), StartKey),
           HasText)
  }

  /** `getRoomTranscript` with its early returns. */
  function RoomTranscript(apiKeyConfigured: bool, response: Response, appointmentDate: AppointmentDate,
                          durationMinutes: int, dateLabel: int -> string): Result<string, Error>
  {
    if !apiKeyConfigured then Err(MissingApiKey)
    else match response
      case NotFound => Ok("")
      case Failed(status, body) => Err(RequestFailed(status, body))
      case Listed(data) =>
        if data.None? || data.value == [] then Ok("")
        else Ok(ListedTranscript(data.value, appointmentDate, durationMinutes, dateLabel))
  }

  /** The text made from a non-empty session list, with the pipeline's early returns. */
  function ListedTranscript(data: seq<Transcript>, appointmentDate: AppointmentDate,
                            durationMinutes: int, dateLabel: int -> string): string
  {
    var relevant := Relevant(data, appointmentDate, durationMinutes);
    if relevant == [] then ""
    else
      var both := Filter(relevant, BothPresent);
      if both == [] then ""
      else
        var combined := Sections(SortBy(both, StartKey), dateLabel);
        if combined == [] then "" else Join(combined, SectionSeparator)
  }

  // ---------------------------------------------------------------------------
  // The loops
  // ---------------------------------------------------------------------------

  /** The loop that pushes the sessions with both parties present. */
  method KeepBothPresent(relevant: seq<Transcript>) returns (kept: seq<Transcript>)
    ensures kept == Filter(relevant, BothPresent)
  {
    kept := [];
    var i := 0;
    while i < |relevant|
      invariant 0 <= i <= |relevant|
      invariant kept == Filter(relevant[..i], BothPresent)
    {
      var t := relevant[i];
      FilterAppend(relevant[..i], t, BothPresent);
      assert relevant[..i + 1] == relevant[..i] + [t];
      var participantCount := t.participantsCount;
      if participantCount == 0 {
        if t.participants.Some? && |t.participants.value| != 0 {
          participantCount := |t.participants.value|;
        }
      }
      var duration := t.duration;
      if participantCount >= 2 || duration > 30 {
        kept := kept + [t];
      }
      i := i + 1;
    }
    assert relevant[..i] == relevant;
  }

  lemma SectionsStep(ts: seq<Transcript>, i: nat, dateLabel: int -> string)
    requires i < |ts|
    ensures Sections(ts[..i + 1], dateLabel)
            == Sections(ts[..i], dateLabel) + (if HasText(ts[i]) then [Section(ts[i], dateLabel)] else [])
  {
    assert ts[..i + 1][..i] == ts[..i];
  }

  /** The body of the extraction loop for one session: its section, or nothing when its
      text is missing (a WebVTT-only session included) or blank. */
  method SectionOf(t: Transcript, dateLabel: int -> string) returns (section: Option<string>)
    ensures section == if HasText(t) then Some(Section(t, dateLabel)) else None
  {
    var transcriptText := "";
    if t.transcript != "" {
      transcriptText := t.transcript;
    } else if t.text != "" {
      transcriptText := t.text;
    } else if t.vttUrl != "" {
      return None;
    }
    assert transcriptText == TextOf(t);
    if transcriptText != "" && |JsTrim(transcriptText)| > 0 {
      var timestamp := if t.startTs != 0 then dateLabel(t.startTs) else "Session";
      section := Some("\n--- " + timestamp + " ---\n" + transcriptText);
    } else {
      section := None;
    }
  }

  /** The loop that extracts the text of every sorted session. */
  method CombineSections(sorted: seq<Transcript>, dateLabel: int -> string) returns (combined: seq<string>)
    ensures combined == Sections(sorted, dateLabel)
  {
    combined := [];
    var i := 0;
    while i < |sorted|
      invariant 0 <= i <= |sorted|
      invariant combined == Sections(sorted[..i], dateLabel)
    {
      SectionsStep(sorted, i, dateLabel);
      var section := SectionOf(sorted[i], dateLabel);
      if section.Some? {
        combined := combined + [section.value];
      }
      i := i + 1;
    }
    assert sorted[..i] == sorted;
  }

  /** `getRoomTranscript` over the provider's answer: a missing API key raises
      `MissingApiKey`, a 404 gives "", another failing status raises `RequestFailed` with
      the status and body, a missing or empty list gives "", and otherwise the surviving
      sessions are joined (an appointment date `new Date` cannot read keeps none, so ""). */
  method GetRoomTranscript(apiKeyConfigured: bool, response: Response, appointmentDate: AppointmentDate,
                           durationMinutes: int, dateLabel: int -> string)
    returns (r: Result<string, Error>)
    ensures r == RoomTranscript(apiKeyConfigured, response, appointmentDate, durationMinutes, dateLabel)
  {
    if !apiKeyConfigured {
      return Err(MissingApiKey);
    }
    if response.NotFound? {
      return Ok("");
    }
    if response.Failed? {
      return Err(RequestFailed(response.status, response.body));
    }
    var data := response.data;
    if data.None? || data.value == [] {
      return Ok("");
    }
    var text := CombineListed(data.value, appointmentDate, durationMinutes, dateLabel);
    r := Ok(text);
  }

  /** The filtering, sorting and joining stages over the listed sessions. */
  method CombineListed(data: seq<Transcript>, appointmentDate: AppointmentDate,
                       durationMinutes: int, dateLabel: int -> string) returns (text: string)
    ensures text == ListedTranscript(data, appointmentDate, durationMinutes, dateLabel)
  {
    var relevant := data;
    if HasWindow(appointmentDate, durationMinutes) {
      relevant := Filter(data, InWindow(appointmentDate, durationMinutes));
    }
    assert relevant == Relevant(data, appointmentDate, durationMinutes);
    if relevant == [] {
      return "";
    }
    var both := KeepBothPresent(relevant);
    if both == [] {
      return "";
    }
    both := SortBy(both, StartKey);
    var combined := CombineSections(both, dateLabel);
    if combined == [] {
      return "";
    }
    text := Join(combined, SectionSeparator);
  }

  // ---------------------------------------------------------------------------
  // Properties
  // ---------------------------------------------------------------------------

  /** The sections are those of the sessions with text, in order. */
  lemma SectionsSpec(ts: seq<Transcript>, dateLabel: int -> string)
    ensures |Sections(ts, dateLabel)| == |Filter(ts, HasText)|
    ensures forall i :: 0 <= i < |Sections(ts, dateLabel)| ==>
      Sections(ts, dateLabel)[i] == Section(Filter(ts, HasText)[i], dateLabel)
  {
    SectionsLength(ts, dateLabel);
    forall i | 0 <= i < |Sections(ts, dateLabel)|
      ensures Sections(ts, dateLabel)[i] == Section(Filter(ts, HasText)[i], dateLabel)
    {
      SectionAt(ts, dateLabel, i);
    }
  }

  lemma {:induction false} SectionsLength(ts: seq<Transcript>, dateLabel: int -> string)
    decreases |ts|
    ensures |Sections(ts, dateLabel)| == |Filter(ts, HasText)|
  {
    if ts != [] {
      SectionsLength(ts[..|ts| - 1], dateLabel);
    }
  }

  /** The `i`-th section is that of the `i`-th session with text. */
  lemma {:induction false} SectionAt(ts: seq<Transcript>, dateLabel: int -> string, i: int)
    requires 0 <= i < |Sections(ts, dateLabel)|
    decreases |ts|
    ensures |Sections(ts, dateLabel)| == |Filter(ts, HasText)|
    ensures Sections(ts, dateLabel)[i] == Section(Filter(ts, HasText)[i], dateLabel)
  {
    var init := ts[..|ts| - 1];
    var last := ts[|ts| - 1];
    SectionsLength(ts, dateLabel);
    SectionsLength(init, dateLabel);
    var secsInit := Sections(init, dateLabel);
    if i < |secsInit| {
      SectionAt(init, dateLabel, i);
      assert Sections(ts, dateLabel)[i] == secsInit[i];
      assert Filter(ts, HasText)[i] == Filter(init, HasText)[i];
    } else {
      assert HasText(last);
      assert Sections(ts, dateLabel)[i] == Section(last, dateLabel);
      assert Filter(ts, HasText)[i] == last;
    }
  }

  lemma JoinStartsWithFirst(parts: seq<string>, sep: string)
    requires parts != []
    ensures |Join(parts, sep)| >= |parts[0]|
  {
  }

  /** A session is in the text iff it lies in the window (when one is given), has both
      parties present or a significant duration, and has non-blank text. */
  predicate Contributes(t: Transcript, appointmentDate: AppointmentDate, durationMinutes: int) {
    && (HasWindow(appointmentDate, durationMinutes) ==> InWindow(appointmentDate, durationMinutes)(t))
    && BothPresent(t)
    && HasText(t)
  }

  /** The contributing sessions are exactly the qualifying ones. */
  lemma ContributingMembers(data: seq<Transcript>, appointmentDate: AppointmentDate, durationMinutes: int)
    ensures forall t :: t in Contributing(data, appointmentDate, durationMinutes)
                        <==> t in data && Contributes(t, appointmentDate, durationMinutes)
  {
    var relevant := Relevant(data, appointmentDate, durationMinutes);
    if HasWindow(appointmentDate, durationMinutes) {
      FilterMembers(data, InWindow(appointmentDate, durationMinutes));
    }
    var both := Filter(relevant, BothPresent);
    FilterMembers(relevant, BothPresent);
    var sorted := SortBy(both, StartKey);
    SortBySpec(both, StartKey);
    FilterMembers(sorted, HasText);
    forall t ensures t in sorted <==> t in both {
      assert t in sorted <==> t in multiset(sorted);
      assert t in both <==> t in multiset(both);
    }
  }

  /** The contributing sessions come in ascending order of start, a missing start
      counting as 0; each qualifying session appears as often as it is listed. */
  lemma ContributingOrder(data: seq<Transcript>, appointmentDate: AppointmentDate, durationMinutes: int)
    ensures SortedBy(Contributing(data, appointmentDate, durationMinutes), StartKey)
    ensures forall t :: multiset(Contributing(data, appointmentDate, durationMinutes))[t]
                        == if Contributes(t, appointmentDate, durationMinutes) then multiset(data)[t] else 0
  {
    var relevant := Relevant(data, appointmentDate, durationMinutes);
    var both := Filter(relevant, BothPresent);
    var sorted := SortBy(both, StartKey);
    SortBySpec(both, StartKey);
    FilterSorted(sorted, HasText, StartKey);
    forall t ensures multiset(Contributing(data, appointmentDate, durationMinutes))[t]
                     == if Contributes(t, appointmentDate, durationMinutes) then multiset(data)[t] else 0
    {
      FilterMultiset(sorted, HasText, t);
      FilterMultiset(relevant, BothPresent, t);
      if HasWindow(appointmentDate, durationMinutes) {
        FilterMultiset(data, InWindow(appointmentDate, durationMinutes), t);
      }
    }
  }

  /** The early returns agree with joining whatever survives: with an answer listing
      sessions, the text is the sections of the contributing sessions joined by a blank
      line. */
  lemma RoomTranscriptJoins(data: seq<Transcript>, appointmentDate: AppointmentDate,
                            durationMinutes: int, dateLabel: int -> string)
    ensures RoomTranscript(true, Listed(Some(data)), appointmentDate, durationMinutes, dateLabel)
            == Ok(Join(Sections(SortBy(Filter(Relevant(data, appointmentDate, durationMinutes),
                                              BothPresent), StartKey), dateLabel), SectionSeparator))
  {
  }

  /** The text is empty iff no listed session qualifies; a 404 and a missing or empty
      list also give the empty text, and a missing key or another failing status raise. */
  lemma EmptyTranscript(response: Response, appointmentDate: AppointmentDate, durationMinutes: int,
                        dateLabel: int -> string)
    ensures !RoomTranscript(false, response, appointmentDate, durationMinutes, dateLabel).Ok?
    ensures response.Failed? ==>
      RoomTranscript(true, response, appointmentDate, durationMinutes, dateLabel)
      == Err(RequestFailed(response.status, response.body))
    ensures response.NotFound? || response == Listed(None) ==>
      RoomTranscript(true, response, appointmentDate, durationMinutes, dateLabel) == Ok("")
    ensures response.Listed? && response.data.Some? ==>
      (RoomTranscript(true, response, appointmentDate, durationMinutes, dateLabel) == Ok("")
       <==> forall t :: t in response.data.value ==> !Contributes(t, appointmentDate, durationMinutes))
  {
    if response.Listed? && response.data.Some? {
      var data := response.data.value;
      RoomTranscriptJoins(data, appointmentDate, durationMinutes, dateLabel);
      ContributingMembers(data, appointmentDate, durationMinutes);
      var contributing := Contributing(data, appointmentDate, durationMinutes);
      var parts := Sections(SortBy(Filter(Relevant(data, appointmentDate, durationMinutes),
                                          BothPresent), StartKey), dateLabel);
      SectionsSpec(SortBy(Filter(Relevant(data, appointmentDate, durationMinutes),
                                 BothPresent), StartKey), dateLabel);
      if contributing != [] {
        assert contributing[0] in contributing;
        JoinStartsWithFirst(parts, SectionSeparator);
      }
    }
  }

  /** An appointment date that does not parse, given with a duration, lets no session
      through the window, so whatever the provider lists, the text is empty. */
  lemma InvalidDateGivesNothing(response: Response, durationMinutes: int, dateLabel: int -> string)
    requires response.Listed? && durationMinutes != 0
    ensures RoomTranscript(true, response, InvalidDate, durationMinutes, dateLabel) == Ok("")
  {
    if response.data.Some? && response.data.value != [] {
      var relevant := Relevant(response.data.value, InvalidDate, durationMinutes);
      if relevant != [] {
        FilterMember(response.data.value, InWindow(InvalidDate, durationMinutes), relevant[0]);
      }
    }
  }
}
