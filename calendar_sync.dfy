/**
 * The unified calendar: the converters that turn appointments, Google events and
 * Outlook events into one event shape, the merge of every source sorted by start, the
 * routing of an update or a deletion to the source that owns the event, and the
 * default synchronisation status.
 *
 * Dates are the instants their strings denote, in milliseconds. The remote reads are
 * replaced by their answers: `None` stands for a read that raised, which the merge
 * catches and skips.
 */
module CalendarSync {
  import opened Wrappers
  import opened Strings
  import opened Lists
  import opened Appointments

  datatype EventType = AppointmentEvent | GoogleEvent | OutlookEvent | PersonalEvent

  datatype EventSource = Jurilab | Google | Outlook

  const MinuteMs := 60 * 1000
  const DefaultDurationMinutes := 60

  const AppointmentColor := "#3b82f6"
  const GoogleColor := "#10b981"
  const OutlookColor := "#f59e0b"
  const PersonalColor := "#8b5cf6"

  const AppointmentPrefix := "apt-"
  const GooglePrefix := "google-"
  const OutlookPrefix := "outlook-"
  const Untitled := "Sans titre"

  datatype UnifiedEvent = UnifiedEvent(
    id: string,
    title: string,
    start: int,
    end: int,
    allDay: bool,
    color: string,
    kind: EventType,
    source: EventSource,
    sourceEventId: string,
    description: Option<string>,
    location: Option<string>,
    appointment: Option<Appointment>,
    editable: bool,
    deletable: bool)

  /** A Google event: a timed event has `dateTime`, an all-day one only `date`. */
  datatype GoogleCalendarEvent = GoogleCalendarEvent(
    id: string, summary: string,
    startDateTime: Option<int>, startDate: int,
    endDateTime: Option<int>, endDate: int,
    description: Option<string>, location: Option<string>)

  datatype OutlookCalendarEvent = OutlookCalendarEvent(
    id: string, subject: string, start: int, end: int,
    body: Option<string>, location: Option<string>, isAllDay: Option<bool>)

  /** A personal event as stored; `color` is "" when absent. */
  datatype PersonalRecord = PersonalRecord(
    id: string, title: string, start: int, end: int, allDay: Option<bool>, color: string,
    description: Option<string>, location: Option<string>)

  /** What the credentials node of a user says about one provider. */
  datatype Credentials = Credentials(connected: bool, accessToken: string, lastSyncAt: string)

  // ---------------------------------------------------------------------------
  // Converters
  // ---------------------------------------------------------------------------

  function DurationMinutes(apt: Appointment): int {
    if apt.duration != 0 then apt.duration else DefaultDurationMinutes
  }

  /** `convertAppointmentToEvent`: a read-only event covering the appointment. */
  function AppointmentToEvent(apt: Appointment): (r: UnifiedEvent)
    ensures r.id == AppointmentPrefix + apt.id && r.sourceEventId == apt.id
    ensures r.start == apt.date && r.end - r.start == DurationMinutes(apt) * MinuteMs
    ensures !r.editable && !r.deletable && !r.allDay
    ensures r.kind == AppointmentEvent && r.source == Jurilab && r.appointment == Some(apt)
  {
    UnifiedEvent(
      AppointmentPrefix + apt.id,
      if apt.clientName != "" then "Consultation - " + apt.clientName else "Consultation",
      apt.date, apt.date + DurationMinutes(apt) * MinuteMs, false, AppointmentColor,
      AppointmentEvent, Jurilab, apt.id, apt.notes, None, Some(apt), false, false)
  }

  /** `convertGoogleEventToUnified`. */
  function GoogleToUnified(event: GoogleCalendarEvent): (r: UnifiedEvent)
    ensures r.id == GooglePrefix + event.id && r.sourceEventId == event.id
    ensures r.allDay <==> event.startDateTime.None?
    ensures r.start == event.startDateTime.GetOr(event.startDate)
    ensures r.editable && r.deletable && r.kind == GoogleEvent && r.source == Google
  {
    UnifiedEvent(
      GooglePrefix + event.id,
      if event.summary != "" then event.summary else Untitled,
      event.startDateTime.GetOr(event.startDate), event.endDateTime.GetOr(event.endDate),
      event.startDateTime.None?, GoogleColor, GoogleEvent, Google, event.id,
      event.description, event.location, None, true, true)
  }

  /** `convertOutlookEventToUnified`. */
  function OutlookToUnified(event: OutlookCalendarEvent): (r: UnifiedEvent)
    ensures r.id == OutlookPrefix + event.id && r.sourceEventId == event.id
    ensures r.allDay <==> event.isAllDay == Some(true)
    ensures r.editable && r.deletable && r.kind == OutlookEvent && r.source == Outlook
  {
    UnifiedEvent(
      OutlookPrefix + event.id,
      if event.subject != "" then event.subject else Untitled,
      event.start, event.end, event.isAllDay.GetOr(false), OutlookColor, OutlookEvent, Outlook,
      event.id, event.body, event.location, None, true, true)
  }

  /** The inline conversion of a personal event: editable, deletable, kept under its
      own id. */
  function PersonalToUnified(event: PersonalRecord): (r: UnifiedEvent)
    ensures r.id == event.id && r.sourceEventId == event.id
    ensures r.allDay <==> event.allDay == Some(true)
    ensures r.color == if event.color != "" then event.color else PersonalColor
    ensures r.editable && r.deletable && r.kind == PersonalEvent && r.source == Jurilab
  {
    UnifiedEvent(
      event.id, event.title, event.start, event.end, event.allDay.GetOr(false),
      if event.color != "" then event.color else PersonalColor, PersonalEvent, Jurilab,
      event.id, event.description, event.location, None, true, true)
  }

  /** Events from the three prefixed converters never share an id. */
  lemma PrefixedIdsDiffer(apt: Appointment, g: GoogleCalendarEvent, o: OutlookCalendarEvent)
    ensures AppointmentToEvent(apt).id != GoogleToUnified(g).id
    ensures AppointmentToEvent(apt).id != OutlookToUnified(o).id
    ensures GoogleToUnified(g).id != OutlookToUnified(o).id
  {
    assert AppointmentToEvent(apt).id[0] == 'a';
    assert GoogleToUnified(g).id[0] == 'g';
    assert OutlookToUnified(o).id[0] == 'o';
  }

  // ---------------------------------------------------------------------------
  // Merging every source
  // ---------------------------------------------------------------------------

  /** The appointment filter: inside the requested range and not cancelled. */
  function InRange(startDate: int, endDate: int): Appointment -> bool {
    (apt: Appointment) => apt.date >= startDate && apt.date <= endDate && apt.status != Cancelled
  }

  /** A provider is read only when connected and holding a token. */
  predicate Connected(creds: Option<Credentials>) {
    creds.Some? && creds.value.connected && creds.value.accessToken != ""
  }

  function StartOf(e: UnifiedEvent): int {
    e.start
  }

  /** The events each block pushes: nothing when its read raised or, for a provider,
      when it is not connected. */
  function AppointmentBlock(appointments: Option<seq<Appointment>>, startDate: int, endDate: int)
    : seq<UnifiedEvent>
  {
    if appointments.Some?
    then Map(Filter(appointments.value, InRange(startDate, endDate)), AppointmentToEvent)
    else []
  }

  function PersonalBlock(personal: Option<seq<PersonalRecord>>): seq<UnifiedEvent> {
    if personal.Some? then Map(personal.value, PersonalToUnified) else []
  }

  function GoogleBlock(creds: Option<Credentials>, events: Option<seq<GoogleCalendarEvent>>)
    : seq<UnifiedEvent>
  {
    if Connected(creds) && events.Some? then Map(events.value, GoogleToUnified) else []
  }

  function OutlookBlock(creds: Option<Credentials>, events: Option<seq<OutlookCalendarEvent>>)
    : seq<UnifiedEvent>
  {
    if Connected(creds) && events.Some? then Map(events.value, OutlookToUnified) else []
  }

  /** The events pushed by the four blocks, in push order. */
  function Gathered(appointments: Option<seq<Appointment>>, personal: Option<seq<PersonalRecord>>,
                    googleCreds: Option<Credentials>, googleEvents: Option<seq<GoogleCalendarEvent>>,
                    outlookCreds: Option<Credentials>, outlookEvents: Option<seq<OutlookCalendarEvent>>,
                    startDate: int, endDate: int): seq<UnifiedEvent>
  {
    AppointmentBlock(appointments, startDate, endDate) + PersonalBlock(personal)
    + GoogleBlock(googleCreds, googleEvents) + OutlookBlock(outlookCreds, outlookEvents)
  }

  /** `fetchAllCalendarEvents`: push each source that could be read, then sort by start. */
  method FetchAllCalendarEvents(appointments: Option<seq<Appointment>>,
                                personal: Option<seq<PersonalRecord>>,
                                googleCreds: Option<Credentials>,
                                googleEvents: Option<seq<GoogleCalendarEvent>>,
                                outlookCreds: Option<Credentials>,
                                outlookEvents: Option<seq<OutlookCalendarEvent>>,
                                startDate: int, endDate: int)
    returns (allEvents: seq<UnifiedEvent>)
    ensures allEvents == SortBy(Gathered(appointments, personal, googleCreds, googleEvents,
                                         outlookCreds, outlookEvents, startDate, endDate), StartOf)
  {
    allEvents := [];
    if appointments.Some? {
      var appointmentEvents := Map(Filter(appointments.value, InRange(startDate, endDate)),
                                   AppointmentToEvent);
      allEvents := allEvents + appointmentEvents;
    }
    assert allEvents == AppointmentBlock(appointments, startDate, endDate);
    if personal.Some? {
      allEvents := allEvents + Map(personal.value, PersonalToUnified);
    }
    assert allEvents == AppointmentBlock(appointments, startDate, endDate) + PersonalBlock(personal);
    if Connected(googleCreds) && googleEvents.Some? {
      allEvents := allEvents + Map(googleEvents.value, GoogleToUnified);
    }
    assert allEvents == AppointmentBlock(appointments, startDate, endDate) + PersonalBlock(personal)
                        + GoogleBlock(googleCreds, googleEvents);
    if Connected(outlookCreds) && outlookEvents.Some? {
      allEvents := allEvents + Map(outlookEvents.value, OutlookToUnified);
    }
    assert allEvents == Gathered(appointments, personal, googleCreds, googleEvents,
                                 outlookCreds, outlookEvents, startDate, endDate);
    allEvents := SortBy(allEvents, StartOf);
  }

  /** The merged list is ordered by start and holds every gathered event as often as it
      was pushed. */
  lemma MergedOrder(gathered: seq<UnifiedEvent>)
    ensures SortedBy(SortBy(gathered, StartOf), StartOf)
    ensures multiset(SortBy(gathered, StartOf)) == multiset(gathered)
  {
    SortBySpec(gathered, StartOf);
  }

  /** An event that claims to be an appointment is the conversion of a listed
      appointment in the range that is not cancelled. */
  function FromAppointments(appointments: seq<Appointment>, startDate: int, endDate: int)
    : UnifiedEvent -> bool
  {
    (e: UnifiedEvent) =>
      e.kind == AppointmentEvent ==>
        && e.appointment.Some? && e.appointment.value in appointments
        && startDate <= e.appointment.value.date <= endDate
        && e.appointment.value.status != Cancelled
        && e == AppointmentToEvent(e.appointment.value)
  }

  /** Every appointment event of the merge comes from a listed appointment in the
      range that is not cancelled. */
  lemma MergedAppointments(appointments: seq<Appointment>, personal: Option<seq<PersonalRecord>>,
                           googleCreds: Option<Credentials>,
                           googleEvents: Option<seq<GoogleCalendarEvent>>,
                           outlookCreds: Option<Credentials>,
                           outlookEvents: Option<seq<OutlookCalendarEvent>>,
                           startDate: int, endDate: int)
    ensures All(SortBy(Gathered(Some(appointments), personal, googleCreds, googleEvents,
                                outlookCreds, outlookEvents, startDate, endDate), StartOf),
                FromAppointments(appointments, startDate, endDate))
  {
    var p := FromAppointments(appointments, startDate, endDate);
    var kept := Filter(appointments, InRange(startDate, endDate));
    var a := AppointmentBlock(Some(appointments), startDate, endDate);
    FilterMembers(appointments, InRange(startDate, endDate));
    forall i | 0 <= i < |a| ensures p(a[i]) {
      assert kept[i] in kept;
    }
    var ps := PersonalBlock(personal);
    var g := GoogleBlock(googleCreds, googleEvents);
    var o := OutlookBlock(outlookCreds, outlookEvents);
    assert All(ps, p);
    assert All(g, p);
    assert All(o, p);
    AllAppend(a, ps, p);
    AllAppend(a + ps, g, p);
    AllAppend(a + ps + g, o, p);
    var gathered := a + ps + g + o;
    SortBySpec(gathered, StartOf);
    AllPermutation(gathered, SortBy(gathered, StartOf), p);
  }

  /** Every listed appointment in the range that is not cancelled is in the merge. */
  lemma MergedIncludes(appointments: seq<Appointment>, personal: Option<seq<PersonalRecord>>,
                       googleCreds: Option<Credentials>,
                       googleEvents: Option<seq<GoogleCalendarEvent>>,
                       outlookCreds: Option<Credentials>,
                       outlookEvents: Option<seq<OutlookCalendarEvent>>,
                       startDate: int, endDate: int, apt: Appointment)
    requires apt in appointments && InRange(startDate, endDate)(apt)
    ensures AppointmentToEvent(apt)
            in SortBy(Gathered(Some(appointments), personal, googleCreds, googleEvents,
                               outlookCreds, outlookEvents, startDate, endDate), StartOf)
  {
    var kept := Filter(appointments, InRange(startDate, endDate));
    var a := AppointmentBlock(Some(appointments), startDate, endDate);
    FilterMembers(appointments, InRange(startDate, endDate));
    var i :| 0 <= i < |kept| && kept[i] == apt;
    var x := AppointmentToEvent(apt);
    assert a[i] == x;
    var ps := PersonalBlock(personal);
    var g := GoogleBlock(googleCreds, googleEvents);
    var o := OutlookBlock(outlookCreds, outlookEvents);
    InPrefix(a, ps, x);
    InPrefix(a + ps, g, x);
    InPrefix(a + ps + g, o, x);
    var gathered := a + ps + g + o;
    SortBySpec(gathered, StartOf);
    InPermutation(gathered, SortBy(gathered, StartOf), x);
  }

  // ---------------------------------------------------------------------------
  // Update and delete routing
  // ---------------------------------------------------------------------------

  /** The event type the caller passes to an update or a deletion. */
  datatype EditedType = EditPersonal | EditGoogle | EditOutlook

  /** The remote call an update or a deletion makes. */
  datatype RemoteCall = PersonalCall(eventId: string)
                      | GoogleCall(accessToken: string, sourceEventId: string)
                      | OutlookCall(accessToken: string, sourceEventId: string)
                      | NoCall

  /** `updateCalendarEvent` and `deleteCalendarEvent` route the same way: a personal
      event by its id, a provider event by its id with the provider prefix's first
      occurrence removed, and nothing when the provider has no token. Only the token is
      checked, not the connection flag. */
  function RouteEdit(eventId: string, eventType: EditedType, googleCreds: Option<Credentials>,
                     outlookCreds: Option<Credentials>): (r: RemoteCall)
    ensures eventType == EditPersonal ==> r == PersonalCall(eventId)
    ensures eventType == EditGoogle ==>
      r == if googleCreds.Some? && googleCreds.value.accessToken != ""
           then GoogleCall(googleCreds.value.accessToken, ReplaceFirst(eventId, GooglePrefix, ""))
           else NoCall
    ensures eventType == EditOutlook ==>
      r == if outlookCreds.Some? && outlookCreds.value.accessToken != ""
           then OutlookCall(outlookCreds.value.accessToken, ReplaceFirst(eventId, OutlookPrefix, ""))
           else NoCall
  {
    match eventType
    case EditPersonal => PersonalCall(eventId)
    case EditGoogle =>
      if googleCreds.Some? && googleCreds.value.accessToken != ""
      then GoogleCall(googleCreds.value.accessToken, ReplaceFirst(eventId, GooglePrefix, ""))
      else NoCall
    case EditOutlook =>
      if outlookCreds.Some? && outlookCreds.value.accessToken != ""
      then OutlookCall(outlookCreds.value.accessToken, ReplaceFirst(eventId, OutlookPrefix, ""))
      else NoCall
  }

  /** Stripping the prefix undoes the converter: an edit of a merged provider event
      reaches that provider's event. */
  lemma RouteEditRoundTrip(g: GoogleCalendarEvent, o: OutlookCalendarEvent, creds: Credentials)
    requires creds.accessToken != ""
    ensures RouteEdit(GoogleToUnified(g).id, EditGoogle, Some(creds), None)
            == GoogleCall(creds.accessToken, g.id)
    ensures RouteEdit(OutlookToUnified(o).id, EditOutlook, None, Some(creds))
            == OutlookCall(creds.accessToken, o.id)
  {
    assert StartsWith(GooglePrefix + g.id, GooglePrefix);
    assert (GooglePrefix + g.id)[|GooglePrefix|..] == g.id;
    assert StartsWith(OutlookPrefix + o.id, OutlookPrefix);
    assert (OutlookPrefix + o.id)[|OutlookPrefix|..] == o.id;
  }

  // ---------------------------------------------------------------------------
  // Synchronisation status
  // ---------------------------------------------------------------------------

  datatype ProviderStatus = ProviderStatus(connected: bool, lastSync: Option<string>, eventCount: int)

  datatype SyncStatus = SyncStatus(google: ProviderStatus, outlook: ProviderStatus,
                                   appointmentCount: int, personalEventCount: int)

  /** One provider's block of `getCalendarSyncStatus`: disconnected with no sync and no
      events unless the credentials say connected. */
  function ProviderStatusOf(creds: Option<Credentials>): (r: ProviderStatus)
    ensures r.connected <==> creds.Some? && creds.value.connected
    ensures r.lastSync.Some? <==> r.connected && creds.value.lastSyncAt != ""
    ensures r.lastSync.Some? ==> r.lastSync.value == creds.value.lastSyncAt
    ensures r.eventCount == 0
  {
    if creds.Some? && creds.value.connected
    then ProviderStatus(true, if creds.value.lastSyncAt != "" then Some(creds.value.lastSyncAt) else None, 0)
    else ProviderStatus(false, None, 0)
  }

  /** `getCalendarSyncStatus`: counts are never filled in. */
  function CalendarSyncStatus(googleCreds: Option<Credentials>, outlookCreds: Option<Credentials>)
    : (r: SyncStatus)
    ensures r.google == ProviderStatusOf(googleCreds) && r.outlook == ProviderStatusOf(outlookCreds)
    ensures r.appointmentCount == 0 && r.personalEventCount == 0
    ensures googleCreds.None? && outlookCreds.None? ==>
      r.google == r.outlook == ProviderStatus(false, None, 0)
  {
    SyncStatus(ProviderStatusOf(googleCreds), ProviderStatusOf(outlookCreds), 0, 0)
  }
}
