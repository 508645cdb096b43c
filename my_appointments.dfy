/**
 * The appointments page: the user's appointments, filtered by status and by
 * consultation type, then sorted by date; and the two tests that enable joining the
 * video call and cancelling.
 *
 * `now` is the current instant in milliseconds. Calendar days are local days: `offsetMs`
 * is the local time zone's offset from UTC, taken as fixed.
 */
module MyAppointments {
  import opened Wrappers
  import opened Lists
  import opened Appointments

  datatype StatusFilter = All | Upcoming | Past | CancelledOnly

  const DayMs := 24 * 60 * 60 * 1000
  const JoinEarlyMs := 5 * 60 * 1000
  const JoinLateMs := 60 * 60 * 1000
  const CancelNoticeMs := 24 * 60 * 60 * 1000

  /** A lawyer sees the appointments they hold; anyone else those they booked. */
  function Mine(userId: string, role: UserRole): Appointment -> bool {
    (apt: Appointment) => if role == Lawyer then apt.lawyerId == userId else apt.clientId == userId
  }

  /** The local calendar day of an instant. */
  function LocalDay(instant: int, offsetMs: int): int {
    (instant + offsetMs) / DayMs
  }

  /** date-fns' `isToday`. */
  predicate IsToday(date: int, now: int, offsetMs: int) {
    LocalDay(date, offsetMs) == LocalDay(now, offsetMs)
  }

  /** The status filter: cancelled ones alone, the others split into those from today
      on and those before today, or everything. */
  function StatusMatches(filter: StatusFilter, now: int, offsetMs: int): Appointment -> bool {
    (apt: Appointment) =>
      match filter
      case CancelledOnly => apt.status == Cancelled
      case Upcoming => apt.status != Cancelled && (apt.date > now || IsToday(apt.date, now, offsetMs))
      case Past => apt.status != Cancelled && apt.date < now && !IsToday(apt.date, now, offsetMs)
      case All => true
  }

  /** The type filter; `None` is 'all'. */
  function TypeMatches(typeFilter: Option<AppointmentType>): Appointment -> bool {
    (apt: Appointment) => typeFilter.None? || apt.kind == typeFilter.value
  }

  function FilteredByType(xs: seq<Appointment>, typeFilter: Option<AppointmentType>): seq<Appointment> {
    if typeFilter.None? then xs else Filter(xs, TypeMatches(typeFilter))
  }

  function DateKey(apt: Appointment): int {
    apt.date
  }

  function NewestFirstKey(apt: Appointment): int {
    -apt.date
  }

  /** Past and all are listed newest first, the others oldest first. */
  function SortKey(filter: StatusFilter): Appointment -> int {
    if filter == Past || filter == All then NewestFirstKey else DateKey
  }

  /** `sortedAppointments`, the list the page renders. */
  function SortedAppointments(appointments: seq<Appointment>, userId: string, role: UserRole,
                              filter: StatusFilter, typeFilter: Option<AppointmentType>,
                              now: int, offsetMs: int): seq<Appointment>
  {
    var mine := Filter(appointments, Mine(userId, role));
    var byStatus := Filter(mine, StatusMatches(filter, now, offsetMs));
    SortBy(FilteredByType(byStatus, typeFilter), SortKey(filter))
  }

  /** A rendered appointment is exactly one of the user's that passes both filters. */
  lemma SortedAppointmentsMembers(appointments: seq<Appointment>, userId: string, role: UserRole,
                                  filter: StatusFilter, typeFilter: Option<AppointmentType>,
                                  now: int, offsetMs: int)
    ensures forall apt ::
      (apt in SortedAppointments(appointments, userId, role, filter, typeFilter, now, offsetMs)
       <==> apt in appointments && Mine(userId, role)(apt) && StatusMatches(filter, now, offsetMs)(apt)
            && TypeMatches(typeFilter)(apt))
  {
    var mine := Filter(appointments, Mine(userId, role));
    var byStatus := Filter(mine, StatusMatches(filter, now, offsetMs));
    var byType := FilteredByType(byStatus, typeFilter);
    FilterMembers(appointments, Mine(userId, role));
    FilterMembers(mine, StatusMatches(filter, now, offsetMs));
    FilteredByTypeMembers(byStatus, typeFilter);
    var r := SortBy(byType, SortKey(filter));
    SortBySpec(byType, SortKey(filter));
    forall apt ensures apt in r <==> apt in byType {
      assert apt in r <==> apt in multiset(r);
      assert apt in byType <==> apt in multiset(byType);
    }
  }

  lemma FilteredByTypeMembers(xs: seq<Appointment>, typeFilter: Option<AppointmentType>)
    ensures forall apt :: apt in FilteredByType(xs, typeFilter) <==> apt in xs && TypeMatches(typeFilter)(apt)
  {
    if typeFilter.Some? {
      FilterMembers(xs, TypeMatches(typeFilter));
    }
  }

  /** Past and all come newest first, upcoming and cancelled oldest first. */
  lemma SortedAppointmentsOrder(appointments: seq<Appointment>, userId: string, role: UserRole,
                                filter: StatusFilter, typeFilter: Option<AppointmentType>,
                                now: int, offsetMs: int)
    ensures var r := SortedAppointments(appointments, userId, role, filter, typeFilter, now, offsetMs);
      forall i, j :: 0 <= i < j < |r| ==>
        if filter == Past || filter == All then r[i].date >= r[j].date else r[i].date <= r[j].date
  {
    var mine := Filter(appointments, Mine(userId, role));
    var byStatus := Filter(mine, StatusMatches(filter, now, offsetMs));
    var byType := FilteredByType(byStatus, typeFilter);
    SortBySpec(byType, SortKey(filter));
    var r := SortBy(byType, SortKey(filter));
    forall i, j | 0 <= i < j < |r|
      ensures if filter == Past || filter == All then r[i].date >= r[j].date else r[i].date <= r[j].date
    {
      assert SortKey(filter)(r[i]) <= SortKey(filter)(r[j]);
    }
  }

  /** Every appointment that is not cancelled is either upcoming or past, never both,
      and the cancelled filter takes exactly the others. */
  lemma StatusFiltersPartition(apt: Appointment, now: int, offsetMs: int)
    ensures StatusMatches(CancelledOnly, now, offsetMs)(apt) <==> apt.status == Cancelled
    ensures apt.status != Cancelled ==>
      (StatusMatches(Upcoming, now, offsetMs)(apt) <==> !StatusMatches(Past, now, offsetMs)(apt))
    ensures apt.status == Cancelled ==>
      !StatusMatches(Upcoming, now, offsetMs)(apt) && !StatusMatches(Past, now, offsetMs)(apt)
  {
  }

  /** `canJoinVideo`: a video consultation that is not cancelled, from five minutes
      before its start to an hour after. */
  predicate CanJoinVideo(apt: Appointment, now: int) {
    apt.kind == Video && apt.status != Cancelled
    && apt.date - JoinEarlyMs <= now && now <= apt.date + JoinLateMs
  }

  /** `canCancelAppointment`: at least twenty-four hours remain. */
  predicate CanCancel(apt: Appointment, now: int) {
    apt.date - now >= CancelNoticeMs
  }

  /** The two buttons never show together, and an appointment that can still be
      cancelled is upcoming unless it is already cancelled. */
  lemma JoinAndCancelExclusive(apt: Appointment, now: int, offsetMs: int)
    ensures CanJoinVideo(apt, now) ==> !CanCancel(apt, now)
    ensures CanCancel(apt, now) && apt.status != Cancelled ==> StatusMatches(Upcoming, now, offsetMs)(apt)
    ensures CanJoinVideo(apt, now) ==> StatusMatches(Upcoming, now, offsetMs)(apt)
                                       || StatusMatches(Past, now, offsetMs)(apt)
  {
  }
}
