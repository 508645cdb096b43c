/**
 * The shared types of the application: user roles, legal specialties, map
 * coordinates and the appointment record used by the document service, the calendar
 * merge and the appointments page.
 */
module Appointments {
  import opened Wrappers

  datatype UserRole = Client | Lawyer | Admin

  datatype LegalSpecialty =
    | Criminal | Family | Corporate | RealEstate | Labor
    | IntellectualProperty | Immigration | Tax | GeneralPractice

  /** A point on the map, in ten-thousandths of a degree (the tables give four decimals). */
  datatype Coordinates = Coordinates(lat: int, lng: int)

  datatype AppointmentStatus = Confirmed | Pending | Cancelled | Completed

  datatype AppointmentType = Video | InPerson | Phone

  /** An appointment. `date` is the instant its ISO string denotes, in milliseconds;
      `clientName` is "" and `duration` (minutes) is 0 when absent. */
  datatype Appointment = Appointment(
    id: string,
    lawyerId: string,
    clientId: string,
    clientName: string,
    date: int,
    status: AppointmentStatus,
    notes: Option<string>,
    kind: AppointmentType,
    duration: int)
}
