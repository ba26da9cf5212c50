/** The records and the status enumeration shared by the check-in page. */
module Types {

  /** JavaScript's `null`/absent value where the page stores an optional string. */
  datatype Option<+T> = None | Some(value: T)

  /** One check-in: the submitted email, a locale-formatted timestamp and a time-derived id.
      The timestamp and the id come from the clock and are opaque inputs here. */
  datatype CheckInData = CheckInData(email: string, timestamp: string, id: string)

  /** The four statuses that decide which panel the page shows. */
  datatype AppStatus = Idle | Submitting | Success | Error
}
