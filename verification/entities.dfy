/** The records the client receives from the backend and sends back. */
module Entities {
  import opened Calendar

  /** A profile's `dateOfBirth` field after the client has looked at it:
      - `Absent`: a falsy value (`undefined` or `""`); `new Date` of it is an
        invalid date;
      - `Known(date)`: a string or timestamp that parses to a date;
      - `Unparseable(raw)`: a truthy string that does not parse, on which
        `toISOString` throws. */
  datatype BirthDate = Absent | Known(date: Date) | Unparseable(raw: string)

  /** The user profile: the fields the dashboard reads or edits, and the rest
      of the object, which is carried along unchanged. */
  datatype Profile = Profile(
    name: string,
    email: string,
    dateOfBirth: BirthDate,
    otherFields: map<string, string>)

  /** A posting's `stipend`: a string, a number, or missing altogether. */
  datatype Stipend = StipendText(text: string) | StipendAmount(amount: int) | StipendMissing

  /** An opportunity as the listing receives it; read-only on the client. */
  datatype Opportunity = Opportunity(
    id: string,
    profileName: string,
    companyName: string,
    stipend: Stipend,
    location: string,
    duration: string,
    startDate: string)
}
