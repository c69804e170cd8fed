/**
 * The stored entities the core reads: users and glucose readings. Instants
 * are Unix nanoseconds; optional columns are `Option`s.
 */
module Models {
  import opened Wrappers

  /** A point in time, as nanoseconds since the Unix epoch (UTC). */
  type Instant = int

  datatype User = User(
    id: nat,
    telegramId: int,
    username: string,
    firstName: string,
    lastName: string,
    languageCode: string,
    isActive: bool,
    diabetesType: Option<int>,
    targetGlucose: Option<real>)

  datatype GlucoseRecord = GlucoseRecord(
    id: nat,
    userId: nat,
    value: real,
    measuredAt: Instant,
    notes: string)
}
