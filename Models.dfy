/** Option, for the lookups of the identified collections below. */
module Wrappers {
  datatype Option<+T> = None | Some(value: T)
}

/**
 * The domain values the app reducer moves around: a standup and the meetings
 * recorded for it. Both are value types; a standup's identity is its id.
 */
module Models {
  /** A UUID, as handed out by the injected `uuid` dependency. */
  type Uuid = nat

  /** A point in time, as handed out by the injected `date.now` dependency. */
  type Date = int

  /** A recorded meeting: immutable once created. */
  datatype Meeting = Meeting(id: Uuid, date: Date, transcript: string)

  /**
   * A standup. Its remaining fields (attendees, duration, theme) are carried
   * along unchanged by the app reducer and are represented here by `title`.
   * The most recent meeting is at index 0.
   */
  datatype Standup = Standup(id: Uuid, title: string, meetings: seq<Meeting>)
}
