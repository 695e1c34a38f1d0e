/** Small vocabulary shared by every component of the model. */
module Primitives {

  datatype Option<+T> = None | Some(value: T)

  /** What a guarded operation reports: its value, or the refusal the source throws. */
  datatype Outcome<+T, +E> = Done(value: T) | Denied(why: E)

  /** JavaScript's largest safe integer, 2^53 - 1. */
  const MAX_SAFE: int := 0x1F_FFFF_FFFF_FFFF

  predicate SafeInteger(n: int) {
    -MAX_SAFE <= n <= MAX_SAFE
  }

  predicate PositiveSafe(n: int) {
    SafeInteger(n) && n > 0
  }

  /** The identifier check of the spend policy: nonempty, at most 256 units, no NUL. */
  predicate Bounded(text: string) {
    0 < |text| <= 256 && '\0' !in text
  }

  /** A timestamp as stored: its text, and what parsing that text yields. */
  datatype Stamp = Stamp(text: string, millis: Option<int>) {
    /** The stamp is a readable instant strictly after `now`. */
    predicate After(now: int) {
      millis.Some? && millis.value > now
    }

    /** The stamp is a readable instant at or before `now`; an unreadable one is neither. */
    predicate Passed(now: int) {
      millis.Some? && millis.value <= now
    }
  }
}
