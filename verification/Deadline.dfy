/** get_abs_future_time of src/internal.h, with the time of day as a parameter. */
module Deadline {

  const MILLION := 1_000_000
  const BILLION := 1_000_000_000

  datatype TimeSpec = TimeSpec(sec: int, nsec: int)

  predicate Before(a: TimeSpec, b: TimeSpec) {
    a.sec < b.sec || (a.sec == b.sec && a.nsec < b.nsec)
  }

  /** tv_nsec before the carry. */
  function RawNsec(usec: nat, milli: nat): nat {
    usec * 1000 + milli % 1000 * MILLION
  }

  function AbsFutureTime(sec: int, usec: nat, milli: nat): TimeSpec {
    var nsec := RawNsec(usec, milli);
    TimeSpec(sec + milli / 1000 + nsec / BILLION, nsec % BILLION)
  }

  /** The deadline is normalised, loses nothing, and never leaves a signed 32-bit tv_nsec. */
  lemma DeadlineExact(sec: int, usec: nat, milli: nat)
    requires usec < 1_000_000
    ensures var d := AbsFutureTime(sec, usec, milli);
      && 0 <= d.nsec < 1_000_000_000
      && d.sec * 1_000_000_000 + d.nsec == sec * 1_000_000_000 + usec * 1_000 + milli * 1_000_000
    ensures RawNsec(usec, milli) <= 1_998_999_000
  {}

  /** A longer wait is a later deadline, and the other way round. */
  lemma DeadlineMonotone(sec: int, usec: nat, milli: nat, milli': nat)
    requires usec < 1_000_000
    ensures milli < milli' <==> Before(AbsFutureTime(sec, usec, milli), AbsFutureTime(sec, usec, milli'))
  {}
}
