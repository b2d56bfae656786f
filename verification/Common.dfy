/** Values shared by every component of the virtual ECU. */
module Common {

  newtype byte = b: int | 0 <= b < 256

  type Bytes = seq<byte>

  /** Seconds on the monotonic clock. */
  type Time = real

  datatype Option<+T> = None | Some(value: T)

  /** What a sub-handler returns: a value, or the negative response code to send. */
  datatype Outcome<+T> = Accepted(value: T) | Rejected(nrc: nat)

  /**
   * The monotonic-clock readings of one request, in the order in which the
   * handler takes them.  A handler that takes fewer readings ignores the rest.
   */
  datatype Clock = Clock(t0: Time, t1: Time, t2: Time, t3: Time) {
    predicate Ordered() {
      t0 <= t1 <= t2 <= t3
    }
  }

  /** A request that sees the same reading throughout. */
  function Instant(t: Time): Clock {
    Clock(t, t, t, t)
  }

  /**
   * The access levels the ECU's gate knows by name.  `Custom` is for every other
   * name: a policy that uses one of the five is modelled with its own constructor.
   */
  datatype AccessLevel = READ_ONLY | CALIBRATION | ECU_PROGRAMMING | ENGINEERING | FULL_ACCESS | Custom(name: string)

  function LevelName(level: AccessLevel): string {
    match level
    case READ_ONLY => "READ_ONLY"
    case CALIBRATION => "CALIBRATION"
    case ECU_PROGRAMMING => "ECU_PROGRAMMING"
    case ENGINEERING => "ENGINEERING"
    case FULL_ACCESS => "FULL_ACCESS"
    case Custom(name) => name
  }
}
