/** The state record shared by the three clock variants, and the result of
    a transition that may notify the clock's observers. */
module ClockState {

  /** Which time unit the increase action edits. The source enum gives the
      constants idle = 0, hours = 1, minutes = 2. */
  datatype EditMode = Idle | Hours | Minutes

  /** The numeric value of an edit mode in the source enum. */
  function Ordinal(m: EditMode): (n: nat)
    ensures n < 3
    ensures n == 0 <==> m == Idle
  {
    match m
    case Idle => 0
    case Hours => 1
    case Minutes => 2
  }

  /** The edit mode whose numeric value is `n`; inverse of `Ordinal`. */
  function OfOrdinal(n: nat): (m: EditMode)
    requires n < 3
    ensures Ordinal(m) == n
  {
    if n == 0 then Idle else if n == 1 then Hours else Minutes
  }

  /** `n` applications of an edit-mode successor function, starting at `m`. */
  function Iterate(next: EditMode -> EditMode, m: EditMode, n: nat): EditMode
    decreases n
  {
    if n == 0 then m else Iterate(next, next(m), n - 1)
  }

  datatype ClockKind = Digital | Analog

  /** A wall-clock reading: the `Date` snapshot a clock is built from. */
  datatype TimeOfDay = TimeOfDay(hours: nat, minutes: nat, seconds: nat)

  predicate ValidTime(t: TimeOfDay) {
    t.hours < 24 && t.minutes < 60 && t.seconds < 60
  }

  /** One clock. `lightIsOn` and `isH24Format` are only read for digital clocks. */
  datatype Clock = Clock(
    kind: ClockKind,
    hours: nat,
    minutes: nat,
    seconds: nat,
    editMode: EditMode,
    lightIsOn: bool,
    isH24Format: bool)

  function TimeOf(c: Clock): TimeOfDay {
    TimeOfDay(c.hours, c.minutes, c.seconds)
  }

  /** Every unit lies within its modulus. */
  predicate Valid(c: Clock) {
    ValidTime(TimeOf(c))
  }

  /** The state after a transition, and whether it called `notifyObservers`. */
  datatype Step = Step(state: Clock, notified: bool)
}
