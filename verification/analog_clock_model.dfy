/** `AnalogClockModel`: an edit mode that only alternates between idle and
    minutes, and a heartbeat tick that is ignored while the clock is edited.
    The one-second advance itself (`incrementTimeByOneSecond`) is not part of
    this model; it is passed in as `advance`. */
module AnalogClockModel {
  import opened Wrappers
  import opened ClockState
  import ClockModel

  function New(now: TimeOfDay): (c: Clock)
    ensures c.kind == Analog && c.editMode == Idle && TimeOf(c) == now
  {
    ClockModel.Init(Analog, now)
  }

  /** The heartbeat tick: suppressed (no change, no notification) unless idle. */
  function Tick(c: Clock, advance: Clock -> Clock): (r: Step)
    ensures c.editMode != Idle ==> r == Step(c, false)
    ensures c.editMode == Idle ==> r == Step(advance(c), true)
    ensures r.notified <==> c.editMode == Idle
  {
    if c.editMode != Idle then Step(c, false)
    else Step(advance(c), true)
  }

  /** `n` heartbeat ticks in a row. */
  function Ticks(c: Clock, advance: Clock -> Clock, n: nat): Clock
    decreases n
  {
    if n == 0 then c else Ticks(Tick(c, advance).state, advance, n - 1)
  }

  /** Any number of ticks leaves a clock that is being edited untouched. */
  lemma {:induction false} TicksSuppressedWhileEditing(c: Clock, advance: Clock -> Clock, n: nat)
    requires c.editMode != Idle
    ensures Ticks(c, advance, n) == c
    decreases n
  {
    if n > 0 {
      TicksSuppressedWhileEditing(c, advance, n - 1);
    }
  }

  /** The successor `editMode === idle ? minutes : idle`. */
  function NextEditMode(m: EditMode): (r: EditMode)
    ensures r != Hours
    ensures r == Idle <==> m != Idle
  {
    if m == Idle then Minutes else Idle
  }

  function ToggleEditMode(c: Clock): (r: Step)
    ensures r.notified
    ensures r.state.editMode == NextEditMode(c.editMode) && r.state.editMode != c.editMode
    ensures r.state == c.(editMode := r.state.editMode)
  {
    Step(c.(editMode := NextEditMode(c.editMode)), true)
  }

  /** From idle, toggles alternate idle and minutes; hours is never reached. */
  lemma {:induction false} TogglesFromIdle(n: nat)
    ensures Iterate(NextEditMode, Idle, n) == (if n % 2 == 0 then Idle else Minutes)
    ensures Iterate(NextEditMode, Idle, n) != Hours
    decreases n
  {
    if n >= 2 {
      TogglesFromIdle(n - 2);
      assert Iterate(NextEditMode, Idle, n) == Iterate(NextEditMode, Idle, n - 2);
    }
  }

  /** Leaving minutes mode lets the next tick advance the clock again. */
  lemma TickResumesAfterEditing(c: Clock, advance: Clock -> Clock)
    requires c.editMode == Minutes
    ensures Tick(c, advance) == Step(c, false)
    ensures Tick(ToggleEditMode(c).state, advance) == Step(advance(c.(editMode := Idle)), true)
  {
  }

  /** Unimplemented in the source: always throws. */
  function IncrementTimeByMinutes(c: Clock, minutes: int): (r: Result<Clock>)
    ensures r.Failure? && r.error == "To implement"
  {
    Failure("To implement")
  }
}
