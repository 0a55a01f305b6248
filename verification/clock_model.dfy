/** The base clock of `ClockModel`. It is not observable, so its transitions
    return the new state only. Its edit-mode cycle is `(mode + 1) % 2`. */
module ClockModel {
  import opened ClockState

  /** The constructor: the time read off the current instant, which is passed
      in as `now`, and the edit mode initialised to idle. The base class holds
      no light or format; those fields take the digital defaults. */
  function Init(kind: ClockKind, now: TimeOfDay): (c: Clock)
    ensures c.editMode == Idle
    ensures c.kind == kind && TimeOf(c) == now
    ensures ValidTime(now) ==> Valid(c)
  {
    Clock(kind, now.hours, now.minutes, now.seconds, Idle, false, true)
  }

  /** The successor `(editMode + 1) % EditMode.minutes` of the base class. */
  function NextEditMode(m: EditMode): (r: EditMode)
    ensures m == Idle ==> r == Hours
    ensures m == Hours ==> r == Idle
    ensures m == Minutes ==> r == Hours
    ensures r != Minutes
  {
    OfOrdinal((Ordinal(m) + 1) % Ordinal(Minutes))
  }

  function ToggleEditMode(c: Clock): (r: Clock)
    ensures r.editMode == NextEditMode(c.editMode)
    ensures r.editMode != c.editMode
    ensures TimeOf(r) == TimeOf(c) && r.kind == c.kind
  {
    c.(editMode := NextEditMode(c.editMode))
  }

  /** From idle, an even number of toggles is idle and an odd number is
      hours, so the minutes mode is never reached. */
  lemma {:induction false} TogglesFromIdle(n: nat)
    ensures Iterate(NextEditMode, Idle, n) == (if n % 2 == 0 then Idle else Hours)
    ensures Iterate(NextEditMode, Idle, n) != Minutes
  {
    if n >= 2 {
      TogglesFromIdle(n - 2);
      assert Iterate(NextEditMode, Idle, n) == Iterate(NextEditMode, Idle, n - 2);
    }
  }

  /** Increments the edited unit modulo its range; idle changes nothing. */
  function IncreaseValue(c: Clock): (r: Clock)
    ensures c.editMode == Idle ==> r == c
    ensures r.seconds == c.seconds && r.editMode == c.editMode && r.kind == c.kind
    ensures r.hours == (if c.editMode == Hours then (c.hours + 1) % 24 else c.hours)
    ensures r.minutes == (if c.editMode == Minutes then (c.minutes + 1) % 60 else c.minutes)
    ensures Valid(c) ==> Valid(r)
    ensures Valid(c) ==> (r.hours != c.hours <==> c.editMode == Hours)
    ensures Valid(c) ==> (r.minutes != c.minutes <==> c.editMode == Minutes)
  {
    var c1 := if c.editMode == Hours then c.(hours := (c.hours + 1) % 24) else c;
    if c1.editMode == Minutes then c1.(minutes := (c1.minutes + 1) % 60) else c1
  }

  /** `getTime` of the base class renders nothing. */
  function GetTime(c: Clock): (s: string)
    ensures |s| == 0
  {
    ""
  }
}
