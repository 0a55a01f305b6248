/** `DigitalClockModel`: a three-mode edit cycle, a light, a 24h/AM-PM flag,
    and transitions that report whether they notified the observers. */
module DigitalClockModel {
  import opened ClockState
  import ClockModel

  /** The constructor with its optional arguments; `now` is the current instant. */
  function New(now: TimeOfDay, isH24Format: bool, lightIsOn: bool): (c: Clock)
    ensures c.kind == Digital && c.editMode == Idle && TimeOf(c) == now
    ensures c.isH24Format == isH24Format && c.lightIsOn == lightIsOn
  {
    ClockModel.Init(Digital, now).(isH24Format := isH24Format, lightIsOn := lightIsOn)
  }

  /** The constructor with the optional arguments left out. */
  function NewDefault(now: TimeOfDay): (c: Clock)
    ensures c.kind == Digital && c.editMode == Idle && TimeOf(c) == now
    ensures c.isH24Format && !c.lightIsOn
  {
    New(now, true, false)
  }

  /** The successor `(editMode + 1) % (EditMode.minutes + 1)`. */
  function NextEditMode(m: EditMode): (r: EditMode)
    ensures m == Idle ==> r == Hours
    ensures m == Hours ==> r == Minutes
    ensures m == Minutes ==> r == Idle
  {
    OfOrdinal((Ordinal(m) + 1) % (Ordinal(Minutes) + 1))
  }

  function ToggleEditMode(c: Clock): (r: Step)
    ensures r.notified
    ensures r.state.editMode == NextEditMode(c.editMode) && r.state.editMode != c.editMode
    ensures r.state.editMode == Idle <==> c.editMode == Minutes
    ensures r.state == c.(editMode := r.state.editMode)
  {
    Step(c.(editMode := NextEditMode(c.editMode)), true)
  }

  /** `n` toggles advance the mode by `n` places around the three-mode cycle;
      in particular three toggles restore any mode. */
  lemma {:induction false} TogglesCycle(m: EditMode, n: nat)
    ensures Iterate(NextEditMode, m, n) == OfOrdinal((Ordinal(m) + n) % 3)
    decreases n
  {
    if n > 0 {
      var m' := NextEditMode(m);
      TogglesCycle(m', n - 1);
      assert Ordinal(m') == (Ordinal(m) + 1) % 3;
      assert (Ordinal(m') + (n - 1)) % 3 == (Ordinal(m) + n) % 3;
    }
  }

  lemma ThreeTogglesRestore(m: EditMode)
    ensures Iterate(NextEditMode, m, 3) == m
  {
    TogglesCycle(m, 3);
  }

  function ToggleLightState(c: Clock): (r: Step)
    ensures r.notified
    ensures r.state.lightIsOn != c.lightIsOn
    ensures r.state == c.(lightIsOn := r.state.lightIsOn)
  {
    Step(c.(lightIsOn := !c.lightIsOn), true)
  }

  /** Toggling the light twice gives back the original state, with a
      notification on each call. */
  lemma ToggleLightInvolution(c: Clock)
    ensures ToggleLightState(ToggleLightState(c).state).state == c
    ensures ToggleLightState(c).notified && ToggleLightState(ToggleLightState(c).state).notified
  {
  }

  /** Forces the light off; notifies only when it was on. */
  function ResetLightState(c: Clock): (r: Step)
    ensures !r.state.lightIsOn
    ensures r.notified <==> c.lightIsOn
    ensures r.state == c.(lightIsOn := false)
    ensures !c.lightIsOn ==> r.state == c
  {
    if !c.lightIsOn then Step(c, false)
    else Step(c.(lightIsOn := false), true)
  }

  /** A second reset in a row changes nothing and stays silent. */
  lemma ResetLightIdempotent(c: Clock)
    ensures ResetLightState(ResetLightState(c).state) == Step(ResetLightState(c).state, false)
  {
  }

  /** Increments the edited unit; idle is a silent no-op, any other mode
      notifies once. Seconds are never edited. */
  function IncreaseValue(c: Clock): (r: Step)
    ensures c.editMode == Idle ==> r == Step(c, false)
    ensures r.notified <==> c.editMode != Idle
    ensures r.state.seconds == c.seconds
    ensures r.state == c.(hours := r.state.hours, minutes := r.state.minutes)
    ensures r.state.hours == (if c.editMode == Hours then (c.hours + 1) % 24 else c.hours)
    ensures r.state.minutes == (if c.editMode == Minutes then (c.minutes + 1) % 60 else c.minutes)
    ensures Valid(c) ==> Valid(r.state)
  {
    if c.editMode == Idle then Step(c, false)
    else
      var c1 := if c.editMode == Hours then c.(hours := (c.hours + 1) % 24) else c;
      var c2 := if c1.editMode == Minutes then c1.(minutes := (c1.minutes + 1) % 60) else c1;
      Step(c2, true)
  }

  /** A unit changes exactly when it is the one being edited. */
  lemma IncreaseChangesOnlyEditedUnit(c: Clock)
    ensures IncreaseValue(c).state.hours != c.hours <==> c.editMode == Hours
    ensures IncreaseValue(c).state.minutes != c.minutes <==> c.editMode == Minutes
  {
  }

  /** `n` increases in a row. */
  function Increases(c: Clock, n: nat): Clock
    decreases n
  {
    if n == 0 then c else Increases(IncreaseValue(c).state, n - 1)
  }

  lemma {:induction false} IncreasesAdd(c: Clock, n: nat)
    requires Valid(c)
    ensures Valid(Increases(c, n))
    ensures Increases(c, n).editMode == c.editMode && Increases(c, n).seconds == c.seconds
    ensures Increases(c, n).hours == (if c.editMode == Hours then (c.hours + n) % 24 else c.hours)
    ensures Increases(c, n).minutes == (if c.editMode == Minutes then (c.minutes + n) % 60 else c.minutes)
    ensures Increases(c, n) == c.(hours := Increases(c, n).hours, minutes := Increases(c, n).minutes)
    decreases n
  {
    if n > 0 {
      var c' := IncreaseValue(c).state;
      IncreasesAdd(c', n - 1);
      assert ((c.hours + 1) % 24 + (n - 1)) % 24 == (c.hours + n) % 24;
      assert ((c.minutes + 1) % 60 + (n - 1)) % 60 == (c.minutes + n) % 60;
    }
  }

  /** The number of values the unit edited in mode `m` runs through. */
  function Period(m: EditMode): nat {
    if m == Hours then 24 else 60
  }

  lemma AddRangeMod(x: nat, n: nat)
    requires 0 < n && x < n
    ensures (x + n) % n == x
  {
  }

  /** Twenty-four increases in hours mode change nothing. */
  lemma HoursWrap(c: Clock)
    requires Valid(c) && c.editMode == Hours
    ensures Increases(c, 24) == c
  {
    var n := 24;
    var d := Increases(c, n);
    IncreasesAdd(c, n);
    AddRangeMod(c.hours, n);
    assert d == c.(hours := d.hours, minutes := d.minutes);
  }

  /** Sixty increases in minutes mode change nothing. */
  lemma MinutesWrap(c: Clock)
    requires Valid(c) && c.editMode == Minutes
    ensures Increases(c, 60) == c
  {
    var n := 60;
    var d := Increases(c, n);
    IncreasesAdd(c, n);
    AddRangeMod(c.minutes, n);
    assert d == c.(hours := d.hours, minutes := d.minutes);
  }

  /** Twenty-four increases in hours mode, or sixty in minutes mode, give back
      the clock they started from. */
  lemma IncreasesFullCycle(c: Clock)
    requires Valid(c) && c.editMode != Idle
    ensures Increases(c, Period(c.editMode)) == c
  {
    if c.editMode == Hours {
      HoursWrap(c);
    } else {
      MinutesWrap(c);
    }
  }

  function ToggleTimeFormat(c: Clock): (r: Step)
    ensures r.notified
    ensures r.state.isH24Format != c.isH24Format
    ensures r.state == c.(isH24Format := r.state.isH24Format)
  {
    Step(c.(isH24Format := !c.isH24Format), true)
  }

  /** Switching the format twice restores the clock; time and edit mode never move. */
  lemma ToggleTimeFormatInvolution(c: Clock)
    ensures ToggleTimeFormat(ToggleTimeFormat(c).state).state == c
    ensures TimeOf(ToggleTimeFormat(c).state) == TimeOf(c)
    ensures ToggleTimeFormat(c).state.editMode == c.editMode
  {
  }
}
