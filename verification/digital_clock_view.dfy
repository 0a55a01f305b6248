/** The pure display logic of `DigitalClockView`: the hour shown in each
    format, two-digit padding, the AM/PM indicator and the element that
    blinks in each edit mode. Nothing here touches the page. */
module DigitalClockView {
  import opened Wrappers
  import opened ClockState
  import DigitalClockModel

  /** The hour `renderTime` shows: in AM/PM format, hours past noon are
      taken modulo 12; hours 0 to 12 are shown as they are. */
  function DisplayHours(hours: nat, isH24Format: bool): (r: nat)
    ensures isH24Format ==> r == hours
    ensures !isH24Format && hours <= 12 ==> r == hours
    ensures !isH24Format && 12 < hours < 24 ==> r == hours - 12
    ensures hours < 24 ==> (!isH24Format ==> r <= 12) && r < 24
    ensures r % 12 == hours % 12
  {
    if !isH24Format && hours > 12 then hours % 12 else hours
  }

  predicate IsDigit(c: char) {
    '0' <= c <= '9'
  }

  function DigitChar(d: nat): (c: char)
    requires d < 10
    ensures IsDigit(c)
  {
    "0123456789"[d]
  }

  function DigitValue(c: char): (d: nat)
    requires IsDigit(c)
    ensures d < 10 && DigitChar(d) == c
  {
    (c as int - '0' as int) as nat
  }

  /** `Number.prototype.toString()` for a non-negative integer, in the plain
      digit form JavaScript uses below 1e21. */
  function DecimalString(n: nat): (s: string)
    ensures 1 <= |s| && forall k :: 0 <= k < |s| ==> IsDigit(s[k])
    ensures |s| == 1 <==> n < 10
    ensures |s| == 2 <==> 10 <= n < 100
    ensures |s| > 1 ==> s[0] != '0'
  {
    if n < 10 then [DigitChar(n)] else DecimalString(n / 10) + [DigitChar(n % 10)]
  }

  /** The value of a string of decimal digits; leading zeros are allowed. */
  function ParseDecimal(s: string): nat
    requires forall k :: 0 <= k < |s| ==> IsDigit(s[k])
  {
    if |s| == 0 then 0 else ParseDecimal(s[..|s| - 1]) * 10 + DigitValue(s[|s| - 1])
  }

  lemma {:induction false} ParseDecimalString(n: nat)
    ensures ParseDecimal(DecimalString(n)) == n
  {
    if n >= 10 {
      var s := DecimalString(n);
      assert s[..|s| - 1] == DecimalString(n / 10);
      ParseDecimalString(n / 10);
    }
  }

  /** `String.prototype.padStart(width, fill)` with a one-character fill. */
  function PadStart(s: string, width: nat, fill: char): (r: string)
    ensures |r| == if |s| >= width then |s| else width
    ensures r[|r| - |s|..] == s
    ensures forall k :: 0 <= k < |r| - |s| ==> r[k] == fill
  {
    if |s| >= width then s else seq(width - |s|, _ => fill) + s
  }

  /** `padUnit`: the decimal form padded to two characters with '0'. */
  function PadUnit(n: nat): (s: string)
    ensures forall k :: 0 <= k < |s| ==> IsDigit(s[k])
    ensures n < 100 ==> |s| == 2
    ensures n < 100 ==> (s[0] == '0' <==> n < 10)
    ensures ParseDecimal(s) == n
  {
    var d := DecimalString(n);
    var s := PadStart(d, 2, '0');
    ParseDecimalString(n);
    assert n < 10 ==> s == ['0', d[0]] && s[..1] == ['0'];
    assert n >= 10 ==> s == d;
    s
  }

  /** `getTimeFormatIndicator`. */
  function TimeFormatIndicator(isH24Format: bool, hours: nat): (r: string)
    ensures isH24Format <==> r == ""
    ensures !isH24Format ==> (r == "AM" <==> hours < 12) && (r == "PM" <==> hours >= 12)
  {
    if isH24Format then "" else if hours < 12 then "AM" else "PM"
  }

  /** The display elements that can blink. */
  datatype Element = HoursDisplay | MinutesDisplay

  /** `editModeElementMap`: idle maps to no element. */
  function EditModeElement(m: EditMode): (r: Option<Element>)
    ensures r.None? <==> m == Idle
    ensures r == Some(HoursDisplay) <==> m == Hours
    ensures r == Some(MinutesDisplay) <==> m == Minutes
  {
    match m
    case Idle => None
    case Hours => Some(HoursDisplay)
    case Minutes => Some(MinutesDisplay)
  }

  /** `renderBlinker`: both displays stop blinking, then the element mapped
      from a non-idle edit mode starts. Returns the blinking elements. */
  function BlinkingElements(m: EditMode): (r: set<Element>)
    ensures m == Idle ==> r == {}
    ensures m == Hours ==> r == {HoursDisplay}
    ensures m == Minutes ==> r == {MinutesDisplay}
  {
    match EditModeElement(m)
    case None => {}
    case Some(e) => {e}
  }

  /** On a digital clock, the element that blinks is exactly the
      display of the unit `increaseValue` changes. */
  lemma BlinkMarksEditedUnit(c: Clock)
    ensures HoursDisplay in BlinkingElements(c.editMode) <==> DigitalClockModel.IncreaseValue(c).state.hours != c.hours
    ensures MinutesDisplay in BlinkingElements(c.editMode) <==> DigitalClockModel.IncreaseValue(c).state.minutes != c.minutes
  {
    DigitalClockModel.IncreaseChangesOnlyEditedUnit(c);
  }

  /** In AM/PM format, the shown hour and the indicator together determine
      the model hour: no two hours of the day look the same. */
  lemma AmPmDisplayDeterminesHour(h1: nat, h2: nat)
    requires h1 < 24 && h2 < 24
    requires DisplayHours(h1, false) == DisplayHours(h2, false)
    requires TimeFormatIndicator(false, h1) == TimeFormatIndicator(false, h2)
    ensures h1 == h2
  {
  }
}
