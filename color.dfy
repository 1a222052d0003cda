/**
 * The colour engine (internal/output/color.go).
 *
 * The Go package keeps one process-wide switch, `colorsEnabled`, decided at
 * start-up from the environment and the kind of standard output, and changed
 * afterwards only by EnableColors / DisableColors. Here the switch is the
 * field of a ColorSwitch object; every styling function is pure and takes
 * the switch's value as its first argument, which is how each call site
 * reads the global.
 */
module Color {
  import opened Common

  // ANSI escape sequences
  const Reset: string := "\U{1B}[0m"
  const RedCode: string := "\U{1B}[31m"
  const GreenCode: string := "\U{1B}[32m"
  const YellowCode: string := "\U{1B}[33m"
  const BlueCode: string := "\U{1B}[34m"
  const CyanCode: string := "\U{1B}[36m"
  const GrayCode: string := "\U{1B}[90m"
  const BoldRedCode: string := "\U{1B}[1;31m"
  const BoldGreenCode: string := "\U{1B}[1;32m"
  const BoldYellowCode: string := "\U{1B}[1;33m"
  const BoldBlueCode: string := "\U{1B}[1;34m"

  // The symbols of the semantic helpers
  const CheckMark: string := "\U{2713}"
  const CrossMark: string := "\U{2717}"
  const WarningSign: string := "\U{26A0}"
  const InfoSign: string := "\U{2139}"

  /** The process-wide colour switch. */
  class ColorSwitch {
    var enabled: bool

    /**
     * Start-up decision: the switch starts on, goes off when NO_COLOR is set
     * to anything non-empty, and goes off when standard output is not a
     * character device. Reading the environment and stat-ing stdout are
     * inputs here.
     */
    constructor Init(noColorEnv: string, stdoutIsCharDevice: bool)
      ensures enabled <==> noColorEnv == "" && stdoutIsCharDevice
    {
      enabled := true;
      if noColorEnv != "" {
        enabled := false;
      }
      if !stdoutIsCharDevice {
        enabled := false;
      }
    }

    method DisableColors()
      modifies this
      ensures !enabled
    {
      enabled := false;
    }

    method EnableColors()
      modifies this
      ensures enabled
    {
      enabled := true;
    }

    /** Reports the last value the switch was given. */
    method ColorsEnabled() returns (on: bool)
      ensures on == enabled
    {
      on := enabled;
    }
  }

  // ---------------------------------------------------------------------
  // Colorize and its inverse
  // ---------------------------------------------------------------------

  /** Wraps `text` in `color` and the reset code, unless colours are off or no colour is given. */
  function Colorize(enabled: bool, text: string, color: string): (r: string)
    ensures !enabled || color == "" ==> r == text
    ensures enabled && color != "" ==>
              HasPrefix(r, color) && HasSuffix(r, Reset) && |r| == |color| + |text| + |Reset| &&
              r[|color|..|r| - |Reset|] == text
  {
    if !enabled || color == "" then text else color + text + Reset
  }

  /** Removes one `color` prefix and one reset suffix, when both are there. */
  function Uncolor(s: string, color: string): string {
    if color != "" && HasPrefix(s, color) && |s| >= |color| + |Reset| && HasSuffix(s, Reset)
    then s[|color|..|s| - |Reset|]
    else s
  }

  /** Text that already carries `color` and the reset code around it. */
  predicate LooksColored(text: string, color: string) {
    color != "" && HasPrefix(text, color) && |text| >= |color| + |Reset| && HasSuffix(text, Reset)
  }

  /**
   * Stripping the colour that Colorize put on gives back the text; with
   * colours off this needs the text not to look coloured already.
   */
  lemma UncolorColorize(enabled: bool, text: string, color: string)
    requires !enabled ==> !LooksColored(text, color)
    ensures Uncolor(Colorize(enabled, text, color), color) == text
  {
    if enabled && color != "" {
      var r := Colorize(enabled, text, color);
      assert r == color + text + Reset;
      assert r[..|color|] == color;
      assert r[|r| - |Reset|..] == Reset;
    }
  }

  /** With colours off, every style is the identity. */
  lemma ColorGating(text: string, color: string)
    ensures Colorize(false, text, color) == text
  {
  }

  // ---------------------------------------------------------------------
  // Named tones and the semantic helpers
  // ---------------------------------------------------------------------

  datatype Tone = Plain | Red | Green | Yellow | Blue | Cyan | Gray
                | BoldRed | BoldGreen | BoldYellow | BoldBlue

  function ToneCode(t: Tone): (code: string)
    ensures t == Plain <==> code == ""
  {
    match t
    case Plain => ""
    case Red => RedCode
    case Green => GreenCode
    case Yellow => YellowCode
    case Blue => BlueCode
    case Cyan => CyanCode
    case Gray => GrayCode
    case BoldRed => BoldRedCode
    case BoldGreen => BoldGreenCode
    case BoldYellow => BoldYellowCode
    case BoldBlue => BoldBlueCode
  }

  /** Red(text), Green(text), ...: Colorize with the tone's code. */
  function Paint(enabled: bool, text: string, t: Tone): string {
    Colorize(enabled, text, ToneCode(t))
  }

  /** Symbol, one space, then the text untouched. */
  function Decorated(enabled: bool, symbol: string, t: Tone, text: string): (r: string)
    ensures HasSuffix(r, " " + text)
    ensures !enabled ==> r == symbol + " " + text
    ensures enabled && t != Plain ==> r == ToneCode(t) + symbol + Reset + " " + text
  {
    var head := Paint(enabled, symbol, t);
    assert head + " " + text == head + (" " + text);
    head + " " + text
  }

  function Success(enabled: bool, text: string): (r: string)
    ensures HasSuffix(r, " " + text)
    ensures !enabled ==> r == CheckMark + " " + text
    ensures enabled ==> r == BoldGreenCode + CheckMark + Reset + " " + text
  {
    Decorated(enabled, CheckMark, BoldGreen, text)
  }

  function Error(enabled: bool, text: string): (r: string)
    ensures HasSuffix(r, " " + text)
    ensures !enabled ==> r == CrossMark + " " + text
    ensures enabled ==> r == BoldRedCode + CrossMark + Reset + " " + text
  {
    Decorated(enabled, CrossMark, BoldRed, text)
  }

  function Warning(enabled: bool, text: string): (r: string)
    ensures HasSuffix(r, " " + text)
    ensures !enabled ==> r == WarningSign + " " + text
    ensures enabled ==> r == BoldYellowCode + WarningSign + Reset + " " + text
  {
    Decorated(enabled, WarningSign, BoldYellow, text)
  }

  function Info(enabled: bool, text: string): (r: string)
    ensures HasSuffix(r, " " + text)
    ensures !enabled ==> r == InfoSign + " " + text
    ensures enabled ==> r == BoldBlueCode + InfoSign + Reset + " " + text
  {
    Decorated(enabled, InfoSign, BoldBlue, text)
  }

  // ---------------------------------------------------------------------
  // ColorizeState
  // ---------------------------------------------------------------------

  const GreenStates: set<string> := {"STARTED", "RUNNING", "UP", "ONLINE", "DISK_OK", "GOOD", "HEALTHY"}
  const RedStates: set<string> := {"STOPPED", "DOWN", "OFFLINE", "EXITED",
                                   "DISK_DSBL", "DISK_INVALID", "DISK_WRONG", "ERROR", "FAILED"}
  const YellowStates: set<string> := {"PAUSED", "STOPPING", "STARTING", "WARNING", "DISK_NP"}

  /** The tone of an upper-cased state word. */
  function StateTone(upper: string): (t: Tone)
    ensures t == Green <==> upper in GreenStates
    ensures t == Red <==> upper in RedStates
    ensures t == Yellow <==> upper in YellowStates
    ensures t == Plain <==> upper !in GreenStates + RedStates + YellowStates
  {
    if upper in {"STARTED", "RUNNING", "UP", "ONLINE"} then Green
    else if upper in {"STOPPED", "DOWN", "OFFLINE", "EXITED"} then Red
    else if upper in {"PAUSED", "STOPPING", "STARTING"} then Yellow
    else if upper in {"DISK_OK", "GOOD", "HEALTHY"} then Green
    else if upper in {"DISK_DSBL", "DISK_INVALID", "DISK_WRONG", "ERROR", "FAILED"} then Red
    else if upper in {"WARNING", "DISK_NP"} then Yellow
    else Plain
  }

  /** The state is always shown upper-cased; only known states get a colour. */
  function ColorizeState(enabled: bool, state: string): (r: string)
    ensures !enabled ==> r == ToUpper(state)
    ensures StateTone(ToUpper(state)) == Plain ==> r == ToUpper(state)
    ensures enabled && StateTone(ToUpper(state)) != Plain ==>
              r == ToneCode(StateTone(ToUpper(state))) + ToUpper(state) + Reset
  {
    var upper := ToUpper(state);
    Paint(enabled, upper, StateTone(upper))
  }

  /** Upper-casing forgets the original case, so the styling of a state is case-insensitive. */
  lemma {:induction false} ColorizeStateIgnoresCase(enabled: bool, state: string)
    ensures ColorizeState(enabled, ToLower(state)) == ColorizeState(enabled, state)
  {
    UpperOfLower(state);
  }

  lemma {:induction false} UpperOfLower(s: string)
    ensures ToUpper(ToLower(s)) == ToUpper(s)
  {
    var a, b := ToUpper(ToLower(s)), ToUpper(s);
    assert |a| == |b|;
    forall i | 0 <= i < |s| ensures a[i] == b[i] {
      assert a[i] == UpperChar(LowerChar(s[i]));
    }
  }

  /** FormatBool: a green "Yes" or a red "No". */
  function FormatBool(enabled: bool, value: bool): (r: string)
    ensures Uncolor(r, ToneCode(if value then Green else Red)) == (if value then "Yes" else "No")
  {
    UncolorColorize(enabled, if value then "Yes" else "No", ToneCode(if value then Green else Red));
    if value then Paint(enabled, "Yes", Green) else Paint(enabled, "No", Red)
  }

  // ---------------------------------------------------------------------
  // Threshold bands of ColorizePercentage and ColorizeTemperature
  // ---------------------------------------------------------------------

  /**
   * Utilisation-style (high is bad): 90 and above red, 75 and above yellow,
   * else green. Reverse polarity (high is good): 75 and above green, 50 and
   * above yellow, else red.
   */
  function PercentTone(percent: real, reverse: bool): (t: Tone)
    ensures t in {Red, Yellow, Green}
    ensures !reverse ==> (t == Red <==> percent >= 90.0)
    ensures !reverse ==> (t == Yellow <==> 75.0 <= percent < 90.0)
    ensures !reverse ==> (t == Green <==> percent < 75.0)
    ensures reverse ==> (t == Green <==> percent >= 75.0)
    ensures reverse ==> (t == Yellow <==> 50.0 <= percent < 75.0)
    ensures reverse ==> (t == Red <==> percent < 50.0)
  {
    if !reverse then
      if percent >= 90.0 then Red else if percent >= 75.0 then Yellow else Green
    else
      if percent >= 75.0 then Green else if percent >= 50.0 then Yellow else Red
  }

  /** Severity order of the three alert tones. */
  function AlertLevel(t: Tone): nat {
    match t
    case Red => 2
    case Yellow => 1
    case _ => 0
  }

  /** Higher usage is never less alarming; with reverse polarity, higher is never more alarming. */
  lemma PercentToneMonotone(p: real, q: real)
    requires p <= q
    ensures AlertLevel(PercentTone(p, false)) <= AlertLevel(PercentTone(q, false))
    ensures AlertLevel(PercentTone(p, true)) >= AlertLevel(PercentTone(q, true))
  {
  }

  /** The shown text (the "%.1f%%" text) is passed in; only the band choice is modelled. */
  function ColorizePercentage(enabled: bool, percent: real, reverse: bool, shown: string): string {
    Paint(enabled, shown, PercentTone(percent, reverse))
  }

  /** 60 and above red, 50 and above yellow, 40 and above cyan, else blue. */
  function TemperatureTone(temp: real): (t: Tone)
    ensures t == Red <==> temp >= 60.0
    ensures t == Yellow <==> 50.0 <= temp < 60.0
    ensures t == Cyan <==> 40.0 <= temp < 50.0
    ensures t == Blue <==> temp < 40.0
  {
    if temp >= 60.0 then Red
    else if temp >= 50.0 then Yellow
    else if temp >= 40.0 then Cyan
    else Blue
  }

  function HeatLevel(t: Tone): nat {
    match t
    case Red => 3
    case Yellow => 2
    case Cyan => 1
    case _ => 0
  }

  /** Temperature bands ascend in severity. */
  lemma TemperatureToneMonotone(p: real, q: real)
    requires p <= q
    ensures HeatLevel(TemperatureTone(p)) <= HeatLevel(TemperatureTone(q))
  {
  }

  function ColorizeTemperature(enabled: bool, temp: real, shown: string): string {
    Paint(enabled, shown, TemperatureTone(temp))
  }
}
