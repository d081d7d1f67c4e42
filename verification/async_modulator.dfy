/** The state and helpers shared by the Morse and teleprinter modulators:
    the message being sent, the element timing, and the on/off edge tracking
    that turns an "is the carrier keyed" flag into step codes.
 */
module Modulator {

  /** What a modulator step tells its station. `ChangeFreq` is only produced by
      the pager and jammer state machines. */
  datatype Code = TurnOn | TurnOff | LeaveOn | LeaveOff | MessageComplete | ChangeFreq

  /** The integer value of each code in the source (`MessageComplete` and
      `ChangeFreq` share 5: no state machine produces both). */
  function CodeValue(c: Code): int {
    match c
    case TurnOn => 1
    case TurnOff => 2
    case LeaveOn => 3
    case LeaveOff => 4
    case MessageComplete => 5
    case ChangeFreq => 5
  }

  /** What an element step reports to its character logic. */
  datatype ElementStatus = Early | ElementActive | ElementDone

  /** A stretch of carrier on or off, in milliseconds. */
  datatype Keyed = Keyed(on: bool, ms: int)

  /** A C string: null, or the characters it refers to (a terminating
      NUL may occur anywhere in them). */
  datatype CString = Null | Str(chars: seq<char>)

  /** `strlen`: the number of characters before the first NUL. */
  function StrLen(s: seq<char>): (n: nat)
    ensures n <= |s|
    ensures forall j :: 0 <= j < n ==> s[j] != '\0'
    ensures n < |s| ==> s[n] == '\0'
  {
    if s == [] || s[0] == '\0' then 0 else 1 + StrLen(s[1..])
  }

  /** The common modulator state. The source also stores the string length;
      it is only ever written together with the string, so here it is derived. */
  datatype ModBase = ModBase(
    str: CString,
    position: int,
    elementDelay: nat,
    element: nat,
    elementDone: bool,
    nextEvent: nat,
    active: bool,
    switchedOn: bool)
  {
    /** `get_string_length()`. */
    function Length(): nat {
      match str
      case Null => 0
      case Str(cs) => StrLen(cs)
    }

    /** `at_string_end()`. */
    predicate AtStringEnd() {
      position >= Length()
    }

    /** `is_time_ready(t)`. */
    predicate IsTimeReady(t: nat) {
      t >= nextEvent
    }
  }

  /** The constructor: no string, element finished, carrier off. */
  function NewModBase(): (m: ModBase)
    ensures m.Length() == 0 && m.AtStringEnd() && m.elementDone
    ensures !m.active && !m.switchedOn && m.IsTimeReady(0)
  {
    ModBase(Null, 0, 0, 0, true, 0, false, false)
  }

  /** The result of an output step. */
  datatype Output = Output(m: ModBase, code: Code)

  /** `generate_output_step()`: report an edge when the keyed flag changed since
      the last report, otherwise report the steady state. */
  function GenerateOutputStep(m: ModBase): (o: Output)
    ensures o.m == m.(switchedOn := m.active)
    ensures o.code == TurnOn <==> m.active && !m.switchedOn
    ensures o.code == TurnOff <==> !m.active && m.switchedOn
    ensures o.code == LeaveOn <==> m.active && m.switchedOn
    ensures o.code == LeaveOff <==> !m.active && !m.switchedOn
  {
    if m.active != m.switchedOn then
      Output(m.(switchedOn := m.active), if m.active then TurnOn else TurnOff)
    else
      Output(m, if m.active then LeaveOn else LeaveOff)
  }

  /** `set_string(str)`: install a message and rewind to its start. */
  function SetString(m: ModBase, s: CString): (r: ModBase)
    ensures r.str == s && r.position == 0
    ensures r.Length() == (if s.Null? then 0 else StrLen(s.chars))
    ensures r.elementDelay == m.elementDelay && r.element == m.element && r.elementDone == m.elementDone
    ensures r.nextEvent == m.nextEvent && r.active == m.active && r.switchedOn == m.switchedOn
  {
    m.(str := s, position := 0)
  }

  /** `get_current_char()`: the character at the position, or NUL past the end. */
  function CurrentChar(m: ModBase): (c: char)
    ensures m.str.Null? || m.AtStringEnd() || m.position < 0 ==> c == '\0'
    ensures m.str.Str? && 0 <= m.position < m.Length() ==> c == m.str.chars[m.position] && c != '\0'
  {
    if m.str.Str? && 0 <= m.position < m.Length() then m.str.chars[m.position] else '\0'
  }

  /** Edge reporting never reports the same edge twice: after any output step,
      the next one reports a steady state unless the keyed flag changed. */
  lemma NoRepeatedEdges(m: ModBase)
    ensures var o := GenerateOutputStep(m);
            GenerateOutputStep(o.m).code in {LeaveOn, LeaveOff}
  {
  }

  /** Edges alternate: between two TurnOn reports there is a TurnOff report,
      because the tracked switch state follows every report. */
  lemma EdgeReportsTrackSwitchState(m: ModBase)
    ensures var o := GenerateOutputStep(m);
            o.m.switchedOn == (o.code in {TurnOn, LeaveOn})
  {
  }
}
