/** The non-blocking Morse code modulator.

    A message is keyed one element at a time: each call of `StepModulator`
    advances the state machine at most one event and reports a step code.
    Letters and digits are looked up in a 36-entry table of bit patterns; in each
    pattern the lowest set bit above bit 0 is a start marker and the bits above
    it, from low to high, are the elements (1 = dash, 0 = dot).

    Timing is in milliseconds. One element unit is `1000 / wpm`; a dot is one
    unit, a dash three, the gap after every element one unit. After a
    character's last gap the modulator waits three more units before the next
    character, or seven more at a word space.
 */
module Morse {
  import opened Platform
  import opened Modulator

  /** The bit patterns for A-Z then 0-9. */
  const MORSE_TABLE: seq<nat> := [
    0xA0, 0x18, 0x58, 0x30, 0x40, 0x48, 0x70, 0x08, 0x20, 0xE8, 0xB0, 0x28, 0xE0,
    0x60, 0xF0, 0x68, 0xB8, 0x50, 0x10, 0xC0, 0x90, 0x88, 0xD0, 0x98, 0xD8, 0x38,
    0xFC, 0xF4, 0xE4, 0xC4, 0x84, 0x04, 0x0C, 0x1C, 0x3C, 0x7C]

  const MORSE_TABLE_SIZE: nat := 36
  /** The elements a pattern can hold above bit 0. */
  const MAX_ELEMENTS: nat := 7

  datatype Phase = PhaseDone | PhaseChar | PhaseSpace

  /** The modulator. `ch` is the table index of the current character (or, at
      a double space, the raw space character); `pattern` is the current bit
      pattern, shifted right as its elements are consumed; `space` is true while
      the next element event is the start of a mark rather than of a gap;
      `fist` is the operator's timing sloppiness, 0 (perfect) to 255. */
  datatype Morse = Morse(
    m: ModBase,
    phase: Phase,
    ch: int,
    pattern: nat,
    space: bool,
    justCompleted: bool,
    fist: nat)

  /** The constructor, with the fist quality a station configures. */
  function NewMorse(fist: nat): (s: Morse)
    requires fist < 256
    ensures s.phase == PhaseDone && !s.m.active && !s.justCompleted && s.fist == fist
  {
    Morse(NewModBase(), PhaseDone, 0, 0, false, false, fist)
  }

  /** `get_morse_data(index)`: the pattern at a table index, 0 outside the table. */
  function MorseData(index: int): (d: nat)
    ensures d < 256
    ensures index < 0 || index >= MORSE_TABLE_SIZE ==> d == 0
    ensures 0 <= index < MORSE_TABLE_SIZE ==> d == MORSE_TABLE[index]
  {
    if index < 0 || index >= MORSE_TABLE_SIZE then 0 else MORSE_TABLE[index]
  }

  predicate IsDigit(c: char) { '0' <= c <= '9' }
  predicate IsUpper(c: char) { 'A' <= c <= 'Z' }
  predicate IsLower(c: char) { 'a' <= c <= 'z' }

  /** `lookup_morse_char(c)`: digits map to 26-35, letters of either case to 0-25,
      everything else to 0 (the entry for A). */
  function LookupMorseChar(c: char): (i: int)
    ensures 0 <= i < MORSE_TABLE_SIZE
    ensures IsDigit(c) ==> i == 26 + (c as int - '0' as int)
    ensures IsUpper(c) ==> i == c as int - 'A' as int
    ensures IsLower(c) ==> i == c as int - 'a' as int
    ensures !IsDigit(c) && !IsUpper(c) && !IsLower(c) ==> i == 0
  {
    if '0' <= c <= 'z' then
      if IsDigit(c) then c as int - '0' as int + 26
      else if IsUpper(c) then c as int - 'A' as int
      else if IsLower(c) then c as int - 'a' as int
      else 0
    else 0
  }

  /** The search for a pattern's start marker: shift right once per element
      position and stop at the first set low bit. `element` is -1 when no
      marker was found in seven shifts; `shifted` is the pattern after the
      shifts performed. */
  datatype StartBit = StartBit(shifted: nat, element: int)

  function FindStartBit(pattern: nat, element: nat): (r: StartBit)
    requires element <= MAX_ELEMENTS
    ensures r.element == -1 || element <= r.element < MAX_ELEMENTS
    ensures r.element != -1 ==> r.shifted % 2 == 1
    decreases MAX_ELEMENTS - element
  {
    if element == MAX_ELEMENTS then StartBit(pattern, -1)
    else
      var shifted := pattern / 2;
      if shifted % 2 == 1 then StartBit(shifted, element) else FindStartBit(shifted, element + 1)
  }

  /** The result of `start_step_element`: the new state and whether a start marker was found. */
  datatype Started = Started(s: Morse, found: bool)

  /** `start_step_element(time)`: load the current character's pattern and position
      the element counter on its start marker, first event at `time`. */
  function StartStepElement(s: Morse, time: nat): (r: Started)
    ensures !r.s.m.elementDone && r.s.phase == s.phase && r.s.ch == s.ch
    ensures r.s.m.active == s.m.active && r.s.m.position == s.m.position && r.s.m.str == s.m.str
    ensures r.found ==> r.s.space && r.s.m.nextEvent == time && r.s.m.element < MAX_ELEMENTS
    ensures !r.found ==> r.s.space == s.space && r.s.m.element == s.m.element
    ensures r.s.fist == s.fist && r.s.justCompleted == s.justCompleted && r.s.m.elementDelay == s.m.elementDelay
  {
    var sb := FindStartBit(MorseData(s.ch), 0);
    var base := s.m.(elementDone := false);
    if sb.element != -1 then
      Started(s.(m := base.(element := sb.element, nextEvent := time), pattern := sb.shifted, space := true), true)
    else
      Started(s.(m := base, pattern := sb.shifted), false)
  }

  /** The jitter, in percent of the nominal duration, a fist quality allows for
      a mark (`isSpace` false) or a gap (`isSpace` true). */
  function VariationPercent(fist: nat, isSpace: bool): (v: int)
    requires fist < 256
    ensures 0 <= v <= (if isSpace then 3 else 2)
    ensures fist == 0 ==> v == 0
  {
    if fist == 0 then 0
    else
      var maxVariation := if fist * 3 / 255 > 2 then 2 else fist * 3 / 255;
      if isSpace then (if maxVariation + 1 > 3 then 3 else maxVariation + 1)
      else (if maxVariation > 2 then 2 else maxVariation)
  }

  /** `compute_element_time(time, count, isSpace)`: the time `count` element units
      after `time`, perturbed by the fist quality and clamped to 80-120% of nominal. */
  function ComputeElementTime(fist: nat, elementDelay: nat, time: nat, count: nat, isSpace: bool, draw: nat): (t: nat)
    requires fist < 256
    ensures fist == 0 ==> t == time + count * elementDelay
    ensures var base := count * elementDelay;
            var slack := base * VariationPercent(fist, isSpace) / 100;
            time + base - slack <= t <= time + base + slack
  {
    var base := count * elementDelay;
    var v := VariationPercent(fist, isSpace);
    if v == 0 then time + base
    else
      var randomVariation := Random(draw, v * 2 + 1) - v;
      var variation := TruncDiv(base * randomVariation, 100);
      JitterBound(base, randomVariation, v);
      var newTime := base + variation;
      var minTime := base * 80 / 100;
      var maxTime := base * 120 / 100;
      var clamped := if newTime < minTime then minTime else if newTime > maxTime then maxTime else newTime;
      time + clamped
  }

  /** A variation of at most v percent moves a duration by at most v percent, so
      the 80-120% clamp never fires. */
  lemma JitterBound(base: nat, rv: int, v: int)
    requires 0 <= v <= 3 && -v <= rv <= v
    ensures var d := TruncDiv(base * rv, 100);
            -(base * v / 100) <= d <= base * v / 100
            && base * 80 / 100 <= base + d <= base * 120 / 100
  {
    var d := TruncDiv(base * rv, 100);
    var mag := if rv >= 0 then rv else -rv;
    assert base * mag <= base * v by { MulMono(base, mag, v); }
    assert base * v <= base * 3 by { MulMono(base, v, 3); }
    assert base * mag >= 0 by { MulMono(base, 0, mag); }
    if rv >= 0 {
      assert d == base * rv / 100;
    } else {
      assert base * rv == -(base * mag);
      assert d == -(base * mag / 100);
    }
    DivMono100(base * mag, base * v);
    DivMono100(base * v, base * 3);
  }

  lemma MulMono(a: nat, x: int, y: int)
    requires 0 <= x <= y
    ensures a * x <= a * y
  {
  }

  lemma DivMono100(x: int, y: int)
    requires 0 <= x <= y
    ensures x / 100 <= y / 100
  {
  }

  /** What an element step returns. */
  datatype ElementStep = ElementStep(s: Morse, status: ElementStatus)

  /** `step_element(time)`: at an element event, start the next mark (dot or dash)
      or the one-unit gap after a mark; report when the character has no elements left. */
  function StepElement(s: Morse, time: nat, draw: nat): (r: ElementStep)
    requires s.fist < 256
    ensures r.status == Early ==> r.s == s
    ensures r.status == ElementDone ==> r.s.m.elementDone || s.phase != PhaseChar
    ensures s.phase != PhaseChar || s.m.elementDone ==> r == ElementStep(s, ElementDone)
    ensures r.s.phase == s.phase && r.s.m.position == s.m.position && r.s.m.str == s.m.str
    ensures r.s.fist == s.fist && r.s.justCompleted == s.justCompleted && r.s.ch == s.ch
    ensures r.s.m.elementDelay == s.m.elementDelay && r.s.m.switchedOn == s.m.switchedOn
  {
    if s.phase != PhaseChar then ElementStep(s, ElementDone)
    else if s.m.elementDone then ElementStep(s, ElementDone)
    else if !s.m.IsTimeReady(time) then ElementStep(s, Early)
    else if s.space then
      var element := s.m.element + 1;
      if element >= MAX_ELEMENTS then
        ElementStep(s.(space := false, m := s.m.(element := element, elementDone := true)), ElementDone)
      else
        var pattern := s.pattern / 2;
        var units := if pattern % 2 == 1 then 3 else 1;
        var next := ComputeElementTime(s.fist, s.m.elementDelay, time, units, false, draw);
        ElementStep(s.(space := false, pattern := pattern, m := s.m.(element := element, active := true, nextEvent := next)), ElementActive)
    else
      var next := ComputeElementTime(s.fist, s.m.elementDelay, time, 1, false, draw);
      ElementStep(s.(space := true, m := s.m.(active := false, nextEvent := next)), ElementActive)
  }

  /** What a position step returns: the new state and false when the message is exhausted. */
  datatype PositionStep = PositionStep(s: Morse, more: bool)

  function Advance(s: Morse): Morse {
    s.(m := s.m.(position := s.m.position + 1))
  }

  /** `step_position(time)`: step the current character; when it is finished,
      move to the next character and schedule the inter-character (3 units) or
      word (7 units) space before it. */
  function StepPosition(s: Morse, time: nat, draw: nat): (r: PositionStep)
    requires s.fist < 256
    ensures r.s.fist == s.fist && r.s.justCompleted == s.justCompleted && r.s.m.str == s.m.str
    ensures r.s.m.elementDelay == s.m.elementDelay && r.s.m.switchedOn == s.m.switchedOn
    ensures r.s.phase in {s.phase, PhaseSpace}
  {
    var e := StepElement(s, time, draw);
    if e.status != ElementDone then PositionStep(e.s, true)
    else
      var s1 := Advance(e.s);
      if s1.m.AtStringEnd() then PositionStep(s1, false)
      else
        var c := CurrentChar(s1.m);
        if c == ' ' then
          var s2 := Advance(s1);
          var c2 := CurrentChar(s2.m);
          if c2 != ' ' then
            var st := StartStepElement(s2.(ch := LookupMorseChar(c2)), time);
            if !st.found then PositionStep(st.s, false)
            else PositionStep(WordSpace(st.s, time, draw), true)
          else
            PositionStep(WordSpace(s2.(ch := c2 as int), time, draw), true)
        else
          var st := StartStepElement(s1.(ch := LookupMorseChar(c)), time);
          if !st.found then PositionStep(st.s, false)
          else
            var next := ComputeElementTime(st.s.fist, st.s.m.elementDelay, time, 3, true, draw);
            PositionStep(st.s.(m := st.s.m.(nextEvent := next), phase := PhaseSpace), true)
  }

  /** Enter the seven-unit space between words. */
  function WordSpace(s: Morse, time: nat, draw: nat): Morse
    requires s.fist < 256
  {
    s.(phase := PhaseSpace, m := s.m.(nextEvent := ComputeElementTime(s.fist, s.m.elementDelay, time, 7, true, draw)))
  }

  /** `step_space(time)`: when the space has elapsed, return to keying characters. */
  function StepSpace(s: Morse, time: nat): (r: Morse)
    ensures s.m.IsTimeReady(time) ==> r == s.(phase := PhaseChar)
    ensures !s.m.IsTimeReady(time) ==> r == s
  {
    if !s.m.IsTimeReady(time) then s else s.(phase := PhaseChar)
  }

  /** What a modulator step returns. */
  datatype MorseStep = MorseStep(s: Morse, code: Code)

  /** `step_modulator(time)`: advance by at most one event and report the step code;
      the step that exhausts the message reports `MessageComplete` instead of an edge. */
  function StepModulator(s: Morse, time: nat, draw: nat): (r: MorseStep)
    requires s.fist < 256
    ensures r.s.fist == s.fist && !r.s.justCompleted
    ensures r.code != ChangeFreq
  {
    var s1 :=
      match s.phase
      case PhaseDone => s
      case PhaseChar =>
        var p := StepPosition(s, time, draw);
        if !p.more then p.s.(justCompleted := true, phase := PhaseDone) else p.s
      case PhaseSpace => StepSpace(s, time);
    if s1.justCompleted then MorseStep(s1.(justCompleted := false), MessageComplete)
    else
      var o := GenerateOutputStep(s1.m);
      MorseStep(s1.(m := o.m), o.code)
  }

  /** `MORSE_TIME_FROM_WPM(wpm)`: the element unit in milliseconds. */
  function ElementDelayFromWpm(wpm: int): (d: nat)
    requires wpm >= 1
    ensures d * wpm <= 1000 < (d + 1) * wpm
  {
    1000 / wpm
  }

  /** `start_transmission(text, wpm)`: install a message and position on its first
      character, keyed from time 0, with the carrier off. A message starting with
      a space starts with a space phase instead. */
  function StartTransmission(s: Morse, text: CString, wpm: int): (r: Morse)
    requires wpm >= 1
    ensures r.m.str == text && r.m.position == 0 && r.m.elementDelay == ElementDelayFromWpm(wpm)
    ensures !r.m.active && !r.m.switchedOn && !r.justCompleted && r.fist == s.fist
    ensures r.phase in {PhaseChar, PhaseSpace}
    ensures r.phase == PhaseSpace <==> CurrentChar(r.m) == ' '
  {
    var m := SetString(s.m, text).(elementDelay := ElementDelayFromWpm(wpm), element := 0,
                                   active := false, nextEvent := 0, switchedOn := false, elementDone := true);
    var s1 := s.(m := m, phase := PhaseChar, pattern := 0, space := false, justCompleted := false);
    var c := CurrentChar(m);
    if c == ' ' then s1.(ch := c as int, phase := PhaseSpace)
    else StartStepElement(s1.(ch := LookupMorseChar(c)), 0).s
  }

  /** `is_transmission_complete()`. */
  predicate IsTransmissionComplete(s: Morse) {
    s.phase == PhaseDone
  }

  // ---------------------------------------------------------------------------
  // Invariant and message-level properties

  /** The carrier is only keyed inside a mark, and a completion is never left pending. */
  predicate Inv(s: Morse) {
    && s.fist < 256
    && !s.justCompleted
    && s.m.element <= MAX_ELEMENTS
    && (s.phase != PhaseDone && !s.m.elementDone ==> s.m.element < MAX_ELEMENTS)
    && (s.m.active ==> s.phase == PhaseChar && !s.space && !s.m.elementDone)
  }

  lemma StartEstablishesInv(s: Morse, text: CString, wpm: int)
    requires s.fist < 256 && wpm >= 1
    ensures Inv(StartTransmission(s, text, wpm))
  {
  }

  lemma StepElementPreservesInv(s: Morse, time: nat, draw: nat)
    requires Inv(s)
    ensures var r := StepElement(s, time, draw);
            Inv(r.s) && (r.status == ElementDone ==> !r.s.m.active)
  {
  }

  lemma StepPositionPreservesInv(s: Morse, time: nat, draw: nat)
    requires Inv(s) && s.phase == PhaseChar
    ensures var r := StepPosition(s, time, draw);
            Inv(if r.more then r.s else r.s.(phase := PhaseDone)) && (!r.more ==> !r.s.m.active)
  {
    StepElementPreservesInv(s, time, draw);
  }

  /** Every step keeps the invariant. */
  lemma StepPreservesInv(s: Morse, time: nat, draw: nat)
    requires Inv(s)
    ensures Inv(StepModulator(s, time, draw).s)
  {
    if s.phase == PhaseChar {
      StepPositionPreservesInv(s, time, draw);
    }
  }

  /** The step that reports completion leaves the modulator finished with the carrier off. */
  lemma CompletionLeavesCarrierOff(s: Morse, time: nat, draw: nat)
    requires Inv(s)
    ensures var r := StepModulator(s, time, draw);
            r.code == MessageComplete ==> s.phase == PhaseChar && IsTransmissionComplete(r.s) && !r.s.m.active
  {
    if s.phase == PhaseChar {
      StepPositionPreservesInv(s, time, draw);
    }
  }

  /** Once finished, the modulator stays finished and never reports a key-down
      or another completion: completion is reported exactly once per message. */
  lemma FinishedStaysQuiet(s: Morse, time: nat, draw: nat)
    requires Inv(s) && IsTransmissionComplete(s)
    ensures var r := StepModulator(s, time, draw);
            IsTransmissionComplete(r.s) && Inv(r.s) && r.code in {LeaveOff, TurnOff}
  {
  }

  // ---------------------------------------------------------------------------
  // Keying of one character

  /** The mark lengths, in units, still to be keyed from a pattern whose element
      counter stands at `element`: 3 for each dash bit, 1 for each dot bit. */
  function MarkUnits(pattern: nat, element: nat): seq<nat>
    requires element <= MAX_ELEMENTS
    decreases MAX_ELEMENTS - element
  {
    if element + 1 >= MAX_ELEMENTS then []
    else [if (pattern / 2) % 2 == 1 then 3 else 1] + MarkUnits(pattern / 2, element + 1)
  }

  /** The marks of a table pattern, in element units: what follows its start marker. */
  function MarksOf(pattern: nat): seq<nat> {
    var sb := FindStartBit(pattern, 0);
    if sb.element == -1 then [] else MarkUnits(sb.shifted, sb.element)
  }


  /** Key the marks in order, each followed by a one-unit gap. */
  function KeyingOf(marks: seq<nat>, unit: nat): seq<Keyed> {
    if marks == [] then [] else [Keyed(true, marks[0] * unit), Keyed(false, unit)] + KeyingOf(marks[1..], unit)
  }

  /** Drive the element machine `k` times, each exactly at its next event, recording
      whether the carrier is keyed and for how long until the following event. */
  function RunElements(s: Morse, k: nat): (r: (seq<Keyed>, Morse))
    requires s.fist < 256
    ensures r.1.fist == s.fist
    decreases k
  {
    if k == 0 then ([], s)
    else
      var t := s.m.nextEvent;
      var r := StepElement(s, t, 0);
      var rest := RunElements(r.s, k - 1);
      ([Keyed(r.s.m.active, r.s.m.nextEvent - t)] + rest.0, rest.1)
  }

  /** At a mark event with a perfect fist, the next mark starts and lasts its
      nominal length. */
  lemma MarkStep(s: Morse)
    requires s.phase == PhaseChar && !s.m.elementDone && s.space && s.m.element + 1 < MAX_ELEMENTS && s.fist == 0
    ensures var t := s.m.nextEvent;
            var units := if (s.pattern / 2) % 2 == 1 then 3 else 1;
            StepElement(s, t, 0) == ElementStep(
              s.(space := false, pattern := s.pattern / 2,
                 m := s.m.(element := s.m.element + 1, active := true, nextEvent := t + units * s.m.elementDelay)),
              ElementActive)
  {
  }

  /** At the end of a mark with a perfect fist, the one-unit gap starts. */
  lemma GapStep(s: Morse)
    requires s.phase == PhaseChar && !s.m.elementDone && !s.space && s.fist == 0
    ensures var t := s.m.nextEvent;
            StepElement(s, t, 0) == ElementStep(
              s.(space := true, m := s.m.(active := false, nextEvent := t + s.m.elementDelay)), ElementActive)
  {
  }

  /** One mark and its gap, as `RunElements` records them. */
  lemma RunTwo(s: Morse, k: nat)
    requires s.fist < 256
    ensures var r1 := StepElement(s, s.m.nextEvent, 0);
            var r2 := StepElement(r1.s, r1.s.m.nextEvent, 0);
            RunElements(s, k + 2) ==
              ([Keyed(r1.s.m.active, r1.s.m.nextEvent as int - s.m.nextEvent as int),
                Keyed(r2.s.m.active, r2.s.m.nextEvent as int - r1.s.m.nextEvent as int)] + RunElements(r2.s, k).0,
               RunElements(r2.s, k).1)
  {
    var r1 := StepElement(s, s.m.nextEvent, 0);
    var r2 := StepElement(r1.s, r1.s.m.nextEvent, 0);
    var a := Keyed(r1.s.m.active, r1.s.m.nextEvent as int - s.m.nextEvent as int);
    var b := Keyed(r2.s.m.active, r2.s.m.nextEvent as int - r1.s.m.nextEvent as int);
    var rest := RunElements(r2.s, k);
    RunOne(r1.s, k);
    RunOne(s, k + 1);
    assert [a] + ([b] + rest.0) == [a, b] + rest.0;
  }

  /** One event, as `RunElements` records it. */
  lemma RunOne(s: Morse, k: nat)
    requires s.fist < 256
    ensures var r := StepElement(s, s.m.nextEvent, 0);
            var rest := RunElements(r.s, k);
            RunElements(s, k + 1) == ([Keyed(r.s.m.active, r.s.m.nextEvent as int - s.m.nextEvent as int)] + rest.0, rest.1)
  {
  }

  /** With a perfect fist, a character positioned on its start marker is keyed as
      exactly its marks, each followed by a one-unit gap, after which the element
      machine reports the character done. */
  lemma {:induction false} CharacterKeying(s: Morse)
    requires s.phase == PhaseChar && !s.m.elementDone && s.space && s.m.element < MAX_ELEMENTS && s.fist == 0
    ensures var marks := MarkUnits(s.pattern, s.m.element);
            var r := RunElements(s, 2 * |marks|);
            && r.0 == KeyingOf(marks, s.m.elementDelay)
            && StepElement(r.1, r.1.m.nextEvent, 0).status == ElementDone
            && r.1.m.position == s.m.position && r.1.m.str == s.m.str
    decreases MAX_ELEMENTS - s.m.element
  {
    var e := s.m.element;
    var marks := MarkUnits(s.pattern, e);
    var u := s.m.elementDelay;
    if e + 1 < MAX_ELEMENTS {
      var next := AfterMark(s);
      var tail := MarkUnits(next.pattern, next.m.element);
      assert marks == [marks[0]] + tail;
      CharacterKeying(next);
      var n := |tail|;
      RunMarkAndGap(s, 2 * n);
      assert 2 * |marks| == 2 * n + 2;
      assert KeyingOf(marks, u) == [Keyed(true, marks[0] * u), Keyed(false, u)] + KeyingOf(tail, u);
    } else {
      assert marks == [];
    }
  }

  /** Where a mark and the gap after it leave the machine: on the next
      element, carrier off, one mark and one unit later. */
  function AfterMark(s: Morse): (r: Morse)
    ensures r.phase == s.phase && r.space == s.space && r.fist == s.fist && r.m.elementDone == s.m.elementDone
    ensures r.m.element == s.m.element + 1 && r.m.position == s.m.position && r.m.str == s.m.str
  {
    var units := if (s.pattern / 2) % 2 == 1 then 3 else 1;
    s.(pattern := s.pattern / 2,
       m := s.m.(element := s.m.element + 1, active := false,
                 nextEvent := s.m.nextEvent + (units + 1) * s.m.elementDelay))
  }

  /** A mark and the gap after it, with a perfect fist, as `RunElements`
      records them: the carrier keyed for the first mark's length, then off
      for one unit. */
  lemma RunMarkAndGap(s: Morse, k: nat)
    requires s.phase == PhaseChar && !s.m.elementDone && s.space && s.m.element + 1 < MAX_ELEMENTS && s.fist == 0
    ensures var units := if (s.pattern / 2) % 2 == 1 then 3 else 1;
            var u := s.m.elementDelay;
            var rest := RunElements(AfterMark(s), k);
            RunElements(s, k + 2) == ([Keyed(true, units * u), Keyed(false, u)] + rest.0, rest.1)
  {
    MarkStep(s);
    var r1 := StepElement(s, s.m.nextEvent, 0);
    GapStep(r1.s);
    RunTwo(s, k);
    assert StepElement(r1.s, r1.s.m.nextEvent, 0).s == AfterMark(s);
  }

  /** Element steps at their scheduled times keep the invariant, the phase
      and the unit. */
  lemma {:induction false} RunKeepsInv(s: Morse, k: nat)
    requires Inv(s)
    ensures var r := RunElements(s, k).1;
            Inv(r) && r.phase == s.phase && r.m.elementDelay == s.m.elementDelay
    decreases k
  {
    if k > 0 {
      StepElementPreservesInv(s, s.m.nextEvent, 0);
      RunKeepsInv(StepElement(s, s.m.nextEvent, 0).s, k - 1);
    }
  }

  // ---------------------------------------------------------------------------
  // Between characters

  /** Every character has a start marker: the table entry of whatever
      `lookup_morse_char` returns is a one-to-six element code. */
  lemma EveryCharacterStarts(c: char)
    ensures FindStartBit(MorseData(LookupMorseChar(c)), 0).element != -1
  {
    var i := LookupMorseChar(c);
    MorseTableIsItu();
    ItuMorseValid();
    assert MarksOf(MorseData(i)) == ITU_MORSE[i] != [];
  }

  /** With a perfect fist, the step that finds a character finished moves on
      one position. At the end of the text it reports the text exhausted.
      At any other character the next character is started on its start
      marker, carrier off, in the space phase, and its first mark is due
      3 units later; at a space it is the character after the space that
      is started, 7 units later. */
  lemma CharacterSpacing(s: Morse, time: nat)
    requires Inv(s) && s.phase == PhaseChar && s.fist == 0
    requires StepElement(s, time, 0).status == ElementDone
    ensures var r := StepPosition(s, time, 0);
            var n := s.m.position + 1;
            var c := CurrentChar(Advance(s).m);
            var u := s.m.elementDelay;
            && (n >= s.m.Length() ==> !r.more)
            && (n < s.m.Length() && c != ' ' ==>
                  && r.more && r.s.phase == PhaseSpace && !r.s.m.active && r.s.space
                  && r.s.m.position == n && r.s.ch == LookupMorseChar(c)
                  && r.s.m.nextEvent == time + 3 * u)
            && (n < s.m.Length() && c == ' ' ==>
                  && r.more && r.s.phase == PhaseSpace && !r.s.m.active
                  && r.s.m.position == n + 1
                  && r.s.m.nextEvent == time + 7 * u)
  {
    StepElementPreservesInv(s, time, 0);
    var e := StepElement(s, time, 0).s;
    var s1 := Advance(e);
    assert CurrentChar(s1.m) == CurrentChar(Advance(s).m);
    EveryCharacterStarts(CurrentChar(s1.m));
    EveryCharacterStarts(CurrentChar(Advance(s1).m));
  }

  /** With a perfect fist, once a character's marks and the one-unit gap
      after its last mark are keyed, the step at the end of that gap starts
      the next character 3 units later, or 7 after a single space: the
      letter space is 1 + 3 units and the word space 1 + 7. At the end of
      the text it reports the text exhausted. */
  lemma NextCharacterDue(s: Morse)
    requires Inv(s) && s.phase == PhaseChar && !s.m.elementDone && s.space && s.fist == 0
    ensures var marks := MarkUnits(s.pattern, s.m.element);
            var r := RunElements(s, 2 * |marks|).1;
            var t := r.m.nextEvent;
            var p := StepPosition(r, t, 0);
            var n := s.m.position + 1;
            var c := CurrentChar(Advance(s).m);
            var u := s.m.elementDelay;
            && (n >= s.m.Length() ==> !p.more)
            && (n < s.m.Length() && c != ' ' ==>
                  p.more && p.s.phase == PhaseSpace && p.s.m.position == n && p.s.m.nextEvent == t + 3 * u)
            && (n < s.m.Length() && c == ' ' ==>
                  p.more && p.s.phase == PhaseSpace && p.s.m.position == n + 1 && p.s.m.nextEvent == t + 7 * u)
  {
    var marks := MarkUnits(s.pattern, s.m.element);
    CharacterKeying(s);
    RunKeepsInv(s, 2 * |marks|);
    var r := RunElements(s, 2 * |marks|).1;
    assert Advance(r).m == Advance(s).m.(elementDelay := r.m.elementDelay, element := r.m.element,
                                         elementDone := r.m.elementDone, nextEvent := r.m.nextEvent,
                                         active := r.m.active, switchedOn := r.m.switchedOn);
    CharacterSpacing(r, r.m.nextEvent);
  }

  /** A step reports the message complete exactly when it finds the last
      character finished: every other character has a start marker, so no
      step before the end of the text completes the message. */
  lemma CompletesExactlyAtEnd(s: Morse, time: nat, draw: nat)
    requires Inv(s) && s.phase == PhaseChar
    ensures var r := StepModulator(s, time, draw);
            && (r.code == MessageComplete <==>
                  StepElement(s, time, draw).status == ElementDone && s.m.position + 1 >= s.m.Length())
            && (r.code == MessageComplete ==> IsTransmissionComplete(r.s) && !r.s.m.active)
  {
    StepPositionPreservesInv(s, time, draw);
    var e := StepElement(s, time, draw).s;
    var s1 := Advance(e);
    EveryCharacterStarts(CurrentChar(s1.m));
    EveryCharacterStarts(CurrentChar(Advance(s1).m));
  }

  // ---------------------------------------------------------------------------
  // The table against International Morse code

  /** International Morse code (Recommendation ITU-R M.1677-1) for the table's
      characters A-Z then 0-9, in table order, as mark lengths in units:
      1 for a dot, 3 for a dash. */
  const ITU_MORSE: seq<seq<nat>> := [
    [1, 3],             // A .-
    [3, 1, 1, 1],       // B -...
    [3, 1, 3, 1],       // C -.-.
    [3, 1, 1],          // D -..
    [1],                // E .
    [1, 1, 3, 1],       // F ..-.
    [3, 3, 1],          // G --.
    [1, 1, 1, 1],       // H ....
    [1, 1],             // I ..
    [1, 3, 3, 3],       // J .---
    [3, 1, 3],          // K -.-
    [1, 3, 1, 1],       // L .-..
    [3, 3],             // M --
    [3, 1],             // N -.
    [3, 3, 3],          // O ---
    [1, 3, 3, 1],       // P .--.
    [3, 3, 1, 3],       // Q --.-
    [1, 3, 1],          // R .-.
    [1, 1, 1],          // S ...
    [3],                // T -
    [1, 1, 3],          // U ..-
    [1, 1, 1, 3],       // V ...-
    [1, 3, 3],          // W .--
    [3, 1, 1, 3],       // X -..-
    [3, 1, 3, 3],       // Y -.--
    [3, 3, 1, 1],       // Z --..
    [3, 3, 3, 3, 3],    // 0 -----
    [1, 3, 3, 3, 3],    // 1 .----
    [1, 1, 3, 3, 3],    // 2 ..---
    [1, 1, 1, 3, 3],    // 3 ...--
    [1, 1, 1, 1, 3],    // 4 ....-
    [1, 1, 1, 1, 1],    // 5 .....
    [3, 1, 1, 1, 1],    // 6 -....
    [3, 3, 1, 1, 1],    // 7 --...
    [3, 3, 3, 1, 1],    // 8 ---..
    [3, 3, 3, 3, 1]     // 9 ----.
  ]

  /** The marks as a number, first mark in the lowest bit, 1 for a dash. */
  function MarkBits(marks: seq<nat>): nat {
    if marks == [] then 0 else (if marks[0] == 3 then 1 else 0) + 2 * MarkBits(marks[1..])
  }

  /** A code of one to six dots and dashes. */
  predicate ValidMarks(marks: seq<nat>) {
    1 <= |marks| <= 6 && forall k :: 0 <= k < |marks| ==> marks[k] == 1 || marks[k] == 3
  }

  /** The table's encoding of a code: bit 0 clear, a start marker, then the marks
      from low to high, filling the byte up to bit 7. */
  function EncodeMarks(marks: seq<nat>): nat
    requires 1 <= |marks| <= 6
  {
    (1 + 2 * MarkBits(marks)) * Pow2(7 - |marks|)
  }

  /** The start-marker search finds the marker wherever the encoding put it. */
  lemma {:induction false} FindStartBitOfShifted(p: nat, v: nat, k: nat, e: nat)
    requires 1 <= k && e + k <= MAX_ELEMENTS && p == (1 + 2 * v) * Pow2(k)
    ensures FindStartBit(p, e) == StartBit(1 + 2 * v, e + k - 1)
    decreases k
  {
    var q := (1 + 2 * v) * Pow2(k - 1);
    ShiftOnce(v, k);
    HalveOddEven(0, q);
    if k == 1 {
      assert q == 1 + 2 * v;
      HalveOddEven(1, v);
    } else {
      ShiftOnce(v, k - 1);
      HalveOddEven(0, (1 + 2 * v) * Pow2(k - 2));
      FindStartBitOfShifted(q, v, k - 1, e + 1);
    }
  }

  /** One more power of two doubles a shifted pattern. */
  lemma ShiftOnce(v: nat, k: nat)
    requires 1 <= k
    ensures (1 + 2 * v) * Pow2(k) == 0 + 2 * ((1 + 2 * v) * Pow2(k - 1))
  {
  }

  /** Reading marks back from their bits gives the marks: `p` is a bit `c`
      with the marks' bits above it. */
  lemma {:induction false} MarkUnitsOfBits(p: nat, c: nat, marks: seq<nat>, e: nat)
    requires c <= 1 && e + 1 + |marks| == MAX_ELEMENTS && p == c + 2 * MarkBits(marks)
    requires forall k :: 0 <= k < |marks| ==> marks[k] == 1 || marks[k] == 3
    ensures MarkUnits(p, e) == marks
    decreases |marks|
  {
    if marks != [] {
      var b := if marks[0] == 3 then 1 else 0;
      var q := MarkBits(marks);
      var rest := MarkBits(marks[1..]);
      assert q == b + 2 * rest;
      HalveOddEven(b, rest);
      MarkUnitsOfBits(q, b, marks[1..], e + 1);
      MarkUnitsCons(p, q, c, b, e, marks[1..]);
      assert [if b == 1 then 3 else 1] + marks[1..] == marks;
    } else {
      assert e + 1 == MAX_ELEMENTS;
    }
  }

  /** One more mark bit below a pattern adds one mark in front of its marks. */
  lemma MarkUnitsCons(p: nat, q: nat, c: nat, b: nat, e: nat, tail: seq<nat>)
    requires c <= 1 && b <= 1 && e + 1 < MAX_ELEMENTS
    requires p == c + 2 * q && q % 2 == b
    requires MarkUnits(q, e + 1) == tail
    ensures MarkUnits(p, e) == [if b == 1 then 3 else 1] + tail
  {
    HalveOddEven(c, q);
  }

  /** Halving a number of the form `c + 2 * m` with `c` a bit. */
  lemma HalveOddEven(c: nat, m: nat)
    requires c <= 1
    ensures (c + 2 * m) / 2 == m && (c + 2 * m) % 2 == c
  {
  }

  /** Decoding an encoded code gives the code back. */
  lemma EncodeMarksRoundTrip(marks: seq<nat>)
    requires ValidMarks(marks)
    ensures MarksOf(EncodeMarks(marks)) == marks
  {
    var n := |marks|;
    var v := MarkBits(marks);
    var p := EncodeMarks(marks);
    assert FindStartBit(p, 0) == StartBit(1 + 2 * v, 6 - n) by {
      FindStartBitOfShifted(p, v, 7 - n, 0);
    }
    assert MarkUnits(1 + 2 * v, 6 - n) == marks by {
      MarkUnitsOfBits(1 + 2 * v, 1, marks, 6 - n);
    }
  }

  /** The powers of two the encodings use. */
  lemma Pow2UpTo6()
    ensures Pow2(0) == 1 && Pow2(1) == 2 && Pow2(2) == 4 && Pow2(3) == 8
    ensures Pow2(4) == 16 && Pow2(5) == 32 && Pow2(6) == 64
  {
  }

  lemma TableEncodesItu0To2()
    ensures forall i :: 0 <= i < 3 ==> MORSE_TABLE[i] == EncodeMarks(ITU_MORSE[i])
  {
    Pow2UpTo6();
    assert MORSE_TABLE[0] == EncodeMarks(ITU_MORSE[0]);
    assert MORSE_TABLE[1] == EncodeMarks(ITU_MORSE[1]);
    assert MORSE_TABLE[2] == EncodeMarks(ITU_MORSE[2]);
  }

  lemma TableEncodesItu3To5()
    ensures forall i :: 3 <= i < 6 ==> MORSE_TABLE[i] == EncodeMarks(ITU_MORSE[i])
  {
    Pow2UpTo6();
    assert MORSE_TABLE[3] == EncodeMarks(ITU_MORSE[3]);
    assert MORSE_TABLE[4] == EncodeMarks(ITU_MORSE[4]);
    assert MORSE_TABLE[5] == EncodeMarks(ITU_MORSE[5]);
  }

  lemma TableEncodesItu0To5()
    ensures forall i :: 0 <= i < 6 ==> MORSE_TABLE[i] == EncodeMarks(ITU_MORSE[i])
  {
    TableEncodesItu0To2();
    TableEncodesItu3To5();
  }

  lemma TableEncodesItu6To8()
    ensures forall i :: 6 <= i < 9 ==> MORSE_TABLE[i] == EncodeMarks(ITU_MORSE[i])
  {
    Pow2UpTo6();
    assert MORSE_TABLE[6] == EncodeMarks(ITU_MORSE[6]);
    assert MORSE_TABLE[7] == EncodeMarks(ITU_MORSE[7]);
    assert MORSE_TABLE[8] == EncodeMarks(ITU_MORSE[8]);
  }

  lemma TableEncodesItu9To11()
    ensures forall i :: 9 <= i < 12 ==> MORSE_TABLE[i] == EncodeMarks(ITU_MORSE[i])
  {
    Pow2UpTo6();
    assert MORSE_TABLE[9] == EncodeMarks(ITU_MORSE[9]);
    assert MORSE_TABLE[10] == EncodeMarks(ITU_MORSE[10]);
    assert MORSE_TABLE[11] == EncodeMarks(ITU_MORSE[11]);
  }

  lemma TableEncodesItu6To11()
    ensures forall i :: 6 <= i < 12 ==> MORSE_TABLE[i] == EncodeMarks(ITU_MORSE[i])
  {
    TableEncodesItu6To8();
    TableEncodesItu9To11();
  }

  lemma TableEncodesItu12To14()
    ensures forall i :: 12 <= i < 15 ==> MORSE_TABLE[i] == EncodeMarks(ITU_MORSE[i])
  {
    Pow2UpTo6();
    assert ITU_MORSE[12] == [3, 3];
    assert MORSE_TABLE[12] == 224;
    assert MarkBits([3, 3]) == 3;
    assert MORSE_TABLE[12] == EncodeMarks(ITU_MORSE[12]);
    assert MORSE_TABLE[13] == EncodeMarks(ITU_MORSE[13]);
    assert MORSE_TABLE[14] == EncodeMarks(ITU_MORSE[14]);
  }

  lemma TableEncodesItu15To17()
    ensures forall i :: 15 <= i < 18 ==> MORSE_TABLE[i] == EncodeMarks(ITU_MORSE[i])
  {
    Pow2UpTo6();
    assert MORSE_TABLE[15] == EncodeMarks(ITU_MORSE[15]);
    assert MORSE_TABLE[16] == EncodeMarks(ITU_MORSE[16]);
    assert MORSE_TABLE[17] == EncodeMarks(ITU_MORSE[17]);
  }

  lemma TableEncodesItu12To17()
    ensures forall i :: 12 <= i < 18 ==> MORSE_TABLE[i] == EncodeMarks(ITU_MORSE[i])
  {
    TableEncodesItu12To14();
    TableEncodesItu15To17();
  }

  lemma TableEncodesItu18To20()
    ensures forall i :: 18 <= i < 21 ==> MORSE_TABLE[i] == EncodeMarks(ITU_MORSE[i])
  {
    Pow2UpTo6();
    assert MORSE_TABLE[18] == EncodeMarks(ITU_MORSE[18]);
    assert MORSE_TABLE[19] == EncodeMarks(ITU_MORSE[19]);
    assert MORSE_TABLE[20] == EncodeMarks(ITU_MORSE[20]);
  }

  lemma TableEncodesItu21To23()
    ensures forall i :: 21 <= i < 24 ==> MORSE_TABLE[i] == EncodeMarks(ITU_MORSE[i])
  {
    Pow2UpTo6();
    assert MORSE_TABLE[21] == EncodeMarks(ITU_MORSE[21]);
    assert MORSE_TABLE[22] == EncodeMarks(ITU_MORSE[22]);
    assert MORSE_TABLE[23] == EncodeMarks(ITU_MORSE[23]);
  }

  lemma TableEncodesItu18To23()
    ensures forall i :: 18 <= i < 24 ==> MORSE_TABLE[i] == EncodeMarks(ITU_MORSE[i])
  {
    TableEncodesItu18To20();
    TableEncodesItu21To23();
  }

  lemma TableEncodesItu24To26()
    ensures forall i :: 24 <= i < 27 ==> MORSE_TABLE[i] == EncodeMarks(ITU_MORSE[i])
  {
    Pow2UpTo6();
    assert MORSE_TABLE[24] == EncodeMarks(ITU_MORSE[24]);
    assert MORSE_TABLE[25] == EncodeMarks(ITU_MORSE[25]);
    assert MORSE_TABLE[26] == EncodeMarks(ITU_MORSE[26]);
  }

  lemma TableEncodesItu27To29()
    ensures forall i :: 27 <= i < 30 ==> MORSE_TABLE[i] == EncodeMarks(ITU_MORSE[i])
  {
    Pow2UpTo6();
    assert MORSE_TABLE[27] == EncodeMarks(ITU_MORSE[27]);
    assert MORSE_TABLE[28] == EncodeMarks(ITU_MORSE[28]);
    assert MORSE_TABLE[29] == EncodeMarks(ITU_MORSE[29]);
  }

  lemma TableEncodesItu24To29()
    ensures forall i :: 24 <= i < 30 ==> MORSE_TABLE[i] == EncodeMarks(ITU_MORSE[i])
  {
    TableEncodesItu24To26();
    TableEncodesItu27To29();
  }

  lemma TableEncodesItu30To32()
    ensures forall i :: 30 <= i < 33 ==> MORSE_TABLE[i] == EncodeMarks(ITU_MORSE[i])
  {
    Pow2UpTo6();
    assert MORSE_TABLE[30] == EncodeMarks(ITU_MORSE[30]);
    assert MORSE_TABLE[31] == EncodeMarks(ITU_MORSE[31]);
    assert MORSE_TABLE[32] == EncodeMarks(ITU_MORSE[32]);
  }

  lemma TableEncodesItu33To35()
    ensures forall i :: 33 <= i < 36 ==> MORSE_TABLE[i] == EncodeMarks(ITU_MORSE[i])
  {
    Pow2UpTo6();
    assert MORSE_TABLE[33] == EncodeMarks(ITU_MORSE[33]);
    assert MORSE_TABLE[34] == EncodeMarks(ITU_MORSE[34]);
    assert MORSE_TABLE[35] == EncodeMarks(ITU_MORSE[35]);
  }

  lemma TableEncodesItu30To35()
    ensures forall i :: 30 <= i < 36 ==> MORSE_TABLE[i] == EncodeMarks(ITU_MORSE[i])
  {
    TableEncodesItu30To32();
    TableEncodesItu33To35();
  }

  /** Every table entry is keyed as its character's International Morse code. */
  lemma MorseTableIsItu()
    ensures forall i :: 0 <= i < MORSE_TABLE_SIZE ==> MarksOf(MORSE_TABLE[i]) == ITU_MORSE[i]
  {
    TableEncodesItu0To5();
    TableEncodesItu6To11();
    TableEncodesItu12To17();
    TableEncodesItu18To23();
    TableEncodesItu24To29();
    TableEncodesItu30To35();
    ItuMorseValid();
    forall i | 0 <= i < MORSE_TABLE_SIZE
      ensures MarksOf(MORSE_TABLE[i]) == ITU_MORSE[i]
    {
      EncodeMarksRoundTrip(ITU_MORSE[i]);
    }
  }

  /** Every code of the International Morse table is one to six dots and dashes. */
  lemma ItuMorseValid()
    ensures forall i :: 0 <= i < |ITU_MORSE| ==> ValidMarks(ITU_MORSE[i])
  {
    forall i | 0 <= i < |ITU_MORSE|
      ensures ValidMarks(ITU_MORSE[i])
    {
      var m := ITU_MORSE[i];
      assert 1 <= |m| <= 6;
    }
  }

  /** A letter of either case or a digit is keyed as its International Morse code. */
  lemma LookupIsItu(c: char)
    requires IsDigit(c) || IsUpper(c) || IsLower(c)
    ensures var i := LookupMorseChar(c);
            MarksOf(MorseData(i)) == ITU_MORSE[i]
            && i == (if IsDigit(c) then 26 + (c as int - '0' as int)
                     else if IsUpper(c) then c as int - 'A' as int
                     else c as int - 'a' as int)
  {
    MorseTableIsItu();
  }
}
