/** The non-blocking radio-teletype modulator.

    Each character is sent as a frame of seven elements: a start element with
    the carrier off (space), five data elements carrying the character's 5-bit
    Baudot code least significant bit first (1 = carrier on, mark), and a stop
    element with the carrier on. Data and start elements last 22 ms, the stop
    element 33 ms. Codes are the letters case of the International Telegraph
    Alphabet No. 2 (ITU-T Recommendation S.1); characters without a code are
    sent as a space, and past the end of the message the line idles at mark.
 */
module Rtty {
  import opened Platform
  import opened Modulator

  const RTTY_TIME_BASIS: nat := 22
  const RTTY_TIME_BASIS2: nat := 33

  const BAUDOT_LTRS: nat := 0x1F
  const BAUDOT_FIGS: nat := 0x1B
  const BAUDOT_SPACE: nat := 0x04
  const BAUDOT_CR: nat := 0x08
  const BAUDOT_LF: nat := 0x02
  /** The table's marker for a character without a code. */
  const UNSUPPORTED: nat := 0xFF

  // ---------------------------------------------------------------------------
  // The Baudot table

  /** ITA2 letters case for A-Z as ITU-T Recommendation S.1 lists them:
      the five code positions 1 to 5 in order, 1 for mark (carrier on). */
  const ITA2_PATTERNS: seq<seq<nat>> := [
    [1, 1, 0, 0, 0],    // A
    [1, 0, 0, 1, 1],    // B
    [0, 1, 1, 1, 0],    // C
    [1, 0, 0, 1, 0],    // D
    [1, 0, 0, 0, 0],    // E
    [1, 0, 1, 1, 0],    // F
    [0, 1, 0, 1, 1],    // G
    [0, 0, 1, 0, 1],    // H
    [0, 1, 1, 0, 0],    // I
    [1, 1, 0, 1, 0],    // J
    [1, 1, 1, 1, 0],    // K
    [0, 1, 0, 0, 1],    // L
    [0, 0, 1, 1, 1],    // M
    [0, 0, 1, 1, 0],    // N
    [0, 0, 0, 1, 1],    // O
    [0, 1, 1, 0, 1],    // P
    [1, 1, 1, 0, 1],    // Q
    [0, 1, 0, 1, 0],    // R
    [1, 0, 1, 0, 0],    // S
    [0, 0, 0, 0, 1],    // T
    [1, 1, 1, 0, 0],    // U
    [0, 1, 1, 1, 1],    // V
    [1, 1, 0, 0, 1],    // W
    [1, 0, 1, 1, 1],    // X
    [1, 0, 1, 0, 1],    // Y
    [1, 0, 0, 0, 1]     // Z
  ]

  /** The value of a code written position 1 first, position 1 in the lowest bit. */
  function PatternValue(d: seq<nat>): nat {
    PatternValueFrom(d, 0)
  }

  /** The value of the positions from k on. */
  function PatternValueFrom(d: seq<nat>, k: nat): nat
    decreases |d| - k
  {
    if k >= |d| then 0 else (if Mark(d, k) then 1 else 0) + 2 * PatternValueFrom(d, k + 1)
  }

  /** Position j+1 of a pattern is mark. */
  predicate Mark(d: seq<nat>, j: nat) {
    j < |d| && d[j] == 1
  }

  /** `(code >> i) & 1` for a non-negative code. */
  function Bit(code: nat, i: nat): bool {
    if i == 0 then code % 2 == 1 else Bit(code / 2, i - 1)
  }

  /** The letter codes A-Z of the corrected table, as ITA2 assigns them. */
  const ITA2_LETTERS: seq<nat> := [
    0x03, 0x19, 0x0E, 0x09, 0x01, 0x0D, 0x1A, 0x14, 0x06, 0x0B, 0x0F, 0x12, 0x1C,
    0x0C, 0x18, 0x16, 0x17, 0x0A, 0x05, 0x10, 0x07, 0x1E, 0x13, 0x1D, 0x15, 0x11]

  /** The letter codes A-Z as the source's tables give them. */
  const SOURCE_LETTERS: seq<nat> := [
    0x03, 0x19, 0x0E, 0x09, 0x01, 0x0D, 0x1A, 0x14, 0x06, 0x0B, 0x0F, 0x12, 0x1C,
    0x18, 0x16, 0x17, 0x0A, 0x05, 0x10, 0x07, 0x1E, 0x1D, 0x13, 0x1B, 0x11, 0x15]

  /** Entry i (0-31) of the 32-entry block for `@` or `` ` ``, the 26 letters
      and five punctuation marks. */
  function LetterBlock(letters: seq<nat>, i: nat): (b: nat)
    requires |letters| == 26 && i < 32
  {
    if 1 <= i <= 26 then letters[i - 1] else UNSUPPORTED
  }

  /** Entry i of the 128-entry table indexed by ASCII code, whose letter
      blocks both hold `letters`: of the control characters only line feed and
      carriage return have codes, of the characters 32-63 only the space
      (figures are not sent). */
  function TableEntry(letters: seq<nat>, i: nat): (b: nat)
    requires |letters| == 26 && i < 128
  {
    if i < 32 then (if i == 10 then BAUDOT_LF else if i == 13 then BAUDOT_CR else UNSUPPORTED)
    else if i < 64 then (if i == 32 then BAUDOT_SPACE else UNSUPPORTED)
    else if i < 96 then LetterBlock(letters, i - 64)
    else LetterBlock(letters, i - 96)
  }

  predicate IsUpperLetter(c: char) { 'A' <= c <= 'Z' }
  predicate IsLowerLetter(c: char) { 'a' <= c <= 'z' }

  /** `get_baudot_code(c)` over the corrected table: the code of an ASCII
      character, 0xFF for everything without one and for characters outside
      0-127 (negative as a C `char`). */
  function GetBaudotCode(c: char): (b: nat)
    ensures IsUpperLetter(c) ==> b == ITA2_LETTERS[c as int - 'A' as int]
    ensures IsLowerLetter(c) ==> b == ITA2_LETTERS[c as int - 'a' as int]
    ensures c == ' ' ==> b == BAUDOT_SPACE
    ensures c == '\r' ==> b == BAUDOT_CR
    ensures c == '\n' ==> b == BAUDOT_LF
    ensures !IsUpperLetter(c) && !IsLowerLetter(c) && c !in {' ', '\r', '\n'} ==> b == UNSUPPORTED
  {
    if c as int < 128 then TableEntry(ITA2_LETTERS, c as int) else UNSUPPORTED
  }

  /** Every code the corrected table holds fits in five bits, or marks a
      character without one. */
  lemma CodesFitFiveBits(c: char)
    ensures GetBaudotCode(c) < 32 || GetBaudotCode(c) == UNSUPPORTED
  {
    assert forall i :: 0 <= i < 26 ==> ITA2_LETTERS[i] < 32;
  }

  lemma {:induction false} BitOfZero(i: nat)
    ensures !Bit(0, i)
  {
    if i > 0 {
      BitOfZero(i - 1);
    }
  }

  /** Bit i of the value of the positions from k on is position k+i. */
  lemma {:induction false} BitOfPatternValue(d: seq<nat>, k: nat, i: nat)
    ensures Bit(PatternValueFrom(d, k), i) == Mark(d, k + i)
    decreases i
  {
    if k >= |d| {
      BitOfZero(i);
    } else {
      LowBitAndRest(if Mark(d, k) then 1 else 0, PatternValueFrom(d, k + 1));
      if i > 0 {
        BitOfPatternValue(d, k + 1, i - 1);
      }
    }
  }

  /** A low bit b and the rest w, put together as b + 2w, come apart again. */
  lemma LowBitAndRest(b: nat, w: nat)
    requires b < 2
    ensures (b + 2 * w) % 2 == b && (b + 2 * w) / 2 == w
  {
  }

  lemma LettersMatchIta2AToD()
    ensures forall i :: 0 <= i < 4 ==> ITA2_LETTERS[i] == PatternValue(ITA2_PATTERNS[i])
  {
    assert ITA2_LETTERS[0] == PatternValue(ITA2_PATTERNS[0]);
    assert ITA2_LETTERS[1] == PatternValue(ITA2_PATTERNS[1]);
    assert ITA2_LETTERS[2] == PatternValue(ITA2_PATTERNS[2]);
    assert ITA2_LETTERS[3] == PatternValue(ITA2_PATTERNS[3]);
  }

  lemma LettersMatchIta2EToH()
    ensures forall i :: 4 <= i < 8 ==> ITA2_LETTERS[i] == PatternValue(ITA2_PATTERNS[i])
  {
    assert ITA2_LETTERS[4] == PatternValue(ITA2_PATTERNS[4]);
    assert ITA2_LETTERS[5] == PatternValue(ITA2_PATTERNS[5]);
    assert ITA2_LETTERS[6] == PatternValue(ITA2_PATTERNS[6]);
    assert ITA2_LETTERS[7] == PatternValue(ITA2_PATTERNS[7]);
  }

  lemma LettersMatchIta2IToL()
    ensures forall i :: 8 <= i < 12 ==> ITA2_LETTERS[i] == PatternValue(ITA2_PATTERNS[i])
  {
    assert ITA2_LETTERS[8] == PatternValue(ITA2_PATTERNS[8]);
    assert ITA2_LETTERS[9] == PatternValue(ITA2_PATTERNS[9]);
    assert ITA2_LETTERS[10] == PatternValue(ITA2_PATTERNS[10]);
    assert ITA2_LETTERS[11] == PatternValue(ITA2_PATTERNS[11]);
  }

  lemma LettersMatchIta2MToP()
    ensures forall i :: 12 <= i < 16 ==> ITA2_LETTERS[i] == PatternValue(ITA2_PATTERNS[i])
  {
    assert ITA2_LETTERS[12] == PatternValue(ITA2_PATTERNS[12]);
    assert ITA2_LETTERS[13] == PatternValue(ITA2_PATTERNS[13]);
    assert ITA2_LETTERS[14] == PatternValue(ITA2_PATTERNS[14]);
    assert ITA2_LETTERS[15] == PatternValue(ITA2_PATTERNS[15]);
  }

  lemma LettersMatchIta2QToT()
    ensures forall i :: 16 <= i < 20 ==> ITA2_LETTERS[i] == PatternValue(ITA2_PATTERNS[i])
  {
    assert ITA2_LETTERS[16] == PatternValue(ITA2_PATTERNS[16]);
    assert ITA2_LETTERS[17] == PatternValue(ITA2_PATTERNS[17]);
    assert ITA2_LETTERS[18] == PatternValue(ITA2_PATTERNS[18]);
    assert ITA2_LETTERS[19] == PatternValue(ITA2_PATTERNS[19]);
  }

  lemma LettersMatchIta2UToW()
    ensures forall i :: 20 <= i < 23 ==> ITA2_LETTERS[i] == PatternValue(ITA2_PATTERNS[i])
  {
    assert ITA2_LETTERS[20] == PatternValue(ITA2_PATTERNS[20]);
    assert ITA2_LETTERS[21] == PatternValue(ITA2_PATTERNS[21]);
    assert ITA2_LETTERS[22] == PatternValue(ITA2_PATTERNS[22]);
  }

  lemma LettersMatchIta2XToZ()
    ensures forall i :: 23 <= i < 26 ==> ITA2_LETTERS[i] == PatternValue(ITA2_PATTERNS[i])
  {
    assert ITA2_LETTERS[23] == PatternValue(ITA2_PATTERNS[23]);
    assert ITA2_LETTERS[24] == PatternValue(ITA2_PATTERNS[24]);
    assert ITA2_LETTERS[25] == PatternValue(ITA2_PATTERNS[25]);
  }

  /** The corrected letter codes are the ITA2 patterns' values. */
  lemma LettersMatchIta2()
    ensures forall i :: 0 <= i < 26 ==> ITA2_LETTERS[i] == PatternValue(ITA2_PATTERNS[i])
  {
    LettersMatchIta2AToD();
    LettersMatchIta2EToH();
    LettersMatchIta2IToL();
    LettersMatchIta2MToP();
    LettersMatchIta2QToT();
    LettersMatchIta2UToW();
    LettersMatchIta2XToZ();
  }

  /** A letter of either case is sent as its ITA2 letters-case pattern: data
      element k+1 carries code position k+1. */
  lemma LetterSignalIsIta2(c: char, k: nat)
    requires IsUpperLetter(c) || IsLowerLetter(c)
    requires k < 5
    ensures var i := if IsUpperLetter(c) then c as int - 'A' as int else c as int - 'a' as int;
            Bit(GetBaudotCode(c), k) == Mark(ITA2_PATTERNS[i], k)
  {
    var i := if IsUpperLetter(c) then c as int - 'A' as int else c as int - 'a' as int;
    assert GetBaudotCode(c) == ITA2_LETTERS[i];
    LetterCodeBits(i, k);
  }

  /** Bit k of letter i's code is position k+1 of its ITA2 pattern. */
  lemma LetterCodeBits(i: nat, k: nat)
    requires i < 26
    ensures Bit(ITA2_LETTERS[i], k) == Mark(ITA2_PATTERNS[i], k)
  {
    LettersMatchIta2();
    BitOfPatternValue(ITA2_PATTERNS[i], 0, k);
  }

  /** Lower case is sent exactly as upper case. */
  lemma LowerCaseSendsUpperCase(c: char)
    requires IsLowerLetter(c)
    ensures GetBaudotCode(c) == GetBaudotCode((c as int - 32) as char)
  {
  }

  // ---------------------------------------------------------------------------
  // The flash table as the source compiles it

  /** The number of entries the flash table as written holds. */
  const FLASH_TABLE_SIZE: nat := 121

  /** Entry i of the flash table as written. In its lower-case block the row
      for o-u sits at the end of the comment of the row before it, so the
      block holds `` ` ``, a-n, then v-z, then the five punctuation entries,
      and the table is seven entries short. */
  function FlashEntryAsWritten(i: nat): (b: nat)
    requires i < FLASH_TABLE_SIZE
  {
    if i < 111 then TableEntry(SOURCE_LETTERS, i)
    else if i < 116 then SOURCE_LETTERS[i - 111 + 21]
    else UNSUPPORTED
  }

  /** `get_baudot_code(c)` over the flash table as written: `None` where the
      read goes past the end of the array. */
  function GetBaudotCodeAsWritten(c: char): (b: Option<nat>)
    ensures b.None? <==> FLASH_TABLE_SIZE <= c as int < 128
    ensures c as int < 111 ==> b == Some(if c as int < 128 then TableEntry(SOURCE_LETTERS, c as int) else UNSUPPORTED)
  {
    if c as int < 128 then
      if c as int < FLASH_TABLE_SIZE then Some(FlashEntryAsWritten(c as int)) else None
    else Some(UNSUPPORTED)
  }

  /** Which Baudot table the modulator reads: the corrected 128-entry ITA2
      table, or the flash table as the source compiles it. `beyond` stands for
      the bytes the program image holds after the end of that table; they are
      not determined by the source, so they are a parameter. */
  datatype CodeTable = Ita2 | Flash(beyond: seq<nat>)

  /** `get_baudot_code(c)` over a table: the byte read for the character. A
      read past the end of the flash table finds the next byte of the image,
      taken as a no-code marker where `beyond` runs out. */
  function Lookup(t: CodeTable, c: char): (b: nat)
    ensures b < 256
    ensures t.Ita2? ==> b == GetBaudotCode(c)
    ensures t.Flash? && GetBaudotCodeAsWritten(c).Some? ==> b == GetBaudotCodeAsWritten(c).value
    ensures t.Flash? && c as int < 111 ==> b == TableEntry(SOURCE_LETTERS, c as int)
  {
    assert forall i :: 0 <= i < 26 ==> SOURCE_LETTERS[i] < 32 && ITA2_LETTERS[i] < 32;
    match t
    case Ita2 => GetBaudotCode(c)
    case Flash(beyond) =>
      match GetBaudotCodeAsWritten(c)
      case Some(b) => b
      case None =>
        var i := c as int - FLASH_TABLE_SIZE;
        if i < |beyond| then beyond[i] % 256 else UNSUPPORTED
  }

  /** Every byte either table gives a character inside it fits five bits or
      is the no-code marker; only a read past the end of the flash table can
      find anything else. */
  lemma LookupFitsFiveBits(t: CodeTable, c: char)
    ensures t.Ita2? || !(FLASH_TABLE_SIZE <= c as int < 128) ==> Lookup(t, c) < 32 || Lookup(t, c) == UNSUPPORTED
  {
    CodesFitFiveBits(c);
    assert forall i :: 0 <= i < 26 ==> SOURCE_LETTERS[i] < 32;
  }

  /** The table as written has 121 entries: lower-case 'o' gets the code the
      source gives 'V', not that of 'O', and 'y', 'z' and the five characters
      after them read past the end. */
  lemma FlashTableTruncated()
    ensures GetBaudotCodeAsWritten('O') == Some(0x16)
    ensures GetBaudotCodeAsWritten('o') == Some(0x1D)
    ensures GetBaudotCodeAsWritten('y').None? && GetBaudotCodeAsWritten('z').None?
  {
  }

  /** The source's codes for N-Z are not the ITA2 ones: 'T' is sent as the
      ITA2 code of 'U', and 'X' as the figures-shift code. */
  lemma SourceLettersDisagreeWithIta2()
    ensures SOURCE_LETTERS[..13] == ITA2_LETTERS[..13]
    ensures SOURCE_LETTERS['T' as int - 'A' as int] == 0x07
    ensures PatternValue(ITA2_PATTERNS['T' as int - 'A' as int]) == 0x10
    ensures SOURCE_LETTERS['T' as int - 'A' as int] == ITA2_LETTERS['U' as int - 'A' as int]
    ensures SOURCE_LETTERS['X' as int - 'A' as int] == BAUDOT_FIGS
    ensures forall i :: 13 <= i < 26 && i != 22 ==> SOURCE_LETTERS[i] != ITA2_LETTERS[i]
  {
    LettersMatchIta2();
  }

  // ---------------------------------------------------------------------------
  // The modulator

  /** The modulator: the common state plus the message position (the source's
      `async_str_pos`, only ever zero or incremented), the repeat flag, and
      the table the codes are read from. */
  datatype Rtty = Rtty(m: ModBase, pos: nat, repeat: bool, table: CodeTable)

  /** The constructor: no message; element done, so steps do nothing until a message starts. */
  function NewRtty(table: CodeTable): (s: Rtty)
    ensures s.pos == 0 && !s.repeat && s.m.str.Null? && s.m.elementDone && s.table == table
  {
    Rtty(NewModBase(), 0, false, table)
  }

  /** The frame is in a consistent place: at most seven elements and the
      position within the message; a repeating message never rests at its end. */
  predicate Inv(s: Rtty) {
    s.m.element <= 6 && s.pos <= s.m.Length()
    && (s.repeat && s.m.Length() > 0 ==> s.pos < s.m.Length())
  }

  /** `start_rtty_message(message, repeat)`: install the message, carrier off,
      and arm the first frame at once. */
  function StartRttyMessage(s: Rtty, message: CString, repeat: bool): (r: Rtty)
    ensures r.repeat == repeat && r.pos == 0 && r.m.str == message && r.m.position == 0
    ensures !r.m.active && !r.m.switchedOn && r.m.nextEvent == 0
    ensures !r.m.elementDone && r.m.element == 0
    ensures r.m.elementDelay == s.m.elementDelay && r.table == s.table
    ensures Inv(r)
  {
    var m := SetString(s.m.(active := false, nextEvent := 0, switchedOn := false, elementDone := true), message);
    Rtty(m.(elementDone := false, element := 0), 0, repeat, s.table)
  }

  /** `start_transmission(message, timing_param)`: a nonzero parameter means repeat. */
  function StartTransmission(s: Rtty, message: CString, timingParam: int): (r: Rtty)
    ensures r.repeat <==> timingParam != 0
    ensures r.pos == 0 && r.m.str == message && !r.m.active && !r.m.elementDone && r.m.element == 0
    ensures r.table == s.table
    ensures Inv(r)
  {
    StartRttyMessage(s, message, timingParam != 0)
  }

  /** `compute_element_time(time, stop_bit)`. */
  function ComputeElementTime(time: nat, stopBit: bool): (t: nat)
    ensures t > time
  {
    time + (if stopBit then RTTY_TIME_BASIS2 else RTTY_TIME_BASIS)
  }

  /** A character of the message is at the position. */
  predicate InMessage(str: CString, pos: nat) {
    str.Str? && pos < StrLen(str.chars)
  }

  /** The code the data elements carry at a position: the byte the table
      gives the character, the space code for a character without one, and
      all marks (the letters-shift code) when there is no character to send.
      It fits five bits unless the flash table is read past its end. */
  function SentCode(t: CodeTable, str: CString, pos: nat): (code: nat)
    ensures code < 256 && code != UNSUPPORTED
    ensures !InMessage(str, pos) ==> code == BAUDOT_LTRS
    ensures InMessage(str, pos) && Lookup(t, str.chars[pos]) != UNSUPPORTED ==> code == Lookup(t, str.chars[pos])
    ensures InMessage(str, pos) && Lookup(t, str.chars[pos]) == UNSUPPORTED ==> code == BAUDOT_SPACE
    ensures t.Ita2? || !InMessage(str, pos) || !(FLASH_TABLE_SIZE <= str.chars[pos] as int < 128) ==> code < 32
  {
    if InMessage(str, pos) then
      var b := Lookup(t, str.chars[pos]);
      LookupFitsFiveBits(t, str.chars[pos]);
      if b != UNSUPPORTED then b else BAUDOT_SPACE
    else BAUDOT_LTRS
  }

  /** Where the stop element leaves the position. */
  function NextPos(str: CString, pos: nat, repeat: bool): nat {
    if InMessage(str, pos) then (if pos + 1 >= StrLen(str.chars) && repeat then 0 else pos + 1) else pos
  }

  datatype Stepped = Stepped(s: Rtty, status: ElementStatus)

  /** `step_element(time)`. */
  function StepElement(s: Rtty, time: nat): (r: Stepped)
    ensures r.status == ElementDone <==> s.m.elementDone
    ensures r.status == Early <==> !s.m.elementDone && time < s.m.nextEvent
    ensures r.status != ElementActive ==> r.s == s
    ensures r.s.repeat == s.repeat && r.s.m.str == s.m.str && r.s.m.elementDone == s.m.elementDone
    ensures r.s.table == s.table
  {
    if s.m.elementDone then Stepped(s, ElementDone)
    else if time < s.m.nextEvent then Stepped(s, Early)
    else if s.m.element == 0 then
      Stepped(s.(m := s.m.(active := false, nextEvent := ComputeElementTime(time, false), element := 1)), ElementActive)
    else if s.m.element <= 5 then
      Stepped(s.(m := s.m.(active := DataOn(s), nextEvent := ComputeElementTime(time, false), element := s.m.element + 1)), ElementActive)
    else if s.m.element == 6 then
      Stepped(s.(m := s.m.(active := true, nextEvent := ComputeElementTime(time, true), element := 0), pos := NextPos(s.m.str, s.pos, s.repeat)), ElementActive)
    else Stepped(s, ElementActive)
  }

  /** The carrier of data element `element`: bit `element - 1` of the
      character's code, of the space's code when it has none, and mark once
      the message is over. */
  function DataOn(s: Rtty): bool
    requires 1 <= s.m.element
  {
    if s.m.str.Str? && s.pos < s.m.Length() then
      var code := Lookup(s.table, s.m.str.chars[s.pos]);
      if code != UNSUPPORTED then Bit(code, s.m.element - 1) else Bit(BAUDOT_SPACE, s.m.element - 1)
    else true
  }

  /** What an element step at or after its scheduled time does: the start
      element turns the carrier off, data element k+1 keys bit k of the sent
      code, the stop element turns it on and moves to the next character;
      start and data elements last 22 ms, the stop element 33 ms. */
  lemma StepElementEffect(s: Rtty, time: nat)
    requires Inv(s) && !s.m.elementDone && time >= s.m.nextEvent
    ensures var r := StepElement(s, time);
            r.status == ElementActive && Inv(r.s)
            && r.s.m.element == (s.m.element + 1) % 7
            && r.s.m.nextEvent == time + (if s.m.element == 6 then RTTY_TIME_BASIS2 else RTTY_TIME_BASIS)
            && r.s.m.active == (if s.m.element == 0 then false
                                else if s.m.element == 6 then true
                                else Bit(SentCode(s.table, s.m.str, s.pos), s.m.element - 1))
            && r.s.pos == (if s.m.element == 6 then NextPos(s.m.str, s.pos, s.repeat) else s.pos)
  {
  }

  /** Element steps keep the frame consistent. */
  lemma StepElementKeepsInv(s: Rtty, time: nat)
    ensures Inv(s) ==> Inv(StepElement(s, time).s)
  {
  }

  /** `step_modulator(time)`: one element step, then the edge report. */
  function StepModulator(s: Rtty, time: nat): (r: (Rtty, Code))
    ensures r.1 in {TurnOn, TurnOff, LeaveOn, LeaveOff}
    ensures r.0.m.switchedOn == r.0.m.active
    ensures r.0.m.active == StepElement(s, time).s.m.active
    ensures r.1 in {TurnOn, LeaveOn} <==> r.0.m.active
    ensures Inv(s) ==> Inv(r.0)
  {
    StepElementKeepsInv(s, time);
    var st := StepElement(s, time).s;
    var o := GenerateOutputStep(st.m);
    (st.(m := o.m), o.code)
  }

  /** `is_transmission_complete()`. */
  predicate IsTransmissionComplete(s: Rtty) {
    s.m.str.Null? || (s.pos >= s.m.Length() && !s.repeat)
  }

  // ---------------------------------------------------------------------------
  // Frames

  /** Step k elements, each at the moment the previous one scheduled, starting
      at time t; collect how long the carrier is on or off in each. */
  function Elements(s: Rtty, t: nat, k: nat): (seq<Keyed>, Rtty)
    decreases k
  {
    if k == 0 then ([], s)
    else
      var r := StepElement(s, t).s;
      var rest := Elements(r, r.m.nextEvent, k - 1);
      ([Keyed(r.m.active, r.m.nextEvent - t)] + rest.0, rest.1)
  }

  /** `code >> k` for a non-negative code. */
  function Shr(code: nat, k: nat): nat {
    if k == 0 then code else Shr(code / 2, k - 1)
  }

  lemma {:induction false} ShrBit(code: nat, k: nat)
    ensures Bit(code, k) == (Shr(code, k) % 2 == 1)
    ensures Shr(code, k) / 2 == Shr(code, k + 1)
  {
    if k > 0 {
      ShrBit(code / 2, k - 1);
    }
  }

  /** n data elements carrying the low n bits of a code, lowest first. */
  function DataKeys(code: nat, n: nat): (keys: seq<Keyed>)
    ensures |keys| == n
  {
    if n == 0 then [] else [Keyed(code % 2 == 1, RTTY_TIME_BASIS as int)] + DataKeys(code / 2, n - 1)
  }

  /** The stop element: on for 33 ms, then the next frame is armed at the next position. */
  lemma StopElement(s: Rtty, t: nat)
    requires Inv(s) && s.m.element == 6 && !s.m.elementDone && t >= s.m.nextEvent
    ensures var e := Elements(s, t, 1);
            e.0 == [Keyed(true, RTTY_TIME_BASIS2 as int)]
            && e.1.m.element == 0 && !e.1.m.elementDone && e.1.pos == NextPos(s.m.str, s.pos, s.repeat)
            && e.1.m.nextEvent == t + RTTY_TIME_BASIS2
            && e.1.m.str == s.m.str && e.1.repeat == s.repeat && e.1.table == s.table && Inv(e.1)
  {
    StepElementEffect(s, t);
  }

  /** A frame in progress at a data or stop element runs to its end as the
      remaining data bits, then the stop element. */
  lemma {:induction false} FrameTail(s: Rtty, t: nat)
    requires Inv(s) && 1 <= s.m.element <= 6 && !s.m.elementDone && t >= s.m.nextEvent
    ensures var e := Elements(s, t, 7 - s.m.element);
            e.0 == DataKeys(Shr(SentCode(s.table, s.m.str, s.pos), s.m.element - 1), 6 - s.m.element) + [Keyed(true, RTTY_TIME_BASIS2 as int)]
            && e.1.m.element == 0 && !e.1.m.elementDone && e.1.pos == NextPos(s.m.str, s.pos, s.repeat)
            && e.1.m.nextEvent == t + RTTY_TIME_BASIS * (6 - s.m.element) + RTTY_TIME_BASIS2
            && e.1.m.str == s.m.str && e.1.repeat == s.repeat && e.1.table == s.table && Inv(e.1)
    decreases 7 - s.m.element
  {
    var el := s.m.element;
    if el == 6 {
      StopElement(s, t);
    } else {
      DataTail(s, t);
    }
  }

  /** The inductive step of `FrameTail` at a data element. */
  lemma {:induction false} DataTail(s: Rtty, t: nat)
    requires Inv(s) && 1 <= s.m.element <= 5 && !s.m.elementDone && t >= s.m.nextEvent
    ensures var e := Elements(s, t, 7 - s.m.element);
            e.0 == DataKeys(Shr(SentCode(s.table, s.m.str, s.pos), s.m.element - 1), 6 - s.m.element) + [Keyed(true, RTTY_TIME_BASIS2 as int)]
            && e.1.m.element == 0 && !e.1.m.elementDone && e.1.pos == NextPos(s.m.str, s.pos, s.repeat)
            && e.1.m.nextEvent == t + RTTY_TIME_BASIS * (6 - s.m.element) + RTTY_TIME_BASIS2
            && e.1.m.str == s.m.str && e.1.repeat == s.repeat && e.1.table == s.table && Inv(e.1)
    decreases 7 - s.m.element, 0
  {
    var el := s.m.element;
    var code := SentCode(s.table, s.m.str, s.pos);
    var r := DataStep(s, t);
    FrameTail(r, r.m.nextEvent);
    ShrBit(code, el - 1);
    assert DataKeys(Shr(code, el - 1), 7 - el)
        == [Keyed(Bit(code, el - 1), RTTY_TIME_BASIS as int)] + DataKeys(Shr(code, el), 6 - el);
  }

  /** The first step of `DataTail`: data element `element` keys its bit of
      the sent code for 22 ms and leaves the frame at the next element. */
  lemma DataStep(s: Rtty, t: nat) returns (r: Rtty)
    requires Inv(s) && 1 <= s.m.element <= 5 && !s.m.elementDone && t >= s.m.nextEvent
    ensures r == StepElement(s, t).s && Inv(r)
    ensures r.m.element == s.m.element + 1 && !r.m.elementDone && r.m.nextEvent == t + RTTY_TIME_BASIS
    ensures r.m.str == s.m.str && r.pos == s.pos && r.repeat == s.repeat && r.table == s.table
    ensures Elements(s, t, 7 - s.m.element)
         == ([Keyed(Bit(SentCode(s.table, s.m.str, s.pos), s.m.element - 1), RTTY_TIME_BASIS as int)]
             + Elements(r, r.m.nextEvent, 6 - s.m.element).0,
             Elements(r, r.m.nextEvent, 6 - s.m.element).1)
  {
    StepElementEffect(s, t);
    r := StepElement(s, t).s;
  }

  /** One character frame: the start element off for 22 ms, the five data
      elements of the sent code for 22 ms each, least significant bit first,
      and the stop element on for 33 ms; then the next frame is armed. */
  lemma CharacterFrame(s: Rtty, t: nat)
    requires Inv(s) && s.m.element == 0 && !s.m.elementDone && t >= s.m.nextEvent
    ensures var e := Elements(s, t, 7);
            e.0 == FrameKeys(SentCode(s.table, s.m.str, s.pos))
            && e.1.m.element == 0 && !e.1.m.elementDone && e.1.pos == NextPos(s.m.str, s.pos, s.repeat)
            && e.1.m.nextEvent == t + 6 * RTTY_TIME_BASIS + RTTY_TIME_BASIS2
            && e.1.m.str == s.m.str && e.1.repeat == s.repeat && e.1.table == s.table && Inv(e.1)
  {
    StepElementEffect(s, t);
    var r := StepElement(s, t).s;
    var rest := Elements(r, r.m.nextEvent, 6);
    assert Elements(s, t, 7) == ([Keyed(r.m.active, r.m.nextEvent - t)] + rest.0, rest.1);
    assert r.m.str == s.m.str && r.pos == s.pos && r.repeat == s.repeat && r.table == s.table;
    FrameTail(r, r.m.nextEvent);
  }

  /** The value a receiver reads from data elements, the first in the lowest bit. */
  function Received(keys: seq<Keyed>): nat {
    if keys == [] then 0 else (if keys[0].on then 1 else 0) + 2 * Received(keys[1..])
  }

  /** Reading n data elements gives back the low n bits of the code. */
  lemma {:induction false} ReceivedDataKeys(code: nat, n: nat)
    ensures Received(DataKeys(code, n)) == code % Pow2(n)
  {
    if n > 0 {
      ReceivedDataKeys(code / 2, n - 1);
      ModDouble(code, Pow2(n - 1));
      assert DataKeys(code, n)[1..] == DataKeys(code / 2, n - 1);
    }
  }

  /** The keys of a whole frame carrying a code. */
  function FrameKeys(code: nat): seq<Keyed> {
    [Keyed(false, RTTY_TIME_BASIS as int)] + DataKeys(code, 5) + [Keyed(true, RTTY_TIME_BASIS2 as int)]
  }

  /** Decoding the data elements of a frame recovers the low five bits of
      its code, so all of a five-bit code. */
  lemma FrameKeysRoundTrip(code: nat)
    ensures Received(FrameKeys(code)[1..6]) == code % 32
    ensures code < 32 ==> Received(FrameKeys(code)[1..6]) == code
  {
    assert FrameKeys(code)[1..6] == DataKeys(code, 5);
    ReceivedDataKeys(code, 5);
    assert Pow2(5) == 32;
  }

  /** A receiver decoding the data elements of any frame recovers the low
      five bits of the code sent: all of it, unless the flash table was read
      past its end. */
  lemma FrameRoundTrip(s: Rtty, t: nat)
    requires Inv(s) && s.m.element == 0 && !s.m.elementDone && t >= s.m.nextEvent
    ensures Received(Elements(s, t, 7).0[1..6]) == SentCode(s.table, s.m.str, s.pos) % 32
    ensures SentCode(s.table, s.m.str, s.pos) < 32 ==> Received(Elements(s, t, 7).0[1..6]) == SentCode(s.table, s.m.str, s.pos)
  {
    CharacterFrame(s, t);
    FrameKeysRoundTrip(SentCode(s.table, s.m.str, s.pos));
  }

  /** Element k of n data elements keys bit k of the code for 22 ms. */
  lemma {:induction false} DataKeysAt(code: nat, n: nat, k: nat)
    requires k < n
    ensures DataKeys(code, n)[k] == Keyed(Bit(code, k), RTTY_TIME_BASIS as int)
    decreases n
  {
    if k > 0 {
      DataKeysAt(code / 2, n - 1, k - 1);
    }
  }

  /** The position of a letter of either case in the alphabet. */
  function LetterIndex(c: char): (i: nat)
    requires IsUpperLetter(c) || IsLowerLetter(c)
    ensures i < 26
  {
    if IsUpperLetter(c) then c as int - 'A' as int else c as int - 'a' as int
  }

  /** A letter's frame keys the letter's ITA2 pattern, position k+1 in data
      element k+1: every letter with the corrected table, and with the flash
      table as written the letters A-M of either case, the only ones whose
      codes there are the ITA2 ones. */
  lemma LetterFrameIsIta2(s: Rtty, t: nat, k: nat)
    requires Inv(s) && s.m.element == 0 && !s.m.elementDone && t >= s.m.nextEvent
    requires InMessage(s.m.str, s.pos) && k < 5
    requires IsUpperLetter(s.m.str.chars[s.pos]) || IsLowerLetter(s.m.str.chars[s.pos])
    requires s.table.Ita2? || LetterIndex(s.m.str.chars[s.pos]) < 13
    ensures Elements(s, t, 7).0[k + 1] == Keyed(Mark(ITA2_PATTERNS[LetterIndex(s.m.str.chars[s.pos])], k), RTTY_TIME_BASIS as int)
  {
    var c := s.m.str.chars[s.pos];
    var i := LetterIndex(c);
    LetterLooksUpIta2(s.table, c);
    var code := SentCode(s.table, s.m.str, s.pos);
    assert code == ITA2_LETTERS[i];
    CharacterFrame(s, t);
    assert FrameKeys(code)[k + 1] == DataKeys(code, 5)[k];
    DataKeysAt(code, 5, k);
    LetterCodeBits(i, k);
  }

  /** A letter's code is its ITA2 code in the corrected table, and in the
      flash table as written for the letters A-M of either case. */
  lemma LetterLooksUpIta2(t: CodeTable, c: char)
    requires IsUpperLetter(c) || IsLowerLetter(c)
    requires t.Ita2? || LetterIndex(c) < 13
    ensures Lookup(t, c) == ITA2_LETTERS[LetterIndex(c)] != UNSUPPORTED
  {
    var i := LetterIndex(c);
    assert forall j :: 0 <= j < 26 ==> ITA2_LETTERS[j] != UNSUPPORTED;
    if t.Flash? {
      SourceLettersDisagreeWithIta2();
      assert SOURCE_LETTERS[..13][i] == SOURCE_LETTERS[i];
    }
  }

  /** With the flash table as written an upper-case letter is sent with the
      source's code for it, so a receiver decodes that code; for N-Z except W
      it is not the letter's ITA2 code. */
  lemma FlashLettersAsWritten(s: Rtty, t: nat)
    requires Inv(s) && s.m.element == 0 && !s.m.elementDone && t >= s.m.nextEvent
    requires s.table.Flash? && InMessage(s.m.str, s.pos) && IsUpperLetter(s.m.str.chars[s.pos])
    ensures var i := LetterIndex(s.m.str.chars[s.pos]);
            && Received(Elements(s, t, 7).0[1..6]) == SOURCE_LETTERS[i]
            && (13 <= i && i != 22 ==> Received(Elements(s, t, 7).0[1..6]) != ITA2_LETTERS[i])
  {
    SourceLettersDisagreeWithIta2();
    assert forall j :: 0 <= j < 26 ==> SOURCE_LETTERS[j] < 32;
    FrameRoundTrip(s, t);
  }

  /** The flash table as written sends 'Q' as 0x0A and 'N' as 0x18, where
      the ITA2 codes are 0x17 and 0x0C; both send the digit '6', which has no
      letters-case code, as a space. */
  lemma FlashSendsSourceCodes(beyond: seq<nat>)
    ensures SentCode(Flash(beyond), Str(['Q']), 0) == 0x0A && SentCode(Ita2, Str(['Q']), 0) == 0x17
    ensures SentCode(Flash(beyond), Str(['N']), 0) == 0x18 && SentCode(Ita2, Str(['N']), 0) == 0x0C
    ensures SentCode(Flash(beyond), Str(['6']), 0) == BAUDOT_SPACE && SentCode(Ita2, Str(['6']), 0) == BAUDOT_SPACE
  {
    assert InMessage(Str(['Q']), 0) && InMessage(Str(['N']), 0) && InMessage(Str(['6']), 0);
  }

  /** The code a character is sent with depends only on the table and the
      character, not on the rest of the message. */
  lemma SentCodeOfChar(t: CodeTable, str: CString, pos: nat)
    requires InMessage(str, pos)
    ensures SentCode(t, str, pos) == SentCode(t, Str([str.chars[pos]]), 0)
  {
    assert InMessage(Str([str.chars[pos]]), 0);
  }

  /** `frames` whole frames, starting at time t. */
  function Frames(s: Rtty, t: nat, frames: nat): Rtty
    decreases frames
  {
    if frames == 0 then s
    else
      var e := FrameEnd(s, t);
      Frames(e, e.m.nextEvent, frames - 1)
  }

  /** The state after one whole frame starting at time t. */
  function FrameEnd(s: Rtty, t: nat): Rtty {
    Elements(s, t, 7).1
  }

  /** After a frame the next one is armed, one character further on. */
  lemma FrameEndArmsNext(s: Rtty, t: nat)
    requires Inv(s) && s.m.element == 0 && !s.m.elementDone && t >= s.m.nextEvent
    ensures var e := FrameEnd(s, t);
            Inv(e) && e.m.element == 0 && !e.m.elementDone && e.m.nextEvent >= t
            && e.pos == NextPos(s.m.str, s.pos, s.repeat) && e.m.str == s.m.str && e.repeat == s.repeat
            && e.table == s.table
  {
    CharacterFrame(s, t);
  }

  /** Where `n` stop elements leave the position. */
  function PosAfter(str: CString, pos: nat, repeat: bool, n: nat): nat
    decreases n
  {
    if n == 0 then pos else PosAfter(str, NextPos(str, pos, repeat), repeat, n - 1)
  }

  /** A run of frames keeps the message and the repeat flag and moves the
      position as that many stop elements do. */
  lemma {:induction false} FramesEffect(s: Rtty, t: nat, frames: nat)
    requires Inv(s) && s.m.element == 0 && !s.m.elementDone && t >= s.m.nextEvent
    ensures var f := Frames(s, t, frames);
            f.pos == PosAfter(s.m.str, s.pos, s.repeat, frames) && f.m.str == s.m.str && f.repeat == s.repeat
    decreases frames
  {
    if frames > 0 {
      FrameEndArmsNext(s, t);
      var e := FrameEnd(s, t);
      FramesEffect(e, e.m.nextEvent, frames - 1);
      var f := Frames(e, e.m.nextEvent, frames - 1);
      assert PosAfter(s.m.str, s.pos, s.repeat, frames) == PosAfter(e.m.str, e.pos, e.repeat, frames - 1);
      assert Frames(s, t, frames) == f;
    }
  }

  /** Without repeat, stop elements advance the position one character each
      until the end of the message, where it stays. */
  lemma {:induction false} PosAfterNonRepeating(str: CString, pos: nat, n: nat)
    requires str.Str? && pos <= StrLen(str.chars)
    ensures PosAfter(str, pos, false, n) == if pos + n <= StrLen(str.chars) then pos + n else StrLen(str.chars)
    decreases n
  {
    if n > 0 {
      PosAfterNonRepeating(str, NextPos(str, pos, false), n - 1);
    }
  }

  /** A message sent without repeat advances one character per frame until
      it reaches its end, where it stays. */
  lemma NonRepeatingProgress(s: Rtty, t: nat, frames: nat)
    requires Inv(s) && s.m.element == 0 && !s.m.elementDone && t >= s.m.nextEvent
    requires s.m.str.Str? && !s.repeat
    ensures var f := Frames(s, t, frames);
            f.pos == (if s.pos + frames <= s.m.Length() then s.pos + frames else s.m.Length())
            && f.m.str == s.m.str && !f.repeat
  {
    FramesEffect(s, t, frames);
    PosAfterNonRepeating(s.m.str, s.pos, frames);
  }

  /** A message sent without repeat is complete exactly when all its
      characters have been framed. */
  lemma NonRepeatingCompletes(s: Rtty, t: nat, frames: nat)
    requires Inv(s) && s.m.element == 0 && !s.m.elementDone && t >= s.m.nextEvent
    requires s.m.str.Str? && !s.repeat
    ensures IsTransmissionComplete(Frames(s, t, frames)) <==> s.pos + frames >= s.m.Length()
  {
    NonRepeatingProgress(s, t, frames);
  }

  /** A repeating message is never complete: the position wraps before it
      reaches the end. */
  lemma RepeatingNeverCompletes(s: Rtty, t: nat, frames: nat)
    requires Inv(s) && s.m.element == 0 && !s.m.elementDone && t >= s.m.nextEvent
    requires s.m.str.Str? && s.repeat
    ensures !IsTransmissionComplete(Frames(s, t, frames))
  {
    FramesEffect(s, t, frames);
  }
}
