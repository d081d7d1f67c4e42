/** One AD9833 signal generator behind its write-avoiding cache.

    The chip has two frequency registers (channel 0, "main", and channel 1,
    "alt") and an output selector. `WaveGen` keeps a cached copy of both
    registers and of the selector so that repeated writes of an unchanged
    frequency cause no bus traffic. The model carries the cache and the chip's
    registers side by side, together with the list of commands each operation
    sends over the bus.
 */
module WaveGens {

  /** The frequency written to a channel that must make no audible sound. */
  const SILENT_FREQ: real := 0.1

  /** A command sent to the chip. Channel 0 is main, channel 1 is alt. */
  datatype Command =
    | SetFrequency(channel: nat, freq: real)
    | SetActiveFrequency(channel: nat)

  /** What the chip actually holds. */
  datatype Chip = Chip(reg0: real, reg1: real, selected: nat)

  /** A generator: the cached register values and selector, plus the chip itself. */
  datatype WaveGen = WaveGen(freqMain: real, freqAlt: real, main: bool, chip: Chip)

  /** The result of an operation: the new generator and the commands it sent. */
  datatype Written = Written(gen: WaveGen, cmds: seq<Command>)

  function ChannelOf(main: bool): nat {
    if main then 0 else 1
  }

  /** The chip's state after it has received one command. */
  function Receive(chip: Chip, c: Command): Chip {
    match c
    case SetFrequency(ch, f) => if ch == 0 then chip.(reg0 := f) else chip.(reg1 := f)
    case SetActiveFrequency(ch) => chip.(selected := ch)
  }

  /** The chip's state after it has received `cmds` in order. */
  function Apply(chip: Chip, cmds: seq<Command>): Chip
    decreases |cmds|
  {
    if cmds == [] then chip else Apply(Receive(chip, cmds[0]), cmds[1..])
  }

  /** The cache tells the truth about the chip. */
  predicate InSync(g: WaveGen) {
    g.chip.reg0 == g.freqMain && g.chip.reg1 == g.freqAlt && g.chip.selected == ChannelOf(g.main)
  }

  /** The cached frequency of one channel. */
  function Cached(g: WaveGen, main: bool): real {
    if main then g.freqMain else g.freqAlt
  }

  /** A freshly constructed generator: both channels cached as silent, main selected.
      The chip is whatever the caller powered it up to. */
  function NewWaveGen(chip: Chip): (g: WaveGen)
    ensures Cached(g, true) == SILENT_FREQ && Cached(g, false) == SILENT_FREQ && g.main
    ensures g.chip == chip
  {
    WaveGen(SILENT_FREQ, SILENT_FREQ, true, chip)
  }

  /** `set_frequency(frequency, main)`: update one channel's cache, writing the
      chip only when the cached value differs. */
  function SetFreq(g: WaveGen, frequency: real, main: bool): (w: Written)
    ensures Cached(w.gen, main) == frequency
    ensures Cached(w.gen, !main) == Cached(g, !main) && w.gen.main == g.main
    ensures w.cmds == [] <==> Cached(g, main) == frequency
    ensures w.cmds != [] ==> w.cmds == [SetFrequency(ChannelOf(main), frequency)]
    ensures w.gen.chip == Apply(g.chip, w.cmds)
  {
    if Cached(g, main) == frequency then Written(g, [])
    else
      var cmds := [SetFrequency(ChannelOf(main), frequency)];
      var cached := if main then g.(freqMain := frequency) else g.(freqAlt := frequency);
      Written(cached.(chip := Apply(g.chip, cmds)), cmds)
  }

  /** `set_active_frequency(main)`: always sends the selector command. */
  function SetActive(g: WaveGen, main: bool): (w: Written)
    ensures w.cmds == [SetActiveFrequency(ChannelOf(main))]
    ensures w.gen.main == main
    ensures w.gen.freqMain == g.freqMain && w.gen.freqAlt == g.freqAlt
    ensures w.gen.chip == Apply(g.chip, w.cmds)
  {
    var cmds := [SetActiveFrequency(ChannelOf(main))];
    Written(g.(main := main, chip := Apply(g.chip, cmds)), cmds)
  }

  /** `force_refresh()`: rewrite both channels and the selector from the cache,
      whatever the chip currently holds. */
  function ForceRefresh(g: WaveGen): (w: Written)
    ensures |w.cmds| == 3
    ensures w.gen.freqMain == g.freqMain && w.gen.freqAlt == g.freqAlt && w.gen.main == g.main
    ensures w.gen.chip == Apply(g.chip, w.cmds)
  {
    var cmds := [SetFrequency(0, g.freqMain), SetFrequency(1, g.freqAlt), SetActiveFrequency(ChannelOf(g.main))];
    Written(g.(chip := Apply(g.chip, cmds)), cmds)
  }

  /** Writing the value a channel already holds is a no-op: no command, no change. */
  lemma SetFreqIdempotent(g: WaveGen, frequency: real, main: bool)
    ensures var w := SetFreq(g, frequency, main);
            SetFreq(w.gen, frequency, main) == Written(w.gen, [])
  {
  }

  /** Silencing a freshly constructed generator costs no bus traffic. */
  lemma SilencingNewGenSendsNothing(chip: Chip, main: bool)
    ensures SetFreq(NewWaveGen(chip), SILENT_FREQ, main).cmds == []
  {
  }

  /** The cache never lies once it is true: each operation keeps the chip in
      step with the cache. */
  lemma OperationsPreserveSync(g: WaveGen, frequency: real, main: bool)
    requires InSync(g)
    ensures InSync(SetFreq(g, frequency, main).gen)
    ensures InSync(SetActive(g, main).gen)
  {
    var c := SetFrequency(ChannelOf(main), frequency);
    assert Apply(g.chip, [c]) == Apply(Receive(g.chip, c), []);
    var a := SetActiveFrequency(ChannelOf(main));
    assert Apply(g.chip, [a]) == Apply(Receive(g.chip, a), []);
  }

  /** Whatever another application did to the chip, one forced refresh puts it
      back in step with the cache. */
  lemma {:induction false} ForceRefreshRestoresSync(g: WaveGen)
    ensures InSync(ForceRefresh(g).gen)
  {
    var cmds := [SetFrequency(0, g.freqMain), SetFrequency(1, g.freqAlt), SetActiveFrequency(ChannelOf(g.main))];
    var c1 := Receive(g.chip, cmds[0]);
    var c2 := Receive(c1, cmds[1]);
    var c3 := Receive(c2, cmds[2]);
    assert Apply(g.chip, cmds) == Apply(c1, cmds[1..]);
    assert Apply(c1, cmds[1..]) == Apply(c2, cmds[2..]);
    assert Apply(c2, cmds[2..]) == Apply(c3, cmds[3..]);
  }
}
