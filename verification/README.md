# FluxTune station core, modelled in Dafny

FluxTune is a radio-receiver simulator for a small microcontroller. A VFO
dial is tuned across a simulated band. Simulated stations transmit Morse CQ
calls, RTTY (radioteletype) messages, numbers-station groups, two-tone pager
pages and a wandering jammer carrier. A small pool of AD9833 wave-generator
chips is shared among the stations. Only a station that holds a generator
makes a sound. A station manager decides which stations are close enough to
the dial to deserve one. While the dial is tuning, it moves far-away
stations ahead of the dial.

This project models that core as pure Dafny functions over immutable
datatypes and proves properties of the model.

- **Generators and pool.** A wave generator caches two channel frequencies
  and the channel selector, and sends a chip command only when a value
  changes (`WaveGens`). The pool hands generators out by station id and
  takes them back (`GenPool`). A realization holds at most one generator
  (`Realizations`). The realization pool steps and refreshes every station
  (`Scheduler`).
- **Modulators.** The shared modulator base (`Modulator`) turns the switch
  state into step codes. It is extended by the Morse keyer (`Morse`), the
  ITA2 teleprinter (`Rtty`), the two-tone pager (`Pager`) and the jammer
  state machine (`Jammer`). The Morse table is proved to be International
  Morse (Recommendation ITU-R M.1677-1). Its encoding is proved to round-trip.
  Every RTTY frame is proved to carry the code of its character, so a
  receiver decoding the data elements gets that code back. The RTTY code
  table is a parameter: the stations read the flash table as the source
  compiles it, and a corrected ITA2 table serves as the reference.
- **Transmitter.** The common transmitter logic (`Transmitter`) covers
  begin, follow-the-dial, the audible-window check, reinitialize, and the
  station states DORMANT, ACTIVE, AUDIBLE and SILENT.
- **Stations.** Six kinds are modelled: CW (`CwStation`), numbers
  (`NumbersStation`), pager (`PagerStation`), two-tone pager on two
  generators (`Pager2Station`), RTTY (`RttyStation`) and jammer
  (`JammerStation`). Each is modelled with its begin, realize, update and
  step.
- **Station manager.** `StationManager` covers the proximity pass, the
  allocation of the four AD9833 channels, the tuning-direction pipeline and
  the relocation of far stations. Its update takes a flag that selects
  the source's 32-bit target arithmetic and booking, or corrected ones
  that avoid the defects listed under Findings.
- **Signal meter and tuner.** The signal meter's charge accumulator
  (`SignalMeter`) and the VFO tuner's step-and-clamp dial (`VfoTuner`).

Randomness (Arduino `random`) is a parameter. Every random value a step
consumes is passed in as a draw, and `Platform.RandomReachesAll` shows that
every value in range is reachable. The clock (`millis()`) is also a
parameter. Unsigned 32-bit and signed 16-bit and 32-bit arithmetic is
written out wherever the source's result depends on it.

## Model

| member | source | states |
|---|---|---|
| WaveGens.NewWaveGen | src/wavegen.cpp:6-12 | a new generator caches both channels as silent with the main channel selected, and leaves the chip untouched |
| WaveGens.SetFreq | src/wavegen.cpp:14-30 | the named channel's cache becomes the frequency and the other channel and selector are kept; exactly one frequency command goes to that channel when the cached value differed, none when it was equal; the chip is the old chip after those commands |
| WaveGens.SetActive | src/wavegen.cpp:32-35 | always sends one selector command for the named channel, records the selection, keeps both cached frequencies |
| WaveGens.ForceRefresh | src/wavegen.cpp:37-44 | sends exactly three commands and keeps the cache; with `ForceRefreshRestoresSync`, the chip ends up matching the cache whatever it held before |
| WaveGens.SetFreqIdempotent | src/wavegen.cpp:14-30 | writing the value a channel already caches sends nothing and changes nothing |
| WaveGens.SilencingNewGenSendsNothing | src/wavegen.cpp:6-30 | silencing either channel of a freshly built generator costs no bus traffic |
| WaveGens.OperationsPreserveSync | src/wavegen.cpp:14-35 | when the cache agrees with the chip, it still agrees after a frequency write or a channel selection |
| WaveGens.ForceRefreshRestoresSync | src/wavegen.cpp:37-44 | after a forced refresh the chip agrees with the cache, whatever it held before |
| GenPool.FirstFree | src/wave_gen_pool.cpp:15-23 | the result is -1 exactly when every flag from `from` on is set; otherwise it is the lowest clear flag at or after `from` |
| GenPool.Acquire | src/wave_gen_pool.cpp:15-23 | fails (-1, pool unchanged) exactly when every generator is in use; otherwise hands out the lowest free slot, marks only that slot, and keeps the generators |
| GenPool.GetRealizer | src/wave_gen_pool.cpp:15-23 | the first-fit loop hands out what `Acquire` describes; a handed-out slot was free and is the only flag that changes |
| GenPool.Release | src/wave_gen_pool.cpp:26-28 | clears slot n's flag, whoever holds it, and changes no other flag or generator |
| GenPool.Store | src/wave_gen_pool.cpp:30-32 | driving the generator at slot n through `access_realizer` replaces that generator only and leaves every flag alone |
| GenPool.NewPool | src/wave_gen_pool.cpp:5-13 | the constructor frees every slot whatever the status array held, so the free count equals the generator count |
| GenPool.GetAvailableCount | src/wave_gen_pool.cpp:34-42 | the counting loop returns the number of free slots; free plus in use is the total; zero is returned exactly when an acquisition would fail |
| GenPool.AcquisitionsDistinct | src/wave_gen_pool.cpp:15-23 | two acquisitions with no release in between never hand out the same slot |
| GenPool.AcquireThenReleaseRestores | src/wave_gen_pool.cpp:15-28 | releasing the slot just acquired restores the pool exactly |
| GenPool.AcquireTakesOne | src/wave_gen_pool.cpp:15-42 | a successful acquisition lowers the available count by exactly one |
| Realizations.NewRealization | src/realization.cpp:5-9 | a new realization holds no generator and keeps its station id |
| Realizations.Begin | src/realization.cpp:17-28 | a held generator is kept and reported as success with nothing changed; otherwise success holds exactly when some slot was free, the lowest free slot is taken, and failure leaves the pool alone; success holds exactly when a generator is held afterwards |
| Realizations.End | src/realization.cpp:43-48 | afterwards nothing is held; a held slot is freed and only that flag changes; without a lease the pool is untouched |
| Realizations.BaseUpdate | src/realization.cpp:12-14 | the base class reports that nothing was updated |
| Realizations.BaseStep | src/realization.cpp:32-38 | the base class always asks to keep going |
| Realizations.BeginKeepsLeaseValid | src/realization.cpp:17-28 | a lease that names nothing or a slot in use still does so after `begin` |
| Realizations.BeginIdempotent | src/realization.cpp:17-28 | a second `begin` after a successful one succeeds and changes nothing |
| Realizations.EndIdempotent | src/realization.cpp:43-48 | a second `end` changes nothing, so no slot is freed twice |
| Realizations.BeginThenEndRestoresPool | src/realization.cpp:17-48 | acquiring and then ending a lease leaves the pool as it was |
| Scheduler.NewScheduler | src/realization_pool.cpp:6-11 | the constructor stores the count and status array and starts with the hardware clean |
| Scheduler.SchedulerBegin | src/realization_pool.cpp:13-15 | `begin` always succeeds |
| Scheduler.MarkDirty | src/realization_pool.cpp:54-58 | sets the dirty flag and nothing else |
| Scheduler.Step | src/realization_pool.cpp:17-23 | succeeds exactly when every realization asks to keep going; otherwise it stops right after the first one that asks to stop, having stepped exactly the realizations up to it in order |
| Scheduler.Update | src/realization_pool.cpp:28-38 | updates every realization in order; when the hardware was dirty it then refreshes every realization in order; the flag is clear afterwards |
| Scheduler.ForceRefreshAll | src/realization_pool.cpp:41-51 | refreshes every realization's generator in order |
| Scheduler.StepReachesAllWhenNoneStops | src/realization_pool.cpp:17-23 | when no realization ever asks to stop, a step reaches all of them |
| Scheduler.RefreshEstablishes | src/realization_pool.cpp:28-51 | a refresh that puts each realization in step, and that later refreshes do not undo, leaves every realization in step after a dirty update |
| Modulator.StrLen | src/async_modulator.cpp:48 | `strlen`: the count of characters before the first NUL, which is the NUL's index when there is one |
| Modulator.NewModBase | src/async_modulator.cpp:6-17 | a new modulator has an empty string at its end, a finished element, the carrier off, and an event that is already due |
| Modulator.GenerateOutputStep | src/async_modulator.cpp:33-41 | reports TurnOn or TurnOff exactly when the keyed flag differs from the last report, and LeaveOn or LeaveOff exactly when it is the same; the report then records the keyed flag |
| Modulator.SetString | src/async_modulator.cpp:46-50 | installs the string, rewinds to position 0 and sets the length to `strlen`, or 0 for a null string; timing and keying are left alone |
| Modulator.CurrentChar | src/async_modulator.cpp:52-57 | the character at the position while the position is before the length (never NUL), otherwise NUL |
| Modulator.NoRepeatedEdges | src/async_modulator.cpp:33-41 | right after any output step, the next one reports a steady state unless the keyed flag changes in between |
| Modulator.EdgeReportsTrackSwitchState | src/async_modulator.cpp:33-41 | after each report the remembered switch state is on exactly when the report was TurnOn or LeaveOn |
| Pager.NewPager | src/async_pager.cpp:5-13 | a new pager is idle, silent and never started |
| Pager.StartPagerTransmission | src/async_pager.cpp:15-27 | arms tone A with the carrier on and its timing left to the first step, and records repeat |
| Pager.RandomSilenceDuration | src/async_pager.cpp:97-101 | a silence lasts at least 3000 ms and less than 6000 ms |
| Pager.StartNextPhase | src/async_pager.cpp:68-95 | tone A is followed by tone B at once for 3000 ms; tone B by a random silence when repeating, or else the pager goes idle with no event; silence by tone A for 1000 ms |
| Pager.StepPager | src/async_pager.cpp:29-66 | an idle or unstarted pager reports carrier off; the first step times tone A and turns it on; before the event the report says whether the carrier is on; nothing else changes in those cases |
| Pager.PhaseChanges | src/async_pager.cpp:29-95 | at a scheduled event: tone A to tone B reports a frequency change; tone B to a repeating silence reports carrier off; tone B without repeat ends the page reporting carrier off; silence to tone A reports carrier on; each with its new deadline |
| Pager.StepKeepsInv | src/async_pager.cpp:29-95 | every step keeps the pager transmitting exactly in the tone states and only while active |
| Pager.CodeMatchesCarrier | src/async_pager.cpp:29-66 | a step reports an on code (TurnOn, LeaveOn, ChangeFreq) exactly when the pager transmits afterwards |
| Pager.RepeatingCycle | src/async_pager.cpp:29-95 | a repeating page goes tone A, tone B, silence, tone A, reporting frequency change, carrier off, carrier on, with deadlines 3000 ms, 3000 to 6000 ms and 1000 ms apart |
| Pager.EndedPagerStaysQuiet | src/async_pager.cpp:31-33 | once a page without repeat has ended, every later step reports carrier off and changes nothing |
| Pager.SinglePage | src/async_pager.cpp:15-95 | a page without repeat turns tone A on, changes to tone B 1000 ms later, and ends 3000 ms after that with the carrier off and the pager idle |
| Jammer.NewJammer | src/async_jammer.cpp:4-18 | a new jammer is idle and muted, with no drift and no speed |
| Jammer.StartJammerTransmission | src/async_jammer.cpp:20-33 | transmits at once with its timing and drift clock restarted; the walk keeps its position and speed |
| Jammer.BoundaryEnforcement | src/async_jammer.cpp:118-128 | the offset ends inside ±2000 Hz; an offset past an edge is clamped to that edge and the speed turns inwards at half its size; an offset inside is unchanged along with its speed |
| Jammer.Kick | src/async_jammer.cpp:104 | the random change of speed lies in [-12.5, 12.5) Hz |
| Jammer.BrownianDrift | src/async_jammer.cpp:99-116 | a drift leaves the offset inside ±2000 Hz and changes nothing but the offset and the speed |
| Jammer.ShouldMute | src/async_jammer.cpp:130-134 | mutes exactly when `random(100)` is below 15 |
| Jammer.MuteDuration | src/async_jammer.cpp:136-140 | a mute lasts 20 to 200 ms |
| Jammer.DriftIfDue | src/async_jammer.cpp:41-45 | drifts and restarts the drift clock exactly when at least 50 ms have passed by unsigned subtraction; otherwise nothing changes |
| Jammer.StepJammer | src/async_jammer.cpp:35-97 | an idle jammer reports carrier off and changes nothing; the first step drifts if due, schedules the next event 50 ms on and reports carrier on |
| Jammer.DriftKeepsSpeedBound | src/async_jammer.cpp:99-128 | the speed never exceeds 237.5 Hz per step: damping takes back what the largest kick adds, and a bounce halves it |
| Jammer.StepKeepsInv | src/async_jammer.cpp:35-140 | every step keeps the offset in range, the speed bounded and the flags in agreement |
| Jammer.EventTransitions | src/async_jammer.cpp:68-96 | at an event a transmitting jammer either mutes for 20 to 200 ms and reports carrier off, or carries on for 50 ms reporting carrier on; a muted one resumes and reports carrier on |
| Jammer.ReportTracksOffset | src/async_jammer.cpp:53-67 | between events a frequency change is reported exactly when the offset has moved more than 25 Hz from the last report, which it then records; afterwards the report is never more than 25 Hz behind |
| Jammer.CodeMatchesCarrier | src/async_jammer.cpp:35-97 | a step reports an on code exactly when the jammer transmits afterwards |
| Jammer.MuteEnds | src/async_jammer.cpp:68-96 | a mute always ends: the step at its deadline turns the carrier back on and schedules the next event 50 ms later |
| Morse.NewMorse | src/async_morse.cpp:71-79 | a new Morse modulator is finished, unkeyed, with no completion pending and the configured fist quality |
| Morse.MorseData | src/async_morse.cpp:57-66 | the table byte at an index inside the 36-entry table, 0 outside it |
| Morse.LookupMorseChar | src/async_morse.cpp:84-104 | digits map to 26-35, letters of either case to 0-25, anything else to 0; the index is always inside the table |
| Morse.LookupIsItu | src/async_morse.cpp:14-104 | a letter of either case or a digit is looked up at its own index and keyed as its International Morse code (ITU-R M.1677-1) |
| Morse.MorseTableIsItu | src/async_morse.cpp:14-51 | every one of the 36 table bytes decodes to the International Morse code of its character |
| Morse.EncodeMarksRoundTrip | src/async_morse.cpp:110-127 | decoding the byte that encodes a code of one to six dots and dashes, by finding its start marker and reading the marks above it, gives the code back |
| Morse.FindStartBitOfShifted | src/async_morse.cpp:114-125 | the start-marker search, shifting right once per element, stops at the marker wherever the encoding put it |
| Morse.MarkUnitsOfBits | src/async_morse.cpp:229-234 | reading one bit per element above the marker, 3 units for a dash and 1 for a dot, gives back the marks encoded there |
| Morse.FindStartBit | src/async_morse.cpp:114-126 | the search either finds no marker or stops on a set bit at an element position before 7 |
| Morse.StartStepElement | src/async_morse.cpp:110-127 | loads the character's pattern and marks the element unfinished; when the marker is found the first event is due at once with the gap flag set; otherwise element and gap flag are kept; position, string and keying are untouched |
| Morse.VariationPercent | src/async_morse.cpp:165-186 | the allowed jitter is 0 to 2 percent for a mark, 0 to 3 percent for a gap, and 0 for a perfect fist |
| Morse.ComputeElementTime | src/async_morse.cpp:161-210 | a perfect fist gives exactly `count` units after `time`; any fist stays within the jitter percentage of that |
| Morse.JitterBound | src/async_morse.cpp:189-206 | a variation of at most 3 percent moves a duration by at most that much, so the 80 to 120 percent clamp never fires |
| Morse.StepElement | src/async_morse.cpp:212-242 | outside a character or with the character finished it reports done and changes nothing; an early call changes nothing; a step never moves the position, phase, string or fist |
| Morse.MarkStep | src/async_morse.cpp:221-234 | at a mark event with a perfect fist the next element starts keyed for 3 units on a dash bit and 1 on a dot bit |
| Morse.GapStep | src/async_morse.cpp:235-239 | at the end of a mark with a perfect fist the carrier goes off for one unit |
| Morse.CharacterKeying | src/async_morse.cpp:212-242 | with a perfect fist, a character is keyed as its marks in order, each for 3 or 1 units and each followed by a one-unit gap, after which the element machine reports the character done |
| Morse.RunKeepsInv | src/async_morse.cpp:212-242 | any run of element steps keeps the modulator invariant, the phase and the element unit |
| Morse.RunElements | src/async_morse.cpp:212-242 | driving the element machine never changes the fist quality |
| Morse.StepPosition | src/async_morse.cpp:245-280 | moving through the message never changes the fist, the string, the unit or the reported switch state, and leaves the phase as it was or at the inter-character or word space |
| Morse.StepSpace | src/async_morse.cpp:282-286 | once the space is due the machine returns to keying characters; before that nothing changes |
| Morse.EveryCharacterStarts | src/async_morse.cpp:84-127 | whatever character is looked up, its table entry has a start marker, so starting its element machine never fails |
| Morse.CharacterSpacing | src/async_morse.cpp:245-280 | with a perfect fist, when a character is done: at the end of the text the step reports it exhausted; before a character other than space it arms that character's pattern, carrier off, and waits 3 units; on a space it skips it and waits 7 units |
| Morse.NextCharacterDue | src/async_morse.cpp:212-280 | with a perfect fist, after a character's marks and the one-unit gap after its last mark, the next character is due 3 units later, 1 + 3 in all, or 7 units later after a space, 1 + 7 in all; at the end of the text the step reports it exhausted |
| Morse.CompletesExactlyAtEnd | src/async_morse.cpp:245-316 | while keying characters, a step reports completion exactly when the current character is done and it was the last of the text, and then the modulator is finished with the carrier off |
| Morse.StepModulator | src/async_morse.cpp:297-316 | a step never leaves a completion pending, never reports a frequency change, and keeps the fist |
| Morse.ElementDelayFromWpm | include/async_morse.h:6 | the element unit is the integer part of 1000 / wpm milliseconds |
| Morse.StartTransmission | src/async_morse.cpp:129-159 | installs the message at position 0 with the unit from the wpm and the carrier unkeyed; it starts in the word-space phase exactly when the first character is a space |
| Morse.StartEstablishesInv | src/async_morse.cpp:129-159 | starting a message leaves the carrier keyed only inside a mark and no completion pending |
| Morse.StepElementPreservesInv | src/async_morse.cpp:212-242 | an element step keeps that invariant, and a character reported done leaves the carrier off |
| Morse.StepPositionPreservesInv | src/async_morse.cpp:245-280 | a position step keeps the invariant, and reaching the end of the message leaves the carrier off |
| Morse.StepPreservesInv | src/async_morse.cpp:297-316 | every modulator step keeps the invariant |
| Morse.CompletionLeavesCarrierOff | src/async_morse.cpp:291-316 | the step that reports completion was keying characters and leaves the modulator finished with the carrier off |
| Morse.FinishedStaysQuiet | src/async_morse.cpp:297-323 | a finished modulator stays finished and reports only carrier off, so completion is reported once per message |
| Rtty.GetBaudotCode | src/async_rtty.cpp:51-70 | with the 128-entry table corrected: letters of either case get their ITA2 letters-case code (ITU-T Recommendation S.1), space, CR and LF their format codes, every other character the 0xFF no-code marker |
| Rtty.CodesFitFiveBits | src/async_rtty.cpp:10-37 | every code in the corrected table fits five bits, or is the no-code marker |
| Rtty.LettersMatchIta2 | src/async_rtty.cpp:25-28 | the corrected letter codes A-Z are the values of the ITA2 letters-case patterns, position 1 in the lowest bit |
| Rtty.LetterSignalIsIta2 | src/async_rtty.cpp:120-133 | with the corrected table, data element k+1 of a letter of either case carries position k+1 of that letter's ITA2 pattern |
| Rtty.LetterCodeBits | src/async_rtty.cpp:128-129 | bit k of a corrected letter code is position k+1 of the letter's ITA2 pattern |
| Rtty.LowerCaseSendsUpperCase | src/async_rtty.cpp:31-35 | a lower-case letter is sent exactly as its upper case, as the table comment promises |
| Rtty.GetBaudotCodeAsWritten | src/async_rtty.cpp:10-37 | over the flash table as it compiles, with 121 entries: characters 121 to 127 read past the end of the array; entries below 111 are the source's own table |
| Rtty.FlashTableTruncated | src/async_rtty.cpp:34 | as written, 'o' is sent as 0x1D ('v') and not as 'O' (0x16), and 'y' and 'z' read past the end of the table |
| Rtty.SourceLettersDisagreeWithIta2 | src/async_rtty.cpp:26-28 | the source's codes for A-M are ITA2, but every code N-Z except W differs: 'T' is sent as ITA2 'U' (0x07 where ITA2 has 0x10) and 'X' as the figures shift |
| Rtty.Lookup | src/async_rtty.cpp:51-70 | the byte `get_baudot_code` reads from either table: with the corrected table its code; with the flash table as compiled the entry written in the source for characters below 121, the image's next byte past the end, and the no-code marker above 127; always a byte |
| Rtty.LookupFitsFiveBits | src/async_rtty.cpp:10-70 | every byte read inside either table fits five bits or is the no-code marker; only a read past the end of the flash table can give anything else |
| Rtty.NewRtty | src/async_rtty.cpp:40-49 | a new RTTY modulator has no message, position 0, no repeat, and a finished element so steps do nothing |
| Rtty.StartRttyMessage | src/async_rtty.cpp:72-89 | installs the message at position 0 with repeat recorded, carrier off, and the start element armed at time 0 |
| Rtty.StartTransmission | src/async_rtty.cpp:91-94 | the same start, with repeat exactly when the parameter is nonzero |
| Rtty.ComputeElementTime | src/async_rtty.cpp:97-99 | the next element is always strictly later; with `StepElementEffect`, 22 ms for start and data elements and 33 ms for the stop element |
| Rtty.SentCode | src/async_rtty.cpp:121-137 | the code a frame carries for the table in use: the looked-up code, the space code for a character without one, all marks past the end of the message; never the no-code marker, always a byte, and five bits unless the flash table was read past its end |
| Rtty.StepElement | src/async_rtty.cpp:101-160 | reports done exactly when the element is finished and early exactly when its time has not come, changing nothing in both cases; it never changes the message, the repeat flag or the table |
| Rtty.StepElementEffect | src/async_rtty.cpp:109-157 | at an element's time, for whichever table the modulator reads: the start element is off, data element k carries bit k-1 of the sent code, the stop element is on; the counter wraps after seven elements; only the stop element moves the position; each lasts 22 ms, the stop 33 ms |
| Rtty.StepElementKeepsInv | src/async_rtty.cpp:101-160 | element steps keep the counter below seven and the position within the message, and keep a repeating message from resting at its end |
| Rtty.StepModulator | src/async_rtty.cpp:162-167 | a step is one element step followed by the edge report: it reports only edge or steady codes, on codes exactly when the element step left the carrier keyed, records that report, and keeps the frame consistent |
| Rtty.StopElement | src/async_rtty.cpp:143-156 | the stop element is on for 33 ms, then the next frame is armed at the next position |
| Rtty.FrameTail | src/async_rtty.cpp:115-156 | a frame caught at a data or stop element runs to its end as the remaining data bits of the sent code from the table in use and then the 33 ms stop element, ending at the next frame's start with message, repeat flag and table kept |
| Rtty.DataStep | src/async_rtty.cpp:115-141 | one data element keys its bit of the sent code for 22 ms and moves to the next element, keeping position, message, repeat flag and table |
| Rtty.CharacterFrame | src/async_rtty.cpp:101-160 | a whole frame, for either table, is the start element off for 22 ms, five data elements of 22 ms carrying the sent code lowest bit first, and the stop element on for 33 ms, 165 ms in all; then the next frame is armed with the table kept |
| Rtty.ReceivedDataKeys | src/async_rtty.cpp:128-129 | reading n data elements gives back the low n bits of the code |
| Rtty.FrameKeysRoundTrip | src/async_rtty.cpp:115-141 | decoding the data elements of a frame recovers the low five bits of its code, so all of a five-bit code |
| Rtty.FrameRoundTrip | src/async_rtty.cpp:101-160 | a receiver decoding the data elements of any frame recovers the low five bits of the code sent, and the whole code whenever it fits five bits, which it always does except after a read past the end of the flash table |
| Rtty.DataKeysAt | src/async_rtty.cpp:126-133 | data element k of a run keys bit k of the code for 22 ms |
| Rtty.LetterFrameIsIta2 | src/async_rtty.cpp:10-37 | a letter's frame keys its ITA2 letters-case pattern position by position: every letter with the corrected table, and only the letters A-M of either case with the flash table as written |
| Rtty.LetterLooksUpIta2 | src/async_rtty.cpp:10-37 | a letter looks up its ITA2 code in the corrected table, and in the flash table as written only for A-M of either case |
| Rtty.FlashLettersAsWritten | src/async_rtty.cpp:26-28 | with the flash table as written a receiver decodes an upper-case letter as the source's code for it, which for N-Z other than W is not the letter's ITA2 code |
| Rtty.FlashSendsSourceCodes | src/async_rtty.cpp:26-28 | the flash table sends 'Q' as 0x0A and 'N' as 0x18 where ITA2 has 0x17 and 0x0C; both tables send the digit '6', which has no letters-case code, as the space code |
| Rtty.SentCodeOfChar | src/async_rtty.cpp:121-124 | the code a character is sent with depends only on the table and the character, not on the rest of the message |
| Rtty.FrameEndArmsNext | src/async_rtty.cpp:143-156 | after a frame the next one is armed, one character further on |
| Rtty.FramesEffect | src/async_rtty.cpp:143-156 | a run of frames keeps the message and the repeat flag and moves the position as that many stop elements do |
| Rtty.NonRepeatingProgress | src/async_rtty.cpp:149-155 | without repeat, each frame advances one character until the end of the message, where the position stays |
| Rtty.NonRepeatingCompletes | src/async_rtty.cpp:169-172 | without repeat, the message is complete exactly when all its characters have been framed |
| Rtty.RepeatingNeverCompletes | src/async_rtty.cpp:149-172 | a repeating message is never complete: the position wraps to 0 before it rests at the end |
| Transmitter.StationIdOf | src/sim_transmitter.cpp:7 | the station id is the frequency in kilohertz, truncated |
| Transmitter.NewTransmitter | src/sim_transmitter.cpp:6-18 | a new transmitter is dormant, disabled, unkeyed, at offset 0, holding no generator, with its id from the frequency |
| Transmitter.WriteFreq | src/sim_transmitter.cpp:52-54 | writing one channel through the cache sets that channel only, keeps the selector, and touches no other generator or flag |
| Transmitter.WriteSelect | src/sim_transmitter.cpp:72-79 | selecting a channel keeps both cached frequencies and touches no other generator or flag |
| Transmitter.WriteBoth | src/sim_transmitter.cpp:52-54 | writing both channels leaves both caching the frequency, keeps the selector, and touches no other generator |
| Transmitter.CommonBegin | src/sim_transmitter.cpp:20-29 | adopts the frequency and its station id, resets the offset, and succeeds exactly as the idempotent lease `begin` does, with that lease and pool |
| Transmitter.CommonFrequencyUpdate | src/sim_transmitter.cpp:31-42 | records the tuned frequency with its tenths; the audio offset minus the beat-oscillator offset equals the tuned frequency minus the station's own |
| Transmitter.CheckFrequencyBounds | src/sim_transmitter.cpp:44-64 | in the window exactly when the offset lies in [150, 5000] Hz, and the enabled flag records that; leaving the window silences both channels of a held generator; the flags and the other generators never change |
| Transmitter.EndTx | src/sim_transmitter.cpp:66-70 | gives back the generator, if any, exactly as the lease `end` does, and changes nothing else in the station |
| Transmitter.ForceGenRefresh | src/sim_transmitter.cpp:72-79 | a held generator's chip is brought back in step with its cache, no other generator changes, and nothing happens without a generator |
| Transmitter.Reinitialize | src/sim_transmitter.cpp:82-101 | always succeeds; releases any generator, and restarts ACTIVE at the new frequency, disabled, unkeyed, at offset 0, keeping the tuned frequency and station id |
| Transmitter.ReinitializeIdempotent | src/sim_transmitter.cpp:82-101 | reinitializing twice is the same as once |
| Transmitter.SetStationState | src/sim_transmitter.cpp:103-117 | records the new state; leaving AUDIBLE releases the generator, every other change keeps it |
| Transmitter.DemotionFreesGenerator | src/sim_transmitter.cpp:103-117 | a demotion out of AUDIBLE hands the held generator back and frees exactly that slot |
| Transmitter.ForceFrequencyUpdate | src/sim_transmitter.cpp:142-164 | an enabled station with a generator recomputes its offset from the current station frequency and puts it on the main channel; otherwise nothing changes |
| Transmitter.SetActiveFlag | src/sim_transmitter.cpp:134-136 | `setActive` writes the carrier flag and nothing else |
| Transmitter.RealizeKeyed | src/sim_station.cpp:82-93 | with a generator and an audible offset, the station is enabled and the selected channel follows the carrier flag (main when keyed, the silent space channel otherwise); out of the window it is disabled; without a generator nothing changes |
| Transmitter.BeginKeyed | src/sim_station.cpp:58-80 | succeeds exactly when the station already held a generator or one was free, and holds one exactly then; failure changes only the offset and station id; the frequency, carrier flag and lifecycle state are kept |
| Transmitter.UpdateKeyed | src/sim_station.cpp:96-107 | follows the dial to the new audio offset, keeps the lease, the pool's flags, the carrier flag and the lifecycle state |
| Transmitter.OutOfWindowKeepsGenerator | src/sim_transmitter.cpp:44-64 | leaving the audible window disables the station but keeps its generator, and coming back re-enables it at once |
| CwStation.Callsign | src/sim_station.cpp:177-194 | every generated callsign is fictional: W, K or N, a doubled digit, then two or three capital letters |
| CwStation.CallsignReachesAll | src/sim_station.cpp:177-194 | conversely every such callsign is the one some draws produce, so the generator covers exactly the fictional callsigns |
| CwStation.DrawsFor | src/sim_station.cpp:185-191 | the draws that spell a fictional callsign are within the ranges `random(3)`, `random(10)`, `random(2)` and `random(26)` produce |
| CwStation.CqMessageFits | src/sim_station.cpp:196-203 | the CQ message built with the default format of include/sim_station.h:13 always fits the 40-byte buffer with its NUL, and has no NUL inside it |
| CwStation.NewStation | src/sim_station.cpp:22-56 | a new CW station is a new transmitter with the given speed as both current and base speed, no calls counted, a threshold of 3 to 8 calls, no pause, and a fresh CQ message |
| CwStation.Begin | src/sim_station.cpp:58-80 | succeeds exactly when a generator was held or free, and then holds one, ends any pause and starts keying the CQ message at the current speed; failure changes neither the keyer, the pause nor the pool |
| CwStation.Update | src/sim_station.cpp:96-107 | always succeeds; follows the dial to the new audio offset and changes nothing else in the station, its lease or the pool's flags |
| CwStation.WpmDrift | src/sim_station.cpp:229-242 | the new speed is always 8 to 25 wpm and within 4 of the base unless clamped there; for a base of 12 to 21 it is always within 4 |
| CwStation.QsyDrift | src/sim_station.cpp:211-213 | a frustrated operator moves between -250 Hz and just under +250 Hz |
| CwStation.FrustrationDrift | src/sim_station.cpp:205-227 | moves the station frequency by the drift, installs a new callsign and drifted speed, keeps the lease, keying and counters |
| CwStation.OnCode | src/sim_station.cpp:113-152 | every keyer code keeps the station consistent; a charge pulse goes to the meter exactly on key-down and while the key is held |
| CwStation.KeyingLeavesPool | src/sim_station.cpp:115-130 | key-down sets the carrier flag and key-up clears it, neither touching the lease or the pool's flags |
| CwStation.CompletionEffects | src/sim_station.cpp:131-152 | at the end of a call the carrier goes off, the generator is released, and the next call is due 4 s later; reaching the threshold resets the count, draws a threshold of 3 to 8 and moves the frequency; otherwise the count goes up by one and the frequency stays |
| CwStation.RetryIfDue | src/sim_station.cpp:154-165 | a due retry keeps the station consistent |
| CwStation.RetryEffects | src/sim_station.cpp:154-165 | a due retry holds a generator exactly when one was free, and then ends the pause; without one it schedules another try 0.5 to 1.5 s later and leaves the pool alone |
| CwStation.Step | src/sim_station.cpp:111-168 | a step always asks to keep going, keeps the station consistent (in particular a pausing station holds no generator), and sends a pulse exactly when the keyer reported key-down or a held key |
| CwStation.Randomize | src/sim_station.cpp:244-270 | a new operator on the same frequency: new callsign, speed 8 to 25 as both base and current, no calls counted, a threshold of 3 to 10, no pause pending; the transmitter and the keyer's state are kept (see the Left out line on the shared message buffer) |
| NumbersStation.NewStation | src/sim_numbers.cpp:11-25 | a new numbers station starts at the interval signal with no repeats or groups sent, six repeats and thirteen groups per cycle, nothing pending and no transmission in progress |
| NumbersStation.NumberGroup | src/sim_numbers.cpp:205-218 | a generated group is always five decimal digits |
| NumbersStation.NumberGroupReachesAll | src/sim_numbers.cpp:205-218 | conversely every five-digit group is produced by some draws |
| NumbersStation.MessagesFitBuffer | src/sim_numbers.cpp:205-232 | "FT", a group and "00000" all fit the six-byte buffer with their NUL |
| NumbersStation.IntervalRun | src/sim_numbers.cpp:120-131 | from any interval repeat, the remaining completions stay in the interval phase and then enter the numbers phase with no groups sent |
| NumbersStation.GroupRun | src/sim_numbers.cpp:133-143 | from any group, the remaining completions stay in the numbers phase and then enter the ending with thirteen groups sent |
| NumbersStation.CompleteNAdd | src/sim_numbers.cpp:112-160 | completing a then b messages is completing a + b messages |
| NumbersStation.CycleSchedule | src/sim_numbers.cpp:112-160 | a cycle is six "FT"s, thirteen groups and one ending, after which the station pauses for the next cycle |
| NumbersStation.StartMessage | src/sim_numbers.cpp:165-177 | installing a message changes only the buffer and the keyer, which starts keying that message at the station's speed |
| NumbersStation.Begin | src/sim_numbers.cpp:27-55 | succeeds exactly when a generator was held or free, and then holds one and restarts the cycle at "FT" with nothing sent; failure leaves the pool and the phase alone |
| NumbersStation.Update | src/sim_numbers.cpp:71-82 | always succeeds; follows the dial and changes nothing else in the station or the pool's flags |
| NumbersStation.CycleDrift | src/sim_numbers.cpp:234-246 | the drift between cycles is from -200 Hz up to but not including +200 Hz |
| NumbersStation.Complete | src/sim_numbers.cpp:112-160 | a completed message leaves the carrier off and a delay pending; the phase counters advance as the cycle schedule says; after "FT" or a group the next message is due 2 s later, after the ending the generator goes back and the next cycle is due 8 s later |
| NumbersStation.OnCode | src/sim_numbers.cpp:87-160 | every keyer code keeps the station consistent |
| NumbersStation.NextTransmission | src/sim_numbers.cpp:162-199 | the end of a delay keeps the station consistent |
| NumbersStation.DelayEndKeysPhaseMessage | src/sim_numbers.cpp:162-177 | at the end of a delay outside the pause the station keys "FT", a fresh group or "00000" according to its phase, and touches nothing else |
| NumbersStation.NewCycleDrifts | src/sim_numbers.cpp:178-192 | at the end of the pause with a generator free the station holds one, restarts the cycle at "FT" with nothing sent, and moves by the cycle's drift |
| NumbersStation.StepAsWritten | src/sim_numbers.cpp:85-202 | a step as written always asks to keep going and keeps the station consistent |
| NumbersStation.FailedRetryStrands | src/sim_numbers.cpp:162-196 | as written, a pause that ends with every generator taken leaves the station with no generator and no delay pending |
| NumbersStation.StrandedForever | src/sim_numbers.cpp:85-202 | as written, such a station never asks for a generator again, whatever the later steps |
| NumbersStation.Step | src/sim_numbers.cpp:85-202 | a step always asks to keep going and keeps the station consistent, in particular a pausing station holds no generator |
| NumbersStation.RetryResumes | src/sim_numbers.cpp:193-196 | with the retry kept pending, a pause that ends with every generator taken tries again 1 s later, and the later try that finds one free restarts the cycle |
| PagerStation.GenerateTonePair | src/sim_pager.cpp:148-175 | the two tones differ, both lie within 650 to 1650 Hz, and tone B is either below tone A or at least 100 Hz above it |
| PagerStation.TonePairReachesAll | src/sim_pager.cpp:148-175 | every such pair is drawn by some draws, so the generator covers exactly those pairs |
| PagerStation.NewStation | src/sim_pager.cpp:7-13 | a new pager station is a new transmitter with an idle pager and a valid first tone pair |
| PagerStation.Realize | src/sim_pager.cpp:35-74 | without a generator nothing beyond the window check happens; with one and in the window both channels carry the offset plus the current tone while the carrier is on and the silent frequency otherwise, and the main channel is selected exactly with the carrier; no other generator is touched |
| PagerStation.Begin | src/sim_pager.cpp:15-33 | succeeds exactly when a generator was held or free, and then holds one, starts a repeating page and silences both channels; failure leaves the pool and the pager alone |
| PagerStation.Update | src/sim_pager.cpp:76-87 | always succeeds; follows the dial and changes nothing else in the station or the pool's flags |
| PagerStation.OnTurnOff | src/sim_pager.cpp:118-134 | carrier off gives the generator back to the pool and leaves the pager and tones alone |
| PagerStation.Step | src/sim_pager.cpp:89-146 | a step always asks to keep going and keeps the station consistent: its lease stays valid against the pool, its pager stays consistent and repeating, and it holds no generator while the pager is silent |
| PagerStation.SilenceFreesGenerator | src/sim_pager.cpp:118-134 | when the pager goes silent the station drops its carrier, sends no pulse and gives its generator back |
| PagerStation.PageStartReacquires | src/sim_pager.cpp:91-111 | a new page draws a new tone pair and holds a generator exactly when it held one or one was free; it keys and pulses exactly when it holds one |
| PagerStation.GeneratorPlaysTone | src/sim_pager.cpp:35-87 | after an update in the window the held generator plays the offset plus tone A or tone B while keyed in those states, and the silent frequency while unkeyed |
| Pager2Station.NewStation | src/sim_pager2.cpp:7-17 | a new two-tone pager is a new pager station with no second generator and a valid second tone pair |
| Pager2Station.AcquireSecond | src/sim_pager2.cpp:532-540 | reports success exactly when a second generator is held afterwards; a held one is kept, otherwise one is taken exactly when one was free, and then that free one is marked taken and nothing else changes |
| Pager2Station.AcquireSecondIdempotent | src/sim_pager2.cpp:532-540 | taking the second generator again after a success changes nothing |
| Pager2Station.ReleaseSecond | src/sim_pager2.cpp:542-548 | afterwards no second generator is held; a held one is marked free, and without one nothing changes |
| Pager2Station.AcquireThenReleaseSecond | src/sim_pager2.cpp:532-548 | taking and then giving back the second generator leaves the pool as it was |
| Pager2Station.SilenceSecond | src/sim_pager2.cpp:550-560 | a held second generator gets the silent frequency on both channels and its main channel deselected; the leases and the pool's flags stay |
| Pager2Station.Begin | src/sim_pager2.cpp:57-96 | success means both generators are held and a repeating page started; a failure holds no first generator and leaves the pager alone |
| Pager2Station.BeginAllOrNothing | src/sim_pager2.cpp:57-96 | from a station holding neither generator, begin takes two distinct generators or none: after a failure the pool's flags are as they were |
| Pager2Station.Realize | src/sim_pager2.cpp:179-230 | with both generators held and in the window, both select their main channel with the carrier and each plays the offset plus its own pair's current tone, or the silent frequency; the leases and the pool's flags stay |
| Pager2Station.SetActive | src/sim_pager2.cpp:290-311 | sets only the carrier flag |
| Pager2Station.Reacquire | src/sim_pager2.cpp:279-309 | at the start of a page the station holds both generators on success; on failure the pool's flags are as they were and the first generator is held exactly when it was before; a station holding both is left alone |
| Pager2Station.FailedReacquireKeepsPool | src/sim_pager2.cpp:279-303 | a failed start of a page returns any generator it took in the same call, keeping the second-generator slot as it was |
| Pager2Station.OnTurnOn | src/sim_pager2.cpp:248-314 | every carrier-on report keeps the station consistent |
| Pager2Station.OnTurnOff | src/sim_pager2.cpp:343-360 | carrier off gives both generators back, and leaves the pager and both tone pairs alone |
| Pager2Station.Step | src/sim_pager2.cpp:246-375 | a step always asks to keep going and keeps the station consistent, in particular a silent pager holds neither generator |
| Pager2Station.SilenceFreesBoth | src/sim_pager2.cpp:321-363 | when the pager goes silent the station drops its carrier, sends no pulse and frees exactly its two generators |
| RttyStation.NewStation | src/sim_rtty.cpp:11-21 | a new teleprinter station starts waiting in the opening mark tone of its first round, with no time scheduled and no sendings counted, and its teleprinter reads the flash table as compiled |
| RttyStation.WriteTones | src/sim_rtty.cpp:73-77 | an enabled station holding a generator puts its offset on the main channel and the offset plus the 170 Hz shift on the alternate one, selecting neither; otherwise nothing is written |
| RttyStation.Realize | src/sim_rtty.cpp:47-67 | without a generator nothing beyond the window check happens; in a round break the held generator is silenced on both channels and deselected, otherwise its main channel follows the carrier; no other generator is touched |
| RttyStation.Begin | src/sim_rtty.cpp:23-43 | succeeds exactly when a generator was held or free, and then silences both its channels; the first successful begin schedules the end of the opening mark 3 s later, later ones keep the schedule; failure leaves the pool alone |
| RttyStation.Update | src/sim_rtty.cpp:70-82 | always succeeds; follows the dial and changes nothing else in the station or the pool's flags |
| RttyStation.UpdateSetsTones | src/sim_rtty.cpp:70-82 | outside a round break an update in the window leaves the held generator on the offset (main channel) and the offset plus 170 Hz (alternate), selecting the main channel with the carrier |
| RttyStation.MessageWithinTable | src/sim_rtty.cpp:8 | the CQ message has no NUL before its end and every character of it lies inside the 121-entry flash table, so the whole message is sent and no read passes the table's end |
| RttyStation.MessageCodes | src/async_rtty.cpp:121-133 | every frame of the CQ message carries a five-bit code, whatever the image holds after the flash table |
| RttyStation.CallSignCodes | src/sim_rtty.cpp:8 | in the call sign N6CCM the flash table sends 'N' as 0x18 where ITA2 has 0x0C, and the digit '6', which has no letters-case code, as the space code |
| RttyStation.StartMessage | src/sim_rtty.cpp:172-175 | a sending starts the teleprinter on the CQ message once, from its first character, with the carrier off, the first frame armed at once and the same table; nothing else in the station changes |
| RttyStation.EndInitialMark | src/sim_rtty.cpp:100-109 | the end of the opening mark starts the round's first sending, keeping the station consistent and leaving the pool alone |
| RttyStation.EnterRoundBreak | src/sim_rtty.cpp:111-134 | the end of the final mark drops the carrier, gives the generator back and schedules the round break 6 s later |
| RttyStation.StartRound | src/sim_rtty.cpp:146-171 | the end of a round break with a generator at hand holds one and schedules the opening mark for 3 s; without one the station stays in the break, tries again 1 s later and leaves the pool alone |
| RttyStation.SendAgain | src/sim_rtty.cpp:136-175 | the end of a mark between sendings starts the next sending and leaves the pool's flags alone |
| RttyStation.WaitEnd | src/sim_rtty.cpp:99-176 | the end of a wait moves to the next phase of the round and, when that phase is a wait, schedules its end after its length |
| RttyStation.Key | src/sim_rtty.cpp:180-200 | without a generator the teleprinter stands still; with one it takes a step, and only the carrier flag and the teleprinter change |
| RttyStation.Step | src/sim_rtty.cpp:86-224 | a step always asks to keep going and keeps the station consistent |
| RttyStation.WaitStepKeepsInv | src/sim_rtty.cpp:88-178 | a step while waiting keeps the station consistent |
| RttyStation.WaitFollowsRound | src/sim_rtty.cpp:88-178 | a wait ends exactly at its scheduled time; before it nothing moves, and at it the round moves to its next phase with the next wait end scheduled after that phase's length |
| RttyStation.SendingFollowsRound | src/sim_rtty.cpp:202-221 | a sending lasts until the teleprinter has sent the whole message, and then a 3 s mark follows |
| RttyStation.RoundSendsThreeTimes | src/sim_rtty.cpp:202-221 | with a generator at hand and the repeat count of 3 the constructor sets, a round is opening mark, three sendings separated by marks, final mark and break, and then starts over |
| RttyStation.RoundBreakFreesGenerator | src/sim_rtty.cpp:111-134 | the end of the final mark enters the break with the carrier off and the generator given back |
| RttyStation.NoGeneratorNoKeying | src/sim_rtty.cpp:180-200 | a station without a generator neither keys nor pulses and leaves the pool alone |
| JammerStation.NewStation | src/sim_jammer.cpp:6-10 | a new jammer station has no frequency yet and an idle jammer |
| JammerStation.NewStationInv | src/sim_jammer.cpp:6-10 | a new jammer station is consistent with any valid pool |
| JammerStation.Realize | src/sim_jammer.cpp:34-61 | without a generator nothing beyond the window check happens; with one and in the window both channels carry the offset plus the drift while the carrier sounds, the silent frequency otherwise, and the main channel is selected exactly while sounding; no other generator is touched |
| JammerStation.Begin | src/sim_jammer.cpp:12-32 | adopts the frequency; succeeds exactly when a generator was held or free, and then starts the jammer repeating and silences both channels; failure leaves the pool and the jammer alone |
| JammerStation.Update | src/sim_jammer.cpp:63-74 | always succeeds; follows the dial and leaves the jammer and the pool's flags alone |
| JammerStation.Step | src/sim_jammer.cpp:76-99 | a step always asks to keep going, keeps the station consistent, and never takes or gives back a generator |
| JammerStation.StepTracksJammer | src/sim_jammer.cpp:76-99 | after every step the carrier flag equals the jammer's transmitting flag, and on an edge or drift report a held audible generator plays the drifted frequency exactly while the jammer transmits |
| JammerStation.RunKeepsGenerator | src/sim_jammer.cpp:76-99 | however many steps a jammer runs, it keeps its generator and the pool's flags |
| VfoTuner.StepUp | src/vfo_tuner.cpp:14-19 | one detent up adds the step, stopping at the top of the 32-bit range instead of wrapping |
| VfoTuner.StepDown | src/vfo_tuner.cpp:20-25 | one detent down subtracts the step, stopping at zero instead of wrapping |
| VfoTuner.EventSink | src/vfo_tuner.cpp:10-29 | a turn up or down moves the dial one detent, any other event leaves it alone, and the event is always consumed |
| VfoTuner.PressSink | src/vfo_tuner.cpp:31-33 | a press is never consumed and leaves the dial alone |
| VfoTuner.TurnsAreMonotone | src/vfo_tuner.cpp:14-25 | a turn never moves the dial the wrong way nor more than one step |
| VfoTuner.TurnsUndoEachOther | src/vfo_tuner.cpp:14-25 | up then down, or down then up, returns to the same frequency unless the first turn stopped at an end |
| VfoTuner.EndsAreFixedPoints | src/vfo_tuner.cpp:14-25 | turning up at the top or down at zero changes nothing |
| PagerStation.NewStationInv | src/sim_pager.cpp:7-13 | a new pager station is consistent with any valid pool |
| Pager2Station.NewStationInv | src/sim_pager2.cpp:7-17 | a new two-tone pager is consistent with any valid pool |
| RttyStation.NewStationInv | src/sim_rtty.cpp:11-21 | a new teleprinter station is consistent with any valid pool |
| StationManager.AbsI32 | src/station_manager.cpp:167-168 | the absolute value of a 32-bit signed difference, which stays negative for the most negative value |
| StationManager.Distance | src/station_manager.cpp:346-348 | the distance between two dial positions is at most 2^31, and is the plain distance for positions below 2^31 |
| StationManager.ReplaceKeepsSound | src/sim_transmitter.cpp:103-117 | changing one station keeps every lease in agreement with the pool when the station keeps its lease or gives its generator back |
| StationManager.ApplyStates | src/station_manager.cpp:341-386 | setting states on a run of stations gives each its new state, releases a generator exactly from those leaving AUDIBLE, and never marks a generator taken |
| StationManager.ResetAll | src/station_manager.cpp:10-14 | the constructor's loop leaves every station DORMANT with its carrier flag off, at its own frequency |
| StationManager.NewManager | src/station_manager.cpp:6-29 | a new manager has every station DORMANT and unkeyed, no channel booked, pipelining off and its tuning state zeroed |
| StationManager.Pick | src/station_manager.cpp:49-64 | a pass books, in index order and within its room, stations in the states it wants; a wanted station is skipped only when the room is spent on stations before it |
| StationManager.Booking | src/station_manager.cpp:45-64 | at most four distinct stations are booked, each AUDIBLE or waiting for a channel |
| StationManager.AllocateWith | src/station_manager.cpp:40-80 | allocation keeps the leases sound and changes only the stations and the channel assignment |
| StationManager.AllocateAsWritten | src/station_manager.cpp:40-80 | allocation as written keeps the leases sound |
| StationManager.Allocate | src/station_manager.cpp:40-80 | allocation with SILENT stations booked again keeps the leases sound |
| StationManager.AllocationBooks | src/station_manager.cpp:40-80 | afterwards a station is AUDIBLE exactly when a channel names it, and the channels name distinct stations in range |
| StationManager.AllocationMovesOnlyInRange | src/station_manager.cpp:66-79 | DORMANT stations are left alone, ACTIVE and AUDIBLE ones end AUDIBLE or SILENT, and as written a SILENT station is never touched |
| StationManager.AllocatedStates | src/station_manager.cpp:66-79 | the states after allocation are the targets computed from the booking |
| StationManager.AtMostFourAudible | src/station_manager.cpp:40-80 | at most four stations are AUDIBLE afterwards, one per booked channel |
| StationManager.AudibleKeptFirst | src/station_manager.cpp:49-64 | an AUDIBLE station loses its channel only when all four go to AUDIBLE stations before it; a waiting station is left without a channel only when all four are booked |
| StationManager.IdleChannelAsWritten | src/station_manager.cpp:57-79 | as written a lone SILENT station stays SILENT with every channel free; with SILENT stations booked again it becomes AUDIBLE |
| StationManager.NoIdleChannelWhileWaiting | src/station_manager.cpp:57-79 | with SILENT stations booked again, a SILENT station after allocation means all four channels are booked |
| StationManager.AllocationSettles | src/station_manager.cpp:40-80 | allocating twice with nothing in between changes no station and no generator the second time |
| StationManager.UpdateStationStates | src/station_manager.cpp:341-386 | every station gets the state the proximity rule gives it, and nothing else in the manager changes |
| StationManager.ProximityRules | src/station_manager.cpp:341-386 | unkeyed stations are skipped; a keyed station ends DORMANT exactly when it is out of range; no station becomes AUDIBLE or SILENT; a generator is released only by an AUDIBLE station that went out of range |
| StationManager.LookaheadLeansAhead | src/station_manager.cpp:359-371 | the lookahead leans into the tuning direction: a station between half and the whole lookahead away is kept ahead of the dial and put to sleep behind it |
| StationManager.CanInterruptStation | src/station_manager.cpp:396-420 | an index out of range may not be interrupted, and a station in range of the audible window may be only when it is DORMANT or SILENT |
| StationManager.InterruptMonotone | src/station_manager.cpp:404-419 | a station that may be interrupted at one distance may be at any greater one, and an AUDIBLE station's bar is never above an ACTIVE one's |
| StationManager.FindDormantStation | src/station_manager.cpp:112-117 | the first DORMANT station, or -1 exactly when there is none |
| StationManager.ActiveStationCount | src/station_manager.cpp:427-433 | at most the number of stations; zero exactly when none is keyed, and all exactly when all are |
| StationManager.ActivateStation | src/station_manager.cpp:89-95 | a station in range is reinitialized at the frequency with no generator, keyed and ACTIVE, every other station untouched; an index out of range changes nothing |
| StationManager.Unbook | src/station_manager.cpp:103-109 | the first channel naming the station is cleared and no other changes; without one nothing changes |
| StationManager.DeactivateStation | src/station_manager.cpp:97-110 | a station in range is unkeyed and DORMANT, an AUDIBLE one gives its generator back, every other station is untouched; an index out of range changes nothing |
| StationManager.Candidates | src/station_manager.cpp:237-286 | the candidates are exactly the movable stations, in index order, with their distances |
| StationManager.SortFurthestFirst | src/station_manager.cpp:294-303 | the exchange sort returns a permutation of the candidates, furthest first, keeping their station indices distinct |
| StationManager.SortedCandidates | src/station_manager.cpp:237-303 | the sorted candidates name distinct movable stations with their own distances |
| StationManager.TargetAsWritten | src/station_manager.cpp:311-322 | the target as written is a 32-bit value at or above the 100 kHz floor |
| StationManager.Target | src/station_manager.cpp:311-322 | tuning up, the k-th station goes 2 kHz plus k kHz above the dial, tuning down 5.7 kHz plus k half-kHz below it, held between the floor and the top of the dial |
| StationManager.TargetWrapsAsWritten | src/station_manager.cpp:318-322 | as written, tuning down from 1000 Hz puts the first station at 4294962596 Hz; the corrected target is the floor |
| StationManager.TargetsAgreeWithoutWrap | src/station_manager.cpp:311-322 | both targets agree whenever the arithmetic does not wrap |
| StationManager.MoveCount | src/station_manager.cpp:307 | every candidate is moved, but never more than all stations but one |
| StationManager.ReallocateWith | src/station_manager.cpp:214-339 | a relocation keeps the leases sound, changes only the stations, and does nothing while the dial is still |
| StationManager.ReallocateAsWritten | src/station_manager.cpp:214-339 | a relocation as written keeps the leases sound |
| StationManager.Reallocate | src/station_manager.cpp:214-339 | a relocation with the corrected target keeps the leases sound |
| StationManager.RelocationTargets | src/station_manager.cpp:305-338 | the a-th moved station is reinitialized, ACTIVE and unkeyed with no generator, at the a-th target; stations not moved are left exactly as they were |
| StationManager.RelocationChoosesFurthest | src/station_manager.cpp:237-307 | only movable stations are moved, each once and furthest first, never all of them, and a movable station is left only when the budget is spent and it is no farther than any moved one |
| StationManager.TuningDirection | src/station_manager.cpp:388-394 | the direction is up, down or still |
| StationManager.TuningDirectionFollowsDial | src/station_manager.cpp:388-394 | below the signed 32-bit wrap, the direction is up exactly when the dial rose by more than 1 kHz and down exactly when it fell by more than 1 kHz |
| StationManager.UpdatePipeline | src/station_manager.cpp:161-212 | a pipeline update, with the source's wrapping target and booking or the corrected ones, keeps the leases sound and the station count, and never changes the channel assignment or the pipelining switch |
| StationManager.PipelineTracksTuning | src/station_manager.cpp:161-212 | with pipelining off nothing changes; a significant move records its side, position and time; otherwise position and time stay, and the direction drops to still only after 5 s without a significant move |
| StationManager.TracksSignificantMove | src/station_manager.cpp:170-178 | a significant move records its side, position and time |
| StationManager.TracksStillDial | src/station_manager.cpp:203-211 | without a significant move the position and time stay and the direction drops to still only after the settling time |
| StationManager.PipelineRelocationRule | src/station_manager.cpp:180-194 | a relocation happens exactly on a significant move far enough from the pipeline center more than 200 ms after the last, and then re-centers there; otherwise no station, generator, center or relocation time changes |
| StationManager.PipelinePlacesAhead | src/station_manager.cpp:180-194 | the stations a relocating update moves go to the targets for the new direction, computed in 32-bit arithmetic as the source does or held at the floor when corrected, re-armed with the carrier off; the rest are untouched |
| StationManager.PipelineRelocatesVia | src/station_manager.cpp:170-194 | a relocating update is the retuning followed by the relocation around the new dial position |
| StationManager.RestingDialSettles | src/station_manager.cpp:203-211 | a dial at rest for more than 5 s stops the pipeline, which then stays still and moves nothing while the dial stays put |
| StationManager.EnableDynamicPipelining | src/station_manager.cpp:119-128 | switching on resets the tuning state, switching off keeps it; stations and generators are untouched |
| StationManager.SetupPipeline | src/station_manager.cpp:130-159 | with pipelining on, the pipeline is centered on the dial, still, and every station is keyed and ACTIVE at its own frequency; with it off nothing changes |
| StationManager.SetupStartsStill | src/station_manager.cpp:130-212 | right after setup a dial that has not moved never triggers a relocation |
| StationManager.RecycleDormantStations | src/station_manager.cpp:82-87 | runs the pipeline update, as written or corrected, when pipelining is on, keeping the leases sound and the channel assignment; changes nothing when it is off |
| StationManager.UpdateStations | src/station_manager.cpp:31-38 | an update, as written or corrected, keeps the leases sound, the station count and the pipelining switch |
| StationManager.UpdateKeepsChannelsBooked | src/station_manager.cpp:31-38 | after every update, as written or corrected, at most four stations are AUDIBLE, each exactly when a channel names it, and no station is left ACTIVE; with SILENT stations booked again, a SILENT station means all four channels are booked |
| SignalMeter.Strength | src/signal_meter.cpp:71-72 | the display strength is the accumulator scaled from 0..510 to 0..255, rounded down |
| SignalMeter.StrengthWrapsAsWritten | src/signal_meter.cpp:71-72 | as written in 16-bit arithmetic an accumulator of 129 shows -64 and a full one -2, where the scaled strengths are 64 and 255 |
| SignalMeter.StrengthIsHalfCharge | src/signal_meter.cpp:71-72 | the scaled strength is half the accumulator, and grows with it |
| SignalMeter.StrengthsAgreeBelowWrap | src/signal_meter.cpp:71-72 | both formulas agree while the product fits in 16 bits |
| SignalMeter.StrengthReadsLowPastWrap | src/signal_meter.cpp:71-72 | the strength as written equals the scaled strength exactly when the accumulator is at most 128, and past that it always reads lower |
| SignalMeter.NewMeter | src/signal_meter.cpp:29-37 | a new meter is empty, with the panel indicator dark and the flashlight off |
| SignalMeter.Clear | src/signal_meter.cpp:113-119 | both accumulators and the strength go to zero, the decay timer and the flashlight stay |
| SignalMeter.Init | src/signal_meter.cpp:39-53 | the meter is cleared and the decay timer starts now |
| SignalMeter.ClearPanelLed | src/signal_meter.cpp:121-124 | only the panel indicator goes dark |
| SignalMeter.AddCharge | src/signal_meter.cpp:55-74 | every field keeps a 16-bit value, with the additions wrapping as on the AVR; the accumulator ends at most 510 and, after a lock pulse, the panel at most 255; the stored strength is the 16-bit `acc * 255 / 510` of the new accumulator; an ordinary pulse leaves the panel alone, and the timer and the flashlight never change |
| SignalMeter.ChargeSaturates | src/signal_meter.cpp:55-74 | a pulse adds its size to the accumulator up to 510; a lock pulse also adds its size to the panel indicator up to 255 |
| SignalMeter.LockPulseChargesLikeOrdinary | src/signal_meter.cpp:57-65 | a lock pulse moves the main meter exactly as an ordinary pulse of the same size, and lights the panel at least as much |
| SignalMeter.Update | src/signal_meter.cpp:76-94 | the meter stays consistent, with the strength the 16-bit formula of the accumulator; neither accumulator ever rises; the flashlight is untouched |
| SignalMeter.DecayOnSchedule | src/signal_meter.cpp:76-94 | before 50 ms have passed nothing changes; after, the accumulator drops by 16 and the panel by 64, neither below zero, and the timer restarts |
| SignalMeter.UpdateRun | src/signal_meter.cpp:76-94 | any run of updates keeps the meter consistent, its strength the 16-bit formula of the accumulator as the source stores it |
| SignalMeter.MeterDrains | src/signal_meter.cpp:76-94 | n well-spaced updates drain the accumulator by 16 n and the panel by 64 n, stopping at zero |
| SignalMeter.UpdateSignalStrength | src/signal_meter.cpp:96-111 | a strength of zero or less is ignored; a positive one adds four times twice the strength over 40 |
| SignalMeter.LegacyStrengthIsOrdinary | src/signal_meter.cpp:96-111 | a strength in 0..255 never lights the panel indicator and adds at most 48 |
| SignalMeter.SetFlashlightMode | src/signal_meter.cpp:126-135 | the flashlight comes on at the brightness held to 0..255, nothing else changes |
| SignalMeter.ClearFlashlightMode | src/signal_meter.cpp:137-144 | the flashlight goes off with brightness zero, nothing else changes |
| SignalMeter.FlashlightIsOverlay | src/signal_meter.cpp:126-144 | switching the flashlight on and off again restores a meter that had it off |

## Left out

- Hardware and output are not modelled: the AD9833 SPI driver, the NeoPixel drawing in `SignalMeter::write_leds`, `Serial` debug output, `main.cpp` and the EEPROM. A generator's chip is modelled as the list of commands it receives.
- The charge of a carrier pulse is not modelled. Stations report only whether they send a pulse, because `VFO::calculate_signal_charge` computes the charge in floating point outside this core.
- Floating-point rounding is not modelled. Frequencies and offsets are mathematical reals, and casts to integers truncate.
- The wrap-around of `millis()` after 49 days is not modelled: times are unbounded naturals. The unsigned subtractions the source does on times are modelled as written: the jammer's drift timer, the meter's decay timer, and the pipeline's settle and relocation timers.
- The PIPELINE_* tuning constants are compile-time constants. They are a `Config` parameter here, so every manager property holds for any values of them.
- include/station_manager.h still declares an older interface, which is not modelled. The model follows src/station_manager.cpp.
- `setupPipeline` calls each station's own `begin`. The manager model works on the common transmitter part of the stations, so it does not model the per-kind `begin`: a station that gets no generator there is left as the transmitter model leaves it.
- The manager's allocation pass writes each station's state several times. Only the final states it leaves are modelled.
- `SimTransmitter::randomize` is not modelled for the manager: its default does nothing, and only the CW station overrides it (`CwStation.Randomize`). A relocation returns the indices of the stations it moved, in order, so a caller can apply that.
- `StationManager::getStation` is not modelled, because it only hands out the station object at an index.
- The `SimPager2` configuration the firmware builds (first generator only) is not modelled separately: its code is line for line the `SimPager` code, which `PagerStation` models. `Pager2Station` models the dual-generator configuration. The second-generator-only configuration is not modelled.
- The RTTY variants selected by USE_EEPROM_TABLES and RTTY_RANDOM_BITS_ONLY are not modelled, because both switches are off. The EEPROM letter table is cited only because its letter codes match the flash table's.
- `RealizationPool::end` is not modelled, because it does nothing.
- `SimStation::set_retry_state` is not modelled: nothing calls it, and its only use in `main.cpp` is commented out.
- CwStation.Randomize: the keyer's text is not updated in place. In the source the running keyer reads the station's `_generated_message` buffer by its address, with the length `set_string` cached. `randomize` rewrites that buffer with `sprintf`, so after a relocation (src/station_manager.cpp:325-328) a keyer in mid-message goes on with the new text up to the old length. The model gives the station a new message value and leaves the keyer's copy of the old text alone, so the new text is keyed only from the next CQ call.
- Scheduler.Step: it requires at most 255 realizations. The source's loop counter is a `byte`, so with 256 or more realizations `i < _nrealizations` always holds, and the loop wraps round and never ends unless a realization asks to stop. The firmware builds far fewer, and the model does not cover that non-termination.
- Scheduler.Update: it requires at most 255 realizations for the same reason. With 256 or more, the `byte` counter of the update loop wraps and the loop never ends.
- Scheduler.ForceRefreshAll: it requires at most 255 realizations for the same reason. With 256 or more, the `byte` counter of the refresh loop wraps and the loop never ends.
- SignalMeter.ChargeSaturates: the exact accumulator arithmetic is proved only for pulses of at most 32257. A larger pulse overflows the 16-bit sum, which `AddCharge` does model.
- SignalMeter.UpdateSignalStrength: the charge formula is stated only for strengths up to 16383. Above that, `strength * 2` wraps in 16 bits; the model wraps it too, but states nothing about the result.

## Findings

| source | as written | input that shows it | evidently intended | confidence | as-written member | corrected member |
|---|---|---|---|---|---|---|
| src/async_rtty.cpp:34 | the entries of the flash Baudot table for 'o' to 'u' sit inside the comment that ends the 'h' to 'n' row, so the table has 121 entries and every later entry moves up seven places | 'o' is sent as 0x1D, the source's code for 'V'; 'y' and 'z' read past the end of the table | a 128-entry table in which lower case sends as upper case | high, not executed | Rtty.FlashTableTruncated | Rtty.LowerCaseSendsUpperCase |
| src/async_rtty.cpp:26-28 | the letter codes for N to Z (except W) are not the ITA2 letters-case codes of ITU-T Recommendation S.1 | 'T' is sent as 0x07, where ITA2 has 0x10; 'X' is sent as 0x1B, which is the FIGS shift | the ITA2 letters-case codes, the standard Baudot code for teleprinters | high, not executed | Rtty.SourceLettersDisagreeWithIta2 | Rtty.LetterSignalIsIta2 |
| src/station_manager.cpp:311-322 | tuning down, the target `vfo - 5700 - k*500` is computed in uint32 and wraps for a small dial; the 100 kHz floor check does not catch the wrapped value | vfo = 1000, first station: target 4294962596 | the target held at the 100 kHz floor | high, not executed | StationManager.TargetWrapsAsWritten | StationManager.TargetsAgreeWithoutWrap |
| src/sim_numbers.cpp:162-196 | a cycle restart that finds no free generator clears the pending-delay flag before it schedules a retry; the station never retries | end of the cycle pause with every generator taken | retry 1 s later, as the comment "try again in 1 second" says | high, not executed | NumbersStation.StrandedForever | NumbersStation.RetryResumes |
| src/station_manager.cpp:57-79 | allocation books channels only for AUDIBLE and ACTIVE stations, so a SILENT station stays SILENT even when every channel is free | one SILENT station and four free channels | a SILENT station gets a free channel, as the comments at include/sim_transmitter.h:14 and src/station_manager.cpp:357 describe | medium, not executed | StationManager.IdleChannelAsWritten | StationManager.NoIdleChannelWhileWaiting |
| src/signal_meter.cpp:72 | `_accumulator * 255` (also line 84) is formed in 16-bit `int` on the AVR and wraps once the accumulator passes 128 | accumulator 129 shows -64 (intended 64); a full 510 shows -2 (intended 255) | the strength is the accumulator scaled to 0..255 | medium (depends on the AVR's 16-bit `int`), not executed | SignalMeter.StrengthWrapsAsWritten | SignalMeter.StrengthIsHalfCharge |
