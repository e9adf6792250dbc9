# Open Theremin V3 interrupt handlers, modelled in Dafny

This project models the real-time core of the Open Theremin V3 firmware
(`Open_Theremin_V3/ihandlers.cpp`). That core has two parts.

- **The wave generator.** An externally clocked 31.25 kHz interrupt (INT1)
  produces one converter word per tick:
  - it reads a sample from one of eight 1024-entry wavetables, at the integer
    part of a 16-bit fixed-point table pointer;
  - it shapes the sample with a quasi-exponential volume curve (`volexp`);
  - it advances the pointer by the pitch increment.

  In control-voltage builds it sends the clamped increment instead.
- **Two frequency-capture channels, pitch and volume.** A capture interrupt
  restarts a channel's debounce counter. The wave generator's tick then:
  - counts the ticks during which the sensor pin reads high;
  - publishes the counter change since the last reading when the count is 3;
  - raises the channel's "value available" flag when the count is 5.

  Two calibration interrupts count timer periods.

The model has five modules:

- `Avr` (avr.dfy): the machine integer types and the semantics of the AVR
  instructions the inline assembly uses: `mul`, `mulsu`, `add`, `adc`, `sbc`.
- `VolumeShaper` (volume_shaper.dfy): `volexp` and `mul_16_8`. Each is a
  method that runs its assembly instruction by instruction on byte registers.
  Each method is proved equal to a plain arithmetic definition. The gain
  curve, range, rounding, silence and monotonicity properties are proved
  about that definition.
- `Playback` (playback.dfy): the parts of the tick that just compute
  something:
  - the table offset;
  - the wavetable selection with fallback to table 0;
  - the 16-bit pointer advance;
  - the control-voltage clamp.

  It also holds the lemmas about multi-tick playback order.
- `Debounce` (debounce.dfy): one capture channel as a value, with its tick
  and capture transitions. It holds the lemmas about runs of ticks: glitch
  rejection, the timing of the delta and of the flag, and that the flag is
  never cleared.
- `InterruptHandlers` (handlers.dfy): class `Theremin`. Its fields are the
  firmware globals. `Tick` is `ISR(INT1_vect)`. The other interrupts are
  event methods. Each method's `ensures` ties the new state to the functions
  of `Playback`, `VolumeShaper` and `Debounce`.

Each interrupt is one atomic step. The hardware values an interrupt reads
become parameters: `ICR1`, `TCNT1` and the two pin levels. The converter
word is the return value of `Tick`. The `CV_ENABLED` build switch is the
constant field `cvEnabled`. The wavetables are a constant field of eight
1024-entry `int16` sequences with unknown contents.

The tick reads the two pins through `PC_STATE` and `INT0_STATE` (pins
PORTB0 and PORTD2). Their levels are the parameters `pitchPinHigh` and
`volumePinHigh`.

## Observations about the code

- `volexp` outputs 2048 (0x0800) for a zero sample or a zero volume. That is
  the high half of `cor = 0x08008000`. The named constant
  `MCP_DAC_BASE = 2047` is one count lower. It is used only by the
  commented-out older shaping code. `VolExpSilence` proves the value 2048
  and keeps both constants.
- The published delta is not computed only once per edge, because the tick
  recomputes it whenever the counter *stands* at 3. If the pin reads low
  right after the third high tick, the next tick recomputes the delta.
  Since the previous latch is now the current value, the delta becomes 0
  (`RecomputeWhileStalled`).
- The debounce counters are `uint8`. A pin held high for 256 ticks without
  an edge brings the count back to where it started, so it passes 3 and 5
  again (`HighRunWraps`; the single step is `CounterWraps`). The model keeps
  this wrap-around.
- `ISR(TIMER1_CAPT_vect)` latches nothing in software. The pitch
  channel reads the hardware capture register `ICR1` during the tick, at
  count 3. So `ICR1` is a parameter of `Tick`, not of `CapturePitch`.
- For the pitch and for the volume channel, the latched counter always
  equals its previous value between handlers. The class invariant `Valid`
  carries this fact. The model follows the code here.
- The `& 0x3ff` in the offset computation never clears a bit, because a
  16-bit pointer shifted right by 6 is already below 1024
  (`OffsetMaskRedundant`).
- Samples outside −2048..2047 are not saturated. The most negative `int16`
  sample at full volume wraps round to code 34817, far above mid-scale
  (`VolExpWrapsBelowNominal`).

## Model

| member | source | states |
|---|---|---|
| Avr.Mul | Open_Theremin_V3/ihandlers.cpp:134 | `mul`: the register pair r1:r0 holds the unsigned 8x8 product; its high byte is at most 0xFE |
| Avr.Mulsu | Open_Theremin_V3/ihandlers.cpp:140 | `mulsu`: r1:r0 read as two's complement equals signed byte times unsigned byte; the carry is the sign bit |
| Avr.Add | Open_Theremin_V3/ihandlers.cpp:135 | `add`: byte result plus 256 times the carry out is the sum of the operands |
| Avr.Adc | Open_Theremin_V3/ihandlers.cpp:136 | `adc`: byte result plus 256 times the carry out is the sum of the operands and the carry in |
| Avr.Sbc | Open_Theremin_V3/ihandlers.cpp:145 | `sbc`: byte result minus 256 times the borrow out is the difference less the borrow in |
| Avr.HighByte | Open_Theremin_V3/ihandlers.cpp:140-149 | the high byte of an `int16` register pair, read as signed, times 256 plus the low byte is the sample |
| VolumeShaper.GainFits | Open_Theremin_V3/ihandlers.cpp:133-139 | the gain v*v + 2v fits in 16 bits for every 8-bit v and equals 65535 exactly when v = 255 |
| VolumeShaper.GainStrictlyIncreasing | Open_Theremin_V3/ihandlers.cpp:133-139 | the gain is strictly increasing in the volume |
| VolumeShaper.GainInRegisters | Open_Theremin_V3/ihandlers.cpp:133-139 | the `mul`/`add`/`adc` sequence leaves exactly v*v + 2v in the register pair (no carry is lost) |
| VolumeShaper.OuterPartials | Open_Theremin_V3/ihandlers.cpp:140-143 | after the first `mulsu` and `mul`, tmp holds 2^16 * (sample high * gain high) + sample low * gain low, modulo 2^32 |
| VolumeShaper.SignedPartialAt8 | Open_Theremin_V3/ihandlers.cpp:144-148 | `mulsu`, `sbc` and the carry chain add the signed cross product at byte 1, sign-extended, modulo 2^32 |
| VolumeShaper.UnsignedPartialAt8 | Open_Theremin_V3/ihandlers.cpp:149-152 | `mul` and the carry chain add the unsigned cross product at byte 1, modulo 2^32 |
| VolumeShaper.CorrectionAdded | Open_Theremin_V3/ihandlers.cpp:153-155 | adding bytes 1..3 of `cor` (its byte 0 is zero) adds 0x08008000 modulo 2^32 |
| VolumeShaper.Gathered | Open_Theremin_V3/ihandlers.cpp:140-156 | the four byte partial products plus `cor`, gathered modulo 2^32, are sample * gain + 0x08008000 modulo 2^32, and the high half is `volexp`'s result |
| VolumeShaper.VolExpAsm | Open_Theremin_V3/ihandlers.cpp:128-162 | the assembly, run instruction by instruction, returns ((samp * (v*v + 2v) + 0x08008000) mod 2^32) >> 16 |
| VolumeShaper.Mul16x8 | Open_Theremin_V3/ihandlers.cpp:101-118 | `mul_16_8` returns a * b exactly, and the result is below 2^24 (its cleared top byte stays 0) |
| VolumeShaper.VolExpNoWrap | Open_Theremin_V3/ihandlers.cpp:131-156 | for samples in −2048..2047 and any volume, sample * gain + `cor` lies strictly between 0 and 2^32, so the 32-bit sum never wraps |
| VolumeShaper.VolExpRange | Open_Theremin_V3/ihandlers.cpp:153-156 | for samples in −2048..2047 and any volume, the output lies in 0..4095 |
| VolumeShaper.VolExpRounds | Open_Theremin_V3/ihandlers.cpp:153-156 | for nominal samples, the output is 2048 + floor((sample * gain + 0x8000) / 2^16), i.e. the scaled sample rounded half up, plus the offset |
| VolumeShaper.VolExpSilence | Open_Theremin_V3/ihandlers.cpp:131 | a zero sample (any volume) and a zero volume (any sample) both give 0x0800 = 2048, one more than MCP_DAC_BASE |
| VolumeShaper.VolExpMonotoneInSample | Open_Theremin_V3/ihandlers.cpp:140-156 | for a fixed volume the output is nondecreasing in the nominal sample |
| VolumeShaper.VolExpMonotoneInVolume | Open_Theremin_V3/ihandlers.cpp:133-156 | a louder volume never lowers the output for a non-negative sample and never raises it for a non-positive one |
| VolumeShaper.VolExpWrapsBelowNominal | Open_Theremin_V3/ihandlers.cpp:140-156 | outside the nominal range the sum wraps: sample −32768 at volume 255 gives 34817, above the silence value |
| Playback.TableOffset | Open_Theremin_V3/ihandlers.cpp:174 | the table offset taken from the pointer is always below 1024 |
| Playback.TableIndex | Open_Theremin_V3/ihandlers.cpp:187-195 | selector 1..7 picks that table; 0 and anything above 7 fall back to table 0 |
| Playback.ClampIncrement | Open_Theremin_V3/ihandlers.cpp:178 | the clamped increment is at most 4095 and at most the increment, and is either the increment or 4095 |
| Playback.OffsetMaskRedundant | Open_Theremin_V3/ihandlers.cpp:174 | the 0x3ff mask changes nothing: the offset is pointer >> 6 |
| Playback.OffsetStepsByOne | Open_Theremin_V3/ihandlers.cpp:174-210 | with increment 64 the offset advances by exactly 1 modulo 1024 per tick |
| Playback.WrapLandsOnOffsetZero | Open_Theremin_V3/ihandlers.cpp:210 | a pointer that wraps past 65535 by less than one sample lands on offset 0 |
| Playback.PointerAfterClosedForm | Open_Theremin_V3/ihandlers.cpp:210 | k ticks at a fixed increment take the pointer to (pointer + k * increment) mod 65536 |
| Playback.PlaybackVisitsOffsetsInOrder | Open_Theremin_V3/ihandlers.cpp:174-210 | with increment 64, after k ticks the offset is (start offset + k) mod 1024 |
| Playback.PlaybackReproducesTable | Open_Theremin_V3/ihandlers.cpp:174-210 | from pointer 0 with increment 64, tick k (k < 1024) reads sample k of the selected table, so 1024 ticks play the table in order |
| Playback.ClampIdempotent | Open_Theremin_V3/ihandlers.cpp:178 | clamping an already clamped increment changes nothing, so repeated control-voltage ticks keep it fixed |
| Debounce.Elapsed | Open_Theremin_V3/ihandlers.cpp:219 | the uint16 difference added back to the previous latch gives the current value modulo 65536; it is the plain difference when no wrap occurred |
| Debounce.TickRules | Open_Theremin_V3/ihandlers.cpp:215-225 | a tick increments the counter (mod 256) only on a high pin; latch and delta change only when the new count is 3, and then counter' = last' = cur and last + delta = cur mod 65536; the flag becomes flag or (count = 5) |
| Debounce.SyncedPreserved | Open_Theremin_V3/ihandlers.cpp:218-220 | the latched counter equals its previous value after every tick and capture when it did before |
| Debounce.RecomputeWhileStalled | Open_Theremin_V3/ihandlers.cpp:216-221 | a counter standing at 3 with the pin low recomputes the delta, which becomes 0 |
| Debounce.HighRunWraps | Open_Theremin_V3/ihandlers.cpp:215 | n high ticks advance the uint8 counter by n modulo 256 from any start, so 256 of them return it to its start |
| Debounce.CounterWraps | Open_Theremin_V3/ihandlers.cpp:215 | the uint8 counter wraps from 255 to 0 on a high tick |
| Debounce.RunCounts | Open_Theremin_V3/ihandlers.cpp:215 | below the wrap, the counter after a run equals its start plus the number of high readings |
| Debounce.ReadyNeverCleared | Open_Theremin_V3/ihandlers.cpp:223-225 | no run of ticks clears the ready flag |
| Debounce.GlitchLeavesNoTrace | Open_Theremin_V3/ihandlers.cpp:215-225 | while the count stays below 3, ticks change nothing but the counter: no delta, no latch, no flag |
| Debounce.GlitchThenCapture | Open_Theremin_V3/ihandlers.cpp:215-253 | from a reset counter, one or two high ticks followed by a capture edge return the channel to exactly its previous state |
| Debounce.SteadyHigh | Open_Theremin_V3/ihandlers.cpp:215-237 | from a reset counter, n high ticks (3 <= n < 256) compute the delta once, at tick 3, and keep it; the flag is raised exactly when n >= 5 |
| InterruptHandlers.Theremin.constructor | Open_Theremin_V3/ihandlers.cpp:34-55 | power-up: every global is zero, and the wavetables and build switch are fixed |
| InterruptHandlers.Theremin.Tick | Open_Theremin_V3/ihandlers.cpp:165-241 | audio mode: output is `volexp` of the selected table at the pointer's offset, and the pointer advances modulo 65536; CV mode: output and new increment are min(increment, 4095), and the pointer does not move; both modes: timer +1, both channels take one debounce step against ICR1 and vol_counter_i; nothing else changes |
| InterruptHandlers.Theremin.PitchDebounce | Open_Theremin_V3/ihandlers.cpp:215-225 | the pitch fields take one debounce step against ICR1; no other field changes |
| InterruptHandlers.Theremin.VolumeDebounce | Open_Theremin_V3/ihandlers.cpp:227-237 | the volume fields take one debounce step against vol_counter_i; no other field changes |
| InterruptHandlers.Theremin.CaptureVolume | Open_Theremin_V3/ihandlers.cpp:244-247 | vol_counter_i becomes TCNT1 and debounce_v becomes 0; nothing else changes |
| InterruptHandlers.Theremin.CapturePitch | Open_Theremin_V3/ihandlers.cpp:251-253 | debounce_p becomes 0; nothing else changes |
| InterruptHandlers.Theremin.CalibrationCompare | Open_Theremin_V3/ihandlers.cpp:257-260 | the overflow counter increments as uint16; nothing else changes |
| InterruptHandlers.Theremin.CalibrationOverflow | Open_Theremin_V3/ihandlers.cpp:263-266 | the overflow counter increments as uint16; nothing else changes |

## Left out

- The mode manager is not modelled: `ihInitialiseTimer`,
  `ihInitialiseInterrupts`, `ihInitialisePitchMeasurement` and
  `ihInitialiseVolumeMeasurement` only write AVR timer and interrupt
  registers. The `reenableInt1` flag they set is not read in `ihandlers.cpp`.
  It presumably gates `enableInt1()` at the end of the INT1 handler, which
  is defined outside `ihandlers.cpp`; that re-arming is interrupt masking
  and is left out with it.
  So the "mode exclusivity" behaviour, which these register settings
  produce, is not modelled either.
- Interrupt masking and preemption are not modelled: `disableInt1`,
  `interrupts`, `noInterrupts`, `enableInt1`. Each handler is one atomic
  step. The critical sections around the delta computations are therefore
  implicit.
- `mcpDacSend` (SPI to the converter) is not modelled. `mcpDac.h` is not
  part of this model. The word sent is `Tick`'s result.
- `incrementTimer` is not modelled. `timer.h` is not part of this model;
  only the number of its calls is kept, as `timerTicks`.
- The wavetable contents (`theremin_sintable*.c`) and their
  `PROGMEM`/`pgm_read_word_near` access are not modelled. The tables are
  eight 1024-entry `int16` sequences with unspecified contents.
- Cycle counts and the microsecond budgets in the comments are not
  modelled, because nothing here measures time.
- The commented-out older shaping path through `mul_16_8` is not modelled.
  `mul_16_8` itself is modelled.
- Register allocation is not modelled: operand constraints and the clobber
  lists of the two `asm` statements. The operands are modelled as the
  registers they name. The zero register r2 is the one the `volexp`
  assembly clears itself, and it is not declared as clobbered.
- The host logic that reads `pitch`, `vol` and the two flags and clears
  them is not modelled.
- The pin macros of `OTPinDefs.h` are not modelled. They are preprocessor
  definitions only.
- InterruptHandlers.Theremin.Tick: its audio-mode output is stated as
  `VolExp` of the table sample, not as a 0..4095 bound. That bound holds
  only for samples in −2048..2047 (`VolExpRange`), and the table contents
  are not part of the model.
