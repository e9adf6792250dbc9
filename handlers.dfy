/** The interrupt handlers of the instrument as one object over the firmware's
    global state.  `Tick` is the externally clocked 31.25 kHz wave-generator
    interrupt (INT1); `CaptureVolume` and `CapturePitch` are the two capture
    interrupts (INT0 and Timer 1 input capture); `CalibrationCompare` and
    `CalibrationOverflow` are the two calibration-mode interrupts.  Each
    handler is one atomic step; the values the hardware supplies (ICR1, TCNT1,
    the two pin levels) are parameters, the converter word is the result. */
module InterruptHandlers {
  import opened Avr
  import opened VolumeShaper
  import opened Playback
  import Debounce

  class Theremin {
    /** The CV_ENABLED build switch: control-voltage output instead of audio. */
    const cvEnabled: bool
    /** The eight wavetables in flash. */
    const wavetables: seq<seq<int16>>

    var scaledVolume: uint8          // vScaledVolume, written by the host
    var pointerIncrement: uint16     // vPointerIncrement, written by the host
    var wavetableSelector: uint8     // vWavetableSelector, written by the host
    var pointer: uint16              // table pointer, 10.6 fixed point

    var pitch: uint16                // published pitch delta
    var pitchCounter: uint16
    var pitchCounterLast: uint16
    var pitchValueAvailable: bool
    var debounceP: uint8

    var vol: uint16                  // published volume delta
    var volCounter: uint16
    var volCounterIsr: uint16        // vol_counter_i, latched by the volume capture
    var volCounterLast: uint16
    var volumeValueAvailable: bool
    var debounceV: uint8

    var timerOverflowCounter: uint16 // calibration-mode overflow count
    var timerTicks: nat              // calls of incrementTimer(), the 32 us clock

    function PitchChannel(): Debounce.Channel
      reads this
    {
      Debounce.Channel(debounceP, pitchCounter, pitchCounterLast, pitch, pitchValueAvailable)
    }

    function VolumeChannel(): Debounce.Channel
      reads this
    {
      Debounce.Channel(debounceV, volCounter, volCounterLast, vol, volumeValueAvailable)
    }

    ghost predicate Valid()
      reads this
    {
      WellFormedTables(wavetables) && Debounce.Synced(PitchChannel()) && Debounce.Synced(VolumeChannel())
    }

    /** Power-up state: every global is zero (static storage). */
    constructor (cvEnabled: bool, wavetables: seq<seq<int16>>)
      requires WellFormedTables(wavetables)
      ensures Valid()
      ensures this.cvEnabled == cvEnabled && this.wavetables == wavetables
      ensures scaledVolume == 0 && pointerIncrement == 0 && wavetableSelector == 0 && pointer == 0
      ensures PitchChannel() == Debounce.Channel(0, 0, 0, 0, false)
      ensures VolumeChannel() == Debounce.Channel(0, 0, 0, 0, false)
      ensures volCounterIsr == 0 && timerOverflowCounter == 0 && timerTicks == 0
    {
      this.cvEnabled, this.wavetables := cvEnabled, wavetables;
      scaledVolume, pointerIncrement, wavetableSelector, pointer := 0, 0, 0, 0;
      pitch, pitchCounter, pitchCounterLast, pitchValueAvailable, debounceP := 0, 0, 0, false, 0;
      vol, volCounter, volCounterIsr, volCounterLast, volumeValueAvailable, debounceV := 0, 0, 0, 0, false, 0;
      timerOverflowCounter, timerTicks := 0, 0;
    }

    /** ISR(INT1_vect): one output sample, then both debounce channels.
        The host-written controls, vol_counter_i and the overflow count are
        outside the frame and so unchanged. */
    method Tick(icr1: uint16, pitchPinHigh: bool, volumePinHigh: bool) returns (dac: uint16)
      requires Valid()
      modifies this`pointer, this`pointerIncrement, this`timerTicks
      modifies this`pitch, this`pitchCounter, this`pitchCounterLast, this`pitchValueAvailable, this`debounceP
      modifies this`vol, this`volCounter, this`volCounterLast, this`volumeValueAvailable, this`debounceV
      ensures Valid()
      ensures cvEnabled ==> dac == ClampIncrement(old(pointerIncrement)) && dac <= CV_MAX
      ensures cvEnabled ==> pointerIncrement == dac && pointer == old(pointer)
      ensures !cvEnabled ==>
                dac == VolExp(WaveSample(wavetables, old(wavetableSelector), old(pointer)), old(scaledVolume))
      ensures !cvEnabled ==>
                pointerIncrement == old(pointerIncrement) && pointer == AdvancePointer(old(pointer), old(pointerIncrement))
      ensures timerTicks == old(timerTicks) + 1
      ensures PitchChannel() == Debounce.Tick(old(PitchChannel()), icr1, pitchPinHigh)
      ensures VolumeChannel() == Debounce.Tick(old(VolumeChannel()), volCounterIsr, volumePinHigh)
    {
      var offset := TableOffset(pointer);
      if cvEnabled {
        pointerIncrement := ClampIncrement(pointerIncrement);
        dac := pointerIncrement;
      } else {
        var waveSample := wavetables[TableIndex(wavetableSelector)][offset];
        dac := VolExpAsm(waveSample, scaledVolume);
        pointer := (pointer + pointerIncrement) % TWO_16;
      }
      timerTicks := timerTicks + 1;
      PitchDebounce(icr1, pitchPinHigh);
      VolumeDebounce(volumePinHigh);
    }

    /** The pitch half of the tick's debounce logic. */
    method PitchDebounce(icr1: uint16, pinHigh: bool)
      modifies this`pitch, this`pitchCounter, this`pitchCounterLast, this`pitchValueAvailable, this`debounceP
      ensures PitchChannel() == Debounce.Tick(old(PitchChannel()), icr1, pinHigh)
    {
      if pinHigh {
        debounceP := (debounceP + 1) % TWO_8;
      }
      if debounceP == Debounce.DELTA_COUNT {
        pitchCounter := icr1;
        pitch := (pitchCounter - pitchCounterLast) % TWO_16;
        pitchCounterLast := pitchCounter;
      }
      if debounceP == Debounce.READY_COUNT {
        pitchValueAvailable := true;
      }
    }

    /** The volume half of the tick's debounce logic; the latched value is vol_counter_i. */
    method VolumeDebounce(pinHigh: bool)
      modifies this`vol, this`volCounter, this`volCounterLast, this`volumeValueAvailable, this`debounceV
      ensures VolumeChannel() == Debounce.Tick(old(VolumeChannel()), volCounterIsr, pinHigh)
    {
      if pinHigh {
        debounceV := (debounceV + 1) % TWO_8;
      }
      if debounceV == Debounce.DELTA_COUNT {
        volCounter := volCounterIsr;
        vol := (volCounter - volCounterLast) % TWO_16;
        volCounterLast := volCounter;
      }
      if debounceV == Debounce.READY_COUNT {
        volumeValueAvailable := true;
      }
    }

    /** ISR(INT0_vect): latch Timer 1 for the volume channel and restart its debounce. */
    method CaptureVolume(tcnt1: uint16)
      requires Valid()
      modifies this`volCounterIsr, this`debounceV
      ensures Valid()
      ensures volCounterIsr == tcnt1
      ensures VolumeChannel() == Debounce.Capture(old(VolumeChannel()))
    {
      volCounterIsr := tcnt1;
      debounceV := 0;
    }

    /** ISR(TIMER1_CAPT_vect): the hardware has latched ICR1; restart the pitch debounce. */
    method CapturePitch()
      requires Valid()
      modifies this`debounceP
      ensures Valid()
      ensures PitchChannel() == Debounce.Capture(old(PitchChannel()))
    {
      debounceP := 0;
    }

    /** ISR(TIMER0_COMPA_vect): one more calibration period, uint16 arithmetic. */
    method CalibrationCompare()
      modifies this`timerOverflowCounter
      ensures timerOverflowCounter == (old(timerOverflowCounter) + 1) % TWO_16
    {
      timerOverflowCounter := (timerOverflowCounter + 1) % TWO_16;
    }

    /** ISR(TIMER1_OVF_vect): one more calibration period, uint16 arithmetic. */
    method CalibrationOverflow()
      modifies this`timerOverflowCounter
      ensures timerOverflowCounter == (old(timerOverflowCounter) + 1) % TWO_16
    {
      timerOverflowCounter := (timerOverflowCounter + 1) % TWO_16;
    }
  }
}
