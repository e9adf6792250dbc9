/** Playback state of the wave generator: the 16-bit table pointer with six
    fractional bits, the per-tick pointer increment, the wavetable selector,
    and the clamp applied to the increment in control-voltage output mode. */
module Playback {
  import opened Avr

  const TABLE_COUNT: nat := 8
  const TABLE_SIZE: nat := 1024
  /** Largest value sent to the converter in control-voltage mode. */
  const CV_MAX: uint16 := 4095

  /** The eight flash-resident wavetables, each one cycle of 1024 samples. */
  predicate WellFormedTables(tables: seq<seq<int16>>)
  {
    |tables| == TABLE_COUNT && forall i :: 0 <= i < |tables| ==> |tables[i]| == TABLE_SIZE
  }

  /** `(pointer >> 6) & 0x3ff`: the integer part of the fixed-point pointer. */
  function TableOffset(pointer: uint16): (offset: nat)
    ensures offset < TABLE_SIZE
  {
    (pointer / 64) % 1024
  }

  /** The `switch` on the selector: tables 1..7 by number, anything else table 0. */
  function TableIndex(selector: uint8): (index: nat)
    ensures index < TABLE_COUNT
    ensures 1 <= selector <= 7 ==> index == selector
    ensures (selector == 0 || selector > 7) ==> index == 0
  {
    match selector
    case 1 => 1
    case 2 => 2
    case 3 => 3
    case 4 => 4
    case 5 => 5
    case 6 => 6
    case 7 => 7
    case _ => 0
  }

  /** The sample the tick reads in audio mode. */
  function WaveSample(tables: seq<seq<int16>>, selector: uint8, pointer: uint16): int16
    requires WellFormedTables(tables)
  {
    tables[TableIndex(selector)][TableOffset(pointer)]
  }

  /** `pointer = pointer + vPointerIncrement` on uint16 variables. */
  function AdvancePointer(pointer: uint16, increment: uint16): uint16
  {
    (pointer + increment) % TWO_16
  }

  /** Arduino's `min(vPointerIncrement, 4095)`. */
  function ClampIncrement(increment: uint16): (r: uint16)
    ensures r <= CV_MAX && r <= increment
    ensures r == increment || r == CV_MAX
  {
    if increment < CV_MAX then increment else CV_MAX
  }

  /** The pointer after `ticks` audio-mode ticks at a fixed increment. */
  function PointerAfter(pointer: uint16, increment: uint16, ticks: nat): uint16
  {
    if ticks == 0 then pointer else AdvancePointer(PointerAfter(pointer, increment, ticks - 1), increment)
  }

  // ---------------------------------------------------------------------
  // Properties

  /** The mask never clears a bit: a 16-bit pointer shifted by six is already below 1024. */
  lemma OffsetMaskRedundant(pointer: uint16)
    ensures TableOffset(pointer) == pointer / 64
  {
  }

  /** At increment 64 (one whole sample per tick) the offset steps by one, wrapping at 1024. */
  lemma {:induction false} OffsetStepsByOne(pointer: uint16)
    ensures TableOffset(AdvancePointer(pointer, 64)) == (TableOffset(pointer) + 1) % TABLE_SIZE
  {
    var o, f := pointer / 64, pointer % 64;
    assert pointer == 64 * o + f;
    if o == 1023 {
      assert AdvancePointer(pointer, 64) == f;
    } else {
      assert AdvancePointer(pointer, 64) == 64 * (o + 1) + f;
    }
  }

  /** Running the pointer past 65535 lands on offset 0 when it wraps by less than one sample. */
  lemma WrapLandsOnOffsetZero(pointer: uint16, increment: uint16)
    requires pointer + increment >= TWO_16 && pointer + increment - TWO_16 < 64
    ensures TableOffset(AdvancePointer(pointer, increment)) == 0
  {
  }

  /** k ticks advance the pointer by k increments modulo 2^16. */
  lemma {:induction false} PointerAfterClosedForm(pointer: uint16, increment: uint16, ticks: nat)
    ensures PointerAfter(pointer, increment, ticks) == (pointer + ticks * increment) % TWO_16
  {
    if ticks > 0 {
      PointerAfterClosedForm(pointer, increment, ticks - 1);
      var q := pointer + (ticks - 1) * increment;
      assert (ticks - 1) * increment + increment == ticks * increment;
      ModAddLeft(q, increment);
    }
  }

  lemma ModAddLeft(q: int, y: int)
    ensures (q % TWO_16 + y) % TWO_16 == (q + y) % TWO_16
  {
  }

  /** At increment 64 the k-th tick after the pointer reads offset (start + k) mod 1024. */
  lemma {:induction false} PlaybackVisitsOffsetsInOrder(pointer: uint16, ticks: nat)
    ensures TableOffset(PointerAfter(pointer, 64, ticks)) == (TableOffset(pointer) + ticks) % TABLE_SIZE
  {
    if ticks > 0 {
      var before := PointerAfter(pointer, 64, ticks - 1);
      PlaybackVisitsOffsetsInOrder(pointer, ticks - 1);
      OffsetStepsByOne(before);
      ModSucc(TableOffset(pointer) + ticks - 1);
    }
  }

  lemma ModSucc(x: nat)
    ensures (x % TABLE_SIZE + 1) % TABLE_SIZE == (x + 1) % TABLE_SIZE
  {
  }

  /** From pointer 0 at increment 64 the k-th tick plays sample k of the selected table. */
  lemma {:induction false} PlaybackReproducesTable(tables: seq<seq<int16>>, selector: uint8, ticks: nat)
    requires WellFormedTables(tables) && ticks < TABLE_SIZE
    ensures WaveSample(tables, selector, PointerAfter(0, 64, ticks)) == tables[TableIndex(selector)][ticks]
  {
    var p := PointerAfter(0, 64, ticks);
    assert TableOffset(p) == ticks by {
      PlaybackVisitsOffsetsInOrder(0, ticks);
      assert TableOffset(0) == 0;
    }
  }

  /** Clamping an already clamped increment changes nothing. */
  lemma ClampIdempotent(increment: uint16)
    ensures ClampIncrement(ClampIncrement(increment)) == ClampIncrement(increment)
  {
  }
}
