/** One frequency-capture channel (pitch or volume) as a value: the debounce
    counter, the latched counter and its previous value, the published delta
    and the "value available" flag.  A capture edge resets the counter; each
    wave-generator tick advances it while the sensor pin reads high,
    recomputes the delta whenever it stands at 3 and raises the flag whenever
    it stands at 5. */
module Debounce {
  import opened Avr

  const DELTA_COUNT: uint8 := 3
  const READY_COUNT: uint8 := 5

  /** For the pitch channel: debounce_p, pitch_counter, pitch_counter_l, pitch,
      pitchValueAvailable; for the volume channel: debounce_v, vol_counter,
      vol_counter_l, vol, volumeValueAvailable. */
  datatype Channel = Channel(debounce: uint8, counter: uint16, last: uint16, delta: uint16, available: bool)

  /** Counter change on a free-running 16-bit timer: uint16 subtraction. */
  function Elapsed(cur: uint16, last: uint16): (d: uint16)
    ensures (last + d) % TWO_16 == cur
    ensures last <= cur ==> d == cur - last
  {
    (cur - last) % TWO_16
  }

  /** The channel's part of one wave-generator tick; `cur` is the counter
      the channel latches (ICR1 for pitch, vol_counter_i for volume). */
  function Tick(c: Channel, cur: uint16, pinHigh: bool): Channel
  {
    var n: uint8 := if pinHigh then (c.debounce + 1) % TWO_8 else c.debounce;
    var d := if n == DELTA_COUNT then c.(counter := cur, delta := Elapsed(cur, c.last), last := cur) else c;
    d.(debounce := n, available := d.available || n == READY_COUNT)
  }

  /** The capture interrupt's effect on the channel. */
  function Capture(c: Channel): Channel
  {
    c.(debounce := 0)
  }

  /** Ticks between two capture edges, oldest pin reading first. */
  function Run(c: Channel, cur: uint16, pins: seq<bool>): Channel
    decreases |pins|
  {
    if pins == [] then c else Tick(Run(c, cur, pins[..|pins| - 1]), cur, pins[|pins| - 1])
  }

  function HighCount(pins: seq<bool>): nat
    decreases |pins|
  {
    if pins == [] then 0 else HighCount(pins[..|pins| - 1]) + Bit(pins[|pins| - 1])
  }

  function AllHigh(n: nat): (pins: seq<bool>)
    ensures |pins| == n && forall i :: 0 <= i < n ==> pins[i]
  {
    seq(n, _ => true)
  }

  /** The latched counter and its previous value agree outside a tick. */
  predicate Synced(c: Channel)
  {
    c.counter == c.last
  }

  // ---------------------------------------------------------------------
  // One tick

  /** The rules of a single tick: the counter steps as uint8 only on a high
      pin; the delta changes only when the new counter is 3, and then is
      the counter change since the previous latch; the flag is raised at 5
      and never lowered. */
  lemma TickRules(c: Channel, cur: uint16, pinHigh: bool)
    ensures Tick(c, cur, pinHigh).debounce == if pinHigh then (c.debounce + 1) % TWO_8 else c.debounce
    ensures Tick(c, cur, pinHigh).debounce == DELTA_COUNT ==>
              Tick(c, cur, pinHigh).counter == cur && Tick(c, cur, pinHigh).last == cur &&
              (c.last + Tick(c, cur, pinHigh).delta) % TWO_16 == cur
    ensures Tick(c, cur, pinHigh).debounce != DELTA_COUNT ==>
              Tick(c, cur, pinHigh).(debounce := c.debounce, available := c.available) == c
    ensures Tick(c, cur, pinHigh).available <==> c.available || Tick(c, cur, pinHigh).debounce == READY_COUNT
  {
  }

  lemma SyncedPreserved(c: Channel, cur: uint16, pinHigh: bool)
    requires Synced(c)
    ensures Synced(Tick(c, cur, pinHigh)) && Synced(Capture(c))
  {
  }

  /** A counter stalled at 3 (pin low) recomputes the delta on every tick,
      and since the previous latch is now `cur` the delta becomes 0. */
  lemma RecomputeWhileStalled(c: Channel, cur: uint16)
    requires c.debounce == DELTA_COUNT && c.counter == c.last == cur
    ensures Tick(c, cur, false) == c.(delta := 0)
  {
  }

  /** The uint8 counter wraps: a high tick takes it from 255 to 0. */
  lemma CounterWraps(c: Channel, cur: uint16)
    requires c.debounce == 0xFF
    ensures Tick(c, cur, true).debounce == 0
  {
  }

  // ---------------------------------------------------------------------
  // Runs of ticks

  /** Below the wrap, the counter counts the high readings. */
  lemma {:induction false} RunCounts(c: Channel, cur: uint16, pins: seq<bool>)
    requires c.debounce + HighCount(pins) < TWO_8
    ensures Run(c, cur, pins).debounce == c.debounce + HighCount(pins)
  {
    if pins != [] {
      RunCounts(c, cur, pins[..|pins| - 1]);
    }
  }

  /** The ready flag is never cleared by a tick. */
  lemma {:induction false} ReadyNeverCleared(c: Channel, cur: uint16, pins: seq<bool>)
    requires c.available
    ensures Run(c, cur, pins).available
  {
    if pins != [] {
      ReadyNeverCleared(c, cur, pins[..|pins| - 1]);
    }
  }

  /** Fewer than three high readings since the counter's value leave the
      latch, the delta and the flag untouched. */
  lemma {:induction false} GlitchLeavesNoTrace(c: Channel, cur: uint16, pins: seq<bool>)
    requires c.debounce + HighCount(pins) < DELTA_COUNT
    ensures Run(c, cur, pins) == c.(debounce := c.debounce + HighCount(pins))
  {
    if pins != [] {
      GlitchLeavesNoTrace(c, cur, pins[..|pins| - 1]);
    }
  }

  /** From a reset counter, one or two high readings followed by a capture
      edge leave the channel exactly as it was. */
  lemma GlitchThenCapture(c: Channel, cur: uint16, pins: seq<bool>)
    requires c.debounce == 0 && HighCount(pins) <= 2
    ensures Capture(Run(c, cur, pins)) == c
  {
    GlitchLeavesNoTrace(c, cur, pins);
  }

  lemma RunAllHighStep(c: Channel, cur: uint16, n: nat)
    requires n > 0
    ensures Run(c, cur, AllHigh(n)) == Tick(Run(c, cur, AllHigh(n - 1)), cur, true)
  {
    assert AllHigh(n)[..n - 1] == AllHigh(n - 1);
  }

  /** n consecutive high readings advance the uint8 counter by n modulo 256,
      whatever it started at: after 256 of them it is back where it began, so
      a pin held high reaches 3 and 5 again every 256 ticks. */
  lemma {:induction false} HighRunWraps(c: Channel, cur: uint16, n: nat)
    ensures Run(c, cur, AllHigh(n)).debounce == (c.debounce + n) % TWO_8
  {
    if n == 0 {
      assert AllHigh(0) == [];
    } else {
      RunAllHighStep(c, cur, n);
      HighRunWraps(c, cur, n - 1);
      ModSucc8(c.debounce + n - 1);
    }
  }

  lemma ModSucc8(x: nat)
    ensures (x % TWO_8 + 1) % TWO_8 == (x + 1) % TWO_8
  {
  }

  /** From a reset counter, n consecutive high readings (3 <= n < 256)
      compute the delta once, at the third, and hold it; the flag is raised
      exactly from the fifth on. */
  lemma {:induction false} SteadyHigh(c: Channel, cur: uint16, n: nat)
    requires c.debounce == 0 && DELTA_COUNT <= n < TWO_8
    ensures Run(c, cur, AllHigh(n))
         == c.(debounce := n, counter := cur, last := cur, delta := Elapsed(cur, c.last),
               available := c.available || n >= READY_COUNT)
  {
    RunAllHighStep(c, cur, n);
    if n == DELTA_COUNT {
      TwoHighTicks(c, cur);
    } else {
      SteadyHigh(c, cur, n - 1);
    }
  }

  lemma TwoHighTicks(c: Channel, cur: uint16)
    requires c.debounce == 0
    ensures Run(c, cur, AllHigh(2)) == c.(debounce := 2)
  {
    assert AllHigh(0) == [];
    RunAllHighStep(c, cur, 1);
    RunAllHighStep(c, cur, 2);
  }
}
