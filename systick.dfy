/** The millisecond tick counter of the HackRF SysTick performance test:
    the SysTick interrupt increments a 32-bit millisecond count and, one
    second after start-up, captures the CPU cycle counter to measure the
    number of cycles per second. */
module SysTick {
  import opened UInt32

  // ---------------------------------------------------------------------
  // sys_tick_delta_time_ms
  // ---------------------------------------------------------------------

  /** `MAX_T_U32` is written `((2^32)-1)`. In C `^` is exclusive or, so
      `2^32` is 34 and the macro is 33, not 2^32 - 1. */
  const MAX_T_U32: int := ((2 as bv8) ^ (32 as bv8)) as int - 1

  lemma MaxTU32IsThirtyThree()
    ensures MAX_T_U32 == 33
  {
  }

  /** `sys_tick_delta_time_ms(start, end)` as written: `end - start` when
      `end > start`, otherwise `MAX_T_U32 - (start - end) + 1`, all in
      `uint32_t` arithmetic. In the second case the result is the true
      elapsed time modulo 2^32 plus 34. */
  function DeltaTimeMs(start: U32, end: U32): (diff: U32)
    ensures end > start ==> diff == end - start
    ensures end <= start ==> diff == Add32(Sub32(end, start), 34)
  {
    MaxTU32IsThirtyThree();
    if end > start then Sub32(end, start)
    else Add32(Sub32(MAX_T_U32, Sub32(start, end)), 1)
  }

  /** As written, no time elapsed reads as 34 ms. */
  lemma DeltaOfSameInstant(t: U32)
    ensures DeltaTimeMs(t, t) == 34
  {
  }

  /** As written, one millisecond across the 2^32 wrap reads as 35 ms. */
  lemma DeltaAcrossWrap()
    ensures DeltaTimeMs(0xFFFF_FFFF, 0) == 35
  {
  }

  /** The exit test of the `do ... while (tickms < wait_ms)` loop of
      `sys_tick_wait_time_ms`, after polling the counter at `now`. */
  function WaitDone(start: U32, now: U32, waitMs: U32): (done: bool)
    ensures now > start ==> (done <==> waitMs <= now - start)
    ensures now == start ==> (done <==> waitMs <= 34)
  {
    !(DeltaTimeMs(start, now) < waitMs)
  }

  /** As written, a wait of at most 34 ms ends at the first poll, before
      the tick counter has moved at all. */
  lemma ShortWaitEndsAtFirstPoll(start: U32, waitMs: U32)
    requires waitMs <= 34
    ensures WaitDone(start, start, waitMs)
  {
    DeltaOfSameInstant(start);
  }

  const MAX_U32: U32 := 0xFFFF_FFFF

  /** The delta with the intended `MAX_T_U32 == 2^32 - 1`: the elapsed
      time modulo 2^32, zero for the same instant. */
  function DeltaTimeMsIntended(start: U32, end: U32): (diff: U32)
    ensures diff == Sub32(end, start)
    ensures Add32(start, diff) == end
    ensures diff == 0 <==> start == end
  {
    if end > start then Sub32(end, start)
    else Add32(Sub32(MAX_U32, Sub32(start, end)), 1)
  }

  /** With the intended constant, a wait ends exactly when `waitMs`
      milliseconds have elapsed since `start` (modulo 2^32). */
  predicate WaitDoneIntended(start: U32, now: U32, waitMs: U32) {
    !(DeltaTimeMsIntended(start, now) < waitMs)
  }

  lemma WaitDoneIntendedAfterElapsed(start: U32, elapsed: U32, waitMs: U32)
    ensures WaitDoneIntended(start, Add32(start, elapsed), waitMs) <==> waitMs <= elapsed
  {
    assert DeltaTimeMsIntended(start, Add32(start, elapsed)) == elapsed;
  }

  // ---------------------------------------------------------------------
  // Reload value computed by systick_setup
  // ---------------------------------------------------------------------

  /** `systick_reload_val = (calib * 17) / 10` on `uint32_t`: the
      calibration value is for a 10 ms tick at 12 MHz while the core runs
      at 17 times that, and a tick of 1 ms is a tenth of it. */
  function ReloadValue(calib: U32): (reload: U32)
    ensures calib * 17 < TWO_32 ==> 10 * reload <= 17 * calib < 10 * reload + 10
    ensures reload <= MAX_U32 / 10
  {
    Mul32(calib, 17) / 10
  }

  /** A calibration value fits the 24-bit TENMS field, so the multiply by
      17 never wraps and the reload is exactly the rounded-down 1.7 times. */
  lemma ReloadOfTwentyFourBitCalib(calib: U32)
    requires calib < 0x100_0000
    ensures 10 * ReloadValue(calib) <= 17 * calib < 10 * ReloadValue(calib) + 10
  {
  }

  // ---------------------------------------------------------------------
  // sys_tick_handler as a state transition
  // ---------------------------------------------------------------------

  /** The globals the interrupt handler touches: `g_ulSysTickCount`,
      `g_NbCyclePerSecond` and the DWT cycle counter register. */
  datatype TickState = TickState(tickCount: U32, cyclesPerSecond: U32, cycleCounter: U32)

  /** One `sys_tick_handler` call: clear the cycle counter at tick 0,
      capture it at tick 1000, and in every case count one tick. */
  function HandlerStep(s: TickState): (t: TickState)
    ensures t.tickCount == (s.tickCount + 1) % TWO_32
    ensures t.tickCount == 0 <==> s.tickCount == MAX_U32
    ensures t.cycleCounter != s.cycleCounter ==> s.tickCount == 0
    ensures s.tickCount == 0 ==> t.cycleCounter == 0
    ensures t.cyclesPerSecond != s.cyclesPerSecond ==> s.tickCount == 1000
    ensures s.tickCount == 1000 ==> t.cyclesPerSecond == s.cycleCounter
  {
    if s.tickCount == 0 then
      s.(cycleCounter := 0, tickCount := Add32(s.tickCount, 1))
    else if s.tickCount == 1000 then
      s.(cyclesPerSecond := s.cycleCounter, tickCount := Add32(s.tickCount, 1))
    else
      s.(tickCount := Add32(s.tickCount, 1))
  }

  /** Between two interrupts the DWT cycle counter counts the core's
      cycles: it advances by `elapsed`, wrapping at 2^32. */
  function Advance(s: TickState, elapsed: U32): (t: TickState)
    ensures t.tickCount == s.tickCount && t.cyclesPerSecond == s.cyclesPerSecond
    ensures t.cycleCounter == (s.cycleCounter + elapsed) % TWO_32
  {
    s.(cycleCounter := Add32(s.cycleCounter, elapsed))
  }

  /** The sum of the cycle counts in `xs`. */
  function Sum(xs: seq<U32>): int
    decreases |xs|
  {
    if |xs| == 0 then 0 else Sum(xs[..|xs| - 1]) + xs[|xs| - 1]
  }

  /** A run of interrupts: before interrupt `k` the cycle counter has
      advanced by `elapsed[k]` cycles since the previous one (or since `s`),
      and then `sys_tick_handler` runs. The tick count advances by one per
      interrupt, modulo 2^32. */
  function Steps(s: TickState, elapsed: seq<U32>): (t: TickState)
    ensures t.tickCount == (s.tickCount + |elapsed|) % TWO_32
    decreases |elapsed|
  {
    if |elapsed| == 0 then s
    else HandlerStep(Advance(Steps(s, elapsed[..|elapsed| - 1]), elapsed[|elapsed| - 1]))
  }

  /** Counting from tick 0, the handler clears the cycle counter at the
      first interrupt and leaves it to the hardware for the next 999, so
      after `n` interrupts it holds the cycles elapsed since the first
      one, modulo 2^32. */
  lemma {:induction false} StepsCountCycles(s: TickState, elapsed: seq<U32>)
    requires s.tickCount == 0 && 1 <= |elapsed| <= 1000
    ensures Steps(s, elapsed).tickCount == |elapsed|
    ensures Steps(s, elapsed).cycleCounter == Sum(elapsed[1..]) % TWO_32
    decreases |elapsed|
  {
    var n := |elapsed| - 1;
    if n == 0 {
      assert elapsed[1..] == [];
    } else {
      var prefix := elapsed[..n];
      StepsCountCycles(s, prefix);
      assert prefix[1..] == elapsed[1..][..n - 1];
      var u := Advance(Steps(s, prefix), elapsed[n]);
      assert u.cycleCounter == (Sum(prefix[1..]) % TWO_32 + elapsed[n]) % TWO_32;
    }
  }

  /** The one-second measurement: starting at tick 0, after 1001
      interrupts `g_NbCyclePerSecond` holds the cycles the core ran
      between the first interrupt and the 1001st, modulo 2^32. */
  lemma OneSecondCapture(s: TickState, elapsed: seq<U32>)
    requires s.tickCount == 0 && |elapsed| == 1001
    ensures Steps(s, elapsed).cyclesPerSecond == Sum(elapsed[1..]) % TWO_32
  {
    var prefix := elapsed[..1000];
    StepsCountCycles(s, prefix);
    assert prefix[1..] == elapsed[1..][..999];
  }

  /** Once past tick 1000, and until the count wraps, the handler leaves
      the captured cycles per second alone and never writes the cycle
      counter, which then holds its old value plus the elapsed cycles. */
  lemma {:induction false} StepsQuietAfterCapture(s: TickState, elapsed: seq<U32>)
    requires 1000 < s.tickCount && s.tickCount + |elapsed| <= TWO_32
    ensures Steps(s, elapsed).cyclesPerSecond == s.cyclesPerSecond
    ensures Steps(s, elapsed).cycleCounter == (s.cycleCounter + Sum(elapsed)) % TWO_32
    decreases |elapsed|
  {
    var n := |elapsed|;
    if n > 0 {
      var prefix := elapsed[..n - 1];
      StepsQuietAfterCapture(s, prefix);
    }
  }

  // ---------------------------------------------------------------------
  // The globals and the functions that update them
  // ---------------------------------------------------------------------

  class SysTickTimer {
    /** `g_ulSysTickCount` */
    var tickCount: U32
    /** `g_NbCyclePerSecond` */
    var cyclesPerSecond: U32
    /** The DWT cycle counter register `SCS_DWT_CYCCNT` */
    var cycleCounter: U32
    /** The SysTick reload register, as last set by `systick_setup` */
    var reload: U32

    function State(): TickState
      reads this
    {
      TickState(tickCount, cyclesPerSecond, cycleCounter)
    }

    /** Power-on state: the two globals are zero-initialised; the two
        hardware registers hold whatever they hold. */
    constructor (cycles: U32, reloadRegister: U32)
      ensures tickCount == 0 && cyclesPerSecond == 0
      ensures cycleCounter == cycles && reload == reloadRegister
    {
      tickCount := 0;
      cyclesPerSecond := 0;
      cycleCounter := cycles;
      reload := reloadRegister;
    }

    /** `systick_setup`, given the value `systick_get_calib()` returns. */
    method Setup(calib: U32)
      modifies this
      ensures tickCount == 0 && reload == ReloadValue(calib)
      ensures cyclesPerSecond == old(cyclesPerSecond) && cycleCounter == old(cycleCounter)
    {
      tickCount := 0;
      var reloadVal := calib;
      reloadVal := Mul32(reloadVal, 17);
      reloadVal := reloadVal / 10;
      reload := reloadVal;
    }

    /** `sys_tick_get_time_ms` */
    method GetTimeMs() returns (t: U32)
      ensures t == tickCount
    {
      t := tickCount;
    }

    /** The DWT cycle counter running for `elapsed` cycles between two
        interrupts. */
    method CountCycles(elapsed: U32)
      modifies this
      ensures State() == Advance(old(State()), elapsed)
      ensures reload == old(reload)
    {
      cycleCounter := Add32(cycleCounter, elapsed);
    }

    /** `sys_tick_handler` */
    method Handler()
      modifies this
      ensures State() == HandlerStep(old(State()))
      ensures reload == old(reload)
    {
      if tickCount == 0 {
        cycleCounter := 0;
      } else if tickCount == 1000 {
        cyclesPerSecond := cycleCounter;
      }
      tickCount := Add32(tickCount, 1);
    }
  }
}
