# Verified model of four small cores: X300 peek/poke codec, HackRF SysTick counter, SGPIO loops, VOLK test descriptors

This Dafny project models four pieces of logic from a software-defined-radio code base:

- **X300 firmware control packets** (`x300_debug.dfy`, module `X300Debug`).
  The USRP X300 debug tool peeks and pokes firmware registers over UDP.
  Each request is 21 big-endian 32-bit words: a header (id `0xACE3`, flags, sequence number, `num_words = 1`, address), then 16 data words.
  Replies have the same layout.
  Flag bits 31, 30 and 29 report a packet, command or size error.
  The model covers packing, unpacking, the error check, the global sequence counter and the router statistics address map.
- **HackRF SysTick millisecond counter** (`systick.dfy`, module `SysTick`).
  This covers the elapsed-time helper, the interrupt handler that counts ticks and captures the CPU cycle counter after one second, and the reload value that `systick_setup` computes.
  All of it is `uint32_t` arithmetic.
- **HackRF SGPIO streaming loops** (`sgpio_rx.dfy`, module `SgpioRx`).
  The model covers one pass of each of the receive and transmit loops:
  - the receive loop writes a 4096-entry ring buffer, decodes a signed I/Q byte pair, computes its power and sets LED3 against a threshold;
  - the transmit loop cycles through a 4-word table.
- **VOLK QA test descriptors** (`qa_utils.dfy`, module `VolkQaUtils`).
  This covers the immutable records `volk_test_params_t` and `volk_test_case_t` with their ordinary and puppet constructors.
  It also covers the argument lists that the `run_volk_tests` default arguments and the `VOLK_RUN_TESTS`, `VOLK_PROFILE` and `VOLK_PUPPET_PROFILE` macros pass to the harness.

`common.dfy` holds the shared `Option`/`Result` types and the `uint32_t` helpers: the word and byte types and wrapping add, subtract and multiply.

Modelling choices:
- Python integers and C `uint32_t` values are `int` subset types (`U32`, `Byte`) in the codec and the SysTick model.
- `systick.dfy` reduces each `uint32_t` wrap-around modulo 2^32; `x300_debug.dfy` models the [0, 2^32) range checks of `struct`'s `'L'` format.
- For a one-bit mask `M`, the source's test `flags & M == M` is stated as `(flags / M) % 2 == 1`.
- The SGPIO loops work on `bv32` words, as the firmware does.
- Each Python exception is an `Err` value of a `Result`: `struct.error`, the firmware-error `Exception` and `IndexError`.

## Model

| member | source | states |
|---|---|---|
| `X300Debug.CheckError` | sources/uhd/firmware/usrp3/x300/x300_debug.py:61-67 | passes iff flags < 0x20000000 (none of bits 31, 30, 29 set); packet error iff bit 31; command error iff bit 30 without bit 31; size error iff bit 29 alone among the three: priority packet > command > size |
| `X300Debug.CheckErrorIgnoresLowBits` | sources/uhd/firmware/usrp3/x300/x300_debug.py:30-36 | bits 0..28 (ACK, POKE32, PEEK32 among them) never change the outcome of the check |
| `X300Debug.AckPeekPokeNeverError` | sources/uhd/firmware/usrp3/x300/x300_debug.py:30-32 | every combination of ACK, POKE32 and PEEK32 passes the check |
| `X300Debug.EncodeWord` | sources/uhd/firmware/usrp3/x300/x300_debug.py:76-78 | `'!L'` gives 4 bytes that decode back to the word |
| `X300Debug.DecodeWord` | sources/uhd/firmware/usrp3/x300/x300_debug.py:86 | `'!L'` reads four bytes big-endian: byte 0 is bits 24..31 of the word, byte 3 bits 0..7 |
| `X300Debug.EncodeDecodeWord` | sources/uhd/firmware/usrp3/x300/x300_debug.py:86 | any 4 bytes are the encoding of the word they decode to (the codec is a bijection) |
| `X300Debug.EncodeWords` | sources/uhd/firmware/usrp3/x300/x300_debug.py:73-78 | concatenated words: length 4 per word, and word k occupies bytes 4k..4k+3 |
| `X300Debug.WordAtEncodeWords` | sources/uhd/firmware/usrp3/x300/x300_debug.py:82-86 | reading word k of the concatenation gives back the k-th word |
| `X300Debug.HeaderWords` | sources/uhd/firmware/usrp3/x300/x300_debug.py:73 | the five header words: id 0xACE3, flags, seq, num_words = 1, addr, in that order |
| `X300Debug.DataWords` | sources/uhd/firmware/usrp3/x300/x300_debug.py:70-78 | 16 data words: the first is `data`, the other 15 are zero |
| `X300Debug.Pack` | sources/uhd/firmware/usrp3/x300/x300_debug.py:69-79 | succeeds iff flags, seq, addr and data all lie in [0, 2^32), else `struct.error`; a packed request is 84 bytes |
| `X300Debug.PackLayout` | sources/uhd/firmware/usrp3/x300/x300_debug.py:69-79 | word layout of the request: 0xACE3, flags, seq, 1, addr, data, then 15 zero words |
| `X300Debug.PackRequest` | sources/uhd/firmware/usrp3/x300/x300_debug.py:69-79 | the header-then-loop construction with `buf +=` equals `Pack`, including the error when data is out of range |
| `X300Debug.Unpack` | sources/uhd/firmware/usrp3/x300/x300_debug.py:81-87 | `struct.error` under 20 bytes; the flags are checked before any data word is read; success iff at least 24 bytes, a whole number of words and no error bit; a successful reply's flags pass the check again |
| `X300Debug.UnpackReply` | sources/uhd/firmware/usrp3/x300/x300_debug.py:81-87 | the append loop over 4-byte slices equals `Unpack`: a short trailing slice gives `struct.error`, an empty data list gives `IndexError` |
| `X300Debug.UnpackPack` | sources/uhd/firmware/usrp3/x300/x300_debug.py:69-87 | round trip: unpack(pack(flags, seq, addr, data)) = (flags, seq, addr, data) for 32-bit values when flags has no error bit |
| `X300Debug.UnpackPackErrorFlags` | sources/uhd/firmware/usrp3/x300/x300_debug.py:81-83 | a packed request with an error bit unpacks to the firmware error that `fw_check_error` reports |
| `X300Debug.UnpackIgnoresIdAndNumWords` | sources/uhd/firmware/usrp3/x300/x300_debug.py:82-87 | buffers that differ only in the id and num_words words unpack to the same result |
| `X300Debug.SeqCounter.constructor` | sources/uhd/firmware/usrp3/x300/x300_debug.py:51 | `_seq` starts at -1 and nothing has been issued |
| `X300Debug.SeqCounter.Next` | sources/uhd/firmware/usrp3/x300/x300_debug.py:52-55 | each call returns one more than the last; the n-th call (counting from 0) returns n |
| `X300Debug.PeekRequest` | sources/uhd/firmware/usrp3/x300/x300_debug.py:134 | the peek request (PEEK32\|ACK, data 0) is built iff seq and addr are 32-bit values, else `struct.error`; it is 84 bytes |
| `X300Debug.PokeRequest` | sources/uhd/firmware/usrp3/x300/x300_debug.py:141 | the poke request (POKE32\|ACK) is built iff seq, addr and data are 32-bit values, else `struct.error`; it is 84 bytes |
| `X300Debug.PeekPokeRequestsRoundTrip` | sources/uhd/firmware/usrp3/x300/x300_debug.py:133-145 | peek (PEEK32\|ACK, data 0) and poke (POKE32\|ACK) requests carry no error bit and unpack to their own fields |
| `X300Debug.RouterStatsAddr` | sources/uhd/firmware/usrp3/x300/x300_debug.py:122 | for ports 0..7 the counter address is 4-aligned and within [0xA100, 0xA1FC] |
| `X300Debug.RouterStatsAddrInjective` | sources/uhd/firmware/usrp3/x300/x300_debug.py:119-122 | distinct (ingress, egress) port pairs read distinct addresses |
| `X300Debug.RouterStatsRequests` | sources/uhd/firmware/usrp3/x300/x300_debug.py:119-122 | requests are built ingress-major; request k is a peek of the address for ports (k/8, k%8) with sequence number one past the previous; all 64 are built and the counter advances by 64 iff the last number fits 32 bits; otherwise the loop stops with `struct.error` at the first number that does not fit, and the counter ends at that number |
| `SysTick.MaxTU32IsThirtyThree` | sources/hackrf/firmware/startup_systick_perfo/startup_systick.c:80 | `((2^32)-1)` with C's exclusive-or `^` is 33 |
| `SysTick.DeltaTimeMs` | sources/hackrf/firmware/startup_systick_perfo/startup_systick.c:78-92 | as written: `end - start` when end > start; otherwise the true elapsed time modulo 2^32 plus 34 |
| `SysTick.DeltaOfSameInstant` | sources/hackrf/firmware/startup_systick_perfo/startup_systick.c:80-89 | as written, start == end gives 34, not 0 |
| `SysTick.DeltaAcrossWrap` | sources/hackrf/firmware/startup_systick_perfo/startup_systick.c:80-89 | as written, one millisecond across the 2^32 wrap reads as 35 |
| `SysTick.WaitDone` | sources/hackrf/firmware/startup_systick_perfo/startup_systick.c:101-105 | as written, the `do ... while` exit test: once `end > start` the loop ends iff `wait_ms <= end - start`; at `end == start` it ends iff `wait_ms <= 34` |
| `SysTick.ShortWaitEndsAtFirstPoll` | sources/hackrf/firmware/startup_systick_perfo/startup_systick.c:94-106 | as written, a wait of at most 34 ms ends at its first poll, before any tick |
| `SysTick.DeltaTimeMsIntended` | sources/hackrf/firmware/startup_systick_perfo/startup_systick.c:78-92 | with MAX_T_U32 = 2^32-1 the delta is `end - start` modulo 2^32: adding it to start gives end, and it is 0 iff start == end |
| `SysTick.WaitDoneIntendedAfterElapsed` | sources/hackrf/firmware/startup_systick_perfo/startup_systick.c:94-106 | with the intended constant, the wait ends exactly once `wait_ms` ms have elapsed |
| `SysTick.ReloadValue` | sources/hackrf/firmware/startup_systick_perfo/startup_systick.c:44-53 | the body wraps the multiply modulo 2^32; the contract gives reload = floor(1.7 calib) when the multiply does not wrap, and reload <= (2^32-1)/10 always |
| `SysTick.ReloadOfTwentyFourBitCalib` | sources/hackrf/firmware/startup_systick_perfo/startup_systick.c:44-52 | for any 24-bit calibration value the multiply does not wrap and reload = floor(17 calib / 10) |
| `SysTick.HandlerStep` | sources/hackrf/firmware/startup_systick_perfo/startup_systick.c:112-125 | tick count +1 modulo 2^32; cycle counter changes only when the count was 0 and is then cleared; cycles-per-second changes only when the count was 1000 and then takes the cycle counter |
| `SysTick.Advance` | sources/hackrf/firmware/startup_systick_perfo/startup_systick.c:117-121 | between interrupts the DWT cycle counter advances by the elapsed cycles modulo 2^32; the globals are untouched |
| `SysTick.Steps` | sources/hackrf/firmware/startup_systick_perfo/startup_systick.c:112-125 | a run of interrupts, each preceded by the cycles elapsed since the last: the tick count advances by the number of interrupts, modulo 2^32 |
| `SysTick.StepsCountCycles` | sources/hackrf/firmware/startup_systick_perfo/startup_systick.c:114-118 | from tick 0, after n (1..1000) interrupts the tick count is n and the cycle counter holds the cycles elapsed since the first interrupt |
| `SysTick.OneSecondCapture` | sources/hackrf/firmware/startup_systick_perfo/startup_systick.c:119-122 | from tick 0, after 1001 interrupts `g_NbCyclePerSecond` is the sum of the cycles elapsed between interrupt 1 and interrupt 1001, modulo 2^32 |
| `SysTick.StepsQuietAfterCapture` | sources/hackrf/firmware/startup_systick_perfo/startup_systick.c:114-122 | past tick 1000 and before the wrap, interrupts leave the captured cycles per second unchanged and never write the cycle counter, which only accumulates elapsed cycles |
| `SysTick.SysTickTimer.constructor` | sources/hackrf/firmware/startup_systick_perfo/startup_systick.c:29-30 | the globals start at zero; the hardware registers hold their given values |
| `SysTick.SysTickTimer.Setup` | sources/hackrf/firmware/startup_systick_perfo/startup_systick.c:32-65 | tick count reset to 0, reload register set to `ReloadValue(calib)`, cycle state untouched |
| `SysTick.SysTickTimer.GetTimeMs` | sources/hackrf/firmware/startup_systick_perfo/startup_systick.c:73-76 | returns the tick count and changes nothing |
| `SysTick.SysTickTimer.CountCycles` | sources/hackrf/firmware/startup_systick_perfo/startup_systick.c:117-121 | the cycle counter register advances as `Advance` says; the globals and the reload register are untouched |
| `SysTick.SysTickTimer.Handler` | sources/hackrf/firmware/startup_systick_perfo/startup_systick.c:112-125 | the new globals are `HandlerStep` of the old ones; the reload register is untouched |
| `SgpioRx.RxSlot` | sources/hackrf/firmware/sgpio-rx/sgpio-rx.c:62 | `i & 4095` is `i mod 4096` and always indexes inside the 4096-entry buffer |
| `SgpioRx.RxSlotNext` | sources/hackrf/firmware/sgpio-rx/sgpio-rx.c:62-74 | successive iterations use successive slots modulo 4096, also across the wrap of the 32-bit counter |
| `SgpioRx.RxSlotsDistinct` | sources/hackrf/firmware/sgpio-rx/sgpio-rx.c:62-74 | 4096 consecutive iterations write 4096 distinct slots |
| `SgpioRx.SignedByte` | sources/hackrf/firmware/sgpio-rx/sgpio-rx.c:65-66 | a byte stored in `int8_t` is in [-128, 127] and congruent to the byte modulo 256 |
| `SgpioRx.SigI` | sources/hackrf/firmware/sgpio-rx/sgpio-rx.c:65 | `sigi` is bits 0..7 of the word as a signed byte, in [-128, 127] |
| `SgpioRx.SigQ` | sources/hackrf/firmware/sgpio-rx/sgpio-rx.c:66 | `sigq` is bits 8..15 of the word as a signed byte, in [-128, 127] |
| `SgpioRx.MagSq` | sources/hackrf/firmware/sgpio-rx/sgpio-rx.c:67 | `magsq` lies in [0, 32768], so the `uint32_t` assignment never wraps |
| `SgpioRx.PowerAgainstThreshold` | sources/hackrf/firmware/sgpio-rx/sgpio-rx.c:67-73 | a component beyond +/-64 puts the power above 0x1000; both components within +/-45 keep it at or below 0x1000 |
| `SgpioRx.StrongSampleLightsLed3` | sources/hackrf/firmware/sgpio-rx/sgpio-rx.c:65-71 | a word whose I or Q exceeds 64 in magnitude lights LED3 |
| `SgpioRx.WeakSampleLeavesLed3Off` | sources/hackrf/firmware/sgpio-rx/sgpio-rx.c:65-73 | a word whose I and Q are both within +/-45 turns LED3 off |
| `SgpioRx.RxTest.constructor` | sources/hackrf/firmware/sgpio-rx/sgpio-rx.c:49-57 | fresh 4096-entry buffer, `i = 0`, LED2 on |
| `SgpioRx.RxTest.Step` | sources/hackrf/firmware/sgpio-rx/sgpio-rx.c:58-75 | only `buffer[i & 4095]` changes and it becomes the sample; `i` increments modulo 2^32; LED1 on; LED3 on iff magsq > 0x1000 |
| `SgpioRx.TxSlot` | sources/hackrf/firmware/sgpio-rx/sgpio-rx.c:43 | `i & 3` is `i mod 4` and indexes the 4-word table |
| `SgpioRx.TxSlotNext` | sources/hackrf/firmware/sgpio-rx/sgpio-rx.c:43 | the table is sent in the order 0, 1, 2, 3, 0, ..., also across the counter wrap |
| `SgpioRx.TxTest.constructor` | sources/hackrf/firmware/sgpio-rx/sgpio-rx.c:30-36 | the table holds the four words 0xda808080, 0xda80ff80, 0x26808080, 0x26800180 and `i = 0` |
| `SgpioRx.TxTest.Step` | sources/hackrf/firmware/sgpio-rx/sgpio-rx.c:41-45 | slice A receives table word `i & 3`, `i` increments, the table is unchanged |
| `VolkQaUtils.TestParamsGetters` | sources/gnuradio/volk/lib/qa_utils.h:54-64 | each getter returns exactly the constructor argument it stores |
| `VolkQaUtils.NewTestCase` | sources/gnuradio/volk/lib/qa_utils.h:75-85 | the ordinary constructor stores desc, kernel pointer, name and parameters unchanged and sets the master name to `"NULL"` |
| `VolkQaUtils.NewPuppetTestCase` | sources/gnuradio/volk/lib/qa_utils.h:87-91 | the puppet constructor stores desc, kernel pointer, name, parameters and the given master name unchanged |
| `VolkQaUtils.PuppetDiffersOnlyInMaster` | sources/gnuradio/volk/lib/qa_utils.h:81-91 | the two constructors differ only in the master name; a puppet whose master is `"NULL"` equals an ordinary case |
| `VolkQaUtils.RunVolkTests` | sources/gnuradio/volk/lib/qa_utils.h:102-109 | the record overload passes every argument through unchanged |
| `VolkQaUtils.RunVolkTestsScalar` | sources/gnuradio/volk/lib/qa_utils.h:111-122 | the scalar overload passes every argument through unchanged |
| `VolkQaUtils.RunVolkTestsDefaults` | sources/gnuradio/volk/lib/qa_utils.h:102-122 | the defaults are: results NULL and master `"NULL"`; in the scalar overload also benchmark_mode false |
| `VolkQaUtils.VolkRunTests` | sources/gnuradio/volk/lib/qa_utils.h:125-131 | a test named `func_test` calls the scalar overload with the stringified name; its explicit `0, "NULL"` equal the defaults |
| `VolkQaUtils.VolkRunTestsPasses` | sources/gnuradio/volk/lib/qa_utils.h:127-130 | `BOOST_CHECK_EQUAL(..., 0)` passes iff the harness returns false (0) |
| `VolkQaUtils.VolkProfile` | sources/gnuradio/volk/lib/qa_utils.h:132 | the profile call passes the stringified kernel name and master `"NULL"` |
| `VolkQaUtils.VolkPuppetProfile` | sources/gnuradio/volk/lib/qa_utils.h:133 | the puppet profile keeps the puppet's own name, descriptor and entry point and passes the stringified master name |
| `VolkQaUtils.PuppetProfileDiffersOnlyInMaster` | sources/gnuradio/volk/lib/qa_utils.h:132-133 | the profile and puppet-profile calls of one kernel differ only in the master name |

## Left out

- x300_debug.py I/O:
  - `ctrl_socket`, `send_and_recv` and the UDP socket are network I/O.
  - The `print` output of `read_router_stats`, `peek` and `poke` is console output.
  - `get_options` and `__main__` are command-line handling.
  - A reply is modelled as an input byte sequence handed to `Unpack`.
  - `peek`, `poke` and `read_router_stats` are modelled only through the requests they build.
- x300_debug.py argument types: non-integer arguments to `struct.pack` are outside the model's domain; every argument is an integer.
- X300Debug.SeqCounter: the counter is unbounded, as Python's `int` is. Once it passes 2^32 - 1, `Pack` reports `struct.error` for the sequence number.
- startup_systick.c `sys_tick_wait_time_ms`: it busy-waits on a counter that an interrupt updates. Only its exit test (`WaitDone`) is modelled, not the loop.
- startup_systick.c hardware:
  - The `systick_*`, `nvic_*` and `scs_dwt_cycle_counter_enabled` register accesses, the `cpsid`/`cpsie` instructions and `main` are not modelled.
  - The DWT cycle counter's hardware counting is modelled as a given number of elapsed cycles between two interrupts (`Advance`, `SysTickTimer.CountCycles`); the cycles the handler itself takes before the capture are folded into those counts.
  - The 24-bit width of the SysTick reload register is not modelled; the register holds the value as computed.
  - The interrupt handler is modelled as one atomic step.
- sgpio-rx.c hardware:
  - The `SGPIO_STATUS_1` polling and the status clear are not modelled.
  - The `rf_path_*`, `sgpio_*`, `set_freq`, pin and clock set-up and `main` are not modelled.
  - The word read from slice A is a parameter of `RxTest.Step`.
  - The LEDs are boolean fields.
  - The `volatile` re-read of `buffer[i & 4095]` returns the word just stored.
- SgpioRx.RxSlotsDistinct: the distinctness is stated on the 32-bit masks `a & 4095` and `b & 4095`, not on the integer indices `RxSlot` returns; `RxSlot` converts one to the other.
- SgpioRx.RxSlotNext: the succession of slots is stated on the 32-bit mask `i & 4095`, not on the integer index.
- SgpioRx.TxSlotNext: the succession of table entries is stated on the 32-bit mask `i & 3`, not on the integer index.
- qa_utils.h harness:
  - `run_volk_tests`, `volk_type_from_string`, `uniform` and `random_floats` are declared without bodies.
  - So comparison, benchmarking, best-architecture selection, type-tag parsing and random data generation are not modelled.
  - A harness call is represented by the record of arguments it receives.
  - The return flag is used only as the macro's check uses it. The header gives the `bool` that `run_volk_tests` returns no documented meaning; the `VOLK_RUN_TESTS` macro checks it against 0, so `false` counts as success, and the model follows the macro.
- qa_utils.h records: `volk_type_t`, `volk_test_time_t` and `volk_test_results_t` are plain records used only by the harness functions that have no body.
- qa_utils.h function-pointer typedefs (`volk_fn_*`): they only declare calling conventions.
- qa_utils.h floats: `float` and `lv_32fc_t` values are carried as `real`, because they are only stored and returned. IEEE single-precision rounding is not modelled.
- qa_utils.h `volk_func_desc_t`: it is defined in a header that is not part of this model, so it is an opaque handle.
- Other files:
  - volk_sse_intrinsics.h, volk_sse3_intrinsics.h and volk_avx_intrinsics.h are floating-point SIMD wrappers.
  - convert_test.cpp tests converters whose code is not part of this model.
  - ad9361_gain_tables.h is calibration data.
  - hackrf_core.h holds pin definitions and driver declarations.
  - airprobe_rtlsdr.py is GUI and flow-graph wiring.

## Findings

| source | as written | input that shows it | evidently intended | confidence | as-written member | corrected member |
|---|---|---|---|---|---|---|
| sources/hackrf/firmware/startup_systick_perfo/startup_systick.c:80-89 | `MAX_T_U32` is `((2^32)-1)`. In C, `^` is exclusive or, so the constant is 33. When `end <= start` the delta is therefore (true elapsed mod 2^32) + 34. | `start == end` gives 34 instead of 0. `start = 0xFFFFFFFF, end = 0` gives 35 instead of 1. So `sys_tick_wait_time_ms(w)` with `w <= 34` returns at its first poll if the counter has not moved. | `MAX_T_U32 == 0xFFFFFFFF`, so the delta is `end - start` modulo 2^32 | high (not executed) | `SysTick.DeltaOfSameInstant` | `SysTick.DeltaTimeMsIntended` |
