/** One pass of each of the two SGPIO streaming loops of the HackRF
    `sgpio-rx` test firmware. The receive loop stores every 32-bit word
    read from SGPIO slice A in a 4096-entry ring buffer, decodes its first
    I/Q sample and lights LED3 when the sample's power exceeds a threshold;
    the transmit loop writes a fixed table of four words to slice A, one
    after the other, forever. */
module SgpioRx {

  // ---------------------------------------------------------------------
  // Receive: ring buffer index, I/Q decode, power threshold
  // ---------------------------------------------------------------------

  const RX_BUFFER_LEN: nat := 4096

  /** LED3 is lit when the magnitude squared exceeds this. */
  const LED3_THRESHOLD: int := 0x1000

  /** `i & 4095`, the ring buffer slot of iteration `i`. */
  function RxSlot(i: bv32): (k: nat)
    ensures k < RX_BUFFER_LEN
    ensures k == (i % 4096) as int
  {
    (i & 4095) as int
  }

  /** Consecutive iterations use consecutive slots, wrapping from 4095 to
      0, also when the 32-bit counter itself wraps. */
  lemma RxSlotNext(i: bv32)
    ensures (i + 1) & 4095 == if i & 4095 == 4095 then 0 else (i & 4095) + 1
  {
  }

  /** Any 4096 consecutive iterations write 4096 different slots (the
      masks `i & 4095` differ), so a word stays in the buffer for exactly
      4096 iterations, also across the wrap of the 32-bit counter. */
  lemma RxSlotsDistinct(a: bv32, b: bv32)
    requires a != b && b - a < 4096
    ensures a & 4095 != b & 4095
  {
  }

  /** An `int8_t` holding the byte `v`: C converts an out-of-range value
      in an implementation-defined way; on the target it is two's
      complement. */
  function SignedByte(v: bv8): (s: int)
    ensures -128 <= s <= 127
    ensures (s + 256) % 256 == v as int
  {
    if v < 128 then v as int else v as int - 256
  }

  /** `sigi = buffer[i & 4095] & 0xff`: bits 0 to 7 as a signed byte. */
  function SigI(w: bv32): (sigi: int)
    ensures -128 <= sigi <= 127
    ensures (sigi + 256) % 256 == (w % 256) as int
  {
    SignedByte((w & 0xff) as bv8)
  }

  /** `sigq = (buffer[i & 4095] >> 8) & 0xff`: bits 8 to 15 as a signed byte. */
  function SigQ(w: bv32): (sigq: int)
    ensures -128 <= sigq <= 127
    ensures (sigq + 256) % 256 == ((w / 256) % 256) as int
  {
    SignedByte(((w >> 8) & 0xff) as bv8)
  }

  lemma SquareOfSignedByte(x: int)
    requires -128 <= x <= 127
    ensures 0 <= x * x <= 16384
  {
    if x >= 0 {
      assert x * x <= 127 * x;
    } else {
      assert x * x <= -128 * x;
    }
  }

  lemma SquareMonotone(x: int, y: int)
    requires 0 <= x <= y
    ensures x * x <= y * y
  {
    assert x * x <= x * y <= y * y;
  }

  function Abs(x: int): nat {
    if x < 0 then -x else x
  }

  /** `magsq = sigi * sigi + sigq * sigq`, the power of the sample. */
  function MagSq(w: bv32): (magsq: int)
    ensures 0 <= magsq <= 32768
  {
    var sigi, sigq := SigI(w), SigQ(w);
    SquareOfSignedByte(sigi);
    SquareOfSignedByte(sigq);
    sigi * sigi + sigq * sigq
  }

  /** The power of one sample with a component beyond +/-64 exceeds the
      threshold; with both components within +/-45 it does not. */
  lemma PowerAgainstThreshold(x: int, y: int)
    ensures Abs(x) > 64 || Abs(y) > 64 ==> x * x + y * y > LED3_THRESHOLD
    ensures Abs(x) <= 45 && Abs(y) <= 45 ==> x * x + y * y <= LED3_THRESHOLD
  {
    assert x * x == Abs(x) * Abs(x);
    assert y * y == Abs(y) * Abs(y);
    SquareMonotone(0, Abs(x));
    SquareMonotone(0, Abs(y));
    if Abs(x) > 64 {
      SquareMonotone(65, Abs(x));
    }
    if Abs(y) > 64 {
      SquareMonotone(65, Abs(y));
    }
    if Abs(x) <= 45 && Abs(y) <= 45 {
      SquareMonotone(Abs(x), 45);
      SquareMonotone(Abs(y), 45);
    }
  }

  /** LED3 lights for every sample with a component beyond +/-64 ... */
  lemma StrongSampleLightsLed3(w: bv32)
    requires Abs(SigI(w)) > 64 || Abs(SigQ(w)) > 64
    ensures MagSq(w) > LED3_THRESHOLD
  {
    PowerAgainstThreshold(SigI(w), SigQ(w));
  }

  /** ... and for no sample whose components both lie within +/-45. */
  lemma WeakSampleLeavesLed3Off(w: bv32)
    requires Abs(SigI(w)) <= 45 && Abs(SigQ(w)) <= 45
    ensures MagSq(w) <= LED3_THRESHOLD
  {
    PowerAgainstThreshold(SigI(w), SigQ(w));
  }

  /** The state of `rx_test`: its local ring buffer and counter, and the
      three LEDs it drives. */
  class RxTest {
    const buffer: array<bv32>
    var i: bv32
    var led1: bool
    var led2: bool
    var led3: bool

    ghost predicate Valid()
      reads this
    {
      buffer.Length == RX_BUFFER_LEN
    }

    /** Entry to `rx_test`: `i = 0` and LED2 on. The buffer's initial
        contents are left unspecified, as in C. */
    constructor ()
      ensures Valid() && fresh(buffer)
      ensures i == 0 && led2
    {
      buffer := new bv32[RX_BUFFER_LEN];
      i := 0;
      led1, led2, led3 := false, true, false;
    }

    /** One iteration of the receive loop, given the word `sample` read
        from SGPIO slice A: LED1 on, the word stored at `i & 4095` and
        nowhere else, LED3 set from its power, `i` incremented. */
    method Step(sample: bv32)
      requires Valid()
      modifies this, buffer
      ensures Valid()
      ensures buffer[..] == old(buffer[..])[RxSlot(old(i)) := sample]
      ensures i == old(i) + 1
      ensures led1 && led2 == old(led2)
      ensures led3 <==> MagSq(sample) > LED3_THRESHOLD
    {
      led1 := true;
      buffer[RxSlot(i)] := sample;
      var sigi := SigI(buffer[RxSlot(i)]);
      var sigq := SigQ(buffer[RxSlot(i)]);
      var magsq := sigi * sigi + sigq * sigq;
      if magsq > LED3_THRESHOLD {
        led3 := true;
      } else {
        led3 := false;
      }
      i := i + 1;
    }
  }

  // ---------------------------------------------------------------------
  // Transmit: a fixed table of four words, cycled
  // ---------------------------------------------------------------------

  /** The words of `tx_test`'s table; least significant byte goes out
      first, so each word holds samples 0x<Q1><I1><Q0><I0>. */
  const TX_SAMPLES: seq<bv32> := [0xda80_8080, 0xda80_ff80, 0x2680_8080, 0x2680_0180]

  /** `i & 3`, the table entry sent on iteration `i`. */
  function TxSlot(i: bv32): (k: nat)
    ensures k < |TX_SAMPLES|
    ensures k == (i % 4) as int
  {
    (i & 3) as int
  }

  /** The table is sent in the order 0, 1, 2, 3, 0, ... */
  lemma TxSlotNext(i: bv32)
    ensures (i + 1) & 3 == if i & 3 == 3 then 0 else (i & 3) + 1
  {
  }

  /** The state of `tx_test`: its table, its counter and the slice A
      data register it writes. */
  class TxTest {
    const buffer: array<bv32>
    var i: bv32
    var sliceA: bv32

    ghost predicate Valid()
      reads this, buffer
    {
      buffer[..] == TX_SAMPLES
    }

    /** Entry to `tx_test`: the table is initialised and `i = 0`. */
    constructor (register: bv32)
      ensures Valid() && fresh(buffer)
      ensures i == 0 && sliceA == register
    {
      buffer := new bv32[4](k requires 0 <= k < 4 => TX_SAMPLES[k]);
      i := 0;
      sliceA := register;
    }

    /** One iteration of the transmit loop: `buffer[(i++) & 3]` is written
        to slice A. */
    method Step()
      requires Valid()
      modifies this
      ensures Valid()
      ensures sliceA == TX_SAMPLES[TxSlot(old(i))]
      ensures i == old(i) + 1
    {
      sliceA := buffer[TxSlot(i)];
      i := i + 1;
    }
  }
}
