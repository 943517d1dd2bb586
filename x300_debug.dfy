/** The X300 firmware control protocol as the debug tool speaks it: a
    register peek/poke request is 21 big-endian 32-bit words (a five-word
    header followed by sixteen data words), the firmware's reply has the
    same layout, and three high bits of the flags word report errors. */
module X300Debug {
  import opened Wrappers
  import opened UInt32

  // ---------------------------------------------------------------------
  // Protocol constants
  // ---------------------------------------------------------------------

  const FW_COMMS_UDP_PORT: nat := 49152

  const FLAGS_ACK: U32 := 0x0000_0001
  const FLAGS_POKE32: U32 := 0x0000_0010
  const FLAGS_PEEK32: U32 := 0x0000_0020

  const ERR_PKT_ERROR: U32 := 0x8000_0000
  const ERR_CMD_ERROR: U32 := 0x4000_0000
  const ERR_SIZE_ERROR: U32 := 0x2000_0000

  const FW_COMMS_ID: U32 := 0x0000_ACE3
  const MAX_DATA_WORDS: nat := 16

  const UDP_MAX_XFER_BYTES: nat := 1024
  const UDP_TIMEOUT: nat := 3

  /** Words in the `'!LLLLL'` header: id, flags, seq, num_words, addr. */
  const HEADER_WORDS: nat := 5

  /** The `num_words` value every request carries. */
  const NUM_WORDS: U32 := 1

  /** Size in bytes of a packed request: 5 header words and 16 data words. */
  const PACKET_BYTES: nat := 4 * (HEADER_WORDS + MAX_DATA_WORDS)

  /** Flags of a peek request, `FLAGS_PEEK32 | FLAGS_ACK` (disjoint bits, so `|` is `+`). */
  const PEEK_FLAGS: U32 := FLAGS_PEEK32 + FLAGS_ACK

  /** Flags of a poke request, `FLAGS_POKE32 | FLAGS_ACK`. */
  const POKE_FLAGS: U32 := FLAGS_POKE32 + FLAGS_ACK

  /** The exceptions the codec raises: `struct.error` (a value out of the
      range of format `'L'`, or a buffer too short to unpack), the generic
      exception raised for a firmware error flag, and `IndexError`. */
  datatype CodecError = StructError | Firmware(cause: FwError) | IndexError

  datatype FwError = PacketError | CommandError | SizeError

  /** The tuple `(flags, seq, addr, data[0])` returned by unpack. */
  datatype Reply = Reply(flags: U32, seqNo: U32, addr: U32, data: U32)

  // ---------------------------------------------------------------------
  // Error flags
  // ---------------------------------------------------------------------

  // For a single-bit mask M, `flags & M == M` says that bit of flags is one,
  // which is `(flags / M) % 2 == 1`.

  predicate PacketErrorSet(flags: U32) {
    (flags / 0x8000_0000) % 2 == 1
  }

  predicate CommandErrorSet(flags: U32) {
    (flags / 0x4000_0000) % 2 == 1
  }

  predicate SizeErrorSet(flags: U32) {
    (flags / 0x2000_0000) % 2 == 1
  }

  /** `fw_check_error`: `None` when the call returns normally, otherwise the
      error it raises. Bits 31, 30 and 29 are tested in that order, so the
      highest error bit that is set decides the error. */
  function CheckError(flags: U32): (e: Option<FwError>)
    ensures e == None <==> flags < ERR_SIZE_ERROR
    ensures e == Some(PacketError) <==> ERR_PKT_ERROR <= flags
    ensures e == Some(CommandError) <==> ERR_CMD_ERROR <= flags < ERR_PKT_ERROR
    ensures e == Some(SizeError) <==> ERR_SIZE_ERROR <= flags < ERR_CMD_ERROR
  {
    if PacketErrorSet(flags) then Some(PacketError)
    else if CommandErrorSet(flags) then Some(CommandError)
    else if SizeErrorSet(flags) then Some(SizeError)
    else None
  }

  /** Only the three error bits matter: bits 0 to 28 never change the outcome. */
  lemma CheckErrorIgnoresLowBits(high: U32, low: U32)
    requires high % ERR_SIZE_ERROR == 0 && low < ERR_SIZE_ERROR
    ensures high + low < TWO_32
    ensures CheckError(high + low) == CheckError(high)
  {
  }

  /** Any combination of the ACK, POKE32 and PEEK32 bits passes the check. */
  lemma AckPeekPokeNeverError(ack: bool, poke: bool, peek: bool)
    ensures CheckError((if ack then FLAGS_ACK else 0)
                       + (if poke then FLAGS_POKE32 else 0)
                       + (if peek then FLAGS_PEEK32 else 0)) == None
  {
  }

  // ---------------------------------------------------------------------
  // Network byte order words (`struct` format `'!L'`)
  // ---------------------------------------------------------------------

  /** `struct.pack('!L', w)`: four bytes, most significant first. */
  function EncodeWord(w: U32): (b: seq<Byte>)
    ensures |b| == 4
    ensures DecodeWord(b) == w
  {
    var low24 := w % 0x100_0000;
    var low16 := low24 % 0x1_0000;
    [w / 0x100_0000, low24 / 0x1_0000, low16 / 0x100, low16 % 0x100]
  }

  /** `struct.unpack('!L', b)[0]` on exactly four bytes. */
  function DecodeWord(b: seq<Byte>): (w: U32)
    requires |b| == 4
    ensures w / 0x100_0000 == b[0] as int
    ensures (w / 0x1_0000) % 0x100 == b[1] as int
    ensures (w / 0x100) % 0x100 == b[2] as int
    ensures w % 0x100 == b[3] as int
  {
    var w := b[0] as int * 0x100_0000 + b[1] as int * 0x1_0000 + b[2] as int * 0x100 + b[3] as int;
    DivModSplit(b[0], b[1] as int * 0x1_0000 + b[2] as int * 0x100 + b[3] as int, 0x100_0000);
    DivModSplit(b[0] as int * 0x100 + b[1], b[2] as int * 0x100 + b[3] as int, 0x1_0000);
    DivModSplit(b[0], b[1], 0x100);
    DivModSplit(b[0] as int * 0x1_0000 + b[1] as int * 0x100 + b[2], b[3], 0x100);
    DivModSplit(b[0] as int * 0x100 + b[1], b[2], 0x100);
    w
  }

  /** Splitting `q * m + r` with `0 <= r < m` by `m`, a power of 256 up
      to 2^24, gives back `q` and `r`. */
  lemma DivModSplit(q: int, r: int, m: int)
    requires m == 0x100 || m == 0x1_0000 || m == 0x100_0000
    requires 0 <= r < m
    ensures (q * m + r) / m == q && (q * m + r) % m == r
  {
    if m == 0x100 {
      assert q * m + r == q * 0x100 + r;
    } else if m == 0x1_0000 {
      assert q * m + r == q * 0x1_0000 + r;
    } else {
      assert q * m + r == q * 0x100_0000 + r;
    }
  }

  /** Decoding loses nothing: every four bytes are the encoding of their word. */
  lemma EncodeDecodeWord(b: seq<Byte>)
    requires |b| == 4
    ensures EncodeWord(DecodeWord(b)) == b
  {
    var w := DecodeWord(b);
    assert w % 0x100_0000 == b[1] as int * 0x1_0000 + b[2] as int * 0x100 + b[3] as int;
    assert (w % 0x100_0000) % 0x1_0000 == b[2] as int * 0x100 + b[3] as int;
  }

  /** Consecutive words, each packed with `'!L'`, concatenated in order. */
  function EncodeWords(ws: seq<U32>): (buf: seq<Byte>)
    ensures |buf| == 4 * |ws|
    ensures forall k :: 0 <= k < |ws| ==> buf[4 * k .. 4 * k + 4] == EncodeWord(ws[k])
  {
    if ws == [] then []
    else
      var front := EncodeWords(ws[..|ws| - 1]);
      var buf := front + EncodeWord(ws[|ws| - 1]);
      assert forall k :: 0 <= k < |ws| - 1 ==> buf[4 * k .. 4 * k + 4] == front[4 * k .. 4 * k + 4];
      buf
  }

  /** The word at word index `k` of a buffer. */
  function WordAt(buf: seq<Byte>, k: nat): U32
    requires 4 * k + 4 <= |buf|
  {
    DecodeWord(buf[4 * k .. 4 * k + 4])
  }

  lemma WordAtEncodeWords(ws: seq<U32>, k: nat)
    requires k < |ws|
    ensures 4 * k + 4 <= |EncodeWords(ws)|
    ensures WordAt(EncodeWords(ws), k) == ws[k]
  {
  }

  // ---------------------------------------------------------------------
  // pack_reg_peek_poke_fmt / unpack_reg_peek_poke_fmt
  // ---------------------------------------------------------------------

  function HeaderWords(flags: U32, seqNo: U32, addr: U32): (ws: seq<U32>)
    ensures |ws| == HEADER_WORDS
    ensures ws[0] == FW_COMMS_ID && ws[3] == NUM_WORDS
    ensures ws[1] == flags && ws[2] == seqNo && ws[4] == addr
  {
    [FW_COMMS_ID, flags, seqNo, NUM_WORDS, addr]
  }

  /** The sixteen data words: `data_arr[i]` for `i < num_words`, zero after. */
  function DataWords(data: U32): (ws: seq<U32>)
    ensures |ws| == MAX_DATA_WORDS
    ensures ws[0] == data
    ensures forall i :: 1 <= i < MAX_DATA_WORDS ==> ws[i] == 0
  {
    seq(MAX_DATA_WORDS, i => if i < NUM_WORDS then data else 0)
  }

  /** `pack_reg_peek_poke_fmt(flags, seq, addr, data)`: `struct.error` when a
      value does not fit format `'L'`, otherwise the 84-byte request. */
  function Pack(flags: int, seqNo: int, addr: int, data: int): (r: Result<seq<Byte>, CodecError>)
    ensures r.Ok? <==> IsU32(flags) && IsU32(seqNo) && IsU32(addr) && IsU32(data)
    ensures r.Err? ==> r.error == StructError
    ensures r.Ok? ==> |r.value| == PACKET_BYTES
  {
    if IsU32(flags) && IsU32(seqNo) && IsU32(addr) && IsU32(data) then
      Ok(EncodeWords(HeaderWords(flags, seqNo, addr) + DataWords(data)))
    else
      Err(StructError)
  }

  /** The layout of a packed request, word by word. */
  lemma PackLayout(flags: U32, seqNo: U32, addr: U32, data: U32)
    ensures Pack(flags, seqNo, addr, data).Ok?
    ensures var buf := Pack(flags, seqNo, addr, data).value;
      |buf| == 84 &&
      WordAt(buf, 0) == FW_COMMS_ID && WordAt(buf, 1) == flags &&
      WordAt(buf, 2) == seqNo && WordAt(buf, 3) == NUM_WORDS &&
      WordAt(buf, 4) == addr && WordAt(buf, 5) == data &&
      forall k :: 6 <= k < 21 ==> WordAt(buf, k) == 0
  {
    var ws := HeaderWords(flags, seqNo, addr) + DataWords(data);
    forall k | 0 <= k < 21 ensures WordAt(EncodeWords(ws), k) == ws[k] {
      WordAtEncodeWords(ws, k);
    }
  }

  /** `unpack_reg_peek_poke_fmt(buf)`. The header is read first
      (`struct.error` under 20 bytes) and its flags are checked before any
      data word is read; every following 4-byte slice is then unpacked
      (`struct.error` on a shorter trailing slice) and `data[0]` is
      returned (`IndexError` when there is no data word). The id and
      num_words fields are not looked at. */
  function Unpack(buf: seq<Byte>): (r: Result<Reply, CodecError>)
    ensures |buf| < 20 ==> r == Err(StructError)
    ensures |buf| >= 20 && CheckError(WordAt(buf, 1)).Some? ==>
              r == Err(Firmware(CheckError(WordAt(buf, 1)).value))
    ensures r.Ok? <==> |buf| >= 24 && (|buf| - 20) % 4 == 0 && WordAt(buf, 1) < ERR_SIZE_ERROR
    ensures r.Ok? ==> CheckError(r.value.flags) == None
  {
    if |buf| < 4 * HEADER_WORDS then Err(StructError)
    else
      var flags := WordAt(buf, 1);
      match CheckError(flags)
      case Some(e) => Err(Firmware(e))
      case None =>
        if (|buf| - 4 * HEADER_WORDS) % 4 != 0 then Err(StructError)
        else if |buf| == 4 * HEADER_WORDS then Err(IndexError)
        else Ok(Reply(flags, WordAt(buf, 2), WordAt(buf, 4), WordAt(buf, 5)))
  }

  /** Round trip: a request whose flags carry no error bit unpacks to the
      values it was packed from. */
  lemma UnpackPack(flags: U32, seqNo: U32, addr: U32, data: U32)
    requires flags < ERR_SIZE_ERROR
    ensures Pack(flags, seqNo, addr, data).Ok?
    ensures Unpack(Pack(flags, seqNo, addr, data).value) == Ok(Reply(flags, seqNo, addr, data))
  {
    PackLayout(flags, seqNo, addr, data);
  }

  /** A packed request with an error bit set unpacks to that firmware error. */
  lemma UnpackPackErrorFlags(flags: U32, seqNo: U32, addr: U32, data: U32)
    requires ERR_SIZE_ERROR <= flags
    ensures Pack(flags, seqNo, addr, data).Ok?
    ensures Unpack(Pack(flags, seqNo, addr, data).value) == Err(Firmware(CheckError(flags).value))
  {
    PackLayout(flags, seqNo, addr, data);
  }

  /** Unpack reads neither the id word nor the num_words word. */
  lemma UnpackIgnoresIdAndNumWords(a: seq<Byte>, b: seq<Byte>)
    requires |a| == |b| && |a| >= 20
    requires a[4..12] == b[4..12] && a[16..] == b[16..]
    ensures Unpack(a) == Unpack(b)
  {
    assert a[4..8] == a[4..12][..4] && b[4..8] == b[4..12][..4];
    assert a[8..12] == a[4..12][4..] && b[8..12] == b[4..12][4..];
    assert a[16..20] == a[16..][..4] && b[16..20] == b[16..][..4];
    if |a| >= 24 {
      assert a[20..24] == a[16..][4..8] && b[20..24] == b[16..][4..8];
    }
  }

  /** The loop of `pack_reg_peek_poke_fmt`: the header, then `buf +=` one
      packed word per data slot. */
  method PackRequest(flags: int, seqNo: int, addr: int, data: int) returns (r: Result<seq<Byte>, CodecError>)
    ensures r == Pack(flags, seqNo, addr, data)
  {
    var dataArr := [data];
    if !(IsU32(flags) && IsU32(seqNo) && IsU32(addr)) {
      return Err(StructError);
    }
    var header := HeaderWords(flags, seqNo, addr);
    var buf := EncodeWords(header);
    ghost var done: seq<U32> := [];
    assert header + done == header;
    var i := 0;
    while i < MAX_DATA_WORDS
      invariant 0 <= i <= MAX_DATA_WORDS && |done| == i
      invariant forall k :: 0 <= k < i ==> done[k] == (if k < NUM_WORDS then data else 0)
      invariant buf == EncodeWords(header + done)
    {
      var w := if i < NUM_WORDS then dataArr[i] else 0;
      if !IsU32(w) {
        return Err(StructError);
      }
      assert header + (done + [w]) == (header + done) + [w];
      done := done + [w];
      buf := buf + EncodeWord(w);
      i := i + 1;
    }
    assert data == done[0];
    assert done == DataWords(data);
    r := Ok(buf);
  }

  /** The loop of `unpack_reg_peek_poke_fmt`: unpack the header, check the
      flags, then append one word per 4-byte slice from offset 20 on. */
  method UnpackReply(buf: seq<Byte>) returns (r: Result<Reply, CodecError>)
    ensures r == Unpack(buf)
  {
    if |buf| < 4 * HEADER_WORDS {
      return Err(StructError);
    }
    var flags := WordAt(buf, 1);
    var e := CheckError(flags);
    if e.Some? {
      return Err(Firmware(e.value));
    }
    var data: seq<U32> := [];
    var i := 4 * HEADER_WORDS;
    while i < |buf|
      invariant 20 <= i && (i - 20) % 4 == 0
      invariant i <= |buf|
      invariant |data| == (i - 20) / 4
      invariant forall k :: 0 <= k < |data| ==> data[k] == WordAt(buf, 5 + k)
    {
      if i + 4 > |buf| {
        return Err(StructError);
      }
      data := data + [DecodeWord(buf[i .. i + 4])];
      i := i + 4;
    }
    if |data| == 0 {
      return Err(IndexError);
    }
    r := Ok(Reply(flags, WordAt(buf, 2), WordAt(buf, 4), data[0]));
  }

  // ---------------------------------------------------------------------
  // seq(): the global request sequence number
  // ---------------------------------------------------------------------

  /** The module-level `_seq`, starting at -1; `issued` records every value
      `seq()` has returned so far. */
  class SeqCounter {
    var last: int
    ghost var issued: seq<int>

    ghost predicate Valid()
      reads this
    {
      last == |issued| - 1 &&
      forall k :: 0 <= k < |issued| ==> issued[k] == k
    }

    constructor ()
      ensures Valid() && issued == [] && last == -1
    {
      last := -1;
      issued := [];
    }

    /** `seq()`: the n-th call (counting from zero) returns n. */
    method Next() returns (s: int)
      requires Valid()
      modifies this
      ensures Valid()
      ensures s == old(last) + 1 && s == |old(issued)| && last == s
      ensures issued == old(issued) + [s]
    {
      last := last + 1;
      issued := issued + [last];
      s := last;
    }
  }

  // ---------------------------------------------------------------------
  // peek, poke and the router statistics
  // ---------------------------------------------------------------------

  /** The request `peek(addr)` sends. */
  function PeekRequest(seqNo: int, addr: int): (r: Result<seq<Byte>, CodecError>)
    ensures r.Ok? <==> IsU32(seqNo) && IsU32(addr)
    ensures r.Err? ==> r.error == StructError
    ensures r.Ok? ==> |r.value| == PACKET_BYTES
  {
    Pack(PEEK_FLAGS, seqNo, addr, 0)
  }

  /** The request `poke(addr, data)` sends. */
  function PokeRequest(seqNo: int, addr: int, data: int): (r: Result<seq<Byte>, CodecError>)
    ensures r.Ok? <==> IsU32(seqNo) && IsU32(addr) && IsU32(data)
    ensures r.Err? ==> r.error == StructError
    ensures r.Ok? ==> |r.value| == PACKET_BYTES
  {
    Pack(POKE_FLAGS, seqNo, addr, data)
  }

  /** Peek and poke requests never carry an error bit, so each unpacks to
      its own flags, sequence number, address and data. */
  lemma PeekPokeRequestsRoundTrip(seqNo: U32, addr: U32, data: U32)
    ensures PeekRequest(seqNo, addr).Ok? && PokeRequest(seqNo, addr, data).Ok?
    ensures Unpack(PeekRequest(seqNo, addr).value) == Ok(Reply(PEEK_FLAGS, seqNo, addr, 0))
    ensures Unpack(PokeRequest(seqNo, addr, data).value) == Ok(Reply(POKE_FLAGS, seqNo, addr, data))
  {
    UnpackPack(PEEK_FLAGS, seqNo, addr, 0);
    UnpackPack(POKE_FLAGS, seqNo, addr, data);
  }

  const ROUTER_PORTS: nat := 8

  /** Address of the crossbar counter for traffic from ingress port
      `inPort` to egress port `outPort`. */
  function RouterStatsAddr(inPort: nat, outPort: nat): (addr: U32)
    requires inPort < ROUTER_PORTS && outPort < ROUTER_PORTS
    ensures addr % 4 == 0 && 0xA100 <= addr <= 0xA1FC
  {
    0xA000 + 256 + (inPort * 8 + outPort) * 4
  }

  /** Distinct port pairs read distinct counters. */
  lemma RouterStatsAddrInjective(in1: nat, out1: nat, in2: nat, out2: nat)
    requires in1 < ROUTER_PORTS && out1 < ROUTER_PORTS
    requires in2 < ROUTER_PORTS && out2 < ROUTER_PORTS
    requires RouterStatsAddr(in1, out1) == RouterStatsAddr(in2, out2)
    ensures in1 == in2 && out1 == out2
  {
  }

  /** The peek requests `read_router_stats` builds, ingress port major,
      each with a fresh sequence number. All 64 are built when the
      sequence numbers fit 32 bits; otherwise packing the first request
      whose number does not fit raises `struct.error`, which ends the
      loop after that number was taken from the counter. */
  method RouterStatsRequests(counter: SeqCounter) returns (pkts: seq<seq<Byte>>, err: Option<CodecError>)
    requires counter.Valid()
    modifies counter
    ensures counter.Valid() && |pkts| <= ROUTER_PORTS * ROUTER_PORTS
    ensures forall k :: 0 <= k < |pkts| ==>
              PeekRequest(old(counter.last) + 1 + k, RouterStatsAddr(k / 8, k % 8)) == Ok(pkts[k])
    ensures err.None? <==> old(counter.last) + 64 < TWO_32
    ensures err.None? ==> |pkts| == ROUTER_PORTS * ROUTER_PORTS && counter.last == old(counter.last) + 64
    ensures err.Some? ==> err.value == StructError && |pkts| < ROUTER_PORTS * ROUTER_PORTS
    ensures err.Some? ==> counter.last == old(counter.last) + |pkts| + 1 && !IsU32(counter.last)
  {
    pkts := [];
    err := None;
    var inPort := 0;
    while inPort < ROUTER_PORTS
      invariant 0 <= inPort <= ROUTER_PORTS
      invariant counter.Valid() && counter.last == old(counter.last) + |pkts|
      invariant |pkts| == 8 * inPort
      invariant forall k :: 0 <= k < |pkts| ==>
                  PeekRequest(old(counter.last) + 1 + k, RouterStatsAddr(k / 8, k % 8)) == Ok(pkts[k])
      invariant |pkts| == 0 || old(counter.last) + |pkts| < TWO_32
    {
      var outPort := 0;
      while outPort < ROUTER_PORTS
        invariant 0 <= outPort <= ROUTER_PORTS
        invariant counter.Valid() && counter.last == old(counter.last) + |pkts|
        invariant |pkts| == 8 * inPort + outPort
        invariant forall k :: 0 <= k < |pkts| ==>
                    PeekRequest(old(counter.last) + 1 + k, RouterStatsAddr(k / 8, k % 8)) == Ok(pkts[k])
        invariant |pkts| == 0 || old(counter.last) + |pkts| < TWO_32
      {
        var s := counter.Next();
        var req := PeekRequest(s, RouterStatsAddr(inPort, outPort));
        if req.Err? {
          err := Some(req.error);
          return;
        }
        ghost var k := |pkts|;
        assert k / 8 == inPort && k % 8 == outPort;
        pkts := pkts + [req.value];
        outPort := outPort + 1;
      }
      inPort := inPort + 1;
    }
  }
}
