/**
 The bit-banged SPI master of the switch chip. The program only writes words
 to one GPIO port; the receiver's side is a decoder that is given nothing but
 those words, and what it decodes is proved to be the intended frames.
 */
module Spi {
  import opened Bytes
  import opened Sequences

  const CLOCK: bv32 := 0x1
  const MOSI: bv32 := 0x2
  const CS: bv32 := 0x8000000

  predicate High(word: bv32, pin: bv32) {
    word & pin != 0
  }

  /** The levels of the three output pins. */
  datatype Pins = Pins(cs: bool, clock: bool, mosi: bool)

  function PinsOf(word: bv32): Pins {
    Pins(High(word, CS), High(word, CLOCK), High(word, MOSI))
  }

  // ---------------------------------------------------------------- receiver

  /** Select is bit 27 of the port, clock bit 0 and data bit 1. */
  lemma PinBits(word: bv32)
    ensures PinsOf(word) == Pins((word >> 27) & 1 == 1, word & 1 == 1, (word >> 1) & 1 == 1)
  {
  }

  /** What a receiver knows: the last levels, the bits of the frame under way,
      the finished frames, and whether every edge so far was clean: select
      never changes together with the clock, data never on a rising clock. */
  datatype Wire = Wire(last: Pins, frame: seq<bool>, frames: seq<seq<bool>>, clean: bool)

  function Sees(d: Wire, p: Pins): Wire {
    if d.last.cs != p.cs then
      var still := d.clean && d.last.clock == p.clock;
      if p.cs then Wire(p, [], d.frames + [d.frame], still) else Wire(p, [], d.frames, still)
    else if !p.cs && !d.last.clock && p.clock then
      Wire(p, d.frame + [p.mosi], d.frames, d.clean && d.last.mosi == p.mosi)
    else d.(last := p)
  }

  function SeesWord(d: Wire, w: bv32): Wire {
    Sees(d, PinsOf(w))
  }

  /** What a receiver makes of the words, seeing one after the other. */
  function Decode(start: bv32, trace: seq<bv32>): Wire {
    Fold(SeesWord, Wire(PinsOf(start), [], [], true), trace)
  }

  /** The bits of a byte as they go out: high bit first. */
  function Msb(b: bv8): (s: seq<bool>)
    ensures |s| == 8
  {
    seq(8, k requires 0 <= k < 8 => Has(b, Mask(7 - k)))
  }

  lemma MsbFirst(b: bv8, k: nat)
    requires k < 8
    ensures Msb(b)[k] == Has(b, [0x80, 0x40, 0x20, 0x10, 0x08, 0x04, 0x02, 0x01][k])
  {
    hide Has;
  }

  function ShiftIn(r: bv8, bit: bool): bv8 {
    (r << 1) | (if bit then 1 else 0)
  }

  /** Bits, high bit first, as a byte. */
  function Pack(bits: seq<bool>): bv8 {
    if bits == [] then 0 else ShiftIn(Pack(bits[..|bits| - 1]), bits[|bits| - 1])
  }

  /** The bits of a frame that carries these bytes. */
  function FrameBits(bytes: seq<bv8>): seq<bool> {
    if bytes == [] then [] else Msb(bytes[0]) + FrameBits(bytes[1..])
  }

  /** The bytes a receiver gets from a frame. */
  function FrameBytes(bits: seq<bool>): seq<bv8> {
    if |bits| < 8 then [] else [Pack(bits[..8])] + FrameBytes(bits[8..])
  }

  lemma {:induction false} PackLast(bits: seq<bool>)
    requires |bits| >= 4
    ensures var n := |bits| - 4;
            Pack(bits)
            == ShiftIn(ShiftIn(ShiftIn(ShiftIn(Pack(bits[..n]), bits[n]), bits[n + 1]), bits[n + 2]), bits[n + 3])
  {
    var n := |bits| - 4;
    assert Pack(bits) == ShiftIn(Pack(bits[..n + 3]), bits[n + 3]);
    assert Pack(bits[..n + 3]) == ShiftIn(Pack(bits[..n + 3][..n + 2]), bits[n + 2]);
    assert Pack(bits[..n + 2]) == ShiftIn(Pack(bits[..n + 2][..n + 1]), bits[n + 1]);
    assert Pack(bits[..n + 1]) == ShiftIn(Pack(bits[..n + 1][..n]), bits[n]);
    assert bits[..n + 3][..n + 2] == bits[..n + 2] && bits[..n + 2][..n + 1] == bits[..n + 1];
    assert bits[..n + 1][..n] == bits[..n];
  }

  lemma PackMsb(b: bv8)
    ensures Pack(Msb(b)) == b
  {
    var s := Msb(b);
    PackLast(s);
    PackLast(s[..4]);
  }

  lemma {:induction false} FrameRoundTrip(bytes: seq<bv8>)
    ensures FrameBytes(FrameBits(bytes)) == bytes
  {
    if bytes != [] {
      var s := FrameBits(bytes);
      assert s[..8] == Msb(bytes[0]) && s[8..] == FrameBits(bytes[1..]);
      PackMsb(bytes[0]);
      FrameRoundTrip(bytes[1..]);
    }
  }

  lemma {:induction false} FrameAppend(x: seq<bv8>, y: seq<bv8>)
    ensures FrameBits(x + y) == FrameBits(x) + FrameBits(y)
  {
    if x == [] {
      assert x + y == y;
    } else {
      assert (x + y)[1..] == x[1..] + y;
      FrameAppend(x[1..], y);
    }
  }

  lemma FrameSnoc(x: seq<bv8>, b: bv8)
    ensures FrameBits(x + [b]) == FrameBits(x) + Msb(b)
  {
    FrameAppend(x, [b]);
    assert FrameBits([b]) == Msb(b) + FrameBits([]);
  }

  function Framed(log: seq<seq<bv8>>): seq<seq<bool>> {
    seq(|log|, i requires 0 <= i < |log| => FrameBits(log[i]))
  }

  function Unframed(frames: seq<seq<bool>>): seq<seq<bv8>> {
    seq(|frames|, i requires 0 <= i < |frames| => FrameBytes(frames[i]))
  }

  lemma UnframedFramed(log: seq<seq<bv8>>)
    ensures Unframed(Framed(log)) == log
  {
    forall i | 0 <= i < |log|
      ensures Unframed(Framed(log))[i] == log[i]
    {
      FrameRoundTrip(log[i]);
    }
  }

  // ------------------------------------------------------------------ pins

  lemma ClockMasks(g: bv32)
    ensures PinsOf(g & 0xFFFFFFFE) == PinsOf(g).(clock := false)
    ensures PinsOf(g | 0x1) == PinsOf(g).(clock := true)
  {
  }

  lemma DataMasks(g: bv32)
    ensures PinsOf(g | 0x02) == PinsOf(g).(mosi := true)
    ensures PinsOf(g & 0xFFFFFFFD) == PinsOf(g).(mosi := false)
  {
  }

  lemma SelectMasks(g: bv32)
    ensures PinsOf(g | 0x8000000) == PinsOf(g).(cs := true)
    ensures PinsOf(g & 0xF7FFFFFF) == PinsOf(g).(cs := false)
  {
  }

  const SPI_MODE_READ: bv8 := 0x0
  const SPI_MODE_WRITE: bv8 := 0x1
  const PAGE_STATUS: bv8 := 0xFE
  const PAGE_REGISTER: bv8 := 0xFF
  const PAGE_DATAIO: bv8 := 0xF0

  /** n bits answered by the chip from the r-th read on. */
  function Answer(miso: nat -> bool, r: nat, n: nat): (s: seq<bool>)
    ensures |s| == n
  {
    seq(n, k requires 0 <= k < n => miso(r + k))
  }

  function AnswerByte(miso: nat -> bool, r: nat): bv8 {
    Pack(Answer(miso, r, 8))
  }

  /** n bytes answered by the chip from the r-th read on. */
  function AnswerBytes(miso: nat -> bool, r: nat, n: nat): (s: seq<bv8>)
    ensures |s| == n
  {
    seq(n, k requires 0 <= k < n => AnswerByte(miso, r + 8 * k))
  }

  lemma AnswerBytesNext(miso: nat -> bool, r: nat, n: nat, was: seq<bv8>)
    requires n < |was|
    ensures (AnswerBytes(miso, r, n) + was[n..])[n := AnswerByte(miso, r + 8 * n)]
         == AnswerBytes(miso, r, n + 1) + was[n + 1..]
  {
  }

  /** How often a signed byte is counted down before it is zero: a negative one
      runs through -128 to 127 first. */
  function Count(size: int): nat
    requires -128 <= size <= 127
  {
    if size >= 0 then size else size + 256
  }

  function Zeros(n: nat): (z: seq<bv8>)
    ensures |z| == n
  {
    seq(n, _ => 0)
  }

  lemma ZerosNext(s: seq<bv8>, n: nat)
    ensures (s + Zeros(n)) + [0] == s + Zeros(n + 1)
  {
  }

  lemma AnswerNext(miso: nat -> bool, r: nat, n: nat)
    ensures Pack(Answer(miso, r, n + 1)) == ShiftIn(Pack(Answer(miso, r, n)), miso(r + n))
  {
    assert Answer(miso, r, n + 1)[..n] == Answer(miso, r, n);
  }

  /** Reading with the data pin low sends a zero byte. */
  lemma ZeroByte()
    ensures Msb(0) == seq(8, _ => false)
  {
    forall k | 0 <= k < 8
      ensures !Msb(0)[k]
    {
    }
  }

  lemma HeldLow()
    ensures !Msb(PAGE_STATUS)[7] && !Msb(PAGE_DATAIO)[7]
  {
  }

  class Master {
    /** The word last put on the port. */
    var level: bv32
    /** The level the chip drives on MISO at each read. */
    const miso: nat -> bool
    var polled: nat
    ghost const start: bv32
    ghost var trace: seq<bv32>
    /** The bytes meant for the frame under way, and the frames meant so far. */
    ghost var bytes: seq<bv8>
    ghost var log: seq<seq<bv8>>

    /** What the receiver makes of everything put on the port. */
    ghost var seen: Wire

    /** Decode from `start`, as a value; Decoded() is stated with it so that the
        methods need not look into the decoder. */
    ghost const decode: seq<bv32> -> Wire

    ghost predicate Decoded()
      reads this
    {
      && (forall t: seq<bv32> {:trigger Decode(start, t)} :: decode(t) == Decode(start, t))
      && seen == decode(trace)
    }

    /** The frames the receiver has got, as bytes. */
    ghost function Received(): seq<seq<bv8>>
      reads this
    {
      Unframed(seen.frames)
    }

    /** Between frames: select and clock are high. */
    ghost predicate Idle()
      reads this
    {
      && Decoded() && seen == Wire(PinsOf(level), [], Framed(log), true)
      && PinsOf(level).cs && PinsOf(level).clock
    }

    /** Select is low and the clock rests high. */
    ghost predicate Ready()
      reads this
    {
      Decoded() && seen.last == PinsOf(level) && !PinsOf(level).cs && PinsOf(level).clock
    }

    /** Inside a frame, after whole bytes. */
    ghost predicate Selected()
      reads this
    {
      Ready() && seen == Wire(PinsOf(level), FrameBits(bytes), Framed(log), true)
    }

    /** The level left on the data pin. */
    ghost predicate DataHigh()
      reads this
    {
      PinsOf(level).mosi
    }

    constructor (level: bv32, miso: nat -> bool)
      requires PinsOf(level).cs && PinsOf(level).clock
      ensures Idle() && log == [] && this.miso == miso && polled == 0
    {
      this.level, this.miso, polled := level, miso, 0;
      start, trace, bytes, log := level, [], [], [];
      seen := Wire(PinsOf(level), [], [], true);
      decode := t => Decode(level, t);
    }

    method Outl(w: bv32)
      requires Decoded()
      modifies `trace, `seen
      ensures Decoded() && seen == Sees(old(seen), PinsOf(w))
    {
      trace := trace + [w];
      seen := Sees(seen, PinsOf(w));
      assert trace[..|trace| - 1] == old(trace);
      assert Decode(start, trace) == SeesWord(Decode(start, old(trace)), w);
    }

    method Select()
      requires Idle()
      modifies `level, `trace, `seen, `bytes
      ensures Selected() && bytes == []
    {
      SelectMasks(level);
      level := level & 0xF7FFFFFF;
      Outl(level);
      bytes := [];
    }

    method Deselect()
      requires Selected()
      modifies `level, `trace, `seen, `log
      ensures Idle() && log == old(log) + [bytes]
    {
      SelectMasks(level);
      level := level | 0x8000000;
      ClockMasks(level);
      level := level | 0x1;
      Outl(level);
      log := log + [bytes];
      assert Framed(log) == Framed(old(log)) + [FrameBits(bytes)];
    }

    method ClockDown()
      requires Decoded()
      modifies `level, `trace, `seen
      ensures Decoded()
      ensures PinsOf(level) == PinsOf(old(level)).(clock := false)
      ensures seen == Sees(old(seen), PinsOf(level))
    {
      ClockMasks(level);
      level := level & 0xFFFFFFFE;
      Outl(level);
    }

    method ClockUp()
      requires Decoded()
      modifies `level, `trace, `seen
      ensures Decoded()
      ensures PinsOf(level) == PinsOf(old(level)).(clock := true)
      ensures seen == Sees(old(seen), PinsOf(level))
    {
      ClockMasks(level);
      level := level | 0x1;
      Outl(level);
    }

    method Data(bit: bool)
      requires Decoded()
      modifies `level, `trace, `seen
      ensures Decoded()
      ensures PinsOf(level) == PinsOf(old(level)).(mosi := bit)
      ensures seen == Sees(old(seen), PinsOf(level))
    {
      DataMasks(level);
      if bit {
        level := level | 0x02;
      } else {
        level := level & 0xFFFFFFFD;
      }
      Outl(level);
    }

    method WriteBit(bit: bool)
      requires Ready()
      modifies `level, `trace, `seen
      ensures Ready() && DataHigh() == bit
      ensures seen == old(seen).(last := PinsOf(level), frame := old(seen).frame + [bit])
    {
      ClockDown();
      Data(bit);
      ClockUp();
      Outl(level);
    }

    /** The clock of a read shifts the held data bit out once more. */
    method ReadBit() returns (bit: bv8)
      requires Ready()
      modifies `level, `trace, `seen, `polled
      ensures Ready() && DataHigh() == old(DataHigh()) && polled == old(polled) + 1
      ensures bit == (if miso(old(polled)) then 1 else 0)
      ensures seen == old(seen).(last := PinsOf(level), frame := old(seen).frame + [DataHigh()])
    {
      ClockDown();
      bit := if miso(polled) then 1 else 0;
      polled := polled + 1;
      ClockUp();
    }

    /** Shifts out the bits of b, which are s, from the highest. */
    method WriteBits(b: bv8, ghost s: seq<bool>)
      requires Ready() && |s| == 8 && forall k :: 0 <= k < 8 ==> s[k] == Has(b, Mask(7 - k))
      modifies `level, `trace, `seen
      ensures Ready() && DataHigh() == s[7]
      ensures seen == old(seen).(last := PinsOf(level), frame := old(seen).frame + s)
    {
      var i := 7;
      ghost var before := seen;
      while i >= 0
        invariant -1 <= i <= 7 && Ready() && (i < 7 ==> DataHigh() == s[6 - i])
        invariant seen == Wire(PinsOf(level), before.frame + s[..7 - i], before.frames, before.clean)
      {
        assert s[..8 - i] == s[..7 - i] + [s[7 - i]];
        assert s[7 - i] == Has(b, Mask(i));
        WriteBit(Has(b, Mask(i)));
        i := i - 1;
      }
      assert s[..8] == s;
    }

    method WriteByte(b: bv8)
      requires Selected()
      modifies `level, `trace, `seen, `bytes
      ensures Selected() && DataHigh() == Msb(b)[7] && bytes == old(bytes) + [b]
    {
      WriteBits(b, Msb(b));
      FrameSnoc(bytes, b);
      bytes := bytes + [b];
    }

    method ReadBits() returns (r: bv8)
      requires Ready() && !DataHigh()
      modifies `level, `trace, `seen, `polled
      ensures Ready() && !DataHigh()
      ensures polled == old(polled) + 8 && r == Pack(Answer(miso, old(polled), 8))
      ensures seen == old(seen).(last := PinsOf(level), frame := old(seen).frame + seq(8, _ => false))
    {
      r := 0;
      var i := 0;
      while i < 8
        invariant 0 <= i <= 8 && Ready() && !DataHigh()
        invariant polled == old(polled) + i && r == Pack(Answer(miso, old(polled), i))
        invariant seen == old(seen).(last := PinsOf(level), frame := old(seen).frame + seq(i, _ => false))
      {
        var bit := ReadBit();
        AnswerNext(miso, old(polled), i);
        r := (r << 1) | bit;
        assert seq(i + 1, _ => false) == seq(i, _ => false) + [false];
        i := i + 1;
      }
    }

    /** With the data pin low, the receiver gets a zero byte meanwhile. */
    method ReadByte() returns (r: bv8)
      requires Selected() && !DataHigh()
      modifies `level, `trace, `seen, `polled, `bytes
      ensures Selected() && !DataHigh() && bytes == old(bytes) + [0]
      ensures polled == old(polled) + 8 && r == Pack(Answer(miso, old(polled), 8))
    {
      r := ReadBits();
      ZeroByte();
      FrameSnoc(bytes, 0);
      bytes := bytes + [0];
    }

    method PagePrefix(mode: bv8, register: bv8)
      requires Selected() && (mode == SPI_MODE_READ || mode == SPI_MODE_WRITE)
      modifies `level, `trace, `seen, `bytes
      ensures Selected() && DataHigh() == Msb(register)[7]
      ensures bytes == old(bytes) + [if mode == SPI_MODE_READ then 0x60 else 0x61, register]
    {
      var command := 0x60 | mode;
      assert command == if mode == SPI_MODE_READ then 0x60 else 0x61;
      WriteByte(command);
      WriteByte(register);
    }

    /** A whole frame that asks for the status byte. */
    method StatusPoll()
      requires Idle()
      modifies this
      ensures Idle() && polled == old(polled) + 8 && log == old(log) + [[0x60, 0xFE, 0x00]]
    {
      Select();
      AskStatus();
      assert bytes == [0x60, 0xFE, 0x00];
      Deselect();
    }

    /** Asks for the status byte, which is not looked at. */
    method AskStatus()
      requires Selected()
      modifies `level, `trace, `seen, `polled, `bytes
      ensures Selected() && polled == old(polled) + 8 && bytes == old(bytes) + [0x60, 0xFE, 0x00]
    {
      HeldLow();
      PagePrefix(SPI_MODE_READ, PAGE_STATUS);
      var temp := ReadByte();
    }

    /** A whole frame that sets the page register. */
    method SetPage(page: bv8)
      requires Idle()
      modifies `level, `trace, `seen, `bytes, `log
      ensures Idle() && log == old(log) + [[0x61, 0xFF, page]]
    {
      Select();
      HeldLow();
      PagePrefix(SPI_MODE_WRITE, PAGE_REGISTER);
      WriteByte(page);
      assert bytes == [0x61, 0xFF, page];
      Deselect();
    }

    /** Writes the first `size` bytes of `value` to a register of the chip: the
        receiver gets exactly three more frames. */
    method Write(page: bv8, offset: bv8, value: array<bv8>, size: nat)
      requires Idle() && size <= value.Length
      modifies this
      ensures Idle()
      ensures Received() == old(Received()) +
                            [[0x60, 0xFE, 0x00], [0x61, 0xFF, page], [0x61, offset] + value[..size]]
    {
      UnframedFramed(log);
      StatusPoll();
      SetPage(page);
      WriteData(offset, value, size);
      UnframedFramed(log);
    }

    method WriteData(offset: bv8, value: array<bv8>, size: nat)
      requires Idle() && size <= value.Length
      modifies `level, `trace, `seen, `bytes, `log
      ensures Idle() && log == old(log) + [[0x61, offset] + value[..size]]
    {
      Select();
      PagePrefix(SPI_MODE_WRITE, offset);
      WriteBytes(value, size);
      assert bytes == [0x61, offset] + value[..size];
      Deselect();
    }

    method WriteBytes(value: array<bv8>, size: nat)
      requires Selected() && size <= value.Length
      modifies `level, `trace, `seen, `bytes
      ensures Selected() && bytes == old(bytes) + value[..size]
    {
      var i, left := 0, size;
      while left != 0
        invariant 0 <= i <= i + left == size && Selected() && bytes == old(bytes) + value[..i]
        decreases left
      {
        WriteByte(value[i]);
        i := i + 1;
        left := left - 1;
      }
    }

    /** The command line's write: page, register, value string, the character in
        memory before it, and size. */
    method WriteArgument(page: bv8, register: bv8, before: char, val: string, size: nat)
      requires Idle() && |val| <= 16 && size <= 8
      modifies this
      ensures Idle()
      ensures Received() == old(Received()) +
                            [[0x60, 0xFE, 0x00], [0x61, 0xFF, page], [0x61, register] + Payload(before, val, size)]
      ensures LittleEndian(Payload(before, val, size)) == HexValue(val) % Pow256(size)
         <==> |val| % 2 == 0 || Digit(before) == 0 || |val| >= 2 * size
    {
      var data := new bv8[8](_ => 0);
      ConvertStrToArray(data, before, val, size);
      ghost var n := |Full(before, val)| / 2;
      assert data[..] == data[..n] + data[n..];
      assert data[..size] == Payload(before, val, size);
      Write(page, register, data, size);
      PayloadValue(before, val, size);
    }

    /** Reads `Count(size)` bytes of a register of the chip: the receiver gets four more
        frames, and the answers to the last one are the bytes returned. */
    method Read(page: bv8, offset: bv8, value: array<bv8>, size: int)
      requires Idle() && -128 <= size <= 127 && Count(size) <= value.Length
      modifies this, value
      ensures Idle()
      ensures Received() == old(Received()) +
                            [[0x60, 0xFE, 0x00], [0x61, 0xFF, page], [0x60, offset, 0x60, 0xFE, 0x00],
                             [0x60, 0xF0] + Zeros(Count(size))]
      ensures value[..Count(size)] == AnswerBytes(miso, old(polled) + 16, Count(size))
      ensures value[Count(size)..] == old(value[Count(size)..])
    {
      UnframedFramed(log);
      StatusPoll();
      SetPage(page);
      Fetch(offset);
      ReadData(value, size);
      UnframedFramed(log);
    }

    /** A whole frame that asks for a register and for the status byte. */
    method Fetch(offset: bv8)
      requires Idle()
      modifies this
      ensures Idle() && polled == old(polled) + 8 && log == old(log) + [[0x60, offset, 0x60, 0xFE, 0x00]]
    {
      Select();
      HeldLow();
      PagePrefix(SPI_MODE_READ, offset);
      AskStatus();
      assert bytes == [0x60, offset, 0x60, 0xFE, 0x00];
      Deselect();
    }

    method ReadData(value: array<bv8>, size: int)
      requires Idle() && -128 <= size <= 127 && Count(size) <= value.Length
      modifies this, value
      ensures Idle() && log == old(log) + [[0x60, 0xF0] + Zeros(Count(size))]
      ensures value[..Count(size)] == AnswerBytes(miso, old(polled), Count(size))
      ensures value[Count(size)..] == old(value[Count(size)..])
    {
      Select();
      HeldLow();
      PagePrefix(SPI_MODE_READ, PAGE_DATAIO);
      assert bytes == [0x60, 0xF0];
      ReadBytes(value, size);
      Deselect();
    }

    method ReadBytes(value: array<bv8>, size: int)
      requires Selected() && !DataHigh() && -128 <= size <= 127 && Count(size) <= value.Length
      modifies `level, `trace, `seen, `polled, `bytes, value
      ensures Selected() && bytes == old(bytes) + Zeros(Count(size))
      ensures value[..Count(size)] == AnswerBytes(miso, old(polled), Count(size))
      ensures value[Count(size)..] == old(value[Count(size)..])
    {
      hide AnswerBytes, AnswerByte, FrameBits, Framed, PinsOf, Decode;
      var i, left := 0, size;
      ghost var before, first, was := bytes, polled, value[..];
      while left != 0
        invariant -128 <= left <= 127 && 0 <= i && i + Count(left) == Count(size)
        invariant Selected() && !DataHigh() && polled == first + 8 * i
        invariant bytes == before + Zeros(i)
        invariant value[..] == AnswerBytes(miso, first, i) + was[i..]
        decreases Count(left)
      {
        ReadInto(value, i);
        ZerosNext(before, i);
        AnswerBytesNext(miso, first, i, was);
        i := i + 1;
        left := if left == -128 then 127 else left - 1;
      }
    }

    method ReadInto(value: array<bv8>, i: nat)
      requires Selected() && !DataHigh() && i < value.Length
      modifies `level, `trace, `seen, `polled, `bytes, value
      ensures Selected() && !DataHigh() && bytes == old(bytes) + [0] && polled == old(polled) + 8
      ensures value[..] == old(value[..])[i := AnswerByte(miso, old(polled))]
    {
      var temp := ReadByte();
      value[i] := temp;
    }
  }

  // ------------------------------------------------------ the value argument

  /** A hexadecimal digit; any other character counts as zero. */
  function Digit(c: char): (d: nat)
    ensures d < 16
  {
    if '0' <= c <= '9' then c as int - '0' as int
    else if 'a' <= c <= 'f' then c as int - 'a' as int + 10
    else if 'A' <= c <= 'F' then c as int - 'A' as int + 10
    else 0
  }

  /** The number a string of hexadecimal digits writes. */
  function HexValue(s: string): nat {
    if s == [] then 0 else 16 * HexValue(s[..|s| - 1]) + Digit(s[|s| - 1])
  }

  const LOWER := "0123456789abcdef"
  const UPPER := "0123456789ABCDEF"

  /** Every character of these is worth its place, and every other one nothing. */
  lemma DigitIsPlace(c: char)
    ensures forall i :: 0 <= i < 16 ==> Digit(LOWER[i]) == i && Digit(UPPER[i]) == i
    ensures (forall i :: 0 <= i < 16 ==> c != LOWER[i] && c != UPPER[i]) ==> Digit(c) == 0
  {
    assert c < '0' || c > '9' || c == LOWER[c as int - '0' as int];
    assert c < 'a' || c > 'f' || c == LOWER[10 + (c as int - 'a' as int)];
    assert c < 'A' || c > 'F' || c == UPPER[10 + (c as int - 'A' as int)];
  }

  /** The number n printed in hexadecimal with these digits. */
  function Printed(digits: string, n: nat): string
    requires |digits| == 16
  {
    if n < 16 then [digits[n]] else Printed(digits, n / 16) + [digits[n % 16]]
  }

  /** Whatever number is printed, and in whichever digits, it is read back. */
  lemma {:induction false} PrintedIsRead(digits: string, n: nat)
    requires digits == LOWER || digits == UPPER
    ensures HexValue(Printed(digits, n)) == n
  {
    DigitIsPlace('0');
    if n < 16 {
      assert HexValue([digits[n]]) == 16 * HexValue([digits[n]][..0]) + Digit(digits[n]);
    } else {
      PrintedIsRead(digits, n / 16);
      var s := Printed(digits, n / 16);
      assert (s + [digits[n % 16]])[..|s|] == s;
    }
  }

  /** The number that bytes, least significant first, write. */
  function LittleEndian(bytes: seq<bv8>): nat {
    if bytes == [] then 0 else bytes[0] as int + 256 * LittleEndian(bytes[1..])
  }

  function Pow256(n: nat): (p: nat)
    ensures p >= 1
  {
    if n == 0 then 1 else 256 * Pow256(n - 1)
  }

  function HexByte(high: char, low: char): bv8 {
    ((Digit(high) as bv8) << 4) | (Digit(low) as bv8)
  }

  /** The bytes of a string of an even number of digits, last pair first. */
  function HexBytes(s: string): (b: seq<bv8>)
    ensures |b| == |s| / 2
  {
    if |s| < 2 then [] else [HexByte(s[|s| - 2], s[|s| - 1])] + HexBytes(s[..|s| - 2])
  }

  lemma NibbleRange(d: nat)
    requires d < 16
    ensures (d as bv8) < 16 && (d as bv8) as int == d
  {
  }

  lemma JoinNibbles(high: bv8, low: bv8)
    requires high < 16 && low < 16
    ensures ((high << 4) | low) as int == 16 * (high as int) + (low as int)
    ensures low & 0xF == low && high & 0xF == high
  {
  }

  lemma HexByteValue(high: char, low: char)
    ensures HexByte(high, low) as int == 16 * Digit(high) + Digit(low)
  {
    NibbleRange(Digit(high));
    NibbleRange(Digit(low));
    JoinNibbles(Digit(high) as bv8, Digit(low) as bv8);
  }

  /** The converted bytes, least significant first, are the number written. */
  lemma {:induction false} HexBytesValue(s: string)
    requires |s| % 2 == 0
    ensures LittleEndian(HexBytes(s)) == HexValue(s)
  {
    if s != [] {
      var n := |s| - 2;
      HexByteValue(s[n], s[n + 1]);
      assert s[..n + 1][..n] == s[..n];
      HexBytesValue(s[..n]);
      assert HexBytes(s)[1..] == HexBytes(s[..n]);
    }
  }

  /** What two digits shifted in leave of the byte before them: nothing. */
  lemma TwoNibbles(was: bv8, high: bv8, low: bv8)
    requires high < 16 && low < 16
    ensures (((was << 4) | (high & 0xF)) << 4) | (low & 0xF) == (high << 4) | low
  {
  }

  /** The digits that are read: pairs from the end of the string, so that one of
      odd length is read together with the character before it. */
  function Full(before: char, val: string): (s: string)
    ensures |s| % 2 == 0
  {
    if |val| % 2 == 1 then [before] + val else val
  }

  /** Fills `data` from the end of the string; `len` is compared with the
      length of the string, but what it would shorten is no longer read. */
  method ConvertStrToArray(data: array<bv8>, before: char, val: string, len: int)
    requires |Full(before, val)| / 2 <= data.Length
    modifies data
    ensures data[..|Full(before, val)| / 2] == HexBytes(Full(before, val))
    ensures data[|Full(before, val)| / 2..] == old(data[|Full(before, val)| / 2..])
  {
    hide HexByte, Digit;
    ghost var full := Full(before, val);
    var valLen := |val|;
    var i := valLen - 1;
    var haveX := 0;
    var j := 0;
    var value: bv8 := 0;
    if |val| >= 2 && (val[1] == 'x' || val[1] == 'X') {
      haveX := 2;
    }
    if (valLen - haveX) / 2 > len {
      valLen := len * 2;
    }
    while i >= 0
      invariant -2 <= i && i + 1 == |val| - 2 * j && 0 <= j <= |full| / 2
      invariant data[..j] == HexBytes(full)[..j] && data[j..] == old(data[j..])
    {
      HexBytesAt(full, j);
      value := ShiftDigits(value, if i >= 1 then val[i - 1] else before, val[i]);
      data[j] := value;
      assert data[j + 1..] == old(data[j..])[1..];
      i := i - 2;
      j := j + 1;
    }
  }

  lemma {:induction false} HexBytesAt(s: string, j: nat)
    requires 2 * j + 2 <= |s|
    ensures HexBytes(s)[j] == HexByte(s[|s| - 2 * j - 2], s[|s| - 2 * j - 1])
  {
    HexBytesLast(s);
    if j > 0 {
      var t := s[..|s| - 2];
      HexBytesAt(t, j - 1);
      assert HexBytes(s)[j] == HexBytes(t)[j - 1];
    }
  }

  /** Two digits into the byte, which leaves nothing of what it held. */
  method ShiftDigits(value: bv8, c1: char, c2: char) returns (r: bv8)
    ensures r == HexByte(c1, c2)
  {
    var high, low := Digit(c1) as bv8, Digit(c2) as bv8;
    r := (value << 4) | (high & 0xF);
    r := (r << 4) | (low & 0xF);
    NibbleRange(Digit(c1));
    NibbleRange(Digit(c2));
    TwoNibbles(value, high, low);
  }

  lemma HexBytesLast(s: string)
    requires |s| >= 2
    ensures HexBytes(s) == [HexByte(s[|s| - 2], s[|s| - 1])] + HexBytes(s[..|s| - 2])
  {
  }

  /** The bytes put on the wire for a value argument: those of the string,
      filled up with zeros to eight, and then the first `size` of them. */
  function Payload(before: char, val: string, size: nat): seq<bv8>
    requires |val| <= 16 && size <= 8
  {
    (HexBytes(Full(before, val)) + Zeros(8 - |Full(before, val)| / 2))[..size]
  }

  lemma {:induction false} LittleEndianPrefix(bytes: seq<bv8>, n: nat)
    requires n <= |bytes|
    ensures LittleEndian(bytes[..n]) == LittleEndian(bytes) % Pow256(n)
    ensures LittleEndian(bytes[..n]) < Pow256(n)
  {
    if n > 0 {
      LittleEndianPrefix(bytes[1..], n - 1);
      assert bytes[..n][1..] == bytes[1..][..n - 1];
      var q := LittleEndian(bytes[1..]) / Pow256(n - 1);
      var r := LittleEndian(bytes[1..]) % Pow256(n - 1);
      ModShift(LittleEndian(bytes[1..]), Pow256(n - 1), bytes[0] as int);
    }
  }

  lemma ModShift(x: nat, p: nat, b: nat)
    requires p >= 1 && b < 256
    ensures (b + 256 * x) % (256 * p) == b + 256 * (x % p)
    ensures b + 256 * (x % p) < 256 * p
  {
    var q, r := x / p, x % p;
    assert x == q * p + r;
    assert b + 256 * x == q * (256 * p) + (b + 256 * r);
    ModUnique(b + 256 * x, 256 * p, q, b + 256 * r);
  }

  lemma ModUnique(x: nat, m: nat, q: nat, r: nat)
    requires r < m && x == q * m + r
    ensures x % m == r
  {
    var d := x / m - q;
    assert d * m == r - x % m;
    MulBound(d, m);
  }

  lemma MulBound(d: int, m: nat)
    ensures d >= 1 ==> d * m >= m
    ensures d <= -1 ==> d * m + m <= 0
  {
  }

  lemma {:induction false} ZerosAddNothing(bytes: seq<bv8>, n: nat)
    ensures LittleEndian(bytes + Zeros(n)) == LittleEndian(bytes)
    decreases |bytes| + n
  {
    var z := Zeros(n);
    if bytes != [] {
      assert (bytes + z)[0] == bytes[0] && (bytes + z)[1..] == bytes[1..] + z;
      ZerosAddNothing(bytes[1..], n);
    } else if n > 0 {
      assert (bytes + z)[0] == 0 && (bytes + z)[1..] == bytes + Zeros(n - 1);
      ZerosAddNothing(bytes, n - 1);
    }
  }

  function Pow16(n: nat): (p: nat)
    ensures p >= 1
  {
    if n == 0 then 1 else 16 * Pow16(n - 1)
  }

  lemma {:induction false} Pow16Sum(m: nat, n: nat)
    ensures Pow16(m + n) == Pow16(m) * Pow16(n)
  {
    if m > 0 {
      Pow16Sum(m - 1, n);
      assert Pow16(m + n) == 16 * (Pow16(m - 1) * Pow16(n)) == 16 * Pow16(m - 1) * Pow16(n);
    }
  }

  lemma {:induction false} Pow16Pairs(n: nat)
    ensures Pow256(n) == Pow16(2 * n)
  {
    if n > 0 {
      Pow16Pairs(n - 1);
      assert Pow16(2 * n) == 16 * Pow16(2 * n - 1) == 256 * Pow16(2 * (n - 1));
    }
  }

  lemma MulAssociates(a: nat, b: nat, c: nat)
    ensures a * (b * c) == (a * b) * c
  {
  }

  /** A character in front of a string adds its digit above all others. */
  lemma {:induction false} HexValueFront(c: char, s: string)
    ensures HexValue([c] + s) == Digit(c) * Pow16(|s|) + HexValue(s)
    ensures HexValue(s) < Pow16(|s|)
  {
    if s == [] {
      assert ([c] + s)[..0] == [] && ([c] + s)[0] == c;
    } else {
      var n := |s| - 1;
      HexValueFront(c, s[..n]);
      assert ([c] + s)[..n + 1] == [c] + s[..n];
      FrontGrows(Digit(c), Pow16(n), HexValue(s[..n]), Digit(s[n]));
    }
  }

  lemma FrontGrows(d: nat, p: nat, x: nat, e: nat)
    requires x < p && e < 16
    ensures 16 * (d * p + x) + e == d * (16 * p) + (16 * x + e)
    ensures 16 * x + e < 16 * p
  {
  }

  lemma AddMultiple(x: nat, q: nat, m: nat)
    requires m >= 1
    ensures (q * m + x) % m == x % m
  {
    var k, r := x / m, x % m;
    assert q * m + x == (q + k) * m + r;
    ModUnique(q * m + x, m, q + k, r);
  }

  /** Cut to `size` bytes, a number y is what its last n digits x write exactly
      if the digit d in front of them is 0 or cut away. */
  lemma FrontDigitLost(d: nat, n: nat, x: nat, y: nat, size: nat)
    requires d < 16 && x < Pow16(n) && n % 2 == 1 && y == d * Pow16(n) + x
    ensures y % Pow256(size) == x % Pow256(size) <==> d == 0 || n >= 2 * size
  {
    Pow16Pairs(size);
    if n >= 2 * size {
      Pow16Sum(n - 2 * size, 2 * size);
      FrontDigitCut(d, Pow16(n - 2 * size), Pow256(size), x);
    } else {
      Pow16Sum(n + 1, 2 * size - n - 1);
      FrontDigitKept(d, Pow16(n), Pow16(2 * size - n - 1), x);
    }
  }

  lemma FrontDigitCut(d: nat, p: nat, m: nat, x: nat)
    requires m >= 1
    ensures (d * (p * m) + x) % m == x % m
  {
    MulAssociates(d, p, m);
    AddMultiple(x, d * p, m);
  }

  lemma FrontDigitKept(d: nat, p: nat, q: nat, x: nat)
    requires d < 16 && x < p && q >= 1
    ensures (16 * p) * q >= 1
    ensures (d * p + x) % ((16 * p) * q) == x % ((16 * p) * q) <==> d == 0
  {
    FrontDigitFits(d, p, q, x);
    SmallMod(d * p + x, (16 * p) * q);
    SmallMod(x, (16 * p) * q);
  }

  lemma FrontDigitFits(d: nat, p: nat, q: nat, x: nat)
    requires d < 16 && x < p && q >= 1
    ensures d * p + x < (16 * p) * q && x < (16 * p) * q
    ensures d * p == 0 <==> d == 0
  {
    MulBound(q - 1, 16 * p);
    MulBound(15 - d, p);
    MulBound(d, p);
    assert (16 * p) * q == (16 * p) * (q - 1) + 16 * p;
    assert d * p == 15 * p - (15 - d) * p;
  }

  lemma SmallMod(x: nat, m: nat)
    requires x < m
    ensures x % m == x
  {
  }

  lemma FullValue(before: char, val: string, size: nat)
    ensures HexValue(Full(before, val)) % Pow256(size) == HexValue(val) % Pow256(size)
       <==> |val| % 2 == 0 || Digit(before) == 0 || |val| >= 2 * size
  {
    if |val| % 2 == 1 {
      HexValueFront(before, val);
      FrontDigitLost(Digit(before), |val|, HexValue(val), HexValue([before] + val), size);
    }
  }

  /** What goes out is the number written, cut to `size` bytes, exactly if the
      character before a string of odd length is no digit but 0, or is cut away. */
  lemma PayloadValue(before: char, val: string, size: nat)
    requires |val| <= 16 && size <= 8
    ensures LittleEndian(Payload(before, val, size)) == HexValue(val) % Pow256(size)
       <==> |val| % 2 == 0 || Digit(before) == 0 || |val| >= 2 * size
  {
    hide HexValue, LittleEndian, HexBytes, Pow256, Zeros;
    var full := Full(before, val);
    CutValue(HexBytes(full), 8 - |full| / 2, size);
    HexBytesValue(full);
    FullValue(before, val, size);
  }

  /** A number printed in either kind of digits, with or without 0x in front, goes
      out as that number under the same condition. */
  lemma PrintedIsSent(before: char, digits: string, n: nat, prefix: string, size: nat)
    requires (digits == LOWER || digits == UPPER) && (prefix == "" || prefix == "0x" || prefix == "0X")
    requires |prefix + Printed(digits, n)| <= 16 && size <= 8
    ensures var val := prefix + Printed(digits, n);
            LittleEndian(Payload(before, val, size)) == n % Pow256(size)
            <==> |val| % 2 == 0 || Digit(before) == 0 || |val| >= 2 * size
  {
    hide HexValue, LittleEndian, Pow256, Payload, Printed;
    PrintedIsRead(digits, n);
    PayloadValue(before, prefix + Printed(digits, n), size);
    PrefixIsZero(prefix, Printed(digits, n));
  }

  lemma PrefixIsZero(prefix: string, s: string)
    requires prefix == "" || prefix == "0x" || prefix == "0X"
    ensures HexValue(prefix + s) == HexValue(s)
  {
    hide HexValue;
    if prefix == "" {
      assert prefix + s == s;
    } else {
      assert prefix + s == [prefix[0]] + ([prefix[1]] + s);
      HexValueFront(prefix[1], s);
      HexValueFront(prefix[0], [prefix[1]] + s);
    }
  }

  lemma CutValue(bytes: seq<bv8>, n: nat, size: nat)
    requires size <= |bytes| + n
    ensures LittleEndian((bytes + Zeros(n))[..size]) == LittleEndian(bytes) % Pow256(size)
  {
    LittleEndianPrefix(bytes + Zeros(n), size);
    ZerosAddNothing(bytes, n);
  }
}
