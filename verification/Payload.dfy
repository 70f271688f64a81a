/**
  What the data codewords say: byte mode, the length, the bytes, a terminator and
  padding - written by `EncodeData` and read back by `Parse`.
  */
module Payload {
  import opened Options
  import opened GaloisField
  import opened BitStream
  import opened Tables

  function Falses(n: nat): (s: seq<bool>)
    ensures |s| == n
  {
    seq(n, _ => false)
  }

  /** The pad bytes, one and the other in turn. */
  function Pads(n: nat): (s: seq<Byte>)
    ensures |s| == n
  {
    seq(n, i => if i % 2 == 0 then Byte(0xEC) else Byte(0x11))
  }

  /** The terminator is cut short when the capacity ends sooner. */
  function Terminator(used: nat, capacity: nat): nat
    requires used <= 8 * capacity
  {
    if 8 * capacity - used > 4 then 4 else 8 * capacity - used
  }

  /** Zeros from the terminator to the next byte boundary. */
  function Align(used: nat, capacity: nat): nat
    requires used <= 8 * capacity
  {
    (8 - (used + Terminator(used, capacity)) % 8) % 8
  }

  /** The codewords that are full before the padding starts. */
  function Filled(used: nat, capacity: nat): (filled: nat)
    requires used <= 8 * capacity
    ensures filled <= capacity
    ensures 8 * filled == used + Terminator(used, capacity) + Align(used, capacity)
  {
    (used + Terminator(used, capacity) + Align(used, capacity)) / 8
  }

  /** Mode, count and payload. */
  function Front(data: seq<Byte>, countBits: nat): (s: seq<bool>)
    ensures |s| == 4 + countBits + 8 * |data|
  {
    NumberBits(4, 4) + NumberBits(|data|, countBits) + StreamBits(data)
  }

  /** The bit stream of section 7.4 of ISO/IEC 18004, up to the capacity. */
  ghost predicate IsLayout(bits: seq<bool>, data: seq<Byte>, countBits: nat, capacity: nat)
    requires 4 + countBits + 8 * |data| <= 8 * capacity
  {
    var used := 4 + countBits + 8 * |data|;
    bits == Front(data, countBits)
            + Falses(Terminator(used, capacity)) + Falses(Align(used, capacity))
            + StreamBits(Pads(capacity - Filled(used, capacity)))
  }

  lemma ZeroBitsOfNumber(n: nat)
    ensures NumberBits(0, n) == Falses(n)
  {
    forall i | 0 <= i < n ensures !NumberBits(0, n)[i] {
      NoBits(n - 1 - i);
    }
  }

  lemma {:induction false} NoBits(i: nat)
    ensures !NumberBit(0, i)
  {
    if i > 0 {
      NoBits(i - 1);
    }
  }

  method EncodeData(data: seq<Byte>, version: nat, capacity: nat) returns (r: seq<Byte>)
    requires 4 + CountBits(version) + 8 * |data| <= 8 * capacity
    ensures |r| == capacity
    ensures IsLayout(StreamBits(r), data, CountBits(version), capacity)
  {
    hide NumberBits, StreamBits, Pads, Falses, Num, Terminator, Align, Filled;
    var buf := new Writer();
    buf.Add(4, 4);
    var countBits := CountBits(version);
    buf.Add(|data|, countBits);
    ghost var header := NumberBits(4, 4) + NumberBits(|data|, countBits);
    assert buf.Contents() == header;
    AddBytes(buf, data);
    AddTail(buf, capacity);
    var stored := buf.b;
    assert buf.n == 8 * Filled(4 + countBits + 8 * |data|, capacity);
    StoredBits(buf);
    r := PadTo(stored, capacity);
  }

  /** The terminator, and zeros to the next byte boundary. */
  method AddTail(buf: Writer, capacity: nat)
    requires buf.Valid() && buf.n <= 8 * capacity
    modifies buf
    ensures buf.Valid()
    ensures buf.Contents() == old(buf.Contents()) + Falses(Terminator(old(buf.n), capacity))
                              + Falses(Align(old(buf.n), capacity))
    ensures buf.n == old(buf.n) + Terminator(old(buf.n), capacity) + Align(old(buf.n), capacity)
  {
    hide NumberBits, StreamBits, Falses, Num;
    var room := 8 * capacity - buf.n;
    if room > 4 {
      room := 4;
    }
    buf.Add(0, room);
    ZeroBitsOfNumber(room);
    var align := (8 - buf.n % 8) % 8;
    buf.Add(0, align);
    ZeroBitsOfNumber(align);
  }

  method AddBytes(buf: Writer, data: seq<Byte>)
    requires buf.Valid()
    modifies buf
    ensures buf.Valid() && buf.Contents() == old(buf.Contents()) + StreamBits(data)
  {
    assert old(buf.Contents()) + [] == old(buf.Contents());
    hide ByteBits, NumberBits;
    for i := 0 to |data|
      invariant buf.Valid() && buf.Contents() == old(buf.Contents()) + StreamBits(data[..i])
    {
      buf.Add(Num(data[i]), 8);
      ByteBitsOfNum(data[i]);
      StreamBitsSnoc(data[..i], data[i]);
      assert data[..i + 1] == data[..i] + [data[i]];
    }
    assert data[..|data|] == data;
  }

  /** On a byte boundary the stored bytes are the contents. */
  lemma StoredBits(buf: Writer)
    requires buf.Valid() && buf.n % 8 == 0
    ensures 8 * |buf.b| == buf.n && StreamBits(buf.b) == buf.Contents()
  {
  }

  method PadTo(stored: seq<Byte>, capacity: nat) returns (r: seq<Byte>)
    requires |stored| <= capacity
    ensures |r| == capacity && StreamBits(r) == StreamBits(stored) + StreamBits(Pads(capacity - |stored|))
  {
    hide StreamBits;
    var pad := [Byte(0xEC), Byte(0x11)];
    r := stored;
    var i := 0;
    while |r| < capacity
      invariant |stored| <= |r| <= capacity && r == stored + Pads(i)
    {
      assert Pads(i + 1) == Pads(i) + [pad[i % 2]];
      r := r + [pad[i % 2]];
      i := i + 1;
    }
    StreamBitsConcat(stored, Pads(i));
  }

  /** A reader of byte mode: mode, count, then as many bytes as the count says. */
  function Parse(bits: seq<bool>, countBits: nat): Option<seq<Byte>> {
    if |bits| < 4 + countBits || bits[..4] != [false, true, false, false] then None
    else
      var n := NumberOf(bits[4..4 + countBits]);
      if |bits| < 4 + countBits + 8 * n then None
      else Some(Pack(bits[4 + countBits..4 + countBits + 8 * n], n))
  }

  /** The reader gets exactly the bytes back; terminator and padding do not disturb it. */
  lemma ParseLayout(bits: seq<bool>, data: seq<Byte>, countBits: nat, capacity: nat)
    requires 4 + countBits + 8 * |data| <= 8 * capacity && |data| < Power(countBits)
    requires IsLayout(bits, data, countBits, capacity)
    ensures Parse(bits, countBits) == Some(data)
  {
    FrontComesFirst(bits, data, countBits, capacity);
    ParseFront(bits, data, countBits);
  }

  lemma ParseFront(bits: seq<bool>, data: seq<Byte>, countBits: nat)
    requires Front(data, countBits) <= bits && |data| < Power(countBits)
    ensures Parse(bits, countBits) == Some(data)
  {
    FrontSlices(data, countBits);
    ByteModeBits();
    NumberRoundTrip(|data|, countBits);
    PackStream(data);
    hide NumberBits, StreamBits, Pack, NumberOf, Front;
    var front := Front(data, countBits);
    var i, k := 4 + countBits, |front|;
    assert bits[..4] == front[..4];
    assert bits[4..i] == front[4..i];
    assert bits[i..k] == front[i..];
    ParseSlices(bits, countBits, |data|, data);
  }

  lemma ParseSlices(bits: seq<bool>, countBits: nat, n: nat, d: seq<Byte>)
    requires |bits| >= 4 + countBits + 8 * n && bits[..4] == [false, true, false, false]
    requires NumberOf(bits[4..4 + countBits]) == n
    requires Pack(bits[4 + countBits..4 + countBits + 8 * n], n) == d
    ensures Parse(bits, countBits) == Some(d)
  {
    hide Pack, NumberOf;
  }

  lemma FrontComesFirst(bits: seq<bool>, data: seq<Byte>, countBits: nat, capacity: nat)
    requires 4 + countBits + 8 * |data| <= 8 * capacity && IsLayout(bits, data, countBits, capacity)
    ensures Front(data, countBits) <= bits
  {
    hide Front, StreamBits, Filled, Terminator, Align, Pads, Falses;
  }

  lemma FrontSlices(data: seq<Byte>, countBits: nat)
    ensures var front := Front(data, countBits);
            && front[..4] == NumberBits(4, 4)
            && front[4..4 + countBits] == NumberBits(|data|, countBits)
            && front[4 + countBits..] == StreamBits(data)
  {
    hide NumberBits, StreamBits;
  }

  lemma ByteModeBits()
    ensures NumberBits(4, 4) == [false, true, false, false]
  {
    assert NumberBit(4, 3) == NumberBit(2, 2) == NumberBit(1, 1) == NumberBit(0, 0);
    assert NumberBit(4, 2) == NumberBit(2, 1) == NumberBit(1, 0);
    assert NumberBit(4, 1) == NumberBit(2, 0);
  }

  lemma CountFits(version: nat, n: nat)
    requires 1 <= version <= 20 && Fits(version, n)
    ensures n < Power(CountBits(version))
  {
    BlockFacts(version);
    hide BlockOf;
    PowerOf8();
  }

  lemma PowerOf8()
    ensures Power(8) == 256 && Power(16) == 65536
  {
    assert Power(4) == 16;
    assert Power(8) == 16 * Power(4);
    assert Power(12) == 16 * Power(8);
    assert Power(16) == 16 * Power(12);
  }
}
