/**
 * The ROM as an in-memory byte sequence, and the integer views every reader
 * of the repository takes of it: little- and big-endian words, signed bytes
 * and ROM pointers.
 *
 * A Python `file.read(n)` at position `pos` returns the bytes that exist
 * (none at or past the end) and moves the position past what it returned;
 * `int.from_bytes(b'', ...)` is 0. `Chunk` and `After` state exactly that.
 */
module RomBytes {

  type Byte = x: int | 0 <= x < 256

  function Min(a: int, b: int): int { if a <= b then a else b }

  function Pow256(n: nat): (r: nat)
    ensures r >= 1
  {
    if n == 0 then 1 else 256 * Pow256(n - 1)
  }

  /** `int.from_bytes(s, 'little')`: the first byte is the least significant. */
  function LittleEndian(s: seq<Byte>): nat
    decreases |s|
  {
    if s == [] then 0 else s[0] + 256 * LittleEndian(s[1..])
  }

  /** `int.from_bytes(s, 'big')`: the last byte is the least significant. */
  function BigEndian(s: seq<Byte>): nat
    decreases |s|
  {
    if s == [] then 0 else BigEndian(s[..|s| - 1]) * 256 + s[|s| - 1]
  }

  function Reverse(s: seq<Byte>): (r: seq<Byte>)
    ensures |r| == |s|
    ensures forall i :: 0 <= i < |s| ==> r[i] == s[|s| - 1 - i]
  {
    if s == [] then [] else Reverse(s[1..]) + [s[0]]
  }

  /** An n-byte little-endian word is below 256^n. */
  lemma {:induction false} LittleEndianBound(s: seq<Byte>)
    ensures LittleEndian(s) < Pow256(|s|)
    decreases |s|
  {
    if s != [] {
      LittleEndianBound(s[1..]);
    }
  }

  /** Reading big-endian is reading the reversed bytes little-endian. */
  lemma {:induction false} BigEndianIsReversedLittleEndian(s: seq<Byte>)
    ensures BigEndian(s) == LittleEndian(Reverse(s))
    decreases |s|
  {
    if s != [] {
      var init := s[..|s| - 1];
      BigEndianIsReversedLittleEndian(init);
      assert Reverse(s) == [s[|s| - 1]] + Reverse(init);
      assert Reverse(s)[1..] == Reverse(init);
    }
  }

  /** The bytes `file.read(n)` returns at position `pos`. */
  function Chunk(rom: seq<Byte>, pos: nat, n: nat): (c: seq<Byte>)
    ensures |c| <= n
    ensures pos + n <= |rom| ==> c == rom[pos..pos + n]
    ensures pos >= |rom| ==> c == []
  {
    if pos >= |rom| then [] else rom[pos..Min(pos + n, |rom|)]
  }

  /** The position after `file.read(n)` at `pos`: it never moves past the end by reading. */
  function After(rom: seq<Byte>, pos: nat, n: nat): (p: nat)
    ensures p == pos + |Chunk(rom, pos, n)|
    ensures pos < |rom| ==> p == Min(pos + n, |rom|)
    ensures pos >= |rom| ==> p == pos
  {
    pos + |Chunk(rom, pos, n)|
  }

  /** `int.from_bytes(file.read(n), 'little')` at `pos`. */
  function ReadLE(rom: seq<Byte>, pos: nat, n: nat): nat
  {
    LittleEndian(Chunk(rom, pos, n))
  }

  /** `int.from_bytes(file.read(n), 'big')` at `pos`. */
  function ReadBE(rom: seq<Byte>, pos: nat, n: nat): nat
  {
    BigEndian(Chunk(rom, pos, n))
  }

  /** A one-byte read is the byte itself, or 0 at the end of the ROM. */
  lemma ReadByte(rom: seq<Byte>, pos: nat)
    ensures ReadLE(rom, pos, 1) == (if pos < |rom| then rom[pos] else 0)
    ensures ReadLE(rom, pos, 1) < 256
  {
    if pos < |rom| {
      var c := Chunk(rom, pos, 1);
      assert c == [rom[pos]];
      assert c[1..] == [];
      assert LittleEndian(c) == rom[pos] + 256 * LittleEndian([]);
    }
  }

  /** Every read value fits its width, even when the read is cut short by the end. */
  lemma ReadLEBound(rom: seq<Byte>, pos: nat, n: nat)
    ensures ReadLE(rom, pos, n) < Pow256(n)
  {
    var c := Chunk(rom, pos, n);
    LittleEndianBound(c);
    PowMonotone(|c|, n);
  }

  lemma {:induction false} PowMonotone(a: nat, b: nat)
    requires a <= b
    ensures Pow256(a) <= Pow256(b)
    decreases b
  {
    if a < b { PowMonotone(a, b - 1); }
  }

  /** A read at position pos < |rom| consumes at least one byte. */
  lemma ReadAdvances(rom: seq<Byte>, pos: nat, n: nat)
    requires pos < |rom| && n >= 1
    ensures pos < After(rom, pos, n) <= pos + n
  {
  }

  /** The byte a one-byte read yields at `pos`: the ROM byte, or 0 at or past the end. */
  function ByteAt(rom: seq<Byte>, pos: int): (b: Byte)
    ensures 0 <= pos < |rom| ==> b == rom[pos]
    ensures pos >= |rom| ==> b == 0
  {
    if 0 <= pos < |rom| then rom[pos] else 0
  }

  /** The n bytes from `pos` on, little-endian, with every byte past the end read as 0. */
  function WordAt(rom: seq<Byte>, pos: nat, n: nat): nat
    decreases n
  {
    if n == 0 then 0 else ByteAt(rom, pos) + 256 * WordAt(rom, pos + 1, n - 1)
  }

  /** The n bytes from `pos` on, with every byte past the end read as 0. */
  function Padded(rom: seq<Byte>, pos: nat, n: nat): (s: seq<Byte>)
    decreases n
    ensures |s| == n
    ensures forall i :: 0 <= i < n ==> s[i] == ByteAt(rom, pos + i)
  {
    if n == 0 then [] else [ByteAt(rom, pos)] + Padded(rom, pos + 1, n - 1)
  }

  /** Reading one more byte appends the byte at the end of the window. */
  lemma PaddedSnoc(rom: seq<Byte>, pos: nat, n: nat)
    ensures Padded(rom, pos, n + 1) == Padded(rom, pos, n) + [ByteAt(rom, pos + n)]
  {
    var s, t := Padded(rom, pos, n + 1), Padded(rom, pos, n) + [ByteAt(rom, pos + n)];
    assert forall i :: 0 <= i < n + 1 ==> s[i] == t[i];
  }

  lemma {:induction false} WordAtPastEnd(rom: seq<Byte>, pos: nat, n: nat)
    requires pos >= |rom|
    ensures WordAt(rom, pos, n) == 0
    decreases n
  {
    if n > 0 { WordAtPastEnd(rom, pos + 1, n - 1); }
  }

  lemma {:induction false} WordAtBound(rom: seq<Byte>, pos: nat, n: nat)
    ensures WordAt(rom, pos, n) < Pow256(n)
    decreases n
  {
    if n > 0 { WordAtBound(rom, pos + 1, n - 1); }
  }

  /**
   * A read of n bytes is the zero-padded little-endian word at `pos`: a read
   * cut short by the end of the ROM yields what padding with zeros would.
   */
  lemma {:induction false} ReadLEIsWordAt(rom: seq<Byte>, pos: nat, n: nat)
    ensures ReadLE(rom, pos, n) == WordAt(rom, pos, n)
    decreases n
  {
    if pos >= |rom| {
      WordAtPastEnd(rom, pos, n);
    } else if n > 0 {
      var c := Chunk(rom, pos, n);
      ReadLEIsWordAt(rom, pos + 1, n - 1);
      assert c[0] == rom[pos];
      assert c[1..] == Chunk(rom, pos + 1, n - 1);
    }
  }

  /**
   * Consecutive reads: after reading a bytes from p, a read of b bytes yields
   * the word at p + a and leaves the head where one read of a + b would.
   */
  lemma SequentialReads(rom: seq<Byte>, p: nat, a: nat, b: nat)
    ensures After(rom, After(rom, p, a), b) == After(rom, p, a + b)
    ensures ReadLE(rom, After(rom, p, a), b) == WordAt(rom, p + a, b)
    ensures WordAt(rom, After(rom, p, a), b) == WordAt(rom, p + a, b)
  {
    var q := After(rom, p, a);
    ReadLEIsWordAt(rom, q, b);
    if p + a >= |rom| && q >= |rom| {
      WordAtPastEnd(rom, q, b);
      WordAtPastEnd(rom, p + a, b);
    }
  }

  /** A one-byte word is the byte itself. */
  lemma WordAtOne(rom: seq<Byte>, pos: nat)
    ensures WordAt(rom, pos, 1) == ByteAt(rom, pos)
  {
    assert WordAt(rom, pos + 1, 0) == 0;
  }

  /** `int.to_bytes(n, 'little')` of a value below 256^n. */
  function ToBytesLE(v: nat, n: nat): (s: seq<Byte>)
    ensures |s| == n
    decreases n
  {
    if n == 0 then [] else [v % 256] + ToBytesLE(v / 256, n - 1)
  }

  /** Re-encoding a read word as n bytes gives back the zero-padded bytes that were read. */
  lemma {:induction false} ToBytesOfWordAt(rom: seq<Byte>, pos: nat, n: nat)
    ensures ToBytesLE(WordAt(rom, pos, n), n) == Padded(rom, pos, n)
    decreases n
  {
    if n > 0 {
      var w := WordAt(rom, pos + 1, n - 1);
      assert WordAt(rom, pos, n) % 256 == ByteAt(rom, pos);
      assert WordAt(rom, pos, n) / 256 == w;
      ToBytesOfWordAt(rom, pos + 1, n - 1);
      assert Padded(rom, pos, n) == [ByteAt(rom, pos)] + Padded(rom, pos + 1, n - 1);
    }
  }

  /** Bytes written by `ToBytesLE` read back as the value they encode. */
  lemma {:induction false} WordAtOfToBytes(rom: seq<Byte>, pos: nat, v: nat, n: nat)
    requires pos + n <= |rom| && rom[pos..pos + n] == ToBytesLE(v, n)
    requires v < Pow256(n)
    ensures WordAt(rom, pos, n) == v
    decreases n
  {
    if n > 0 {
      assert rom[pos] == ToBytesLE(v, n)[0] == v % 256;
      assert rom[pos + 1..pos + n] == rom[pos..pos + n][1..];
      WordAtOfToBytes(rom, pos + 1, v / 256, n - 1);
    }
  }

  /**
   * `to_address` / `gba_ptr_to_addr` / `gba_rom_pointer_to_offset`: a GBA
   * cartridge pointer 0x08000000..0x09FFFFFF becomes a ROM offset; every
   * other value becomes -1.
   */
  function ToAddress(ptr: int): (r: int)
    ensures r == -1 || 0 <= r < 0x200_0000
  {
    if ptr < 0x800_0000 || ptr > 0x9FF_FFFF then -1 else ptr - 0x800_0000
  }

  /** The conversion is a bijection between the cartridge window and the 32 MiB of offsets. */
  lemma ToAddressRoundTrip(ptr: int, offset: int)
    ensures ToAddress(ptr) != -1 <==> 0x800_0000 <= ptr <= 0x9FF_FFFF
    ensures 0 <= offset < 0x200_0000 ==> ToAddress(offset + 0x800_0000) == offset
    ensures ToAddress(ptr) != -1 ==> ToAddress(ptr) + 0x800_0000 == ptr
  {
  }

  /** `-(d & 128) + (d & ~128)`: the byte read as two's complement. */
  function SignedByte(d: Byte): (r: int)
    ensures -128 <= r <= 127
    ensures r == d || r == d - 256
  {
    var high := if d >= 0x80 then 0x80 else 0;
    -high + (d - high)
  }

  /** Sign extension agrees with the byte modulo 256 and keeps 0..0x7F as they are. */
  lemma SignedByteModulo(d: Byte)
    ensures SignedByte(d) % 256 == d
    ensures SignedByte(d) < 0 <==> d >= 0x80
  {
  }
}
