/**
 * `GBARom` (sappy/rom.py): a read head over the ROM bytes, the voice-table
 * decoders, DirectSound sample headers and the song-table signature search.
 *
 * Each reader is a method that moves the head as the source's file reads
 * do, and is proved equal to a decoder function over the bytes; the
 * properties of the decoders are lemmas.
 */
module Rom {
  import opened Wrappers
  import opened RomBytes
  import Voices

  /** An `address` argument the setter turns into a negative seek (an `OSError`). */
  predicate Refused(a: Option<int>) { a.Some? && a.value < 0 }

  /** Where a read with an optional `address` argument starts. */
  function Start(a: Option<int>, current: nat): nat
    requires !Refused(a)
  {
    if a.Some? then a.value else current
  }

  // ---------------------------------------------------------------------
  // Voice entries: 12 bytes each

  /** `read_square1`: bytes 1-4 and 8-11 of the entry. */
  function DecodeSquare1(rom: seq<Byte>, p: nat): Result<Voices.Voice>
  {
    Voices.NewSquare1(ByteAt(rom, p + 1), ByteAt(rom, p + 2), ByteAt(rom, p + 3), ByteAt(rom, p + 4),
                      ByteAt(rom, p + 8), ByteAt(rom, p + 9), ByteAt(rom, p + 10), ByteAt(rom, p + 11))
  }

  /** `read_square2`: bytes 1, 2, 4 and 8-11 of the entry. */
  function DecodeSquare2(rom: seq<Byte>, p: nat): Result<Voices.Voice>
  {
    Voices.NewSquare2(ByteAt(rom, p + 1), ByteAt(rom, p + 2), ByteAt(rom, p + 4),
                      ByteAt(rom, p + 8), ByteAt(rom, p + 9), ByteAt(rom, p + 10), ByteAt(rom, p + 11))
  }

  /** `read_noise`: bytes 1, 2, 4 and 8-11 of the entry. */
  function DecodeNoise(rom: seq<Byte>, p: nat): Result<Voices.Voice>
  {
    Voices.NewNoise(ByteAt(rom, p + 1), ByteAt(rom, p + 2), ByteAt(rom, p + 4),
                    ByteAt(rom, p + 8), ByteAt(rom, p + 9), ByteAt(rom, p + 10), ByteAt(rom, p + 11))
  }

  /** `read_waveform`: bytes 1 and 2, the word at 4 and bytes 8-11. */
  function DecodeWaveform(rom: seq<Byte>, p: nat): Result<Voices.Voice>
  {
    Voices.NewWaveform(ByteAt(rom, p + 1), ByteAt(rom, p + 2), WordAt(rom, p + 4, 4),
                       ByteAt(rom, p + 8), ByteAt(rom, p + 9), ByteAt(rom, p + 10), ByteAt(rom, p + 11))
  }

  /** `read_directsound`: bytes 0, 1 and 3, the word at 4 and bytes 8-11. */
  function DecodeDirectSound(rom: seq<Byte>, p: nat): Result<Voices.Voice>
  {
    Voices.NewDirectSound(ByteAt(rom, p), ByteAt(rom, p + 1), ByteAt(rom, p + 3), WordAt(rom, p + 4, 4),
                          ByteAt(rom, p + 8), ByteAt(rom, p + 9), ByteAt(rom, p + 10), ByteAt(rom, p + 11))
  }

  /** Changing a byte outside a word leaves the word as it was. */
  lemma {:induction false} WordAtUnchanged(rom: seq<Byte>, q: nat, n: nat, j: nat, b: Byte)
    requires j < |rom| && (j < q || q + n <= j)
    ensures WordAt(rom[j := b], q, n) == WordAt(rom, q, n)
    decreases n
  {
    if n > 0 {
      WordAtUnchanged(rom, q + 1, n - 1, j, b);
    }
  }

  /**
   * Each decoder reads only the bytes its layout names: overwriting any other
   * byte of the 12-byte entry leaves the decoded voice as it was.
   */
  lemma DecodersIgnoreUnusedBytes(rom: seq<Byte>, p: nat, i: nat, b: Byte)
    requires i < 12 && p + i < |rom|
    ensures i in {0, 5, 6, 7} ==> DecodeSquare1(rom[p + i := b], p) == DecodeSquare1(rom, p)
    ensures i in {0, 3, 5, 6, 7} ==> DecodeSquare2(rom[p + i := b], p) == DecodeSquare2(rom, p)
    ensures i in {0, 3, 5, 6, 7} ==> DecodeNoise(rom[p + i := b], p) == DecodeNoise(rom, p)
    ensures i in {0, 3} ==> DecodeWaveform(rom[p + i := b], p) == DecodeWaveform(rom, p)
    ensures i == 2 ==> DecodeDirectSound(rom[p + i := b], p) == DecodeDirectSound(rom, p)
  {
    if i !in {4, 5, 6, 7} {
      WordAtUnchanged(rom, p + 4, 4, p + i, b);
    }
  }

  /** How many bytes `read_voice` consumes for an entry of the given mode byte. */
  function VoiceReadLength(mode: int): nat
  {
    if mode in {0x0, 0x8, 0x1, 0x9, 0x2, 0xA, 0x3, 0xB, 0x4, 0xC} then 12 else 0
  }

  /**
   * `read_voice(ptr)`: dispatch on the mode byte; modes 0x8-0xC decode like
   * 0x0-0x4, and any other mode yields no voice.
   */
  function ReadVoiceAt(rom: seq<Byte>, ptr: int): (r: Result<Option<Voices.Voice>>)
    ensures ptr < 0 <==> r == Err(OsError)
    ensures r.Err? ==> r.error in {OsError, InvalidArgument}
  {
    if ptr < 0 then Err(OsError)
    else
      var mode := ByteAt(rom, ptr);
      var v :=
        if mode in {0x0, 0x8} then DecodeDirectSound(rom, ptr)
        else if mode in {0x1, 0x9} then DecodeSquare1(rom, ptr)
        else if mode in {0x2, 0xA} then DecodeSquare2(rom, ptr)
        else if mode in {0x3, 0xB} then DecodeWaveform(rom, ptr)
        else if mode in {0x4, 0xC} then DecodeNoise(rom, ptr)
        else Ok(Voices.Drum(map[]));
      if !(mode in {0x0, 0x8, 0x1, 0x9, 0x2, 0xA, 0x3, 0xB, 0x4, 0xC}) then Ok(None)
      else match v
        case Err(e) => Err(e)
        case Ok(voice) => Ok(Some(voice))
  }

  /** The drum table of keys 0..n-1 of a percussion voice whose entries start at `tbl`. */
  function DrumTable(rom: seq<Byte>, tbl: int, n: nat): Result<map<int, Voices.Voice>>
    decreases n
  {
    if n == 0 then Ok(map[])
    else match DrumTable(rom, tbl, n - 1)
      case Err(e) => Err(e)
      case Ok(t) =>
        match ReadVoiceAt(rom, ToAddress(tbl + (n - 1) * 12))
        case Err(e) => Err(e)
        case Ok(None) => Ok(t)
        case Ok(Some(v)) => Ok(t[n - 1 := v])
  }

  /** A drum table holds exactly the keys below n whose sub-voice decodes to something. */
  lemma {:induction false} DrumTableKeys(rom: seq<Byte>, tbl: int, n: nat)
    requires DrumTable(rom, tbl, n).Ok?
    ensures forall k ::
      k in DrumTable(rom, tbl, n).value <==>
        0 <= k < n && ReadVoiceAt(rom, ToAddress(tbl + k * 12)) != Ok(None)
    decreases n
  {
    if n > 0 {
      var t := DrumTable(rom, tbl, n - 1).value;
      var rv := ReadVoiceAt(rom, ToAddress(tbl + (n - 1) * 12));
      DrumTableStep(rom, tbl, n - 1, t, rv);
      DrumTableKeys(rom, tbl, n - 1);
      var t' := DrumTable(rom, tbl, n).value;
      forall k
        ensures k in t' <==> 0 <= k < n && ReadVoiceAt(rom, ToAddress(tbl + k * 12)) != Ok(None)
      {
        if k == n - 1 {
          assert ReadVoiceAt(rom, ToAddress(tbl + k * 12)) == rv;
        } else {
          assert k in t' <==> k in t;
        }
      }
    }
  }

  /** Each key of a drum table is mapped to the sub-voice its slot decodes to. */
  lemma {:induction false} DrumTableValues(rom: seq<Byte>, tbl: int, n: nat)
    requires DrumTable(rom, tbl, n).Ok?
    ensures forall k :: k in DrumTable(rom, tbl, n).value ==>
      ReadVoiceAt(rom, ToAddress(tbl + k * 12)) == Ok(Some(DrumTable(rom, tbl, n).value[k]))
    decreases n
  {
    if n > 0 {
      var t := DrumTable(rom, tbl, n - 1).value;
      var rv := ReadVoiceAt(rom, ToAddress(tbl + (n - 1) * 12));
      DrumTableStep(rom, tbl, n - 1, t, rv);
      DrumTableValues(rom, tbl, n - 1);
    }
  }

  /**
   * The voice and key maps of a key-zone voice over keys 0..n-1: key k uses
   * the sub-voice of table slot `keys[k]`; a key whose sub-voice decodes to
   * nothing is left out of both maps.
   */
  function KeyZoneTables(rom: seq<Byte>, tbl: int, keys: seq<Byte>, n: nat)
    : Result<(map<int, Voices.Voice>, map<int, int>)>
    requires n <= |keys|
    decreases n
  {
    if n == 0 then Ok((map[], map[]))
    else match KeyZoneTables(rom, tbl, keys, n - 1)
      case Err(e) => Err(e)
      case Ok(t) =>
        var vk: int := keys[n - 1];
        match ReadVoiceAt(rom, ToAddress(tbl + vk * 12))
        case Err(e) => Err(e)
        case Ok(None) => Ok(t)
        case Ok(Some(v)) => Ok((t.0[vk := v], t.1[n - 1 := vk]))
  }

  /**
   * The key map sends exactly the keys whose sub-voice decodes to their
   * keymap byte, and every mapped slot has its voice in the voice table.
   */
  lemma {:induction false} KeyZoneKeymap(rom: seq<Byte>, tbl: int, keys: seq<Byte>, n: nat)
    requires n <= |keys| && KeyZoneTables(rom, tbl, keys, n).Ok?
    ensures var (vt, km) := KeyZoneTables(rom, tbl, keys, n).value;
      && (forall k :: k in km <==> 0 <= k < n && ReadVoiceAt(rom, ToAddress(tbl + (keys[k] as int) * 12)) != Ok(None))
      && (forall k :: k in km ==> km[k] == keys[k] && km[k] in vt)
      && (forall k :: k in km ==> ReadVoiceAt(rom, ToAddress(tbl + (keys[k] as int) * 12)) == Ok(Some(vt[km[k]])))
    decreases n
  {
    if n > 0 {
      KeyZoneKeymap(rom, tbl, keys, n - 1);
      var t := KeyZoneTables(rom, tbl, keys, n - 1).value;
      var vk: int := keys[n - 1];
      var rv := ReadVoiceAt(rom, ToAddress(tbl + vk * 12));
      assert rv.Ok?;
      if rv.value.Some? {
        assert KeyZoneTables(rom, tbl, keys, n).value == (t.0[vk := rv.value.value], t.1[n - 1 := vk]);
      } else {
        assert KeyZoneTables(rom, tbl, keys, n).value == t;
      }
    }
  }

  /** The 128 keymap bytes of a key-zone voice. */
  function KeymapBytes(rom: seq<Byte>, kp: nat): (keys: seq<Byte>)
    ensures |keys| == 128
  {
    Padded(rom, kp, 128)
  }

  /** A percussion entry at vp: a drum table over all 128 keys from the word at vp + 4. */
  function DrumVoiceAt(rom: seq<Byte>, vp: nat): Result<Option<Voices.Voice>>
  {
    match DrumTable(rom, WordAt(rom, vp + 4, 4), 128)
    case Err(e) => Err(e)
    case Ok(t) => Ok(Some(Voices.Drum(t)))
  }

  /**
   * A key-zone entry at vp: sub-voices from the word at vp + 4, and the key
   * map from the 128 bytes the pointer at vp + 8 points to.
   */
  function KeyZoneVoiceAt(rom: seq<Byte>, vp: nat): Result<Option<Voices.Voice>>
  {
    var kp := ToAddress(WordAt(rom, vp + 8, 4));
    if kp < 0 then Err(OsError)
    else match KeyZoneTables(rom, WordAt(rom, vp + 4, 4), KeymapBytes(rom, kp), 128)
      case Err(e) => Err(e)
      case Ok(t) => Ok(Some(Voices.KeyZoneVoice(t.0, t.1)))
  }

  /** `load_voice(table_ptr, voice_id)`: percussion, key-zone, or a single voice. */
  function LoadVoiceAt(rom: seq<Byte>, tablePtr: int, voiceId: int): Result<Option<Voices.Voice>>
  {
    var vp := tablePtr + voiceId * 12;
    if vp < 0 then Err(OsError)
    else
      var voiceType := ByteAt(rom, vp);
      if voiceType == 0x80 then DrumVoiceAt(rom, vp)
      else if voiceType == 0x40 then KeyZoneVoiceAt(rom, vp)
      else ReadVoiceAt(rom, vp)
  }

  // ---------------------------------------------------------------------
  // DirectSound sample headers

  /**
   * `read_directsound_sample` at p: three zero bytes, the loop byte, then
   * frequency, loop start and size as 4-byte words, then `size` data bytes.
   */
  function DecodeDirectSoundSample(rom: seq<Byte>, p: nat): Option<Voices.Sample>
  {
    if ByteAt(rom, p) != 0 || ByteAt(rom, p + 1) != 0 || ByteAt(rom, p + 2) != 0 then None
    else
      var size := WordAt(rom, p + 12, 4);
      var (sample, valid) := Voices.NewDirectSoundSample(
        ByteAt(rom, p + 3), WordAt(rom, p + 4, 4), WordAt(rom, p + 8, 4), Padded(rom, p + 16, size));
      if valid then Some(sample) else None
  }

  /** The bytes of a DirectSound sample header followed by its data. */
  function EncodeDirectSoundSample(looped: Byte, frequency: nat, loopStart: nat, data: seq<Byte>): seq<Byte>
    requires frequency < 0x1_0000_0000 && loopStart < 0x1_0000_0000 && |data| < 0x1_0000_0000
  {
    [0, 0, 0, looped] + ToBytesLE(frequency, 4) + ToBytesLE(loopStart, 4) + ToBytesLE(|data|, 4) + data
  }

  /**
   * Decoding an encoded sample gives the sample `M4ADirectSoundSample`
   * builds, when that sample is valid, and nothing otherwise.
   */
  lemma DirectSoundSampleRoundTrip(looped: Byte, frequency: nat, loopStart: nat, data: seq<Byte>, tail: seq<Byte>)
    requires frequency < 0x1_0000_0000 && loopStart < 0x1_0000_0000 && |data| < 0x1_0000_0000
    ensures var rom := EncodeDirectSoundSample(looped, frequency, loopStart, data) + tail;
            var built := Voices.NewDirectSoundSample(looped, frequency, loopStart, data);
            DecodeDirectSoundSample(rom, 0) == if built.1 then Some(built.0) else None
  {
    var rom := EncodeDirectSoundSample(looped, frequency, loopStart, data) + tail;
    assert Pow256(4) == 0x1_0000_0000;
    assert rom[4..8] == ToBytesLE(frequency, 4);
    assert rom[8..12] == ToBytesLE(loopStart, 4);
    assert rom[12..16] == ToBytesLE(|data|, 4);
    WordAtOfToBytes(rom, 4, frequency, 4);
    WordAtOfToBytes(rom, 8, loopStart, 4);
    WordAtOfToBytes(rom, 12, |data|, 4);
    assert Padded(rom, 16, |data|) == data by {
      forall i | 0 <= i < |data| ensures Padded(rom, 16, |data|)[i] == data[i] {
        assert rom[16 + i] == data[i];
      }
    }
  }

  // ---------------------------------------------------------------------
  // Song-table search

  const EndCmd: nat := 0x4700_BC01
  const M4aMain: seq<nat> := [0x1840_0B40, 0x0059_8883, 0x0089_18C9, 0x680A_1889, 0x1C10_6801]
  const AmtMain: seq<nat> := [0x1840_0B40, 0x0051_8882, 0x0089_1889, 0x680A_18C9, 0x1C10_6801]
  const BmxMain: seq<nat> := [0x4008_2002, 0xD002_2800, 0x4282_6918, 0x1C20_D003, 0xF001_2100]

  /** The signature `get_song_table` looks for, chosen by the first three letters of the game code. */
  function MainSignature(code: seq<Byte>): (t: seq<nat>)
    ensures |t| == 5
  {
    var prefix := code[..Min(3, |code|)];
    if prefix == [0x41, 0x4D, 0x54] then AmtMain        // "AMT"
    else if prefix == [0x42, 0x4D, 0x58] then BmxMain   // "BMX"
    else M4aMain
  }

  /** The ROM as the 32-bit little-endian words `array('I').fromfile` reads. */
  function Words(rom: seq<Byte>): (w: seq<nat>)
    ensures |w| == |rom| / 4
    ensures forall i :: 0 <= i < |w| ==> w[i] == WordAt(rom, 4 * i, 4)
  {
    seq(|rom| / 4, i requires 0 <= i < |rom| / 4 => WordAt(rom, 4 * i, 4))
  }

  /** A candidate index: signature, end code at +6, and a pointer at +8 into the ROM. */
  predicate Accepted(words: seq<nat>, table: seq<nat>, size: nat, j: nat)
  {
    && j + 8 < |words| && words[j..j + 5] == table && words[j + 6] == EndCmd
    && ToAddress(words[j + 8]) != -1 && ToAddress(words[j + 8]) <= size
  }

  /**
   * The `while True` loop of `get_song_table` from `index`: the next
   * occurrence of the first signature word, an `IndexError` when the end
   * code's slot is past the end, and -1 when the word occurs no more.
   */
  function SongTableFrom(words: seq<nat>, table: seq<nat>, size: nat, index: nat): (r: Result<int>)
    requires |table| == 5
    ensures r.Err? ==> r.error == IndexError
    decreases |words| - index
  {
    if index >= |words| then Ok(-1)
    else if words[index] != table[0] then SongTableFrom(words, table, size, index + 1)
    else if index + 6 >= |words| then Err(IndexError)
    else if words[index + 6] != EndCmd then SongTableFrom(words, table, size, index + 1)
    else if words[index..index + 5] != table then SongTableFrom(words, table, size, index + 1)
    else if index + 8 >= |words| then Err(IndexError)
    else
      var ptr := ToAddress(words[index + 8]);
      if ptr != -1 && ptr <= size then Ok(ptr) else SongTableFrom(words, table, size, index + 1)
  }

  /**
   * A found table is the pointer of the first accepted candidate at or after
   * `index`; -1 means no candidate from `index` on is accepted.
   */
  lemma {:induction false} SongTableFirstMatch(words: seq<nat>, table: seq<nat>, size: nat, index: nat)
    returns (j: nat)
    requires |table| == 5 && SongTableFrom(words, table, size, index).Ok?
    ensures SongTableFrom(words, table, size, index).value == -1 ==>
              forall i :: index <= i ==> !Accepted(words, table, size, i)
    ensures SongTableFrom(words, table, size, index).value != -1 ==>
              && index <= j && Accepted(words, table, size, j)
              && SongTableFrom(words, table, size, index).value == ToAddress(words[j + 8])
              && forall i :: index <= i < j ==> !Accepted(words, table, size, i)
    decreases |words| - index
  {
    if index >= |words| {
      return index;
    }
    if words[index] != table[0] {
      assert !Accepted(words, table, size, index) by {
        if index + 5 <= |words| {
          assert words[index..index + 5][0] == words[index];
        }
      }
      j := SongTableFirstMatch(words, table, size, index + 1);
    } else if words[index + 6] != EndCmd || words[index..index + 5] != table
              || !(ToAddress(words[index + 8]) != -1 && ToAddress(words[index + 8]) <= size) {
      j := SongTableFirstMatch(words, table, size, index + 1);
    } else {
      j := index;
    }
  }

  class GbaRom {
    const data: seq<Byte>
    /** The four production-code bytes at 0xAC. */
    const code: seq<Byte>
    /** The twelve title bytes at 0xA0. */
    const name: seq<Byte>
    /** The read head: `tell()` of the underlying file. */
    var address: nat

    /** Opens the ROM: reads the code and name, then rewinds. */
    constructor (rom: seq<Byte>)
      ensures data == rom && code == Chunk(rom, 0xAC, 4) && name == Chunk(rom, 0xA0, 12)
      ensures address == 0
    {
      data := rom;
      code := Chunk(rom, 0xAC, 4);
      name := Chunk(rom, 0xA0, 12);
      address := 0;
    }

    /** `reset`: the head back at the start. */
    method Reset()
      modifies this
      ensures address == 0
    {
      address := 0;
    }

    /** The `address` setter: `None` leaves the head; any other value is a `seek`. */
    method Seek(a: Option<int>) returns (ok: bool)
      modifies this
      ensures ok <==> !Refused(a)
      ensures ok ==> address == Start(a, old(address))
      ensures !ok ==> address == old(address)
    {
      if a.None? {
        return true;
      }
      if a.value < 0 {
        return false;
      }
      address := a.value;
      return true;
    }

    /** `file.read(size)` at the head, as a little-endian integer. */
    method ReadNext(size: nat) returns (v: nat)
      modifies this
      ensures v == WordAt(data, old(address), size)
      ensures address == After(data, old(address), size)
    {
      ReadLEIsWordAt(data, address, size);
      v := ReadLE(data, address, size);
      address := After(data, address, size);
    }

    /** `read(address, size)`. */
    method Read(a: Option<int>, size: nat) returns (r: Result<nat>)
      modifies this
      ensures Refused(a) ==> r == Err(OsError) && address == old(address)
      ensures !Refused(a) ==> r == Ok(WordAt(data, Start(a, old(address)), size))
                              && address == After(data, Start(a, old(address)), size)
    {
      var ok := Seek(a);
      if !ok {
        return Err(OsError);
      }
      var v := ReadNext(size);
      return Ok(v);
    }

    /** `read_signed`: the byte as two's complement. */
    method ReadSigned(a: Option<int>) returns (r: Result<int>)
      modifies this
      ensures Refused(a) ==> r == Err(OsError)
      ensures !Refused(a) ==> r == Ok(SignedByte(ByteAt(data, Start(a, old(address)))))
                              && address == After(data, Start(a, old(address)), 1)
    {
      var d := Read(a, 1);
      if d.Err? {
        return Err(d.error);
      }
      WordAtOne(data, Start(a, old(address)));
      return Ok(SignedByte(d.value));
    }

    /** `read_dword`: a 4-byte little-endian word. */
    method ReadDword(a: Option<int>) returns (r: Result<nat>)
      modifies this
      ensures Refused(a) ==> r == Err(OsError)
      ensures !Refused(a) ==> r == Ok(WordAt(data, Start(a, old(address)), 4))
                              && r.value < 0x1_0000_0000
                              && address == After(data, Start(a, old(address)), 4)
    {
      if !Refused(a) {
        WordAtBound(data, Start(a, address), 4);
      }
      r := Read(a, 4);
    }

    /** `read_gba_ptr`: a 4-byte word converted by `to_address`. */
    method ReadGbaPtr(a: Option<int>) returns (r: Result<int>)
      modifies this
      ensures Refused(a) ==> r == Err(OsError)
      ensures !Refused(a) ==> r == Ok(ToAddress(WordAt(data, Start(a, old(address)), 4)))
                              && address == After(data, Start(a, old(address)), 4)
    {
      var d := Read(a, 4);
      if d.Err? {
        return Err(d.error);
      }
      return Ok(ToAddress(d.value));
    }

    /** `peek`: one byte, with the head put back where it was. */
    method Peek(a: Option<int>) returns (r: Result<Byte>)
      modifies this
      ensures Refused(a) ==> r == Err(OsError)
      ensures !Refused(a) ==> r == Ok(ByteAt(data, Start(a, old(address))))
      ensures address == old(address)
    {
      var prev := address;
      var d := Read(a, 1);
      if d.Err? {
        return Err(d.error);
      }
      WordAtOne(data, Start(a, old(address)));
      var _ := Seek(Some(prev));
      return Ok(d.value);
    }

    /** `[self.read() for _ in range(n)]`. */
    method ReadBytes(n: nat) returns (bytes: seq<Byte>)
      modifies this
      ensures bytes == Padded(data, old(address), n)
      ensures address == After(data, old(address), n)
    {
      ghost var p := address;
      bytes := [];
      var i := 0;
      while i < n
        invariant 0 <= i <= n
        invariant address == After(data, p, i)
        invariant bytes == Padded(data, p, i)
      {
        var b := ReadByteAt(p, i);
        PaddedSnoc(data, p, i);
        bytes := bytes + [b];
        i := i + 1;
      }
    }

    /** The i-th single-byte read from p. */
    method ReadByteAt(ghost p: nat, i: nat) returns (b: Byte)
      requires address == After(data, p, i)
      modifies this
      ensures b == ByteAt(data, p + i) && address == After(data, p, i + 1)
    {
      SequentialReads(data, p, i, 1);
      WordAtOne(data, p + i);
      var v := ReadNext(1);
      b := v as Byte;
    }

    /** Field i of the nine-field layout, read where the earlier fields left the head. */
    method ReadFieldAt(ghost p: nat, i: nat) returns (v: nat)
      requires i < 9 && address == After(data, p, FieldOffset(i))
      modifies this
      ensures v == FieldValue(data, p, i) && address == After(data, p, FieldOffset(i + 1))
    {
      if i != 4 {
        SequentialReads(data, p, FieldOffset(i), 1);
        WordAtOne(data, p + FieldOffset(i));
        v := ReadNext(1);
      } else {
        SequentialReads(data, p, 4, 4);
        v := ReadNext(4);
      }
    }

    /** The nine fields of a 12-byte PSG entry: bytes 0..4 (the word at 4..7 for a waveform) and 8..11. */
    method ReadFields() returns (f: seq<nat>)
      modifies this
      ensures |f| == 9 && forall j :: 0 <= j < 9 ==> f[j] == FieldValue(data, old(address), j)
      ensures address == After(data, old(address), 12)
    {
      ghost var p := address;
      f := [];
      var i := 0;
      while i < 9
        invariant 0 <= i <= 9 && |f| == i
        invariant address == After(data, p, FieldOffset(i))
        invariant forall j :: 0 <= j < i ==> f[j] == FieldValue(data, p, j)
      {
        var v := ReadFieldAt(p, i);
        f := f + [v];
        i := i + 1;
      }
    }

    /** `read_square1`. */
    method ReadSquare1(a: Option<int>) returns (r: Result<Voices.Voice>)
      modifies this
      ensures Refused(a) ==> r == Err(OsError)
      ensures !Refused(a) ==> r == DecodeSquare1(data, Start(a, old(address)))
                              && address == After(data, Start(a, old(address)), 12)
    {
      var ok := Seek(a);
      if !ok {
        return Err(OsError);
      }
      var d := ReadBytes(12);
      r := Voices.NewSquare1(d[1], d[2], d[3], d[4], d[8], d[9], d[10], d[11]);
    }

    /** `read_square2`. */
    method ReadSquare2(a: Option<int>) returns (r: Result<Voices.Voice>)
      modifies this
      ensures Refused(a) ==> r == Err(OsError)
      ensures !Refused(a) ==> r == DecodeSquare2(data, Start(a, old(address)))
                              && address == After(data, Start(a, old(address)), 12)
    {
      var ok := Seek(a);
      if !ok {
        return Err(OsError);
      }
      var d := ReadBytes(12);
      r := Voices.NewSquare2(d[1], d[2], d[4], d[8], d[9], d[10], d[11]);
    }

    /** `read_noise`. */
    method ReadNoise(a: Option<int>) returns (r: Result<Voices.Voice>)
      modifies this
      ensures Refused(a) ==> r == Err(OsError)
      ensures !Refused(a) ==> r == DecodeNoise(data, Start(a, old(address)))
                              && address == After(data, Start(a, old(address)), 12)
    {
      var ok := Seek(a);
      if !ok {
        return Err(OsError);
      }
      var d := ReadBytes(12);
      r := Voices.NewNoise(d[1], d[2], d[4], d[8], d[9], d[10], d[11]);
    }

    /** `read_waveform`. */
    method ReadWaveform(a: Option<int>) returns (r: Result<Voices.Voice>)
      modifies this
      ensures Refused(a) ==> r == Err(OsError)
      ensures !Refused(a) ==> r == DecodeWaveform(data, Start(a, old(address)))
                              && address == After(data, Start(a, old(address)), 12)
    {
      var ok := Seek(a);
      if !ok {
        return Err(OsError);
      }
      var f := ReadFields();
      assert FieldOffset(5) == 8 && FieldOffset(8) == 11;
      r := Voices.NewWaveform(f[1], f[2], f[4], f[5], f[6], f[7], f[8]);
    }

    /** `read_directsound`. */
    method ReadDirectSound(a: Option<int>) returns (r: Result<Voices.Voice>)
      modifies this
      ensures Refused(a) ==> r == Err(OsError)
      ensures !Refused(a) ==> r == DecodeDirectSound(data, Start(a, old(address)))
                              && address == After(data, Start(a, old(address)), 12)
    {
      var ok := Seek(a);
      if !ok {
        return Err(OsError);
      }
      var f := ReadFields();
      assert FieldOffset(5) == 8 && FieldOffset(8) == 11;
      r := Voices.NewDirectSound(f[0], f[1], f[3], f[4], f[5], f[6], f[7], f[8]);
    }

    /** `read_voice`. */
    method ReadVoice(voicePtr: int) returns (r: Result<Option<Voices.Voice>>)
      modifies this
      ensures r == ReadVoiceAt(data, voicePtr)
      ensures voicePtr >= 0 ==> address == After(data, voicePtr, VoiceReadLength(ByteAt(data, voicePtr)))
    {
      var m := Read(Some(voicePtr), 1);
      if m.Err? {
        return Err(m.error);
      }
      WordAtOne(data, voicePtr);
      var mode := m.value;
      var _ := Seek(Some(voicePtr));
      var v;
      if mode in {0x0, 0x8} {
        v := ReadDirectSound(None);
      } else if mode in {0x1, 0x9} {
        v := ReadSquare1(None);
      } else if mode in {0x2, 0xA} {
        v := ReadSquare2(None);
      } else if mode in {0x3, 0xB} {
        v := ReadWaveform(None);
      } else if mode in {0x4, 0xC} {
        v := ReadNoise(None);
      } else {
        return Ok(None);
      }
      if v.Err? {
        return Err(v.error);
      }
      return Ok(Some(v.value));
    }

    /** `load_voice(table_ptr, voice_id)`. */
    method LoadVoice(tablePtr: int, voiceId: int) returns (r: Result<Option<Voices.Voice>>)
      modifies this
      ensures r == LoadVoiceAt(data, tablePtr, voiceId)
    {
      var voicePtr := tablePtr + voiceId * 12;
      var t := Read(Some(voicePtr), 1);
      if t.Err? {
        return Err(t.error);
      }
      WordAtOne(data, voicePtr);
      var voiceType := t.value;
      if voiceType == 0x80 {
        r := LoadDrum(voicePtr);
      } else if voiceType == 0x40 {
        r := LoadKeyZone(voicePtr);
      } else {
        r := ReadVoice(voicePtr);
      }
    }

    /** The percussion branch of `load_voice`. */
    method LoadDrum(voicePtr: nat) returns (r: Result<Option<Voices.Voice>>)
      modifies this
      ensures r == DrumVoiceAt(data, voicePtr)
    {
      var w := Read(Some(voicePtr + 4), 4);
      var table := ReadDrumTable(w.value);
      if table.Err? {
        return Err(table.error);
      }
      return Ok(Some(Voices.Drum(table.value)));
    }

    /** The 128 sub-voices of a percussion voice, from the table at `tbl`. */
    method ReadDrumTable(tbl: int) returns (r: Result<map<int, Voices.Voice>>)
      modifies this
      ensures r == DrumTable(data, tbl, 128)
    {
      var table: map<int, Voices.Voice> := map[];
      for k := 0 to 128
        invariant DrumTable(data, tbl, k) == Ok(table)
      {
        var sub := ReadVoice(ToAddress(tbl + k * 12));
        DrumTableStep(data, tbl, k, table, sub);
        if sub.Err? {
          DrumTableErrorPersists(data, tbl, k + 1, 128);
          return Err(sub.error);
        }
        if sub.value.Some? {
          table := table[k := sub.value.value];
        }
      }
      return Ok(table);
    }

    /** The key-zone branch of `load_voice`. */
    method LoadKeyZone(voicePtr: nat) returns (r: Result<Option<Voices.Voice>>)
      modifies this
      ensures r == KeyZoneVoiceAt(data, voicePtr)
    {
      var w := Read(Some(voicePtr + 4), 4);
      var tbl := w.value;
      var kw := ReadNext(4);
      SequentialReads(data, voicePtr + 4, 4, 4);
      var keymapPtr := ToAddress(kw);
      var keys := ReadKeymap(keymapPtr);
      if keys.Err? {
        return Err(keys.error);
      }
      var tables := ReadKeyZoneTables(tbl, keys.value);
      if tables.Err? {
        return Err(tables.error);
      }
      return Ok(Some(Voices.KeyZoneVoice(tables.value.0, tables.value.1)));
    }

    /** The voice table and key map of a key-zone voice, for the 128 keymap bytes `keys`. */
    method ReadKeyZoneTables(tbl: int, keys: seq<Byte>) returns (r: Result<(map<int, Voices.Voice>, map<int, int>)>)
      requires |keys| == 128
      modifies this
      ensures r == KeyZoneTables(data, tbl, keys, 128)
    {
      var voiceTable: map<int, Voices.Voice> := map[];
      var keymap: map<int, int> := map[];
      for k := 0 to 128
        invariant KeyZoneTables(data, tbl, keys, k) == Ok((voiceTable, keymap))
      {
        var voiceKey: int := keys[k];
        var sub := ReadVoice(ToAddress(tbl + voiceKey * 12));
        KeyZoneStep(data, tbl, keys, k, voiceTable, keymap, sub);
        if sub.Err? {
          KeyZoneErrorPersists(data, tbl, keys, k + 1, 128);
          return Err(sub.error);
        }
        if sub.value.Some? {
          voiceTable := voiceTable[voiceKey := sub.value.value];
          keymap := keymap[k := voiceKey];
        }
      }
      return Ok((voiceTable, keymap));
    }

    /** `[self.read(keymap_ptr + midi_key) for midi_key in range(128)]`. */
    method ReadKeymap(keymapPtr: int) returns (r: Result<seq<Byte>>)
      modifies this
      ensures keymapPtr < 0 ==> r == Err(OsError)
      ensures keymapPtr >= 0 ==> r == Ok(KeymapBytes(data, keymapPtr))
    {
      var keys: seq<Byte> := [];
      for k := 0 to 128
        invariant keymapPtr < 0 ==> k == 0
        invariant keymapPtr >= 0 ==> keys == Padded(data, keymapPtr, k)
      {
        var b := Read(Some(keymapPtr + k), 1);
        if b.Err? {
          return Err(b.error);
        }
        WordAtOne(data, keymapPtr + k);
        assert Padded(data, keymapPtr, k + 1) == Padded(data, keymapPtr, k) + [ByteAt(data, keymapPtr + k)];
        keys := keys + [b.value];
      }
      return Ok(keys);
    }

    /** `read_directsound_sample`. */
    method ReadDirectSoundSample(a: Option<int>) returns (r: Result<Option<Voices.Sample>>)
      modifies this
      ensures Refused(a) ==> r == Err(OsError)
      ensures !Refused(a) ==> r == Ok(DecodeDirectSoundSample(data, Start(a, old(address))))
    {
      var ok := Seek(a);
      if !ok {
        return Err(OsError);
      }
      ghost var p := address;
      var buffer := ReadBytes(3);
      if buffer != [0, 0, 0] {
        return Ok(None);
      }
      var looped, frequency, loopStart, sampleData := ReadSampleFields(p);
      assert ByteAt(data, p) == 0 && ByteAt(data, p + 1) == 0 && ByteAt(data, p + 2) == 0 by {
        assert buffer[0] == 0 && buffer[1] == 0 && buffer[2] == 0;
      }
      var (sample, valid) := Voices.NewDirectSoundSample(looped, frequency, loopStart, sampleData);
      if !valid {
        return Ok(None);
      }
      return Ok(Some(sample));
    }

    /** The loop byte, the three header words and the data of a sample whose header starts at p. */
    method ReadSampleFields(ghost p: nat) returns (looped: Byte, frequency: nat, loopStart: nat, sampleData: seq<Byte>)
      requires address == After(data, p, 3)
      modifies this
      ensures looped == ByteAt(data, p + 3)
      ensures frequency == WordAt(data, p + 4, 4) && loopStart == WordAt(data, p + 8, 4)
      ensures sampleData == Padded(data, p + 16, WordAt(data, p + 12, 4))
    {
      var b := ReadField(p, 3, 1);
      WordAtOne(data, p + 3);
      looped := b;
      frequency := ReadField(p, 4, 4);
      loopStart := ReadField(p, 8, 4);
      var size := ReadField(p, 12, 4);
      var raw := ReadField(p, 16, size);
      ToBytesOfWordAt(data, p + 16, size);
      sampleData := ToBytesLE(raw, size);
    }

    /** The next read of n bytes, when the head stands where reading `offset` bytes from p left it. */
    method ReadField(ghost p: nat, ghost offset: nat, n: nat) returns (v: nat)
      requires address == After(data, p, offset)
      modifies this
      ensures v == WordAt(data, p + offset, n)
      ensures address == After(data, p, offset + n)
    {
      SequentialReads(data, p, offset, n);
      v := ReadNext(n);
    }

    /** `get_song_table`: the song-table address, or -1. */
    method GetSongTable() returns (r: Result<int>)
      modifies this
      ensures r == SongTableFrom(Words(data), MainSignature(code), |data|, 0)
      ensures address == 4 * (|data| / 4)
    {
      var table := MainSignature(code);
      address := 0;
      var thumbCodes := Words(data);
      address := 4 * (|data| / 4);
      var index := 0;
      while true
        invariant index <= |thumbCodes|
        invariant address == 4 * (|data| / 4)
        invariant SongTableFrom(thumbCodes, table, |data|, index) == SongTableFrom(thumbCodes, table, |data|, 0)
        decreases |thumbCodes| - index
      {
        SkipToIndex(thumbCodes, table, |data|, index);
        var found := IndexFrom(thumbCodes, table[0], index);
        if found.None? {
          return Ok(-1);
        }
        index := found.value;
        if index + 6 >= |thumbCodes| {
          return Err(IndexError);
        }
        if thumbCodes[index + 6] != EndCmd {
          index := index + 1;
          continue;
        }
        if thumbCodes[index..index + 5] != table {
          index := index + 1;
          continue;
        }
        if index + 8 >= |thumbCodes| {
          return Err(IndexError);
        }
        var ptr := ToAddress(thumbCodes[index + 8]);
        if ptr != -1 && ptr <= |data| {
          return Ok(ptr);
        }
        index := index + 1;
      }
    }
  }

  /** Offsets of the nine fields of a 12-byte entry read as eight bytes and one word. */
  function FieldOffset(i: nat): nat
  {
    if i <= 4 then i else i + 3
  }

  /** Field i of a nine-field entry at p: the word at 4 for i = 4, else the byte at its offset. */
  function FieldValue(rom: seq<Byte>, p: nat, i: nat): nat
  {
    if i == 4 then WordAt(rom, p + 4, 4) else ByteAt(rom, p + FieldOffset(i))
  }

  /** `tuple.index(x, start)`: the first position at or after `start` holding x. */
  function IndexFrom(s: seq<nat>, x: nat, start: nat): (r: Option<nat>)
    ensures r.Some? ==> start <= r.value < |s| && s[r.value] == x
    ensures r.Some? ==> forall i :: start <= i < r.value ==> s[i] != x
    ensures r.None? ==> forall i :: start <= i < |s| ==> s[i] != x
    decreases |s| - start
  {
    if start >= |s| then None
    else if s[start] == x then Some(start)
    else IndexFrom(s, x, start + 1)
  }

  lemma {:induction false} SkipToIndex(words: seq<nat>, table: seq<nat>, size: nat, start: nat)
    requires |table| == 5
    ensures IndexFrom(words, table[0], start).None? ==> SongTableFrom(words, table, size, start) == Ok(-1)
    ensures IndexFrom(words, table[0], start).Some? ==>
              SongTableFrom(words, table, size, start)
              == SongTableFrom(words, table, size, IndexFrom(words, table[0], start).value)
    decreases |words| - start
  {
    if start < |words| && words[start] != table[0] {
      SkipToIndex(words, table, size, start + 1);
    }
  }

  /** Once one key fails to decode, the drum table of every longer range fails the same way. */
  lemma {:induction false} DrumTableErrorPersists(rom: seq<Byte>, tbl: int, k: nat, n: nat)
    requires k <= n && DrumTable(rom, tbl, k).Err?
    ensures DrumTable(rom, tbl, n) == DrumTable(rom, tbl, k)
    decreases n
  {
    if k < n {
      DrumTableErrorPersists(rom, tbl, k, n - 1);
    }
  }

  /** One more key of a drum table: the table grows by the key's sub-voice, if it decodes to one. */
  lemma DrumTableStep(rom: seq<Byte>, tbl: int, k: nat, t: map<int, Voices.Voice>, sub: Result<Option<Voices.Voice>>)
    requires DrumTable(rom, tbl, k) == Ok(t) && sub == ReadVoiceAt(rom, ToAddress(tbl + k * 12))
    ensures sub.Err? ==> DrumTable(rom, tbl, k + 1) == Err(sub.error)
    ensures sub == Ok(None) ==> DrumTable(rom, tbl, k + 1) == Ok(t)
    ensures sub.Ok? && sub.value.Some? ==> DrumTable(rom, tbl, k + 1) == Ok(t[k := sub.value.value])
  {
  }

  /** One more key of a key-zone voice: both maps grow by the key's sub-voice, if it decodes to one. */
  lemma KeyZoneStep(rom: seq<Byte>, tbl: int, keys: seq<Byte>, k: nat, vt: map<int, Voices.Voice>, km: map<int, int>,
                    sub: Result<Option<Voices.Voice>>)
    requires k < |keys| && KeyZoneTables(rom, tbl, keys, k) == Ok((vt, km))
    requires sub == ReadVoiceAt(rom, ToAddress(tbl + (keys[k] as int) * 12))
    ensures sub.Err? ==> KeyZoneTables(rom, tbl, keys, k + 1) == Err(sub.error)
    ensures sub == Ok(None) ==> KeyZoneTables(rom, tbl, keys, k + 1) == Ok((vt, km))
    ensures sub.Ok? && sub.value.Some? ==>
      KeyZoneTables(rom, tbl, keys, k + 1) == Ok((vt[keys[k] as int := sub.value.value], km[k := keys[k] as int]))
  {
  }

  /** Once one key fails to decode, the key-zone tables of every longer range fail the same way. */
  lemma {:induction false} KeyZoneErrorPersists(rom: seq<Byte>, tbl: int, keys: seq<Byte>, k: nat, n: nat)
    requires k <= n <= |keys| && KeyZoneTables(rom, tbl, keys, k).Err?
    ensures KeyZoneTables(rom, tbl, keys, n) == KeyZoneTables(rom, tbl, keys, k)
    decreases n
  {
    if k < n {
      KeyZoneErrorPersists(rom, tbl, keys, k, n - 1);
    }
  }
}
