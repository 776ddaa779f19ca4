/**
 * The older ROM reader of sappy/romio.py. Its `address` property is a
 * remembered value, separate from the file position: the setter moves both,
 * and only to an address inside the file; the reads move only the file
 * position.
 */
module RomIo {
  import opened Wrappers
  import opened RomBytes
  import Rom
  import Voices

  /** The remembered `_address` and the file position of the read head. */
  datatype Head = Head(address: int, pos: nat)

  /** The `address` setter: a value inside the file moves both; any other value is ignored. */
  function SetAddress(size: nat, h: Head, addr: Option<int>): (h': Head)
    ensures addr.Some? && 0 <= addr.value < size ==> h' == Head(addr.value, addr.value)
    ensures !(addr.Some? && 0 <= addr.value < size) ==> h' == h
  {
    if addr.Some? && 0 <= addr.value < size then Head(addr.value, addr.value) else h
  }

  /** Setting an address twice is setting it once. */
  lemma SetAddressIdempotent(size: nat, h: Head, addr: Option<int>)
    ensures SetAddress(size, SetAddress(size, h, addr), addr) == SetAddress(size, h, addr)
  {
  }

  /** `SampleHeader`. */
  datatype SampleHeader = SampleHeader(isLooped: nat, frequency: nat, loop: nat, size: nat)

  /** `DirectSound`: all nine fields of the entry, the unused byte included. */
  datatype DirectSound = DirectSound(
    sampleMode: nat, midiKey: nat, unused: nat, panning: nat, samplePtr: nat,
    attack: nat, decay: nat, sustain: nat, release: nat)

  /** `PSGInstrument`. */
  datatype PsgInstrument = PsgInstrument(
    psgChannel: nat, midiKey: nat, timeLen: nat, sweep: nat, flag: nat,
    attack: nat, decay: nat, sustain: nat, release: nat)

  /** Where `read_sample` reads its header: after moving to `addr` and then three bytes on. */
  function SampleHead(size: nat, h: Head, addr: Option<int>): Head
  {
    var h1 := SetAddress(size, h, addr);
    SetAddress(size, h1, Some(h1.address + 3))
  }

  /** The header fields at file position q. */
  function SampleHeaderAt(rom: seq<Byte>, q: nat): SampleHeader
  {
    SampleHeader(ByteAt(rom, q), WordAt(rom, q + 1, 4), WordAt(rom, q + 5, 4), WordAt(rom, q + 9, 4))
  }

  /**
   * Given an address at least three bytes before the end, `read_sample`
   * skips the three unused bytes and reads the header behind them.
   */
  lemma ReadSampleSkipsThreeBytes(rom: seq<Byte>, h: Head, addr: int)
    requires 0 <= addr && addr + 3 < |rom|
    ensures SampleHead(|rom|, h, Some(addr)).pos == addr + 3
    ensures SampleHeaderAt(rom, SampleHead(|rom|, h, Some(addr)).pos)
            == SampleHeader(ByteAt(rom, addr + 3), WordAt(rom, addr + 4, 4),
                            WordAt(rom, addr + 8, 4), WordAt(rom, addr + 12, 4))
  {
  }

  /**
   * Within the last three bytes the skip is refused by the setter, so the
   * header is read at `addr` itself; and with no address the skip is taken
   * from the remembered address, not from where the last read stopped.
   */
  lemma ReadSampleSkipQuirks(rom: seq<Byte>, h: Head, addr: int)
    ensures 0 <= addr < |rom| <= addr + 3 ==> SampleHead(|rom|, h, Some(addr)).pos == addr
    ensures 0 <= h.address && h.address + 3 < |rom| ==> SampleHead(|rom|, h, None).pos == h.address + 3
  {
  }

  /** `read_psg_instrument` at file position q. */
  function PsgInstrumentAt(rom: seq<Byte>, q: nat, isWave: bool): PsgInstrument
  {
    if isWave then
      PsgInstrument(ByteAt(rom, q), ByteAt(rom, q + 1), ByteAt(rom, q + 2), ByteAt(rom, q + 3),
                    WordAt(rom, q + 4, 4),
                    ByteAt(rom, q + 8), ByteAt(rom, q + 9), ByteAt(rom, q + 10), ByteAt(rom, q + 11))
    else
      PsgInstrument(ByteAt(rom, q), ByteAt(rom, q + 1), ByteAt(rom, q + 2), ByteAt(rom, q + 3),
                    ByteAt(rom, q + 4),
                    ByteAt(rom, q + 8), ByteAt(rom, q + 9), ByteAt(rom, q + 10), ByteAt(rom, q + 11))
  }

  /** The two layouts agree except in the flag field: a word at 4 for waves, the byte at 4 otherwise. */
  lemma PsgLayoutsDifferOnlyInFlag(rom: seq<Byte>, q: nat)
    ensures PsgInstrumentAt(rom, q, true).(flag := 0) == PsgInstrumentAt(rom, q, false).(flag := 0)
    ensures PsgInstrumentAt(rom, q, true).flag % 256 == PsgInstrumentAt(rom, q, false).flag
  {
  }

  /** `read_directsound` at file position q: the nine fields, byte 2 kept. */
  function DirectSoundAt(rom: seq<Byte>, q: nat): DirectSound
  {
    DirectSound(ByteAt(rom, q), ByteAt(rom, q + 1), ByteAt(rom, q + 2), ByteAt(rom, q + 3),
                WordAt(rom, q + 4, 4),
                ByteAt(rom, q + 8), ByteAt(rom, q + 9), ByteAt(rom, q + 10), ByteAt(rom, q + 11))
  }

  /**
   * The fields `sappy/rom.py` builds a DirectSound voice from are exactly
   * this record's fields without the unused byte.
   */
  lemma DirectSoundMatchesVoiceDecoder(rom: seq<Byte>, q: nat)
    ensures var d := DirectSoundAt(rom, q);
      Rom.DecodeDirectSound(rom, q)
      == Voices.NewDirectSound(d.sampleMode, d.midiKey, d.panning, d.samplePtr,
                               d.attack, d.decay, d.sustain, d.release)
  {
  }

  // ---------------------------------------------------------------------
  // Song table

  const EndCode: nat := 0x4700_BC01
  const CodeTables: seq<seq<nat>> := [Rom.M4aMain, Rom.BmxMain, Rom.AmtMain]

  /** A signature window at `ci`: one of the three code tables, and the end code at +6. */
  predicate Candidate(words: seq<nat>, ci: nat)
    requires ci + 6 < |words|
  {
    words[ci..ci + 5] in CodeTables && words[ci + 6] == EndCode
  }

  /**
   * The `for code_ind` loop of `get_song_table(track)` from `ci`, with the
   * head `h`: each candidate's table pointer is checked by reading the entry
   * of song `track` through the address setter, which ignores addresses
   * outside the file and then reads wherever the head stands. The `code_ind
   * -= 7` of the source changes nothing, so the scan goes on at ci + 1.
   */
  function SongTableFrom(rom: seq<Byte>, words: seq<nat>, track: int, ci: nat, h: Head): (r: Result<int>)
    requires |words| == |rom| / 4
    ensures r.Err? ==> r.error == IndexError
    decreases |words| - ci
  {
    if ci + 6 >= |words| then Ok(-1)
    else if !Candidate(words, ci) then SongTableFrom(rom, words, track, ci + 1, h)
    else if ci + 8 >= |words| then Err(IndexError)
    else
      var ptr := ToAddress(words[ci + 8]);
      var h1 := SetAddress(|rom|, h, Some(ptr + track * 8));
      var entry := ToAddress(WordAt(rom, h1.pos, 4));
      if entry > |rom| then SongTableFrom(rom, words, track, ci + 1, Head(h1.address, After(rom, h1.pos, 4)))
      else Ok(ptr)
  }

  /** A returned table pointer other than -1 is the pointer word of a candidate window. */
  lemma {:induction false} SongTableIsCandidatePointer(rom: seq<Byte>, words: seq<nat>, track: int, ci: nat, h: Head)
    returns (j: nat)
    requires |words| == |rom| / 4
    requires SongTableFrom(rom, words, track, ci, h).Ok? && SongTableFrom(rom, words, track, ci, h).value != -1
    ensures ci <= j && j + 8 < |words| && Candidate(words, j)
    ensures SongTableFrom(rom, words, track, ci, h).value == ToAddress(words[j + 8])
    decreases |words| - ci
  {
    var r := SongTableFrom(rom, words, track, ci, h);
    assert ci + 6 < |words|;
    if !Candidate(words, ci) {
      assert r == SongTableFrom(rom, words, track, ci + 1, h);
      j := SongTableIsCandidatePointer(rom, words, track, ci + 1, h);
    } else {
      assert ci + 8 < |words|;
      var ptr := ToAddress(words[ci + 8]);
      var h1 := SetAddress(|rom|, h, Some(ptr + track * 8));
      if ToAddress(WordAt(rom, h1.pos, 4)) > |rom| {
        var h2 := Head(h1.address, After(rom, h1.pos, 4));
        assert r == SongTableFrom(rom, words, track, ci + 1, h2);
        j := SongTableIsCandidatePointer(rom, words, track, ci + 1, h2);
      } else {
        assert r == Ok(ptr);
        j := ci;
      }
    }
  }

  /** With no candidate window from `ci` on, the scan answers -1. */
  lemma {:induction false} SongTableNoCandidate(rom: seq<Byte>, words: seq<nat>, track: int, ci: nat, h: Head)
    requires |words| == |rom| / 4
    requires forall i :: ci <= i && i + 6 < |words| ==> !Candidate(words, i)
    ensures SongTableFrom(rom, words, track, ci, h) == Ok(-1)
    decreases |words| - ci
  {
    if ci + 6 < |words| {
      SongTableNoCandidate(rom, words, track, ci + 1, h);
    }
  }

  // ---------------------------------------------------------------------
  // Engine offset

  const SearchLen: nat := 30
  const OldSelect: seq<nat> := [
    0x00, 0xB5, 0x00, 0x04, 0x07, 0x4A, 0x08, 0x49, 0x40, 0x0B, 0x40, 0x18, 0x83, 0x88, 0x59, 0x00,
    0xC9, 0x18, 0x89, 0x00, 0x89, 0x18, 0x0A, 0x68, 0x01, 0x68, 0x10, 0x1C, 0x00, 0xF0]
  const NewSelect: seq<nat> := [
    0x00, 0xB5, 0x00, 0x04, 0x07, 0x4B, 0x08, 0x49, 0x40, 0x0B, 0x40, 0x18, 0x82, 0x88, 0x51, 0x00,
    0x89, 0x18, 0x89, 0x00, 0xC9, 0x18, 0x0A, 0x68, 0x01, 0x68, 0x10, 0x1C, 0x00, 0xF0]
  const MfSelect: seq<nat> := [
    0x00, 0xB5, 0x00, 0x04, 0x07, 0x4B, 0x08, 0x49, 0x40, 0x0B, 0x40, 0x18, 0x82, 0x88, 0x51, 0x00,
    0x89, 0x18, 0x89, 0x00, 0xC9, 0x18, 0x0A, 0x68, 0x01, 0x68, 0x10, 0x1C, 0x01, 0xF0]
  const ZmSelect: seq<nat> := [
    0x10, 0xB5, 0x00, 0x04, 0x00, 0x0C, 0x04, 0x1C, 0x0C, 0x4B, 0x0D, 0x48, 0xE2, 0x00, 0x12, 0x18,
    0x91, 0x88, 0x48, 0x00, 0x40, 0x18, 0x80, 0x00, 0xC0, 0x18, 0x03, 0x68, 0x12, 0x68]

  /** The 30-byte window at i equals one of the four `SoundDriverMode` call patterns. */
  predicate SelectorAt(rom: seq<Byte>, i: nat)
    requires i + SearchLen <= |rom|
  {
    var w: seq<nat> := rom[i..i + SearchLen];
    w == OldSelect || w == NewSelect || w == MfSelect || w == ZmSelect
  }

  /** The four patterns are distinct, so a window matches at most one of them. */
  lemma SelectorsDistinct()
    ensures OldSelect != NewSelect && NewSelect != MfSelect && OldSelect != MfSelect
    ensures ZmSelect != OldSelect && ZmSelect != NewSelect && ZmSelect != MfSelect
  {
    assert OldSelect[5] != NewSelect[5] && OldSelect[5] != MfSelect[5];
    assert NewSelect[28] != MfSelect[28];
    assert ZmSelect[0] != OldSelect[0] && ZmSelect[0] != NewSelect[0] && ZmSelect[0] != MfSelect[0];
  }

  class GbaRomIo {
    const data: seq<Byte>
    var head: Head

    constructor (rom: seq<Byte>)
      ensures data == rom && head == Head(0, 0)
    {
      data := rom;
      head := Head(0, 0);
    }

    /** The `address` setter. */
    method SetAddr(addr: Option<int>)
      modifies this
      ensures head == SetAddress(|data|, old(head), addr)
    {
      if addr.Some? && 0 <= addr.value < |data| {
        head := Head(addr.value, addr.value);
      }
    }

    /** n bytes at the file position, little-endian; the remembered address stays. */
    method ReadNext(n: nat) returns (v: nat)
      modifies this
      ensures v == WordAt(data, old(head.pos), n)
      ensures head == Head(old(head.address), After(data, old(head.pos), n))
    {
      ReadLEIsWordAt(data, head.pos, n);
      v := ReadLE(data, head.pos, n);
      head := head.(pos := After(data, head.pos, n));
    }

    /** `read(addr)`: one byte. */
    method Read(addr: Option<int>) returns (v: nat)
      modifies this
      ensures v == ByteAt(data, SetAddress(|data|, old(head), addr).pos)
      ensures head == Head(SetAddress(|data|, old(head), addr).address,
                           After(data, SetAddress(|data|, old(head), addr).pos, 1))
    {
      SetAddr(addr);
      WordAtOne(data, head.pos);
      v := ReadNext(1);
    }

    /** `read_dword(addr)`. */
    method ReadDword(addr: Option<int>) returns (v: nat)
      modifies this
      ensures v == WordAt(data, SetAddress(|data|, old(head), addr).pos, 4)
      ensures head == Head(SetAddress(|data|, old(head), addr).address,
                           After(data, SetAddress(|data|, old(head), addr).pos, 4))
    {
      SetAddr(addr);
      v := ReadNext(4);
    }

    /** `read_gba_pointer(addr)`. */
    method ReadGbaPointer(addr: Option<int>) returns (v: int)
      modifies this
      ensures v == ToAddress(WordAt(data, SetAddress(|data|, old(head), addr).pos, 4))
      ensures head == Head(SetAddress(|data|, old(head), addr).address,
                           After(data, SetAddress(|data|, old(head), addr).pos, 4))
    {
      var w := ReadDword(addr);
      v := ToAddress(w);
    }

    /** The next read of n bytes, when the head stands where reading `offset` bytes from q left it. */
    method ReadField(ghost q: nat, ghost offset: nat, n: nat) returns (v: nat)
      requires head.pos == After(data, q, offset)
      modifies this
      ensures v == WordAt(data, q + offset, n)
      ensures head == Head(old(head.address), After(data, q, offset + n))
    {
      SequentialReads(data, q, offset, n);
      v := ReadNext(n);
    }

    /** `read_sample(addr)`. */
    method ReadSample(addr: Option<int>) returns (header: SampleHeader)
      modifies this
      ensures header == SampleHeaderAt(data, SampleHead(|data|, old(head), addr).pos)
    {
      SetAddr(addr);
      SetAddr(Some(head.address + 3));
      ghost var q := head.pos;
      assert After(data, q, 0) == q;
      var isLooped := ReadField(q, 0, 1);
      WordAtOne(data, q);
      var frequency := ReadField(q, 1, 4);
      var loop := ReadField(q, 5, 4);
      var size := ReadField(q, 9, 4);
      header := SampleHeader(isLooped, frequency, loop, size);
    }

    /** Field i of the nine-field layout, read where the earlier fields left the head. */
    method ReadFieldAt(ghost q: nat, i: nat) returns (v: nat)
      requires i < 9 && head.pos == After(data, q, Rom.FieldOffset(i))
      modifies this
      ensures v == Rom.FieldValue(data, q, i)
      ensures head == Head(old(head.address), After(data, q, Rom.FieldOffset(i + 1)))
    {
      if i != 4 {
        v := ReadField(q, Rom.FieldOffset(i), 1);
        WordAtOne(data, q + Rom.FieldOffset(i));
      } else {
        v := ReadField(q, 4, 4);
      }
    }

    /** Nine fields, a word at index 4 and bytes elsewhere. */
    method ReadNineFields() returns (f: seq<nat>)
      modifies this
      ensures |f| == 9 && forall j :: 0 <= j < 9 ==> f[j] == Rom.FieldValue(data, old(head.pos), j)
      ensures head.address == old(head.address)
    {
      ghost var q := head.pos;
      assert After(data, q, 0) == q;
      f := [];
      var i := 0;
      while i < 9
        invariant 0 <= i <= 9 && |f| == i
        invariant head == Head(old(head.address), After(data, q, Rom.FieldOffset(i)))
        invariant forall j :: 0 <= j < i ==> f[j] == Rom.FieldValue(data, q, j)
      {
        var v := ReadFieldAt(q, i);
        f := f + [v];
        i := i + 1;
      }
    }

    /** `read_psg_instrument(address, is_wave)`. */
    method ReadPsgInstrument(address: Option<int>, isWave: bool) returns (inst: PsgInstrument)
      modifies this
      ensures inst == PsgInstrumentAt(data, SetAddress(|data|, old(head), address).pos, isWave)
    {
      SetAddr(address);
      if isWave {
        var f := ReadNineFields();
        assert Rom.FieldOffset(5) == 8 && Rom.FieldOffset(8) == 11;
        inst := PsgInstrument(f[0], f[1], f[2], f[3], f[4], f[5], f[6], f[7], f[8]);
      } else {
        ghost var q := head.pos;
        assert After(data, q, 0) == q;
        var d: seq<nat> := [];
        for i := 0 to 12
          invariant |d| == i
          invariant head.pos == After(data, q, i)
          invariant forall j :: 0 <= j < i ==> d[j] == ByteAt(data, q + j)
        {
          var b := ReadField(q, i, 1);
          WordAtOne(data, q + i);
          d := d + [b];
        }
        var kept := d[..5] + d[8..];
        inst := PsgInstrument(kept[0], kept[1], kept[2], kept[3], kept[4], kept[5], kept[6], kept[7], kept[8]);
      }
    }

    /** `read_directsound(address)`. */
    method ReadDirectSound(address: Option<int>) returns (entry: DirectSound)
      modifies this
      ensures entry == DirectSoundAt(data, SetAddress(|data|, old(head), address).pos)
    {
      SetAddr(address);
      var f := ReadNineFields();
      assert Rom.FieldOffset(5) == 8 && Rom.FieldOffset(8) == 11;
      entry := DirectSound(f[0], f[1], f[2], f[3], f[4], f[5], f[6], f[7], f[8]);
    }

    /** `get_song_table(track)`. */
    method GetSongTable(track: int) returns (r: Result<int>)
      modifies this
      ensures r == SongTableFrom(data, Rom.Words(data), track, 0, Head(old(head.address), 4 * (|data| / 4)))
    {
      var thumbCodes := Rom.Words(data);
      head := head.(pos := 4 * (|data| / 4));
      ghost var h0 := head;
      var codeInd := 0;
      while codeInd + 6 < |thumbCodes|
        invariant SongTableFrom(data, thumbCodes, track, codeInd, head) == SongTableFrom(data, thumbCodes, track, 0, h0)
        decreases |thumbCodes| - codeInd
      {
        var lPart := thumbCodes[codeInd..codeInd + 5];
        var lMatch := lPart == CodeTables[0] || lPart == CodeTables[1] || lPart == CodeTables[2];
        var rMatch := thumbCodes[codeInd + 6] == EndCode;
        if lMatch && rMatch {
          if codeInd + 8 >= |thumbCodes| {
            return Err(IndexError);
          }
          var ptr := ToAddress(thumbCodes[codeInd + 8]);
          var entry := ReadGbaPointer(Some(ptr + track * 8));
          if entry > |data| {
            codeInd := codeInd + 1;
            continue;
          }
          return Ok(ptr);
        }
        codeInd := codeInd + 1;
      }
      return Ok(-1);
    }

    /** `get_engine_offset`: the first selector window, or -1. */
    method GetEngineOffset() returns (offset: int)
      modifies this
      ensures offset == -1 ==> forall i :: 0 <= i < |data| - SearchLen ==> !SelectorAt(data, i)
      ensures offset != -1 ==> 0 <= offset < |data| - SearchLen && SelectorAt(data, offset)
                               && forall i :: 0 <= i < offset ==> !SelectorAt(data, i)
      ensures head == Head(old(head.address), |data|)
    {
      head := head.(pos := |data|);
      var byteInd := 0;
      while byteInd < |data| - SearchLen
        invariant 0 <= byteInd
        invariant forall i :: 0 <= i < byteInd && i < |data| - SearchLen ==> !SelectorAt(data, i)
      {
        if SelectorAt(data, byteInd) {
          return byteInd;
        }
        byteInd := byteInd + 1;
      }
      return -1;
    }
  }
}
