/**
 * The header readers of the top-level player.py. Each sets the file's read
 * head, then performs consecutive `read_byte` / `read_little_endian` calls on
 * the `File` object of fileio.py, so a header that runs past the end of the
 * file raises `struct.error`. The layouts are those of `SappyFileIo`, read
 * there from a zero-padded ROM view.
 */
module PlayerHeads {
  import opened Wrappers
  import opened RomBytes
  import opened FileIo
  import opened SappyFileIo

  /** The bytes `read_sample_head` consumes as written: 4 + 1 + 1 + 4 + 4. */
  const SampleAsWrittenSize: nat := 14

  /** `read_song_head`: tracks, blocks, priority, reverb (a byte each), then `instrument_bank` (4 bytes). */
  method ReadSongHead(f: File, offset: Option<int>) returns (r: Result<SongHeader>)
    requires f.Valid()
    modifies f`readOffset
    ensures var start := Clamp(old(f.readOffset), offset);
      (r.Ok? <==> start + SongSize <= |f.data|)
      && (r.Ok? ==> r.value == SongHeaderAt(f.data, start))
      && (r.Err? ==> r.error == StructError)
      && f.readOffset == AfterRead(f.data, start, SongSize)
  {
    f.SetReadOffset(offset);
    ghost var start := f.readOffset;
    var tracks := f.ReadByte(None);
    if tracks.Err? {
      return Err(tracks.error);
    }
    var blocks := f.ReadByte(None);
    if blocks.Err? {
      return Err(blocks.error);
    }
    var priority := f.ReadByte(None);
    if priority.Err? {
      return Err(priority.error);
    }
    var reverb := f.ReadByte(None);
    if reverb.Err? {
      return Err(reverb.error);
    }
    var bank := f.ReadLittleEndian(4, None);
    if bank.Err? {
      return Err(bank.error);
    }
    ReadLEIsWordAt(f.data, start + 4, 4);
    return Ok(SongHeader(tracks.value, blocks.value, priority.value, reverb.value, bank.value));
  }

  /** `read_direct_head`: b0, b1, `sample_header` (4 bytes), attack, hold, sustain, release. */
  method ReadDirectHead(f: File, offset: Option<int>) returns (r: Result<DirectHeader>)
    requires f.Valid()
    modifies f`readOffset
    ensures var start := Clamp(old(f.readOffset), offset);
      (r.Ok? <==> start + DirectSize <= |f.data|)
      && (r.Ok? ==> r.value == DirectHeaderAt(f.data, start))
      && (r.Err? ==> r.error == StructError)
      && f.readOffset == AfterRead(f.data, start, DirectSize)
  {
    f.SetReadOffset(offset);
    ghost var start := f.readOffset;
    var b0 := f.ReadByte(None);
    if b0.Err? {
      return Err(b0.error);
    }
    var b1 := f.ReadByte(None);
    if b1.Err? {
      return Err(b1.error);
    }
    var sample := f.ReadLittleEndian(4, None);
    if sample.Err? {
      return Err(sample.error);
    }
    ReadLEIsWordAt(f.data, start + 2, 4);
    var envelope := ReadFourBytes(f);
    if envelope.Err? {
      return Err(envelope.error);
    }
    var (attack, hold, sustain, release) := envelope.value;
    return Ok(DirectHeader(b0.value, b1.value, sample.value, attack, hold, sustain, release));
  }

  /** Four consecutive `read_byte()` calls from the current head. */
  method ReadFourBytes(f: File) returns (r: Result<(Byte, Byte, Byte, Byte)>)
    requires f.Valid()
    modifies f`readOffset
    ensures var start := old(f.readOffset);
      (r.Ok? <==> start + 4 <= |f.data|)
      && (r.Ok? ==> r.value == (f.data[start], f.data[start + 1], f.data[start + 2], f.data[start + 3]))
      && (r.Err? ==> r.error == StructError)
      && f.readOffset == AfterRead(f.data, start, 4)
  {
    var a := f.ReadByte(None);
    if a.Err? {
      return Err(a.error);
    }
    var b := f.ReadByte(None);
    if b.Err? {
      return Err(b.error);
    }
    var c := f.ReadByte(None);
    if c.Err? {
      return Err(c.error);
    }
    var d := f.ReadByte(None);
    if d.Err? {
      return Err(d.error);
    }
    return Ok((a.value, b.value, c.value, d.value));
  }

  /**
   * `read_sample_head` as written: it reads the song header's field names
   * (4 + 1 + 1 + 4 + 4 bytes) into a `SampleHeader`, whose constructor then
   * refuses the unknown keywords. It never returns a header.
   */
  method ReadSampleHead(f: File, offset: Option<int>) returns (r: Result<SampleHeader>)
    requires f.Valid()
    modifies f`readOffset
    ensures r.Err?
    ensures var start := Clamp(old(f.readOffset), offset);
      (start + SampleAsWrittenSize <= |f.data| ==> r == Err(TypeError))
      && (start + SampleAsWrittenSize > |f.data| ==> r == Err(StructError))
      && f.readOffset == AfterRead(f.data, start, SampleAsWrittenSize)
  {
    f.SetReadOffset(offset);
    var tracks := f.ReadLittleEndian(4, None);
    if tracks.Err? {
      return Err(tracks.error);
    }
    var blocks := f.ReadByte(None);
    if blocks.Err? {
      return Err(blocks.error);
    }
    var priority := f.ReadByte(None);
    if priority.Err? {
      return Err(priority.error);
    }
    var reverb := f.ReadLittleEndian(4, None);
    if reverb.Err? {
      return Err(reverb.error);
    }
    var bank := f.ReadLittleEndian(4, None);
    if bank.Err? {
      return Err(bank.error);
    }
    return Err(TypeError);
  }

  /**
   * The intended `read_sample_head`: flags (4 bytes), b4, fine_tune,
   * frequency (2 bytes), loop and size (4 bytes each), the layout the
   * `VirtualFile` reader uses.
   */
  method ReadSampleHeadIntended(f: File, offset: Option<int>) returns (r: Result<SampleHeader>)
    requires f.Valid()
    modifies f`readOffset
    ensures var start := Clamp(old(f.readOffset), offset);
      (r.Ok? <==> start + SampleSize <= |f.data|)
      && (r.Ok? ==> r.value == SampleHeaderAt(f.data, start))
      && (r.Err? ==> r.error == StructError)
      && f.readOffset == AfterRead(f.data, start, SampleSize)
  {
    f.SetReadOffset(offset);
    ghost var start := f.readOffset;
    var front := ReadSampleFront(f);
    if front.Err? {
      return Err(front.error);
    }
    var (flags, b4, fineTune, frequency) := front.value;
    var loop := f.ReadLittleEndian(4, None);
    if loop.Err? {
      return Err(loop.error);
    }
    ReadLEIsWordAt(f.data, start + 8, 4);
    var size := f.ReadLittleEndian(4, None);
    if size.Err? {
      return Err(size.error);
    }
    ReadLEIsWordAt(f.data, start + 12, 4);
    return Ok(SampleHeader(flags, b4, fineTune, frequency, loop.value, size.value));
  }

  /** The first eight bytes of a sample header: flags (4 bytes), b4, fine_tune, frequency (2 bytes). */
  method ReadSampleFront(f: File) returns (r: Result<(nat, Byte, Byte, nat)>)
    requires f.Valid()
    modifies f`readOffset
    ensures var start := old(f.readOffset);
      (r.Ok? <==> start + 8 <= |f.data|)
      && (r.Ok? ==> r.value == (WordAt(f.data, start, 4), f.data[start + 4], f.data[start + 5], WordAt(f.data, start + 6, 2)))
      && (r.Err? ==> r.error == StructError)
      && f.readOffset == AfterRead(f.data, start, 8)
  {
    ghost var start := f.readOffset;
    var flags := f.ReadLittleEndian(4, None);
    if flags.Err? {
      return Err(flags.error);
    }
    ReadLEIsWordAt(f.data, start, 4);
    var b4 := f.ReadByte(None);
    if b4.Err? {
      return Err(b4.error);
    }
    var fineTune := f.ReadByte(None);
    if fineTune.Err? {
      return Err(fineTune.error);
    }
    var frequency := f.ReadLittleEndian(2, None);
    if frequency.Err? {
      return Err(frequency.error);
    }
    ReadLEIsWordAt(f.data, start + 6, 2);
    return Ok((flags.value, b4.value, fineTune.value, frequency.value));
  }
}
