/**
 * The fixed-layout header readers of sappy/headers.py.
 *
 * Each reader looks up its file object, stores the requested address in the
 * attribute `rd_addr`, and then reads its fields one after another with
 * `rd_byte()` and `rd_ltendian(n)`. `rd_addr` is not the `address` property,
 * and no reader consults it, so the fields are read from wherever the file's
 * position already is. The file object is a parameter here. The layouts
 * and the decoders are the ones of `SappyFileIo`.
 */
module Headers {
  import opened Wrappers
  import opened RomBytes
  import opened SappyFileIo

  /** `rd_dct_head(file_id, addr)`. */
  method RdDctHead(f: VirtualFile, addr: Option<int>) returns (h: DirectHeader)
    modifies f
    ensures h == DirectHeaderAt(f.data, old(f.pos)) && f.pos == After(f.data, old(f.pos), DirectSize)
    ensures f.rdAddr == addr && f.address == old(f.address)
  {
    f.rdAddr := addr;
    ghost var p := f.pos;
    assert After(f.data, p, 0) == p;
    var b0 := f.NextByte(p, 0);
    var b1 := f.NextByte(p, 1);
    var smpHead := f.NextWord(p, 2, 4);
    var attack := f.NextByte(p, 6);
    var hold := f.NextByte(p, 7);
    var isSustain := f.NextByte(p, 8);
    var release := f.NextByte(p, 9);
    h := DirectHeader(b0, b1, smpHead, attack, hold, isSustain, release);
  }

  /** `rd_drmkit_head(file_id, addr)`. */
  method RdDrmkitHead(f: VirtualFile, addr: Option<int>) returns (h: DrumKitHeader)
    modifies f
    ensures h == DrumKitHeaderAt(f.data, old(f.pos)) && f.pos == After(f.data, old(f.pos), DrumKitSize)
    ensures f.rdAddr == addr && f.address == old(f.address)
  {
    f.rdAddr := addr;
    ghost var p := f.pos;
    assert After(f.data, p, 0) == p;
    var b0 := f.NextByte(p, 0);
    var b1 := f.NextByte(p, 1);
    var dctTbl := f.NextWord(p, 2, 4);
    var b6 := f.NextByte(p, 6);
    var b7 := f.NextByte(p, 7);
    var b8 := f.NextByte(p, 8);
    var b9 := f.NextByte(p, 9);
    h := DrumKitHeader(b0, b1, dctTbl, b6, b7, b8, b9);
  }

  /** `rd_inst_head(file_id, addr)`. */
  method RdInstHead(f: VirtualFile, addr: Option<int>) returns (h: InstrumentHeader)
    modifies f
    ensures h == InstrumentHeaderAt(f.data, old(f.pos)) && f.pos == After(f.data, old(f.pos), InstrumentSize)
    ensures f.rdAddr == addr && f.address == old(f.address)
  {
    f.rdAddr := addr;
    ghost var p := f.pos;
    assert After(f.data, p, 0) == p;
    var channel := f.NextByte(p, 0);
    var drumPitch := f.NextByte(p, 1);
    h := InstrumentHeader(channel, drumPitch);
  }

  /** `rd_inv_head(file_id, addr)`. */
  method RdInvHead(f: VirtualFile, addr: Option<int>) returns (h: InvalidHeader)
    modifies f
    ensures h == InvalidHeaderAt(f.data, old(f.pos)) && f.pos == After(f.data, old(f.pos), InvalidSize)
    ensures f.rdAddr == addr && f.address == old(f.address)
  {
    f.rdAddr := addr;
    var b := f.TenBytes();
    h := InvalidHeader(b[0], b[1], b[2], b[3], b[4], b[5], b[6], b[7], b[8], b[9]);
  }

  /** `rd_nse_head(file_id, addr)`. */
  method RdNseHead(f: VirtualFile, addr: Option<int>) returns (h: NoiseHeader)
    modifies f
    ensures h == NoiseHeaderAt(f.data, old(f.pos)) && f.pos == After(f.data, old(f.pos), NoiseSize)
    ensures f.rdAddr == addr && f.address == old(f.address)
  {
    f.rdAddr := addr;
    var b := f.TenBytes();
    h := NoiseHeader(b[0], b[1], b[2], b[3], b[4], b[5], b[6], b[7], b[8], b[9]);
  }

  /** `rd_mul_head(file_id, addr)`. */
  method RdMulHead(f: VirtualFile, addr: Option<int>) returns (h: MultiHeader)
    modifies f
    ensures h == MultiHeaderAt(f.data, old(f.pos)) && f.pos == After(f.data, old(f.pos), MultiSize)
    ensures f.rdAddr == addr && f.address == old(f.address)
  {
    f.rdAddr := addr;
    ghost var p := f.pos;
    assert After(f.data, p, 0) == p;
    var b0 := f.NextByte(p, 0);
    var b1 := f.NextByte(p, 1);
    var dctTbl := f.NextWord(p, 2, 4);
    var kmap := f.NextWord(p, 6, 4);
    h := MultiHeader(b0, b1, dctTbl, kmap);
  }

  /** `rd_smp_head(file_id, addr)`. */
  method RdSmpHead(f: VirtualFile, addr: Option<int>) returns (h: SampleHeader)
    modifies f
    ensures h == SampleHeaderAt(f.data, old(f.pos)) && f.pos == After(f.data, old(f.pos), SampleSize)
    ensures f.rdAddr == addr && f.address == old(f.address)
  {
    f.rdAddr := addr;
    ghost var p := f.pos;
    assert After(f.data, p, 0) == p;
    var flags := f.NextWord(p, 0, 4);
    var b4 := f.NextByte(p, 4);
    var fineTune := f.NextByte(p, 5);
    var frequency := f.NextWord(p, 6, 2);
    var loop := f.NextWord(p, 8, 4);
    var size := f.NextWord(p, 12, 4);
    h := SampleHeader(flags, b4, fineTune, frequency, loop, size);
  }

  /** `rd_sng_head(file_id, addr)`. */
  method RdSngHead(f: VirtualFile, addr: Option<int>) returns (h: SongHeader)
    modifies f
    ensures h == SongHeaderAt(f.data, old(f.pos)) && f.pos == After(f.data, old(f.pos), SongSize)
    ensures f.rdAddr == addr && f.address == old(f.address)
  {
    f.rdAddr := addr;
    ghost var p := f.pos;
    assert After(f.data, p, 0) == p;
    var tracks := f.NextByte(p, 0);
    var blks := f.NextByte(p, 1);
    var pri := f.NextByte(p, 2);
    var reverb := f.NextByte(p, 3);
    var instBank := f.NextWord(p, 4, 4);
    h := SongHeader(tracks, blks, pri, reverb, instBank);
  }

  /** `rd_sq1_head(file_id, addr)`. */
  method RdSq1Head(f: VirtualFile, addr: Option<int>) returns (h: SquareOneHeader)
    modifies f
    ensures h == SquareOneHeaderAt(f.data, old(f.pos)) && f.pos == After(f.data, old(f.pos), SquareSize)
    ensures f.rdAddr == addr && f.address == old(f.address)
  {
    f.rdAddr := addr;
    var b := f.TenBytes();
    h := SquareOneHeader(b[0], b[1], b[2], b[3], b[4], b[5], b[6], b[7], b[8], b[9]);
  }

  /** `rd_sq2_head(file_id, addr)`. */
  method RdSq2Head(f: VirtualFile, addr: Option<int>) returns (h: SquareTwoHeader)
    modifies f
    ensures h == SquareTwoHeaderAt(f.data, old(f.pos)) && f.pos == After(f.data, old(f.pos), SquareSize)
    ensures f.rdAddr == addr && f.address == old(f.address)
  {
    f.rdAddr := addr;
    var b := f.TenBytes();
    h := SquareTwoHeader(b[0], b[1], b[2], b[3], b[4], b[5], b[6], b[7], b[8], b[9]);
  }

  /** `rd_wav_head(file_id, addr)`. */
  method RdWavHead(f: VirtualFile, addr: Option<int>) returns (h: WaveHeader)
    modifies f
    ensures h == WaveHeaderAt(f.data, old(f.pos)) && f.pos == After(f.data, old(f.pos), WaveSize)
    ensures f.rdAddr == addr && f.address == old(f.address)
  {
    f.rdAddr := addr;
    ghost var p := f.pos;
    assert After(f.data, p, 0) == p;
    var b0 := f.NextByte(p, 0);
    var b1 := f.NextByte(p, 1);
    var sample := f.NextWord(p, 2, 4);
    var attack := f.NextByte(p, 6);
    var decay := f.NextByte(p, 7);
    var isSustain := f.NextByte(p, 8);
    var release := f.NextByte(p, 9);
    h := WaveHeader(b0, b1, sample, attack, decay, isSustain, release);
  }

  /**
   * Two sample headers laid out one after the other: the one at 0 and the
   * one at `SampleSize` read back as themselves.
   */
  lemma TwoSampleHeaders(h1: SampleHeader, h2: SampleHeader)
    requires h1.flags < Word32 && h1.frequency < 0x1_0000 && h1.loop < Word32 && h1.size < Word32
    requires h2.flags < Word32 && h2.frequency < 0x1_0000 && h2.loop < Word32 && h2.size < Word32
    ensures SampleHeaderAt(EncodeSample(h1) + EncodeSample(h2), 0) == h1
    ensures SampleHeaderAt(EncodeSample(h1) + EncodeSample(h2), SampleSize) == h2
  {
    SampleRoundTrip(h1, EncodeSample(h2));
    SampleHeaderShift(EncodeSample(h1), EncodeSample(h2));
    SampleRoundTrip(h2, []);
    assert EncodeSample(h2) + [] == EncodeSample(h2);
  }

  /**
   * The address is lost: on a file holding two different sample headers,
   * asking for the second one while the head is at 0 yields the first one
   * here, and the second one from the `VirtualFile` reader.
   */
  method AddressIgnored() returns (asWritten: SampleHeader, intended: SampleHeader)
    ensures asWritten == SampleHeader(0, 0, 0, 0, 0, 0)
    ensures intended == SampleHeader(1, 0, 0, 0, 0, 0)
  {
    var h1 := SampleHeader(0, 0, 0, 0, 0, 0);
    var h2 := SampleHeader(1, 0, 0, 0, 0, 0);
    TwoSampleHeaders(h1, h2);
    var rom := EncodeSample(h1) + EncodeSample(h2);
    var f := new VirtualFile(rom);
    asWritten := RdSmpHead(f, Some(SampleSize));
    var g := new VirtualFile(rom);
    var r := g.RdSmpHead(Some(SampleSize));
    intended := r.value;
  }
}
