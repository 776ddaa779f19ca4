/**
 * `VirtualFile` (sappy/fileio.py): a read head over a file's bytes, the
 * fixed-layout header readers and the song-table signature search.
 *
 * The object keeps two positions. `_address` is what the `address` setter
 * last stored. The file object's own position is what reads start from, and
 * reads move it without touching `_address`. A negative address is stored
 * first and then refused by the seek with an `OSError`.
 */
module SappyFileIo {
  import opened Wrappers
  import opened RomBytes
  import Rom

  // ---------------------------------------------------------------------
  // Header layouts

  datatype DirectHeader = DirectHeader(b0: Byte, b1: Byte, smpHead: nat, attack: Byte, hold: Byte,
                                       isSustain: Byte, release: Byte)
  datatype DrumKitHeader = DrumKitHeader(b0: Byte, b1: Byte, dctTbl: nat, b6: Byte, b7: Byte, b8: Byte, b9: Byte)
  datatype InstrumentHeader = InstrumentHeader(channel: Byte, drumPitch: Byte)
  datatype InvalidHeader = InvalidHeader(b0: Byte, b1: Byte, b2: Byte, b3: Byte, b4: Byte, b5: Byte, b6: Byte,
                                         b7: Byte, b8: Byte, b9: Byte)
  datatype NoiseHeader = NoiseHeader(b0: Byte, b1: Byte, b2: Byte, b3: Byte, b4: Byte, b5: Byte, attack: Byte,
                                     decay: Byte, isSustain: Byte, release: Byte)
  datatype MultiHeader = MultiHeader(b0: Byte, b1: Byte, dctTbl: nat, kmap: nat)
  datatype SampleHeader = SampleHeader(flags: nat, b4: Byte, fineTune: Byte, frequency: nat, loop: nat, size: nat)
  datatype SongHeader = SongHeader(tracks: Byte, blks: Byte, pri: Byte, reverb: Byte, instBank: nat)
  datatype SquareOneHeader = SquareOneHeader(raw1: Byte, raw2: Byte, dutyCycle: Byte, b3: Byte, b4: Byte, b5: Byte,
                                             attack: Byte, decay: Byte, isSustain: Byte, release: Byte)
  datatype SquareTwoHeader = SquareTwoHeader(b0: Byte, b1: Byte, dutyCycle: Byte, b3: Byte, b4: Byte, b5: Byte,
                                             attack: Byte, decay: Byte, isSustain: Byte, release: Byte)
  datatype WaveHeader = WaveHeader(b0: Byte, b1: Byte, sample: nat, attack: Byte, decay: Byte, isSustain: Byte,
                                   release: Byte)

  /** The bytes each header reader consumes. */
  const DirectSize: nat := 10
  const DrumKitSize: nat := 10
  const InstrumentSize: nat := 2
  const InvalidSize: nat := 10
  const NoiseSize: nat := 10
  const MultiSize: nat := 10
  const SampleSize: nat := 16
  const SongSize: nat := 8
  const SquareSize: nat := 10
  const WaveSize: nat := 10

  /** b0, b1, `smp_head` (4 bytes), attack, hold, is_sustain, release. */
  function DirectHeaderAt(rom: seq<Byte>, p: nat): DirectHeader
  {
    DirectHeader(ByteAt(rom, p), ByteAt(rom, p + 1), WordAt(rom, p + 2, 4), ByteAt(rom, p + 6), ByteAt(rom, p + 7),
                 ByteAt(rom, p + 8), ByteAt(rom, p + 9))
  }

  /** b0, b1, `dct_tbl` (4 bytes), b6..b9. */
  function DrumKitHeaderAt(rom: seq<Byte>, p: nat): DrumKitHeader
  {
    DrumKitHeader(ByteAt(rom, p), ByteAt(rom, p + 1), WordAt(rom, p + 2, 4), ByteAt(rom, p + 6), ByteAt(rom, p + 7),
                  ByteAt(rom, p + 8), ByteAt(rom, p + 9))
  }

  /** channel, then `drum_pitch`. */
  function InstrumentHeaderAt(rom: seq<Byte>, p: nat): InstrumentHeader
  {
    InstrumentHeader(ByteAt(rom, p), ByteAt(rom, p + 1))
  }

  /** Ten single bytes. */
  function InvalidHeaderAt(rom: seq<Byte>, p: nat): InvalidHeader
  {
    InvalidHeader(ByteAt(rom, p), ByteAt(rom, p + 1), ByteAt(rom, p + 2), ByteAt(rom, p + 3), ByteAt(rom, p + 4),
                  ByteAt(rom, p + 5), ByteAt(rom, p + 6), ByteAt(rom, p + 7), ByteAt(rom, p + 8), ByteAt(rom, p + 9))
  }

  /** Six unnamed bytes, then attack, decay, is_sustain, release. */
  function NoiseHeaderAt(rom: seq<Byte>, p: nat): NoiseHeader
  {
    NoiseHeader(ByteAt(rom, p), ByteAt(rom, p + 1), ByteAt(rom, p + 2), ByteAt(rom, p + 3), ByteAt(rom, p + 4),
                ByteAt(rom, p + 5), ByteAt(rom, p + 6), ByteAt(rom, p + 7), ByteAt(rom, p + 8), ByteAt(rom, p + 9))
  }

  /** b0, b1, then `dct_tbl` and `kmap`, 4 bytes each. */
  function MultiHeaderAt(rom: seq<Byte>, p: nat): MultiHeader
  {
    MultiHeader(ByteAt(rom, p), ByteAt(rom, p + 1), WordAt(rom, p + 2, 4), WordAt(rom, p + 6, 4))
  }

  /** flags (4 bytes), b4, fine_tune, frequency (2 bytes), loop and size (4 bytes each). */
  function SampleHeaderAt(rom: seq<Byte>, p: nat): SampleHeader
  {
    SampleHeader(WordAt(rom, p, 4), ByteAt(rom, p + 4), ByteAt(rom, p + 5), WordAt(rom, p + 6, 2),
                 WordAt(rom, p + 8, 4), WordAt(rom, p + 12, 4))
  }

  /** tracks, blks, pri, reverb, then `inst_bank` (4 bytes). */
  function SongHeaderAt(rom: seq<Byte>, p: nat): SongHeader
  {
    SongHeader(ByteAt(rom, p), ByteAt(rom, p + 1), ByteAt(rom, p + 2), ByteAt(rom, p + 3), WordAt(rom, p + 4, 4))
  }

  /** raw1, raw2, duty_cycle, three unnamed bytes, attack, decay, is_sustain, release. */
  function SquareOneHeaderAt(rom: seq<Byte>, p: nat): SquareOneHeader
  {
    SquareOneHeader(ByteAt(rom, p), ByteAt(rom, p + 1), ByteAt(rom, p + 2), ByteAt(rom, p + 3), ByteAt(rom, p + 4),
                    ByteAt(rom, p + 5), ByteAt(rom, p + 6), ByteAt(rom, p + 7), ByteAt(rom, p + 8),
                    ByteAt(rom, p + 9))
  }

  /** b0, b1, duty_cycle, three unnamed bytes, attack, decay, is_sustain, release. */
  function SquareTwoHeaderAt(rom: seq<Byte>, p: nat): SquareTwoHeader
  {
    SquareTwoHeader(ByteAt(rom, p), ByteAt(rom, p + 1), ByteAt(rom, p + 2), ByteAt(rom, p + 3), ByteAt(rom, p + 4),
                    ByteAt(rom, p + 5), ByteAt(rom, p + 6), ByteAt(rom, p + 7), ByteAt(rom, p + 8),
                    ByteAt(rom, p + 9))
  }

  /** b0, b1, sample (4 bytes), attack, decay, is_sustain, release. */
  function WaveHeaderAt(rom: seq<Byte>, p: nat): WaveHeader
  {
    WaveHeader(ByteAt(rom, p), ByteAt(rom, p + 1), WordAt(rom, p + 2, 4), ByteAt(rom, p + 6), ByteAt(rom, p + 7),
               ByteAt(rom, p + 8), ByteAt(rom, p + 9))
  }

  // ---------------------------------------------------------------------
  // The layouts written out, and read back

  const Word32: nat := 0x1_0000_0000

  function EncodeDirect(h: DirectHeader): (s: seq<Byte>)
    ensures |s| == DirectSize
  {
    [h.b0, h.b1] + ToBytesLE(h.smpHead, 4) + [h.attack, h.hold, h.isSustain, h.release]
  }

  function EncodeDrumKit(h: DrumKitHeader): (s: seq<Byte>)
    ensures |s| == DrumKitSize
  {
    [h.b0, h.b1] + ToBytesLE(h.dctTbl, 4) + [h.b6, h.b7, h.b8, h.b9]
  }

  function EncodeMulti(h: MultiHeader): (s: seq<Byte>)
    ensures |s| == MultiSize
  {
    [h.b0, h.b1] + ToBytesLE(h.dctTbl, 4) + ToBytesLE(h.kmap, 4)
  }

  function EncodeSample(h: SampleHeader): (s: seq<Byte>)
    ensures |s| == SampleSize
  {
    ToBytesLE(h.flags, 4) + [h.b4, h.fineTune] + ToBytesLE(h.frequency, 2) + ToBytesLE(h.loop, 4)
    + ToBytesLE(h.size, 4)
  }

  function EncodeSong(h: SongHeader): (s: seq<Byte>)
    ensures |s| == SongSize
  {
    [h.tracks, h.blks, h.pri, h.reverb] + ToBytesLE(h.instBank, 4)
  }

  function EncodeWave(h: WaveHeader): (s: seq<Byte>)
    ensures |s| == WaveSize
  {
    [h.b0, h.b1] + ToBytesLE(h.sample, 4) + [h.attack, h.decay, h.isSustain, h.release]
  }

  /** A 4-byte little-endian field written at `off` reads back as its value. */
  lemma WordField(s: seq<Byte>, off: nat, v: nat, n: nat)
    requires off + n <= |s| && s[off..off + n] == ToBytesLE(v, n) && v < Pow256(n)
    ensures WordAt(s, off, n) == v
  {
    WordAtOfToBytes(s, off, v, n);
  }

  lemma Pow256Values()
    ensures Pow256(2) == 0x1_0000 && Pow256(4) == Word32
  {
    assert Pow256(1) == 256;
  }

  /** The DirectSound header reader reads back every field the layout writes, whatever follows it. */
  lemma DirectRoundTrip(h: DirectHeader, tail: seq<Byte>)
    requires h.smpHead < Word32
    ensures DirectHeaderAt(EncodeDirect(h) + tail, 0) == h
  {
    var s := EncodeDirect(h) + tail;
    Pow256Values();
    assert s[2..6] == ToBytesLE(h.smpHead, 4);
    WordField(s, 2, h.smpHead, 4);
  }

  lemma DrumKitRoundTrip(h: DrumKitHeader, tail: seq<Byte>)
    requires h.dctTbl < Word32
    ensures DrumKitHeaderAt(EncodeDrumKit(h) + tail, 0) == h
  {
    var s := EncodeDrumKit(h) + tail;
    Pow256Values();
    assert s[2..6] == ToBytesLE(h.dctTbl, 4);
    WordField(s, 2, h.dctTbl, 4);
  }

  /** The bytes after a field do not change what it reads as. */
  lemma {:induction false} WordAtPrefix(a: seq<Byte>, b: seq<Byte>, off: nat, n: nat)
    requires off + n <= |a|
    ensures WordAt(a + b, off, n) == WordAt(a, off, n)
    decreases n
  {
    if n > 0 {
      WordAtPrefix(a, b, off + 1, n - 1);
    }
  }

  /** A field written last reads back as its value. */
  lemma FieldOf(a: seq<Byte>, v: nat, n: nat)
    requires v < Pow256(n)
    ensures WordAt(a + ToBytesLE(v, n), |a|, n) == v
  {
    var s := a + ToBytesLE(v, n);
    assert s[|a|..|a| + n] == ToBytesLE(v, n);
    WordAtOfToBytes(s, |a|, v, n);
  }

  lemma MultiRoundTrip(h: MultiHeader, tail: seq<Byte>)
    requires h.dctTbl < Word32 && h.kmap < Word32
    ensures MultiHeaderAt(EncodeMulti(h) + tail, 0) == h
  {
    Pow256Values();
    var x1 := [h.b0, h.b1];
    var x2 := x1 + ToBytesLE(h.dctTbl, 4);
    var x3 := x2 + ToBytesLE(h.kmap, 4);
    WordAtPrefix(x3, tail, 2, 4);
    WordAtPrefix(x2, ToBytesLE(h.kmap, 4), 2, 4);
    FieldOf(x1, h.dctTbl, 4);
    WordAtPrefix(x3, tail, 6, 4);
    FieldOf(x2, h.kmap, 4);
  }

  lemma SampleRoundTrip(h: SampleHeader, tail: seq<Byte>)
    requires h.flags < Word32 && h.frequency < 0x1_0000 && h.loop < Word32 && h.size < Word32
    ensures SampleHeaderAt(EncodeSample(h) + tail, 0) == h
  {
    Pow256Values();
    var x1 := ToBytesLE(h.flags, 4);
    var x2 := x1 + [h.b4, h.fineTune];
    var x3 := x2 + ToBytesLE(h.frequency, 2);
    var x4 := x3 + ToBytesLE(h.loop, 4);
    var x5 := x4 + ToBytesLE(h.size, 4);
    assert x5 == EncodeSample(h);
    WordAtPrefix(x5, tail, 0, 4);
    WordAtPrefix(x4, ToBytesLE(h.size, 4), 0, 4);
    WordAtPrefix(x3, ToBytesLE(h.loop, 4), 0, 4);
    WordAtPrefix(x2, ToBytesLE(h.frequency, 2), 0, 4);
    WordAtPrefix(x1, [h.b4, h.fineTune], 0, 4);
    assert x1[0..4] == x1;
    WordAtOfToBytes(x1, 0, h.flags, 4);
    WordAtPrefix(x5, tail, 6, 2);
    WordAtPrefix(x4, ToBytesLE(h.size, 4), 6, 2);
    WordAtPrefix(x3, ToBytesLE(h.loop, 4), 6, 2);
    FieldOf(x2, h.frequency, 2);
    WordAtPrefix(x5, tail, 8, 4);
    WordAtPrefix(x4, ToBytesLE(h.size, 4), 8, 4);
    FieldOf(x3, h.loop, 4);
    WordAtPrefix(x5, tail, 12, 4);
    FieldOf(x4, h.size, 4);
  }

  lemma SongRoundTrip(h: SongHeader, tail: seq<Byte>)
    requires h.instBank < Word32
    ensures SongHeaderAt(EncodeSong(h) + tail, 0) == h
  {
    var s := EncodeSong(h) + tail;
    Pow256Values();
    assert s[4..8] == ToBytesLE(h.instBank, 4);
    WordField(s, 4, h.instBank, 4);
  }

  lemma WaveRoundTrip(h: WaveHeader, tail: seq<Byte>)
    requires h.sample < Word32
    ensures WaveHeaderAt(EncodeWave(h) + tail, 0) == h
  {
    var s := EncodeWave(h) + tail;
    Pow256Values();
    assert s[2..6] == ToBytesLE(h.sample, 4);
    WordField(s, 2, h.sample, 4);
  }

  /**
   * A header is a function of its own bytes only: two files that agree on
   * the n bytes from p give the same header, for every layout.
   */
  lemma {:induction false} WordAtLocal(a: seq<Byte>, b: seq<Byte>, p: nat, n: nat)
    requires forall i :: p <= i < p + n ==> ByteAt(a, i) == ByteAt(b, i)
    ensures WordAt(a, p, n) == WordAt(b, p, n)
    decreases n
  {
    if n > 0 {
      WordAtLocal(a, b, p + 1, n - 1);
    }
  }

  lemma HeadersReadOnlyTheirBytes(a: seq<Byte>, b: seq<Byte>, p: nat)
    requires forall i :: p <= i < p + SampleSize ==> ByteAt(a, i) == ByteAt(b, i)
    ensures DirectHeaderAt(a, p) == DirectHeaderAt(b, p) && DrumKitHeaderAt(a, p) == DrumKitHeaderAt(b, p)
    ensures MultiHeaderAt(a, p) == MultiHeaderAt(b, p) && SampleHeaderAt(a, p) == SampleHeaderAt(b, p)
    ensures SongHeaderAt(a, p) == SongHeaderAt(b, p) && WaveHeaderAt(a, p) == WaveHeaderAt(b, p)
    ensures InvalidHeaderAt(a, p) == InvalidHeaderAt(b, p) && NoiseHeaderAt(a, p) == NoiseHeaderAt(b, p)
    ensures SquareOneHeaderAt(a, p) == SquareOneHeaderAt(b, p) && SquareTwoHeaderAt(a, p) == SquareTwoHeaderAt(b, p)
    ensures InstrumentHeaderAt(a, p) == InstrumentHeaderAt(b, p)
  {
    WordAtLocal(a, b, p, 4);
    WordAtLocal(a, b, p + 2, 4);
    WordAtLocal(a, b, p + 4, 4);
    WordAtLocal(a, b, p + 6, 4);
    WordAtLocal(a, b, p + 6, 2);
    WordAtLocal(a, b, p + 8, 4);
    WordAtLocal(a, b, p + 12, 4);
  }

  /** What lies before a field does not change what it reads as. */
  lemma {:induction false} WordAtShift(a: seq<Byte>, b: seq<Byte>, off: nat, n: nat)
    ensures WordAt(a + b, |a| + off, n) == WordAt(b, off, n)
    decreases n
  {
    if n > 0 {
      WordAtShift(a, b, off + 1, n - 1);
    }
  }

  /** A sample header reads the same wherever its bytes are placed. */
  lemma SampleHeaderShift(a: seq<Byte>, b: seq<Byte>)
    ensures SampleHeaderAt(a + b, |a|) == SampleHeaderAt(b, 0)
  {
    WordAtShift(a, b, 0, 4);
    WordAtShift(a, b, 6, 2);
    WordAtShift(a, b, 8, 4);
    WordAtShift(a, b, 12, 4);
    assert ByteAt(a + b, |a| + 4) == ByteAt(b, 4);
    assert ByteAt(a + b, |a| + 5) == ByteAt(b, 5);
  }

  /** `rd_bgendian` is `rd_ltendian` of the same bytes reversed. */
  lemma BigEndianRead(rom: seq<Byte>, pos: nat, n: nat)
    ensures ReadBE(rom, pos, n) == LittleEndian(Reverse(Chunk(rom, pos, n)))
    ensures pos + n <= |rom| ==> ReadBE(rom, pos, n) == LittleEndian(Reverse(rom[pos..pos + n]))
  {
    BigEndianIsReversedLittleEndian(Chunk(rom, pos, n));
  }

  // ---------------------------------------------------------------------
  // The song-table signature search

  /**
   * `search_bytes` of `get_song_table_ptr`: five words of the song-selection
   * code, a slot that matches any word, and the end word.
   */
  const SearchBytes: seq<Option<nat>> := [Some(0x1840_0B40), Some(0x0059_8883), Some(0x0089_18C9),
                                         Some(0x680A_1889), Some(0x1C10_6801), None, Some(0x4700_BC01)]
  const OpenSlot: nat := 5

  /** Whether word w fills slot m of the signature. */
  predicate Fills(m: nat, w: nat)
    requires m < |SearchBytes|
  {
    SearchBytes[m] == Some(w) || SearchBytes[m].None?
  }

  /**
   * One popped word: a word that fills slot `match` counts one more match,
   * any other word resets the count to 0, and looking up slot 7 fails.
   */
  function NextMatch(m: nat, w: nat): (r: Result<nat>)
    ensures m >= 7 <==> r == Err(IndexError)
    ensures m == OpenSlot ==> r == Ok(m + 1)
    ensures m < 7 && m != OpenSlot ==> r == (if w == SearchBytes[m].value then Ok(m + 1) else Ok(0))
  {
    if m >= |SearchBytes| then Err(IndexError)
    else if Fills(m, w) then Ok(m + 1)
    else Ok(0)
  }

  /** The inner `while len(header) > 0` loop: the words popped from the front, in order. */
  function MatchWords(ws: seq<nat>, m: nat): Result<nat>
    decreases |ws|
  {
    if ws == [] then Ok(m)
    else match NextMatch(m, ws[0])
      case Err(e) => Err(e)
      case Ok(m') => MatchWords(ws[1..], m')
  }

  /** `array('I').frombytes`: unsigned 4-byte little-endian items. */
  function Items(b: seq<Byte>): (ws: seq<nat>)
    requires |b| % 4 == 0
    ensures |ws| == |b| / 4
  {
    seq(|b| / 4, j requires 0 <= j < |b| / 4 => LittleEndian(b[4 * j..4 * j + 4]))
  }

  /** The bytes left from pos on. */
  function Remaining(rom: seq<Byte>, pos: nat): nat
  {
    if pos < |rom| then |rom| - pos else 0
  }

  /** Seven words a chunk holds. */
  const ChunkBytes: nat := 28

  /**
   * `get_song_table_ptr` from file position pos with `match` = m. A short
   * chunk ends the search: `fromfile` raises `EOFError` (no result) when the
   * bytes it got are whole items, and `ValueError` otherwise. A full chunk's
   * words are matched in order; a count of 7 at its end gives the pointer
   * one word past the chunk.
   */
  function ScanFrom(rom: seq<Byte>, pos: nat, m: nat): Result<Option<int>>
    decreases Remaining(rom, pos)
  {
    var chunk := Chunk(rom, pos, ChunkBytes);
    if |chunk| < ChunkBytes then
      if |chunk| % 4 == 0 then Ok(None) else Err(ValueError)
    else
      match MatchWords(Items(chunk), m)
      case Err(e) => Err(e)
      case Ok(m') =>
        if m' < 7 then ScanFrom(rom, pos + ChunkBytes, m')
        else Ok(Some(ToAddress(WordAt(rom, pos + ChunkBytes + 4, 4))))
  }

  /** Where the search leaves the file position. */
  function ScanEnd(rom: seq<Byte>, pos: nat, m: nat): nat
    decreases Remaining(rom, pos)
  {
    var chunk := Chunk(rom, pos, ChunkBytes);
    if |chunk| < ChunkBytes then After(rom, pos, ChunkBytes)
    else
      match MatchWords(Items(chunk), m)
      case Err(_) => pos + ChunkBytes
      case Ok(m') =>
        if m' < 7 then ScanEnd(rom, pos + ChunkBytes, m')
        else After(rom, pos + ChunkBytes + 4, 4)
  }

  /** One chunk of the search: what `ScanFrom` and `ScanEnd` are, case by case. */
  lemma ScanChunk(rom: seq<Byte>, pos: nat, m: nat)
    ensures var chunk := Chunk(rom, pos, ChunkBytes);
      && (|chunk| < ChunkBytes ==>
            && ScanFrom(rom, pos, m) == (if |chunk| % 4 == 0 then Ok(None) else Err(ValueError))
            && ScanEnd(rom, pos, m) == After(rom, pos, ChunkBytes))
      && (|chunk| == ChunkBytes && MatchWords(Items(chunk), m).Err? ==>
            && ScanFrom(rom, pos, m) == Err(MatchWords(Items(chunk), m).error)
            && ScanEnd(rom, pos, m) == pos + ChunkBytes)
      && (|chunk| == ChunkBytes && MatchWords(Items(chunk), m).Ok? && MatchWords(Items(chunk), m).value < 7 ==>
            && ScanFrom(rom, pos, m) == ScanFrom(rom, pos + ChunkBytes, MatchWords(Items(chunk), m).value)
            && ScanEnd(rom, pos, m) == ScanEnd(rom, pos + ChunkBytes, MatchWords(Items(chunk), m).value))
      && (|chunk| == ChunkBytes && MatchWords(Items(chunk), m).Ok? && MatchWords(Items(chunk), m).value >= 7 ==>
            && ScanFrom(rom, pos, m) == Ok(Some(ToAddress(WordAt(rom, pos + ChunkBytes + 4, 4))))
            && ScanEnd(rom, pos, m) == After(rom, pos + ChunkBytes + 4, 4))
  {
  }

  /** The words of a full chunk are the 4-byte words of the file at pos, pos + 4, ... */
  lemma ItemsAreWords(rom: seq<Byte>, pos: nat)
    requires pos + ChunkBytes <= |rom|
    ensures forall j :: 0 <= j < 7 ==> Items(Chunk(rom, pos, ChunkBytes))[j] == WordAt(rom, pos + 4 * j, 4)
  {
    var c := Chunk(rom, pos, ChunkBytes);
    assert c == rom[pos..pos + ChunkBytes];
    forall j | 0 <= j < 7
      ensures Items(c)[j] == WordAt(rom, pos + 4 * j, 4)
    {
      var a := 4 * j;
      var q := pos + a;
      assert a + 4 <= ChunkBytes;
      assert Items(c)[j] == LittleEndian(c[a..a + 4]);
      assert c[a..a + 4] == rom[q..q + 4] by {
        var x, y := c[a..a + 4], rom[q..q + 4];
        forall i | 0 <= i < 4
          ensures x[i] == y[i]
        {
          assert x[i] == c[a + i] == rom[pos + (a + i)];
        }
      }
      assert rom[q..q + 4] == Chunk(rom, q, 4);
      ReadLEIsWordAt(rom, q, 4);
    }
  }

  /** Once the count has reached 7, popping one more word fails. */
  lemma {:induction false} CountPastSevenFails(ws: seq<nat>, m: nat, k: nat)
    requires k < |ws| && MatchWords(ws[..k], m) == Ok(7)
    ensures MatchWords(ws, m) == Err(IndexError)
    decreases k
  {
    if k == 0 {
      assert ws[..0] == [];
    } else {
      assert ws[..k][0] == ws[0] && ws[..k][1..] == ws[1..][..k - 1];
      match NextMatch(m, ws[0])
      case Err(_) =>
      case Ok(m') => CountPastSevenFails(ws[1..], m', k - 1);
    }
  }

  /** Seven words that fill the signature in order bring a count of 0 to 7. */
  lemma SignatureCounts(ws: seq<nat>)
    requires |ws| == 7 && forall j :: 0 <= j < 7 ==> Fills(j, ws[j])
    ensures MatchWords(ws, 0) == Ok(7)
  {
    assert MatchWords(ws[6..], 6) == Ok(7);
    assert MatchWords(ws[5..], 5) == Ok(7);
    assert MatchWords(ws[4..], 4) == Ok(7);
    assert MatchWords(ws[3..], 3) == Ok(7);
    assert MatchWords(ws[2..], 2) == Ok(7);
    assert MatchWords(ws[1..], 1) == Ok(7);
  }

  /** A non-matching word followed by the first six slots brings a count of 0 to 6. */
  lemma ShiftedCounts(ws: seq<nat>)
    requires |ws| == 7 && ws[0] == 0 && forall j :: 1 <= j < 7 ==> Fills(j - 1, ws[j])
    ensures MatchWords(ws, 0) == Ok(6)
  {
    assert MatchWords(ws[6..], 5) == Ok(6);
    assert MatchWords(ws[5..], 4) == Ok(6);
    assert MatchWords(ws[4..], 3) == Ok(6);
    assert MatchWords(ws[3..], 2) == Ok(6);
    assert MatchWords(ws[2..], 1) == Ok(6);
    assert MatchWords(ws[1..], 0) == Ok(6);
  }

  /** A signature filling one whole chunk, counted from 0, is found and gives the word after the chunk. */
  lemma AlignedSignatureFound(rom: seq<Byte>, pos: nat)
    requires pos + ChunkBytes <= |rom|
    requires forall j :: 0 <= j < 7 ==> Fills(j, WordAt(rom, pos + 4 * j, 4))
    ensures ScanFrom(rom, pos, 0) == Ok(Some(ToAddress(WordAt(rom, pos + ChunkBytes + 4, 4))))
  {
    ItemsAreWords(rom, pos);
    SignatureCounts(Items(Chunk(rom, pos, ChunkBytes)));
  }

  /**
   * The signature one word into the file: the count reaches 7 on the first
   * word of the second chunk, and popping the next word raises `IndexError`
   * instead of returning the pointer.
   */
  lemma ShiftedSignatureRaises(rom: seq<Byte>)
    requires |rom| >= 2 * ChunkBytes
    requires WordAt(rom, 0, 4) == 0
    requires forall j :: 1 <= j < 8 ==> Fills(j - 1, WordAt(rom, 4 * j, 4))
    ensures ScanFrom(rom, 0, 0) == Err(IndexError)
  {
    ItemsAreWords(rom, 0);
    var ws := Items(Chunk(rom, 0, ChunkBytes));
    assert forall j :: 1 <= j < 7 ==> Fills(j - 1, ws[j]) by {
      forall j | 1 <= j < 7
        ensures Fills(j - 1, ws[j])
      {
        assert ws[j] == WordAt(rom, 4 * j, 4);
      }
    }
    ShiftedCounts(ws);
    ItemsAreWords(rom, ChunkBytes);
    var ws2 := Items(Chunk(rom, ChunkBytes, ChunkBytes));
    assert Fills(6, ws2[0]) by {
      assert ws2[0] == WordAt(rom, 4 * 7, 4);
    }
    assert ws2[..1] == [ws2[0]];
    assert MatchWords(ws2[..1], 6) == Ok(7);
    CountPastSevenFails(ws2, 6, 1);
  }

  // ---------------------------------------------------------------------
  // The search as evidently intended: stop at the seventh match

  /**
   * The words popped until the count reaches 7: the count, and how many
   * words were consumed.
   */
  function MatchUntil(ws: seq<nat>, m: nat): (r: (nat, nat))
    requires m < 7
    ensures r.0 <= 7 && r.1 <= |ws| && (r.0 == 7 || r.1 == |ws|)
    ensures r.0 == 7 ==> r.1 > 0
    decreases |ws|
  {
    if ws == [] then (m, 0)
    else
      var m' := NextMatch(m, ws[0]).value;
      if m' == 7 then (7, 1)
      else var rest := MatchUntil(ws[1..], m'); (rest.0, rest.1 + 1)
  }

  /**
   * `get_song_table_ptr` with the count tested after every word: the
   * pointer is read one word past the word that completes the signature.
   */
  function ScanCorrected(rom: seq<Byte>, pos: nat, m: nat): Result<Option<int>>
    requires m < 7
    decreases Remaining(rom, pos)
  {
    var chunk := Chunk(rom, pos, ChunkBytes);
    if |chunk| < ChunkBytes then
      if |chunk| % 4 == 0 then Ok(None) else Err(ValueError)
    else
      var r := MatchUntil(Items(chunk), m);
      if r.0 < 7 then ScanCorrected(rom, pos + ChunkBytes, r.0)
      else Ok(Some(ToAddress(WordAt(rom, pos + 4 * r.1 + 4, 4))))
  }

  /** The last m words of ws fill the first m slots of the signature, in order. */
  ghost predicate Ends(ws: seq<nat>, m: nat)
    decreases m
  {
    m <= 7 && (m == 0 || (|ws| > 0 && Fills(m - 1, ws[|ws| - 1]) && Ends(ws[..|ws| - 1], m - 1)))
  }

  /** The n words of the file from pos on. */
  function Words(rom: seq<Byte>, pos: nat, n: nat): (ws: seq<nat>)
    ensures |ws| == n
  {
    seq(n, j requires 0 <= j < n => WordAt(rom, pos + 4 * j, 4))
  }

  /** Counting through ws after the words seen: the count is matched by the words seen and consumed. */
  lemma {:induction false} MatchUntilEnds(seen: seq<nat>, ws: seq<nat>, m: nat)
    requires m < 7 && Ends(seen, m)
    ensures Ends(seen + ws[..MatchUntil(ws, m).1], MatchUntil(ws, m).0)
    decreases |ws|
  {
    if ws != [] {
      var m' := NextMatch(m, ws[0]).value;
      var seen' := seen + [ws[0]];
      assert seen'[..|seen'| - 1] == seen;
      assert Ends(seen', m');
      if m' == 7 {
        assert ws[..1] == [ws[0]];
      } else {
        MatchUntilEnds(seen', ws[1..], m');
        var k := MatchUntil(ws[1..], m').1;
        assert seen' + ws[1..][..k] == seen + ws[..k + 1];
      }
    } else {
      assert seen + ws[..0] == seen;
    }
  }

  /** The words of the next full chunk extend the words seen so far. */
  lemma WordsExtend(rom: seq<Byte>, start: nat, n: nat, k: nat)
    requires start + 4 * n + ChunkBytes <= |rom| && k <= 7
    ensures Words(rom, start, n) + Items(Chunk(rom, start + 4 * n, ChunkBytes))[..k] == Words(rom, start, n + k)
  {
    var pos := start + 4 * n;
    ItemsAreWords(rom, pos);
    var ws := Items(Chunk(rom, pos, ChunkBytes));
    var a := Words(rom, start, n) + ws[..k];
    var b := Words(rom, start, n + k);
    forall j | 0 <= j < n + k
      ensures a[j] == b[j]
    {
      if j >= n {
        assert a[j] == ws[j - n];
        assert pos + 4 * (j - n) == start + 4 * j;
      }
    }
    assert a == b;
  }

  /** Short of a full chunk, the corrected search finds nothing. */
  lemma ScanCorrectedShort(rom: seq<Byte>, pos: nat, m: nat)
    requires m < 7 && pos + ChunkBytes > |rom|
    ensures ScanCorrected(rom, pos, m) == Ok(None) || ScanCorrected(rom, pos, m) == Err(ValueError)
  {
    assert |Chunk(rom, pos, ChunkBytes)| < ChunkBytes;
  }

  /** One full chunk of the corrected search, with `next` the chunk after it and `q` the word after its k-th. */
  lemma ScanCorrectedChunk(rom: seq<Byte>, pos: nat, next: nat, q: nat, m: nat, c: nat, k: nat)
    requires m < 7 && pos + ChunkBytes <= |rom| && next == pos + ChunkBytes && q == pos + 4 * k + 4
    requires (c, k) == MatchUntil(Items(Chunk(rom, pos, ChunkBytes)), m)
    ensures c < 7 ==> ScanCorrected(rom, pos, m) == ScanCorrected(rom, next, c)
    ensures c == 7 ==> ScanCorrected(rom, pos, m) == Ok(Some(ToAddress(WordAt(rom, q, 4))))
  {
  }

  /** The words seen, with the ones a chunk consumed, end with the count it leaves. */
  lemma ChunkEnds(rom: seq<Byte>, start: nat, n: nat, m: nat, c: nat, k: nat)
    requires m < 7 && Ends(Words(rom, start, n), m) && start + 4 * n + ChunkBytes <= |rom|
    requires (c, k) == MatchUntil(Items(Chunk(rom, start + 4 * n, ChunkBytes)), m)
    ensures Ends(Words(rom, start, n + k), c) && (c < 7 ==> k == 7)
  {
    var ws := Items(Chunk(rom, start + 4 * n, ChunkBytes));
    assert |Chunk(rom, start + 4 * n, ChunkBytes)| == ChunkBytes;
    assert |ws| == 7;
    var seen := Words(rom, start, n);
    MatchUntilEnds(seen, ws, m);
    WordsExtend(rom, start, n, k);
    assert seen + ws[..k] == Words(rom, start, n + k);
  }

  /**
   * One full chunk of the corrected search after n words from start: it
   * leaves count c after consuming k of its words, and the words seen so far
   * end with c signature slots.
   */
  lemma CorrectedChunk(rom: seq<Byte>, start: nat, n: nat, m: nat) returns (c: nat, k: nat)
    requires m < 7 && Ends(Words(rom, start, n), m) && start + 4 * n + ChunkBytes <= |rom|
    ensures c <= 7
    ensures c < 7 ==> && ScanCorrected(rom, start + 4 * n, m) == ScanCorrected(rom, start + 4 * (n + 7), c)
                      && Ends(Words(rom, start, n + 7), c)
    ensures c == 7 ==> && ScanCorrected(rom, start + 4 * n, m) == Ok(Some(ToAddress(WordAt(rom, start + 4 * (n + k) + 4, 4))))
                       && Ends(Words(rom, start, n + k), 7)
  {
    var r := MatchUntil(Items(Chunk(rom, start + 4 * n, ChunkBytes)), m);
    c, k := r.0, r.1;
    ScanCorrectedChunk(rom, start + 4 * n, start + 4 * (n + 7), start + 4 * (n + k) + 4, m, c, k);
    ChunkEnds(rom, start, n, m, c, k);
  }

  /**
   * The corrected search, continued after the n words from start that left
   * the count at m, returns only a pointer read one word past k words from
   * start whose last seven fill the signature.
   */
  lemma {:induction false} CorrectedFindsSignature(rom: seq<Byte>, start: nat, n: nat, m: nat)
    requires m < 7 && Ends(Words(rom, start, n), m)
    ensures var r := ScanCorrected(rom, start + 4 * n, m);
      r.Ok? && r.value.Some? ==>
        exists k: nat :: Ends(Words(rom, start, k), 7) && r.value.value == ToAddress(WordAt(rom, start + 4 * k + 4, 4))
    decreases Remaining(rom, start + 4 * n)
  {
    if start + 4 * n + ChunkBytes > |rom| {
      ScanCorrectedShort(rom, start + 4 * n, m);
    } else {
      var c, k := CorrectedChunk(rom, start, n, m);
      if c < 7 {
        CorrectedFindsSignature(rom, start, n + 7, c);
      } else {
        assert Ends(Words(rom, start, n + k), 7);
      }
    }
  }

  /** The signature's first word, the only word that starts a count from 0. */
  const FirstWord: nat := 0x1840_0B40

  /**
   * Counting through ws, with the signature at index i of ws (negative when
   * it began before ws, the count then holding its first -i slots) and no
   * first word in ws before it: the count reaches 7 on the signature's last
   * word, or ws ends with the part of the signature it holds.
   */
  lemma {:induction false} MatchUntilPresent(ws: seq<nat>, m: nat, i: int)
    requires -7 < i && m == (if i >= 0 then 0 else -i)
    requires forall p :: 0 <= p < i && p < |ws| ==> ws[p] != FirstWord
    requires forall p :: 0 <= p < |ws| && i <= p < i + 7 ==> Fills(p - i, ws[p])
    ensures i + 7 <= |ws| ==> MatchUntil(ws, m) == (7, i + 7)
    ensures i + 7 > |ws| ==> MatchUntil(ws, m) == (if i >= |ws| then 0 else |ws| - i, |ws|)
    decreases |ws|
  {
    if ws != [] {
      var m' := NextMatch(m, ws[0]).value;
      if i > 0 {
        assert ws[0] != FirstWord;
      } else {
        assert Fills(0 - i, ws[0]);
      }
      if m' != 7 {
        forall p | 0 <= p < |ws[1..]| && i - 1 <= p < i + 6
          ensures Fills(p - (i - 1), ws[1..][p])
        {
          assert ws[1..][p] == ws[p + 1];
        }
        MatchUntilPresent(ws[1..], m', i - 1);
      }
    }
  }

  /** Words i to i + 6 from start fill the signature. */
  ghost predicate SignatureAt(rom: seq<Byte>, start: nat, i: nat)
  {
    var sig := Words(rom, start + 4 * i, 7);
    forall j :: 0 <= j < 7 ==> Fills(j, sig[j])
  }

  /** No word from n up to i, counted from start, is the signature's first word. */
  ghost predicate NoFirstWord(rom: seq<Byte>, start: nat, n: nat, i: nat)
  {
    forall j :: n <= j < i ==> Words(rom, start, i)[j] != FirstWord
  }

  /**
   * One chunk of the corrected search at word n, with the signature at
   * words i to i + 6 and no first word from n up to i: the signature's last
   * word in the chunk gives the pointer; otherwise the search goes on with
   * the next chunk and the part of the signature this one held.
   */
  lemma PresentChunk(rom: seq<Byte>, start: nat, n: nat, i: nat)
    requires n <= i + 6 && start + 4 * (n + 7) <= |rom|
    requires NoFirstWord(rom, start, n, i) && SignatureAt(rom, start, i)
    ensures i <= n ==> ScanCorrected(rom, start + 4 * n, if n <= i then 0 else n - i)
                       == Ok(Some(ToAddress(WordAt(rom, start + 4 * (i + 7) + 4, 4))))
    ensures n < i ==> ScanCorrected(rom, start + 4 * n, 0)
                      == ScanCorrected(rom, start + 4 * (n + 7), if i >= n + 7 then 0 else n + 7 - i)
  {
    var pos := start + 4 * n;
    var m := if n <= i then 0 else n - i;
    var c, k := PresentCount(rom, start, n, i);
    ScanCorrectedChunk(rom, pos, pos + ChunkBytes, pos + 4 * k + 4, m, c, k);
  }

  /** How far the chunk at word n counts, with the signature at words i to i + 6. */
  lemma PresentCount(rom: seq<Byte>, start: nat, n: nat, i: nat) returns (c: nat, k: nat)
    requires n <= i + 6 && start + 4 * (n + 7) <= |rom|
    requires NoFirstWord(rom, start, n, i) && SignatureAt(rom, start, i)
    ensures (c, k) == MatchUntil(Items(Chunk(rom, start + 4 * n, ChunkBytes)), if n <= i then 0 else n - i)
    ensures i <= n ==> c == 7 && k == i - n + 7
    ensures n < i ==> c == (if i >= n + 7 then 0 else n + 7 - i) && k == 7
  {
    var ws := Items(Chunk(rom, start + 4 * n, ChunkBytes));
    var m := if n <= i then 0 else n - i;
    ChunkBeforeSignature(rom, start, n, i);
    ChunkOverSignature(rom, start, n, i);
    MatchUntilPresent(ws, m, i - n);
    c, k := MatchUntil(ws, m).0, MatchUntil(ws, m).1;
  }

  /** The words of the chunk at word n that come before word i are not the first signature word. */
  lemma ChunkBeforeSignature(rom: seq<Byte>, start: nat, n: nat, i: nat)
    requires start + 4 * (n + 7) <= |rom| && NoFirstWord(rom, start, n, i)
    ensures var ws := Items(Chunk(rom, start + 4 * n, ChunkBytes));
      forall p :: 0 <= p < i - n && p < |ws| ==> ws[p] != FirstWord
  {
    ItemsAreWords(rom, start + 4 * n);
    var ws := Items(Chunk(rom, start + 4 * n, ChunkBytes));
    forall p | 0 <= p < i - n && p < |ws|
      ensures ws[p] != FirstWord
    {
      assert ws[p] == Words(rom, start, i)[n + p];
    }
  }

  /** The words of the chunk at word n from word i on fill the signature's slots. */
  lemma ChunkOverSignature(rom: seq<Byte>, start: nat, n: nat, i: nat)
    requires n <= i + 6 && start + 4 * (n + 7) <= |rom| && SignatureAt(rom, start, i)
    ensures var ws := Items(Chunk(rom, start + 4 * n, ChunkBytes));
      forall p :: 0 <= p < |ws| && i - n <= p < i - n + 7 ==> Fills(p - (i - n), ws[p])
  {
    ItemsAreWords(rom, start + 4 * n);
    var ws := Items(Chunk(rom, start + 4 * n, ChunkBytes));
    forall p | 0 <= p < |ws| && i - n <= p < i - n + 7
      ensures Fills(p - (i - n), ws[p])
    {
      assert ws[p] == Words(rom, start + 4 * i, 7)[p - (i - n)];
    }
  }

  /**
   * Present implies found: the corrected search, continued at word n of
   * start with the count that word leaves, returns the pointer one word past
   * a signature at words i to i + 6 when no word from n up to i is the
   * signature's first word and the chunk holding its last word, the t-th
   * from n, is whole.
   */
  lemma {:induction false} CorrectedFindsPresentSignature(rom: seq<Byte>, start: nat, n: nat, i: nat, t: nat)
    requires n <= i + 6 && n + 7 * t <= i + 6 < n + 7 * t + 7 && start + 4 * (n + 7 * t + 7) <= |rom|
    requires NoFirstWord(rom, start, n, i) && SignatureAt(rom, start, i)
    ensures ScanCorrected(rom, start + 4 * n, if n <= i then 0 else n - i)
         == Ok(Some(ToAddress(WordAt(rom, start + 4 * (i + 7) + 4, 4))))
    decreases t
  {
    PresentChunk(rom, start, n, i);
    if t > 0 {
      assert n < i && NoFirstWord(rom, start, n + 7, i);
      CorrectedFindsPresentSignature(rom, start, n + 7, i, t - 1);
    } else {
      assert i <= n;
    }
  }

  /**
   * The count drops to 0 on a mismatch without testing the mismatching word
   * against the first slot, so a signature that starts on the word breaking
   * a partial match is never counted, by the source or the corrected search.
   */
  lemma ResetSkipsSignature()
    ensures var ws := [FirstWord, FirstWord, 0x0059_8883, 0x0089_18C9, 0x680A_1889, 0x1C10_6801, 0, 0x4700_BC01];
      && (forall j :: 0 <= j < 7 ==> Fills(j, ws[1..][j]))
      && MatchUntil(ws, 0) == (0, 8) && MatchWords(ws, 0) == Ok(0)
  {
    var ws := [FirstWord, FirstWord, 0x0059_8883, 0x0089_18C9, 0x680A_1889, 0x1C10_6801, 0, 0x4700_BC01];
    assert MatchUntil(ws[7..], 0) == (0, 1) && MatchWords(ws[7..], 0) == Ok(0);
    assert MatchUntil(ws[6..], 0) == (0, 2) && MatchWords(ws[6..], 0) == Ok(0);
    assert MatchUntil(ws[5..], 0) == (0, 3) && MatchWords(ws[5..], 0) == Ok(0);
    assert MatchUntil(ws[4..], 0) == (0, 4) && MatchWords(ws[4..], 0) == Ok(0);
    assert MatchUntil(ws[3..], 0) == (0, 5) && MatchWords(ws[3..], 0) == Ok(0);
    assert MatchUntil(ws[2..], 0) == (0, 6) && MatchWords(ws[2..], 0) == Ok(0);
    assert MatchUntil(ws[1..], 1) == (0, 7) && MatchWords(ws[1..], 1) == Ok(0);
  }

  /** Where the source does find the table, the corrected search finds the same pointer. */
  lemma {:induction false} CorrectedAgreesWhenFound(rom: seq<Byte>, pos: nat, m: nat)
    requires m < 7 && ScanFrom(rom, pos, m).Ok? && ScanFrom(rom, pos, m).value.Some?
    ensures ScanCorrected(rom, pos, m) == ScanFrom(rom, pos, m)
    decreases Remaining(rom, pos)
  {
    var chunk := Chunk(rom, pos, ChunkBytes);
    var ws := Items(chunk);
    var r := MatchWords(ws, m);
    if r.value < 7 {
      MatchUntilAgrees(ws, m);
      CorrectedAgreesWhenFound(rom, pos + ChunkBytes, r.value);
    } else {
      MatchUntilAgrees(ws, m);
    }
  }

  /** A count that stays clear of index 7 until the last word is what stopping at 7 sees too. */
  lemma {:induction false} MatchUntilAgrees(ws: seq<nat>, m: nat)
    requires m < 7 && MatchWords(ws, m).Ok?
    ensures MatchUntil(ws, m) == (MatchWords(ws, m).value, |ws|)
    decreases |ws|
  {
    if ws != [] {
      var m' := NextMatch(m, ws[0]).value;
      if m' != 7 {
        MatchUntilAgrees(ws[1..], m');
      }
    }
  }

  // ---------------------------------------------------------------------
  // Strict UTF-8 decoding (`bytes.decode()`, used by `rd_str`)

  predicate Continuation(b: Byte) { 0x80 <= b <= 0xBF }

  /** The length of the well-formed UTF-8 sequence at the head of b, or 0 when there is none. */
  function SequenceLength(b: seq<Byte>): (n: nat)
    requires |b| > 0
    ensures n <= 4 && n <= |b|
    ensures n == 1 <==> b[0] < 0x80
  {
    var c := b[0];
    if c < 0x80 then 1
    else if 0xC2 <= c <= 0xDF then
      if |b| >= 2 && Continuation(b[1]) then 2 else 0
    else if 0xE0 <= c <= 0xEF then
      var lo := if c == 0xE0 then 0xA0 else 0x80;
      var hi := if c == 0xED then 0x9F else 0xBF;
      if |b| >= 3 && lo <= b[1] <= hi && Continuation(b[2]) then 3 else 0
    else if 0xF0 <= c <= 0xF4 then
      var lo := if c == 0xF0 then 0x90 else 0x80;
      var hi := if c == 0xF4 then 0x8F else 0xBF;
      if |b| >= 4 && lo <= b[1] <= hi && Continuation(b[2]) && Continuation(b[3]) then 4 else 0
    else 0
  }

  /** The code point of the n-byte sequence at the head of b. */
  function CodePoint(b: seq<Byte>, n: nat): nat
    requires 1 <= n <= 4 && n <= |b|
  {
    var c0: int := b[0];
    if n == 1 then c0
    else
      var c1: int := b[1];
      if n == 2 then (c0 % 32) * 64 + c1 % 64
      else
        var c2: int := b[2];
        if n == 3 then (c0 % 16) * 4096 + (c1 % 64) * 64 + c2 % 64
        else
          var c3: int := b[3];
          (c0 % 8) * 262144 + (c1 % 64) * 4096 + (c2 % 64) * 64 + c3 % 64
  }

  /** `b.decode()`: the code points of b, or `None` where Python raises `UnicodeDecodeError`. */
  function Utf8Decode(b: seq<Byte>): Option<seq<nat>>
    decreases |b|
  {
    if b == [] then Some([])
    else
      var n := SequenceLength(b);
      if n == 0 then None
      else match Utf8Decode(b[n..])
        case None => None
        case Some(rest) => Some([CodePoint(b, n)] + rest)
  }

  /** ASCII bytes decode to themselves. */
  lemma {:induction false} AsciiDecodes(b: seq<Byte>)
    requires forall i :: 0 <= i < |b| ==> b[i] < 0x80
    ensures Utf8Decode(b) == Some(b)
    decreases |b|
  {
    if b != [] {
      AsciiDecodes(b[1..]);
      assert [b[0]] + b[1..] == b;
    }
  }

  /** A decoded string is never longer than its bytes, and as long only when every byte is ASCII. */
  lemma {:induction false} DecodeShortens(b: seq<Byte>)
    requires Utf8Decode(b).Some?
    ensures |Utf8Decode(b).value| <= |b|
    ensures |Utf8Decode(b).value| == |b| ==> forall i :: 0 <= i < |b| ==> b[i] < 0x80
    decreases |b|
  {
    if b != [] {
      var n := SequenceLength(b);
      DecodeShortens(b[n..]);
      if |Utf8Decode(b).value| == |b| {
        assert n == 1;
        forall i | 0 <= i < |b|
          ensures b[i] < 0x80
        {
          if i > 0 {
            assert b[i] == b[1..][i - 1];
          }
        }
      }
    }
  }

  // ---------------------------------------------------------------------
  // The file object

  /** The value `_address` holds after the setter ran with addr. */
  function Stored(addr: Option<int>, current: int): int
  {
    if addr.Some? then addr.value else current
  }

  class VirtualFile {
    const data: seq<Byte>
    /** `_address`. */
    var address: int
    /** The file object's position. */
    var pos: nat
    /** `rd_addr`: an attribute sappy/headers.py stores and no reader consults. */
    var rdAddr: Option<int>

    constructor (rom: seq<Byte>)
      ensures data == rom && address == 0 && pos == 0 && rdAddr == None
    {
      data := rom;
      address := 0;
      pos := 0;
      rdAddr := None;
    }

    /** The `address` setter: `None` is ignored; a value is stored, then sought. */
    method SetAddress(addr: Option<int>) returns (ok: bool)
      modifies this
      ensures ok <==> !Rom.Refused(addr)
      ensures address == Stored(addr, old(address)) && rdAddr == old(rdAddr)
      ensures pos == (if ok then Rom.Start(addr, old(pos)) else old(pos))
    {
      if addr.None? {
        return true;
      }
      address := addr.value;
      if addr.value < 0 {
        return false;
      }
      pos := addr.value;
      return true;
    }

    /** `self._file.read(n)` read as a little-endian integer. */
    method ReadNext(n: nat) returns (v: nat)
      modifies this
      ensures v == WordAt(data, old(pos), n) && pos == After(data, old(pos), n)
      ensures address == old(address) && rdAddr == old(rdAddr)
    {
      ReadLEIsWordAt(data, pos, n);
      v := ReadLE(data, pos, n);
      pos := After(data, pos, n);
    }

    /** `rd_byte(addr)`. */
    method RdByte(addr: Option<int>) returns (r: Result<Byte>)
      modifies this
      ensures Rom.Refused(addr) ==> r == Err(OsError) && pos == old(pos)
      ensures !Rom.Refused(addr) ==> r == Ok(ByteAt(data, Rom.Start(addr, old(pos))))
                                     && pos == After(data, Rom.Start(addr, old(pos)), 1)
      ensures address == Stored(addr, old(address)) && rdAddr == old(rdAddr)
    {
      var ok := SetAddress(addr);
      if !ok {
        return Err(OsError);
      }
      WordAtOne(data, pos);
      var v := ReadNext(1);
      return Ok(v);
    }

    /** `rd_ltendian(width, addr)`. */
    method RdLtEndian(width: nat, addr: Option<int>) returns (r: Result<nat>)
      modifies this
      ensures Rom.Refused(addr) ==> r == Err(OsError) && pos == old(pos)
      ensures !Rom.Refused(addr) ==> r == Ok(ReadLE(data, Rom.Start(addr, old(pos)), width))
                                     && pos == After(data, Rom.Start(addr, old(pos)), width)
      ensures address == Stored(addr, old(address)) && rdAddr == old(rdAddr)
    {
      var ok := SetAddress(addr);
      if !ok {
        return Err(OsError);
      }
      ReadLEIsWordAt(data, pos, width);
      var v := ReadNext(width);
      return Ok(v);
    }

    /** `rd_bgendian(width, addr)`: the first byte read is the most significant. */
    method RdBgEndian(width: nat, addr: Option<int>) returns (r: Result<nat>)
      modifies this
      ensures Rom.Refused(addr) ==> r == Err(OsError) && pos == old(pos)
      ensures !Rom.Refused(addr) ==> r == Ok(ReadBE(data, Rom.Start(addr, old(pos)), width))
                                     && pos == After(data, Rom.Start(addr, old(pos)), width)
      ensures address == Stored(addr, old(address)) && rdAddr == old(rdAddr)
    {
      var ok := SetAddress(addr);
      if !ok {
        return Err(OsError);
      }
      var bytes := Chunk(data, pos, width);
      pos := After(data, pos, width);
      return Ok(BigEndian(bytes));
    }

    /** `self._file.read(n)` after the `address` setter ran with addr: the bytes there, fewer at the end. */
    method ReadChunk(addr: Option<int>, n: nat) returns (r: Result<seq<Byte>>)
      modifies this
      ensures Rom.Refused(addr) ==> r == Err(OsError) && pos == old(pos)
      ensures !Rom.Refused(addr) ==> r == Ok(Chunk(data, Rom.Start(addr, old(pos)), n))
                                     && pos == After(data, Rom.Start(addr, old(pos)), n)
      ensures address == Stored(addr, old(address)) && rdAddr == old(rdAddr)
    {
      var ok := SetAddress(addr);
      if !ok {
        return Err(OsError);
      }
      r := Ok(Chunk(data, pos, n));
      pos := After(data, pos, n);
    }

    /**
     * `rd_str(length, addr)`: the bytes there decoded as UTF-8; a byte
     * sequence that is not UTF-8 raises `UnicodeDecodeError`, a `ValueError`.
     */
    method RdStr(length: nat, addr: Option<int>) returns (r: Result<seq<nat>>)
      modifies this
      ensures Rom.Refused(addr) ==> r == Err(OsError) && pos == old(pos)
      ensures !Rom.Refused(addr) ==>
                && r == (match Utf8Decode(Chunk(data, Rom.Start(addr, old(pos)), length))
                         case None => Err(ValueError)
                         case Some(t) => Ok(t))
                && pos == After(data, Rom.Start(addr, old(pos)), length)
      ensures address == Stored(addr, old(address)) && rdAddr == old(rdAddr)
    {
      var c := ReadChunk(addr, length);
      if c.Err? {
        return Err(c.error);
      }
      var t := Utf8Decode(c.value);
      if t.None? {
        return Err(ValueError);
      }
      return Ok(t.value);
    }

    /** `rd_gba_ptr(addr)`: a little-endian word converted by `gba_ptr_to_addr`. */
    method RdGbaPtr(addr: Option<int>) returns (r: Result<int>)
      modifies this
      ensures Rom.Refused(addr) ==> r == Err(OsError) && pos == old(pos)
      ensures !Rom.Refused(addr) ==> r == Ok(ToAddress(WordAt(data, Rom.Start(addr, old(pos)), 4)))
                                     && pos == After(data, Rom.Start(addr, old(pos)), 4)
      ensures address == Stored(addr, old(address)) && rdAddr == old(rdAddr)
    {
      var ok := SetAddress(addr);
      if !ok {
        return Err(OsError);
      }
      var v := ReadNext(4);
      return Ok(ToAddress(v));
    }

    /** `rd_byte()` for a field `offset` bytes into a header that starts at p. */
    method NextByte(ghost p: nat, ghost offset: nat) returns (b: Byte)
      requires pos == After(data, p, offset)
      modifies this
      ensures b == ByteAt(data, p + offset) && pos == After(data, p, offset + 1)
      ensures address == old(address) && rdAddr == old(rdAddr)
    {
      SequentialReads(data, p, offset, 1);
      var r := RdByte(None);
      b := r.value;
    }

    /** `rd_ltendian(n)` for a field `offset` bytes into a header that starts at p. */
    method NextWord(ghost p: nat, ghost offset: nat, n: nat) returns (v: nat)
      requires pos == After(data, p, offset)
      modifies this
      ensures v == WordAt(data, p + offset, n) && pos == After(data, p, offset + n)
      ensures address == old(address) && rdAddr == old(rdAddr)
    {
      SequentialReads(data, p, offset, n);
      var r := RdLtEndian(n, None);
      v := r.value;
    }

    /** `rd_dct_head(addr)`. */
    method RdDctHead(addr: Option<int>) returns (r: Result<DirectHeader>)
      modifies this
      ensures Rom.Refused(addr) ==> r == Err(OsError) && pos == old(pos)
      ensures !Rom.Refused(addr) ==> r == Ok(DirectHeaderAt(data, Rom.Start(addr, old(pos))))
                                     && pos == After(data, Rom.Start(addr, old(pos)), DirectSize)
      ensures address == Stored(addr, old(address)) && rdAddr == old(rdAddr)
    {
      var ok := SetAddress(addr);
      if !ok {
        return Err(OsError);
      }
      ghost var p := pos;
      assert After(data, p, 0) == p;
      var b0 := NextByte(p, 0);
      var b1 := NextByte(p, 1);
      var smpHead := NextWord(p, 2, 4);
      var attack := NextByte(p, 6);
      var hold := NextByte(p, 7);
      var isSustain := NextByte(p, 8);
      var release := NextByte(p, 9);
      return Ok(DirectHeader(b0, b1, smpHead, attack, hold, isSustain, release));
    }

    /** `rd_drmkit_head(addr)`. */
    method RdDrmkitHead(addr: Option<int>) returns (r: Result<DrumKitHeader>)
      modifies this
      ensures Rom.Refused(addr) ==> r == Err(OsError) && pos == old(pos)
      ensures !Rom.Refused(addr) ==> r == Ok(DrumKitHeaderAt(data, Rom.Start(addr, old(pos))))
                                     && pos == After(data, Rom.Start(addr, old(pos)), DrumKitSize)
      ensures address == Stored(addr, old(address)) && rdAddr == old(rdAddr)
    {
      var ok := SetAddress(addr);
      if !ok {
        return Err(OsError);
      }
      ghost var p := pos;
      assert After(data, p, 0) == p;
      var b0 := NextByte(p, 0);
      var b1 := NextByte(p, 1);
      var dctTbl := NextWord(p, 2, 4);
      var b6 := NextByte(p, 6);
      var b7 := NextByte(p, 7);
      var b8 := NextByte(p, 8);
      var b9 := NextByte(p, 9);
      return Ok(DrumKitHeader(b0, b1, dctTbl, b6, b7, b8, b9));
    }

    /** `rd_inst_head(addr)`. */
    method RdInstHead(addr: Option<int>) returns (r: Result<InstrumentHeader>)
      modifies this
      ensures Rom.Refused(addr) ==> r == Err(OsError) && pos == old(pos)
      ensures !Rom.Refused(addr) ==> r == Ok(InstrumentHeaderAt(data, Rom.Start(addr, old(pos))))
                                     && pos == After(data, Rom.Start(addr, old(pos)), InstrumentSize)
      ensures address == Stored(addr, old(address)) && rdAddr == old(rdAddr)
    {
      var ok := SetAddress(addr);
      if !ok {
        return Err(OsError);
      }
      ghost var p := pos;
      assert After(data, p, 0) == p;
      var channel := NextByte(p, 0);
      var drumPitch := NextByte(p, 1);
      return Ok(InstrumentHeader(channel, drumPitch));
    }

    /** The ten single bytes of a header starting at the head. */
    method TenBytes() returns (b: seq<Byte>)
      modifies this
      ensures |b| == 10 && forall i :: 0 <= i < 10 ==> b[i] == ByteAt(data, old(pos) + i)
      ensures pos == After(data, old(pos), 10)
      ensures address == old(address) && rdAddr == old(rdAddr)
    {
      ghost var p := pos;
      assert After(data, p, 0) == p;
      b := [];
      for i := 0 to 10
        invariant |b| == i && pos == After(data, p, i)
        invariant forall j :: 0 <= j < i ==> b[j] == ByteAt(data, p + j)
        invariant address == old(address) && rdAddr == old(rdAddr)
      {
        var x := NextByte(p, i);
        b := b + [x];
      }
    }

    /** `rd_inv_head(addr)`. */
    method RdInvHead(addr: Option<int>) returns (r: Result<InvalidHeader>)
      modifies this
      ensures Rom.Refused(addr) ==> r == Err(OsError) && pos == old(pos)
      ensures !Rom.Refused(addr) ==> r == Ok(InvalidHeaderAt(data, Rom.Start(addr, old(pos))))
                                     && pos == After(data, Rom.Start(addr, old(pos)), InvalidSize)
      ensures address == Stored(addr, old(address)) && rdAddr == old(rdAddr)
    {
      var ok := SetAddress(addr);
      if !ok {
        return Err(OsError);
      }
      var b := TenBytes();
      return Ok(InvalidHeader(b[0], b[1], b[2], b[3], b[4], b[5], b[6], b[7], b[8], b[9]));
    }

    /** `rd_nse_head(addr)`. */
    method RdNseHead(addr: Option<int>) returns (r: Result<NoiseHeader>)
      modifies this
      ensures Rom.Refused(addr) ==> r == Err(OsError) && pos == old(pos)
      ensures !Rom.Refused(addr) ==> r == Ok(NoiseHeaderAt(data, Rom.Start(addr, old(pos))))
                                     && pos == After(data, Rom.Start(addr, old(pos)), NoiseSize)
      ensures address == Stored(addr, old(address)) && rdAddr == old(rdAddr)
    {
      var ok := SetAddress(addr);
      if !ok {
        return Err(OsError);
      }
      var b := TenBytes();
      return Ok(NoiseHeader(b[0], b[1], b[2], b[3], b[4], b[5], b[6], b[7], b[8], b[9]));
    }

    /** `rd_mul_head(addr)`. */
    method RdMulHead(addr: Option<int>) returns (r: Result<MultiHeader>)
      modifies this
      ensures Rom.Refused(addr) ==> r == Err(OsError) && pos == old(pos)
      ensures !Rom.Refused(addr) ==> r == Ok(MultiHeaderAt(data, Rom.Start(addr, old(pos))))
                                     && pos == After(data, Rom.Start(addr, old(pos)), MultiSize)
      ensures address == Stored(addr, old(address)) && rdAddr == old(rdAddr)
    {
      var ok := SetAddress(addr);
      if !ok {
        return Err(OsError);
      }
      ghost var p := pos;
      assert After(data, p, 0) == p;
      var b0 := NextByte(p, 0);
      var b1 := NextByte(p, 1);
      var dctTbl := NextWord(p, 2, 4);
      var kmap := NextWord(p, 6, 4);
      return Ok(MultiHeader(b0, b1, dctTbl, kmap));
    }

    /** `rd_smp_head(addr)`. */
    method RdSmpHead(addr: Option<int>) returns (r: Result<SampleHeader>)
      modifies this
      ensures Rom.Refused(addr) ==> r == Err(OsError) && pos == old(pos)
      ensures !Rom.Refused(addr) ==> r == Ok(SampleHeaderAt(data, Rom.Start(addr, old(pos))))
                                     && pos == After(data, Rom.Start(addr, old(pos)), SampleSize)
      ensures address == Stored(addr, old(address)) && rdAddr == old(rdAddr)
    {
      var ok := SetAddress(addr);
      if !ok {
        return Err(OsError);
      }
      ghost var p := pos;
      assert After(data, p, 0) == p;
      var flags := NextWord(p, 0, 4);
      var b4 := NextByte(p, 4);
      var fineTune := NextByte(p, 5);
      var frequency := NextWord(p, 6, 2);
      var loop := NextWord(p, 8, 4);
      var size := NextWord(p, 12, 4);
      return Ok(SampleHeader(flags, b4, fineTune, frequency, loop, size));
    }

    /** `rd_sng_head(addr)`. */
    method RdSngHead(addr: Option<int>) returns (r: Result<SongHeader>)
      modifies this
      ensures Rom.Refused(addr) ==> r == Err(OsError) && pos == old(pos)
      ensures !Rom.Refused(addr) ==> r == Ok(SongHeaderAt(data, Rom.Start(addr, old(pos))))
                                     && pos == After(data, Rom.Start(addr, old(pos)), SongSize)
      ensures address == Stored(addr, old(address)) && rdAddr == old(rdAddr)
    {
      var ok := SetAddress(addr);
      if !ok {
        return Err(OsError);
      }
      ghost var p := pos;
      assert After(data, p, 0) == p;
      var tracks := NextByte(p, 0);
      var blks := NextByte(p, 1);
      var pri := NextByte(p, 2);
      var reverb := NextByte(p, 3);
      var instBank := NextWord(p, 4, 4);
      return Ok(SongHeader(tracks, blks, pri, reverb, instBank));
    }

    /** `rd_sq1_head(addr)`. */
    method RdSq1Head(addr: Option<int>) returns (r: Result<SquareOneHeader>)
      modifies this
      ensures Rom.Refused(addr) ==> r == Err(OsError) && pos == old(pos)
      ensures !Rom.Refused(addr) ==> r == Ok(SquareOneHeaderAt(data, Rom.Start(addr, old(pos))))
                                     && pos == After(data, Rom.Start(addr, old(pos)), SquareSize)
      ensures address == Stored(addr, old(address)) && rdAddr == old(rdAddr)
    {
      var ok := SetAddress(addr);
      if !ok {
        return Err(OsError);
      }
      var b := TenBytes();
      return Ok(SquareOneHeader(b[0], b[1], b[2], b[3], b[4], b[5], b[6], b[7], b[8], b[9]));
    }

    /** `rd_sq2_head(addr)`. */
    method RdSq2Head(addr: Option<int>) returns (r: Result<SquareTwoHeader>)
      modifies this
      ensures Rom.Refused(addr) ==> r == Err(OsError) && pos == old(pos)
      ensures !Rom.Refused(addr) ==> r == Ok(SquareTwoHeaderAt(data, Rom.Start(addr, old(pos))))
                                     && pos == After(data, Rom.Start(addr, old(pos)), SquareSize)
      ensures address == Stored(addr, old(address)) && rdAddr == old(rdAddr)
    {
      var ok := SetAddress(addr);
      if !ok {
        return Err(OsError);
      }
      var b := TenBytes();
      return Ok(SquareTwoHeader(b[0], b[1], b[2], b[3], b[4], b[5], b[6], b[7], b[8], b[9]));
    }

    /** `rd_wav_head(addr)`. */
    method RdWavHead(addr: Option<int>) returns (r: Result<WaveHeader>)
      modifies this
      ensures Rom.Refused(addr) ==> r == Err(OsError) && pos == old(pos)
      ensures !Rom.Refused(addr) ==> r == Ok(WaveHeaderAt(data, Rom.Start(addr, old(pos))))
                                     && pos == After(data, Rom.Start(addr, old(pos)), WaveSize)
      ensures address == Stored(addr, old(address)) && rdAddr == old(rdAddr)
    {
      var ok := SetAddress(addr);
      if !ok {
        return Err(OsError);
      }
      ghost var p := pos;
      assert After(data, p, 0) == p;
      var b0 := NextByte(p, 0);
      var b1 := NextByte(p, 1);
      var sample := NextWord(p, 2, 4);
      var attack := NextByte(p, 6);
      var decay := NextByte(p, 7);
      var isSustain := NextByte(p, 8);
      var release := NextByte(p, 9);
      return Ok(WaveHeader(b0, b1, sample, attack, decay, isSustain, release));
    }

    /** `header.fromfile(self._file, 7)` followed by the pops: the words of one full chunk, in order. */
    method MatchChunk(m0: nat, words: seq<nat>) returns (r: Result<nat>)
      ensures r == MatchWords(words, m0)
    {
      var header := words;
      var m: nat := m0;
      while |header| > 0
        invariant MatchWords(header, m) == MatchWords(words, m0)
        decreases |header|
      {
        var instruction := header[0];
        header := header[1..];
        if m >= |SearchBytes| {
          return Err(IndexError);
        }
        if SearchBytes[m] == Some(instruction) || SearchBytes[m].None? {
          m := m + 1;
        } else {
          m := 0;
        }
      }
      return Ok(m);
    }

    /** `get_song_table_ptr()`: `None` becomes `Ok(None)`, a raised exception an error. */
    method GetSongTablePtr() returns (r: Result<Option<int>>)
      modifies this
      ensures r == ScanFrom(data, old(pos), 0) && pos == ScanEnd(data, old(pos), 0)
      ensures address == old(address) && rdAddr == old(rdAddr)
    {
      var m: nat := 0;
      while true
        invariant ScanFrom(data, pos, m) == ScanFrom(data, old(pos), 0)
        invariant ScanEnd(data, pos, m) == ScanEnd(data, old(pos), 0)
        invariant address == old(address) && rdAddr == old(rdAddr)
        decreases Remaining(data, pos)
      {
        ScanChunk(data, pos, m);
        var chunk := Chunk(data, pos, ChunkBytes);
        pos := After(data, pos, ChunkBytes);
        if |chunk| < ChunkBytes {
          if |chunk| % 4 != 0 {
            return Err(ValueError);
          }
          return Ok(None);
        }
        var matched := MatchChunk(m, Items(chunk));
        if matched.Err? {
          return Err(matched.error);
        }
        m := matched.value;
        if m < 7 {
          continue;
        }
        pos := pos + 4;
        var ptr := ReadNext(4);
        return Ok(Some(ToAddress(ptr)));
      }
    }
  }
}
