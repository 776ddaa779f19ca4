/**
 * The byte-level `File` object of the top-level fileio.py and its table of
 * file ids. The file's contents are an in-memory byte sequence; the read and
 * write heads are the object's `read_offset` / `write_offset`. Every read
 * goes through `struct.unpack('B', file.read(1))`, so a read at or past the
 * end raises `struct.error` (`StructError`); a seek to a negative position
 * raises `OSError`; a write past the end pads the file with zero bytes.
 */
module FileIo {
  import opened Wrappers
  import opened RomBytes

  /** The number of file ids, `range(256)`. */
  const MaxFiles := 256

  /** The `read_offset` / `write_offset` setters: `None` keeps the head, a negative offset becomes 0. */
  function Clamp(current: int, offset: Option<int>): (r: int)
    ensures offset.None? ==> r == current
    ensures offset.Some? ==> r >= 0 && (offset.value >= 0 ==> r == offset.value) && (offset.value < 0 ==> r == 0)
  {
    if offset.None? then current
    else if offset.value < 0 then 0
    else offset.value
  }

  /** Setting a head twice to the same argument is setting it once; a non-negative head stays non-negative. */
  lemma ClampIdempotent(current: int, offset: Option<int>)
    ensures Clamp(Clamp(current, offset), offset) == Clamp(current, offset)
    ensures current >= 0 ==> Clamp(current, offset) >= 0
  {
  }

  // ---------------------------------------------------------------- file ids

  /** `_check_id`: `FileError(2)` for an id outside 0..255, else whether it is an unused int. */
  function CheckId(ids: set<int>, fileId: Option<int>): (r: Result<bool>)
    ensures r.Err? <==> fileId.Some? && !(0 <= fileId.value < MaxFiles)
    ensures r.Err? ==> r.error == FileError(2)
    ensures r.Ok? ==> (r.value <==> fileId.Some? && fileId.value !in ids)
  {
    if fileId.Some? && !(0 <= fileId.value < MaxFiles) then Err(FileError(2))
    else Ok(fileId.Some? && fileId.value !in ids)
  }

  /** The lowest id in `from..255` that is not in the table. */
  function LowestFree(ids: set<int>, from: nat): (r: Option<int>)
    requires from <= MaxFiles
    ensures r.Some? ==> from <= r.value < MaxFiles && r.value !in ids
    ensures r.Some? ==> forall j :: from <= j < r.value ==> j in ids
    ensures r.None? ==> forall j :: from <= j < MaxFiles ==> j in ids
    decreases MaxFiles - from
  {
    if from == MaxFiles then None
    else if from !in ids then Some(from)
    else LowestFree(ids, from + 1)
  }

  /** An id handed out by `_get_free_file_id` is one `_check_id` accepted beforehand and refuses afterwards. */
  lemma FreeIdPassesCheck(ids: set<int>)
    requires LowestFree(ids, 0).Some?
    ensures CheckId(ids, Some(LowestFree(ids, 0).value)) == Ok(true)
    ensures CheckId(ids + {LowestFree(ids, 0).value}, Some(LowestFree(ids, 0).value)) == Ok(false)
  {
  }

  /** The class-level `_file_table`; only its keys are modelled. */
  class FileTable {
    var ids: set<int>

    constructor()
      ensures ids == {}
    {
      ids := {};
    }

    /** `_get_free_file_id`: reserve and return the lowest unused id. */
    method GetFreeFileId() returns (r: Result<int>)
      modifies this
      ensures r.Ok? <==> LowestFree(old(ids), 0).Some?
      ensures r.Ok? ==> r.value == LowestFree(old(ids), 0).value && ids == old(ids) + {r.value}
      ensures r.Err? ==> r.error == FileError(1) && ids == old(ids)
    {
      for fileId := 0 to MaxFiles
        invariant ids == old(ids)
        invariant LowestFree(ids, 0) == LowestFree(ids, fileId)
      {
        if fileId !in ids {
          ids := ids + {fileId};
          return Ok(fileId);
        }
      }
      return Err(FileError(1));
    }

    /** `File(file_path, file_id)`: an id `_check_id` refuses is replaced by a free one. */
    method Open(contents: seq<Byte>, fileId: Option<int>) returns (r: Result<File>)
      modifies this
      ensures CheckId(old(ids), fileId).Err? ==> r == Err(FileError(2)) && ids == old(ids)
      ensures CheckId(old(ids), fileId) == Ok(true) ==> r.Ok? && r.value.fileId == fileId.value && ids == old(ids) + {fileId.value}
      ensures CheckId(old(ids), fileId) == Ok(false) ==> (r.Ok? <==> LowestFree(old(ids), 0).Some?)
      ensures CheckId(old(ids), fileId) == Ok(false) && r.Ok? ==> r.value.fileId == LowestFree(old(ids), 0).value
      ensures CheckId(old(ids), fileId) == Ok(false) ==> ids == if r.Ok? then old(ids) + {r.value.fileId} else old(ids)
      ensures r.Ok? ==> fresh(r.value) && r.value.data == contents && r.value.readOffset == 0 && r.value.writeOffset == 0
    {
      var check := CheckId(ids, fileId);
      if check.Err? {
        return Err(check.error);
      }
      var id: int;
      if !check.value {
        var free := GetFreeFileId();
        if free.Err? {
          return Err(free.error);
        }
        id := free.value;
      } else {
        id := fileId.value;
        ids := ids + {id};
      }
      var f := new File(contents, id);
      return Ok(f);
    }
  }

  // ---------------------------------------------------------------- reading

  /** `_get` at a position: the byte, or `OSError` for a negative seek, or `struct.error` at the end. */
  function GetByte(data: seq<Byte>, pos: int): (r: Result<Byte>)
    ensures r.Ok? <==> 0 <= pos < |data|
    ensures r.Ok? ==> r.value == data[pos]
    ensures r.Err? ==> r.error == (if pos < 0 then OsError else StructError)
  {
    if pos < 0 then Err(OsError)
    else if pos >= |data| then Err(StructError)
    else Ok(data[pos])
  }

  /** The read head after `_get` at a position. */
  function AfterGet(data: seq<Byte>, pos: int): int
  {
    if pos < 0 then 0 else if pos >= |data| then pos else pos + 1
  }

  /** A width as `range` sees it: a negative width reads or writes nothing. */
  function Width(width: int): nat
  {
    if width < 0 then 0 else width
  }

  /** `read_little_endian(width)` from `start`. */
  function ReadLittleAt(data: seq<Byte>, start: nat, n: nat): (r: Result<nat>)
    ensures r.Ok? <==> n == 0 || start + n <= |data|
    ensures r.Ok? ==> r.value < Pow256(n)
    ensures r.Err? ==> r.error == StructError
  {
    if n == 0 then Ok(0)
    else if start + n <= |data| then
      LittleEndianBound(data[start..start + n]);
      Ok(LittleEndian(data[start..start + n]))
    else Err(StructError)
  }

  /** `read_big_endian(width)` from `start`. */
  function ReadBigAt(data: seq<Byte>, start: nat, n: nat): (r: Result<nat>)
    ensures r.Ok? <==> n == 0 || start + n <= |data|
    ensures r.Err? ==> r.error == StructError
  {
    if n == 0 then Ok(0)
    else if start + n <= |data| then Ok(BigEndian(data[start..start + n])) else Err(StructError)
  }

  /** The read head after a multi-byte read of `n` bytes from `start`, successful or not. */
  function AfterRead(data: seq<Byte>, start: nat, n: nat): nat
  {
    if start + n <= |data| then start + n else if start >= |data| then start else |data|
  }

  /** Appending a byte adds it at the weight of its position. */
  lemma {:induction false} LittleEndianAppend(s: seq<Byte>, b: Byte)
    ensures LittleEndian(s + [b]) == LittleEndian(s) + Pow256(|s|) * b
    decreases |s|
  {
    if s != [] {
      assert (s + [b])[1..] == s[1..] + [b];
      LittleEndianAppend(s[1..], b);
    }
  }

  lemma BigEndianAppend(s: seq<Byte>, b: Byte)
    ensures BigEndian(s + [b]) == BigEndian(s) * 256 + b
  {
    assert (s + [b])[..|s|] == s;
  }

  /** One more byte of a big-endian read at weight 256^i, as the read loop accumulates it. */
  lemma BigEndianStep(s: seq<Byte>, b: Byte, i: nat)
    ensures BigEndian(s) * Pow256(i + 1) + b * Pow256(i) == BigEndian(s + [b]) * Pow256(i)
  {
    BigEndianAppend(s, b);
    var p := Pow256(i);
    var x := BigEndian(s);
    assert Pow256(i + 1) == 256 * p;
    assert x * (256 * p) == (x * 256) * p;
    assert (x * 256 + b) * p == (x * 256) * p + b * p;
  }

  // ---------------------------------------------------------------- VLQ

  /** The value of 7-bit groups, most significant first: each byte contributes `byte % 0x80`. */
  function GroupsValue(s: seq<Byte>): nat
    decreases |s|
  {
    if s == [] then 0 else GroupsValue(s[..|s| - 1]) * 128 + s[|s| - 1] % 128
  }

  /** The number of bytes `read_vlq` reads from `start`: it stops after a byte below 0x80, after the 4th byte, or at the failing read. */
  function VlqCount(data: seq<Byte>, start: nat, k: nat): (r: nat)
    requires 1 <= k <= 4
    ensures k <= r <= 4
    decreases 4 - k
  {
    if start + k - 1 >= |data| || k == 4 || data[start + k - 1] < 0x80 then k
    else VlqCount(data, start, k + 1)
  }

  /** `read_vlq` from `start`: the value read, or `struct.error` when the data ends first. */
  function ReadVlqAt(data: seq<Byte>, start: nat): (r: Result<nat>)
    ensures r.Ok? ==> start + VlqCount(data, start, 1) <= |data|
    ensures r.Err? ==> r.error == StructError
  {
    var k := VlqCount(data, start, 1);
    if start + k <= |data| then Ok(GroupsValue(data[start..start + k])) else Err(StructError)
  }

  /** The read head after `read_vlq` from `start`. */
  function VlqEnd(data: seq<Byte>, start: nat): nat
  {
    var k := VlqCount(data, start, 1);
    if start + k <= |data| then start + k else start + k - 1
  }

  lemma {:induction false} GroupsValueBound(s: seq<Byte>)
    ensures GroupsValue(s) < Pow128(|s|)
    decreases |s|
  {
    if s != [] {
      GroupsValueBound(s[..|s| - 1]);
    }
  }

  function Pow128(n: nat): (r: nat)
    ensures r >= 1
  {
    if n == 0 then 1 else 128 * Pow128(n - 1)
  }

  /** A VLQ read consumes 1 to 4 bytes and yields less than 2^28, the MIDI file limit. */
  lemma VlqBounds(data: seq<Byte>, start: nat)
    requires ReadVlqAt(data, start).Ok?
    ensures ReadVlqAt(data, start).value < 0x1000_0000
    ensures start < VlqEnd(data, start) <= start + 4
  {
    var k := VlqCount(data, start, 1);
    GroupsValueBound(data[start..start + k]);
    assert Pow128(4) == 0x1000_0000;
    assert Pow128(k) <= Pow128(4) by {
      if k < 4 { assert Pow128(k + 1) == 128 * Pow128(k); }
      if k < 3 { assert Pow128(k + 2) == 128 * Pow128(k + 1); }
      if k < 2 { assert Pow128(k + 3) == 128 * Pow128(k + 2); }
    }
  }

  /** The continuation bytes of a multi-byte VLQ: every byte has bit 7 set. */
  function Continued(u: nat): (s: seq<Byte>)
    requires u >= 1
    ensures |s| >= 1 && forall i :: 0 <= i < |s| ==> s[i] >= 0x80
    decreases u
  {
    if u < 128 then [u + 128] else Continued(u / 128) + [u % 128 + 128]
  }

  lemma {:induction false} ContinuedValue(u: nat)
    requires u >= 1
    ensures GroupsValue(Continued(u)) == u
    decreases u
  {
    var s := Continued(u);
    if u < 128 {
      assert s[..0] == [];
    } else {
      ContinuedValue(u / 128);
      assert s[..|s| - 1] == Continued(u / 128);
    }
  }

  /** The variable-length quantity of the Standard MIDI Files 1.0 specification: 7-bit groups, most significant first, bit 7 set on all but the last byte. */
  function EncodeVlq(v: nat): (s: seq<Byte>)
    ensures |s| >= 1 && s[|s| - 1] < 0x80
    ensures forall i :: 0 <= i < |s| - 1 ==> s[i] >= 0x80
    ensures GroupsValue(s) == v
  {
    if v < 128 then
      assert GroupsValue([v]) == GroupsValue([]) * 128 + v % 128;
      [v]
    else
      var s := Continued(v / 128) + [v % 128];
      assert s[..|s| - 1] == Continued(v / 128);
      ContinuedValue(v / 128);
      s
  }

  lemma {:induction false} ContinuedLength(u: nat, k: nat)
    requires 1 <= u < Pow128(k)
    ensures |Continued(u)| <= k
    decreases u
  {
    if u >= 128 {
      assert k >= 2;
      assert u / 128 < Pow128(k - 1);
      ContinuedLength(u / 128, k - 1);
    }
  }

  /** Values below 2^28 need at most four bytes. */
  lemma EncodeVlqLength(v: nat)
    requires v < 0x1000_0000
    ensures |EncodeVlq(v)| <= 4
  {
    if v >= 128 {
      assert Pow128(3) == 0x20_0000;
      ContinuedLength(v / 128, 3);
    }
  }

  /** The scan stops exactly at the first byte below 0x80 when it comes within four bytes. */
  lemma {:induction false} VlqCountStops(data: seq<Byte>, start: nat, k: nat, m: nat)
    requires 1 <= k <= m <= 4 && start + m <= |data|
    requires forall j :: start + k - 1 <= j < start + m - 1 ==> data[j] >= 0x80
    requires data[start + m - 1] < 0x80
    ensures VlqCount(data, start, k) == m
    decreases m - k
  {
    if k < m {
      assert data[start + k - 1] >= 0x80;
      VlqCountStops(data, start, k + 1, m);
    }
  }

  /** Reading back an encoded quantity gives the value and moves past exactly its bytes. */
  lemma VlqRoundTrip(before: seq<Byte>, v: nat, after: seq<Byte>)
    requires v < 0x1000_0000
    ensures var data := before + EncodeVlq(v) + after;
      ReadVlqAt(data, |before|) == Ok(v) && VlqEnd(data, |before|) == |before| + |EncodeVlq(v)|
  {
    var e := EncodeVlq(v);
    var data := before + e + after;
    var p := |before|;
    EncodeVlqLength(v);
    assert forall j :: p <= j < p + |e| ==> data[j] == e[j - p];
    VlqCountStops(data, p, 1, |e|);
    assert data[p..p + |e|] == e;
  }

  // ---------------------------------------------------------------- writing

  /** The file after writing one byte at `pos`: a write past the end pads with zero bytes. */
  function WriteAt(data: seq<Byte>, pos: nat, b: Byte): (r: seq<Byte>)
    ensures |r| == if pos < |data| then |data| else pos + 1
    ensures r[pos] == b
    ensures forall j :: 0 <= j < |r| && j != pos ==> r[j] == if j < |data| then data[j] else 0
  {
    if pos < |data| then data[pos := b] else data + seq(pos - |data|, _ => 0) + [b]
  }

  /** Consecutive single-byte writes of `s` from `pos`. */
  function WriteBytes(data: seq<Byte>, pos: nat, s: seq<Byte>): (r: seq<Byte>)
    decreases |s|
  {
    if s == [] then data
    else WriteAt(WriteBytes(data, pos, s[..|s| - 1]), pos + |s| - 1, s[|s| - 1])
  }

  /** The written bytes sit at `pos..pos+|s|`, and every other existing byte is kept. */
  lemma {:induction false} WriteBytesPlaces(data: seq<Byte>, pos: nat, s: seq<Byte>)
    ensures |WriteBytes(data, pos, s)| >= pos + |s| || s == []
    ensures |WriteBytes(data, pos, s)| >= |data|
    ensures forall j :: 0 <= j < |s| ==> WriteBytes(data, pos, s)[pos + j] == s[j]
    ensures forall j :: 0 <= j < |data| && !(pos <= j < pos + |s|) ==> WriteBytes(data, pos, s)[j] == data[j]
    decreases |s|
  {
    if s != [] {
      var init := s[..|s| - 1];
      WriteBytesPlaces(data, pos, init);
      var w := WriteBytes(data, pos, init);
      forall j | 0 <= j < |s|
        ensures WriteBytes(data, pos, s)[pos + j] == s[j]
      {
        if j < |s| - 1 {
          assert w[pos + j] == init[j];
        }
      }
    }
  }

  /** Writing `s` and reading `|s|` bytes back at the same place gives `s`. */
  lemma WrittenBytesReadBack(data: seq<Byte>, pos: nat, s: seq<Byte>)
    ensures pos + |s| <= |WriteBytes(data, pos, s)| || s == []
    ensures s != [] ==> WriteBytes(data, pos, s)[pos..pos + |s|] == s
  {
    WriteBytesPlaces(data, pos, s);
  }

  /** `data // 16**(i*2) % 256`: byte `i` of `data`, counted from the least significant; 16^(2i) is 256^i. */
  function ByteOf(v: int, i: nat): Byte
  {
    (v / Pow256(i)) % 256
  }

  /** The bytes `write_big_endian` writes, in order: the least significant first. */
  function LowFirst(v: int, w: nat): (s: seq<Byte>)
    ensures |s| == w
    decreases w
  {
    if w == 0 then [] else LowFirst(v, w - 1) + [ByteOf(v, w - 1)]
  }

  /** The first `k` bytes `write_little_endian` writes, in order: the most significant first. */
  function HighFirst(v: int, w: nat, k: nat): (s: seq<Byte>)
    requires k <= w
    ensures |s| == k
    decreases k
  {
    if k == 0 then [] else HighFirst(v, w, k - 1) + [ByteOf(v, w - k)]
  }

  /** Euclidean division is unique. */
  lemma DivModUnique(v: int, d: int, q: int, r: int)
    requires d > 0 && v == d * q + r && 0 <= r < d
    ensures v / d == q && v % d == r
  {
    var q' := v / d;
    var r' := v % d;
    assert d * q' + r' == d * q + r;
    MulDifference(d, q, q');
    MulSmall(d, q - q');
  }

  lemma MulDifference(d: int, a: int, b: int)
    ensures d * (a - b) == d * a - d * b
  {
  }

  /** A multiple of `d` strictly between -d and d is 0. */
  lemma MulSmall(d: int, x: int)
    requires d > 0 && -d < d * x < d
    ensures x == 0
  {
    if x > 0 {
      MulAtLeast(d, x);
      assert false;
    } else if x < 0 {
      MulAtLeast(d, -x);
      MulDifference(d, 0, x);
      assert false;
    }
  }

  lemma {:induction false} MulAtLeast(d: int, x: int)
    requires d > 0 && x >= 1
    ensures d * x >= d
    decreases x
  {
    if x > 1 {
      MulAtLeast(d, x - 1);
      MulDifference(d, x, 1);
    }
  }

  /** Dividing twice is dividing by the product, and the remainder splits into two digits. */
  lemma DivDiv(v: int, a: int, b: int)
    requires a > 0 && b > 0
    ensures v / a / b == v / (a * b)
    ensures v % (a * b) == v % a + a * ((v / a) % b)
  {
    var q := v / a;
    var r := v % a;
    var q2 := q / b;
    var r2 := q % b;
    assert v == a * q + r;
    assert q == b * q2 + r2;
    assert v == (a * b) * q2 + (a * r2 + r) by {
      assert a * q == a * (b * q2) + a * r2;
      assert a * (b * q2) == (a * b) * q2;
    }
    assert a * r2 <= a * (b - 1);
    DivModUnique(v, a * b, q2, a * r2 + r);
  }

  /** The least-significant-first bytes of `v` are `v` mod 256^w read little-endian. */
  lemma {:induction false} LowFirstValue(v: int, w: nat)
    ensures LittleEndian(LowFirst(v, w)) == v % Pow256(w)
    decreases w
  {
    if w > 0 {
      var p := Pow256(w - 1);
      LowFirstValue(v, w - 1);
      LittleEndianAppend(LowFirst(v, w - 1), ByteOf(v, w - 1));
      DivDiv(v, p, 256);
      assert Pow256(w) == p * 256;
    }
  }

  /** The first `k` most-significant-first bytes of a `w`-byte value read big-endian as its top `k` bytes. */
  lemma {:induction false} HighFirstValue(v: int, w: nat, k: nat)
    requires k <= w
    ensures BigEndian(HighFirst(v, w, k)) == (v / Pow256(w - k)) % Pow256(k)
    decreases k
  {
    if k > 0 {
      HighFirstValue(v, w, k - 1);
      BigEndianAppend(HighFirst(v, w, k - 1), ByteOf(v, w - k));
      var p := Pow256(w - k);
      var u := v / p;
      DivDiv(v, p, 256);
      assert Pow256(w - (k - 1)) == p * 256;
      assert v / Pow256(w - (k - 1)) == u / 256;
      DivDiv(u, 256, Pow256(k - 1));
      assert Pow256(k) == 256 * Pow256(k - 1);
    }
  }

  /** As written, `write_big_endian` followed by `read_little_endian` at the same offset gives back the value modulo 256^width. */
  lemma WriteBigEndianReadsLittle(data: seq<Byte>, pos: nat, w: nat, v: int)
    ensures ReadLittleAt(WriteBytes(data, pos, LowFirst(v, w)), pos, w) == Ok(v % Pow256(w))
  {
    var s := LowFirst(v, w);
    WrittenBytesReadBack(data, pos, s);
    LowFirstValue(v, w);
  }

  /** As written, `write_little_endian` followed by `read_big_endian` at the same offset gives back the value modulo 256^width. */
  lemma WriteLittleEndianReadsBig(data: seq<Byte>, pos: nat, w: nat, v: int)
    ensures ReadBigAt(WriteBytes(data, pos, HighFirst(v, w, w)), pos, w) == Ok(v % Pow256(w))
  {
    var s := HighFirst(v, w, w);
    WrittenBytesReadBack(data, pos, s);
    HighFirstValue(v, w, w);
  }

  /** As written, a two-byte big-endian write of 0x0102 reads back big-endian as 0x0201, wherever it is written. */
  lemma WriteBigEndianSwapsBytes(data: seq<Byte>, pos: nat)
    ensures LowFirst(0x0102, 2) == [0x02, 0x01]
    ensures ReadBigAt(WriteBytes(data, pos, LowFirst(0x0102, 2)), pos, 2) == Ok(0x0201)
  {
    var s := LowFirst(0x0102, 2);
    assert s == [0x02, 0x01] by {
      assert ByteOf(0x0102, 0) == 0x02;
      assert Pow256(1) == 256;
      assert ByteOf(0x0102, 1) == 0x01;
      assert LowFirst(0x0102, 1) == [0x02];
    }
    WrittenBytesReadBack(data, pos, s);
    assert BigEndian(s) == 0x0201 by {
      BigEndianAppend([0x02], 0x01);
      BigEndianAppend([], 0x02);
      assert [] + [0x02] == [0x02] && [0x02] + [0x01] == s;
    }
  }

  /** The intended `write_big_endian`: the most significant byte first. */
  function WriteBigEndianIntended(data: seq<Byte>, pos: nat, w: nat, v: int): seq<Byte>
  {
    WriteBytes(data, pos, HighFirst(v, w, w))
  }

  /** The intended `write_little_endian`: the least significant byte first. */
  function WriteLittleEndianIntended(data: seq<Byte>, pos: nat, w: nat, v: int): seq<Byte>
  {
    WriteBytes(data, pos, LowFirst(v, w))
  }

  /** The intended writers round-trip with the readers of the same byte order. */
  lemma IntendedWritersRoundTrip(data: seq<Byte>, pos: nat, w: nat, v: int)
    ensures ReadBigAt(WriteBigEndianIntended(data, pos, w, v), pos, w) == Ok(v % Pow256(w))
    ensures ReadLittleAt(WriteLittleEndianIntended(data, pos, w, v), pos, w) == Ok(v % Pow256(w))
  {
    WriteLittleEndianReadsBig(data, pos, w, v);
    WriteBigEndianReadsLittle(data, pos, w, v);
  }

  // ---------------------------------------------------------------- the file object

  /** An open file: its bytes, the two heads and its id. */
  class File {
    var data: seq<Byte>
    var readOffset: int
    var writeOffset: int
    const fileId: int

    /** The heads start at 0, and the setters never make them negative. */
    predicate Valid()
      reads this
    {
      readOffset >= 0 && writeOffset >= 0
    }

    constructor(contents: seq<Byte>, id: int)
      ensures data == contents && readOffset == 0 && writeOffset == 0 && fileId == id
      ensures Valid()
    {
      data := contents;
      readOffset := 0;
      writeOffset := 0;
      fileId := id;
    }

    method SetReadOffset(offset: Option<int>)
      modifies this`readOffset
      ensures readOffset == Clamp(old(readOffset), offset)
    {
      if offset.None? {
        return;
      }
      readOffset := if offset.value < 0 then 0 else offset.value;
    }

    method SetWriteOffset(offset: Option<int>)
      modifies this`writeOffset
      ensures writeOffset == Clamp(old(writeOffset), offset)
    {
      if offset.None? {
        return;
      }
      writeOffset := if offset.value < 0 then 0 else offset.value;
    }

    /** `read_byte(offset)`: the head is set, then `_get` seeks to the offset as given. */
    method ReadByte(offset: Option<int>) returns (r: Result<Byte>)
      modifies this`readOffset
      ensures var pos := if offset.None? then old(readOffset) else offset.value;
        r == GetByte(data, pos) && readOffset == AfterGet(data, pos)
    {
      SetReadOffset(offset);
      var pos := if offset.None? then readOffset else offset.value;
      SetReadOffset(Some(pos));
      if pos < 0 {
        return Err(OsError);
      }
      if pos >= |data| {
        return Err(StructError);
      }
      r := Ok(data[pos]);
      readOffset := pos + 1;
    }

    /** `read_little_endian(width, offset)`. */
    method ReadLittleEndian(width: int, offset: Option<int>) returns (r: Result<nat>)
      requires Valid()
      modifies this`readOffset
      ensures var start := Clamp(old(readOffset), offset);
        r == ReadLittleAt(data, start, Width(width)) && readOffset == AfterRead(data, start, Width(width))
    {
      SetReadOffset(offset);
      var start := readOffset;
      var out := 0;
      for i := 0 to Width(width)
        invariant readOffset == start + i && (i == 0 || start + i <= |data|)
        invariant out == if i == 0 then 0 else LittleEndian(data[start..start + i])
      {
        var b := ReadByte(None);
        if b.Err? {
          return Err(b.error);
        }
        assert data[start..start + i + 1] == data[start..start + i] + [b.value];
        LittleEndianAppend(data[start..start + i], b.value);
        out := out + b.value * Pow256(i);
      }
      return Ok(out);
    }

    /** `read_big_endian(width, offset)`: the first byte read is the most significant. */
    method ReadBigEndian(width: int, offset: Option<int>) returns (r: Result<nat>)
      requires Valid()
      modifies this`readOffset
      ensures var start := Clamp(old(readOffset), offset);
        r == ReadBigAt(data, start, Width(width)) && readOffset == AfterRead(data, start, Width(width))
    {
      SetReadOffset(offset);
      var start := readOffset;
      var n := Width(width);
      var out := 0;
      for i := n downto 0
        invariant readOffset == start + (n - i) && (i == n || start + (n - i) <= |data|)
        invariant out == if i == n then 0 else BigEndian(data[start..start + (n - i)]) * Pow256(i)
      {
        var b := ReadByte(None);
        if b.Err? {
          return Err(b.error);
        }
        var k := n - i - 1;
        assert data[start..start + k + 1] == data[start..start + k] + [b.value];
        BigEndianStep(data[start..start + k], b.value, i);
        out := out + b.value * Pow256(i);
      }
      return Ok(out);
    }

    /** `read_vlq(offset)`: 7-bit groups until a byte below 0x80, four bytes at most. */
    method ReadVlq(offset: Option<int>) returns (r: Result<nat>)
      requires Valid()
      modifies this`readOffset
      ensures var start := Clamp(old(readOffset), offset);
        r == ReadVlqAt(data, start) && readOffset == VlqEnd(data, start)
    {
      SetReadOffset(offset);
      var start := readOffset;
      var vlq := 0;
      var count := 0;
      while true
        invariant 0 <= count < 4 && readOffset == start + count && (count == 0 || start + count <= |data|)
        invariant vlq == if count == 0 then 0 else GroupsValue(data[start..start + count])
        invariant VlqCount(data, start, 1) == VlqCount(data, start, count + 1)
        decreases 4 - count
      {
        var b := ReadByte(None);
        if b.Err? {
          return Err(b.error);
        }
        assert data[start..start + count + 1][..count] == data[start..start + count];
        vlq := vlq * 128 + b.value % 0x80;
        count := count + 1;
        if count == 4 || b.value < 0x80 {
          break;
        }
      }
      return Ok(vlq);
    }

    /** `read_gba_rom_pointer(offset)`: a little-endian word converted by `gba_rom_pointer_to_offset`; the default offset -1 clamps to 0. */
    method ReadGbaRomPointer(offset: Option<int>) returns (r: Result<int>)
      requires Valid()
      modifies this`readOffset
      ensures var start := Clamp(old(readOffset), offset);
        var w := ReadLittleAt(data, start, 4);
        (r.Ok? <==> w.Ok?) && (r.Ok? ==> r.value == ToAddress(w.value))
    ensures Valid() && readOffset == AfterRead(data, Clamp(old(readOffset), offset), 4)
    {
      var w := ReadLittleEndian(4, offset);
      if w.Err? {
        return Err(w.error);
      }
      return Ok(ToAddress(w.value));
    }

    /** `write_byte(b, offset)`: a negative seek raises `OSError`, a value outside 0..255 `struct.error`. */
    method WriteByte(b: int, offset: Option<int>) returns (r: Result<()>)
      modifies this`writeOffset, this`data
      ensures var pos := if offset.None? then old(writeOffset) else offset.value;
        (r.Ok? <==> pos >= 0 && 0 <= b < 256)
        && (pos < 0 ==> r == Err(OsError) && writeOffset == 0 && data == old(data))
        && (pos >= 0 && !(0 <= b < 256) ==> r == Err(StructError) && writeOffset == pos && data == old(data))
        && (r.Ok? ==> data == WriteAt(old(data), pos, b) && writeOffset == pos + 1)
    {
      SetWriteOffset(offset);
      var pos := if offset.None? then writeOffset else offset.value;
      SetWriteOffset(Some(pos));
      if pos < 0 {
        return Err(OsError);
      }
      if !(0 <= b < 256) {
        return Err(StructError);
      }
      data := WriteAt(data, pos, b);
      writeOffset := pos + 1;
      return Ok(());
    }

    /** `write_big_endian(width, value, offset)`: as written, byte `i` of the value goes out `i`-th, least significant first. */
    method WriteBigEndian(width: int, value: int, offset: Option<int>)
      requires Valid()
      modifies this`writeOffset, this`data
      ensures var start := Clamp(old(writeOffset), offset);
        data == WriteBytes(old(data), start, LowFirst(value, Width(width))) && writeOffset == start + Width(width)
    {
      SetWriteOffset(offset);
      var start := writeOffset;
      for i := 0 to Width(width)
        invariant writeOffset == start + i
        invariant data == WriteBytes(old(data), start, LowFirst(value, i))
      {
        var _ := WriteByte(ByteOf(value, i), None);
        assert LowFirst(value, i + 1)[..i] == LowFirst(value, i);
      }
    }

    /** `write_little_endian(width, value, offset)`: as written, the most significant byte goes out first. */
    method WriteLittleEndian(width: int, value: int, offset: Option<int>)
      requires Valid()
      modifies this`writeOffset, this`data
      ensures var start := Clamp(old(writeOffset), offset);
        data == WriteBytes(old(data), start, HighFirst(value, Width(width), Width(width))) && writeOffset == start + Width(width)
    {
      SetWriteOffset(offset);
      var start := writeOffset;
      var n := Width(width);
      for i := n downto 0
        invariant writeOffset == start + (n - i)
        invariant data == WriteBytes(old(data), start, HighFirst(value, n, n - i))
      {
        var _ := WriteByte(ByteOf(value, i), None);
        assert HighFirst(value, n, n - i)[..n - i - 1] == HighFirst(value, n, n - i - 1);
      }
    }
  }
}
