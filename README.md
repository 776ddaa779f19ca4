# SapPy sound-engine model in Dafny

This project models the core of SapPy, a reader and player for the M4A ("Sappy")
sound engine found in Game Boy Advance ROMs. It covers:

- the ROM readers: `GBARom` in `sappy/romio.py`, `VirtualFile` in `sappy/fileio.py`, and the root `fileio.File` with its big- and little-endian codecs;
- the header and voice records: song, instrument, DirectSound, PSG and key-split voices;
- the sequencer's instruction set and its command objects, and the track state they act on;
- the sound envelopes (`SoundEnvelope` in `sappy/m4a.py` and the `Mixer` in `sappy/engine.py`);
- the per-channel decoder (`sappy/decoder.py`) and the song parser (`sappy/parser.py`);
- the player's note and channel bookkeeping (`sappy/player.py`);
- the key-indexed `Collection` container (`containers.py`) and the root `player.py` header readers.

ROM contents are sequences of bytes. Decoders are functions on those bytes,
and the round trips are proved against matching encoders. Objects whose
methods update fields in place become classes with `modifies` frames. Each
such method is proved against a specification function of the old state.

The source loops that need not terminate take an explicit `fuel` argument and
return `OutOfFuel` when it runs out. These are the parser's track loop, the
decoder's channel loop, the loop-offset search, the M4A track update and the
player's channel update.

## Model

| member | source | states |
|---|---|---|
| Containers.KeyText | containers.py:166 | `str(key)` keeps a given key and turns a missing key into the text "None" |
| Containers.InsertIndex | containers.py:176-180 | where `deque.insert` puts an item: the index itself when in range, counted from the end when negative, clamped to both ends otherwise |
| Containers.InsertAt | containers.py:176-180 | `deque.insert` adds exactly the item at the clamped index, keeps the prefix and shifts the suffix, and is a permutation of the old storage plus the item |
| Containers.FirstIndex | containers.py:88 | the index `deque.remove` searches for: the first occurrence, with no occurrence before it |
| Containers.RemoveFirst | containers.py:88 | `deque.remove` drops exactly the first occurrence of the item and keeps every other element in order |
| Containers.Normalize | containers.py:92 | an int index into the deque is valid exactly for -n <= i < n and then denotes i or i + n |
| Containers.AddItem | containers.py:152-180 | `add` succeeds exactly when the key text is non-empty and unused and `before`/`after` do not clash; an empty or used key raises `KeyError` with nothing changed; a clash raises `ValueError` after recording the key; success records the key and adds its name to the storage once: at `before - 1` when `before` is given, else at `after + 1` when `after` is, else at the end, each as `list.insert` places it |
| Containers.DeleteItem | containers.py:85-92 | `del` by name raises `KeyError` exactly for an unknown name and otherwise drops the key and one copy of its name; by name the storage loses exactly the first copy of the name; `del` by index succeeds exactly for an index in range, removes exactly the slot the index names (counted from the end when negative) and keeps the keys |
| Containers.GetItem | containers.py:102-110 | lookup by name never raises and gives the keyed item or `None`; lookup by index succeeds exactly in range and never yields `None`; the only error is `IndexError` |
| Containers.HasItem | containers.py:80-83 | an int is looked up among the stored values, a string among the keys, any other object is never contained |
| Containers.AddThenGet | containers.py:152-180 | after a successful `add` the item is found under its key and the key is contained |
| Containers.AddKeepsConsistent | containers.py:152-180 | a successful `add` keeps every recorded key's name in the storage |
| Containers.DeleteKeepsConsistent | containers.py:85-92 | deleting by name keeps every remaining key's name in the storage |
| Containers.DeleteThenGet | containers.py:85-92 | after a successful delete by name the name looks up to `None` and is no longer contained |
| Containers.RemoveLastAdded | containers.py:88 | removing an item just appended that did not occur before gives back the original deque |
| Containers.AddThenDelete | containers.py:85-92 | adding a fresh key at the end and deleting it again restores the collection exactly |
| Containers.IndexReadsThroughKey | containers.py:104-107 | an int index whose slot holds a key name reads through to the keyed item |
| Containers.AddClashOrphansKey | containers.py:166-175 | as written, equal non-zero `before` and `after` record the key, raise `ValueError`, and leave a key whose name is in no slot, so a later delete raises `ValueError` and leaves the collection as before the add |
| Containers.AddChecked | containers.py:152-180 | the corrected `add` changes nothing on any error and otherwise behaves exactly like `add` |
| Containers.AddCheckedKeepsConsistent | containers.py:152-180 | the corrected `add` keeps every recorded key in the storage whatever its outcome |
| Containers.Collection.constructor | containers.py:73-78 | a collection built from a plain iterable holds its items in order and no keys |
| Containers.Collection.Add | containers.py:152-180 | the method's new storage, keys and outcome are those of `AddItem` |
| Containers.Collection.Delete | containers.py:85-92 | the method's new storage, keys and outcome are those of `DeleteItem` |
| Containers.Collection.Get | containers.py:102-110 | the method returns what `GetItem` gives on the current state |
| Containers.Collection.Contains | containers.py:80-83 | the method answers what `HasItem` gives on the current state |
| Containers.Collection.Count | containers.py:116-117 | `len` is the length of the storage |
| Containers.Collection.Clear | containers.py:182-185 | `clear` empties both the storage and the keys, which is a consistent state |
| FileIo.Clamp | fileio.py:88-94 | setting a head: `None` keeps it, a negative offset becomes 0, any other offset is taken as given |
| FileIo.ClampIdempotent | fileio.py:88-94 | setting a head twice with the same argument is setting it once, and a non-negative head stays non-negative |
| FileIo.CheckId | fileio.py:156-171 | `_check_id` raises error 2 exactly for an id outside 0..255 and otherwise accepts exactly an unused int id |
| FileIo.LowestFree | fileio.py:214-218 | the id picked is the lowest unused one in range, and none exists exactly when all are used |
| FileIo.FreeIdPassesCheck | fileio.py:204-218 | an id `_get_free_file_id` hands out passes `_check_id` before it is taken and fails it afterwards |
| FileIo.FileTable.GetFreeFileId | fileio.py:204-218 | the method reserves and returns the lowest free id, or raises error 1 with the table unchanged when all 256 are in use |
| FileIo.FileTable.Open | fileio.py:31-65 | opening raises error 2 for an out-of-range id, registers an accepted id, otherwise takes the lowest free id and registers it, leaving the table unchanged when none is free; the new file holds the contents with both heads at 0 |
| FileIo.GetByte | fileio.py:185-202 | `_get` yields the byte exactly for a position inside the data, `OSError` for a negative seek and `struct.error` at or past the end |
| FileIo.ReadLittleAt | fileio.py:362-377 | a little-endian read succeeds exactly when all its bytes exist, yields a value below 256^width, and otherwise raises `struct.error` |
| FileIo.ReadBigAt | fileio.py:345-360 | a big-endian read succeeds exactly when all its bytes exist and otherwise raises `struct.error` |
| FileIo.LittleEndianAppend | fileio.py:375-376 | one more byte of the read loop adds it at the weight of its position |
| FileIo.BigEndianStep | fileio.py:358-359 | one more byte of the big-endian read loop keeps the accumulated value equal to the big-endian value of the bytes read so far |
| FileIo.VlqCount | fileio.py:337-342 | `read_vlq` consumes between one and four bytes |
| FileIo.ReadVlqAt | fileio.py:324-343 | a VLQ read succeeds only when every byte it consumes exists, and otherwise raises `struct.error` |
| FileIo.VlqBounds | fileio.py:324-343 | a VLQ read consumes 1 to 4 bytes and yields a value below 2^28 |
| FileIo.EncodeVlq | fileio.py:324-343 | the encoder the reader inverts: bit 7 set on every byte but the last, and the 7-bit groups spell the value |
| FileIo.EncodeVlqLength | fileio.py:341 | values below 2^28 encode in at most four bytes, the reader's limit |
| FileIo.VlqCountStops | fileio.py:341 | the read stops exactly at the first byte below 0x80 when it comes within four bytes |
| FileIo.VlqRoundTrip | fileio.py:324-343 | reading back an encoded value below 2^28, wherever it sits in the data, gives the value and ends just past its bytes |
| FileIo.WriteAt | fileio.py:220-237 | `_put` stores the byte at the position, pads a write past the end with zero bytes and keeps every other byte |
| FileIo.WriteBytesPlaces | fileio.py:254-264 | consecutive writes place the bytes at pos..pos+n and keep every other existing byte |
| FileIo.WrittenBytesReadBack | fileio.py:254-264 | bytes written at a position read back unchanged from there |
| FileIo.LowFirst | fileio.py:278-280 | `write_big_endian` emits exactly `width` bytes |
| FileIo.HighFirst | fileio.py:294-296 | `write_little_endian` emits exactly `width` bytes |
| FileIo.LowFirstValue | fileio.py:278-280 | the bytes `write_big_endian` emits are the value modulo 256^width in little-endian order |
| FileIo.HighFirstValue | fileio.py:294-296 | the bytes `write_little_endian` emits are the value modulo 256^width in big-endian order |
| FileIo.WriteBigEndianReadsLittle | fileio.py:266-280 | as written, `write_big_endian` is undone by `read_little_endian`, not by `read_big_endian` |
| FileIo.WriteLittleEndianReadsBig | fileio.py:282-296 | as written, `write_little_endian` is undone by `read_big_endian`, not by `read_little_endian` |
| FileIo.WriteBigEndianSwapsBytes | fileio.py:266-280 | as written, a two-byte big-endian write of 0x0102 reads back big-endian as 0x0201 |
| FileIo.IntendedWritersRoundTrip | fileio.py:266-296 | the corrected writers round-trip with the reader of the same byte order |
| FileIo.File.constructor | fileio.py:31-65 | a new file holds its contents and id with both heads at 0 |
| FileIo.File.SetReadOffset | fileio.py:88-94 | the read head becomes `Clamp` of the offset |
| FileIo.File.SetWriteOffset | fileio.py:107-112 | the write head becomes `Clamp` of the offset |
| FileIo.File.ReadByte | fileio.py:310-322 | the result is `GetByte` at the offset as given, and the head moves one past a byte read |
| FileIo.File.ReadLittleEndian | fileio.py:362-377 | the result is `ReadLittleAt` from the clamped offset, and the head ends after the bytes read |
| FileIo.File.ReadBigEndian | fileio.py:345-360 | the result is `ReadBigAt` from the clamped offset, and the head ends after the bytes read |
| FileIo.File.ReadVlq | fileio.py:324-343 | the result is `ReadVlqAt` from the clamped offset, and the head ends after the bytes consumed |
| FileIo.File.ReadGbaRomPointer | fileio.py:396-408 | a successful read of the little-endian word is converted by `gba_rom_pointer_to_offset`; a short read raises; the read head ends after the bytes read, as for `read_little_endian` |
| FileIo.File.WriteByte | fileio.py:254-264 | a write succeeds exactly for a non-negative position and a value in 0..255; a negative seek raises `OSError` and resets the head, a bad value raises `struct.error`; success stores the byte and moves the head past it |
| FileIo.File.WriteBigEndian | fileio.py:266-280 | the data becomes the old data with the `LowFirst` bytes written at the clamped offset, and the head ends after them |
| FileIo.File.WriteLittleEndian | fileio.py:282-296 | the data becomes the old data with the `HighFirst` bytes written at the clamped offset, and the head ends after them |
| ShortLen.SlenToTicks | player.py:465-467 | `slen_to_ticks` has an entry exactly for the codes 0x00..0x30 and gives `None` for any other |
| ShortLen.SlenIdentity | player.py:36-61 | the codes 0x00..0x18 are tick counts as they stand |
| ShortLen.SlenIncreasing | player.py:36-86 | `SHORT_LEN` strictly increases with its key |
| ShortLen.SlenTableEnd | player.py:36-86 | the table ends at 0x30 -> 0x60, its largest value |
| ShortLen.SlenDisagreesWithWaitTable | player.py:36-86 | as written, `SHORT_LEN` differs from the durations the wait opcodes name exactly at codes 0x1E, 0x1F, 0x22, 0x23 and 0x24 |
| ShortLen.SlenToTicksCorrected | player.py:465-467 | the corrected table has the same domain and gives, for code k, the duration named by wait opcode 0x80 + k |
| ShortLen.SlenCorrectedIncreasing | player.py:36-86 | the corrected table still strictly increases |
| PlayerHeads.ReadSongHead | player.py:384-397 | `read_song_head` succeeds exactly when its 8 bytes exist, then yields four bytes and a little-endian word from the offset; otherwise `struct.error`; the head ends after what was read |
| PlayerHeads.ReadDirectHead | player.py:262-277 | `read_direct_head` succeeds exactly when its 10 bytes exist and yields b0, b1, the 4-byte sample pointer and the four envelope bytes; otherwise `struct.error` |
| PlayerHeads.ReadSampleHead | player.py:368-381 | as written, `read_sample_head` never returns a header: `TypeError` when its 14 bytes exist, `struct.error` otherwise |
| PlayerHeads.ReadSampleHeadIntended | player.py:172-181 | the corrected reader succeeds exactly when the 16 bytes of a `SampleHeader` exist and yields flags, b4, fine tune, frequency, loop and size in that layout |
| RomBytes.LittleEndianBound | sappy/rom.py:157 | an n-byte little-endian word is below 256^n |
| RomBytes.BigEndianIsReversedLittleEndian | sappy/fileio.py:245-258 | reading big-endian is reading the reversed bytes little-endian |
| RomBytes.Chunk | sappy/rom.py:157 | `file.read(n)` returns at most n bytes: the n bytes in full when they exist and nothing at or past the end |
| RomBytes.After | sappy/rom.py:157 | a read moves the file position by the bytes it returned: to min(pos + n, size) inside the file, not at all past its end |
| RomBytes.ReadByte | sappy/rom.py:141-157 | a one-byte read is the byte at the position, or 0 at the end of the ROM |
| RomBytes.ReadLEBound | sappy/rom.py:141-157 | every read value fits its width, even a read cut short by the end |
| RomBytes.ReadAdvances | sappy/rom.py:157 | a read inside the file consumes at least one and at most n bytes |
| RomBytes.ByteAt | sappy/rom.py:141-157 | the byte a one-byte read yields: the ROM byte inside the file, 0 at or past its end |
| RomBytes.Padded | sappy/rom.py:141-157 | the n bytes from a position are, one by one, the bytes single reads would yield |
| RomBytes.ReadLEIsWordAt | sappy/rom.py:141-157 | a read of n bytes equals the little-endian word of the zero-padded bytes from the position |
| RomBytes.SequentialReads | sappy/rom.py:141-157 | a read of a bytes then b bytes leaves the head where one read of a + b would, and the second read yields the word at pos + a |
| RomBytes.ToBytesLE | sappy/rom.py:278 | `int.to_bytes(n, 'little')` yields exactly n bytes |
| RomBytes.ToBytesOfWordAt | sappy/rom.py:278 | re-encoding a read word as n bytes gives back the zero-padded bytes that were read |
| RomBytes.WordAtOfToBytes | sappy/rom.py:278 | bytes written by `to_bytes` read back as the value they encode |
| RomBytes.ToAddress | sappy/rom.py:603-607 | a converted pointer is -1 or an offset below 32 MiB |
| RomBytes.ToAddressRoundTrip | fileio.py:147-149 | the conversion succeeds exactly on 0x08000000..0x09FFFFFF, inverts adding 0x08000000 to an offset, and maps each pointer to the offset it was built from |
| RomBytes.SignedByte | sappy/rom.py:159-176 | `read_signed` yields a value in -128..127 equal to the byte or the byte minus 256 |
| RomBytes.SignedByteModulo | sappy/rom.py:172-175 | the signed value agrees with the byte modulo 256 and is negative exactly when bit 7 is set |
| InstSet.WaitTicks | sappy/inst_set.py:23-79 | a wait opcode names at most 96 ticks, and W00..W24 name their distance from W00 |
| InstSet.NoteTicks | sappy/inst_set.py:118-178 | a timed note opcode names 1 to 96 ticks |
| InstSet.WaitTicksIncreasing | sappy/inst_set.py:23-79 | the durations named by the wait opcodes strictly increase with the opcode |
| InstSet.WaitTableEnd | sappy/inst_set.py:79 | W96 names 96 ticks, the largest wait |
| InstSet.NoteMatchesWait | sappy/inst_set.py:118-178 | note opcode 0xCF + k names the same duration as wait opcode 0x80 + k |
| InstSet.OpcodeClassesDisjoint | sappy/inst_set.py:23-178 | the wait, command and note opcodes are pairwise disjoint, and every repeatable opcode is a command or EOT |
| Headers.RdDctHead | sappy/headers.py:171-186 | as written, the direct header is read where the file head stands, not at `addr`; only `rd_addr` records the address |
| Headers.RdDrmkitHead | sappy/headers.py:189-204 | as written, the drum-kit header is read where the head stands, and the address is only recorded |
| Headers.RdInstHead | sappy/headers.py:207-217 | as written, the instrument header is read where the head stands, and the address is only recorded |
| Headers.RdInvHead | sappy/headers.py:220-238 | as written, the invalid-voice header is read where the head stands, and the address is only recorded |
| Headers.RdNseHead | sappy/headers.py:241-259 | as written, the noise header is read where the head stands, and the address is only recorded |
| Headers.RdMulHead | sappy/headers.py:262-274 | as written, the multi-sample header is read where the head stands, and the address is only recorded |
| Headers.RdSmpHead | sappy/headers.py:277-291 | as written, the sample header is read where the head stands, and the address is only recorded |
| Headers.RdSngHead | sappy/headers.py:294-307 | as written, the song header is read where the head stands, and the address is only recorded |
| Headers.RdSq1Head | sappy/headers.py:310-328 | as written, the square-1 header is read where the head stands, and the address is only recorded |
| Headers.RdSq2Head | sappy/headers.py:331-349 | as written, the square-2 header is read where the head stands, and the address is only recorded |
| Headers.RdWavHead | sappy/headers.py:352-367 | as written, the wave header is read where the head stands, and the address is only recorded |
| Headers.TwoSampleHeaders | sappy/headers.py:98-108 | two encoded sample headers laid out one after the other read back as themselves at 0 and at 16 |
| Headers.AddressIgnored | sappy/headers.py:277-291 | on a file holding two different sample headers, asking for the second while the head is at 0 yields the first one as written and the second one from the corrected reader |
| SappyFileIo.EncodeDirect | sappy/fileio.py:9-18 | the byte layout of a direct header, 10 bytes long, which `DirectRoundTrip` shows the reader inverts |
| SappyFileIo.EncodeSample | sappy/fileio.py:87-95 | the byte layout of a sample header, 16 bytes long |
| SappyFileIo.DirectRoundTrip | sappy/fileio.py:306-318 | `rd_dct_head` reads back every encoded direct header, whatever follows it |
| SappyFileIo.DrumKitRoundTrip | sappy/fileio.py:320-332 | `rd_drmkit_head` reads back every encoded drum-kit header, whatever follows it |
| SappyFileIo.MultiRoundTrip | sappy/fileio.py:376-385 | `rd_mul_head` reads back every encoded multi-sample header, whatever follows it |
| SappyFileIo.SampleRoundTrip | sappy/fileio.py:387-398 | `rd_smp_head` reads back every encoded sample header, whatever follows it |
| SappyFileIo.SongRoundTrip | sappy/fileio.py:400-410 | `rd_sng_head` reads back every encoded song header, whatever follows it |
| SappyFileIo.WaveRoundTrip | sappy/fileio.py:446-458 | `rd_wav_head` reads back every encoded wave header, whatever follows it |
| SappyFileIo.HeadersReadOnlyTheirBytes | sappy/fileio.py:306-458 | every header reader depends only on the bytes of its own layout |
| SappyFileIo.SampleHeaderShift | sappy/fileio.py:387-398 | a sample header after any prefix reads as it does on its own |
| SappyFileIo.BigEndianRead | sappy/fileio.py:245-258 | `rd_bgendian` is the little-endian value of the reversed bytes `read` returned |
| SappyFileIo.NextMatch | sappy/fileio.py:468-473 | one word of the signature search: a count of 7 or more raises `IndexError`, the open slot always matches, any other slot advances on its word and resets to 0 otherwise |
| SappyFileIo.Items | sappy/fileio.py:465 | `array('I').fromfile` yields one word per four bytes |
| SappyFileIo.ItemsAreWords | sappy/fileio.py:465 | the j-th word of a chunk is the little-endian word at pos + 4j |
| SappyFileIo.ScanChunk | sappy/fileio.py:460-479 | one round of `get_song_table_ptr`: a short chunk ends the search with `None` or `ValueError`; a raising count raises; a count below 7 goes on with the next chunk; a full count reads the pointer one word after the chunk |
| SappyFileIo.ScanFrom | sappy/fileio.py:460-479 | no contract of its own: the reference for `get_song_table_ptr` as written; `ScanChunk` and `ShiftedSignatureRaises` state its behaviour |
| SappyFileIo.ScanCorrected | sappy/fileio.py:460-479 | no contract of its own: the corrected search; `CorrectedFindsSignature`, `CorrectedFindsPresentSignature` and `CorrectedAgreesWhenFound` state its behaviour |
| SappyFileIo.CountPastSevenFails | sappy/fileio.py:468-473 | as written, once the count passes 7 inside a chunk the next word raises `IndexError` |
| SappyFileIo.AlignedSignatureFound | sappy/fileio.py:460-479 | a signature that starts a chunk is found and the pointer after it returned |
| SappyFileIo.ShiftedSignatureRaises | sappy/fileio.py:466-473 | as written, a signature one word into a chunk makes the search raise `IndexError` instead of finding it |
| SappyFileIo.MatchUntil | sappy/fileio.py:466-473 | the corrected chunk scan stops at a count of 7, after at least one word, or at the end of the chunk |
| SappyFileIo.MatchUntilEnds | sappy/fileio.py:466-473 | the count the corrected scan leaves is the signature length that the words seen so far end with |
| SappyFileIo.CorrectedChunk | sappy/fileio.py:460-479 | one full chunk of the corrected search either completes the signature, and returns the pointer one word after it, or goes on with the next chunk with the count the words seen end with |
| SappyFileIo.CorrectedFindsSignature | sappy/fileio.py:460-479 | the corrected search returns a pointer only when it is read one word after seven words that match the signature |
| SappyFileIo.MatchUntilPresent | sappy/fileio.py:466-473 | with no first signature word before word i and the signature at words i..i+6, the per-word count reaches 7 exactly at the end of the signature, or counts the part of it inside the words |
| SappyFileIo.PresentChunk | sappy/fileio.py:460-479 | a chunk holding the end of such a signature returns the pointer one word after it; a chunk before it goes on with the next chunk with the count of the signature's words it holds |
| SappyFileIo.CorrectedFindsPresentSignature | sappy/fileio.py:460-479 | a signature at word i, with no first signature word between the start and i, is found: the corrected search returns the pointer one word after it |
| SappyFileIo.ResetSkipsSignature | sappy/fileio.py:466-473 | the count drops to 0 on a mismatch without testing that word again, so a signature starting on the word that broke a partial match is not counted, by the source or the corrected search |
| SappyFileIo.CorrectedAgreesWhenFound | sappy/fileio.py:460-479 | wherever the search as written does not raise `IndexError`, the corrected search returns the same result |
| SappyFileIo.SequenceLength | sappy/fileio.py:289 | the length UTF-8 gives a sequence from its first byte: at most four bytes, and one exactly for an ASCII byte |
| SappyFileIo.AsciiDecodes | sappy/fileio.py:289 | `decode()` of ASCII bytes gives the same characters |
| SappyFileIo.DecodeShortens | sappy/fileio.py:289 | a decoded string is no longer than its bytes, and as long only when every byte is ASCII |
| SappyFileIo.Utf8Decode | sappy/fileio.py:289 | no contract of its own: the reference for `bytes.decode()`; `AsciiDecodes` and `DecodeShortens` state its properties |
| SappyFileIo.VirtualFile.constructor | sappy/fileio.py:153-175 | a new file starts with both heads at 0 |
| SappyFileIo.VirtualFile.SetAddress | sappy/fileio.py:197-201 | setting the address stores a given address and seeks to it, keeps everything for `None`, and refuses a negative seek |
| SappyFileIo.VirtualFile.RdByte | sappy/fileio.py:231-243 | `rd_byte` yields the byte at the address, or 0 past the end, and moves one byte on; a negative address raises `OSError` |
| SappyFileIo.VirtualFile.RdLtEndian | sappy/fileio.py:261-274 | `rd_ltendian` yields the little-endian value of the bytes read at the address and moves past them |
| SappyFileIo.VirtualFile.RdBgEndian | sappy/fileio.py:245-258 | `rd_bgendian` yields the big-endian value of the bytes read at the address and moves past them |
| SappyFileIo.VirtualFile.ReadChunk | sappy/fileio.py:465 | a raw read yields `Chunk` at the address and moves past it |
| SappyFileIo.VirtualFile.RdStr | sappy/fileio.py:276-289 | `rd_str` decodes the bytes read as UTF-8 and raises `ValueError` on invalid bytes |
| SappyFileIo.VirtualFile.RdGbaPtr | sappy/fileio.py:291-304 | `rd_gba_ptr` converts the word at the address with `gba_ptr_to_addr` |
| SappyFileIo.VirtualFile.RdDctHead | sappy/fileio.py:306-318 | the direct header is read at the address given and the head ends after its 10 bytes |
| SappyFileIo.VirtualFile.RdDrmkitHead | sappy/fileio.py:320-332 | the drum-kit header is read at the address given and the head ends after it |
| SappyFileIo.VirtualFile.RdInstHead | sappy/fileio.py:334-340 | the instrument header is read at the address given and the head ends after it |
| SappyFileIo.VirtualFile.RdInvHead | sappy/fileio.py:342-357 | the invalid-voice header is read at the address given and the head ends after its 10 bytes |
| SappyFileIo.VirtualFile.RdNseHead | sappy/fileio.py:359-374 | the noise header is read at the address given and the head ends after it |
| SappyFileIo.VirtualFile.RdMulHead | sappy/fileio.py:376-385 | the multi-sample header is read at the address given and the head ends after it |
| SappyFileIo.VirtualFile.RdSmpHead | sappy/fileio.py:387-398 | the sample header is read at the address given and the head ends after its 16 bytes |
| SappyFileIo.VirtualFile.RdSngHead | sappy/fileio.py:400-410 | the song header is read at the address given and the head ends after it |
| SappyFileIo.VirtualFile.RdSq1Head | sappy/fileio.py:412-427 | the square-1 header is read at the address given and the head ends after it |
| SappyFileIo.VirtualFile.RdSq2Head | sappy/fileio.py:429-444 | the square-2 header is read at the address given and the head ends after it |
| SappyFileIo.VirtualFile.RdWavHead | sappy/fileio.py:446-458 | the wave header is read at the address given and the head ends after it |
| SappyFileIo.VirtualFile.MatchChunk | sappy/fileio.py:466-473 | the inner loop over one chunk computes `MatchWords` of its words |
| SappyFileIo.VirtualFile.GetSongTablePtr | sappy/fileio.py:460-479 | `get_song_table_ptr` returns what `ScanFrom` gives from the file position and leaves the head where `ScanEnd` says |
| Voices.ModeOf | sappy/m4a.py:20-32 | `M4AVoiceMode(b)` finds a member only with value b |
| Voices.ModeOfValue | sappy/m4a.py:20-32 | every one of the nine modes is found again from its value, so the values are distinct |
| Voices.Validate | sappy/m4a.py:54-62 | a voice is accepted exactly when its mode is an `M4AVoiceMode` and its root a `KeyArg`, and it then keeps the mode; otherwise `InvalidArgument` |
| Voices.ValidatePsg | sappy/m4a.py:85-88 | a PSG voice is accepted exactly as `Validate` accepts it, except that the DirectSound modes 0x0 and 0x8 raise `InvalidArgument` |
| Voices.PsgEnvelope | sappy/m4a.py:68-78 | a PSG envelope is the sound envelope of 255 - 32a, 32d, 16s and 32r |
| Voices.PsgEnvelopeInverse | sappy/m4a.py:72-75 | the rescaling loses nothing: each register field reads back from the envelope |
| Voices.PsgEnvelopeBounded | sappy/m4a.py:72-75 | GB register fields (3-bit attack, decay and release, 4-bit sustain) give a byte-bounded envelope whose attack step is at least 31 |
| Voices.NewDirectSound | sappy/m4a.py:91-99 | a DirectSound voice is built exactly when `Validate` accepts it, is fixed exactly for mode 0x8, and carries its root and envelope |
| Voices.NewSquare1 | sappy/m4a.py:102-112 | a square-1 voice is refused only for a bad root and otherwise carries its fields and the PSG envelope |
| Voices.NewSquare2 | sappy/m4a.py:119-127 | a square-2 voice is refused only for a bad root and otherwise carries its fields and the PSG envelope |
| Voices.NewWaveform | sappy/m4a.py:130-137 | a waveform voice is refused only for a bad root and otherwise carries its fields and the PSG envelope |
| Voices.NewNoise | sappy/m4a.py:140-148 | a noise voice is refused only for a bad root and otherwise carries its fields and the PSG envelope |
| Voices.NewDirectSoundSample | sappy/m4a.py:197-213 | a sample is valid exactly when its loop byte is 0x00 or 0x40 and the loop start lies in the data; it loops exactly for 0x40 and keeps frequency // 1024, the loop start and the data |
| Voices.Cycles | sappy/m4a.py:222-223 | `CYCLES[d]` exists exactly for -4 <= d < 4 and is one of 1, 2, 4, 6 |
| Voices.SquareWave | sappy/m4a.py:233-239 | `square_wave` raises `IndexError` exactly outside -4..3 and otherwise yields eight bytes, the first `CYCLES[d]` high and the rest low |
| Voices.SquareWaveDutyRoundTrip | sappy/m4a.py:233-239 | the duty index, reduced to 0..3 as negative indexing does, is read back from the wave |
| Voices.ValidateNoise | sappy/m4a.py:268-270 | the only error `validate` raises is `InvalidArgument` |
| Voices.NoiseValidationAgrees | sappy/m4a.py:268-287 | `validate` accepts exactly the periods `noise` can generate, whose lengths are the 15-bit and 7-bit LFSR periods |
| Voices.DecimalString | sappy/m4a.py:620 | `str(n)` of a non-negative integer is a non-empty string starting with a digit |
| Voices.DecimalRoundTrip | sappy/m4a.py:620 | `str(n)` reads back as n |
| Voices.NoteName | sappy/m4a.py:616-620 | a note name has at least a pitch letter and an octave digit |
| Voices.NoteNameRoundTrip | sappy/m4a.py:616-620 | note names are unambiguous: every MIDI note, negative ones included, is recovered from its name |
| Voices.OctaveRoundTrip | sappy/m4a.py:618-620 | the octave part, with `M` for a minus sign, reads back as the octave |
| Voices.PitchRoundTrip | sappy/m4a.py:620 | the pitch-class prefix reads back as the pitch class whatever octave text follows |
| Rom.DecodersIgnoreUnusedBytes | sappy/rom.py:350-442 | each voice decoder reads only the bytes its slicing keeps: overwriting a dropped byte of the 12-byte entry leaves the decoded voice as it was |
| Rom.ReadVoiceAt | sappy/rom.py:444-459 | `read_voice` raises `OSError` exactly for a negative pointer, and otherwise only the `InvalidArgument` of a voice constructor |
| Rom.LoadVoiceAt | sappy/rom.py:461-496 | no contract of its own: the reference for `load_voice`, dispatching on the type byte 0x80 or 0x40; `Rom.GbaRom.LoadVoice` is proved against it |
| Rom.DrumTable | sappy/rom.py:469-475 | no contract of its own: the reference for the percussion loop; `DrumTableKeys`, `DrumTableValues` and `DrumTableErrorPersists` state its contents |
| Rom.KeyZoneTables | sappy/rom.py:481-488 | no contract of its own: the reference for the key-zone loop; `KeyZoneKeymap` and `KeyZoneErrorPersists` state its contents |
| Rom.DrumTableKeys | sappy/rom.py:467-475 | a percussion voice holds exactly the keys below 128 whose sub-voice decodes to something |
| Rom.DrumTableValues | sappy/rom.py:467-475 | each key of a percussion voice maps to the sub-voice its slot decodes to |
| Rom.KeyZoneKeymap | sappy/rom.py:476-488 | a key-zone keymap holds exactly the MIDI keys whose sub-voice decodes, maps each to its keymap byte, and every mapped byte has its decoded voice in the voice table |
| Rom.KeymapBytes | sappy/rom.py:479-480 | the keymap read is exactly 128 bytes |
| Rom.DirectSoundSampleRoundTrip | sappy/rom.py:253-283 | decoding an encoded sample gives the sample `M4ADirectSoundSample` builds when it is valid, and `None` otherwise |
| Rom.MainSignature | sappy/rom.py:504-510 | the signature searched for has five words, chosen by the first three letters of the game code |
| Rom.Words | sappy/rom.py:511-513 | `fromfile` yields one word per whole four bytes, the i-th the little-endian word at 4i |
| Rom.SongTableFrom | sappy/rom.py:514-536 | the search loop can fail only with `IndexError`, when the end code's slot lies past the words |
| Rom.SongTableFirstMatch | sappy/rom.py:498-539 | a found table is the converted pointer of the first accepted candidate at or after the index; -1 means no candidate from there on is accepted |
| Rom.IndexFrom | sappy/rom.py:516 | `tuple.index(x, start)` finds the first position at or after start holding x, and fails exactly when there is none |
| Rom.SkipToIndex | sappy/rom.py:515-518 | the search jumps straight to the next occurrence of the first signature word, and answers -1 when there is none |
| Rom.DrumTableErrorPersists | sappy/rom.py:469-475 | once one key fails to decode, the loop raises that error whatever range follows |
| Rom.DrumTableStep | sappy/rom.py:469-475 | one more key of the percussion loop adds the key's sub-voice if it decodes to one, and propagates its error |
| Rom.KeyZoneStep | sappy/rom.py:481-488 | one more key of the key-zone loop adds the sub-voice under its keymap byte and the byte under the key, if it decodes |
| Rom.KeyZoneErrorPersists | sappy/rom.py:481-488 | once one key fails to decode, the key-zone loop raises that error whatever range follows |
| Rom.GbaRom.constructor | sappy/rom.py:65-73 | opening reads the 4-byte code at 0xAC and the 12-byte name at 0xA0, then rewinds |
| Rom.GbaRom.Reset | sappy/rom.py:132-134 | `reset` puts the head at 0 |
| Rom.GbaRom.Seek | sappy/rom.py:100-111 | the setter leaves the head for `None`, refuses a negative seek with the head unchanged, and otherwise moves it |
| Rom.GbaRom.ReadNext | sappy/rom.py:157 | a read yields the zero-padded word at the head and moves the head by the bytes read |
| Rom.GbaRom.Read | sappy/rom.py:141-157 | `read` yields the word at the requested address, or raises `OSError` with the head unchanged for a negative one |
| Rom.GbaRom.ReadSigned | sappy/rom.py:159-176 | `read_signed` yields the byte at the address as two's complement |
| Rom.GbaRom.ReadDword | sappy/rom.py:178-192 | `read_dword` yields the 4-byte word at the address, below 2^32 |
| Rom.GbaRom.ReadGbaPtr | sappy/rom.py:213-228 | `read_gba_ptr` converts the word at the address with `to_address` |
| Rom.GbaRom.Peek | sappy/rom.py:230-251 | `peek` yields the byte at the address and leaves the head where it was |
| Rom.GbaRom.ReadBytes | sappy/rom.py:271 | n single-byte reads yield the zero-padded bytes from the head |
| Rom.GbaRom.ReadFields | sappy/rom.py:402 | the nine reads of a 12-byte entry yield bytes 0..3, the word at 4 and bytes 8..11 |
| Rom.GbaRom.ReadSquare1 | sappy/rom.py:350-367 | `read_square1` builds the voice its byte slicing names from the entry at the address |
| Rom.GbaRom.ReadSquare2 | sappy/rom.py:369-386 | `read_square2` builds the voice its byte slicing names from the entry at the address |
| Rom.GbaRom.ReadNoise | sappy/rom.py:407-423 | `read_noise` builds the voice its byte slicing names from the entry at the address |
| Rom.GbaRom.ReadWaveform | sappy/rom.py:388-405 | `read_waveform` builds the voice its field slicing names from the entry at the address |
| Rom.GbaRom.ReadDirectSound | sappy/rom.py:425-442 | `read_directsound` builds the voice its field slicing names from the entry at the address |
| Rom.GbaRom.ReadVoice | sappy/rom.py:444-459 | `read_voice` computes `ReadVoiceAt` and leaves the head after the entry it decoded |
| Rom.GbaRom.LoadVoice | sappy/rom.py:461-496 | `load_voice` computes `LoadVoiceAt` of the table, the id and the ROM |
| Rom.GbaRom.LoadDrum | sappy/rom.py:465-475 | the percussion branch computes `DrumVoiceAt` |
| Rom.GbaRom.ReadDrumTable | sappy/rom.py:469-475 | the 128-key loop computes `DrumTable` over all 128 keys |
| Rom.GbaRom.LoadKeyZone | sappy/rom.py:476-488 | the key-zone branch computes `KeyZoneVoiceAt` |
| Rom.GbaRom.ReadKeyZoneTables | sappy/rom.py:482-488 | the key-zone loop computes `KeyZoneTables` over all 128 keymap bytes |
| Rom.GbaRom.ReadKeymap | sappy/rom.py:479-480 | the keymap read raises `OSError` for a negative pointer and otherwise yields the 128 keymap bytes |
| Rom.GbaRom.ReadDirectSoundSample | sappy/rom.py:253-283 | `read_directsound_sample` decodes the sample at the address, `None` when its first three bytes are not zero or it is invalid |
| Rom.GbaRom.ReadSampleFields | sappy/rom.py:274-278 | after the three-byte check, the reads yield the loop byte, frequency, loop start and size-many zero-padded data bytes |
| Rom.GbaRom.GetSongTable | sappy/rom.py:498-539 | `get_song_table` computes `SongTableFrom` over the ROM's words and leaves the head after the last whole word |
| RomIo.SetAddress | sappy/romio.py:119-122 | the setter moves both the remembered address and the file position to an address inside the file and ignores any other value |
| RomIo.SetAddressIdempotent | sappy/romio.py:119-122 | setting an address twice is setting it once |
| RomIo.ReadSampleSkipsThreeBytes | sappy/romio.py:200-211 | given an address at least three bytes before the end, `read_sample` skips three bytes and reads loop byte and three words behind them |
| RomIo.ReadSampleSkipQuirks | sappy/romio.py:200-211 | within the last three bytes the skip is refused, so the header is read at the address itself; with no address the skip starts from the remembered address, not from where the last read stopped |
| RomIo.PsgLayoutsDifferOnlyInFlag | sappy/romio.py:213-221 | the wave and non-wave layouts of `read_psg_instrument` agree except in the flag field, a word at 4 against the byte at 4 |
| RomIo.DirectSoundMatchesVoiceDecoder | sappy/romio.py:223-227 | the fields `read_directsound` returns build the same voice as the decoder of `sappy/rom.py` |
| RomIo.SongTableFrom | sappy/romio.py:253-258 | the candidate loop can fail only with `IndexError` |
| RomIo.SongTableIsCandidatePointer | sappy/romio.py:229-258 | a returned table pointer other than -1 is the converted pointer word of a window that matches one of the three code tables and the end code |
| RomIo.SongTableNoCandidate | sappy/romio.py:253-258 | with no candidate window from the index on, the search answers -1 |
| RomIo.SelectorsDistinct | sappy/romio.py:262-281 | the four selector patterns are distinct |
| RomIo.GbaRomIo.constructor | sappy/romio.py:86-106 | a new ROM reader starts with address and position 0 |
| RomIo.GbaRomIo.SetAddr | sappy/romio.py:119-122 | the method updates the head as `SetAddress` says |
| RomIo.GbaRomIo.ReadNext | sappy/romio.py:151 | a read yields the zero-padded word at the file position, moves it by the bytes read, and keeps the remembered address |
| RomIo.GbaRomIo.Read | sappy/romio.py:139-151 | `read` yields the byte at the position the setter leaves and moves one past it |
| RomIo.GbaRomIo.ReadDword | sappy/romio.py:154-167 | `read_dword` yields the 4-byte word at the position the setter leaves |
| RomIo.GbaRomIo.ReadGbaPointer | sappy/romio.py:185-198 | `read_gba_pointer` converts that word with `to_address` |
| RomIo.GbaRomIo.ReadSample | sappy/romio.py:200-211 | `read_sample` yields the sample header at the position the three-byte skip leaves |
| RomIo.GbaRomIo.ReadNineFields | sappy/romio.py:216 | the nine reads yield bytes 0..3, the word at 4 and bytes 8..11 |
| RomIo.GbaRomIo.ReadPsgInstrument | sappy/romio.py:213-221 | `read_psg_instrument` yields the instrument of the chosen layout at the position the setter leaves |
| RomIo.GbaRomIo.ReadDirectSound | sappy/romio.py:223-227 | `read_directsound` yields the nine fields at the position the setter leaves |
| RomIo.GbaRomIo.GetSongTable | sappy/romio.py:229-258 | `get_song_table(track)` computes `SongTableFrom` over the ROM's words from index 0, with the head after the last whole word |
| RomIo.GbaRomIo.GetEngineOffset | sappy/romio.py:260-290 | `get_engine_offset` returns the first offset where one of the four selectors starts, or -1 when none does, scanning every offset below size - 30 |
| SoundDriver.Volume | sappy/m4a.py:322-325 | a 4-bit volume index scales to a multiple of 17 in 0..255 |
| SoundDriver.Frequency | sappy/m4a.py:301-330 | the sample rate exists exactly for indices 1..12 and is a `KeyError` otherwise |
| SoundDriver.Dac | sappy/m4a.py:315-335 | the DAC depth exists exactly for indices 8..11 and is a `KeyError` otherwise |
| SoundDriver.FrequencyIncreasing | sappy/m4a.py:301-314 | a higher sample-rate index always selects a higher rate |
| SoundDriver.DacBits | sappy/m4a.py:315-320 | the DAC table maps index i to 17 - i bits |
| SoundDriver.ParseSdm | sappy/rom.py:610-619 | `parse_sdm` yields a 7-bit reverb and four 4-bit indices |
| SoundDriver.PackSdm | sappy/rom.py:610-619 | the word holding a record's fields at the positions `parse_sdm` reads fits in 24 bits |
| SoundDriver.ParsePackRoundTrip | sappy/rom.py:610-619 | packing a record whose fields fit their widths and parsing the word gives the record back |
| SoundDriver.DefaultWordIsDefault | sappy/m4a.py:293-300 | `_DEFAULT` = 0x0094F800 is the packed form of the record's default fields, and parses back to them |
| SoundDriver.CheckSdmAllOrNone | sappy/rom.py:622-629 | the chained comparison accepts a record when all five range checks hold and also when all five fail |
| SoundDriver.CheckSdm | sappy/rom.py:622-629 | no contract of its own: the chained comparison; `CheckSdmAllOrNone` states exactly which records it accepts |
| SoundDriver.CheckSdmOfParsed | sappy/rom.py:610-629 | on a parsed word the reverb check always holds, so `check_sdm` accepts exactly the words whose four other fields are in range, and then the rate and DAC lookups succeed |
| SoundDriver.CheckSdmAcceptsAllFailing | sappy/rom.py:622-629 | a record failing every range check is accepted by `check_sdm` |
| SoundDriver.ParseMixer | sappy/romio.py:327-335 | `parse_mixer` decodes a word exactly as `parse_sdm` does |
| SoundDriver.CheckMixer | sappy/romio.py:338-344 | `check_mixer` accepts exactly what `check_sdm` accepts |
| Envelope.TruncDiv256 | sappy/m4a.py:383-389 | `int(x / 256)` is the quotient truncated toward zero, for negative x too |
| Envelope.Init | sappy/m4a.py:347-358 | a new envelope is in ATTACK at position 0 with the attack setting as rate |
| Envelope.OnNoteOff | sappy/m4a.py:364-369 | `note_off` leaves RELEASE and NOTE_OFF as they are and otherwise enters RELEASE with the release rate |
| Envelope.Step | sappy/m4a.py:371-392 | `update` reports -1 exactly in NOTE_OFF and the new position otherwise, and never moves the phase back |
| Envelope.NoteOffIdempotent | sappy/m4a.py:364-369 | a second `note_off` changes nothing, and after one the envelope is releasing or off |
| Envelope.SustainAndNoteOffAreStable | sappy/m4a.py:382-392 | SUSTAIN holds its position until a note-off; NOTE_OFF is final and reports -1 |
| Envelope.AttackClampsAt255 | sappy/m4a.py:373-378 | an attack step reaching 255 clamps the position there, enters DECAY with the decay rate, and the update ends past ATTACK |
| Envelope.BoundedInvariant | sappy/m4a.py:347-392 | with byte-sized settings the position stays in 0..255 through every update and note-off, and -1 is reported exactly in NOTE_OFF |
| Envelope.InitBounded | sappy/m4a.py:347-358 | a new envelope with byte-sized settings satisfies the bound |
| Envelope.ReleaseReachesNoteOff | sappy/m4a.py:387-390 | RELEASE with a rate below 256 reaches NOTE_OFF within pos + 1 updates |
| Envelope.NoteOffStaysNoteOff | sappy/m4a.py:391-392 | any number of updates leaves a NOTE_OFF envelope unchanged |
| Envelope.MoreUpdatesStayNoteOff | sappy/m4a.py:391-392 | once NOTE_OFF is reached, more updates stay there |
| Envelope.NonPositiveAttackNeverDecays | sappy/m4a.py:373-374 | with a non-positive attack rate the envelope never leaves ATTACK and its position never rises |
| Envelope.CascadeThroughDecay | sappy/m4a.py:372-382 | one update can pass from ATTACK through DECAY into SUSTAIN |
| Envelope.SoundEnvelope.constructor | sappy/m4a.py:347-358 | the object starts in the state `Init` gives |
| Envelope.SoundEnvelope.NoteOff | sappy/m4a.py:364-369 | the method's new state is `OnNoteOff` of the old one |
| Envelope.SoundEnvelope.Update | sappy/m4a.py:371-392 | the method's new state and result are `Step` of the old state |
| Engine.RoundHalfEven | sappy/engine.py:207 | the integer quotient `round` picks lies within half a unit of n / d |
| Engine.Rate | sappy/engine.py:207 | `round(x / 256, 4)` is within 1/20000 of x / 256 |
| Engine.ByteRateBelowOne | sappy/engine.py:207 | a byte-sized rate rounds to a factor in [0, 1) |
| Engine.Trunc | sappy/engine.py:219-224 | `int(...)` truncates toward zero on both signs |
| Engine.Settings | sappy/engine.py:177-190 | a PSG voice turns its ADSR settings into 256 - 32a, 32d, 16s, 32r; a DirectSound voice keeps them |
| Engine.OnReset | sappy/engine.py:196-200 | `reset` returns to ATTACK at position 0 and leaves the settings alone |
| Engine.OnNoteOff | sappy/engine.py:202-207 | `note_off` leaves RELEASE and NOTEOFF alone and otherwise enters RELEASE with the rounded release rate |
| Engine.Step | sappy/engine.py:209-230 | `update` returns None exactly in NOTEOFF and the new position otherwise, never moves the phase back, and keeps the field invariants |
| Engine.NoteOffIdempotent | sappy/engine.py:202-207 | a second `note_off` changes nothing, and after one the mixer is releasing or off |
| Engine.ResetForgetsHistory | sappy/engine.py:196-207 | `reset` after any updates or a note-off gives the same mixer as `reset` straight away |
| Engine.SettingsKept | sappy/engine.py:209-230 | updates never change the ADSR settings |
| Engine.NoteOffAndSustainAreStable | sappy/engine.py:225-230 | SUSTAIN and NOTEOFF are fixed points of `update`; SUSTAIN reports its position, NOTEOFF None |
| Engine.AttackClampsAt255 | sappy/engine.py:211-216 | an attack step reaching 255 clamps there and enters DECAY with the rounded decay rate, and the update ends past ATTACK |
| Engine.AttackAddsStep | sappy/engine.py:211-212 | an attack step staying below 255 adds the rate to the position and reports it |
| Engine.ReleaseEndsAtOne | sappy/engine.py:222-229 | a release step scaling the position to 1 or less ends in NOTEOFF and reports None |
| Engine.ReleaseReachesNoteOff | sappy/engine.py:222-225 | RELEASE with a factor in [0, 1) reaches NOTEOFF within pos updates |
| Engine.NoteOffStays | sappy/engine.py:228-229 | any number of updates leaves a NOTEOFF mixer unchanged |
| Engine.MoreUpdatesStayOff | sappy/engine.py:228-229 | once NOTEOFF is reached, more updates stay there |
| Engine.BoundedInvariant | sappy/engine.py:196-230 | with byte-sized settings the position stays in 0..255 through update, note_off and reset, and every reported position is in 0..255 |
| Engine.DecayBounded | sappy/engine.py:217-221 | the decay step keeps the bound |
| Engine.ReleaseBounded | sappy/engine.py:222-225 | the release step keeps the bound |
| Engine.PsgAttackStepPositive | sappy/engine.py:187 | a 3-bit PSG attack gives an attack step of at least 32 |
| Engine.AttackReachesDecay | sappy/engine.py:211-216 | with a positive attack step the mixer leaves ATTACK within 255 - pos updates |
| Engine.LaterPhasesStay | sappy/engine.py:209-230 | a mixer past ATTACK never returns to it |
| Engine.Mixer.constructor | sappy/engine.py:177-194 | a new mixer is in ATTACK at 0 with the settings `Settings` gives and the attack step as rate |
| Engine.Mixer.Reset | sappy/engine.py:196-200 | the new state is `OnReset` of the old one |
| Engine.Mixer.NoteOff | sappy/engine.py:202-207 | the new state is `OnNoteOff` of the old one |
| Engine.Mixer.Update | sappy/engine.py:209-230 | the new state and the result are `Step` of the old state |
| Engine.NoteTick | sappy/engine.py:297-302 | `Note.advance` counts a positive wait down, flags the note off when the wait is 0, and leaves a negative (tied) wait alone |
| Engine.NoteOffAfterTicks | sappy/engine.py:297-302 | a note with wait w is flagged off after exactly w + 1 ticks |
| Engine.NoteOffKept | sappy/engine.py:297-302 | a note already off at wait 0 stays so |
| Engine.TieNeverReleases | sappy/engine.py:297-302 | a note with a negative wait is never flagged off |
| Engine.TrackTick | sappy/engine.py:86-89 | `Track.advance` decrements any non-zero wait, negative ones too, and leaves 0 alone |
| Engine.TrackTicksAfter | sappy/engine.py:86-89 | after n ticks a non-negative wait w is max(w - n, 0) and a negative one w - n |
| Engine.Note.constructor | sappy/engine.py:279-295 | a new note carries its arguments and is not off |
| Engine.Note.Advance | sappy/engine.py:297-302 | the wait and flag move as `NoteTick` says, and the method may change no other field |
| Engine.Track.constructor | sappy/engine.py:65-84 | a new track has the source's default fields |
| Engine.Track.Advance | sappy/engine.py:86-89 | the wait moves as `TrackTick` says, and the method may change no other field |
| Engine.NoteLists | sappy/engine.py:338-341 | the list of each track's used notes, in track order |
| Engine.FlattenMembers | sappy/engine.py:338-341 | a note is in the flattened list exactly when some list holds it |
| Engine.FlattenAppend | sappy/engine.py:338-341 | flattening one more list appends that list |
| Engine.FlattenLength | sappy/engine.py:338-341 | the flattened length is the sum of the lengths |
| Engine.UsedNotesMembers | sappy/engine.py:338-341 | `Song.used_notes` holds a note exactly when some track used it |
| Engine.UsedNotesAppend | sappy/engine.py:338-341 | one more track appends its used notes at the end |
| M4aTrack.NewNoteState | sappy/m4a.py:437-450 | a new `FMODNote` carries its arguments, is not released and still holds the placeholder envelope |
| M4aTrack.ReleaseNote | sappy/m4a.py:476-479 | `release` fails with `AttributeError` exactly when no envelope is installed, and otherwise applies the envelope's note-off and marks the note off |
| M4aTrack.ReleaseIdempotent | sappy/m4a.py:476-479 | releasing a released note changes nothing |
| M4aTrack.UpdateNote | sappy/m4a.py:481-486 | `update` leaves a TIE note as it is, counts a wait above 1 down by one, keeps key, velocity and voice, and fails exactly when it releases a note with no envelope |
| M4aTrack.ReleaseMatching | sappy/cmd.py:551-559 | EOT's release loop keeps the number of notes and fails only with `AttributeError` |
| M4aTrack.UpdateAll | sappy/m4a.py:599-600 | updating the track's notes keeps their number and fails only with `AttributeError` |
| M4aTrack.TieNeverReleases | sappy/m4a.py:481-486 | a note with negative ticks (a TIE) is left unchanged by any number of updates |
| M4aTrack.NoteReleasesAfterTicks | sappy/m4a.py:481-486 | a note with t > 0 ticks counts down for t - 1 updates and is released on update t |
| M4aTrack.EotReleasesOnlyMatching | sappy/cmd.py:551-559 | EOT succeeds exactly when every matching note has an envelope; it releases the matching notes (all of them without a key, else those with that MIDI key) and leaves the rest alone |
| M4aTrack.UpdateAllPointwise | sappy/m4a.py:599-600 | updating the track's notes succeeds exactly when each note's update does, and then updates each note on its own |
| M4aTrack.InitialTrackState | sappy/m4a.py:528-562 | a new track is enabled at counter 0 with an empty call stack, no voice (-1), volume `mxv` and panning `c_v` |
| M4aTrack.FmodNote.constructor | sappy/m4a.py:437-450 | the new object's state is `NewNoteState` of its arguments |
| M4aTrack.FmodNote.ResetMixer | sappy/m4a.py:472-474 | the note now holds the given envelope and nothing else changes |
| M4aTrack.FmodNote.Release | sappy/m4a.py:476-479 | the method fails with `AttributeError` and changes nothing exactly when `ReleaseNote` fails, and otherwise takes its state |
| M4aTrack.FmodNote.Update | sappy/m4a.py:481-486 | the method fails exactly when `UpdateNote` fails, and otherwise takes its state |
| Cmd.NewWait | sappy/cmd.py:62-64 | `WAIT(op)` succeeds exactly for a wait opcode and then carries the tick count its name gives; otherwise `ValueError` |
| Cmd.NewGoto | sappy/cmd.py:95-98 | `GOTO(p)` succeeds exactly when p fits four unsigned bytes; otherwise `OverflowError` |
| Cmd.NewPatt | sappy/cmd.py:122-125 | `PATT(p)` succeeds exactly when p fits four unsigned bytes; otherwise `OverflowError` |
| Cmd.NewRept | sappy/cmd.py:161-165 | `REPT(n, p)` succeeds exactly when p fits four unsigned bytes; otherwise `OverflowError` |
| Cmd.NewMemAcc | sappy/cmd.py:199-203 | `MEMACC` succeeds exactly for a `MemAccArg` sub-command; otherwise `ValueError` |
| Cmd.NewModT | sappy/cmd.py:477-480 | `MODT(mod)` succeeds exactly when the low two bits are not 3; otherwise `ValueError` |
| Cmd.NewXCmd | sappy/cmd.py:522-525 | `XCMD` succeeds exactly when the extension is a `CMD` member; otherwise `ValueError` |
| Cmd.NewEot | sappy/cmd.py:544-549 | `EOT(key)` succeeds exactly without a key or with a `KeyArg` key; otherwise `ValueError` |
| Cmd.NewNote | sappy/cmd.py:585-598 | `NOTE` succeeds exactly for TIE or N01..N96; TIE lasts -1 ticks, Nxx its name's ticks plus the gate; otherwise `ValueError` |
| Cmd.IndexOf | sappy/cmd.py:100-106 | `tuple.index` gives the first position holding the pointer, and fails exactly when no position does |
| Cmd.Exec | sappy/cmd.py:66-603 | calling a command on a track fails only with `ValueError`, `queue.Full` or `AttributeError`, and with `queue.Full` only for PATT with three calls pending; it keeps the number of playing notes and never lets the call stack grow past three |
| Cmd.ExecStep | sappy/cmd.py:66-82 | WAIT, FINE, PREV and the commands without effect write their fields and step the counter on by one |
| Cmd.ExecSetting | sappy/cmd.py:226-461 | PRIO, VOICE, PAN, BEND, BENDR, LFOS and MOD write their one field and step on by one |
| Cmd.SequentialAdvancesByOne | sappy/cmd.py:66-603 | every command other than GOTO, PATT and PEND that succeeds steps on by exactly one, keeps the call stack, and queues one note only if it is a NOTE |
| Cmd.NoOpCommands | sappy/cmd.py:167-168 | REPT, MEMACC, LFODL, MODT, TUNE and XCMD only step on |
| Cmd.WaitFineAndPrev | sappy/cmd.py:66-82 | WAIT sets its tick count; FINE stops the track; PREV does what FINE does |
| Cmd.GotoJumps | sappy/cmd.py:100-106 | GOTO succeeds exactly when its target is a command address, and jumps to the first such command, setting the base counter too |
| Cmd.PattQueueFull | sappy/cmd.py:127-130 | PATT with three calls pending raises `queue.Full` |
| Cmd.PattThenPend | sappy/cmd.py:127-146 | a PEND after a PATT from an empty stack returns to the command after the PATT |
| Cmd.PendReturnsToOldestCall | sappy/cmd.py:142-146 | PEND takes the OLDEST pending call from the FIFO queue, not the newest |
| Cmd.PendWithoutCall | sappy/cmd.py:142-146 | PEND with no pending call only steps on |
| Cmd.NoteEnqueuesOne | sappy/cmd.py:600-603 | NOTE succeeds exactly when key and velocity are valid `KeyArg` and `VelocityArg` values, and then queues one new note with the track's voice, leaving the playing notes alone |
| Cmd.EotReleases | sappy/cmd.py:551-560 | a successful EOT releases every matching note, leaves the others as they were and steps on |
| Cmd.TempoAndKeyShAreShared | sappy/cmd.py:248-272 | TEMPO and KEYSH write class attributes shared by every track, not the track's own fields |
| Cmd.TieNoteLastsUntilEot | sappy/cmd.py:585-587 | a TIE note lasts -1 ticks, so updates never release it |
| Track.TrackGlobals.constructor | sappy/m4a.py:518-519 | the shared attributes start at TEMPO 75 and KEY_SHIFT 0 |
| Track.Tick | sappy/m4a.py:591-594 | at the start of a tick a positive wait counts down, a zero or negative one stays, the base counter catches up exactly when the wait is then 0, and nothing else changes |
| Track.RunLoop | sappy/m4a.py:595-597 | the command loop keeps the number of playing notes and the call-stack bound of three |
| Track.UpdateSpec | sappy/m4a.py:587-600 | a tick keeps the number of playing notes and the call-stack bound of three |
| Track.DisabledTrackIsUntouched | sappy/m4a.py:589-590 | a disabled track is left exactly as it is by every later tick |
| Track.RunLoopStopsWaitingOrDisabled | sappy/m4a.py:595-597 | the command loop ends only once the track waits or is disabled |
| Track.UpdateEndsWaitingOrDisabled | sappy/m4a.py:587-600 | after a successful tick the track is waiting or disabled |
| Track.WaitingTrackRunsNoCommand | sappy/m4a.py:591-600 | while more than one tick of wait is pending, a tick runs no command: it counts the wait down and updates the notes |
| Track.SelfGotoNeverEnds | sappy/m4a.py:595-597 | a GOTO to its own address with no WAIT keeps the loop running however many commands it is allowed |
| Track.Addresses | sappy/m4a.py:532 | `cmd_addresses` lists the map's keys in order |
| Track.Commands | sappy/m4a.py:533 | `commands` lists the map's values in order |
| Track.M4ATrack.constructor | sappy/m4a.py:528-562 | a new track has the initial fields and the map's addresses and commands |
| Track.M4ATrack.ReleaseNotes | sappy/cmd.py:551-559 | the loop fails with `AttributeError` exactly when `ReleaseMatching` fails, and otherwise leaves the notes `ReleaseMatching` gives |
| Track.M4ATrack.CheckEnvelopes | sappy/cmd.py:318-320 | VOL's loop fails with `AttributeError` exactly when some note has no envelope |
| Track.M4ATrack.Call | sappy/cmd.py:36-38 | calling any command on the object fails exactly when `Exec` does, and otherwise leaves the track and shared attributes `Exec` gives |
| Track.M4ATrack.CallFlow | sappy/cmd.py:100-146 | GOTO, PATT and PEND on the object agree with `Exec` |
| Track.M4ATrack.CallNotes | sappy/cmd.py:314-603 | VOL, EOT and NOTE on the object agree with `Exec` |
| Track.M4ATrack.CallVol | sappy/cmd.py:314-322 | VOL on the object agrees with `Exec` |
| Track.M4ATrack.CallEot | sappy/cmd.py:551-560 | EOT on the object agrees with `Exec` |
| Track.M4ATrack.CallNote | sappy/cmd.py:600-603 | NOTE on the object agrees with `Exec` |
| Track.M4ATrack.CallSteps | sappy/cmd.py:66-82 | the stepping commands on the object agree with `Exec` |
| Track.M4ATrack.CallGlobals | sappy/cmd.py:248-272 | TEMPO and KEYSH on the object agree with `Exec`, writing the shared attributes |
| Track.M4ATrack.CallSettings | sappy/cmd.py:226-461 | the one-field commands on the object agree with `Exec` |
| Track.M4ATrack.UpdateNotes | sappy/m4a.py:599-600 | the loop fails exactly when `UpdateAll` fails, and otherwise leaves the notes `UpdateAll` gives |
| Track.M4ATrack.Update | sappy/m4a.py:587-600 | a tick on the object agrees with `UpdateSpec` |
| Track.M4ATrack.RunCommands | sappy/m4a.py:595-597 | the command loop on the object agrees with `RunLoop` |
| Track.SharedTempo | sappy/m4a.py:518-519 | a TEMPO run on one track is seen by another track sharing the attributes |
| Decoder.SkipNote | sappy/decoder.py:193-198 | the pre-scan steps over a note's length bytes to the first byte at or above 0x80, and finds none when every later byte is below 0x80 |
| Decoder.LoopScanWidths | sappy/decoder.py:171-198 | the pre-scan steps over 1 byte for waits, PEND, EOT and TIE, 4 for MEMACC, 2 for the other one-argument opcodes, 5 for PATT, and 1 for a note whose next byte ends it |
| Decoder.LoopOffsetFound | sappy/decoder.py:166-205 | `get_loop_offset` answers the pointer after a GOTO, or -1 for a FINE, found at or after its start |
| Decoder.LoopOffsetFrom | sappy/decoder.py:166-205 | the pre-scan at the counter answers -1 or an offset inside the 32 MiB ROM window, and fails with `OSError` only for a negative start |
| Decoder.LoopOffsetAtHead | sappy/decoder.py:166-205 | as written: every opcode and argument is read at the file head, so a command's argument bytes are read as the next opcodes; the answer is -1 or an offset inside the 32 MiB ROM window |
| Decoder.ArgumentReadAsOpcode | sappy/decoder.py:170-181 | on the bytes BD B1 B2 00 00 00 08 the head scan reads the argument B1 as FINE and answers -1, while the scan at the counter steps over the argument and answers the GOTO's offset 0 |
| Decoder.LoopOffsetFuel | sappy/decoder.py:169-203 | a scan that finished gives the same answer with more fuel |
| Decoder.InitialState | sappy/decoder.py:221-229 | `load_channel` starts at 0 ticks with VOL as running status, an empty queue and no loop index |
| Decoder.NoteRead | sappy/decoder.py:313-336 | one chord position stores its key, queues one note stamped with the current ticks (key plus transpose), and goes on exactly when velocity and gate are both below 0x80 |
| Decoder.NoteGroupFrom | sappy/decoder.py:299-336 | the chord loop only appends events at the current tick and never moves backwards |
| Decoder.WaitLength | sappy/decoder.py:828-833 | a wait opcode adds the ticks its name gives |
| Decoder.ArgumentStep | sappy/decoder.py:240-261 | a one-argument opcode appends one event and keeps the state well formed |
| Decoder.NoteStep | sappy/decoder.py:293-819 | a note opcode, or a key byte under a note running status, only appends events |
| Decoder.Dispatch | sappy/decoder.py:239-834 | one opcode only appends events and keeps the state well formed |
| Decoder.ChannelStep | sappy/decoder.py:234-842 | one pass of the loop, after the loop index is taken, only appends events |
| Decoder.StepKeepsLoopIndex | sappy/decoder.py:236-237 | once taken, the loop index never changes |
| Decoder.StepTakesLoopIndex | sappy/decoder.py:236-237 | the first pass at or past the loop address takes the queue length as loop index |
| Decoder.RunChannelShape | sappy/decoder.py:234-843 | the finished queue has non-decreasing stamps, extends the one it started from, and keeps a loop index once taken |
| Decoder.RunChannelEnds | sappy/decoder.py:835-843 | the queue ends with one FINE, GOTO or PREV event stamped with the final tick count |
| Decoder.RunChannel | sappy/decoder.py:234-843 | no contract of its own: the reference for the event loop; `RunChannelShape`, `RunChannelEnds` and `RunChannelFuel` state its properties |
| Decoder.LoadChannelSpec | sappy/decoder.py:207-845 | no contract of its own: the reference for `load_channel`; `LoadedChannelShape` states its properties |
| Decoder.QueueFrom | sappy/decoder.py:221-845 | no contract of its own: the reference for the queue built from a track start; `QueueShape` states its properties |
| Decoder.LoadedChannelShape | sappy/decoder.py:207-845 | the channel `load_channel` returns has ordered stamps, a loop index into its queue or -1, and ends on FINE, GOTO or PREV |
| Decoder.QueueShape | sappy/decoder.py:221-845 | the queue built from a track start has the same shape |
| Decoder.SubroutineOneLevel | sappy/decoder.py:277-292 | PATT remembers only the address after itself; PEND inside a subroutine returns there and leaves it; outside one, PEND steps over itself |
| Decoder.CallReturns | sappy/decoder.py:277-292 | a PATT into a PEND comes back to the opcode after the PATT, outside any subroutine, with the queue unchanged |
| Decoder.WaitStamps | sappy/decoder.py:828-834 | a wait opcode adds one event stamped with the ticks before it, then advances the ticks by its length |
| Decoder.RunChannelFuel | sappy/decoder.py:234-842 | a loop that finished gives the same channel with more fuel |
| Decoder.ChannelFlagsRoundTrip | sappy/decoder.py:107-119 | the output type (bits 0-2), fixed-pitch flag (bit 3) and reverse flag (bit 4) together recover the channel byte's five low bits |
| Decoder.GbWave | sappy/decoder.py:150-161 | a GB wave is 32 samples, sample i being a nibble of byte i / 2 scaled by 8 |
| Decoder.GbWaveNibbles | sappy/decoder.py:150-161 | each wave byte gives its low nibble then its high nibble, both times 8 |
| Decoder.GbWaveRoundTrip | sappy/decoder.py:150-161 | the 16 wave bytes come back from the 32 samples |
| Decoder.WaveAsWrittenNeedsAscii | sappy/decoder.py:147-161 | read through `rd_str`, a 16-byte wave loads exactly when every byte is below 0x80, and then agrees with `GbWave` |
| Decoder.WaveWithHighByteRaises | sappy/decoder.py:147-161 | the wave 0x80, 0, ..., 0 makes `get_smp` raise, though its expansion is well defined |
| Decoder.Decoder.constructor | sappy/decoder.py:52-63 | a new decoder over a file has an empty sample pool |
| Decoder.Decoder.SetDirect | sappy/decoder.py:100-120 | `set_direct` copies the header fields and splits the instrument's channel byte into output, fixed pitch and reverse, leaving the sample id |
| Decoder.Decoder.ExpandWave | sappy/decoder.py:150-161 | the loop's 32 samples are `GbWave` of the raw bytes |
| Decoder.Decoder.GetSmp | sappy/decoder.py:122-162 | `get_smp` records the sample pointer; a known pointer changes nothing and leaves the head; a new one is first added as a blank entry, which stays when the header read raises `OSError` for a negative address; otherwise the entry is filled as `FillSample` states |
| Decoder.Decoder.FillSample | sappy/decoder.py:131-162 | after the header at the pointer: a waveform output gives the 32-sample wave and leaves the head 16 bytes on; a DirectSound output takes size, frequency * 64, loop start and loop flag from the header; with `use_readstr` the `size` payload bytes after the header are read as text, a payload that is not UTF-8 raises `ValueError` with the header fields already written, and the head ends after the payload either way |
| Decoder.PayloadTextBytes | sappy/decoder.py:139 | a payload read as text is never longer than the header's size, and ASCII payload bytes come back unchanged |
| Decoder.PayloadContinuationRaises | sappy/decoder.py:139 | a payload whose first byte is a UTF-8 continuation byte makes the text read raise |
| Decoder.Decoder.GetLoopOffset | sappy/decoder.py:166-205 | the method's answer is `LoopOffsetFrom` of the file |
| Decoder.Decoder.GetLoopOffsetAsWritten | sappy/decoder.py:166-205 | the loop as written, assigning `rd_addr` and reading at the head, answers `LoopOffsetAtHead` from where the head stood, whatever counter it is given |
| Decoder.Decoder.SkipNoteArgs | sappy/decoder.py:195-198 | the inner loop stops where `SkipNote` says |
| Decoder.Decoder.ReadChordPosition | sappy/decoder.py:300-336 | one chord position on the object agrees with `NoteRead` |
| Decoder.Decoder.NoteGroup | sappy/decoder.py:299-336 | the chord loop on the object agrees with `NoteGroupFrom` |
| Decoder.Decoder.ArgumentOpcode | sappy/decoder.py:240-261 | a one-argument opcode read from the file agrees with `ArgumentStep` |
| Decoder.Decoder.MemAccOpcode | sappy/decoder.py:268-276 | MEMACC appends one event with its three argument bytes and steps over 4 bytes |
| Decoder.Decoder.PattOpcode | sappy/decoder.py:287-292 | PATT remembers the address 5 bytes on, enters the subroutine and jumps to its pointer |
| Decoder.Decoder.NoteOpcode | sappy/decoder.py:293-819 | a note opcode read from the file agrees with `NoteStep` |
| Decoder.Decoder.ChannelIteration | sappy/decoder.py:234-842 | one pass of the loop on the object agrees with `ChannelStep` |
| Decoder.Decoder.LoadChannel | sappy/decoder.py:207-845 | `load_channel` returns `LoadChannelSpec` of the file |
| Decoder.Decoder.BuildQueue | sappy/decoder.py:221-845 | the event loop returns `QueueFrom` of the file |
| Decoder.SampleFor | sappy/decoder.py:130-161 | a DirectSound sample takes its size from the sample header; any other output gives a 32-sample GB wave |
| Parser.GateOf | sappy/parser.py:151-154 | a byte is kept as a gate exactly when it is 1..3 (`gtp1`..`gtp3`); any other byte gives no gate |
| Parser.ByteCommand | sappy/parser.py:101-129 | a one-byte-argument opcode fails only for MODT with low bits 3; it never ends the track and records a voice id exactly for VOICE |
| Parser.DecodeKeepsGood | sappy/parser.py:77-79 | `last_cmd` always names a repeatable command or a note, so the `UnknownCommand` branch at line 200 is never taken |
| Parser.StartIsGood | sappy/parser.py:63-66 | the loop starts with VOL as running status |
| Parser.DecodeAt | sappy/parser.py:73-200 | no contract of its own: the reference for one iteration of `load_track`'s loop; `DecodeAdvances`, `DoneExactlyAtTerminator`, `DecodeKeepsGood` and `DecodeStallsAtEnd` state its properties and `Parser.Parser.DecodeNext` is proved against it |
| Parser.DecodeAdvances | sappy/parser.py:71-201 | inside the ROM every step consumes at least its opcode byte |
| Parser.DecodeStallsAtEnd | sappy/parser.py:157-163 | at or past the end of the ROM every read is 0 and moves nothing, so the step repeats `last_cmd` at the same address and never ends the track |
| Parser.DoneExactlyAtTerminator | sappy/parser.py:82-95 | decoding stops exactly at FINE and PREV, which are then the command recorded |
| Parser.FixedWidths | sappy/parser.py:85-100 | GOTO and PATT take a four-byte pointer and fail exactly when it converts to -1; MEMACC takes three bytes |
| Parser.NoteArguments | sappy/parser.py:141-156 | a note opcode consumes the key if it is at most 0x7F, then the velocity if it is too, then the gate if it is 1..3; missing key and velocity repeat the previous ones |
| Parser.Put | sappy/parser.py:201 | `track_data[k] = v` appends a new key at the end |
| Parser.ParseNeverEndsPastRom | sappy/parser.py:71-201 | a track that runs past the end of the ROM without FINE or PREV never finishes decoding |
| Parser.Parse | sappy/parser.py:71-201 | the loop only adds voice ids, and a decoded map is non-empty and at least as long as the one it started from |
| Parser.LoadTrackSpec | sappy/parser.py:49-202 | `load_track` only adds voice ids, and a decoded track holds at least one command |
| Parser.WithVoice | sappy/parser.py:108-111 | the voice ids after a step are the old ones, plus the VOICE id if there is one |
| Parser.ParseOnce | sappy/parser.py:71-201 | one loop iteration records the decoded command at its address, stops on FINE or PREV, stops on an error, and otherwise goes on from the next address |
| Parser.ParseStep | sappy/parser.py:73-201 | a step inside the ROM appends the command at an address no earlier entry has |
| Parser.ParsedTrackShape | sappy/parser.py:49-202 | a decoded track's addresses strictly increase and lie inside the ROM, it extends the map it started from, and its last command, and only that one, is FINE or PREV |
| Parser.VoiceSamplesSound | sappy/parser.py:276-292 | after one voice, every new or changed sample was loaded for a voice reachable from it under its key, and every reachable voice whose sample loads has its key present |
| Parser.SamplesOfSound | sappy/parser.py:252-293 | `load_samples` fails exactly when some value is `None`; otherwise every new or changed sample was loaded for a reachable voice under that key, and every reachable loadable voice has its key present |
| Parser.SamplesOf | sappy/parser.py:252-293 | no contract of its own: the reference for `load_samples`; `SamplesOfSound` states when it fails and what it loads |
| Parser.AddVoiceSamples | sappy/parser.py:277-292 | one pass of the loop body gives `VoiceSamples` |
| Parser.TableSamplesOf | sappy/parser.py:282-285 | the recursive call over a drum or key-zone table gives `TableSamples` of a fresh dictionary |
| Parser.ParseIgnoresVoices | sappy/parser.py:108-111 | the decoded map does not depend on the voice ids recorded before, which are only added to |
| Parser.TracksStep | sappy/parser.py:222-226 | track i decodes and the rest goes on with more voice ids, or its error stops the load |
| Parser.TracksInOrder | sappy/parser.py:204-227 | `load_tracks` succeeds exactly when every track decodes, and then holds them in header order after those already loaded |
| Parser.TracksKeepVoices | sappy/parser.py:204-227 | loading tracks only adds voice ids |
| Parser.ValuesIn | sappy/parser.py:276 | `voices.values()` lists the value of each key in insertion order |
| Parser.SongEntry | sappy/parser.py:328-334 | the song entry fails with `InvalidSongNumber` exactly when its pointer is -1 and with `BlankSong` exactly when the header has no tracks; otherwise it gives the header address and its track count |
| Parser.Parser.constructor | sappy/parser.py:45-47 | a new parser reads the given ROM from address 0 and has no voice ids |
| Parser.Parser.NextByte | sappy/parser.py:74 | `read()` returns the byte at the head and moves the head on by one |
| Parser.Parser.DecodeNext | sappy/parser.py:73-200 | one decoding step on the object agrees with `DecodeAt` and leaves the head at the next address |
| Parser.Parser.ReadCommand | sappy/parser.py:80-140 | the opcode branches 0x80..0xCE agree with `DecodeCommand` |
| Parser.Parser.ReadMemAcc | sappy/parser.py:96-100 | MEMACC reads its three operand bytes |
| Parser.Parser.ReadOneOrTwo | sappy/parser.py:101-133 | the one- and two-argument branches agree with `DecodeCommand` |
| Parser.Parser.ReadEot | sappy/parser.py:134-140 | EOT agrees with `DecodeEot`: a byte above 0x7F is put back |
| Parser.Parser.ReadNote | sappy/parser.py:141-156 | a note opcode agrees with `DecodeNote` |
| Parser.Parser.ReadRunning | sappy/parser.py:157-200 | a data byte under running status agrees with `DecodeRunning` |
| Parser.Parser.LoadTrackData | sappy/parser.py:49-201 | the map, or the error, and the voice ids are those `LoadTrackSpec` gives |
| Parser.Parser.ParseFrom | sappy/parser.py:71-201 | the loop on the object agrees with `Parse` |
| Parser.Parser.Iterate | sappy/parser.py:72-201 | one iteration on the object agrees with one step of `Parse` |
| Parser.Parser.Record | sappy/parser.py:108-111 | the rest of an iteration records the voice id and the command as `Parse` does |
| Parser.Parser.LoadTrack | sappy/parser.py:49-202 | `load_track` fails exactly when `LoadTrackSpec` does; otherwise it returns a new track over the decoded map |
| Parser.Parser.LoadTracks | sappy/parser.py:204-227 | `load_tracks` fails exactly when `LoadTracksSpec` does; otherwise it returns one new track per decoded map, in order |
| Parser.Parser.LoadVoices | sappy/parser.py:229-250 | `load_voices` fails exactly when some recorded id's voice fails to load, with that error; otherwise it maps each recorded id to its loaded voice |
| Parser.Parser.LoadSamples | sappy/parser.py:252-293 | the method's result is `SamplesOf` of an empty dictionary |
| Parser.Parser.LoadSong | sappy/parser.py:295-356 | `load_song` refuses a missing song table, a bad song number and a blank song as the source does, changing no voice ids then. Past the header it returns a song exactly when every track decodes and every recorded voice id decodes to a voice. Otherwise it raises the failing track's error, a failing voice's error, or `AttributeError` for a `None` voice. The parser's voice ids are those `load_tracks` recorded, and a loaded song has the header's metadata and the loaded tracks, voices and samples |
| Parser.Parser.FindSong | sappy/parser.py:323-339 | the first half of `load_song` gives the table's error, the entry's error, or the song's metadata |
| Parser.Parser.LocateSongTable | sappy/parser.py:323-326 | the table is the one given, or the one the signature search finds, or `InvalidROM` |
| Parser.Parser.ReadSongEntry | sappy/parser.py:328-339 | the song entry and its header give the entry's error or the song's metadata |
| Parser.Parser.LoadSongBody | sappy/parser.py:341-356 | the song is returned exactly when every track decodes and every voice id the tracks recorded decodes to a voice. Otherwise the error is the failing track's, a failing voice's, or `AttributeError` for a `None` voice. The voice ids afterwards are exactly those `load_tracks` recorded, and a loaded song keeps the metadata and holds the loaded tracks, voices and samples |
| Parser.Parser.LoadVoicesAndSamples | sappy/parser.py:342-343 | succeeds exactly when every recorded id's voice decodes, and to a voice rather than `None`. Otherwise it raises some failing id's error, or `AttributeError` when every voice decodes but one is `None`. On success it holds the voices of the recorded ids and their samples |
| Parser.Parser.ReadSongHeader | sappy/parser.py:332-339 | the header is the track count, the unknown, priority and reverb bytes, then the voice-table pointer |
| SappyPlayer.NoPsgNotes | sappy/player.py:213-218 | the PSG map has exactly the four PSG channel types as keys, none holding a note |
| SappyPlayer.PyIndex | sappy/player.py:541 | Python's `s[i]` succeeds exactly for -len(s) <= i < len(s), and a non-negative i picks element i |
| SappyPlayer.ClampVolume | sappy/player.py:240-245 | the setter's volume is in 0..255, equals the argument exactly when that is in range, and is 0 below and 255 above |
| SappyPlayer.ClampMonotone | sappy/player.py:240-245 | clamping keeps the order of volumes |
| SappyPlayer.FreeSlot | sappy/player.py:298-318 | `free_note` gives the highest disabled slot below 32, and `None` exactly when all 32 are enabled |
| SappyPlayer.OutputVolumeBetween | sappy/player.py:1031-1035 | the output volume is 0 for no volumes, and otherwise lies between the smallest and the largest |
| SappyPlayer.OutputVolumeOfEqual | sappy/player.py:1031-1035 | equal volumes average to that volume |
| SappyPlayer.GetOutputVolume | sappy/player.py:1031-1035 | no contract of its own: the rounded mean; `OutputVolumeBetween` and `OutputVolumeOfEqual` state its bounds |
| SappyPlayer.NoteVolume | sappy/player.py:988-992 | no contract of its own: the rounded product of velocity, channel volume and envelope position; `EnvelopeStaysInRange` bounds the position it is applied to |
| SappyPlayer.AdvanceNote | sappy/player.py:523-531 | one note of `advance_notes` changes only its wait, counted down when positive, and its released flag, which it never clears; it fails only when the note's channel does not exist |
| SappyPlayer.AdvanceNotesFrom | sappy/player.py:523-531 | `advance_notes` keeps the number of slots |
| SappyPlayer.AdvanceReleasesAfterWait | sappy/player.py:527-531 | a note waiting n > 0 ticks on a channel that does not sustain counts down and is released at the n-th tick, not before |
| SappyPlayer.TieReleasedWithoutSustain | sappy/player.py:527-531 | a tie (negative wait) keeps its count and is released at the next tick exactly when its channel does not sustain |
| SappyPlayer.AdvanceKeepsOff | sappy/player.py:523-531 | advancing never switches a released note back on and changes nothing but the wait and the released flag |
| SappyPlayer.ReleaseIds | sappy/player.py:651-686 | releasing a channel's notes fails exactly when some id is outside the slots; otherwise exactly the listed slots are released |
| SappyPlayer.ControlEvent | sappy/player.py:550-647 | the control opcodes change only this channel (and TEMPO the tempo), never the notes, the queue or `looped` |
| SappyPlayer.SetField | sappy/player.py:554-647 | a one-field opcode leaves the channel's counter, wait, enabled and sustain flags, note lists, main volume and subroutine state alone |
| SappyPlayer.ChannelVolumes | sappy/player.py:585-599 | VOL computes at most one volume per note id of the channel |
| SappyPlayer.VolumeEvent | sappy/player.py:581-604 | VOL changes only this channel, never the notes, the queue or `looped` |
| SappyPlayer.FlowEvent | sappy/player.py:545-686 | FINE/PREV, GOTO, PATT, PEND and EOT change only this channel and the note flags, and a halt leaves the channel off |
| SappyPlayer.NoteEvent | sappy/player.py:687-698 | a note event changes only this channel and the queue |
| SappyPlayer.WaitEvent | sappy/player.py:699-711 | a wait event changes only this channel and `looped` |
| SappyPlayer.ExecEvent | sappy/player.py:540-723 | one pass of the loop changes no other channel, only appends to the queue, never switches a note on, and a halt leaves the channel off |
| SappyPlayer.RunChannelLoop | sappy/player.py:540-723 | the loop changes no other channel, only appends to the queue and never switches a note on |
| SappyPlayer.RunChannelLoopStep | sappy/player.py:540-723 | the loop is one pass followed by the rest, stopping at a halt or an error |
| SappyPlayer.UpdateChannel | sappy/player.py:535-540 | one channel of `update_channels` changes no other channel, only appends to the queue and never switches a note on |
| SappyPlayer.UpdateChannelsFrom | sappy/player.py:533-723 | `update_channels` keeps the channel and slot counts, only appends to the queue and never switches a note on |
| SappyPlayer.FineStopsChannel | sappy/player.py:545-549 | FINE and PREV end the loop with the channel off and not sustaining, changing nothing else |
| SappyPlayer.TempoDoublesArgument | sappy/player.py:559-562 | TEMPO sets the tempo to twice its argument and steps to the next event |
| SappyPlayer.WaitAfterJump | sappy/player.py:699-711 | after a GOTO the next wait only clears `looped` and sets the wait to 0, so that event runs again; otherwise the wait is the next event's stamp minus this one's |
| SappyPlayer.NoteQueuesOne | sappy/player.py:687-698 | a note event appends exactly one note, on this channel with the channel's patch; TIE turns sustain on and gives length -1 |
| SappyPlayer.NoteLength | sappy/player.py:687-689 | a note event 0xD0..0xFF lasts one tick longer than the wait instruction of the same length code |
| SappyPlayer.LoopLeavesWaiting | sappy/player.py:540 | when a channel's loop ends without error, the channel is off or waits |
| SappyPlayer.UpdateChannelsSettle | sappy/player.py:533-540 | after `update_channels` every channel is off or has a wait left |
| SappyPlayer.ChannelSettles | sappy/player.py:535-540 | one channel of `update_channels` leaves it off or waiting and no other channel changed |
| SappyPlayer.CutTimedOut | sappy/player.py:831-842 | the cut fails exactly when an id is outside the slots; otherwise exactly the listed notes that are on and timed out are released, and nothing else changes |
| SappyPlayer.Without | sappy/player.py:860 | deleting a key leaves exactly the other keys |
| SappyPlayer.RemoveFirst | sappy/player.py:979-980 | `list.remove` takes out one occurrence of a present item and leaves a list without it unchanged |
| SappyPlayer.StopPsgNote | sappy/player.py:853-861 | with no note on the PSG channel nothing changes; otherwise the note holding it is switched off, and queue and PSG map are kept |
| SappyPlayer.PsgNeverClaimedAsWritten | sappy/player.py:853-862 | as written, a PSG map holding no note never comes to hold one, so a PSG note is never cut by the next |
| SappyPlayer.ClaimPsg | sappy/player.py:862 | the intended update makes the new note the holder of its PSG channel and leaves the other channels alone |
| SappyPlayer.TruncDiv | sappy/player.py:850-867 | `int()` of a quotient truncates toward zero |
| SappyPlayer.StartVolume | sappy/player.py:850-867 | a note starts at a volume in 0..255 when velocity and channel volume are in 0..127 |
| SappyPlayer.AddOnce | sappy/player.py:843-845 | adding an item once keeps the old items, contains the new one, and changes nothing when it was present |
| SappyPlayer.RecordNote | sappy/player.py:828-845 | a queued note is placed in the slot, switched on, and recorded with its key on its channel, which must exist |
| SappyPlayer.RecordNoteAsWritten | sappy/player.py:828-845 | as written the slot takes the queued item itself, so the placed note keeps every field of the item but the released flag, its `enable` flag included |
| SappyPlayer.PlacedNoteNeverEnabled | sappy/player.py:828-931 | as written a placed note stays switched off, `update_notes` leaves the whole state unchanged for its slot, and `free_note` still offers that slot to the next note |
| SappyPlayer.PlaceNote | sappy/player.py:828-848 | the placed note carries the item's key, velocity, channel and length, and is on its channel |
| SappyPlayer.StartNote | sappy/player.py:850-871 | starting a note stops the PSG channel's holder, claims the channel, sets the note to INITIAL and adds its volume to its channel's list |
| SappyPlayer.PlayItem | sappy/player.py:822-887 | one queued note keeps the slot count and the queue and never switches another note on |
| SappyPlayer.FinishPlay | sappy/player.py:888-890 | each channel's output volume is the mean of its new volumes, and the queue is emptied |
| SappyPlayer.PlayNotesFrom | sappy/player.py:822-890 | the queue afterwards is empty, or unchanged when a note had no sample |
| SappyPlayer.PlayQueue | sappy/player.py:808-890 | `play_notes` keeps the slot and channel counts and never switches a note on other than the ones it places |
| SappyPlayer.FullSlotsDropNote | sappy/player.py:823-825 | with every slot in use, a queued note is dropped and nothing changes |
| SappyPlayer.PlayedNoteInFreeSlot | sappy/player.py:823-871 | a played note lands in the highest free slot with its key, velocity, channel and length at phase INITIAL, and adds one volume to its channel's list |
| SappyPlayer.PlayedPsgNoteHoldsChannel | sappy/player.py:853-862 | with the intended update, a note started on a PSG channel holds that channel |
| SappyPlayer.NoSampleKeepsQueue | sappy/player.py:846-848 | a note without a sample ends `play_notes` before the queue is cleared or any output volume set |
| SappyPlayer.FinishNote | sappy/player.py:969-981 | finishing a note fails with `KeyError` exactly when its id is not in the channel's notes; otherwise the note is switched off and released, its id deleted, its PSG channel freed |
| SappyPlayer.UpdateNote | sappy/player.py:927-1001 | one note id adds at most one volume to the list and never switches a note on |
| SappyPlayer.StepNote | sappy/player.py:934-986 | stepping an envelope changes only that note and its channel's note lists |
| SappyPlayer.UpdateNoteIds | sappy/player.py:927-1001 | the inner loop keeps the slot and channel counts and never switches a note on |
| SappyPlayer.UpdateNotesFrom | sappy/player.py:892-1001 | `update_notes` keeps the counts and the queue and never switches a note on |
| SappyPlayer.ReachedMeansAtOrPast | sappy/player.py:938-940 | the destination test holds exactly when the position is at or past the destination in the step's direction |
| SappyPlayer.ReleaseForcesNoteOff | sappy/player.py:934-968 | a released note before RELEASE goes to NOTEOFF in this tick, heading for 0 at its release rate |
| SappyPlayer.MoveNeverOvershoots | sappy/player.py:983-986 | a move towards the destination ends between the old position and the destination, and lands on it when the step would pass it |
| SappyPlayer.PhaseNeverGoesBack | sappy/player.py:934-968 | the envelope never goes back to an earlier phase, and advances at most one phase unless a release forces NOTEOFF |
| SappyPlayer.MoveBetween | sappy/player.py:983-986 | a move never leaves the interval between position and destination unless it started outside it |
| SappyPlayer.EnvelopeStaysInRange | sappy/player.py:934-986 | a note whose envelope is in range stays in range after a step |
| SappyPlayer.ForceRelease | sappy/player.py:934-936 | no contract of its own: the forced release; `ReleaseForcesNoteOff` states its effect |
| SappyPlayer.Reached | sappy/player.py:938-940 | no contract of its own: the destination test; `ReachedMeansAtOrPast` states what it means |
| SappyPlayer.NextPhase | sappy/player.py:941-968 | no contract of its own: the phase change; `PhaseNeverGoesBack` states that phases only move forward, by at most one |
| SappyPlayer.Move | sappy/player.py:983-986 | no contract of its own: one envelope move; `MoveNeverOvershoots` and `MoveBetween` state where it ends |
| SappyPlayer.EnvelopeStep | sappy/player.py:934-986 | no contract of its own: one envelope step; `EnvelopeStaysInRange` states that it keeps the envelope in range |
| SappyPlayer.ProcessorTick | sappy/player.py:1003-1029 | `update_processor` answers 1 exactly when some channel is on, else 0, and never switches a note on |
| SappyPlayer.TickChannels | sappy/player.py:1022-1029 | the tick after `advance_notes` answers 1 exactly when some channel is on |
| SappyPlayer.TickPlay | sappy/player.py:1023-1029 | the tick after `update_channels` answers 1 exactly when some channel is on |
| SappyPlayer.TickNotes | sappy/player.py:1024-1029 | the end of the tick answers 1 exactly when some channel is on |
| SappyPlayer.ProcessorStaysHalted | sappy/player.py:1003-1029 | once every channel is off, a tick reports 0 and leaves every channel off |
| SappyPlayer.Disabled | sappy/player.py:286-287 | every slot switched off and nothing else changed |
| SappyPlayer.ResetFreesTopSlot | sappy/player.py:286-318 | after a reset the next note takes slot 31 |
| SappyPlayer.Player.constructor | sappy/player.py:211-227 | a new player has the given volume, no channels, 32 switched-off slots, no PSG note and tempo 0 |
| SappyPlayer.Player.SetGlobalVol | sappy/player.py:240-246 | the volume becomes `ClampVolume` of the argument and nothing else changes |
| SappyPlayer.Player.ResetPlayer | sappy/player.py:272-296 | channels, tables and queue cleared, every slot switched off, no PSG note, tempo 120 |
| SappyPlayer.Player.FreeNote | sappy/player.py:298-318 | the loop's answer is `FreeSlot` |
| SappyPlayer.Player.AdvanceNotes | sappy/player.py:523-531 | the loop agrees with `AdvanceNotesFrom` |
| SappyPlayer.Player.ControlOp | sappy/player.py:550-647 | the control opcodes on the object agree with `ControlEvent` |
| SappyPlayer.Player.FieldOp | sappy/player.py:550-647 | the channel field set agrees with `SetField` |
| SappyPlayer.Player.VolumeOp | sappy/player.py:581-604 | VOL on the object agrees with `VolumeEvent` |
| SappyPlayer.Player.ReleaseNotes | sappy/player.py:651-686 | the release loop agrees with `ReleaseIds` |
| SappyPlayer.Player.FlowOp | sappy/player.py:545-686 | the flow opcodes on the object agree with `FlowEvent` |
| SappyPlayer.Player.NoteOp | sappy/player.py:687-698 | a note event on the object agrees with `NoteEvent` |
| SappyPlayer.Player.WaitOp | sappy/player.py:699-711 | a wait event on the object agrees with `WaitEvent` |
| SappyPlayer.Player.ExecuteEvent | sappy/player.py:541-723 | one pass on the object agrees with `ExecEvent` |
| SappyPlayer.Player.UpdateOneChannel | sappy/player.py:535-540 | one channel on the object agrees with `UpdateChannel` |
| SappyPlayer.Player.ChannelLoop | sappy/player.py:540-723 | the loop on the object agrees with `RunChannelLoop` |
| SappyPlayer.Player.UpdateChannels | sappy/player.py:533-723 | `update_channels` on the object agrees with `UpdateChannelsFrom` |
| SappyPlayer.Player.CutTimedOutNotes | sappy/player.py:831-842 | the cut loop agrees with `CutTimedOut` |
| SappyPlayer.Player.RecordInSlot | sappy/player.py:828-845 | placing a queued note on the object agrees with `RecordNote` |
| SappyPlayer.Player.StopPsgChannel | sappy/player.py:853-861 | stopping the PSG holder on the object agrees with `StopPsgNote` |
| SappyPlayer.Player.StartInSlot | sappy/player.py:850-871 | starting a note on the object agrees with `StartNote` |
| SappyPlayer.Player.PlayQueued | sappy/player.py:822-887 | one queued note on the object agrees with `PlayItem` |
| SappyPlayer.Player.PlayNotes | sappy/player.py:808-890 | `play_notes` on the object agrees with `PlayQueue` |
| SappyPlayer.Player.UpdateOneNote | sappy/player.py:927-1001 | one note id on the object agrees with `UpdateNote` |
| SappyPlayer.Player.StepOneNote | sappy/player.py:934-986 | one envelope step on the object agrees with `StepNote` |
| SappyPlayer.Player.UpdateNoteList | sappy/player.py:927-1001 | the inner loop on the object agrees with `UpdateNoteIds` |
| SappyPlayer.Player.UpdateNotes | sappy/player.py:892-1001 | `update_notes` on the object agrees with `UpdateNotesFrom` |
| SappyPlayer.Player.UpdateProcessor | sappy/player.py:1003-1029 | `update_processor` on the object agrees with `ProcessorTick` |
| SappyPlayer.Player.FinishTick | sappy/player.py:1022-1029 | the rest of the tick on the object agrees with `TickChannels` |
| SappyPlayer.Player.FinalTick | sappy/player.py:1024-1029 | the end of the tick on the object agrees with `TickNotes` |

## Left out

- Fuel: `load_track`, `get_loop_offset`, `load_channel`, `M4ATrack.update` and `update_channels` loop until the data ends them. The model bounds each with a `fuel` argument and an `OutOfFuel` result, so a run longer than the fuel is not described.
- Partial state on exceptions: when a Python method raises midway, the fields it already wrote stay written. The model returns the error and does not describe those partial writes except where a contract says so.
- Aliasing: `note_arr = [Note(...)] * 32` in `sappy/player.py` makes 32 references to one object, and its constructor call has the wrong number of arguments. The model holds 32 independent note slots by value, and `M4ATrack` notes are held by value too.
- FMOD: the calls into the FMOD audio library are foreign code. They become no-ops, or are replaced by the volume and frequency values passed to them.
- Floating point: the `Mixer` rates `round(x / 256, 4)`, the note frequencies, the pitch and the output volumes are floats. The rates are modelled exactly by `Engine.Rate`, with `Engine.RoundHalfEven` for Python's `round` to four places; the frequency and pitch formulas are not modelled.
- SappyPlayer.NoteVolume: rounds the exact quotient velocity * volume * envelope position / (127 * 127) half to even, the position held in half units. The source rounds the binary floating-point value of the same expression, which can land just off an exact tie, so the two can differ by one: velocity 17, volume 127 and position 63.5 give 8.500000000000002 and so 9 in the source, 8 in the model. The difference carries into `SappyPlayer.ChannelVolumes`, `SappyPlayer.UpdateNote`, `SappyPlayer.Player.VolumeOp` and `SappyPlayer.Player.UpdateOneNote`.
- `update_vibrato` (sappy/player.py:490) drives the FMOD frequency only and is not modelled. `FMODNote.update_envelope` (sappy/m4a.py:488-492) steps the note's envelope, `Envelope.Step`, and mutes the note when it reports -1; `M4ATrack.update_envelope` (sappy/m4a.py:602-613) runs it over the notes and sets each note's FMOD volume. Neither method is modelled: the mute flag and the volumes feed only FMOD and the display.
- `out_vol`: VOL (sappy/cmd.py:316-321) and `M4ATrack.update_envelope` set the track's `out_vol` to 0 and then to the last note's `round(track.volume * note.volume * 255)`, a product of two float volumes. Only the terminal display reads it (sappy/interface.py:182-185). `M4aTrack.TrackState` has no such field and the VOL branch of `Cmd.Exec` does not set it.
- `get_playback_data` and `load_sample` read sample data for FMOD. They are function parameters (`lookup`, `load`) of the parser and decoder rather than modelled code.
- `samples` and `noise_waves` in the player are filled from a random source and are not modelled.
- The player's `enable` flag: the source only ever sets it to False, so as written a placed note is never switched on (see Findings). The model switches a placed note on when it is recorded, as `update_notes` and `play_notes` evidently expect.
- `sappy/engine.py` defines only `NOTES`, `OutputType`, `SampleType`, `PrintableType`, `Track`, `Voice`, `DrumKit`, `Command`, `Instrument`, `Mixer`, `MetaData`, `Note`, `Sample`, `Song`, `get_note_name` and `resample`. `sappy/decoder.py` also refers to `engine.Channel`, `ChannelQueue`, `Direct`, `DirectQueue`, `DirectTypes`, `DrumKitQueue`, `InstrumentQueue`, `KeyMapQueue`, `NoteQueue`, `SampleQueue`, `sbyte_to_int` and `stlen_to_ticks` (e.g. lines 57, 61, 107, 132 and 833). `sappy/player.py` also refers to `engine.Channel`, `ChannelTypes`, `Collection`, `Direct`, `DirectQueue`, `DirectTypes`, `DrumKitQueue`, `Event`, `InstrumentQueue`, `NoteID`, `NotePhases`, `NoteQueue`, `NoteTypes`, `to_frequency`, `to_int`, `to_name` and `to_ticks` (e.g. lines 214-217, 290-293, 573-577, 688, 725, 739 and 871-970). None of these exists, so as written building a `Player` raises `AttributeError` at its first `engine.NoteTypes`. The model gives each missing name the meaning its uses call for: note lengths come from `ShortLen.SlenToTicksCorrected`, the note-length table corrected to agree with the wait instructions (see Findings); the decoder's `Direct` record is its own class, and its sample pool is a map from sample pointer to sample; the note phases, note types and channel types are the datatypes of `SappyPlayer`.
- Orderings of the missing enums: `update_notes` compares `phase < NotePhases.RELEASE` and `output > NoteTypes.DIRECT` (sappy/player.py:934-970), which only mean something once the members have values. The model chooses INITIAL < ATTACK < DECAY < SUSTAIN < RELEASE < NOTEOFF for the phases, and DIRECT below every PSG note type (SQUARE1, SQUARE2, WAVEFORM, NOISE), so `output > DIRECT` holds exactly for the PSG types. Other values would change which notes are forced into RELEASE and which envelope rates are scaled.
- `sappy/decoder.py:19` binds `fileio.VirtualFile.gba_ptr_to_addr`, but `gba_ptr_to_addr` is a module-level function of `sappy/fileio.py` (line 494), not a `VirtualFile` attribute, so importing the decoder raises `AttributeError`. The model uses the module-level conversion, `SappyFileIo.ToAddress`.
- Decoder.Decoder.GetSmp: reads the sample header at the pointer with the corrected `SappyFileIo.VirtualFile.RdSmpHead`; as written `rd_smp_head(1, ...)` looks its file up through the missing `VirtualFile.from_id` and reads at the current position (see Findings). The waveform comes from the 16 bytes at the pointer expanded nibble by nibble (`ExpandWave`); as written they pass through a UTF-8 decode first (`Decoder.WaveAsWritten`, see Findings). The blank entry added before the reads stands for the one `SampleQueue.add` would make, a class the engine does not define.
- Decoder.Decoder.FillSample: without `use_readstr` the source stores `self.file.rd_addr` as the sample data (sappy/decoder.py:141), an int, or an `AttributeError` when nothing has assigned `rd_addr` yet. The model stores an empty payload there and does not raise.
- The voice loading inside `load_channel`, which calls into the patch tables, is modelled only as far as it changes the channel's state; the loaded patches themselves are not.
- DirectSound sample payloads (the bytes after a sample header) are not decoded.
- `load_voices` iterates a Python `set`. The model picks ids in any order and proves a result that does not depend on the order.
- Negative seeks raise `OSError` from the file object. The model returns `OsError` and does not model the operating system's message.
- `Collection`: construction from dict iterables, `__repr__`, `__eq__`, `str()` of keys that are not strings and unhashable items are not modelled.
- `File`: path existence, `close`, `get_file_from_id`, `write_string`, `read_string`, and the file table storing `1` instead of the file object are not modelled; the file object is passed directly.
- Root `player.py`: `note_to_frequency` works on floats and is not modelled; the header readers `read_song_head`, `read_direct_head` and `read_sample_head` are modelled.
- `load_voice` calls `load_sample` and discards the result. Those calls only move the read head or raise in `read_waveform_sample`, and are not modelled.
- `VirtualFile.from_id` does not exist in `sappy/fileio.py`, so `sappy/headers.py` would raise `AttributeError`. The model passes the file object as a parameter.
- Key-zone voices: the source fills `voice_table` in the order keys first appear in the key map. The model builds it in ascending key order; the contents agree, not the insertion order.
- `GBARom.read_string` decodes as UTF-7; the model keeps the raw bytes and does not decode.
- `get_sdm` and the song's `sdm` field are not modelled.
- Track `volume`, `panning` and `frequency` properties compute floats and are not modelled.
- `validate_engine` and `get_sound_engine` (sappy/romio.py:293-311) are not modelled: they re-read the whole ROM as 32-bit words and try three fixed offsets, and the decoding and check they apply are modelled as `SoundDriver.ParseMixer` and `SoundDriver.CheckMixer`.
- Decoder.LoopScanWidths: states the widths the program counter steps over; as written the reads come from the file head, which moves one byte per byte read, so an argument is read as the next opcode (see Findings).
- Decoder.LoopOffsetFound: scans at the program counter; as written `get_loop_offset` assigns `rd_addr`, which moves nothing, and reads from wherever the head stands (see Findings).
- Decoder.SubroutineOneLevel: PEND returns the program counter only; as written the head does not follow it.
- Decoder.CallReturns: the return is the program counter's; as written PATT and PEND never move the read head.
- Decoder.Decoder.GetLoopOffset: seeks to the counter before each read, the intended behaviour; `Decoder.Decoder.GetLoopOffsetAsWritten` models the head as written.
- Decoder.Decoder.ChannelIteration: each pass reads at the program counter; as written `load_channel` reads at the head, which jumps and subroutine calls do not move.
- Decoder.Decoder.LoadChannel: decodes from the track pointer; as written the pre-scan starts just after the track-pointer entry of the song header, where `rd_gba_ptr` left the head.
- Decoder.Decoder.BuildQueue: reads at the program counter, not at the head.
- Decoder.Decoder.PattOpcode: the jump moves the program counter and the reads follow it; as written the head stays after the pointer.
- Decoder.RunChannel, Decoder.LoadChannelSpec and Decoder.QueueFrom: the event loop is modelled reading at the program counter, the evidently intended behaviour, not at the file head.
- SappyFileIo.CorrectedFindsPresentSignature: requires that no first signature word occurs between the start and the signature. The count drops to 0 on a mismatch without testing that word again, so a signature that starts on the word breaking a partial match is missed by the source and the corrected search alike (`SappyFileIo.ResetSkipsSignature`).
- Python integers are unbounded, and so are the model's; no width is imposed where the source imposes none.

## Findings

| source | as written | input that shows it | evidently intended | confidence | as-written member | corrected member |
|---|---|---|---|---|---|---|
| player.py:36-86 | `SHORT_LEN` gives some note-length codes tick counts that differ from the wait instructions' durations | codes 0x1E, 0x1F, 0x22, 0x23 and 0x24 | each code has the same length as the matching wait instruction | not executed | ShortLen.SlenDisagreesWithWaitTable | ShortLen.SlenToTicksCorrected |
| sappy/headers.py:277-291 | `rd_smp_head` assigns `rd_addr`, which nothing reads, so the header is read at the current position | any `addr` different from the current position | the header is read starting at `addr` | not executed | Headers.AddressIgnored | SappyFileIo.VirtualFile.RdSmpHead |
| sappy/fileio.py:460-479 | the song-table search pops words from each 7-word chunk and indexes `search_bytes[match]` after a full match, raising `IndexError` when a match ends before a chunk boundary | a signature that starts one word into a chunk | the search returns the table pointer after the signature | not executed | SappyFileIo.ShiftedSignatureRaises | SappyFileIo.CorrectedFindsSignature |
| sappy/decoder.py:147-161 | the GB wave samples are read through a text decode, which rejects bytes of 0x80 and above | a wave whose first byte is 0x80 followed by fifteen 0x00 bytes | every 16-byte wave decodes to its 32 nibbles | not executed | Decoder.WaveWithHighByteRaises | Decoder.GbWaveRoundTrip |
| sappy/player.py:862 | the PSG channel table stores `psg_note`, so a played note never holds its channel | any PSG note that is played | the channel records the played note number | not executed | SappyPlayer.PsgNeverClaimedAsWritten | SappyPlayer.ClaimPsg |
| containers.py:166-180 | `add` records the key before it checks `before` and `after`, then raises `ValueError` when both are the same index, leaving a key whose name is in no storage slot | `add(item, key="k", before=1, after=1)` on a collection without "k"; a later `del` of "k" also raises `ValueError` | the arguments are checked before anything is recorded, so every key stays in the storage | not executed | Containers.AddClashOrphansKey | Containers.AddChecked |
| fileio.py:266-280 | `write_big_endian` writes the least significant byte first | writing 0x0102 with width 2 reads back as 0x0201 | the big-endian reader reads back the value written | not executed | FileIo.WriteBigEndianSwapsBytes | FileIo.IntendedWritersRoundTrip |
| player.py:368-381 | `read_sample_head` builds a `SampleHeader` with the song header's field names, which raises `TypeError` after the reads | any file with at least 14 bytes at the offset | the six sample-header fields are read and returned | not executed | PlayerHeads.ReadSampleHead | PlayerHeads.ReadSampleHeadIntended |
| sappy/decoder.py:166-205 | `get_loop_offset` assigns `rd_addr`, which moves nothing, and reads every opcode and argument at the file head, so an argument byte is read as an opcode | the bytes BD B1 B2 00 00 00 08: the head reads BD, then its argument B1 as FINE, and answers -1 | the scan reads each opcode at the program counter, steps over BD's argument and answers the GOTO's offset 0 | not executed | Decoder.ArgumentReadAsOpcode | Decoder.LoopOffsetFound |
| sappy/player.py:822-862 | `play_notes` stores the queued item in the slot and never sets `enable` to True, so `update_notes` skips every placed note (`engine.Note` declares no `enable` slot; the model gives a queued note the flag False) | any queued note played into a free slot | the placed note is switched on, so its envelope runs | not executed | SappyPlayer.PlacedNoteNeverEnabled | SappyPlayer.RecordNote |
