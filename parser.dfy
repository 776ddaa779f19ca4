/**
 * `Parser` of sappy/parser.py: decoding a track's byte code into its
 * address-keyed command map (`load_track`), with "running status" (a data
 * byte below 0x80 repeats the last repeatable or note command with that
 * byte as its argument), and the song loader around it.
 *
 * One decoding step is the function `DecodeAt`; `Parse` chains the steps.
 * The methods of `Parser` perform the same reads on the ROM's read head
 * and are proved to produce what these functions say.
 */
module Parser {
  import opened Wrappers
  import opened RomBytes
  import InstSet
  import opened Cmd
  import Rom
  import Voices
  import Track

  /** What `load_track` carries from one command to the next, besides the map built so far. */
  datatype Cursor = Cursor(addr: nat, lastCmd: int, lastNote: int, lastVelocity: int, lastExt: int)

  /** One decoded command (None for an opcode with no branch), where decoding continues, and whether it stops. */
  datatype Decoded = Decoded(command: Option<Command>, next: Cursor, done: bool, voice: Option<int>)

  /** The cursor `load_track` starts with: `last_cmd = VOL`, everything else 0. */
  function StartCursor(programCtr: nat): Cursor
  {
    Cursor(programCtr, InstSet.Vol, 0, 0, 0)
  }

  function Emit(r: Result<Command>, next: Cursor): (d: Result<Decoded>)
    ensures d.Ok? <==> r.Ok?
  {
    match r
    case Err(e) => Err(e)
    case Ok(cmd) => Ok(Decoded(Some(cmd), next, false, None))
  }

  /** `read_gba_ptr()` at `q`: the little-endian word converted to a ROM offset, or -1. */
  function PointerAt(rom: seq<Byte>, q: nat): int
  {
    ToAddress(WordAt(rom, q, 4))
  }

  /** `GateArg`: a byte in 1..3 is a gate, any other byte is none. */
  function GateOf(b: Byte): (g: Option<int>)
    ensures g.Some? <==> InstSet.IsGate(b)
    ensures g.Some? ==> g.value == b
  {
    if InstSet.IsGate(b) then Some(b) else None
  }

  /** The commands whose one argument byte is taken as it is, both after their opcode and in running status. */
  predicate TakesByte(op: int)
  {
    op in {InstSet.Voice, InstSet.Vol, InstSet.Pan, InstSet.Bend, InstSet.BendR, InstSet.Lfos,
           InstSet.LfoDl, InstSet.Mod, InstSet.ModT, InstSet.Tune}
  }

  /** The command built from such an opcode and its byte; VOICE also records the voice id. */
  function ByteCommand(op: int, b: Byte, next: Cursor): (d: Result<Decoded>)
    requires TakesByte(op)
    ensures d.Ok? <==> op != InstSet.ModT || b % 4 != 3
    ensures d.Ok? ==> d.value.next == next && !d.value.done && d.value.command.Some?
    ensures d.Ok? ==> (d.value.voice.Some? <==> op == InstSet.Voice)
  {
    if op == InstSet.Voice then Ok(Decoded(Some(VoiceCmd(b)), next, false, Some(b)))
    else if op == InstSet.Vol then Emit(Ok(Vol(b)), next)
    else if op == InstSet.Pan then Emit(Ok(Pan(b)), next)
    else if op == InstSet.Bend then Emit(Ok(Bend(b)), next)
    else if op == InstSet.BendR then Emit(Ok(BendR(b)), next)
    else if op == InstSet.Lfos then Emit(Ok(Lfos(b)), next)
    else if op == InstSet.LfoDl then Emit(Ok(LfoDl(b)), next)
    else if op == InstSet.Mod then Emit(Ok(Mod(b)), next)
    else if op == InstSet.ModT then Emit(NewModT(b), next)
    else Emit(Ok(Tune(b)), next)
  }

  /**
   * The opcodes 0x80..0xCD: waits, the flow commands, and the commands with
   * fixed-width arguments; an opcode with no branch yields no command and
   * consumes only itself. `c.addr` is just past the opcode.
   */
  function DecodeCommand(rom: seq<Byte>, c: Cursor, op: int): Result<Decoded>
  {
    var q := c.addr;
    var b := ByteAt(rom, q);
    var one := c.(addr := After(rom, q, 1));
    if InstSet.IsWait(op) then Emit(NewWait(op), c)
    else if op == InstSet.Fine then Ok(Decoded(Some(Fine), c, true, None))
    else if op == InstSet.Goto then Emit(NewGoto(PointerAt(rom, q)), c.(addr := After(rom, q, 4)))
    else if op == InstSet.Patt then Emit(NewPatt(PointerAt(rom, q)), c.(addr := After(rom, q, 4)))
    else if op == InstSet.Pend then Emit(Ok(Pend), c)
    else if op == InstSet.Prev then Ok(Decoded(Some(Prev), c, true, None))
    else if op == InstSet.MemAcc then
      Emit(NewMemAcc(b, ByteAt(rom, q + 1), ByteAt(rom, q + 2)), c.(addr := After(rom, q, 3)))
    else if op == InstSet.Prio then Emit(Ok(Prio(b)), one)
    else if op == InstSet.Tempo then Emit(Ok(Tempo(b)), one)
    else if op == InstSet.KeySh then Emit(Ok(KeySh(SignedByte(b))), one)
    else if TakesByte(op) then ByteCommand(op, b, one)
    else if op == InstSet.XCmd then
      Emit(NewXCmd(b, ByteAt(rom, q + 1)), c.(addr := After(rom, q, 2), lastExt := b))
    else Ok(Decoded(None, c, false, None))
  }

  /** EOT: a key byte up to 0x7F is its argument; any other byte is left unread and releases every note. */
  function DecodeEot(rom: seq<Byte>, c: Cursor): Result<Decoded>
  {
    var b := ByteAt(rom, c.addr);
    if b <= InstSet.Mxv then Emit(NewEot(Some(b)), c.(addr := After(rom, c.addr, 1)))
    else Emit(NewEot(None), c)
  }

  /**
   * A note opcode TIE..N96 followed by up to three bytes: the key is
   * consumed only if it is at most 0x7F, the velocity only if key and
   * velocity are, the gate only if all three are; an unconsumed key or
   * velocity repeats the previous one. The gate byte is looked at even when
   * it is not consumed.
   */
  function DecodeNote(rom: seq<Byte>, c: Cursor, op: int): Result<Decoded>
  {
    var q := c.addr;
    var key := ByteAt(rom, q);
    var vel := ByteAt(rom, q + 1);
    var gate := ByteAt(rom, q + 2);
    var c2 := if key <= InstSet.Mxv then c.(lastNote := key, addr := After(rom, q, 1)) else c;
    var c3 := if key <= InstSet.Mxv && vel <= InstSet.Mxv then c2.(lastVelocity := vel, addr := After(rom, q, 2)) else c2;
    var c4 := if key <= InstSet.Mxv && vel <= InstSet.Mxv && InstSet.IsGate(gate) then c3.(addr := c3.addr + 1) else c3;
    Emit(NewNote(op, c3.lastNote, c3.lastVelocity, GateOf(gate)), c4)
  }

  /**
   * Running status: a data byte b repeats `last_cmd` with b as its argument.
   * For a note, b is the key and velocity and gate follow as for a note
   * opcode. A `last_cmd` with no branch raises `UnknownCommand`.
   */
  function DecodeRunning(rom: seq<Byte>, c: Cursor, b: Byte): Result<Decoded>
  {
    var q := c.addr;
    if TakesByte(c.lastCmd) then ByteCommand(c.lastCmd, b, c)
    else if c.lastCmd == InstSet.Eot then Emit(NewEot(Some(b)), c)
    else if c.lastCmd == InstSet.XCmd then Emit(NewXCmd(c.lastExt, b), c)
    else if InstSet.IsNote(c.lastCmd) then
      var vel := ByteAt(rom, q);
      var gate := ByteAt(rom, q + 1);
      var c2 := if vel <= InstSet.Mxv then c.(lastNote := b, lastVelocity := vel, addr := After(rom, q, 1))
                else c.(lastNote := b);
      var c3 := if vel <= InstSet.Mxv && InstSet.IsGate(gate) then c2.(addr := c2.addr + 1) else c2;
      Emit(NewNote(c.lastCmd, b, c2.lastVelocity, GateOf(gate)), c3)
    else Err(UnknownCommand(b))
  }

  /** One iteration of `load_track`'s loop at `c.addr`. */
  function DecodeAt(rom: seq<Byte>, c: Cursor): Result<Decoded>
  {
    var op := ByteAt(rom, c.addr);
    var last := if InstSet.IsRepeatable(op) || InstSet.IsNote(op) then op else c.lastCmd;
    var c1 := c.(addr := After(rom, c.addr, 1), lastCmd := last);
    if op == InstSet.Eot then DecodeEot(rom, c1)
    else if InstSet.IsNote(op) then DecodeNote(rom, c1, op)
    else if op <= InstSet.Mxv then DecodeRunning(rom, c1, op)
    else DecodeCommand(rom, c1, op)
  }

  /** What `last_cmd` can hold: a repeatable or a note command, and an XCMD only with a valid extension. */
  predicate Good(c: Cursor)
  {
    && (InstSet.IsRepeatable(c.lastCmd) || InstSet.IsNote(c.lastCmd))
    && (c.lastCmd == InstSet.XCmd ==> InstSet.IsCmd(c.lastExt))
  }

  /**
   * `last_cmd` always names a command running status can repeat, so the
   * `UnknownCommand` branch is never taken; and the cursor stays so.
   */
  lemma DecodeKeepsGood(rom: seq<Byte>, c: Cursor)
    requires Good(c)
    ensures !DecodeAt(rom, c).Err? || !DecodeAt(rom, c).error.UnknownCommand?
    ensures DecodeAt(rom, c).Ok? ==> Good(DecodeAt(rom, c).value.next)
  {
    InstSet.OpcodeClassesDisjoint(ByteAt(rom, c.addr));
  }

  /** The cursor `load_track` starts with is good. */
  lemma StartIsGood(programCtr: nat)
    ensures Good(StartCursor(programCtr))
  {
  }

  /** Within the ROM every step consumes at least its opcode byte. */
  lemma DecodeAdvances(rom: seq<Byte>, c: Cursor)
    requires c.addr < |rom| && DecodeAt(rom, c).Ok?
    ensures DecodeAt(rom, c).value.next.addr > c.addr
  {
  }

  /**
   * At or past the end of the ROM every read yields 0 and moves nothing: the
   * byte 0 repeats `last_cmd` at the same address, forever, and never stops.
   */
  lemma DecodeStallsAtEnd(rom: seq<Byte>, c: Cursor)
    requires Good(c) && c.addr >= |rom|
    ensures DecodeAt(rom, c).Ok?
    ensures DecodeAt(rom, c).value.next.addr == c.addr && !DecodeAt(rom, c).value.done
  {
    InstSet.OpcodeClassesDisjoint(ByteAt(rom, c.addr));
  }

  /** Decoding stops exactly at FINE (0xB1) and PREV (0xB6), which are then the command recorded. */
  lemma DoneExactlyAtTerminator(rom: seq<Byte>, c: Cursor)
    requires DecodeAt(rom, c).Ok?
    ensures DecodeAt(rom, c).value.done <==> ByteAt(rom, c.addr) in {InstSet.Fine, InstSet.Prev}
    ensures DecodeAt(rom, c).value.done <==>
      DecodeAt(rom, c).value.command in {Some(Fine), Some(Prev)}
  {
    InstSet.OpcodeClassesDisjoint(ByteAt(rom, c.addr));
  }

  /**
   * GOTO and PATT take a four-byte pointer and MEMACC three operand bytes;
   * a GOTO or PATT pointer outside the cartridge window converts to -1,
   * which the command refuses with `OverflowError`.
   */
  lemma FixedWidths(rom: seq<Byte>, c: Cursor)
    requires c.addr + 5 <= |rom|
    ensures ByteAt(rom, c.addr) in {InstSet.Goto, InstSet.Patt} ==>
      && (DecodeAt(rom, c).Ok? <==> PointerAt(rom, c.addr + 1) != -1)
      && (DecodeAt(rom, c).Ok? ==> DecodeAt(rom, c).value.next.addr == c.addr + 5)
    ensures ByteAt(rom, c.addr) == InstSet.MemAcc && DecodeAt(rom, c).Ok? ==>
      DecodeAt(rom, c).value.next.addr == c.addr + 4
  {
  }

  /**
   * After a note opcode inside the ROM, the bytes consumed are: the key if
   * it is at most 0x7F, then the velocity if it is too, then the gate if it
   * is 1..3. The note carries the previous key or velocity where a byte was
   * not consumed.
   */
  lemma NoteArguments(rom: seq<Byte>, c: Cursor)
    requires InstSet.IsNote(ByteAt(rom, c.addr)) && c.addr + 4 <= |rom|
    ensures DecodeAt(rom, c).Ok?
    ensures var d := DecodeAt(rom, c).value;
      var p := c.addr;
      var key := ByteAt(rom, p + 1);
      var vel := ByteAt(rom, p + 2);
      var gate := ByteAt(rom, p + 3);
      && d.next.addr == p + 1 + (if key > InstSet.Mxv then 0
                                 else if vel > InstSet.Mxv then 1
                                 else if InstSet.IsGate(gate) then 3 else 2)
      && d.command.value.key == (if key <= InstSet.Mxv then key else c.lastNote)
      && d.command.value.velocity == (if key <= InstSet.Mxv && vel <= InstSet.Mxv then vel else c.lastVelocity)
      && d.command.value.gate == GateOf(gate)
  {
  }

  /** The track's command map: addresses with their commands, in insertion order. */
  type TrackData = seq<(int, Option<Command>)>

  /** `track_data[k] = v`: a new key is appended, a known key keeps its place and takes the new value. */
  function Put(td: TrackData, k: int, v: Option<Command>): (r: TrackData)
    ensures k !in Track.Addresses(td) ==> r == td + [(k, v)]
    ensures |td| <= |r| && |r| > 0
  {
    match IndexOf(Track.Addresses(td), k)
    case None => td + [(k, v)]
    case Some(i) => td[i := (k, v)]
  }

  /** The outcome of `load_track`: the command map or the error, and the voice ids recorded meanwhile. */
  datatype ParseRun = ParseRun(data: Result<TrackData>, voices: set<int>)

  /** `load_track`'s loop from cursor `c`, running at most `fuel` iterations. */
  function Parse(rom: seq<Byte>, c: Cursor, td: TrackData, voices: set<int>, fuel: nat): (r: ParseRun)
    ensures voices <= r.voices
    ensures r.data.Ok? ==> |td| <= |r.data.value| && |r.data.value| > 0
    decreases fuel, 1
  {
    if fuel == 0 then ParseRun(Err(OutOfFuel), voices) else Iteration(rom, c, td, voices, fuel)
  }

  /** One iteration of the loop: decode, record the command at its address, and stop or go on. */
  function Iteration(rom: seq<Byte>, c: Cursor, td: TrackData, voices: set<int>, fuel: nat): (r: ParseRun)
    requires fuel > 0
    ensures voices <= r.voices
    ensures r.data.Ok? ==> |td| <= |r.data.value| && |r.data.value| > 0
    decreases fuel, 0
  {
    match DecodeAt(rom, c)
    case Err(e) => ParseRun(Err(e), voices)
    case Ok(d) =>
      var td' := Put(td, c.addr, d.command);
      var vs := if d.voice.Some? then voices + {d.voice.value} else voices;
      if d.done then ParseRun(Ok(td'), vs) else Parse(rom, d.next, td', vs, fuel - 1)
  }

  /** `load_track(program_ctr)`: a negative start is refused by the read head's setter. */
  function LoadTrackSpec(rom: seq<Byte>, programCtr: int, voices: set<int>, fuel: nat): (r: ParseRun)
    ensures voices <= r.voices
    ensures r.data.Ok? ==> |r.data.value| > 0
  {
    if programCtr < 0 then ParseRun(Err(OsError), voices)
    else Parse(rom, StartCursor(programCtr), [], voices, fuel)
  }

  /** A track that reaches the end of the ROM without FINE or PREV never finishes decoding. */
  lemma {:induction false} ParseNeverEndsPastRom(rom: seq<Byte>, c: Cursor, td: TrackData, voices: set<int>, fuel: nat)
    requires Good(c) && c.addr >= |rom|
    ensures Parse(rom, c, td, voices, fuel).data == Err(OutOfFuel)
    decreases fuel
  {
    if fuel > 0 {
      DecodeStallsAtEnd(rom, c);
      DecodeKeepsGood(rom, c);
      var d := DecodeAt(rom, c).value;
      var vs := if d.voice.Some? then voices + {d.voice.value} else voices;
      ParseNeverEndsPastRom(rom, d.next, Put(td, c.addr, d.command), vs, fuel - 1);
    }
  }

  /** The voice ids after a decoded command: VOICE adds its id. */
  function WithVoice(voices: set<int>, d: Decoded): (vs: set<int>)
    ensures vs == voices || (d.voice.Some? && vs == voices + {d.voice.value})
  {
    if d.voice.Some? then voices + {d.voice.value} else voices
  }

  /** One iteration of the loop, as `Parse` takes it, given the step's outcome r. */
  lemma ParseOnce(rom: seq<Byte>, c: Cursor, td: TrackData, voices: set<int>, fuel: nat, r: Result<Decoded>)
    requires fuel > 0 && r == DecodeAt(rom, c)
    ensures r.Err? ==> Parse(rom, c, td, voices, fuel) == ParseRun(Err(r.error), voices)
    ensures r.Ok? && r.value.done ==>
      Parse(rom, c, td, voices, fuel) == ParseRun(Ok(Put(td, c.addr, r.value.command)), WithVoice(voices, r.value))
    ensures r.Ok? && !r.value.done ==>
      Parse(rom, c, td, voices, fuel) ==
        Parse(rom, r.value.next, Put(td, c.addr, r.value.command), WithVoice(voices, r.value), fuel - 1)
  {
  }

  predicate Increasing(td: TrackData)
  {
    forall i, j :: 0 <= i < j < |td| ==> td[i].0 < td[j].0
  }

  /** One step inside the ROM appends the command at the current address, which no earlier entry has. */
  lemma ParseStep(rom: seq<Byte>, c: Cursor, td: TrackData, voices: set<int>, fuel: nat)
    requires c.addr < |rom| && fuel > 0 && DecodeAt(rom, c).Ok?
    requires forall i :: 0 <= i < |td| ==> td[i].0 < c.addr
    ensures var d := DecodeAt(rom, c).value;
      var td' := td + [(c.addr, d.command)];
      var vs := if d.voice.Some? then voices + {d.voice.value} else voices;
      Parse(rom, c, td, voices, fuel) ==
        if d.done then ParseRun(Ok(td'), vs) else Parse(rom, d.next, td', vs, fuel - 1)
  {
    assert c.addr !in Track.Addresses(td);
  }

  lemma AppendIncreasing(td: TrackData, k: int, v: Option<Command>, k': int)
    requires Increasing(td) && (forall i :: 0 <= i < |td| ==> td[i].0 < k) && k < k'
    ensures Increasing(td + [(k, v)])
    ensures forall i :: 0 <= i < |td + [(k, v)]| ==> (td + [(k, v)])[i].0 < k'
  {
  }

  /** What a decoded track `out` looks like after the map `td`, decoded from `lo` on. */
  predicate TrackShape(rom: seq<Byte>, lo: nat, td: TrackData, out: TrackData)
  {
    && Increasing(out) && |out| > |td| && out[..|td|] == td
    && (forall i :: |td| <= i < |out| ==> lo <= out[i].0 < |rom|)
    && out[|out| - 1].1 in {Some(Fine), Some(Prev)}
    && (forall i :: |td| <= i < |out| - 1 ==> out[i].1 !in {Some(Fine), Some(Prev)})
  }

  /**
   * A decoded track: its addresses strictly increase and lie inside the
   * ROM, it extends the map it started from, and its last command, and
   * only that one, is FINE or PREV.
   */
  lemma {:induction false} ParsedTrackShape(rom: seq<Byte>, c: Cursor, td: TrackData, voices: set<int>, fuel: nat,
                                            out: TrackData)
    requires Good(c) && Increasing(td) && forall i :: 0 <= i < |td| ==> td[i].0 < c.addr
    requires Parse(rom, c, td, voices, fuel).data == Ok(out)
    ensures TrackShape(rom, c.addr, td, out)
    decreases fuel, 1
  {
    if c.addr >= |rom| {
      ParseNeverEndsPastRom(rom, c, td, voices, fuel);
    } else {
      var d := DecodeAt(rom, c).value;
      DecodeAdvances(rom, c);
      DecodeKeepsGood(rom, c);
      DoneExactlyAtTerminator(rom, c);
      ParseStep(rom, c, td, voices, fuel);
      if d.done {
        AppendIncreasing(td, c.addr, d.command, d.next.addr);
        ShapeDone(rom, td, c.addr, d.command, out);
      } else {
        var vs := if d.voice.Some? then voices + {d.voice.value} else voices;
        ShapeContinue(rom, c.addr, td, vs, fuel, out, d);
      }
    }
  }

  lemma {:induction false} ShapeContinue(rom: seq<Byte>, k: nat, td: TrackData, vs: set<int>, fuel: nat,
                                         out: TrackData, d: Decoded)
    requires 0 < fuel && k < |rom| && k < d.next.addr && Good(d.next) && !d.done
    requires d.command !in {Some(Fine), Some(Prev)}
    requires Increasing(td) && forall i :: 0 <= i < |td| ==> td[i].0 < k
    requires Parse(rom, d.next, td + [(k, d.command)], vs, fuel - 1).data == Ok(out)
    ensures TrackShape(rom, k, td, out)
    decreases fuel, 0
  {
    AppendIncreasing(td, k, d.command, d.next.addr);
    ParsedTrackShape(rom, d.next, td + [(k, d.command)], vs, fuel - 1, out);
    ShapeExtend(rom, td, k, d.command, d.next.addr, out);
  }

  lemma ShapeDone(rom: seq<Byte>, td: TrackData, k: nat, v: Option<Command>, out: TrackData)
    requires out == td + [(k, v)] && Increasing(out) && k < |rom| && v in {Some(Fine), Some(Prev)}
    ensures TrackShape(rom, k, td, out)
  {
    assert out[..|td|] == td;
  }

  lemma ShapeExtend(rom: seq<Byte>, td: TrackData, k: nat, v: Option<Command>, k': nat, out: TrackData)
    requires TrackShape(rom, k', td + [(k, v)], out) && k < k' && k < |rom| && v !in {Some(Fine), Some(Prev)}
    ensures TrackShape(rom, k, td, out)
  {
    var td' := td + [(k, v)];
    assert out[..|td|] == td'[..|td|] == td;
    assert out[|td|] == td'[|td|] == (k, v);
  }

  /** Reading on after `a` bytes: the next byte is the one at p + a. */
  lemma ReadOn(rom: seq<Byte>, p: nat, a: nat)
    ensures ByteAt(rom, After(rom, p, a)) == ByteAt(rom, p + a)
    ensures After(rom, After(rom, p, a), 1) == After(rom, p, a + 1)
  {
    SequentialReads(rom, p, a, 1);
    WordAtOne(rom, After(rom, p, a));
    WordAtOne(rom, p + a);
  }

  // ---------------------------------------------------------------------
  // Sample table

  /**
   * The keys of `load_samples`' dictionary: DirectSound and waveform
   * samples by their pointer, square and noise samples by the names
   * `square<duty>` and `noise<period>`, which are distinct exactly when the
   * numbers are.
   */
  datatype SampleKey = Pointer(ptr: int) | SquareKey(duty: int) | NoiseKey(period: int)

  /** The key of a voice that has a sample of its own; drum and key-zone voices have none. */
  function KeyOf(v: Voices.Voice): Option<SampleKey>
  {
    match v
    case DirectSoundVoice(_, _, _, _, ptr, _) => Some(Pointer(ptr))
    case Waveform(_, _, ptr, _) => Some(Pointer(ptr))
    case Square1(_, _, _, duty, _) => Some(SquareKey(duty))
    case Square2(_, _, duty, _) => Some(SquareKey(duty))
    case Noise(_, _, period, _) => Some(NoiseKey(period))
    case Drum(_) => None
    case KeyZoneVoice(_, _) => None
  }

  lemma {:induction false} HasMinimum(ks: set<int>)
    requires ks != {}
    ensures exists m :: m in ks && forall k :: k in ks ==> m <= k
    decreases |ks|
  {
    var k := PickOne(ks);
    var rest := ks - {k};
    if rest == {} {
      assert ks == {k};
    } else {
      HasMinimum(rest);
      var m' :| m' in rest && forall j :: j in rest ==> m' <= j;
      var m := if k < m' then k else m';
      forall j | j in ks
        ensures m <= j
      {
        if j != k {
          assert j in rest;
        }
      }
      assert m in ks;
    }
  }

  lemma PickOne(ks: set<int>) returns (k: int)
    requires ks != {}
    ensures k in ks
  {
    if forall x :: x !in ks {
      assert false;
    }
    k :| k in ks;
  }

  /** The least key of a table, which `range`-ordered tables visit first. */
  function MinKey(ks: set<int>): (m: int)
    requires ks != {}
    ensures m in ks && forall k :: k in ks ==> m <= k
  {
    HasMinimum(ks);
    var m :| m in ks && forall k :: k in ks ==> m <= k;
    m
  }

  /**
   * The samples one voice contributes to `samples`: a voice with a key not
   * yet present adds its sample, if `load` yields one; a drum or key-zone
   * voice adds the samples of its own table, gathered afresh and
   * overriding what is there.
   */
  function VoiceSamples<S>(samples: map<SampleKey, S>, v: Voices.Voice, load: Voices.Voice -> Option<S>)
    : map<SampleKey, S>
    decreases v, 1, 0
  {
    match v
    case Drum(t) => samples + TableSamples(v, map[], t.Keys, load)
    case KeyZoneVoice(t, _) => samples + TableSamples(v, map[], t.Keys, load)
    case _ =>
      var k := KeyOf(v).value;
      if k in samples then samples
      else match load(v)
        case None => samples
        case Some(s) => samples[k := s]
  }

  /** `load_samples(voice_table)` over the keys `ks` of a table, in ascending key order. */
  function TableSamples<S>(table: Voices.Voice, samples: map<SampleKey, S>, ks: set<int>,
                           load: Voices.Voice -> Option<S>): map<SampleKey, S>
    requires table.Drum? || table.KeyZoneVoice?
    requires ks <= table.voiceTable.Keys
    decreases table, 0, |ks|
  {
    if ks == {} then samples
    else
      var k := MinKey(ks);
      TableSamples(table, VoiceSamples(samples, table.voiceTable[k], load), ks - {k}, load)
  }

  /**
   * `load_samples(voices)` over the dictionary's values in the order given;
   * a voice id whose voice did not decode (`None`) fails on `voice.mode`.
   */
  function SamplesOf<S>(samples: map<SampleKey, S>, voices: seq<Option<Voices.Voice>>, load: Voices.Voice -> Option<S>)
    : Result<map<SampleKey, S>>
    decreases |voices|
  {
    if voices == [] then Ok(samples)
    else if voices[0].None? then Err(AttributeError)
    else SamplesOf(VoiceSamples(samples, voices[0].value, load), voices[1..], load)
  }

  /** A voice with a sample of its own, or one reachable through the tables of drum and key-zone voices. */
  predicate Reaches(v: Voices.Voice, w: Voices.Voice)
    decreases v
  {
    v == w || match v
      case Drum(t) => exists k :: k in t && Reaches(t[k], w)
      case KeyZoneVoice(t, _) => exists k :: k in t && Reaches(t[k], w)
      case _ => false
  }

  /**
   * Every sample in the table is the one `load` yields for some reachable
   * voice with that key, and every reachable voice whose sample loads has
   * its key in the table.
   */
  lemma {:induction false} VoiceSamplesSound<S>(samples: map<SampleKey, S>, v: Voices.Voice, load: Voices.Voice -> Option<S>)
    ensures var out := VoiceSamples(samples, v, load);
      && samples.Keys <= out.Keys
      && (forall k :: k in out && (k !in samples || out[k] != samples[k]) ==>
            exists w :: Reaches(v, w) && KeyOf(w) == Some(k) && load(w) == Some(out[k]))
      && (forall w :: Reaches(v, w) && KeyOf(w).Some? && load(w).Some? ==> KeyOf(w).value in out)
    decreases v, 1, 0
  {
    if v.Drum? || v.KeyZoneVoice? {
      TableVoiceSound(samples, v, load);
    }
  }

  /** The drum and key-zone case of `VoiceSamplesSound`: the table's samples overlay the old ones. */
  lemma TableVoiceSound<S>(samples: map<SampleKey, S>, v: Voices.Voice, load: Voices.Voice -> Option<S>)
    requires v.Drum? || v.KeyZoneVoice?
    ensures var out := VoiceSamples(samples, v, load);
      && samples.Keys <= out.Keys
      && (forall k :: k in out && (k !in samples || out[k] != samples[k]) ==>
            exists w :: Reaches(v, w) && KeyOf(w) == Some(k) && load(w) == Some(out[k]))
      && (forall w :: Reaches(v, w) && KeyOf(w).Some? && load(w).Some? ==> KeyOf(w).value in out)
    decreases v, 0, |v.voiceTable.Keys| + 1
  {
    var t := v.voiceTable;
    var tab := TableSamples(v, map[], t.Keys, load);
    TableSamplesSound(v, map[], t.Keys, load);
    var out := VoiceSamples(samples, v, load);
    assert out == samples + tab;
    forall k | k in out && (k !in samples || out[k] != samples[k])
      ensures exists w :: Reaches(v, w) && KeyOf(w) == Some(k) && load(w) == Some(out[k])
    {
      assert k in tab && out[k] == tab[k];
      var j, w :| j in t.Keys && Reaches(t[j], w) && KeyOf(w) == Some(k) && load(w) == Some(tab[k]);
      assert Reaches(v, w);
    }
    forall w | Reaches(v, w) && KeyOf(w).Some? && load(w).Some?
      ensures KeyOf(w).value in out
    {
      assert v != w;
      var j :| j in t && Reaches(t[j], w);
      assert KeyOf(w).value in tab;
    }
  }

  lemma {:induction false} TableSamplesSound<S>(table: Voices.Voice, samples: map<SampleKey, S>, ks: set<int>,
                                               load: Voices.Voice -> Option<S>)
    requires table.Drum? || table.KeyZoneVoice?
    requires ks <= table.voiceTable.Keys
    ensures var out := TableSamples(table, samples, ks, load);
      && samples.Keys <= out.Keys
      && (forall k :: k in out && (k !in samples || out[k] != samples[k]) ==>
            exists j, w :: j in ks && Reaches(table.voiceTable[j], w) && KeyOf(w) == Some(k) && load(w) == Some(out[k]))
      && (forall j, w :: j in ks && Reaches(table.voiceTable[j], w) && KeyOf(w).Some? && load(w).Some? ==>
            KeyOf(w).value in out)
    decreases table, 0, |ks|
  {
    if ks != {} {
      var k := MinKey(ks);
      var mid := VoiceSamples(samples, table.voiceTable[k], load);
      VoiceSamplesSound(samples, table.voiceTable[k], load);
      TableSamplesSound(table, mid, ks - {k}, load);
    }
  }

  /**
   * `load_samples` over a dictionary of voices fails exactly when some value
   * is `None`; otherwise every sample it holds was loaded for a voice
   * reachable from one of them under that sample's key, and every reachable
   * voice whose sample loads has its key present.
   */
  lemma {:induction false} SamplesOfSound<S>(samples: map<SampleKey, S>, voices: seq<Option<Voices.Voice>>,
                                             load: Voices.Voice -> Option<S>)
    ensures SamplesOf(samples, voices, load).Ok? <==> forall i :: 0 <= i < |voices| ==> voices[i].Some?
    ensures SamplesOf(samples, voices, load).Err? ==> SamplesOf(samples, voices, load).error == AttributeError
    ensures SamplesOf(samples, voices, load).Ok? ==>
      var out := SamplesOf(samples, voices, load).value;
      && samples.Keys <= out.Keys
      && (forall k :: k in out && (k !in samples || out[k] != samples[k]) ==>
            exists i, w :: 0 <= i < |voices| && voices[i].Some? && Reaches(voices[i].value, w)
                           && KeyOf(w) == Some(k) && load(w) == Some(out[k]))
      && (forall i, w :: (0 <= i < |voices| && voices[i].Some? && Reaches(voices[i].value, w)
                          && KeyOf(w).Some? && load(w).Some?) ==> KeyOf(w).value in out)
    decreases |voices|
  {
    if voices != [] && voices[0].Some? {
      var v := voices[0].value;
      var mid := VoiceSamples(samples, v, load);
      var rest := voices[1..];
      VoiceSamplesSound(samples, v, load);
      SamplesOfSound(mid, rest, load);
      assert forall i :: 0 <= i < |rest| ==> rest[i] == voices[i + 1];
      if SamplesOf(samples, voices, load).Ok? {
        var out := SamplesOf(samples, voices, load).value;
        forall k | k in out && (k !in samples || out[k] != samples[k])
          ensures exists i, w :: 0 <= i < |voices| && voices[i].Some? && Reaches(voices[i].value, w)
                                 && KeyOf(w) == Some(k) && load(w) == Some(out[k])
        {
          if k in mid && (k !in samples || mid[k] != samples[k]) && out[k] == mid[k] {
            var w :| Reaches(v, w) && KeyOf(w) == Some(k) && load(w) == Some(mid[k]);
            assert voices[0].Some? && Reaches(voices[0].value, w);
          } else {
            var i, w :| 0 <= i < |rest| && rest[i].Some? && Reaches(rest[i].value, w)
                        && KeyOf(w) == Some(k) && load(w) == Some(out[k]);
            assert voices[i + 1] == rest[i];
          }
        }
        forall i, w | 0 <= i < |voices| && voices[i].Some? && Reaches(voices[i].value, w)
                      && KeyOf(w).Some? && load(w).Some?
          ensures KeyOf(w).value in out
        {
          if i > 0 {
            assert rest[i - 1] == voices[i];
          }
        }
      }
    }
  }

  /** `samples` after one voice of `load_samples`' loop, the dictionary updated as the loop body does. */
  method AddVoiceSamples<S>(samples: map<SampleKey, S>, v: Voices.Voice, load: Voices.Voice -> Option<S>)
    returns (out: map<SampleKey, S>)
    ensures out == VoiceSamples(samples, v, load)
    decreases v, 1
  {
    if v.Drum? || v.KeyZoneVoice? {
      var sub := TableSamplesOf(v, load);
      return samples + sub;
    }
    var key := KeyOf(v).value;
    if key in samples {
      return samples;
    }
    var sample := load(v);
    if sample.None? {
      return samples;
    }
    return samples[key := sample.value];
  }

  /** `load_samples(voice.voice_table)`: a fresh dictionary filled from a drum or key-zone table. */
  method TableSamplesOf<S>(table: Voices.Voice, load: Voices.Voice -> Option<S>) returns (out: map<SampleKey, S>)
    requires table.Drum? || table.KeyZoneVoice?
    ensures out == TableSamples(table, map[], table.voiceTable.Keys, load)
    decreases table, 0
  {
    out := map[];
    var ks := table.voiceTable.Keys;
    while ks != {}
      invariant ks <= table.voiceTable.Keys
      invariant TableSamples(table, out, ks, load) == TableSamples(table, map[], table.voiceTable.Keys, load)
      decreases |ks|
    {
      var k := MinKey(ks);
      out := AddVoiceSamples(out, table.voiceTable[k], load);
      ks := ks - {k};
    }
  }

  // ---------------------------------------------------------------------
  // Songs

  /** The address of the pointer to track i in the song header at `songPtr`. */
  function TrackSlot(songPtr: int, i: nat): int
  {
    songPtr + 8 + 4 * i
  }

  /** Track i of the song at `songPtr`, decoded on its own. */
  function TrackAt(rom: seq<Byte>, songPtr: int, i: nat, fuel: nat): Result<TrackData>
  {
    var slot := TrackSlot(songPtr, i);
    if slot < 0 then Err(OsError) else LoadTrackSpec(rom, PointerAt(rom, slot), {}, fuel).data
  }

  /** The tracks `load_tracks` decodes, or the error, and the voice ids recorded meanwhile. */
  datatype TracksRun = TracksRun(data: Result<seq<TrackData>>, voices: set<int>)

  /** `load_tracks`' loop from track i on, after the maps `acc`. */
  function TracksFrom(rom: seq<Byte>, songPtr: int, i: nat, n: nat, acc: seq<TrackData>, voices: set<int>, fuel: nat)
    : TracksRun
    decreases n - i
  {
    if i >= n then TracksRun(Ok(acc), voices)
    else
      var slot := TrackSlot(songPtr, i);
      if slot < 0 then TracksRun(Err(OsError), voices)
      else
        var run := LoadTrackSpec(rom, PointerAt(rom, slot), voices, fuel);
        match run.data
        case Err(e) => TracksRun(Err(e), run.voices)
        case Ok(td) => TracksFrom(rom, songPtr, i + 1, n, acc + [td], run.voices, fuel)
  }

  /** `load_tracks(song_ptr, num_tracks)`. */
  function LoadTracksSpec(rom: seq<Byte>, songPtr: int, n: nat, voices: set<int>, fuel: nat): TracksRun
  {
    TracksFrom(rom, songPtr, 0, n, [], voices, fuel)
  }

  /** The map a track decodes to does not depend on the voice ids recorded before; those are only added to. */
  lemma {:induction false} ParseIgnoresVoices(rom: seq<Byte>, c: Cursor, td: TrackData, vs: set<int>, vs': set<int>,
                                              fuel: nat)
    ensures Parse(rom, c, td, vs, fuel).data == Parse(rom, c, td, vs', fuel).data
    ensures vs <= Parse(rom, c, td, vs, fuel).voices
    decreases fuel
  {
    if fuel > 0 && DecodeAt(rom, c).Ok? && !DecodeAt(rom, c).value.done {
      var d := DecodeAt(rom, c).value;
      ParseIgnoresVoices(rom, d.next, Put(td, c.addr, d.command), WithVoice(vs, d), WithVoice(vs', d), fuel - 1);
    }
  }

  /** One step of `load_tracks`: track i decodes and the rest goes on from there, or its error stops it. */
  lemma TracksStep(rom: seq<Byte>, songPtr: int, i: nat, n: nat, acc: seq<TrackData>, voices: set<int>, fuel: nat)
    requires i < n
    ensures TrackAt(rom, songPtr, i, fuel).Err? ==>
      && TracksFrom(rom, songPtr, i, n, acc, voices, fuel).data == Err(TrackAt(rom, songPtr, i, fuel).error)
      && voices <= TracksFrom(rom, songPtr, i, n, acc, voices, fuel).voices
    ensures TrackAt(rom, songPtr, i, fuel).Ok? ==>
      exists voices' :: voices <= voices' &&
        TracksFrom(rom, songPtr, i, n, acc, voices, fuel) ==
        TracksFrom(rom, songPtr, i + 1, n, acc + [TrackAt(rom, songPtr, i, fuel).value], voices', fuel)
  {
    var slot := TrackSlot(songPtr, i);
    if slot >= 0 {
      var q := PointerAt(rom, slot);
      if q >= 0 {
        ParseIgnoresVoices(rom, StartCursor(q), [], voices, {}, fuel);
      }
      var run := LoadTrackSpec(rom, q, voices, fuel);
      assert TrackAt(rom, songPtr, i, fuel) == run.data;
    } else {
      assert TrackAt(rom, songPtr, i, fuel).Err?;
    }
  }

  /**
   * `load_tracks` succeeds exactly when every track of the song decodes, and
   * then holds the tracks in slot order after those already loaded.
   */
  lemma {:induction false} TracksInOrder(rom: seq<Byte>, songPtr: int, i: nat, n: nat, acc: seq<TrackData>,
                                         voices: set<int>, fuel: nat)
    requires i <= n
    ensures TracksFrom(rom, songPtr, i, n, acc, voices, fuel).data.Ok? <==>
      forall j :: i <= j < n ==> TrackAt(rom, songPtr, j, fuel).Ok?
    ensures TracksFrom(rom, songPtr, i, n, acc, voices, fuel).data.Ok? ==>
      var ts := TracksFrom(rom, songPtr, i, n, acc, voices, fuel).data.value;
      && |ts| == |acc| + n - i && ts[..|acc|] == acc
      && forall j :: i <= j < n ==> ts[|acc| + j - i] == TrackAt(rom, songPtr, j, fuel).value
    decreases n - i
  {
    if i < n {
      TracksStep(rom, songPtr, i, n, acc, voices, fuel);
      var t := TrackAt(rom, songPtr, i, fuel);
      if t.Ok? {
        var acc' := acc + [t.value];
        var voices' :| voices <= voices' &&
          TracksFrom(rom, songPtr, i, n, acc, voices, fuel) == TracksFrom(rom, songPtr, i + 1, n, acc', voices', fuel);
        TracksInOrder(rom, songPtr, i + 1, n, acc', voices', fuel);
        var r := TracksFrom(rom, songPtr, i, n, acc, voices, fuel);
        if r.data.Ok? {
          assert r.data.value[..|acc|] == r.data.value[..|acc'|][..|acc|];
        }
      }
    }
  }

  /** Loading tracks only adds voice ids. */
  lemma {:induction false} TracksKeepVoices(rom: seq<Byte>, songPtr: int, i: nat, n: nat, acc: seq<TrackData>,
                                            voices: set<int>, fuel: nat)
    requires i <= n
    ensures voices <= TracksFrom(rom, songPtr, i, n, acc, voices, fuel).voices
    decreases n - i
  {
    if i < n {
      TracksStep(rom, songPtr, i, n, acc, voices, fuel);
      var t := TrackAt(rom, songPtr, i, fuel);
      if t.Ok? {
        var acc' := acc + [t.value];
        var voices' :| voices <= voices' &&
          TracksFrom(rom, songPtr, i, n, acc, voices, fuel) == TracksFrom(rom, songPtr, i + 1, n, acc', voices', fuel);
        TracksKeepVoices(rom, songPtr, i + 1, n, acc', voices', fuel);
      }
    }
  }

  /** Whether track object t was built over the map td and shares the class attributes g, untouched since. */
  predicate Built(t: Track.M4ATrack, td: TrackData, g: Track.TrackGlobals)
    reads t
  {
    && t.cmdAddresses == Track.Addresses(td) && t.commands == Track.Commands(td)
    && t.State() == M4aTrack.InitialTrackState() && t.globals == g
  }

  /**
   * The voices of a song are those of the ids `ids` in the voice table at
   * `voicePtr`, and its samples are what `load_samples` gathers from them in
   * some iteration order of the dictionary.
   */
  ghost predicate VoicesLoaded<S>(voices: map<int, Option<Voices.Voice>>, samples: map<SampleKey, S>,
                                  rom: seq<Byte>, voicePtr: int, ids: set<int>, load: Voices.Voice -> Option<S>)
  {
    && voices.Keys == ids
    && (forall id :: id in voices ==> Rom.LoadVoiceAt(rom, voicePtr, id) == Ok(voices[id]))
    && exists order :: IsOrderOf(order, voices.Keys) && SamplesOf(map[], ValuesIn(voices, order), load) == Ok(samples)
  }

  /**
   * The voice stage of `load_song` succeeds: every recorded id's voice
   * decodes, and to a voice rather than `None`, which `load_samples` would
   * trip over.
   */
  ghost predicate VoicesDecode(rom: seq<Byte>, voicePtr: int, ids: set<int>)
  {
    forall id :: id in ids ==> Rom.LoadVoiceAt(rom, voicePtr, id).Ok? && Rom.LoadVoiceAt(rom, voicePtr, id).value.Some?
  }

  /**
   * The error the voice stage raises: the error of some id whose voice fails
   * to decode (which one depends on the set's iteration order), or, when
   * every voice decodes, the `AttributeError` of a `None` voice.
   */
  ghost predicate VoiceStageError(rom: seq<Byte>, voicePtr: int, ids: set<int>, e: Error)
  {
    if forall id :: id in ids ==> Rom.LoadVoiceAt(rom, voicePtr, id).Ok? then
      e == AttributeError && exists id :: id in ids && Rom.LoadVoiceAt(rom, voicePtr, id) == Ok(None)
    else
      exists id :: id in ids && Rom.LoadVoiceAt(rom, voicePtr, id) == Err(e)
  }

  /** An iteration order of a set: each element once. */
  predicate IsOrderOf(order: seq<int>, ks: set<int>)
  {
    && (forall i :: 0 <= i < |order| ==> order[i] in ks)
    && (forall k :: k in ks ==> k in order)
    && (forall i, j :: 0 <= i < j < |order| ==> order[i] != order[j])
  }

  /** `voices.values()` of a dictionary whose keys were inserted in `order`. */
  function ValuesIn(m: map<int, Option<Voices.Voice>>, order: seq<int>): (vs: seq<Option<Voices.Voice>>)
    requires forall i :: 0 <= i < |order| ==> order[i] in m
    ensures |vs| == |order| && forall i :: 0 <= i < |order| ==> vs[i] == m[order[i]]
  {
    seq(|order|, i requires 0 <= i < |order| => m[order[i]])
  }

  /**
   * The song table `load_song` uses: the one it is given, or the one
   * `get_song_table` finds, where finding none is `InvalidROM`.
   */
  function SongTableOf(rom: seq<Byte>, code: seq<Byte>, songTablePtr: Option<int>): Result<int>
  {
    match songTablePtr
    case Some(t) => Ok(t)
    case None =>
      match Rom.SongTableFrom(Rom.Words(rom), Rom.MainSignature(code), |rom|, 0)
      case Err(e) => Err(e)
      case Ok(t) => if t == -1 then Err(InvalidRom) else Ok(t)
  }

  /**
   * The song entry `song_id` of the table: its header address and track
   * count. A negative entry address is refused by the read head, a pointer
   * outside the cartridge window is `InvalidSongNumber`, and a header
   * announcing no tracks is `BlankSong`.
   */
  function SongEntry(rom: seq<Byte>, table: int, songId: int): (r: Result<(nat, Byte)>)
    ensures r.Ok? <==> table + songId * 8 >= 0 && PointerAt(rom, table + songId * 8) != -1
                       && ByteAt(rom, PointerAt(rom, table + songId * 8)) != 0
    ensures r == Err(InvalidSongNumber(songId)) <==>
              table + songId * 8 >= 0 && PointerAt(rom, table + songId * 8) == -1
    ensures r == Err(BlankSong) <==>
              table + songId * 8 >= 0 && PointerAt(rom, table + songId * 8) != -1
              && ByteAt(rom, PointerAt(rom, table + songId * 8)) == 0
    ensures r.Ok? ==> r.value.0 == PointerAt(rom, table + songId * 8) && r.value.1 == ByteAt(rom, r.value.0) > 0
  {
    var entry := table + songId * 8;
    if entry < 0 then Err(OsError)
    else
      var songPtr := PointerAt(rom, entry);
      if songPtr == -1 then Err(InvalidSongNumber(songId))
      else
        var numTracks := ByteAt(rom, songPtr);
        if numTracks == 0 then Err(BlankSong) else Ok((songPtr, numTracks))
  }

  /** `MetaData` of a song: the ROM's code and name, the counts and settings of the song header. */
  datatype MetaData = MetaData(romCode: seq<Byte>, romName: seq<Byte>, tracks: nat, reverb: Byte, priority: Byte,
                               mainPtr: nat, voicePtr: int, songPtr: int, unknown: Byte)

  /** The header fields after the track count: unknown, priority, reverb bytes, then the voice-table pointer. */
  function SongMeta(rom: seq<Byte>, code: seq<Byte>, name: seq<Byte>, table: int, entry: (nat, Byte)): MetaData
  {
    var p := entry.0;
    MetaData(code, name, entry.1, ByteAt(rom, p + 3), ByteAt(rom, p + 2), p, PointerAt(rom, p + 4), table,
             ByteAt(rom, p + 1))
  }

  /** `M4ASong`: the tracks, the voices by id, the samples by key and the metadata. */
  datatype Song<S> = Song(tracks: seq<Track.M4ATrack>, voices: map<int, Option<Voices.Voice>>,
                          samples: map<SampleKey, S>, meta: MetaData)

  // ---------------------------------------------------------------------
  // The parser object

  /** `Parser`: the ROM with its read head, and the voice ids the decoded tracks select. */
  class Parser {
    const file: Rom.GbaRom
    /** The class attributes the tracks built here share. */
    const globals: Track.TrackGlobals
    var voices: set<int>

    constructor (rom: seq<Byte>)
      ensures file.data == rom && file.address == 0 && voices == {}
    {
      file := new Rom.GbaRom(rom);
      globals := new Track.TrackGlobals();
      voices := {};
    }

    /** `self.file.read()`: one byte at the head. */
    method NextByte() returns (b: Byte)
      modifies file
      ensures b == ByteAt(file.data, old(file.address))
      ensures file.address == After(file.data, old(file.address), 1)
    {
      WordAtOne(file.data, file.address);
      var r := file.Read(None, 1);
      b := r.value;
    }

    /** One iteration of `load_track`'s loop: the opcode, then its arguments. */
    method DecodeNext(c: Cursor) returns (r: Result<Decoded>)
      requires file.address == c.addr
      modifies file
      ensures r == DecodeAt(file.data, c)
      ensures r.Ok? ==> file.address == r.value.next.addr
    {
      var op := NextByte();
      var last := if InstSet.IsRepeatable(op) || InstSet.IsNote(op) then op else c.lastCmd;
      var c1 := c.(addr := file.address, lastCmd := last);
      if op == InstSet.Eot {
        r := ReadEot(c1);
      } else if InstSet.IsNote(op) {
        r := ReadNote(c1, op);
      } else if op <= InstSet.Mxv {
        r := ReadRunning(c1, op);
      } else {
        r := ReadCommand(c1, op);
      }
    }

    /** The branches for the opcodes 0x80..0xCD. */
    method ReadCommand(c: Cursor, op: Byte) returns (r: Result<Decoded>)
      requires file.address == c.addr
      modifies file
      ensures r == DecodeCommand(file.data, c, op)
      ensures r.Ok? ==> file.address == r.value.next.addr
    {
      if InstSet.IsWait(op) {
        r := Emit(NewWait(op), c);
      } else if op == InstSet.Fine {
        r := Ok(Decoded(Some(Fine), c, true, None));
      } else if op == InstSet.Goto || op == InstSet.Patt {
        var p := file.ReadGbaPtr(None);
        var cmd := if op == InstSet.Goto then NewGoto(p.value) else NewPatt(p.value);
        r := Emit(cmd, c.(addr := file.address));
      } else if op == InstSet.Pend {
        r := Emit(Ok(Pend), c);
      } else if op == InstSet.Prev {
        r := Ok(Decoded(Some(Prev), c, true, None));
      } else if op == InstSet.MemAcc {
        r := ReadMemAcc(c);
      } else {
        r := ReadOneOrTwo(c, op);
      }
    }

    /** MEMACC: three operand bytes. */
    method ReadMemAcc(c: Cursor) returns (r: Result<Decoded>)
      requires file.address == c.addr
      modifies file
      ensures r == Emit(NewMemAcc(ByteAt(file.data, c.addr), ByteAt(file.data, c.addr + 1), ByteAt(file.data, c.addr + 2)),
                        c.(addr := After(file.data, c.addr, 3)))
      ensures r.Ok? ==> file.address == r.value.next.addr
    {
      ReadOn(file.data, c.addr, 1);
      ReadOn(file.data, c.addr, 2);
      var opCode := NextByte();
      var address := NextByte();
      var data := NextByte();
      r := Emit(NewMemAcc(opCode, address, data), c.(addr := file.address));
    }

    /** The commands with one argument byte, KEYSH's read as signed, and XCMD's two. */
    method ReadOneOrTwo(c: Cursor, op: Byte) returns (r: Result<Decoded>)
      requires file.address == c.addr
      requires !InstSet.IsWait(op) && op !in {InstSet.Fine, InstSet.Goto, InstSet.Patt, InstSet.Pend, InstSet.Prev, InstSet.MemAcc}
      modifies file
      ensures r == DecodeCommand(file.data, c, op)
      ensures r.Ok? ==> file.address == r.value.next.addr
    {
      if op == InstSet.KeySh {
        var d := file.ReadSigned(None);
        r := Emit(Ok(KeySh(d.value)), c.(addr := file.address));
      } else if op == InstSet.Prio || op == InstSet.Tempo || TakesByte(op) {
        var b := NextByte();
        var next := c.(addr := file.address);
        if op == InstSet.Prio {
          r := Emit(Ok(Prio(b)), next);
        } else if op == InstSet.Tempo {
          r := Emit(Ok(Tempo(b)), next);
        } else {
          r := ByteCommand(op, b, next);
        }
      } else if op == InstSet.XCmd {
        ReadOn(file.data, c.addr, 1);
        var ext := NextByte();
        var arg := NextByte();
        r := Emit(NewXCmd(ext, arg), c.(addr := file.address, lastExt := ext));
      } else {
        r := Ok(Decoded(None, c, false, None));
      }
    }

    /** EOT: a byte above 0x7F is put back. */
    method ReadEot(c: Cursor) returns (r: Result<Decoded>)
      requires file.address == c.addr
      modifies file
      ensures r == DecodeEot(file.data, c)
      ensures r.Ok? ==> file.address == r.value.next.addr
    {
      var note := NextByte();
      if note <= InstSet.Mxv {
        r := Emit(NewEot(Some(note)), c.(addr := file.address));
      } else {
        r := Emit(NewEot(None), c);
        var _ := file.Seek(Some(file.address - 1));
      }
    }

    /** A note opcode: look at three bytes, go back, and consume those that belong to the note. */
    method ReadNote(c: Cursor, op: Byte) returns (r: Result<Decoded>)
      requires file.address == c.addr
      modifies file
      ensures r == DecodeNote(file.data, c, op)
      ensures r.Ok? ==> file.address == r.value.next.addr
    {
      ghost var q := c.addr;
      ReadOn(file.data, q, 1);
      ReadOn(file.data, q, 2);
      var o := file.address;
      var key := NextByte();
      var velocity := NextByte();
      var gate := NextByte();
      var _ := file.Seek(Some(o));
      var next := c;
      if key <= InstSet.Mxv {
        var k := NextByte();
        next := next.(lastNote := k, addr := file.address);
        if velocity <= InstSet.Mxv {
          var v := NextByte();
          next := next.(lastVelocity := v, addr := file.address);
          if InstSet.IsGate(gate) {
            var _ := file.Seek(Some(file.address + 1));
            next := next.(addr := file.address);
          }
        }
      }
      r := Emit(NewNote(op, next.lastNote, next.lastVelocity, GateOf(gate)), next);
    }

    /** Running status: the data byte b repeats `last_cmd`. */
    method ReadRunning(c: Cursor, b: Byte) returns (r: Result<Decoded>)
      requires file.address == c.addr
      modifies file
      ensures r == DecodeRunning(file.data, c, b)
      ensures r.Ok? ==> file.address == r.value.next.addr
    {
      if TakesByte(c.lastCmd) {
        r := ByteCommand(c.lastCmd, b, c);
      } else if c.lastCmd == InstSet.Eot {
        r := Emit(NewEot(Some(b)), c);
      } else if c.lastCmd == InstSet.XCmd {
        r := Emit(NewXCmd(c.lastExt, b), c);
      } else if InstSet.IsNote(c.lastCmd) {
        ghost var q := c.addr;
        ReadOn(file.data, q, 1);
        var o := file.address;
        var velocity := NextByte();
        var gate := NextByte();
        var _ := file.Seek(Some(o));
        var next := c.(lastNote := b);
        if velocity <= InstSet.Mxv {
          var v := NextByte();
          next := next.(lastVelocity := v, addr := file.address);
          if InstSet.IsGate(gate) {
            var _ := file.Seek(Some(file.address + 1));
            next := next.(addr := file.address);
          }
        }
        r := Emit(NewNote(c.lastCmd, b, next.lastVelocity, GateOf(gate)), next);
      } else {
        r := Err(UnknownCommand(b));
      }
    }

    /**
     * `load_track(program_ctr)` up to the `M4ATrack` built from the map: the
     * map, or the error, and the voice ids are those `LoadTrackSpec` gives.
     */
    method LoadTrackData(programCtr: int, fuel: nat) returns (r: Result<TrackData>)
      modifies this, file
      ensures r == LoadTrackSpec(file.data, programCtr, old(voices), fuel).data
      ensures voices == LoadTrackSpec(file.data, programCtr, old(voices), fuel).voices
    {
      var ok := file.Seek(Some(programCtr));
      if !ok {
        return Err(OsError);
      }
      r := ParseFrom(StartCursor(programCtr), [], fuel);
    }

    /** `load_track`'s `while not done` loop from cursor `c0` with the map `trackData0`. */
    method ParseFrom(c0: Cursor, trackData0: TrackData, fuel: nat) returns (r: Result<TrackData>)
      requires file.address == c0.addr
      modifies this, file
      ensures ParseRun(r, voices) == Parse(file.data, c0, trackData0, old(voices), fuel)
    {
      ghost var target := Parse(file.data, c0, trackData0, voices, fuel);
      var c, trackData, f := c0, trackData0, fuel;
      while true
        invariant file.address == c.addr
        invariant Parse(file.data, c, trackData, voices, f) == target
        decreases f
      {
        if f == 0 {
          return Err(OutOfFuel);
        }
        var done;
        done, r, c, trackData := Iterate(c, trackData, f);
        if done {
          return;
        }
        f := f - 1;
      }
    }

    /** One iteration: decode at the head, record the voice id and the command, and say whether to stop. */
    method Iterate(c: Cursor, trackData: TrackData, f: nat) returns (done: bool, r: Result<TrackData>, c': Cursor, trackData': TrackData)
      requires file.address == c.addr && f > 0
      modifies this, file
      ensures done ==> Parse(file.data, c, trackData, old(voices), f) == ParseRun(r, voices)
      ensures !done ==> && file.address == c'.addr
                        && Parse(file.data, c, trackData, old(voices), f) == Parse(file.data, c', trackData', voices, f - 1)
    {
      var d := DecodeNext(c);
      if d.Err? {
        ParseOnce(file.data, c, trackData, voices, f, d);
        return true, Err(d.error), c, trackData;
      }
      r, c', trackData' := Record(c, trackData, f, d.value);
      done := d.value.done;
    }

    /** The rest of an iteration: record the voice id and the command; `r` is the map once FINE or PREV is read. */
    method Record(c: Cursor, trackData: TrackData, f: nat, d: Decoded)
      returns (r: Result<TrackData>, c': Cursor, trackData': TrackData)
      requires f > 0 && DecodeAt(file.data, c) == Ok(d)
      modifies this
      ensures voices == WithVoice(old(voices), d)
      ensures trackData' == Put(trackData, c.addr, d.command) && c' == d.next
      ensures d.done ==> r == Ok(trackData') && Parse(file.data, c, trackData, old(voices), f) == ParseRun(r, voices)
      ensures !d.done ==> Parse(file.data, c, trackData, old(voices), f) == Parse(file.data, c', trackData', voices, f - 1)
    {
      ParseOnce(file.data, c, trackData, voices, f, Ok(d));
      voices := WithVoice(voices, d);
      trackData' := Put(trackData, c.addr, d.command);
      c' := d.next;
      r := if d.done then Ok(trackData') else Err(OutOfFuel);
    }

    /** `load_track(program_ctr)`: a new track over the decoded map, sharing this parser's class attributes. */
    method LoadTrack(programCtr: int, fuel: nat) returns (r: Result<Track.M4ATrack>)
      modifies this, file
      ensures var run := LoadTrackSpec(file.data, programCtr, old(voices), fuel);
        && voices == run.voices
        && (r.Ok? <==> run.data.Ok?)
        && (r.Err? ==> r.error == run.data.error)
        && (r.Ok? ==> && fresh(r.value)
                      && r.value.cmdAddresses == Track.Addresses(run.data.value)
                      && r.value.commands == Track.Commands(run.data.value)
                      && r.value.State() == M4aTrack.InitialTrackState()
                      && r.value.globals == globals)
    {
      var data := LoadTrackData(programCtr, fuel);
      if data.Err? {
        return Err(data.error);
      }
      var track := new Track.M4ATrack(data.value, globals);
      return Ok(track);
    }

    /** `load_tracks(song_ptr, num_tracks)`: the tracks in header order. */
    method LoadTracks(songPtr: int, numTracks: nat, fuel: nat) returns (r: Result<seq<Track.M4ATrack>>)
      modifies this, file
      ensures var run := LoadTracksSpec(file.data, songPtr, numTracks, old(voices), fuel);
        && voices == run.voices
        && (r.Ok? <==> run.data.Ok?)
        && (r.Err? ==> r.error == run.data.error)
        && (r.Ok? ==> && |r.value| == |run.data.value|
                      && forall j :: 0 <= j < |r.value| ==> fresh(r.value[j]) && Built(r.value[j], run.data.value[j], globals))
    {
      ghost var spec := LoadTracksSpec(file.data, songPtr, numTracks, voices, fuel);
      var tracks: seq<Track.M4ATrack> := [];
      ghost var acc: seq<TrackData> := [];
      for i := 0 to numTracks
        invariant |tracks| == |acc| == i
        invariant TracksFrom(file.data, songPtr, i, numTracks, acc, voices, fuel) == spec
        invariant forall j :: 0 <= j < i ==> fresh(tracks[j]) && Built(tracks[j], acc[j], globals)
      {
        var start := file.ReadGbaPtr(Some(songPtr + 8 + i * 4));
        if start.Err? {
          return Err(start.error);
        }
        file.Reset();
        ghost var before := voices;
        var track := LoadTrack(start.value, fuel);
        if track.Err? {
          return Err(track.error);
        }
        acc := acc + [LoadTrackSpec(file.data, start.value, before, fuel).data.value];
        tracks := tracks + [track.value];
      }
      return Ok(tracks);
    }

    /**
     * `load_voices(table_ptr)`: each recorded voice id, in the set's
     * iteration order `order`, mapped to the voice `load_voice` decodes. It
     * fails exactly when some id's voice fails to decode, with that error.
     */
    method LoadVoices(tablePtr: int) returns (r: Result<map<int, Option<Voices.Voice>>>, order: seq<int>)
      modifies file
      ensures r.Ok? <==> forall id :: id in voices ==> Rom.LoadVoiceAt(file.data, tablePtr, id).Ok?
      ensures r.Err? ==> exists id :: id in voices && Rom.LoadVoiceAt(file.data, tablePtr, id) == Err(r.error)
      ensures r.Ok? ==> && r.value.Keys == voices && IsOrderOf(order, voices)
                        && forall id :: id in r.value ==> Rom.LoadVoiceAt(file.data, tablePtr, id) == Ok(r.value[id])
    {
      file.Reset();
      var remaining := voices;
      var table: map<int, Option<Voices.Voice>> := map[];
      order := [];
      while remaining != {}
        invariant remaining <= voices && table.Keys == voices - remaining
        invariant forall id :: id in table ==> Rom.LoadVoiceAt(file.data, tablePtr, id) == Ok(table[id])
        invariant IsOrderOf(order, table.Keys)
        decreases |remaining|
      {
        if forall x :: x !in remaining {
          assert false;
        }
        var id :| id in remaining;
        var v := file.LoadVoice(tablePtr, id);
        if v.Err? {
          return Err(v.error), order;
        }
        table := table[id := v.value];
        order := order + [id];
        remaining := remaining - {id};
      }
      return Ok(table), order;
    }

    /** `load_samples(voices)`: the head back at the start, then the dictionary filled voice by voice. */
    method LoadSamples<S>(values: seq<Option<Voices.Voice>>, load: Voices.Voice -> Option<S>)
      returns (r: Result<map<SampleKey, S>>)
      modifies file
      ensures r == SamplesOf(map[], values, load)
    {
      file.Reset();
      var samples: map<SampleKey, S> := map[];
      for i := 0 to |values|
        invariant SamplesOf(samples, values[i..], load) == SamplesOf(map[], values, load)
      {
        assert values[i..][1..] == values[i + 1..];
        if values[i].None? {
          return Err(AttributeError);
        }
        samples := AddVoiceSamples(samples, values[i].value, load);
      }
      return Ok(samples);
    }

    /**
     * `load_song(song_id, song_table_ptr)`: the three refusals of the source,
     * then the header, the tracks, the voices and the samples.
     */
    method LoadSong<S>(songId: int, songTablePtr: Option<int>, fuel: nat, load: Voices.Voice -> Option<S>)
      returns (r: Result<Song<S>>)
      modifies this, file
      ensures var table := SongTableOf(file.data, file.code, songTablePtr);
        && (table.Err? ==> r == Err(table.error))
        && (table.Ok? && SongEntry(file.data, table.value, songId).Err? ==>
              r == Err(SongEntry(file.data, table.value, songId).error))
        && (r.Ok? ==> && table.Ok? && SongEntry(file.data, table.value, songId).Ok?
                      && r.value.meta == SongMeta(file.data, file.code, file.name, table.value,
                                                  SongEntry(file.data, table.value, songId).value))
      ensures var table := SongTableOf(file.data, file.code, songTablePtr);
        (table.Err? || SongEntry(file.data, table.value, songId).Err?) ==> voices == old(voices)
      ensures var table := SongTableOf(file.data, file.code, songTablePtr);
        table.Ok? && SongEntry(file.data, table.value, songId).Ok? ==>
          var meta := SongMeta(file.data, file.code, file.name, table.value, SongEntry(file.data, table.value, songId).value);
          var run := LoadTracksSpec(file.data, meta.mainPtr, meta.tracks, old(voices), fuel);
          && voices == run.voices
          && (r.Ok? <==> run.data.Ok? && VoicesDecode(file.data, meta.voicePtr, voices))
          && (r.Err? && run.data.Err? ==> r.error == run.data.error)
          && (r.Err? && run.data.Ok? ==> VoiceStageError(file.data, meta.voicePtr, voices, r.error))
      ensures r.Ok? ==> SongLoaded(r.value, file.data, voices, fuel, load)
    {
      var meta := FindSong(songId, songTablePtr);
      if meta.Err? {
        return Err(meta.error);
      }
      r := LoadSongBody(meta.value, fuel, load);
    }

    /** The first half of `load_song`: the song table, the song's entry in it and its header. */
    method FindSong(songId: int, songTablePtr: Option<int>) returns (r: Result<MetaData>)
      modifies file
      ensures var table := SongTableOf(file.data, file.code, songTablePtr);
        && (table.Err? ==> r == Err(table.error))
        && (table.Ok? ==> && (SongEntry(file.data, table.value, songId).Err? ==>
                                r == Err(SongEntry(file.data, table.value, songId).error))
                          && (SongEntry(file.data, table.value, songId).Ok? ==>
                                r == Ok(SongMeta(file.data, file.code, file.name, table.value,
                                                 SongEntry(file.data, table.value, songId).value))))
    {
      var table := LocateSongTable(songTablePtr);
      if table.Err? {
        return Err(table.error);
      }
      r := ReadSongEntry(songId, table.value);
    }

    /** The song table `load_song` uses: the one given, or the one the signature search finds. */
    method LocateSongTable(songTablePtr: Option<int>) returns (r: Result<int>)
      modifies file
      ensures r == SongTableOf(file.data, file.code, songTablePtr)
    {
      if songTablePtr.None? {
        var found := file.GetSongTable();
        if found.Err? {
          return Err(found.error);
        }
        if found.value == -1 {
          return Err(InvalidRom);
        }
        return Ok(found.value);
      }
      return Ok(songTablePtr.value);
    }

    /** The entry `song_id` of the song table at `table`, and the header it points to. */
    method ReadSongEntry(songId: int, table: int) returns (r: Result<MetaData>)
      modifies file
      ensures SongEntry(file.data, table, songId).Err? ==> r == Err(SongEntry(file.data, table, songId).error)
      ensures SongEntry(file.data, table, songId).Ok? ==>
        r == Ok(SongMeta(file.data, file.code, file.name, table, SongEntry(file.data, table, songId).value))
    {
      var songPtr := file.ReadGbaPtr(Some(table + songId * 8));
      if songPtr.Err? {
        return Err(songPtr.error);
      }
      if songPtr.value == -1 {
        return Err(InvalidSongNumber(songId));
      }
      var p: nat := songPtr.value;
      var numTracks, unknown, priority, reverb, voiceTablePtr := ReadSongHeader(p);
      if numTracks == 0 {
        return Err(BlankSong);
      }
      assert SongEntry(file.data, table, songId) == Ok((p, numTracks));
      return Ok(MetaData(file.code, file.name, numTracks, reverb, priority, p, voiceTablePtr, table, unknown));
    }

    /** What a loaded song holds once its header `meta` is read: its tracks, voices and samples. */
    ghost predicate SongLoaded<S>(song: Song<S>, rom: seq<Byte>, ids: set<int>, fuel: nat, load: Voices.Voice -> Option<S>)
      reads this, globals, song.tracks
    {
      && |song.tracks| == song.meta.tracks > 0
      && TracksBuilt(song.tracks, rom, song.meta.mainPtr, fuel)
      && VoicesLoaded(song.voices, song.samples, rom, song.meta.voicePtr, ids, load)
    }

    /** Track j of `tracks` is built from the j-th track the song header at `songPtr` points to. */
    ghost predicate TracksBuilt(tracks: seq<Track.M4ATrack>, rom: seq<Byte>, songPtr: int, fuel: nat)
      reads this, globals, tracks
    {
      forall j :: 0 <= j < |tracks| ==>
        && TrackAt(rom, songPtr, j, fuel).Ok?
        && Built(tracks[j], TrackAt(rom, songPtr, j, fuel).value, globals)
    }

    /** The second half of `load_song`: the tracks, the voices and the samples of the song `meta` describes. */
    method LoadSongBody<S>(meta: MetaData, fuel: nat, load: Voices.Voice -> Option<S>) returns (r: Result<Song<S>>)
      requires meta.tracks > 0
      modifies this, file
      ensures var run := LoadTracksSpec(file.data, meta.mainPtr, meta.tracks, old(voices), fuel);
        && voices == run.voices
        && (r.Ok? <==> run.data.Ok? && VoicesDecode(file.data, meta.voicePtr, voices))
        && (r.Err? && run.data.Err? ==> r.error == run.data.error)
        && (r.Err? && run.data.Ok? ==> VoiceStageError(file.data, meta.voicePtr, voices, r.error))
      ensures r.Ok? ==> r.value.meta == meta && SongLoaded(r.value, file.data, voices, fuel, load)
    {
      var tracks := LoadTracks(meta.mainPtr, meta.tracks, fuel);
      if tracks.Err? {
        return Err(tracks.error);
      }
      TracksInOrder(file.data, meta.mainPtr, 0, meta.tracks, [], old(voices), fuel);
      assert |tracks.value| == meta.tracks;
      assert TracksBuilt(tracks.value, file.data, meta.mainPtr, fuel);
      var loaded := LoadVoicesAndSamples(meta.voicePtr, load);
      if loaded.Err? {
        return Err(loaded.error);
      }
      return Ok(Song(tracks.value, loaded.value.0, loaded.value.1, meta));
    }

    /** The voices of the ids the tracks selected, then their samples. */
    method LoadVoicesAndSamples<S>(voicePtr: int, load: Voices.Voice -> Option<S>)
      returns (r: Result<(map<int, Option<Voices.Voice>>, map<SampleKey, S>)>)
      modifies file
      ensures r.Ok? <==> VoicesDecode(file.data, voicePtr, voices)
      ensures r.Err? ==> VoiceStageError(file.data, voicePtr, voices, r.error)
      ensures r.Ok? ==> VoicesLoaded(r.value.0, r.value.1, file.data, voicePtr, voices, load)
    {
      var voiceTable, order := LoadVoices(voicePtr);
      if voiceTable.Err? {
        return Err(voiceTable.error);
      }
      var values := ValuesIn(voiceTable.value, order);
      var samples := LoadSamples(values, load);
      SamplesOfSound(map[], values, load);
      if samples.Err? {
        var i :| 0 <= i < |values| && values[i].None?;
        assert Rom.LoadVoiceAt(file.data, voicePtr, order[i]) == Ok(None);
        return Err(samples.error);
      }
      forall id | id in voices
        ensures Rom.LoadVoiceAt(file.data, voicePtr, id).Ok? && Rom.LoadVoiceAt(file.data, voicePtr, id).value.Some?
      {
        var i :| 0 <= i < |order| && order[i] == id;
        assert values[i].Some?;
      }
      return Ok((voiceTable.value, samples.value));
    }

    /** The song header at p: the track count, three setting bytes and the voice-table pointer. */
    method ReadSongHeader(p: nat) returns (numTracks: Byte, unknown: Byte, priority: Byte, reverb: Byte, voiceTablePtr: int)
      modifies file
      ensures numTracks == ByteAt(file.data, p) && unknown == ByteAt(file.data, p + 1)
      ensures priority == ByteAt(file.data, p + 2) && reverb == ByteAt(file.data, p + 3)
      ensures voiceTablePtr == PointerAt(file.data, p + 4)
    {
      var ok := file.Seek(Some(p));
      ReadOn(file.data, p, 0);
      numTracks := NextByte();
      ReadOn(file.data, p, 1);
      unknown := NextByte();
      assert file.address == After(file.data, p, 2);
      ReadOn(file.data, p, 2);
      priority := NextByte();
      assert file.address == After(file.data, p, 3);
      ReadOn(file.data, p, 3);
      reverb := NextByte();
      assert file.address == After(file.data, p, 4);
      SequentialReads(file.data, p, 4, 4);
      var w := file.ReadGbaPtr(None);
      voiceTablePtr := w.value;
    }
  }
}
