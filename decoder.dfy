/**
 * The older track decoder (`Decoder` in sappy/decoder.py): the loop-point
 * pre-scan, the event queue one channel's byte-code becomes, a direct's
 * channel flags and the expansion of a programmable-waveform sample.
 *
 * The decoder points the file's `rd_addr` at each opcode before reading
 * it. `rd_addr` is a plain attribute the file ignores, so as written every
 * read comes from wherever the file head stands: `LoopOffsetAtHead` and
 * `Decoder.GetLoopOffsetAsWritten` model the pre-scan that way. The rest of
 * the model reads at the program counter, which is what the decoder
 * evidently means.
 */
module Decoder {
  import opened Wrappers
  import opened RomBytes
  import opened InstSet
  import SappyFileIo
  import ShortLen

  // ---------------------------------------------------------------------
  // get_loop_offset

  /**
   * Where a note's length bytes end: the first position from p whose byte
   * is 0x80 or more. Past the end of the file every read gives 0, so the
   * source reads for ever when no such byte is left: `None`.
   */
  function SkipNote(rom: seq<Byte>, p: nat): (r: Option<nat>)
    ensures r.Some? ==> p <= r.value && ByteAt(rom, r.value) >= 0x80
    ensures r.Some? ==> forall i :: p <= i < r.value ==> ByteAt(rom, i) < 0x80
    ensures r.None? ==> forall i :: p <= i ==> ByteAt(rom, i) < 0x80
    decreases |rom| - p
  {
    if ByteAt(rom, p) >= 0x80 then Some(p)
    else if p >= |rom| then None
    else SkipNote(rom, p + 1)
  }

  /** The position `get_loop_offset` moves to from an opcode other than FINE and GOTO. */
  function LoopScanNext(rom: seq<Byte>, pc: nat): Option<nat>
  {
    var cmd := ByteAt(rom, pc);
    if cmd <= W96 || cmd == Eot || cmd == Tie || cmd == Pend then Some(pc + 1)
    else if cmd == MemAcc then Some(pc + 4)
    else if 0xB5 <= cmd <= 0xCD then Some(pc + 2)
    else if cmd == Patt then Some(pc + 5)
    else if N01 <= cmd then SkipNote(rom, pc + 1)
    else Some(pc)
  }

  /**
   * `get_loop_offset(program_ctr)`: scan forward one opcode per step; the
   * first GOTO gives the address its pointer converts to, a FINE first gives
   * -1. `fuel` bounds the opcodes scanned.
   */
  function LoopOffsetFrom(rom: seq<Byte>, pc: int, fuel: nat): (r: Result<int>)
    ensures r.Ok? ==> r.value == -1 || 0 <= r.value < 0x200_0000
    ensures r.Err? ==> r.error == OutOfFuel || (r.error == OsError && pc < 0)
    decreases fuel
  {
    if fuel == 0 then Err(OutOfFuel)
    else if pc < 0 then Err(OsError)
    else
      var cmd := ByteAt(rom, pc);
      if cmd == Goto then Ok(ToAddress(WordAt(rom, pc + 1, 4)))
      else if cmd == Fine then Ok(-1)
      else match LoopScanNext(rom, pc)
        case None => Err(OutOfFuel)
        case Some(next) => LoopOffsetFrom(rom, next, fuel - 1)
  }

  /** The widths the pre-scan steps over, opcode by opcode. */
  lemma LoopScanWidths(rom: seq<Byte>, pc: nat)
    ensures var cmd := ByteAt(rom, pc);
      && ((cmd <= W96 || cmd == Pend || cmd == Eot || cmd == Tie) ==> LoopScanNext(rom, pc) == Some(pc + 1))
      && (cmd == MemAcc ==> LoopScanNext(rom, pc) == Some(pc + 4))
      && (0xB5 <= cmd <= 0xCD && cmd != MemAcc ==> LoopScanNext(rom, pc) == Some(pc + 2))
      && (cmd == Patt ==> LoopScanNext(rom, pc) == Some(pc + 5))
      && (N01 <= cmd && ByteAt(rom, pc + 1) >= 0x80 ==> LoopScanNext(rom, pc) == Some(pc + 1))
  {
  }

  /**
   * A result of the pre-scan is the pointer after a GOTO, or -1 for a FINE,
   * at some opcode the scan reached at or after the start.
   */
  lemma {:induction false} LoopOffsetFound(rom: seq<Byte>, pc: int, fuel: nat)
    requires LoopOffsetFrom(rom, pc, fuel).Ok?
    ensures exists q :: pc <= q && ((ByteAt(rom, q) == Goto && LoopOffsetFrom(rom, pc, fuel).value == ToAddress(WordAt(rom, q + 1, 4)))
                                  || (ByteAt(rom, q) == Fine && LoopOffsetFrom(rom, pc, fuel).value == -1))
    decreases fuel
  {
    var cmd := ByteAt(rom, pc);
    if cmd != Goto && cmd != Fine {
      var next := LoopScanNext(rom, pc).value;
      assert next >= pc;
      LoopOffsetFound(rom, next, fuel - 1);
    }
  }

  /** More fuel changes no answer the scan already reached. */
  lemma {:induction false} LoopOffsetFuel(rom: seq<Byte>, pc: int, fuel: nat, more: nat)
    requires fuel <= more && LoopOffsetFrom(rom, pc, fuel) != Err(OutOfFuel)
    ensures LoopOffsetFrom(rom, pc, more) == LoopOffsetFrom(rom, pc, fuel)
    decreases fuel
  {
    if pc >= 0 && ByteAt(rom, pc) != Goto && ByteAt(rom, pc) != Fine {
      var next := LoopScanNext(rom, pc).value;
      LoopOffsetFuel(rom, next, fuel - 1, more - 1);
    }
  }

  /**
   * `get_loop_offset` as written: every read comes from the file head, since
   * storing the counter in `rd_addr` moves nothing. A command's argument
   * bytes are therefore read as the next opcodes, and a note's length bytes
   * are skipped from the head. The counter is updated but never read from,
   * so the answer depends only on where the head stands.
   */
  function LoopOffsetAtHead(rom: seq<Byte>, head: nat, fuel: nat): (r: Result<int>)
    ensures r.Ok? ==> r.value == -1 || 0 <= r.value < 0x200_0000
    decreases fuel
  {
    if fuel == 0 then Err(OutOfFuel)
    else
      var cmd := ByteAt(rom, head);
      if cmd == Goto then Ok(ToAddress(WordAt(rom, After(rom, head, 1), 4)))
      else if cmd == Fine then Ok(-1)
      else if N01 <= cmd then
        match SkipNote(rom, head + 1)
        case None => Err(OutOfFuel)
        case Some(q) => LoopOffsetAtHead(rom, q + 1, fuel - 1)
      else LoopOffsetAtHead(rom, After(rom, head, 1), fuel - 1)
  }

  /** One pass of `LoopOffsetAtHead`, case by case. */
  lemma AtHeadStep(rom: seq<Byte>, at: nat, n: nat)
    requires n > 0
    ensures ByteAt(rom, at) == Goto ==> LoopOffsetAtHead(rom, at, n) == Ok(ToAddress(WordAt(rom, After(rom, at, 1), 4)))
    ensures ByteAt(rom, at) == Fine ==> LoopOffsetAtHead(rom, at, n) == Ok(-1)
    ensures ByteAt(rom, at) != Goto && ByteAt(rom, at) != Fine && ByteAt(rom, at) < N01 ==> LoopOffsetAtHead(rom, at, n) == LoopOffsetAtHead(rom, After(rom, at, 1), n - 1)
    ensures N01 <= ByteAt(rom, at) ==>
              LoopOffsetAtHead(rom, at, n) == match SkipNote(rom, at + 1)
                                              case None => Err(OutOfFuel)
                                              case Some(q) => LoopOffsetAtHead(rom, q + 1, n - 1)
  {
  }

  /**
   * As written, SET INST (0xBD) followed by its argument 0xB1 ends the
   * pre-scan with -1: the argument is read as FINE. Scanning at the counter,
   * as intended, steps over the argument and finds the GOTO after it.
   */
  lemma ArgumentReadAsOpcode(fuel: nat)
    requires fuel >= 2
    ensures var rom: seq<Byte> := [0xBD, Fine, Goto, 0x00, 0x00, 0x00, 0x08];
      LoopOffsetAtHead(rom, 0, fuel) == Ok(-1) && LoopOffsetFrom(rom, 0, fuel) == Ok(0)
  {
    var rom: seq<Byte> := [0xBD, Fine, Goto, 0x00, 0x00, 0x00, 0x08];
    assert ByteAt(rom, 0) == 0xBD && ByteAt(rom, 1) == Fine && ByteAt(rom, 2) == Goto;
    assert After(rom, 0, 1) == 1;
    assert WordAt(rom, 3, 4) == 0x800_0000 by {
      assert WordAt(rom, 6, 1) == 8;
    }
  }

  // ---------------------------------------------------------------------
  // load_channel: the event queue

  /** One entry of a channel's event queue: its tick stamp, opcode and up to three arguments. */
  datatype Event = Event(ticks: int, cmd: Byte, arg1: int, arg2: int, arg3: int)

  /** The channel `load_channel` returns: its loop index into the queue (-1 for none) and the queue. */
  datatype ChannelData = ChannelData(loopPtr: int, events: seq<Event>)

  /** The size of the `lln`/`llv`/`lla` note memories. */
  const NoteMemory: nat := 66

  /** The local variables of `load_channel`'s loop. */
  datatype ChannelState = ChannelState(
    pc: int, cticks: int, lastCmd: Byte,
    lln: seq<int>, llv: seq<int>, lla: seq<int>,   // last key, velocity, gate per chord position
    lastPatch: int, insub: bool, rpc: int, transpose: int,
    loopPtr: int, events: seq<Event>)
  {
    predicate WellFormed()
    {
      |lln| == NoteMemory && |llv| == NoteMemory && |lla| == NoteMemory
    }
  }

  function Zeros(n: nat): (z: seq<int>)
    ensures |z| == n && forall i :: 0 <= i < n ==> z[i] == 0
  {
    seq(n, _ => 0)
  }

  /** The variables as the loop first sees them: VOL as running status, no loop index yet. */
  function InitialState(pc: int): (s: ChannelState)
    ensures s.WellFormed() && s.events == [] && s.loopPtr == -1 && s.cticks == 0
  {
    ChannelState(pc, 0, Vol, Zeros(NoteMemory), Zeros(NoteMemory), Zeros(NoteMemory), 0, false, 0, 0, -1, [])
  }

  /** s with ev appended to its queue. */
  function Add(s: ChannelState, ev: Event): ChannelState
  {
    s.(events := s.events + [ev])
  }

  /**
   * s' only appends to s's queue, stamping every new event with s's tick
   * count, never lowers the tick count and keeps the loop index.
   */
  ghost predicate Extends(s: ChannelState, s': ChannelState)
  {
    && s.events <= s'.events && s.cticks <= s'.cticks && s'.loopPtr == s.loopPtr
    && forall i :: |s.events| <= i < |s'.events| ==> s'.events[i].ticks == s.cticks
  }

  lemma ExtendsTransitive(s: ChannelState, s': ChannelState, s'': ChannelState)
    requires Extends(s, s') && Extends(s', s'') && s'.cticks == s.cticks
    ensures Extends(s, s'')
  {
  }

  /**
   * One chord position k of a note opcode `cmd` whose key byte is below
   * 0x80: the key, then a velocity and a gate while they are below 0x80,
   * go into the note memories, and one note event plays the memories at k.
   * The flag says a full gate was read, so the next position follows.
   */
  function NoteRead(rom: seq<Byte>, s: ChannelState, cmd: Byte, k: nat): (r: (ChannelState, bool))
    requires s.WellFormed() && s.pc >= 0 && k < NoteMemory && ByteAt(rom, s.pc) < 0x80
    ensures r.0.WellFormed() && r.0.pc > s.pc && Extends(s, r.0) && r.0.cticks == s.cticks
    ensures r.0.lln[k] == ByteAt(rom, s.pc)
    ensures r.0.events == s.events + [Event(s.cticks, cmd, r.0.lln[k] + s.transpose, r.0.llv[k], r.0.lla[k])]
    ensures r.1 <==> ByteAt(rom, s.pc + 1) < 0x80 && ByteAt(rom, s.pc + 2) < 0x80
  {
    var p := s.pc;
    var a1 := ByteAt(rom, p);
    var a2 := ByteAt(rom, p + 1);
    var a3 := ByteAt(rom, p + 2);
    if a2 >= 0x80 then
      (Add(s.(lln := s.lln[k := a1], pc := p + 1), Event(s.cticks, cmd, a1 + s.transpose, s.llv[k], s.lla[k])), false)
    else if a3 >= 0x80 then
      (Add(s.(lln := s.lln[k := a1], llv := s.llv[k := a2], pc := p + 2), Event(s.cticks, cmd, a1 + s.transpose, a2, s.lla[k])), false)
    else
      (Add(s.(lln := s.lln[k := a1], llv := s.llv[k := a2], lla := s.lla[k := a3], pc := p + 3), Event(s.cticks, cmd, a1 + s.transpose, a2, a3)), true)
  }

  /**
   * The inner `while not g` loop of a note opcode `cmd` from chord position
   * k: positions are read while their gates are full; a terminator at
   * position 0 repeats the last note; a 67th position raises `IndexError`.
   */
  function NoteGroupFrom(rom: seq<Byte>, s: ChannelState, cmd: Byte, k: nat): (r: Result<ChannelState>)
    requires s.WellFormed() && s.pc >= 0 && k <= NoteMemory
    ensures r.Ok? ==> r.value.WellFormed() && r.value.pc >= s.pc && Extends(s, r.value) && r.value.cticks == s.cticks
    decreases NoteMemory - k
  {
    if ByteAt(rom, s.pc) >= 0x80 then
      Ok(if k == 0 then Add(s, Event(s.cticks, cmd, s.lln[0] + s.transpose, s.llv[0], s.lla[0])) else s)
    else if k == NoteMemory then Err(IndexError)
    else
      var (s', more) := NoteRead(rom, s, cmd, k);
      if more then
        var r := NoteGroupFrom(rom, s', cmd, k + 1);
        if r.Ok? then ExtendsTransitive(s, s', r.value); r else r
      else Ok(s')
  }

  /** What one pass of the loop leaves: the variables, and the opcode that ends the loop if it does. */
  datatype Outcome = Continue(s: ChannelState) | Stop(s: ChannelState, cmd: Byte)

  /** FINE, GOTO and PREV end the loop. */
  predicate Ends(cmd: Byte)
  {
    cmd == Fine || cmd == Goto || cmd == Prev
  }

  function Finish(s: ChannelState, cmd: Byte): Outcome
  {
    if Ends(cmd) then Stop(s, cmd) else Continue(s)
  }

  /**
   * The ticks a wait opcode 0x80..0xB0 adds: `stlen_to_ticks(cmd - 0x80)`.
   * `stlen_to_ticks` is not part of sappy/engine.py; the model uses the
   * short-length table with the wait opcodes' own durations.
   */
  function WaitLength(cmd: Byte): (t: nat)
    requires W00 <= cmd <= W96
    ensures t == WaitTicks(cmd)
  {
    ShortLen.SlenToTicksCorrected(cmd - W00).value
  }

  /** The loop index is taken the first time the read address reaches the loop address. */
  function MarkLoop(s: ChannelState, loopAddr: int): ChannelState
  {
    if s.pc >= loopAddr && s.loopPtr == -1 && loopAddr != -1 then s.(loopPtr := |s.events|) else s
  }

  /** The opcodes with one argument byte: B5..C4 except MEMACC, and XCMD. */
  predicate OneArgument(cmd: Byte)
  {
    (cmd != MemAcc && 0xB5 <= cmd < 0xC5) || cmd == XCmd
  }

  /** A one-argument opcode: KEYSH sets the transpose, VOICE the patch, five controls become running status. */
  function ArgumentStep(rom: seq<Byte>, s: ChannelState, cmd: Byte): (s': ChannelState)
    requires s.WellFormed() && s.pc >= 0
    ensures s'.WellFormed() && Extends(s, s')
  {
    var a := ByteAt(rom, s.pc + 1);
    var s1 := if cmd == KeySh then s.(transpose := SignedByte(a))
              else if cmd == Voice then s.(lastPatch := a)
              else if cmd == Vol || cmd == Pan || cmd == Bend || cmd == Mod || cmd == XCmd then s.(lastCmd := cmd)
              else s;
    Add(s1.(pc := s.pc + 2), Event(s.cticks, cmd, a, 0, 0))
  }

  /** A key byte with a note opcode as running status, or a note opcode itself. */
  function NoteStep(rom: seq<Byte>, s: ChannelState, cmd: Byte): (r: Result<Outcome>)
    requires s.WellFormed() && s.pc >= 0 && (cmd >= Tie || cmd < 0x80)
    ensures r.Ok? ==> r.value.Continue? && r.value.s.WellFormed() && Extends(s, r.value.s)
  {
    if cmd < 0x80 && s.lastCmd < Tie then
      Ok(Continue(Add(s.(pc := s.pc + 1), Event(s.cticks, s.lastCmd, cmd, 0, 0))))
    else
      var g := if cmd >= Tie then NoteGroupFrom(rom, s.(pc := s.pc + 1, lastCmd := cmd), cmd, 0)
               else NoteGroupFrom(rom, s, s.lastCmd, 0);
      match g
      case Err(e) => Err(e)
      case Ok(s') => Ok(Continue(s'))
  }

  /** One pass of the loop at a non-negative address, after the loop index is taken. */
  function Dispatch(rom: seq<Byte>, s: ChannelState): (r: Result<Outcome>)
    requires s.WellFormed() && s.pc >= 0
    ensures r.Ok? ==> r.value.s.WellFormed() && Extends(s, r.value.s)
  {
    var pc: nat := s.pc;
    var cmd := ByteAt(rom, pc);
    if OneArgument(cmd) then
      Ok(Finish(ArgumentStep(rom, s, cmd), cmd))
    else if 0xC4 < cmd < Tie then
      Ok(Continue(Add(s.(pc := pc + 1), Event(s.cticks, cmd, 0, 0, 0))))
    else if cmd == MemAcc then
      var ev := Event(s.cticks, cmd, ByteAt(rom, pc + 1), ByteAt(rom, pc + 2), ByteAt(rom, pc + 3));
      Ok(Continue(Add(s.(pc := pc + 4), ev)))
    else if cmd == Pend then
      Ok(Continue(if s.insub then s.(pc := s.rpc, insub := false) else s.(pc := pc + 1)))
    else if cmd == Patt then
      Ok(Continue(s.(rpc := pc + 5, insub := true, pc := ToAddress(WordAt(rom, pc + 1, 4)))))
    else if cmd >= Tie || cmd < 0x80 then
      NoteStep(rom, s, cmd)
    else if cmd <= W96 then
      Ok(Continue(Add(s.(pc := pc + 1, cticks := s.cticks + WaitLength(cmd)), Event(s.cticks, cmd, 0, 0, 0))))
    else
      Ok(Finish(s, cmd))
  }

  /** One pass of `load_channel`'s `while True` loop. */
  function ChannelStep(rom: seq<Byte>, s0: ChannelState, loopAddr: int): (r: Result<Outcome>)
    requires s0.WellFormed()
    ensures r.Ok? ==> r.value.s.WellFormed() && Extends(MarkLoop(s0, loopAddr), r.value.s)
  {
    var s := MarkLoop(s0, loopAddr);
    if s.pc < 0 then Err(OsError) else Dispatch(rom, s)
  }

  /**
   * The loop run to its end: the pass that reads FINE, GOTO or PREV is the
   * last, and one more event stamped with the current ticks and that opcode
   * closes the queue. `fuel` bounds the passes.
   */
  function RunChannel(rom: seq<Byte>, s: ChannelState, loopAddr: int, fuel: nat): Result<ChannelState>
    requires s.WellFormed()
    decreases fuel
  {
    if fuel == 0 then Err(OutOfFuel)
    else match ChannelStep(rom, s, loopAddr)
      case Err(e) => Err(e)
      case Ok(Continue(s')) => RunChannel(rom, s', loopAddr, fuel - 1)
      case Ok(Stop(s', cmd)) => Ok(Add(s', Event(s'.cticks, cmd, 0, 0, 0)))
  }

  /**
   * `load_channel(header_ptr, table_ptr, track_num)`: the track pointer in
   * the song header, the loop address the pre-scan finds from it, and the
   * event queue the loop builds.
   */
  function LoadChannelSpec(rom: seq<Byte>, headerPtr: int, trackNum: int, fuel: nat): Result<ChannelData>
  {
    var at := headerPtr + 4 + (trackNum + 1) * 4;
    if at < 0 then Err(OsError)
    else
      var pc := ToAddress(WordAt(rom, at, 4));
      match LoopOffsetFrom(rom, pc, fuel)
      case Err(e) => Err(e)
      case Ok(loopAddr) => QueueFrom(rom, pc, loopAddr, fuel)
  }

  /** The event queue `load_channel` builds from the track start `pc`, once the loop address is known. */
  function QueueFrom(rom: seq<Byte>, pc: int, loopAddr: int, fuel: nat): Result<ChannelData>
  {
    match RunChannel(rom, InitialState(pc), loopAddr, fuel)
    case Err(e) => Err(e)
    case Ok(s) => Ok(ChannelData(s.loopPtr, s.events))
  }

  // ---------------------------------------------------------------------
  // Properties of the event queue

  /** Tick stamps never decrease along the queue and never exceed the running tick count. */
  ghost predicate Ordered(s: ChannelState)
  {
    && (forall i, j :: 0 <= i < j < |s.events| ==> s.events[i].ticks <= s.events[j].ticks)
    && (forall i :: 0 <= i < |s.events| ==> s.events[i].ticks <= s.cticks)
  }

  /** The loop index is unset or points into the queue. */
  ghost predicate LoopIndexed(s: ChannelState)
  {
    s.loopPtr == -1 || 0 <= s.loopPtr <= |s.events|
  }

  lemma ExtendsKeeps(s: ChannelState, s': ChannelState)
    requires Ordered(s) && LoopIndexed(s) && Extends(s, s')
    ensures Ordered(s') && LoopIndexed(s')
  {
    forall i, j | 0 <= i < j < |s'.events|
      ensures s'.events[i].ticks <= s'.events[j].ticks
    {
      if j < |s.events| {
        assert s'.events[i] == s.events[i] && s'.events[j] == s.events[j];
      } else if i < |s.events| {
        assert s'.events[i] == s.events[i];
      }
    }
    forall i | 0 <= i < |s'.events|
      ensures s'.events[i].ticks <= s'.cticks
    {
      if i < |s.events| {
        assert s'.events[i] == s.events[i];
      }
    }
  }

  lemma MarkLoopKeeps(s: ChannelState, loopAddr: int)
    requires Ordered(s) && LoopIndexed(s)
    ensures Ordered(MarkLoop(s, loopAddr)) && LoopIndexed(MarkLoop(s, loopAddr))
  {
  }

  /** Once taken, the loop index never changes. */
  lemma StepKeepsLoopIndex(rom: seq<Byte>, s: ChannelState, loopAddr: int)
    requires s.WellFormed() && s.loopPtr != -1 && ChannelStep(rom, s, loopAddr).Ok?
    ensures ChannelStep(rom, s, loopAddr).value.s.loopPtr == s.loopPtr
  {
  }

  /** The first pass whose address reaches a valid loop address takes the queue length as loop index. */
  lemma StepTakesLoopIndex(rom: seq<Byte>, s: ChannelState, loopAddr: int)
    requires s.WellFormed() && s.loopPtr == -1 && loopAddr != -1 && s.pc >= loopAddr
    requires ChannelStep(rom, s, loopAddr).Ok?
    ensures ChannelStep(rom, s, loopAddr).value.s.loopPtr == |s.events|
  {
  }

  /**
   * A finished queue: stamps never decrease, the loop index (once taken)
   * stays, and events are only ever appended.
   */
  lemma {:induction false} RunChannelShape(rom: seq<Byte>, s: ChannelState, loopAddr: int, fuel: nat)
    requires s.WellFormed() && Ordered(s) && LoopIndexed(s)
    requires RunChannel(rom, s, loopAddr, fuel).Ok?
    ensures var s' := RunChannel(rom, s, loopAddr, fuel).value;
      && Ordered(s') && LoopIndexed(s') && s.events < s'.events
      && (s.loopPtr != -1 ==> s'.loopPtr == s.loopPtr)
    decreases fuel
  {
    StepShape(rom, s, loopAddr);
    match ChannelStep(rom, s, loopAddr).value
    case Continue(s') =>
      RunChannelShape(rom, s', loopAddr, fuel - 1);
    case Stop(s', cmd) =>
      StopShape(s', cmd);
  }

  /** The last event of a finished queue is stamped with the final tick count and carries FINE, GOTO or PREV. */
  lemma {:induction false} RunChannelEnds(rom: seq<Byte>, s: ChannelState, loopAddr: int, fuel: nat)
    requires s.WellFormed() && RunChannel(rom, s, loopAddr, fuel).Ok?
    ensures var s' := RunChannel(rom, s, loopAddr, fuel).value;
      && |s'.events| > 0 && s'.events[|s'.events| - 1].ticks == s'.cticks
      && Ends(s'.events[|s'.events| - 1].cmd)
    decreases fuel
  {
    match ChannelStep(rom, s, loopAddr).value
    case Continue(s') =>
      RunChannelEnds(rom, s', loopAddr, fuel - 1);
    case Stop(_, cmd) =>
      assert Ends(cmd);
  }

  lemma StepShape(rom: seq<Byte>, s: ChannelState, loopAddr: int)
    requires s.WellFormed() && Ordered(s) && LoopIndexed(s) && ChannelStep(rom, s, loopAddr).Ok?
    ensures var s' := ChannelStep(rom, s, loopAddr).value.s;
      && Ordered(s') && LoopIndexed(s') && s.events <= s'.events
      && (s.loopPtr != -1 ==> s'.loopPtr == s.loopPtr)
  {
    MarkLoopKeeps(s, loopAddr);
    ExtendsKeeps(MarkLoop(s, loopAddr), ChannelStep(rom, s, loopAddr).value.s);
  }

  lemma StopShape(s: ChannelState, cmd: Byte)
    requires Ordered(s) && LoopIndexed(s)
    ensures var last := Add(s, Event(s.cticks, cmd, 0, 0, 0));
      Ordered(last) && LoopIndexed(last) && s.events < last.events
      && last.events[|last.events| - 1] == Event(s.cticks, cmd, 0, 0, 0)
  {
    var last := Add(s, Event(s.cticks, cmd, 0, 0, 0));
    assert Extends(s, last);
    ExtendsKeeps(s, last);
  }

  /** The channel `load_channel` returns has ordered stamps, a loop index into its queue, and ends on FINE, GOTO or PREV. */
  lemma LoadedChannelShape(rom: seq<Byte>, headerPtr: int, trackNum: int, fuel: nat)
    requires LoadChannelSpec(rom, headerPtr, trackNum, fuel).Ok?
    ensures var c := LoadChannelSpec(rom, headerPtr, trackNum, fuel).value;
      && (forall i, j :: 0 <= i < j < |c.events| ==> c.events[i].ticks <= c.events[j].ticks)
      && (c.loopPtr == -1 || 0 <= c.loopPtr <= |c.events|)
      && |c.events| > 0 && Ends(c.events[|c.events| - 1].cmd)
  {
    var pc := ToAddress(WordAt(rom, headerPtr + 4 + (trackNum + 1) * 4, 4));
    var loopAddr := LoopOffsetFrom(rom, pc, fuel).value;
    assert LoadChannelSpec(rom, headerPtr, trackNum, fuel) == QueueFrom(rom, pc, loopAddr, fuel);
    QueueShape(rom, pc, loopAddr, fuel);
  }

  /** The shape of `LoadedChannelShape`, for the queue built from the track start `pc`. */
  lemma QueueShape(rom: seq<Byte>, pc: int, loopAddr: int, fuel: nat)
    requires QueueFrom(rom, pc, loopAddr, fuel).Ok?
    ensures var c := QueueFrom(rom, pc, loopAddr, fuel).value;
      && (forall i, j :: 0 <= i < j < |c.events| ==> c.events[i].ticks <= c.events[j].ticks)
      && (c.loopPtr == -1 || 0 <= c.loopPtr <= |c.events|)
      && |c.events| > 0 && Ends(c.events[|c.events| - 1].cmd)
  {
    RunChannelShape(rom, InitialState(pc), loopAddr, fuel);
    RunChannelEnds(rom, InitialState(pc), loopAddr, fuel);
  }

  /**
   * Subroutines are one level deep: PATT remembers only the address after
   * itself, and PEND returns there once; outside a subroutine PEND just
   * steps over itself.
   */
  lemma SubroutineOneLevel(rom: seq<Byte>, s: ChannelState, loopAddr: int)
    requires s.WellFormed() && s.pc >= 0
    ensures ByteAt(rom, s.pc) == Patt ==>
      ChannelStep(rom, s, loopAddr) == Ok(Continue(MarkLoop(s, loopAddr).(rpc := s.pc + 5, insub := true, pc := ToAddress(WordAt(rom, s.pc + 1, 4)))))
    ensures ByteAt(rom, s.pc) == Pend && s.insub ==>
      ChannelStep(rom, s, loopAddr) == Ok(Continue(MarkLoop(s, loopAddr).(pc := s.rpc, insub := false)))
    ensures ByteAt(rom, s.pc) == Pend && !s.insub ==>
      ChannelStep(rom, s, loopAddr) == Ok(Continue(MarkLoop(s, loopAddr).(pc := s.pc + 1)))
  {
  }

  /** A PATT into a PEND comes back to the opcode after the PATT, outside any subroutine, with the queue unchanged. */
  lemma CallReturns(rom: seq<Byte>, s: ChannelState, loopAddr: int)
    requires s.WellFormed() && s.pc >= 0 && ByteAt(rom, s.pc) == Patt
    requires var t := ToAddress(WordAt(rom, s.pc + 1, 4)); t >= 0 && ByteAt(rom, t) == Pend
    ensures ChannelStep(rom, s, loopAddr).Ok? && ChannelStep(rom, s, loopAddr).value.Continue?
    ensures var s1 := ChannelStep(rom, s, loopAddr).value.s;
      ChannelStep(rom, s1, loopAddr).Ok? && ChannelStep(rom, s1, loopAddr).value.Continue?
      && ChannelStep(rom, s1, loopAddr).value.s.pc == s.pc + 5
      && !ChannelStep(rom, s1, loopAddr).value.s.insub
      && ChannelStep(rom, s1, loopAddr).value.s.events == s.events
  {
    SubroutineOneLevel(rom, s, loopAddr);
    var s1 := ChannelStep(rom, s, loopAddr).value.s;
    SubroutineOneLevel(rom, s1, loopAddr);
  }

  /** A wait opcode adds one event stamped with the ticks before it, then advances the ticks by its length. */
  lemma WaitStamps(rom: seq<Byte>, s: ChannelState, loopAddr: int)
    requires s.WellFormed() && s.pc >= 0 && W00 <= ByteAt(rom, s.pc) <= W96
    ensures var cmd := ByteAt(rom, s.pc);
      var s' := ChannelStep(rom, s, loopAddr).value.s;
      && ChannelStep(rom, s, loopAddr).Ok? && ChannelStep(rom, s, loopAddr).value.Continue?
      && s'.events == s.events + [Event(s.cticks, cmd, 0, 0, 0)]
      && s'.cticks == s.cticks + WaitTicks(cmd)
      && s'.pc == s.pc + 1
  {
  }

  /** More fuel changes no channel the loop already finished. */
  lemma {:induction false} RunChannelFuel(rom: seq<Byte>, s: ChannelState, loopAddr: int, fuel: nat, more: nat)
    requires s.WellFormed() && fuel <= more && RunChannel(rom, s, loopAddr, fuel) != Err(OutOfFuel)
    ensures RunChannel(rom, s, loopAddr, more) == RunChannel(rom, s, loopAddr, fuel)
    decreases fuel
  {
    if ChannelStep(rom, s, loopAddr).Ok? && ChannelStep(rom, s, loopAddr).value.Continue? {
      RunChannelFuel(rom, ChannelStep(rom, s, loopAddr).value.s, loopAddr, fuel - 1, more - 1);
    }
  }

  // ---------------------------------------------------------------------
  // Directs and waveform samples

  /** The `DirectTypes` value of `DIRECT`, the plain DirectSound output. */
  const DirectOutput := 0

  /** `set_direct`'s flags: output = channel & 7, fix_pitch = bit 3 (& 0x08), reverse = bit 4 (& 0x10). */
  function OutputOf(channel: Byte): int { (channel as bv8 & 0x07) as int }
  predicate FixPitchOf(channel: Byte) { channel as bv8 & 0x08 == 0x08 }
  predicate ReverseOf(channel: Byte) { channel as bv8 & 0x10 == 0x10 }

  /** The three fields recover the channel's five low bits. */
  lemma ChannelFlagsRoundTrip(channel: Byte)
    ensures 0 <= OutputOf(channel) < 8
    ensures channel as bv8 & 0x1F == (OutputOf(channel) as bv8) | (if FixPitchOf(channel) then 0x08 else 0)
                                                               | (if ReverseOf(channel) then 0x10 else 0)
  {
  }

  /** A programmable waveform sample, or the fields of a DirectSound sample. */
  datatype Sample = Sample(size: nat, frequency: nat, loopStart: nat, loops: bool, gbWave: bool, data: seq<nat>)

  /** `GB_WAV_BASE_FREQ`. */
  const WaveBaseFrequency: nat := 880

  /**
   * Sample ai of the 32-sample waveform: a nibble of wave byte ai / 2, the
   * low one first, times `GB_WAV_MULTI * 16` = 8. A byte missing at the end
   * of the file counts as 0.
   */
  function WaveSample(raw: seq<Byte>, ai: nat): nat
  {
    var d := if ai / 2 < |raw| then raw[ai / 2] else 0;
    (if ai % 2 == 0 then d % 16 else (d / 16) % 16) * 8
  }

  function GbWave(raw: seq<Byte>): (w: seq<nat>)
    ensures |w| == 32 && forall ai :: 0 <= ai < 32 ==> w[ai] == WaveSample(raw, ai)
  {
    seq(32, ai requires 0 <= ai => WaveSample(raw, ai))
  }

  /** Each wave byte becomes its low nibble then its high nibble, both times 8. */
  lemma GbWaveNibbles(raw: seq<Byte>, i: nat)
    requires i < 16 && i < |raw|
    ensures GbWave(raw)[2 * i] == (raw[i] % 16) * 8
    ensures GbWave(raw)[2 * i + 1] == (raw[i] / 16) * 8
  {
  }

  /** The expansion loses nothing: the 16 wave bytes come back from the 32 samples. */
  lemma GbWaveRoundTrip(raw: seq<Byte>, i: nat)
    requires i < 16 && i < |raw|
    ensures GbWave(raw)[2 * i] / 8 + 16 * (GbWave(raw)[2 * i + 1] / 8) == raw[i]
  {
    GbWaveNibbles(raw, i);
  }

  /**
   * The waveform as `get_smp` computes it: `rd_str(16)` decodes the bytes as
   * UTF-8 first, so a byte that is not valid UTF-8 raises
   * `UnicodeDecodeError` and a multi-byte character leaves fewer than 16
   * characters to index.
   */
  function WaveAsWritten(raw: seq<Byte>): Result<seq<nat>>
  {
    match SappyFileIo.Utf8Decode(raw)
    case None => Err(ValueError)
    case Some(t) =>
      if |t| < 16 then Err(IndexError)
      else Ok(seq(32, ai requires 0 <= ai < 32 => (if ai % 2 == 0 then t[ai / 2] % 16 else (t[ai / 2] / 16) % 16) * 8))
  }

  /**
   * Read through `rd_str`, a 16-byte wave loads iff every byte is below 0x80,
   * and then agrees with the byte expansion.
   */
  lemma WaveAsWrittenNeedsAscii(raw: seq<Byte>)
    requires |raw| == 16
    ensures WaveAsWritten(raw).Ok? <==> forall i :: 0 <= i < 16 ==> raw[i] < 0x80
    ensures WaveAsWritten(raw).Ok? ==> WaveAsWritten(raw).value == GbWave(raw)
  {
    var t := SappyFileIo.Utf8Decode(raw);
    if forall i :: 0 <= i < 16 ==> raw[i] < 0x80 {
      SappyFileIo.AsciiDecodes(raw);
    } else if t.Some? {
      SappyFileIo.DecodeShortens(raw);
    }
  }

  /** The wave 0x80, 0, ..., 0 (one sample at 8) makes the source raise. */
  lemma WaveWithHighByteRaises()
    ensures WaveAsWritten([0x80] + Zeros(15)).Err?
    ensures GbWave([0x80] + Zeros(15))[1] == 64
  {
    var raw: seq<Byte> := [0x80] + Zeros(15);
    WaveAsWrittenNeedsAscii(raw);
  }

  // ---------------------------------------------------------------------
  // The decoder object

  /** `engine.Direct`: the settings of one playable voice. */
  class Direct {
    var drumKey: int
    var output: int
    var envAttn: int
    var envDcy: int
    var envSus: int
    var envRel: int
    var raw0: int
    var raw1: int
    var gb1: int
    var gb2: int
    var gb3: int
    var gb4: int
    var fixPitch: bool
    var reverse: bool
    var smpId: int

    constructor ()
      ensures output == DirectOutput && smpId == 0 && !fixPitch && !reverse
    {
      output := DirectOutput;
      smpId := 0;
      fixPitch := false;
      reverse := false;
    }
  }

  class Decoder {
    const file: SappyFileIo.VirtualFile
    /** The sample pool, by sample pointer. */
    var samples: map<int, Sample>

    constructor (file: SappyFileIo.VirtualFile)
      ensures this.file == file && samples == map[]
    {
      this.file := file;
      samples := map[];
    }

    /** `set_direct`: copy the header fields and split the instrument's channel byte. */
    method SetDirect(direct: Direct, instHead: SappyFileIo.InstrumentHeader, dctHead: SappyFileIo.DirectHeader,
                     gbHead: SappyFileIo.NoiseHeader)
      modifies direct
      ensures direct.drumKey == instHead.drumPitch && direct.output == OutputOf(instHead.channel)
      ensures direct.envAttn == dctHead.attack && direct.envDcy == dctHead.hold
      ensures direct.envSus == dctHead.isSustain && direct.envRel == dctHead.release
      ensures direct.raw0 == dctHead.b0 && direct.raw1 == dctHead.b1
      ensures direct.gb1 == gbHead.b2 && direct.gb2 == gbHead.b3 && direct.gb3 == gbHead.b4 && direct.gb4 == gbHead.b5
      ensures direct.fixPitch == FixPitchOf(instHead.channel) && direct.reverse == ReverseOf(instHead.channel)
      ensures direct.smpId == old(direct.smpId)
    {
      direct.drumKey := instHead.drumPitch;
      direct.output := OutputOf(instHead.channel);
      direct.envAttn := dctHead.attack;
      direct.envDcy := dctHead.hold;
      direct.envSus := dctHead.isSustain;
      direct.envRel := dctHead.release;
      direct.raw0 := dctHead.b0;
      direct.raw1 := dctHead.b1;
      direct.gb1 := gbHead.b2;
      direct.gb2 := gbHead.b3;
      direct.gb3 := gbHead.b4;
      direct.gb4 := gbHead.b5;
      direct.fixPitch := FixPitchOf(instHead.channel);
      direct.reverse := ReverseOf(instHead.channel);
    }

    /** The `for ai in range(32)` loop of `get_smp` over the 16 wave bytes. */
    method ExpandWave(raw: seq<Byte>) returns (w: seq<nat>)
      ensures w == GbWave(raw)
    {
      w := [];
      for ai := 0 to 32
        invariant |w| == ai && forall j :: 0 <= j < ai ==> w[j] == WaveSample(raw, j)
      {
        var bi := ai % 2;
        var l := ai / 2;
        var data := if l < |raw| then raw[l] else 0;
        data := if bi == 0 then data else data / 16;
        data := data % 16;
        data := data * 8;
        w := w + [data];
      }
    }

    /**
     * `get_smp`: record the direct's sample pointer and, for a pointer not
     * in the pool yet, add a blank entry for it, read the sample header
     * there and fill the entry in: a DirectSound sample with the header's
     * size, frequency * 64 and loop, whose payload `use_readstr` asks to be
     * read after the header as text, or a 32-sample programmable waveform
     * from the 16 bytes at the pointer. The entry stays in the pool when a
     * read raises.
     */
    method GetSmp(smp: Direct, dctHead: SappyFileIo.DirectHeader, useReadStr: bool) returns (r: Result<()>)
      modifies this, smp`smpId, file
      ensures smp.smpId == dctHead.smpHead
      ensures old(dctHead.smpHead in samples) ==> r == Ok(()) && samples == old(samples) && file.pos == old(file.pos)
      ensures var addr := ToAddress(dctHead.smpHead);
        !old(dctHead.smpHead in samples) && addr < 0 ==>
          && r == Err(OsError)
          && samples == old(samples)[dctHead.smpHead := BlankSample]
          && file.pos == old(file.pos)
      ensures var addr := ToAddress(dctHead.smpHead);
        !old(dctHead.smpHead in samples) && addr >= 0 && smp.output != DirectOutput ==>
          && r == Ok(())
          && samples == old(samples)[dctHead.smpHead := SampleFor(file.data, addr, smp.output)]
          && file.pos == After(file.data, addr, 16)
      ensures var addr := ToAddress(dctHead.smpHead);
        !old(dctHead.smpHead in samples) && addr >= 0 && smp.output == DirectOutput && !useReadStr ==>
          && r == Ok(())
          && samples == old(samples)[dctHead.smpHead := SampleFor(file.data, addr, DirectOutput)]
          && file.pos == After(file.data, addr, SappyFileIo.SampleSize)
      ensures var addr := ToAddress(dctHead.smpHead);
        !old(dctHead.smpHead in samples) && addr >= 0 && smp.output == DirectOutput && useReadStr ==>
          && file.pos == PayloadEnd(file.data, addr)
          && match PayloadText(file.data, addr)
             case None =>
               && r == Err(ValueError)
               && samples == old(samples)[dctHead.smpHead := SampleFor(file.data, addr, DirectOutput)]
             case Some(t) =>
               && r == Ok(())
               && samples == old(samples)[dctHead.smpHead := SampleFor(file.data, addr, DirectOutput).(data := t)]
    {
      smp.smpId := dctHead.smpHead;
      var sid := smp.smpId;
      if sid in samples {
        return Ok(());
      }
      samples := samples[sid := BlankSample];
      var addr := ToAddress(sid);
      if addr < 0 {
        var smpHead := file.RdSmpHead(Some(addr));
        return Err(smpHead.error);
      }
      r := FillSample(sid, addr, smp.output, useReadStr);
    }

    /**
     * The reads of `get_smp` for a new pointer at addr, whose entry is already
     * in the pool: the sample header, then the payload or the waveform.
     */
    method FillSample(sid: int, addr: nat, output: int, useReadStr: bool) returns (r: Result<()>)
      modifies this, file
      ensures output != DirectOutput ==>
          && r == Ok(())
          && samples == old(samples)[sid := SampleFor(file.data, addr, output)]
          && file.pos == After(file.data, addr, 16)
      ensures output == DirectOutput && !useReadStr ==>
          && r == Ok(())
          && samples == old(samples)[sid := SampleFor(file.data, addr, DirectOutput)]
          && file.pos == After(file.data, addr, SappyFileIo.SampleSize)
      ensures output == DirectOutput && useReadStr ==>
          && file.pos == PayloadEnd(file.data, addr)
          && match PayloadText(file.data, addr)
             case None =>
               && r == Err(ValueError)
               && samples == old(samples)[sid := SampleFor(file.data, addr, DirectOutput)]
             case Some(t) =>
               && r == Ok(())
               && samples == old(samples)[sid := SampleFor(file.data, addr, DirectOutput).(data := t)]
    {
      var smpHead := file.RdSmpHead(Some(addr));
      var h := smpHead.value;
      if output == DirectOutput {
        var w := Sample(h.size, h.frequency * 64, h.loop, h.flags > 0, false, []);
        samples := samples[sid := w];
        if useReadStr {
          var text := file.RdStr(h.size, None);
          if text.Err? {
            return Err(text.error);
          }
          samples := samples[sid := w.(data := text.value)];
        }
      } else {
        var tsi := file.ReadChunk(Some(addr), 16);
        var wave := ExpandWave(tsi.value);
        samples := samples[sid := Sample(32, WaveBaseFrequency, 0, true, true, wave)];
      }
      return Ok(());
    }

    /** `get_loop_offset(program_ctr)`. */
    method GetLoopOffset(programCtr: int, fuel: nat) returns (r: Result<int>)
      modifies file
      ensures r == LoopOffsetFrom(file.data, programCtr, fuel)
    {
      var pc := programCtr;
      var loopOffset := -1;
      var n := fuel;
      while n > 0
        invariant LoopOffsetFrom(file.data, pc, n) == LoopOffsetFrom(file.data, programCtr, fuel)
        decreases n
      {
        var c := file.RdByte(Some(pc));
        if c.Err? {
          return Err(c.error);
        }
        var cmd := c.value;
        ghost var at: nat := pc;
        if cmd <= W96 || cmd == Eot || cmd == Tie || cmd == Pend {
          pc := pc + 1;
        } else if cmd == MemAcc {
          pc := pc + 4;
        } else if 0xB5 <= cmd <= 0xCD {
          pc := pc + 2;
        } else if cmd == Goto {
          SequentialReads(file.data, at, 1, 4);
          var ptr := file.RdGbaPtr(None);
          loopOffset := ptr.value;
          return Ok(loopOffset);
        } else if cmd == Patt {
          pc := pc + 5;
        } else if N01 <= cmd {
          var next := SkipNoteArgs(pc);
          if next.None? {
            return Err(OutOfFuel);
          }
          pc := next.value;
        }
        if cmd == Fine {
          return Ok(loopOffset);
        }
        n := n - 1;
      }
      return Err(OutOfFuel);
    }

    /**
     * `get_loop_offset(program_ctr)` as written: each pass stores the
     * counter in `rd_addr`, which the file ignores, and reads the next byte
     * at the head.
     */
    method GetLoopOffsetAsWritten(programCtr: int, fuel: nat) returns (r: Result<int>)
      modifies file
      ensures r == LoopOffsetAtHead(file.data, old(file.pos), fuel)
    {
      var pc := programCtr;
      var loopOffset := -1;
      var n := fuel;
      while n > 0
        invariant LoopOffsetAtHead(file.data, file.pos, n) == LoopOffsetAtHead(file.data, old(file.pos), fuel)
        decreases n
      {
        file.rdAddr := Some(pc);
        var at := file.pos;
        var c := file.RdByte(None);
        var cmd := c.value;
        AtHeadStep(file.data, at, n);
        if cmd <= W96 || cmd == Eot || cmd == Tie || cmd == Pend {
          pc := pc + 1;
        } else if cmd == MemAcc {
          pc := pc + 4;
        } else if 0xB5 <= cmd <= 0xCD {
          pc := pc + 2;
        } else if cmd == Goto {
          var ptr := file.RdGbaPtr(None);
          loopOffset := ptr.value;
          return Ok(loopOffset);
        } else if cmd == Patt {
          pc := pc + 5;
        } else if N01 <= cmd {
          var next := SkipNoteArgs(at);
          if next.None? {
            return Err(OutOfFuel);
          }
          pc := pc + 1 + (next.value - (at + 1));
        }
        if cmd == Fine {
          return Ok(loopOffset);
        }
        n := n - 1;
      }
      return Err(OutOfFuel);
    }

    /**
     * The `while b < 0x80` loop of `get_loop_offset` after a note opcode at
     * `at`: the position of the first byte at or above 0x80. Past the end
     * every read gives 0, so the source never leaves the loop: `None`.
     */
    method SkipNoteArgs(at: nat) returns (r: Option<nat>)
      requires file.pos == After(file.data, at, 1)
      modifies file
      ensures r == SkipNote(file.data, at + 1)
      ensures r.Some? ==> file.pos == r.value + 1
    {
      var pc := at + 1;
      var b := file.NextByte(at, 1);
      while b < 0x80
        invariant at < pc && b == ByteAt(file.data, pc) && file.pos == After(file.data, at, pc - at + 1)
        invariant SkipNote(file.data, pc) == SkipNote(file.data, at + 1)
        decreases |file.data| - pc
      {
        if pc >= |file.data| {
          return None;
        }
        pc := pc + 1;
        b := file.NextByte(at, pc - at);
      }
      return Some(pc);
    }

    /** One chord position of the `while not g` loop, after a key byte below 0x80 at s.pc. */
    method ReadChordPosition(s: ChannelState, cmd: Byte, k: nat, arg1: Byte) returns (s': ChannelState, more: bool)
      requires s.WellFormed() && s.pc >= 0 && k < NoteMemory
      requires arg1 == ByteAt(file.data, s.pc) && arg1 < 0x80 && file.pos == After(file.data, s.pc, 1)
      modifies file
      ensures (s', more) == NoteRead(file.data, s, cmd, k)
    {
      ghost var p: nat := s.pc;
      s' := s.(lln := s.lln[k := arg1], pc := s.pc + 1);
      var arg2 := file.NextByte(p, 1);
      var arg3: int;
      more := false;
      if arg2 < 0x80 {
        s' := s'.(llv := s.llv[k := arg2], pc := s'.pc + 1);
        var a3 := file.NextByte(p, 2);
        if a3 >= 0x80 {
          arg3 := s.lla[k];
        } else {
          arg3 := a3;
          s' := s'.(lla := s.lla[k := a3], pc := s'.pc + 1);
          more := true;
        }
      } else {
        arg2 := s.llv[k];
        arg3 := s.lla[k];
      }
      s' := Add(s', Event(s.cticks, cmd, arg1 + s.transpose, arg2, arg3));
    }

    /** The inner `while not g` loop of a note opcode, from the state s0 and note opcode cmd. */
    method NoteGroup(s0: ChannelState, cmd: Byte) returns (r: Result<ChannelState>)
      requires s0.WellFormed() && s0.pc >= 0
      modifies file
      ensures r == NoteGroupFrom(file.data, s0, cmd, 0)
    {
      var s := s0;
      var cmdNum: nat := 0;
      while true
        invariant s.WellFormed() && s.pc >= 0 && cmdNum <= NoteMemory
        invariant NoteGroupFrom(file.data, s, cmd, cmdNum) == NoteGroupFrom(file.data, s0, cmd, 0)
        decreases NoteMemory - cmdNum
      {
        var c := file.RdByte(Some(s.pc));
        var arg1 := c.value;
        if arg1 >= 0x80 {
          if cmdNum == 0 {
            s := Add(s, Event(s.cticks, cmd, s.lln[0] + s.transpose, s.llv[0], s.lla[0]));
          }
          return Ok(s);
        }
        if cmdNum == NoteMemory {
          return Err(IndexError);
        }
        var more;
        s, more := ReadChordPosition(s, cmd, cmdNum, arg1);
        if !more {
          return Ok(s);
        }
        cmdNum := cmdNum + 1;
      }
    }

    /** A one-argument opcode, read at s.pc. */
    method ArgumentOpcode(s: ChannelState, cmd: Byte) returns (s': ChannelState)
      requires s.WellFormed() && s.pc >= 0 && file.pos == After(file.data, s.pc, 1)
      modifies file
      ensures s' == ArgumentStep(file.data, s, cmd)
    {
      var arg1 := file.NextByte(s.pc, 1);
      s' := s;
      if cmd == KeySh {
        s' := s'.(transpose := SignedByte(arg1));
      } else if cmd == Voice {
        s' := s'.(lastPatch := arg1);
      } else if cmd == Vol || cmd == Pan || cmd == Bend || cmd == Mod || cmd == XCmd {
        s' := s'.(lastCmd := cmd);
      }
      s' := Add(s', Event(s.cticks, cmd, arg1, 0, 0));
      s' := s'.(pc := s.pc + 2);
    }

    /** MEMACC and its three argument bytes, read at s.pc. */
    method MemAccOpcode(s: ChannelState) returns (s': ChannelState)
      requires s.pc >= 0 && file.pos == After(file.data, s.pc, 1)
      modifies file
      ensures s' == Add(s.(pc := s.pc + 4), Event(s.cticks, MemAcc, ByteAt(file.data, s.pc + 1),
                                                  ByteAt(file.data, s.pc + 2), ByteAt(file.data, s.pc + 3)))
    {
      var arg1 := file.NextByte(s.pc, 1);
      var arg2 := file.NextByte(s.pc, 2);
      var arg3 := file.NextByte(s.pc, 3);
      s' := Add(s, Event(s.cticks, MemAcc, arg1, arg2, arg3));
      s' := s'.(pc := s.pc + 4);
    }

    /** PATT: remember the address after it and jump to its pointer. */
    method PattOpcode(s: ChannelState) returns (s': ChannelState)
      requires s.pc >= 0 && file.pos == After(file.data, s.pc, 1)
      modifies file
      ensures s' == s.(rpc := s.pc + 5, insub := true, pc := ToAddress(WordAt(file.data, s.pc + 1, 4)))
    {
      SequentialReads(file.data, s.pc, 1, 4);
      var ptr := file.RdGbaPtr(None);
      s' := s.(rpc := s.pc + 5, insub := true, pc := ptr.value);
    }

    /** A note opcode, or a key byte under a running status, read at s.pc. */
    method NoteOpcode(s: ChannelState, cmd: Byte) returns (r: Result<Outcome>)
      requires s.WellFormed() && s.pc >= 0 && (cmd >= Tie || cmd < 0x80)
      modifies file
      ensures r == NoteStep(file.data, s, cmd)
    {
      if cmd >= Tie {
        var g := NoteGroup(s.(pc := s.pc + 1, lastCmd := cmd), cmd);
        if g.Err? {
          return Err(g.error);
        }
        return Ok(Continue(g.value));
      } else if s.lastCmd < Tie {
        var s' := Add(s, Event(s.cticks, s.lastCmd, cmd, 0, 0));
        return Ok(Continue(s'.(pc := s.pc + 1)));
      }
      var g := NoteGroup(s, s.lastCmd);
      if g.Err? {
        return Err(g.error);
      }
      return Ok(Continue(g.value));
    }

    /** One pass of `load_channel`'s loop, from the variables s0. */
    method ChannelIteration(s0: ChannelState, loopAddr: int) returns (r: Result<Outcome>)
      requires s0.WellFormed()
      modifies file
      ensures r == ChannelStep(file.data, s0, loopAddr)
    {
      var s := s0;
      if s.pc >= loopAddr && s.loopPtr == -1 && loopAddr != -1 {
        s := s.(loopPtr := |s.events|);
      }
      assert s == MarkLoop(s0, loopAddr);
      var c := file.RdByte(Some(s.pc));
      if c.Err? {
        return Err(c.error);
      }
      var cmd := c.value;
      var pc: nat := s.pc;
      if OneArgument(cmd) {
        s := ArgumentOpcode(s, cmd);
        return Ok(Finish(s, cmd));
      } else if 0xC4 < cmd < Tie {
        s := Add(s, Event(s.cticks, cmd, 0, 0, 0));
        return Ok(Continue(s.(pc := pc + 1)));
      } else if cmd == MemAcc {
        s := MemAccOpcode(s);
        return Ok(Continue(s));
      } else if cmd == Pend {
        if s.insub {
          s := s.(pc := s.rpc, insub := false);
        } else {
          s := s.(pc := pc + 1);
        }
        return Ok(Continue(s));
      } else if cmd == Patt {
        s := PattOpcode(s);
        return Ok(Continue(s));
      } else if cmd >= Tie || cmd < 0x80 {
        r := NoteOpcode(s, cmd);
        return;
      } else if cmd <= W96 {
        s := Add(s, Event(s.cticks, cmd, 0, 0, 0));
        s := s.(cticks := s.cticks + WaitLength(cmd), pc := pc + 1);
        return Ok(Continue(s));
      }
      return Ok(Finish(s, cmd));
    }

    /**
     * `load_channel(header_ptr, table_ptr, track_num)`: the event queue and
     * loop index of one track. The voice loading it does on the way (through
     * `table_ptr`) is not part of this model.
     */
    method LoadChannel(headerPtr: int, tablePtr: int, trackNum: int, fuel: nat) returns (r: Result<ChannelData>)
      modifies file
      ensures r == LoadChannelSpec(file.data, headerPtr, trackNum, fuel)
    {
      var ptr := file.RdGbaPtr(Some(headerPtr + 4 + (trackNum + 1) * 4));
      if ptr.Err? {
        return Err(ptr.error);
      }
      var programCtr := ptr.value;
      var loopAddr := GetLoopOffset(programCtr, fuel);
      if loopAddr.Err? {
        return Err(loopAddr.error);
      }
      r := BuildQueue(programCtr, loopAddr.value, fuel);
    }

    /** The event loop of `load_channel`, from the track start to the track's end. */
    method BuildQueue(programCtr: int, loopAddr: int, fuel: nat) returns (r: Result<ChannelData>)
      modifies file
      ensures r == QueueFrom(file.data, programCtr, loopAddr, fuel)
    {
      var s := InitialState(programCtr);
      var n := fuel;
      ghost var goal := RunChannel(file.data, s, loopAddr, n);
      while n > 0
        invariant s.WellFormed()
        invariant RunChannel(file.data, s, loopAddr, n) == goal
        decreases n
      {
        var o := ChannelIteration(s, loopAddr);
        if o.Err? {
          assert goal == Err(o.error);
          return Err(o.error);
        }
        if o.value.Stop? {
          var last := Add(o.value.s, Event(o.value.s.cticks, o.value.cmd, 0, 0, 0));
          assert goal == Ok(last);
          return Ok(ChannelData(last.loopPtr, last.events));
        }
        assert goal == RunChannel(file.data, o.value.s, loopAddr, n - 1);
        s := o.value.s;
        n := n - 1;
      }
      return Err(OutOfFuel);
    }
  }

  /**
   * The entry `samples.add(str(sid))` makes before anything is read: every
   * field zero, false or empty.
   */
  const BlankSample := Sample(0, 0, 0, false, false, [])

  /** Where the payload after the sample header at addr ends: the header, then `size` bytes. */
  function PayloadEnd(rom: seq<Byte>, addr: nat): nat
  {
    After(rom, After(rom, addr, SappyFileIo.SampleSize), SappyFileIo.SampleHeaderAt(rom, addr).size)
  }

  /**
   * `rd_str(smp_head.size)` right after the sample header at addr: the
   * payload bytes decoded as UTF-8, or `None` where the decode raises.
   */
  function PayloadText(rom: seq<Byte>, addr: nat): Option<seq<nat>>
  {
    SappyFileIo.Utf8Decode(Chunk(rom, After(rom, addr, SappyFileIo.SampleSize), SappyFileIo.SampleHeaderAt(rom, addr).size))
  }

  /**
   * Read as text, a payload loads exactly when its bytes are UTF-8, is never
   * longer than the header's size, and is the payload bytes themselves when
   * they are all ASCII.
   */
  lemma PayloadTextBytes(rom: seq<Byte>, addr: nat)
    ensures var b := Chunk(rom, After(rom, addr, SappyFileIo.SampleSize), SappyFileIo.SampleHeaderAt(rom, addr).size);
      && (PayloadText(rom, addr).Some? ==> |PayloadText(rom, addr).value| <= SappyFileIo.SampleHeaderAt(rom, addr).size)
      && ((forall i :: 0 <= i < |b| ==> b[i] < 0x80) ==> PayloadText(rom, addr) == Some(b))
  {
    var b := Chunk(rom, After(rom, addr, SappyFileIo.SampleSize), SappyFileIo.SampleHeaderAt(rom, addr).size);
    if PayloadText(rom, addr).Some? {
      SappyFileIo.DecodeShortens(b);
    }
    if forall i :: 0 <= i < |b| ==> b[i] < 0x80 {
      SappyFileIo.AsciiDecodes(b);
    }
  }

  /** A payload whose first byte is a UTF-8 continuation byte (0x80 to 0xBF) makes `get_smp` raise. */
  lemma PayloadContinuationRaises(rom: seq<Byte>, addr: nat)
    requires var b := Chunk(rom, After(rom, addr, SappyFileIo.SampleSize), SappyFileIo.SampleHeaderAt(rom, addr).size);
      |b| > 0 && 0x80 <= b[0] < 0xC0
    ensures PayloadText(rom, addr).None?
  {
  }

  /** The sample `get_smp` adds for a pointer at addr and a direct with the given output. */
  function SampleFor(rom: seq<Byte>, addr: nat, output: int): (s: Sample)
    ensures output == DirectOutput ==> !s.gbWave && s.size == SappyFileIo.SampleHeaderAt(rom, addr).size
    ensures output != DirectOutput ==> s.gbWave && s.size == 32 && |s.data| == 32
  {
    var h := SappyFileIo.SampleHeaderAt(rom, addr);
    if output == DirectOutput then Sample(h.size, h.frequency * 64, h.loop, h.flags > 0, false, [])
    else Sample(32, WaveBaseFrequency, 0, true, true, GbWave(Chunk(rom, addr, 16)))
  }
}
