/**
 * The M4A sequencer commands of sappy/cmd.py: their constructors, which
 * validate arguments, and what calling one does to a track (`Exec`). The
 * in-place form of the call is `Track.M4ATrack.Call`, proved equal to
 * `Exec`.
 */
module Cmd {
  import opened Wrappers
  import InstSet
  import opened M4aTrack

  datatype Command =
    | Wait(op: int, ticks: nat)
    | Fine
    | Goto(pointer: int)
    | Patt(pointer: int)
    | Pend
    | Rept(loopCount: int, pointer: int)
    | Prev
    | MemAcc(opCode: int, address: int, data: int)
    | Prio(priority: int)
    | Tempo(tempo: int)
    | KeySh(keyShift: int)
    | VoiceCmd(voice: int)
    | Vol(volume: int)
    | Pan(panning: int)
    | Bend(pitchBend: int)
    | BendR(pitchRange: int)
    | Lfos(speed: int)
    | LfoDl(delay: int)
    | Mod(depth: int)
    | ModT(mod: int)
    | Tune(microTones: int)
    | XCmd(extension: int, arg: int)
    | Eot(releaseKey: Option<int>)
    | Note(op: int, noteTicks: int, key: int, velocity: int, gate: Option<int>)

  /** `WAIT(wait_cmd)`: the ticks of the `WaitCMD` member; any other byte is a `ValueError`. */
  function NewWait(op: int): (r: Result<Command>)
    ensures r.Ok? <==> InstSet.IsWait(op)
    ensures r.Ok? ==> r.value == Wait(op, InstSet.WaitTicks(op))
    ensures r.Err? ==> r.error == ValueError
  {
    if InstSet.IsWait(op) then Ok(Wait(op, InstSet.WaitTicks(op))) else Err(ValueError)
  }

  /** `pointer.to_bytes(4, 'little')`: an `OverflowError` for a negative or too wide pointer. */
  predicate FitsDword(pointer: int) { 0 <= pointer < 0x1_0000_0000 }

  /** `GOTO(pointer)`. */
  function NewGoto(pointer: int): (r: Result<Command>)
    ensures r.Ok? <==> FitsDword(pointer)
    ensures r.Ok? ==> r.value == Goto(pointer)
    ensures r.Err? ==> r.error == OverflowError
  {
    if FitsDword(pointer) then Ok(Goto(pointer)) else Err(OverflowError)
  }

  /** `PATT(pointer)`. */
  function NewPatt(pointer: int): (r: Result<Command>)
    ensures r.Ok? <==> FitsDword(pointer)
    ensures r.Ok? ==> r.value == Patt(pointer)
    ensures r.Err? ==> r.error == OverflowError
  {
    if FitsDword(pointer) then Ok(Patt(pointer)) else Err(OverflowError)
  }

  /** `REPT(loop_count, pointer)`. */
  function NewRept(loopCount: int, pointer: int): (r: Result<Command>)
    ensures r.Ok? <==> FitsDword(pointer)
    ensures r.Ok? ==> r.value == Rept(loopCount, pointer)
    ensures r.Err? ==> r.error == OverflowError
  {
    if FitsDword(pointer) then Ok(Rept(loopCount, pointer)) else Err(OverflowError)
  }

  /** `MEMACC(op_code, address, data)`: the operation must be a `MemAccArg`. */
  function NewMemAcc(opCode: int, address: int, data: int): (r: Result<Command>)
    ensures r.Ok? <==> InstSet.IsMemAccArg(opCode)
    ensures r.Ok? ==> r.value == MemAcc(opCode, address, data)
    ensures r.Err? ==> r.error == ValueError
  {
    if InstSet.IsMemAccArg(opCode) then Ok(MemAcc(opCode, address, data)) else Err(ValueError)
  }

  /**
   * `MODT(mod)`: the low two bits must name a `ModArg` (3 does not). Python's
   * `mod & 0b11` on an unbounded two's-complement integer is `mod % 4` with a
   * non-negative remainder, as Dafny's `%` is.
   */
  function NewModT(mod: int): (r: Result<Command>)
    ensures r.Ok? <==> mod % 4 != 3
    ensures r.Ok? ==> r.value == ModT(mod)
    ensures r.Err? ==> r.error == ValueError
  {
    if InstSet.IsModArg(mod % 4) then Ok(ModT(mod)) else Err(ValueError)
  }

  /** `XCMD(extension, arg)`: the extension must be a member of `CMD`. */
  function NewXCmd(extension: int, arg: int): (r: Result<Command>)
    ensures r.Ok? <==> InstSet.IsCmd(extension)
    ensures r.Ok? ==> r.value == XCmd(extension, arg)
    ensures r.Err? ==> r.error == ValueError
  {
    if InstSet.IsCmd(extension) then Ok(XCmd(extension, arg)) else Err(ValueError)
  }

  /** `EOT(key)`: a given key must be a `KeyArg`. */
  function NewEot(key: Option<int>): (r: Result<Command>)
    ensures r.Ok? <==> key.None? || InstSet.IsKey(key.value)
    ensures r.Ok? ==> r.value == Eot(key)
    ensures r.Err? ==> r.error == ValueError
  {
    if key.None? || InstSet.IsKey(key.value) then Ok(Eot(key)) else Err(ValueError)
  }

  /**
   * `NOTE(note_cmd, key, vel, gate)`: TIE lasts -1 ticks; N01..N96 last the
   * number in their name plus the gate, if any; a byte below TIE, or one
   * that is no `NoteCMD` member, is a `ValueError`. Key and velocity are
   * stored unchecked.
   */
  function NewNote(op: int, key: int, velocity: int, gate: Option<int>): (r: Result<Command>)
    ensures r.Ok? <==> InstSet.IsNote(op)
    ensures op == InstSet.Tie ==> r == Ok(Note(op, -1, key, velocity, gate))
    ensures InstSet.N01 <= op <= InstSet.N96 ==>
      r == Ok(Note(op, InstSet.NoteTicks(op) + (if gate.Some? then gate.value else 0), key, velocity, gate))
    ensures r.Err? ==> r.error == ValueError
  {
    if op == InstSet.Tie then Ok(Note(op, -1, key, velocity, gate))
    else if op > InstSet.Tie then
      if op > InstSet.N96 then Err(ValueError)
      else Ok(Note(op, InstSet.NoteTicks(op) + (if gate.Some? then gate.value else 0), key, velocity, gate))
    else Err(ValueError)
  }

  /** `tuple(track_data.keys()).index(pointer)`: the first position holding it. */
  function IndexOf(addresses: seq<int>, pointer: int): (r: Option<nat>)
    ensures r.Some? ==> r.value < |addresses| && addresses[r.value] == pointer
    ensures r.Some? ==> forall i :: 0 <= i < r.value ==> addresses[i] != pointer
    ensures r.None? <==> pointer !in addresses
    decreases |addresses|
  {
    if |addresses| == 0 then None
    else if addresses[0] == pointer then Some(0)
    else match IndexOf(addresses[1..], pointer)
      case None => None
      case Some(i) => Some(i + 1)
  }

  /** Whether a command only advances the program counter (or sets fields besides). */
  predicate Sequential(cmd: Command)
  {
    !(cmd.Goto? || cmd.Patt? || cmd.Pend?)
  }

  /** A command that only sets one field of the track. */
  predicate IsSetting(cmd: Command)
  {
    cmd.Prio? || cmd.VoiceCmd? || cmd.Pan? || cmd.Bend? || cmd.BendR? || cmd.Lfos? || cmd.Mod?
  }

  /** The field a setting command writes, written into `s`. */
  function SetField(cmd: Command, s: TrackState): TrackState
    requires IsSetting(cmd)
  {
    match cmd
    case Prio(p) => s.(priority := Some(p))
    case VoiceCmd(v) => s.(voice := v)
    case Pan(p) => s.(panning := p)
    case Bend(b) => s.(pitchBend := b)
    case BendR(r) => s.(pitchRange := r)
    case Lfos(sp) => s.(lfoSpeed := sp)
    case Mod(d) => s.(mod := d)
  }

  /**
   * `cmd(track)`: the new track fields and class attributes. `addresses`
   * are the track's command addresses, which GOTO and PATT search.
   * `IGNORE_GOTO` is off, so GOTO always jumps.
   */
  function Exec(cmd: Command, addresses: seq<int>, s: TrackState, g: Globals): (r: Result<(TrackState, Globals)>)
    ensures r.Ok? ==> |r.value.0.notes| == |s.notes|
    ensures r.Ok? && |s.callStack| <= CallStackSize ==> |r.value.0.callStack| <= CallStackSize
    ensures r.Err? ==> r.error == ValueError || r.error == QueueFull || r.error == AttributeError
    ensures r.Err? && r.error == QueueFull ==> cmd.Patt? && |s.callStack| >= CallStackSize
  {
    var next := s.(pc := s.pc + 1);
    match cmd
    case Wait(_, t) => Ok((next.(ticks := t), g))
    case Fine => Ok((next.(enabled := false), g))
    case Prev => Ok((next.(enabled := false), g))
    case Goto(p) =>
      (match IndexOf(addresses, p)
       case None => Err(ValueError)
       case Some(i) => Ok((s.(pc := i, base := i), g)))
    case Patt(p) =>
      if |s.callStack| >= CallStackSize then Err(QueueFull)
      else
        (match IndexOf(addresses, p)
         case None => Err(ValueError)
         case Some(i) => Ok((s.(callStack := s.callStack + [s.pc], pc := i, base := i), g)))
    case Pend =>
      if |s.callStack| > 0 then
        var r := s.callStack[0];
        Ok((s.(callStack := s.callStack[1..], pc := r + 1, base := r), g))
      else Ok((next, g))
    case Rept(_, _) => Ok((next, g))
    case MemAcc(_, _, _) => Ok((next, g))
    case LfoDl(_) => Ok((next, g))
    case ModT(_) => Ok((next, g))
    case Tune(_) => Ok((next, g))
    case XCmd(_, _) => Ok((next, g))
    case Prio(p) => Ok((next.(priority := Some(p)), g))
    case Tempo(t) => Ok((next, g.(tempo := t)))
    case KeySh(k) => Ok((next, g.(keyShift := k)))
    case VoiceCmd(v) => Ok((next.(voice := v), g))
    case Vol(v) =>
      // each note's `volume` reads its envelope position
      if exists i :: 0 <= i < |s.notes| && s.notes[i].envelope.None? then Err(AttributeError)
      else Ok((next.(volume := v), g))
    case Pan(p) => Ok((next.(panning := p), g))
    case Bend(b) => Ok((next.(pitchBend := b), g))
    case BendR(r) => Ok((next.(pitchRange := r), g))
    case Lfos(sp) => Ok((next.(lfoSpeed := sp), g))
    case Mod(d) => Ok((next.(mod := d), g))
    case Eot(key) =>
      (match ReleaseMatching(s.notes, key)
       case Err(e) => Err(e)
       case Ok(ns) => Ok((next.(notes := ns), g)))
    case Note(_, t, key, vel, _) =>
      if !InstSet.IsKey(key) || !InstSet.IsVelocity(vel) then Err(ValueError)
      else Ok((next.(noteQueue := s.noteQueue + [NewNoteState(t, key, vel, s.voice)]), g))
  }

  /** A command that only steps on, possibly stopping the track or setting its tick counter. */
  predicate IsStep(cmd: Command)
  {
    cmd.Wait? || cmd.Fine? || cmd.Prev? || cmd.Rept? || cmd.MemAcc? || cmd.LfoDl? || cmd.ModT? || cmd.Tune?
    || cmd.XCmd?
  }

  /** What a step command writes besides the program counter. */
  function StepFields(cmd: Command, s: TrackState): TrackState
    requires IsStep(cmd)
  {
    match cmd
    case Wait(_, t) => s.(ticks := t)
    case Fine => s.(enabled := false)
    case Prev => s.(enabled := false)
    case _ => s
  }

  /** A step command writes its fields and steps on. */
  lemma ExecStep(cmd: Command, addresses: seq<int>, s: TrackState, g: Globals)
    requires IsStep(cmd)
    ensures Exec(cmd, addresses, s, g) == Ok((StepFields(cmd, s.(pc := s.pc + 1)), g))
  {
  }

  /** A setting command writes its one field and steps on. */
  lemma ExecSetting(cmd: Command, addresses: seq<int>, s: TrackState, g: Globals)
    requires IsSetting(cmd)
    ensures Exec(cmd, addresses, s, g) == Ok((SetField(cmd, s.(pc := s.pc + 1)), g))
  {
  }

  /**
   * Every command but GOTO, PATT and PEND advances the program counter by
   * exactly one, keeps the base counter and the call queue, and never
   * touches the notes waiting in the note queue except NOTE, which appends
   * one.
   */
  lemma SequentialAdvancesByOne(cmd: Command, addresses: seq<int>, s: TrackState, g: Globals)
    requires Sequential(cmd) && Exec(cmd, addresses, s, g).Ok?
    ensures var (s', _) := Exec(cmd, addresses, s, g).value;
      s'.pc == s.pc + 1 && s'.base == s.base && s'.callStack == s.callStack
      && (cmd.Note? ==> |s'.noteQueue| == |s.noteQueue| + 1)
      && (!cmd.Note? ==> s'.noteQueue == s.noteQueue)
  {
  }

  /**
   * The commands with no effect but the program counter: REPT, MEMACC,
   * LFODL, MODT, TUNE and XCMD change nothing else, here or in the class
   * attributes.
   */
  lemma NoOpCommands(cmd: Command, addresses: seq<int>, s: TrackState, g: Globals)
    requires cmd.Rept? || cmd.MemAcc? || cmd.LfoDl? || cmd.ModT? || cmd.Tune? || cmd.XCmd?
    ensures Exec(cmd, addresses, s, g) == Ok((s.(pc := s.pc + 1), g))
  {
  }

  /** WAIT sets the tick counter to its duration; FINE and PREV disable the track. */
  lemma WaitFineAndPrev(op: int, addresses: seq<int>, s: TrackState, g: Globals)
    requires InstSet.IsWait(op)
    ensures Exec(NewWait(op).value, addresses, s, g) ==
              Ok((s.(ticks := InstSet.WaitTicks(op), pc := s.pc + 1), g))
    ensures Exec(Fine, addresses, s, g) == Ok((s.(enabled := false, pc := s.pc + 1), g))
    ensures Exec(Prev, addresses, s, g) == Exec(Fine, addresses, s, g)
  {
  }

  /** GOTO jumps to the first command at its target address, and fails exactly when there is none. */
  lemma GotoJumps(p: int, addresses: seq<int>, s: TrackState, g: Globals)
    ensures Exec(Goto(p), addresses, s, g).Ok? <==> p in addresses
    ensures Exec(Goto(p), addresses, s, g).Ok? ==>
      var (s', g') := Exec(Goto(p), addresses, s, g).value;
      && s'.pc < |addresses| && addresses[s'.pc] == p && s'.base == s'.pc && g' == g
      && (forall i :: 0 <= i < s'.pc ==> addresses[i] != p)
  {
  }

  /** PATT with three calls pending fails: the call queue holds at most three. */
  lemma PattQueueFull(p: int, addresses: seq<int>, s: TrackState, g: Globals)
    requires |s.callStack| == CallStackSize
    ensures Exec(Patt(p), addresses, s, g) == Err(QueueFull)
  {
  }

  /**
   * A PATT at index i followed (whatever runs in between, as long as it does
   * not touch the call queue) by a PEND resumes at i + 1, with the base
   * counter at i, and leaves the call queue as it was.
   */
  lemma PattThenPend(p: int, addresses: seq<int>, s: TrackState, g: Globals, mid: TrackState, g2: Globals)
    requires s.callStack == [] && Exec(Patt(p), addresses, s, g).Ok?
    requires mid.callStack == Exec(Patt(p), addresses, s, g).value.0.callStack
    ensures Exec(Pend, addresses, mid, g2) ==
              Ok((mid.(callStack := [], pc := s.pc + 1, base := s.pc), g2))
  {
    assert mid.callStack == [s.pc];
    assert mid.callStack[1..] == [];
  }

  /**
   * The call queue is first-in first-out: after a nested PATT, the first
   * PEND returns past the outer PATT and leaves the inner call pending.
   */
  lemma PendReturnsToOldestCall(outer: nat, inner: nat, addresses: seq<int>, s: TrackState, g: Globals)
    requires s.callStack == [outer, inner]
    ensures Exec(Pend, addresses, s, g) ==
              Ok((s.(callStack := [inner], pc := outer + 1, base := outer), g))
  {
  }

  /** PEND with no pending call only advances the program counter. */
  lemma PendWithoutCall(addresses: seq<int>, s: TrackState, g: Globals)
    requires s.callStack == []
    ensures Exec(Pend, addresses, s, g) == Ok((s.(pc := s.pc + 1), g))
  {
  }

  /**
   * NOTE enqueues exactly one note, with its ticks, key and velocity and
   * the track's voice, and fails exactly when key or velocity is out of
   * range.
   */
  lemma NoteEnqueuesOne(cmd: Command, addresses: seq<int>, s: TrackState, g: Globals)
    requires cmd.Note?
    ensures Exec(cmd, addresses, s, g).Ok? <==> InstSet.IsKey(cmd.key) && InstSet.IsVelocity(cmd.velocity)
    ensures Exec(cmd, addresses, s, g).Ok? ==>
      var (s', g') := Exec(cmd, addresses, s, g).value;
      && s'.noteQueue[..|s.noteQueue|] == s.noteQueue
      && s'.noteQueue[|s.noteQueue|] == NewNoteState(cmd.noteTicks, cmd.key, cmd.velocity, s.voice)
      && s'.notes == s.notes && g' == g
  {
  }

  /**
   * EOT releases the notes whose key matches (all of them without a key),
   * leaves the others, and advances by one.
   */
  lemma EotReleases(key: Option<int>, addresses: seq<int>, s: TrackState, g: Globals)
    requires Exec(Eot(key), addresses, s, g).Ok?
    ensures var (s', _) := Exec(Eot(key), addresses, s, g).value;
      && |s'.notes| == |s.notes| && s'.pc == s.pc + 1
      && (forall i :: 0 <= i < |s.notes| && !EotMatches(key, s.notes[i]) ==> s'.notes[i] == s.notes[i])
      && (forall i :: 0 <= i < |s.notes| && EotMatches(key, s.notes[i]) ==> s'.notes[i].noteOff)
  {
    EotReleasesOnlyMatching(s.notes, key);
  }

  /**
   * TEMPO and KEYSH write the class attributes shared by every track and,
   * on the track itself, only advance the program counter.
   */
  lemma TempoAndKeyShAreShared(t: int, addresses: seq<int>, s: TrackState, g: Globals)
    ensures Exec(Tempo(t), addresses, s, g) == Ok((s.(pc := s.pc + 1), Globals(t, g.keyShift)))
    ensures Exec(KeySh(t), addresses, s, g) == Ok((s.(pc := s.pc + 1), Globals(g.tempo, t)))
  {
  }

  /** A TIE command's note never releases itself, however many updates it sees. */
  lemma TieNoteLastsUntilEot(key: int, velocity: int, voice: int, k: nat)
    ensures NewNote(InstSet.Tie, key, velocity, None).value.noteTicks == -1
    ensures UpdateNoteN(NewNoteState(-1, key, velocity, voice), k) == Ok(NewNoteState(-1, key, velocity, voice))
  {
    TieNeverReleases(NewNoteState(-1, key, velocity, voice), k);
  }
}
