/**
 * The older event-queue player (`Player` in sappy/player.py): 32 note
 * slots, the per-channel event processor, the note queue and the
 * step/destination envelope, one tick at a time.
 *
 * Many names the player uses are not in sappy/engine.py, among them `NoteTypes`,
 * `NotePhases`, `ChannelTypes`, `Channel`, `Event`, `to_int`, `to_ticks`,
 * `to_frequency`; the model gives them the meaning their use implies.
 * It orders the phases INITIAL to NOTEOFF as listed and puts DIRECT
 * below every PSG note type, which `phase < RELEASE` and
 * `output > DIRECT` in `update_notes` rely on.
 * Envelope positions, destinations and steps are kept in half units,
 * because the DirectSound decay step `(env_dcy - 0x100) / 2` is the one
 * value that is not a whole number.
 */
module SappyPlayer {
  import opened Wrappers
  import opened RomBytes
  import opened InstSet
  import Engine
  import ShortLen
  import Decoder

  /** The number of note slots in `note_arr`. */
  const NoteSlots: nat := 32
  /** The tempo `reset_player` sets. */
  const DefaultTempo := 120
  /** The envelope's full position, 255, in half units. */
  const FullPosition := 510

  // ---------------------------------------------------------------------
  // Data

  /** `NotePhases`, in their order. */
  datatype NotePhase = Initial | Attack | Decay | Sustain | Release | NoteOff
  {
    function Ord(): nat
    {
      match this
      case Initial => 0
      case Attack => 1
      case Decay => 2
      case Sustain => 3
      case Release => 4
      case NoteOff => 5
    }
  }

  /** `NoteTypes` / `DirectTypes`: DirectSound and the four PSG channels. */
  datatype NoteType = Direct | Square1 | Square2 | Waveform | Noise
  {
    /** `output > NoteTypes.DIRECT`. */
    predicate IsPsg() { !Direct? }
  }

  /** A channel's output type: a direct's output, or `MULTI`, `DRUMKIT` or `NULL`. */
  datatype ChannelOutput = Output(kind: NoteType) | Multi | DrumKit | NoOutput

  /** One note slot. */
  datatype PlayNote = PlayNote(
    enable: bool, noteOff: bool, noteNum: int, velocity: int, parent: nat, unknown: int,
    waitTicks: int, patchNum: int, output: NoteType, phase: NotePhase,
    envPos: int, envDest: int, envStep: int,   // half units
    envAttack: int, envDecay: int, envSustain: int, envRelease: int)

  /** The note a note event queues: key, velocity, channel, third argument, length and patch. */
  function QueuedNote(noteNum: int, velocity: int, parent: nat, unknown: int, waitTicks: int, patchNum: int): PlayNote
  {
    PlayNote(false, false, noteNum, velocity, parent, unknown, waitTicks, patchNum, Direct, Initial, 0, 0, 0, 0, 0, 0, 0)
  }

  /** An event of a channel's queue, with the target a PATT event jumps to. */
  datatype ProcEvent = ProcEvent(ticks: int, cmd: Byte, arg1: int, arg2: int, arg3: int, evtQPtr: int)

  /** One virtual channel; `noteIds` are the keys of its `notes` dictionary, in insertion order. */
  datatype Channel = Channel(
    isEnabled: bool, isSustain: bool, isMuted: bool, waitTicks: int, programCtr: int, events: seq<ProcEvent>,
    priority: int, transpose: int, patchNum: int, outputType: ChannelOutput,
    mainVol: int, panning: int, pitchBend: int, pitchRange: int, vibRate: int, vibDepth: int,
    subCtr: int, rtnPtr: int, inSub: bool, loopPtr: int,
    noteIds: seq<nat>, notesPlaying: seq<int>, outputVolume: int)

  /** What `update_channels` looks up for VOICE: each direct's output, and the instrument and drum kit numbers. */
  datatype Voices = Voices(directs: map<int, NoteType>, insts: set<int>, drumkits: set<int>)

  /** The player fields the processor changes. */
  datatype PlayerState = PlayerState(
    looped: bool, tempo: int, notes: seq<PlayNote>, channels: seq<Channel>,
    noteQueue: seq<PlayNote>, psg: map<NoteType, Option<nat>>)

  /** The `psg_channels` map `__init__` and `reset_player` build: no note on any PSG channel. */
  function NoPsgNotes(): (m: map<NoteType, Option<nat>>)
    ensures forall t: NoteType :: t.IsPsg() <==> t in m
    ensures forall t: NoteType :: t in m ==> m[t] == None
  {
    map[Square1 := None, Square2 := None, Waveform := None, Noise := None]
  }

  /** `psg_channels.get(t)`. */
  function PsgGet(psg: map<NoteType, Option<nat>>, t: NoteType): Option<nat>
  {
    if t in psg then psg[t] else None
  }

  /** Python's `s[i]`, negative indices counting from the end. */
  function PyIndex<T>(s: seq<T>, i: int): (r: Option<T>)
    ensures r.Some? <==> -|s| <= i < |s|
    ensures 0 <= i < |s| ==> r == Some(s[i])
  {
    if 0 <= i < |s| then Some(s[i])
    else if -|s| <= i < 0 then Some(s[|s| + i])
    else None
  }

  /** `engine.to_int`: a byte argument as a two's-complement value. */
  function ToInt(a: int): int
  {
    if 0x80 <= a <= 0xFF then a - 0x100 else a
  }

  // ---------------------------------------------------------------------
  // global_vol, free_note, get_output_volume

  /** The `global_vol` setter's clamp to 0..255. */
  function ClampVolume(volume: int): (v: int)
    ensures 0 <= v <= 255
    ensures v == volume <==> 0 <= volume <= 255
    ensures volume < 0 ==> v == 0
    ensures volume > 255 ==> v == 255
  {
    if volume < 0 then 0 else if volume > 255 then 255 else volume
  }

  /** Clamping keeps the order of volumes. */
  lemma ClampMonotone(a: int, b: int)
    requires a <= b
    ensures ClampVolume(a) <= ClampVolume(b)
  {
  }

  /**
   * `free_note`: the highest slot below 32 whose note is disabled, or
   * `None` when all 32 are in use.
   */
  function FreeSlot(notes: seq<PlayNote>): (r: Option<nat>)
    requires |notes| == NoteSlots
    ensures r.Some? ==> r.value < NoteSlots && !notes[r.value].enable
    ensures r.Some? ==> forall j :: r.value < j < NoteSlots ==> notes[j].enable
    ensures r.None? <==> forall j :: 0 <= j < NoteSlots ==> notes[j].enable
  {
    FreeSlotBelow(notes, NoteSlots)
  }

  function FreeSlotBelow(notes: seq<PlayNote>, n: nat): (r: Option<nat>)
    requires n <= |notes|
    ensures r.Some? ==> r.value < n && !notes[r.value].enable
    ensures r.Some? ==> forall j :: r.value < j < n ==> notes[j].enable
    ensures r.None? <==> forall j :: 0 <= j < n ==> notes[j].enable
  {
    if n == 0 then None
    else if !notes[n - 1].enable then Some(n - 1)
    else FreeSlotBelow(notes, n - 1)
  }

  function Sum(v: seq<int>): int
  {
    if v == [] then 0 else Sum(v[..|v| - 1]) + v[|v| - 1]
  }

  /** `get_output_volume`: the mean of the volumes rounded half to even, 0 for none. */
  function GetOutputVolume(v: seq<int>): int
  {
    Engine.RoundHalfEven(Sum(v), if |v| == 0 then 1 else |v|)
  }

  lemma {:induction false} SumBounds(v: seq<int>, lo: int, hi: int)
    requires forall i :: 0 <= i < |v| ==> lo <= v[i] <= hi
    ensures |v| * lo <= Sum(v) <= |v| * hi
  {
    if v != [] {
      SumBounds(v[..|v| - 1], lo, hi);
    }
  }

  lemma MulMonotone(a: int, b: int, n: nat)
    requires a <= b
    ensures a * n <= b * n
  {
  }

  lemma MulDistributes(a: int, n: int)
    ensures (a + 1) * n == a * n + n && n * (a + 1) == a * n + n && n * a == a * n
  {
  }

  /** A rounded quotient q of s by n lies in [lo, hi] when s does in [n * lo, n * hi]. */
  lemma RoundedMeanBetween(s: int, n: int, q: int, lo: int, hi: int)
    requires n >= 1 && n * lo <= s <= n * hi
    requires 2 * (q * n - s) <= n && 2 * (s - q * n) <= n
    ensures lo <= q <= hi
  {
    if q > hi {
      MulMonotone(hi + 1, q, n);
      MulDistributes(hi, n);
      assert false;
    }
    if q < lo {
      MulMonotone(q, lo - 1, n);
      MulDistributes(lo - 1, n);
      assert false;
    }
  }

  /** The output volume lies between the smallest and largest volume, and is 0 for none. */
  lemma OutputVolumeBetween(v: seq<int>, lo: int, hi: int)
    requires forall i :: 0 <= i < |v| ==> lo <= v[i] <= hi
    ensures v == [] ==> GetOutputVolume(v) == 0
    ensures v != [] ==> lo <= GetOutputVolume(v) <= hi
  {
    if v != [] {
      SumBounds(v, lo, hi);
      RoundedMeanBetween(Sum(v), |v|, GetOutputVolume(v), lo, hi);
    }
  }

  /** Equal volumes average to that volume. */
  lemma OutputVolumeOfEqual(v: seq<int>, x: int)
    requires v != [] && forall i :: 0 <= i < |v| ==> v[i] == x
    ensures GetOutputVolume(v) == x
  {
    OutputVolumeBetween(v, x, x);
  }

  /** `round(vel / 0x7F * vol / 0x7F * pos / 0xFF * 255)` for a position in half units. */
  function NoteVolume(velocity: int, mainVol: int, envPos: int): int
  {
    Engine.RoundHalfEven(velocity * mainVol * envPos, 2 * Mxv * Mxv)
  }

  // ---------------------------------------------------------------------
  // advance_notes

  /**
   * One note of `advance_notes`: a positive wait counts down; a note whose
   * wait is then zero or negative and that is still on is released unless
   * its channel sustains (looking the channel up can raise `IndexError`).
   */
  function AdvanceNote(n: PlayNote, channels: seq<Channel>): (r: Result<PlayNote>)
    ensures r.Ok? ==> r.value == n.(waitTicks := r.value.waitTicks, noteOff := r.value.noteOff)
    ensures r.Ok? ==> r.value.waitTicks == (if n.waitTicks > 0 then n.waitTicks - 1 else n.waitTicks)
    ensures r.Ok? && n.noteOff ==> r.value.noteOff
    ensures r.Err? ==> n.parent >= |channels|
  {
    var n1 := if n.waitTicks > 0 then n.(waitTicks := n.waitTicks - 1) else n;
    if n1.waitTicks <= 0 && !n1.noteOff then
      if n1.parent >= |channels| then Err(IndexError)
      else if !channels[n1.parent].isSustain then Ok(n1.(noteOff := true))
      else Ok(n1)
    else Ok(n1)
  }

  function AdvanceNotesFrom(notes: seq<PlayNote>, channels: seq<Channel>, k: nat): (r: Result<seq<PlayNote>>)
    requires k <= |notes|
    ensures r.Ok? ==> |r.value| == |notes|
    decreases |notes| - k
  {
    if k == |notes| then Ok(notes)
    else match AdvanceNote(notes[k], channels)
      case Err(e) => Err(e)
      case Ok(n) => AdvanceNotesFrom(notes[k := n], channels, k + 1)
  }

  /** A note waiting n > 0 ticks on a channel that does not sustain is released at the n-th tick, not before. */
  lemma {:induction false} AdvanceReleasesAfterWait(n: PlayNote, channels: seq<Channel>, ticks: nat)
    requires n.waitTicks > 0 && !n.noteOff && n.parent < |channels| && !channels[n.parent].isSustain
    ensures var r := AdvanceNote(n, channels).value;
      AdvanceNote(n, channels).Ok? && r.waitTicks == n.waitTicks - 1 && (r.noteOff <==> n.waitTicks == 1)
  {
  }

  /** A tie (negative wait) is released at the next tick unless its channel sustains, and its count never moves. */
  lemma TieReleasedWithoutSustain(n: PlayNote, channels: seq<Channel>)
    requires n.waitTicks < 0 && !n.noteOff && n.parent < |channels|
    ensures AdvanceNote(n, channels).Ok? && AdvanceNote(n, channels).value.waitTicks == n.waitTicks
    ensures AdvanceNote(n, channels).value.noteOff <==> !channels[n.parent].isSustain
  {
  }

  /** Advancing never switches a note back on and never touches its other fields. */
  lemma AdvanceKeepsOff(n: PlayNote, channels: seq<Channel>)
    requires AdvanceNote(n, channels).Ok?
    ensures n.noteOff ==> AdvanceNote(n, channels).value.noteOff
    ensures AdvanceNote(n, channels).value.(noteOff := n.noteOff, waitTicks := n.waitTicks) == n
  {
  }

  // ---------------------------------------------------------------------
  // update_channels

  /** The outcome of one event: `Again` re-tests the channel's wait, `Halt` leaves its loop. */
  datatype Exec = Again(st: PlayerState) | Halt(st: PlayerState)

  function SetChannel(st: PlayerState, cid: nat, c: Channel): PlayerState
    requires cid < |st.channels|
  {
    st.(channels := st.channels[cid := c])
  }

  /** Every channel but `cid` is the same in `st'` as in `st`. */
  ghost predicate OthersKept(st: PlayerState, st': PlayerState, cid: nat)
  {
    |st'.channels| == |st.channels| &&
    forall j :: 0 <= j < |st.channels| && j != cid ==> st'.channels[j] == st.channels[j]
  }

  /** No channel is switched on: a channel on in `st'` was on in `st`. */
  ghost predicate EnabledOnlyDrops(st: PlayerState, st': PlayerState)
  {
    |st'.channels| == |st.channels| &&
    forall j :: 0 <= j < |st.channels| && st'.channels[j].isEnabled ==> st.channels[j].isEnabled
  }

  function Next(c: Channel): Channel
  {
    c.(programCtr := c.programCtr + 1)
  }

  /** `reset_note` on every note of `ids` (`IndexError` for an id outside the slots). */
  function ReleaseIds(notes: seq<PlayNote>, ids: seq<nat>): (r: Result<seq<PlayNote>>)
    ensures r.Ok? <==> forall k :: 0 <= k < |ids| ==> ids[k] < |notes|
    ensures r.Ok? ==> |r.value| == |notes|
    ensures r.Ok? ==> forall i :: 0 <= i < |notes| ==> r.value[i] == if i in ids then notes[i].(noteOff := true) else notes[i]
  {
    if forall k :: 0 <= k < |ids| ==> ids[k] < |notes| then
      Ok(seq(|notes|, i requires 0 <= i < |notes| => if i in ids then notes[i].(noteOff := true) else notes[i]))
    else Err(IndexError)
  }

  /** The output type VOICE gives a channel for patch `p`. */
  function OutputFor(voices: Voices, p: int): ChannelOutput
  {
    if p in voices.directs then Output(voices.directs[p])
    else if p in voices.insts then Multi
    else if p in voices.drumkits then DrumKit
    else NoOutput
  }

  /** The channel field PRIO, KEYSH, VOICE, PAN, BEND, BENDR, LFOS or MOD sets; any other opcode here sets none. */
  function SetField(c: Channel, ev: ProcEvent, voices: Voices): (r: Channel)
    ensures r.programCtr == c.programCtr && r.waitTicks == c.waitTicks && r.isEnabled == c.isEnabled
    ensures r.noteIds == c.noteIds && r.notesPlaying == c.notesPlaying && r.mainVol == c.mainVol
    ensures r.inSub == c.inSub && r.loopPtr == c.loopPtr && r.isSustain == c.isSustain
  {
    var a := ev.arg1;
    if ev.cmd == Prio then c.(priority := a)
    else if ev.cmd == KeySh then c.(transpose := ToInt(a))
    else if ev.cmd == Voice then c.(patchNum := a, outputType := OutputFor(voices, a))
    else if ev.cmd == Pan then c.(panning := a)
    else if ev.cmd == Bend then c.(pitchBend := a)
    else if ev.cmd == BendR then c.(pitchRange := ToInt(a))
    else if ev.cmd == Lfos then c.(vibRate := a)
    else if ev.cmd == Mod then c.(vibDepth := a)
    else c
  }

  /** The opcodes that set one channel field, or the tempo, and step to the next event. */
  function ControlEvent(st: PlayerState, cid: nat, ev: ProcEvent, voices: Voices): (st': PlayerState)
    requires cid < |st.channels|
    ensures |st'.channels| == |st.channels| && st'.notes == st.notes && st'.noteQueue == st.noteQueue
    ensures OthersKept(st, st', cid) && st'.looped == st.looped
  {
    var c := st.channels[cid];
    if ev.cmd == Tempo then SetChannel(st.(tempo := ev.arg1 * 2), cid, Next(c))
    else SetChannel(st, cid, Next(SetField(c, ev, voices)))
  }

  /** The volumes VOL recomputes: one per note of the channel that is on and belongs to it, 0 while muted. */
  function ChannelVolumes(notes: seq<PlayNote>, ids: seq<nat>, cid: nat, c: Channel): (r: Result<seq<int>>)
    ensures r.Ok? ==> |r.value| <= |ids|
  {
    if ids == [] then Ok([])
    else if ids[0] >= |notes| then Err(IndexError)
    else
      var n := notes[ids[0]];
      match ChannelVolumes(notes, ids[1..], cid, c)
      case Err(e) => Err(e)
      case Ok(rest) =>
        if !n.enable || n.parent != cid then Ok(rest)
        else Ok([if c.isMuted then 0 else NoteVolume(n.velocity, c.mainVol, n.envPos)] + rest)
  }

  /** VOL: the channel volume, and the channel's output volume from its notes. */
  function VolumeEvent(st: PlayerState, cid: nat, ev: ProcEvent): (r: Result<PlayerState>)
    requires cid < |st.channels|
    ensures r.Ok? ==> |r.value.channels| == |st.channels| && r.value.notes == st.notes && r.value.noteQueue == st.noteQueue
    ensures r.Ok? ==> OthersKept(st, r.value, cid) && r.value.looped == st.looped
  {
    var c := st.channels[cid].(mainVol := ev.arg1);
    match ChannelVolumes(st.notes, c.noteIds, cid, c)
    case Err(e) => Err(e)
    case Ok(vols) => Ok(SetChannel(st, cid, Next(c.(outputVolume := GetOutputVolume(vols)))))
  }

  /** FINE/PREV, GOTO, PATT, PEND and EOT: the opcodes that stop the channel, jump, or release its notes. */
  function FlowEvent(st: PlayerState, cid: nat, ev: ProcEvent): (r: Result<Exec>)
    requires cid < |st.channels|
    requires ev.cmd == Fine || ev.cmd == Prev || ev.cmd == Goto || ev.cmd == Patt || ev.cmd == Pend || ev.cmd == Eot
    ensures r.Ok? ==> |r.value.st.channels| == |st.channels| && r.value.st.noteQueue == st.noteQueue
    ensures r.Ok? ==> |r.value.st.notes| == |st.notes|
    ensures r.Ok? ==> OthersKept(st, r.value.st, cid)
    ensures r.Ok? && r.value.Halt? ==> !r.value.st.channels[cid].isEnabled
  {
    var c := st.channels[cid];
    if ev.cmd == Fine || ev.cmd == Prev then
      Ok(Halt(SetChannel(st, cid, c.(isEnabled := false, isSustain := false))))
    else if ev.cmd == Patt then
      Ok(Again(SetChannel(st, cid, c.(programCtr := ev.evtQPtr, subCtr := c.subCtr + 1, rtnPtr := c.rtnPtr + 1, inSub := true))))
    else
      match ReleaseIds(st.notes, c.noteIds)
      case Err(e) => Err(e)
      case Ok(notes) =>
        if ev.cmd == Pend then
          var c' := if c.inSub then c.(programCtr := c.rtnPtr, inSub := false) else Next(c);
          Ok(Again(SetChannel(st.(notes := notes), cid, c')))
        else if ev.cmd == Goto then
          var c' := c.(inSub := false, programCtr := c.loopPtr, isSustain := false);
          Ok(Again(SetChannel(st.(looped := true, notes := notes), cid, c')))
        else
          Ok(Again(SetChannel(st.(notes := notes), cid, Next(c.(isSustain := false)))))
  }

  /** The length a note event 0xD0..0xFF gives its note: `to_ticks(cmd - 0xCF) + 1`. */
  function NoteLength(cmd: Byte): (r: int)
    requires N01 <= cmd
    ensures r == InstSet.WaitTicks(InstSet.W00 + (cmd - Tie)) + 1
  {
    ShortLen.SlenToTicksCorrected(cmd - Tie).value + 1
  }

  /** A note event queues one note; TIE also turns sustain on and queues the note with length -1. */
  function NoteEvent(st: PlayerState, cid: nat, ev: ProcEvent): (st': PlayerState)
    requires cid < |st.channels| && ev.cmd >= Tie
    ensures |st'.channels| == |st.channels| && st'.notes == st.notes
    ensures OthersKept(st, st', cid) && st'.looped == st.looped
  {
    var c := st.channels[cid];
    var ll := if ev.cmd == Tie then -1 else NoteLength(ev.cmd);
    var c' := if ev.cmd == Tie then c.(isSustain := true) else c;
    SetChannel(st.(noteQueue := st.noteQueue + [QueuedNote(ev.arg1, ev.arg2, cid, ev.arg3, ll, c.patchNum)]), cid, Next(c'))
  }

  /**
   * A wait event: a pending `looped` flag is cleared first and the wait set
   * to 0 (the same event runs again); otherwise the next event's stamp minus
   * this one's becomes the wait.
   */
  function WaitEvent(st: PlayerState, cid: nat, ev: ProcEvent): (r: Result<PlayerState>)
    requires cid < |st.channels|
    ensures r.Ok? ==> |r.value.channels| == |st.channels| && r.value.notes == st.notes && r.value.noteQueue == st.noteQueue
    ensures r.Ok? ==> OthersKept(st, r.value, cid)
  {
    var c := st.channels[cid];
    if st.looped then Ok(SetChannel(st.(looped := false), cid, c.(waitTicks := 0)))
    else
      var pc := c.programCtr + 1;
      match PyIndex(c.events, pc)
      case None => Err(IndexError)
      case Some(next) =>
        Ok(SetChannel(st, cid, c.(programCtr := pc, waitTicks := if pc > 0 then next.ticks - ev.ticks else next.ticks)))
  }

  /** One pass of `update_channels`' `while chan.wait_ticks <= 0` loop for channel `cid`. */
  function ExecEvent(st: PlayerState, cid: nat, voices: Voices): (r: Result<Exec>)
    requires cid < |st.channels|
    ensures r.Ok? ==> |r.value.st.channels| == |st.channels| && |r.value.st.notes| == |st.notes|
    ensures r.Ok? ==> st.noteQueue <= r.value.st.noteQueue
    ensures r.Ok? ==> OthersKept(st, r.value.st, cid)
    ensures r.Ok? && r.value.Halt? ==> !r.value.st.channels[cid].isEnabled
    ensures r.Ok? ==> EnabledOnlyDrops(st, r.value.st)
  {
    var c := st.channels[cid];
    match PyIndex(c.events, c.programCtr)
    case None => Err(IndexError)
    case Some(ev) =>
      if ev.cmd == Fine || ev.cmd == Prev || ev.cmd == Goto || ev.cmd == Patt || ev.cmd == Pend || ev.cmd == Eot then
        FlowEvent(st, cid, ev)
      else if ev.cmd == Vol then
        match VolumeEvent(st, cid, ev)
        case Err(e) => Err(e)
        case Ok(st') => Ok(Again(st'))
      else if ev.cmd >= Tie then Ok(Again(NoteEvent(st, cid, ev)))
      else if ev.cmd <= W96 then
        match WaitEvent(st, cid, ev)
        case Err(e) => Err(e)
        case Ok(st') => Ok(Again(st'))
      else Ok(Again(ControlEvent(st, cid, ev, voices)))
  }

  /** The `while chan.wait_ticks <= 0` loop; `fuel` bounds its passes. */
  function RunChannelLoop(st: PlayerState, cid: nat, voices: Voices, fuel: nat): (r: Result<PlayerState>)
    requires cid < |st.channels|
    ensures r.Ok? ==> |r.value.channels| == |st.channels| && |r.value.notes| == |st.notes|
    ensures r.Ok? ==> st.noteQueue <= r.value.noteQueue
    ensures r.Ok? ==> OthersKept(st, r.value, cid)
    decreases fuel
    ensures r.Ok? ==> EnabledOnlyDrops(st, r.value)
  {
    if st.channels[cid].waitTicks > 0 then Ok(st)
    else if fuel == 0 then Err(OutOfFuel)
    else match ExecEvent(st, cid, voices)
      case Err(e) => Err(e)
      case Ok(Halt(st')) => Ok(st')
      case Ok(Again(st')) => RunChannelLoop(st', cid, voices, fuel - 1)
  }

  /** One pass of the `while wait_ticks <= 0` loop of `update_channels`. */
  lemma RunChannelLoopStep(st: PlayerState, cid: nat, voices: Voices, fuel: nat)
    requires cid < |st.channels| && st.channels[cid].waitTicks <= 0 && fuel > 0
    ensures ExecEvent(st, cid, voices).Err? ==> RunChannelLoop(st, cid, voices, fuel) == Err(ExecEvent(st, cid, voices).error)
    ensures ExecEvent(st, cid, voices).Ok? ==> var e := ExecEvent(st, cid, voices).value;
      RunChannelLoop(st, cid, voices, fuel) == if e.Halt? then Ok(e.st) else RunChannelLoop(e.st, cid, voices, fuel - 1)
  { }

  /** One channel of `update_channels`: skipped when off, else one tick off its wait and the loop. */
  function UpdateChannel(st: PlayerState, cid: nat, voices: Voices, fuel: nat): (r: Result<PlayerState>)
    requires cid < |st.channels|
    ensures r.Ok? ==> |r.value.channels| == |st.channels| && |r.value.notes| == |st.notes|
    ensures r.Ok? ==> st.noteQueue <= r.value.noteQueue
    ensures r.Ok? ==> OthersKept(st, r.value, cid)
    ensures r.Ok? ==> EnabledOnlyDrops(st, r.value)
  {
    var c := st.channels[cid];
    if !c.isEnabled then Ok(st)
    else
      var c' := if c.waitTicks > 0 then c.(waitTicks := c.waitTicks - 1) else c;
      RunChannelLoop(SetChannel(st, cid, c'), cid, voices, fuel)
  }

  /** `update_channels` from channel `cid` on. */
  function UpdateChannelsFrom(st: PlayerState, cid: nat, voices: Voices, fuel: nat): (r: Result<PlayerState>)
    requires cid <= |st.channels|
    ensures r.Ok? ==> |r.value.channels| == |st.channels| && |r.value.notes| == |st.notes|
    ensures r.Ok? ==> st.noteQueue <= r.value.noteQueue
    decreases |st.channels| - cid
    ensures r.Ok? ==> EnabledOnlyDrops(st, r.value)
  {
    if cid == |st.channels| then Ok(st)
    else match UpdateChannel(st, cid, voices, fuel)
      case Err(e) => Err(e)
      case Ok(st') => UpdateChannelsFrom(st', cid + 1, voices, fuel)
  }

  /** The event channel `cid` runs next, if its program counter indexes its queue. */
  function Current(st: PlayerState, cid: nat): Option<ProcEvent>
    requires cid < |st.channels|
  {
    PyIndex(st.channels[cid].events, st.channels[cid].programCtr)
  }

  /** FINE and PREV end the channel's loop with the channel off and not sustaining, and change nothing else. */
  lemma FineStopsChannel(st: PlayerState, cid: nat, voices: Voices)
    requires cid < |st.channels| && Current(st, cid).Some?
    requires Current(st, cid).value.cmd == Fine || Current(st, cid).value.cmd == Prev
    ensures ExecEvent(st, cid, voices) == Ok(Halt(SetChannel(st, cid, st.channels[cid].(isEnabled := false, isSustain := false))))
  {
  }

  /** TEMPO sets the tempo to twice its argument and steps to the next event. */
  lemma TempoDoublesArgument(st: PlayerState, cid: nat, voices: Voices)
    requires cid < |st.channels| && Current(st, cid).Some? && Current(st, cid).value.cmd == Tempo
    ensures ExecEvent(st, cid, voices).Ok? && ExecEvent(st, cid, voices).value.Again?
    ensures ExecEvent(st, cid, voices).value.st.tempo == 2 * Current(st, cid).value.arg1
    ensures ExecEvent(st, cid, voices).value.st.channels[cid].programCtr == st.channels[cid].programCtr + 1
  {
  }

  /**
   * A wait right after GOTO only clears `looped` and sets the wait to 0, so
   * the same wait event runs again; otherwise the wait is the next event's
   * stamp minus this one's.
   */
  lemma WaitAfterJump(st: PlayerState, cid: nat, voices: Voices)
    requires cid < |st.channels| && Current(st, cid).Some?
    requires Current(st, cid).value.cmd <= W96
    ensures st.looped ==> ExecEvent(st, cid, voices) == Ok(Again(SetChannel(st.(looped := false), cid, st.channels[cid].(waitTicks := 0))))
    ensures var c := st.channels[cid]; var pc := c.programCtr + 1;
      !st.looped && 0 < pc < |c.events| ==>
        ExecEvent(st, cid, voices) == Ok(Again(SetChannel(st, cid, c.(programCtr := pc, waitTicks := c.events[pc].ticks - Current(st, cid).value.ticks))))
  {
  }

  /**
   * A note event appends exactly one note to the queue, on this channel with
   * the channel's patch; TIE turns sustain on and gives the note length -1.
   */
  lemma NoteQueuesOne(st: PlayerState, cid: nat, voices: Voices)
    requires cid < |st.channels| && Current(st, cid).Some? && Current(st, cid).value.cmd >= Tie
    ensures var ev := Current(st, cid).value; var r := ExecEvent(st, cid, voices);
      r.Ok? && r.value.Again? &&
      r.value.st.noteQueue == st.noteQueue + [QueuedNote(ev.arg1, ev.arg2, cid, ev.arg3, if ev.cmd == Tie then -1 else NoteLength(ev.cmd), st.channels[cid].patchNum)] &&
      (ev.cmd == Tie ==> r.value.st.channels[cid].isSustain)
  {
  }

  /** Every channel is off or has a wait left to count down. */
  ghost predicate Settled(st: PlayerState)
  {
    forall j :: 0 <= j < |st.channels| ==> !st.channels[j].isEnabled || st.channels[j].waitTicks > 0
  }

  /** When the loop of a channel ends without error, the channel is off or waits. */
  lemma {:induction false} LoopLeavesWaiting(st: PlayerState, cid: nat, voices: Voices, fuel: nat)
    requires cid < |st.channels| && RunChannelLoop(st, cid, voices, fuel).Ok?
    ensures var c := RunChannelLoop(st, cid, voices, fuel).value.channels[cid]; !c.isEnabled || c.waitTicks > 0
    decreases fuel
  {
    if st.channels[cid].waitTicks <= 0 {
      match ExecEvent(st, cid, voices).value
      case Halt(_) =>
      case Again(st') => LoopLeavesWaiting(st', cid, voices, fuel - 1);
    }
  }

  /** After `update_channels` every channel is off or has a wait left: no channel is left mid-tick. */
  lemma {:induction false} UpdateChannelsSettle(st: PlayerState, cid: nat, voices: Voices, fuel: nat)
    requires cid <= |st.channels| && UpdateChannelsFrom(st, cid, voices, fuel).Ok?
    requires forall j :: 0 <= j < cid ==> !st.channels[j].isEnabled || st.channels[j].waitTicks > 0
    ensures Settled(UpdateChannelsFrom(st, cid, voices, fuel).value)
    decreases |st.channels| - cid
  {
    if cid < |st.channels| {
      var st' := UpdateChannel(st, cid, voices, fuel).value;
      ChannelSettles(st, cid, voices, fuel);
      assert forall j :: 0 <= j < cid + 1 ==> !st'.channels[j].isEnabled || st'.channels[j].waitTicks > 0;
      UpdateChannelsSettle(st', cid + 1, voices, fuel);
    }
  }

  /** One channel of `update_channels` leaves it off or waiting, and no other channel changes. */
  lemma ChannelSettles(st: PlayerState, cid: nat, voices: Voices, fuel: nat)
    requires cid < |st.channels| && UpdateChannel(st, cid, voices, fuel).Ok?
    ensures var st' := UpdateChannel(st, cid, voices, fuel).value;
      OthersKept(st, st', cid) && (!st'.channels[cid].isEnabled || st'.channels[cid].waitTicks > 0)
  {
    var c := st.channels[cid];
    if c.isEnabled {
      var c' := if c.waitTicks > 0 then c.(waitTicks := c.waitTicks - 1) else c;
      LoopLeavesWaiting(SetChannel(st, cid, c'), cid, voices, fuel);
    }
  }

  // ---------------------------------------------------------------------
  // play_notes

  /** The fields `set_note` copies from a direct into a note. */
  datatype DirectSettings = DirectSettings(output: NoteType, attack: int, decay: int, sustain: int, release: int)

  /**
   * What `get_playback_data` gives `play_notes`: the direct it copied into
   * the note, if it found one, and whether the sample id is non-empty.
   */
  datatype Playback = Playback(direct: Option<DirectSettings>, hasSample: bool)

  /** `set_note`, when a direct was found. */
  function SetNote(n: PlayNote, d: Option<DirectSettings>): PlayNote
  {
    match d
    case None => n
    case Some(x) => n.(output := x.output, envAttack := x.attack, envDecay := x.decay, envSustain := x.sustain, envRelease := x.release)
  }

  /** A note `play_notes` cuts on the new note's channel: on, not released, and a tie without sustain or with at most one tick left. */
  predicate TimedOut(n: PlayNote, sustain: bool)
  {
    n.enable && !n.noteOff && ((n.waitTicks == -1 && !sustain) || n.waitTicks == 0 || n.waitTicks == 1)
  }

  /** `reset_note` on every timed-out note of `ids` (`IndexError` for an id outside the slots). */
  function CutTimedOut(notes: seq<PlayNote>, ids: seq<nat>, sustain: bool): (r: Result<seq<PlayNote>>)
    ensures r.Ok? <==> forall k :: 0 <= k < |ids| ==> ids[k] < |notes|
    ensures r.Ok? ==> |r.value| == |notes|
    ensures r.Ok? ==> forall i :: 0 <= i < |notes| ==>
      r.value[i] == if i in ids && TimedOut(notes[i], sustain) then notes[i].(noteOff := true) else notes[i]
    ensures r.Ok? ==> forall i :: 0 <= i < |notes| ==> r.value[i].(noteOff := notes[i].noteOff) == notes[i]
  {
    if forall k :: 0 <= k < |ids| ==> ids[k] < |notes| then
      Ok(seq(|notes|, i requires 0 <= i < |notes| => if i in ids && TimedOut(notes[i], sustain) then notes[i].(noteOff := true) else notes[i]))
    else Err(IndexError)
  }

  /** `ids` without `x`: deleting a key of a channel's `notes` dictionary. */
  function Without(ids: seq<nat>, x: nat): (r: seq<nat>)
    ensures x !in r
    ensures forall y :: y in r <==> y in ids && y != x
    ensures |r| <= |ids|
  {
    if ids == [] then []
    else if ids[0] == x then Without(ids[1..], x)
    else [ids[0]] + Without(ids[1..], x)
  }

  /** `list.remove`: the first occurrence of `x` is taken out, when there is one. */
  function RemoveFirst(s: seq<int>, x: int): (r: seq<int>)
    ensures x in s ==> multiset(r) == multiset(s) - multiset{x}
    ensures x !in s ==> r == s
  {
    if s == [] then []
    else
      assert s == [s[0]] + s[1..];
      if s[0] == x then s[1..]
      else [s[0]] + RemoveFirst(s[1..], x)
  }

  /**
   * Stopping the note that holds the PSG channel `t`: it is switched off and
   * its id deleted from its channel's notes (`IndexError` or `KeyError` when
   * either lookup misses).
   */
  function StopPsgNote(st: PlayerState, t: NoteType): (r: Result<PlayerState>)
    ensures r.Ok? ==> |r.value.notes| == |st.notes| && |r.value.channels| == |st.channels|
    ensures r.Ok? ==> r.value.noteQueue == st.noteQueue && r.value.psg == st.psg
    ensures PsgGet(st.psg, t).None? ==> r == Ok(st)
    ensures r.Ok? && PsgGet(st.psg, t).Some? ==>
      PsgGet(st.psg, t).value < |st.notes| && !r.value.notes[PsgGet(st.psg, t).value].enable
    ensures r.Ok? ==> EnabledOnlyDrops(st, r.value)
  {
    match PsgGet(st.psg, t)
    case None => Ok(st)
    case Some(p) =>
      if p >= |st.notes| then Err(IndexError)
      else
        var gb := st.notes[p];
        if gb.parent >= |st.channels| then Err(IndexError)
        else
          var c := st.channels[gb.parent];
          if p !in c.noteIds then Err(KeyError)
          else Ok(st.(notes := st.notes[p := gb.(enable := false)],
                      channels := st.channels[gb.parent := c.(noteIds := Without(c.noteIds, p))]))
  }

  /** `self.psg_channels[out_type] = psg_note` as written: the PSG map gets back the note it already held. */
  function ClaimPsgAsWritten(psg: map<NoteType, Option<nat>>, t: NoteType, psgNote: Option<nat>): map<NoteType, Option<nat>>
  {
    psg[t := psgNote]
  }

  /** As written, a PSG map holding no note never comes to hold one, so a PSG note is never cut by the next. */
  lemma PsgNeverClaimedAsWritten(psg: map<NoteType, Option<nat>>, t: NoteType, slot: nat)
    requires forall u :: u in psg ==> psg[u] == None
    ensures var m := ClaimPsgAsWritten(psg, t, PsgGet(psg, t)); forall u :: u in m ==> m[u] == None
    ensures t.IsPsg() ==> PsgGet(ClaimPsgAsWritten(psg, t, PsgGet(psg, t)), t) != Some(slot)
  {
  }

  /** The evidently intended update: a note started on a PSG channel becomes the note that holds it. */
  function ClaimPsg(psg: map<NoteType, Option<nat>>, t: NoteType, slot: nat): (m: map<NoteType, Option<nat>>)
    ensures t.IsPsg() ==> PsgGet(m, t) == Some(slot)
    ensures forall u :: u != t ==> PsgGet(m, u) == PsgGet(psg, u)
    ensures !t.IsPsg() ==> m == psg
  {
    if t.IsPsg() then psg[t := Some(slot)] else psg
  }

  /** Truncation toward zero, as `int()` does. */
  function TruncDiv(n: int, d: int): (q: int)
    requires d > 0
    ensures n >= 0 ==> q * d <= n < (q + 1) * d
    ensures n < 0 ==> q == -((-n) / d)
  {
    if n >= 0 then n / d else -((-n) / d)
  }

  /** `int(velocity / 0x7F * main_vol / 0x7F * 255)`, the volume `play_notes` starts a note at. */
  function StartVolume(velocity: int, mainVol: int): (v: int)
    ensures 0 <= velocity <= Mxv && 0 <= mainVol <= Mxv ==> 0 <= v <= 255
  {
    StartVolumeBound(velocity, mainVol);
    TruncDiv(velocity * mainVol * 255, Mxv * Mxv)
  }

  lemma StartVolumeBound(velocity: int, mainVol: int)
    ensures 0 <= velocity <= Mxv && 0 <= mainVol <= Mxv ==> 0 <= velocity * mainVol * 255 <= Mxv * Mxv * 255
  {
    if 0 <= velocity <= Mxv && 0 <= mainVol <= Mxv {
      MulMonotone(velocity, Mxv, mainVol);
      MulMonotone(mainVol, Mxv, Mxv);
    }
  }

  /** The outcome of one queued note: play goes on, or the note had no sample and `play_notes` returns. */
  datatype PlayStep = Played(st: PlayerState, vols: seq<seq<int>>) | Stopped(st: PlayerState)

  /** `x` appended to `s` unless it is already there: a dictionary key set, or a list guarded by `not in`. */
  function AddOnce<T(==,!new)>(s: seq<T>, x: T): (r: seq<T>)
    ensures x in r && s <= r
    ensures forall y :: y in r <==> y in s || y == x
    ensures x in s ==> r == s
  {
    if x in s then s else s + [x]
  }

  /** Channels differ at most in their note ids and playing keys. */
  ghost predicate OnlyNoteListsChanged(st: PlayerState, st': PlayerState)
  {
    |st'.channels| == |st.channels| &&
    forall i :: 0 <= i < |st.channels| ==>
      st'.channels[i] == st.channels[i].(noteIds := st'.channels[i].noteIds, notesPlaying := st'.channels[i].notesPlaying)
  }

  /**
   * A queued note put into free slot `slot`: the timed-out notes of its
   * channel cut, and the slot and the key recorded on the channel.
   */
  function RecordNote(st: PlayerState, slot: nat, item: PlayNote): (r: Result<PlayerState>)
    requires slot < |st.notes|
    ensures r.Ok? ==> item.parent < |st.channels| && OnlyNoteListsChanged(st, r.value)
    ensures r.Ok? ==> |r.value.notes| == |st.notes| && r.value.noteQueue == st.noteQueue && r.value.psg == st.psg
    ensures r.Ok? ==> r.value.notes[slot].(noteOff := item.noteOff) == item.(enable := true)
    ensures r.Ok? ==> slot in r.value.channels[item.parent].noteIds && item.noteNum in r.value.channels[item.parent].notesPlaying
  {
    if item.parent >= |st.channels| then Err(IndexError)
    else
      var chan := st.channels[item.parent];
      match CutTimedOut(st.notes[slot := item.(enable := true)], chan.noteIds, chan.isSustain)
      case Err(e) => Err(e)
      case Ok(notes) =>
        var chan' := chan.(noteIds := AddOnce(chan.noteIds, slot), notesPlaying := AddOnce(chan.notesPlaying, notes[slot].noteNum));
        Ok(st.(notes := notes, channels := st.channels[item.parent := chan']))
  }

  /**
   * `RecordNote` as written: the queued note is stored as it was queued.
   * Nothing in `play_notes` sets its `enable`; the only assignments to it
   * in the player switch notes off.
   */
  function RecordNoteAsWritten(st: PlayerState, slot: nat, item: PlayNote): (r: Result<PlayerState>)
    requires slot < |st.notes|
    ensures r.Ok? ==> |r.value.notes| == |st.notes| && r.value.notes[slot].(noteOff := item.noteOff) == item
  {
    if item.parent >= |st.channels| then Err(IndexError)
    else
      var chan := st.channels[item.parent];
      match CutTimedOut(st.notes[slot := item], chan.noteIds, chan.isSustain)
      case Err(e) => Err(e)
      case Ok(notes) =>
        var chan' := chan.(noteIds := AddOnce(chan.noteIds, slot), notesPlaying := AddOnce(chan.notesPlaying, notes[slot].noteNum));
        Ok(st.(notes := notes, channels := st.channels[item.parent := chan']))
  }

  /**
   * As written a queued note (queued switched off) stays off once placed:
   * `update_notes` skips it, so its envelope never runs, and the next
   * queued note is given the same slot.
   */
  lemma PlacedNoteNeverEnabled(st: PlayerState, slot: nat, item: PlayNote, vols: seq<int>)
    requires |st.notes| == NoteSlots && FreeSlot(st.notes) == Some(slot) && !item.enable
    requires RecordNoteAsWritten(st, slot, item).Ok?
    ensures var st' := RecordNoteAsWritten(st, slot, item).value;
      !st'.notes[slot].enable && UpdateNote(st', slot, vols) == Ok((st', vols)) && FreeSlot(st'.notes) == Some(slot)
  {
    var st' := RecordNoteAsWritten(st, slot, item).value;
    var chan := st.channels[item.parent];
    var cut := CutTimedOut(st.notes[slot := item], chan.noteIds, chan.isSustain).value;
    assert st'.notes == cut;
    assert forall j :: 0 <= j < NoteSlots ==> st'.notes[j].enable == st.notes[slot := item][j].enable;
  }

  /**
   * The first half of one queued note: recorded in `slot` and the direct's
   * settings copied into it; the flag says whether a sample was found.
   */
  function PlaceNote(st: PlayerState, slot: nat, item: PlayNote, lookup: PlayNote -> Result<Playback>): (r: Result<(PlayerState, bool)>)
    requires slot < |st.notes|
    ensures r.Ok? ==> item.parent < |st.channels| && OnlyNoteListsChanged(st, r.value.0)
    ensures r.Ok? ==> |r.value.0.notes| == |st.notes| && r.value.0.noteQueue == st.noteQueue && r.value.0.psg == st.psg
    ensures r.Ok? ==> var n := r.value.0.notes[slot];
      n.enable && n.noteNum == item.noteNum && n.velocity == item.velocity && n.parent == item.parent && n.waitTicks == item.waitTicks
    ensures r.Ok? ==> slot in r.value.0.channels[item.parent].noteIds && item.noteNum in r.value.0.channels[item.parent].notesPlaying
  {
    match RecordNote(st, slot, item)
    case Err(e) => Err(e)
    case Ok(st1) =>
      match lookup(st1.notes[slot])
      case Err(e) => Err(e)
      case Ok(pb) => Ok((st1.(notes := st1.notes[slot := SetNote(st1.notes[slot], pb.direct)]), pb.hasSample))
  }

  /**
   * The second half: the note holding the new note's PSG channel stopped,
   * the channel claimed, the note set to INITIAL and its start volume added
   * to its channel's list.
   */
  function StartNote(st: PlayerState, vols: seq<seq<int>>, slot: nat, parent: nat, volume: int): (r: Result<(PlayerState, seq<seq<int>>)>)
    requires slot < |st.notes| && parent < |vols| == |st.channels|
    ensures r.Ok? ==> |r.value.0.notes| == |st.notes| && |r.value.0.channels| == |st.channels| && r.value.0.noteQueue == st.noteQueue
    ensures r.Ok? ==> r.value.1 == vols[parent := vols[parent] + [volume]]
    ensures r.Ok? ==> r.value.0.notes[slot] == st.notes[slot].(phase := Initial, enable := r.value.0.notes[slot].enable)
    ensures r.Ok? && st.notes[slot].output.IsPsg() ==> PsgGet(r.value.0.psg, st.notes[slot].output) == Some(slot)
    ensures r.Ok? ==> EnabledOnlyDrops(st, r.value.0)
  {
    var out := st.notes[slot].output;
    match StopPsgNote(st, out)
    case Err(e) => Err(e)
    case Ok(st2) =>
      Ok((st2.(psg := ClaimPsg(st2.psg, out, slot), notes := st2.notes[slot := st2.notes[slot].(phase := Initial)]),
          vols[parent := vols[parent] + [volume]]))
  }

  /** One item of the note queue, placed in the highest free slot; dropped when every slot is in use. */
  function PlayItem(st: PlayerState, vols: seq<seq<int>>, item: PlayNote, lookup: PlayNote -> Result<Playback>): (r: Result<PlayStep>)
    requires |st.notes| == NoteSlots && |vols| == |st.channels|
    ensures r.Ok? ==> |r.value.st.notes| == NoteSlots && |r.value.st.channels| == |st.channels|
    ensures r.Ok? ==> r.value.st.noteQueue == st.noteQueue
    ensures r.Ok? && r.value.Played? ==> |r.value.vols| == |st.channels|
    ensures r.Ok? ==> EnabledOnlyDrops(st, r.value.st)
  {
    match FreeSlot(st.notes)
    case None => Ok(Played(st, vols))
    case Some(slot) =>
      match PlaceNote(st, slot, item, lookup)
      case Err(e) => Err(e)
      case Ok((st1, hasSample)) =>
        if !hasSample then Ok(Stopped(st1))
        else
          var chan := st.channels[item.parent];
          var volume := if chan.isMuted then 0 else StartVolume(item.velocity, chan.mainVol);
          match StartNote(st1, vols, slot, item.parent, volume)
          case Err(e) => Err(e)
          case Ok((st3, vols')) => Ok(Played(st3, vols'))
  }

  /** The end of `play_notes`: each channel's output volume from its new notes, and the queue cleared. */
  function FinishPlay(st: PlayerState, vols: seq<seq<int>>): (r: PlayerState)
    requires |vols| == |st.channels|
    ensures |r.channels| == |st.channels| && r.notes == st.notes && r.noteQueue == []
    ensures forall i :: 0 <= i < |st.channels| ==> r.channels[i] == st.channels[i].(outputVolume := GetOutputVolume(vols[i]))
  {
    st.(channels := seq(|st.channels|, i requires 0 <= i < |st.channels| => st.channels[i].(outputVolume := GetOutputVolume(vols[i]))),
        noteQueue := [])
  }

  /** `play_notes` from queue item `k` on. */
  function PlayNotesFrom(st: PlayerState, queue: seq<PlayNote>, vols: seq<seq<int>>, k: nat, lookup: PlayNote -> Result<Playback>): (r: Result<PlayerState>)
    requires |st.notes| == NoteSlots && |vols| == |st.channels| && k <= |queue|
    ensures r.Ok? ==> |r.value.notes| == NoteSlots && |r.value.channels| == |st.channels|
    ensures r.Ok? ==> r.value.noteQueue == [] || r.value.noteQueue == st.noteQueue
    decreases |queue| - k
    ensures r.Ok? ==> EnabledOnlyDrops(st, r.value)
  {
    if k == |queue| then Ok(FinishPlay(st, vols))
    else match PlayItem(st, vols, queue[k], lookup)
      case Err(e) => Err(e)
      case Ok(Stopped(st')) => Ok(st')
      case Ok(Played(st', vols')) => PlayNotesFrom(st', queue, vols', k + 1, lookup)
  }

  /** `play_notes`: every queued note, then the output volumes and an empty queue. */
  function PlayQueue(st: PlayerState, lookup: PlayNote -> Result<Playback>): (r: Result<PlayerState>)
    requires |st.notes| == NoteSlots
    ensures r.Ok? ==> |r.value.notes| == NoteSlots && |r.value.channels| == |st.channels|
    ensures r.Ok? ==> EnabledOnlyDrops(st, r.value)
  {
    PlayNotesFrom(st, st.noteQueue, seq(|st.channels|, _ => []), 0, lookup)
  }

  /** With every slot in use, a queued note is dropped and nothing changes. */
  lemma FullSlotsDropNote(st: PlayerState, vols: seq<seq<int>>, item: PlayNote, lookup: PlayNote -> Result<Playback>)
    requires |st.notes| == NoteSlots && |vols| == |st.channels|
    requires forall j :: 0 <= j < NoteSlots ==> st.notes[j].enable
    ensures PlayItem(st, vols, item, lookup) == Ok(Played(st, vols))
  {
  }

  /**
   * A played note lands in the highest free slot with its key, velocity,
   * channel and length, at phase INITIAL, and its volume is added to its
   * channel's list.
   */
  lemma PlayedNoteInFreeSlot(st: PlayerState, vols: seq<seq<int>>, item: PlayNote, lookup: PlayNote -> Result<Playback>, slot: nat)
    requires |st.notes| == NoteSlots && |vols| == |st.channels|
    requires FreeSlot(st.notes) == Some(slot)
    requires PlayItem(st, vols, item, lookup).Ok? && PlayItem(st, vols, item, lookup).value.Played?
    ensures var r := PlayItem(st, vols, item, lookup).value; var n := r.st.notes[slot];
      n.noteNum == item.noteNum && n.velocity == item.velocity && n.parent == item.parent &&
      n.waitTicks == item.waitTicks && n.phase == Initial &&
      item.parent < |st.channels| && |r.vols[item.parent]| == |vols[item.parent]| + 1
  {
  }

  /** With the intended update, a note started on a PSG channel holds that channel. */
  lemma PlayedPsgNoteHoldsChannel(st: PlayerState, vols: seq<seq<int>>, item: PlayNote, lookup: PlayNote -> Result<Playback>, slot: nat)
    requires |st.notes| == NoteSlots && |vols| == |st.channels|
    requires FreeSlot(st.notes) == Some(slot)
    requires PlayItem(st, vols, item, lookup).Ok? && PlayItem(st, vols, item, lookup).value.Played?
    ensures var r := PlayItem(st, vols, item, lookup).value; var t := r.st.notes[slot].output;
      t.IsPsg() ==> PsgGet(r.st.psg, t) == Some(slot)
  {
  }

  /** A note without a sample ends `play_notes` before the queue is cleared or any output volume is set. */
  lemma NoSampleKeepsQueue(st: PlayerState, vols: seq<seq<int>>, item: PlayNote, lookup: PlayNote -> Result<Playback>)
    requires |st.notes| == NoteSlots && |vols| == |st.channels|
    requires FreeSlot(st.notes).Some? && item.parent < |st.channels|
    requires PlayItem(st, vols, item, lookup).Ok? && PlayItem(st, vols, item, lookup).value.Stopped?
    ensures var r := PlayItem(st, vols, item, lookup).value.st;
      r.noteQueue == st.noteQueue &&
      forall i :: 0 <= i < |st.channels| ==> r.channels[i].outputVolume == st.channels[i].outputVolume
  {
  }

  // ---------------------------------------------------------------------
  // update_notes

  /** A released note still before RELEASE is forced into RELEASE with a zero step. */
  function ForceRelease(n: PlayNote): PlayNote
  {
    if n.noteOff && n.phase.Ord() < Release.Ord() then n.(envStep := 0, phase := Release) else n
  }

  /** `update_notes`' test that the envelope has reached its destination. */
  predicate Reached(n: PlayNote)
  {
    n.envStep == 0 || n.envPos == n.envDest ||
    (n.envStep <= 0 && n.envPos <= n.envDest) || (n.envStep >= 0 && n.envPos >= n.envDest)
  }

  /** The phase change at a reached destination, for every phase but NOTEOFF (half units). */
  function NextPhase(n: PlayNote): PlayNote
    requires n.phase != NoteOff
  {
    var psg := n.output.IsPsg();
    match n.phase
    case Initial =>
      n.(phase := Attack, envPos := 0, envDest := FullPosition, envStep := 2 * n.envAttack * (if psg then 8 else 1))
    case Attack =>
      n.(phase := Decay, envDest := 2 * n.envSustain * (if psg then 8 else 1),
         envStep := if psg then 32 * (n.envDecay - 0x08) else n.envDecay - 0x100)
    case Decay => n.(phase := Sustain, envStep := 0)
    case Sustain => n.(envStep := 0)
    case Release =>
      n.(phase := NoteOff, envDest := 0, envStep := if psg then 16 * (n.envRelease - 0x08) else 2 * (n.envRelease - 0x100))
  }

  /** One step of the envelope position, stopped at the destination when it would pass it. */
  function Move(n: PlayNote): PlayNote
  {
    var d := n.envPos + n.envStep;
    n.(envPos := if (d > n.envDest && n.envStep > 0) || (d < n.envDest && n.envStep < 0) then n.envDest else d)
  }

  /** The envelope step of a note that stays on: forced release, phase change at the destination, one move. */
  function EnvelopeStep(n: PlayNote): PlayNote
    requires !(Reached(ForceRelease(n)) && ForceRelease(n).phase == NoteOff)
  {
    var f := ForceRelease(n);
    Move(if Reached(f) then NextPhase(f) else f)
  }

  /**
   * A note at the end of NOTEOFF: its PSG channel freed, released, its id
   * deleted from channel `p`'s notes (`KeyError` when absent), its key taken
   * out of the channel's playing keys, and switched off.
   */
  function FinishNote(st: PlayerState, nid: nat, p: nat): (r: Result<PlayerState>)
    requires nid < |st.notes| && p < |st.channels|
    ensures r.Ok? <==> nid in st.channels[p].noteIds
    ensures r.Ok? ==> |r.value.notes| == |st.notes| && |r.value.channels| == |st.channels| && r.value.noteQueue == st.noteQueue
    ensures r.Ok? ==> !r.value.notes[nid].enable && r.value.notes[nid].noteOff && nid !in r.value.channels[p].noteIds
    ensures r.Ok? ==> r.value.channels == st.channels[p := st.channels[p].(noteIds := r.value.channels[p].noteIds, notesPlaying := r.value.channels[p].notesPlaying)]
    ensures r.Ok? && st.notes[nid].output.IsPsg() ==> PsgGet(r.value.psg, st.notes[nid].output) == None
    ensures r.Ok? ==> EnabledOnlyDrops(st, r.value)
  {
    var n := st.notes[nid];
    var c := st.channels[p];
    if nid !in c.noteIds then Err(KeyError)
    else
      var psg := if n.output.IsPsg() then st.psg[n.output := None] else st.psg;
      Ok(st.(psg := psg, notes := st.notes[nid := n.(noteOff := true, enable := false)],
             channels := st.channels[p := c.(noteIds := Without(c.noteIds, nid), notesPlaying := RemoveFirst(c.notesPlaying, n.noteNum))]))
  }

  /**
   * One note id of `update_notes`: skipped when off; otherwise the envelope
   * step, the note's volume added to the list unless its channel is muted,
   * and that channel's output volume set from the list.
   */
  function UpdateNote(st: PlayerState, nid: nat, vols: seq<int>): (r: Result<(PlayerState, seq<int>)>)
    requires nid < |st.notes|
    ensures r.Ok? ==> |r.value.0.notes| == |st.notes| && |r.value.0.channels| == |st.channels| && r.value.0.noteQueue == st.noteQueue
    ensures r.Ok? ==> vols <= r.value.1 && |r.value.1| <= |vols| + 1
    ensures r.Ok? ==> EnabledOnlyDrops(st, r.value.0)
  {
    var n0 := st.notes[nid];
    if !n0.enable then Ok((st, vols))
    else if n0.parent >= |st.channels| then Err(IndexError)
    else
      var p := n0.parent;
      match StepNote(st, nid)
      case Err(e) => Err(e)
      case Ok(s1) =>
        var n := s1.notes[nid];
        var c := s1.channels[p];
        var vols' := if c.isMuted then vols else vols + [NoteVolume(n.velocity, c.mainVol, n.envPos)];
        Ok((s1.(channels := s1.channels[p := c.(outputVolume := GetOutputVolume(vols'))]), vols'))
  }

  /** The envelope of one enabled note: a step, or at the end of NOTEOFF the note finished and then moved. */
  function StepNote(st: PlayerState, nid: nat): (r: Result<PlayerState>)
    requires nid < |st.notes| && st.notes[nid].parent < |st.channels|
    ensures r.Ok? ==> |r.value.notes| == |st.notes| && OnlyNoteListsChanged(st, r.value) && r.value.noteQueue == st.noteQueue
    ensures r.Ok? ==> EnabledOnlyDrops(st, r.value)
  {
    var f := ForceRelease(st.notes[nid]);
    if Reached(f) && f.phase == NoteOff then
      match FinishNote(st.(notes := st.notes[nid := f]), nid, f.parent)
      case Err(e) => Err(e)
      case Ok(s1) => Ok(s1.(notes := s1.notes[nid := Move(s1.notes[nid])]))
    else Ok(st.(notes := st.notes[nid := EnvelopeStep(st.notes[nid])]))
  }

  /** The inner loop of `update_notes` over a copy of one channel's note ids, from position `k` on. */
  function UpdateNoteIds(st: PlayerState, ids: seq<nat>, k: nat, vols: seq<int>): (r: Result<PlayerState>)
    requires k <= |ids|
    ensures r.Ok? ==> |r.value.notes| == |st.notes| && |r.value.channels| == |st.channels| && r.value.noteQueue == st.noteQueue
    decreases |ids| - k
    ensures r.Ok? ==> EnabledOnlyDrops(st, r.value)
  {
    if k == |ids| then Ok(st)
    else if ids[k] >= |st.notes| then Err(IndexError)
    else match UpdateNote(st, ids[k], vols)
      case Err(e) => Err(e)
      case Ok((st', vols')) => UpdateNoteIds(st', ids, k + 1, vols')
  }

  /** `update_notes` from channel `ci` on, each with a fresh volume list. */
  function UpdateNotesFrom(st: PlayerState, ci: nat): (r: Result<PlayerState>)
    requires ci <= |st.channels|
    ensures r.Ok? ==> |r.value.notes| == |st.notes| && |r.value.channels| == |st.channels| && r.value.noteQueue == st.noteQueue
    decreases |st.channels| - ci
    ensures r.Ok? ==> EnabledOnlyDrops(st, r.value)
  {
    if ci == |st.channels| then Ok(st)
    else match UpdateNoteIds(st, st.channels[ci].noteIds, 0, [])
      case Err(e) => Err(e)
      case Ok(st') => UpdateNotesFrom(st', ci + 1)
  }

  /** The destination test holds exactly when the position is at or past the destination in the step's direction. */
  lemma ReachedMeansAtOrPast(n: PlayNote)
    ensures Reached(n) <==> (n.envStep <= 0 && n.envPos <= n.envDest) || (n.envStep >= 0 && n.envPos >= n.envDest)
  {
  }

  /** A released note before RELEASE goes to NOTEOFF at this tick, heading for 0 at its release rate. */
  lemma ReleaseForcesNoteOff(n: PlayNote)
    requires n.noteOff && n.phase.Ord() < Release.Ord()
    ensures var r := EnvelopeStep(n);
      r.phase == NoteOff && r.envDest == 0 &&
      r.envStep == (if n.output.IsPsg() then 16 * (n.envRelease - 0x08) else 2 * (n.envRelease - 0x100))
  {
  }

  /** A move stepping towards the destination ends between the old position and the destination, never past it. */
  lemma MoveNeverOvershoots(n: PlayNote)
    ensures n.envStep >= 0 && n.envPos <= n.envDest ==> n.envPos <= Move(n).envPos <= n.envDest
    ensures n.envStep <= 0 && n.envPos >= n.envDest ==> n.envDest <= Move(n).envPos <= n.envPos
    ensures n.envStep > 0 && n.envPos + n.envStep >= n.envDest ==> Move(n).envPos == n.envDest
    ensures n.envStep < 0 && n.envPos + n.envStep <= n.envDest ==> Move(n).envPos == n.envDest
  {
  }

  /** The envelope never goes back to an earlier phase. */
  lemma PhaseNeverGoesBack(n: PlayNote)
    requires !(Reached(ForceRelease(n)) && ForceRelease(n).phase == NoteOff)
    ensures EnvelopeStep(n).phase.Ord() >= n.phase.Ord()
    ensures EnvelopeStep(n).phase.Ord() <= n.phase.Ord() + 1 || (n.noteOff && EnvelopeStep(n).phase == NoteOff)
  {
  }

  /**
   * The envelope stays within 0..255 (0..510 in half units) when the
   * sustain level fits: at most 255 for a DirectSound note, at most 31 for
   * a PSG note (whose sustain is multiplied by 8).
   */
  ghost predicate EnvelopeInRange(n: PlayNote)
  {
    0 <= n.envPos <= FullPosition && 0 <= n.envDest <= FullPosition &&
    0 <= n.envSustain && (if n.output.IsPsg() then 16 * n.envSustain <= FullPosition else 2 * n.envSustain <= FullPosition)
  }

  /** A move never leaves the interval between the position and the destination. */
  lemma MoveBetween(n: PlayNote)
    ensures var q := Move(n).envPos;
      (n.envPos <= q <= n.envDest) || (n.envDest <= q <= n.envPos) ||
      (n.envStep > 0 && n.envPos > n.envDest && q == n.envPos + n.envStep) ||
      (n.envStep < 0 && n.envPos < n.envDest && q == n.envPos + n.envStep)
  {
  }

  lemma {:induction false} EnvelopeStaysInRange(n: PlayNote)
    requires EnvelopeInRange(n)
    ensures !(Reached(ForceRelease(n)) && ForceRelease(n).phase == NoteOff) ==> EnvelopeInRange(EnvelopeStep(n))
    ensures Reached(ForceRelease(n)) && ForceRelease(n).phase == NoteOff ==> EnvelopeInRange(Move(ForceRelease(n)))
  {
    var f := ForceRelease(n);
    if Reached(f) && f.phase == NoteOff {
      MoveBetween(f);
    } else {
      var g := if Reached(f) then NextPhase(f) else f;
      assert Reached(g) ==> g.envPos == g.envDest || (g.envStep <= 0 && g.envPos <= g.envDest) || (g.envStep >= 0 && g.envPos >= g.envDest) || g.envStep == 0;
      assert EnvelopeInRange(g);
      MoveBetween(g);
    }
  }

  // ---------------------------------------------------------------------
  // update_processor

  /** Whether some channel is still on. */
  predicate AnyEnabled(channels: seq<Channel>)
  {
    exists i :: 0 <= i < |channels| && channels[i].isEnabled
  }

  /**
   * One tick of `update_processor` (without the vibrato update): advance
   * the notes, run the channels, play the queue, step the envelopes; 1 while
   * a channel is on, else 0.
   */
  function ProcessorTick(st: PlayerState, voices: Voices, lookup: PlayNote -> Result<Playback>, fuel: nat): (r: Result<(PlayerState, int)>)
    requires |st.notes| == NoteSlots
    ensures r.Ok? ==> |r.value.0.notes| == NoteSlots && |r.value.0.channels| == |st.channels|
    ensures r.Ok? ==> (r.value.1 == 1 <==> AnyEnabled(r.value.0.channels)) && (r.value.1 == 0 <==> !AnyEnabled(r.value.0.channels))
    ensures r.Ok? ==> EnabledOnlyDrops(st, r.value.0)
  {
    match AdvanceNotesFrom(st.notes, st.channels, 0)
    case Err(e) => Err(e)
    case Ok(notes) => TickChannels(st.(notes := notes), voices, lookup, fuel)
  }

  /** The rest of a tick once the notes have advanced. */
  function TickChannels(st: PlayerState, voices: Voices, lookup: PlayNote -> Result<Playback>, fuel: nat): (r: Result<(PlayerState, int)>)
    requires |st.notes| == NoteSlots
    ensures r.Ok? ==> |r.value.0.notes| == NoteSlots && |r.value.0.channels| == |st.channels|
    ensures r.Ok? ==> (r.value.1 == 1 <==> AnyEnabled(r.value.0.channels)) && (r.value.1 == 0 <==> !AnyEnabled(r.value.0.channels))
    ensures r.Ok? ==> EnabledOnlyDrops(st, r.value.0)
  {
    match UpdateChannelsFrom(st, 0, voices, fuel)
    case Err(e) => Err(e)
    case Ok(st2) => TickPlay(st2, lookup)
  }

  /** The rest of a tick once the channels have run. */
  function TickPlay(st: PlayerState, lookup: PlayNote -> Result<Playback>): (r: Result<(PlayerState, int)>)
    requires |st.notes| == NoteSlots
    ensures r.Ok? ==> |r.value.0.notes| == NoteSlots && |r.value.0.channels| == |st.channels|
    ensures r.Ok? ==> (r.value.1 == 1 <==> AnyEnabled(r.value.0.channels)) && (r.value.1 == 0 <==> !AnyEnabled(r.value.0.channels))
    ensures r.Ok? ==> EnabledOnlyDrops(st, r.value.0)
  {
    match PlayQueue(st, lookup)
    case Err(e) => Err(e)
    case Ok(st3) => TickNotes(st3)
  }

  /** The end of a tick: the envelopes step, and the report whether a channel is still on. */
  function TickNotes(st: PlayerState): (r: Result<(PlayerState, int)>)
    ensures r.Ok? ==> |r.value.0.notes| == |st.notes| && |r.value.0.channels| == |st.channels|
    ensures r.Ok? ==> (r.value.1 == 1 <==> AnyEnabled(r.value.0.channels)) && (r.value.1 == 0 <==> !AnyEnabled(r.value.0.channels))
    ensures r.Ok? ==> EnabledOnlyDrops(st, r.value.0)
  {
    match UpdateNotesFrom(st, 0)
    case Err(e) => Err(e)
    case Ok(st4) => Ok((st4, if AnyEnabled(st4.channels) then 1 else 0))
  }

  /** Once every channel is off, a tick reports 0 and leaves every channel off: nothing switches a channel back on. */
  lemma ProcessorStaysHalted(st: PlayerState, voices: Voices, lookup: PlayNote -> Result<Playback>, fuel: nat)
    requires |st.notes| == NoteSlots && !AnyEnabled(st.channels)
    requires ProcessorTick(st, voices, lookup, fuel).Ok?
    ensures ProcessorTick(st, voices, lookup, fuel).value.1 == 0
    ensures !AnyEnabled(ProcessorTick(st, voices, lookup, fuel).value.0.channels)
  {
  }

  // ---------------------------------------------------------------------
  // The player object

  /** The note `__init__` fills every slot with: all fields 0, switched off. */
  function EmptyNote(): PlayNote
  {
    QueuedNote(0, 0, 0, 0, 0, 0)
  }

  /** Every note switched off, as `reset_player` leaves the slots. */
  function Disabled(notes: seq<PlayNote>): (r: seq<PlayNote>)
    ensures |r| == |notes|
    ensures forall i :: 0 <= i < |notes| ==> !r[i].enable && r[i].(enable := notes[i].enable) == notes[i]
  {
    seq(|notes|, i requires 0 <= i < |notes| => notes[i].(enable := false))
  }

  /** After a reset every slot is free, so the next note takes the highest one. */
  lemma ResetFreesTopSlot(notes: seq<PlayNote>)
    requires |notes| == NoteSlots
    ensures FreeSlot(Disabled(notes)) == Some(NoteSlots - 1)
  {
  }

  /** The fields of `Player` the processor changes are its `State()`; the voice tables and volume stay put. */
  class Player {
    var globalVol: int
    var looped: bool
    var tempo: int
    var transpose: int
    var notes: seq<PlayNote>
    var channels: seq<Channel>
    var noteQueue: seq<PlayNote>
    var psg: map<NoteType, Option<nat>>
    var directs: map<int, NoteType>
    var insts: set<int>
    var drumkits: set<int>

    ghost predicate Valid()
      reads this
    {
      |notes| == NoteSlots
    }

    function State(): PlayerState
      reads this
    {
      PlayerState(looped, tempo, notes, channels, noteQueue, psg)
    }

    function VoiceTable(): Voices
      reads this
    {
      Voices(directs, insts, drumkits)
    }

    /** The fields no processor step changes. */
    ghost function Fixed(): (int, int, Voices)
      reads this
    {
      (globalVol, transpose, VoiceTable())
    }

    /** `__init__`: the volume as given, no channels, 32 switched-off slots, no PSG note, tempo 0. */
    constructor (volume: int)
      ensures Valid() && globalVol == volume && transpose == 0
      ensures State() == PlayerState(false, 0, seq(NoteSlots, _ => EmptyNote()), [], [], NoPsgNotes())
      ensures VoiceTable() == Voices(map[], {}, {})
    {
      globalVol := volume;
      looped := false;
      psg := NoPsgNotes();
      tempo := 0;
      notes := seq(NoteSlots, _ => EmptyNote());
      channels := [];
      directs := map[];
      drumkits := {};
      insts := {};
      noteQueue := [];
      transpose := 0;
    }

    /** The `global_vol` setter: the volume clamped to 0..255. */
    method SetGlobalVol(volume: int)
      modifies this
      ensures globalVol == ClampVolume(volume)
      ensures State() == old(State()) && VoiceTable() == old(VoiceTable()) && transpose == old(transpose)
    {
      if volume < 0 {
        globalVol := 0;
      } else if volume > 255 {
        globalVol := 255;
      } else {
        globalVol := volume;
      }
    }

    /** `reset_player`: channels, voices and queue cleared, every slot switched off, no PSG note, tempo 120. */
    method ResetPlayer()
      requires Valid()
      modifies this
      ensures Valid()
      ensures State() == PlayerState(old(looped), DefaultTempo, Disabled(old(notes)), [], [], NoPsgNotes())
      ensures VoiceTable() == Voices(map[], {}, {})
      ensures globalVol == old(globalVol) && transpose == old(transpose)
    {
      channels := [];
      drumkits := {};
      insts := {};
      directs := map[];
      noteQueue := [];
      for i := NoteSlots downto 0
        invariant |notes| == NoteSlots
        invariant forall j :: 0 <= j < NoteSlots ==> notes[j] == if j >= i then old(notes)[j].(enable := false) else old(notes)[j]
        modifies this`notes
      {
        notes := notes[i := notes[i].(enable := false)];
      }
      psg := NoPsgNotes();
      tempo := DefaultTempo;
    }

    /** `free_note`: the slots from 31 down to 0, the first one switched off. */
    method FreeNote() returns (r: Option<nat>)
      requires Valid()
      ensures r == FreeSlot(notes)
    {
      for i := NoteSlots downto 0
        invariant forall j :: i <= j < NoteSlots ==> notes[j].enable
      {
        if !notes[i].enable {
          return Some(i);
        }
      }
      return None;
    }

    /** `advance_notes`: every slot in turn. */
    method AdvanceNotes() returns (r: Result<()>)
      modifies this`notes
      ensures r.Ok? <==> AdvanceNotesFrom(old(notes), channels, 0).Ok?
      ensures r.Ok? ==> notes == AdvanceNotesFrom(old(notes), channels, 0).value
    {
      for i := 0 to |notes|
        invariant |notes| == |old(notes)|
        invariant AdvanceNotesFrom(notes, channels, i) == AdvanceNotesFrom(old(notes), channels, 0)
      {
        var n := notes[i];
        if n.waitTicks > 0 {
          n := n.(waitTicks := n.waitTicks - 1);
        }
        if n.waitTicks <= 0 && !n.noteOff {
          if n.parent >= |channels| {
            return Err(IndexError);
          }
          if !channels[n.parent].isSustain {
            n := n.(noteOff := true);
          }
        }
        notes := notes[i := n];
      }
      return Ok(());
    }

    /** The opcodes that set one channel field or the tempo (`update_channels`, 0xB9..0xC4 and 0xCD). */
    method ControlOp(cid: nat, ev: ProcEvent)
      requires cid < |channels|
      modifies this`channels, this`tempo
      ensures State() == ControlEvent(old(State()), cid, ev, VoiceTable())
    {
      var c := channels[cid];
      if ev.cmd == Tempo {
        tempo := ev.arg1 * 2;
      } else {
        c := FieldOp(c, ev);
      }
      channels := channels[cid := c.(programCtr := c.programCtr + 1)];
    }

    /** The channel field a control opcode sets. */
    method FieldOp(c: Channel, ev: ProcEvent) returns (c': Channel)
      ensures c' == SetField(c, ev, VoiceTable())
    {
      var a := ev.arg1;
      c' := c;
      if ev.cmd == Prio {
        c' := c.(priority := a);
      } else if ev.cmd == KeySh {
        c' := c.(transpose := ToInt(a));
      } else if ev.cmd == Voice {
        var out: ChannelOutput;
        if a in directs {
          out := Output(directs[a]);
        } else if a in insts {
          out := Multi;
        } else if a in drumkits {
          out := DrumKit;
        } else {
          out := NoOutput;
        }
        c' := c.(patchNum := a, outputType := out);
      } else if ev.cmd == Pan {
        c' := c.(panning := a);
      } else if ev.cmd == Bend {
        c' := c.(pitchBend := a);
      } else if ev.cmd == BendR {
        c' := c.(pitchRange := ToInt(a));
      } else if ev.cmd == Lfos {
        c' := c.(vibRate := a);
      } else if ev.cmd == Mod {
        c' := c.(vibDepth := a);
      }
    }

    /** VOL: the channel volume, then the note volumes of the channel's notes and their mean as its output volume. */
    method VolumeOp(cid: nat, ev: ProcEvent) returns (r: Result<()>)
      requires cid < |channels|
      modifies this`channels
      ensures r.Ok? <==> VolumeEvent(old(State()), cid, ev).Ok?
      ensures r.Ok? ==> State() == VolumeEvent(old(State()), cid, ev).value
    {
      var c := channels[cid].(mainVol := ev.arg1);
      var ids := c.noteIds;
      var vols: seq<int> := [];
      assert ids[0..] == ids;
      PrefixedNothing(ChannelVolumes(notes, ids, cid, c));
      for k := 0 to |ids|
        invariant ChannelVolumes(notes, ids, cid, c) == Prefixed(vols, ChannelVolumes(notes, ids[k..], cid, c))
        modifies {}
      {
        VolumesStep(notes, ids, k, cid, c);
        if ids[k] >= |notes| {
          return Err(IndexError);
        }
        var n := notes[ids[k]];
        if !n.enable || n.parent != cid {
          continue;
        }
        PrefixedAppend(vols, if c.isMuted then 0 else NoteVolume(n.velocity, c.mainVol, n.envPos), ChannelVolumes(notes, ids[k + 1..], cid, c));
        vols := vols + [if c.isMuted then 0 else NoteVolume(n.velocity, c.mainVol, n.envPos)];
      }
      assert ids[|ids|..] == [] && vols + [] == vols;
      assert ChannelVolumes(notes, ids, cid, c) == Ok(vols);
      channels := channels[cid := c.(outputVolume := GetOutputVolume(vols), programCtr := c.programCtr + 1)];
      return Ok(());
    }

    /** `reset_note` on each note id of `ids`, in order. */
    method ReleaseNotes(ids: seq<nat>) returns (ok: bool)
      modifies this`notes
      ensures ok <==> ReleaseIds(old(notes), ids).Ok?
      ensures ok ==> notes == ReleaseIds(old(notes), ids).value
    {
      for k := 0 to |ids|
        invariant |notes| == |old(notes)|
        invariant forall j :: 0 <= j < k ==> ids[j] < |notes|
        invariant forall i :: 0 <= i < |notes| ==> notes[i] == if i in ids[..k] then old(notes)[i].(noteOff := true) else old(notes)[i]
      {
        if ids[k] >= |notes| {
          return false;
        }
        notes := notes[ids[k] := notes[ids[k]].(noteOff := true)];
        assert ids[..k + 1] == ids[..k] + [ids[k]];
      }
      assert ids[..|ids|] == ids;
      return true;
    }

    /** FINE/PREV, PATT, PEND, GOTO and EOT; the flag is set when the channel's loop ends. */
    method FlowOp(cid: nat, ev: ProcEvent) returns (r: Result<bool>)
      requires cid < |channels|
      requires ev.cmd == Fine || ev.cmd == Prev || ev.cmd == Goto || ev.cmd == Patt || ev.cmd == Pend || ev.cmd == Eot
      modifies this`channels, this`notes, this`looped
      ensures r.Ok? <==> FlowEvent(old(State()), cid, ev).Ok?
      ensures r.Ok? ==> State() == FlowEvent(old(State()), cid, ev).value.st && (r.value <==> FlowEvent(old(State()), cid, ev).value.Halt?)
    {
      var c := channels[cid];
      if ev.cmd == Fine || ev.cmd == Prev {
        channels := channels[cid := c.(isEnabled := false, isSustain := false)];
        return Ok(true);
      }
      if ev.cmd == Patt {
        channels := channels[cid := c.(programCtr := ev.evtQPtr, subCtr := c.subCtr + 1, rtnPtr := c.rtnPtr + 1, inSub := true)];
        return Ok(false);
      }
      var ok := ReleaseNotes(c.noteIds);
      if !ok {
        return Err(IndexError);
      }
      if ev.cmd == Pend {
        if c.inSub {
          c := c.(programCtr := c.rtnPtr, inSub := false);
        } else {
          c := c.(programCtr := c.programCtr + 1);
        }
      } else if ev.cmd == Goto {
        looped := true;
        c := c.(inSub := false, programCtr := c.loopPtr, isSustain := false);
      } else {
        c := c.(isSustain := false, programCtr := c.programCtr + 1);
      }
      channels := channels[cid := c];
      return Ok(false);
    }

    /** A note event 0xCF..0xFF: one note queued with the channel's patch; TIE turns sustain on. */
    method NoteOp(cid: nat, ev: ProcEvent)
      requires cid < |channels| && ev.cmd >= Tie
      modifies this`channels, this`noteQueue
      ensures State() == NoteEvent(old(State()), cid, ev)
    {
      var c := channels[cid];
      var ll: int;
      if ev.cmd == Tie {
        c := c.(isSustain := true);
        ll := -1;
      } else {
        ll := NoteLength(ev.cmd);
      }
      noteQueue := noteQueue + [QueuedNote(ev.arg1, ev.arg2, cid, ev.arg3, ll, c.patchNum)];
      channels := channels[cid := c.(programCtr := c.programCtr + 1)];
    }

    /** A wait event 0x80..0xB0 (and any byte below it). */
    method WaitOp(cid: nat, ev: ProcEvent) returns (r: Result<()>)
      requires cid < |channels|
      modifies this`channels, this`looped
      ensures r.Ok? <==> WaitEvent(old(State()), cid, ev).Ok?
      ensures r.Ok? ==> State() == WaitEvent(old(State()), cid, ev).value
    {
      var c := channels[cid];
      if looped {
        looped := false;
        channels := channels[cid := c.(waitTicks := 0)];
        return Ok(());
      }
      var pc := c.programCtr + 1;
      var next := PyIndex(c.events, pc);
      if next.None? {
        return Err(IndexError);
      }
      var w := if pc > 0 then next.value.ticks - ev.ticks else next.value.ticks;
      channels := channels[cid := c.(programCtr := pc, waitTicks := w)];
      return Ok(());
    }

    /** One pass of the `while chan.wait_ticks <= 0` loop; the flag is set when the loop ends. */
    method ExecuteEvent(cid: nat) returns (r: Result<bool>)
      requires cid < |channels|
      modifies this`channels, this`notes, this`looped, this`tempo, this`noteQueue
      ensures r.Ok? <==> ExecEvent(old(State()), cid, VoiceTable()).Ok?
      ensures r.Ok? ==> State() == ExecEvent(old(State()), cid, VoiceTable()).value.st
      ensures r.Ok? ==> (r.value <==> ExecEvent(old(State()), cid, VoiceTable()).value.Halt?)
    {
      var c := channels[cid];
      var current := PyIndex(c.events, c.programCtr);
      if current.None? {
        return Err(IndexError);
      }
      var ev := current.value;
      if ev.cmd == Fine || ev.cmd == Prev || ev.cmd == Goto || ev.cmd == Patt || ev.cmd == Pend || ev.cmd == Eot {
        r := FlowOp(cid, ev);
      } else if ev.cmd == Vol {
        var v := VolumeOp(cid, ev);
        r := if v.Ok? then Ok(false) else Err(v.error);
      } else if ev.cmd >= Tie {
        NoteOp(cid, ev);
        r := Ok(false);
      } else if ev.cmd <= W96 {
        var v := WaitOp(cid, ev);
        r := if v.Ok? then Ok(false) else Err(v.error);
      } else {
        ControlOp(cid, ev);
        r := Ok(false);
      }
    }

    /** One channel of `update_channels`: skipped when off, one tick off its wait, then its event loop. */
    method UpdateOneChannel(cid: nat, fuel: nat) returns (r: Result<()>)
      requires cid < |channels|
      modifies this`channels, this`notes, this`looped, this`tempo, this`noteQueue
      ensures r.Ok? <==> UpdateChannel(old(State()), cid, VoiceTable(), fuel).Ok?
      ensures r.Ok? ==> State() == UpdateChannel(old(State()), cid, VoiceTable(), fuel).value
    {
      var c := channels[cid];
      if !c.isEnabled {
        return Ok(());
      }
      if c.waitTicks > 0 {
        channels := channels[cid := c.(waitTicks := c.waitTicks - 1)];
      }
      assert State() == SetChannel(old(State()), cid, if c.waitTicks > 0 then c.(waitTicks := c.waitTicks - 1) else c);
      r := ChannelLoop(cid, fuel);
    }

    /** The `while chan.wait_ticks <= 0` loop of one channel; `fuel` bounds its passes. */
    method ChannelLoop(cid: nat, fuel: nat) returns (r: Result<()>)
      requires cid < |channels|
      modifies this`channels, this`notes, this`looped, this`tempo, this`noteQueue
      ensures r.Ok? <==> RunChannelLoop(old(State()), cid, VoiceTable(), fuel).Ok?
      ensures r.Ok? ==> State() == RunChannelLoop(old(State()), cid, VoiceTable(), fuel).value
    {
      ghost var voices, goal := VoiceTable(), RunChannelLoop(old(State()), cid, VoiceTable(), fuel);
      var n := fuel;
      while channels[cid].waitTicks <= 0
        invariant |channels| == |old(channels)| && voices == VoiceTable()
        invariant RunChannelLoop(State(), cid, voices, n) == goal
        decreases n
      {
        if n == 0 {
          return Err(OutOfFuel);
        }
        ghost var st := State();
        RunChannelLoopStep(st, cid, voices, n);
        var e := ExecuteEvent(cid);
        if e.Err? {
          return Err(e.error);
        }
        assert State() == ExecEvent(st, cid, voices).value.st;
        if e.value {
          return Ok(());
        }
        n := n - 1;
      }
      return Ok(());
    }

    /** `update_channels`: every channel in order. */
    method UpdateChannels(fuel: nat) returns (r: Result<()>)
      modifies this`channels, this`notes, this`looped, this`tempo, this`noteQueue
      ensures r.Ok? <==> UpdateChannelsFrom(old(State()), 0, VoiceTable(), fuel).Ok?
      ensures r.Ok? ==> State() == UpdateChannelsFrom(old(State()), 0, VoiceTable(), fuel).value
    {
      ghost var voices := VoiceTable();
      ghost var goal := UpdateChannelsFrom(State(), 0, voices, fuel);
      for cid := 0 to |channels|
        invariant |channels| == |old(channels)| && VoiceTable() == voices
        invariant UpdateChannelsFrom(State(), cid, voices, fuel) == goal
      {
        ghost var st := State();
        r := UpdateOneChannel(cid, fuel);
        if r.Err? {
          return;
        }
        assert State() == UpdateChannel(st, cid, voices, fuel).value;
      }
      return Ok(());
    }

    /** `reset_note` on each timed-out note of `ids`, in order (the loop at the head of `play_notes`). */
    method CutTimedOutNotes(ids: seq<nat>, sustain: bool) returns (ok: bool)
      modifies this`notes
      ensures ok <==> CutTimedOut(old(notes), ids, sustain).Ok?
      ensures ok ==> notes == CutTimedOut(old(notes), ids, sustain).value
    {
      for k := 0 to |ids|
        invariant |notes| == |old(notes)|
        invariant forall j :: 0 <= j < k ==> ids[j] < |notes|
        invariant forall i :: 0 <= i < |notes| ==>
          notes[i] == if i in ids[..k] && TimedOut(old(notes)[i], sustain) then old(notes)[i].(noteOff := true) else old(notes)[i]
      {
        if ids[k] >= |notes| {
          return false;
        }
        var n := notes[ids[k]];
        if n.enable && !n.noteOff {
          if n.waitTicks == -1 && !sustain {
            notes := notes[ids[k] := n.(noteOff := true)];
          } else if n.waitTicks == 0 || n.waitTicks == 1 {
            notes := notes[ids[k] := n.(noteOff := true)];
          }
        }
        assert ids[..k + 1] == ids[..k] + [ids[k]];
      }
      assert ids[..|ids|] == ids;
      return true;
    }

    /** A queued note put into free slot `slot`, its channel's timed-out notes cut, slot and key recorded. */
    method RecordInSlot(slot: nat, item: PlayNote) returns (r: Result<()>)
      requires slot < |notes|
      modifies this`notes, this`channels
      ensures r.Ok? <==> RecordNote(old(State()), slot, item).Ok?
      ensures r.Ok? ==> State() == RecordNote(old(State()), slot, item).value
    {
      notes := notes[slot := item.(enable := true)];
      if item.parent >= |channels| {
        return Err(IndexError);
      }
      var chan := channels[item.parent];
      var ok := CutTimedOutNotes(chan.noteIds, chan.isSustain);
      if !ok {
        return Err(IndexError);
      }
      var ids := chan.noteIds;
      if slot !in ids {
        ids := ids + [slot];
      }
      var playing := chan.notesPlaying;
      if notes[slot].noteNum !in playing {
        playing := playing + [notes[slot].noteNum];
      }
      channels := channels[item.parent := chan.(noteIds := ids, notesPlaying := playing)];
      return Ok(());
    }

    /** The note holding PSG channel `t`, if any, switched off and deleted from its channel's notes. */
    method StopPsgChannel(t: NoteType) returns (r: Result<()>)
      modifies this`notes, this`channels
      ensures r.Ok? <==> StopPsgNote(old(State()), t).Ok?
      ensures r.Ok? ==> State() == StopPsgNote(old(State()), t).value
    {
      var held := PsgGet(psg, t);
      if held.None? {
        return Ok(());
      }
      var p := held.value;
      if p >= |notes| {
        return Err(IndexError);
      }
      var gb := notes[p];
      if gb.parent >= |channels| {
        return Err(IndexError);
      }
      var c := channels[gb.parent];
      if p !in c.noteIds {
        return Err(KeyError);
      }
      channels := channels[gb.parent := c.(noteIds := Without(c.noteIds, p))];
      notes := notes[p := gb.(enable := false)];
      return Ok(());
    }

    /** The second half of one queued note: PSG channel taken over, phase INITIAL, start volume recorded. */
    method StartInSlot(vols: seq<seq<int>>, slot: nat, parent: nat, volume: int) returns (r: Result<seq<seq<int>>>)
      requires slot < |notes| && parent < |vols| == |channels|
      modifies this`notes, this`channels, this`psg
      ensures var e := StartNote(old(State()), vols, slot, parent, volume);
        (r.Ok? <==> e.Ok?) && (r.Ok? ==> State() == e.value.0 && r.value == e.value.1)
    {
      var out := notes[slot].output;
      var stopped := StopPsgChannel(out);
      if stopped.Err? {
        return Err(stopped.error);
      }
      psg := ClaimPsg(psg, out, slot);
      notes := notes[slot := notes[slot].(phase := Initial)];
      return Ok(vols[parent := vols[parent] + [volume]]);
    }

    /** One item of the note queue; the flag is set when `play_notes` returns early for want of a sample. */
    method PlayQueued(vols: seq<seq<int>>, item: PlayNote, lookup: PlayNote -> Result<Playback>) returns (r: Result<(bool, seq<seq<int>>)>)
      requires Valid() && |vols| == |channels|
      modifies this`notes, this`channels, this`psg
      ensures var e := PlayItem(old(State()), vols, item, lookup);
        (r.Ok? <==> e.Ok?) &&
        (r.Ok? ==> State() == e.value.st && (r.value.0 <==> e.value.Stopped?) && (e.value.Played? ==> r.value.1 == e.value.vols))
    {
      var free := FreeNote();
      if free.None? {
        return Ok((false, vols));
      }
      var slot := free.value;
      var placed := RecordInSlot(slot, item);
      if placed.Err? {
        return Err(placed.error);
      }
      var chan := channels[item.parent];
      var pb := lookup(notes[slot]);
      if pb.Err? {
        return Err(pb.error);
      }
      notes := notes[slot := SetNote(notes[slot], pb.value.direct)];
      if !pb.value.hasSample {
        return Ok((true, vols));
      }
      var volume := if chan.isMuted then 0 else StartVolume(item.velocity, chan.mainVol);
      var started := StartInSlot(vols, slot, item.parent, volume);
      if started.Err? {
        return Err(started.error);
      }
      return Ok((false, started.value));
    }

    /** `play_notes`: every queued note, then each channel's output volume, then the queue cleared. */
    method PlayNotes(lookup: PlayNote -> Result<Playback>) returns (r: Result<()>)
      requires Valid()
      modifies this`notes, this`channels, this`psg, this`noteQueue
      ensures r.Ok? <==> PlayQueue(old(State()), lookup).Ok?
      ensures r.Ok? ==> State() == PlayQueue(old(State()), lookup).value
    {
      var queue := noteQueue;
      var vols: seq<seq<int>> := seq(|channels|, _ => []);
      for k := 0 to |queue|
        invariant Valid() && |vols| == |channels| && noteQueue == queue
        invariant PlayNotesFrom(State(), queue, vols, k, lookup) == PlayQueue(old(State()), lookup)
      {
        var step := PlayQueued(vols, queue[k], lookup);
        if step.Err? {
          return Err(step.error);
        }
        if step.value.0 {
          return Ok(());
        }
        vols := step.value.1;
      }
      ghost var played := State();
      for i := 0 to |channels|
        invariant |channels| == |vols| && State() == played.(channels := channels)
        invariant forall j :: 0 <= j < |channels| ==>
          channels[j] == if j < i then played.channels[j].(outputVolume := GetOutputVolume(vols[j])) else played.channels[j]
      {
        channels := channels[i := channels[i].(outputVolume := GetOutputVolume(vols[i]))];
      }
      noteQueue := [];
      return Ok(());
    }

    /** One note id of `update_notes`; returns the volume list with this note's volume added. */
    method UpdateOneNote(nid: nat, vols: seq<int>) returns (r: Result<seq<int>>)
      requires nid < |notes|
      modifies this`notes, this`channels, this`psg
      ensures var e := UpdateNote(old(State()), nid, vols);
        (r.Ok? <==> e.Ok?) && (r.Ok? ==> State() == e.value.0 && r.value == e.value.1)
    {
      if !notes[nid].enable {
        return Ok(vols);
      }
      var p := notes[nid].parent;
      if p >= |channels| {
        return Err(IndexError);
      }
      var stepped := StepOneNote(nid);
      if stepped.Err? {
        return Err(stepped.error);
      }
      var n := notes[nid];
      var c := channels[p];
      var vols' := vols;
      if !c.isMuted {
        vols' := vols + [NoteVolume(n.velocity, c.mainVol, n.envPos)];
      }
      channels := channels[p := c.(outputVolume := GetOutputVolume(vols'))];
      return Ok(vols');
    }

    /** The envelope of one enabled note: forced release, phase change at the destination, or its end at NOTEOFF; then one move. */
    method StepOneNote(nid: nat) returns (r: Result<()>)
      requires nid < |notes| && notes[nid].parent < |channels|
      modifies this`notes, this`channels, this`psg
      ensures r.Ok? <==> StepNote(old(State()), nid).Ok?
      ensures r.Ok? ==> State() == StepNote(old(State()), nid).value
    {
      var n := notes[nid];
      var p := n.parent;
      if n.noteOff && n.phase.Ord() < Release.Ord() {
        n := n.(envStep := 0, phase := Release);
      }
      if Reached(n) {
        if n.phase == NoteOff {
          if n.output.IsPsg() {
            psg := psg[n.output := None];
          }
          n := n.(noteOff := true);
          var c := channels[p];
          if nid !in c.noteIds {
            return Err(KeyError);
          }
          channels := channels[p := c.(noteIds := Without(c.noteIds, nid), notesPlaying := RemoveFirst(c.notesPlaying, n.noteNum))];
          n := n.(enable := false);
        } else {
          n := NextPhase(n);
        }
      }
      notes := notes[nid := Move(n)];
      return Ok(());
    }

    /** The inner loop of `update_notes` over a copy of one channel's note ids. */
    method UpdateNoteList(ids: seq<nat>) returns (r: Result<()>)
      modifies this`notes, this`channels, this`psg
      ensures r.Ok? <==> UpdateNoteIds(old(State()), ids, 0, []).Ok?
      ensures r.Ok? ==> State() == UpdateNoteIds(old(State()), ids, 0, []).value
    {
      var vols: seq<int> := [];
      for k := 0 to |ids|
        invariant UpdateNoteIds(State(), ids, k, vols) == UpdateNoteIds(old(State()), ids, 0, [])
      {
        if ids[k] >= |notes| {
          return Err(IndexError);
        }
        var v := UpdateOneNote(ids[k], vols);
        if v.Err? {
          return Err(v.error);
        }
        vols := v.value;
      }
      return Ok(());
    }

    /** `update_notes`: the notes of every channel in order. */
    method UpdateNotes() returns (r: Result<()>)
      modifies this`notes, this`channels, this`psg
      ensures r.Ok? <==> UpdateNotesFrom(old(State()), 0).Ok?
      ensures r.Ok? ==> State() == UpdateNotesFrom(old(State()), 0).value
    {
      for ci := 0 to |channels|
        invariant |channels| == |old(channels)|
        invariant UpdateNotesFrom(State(), ci) == UpdateNotesFrom(old(State()), 0)
      {
        r := UpdateNoteList(channels[ci].noteIds);
        if r.Err? {
          return;
        }
      }
      return Ok(());
    }

    /** `update_processor` (without the vibrato update): 1 while some channel is on, else 0. */
    method UpdateProcessor(lookup: PlayNote -> Result<Playback>, fuel: nat) returns (r: Result<int>)
      requires Valid()
      modifies this`notes, this`channels, this`psg, this`noteQueue, this`looped, this`tempo
      ensures var e := ProcessorTick(old(State()), VoiceTable(), lookup, fuel);
        (r.Ok? <==> e.Ok?) && (r.Ok? ==> State() == e.value.0 && r.value == e.value.1)
    {
      var a := AdvanceNotes();
      if a.Err? {
        return Err(a.error);
      }
      r := FinishTick(lookup, fuel);
    }

    /** The steps of `update_processor` after `advance_notes`. */
    method FinishTick(lookup: PlayNote -> Result<Playback>, fuel: nat) returns (r: Result<int>)
      requires Valid()
      modifies this`notes, this`channels, this`psg, this`noteQueue, this`looped, this`tempo
      ensures var e := TickChannels(old(State()), VoiceTable(), lookup, fuel);
        (r.Ok? <==> e.Ok?) && (r.Ok? ==> State() == e.value.0 && r.value == e.value.1)
    {
      var u := UpdateChannels(fuel);
      if u.Err? {
        return Err(u.error);
      }
      var pl := PlayNotes(lookup);
      if pl.Err? {
        return Err(pl.error);
      }
      r := FinalTick();
    }

    /** `update_notes`, then 1 if a channel is still on, else 0. */
    method FinalTick() returns (r: Result<int>)
      modifies this`notes, this`channels, this`psg
      ensures var e := TickNotes(old(State()));
        (r.Ok? <==> e.Ok?) && (r.Ok? ==> State() == e.value.0 && r.value == e.value.1)
    {
      var un := UpdateNotes();
      if un.Err? {
        return Err(un.error);
      }
      for i := 0 to |channels|
        invariant forall j :: 0 <= j < i ==> !channels[j].isEnabled
      {
        if channels[i].isEnabled {
          return Ok(1);
        }
      }
      return Ok(0);
    }
  }

  /** The values `v` followed by a result's values; errors pass through. */
  function Prefixed(v: seq<int>, r: Result<seq<int>>): Result<seq<int>>
  {
    match r
    case Err(e) => Err(e)
    case Ok(x) => Ok(v + x)
  }

  lemma VolumesStep(notes: seq<PlayNote>, ids: seq<nat>, k: nat, cid: nat, c: Channel)
    requires k < |ids|
    ensures ids[k] >= |notes| ==> ChannelVolumes(notes, ids[k..], cid, c).Err?
    ensures ids[k] < |notes| && (!notes[ids[k]].enable || notes[ids[k]].parent != cid) ==>
      ChannelVolumes(notes, ids[k..], cid, c) == ChannelVolumes(notes, ids[k + 1..], cid, c)
    ensures ids[k] < |notes| && notes[ids[k]].enable && notes[ids[k]].parent == cid ==>
      var n := notes[ids[k]];
      ChannelVolumes(notes, ids[k..], cid, c) ==
        Prefixed([if c.isMuted then 0 else NoteVolume(n.velocity, c.mainVol, n.envPos)], ChannelVolumes(notes, ids[k + 1..], cid, c))
  {
    assert ids[k..][1..] == ids[k + 1..];
  }

  lemma PrefixedNothing(r: Result<seq<int>>)
    ensures Prefixed([], r) == r
  {
    if r.Ok? {
      assert [] + r.value == r.value;
    }
  }

  lemma PrefixedAppend(v: seq<int>, x: int, r: Result<seq<int>>)
    ensures Prefixed(v, Prefixed([x], r)) == Prefixed(v + [x], r)
  {
    if r.Ok? {
      assert v + ([x] + r.value) == (v + [x]) + r.value;
    }
  }
}
