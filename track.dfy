/**
 * `M4ATrack` of sappy/m4a.py as an object: calling a command on it
 * (`cmd(track)` in sappy/cmd.py) and its per-tick `update`, which runs
 * commands until the track waits or stops and then updates its notes.
 *
 * `update` has no bound on the commands it runs in one tick: a track whose
 * loop holds no WAIT never leaves it. The model runs at most `fuel`
 * commands per tick and reports `OutOfFuel` past that.
 */
module Track {
  import opened Wrappers
  import InstSet
  import opened M4aTrack
  import opened Cmd

  /** `M4ATrack.TEMPO` and `M4ATrack.KEY_SHIFT`: class attributes every track shares. */
  class TrackGlobals {
    var tempo: int
    var keyShift: int

    function Snapshot(): Globals
      reads this
    {
      Globals(tempo, keyShift)
    }

    constructor ()
      ensures Snapshot() == InitialGlobals
    {
      tempo := 75;
      keyShift := 0;
    }
  }

  /** The commands one tick runs: while the track is enabled and not waiting, the command at `pc`. */
  function RunLoop(commands: seq<Option<Command>>, addresses: seq<int>, s: TrackState, g: Globals, fuel: nat)
    : (r: Result<(TrackState, Globals)>)
    ensures r.Ok? ==> |r.value.0.notes| == |s.notes|
    ensures r.Ok? && |s.callStack| <= CallStackSize ==> |r.value.0.callStack| <= CallStackSize
    decreases fuel
  {
    if s.ticks != 0 || !s.enabled then Ok((s, g))
    else if fuel == 0 then Err(OutOfFuel)
    else if s.pc >= |commands| then Err(IndexError)
    else match commands[s.pc]
      case None => Err(TypeError)
      case Some(c) =>
        match Exec(c, addresses, s, g)
        case Err(e) => Err(e)
        case Ok(next) => RunLoop(commands, addresses, next.0, next.1, fuel - 1)
  }

  /** The counters at the start of a tick: a positive wait counts down, and at 0 the base counter catches up. */
  function Tick(s: TrackState): (s': TrackState)
    ensures s.ticks > 0 ==> s'.ticks == s.ticks - 1
    ensures s.ticks <= 0 ==> s'.ticks == s.ticks
    ensures s'.base == (if s'.ticks == 0 then s.pc else s.base)
    ensures s' == s.(ticks := s'.ticks, base := s'.base)
  {
    var t := if s.ticks > 0 then s.ticks - 1 else s.ticks;
    if t == 0 then s.(ticks := t, base := s.pc) else s.(ticks := t)
  }

  /** `M4ATrack.update`. */
  function UpdateSpec(commands: seq<Option<Command>>, addresses: seq<int>, s: TrackState, g: Globals, fuel: nat)
    : (r: Result<(TrackState, Globals)>)
    ensures r.Ok? ==> |r.value.0.notes| == |s.notes|
    ensures r.Ok? && |s.callStack| <= CallStackSize ==> |r.value.0.callStack| <= CallStackSize
  {
    if !s.enabled then Ok((s, g))
    else
      match RunLoop(commands, addresses, Tick(s), g, fuel)
      case Err(e) => Err(e)
      case Ok(run) =>
        match UpdateAll(run.0.notes)
        case Err(e) => Err(e)
        case Ok(ns) => Ok((run.0.(notes := ns), run.1))
  }

  /** A disabled track (after FINE or PREV) is left exactly as it is by every later tick. */
  lemma DisabledTrackIsUntouched(commands: seq<Option<Command>>, addresses: seq<int>, s: TrackState, g: Globals, fuel: nat)
    requires !s.enabled
    ensures UpdateSpec(commands, addresses, s, g, fuel) == Ok((s, g))
  {
  }

  /** Running commands stops only once the track waits or is disabled. */
  lemma {:induction false} RunLoopStopsWaitingOrDisabled(
    commands: seq<Option<Command>>, addresses: seq<int>, s: TrackState, g: Globals, fuel: nat)
    requires RunLoop(commands, addresses, s, g, fuel).Ok?
    ensures var (s', _) := RunLoop(commands, addresses, s, g, fuel).value;
      s'.ticks != 0 || !s'.enabled
    decreases fuel
  {
    if s.ticks == 0 && s.enabled {
      var next := Exec(commands[s.pc].value, addresses, s, g).value;
      RunLoopStopsWaitingOrDisabled(commands, addresses, next.0, next.1, fuel - 1);
    }
  }

  /** After a successful tick the track is waiting or disabled. */
  lemma UpdateEndsWaitingOrDisabled(commands: seq<Option<Command>>, addresses: seq<int>, s: TrackState, g: Globals, fuel: nat)
    requires UpdateSpec(commands, addresses, s, g, fuel).Ok?
    ensures var (s', _) := UpdateSpec(commands, addresses, s, g, fuel).value;
      s'.ticks != 0 || !s'.enabled
  {
    if s.enabled {
      RunLoopStopsWaitingOrDisabled(commands, addresses, Tick(s), g, fuel);
    }
  }

  /**
   * While a wait of more than one tick is pending, a tick runs no command:
   * it only counts the wait down and updates the notes.
   */
  lemma WaitingTrackRunsNoCommand(commands: seq<Option<Command>>, addresses: seq<int>, s: TrackState, g: Globals, fuel: nat)
    requires s.enabled && s.ticks > 1
    ensures UpdateSpec(commands, addresses, s, g, fuel) ==
      match UpdateAll(s.notes)
      case Err(e) => Err(e)
      case Ok(ns) => Ok((s.(ticks := s.ticks - 1, notes := ns), g))
  {
  }

  /**
   * A GOTO to its own address with no WAIT between never lets the tick end:
   * whatever the fuel, the loop does not stop by itself.
   */
  lemma {:induction false} SelfGotoNeverEnds(
    commands: seq<Option<Command>>, addresses: seq<int>, s: TrackState, g: Globals, fuel: nat)
    requires s.enabled && s.ticks == 0 && s.pc < |commands| && s.pc < |addresses|
    requires commands[s.pc] == Some(Goto(addresses[s.pc]))
    requires forall i :: 0 <= i < s.pc ==> addresses[i] != addresses[s.pc]
    ensures RunLoop(commands, addresses, s, g, fuel) == Err(OutOfFuel)
    decreases fuel
  {
    if fuel > 0 {
      GotoJumps(addresses[s.pc], addresses, s, g);
      var next := Exec(Goto(addresses[s.pc]), addresses, s, g).value;
      assert next.0 == s.(base := s.pc);
      SelfGotoNeverEnds(commands, addresses, next.0, next.1, fuel - 1);
    }
  }

  /** Whether an error and a new state are the outcome `r` describes. */
  predicate Outcome(r: Result<(TrackState, Globals)>, err: Option<Error>, s: TrackState, g: Globals)
  {
    && (err.None? <==> r.Ok?)
    && (err.Some? ==> r.Err? && err.value == r.error)
    && (err.None? ==> r.Ok? && s == r.value.0 && g == r.value.1)
  }

  /** The track's command map read into two parallel sequences, as `keys()` and `values()` do. */
  function Addresses(trackData: seq<(int, Option<Command>)>): (r: seq<int>)
    ensures |r| == |trackData| && forall i :: 0 <= i < |r| ==> r[i] == trackData[i].0
  {
    seq(|trackData|, i requires 0 <= i < |trackData| => trackData[i].0)
  }

  function Commands(trackData: seq<(int, Option<Command>)>): (r: seq<Option<Command>>)
    ensures |r| == |trackData| && forall i :: 0 <= i < |r| ==> r[i] == trackData[i].1
  {
    seq(|trackData|, i requires 0 <= i < |trackData| => trackData[i].1)
  }

  class M4ATrack {
    const cmdAddresses: seq<int>
    const commands: seq<Option<Command>>
    const globals: TrackGlobals

    var enabled: bool
    var notes: seq<NoteState>
    var noteQueue: seq<NoteState>
    var callStack: seq<nat>
    var voice: int
    var volume: int
    var panning: int
    var pitchBend: int
    var pitchRange: int
    var mod: int
    var lfoSpeed: int
    var priority: Option<int>
    var ticks: int
    var pc: nat
    var base: nat

    function State(): TrackState
      reads this
    {
      TrackState(enabled, notes, noteQueue, callStack, voice, volume, panning, pitchBend, pitchRange,
                 mod, lfoSpeed, priority, ticks, pc, base)
    }

    /** `M4ATrack(track_data)`: a blank track over the given command map. */
    constructor (trackData: seq<(int, Option<Command>)>, globals: TrackGlobals)
      ensures State() == InitialTrackState()
      ensures cmdAddresses == Addresses(trackData) && commands == Commands(trackData)
      ensures this.globals == globals
    {
      cmdAddresses := Addresses(trackData);
      commands := Commands(trackData);
      this.globals := globals;
      enabled := true;
      notes := [];
      noteQueue := [];
      callStack := [];
      voice := NoVoice;
      volume := InstSet.Mxv;
      panning := InstSet.CentreValue;
      pitchBend := InstSet.CentreValue;
      pitchRange := 2;
      mod := 0;
      lfoSpeed := 0;
      priority := None;
      ticks := 0;
      pc := 0;
      base := 0;
    }

    /** EOT's loop: release each matching note in turn. */
    method ReleaseNotes(key: Option<int>) returns (err: Option<Error>)
      modifies this
      ensures err.None? <==> ReleaseMatching(old(notes), key).Ok?
      ensures err.Some? ==> err.value == AttributeError
      ensures err.None? ==> State() == old(State()).(notes := ReleaseMatching(old(notes), key).value)
    {
      ghost var pre := notes;
      EotReleasesOnlyMatching(pre, key);
      var i := 0;
      while i < |notes|
        invariant 0 <= i <= |notes| == |pre|
        invariant forall j :: 0 <= j < i && EotMatches(key, pre[j]) ==>
                    pre[j].envelope.Some? && notes[j] == ReleaseNote(pre[j]).value
        invariant forall j :: 0 <= j < i && !EotMatches(key, pre[j]) ==> notes[j] == pre[j]
        invariant forall j :: i <= j < |notes| ==> notes[j] == pre[j]
        invariant State() == old(State()).(notes := notes)
      {
        if EotMatches(key, notes[i]) {
          var r := ReleaseNote(notes[i]);
          if r.Err? {
            return Some(AttributeError);
          }
          notes := notes[i := r.value];
        }
        i := i + 1;
      }
      assert notes == ReleaseMatching(pre, key).value;
      return None;
    }

    /** VOL's loop: every note's volume reads its envelope, which a note may not have yet. */
    method CheckEnvelopes() returns (err: Option<Error>)
      ensures err.None? <==> forall i :: 0 <= i < |notes| ==> notes[i].envelope.Some?
      ensures err.Some? ==> err.value == AttributeError
    {
      var i := 0;
      while i < |notes|
        invariant 0 <= i <= |notes|
        invariant forall j :: 0 <= j < i ==> notes[j].envelope.Some?
      {
        if notes[i].envelope.None? {
          return Some(AttributeError);
        }
        i := i + 1;
      }
      return None;
    }

    /** `cmd(track)`: the track and the shared attributes become what `Exec` says. */
    method Call(cmd: Command) returns (err: Option<Error>)
      modifies this, globals
      ensures Outcome(Exec(cmd, cmdAddresses, old(State()), old(globals.Snapshot())), err, State(), globals.Snapshot())
    {
      if cmd.Goto? || cmd.Patt? || cmd.Pend? {
        err := CallFlow(cmd);
      } else if cmd.Vol? || cmd.Eot? || cmd.Note? {
        err := CallNotes(cmd);
      } else if cmd.Tempo? || cmd.KeySh? {
        err := CallGlobals(cmd);
      } else if IsSetting(cmd) {
        err := CallSettings(cmd);
      } else {
        err := CallSteps(cmd);
      }
    }

    /** The commands that move the program counter elsewhere: GOTO, PATT and PEND. */
    method CallFlow(cmd: Command) returns (err: Option<Error>)
      requires cmd.Goto? || cmd.Patt? || cmd.Pend?
      modifies this
      ensures Outcome(Exec(cmd, cmdAddresses, old(State()), globals.Snapshot()), err, State(), globals.Snapshot())
    {
      err := None;
      match cmd {
        case Goto(p) =>
          var i := IndexOf(cmdAddresses, p);
          if i.None? {
            return Some(ValueError);
          }
          pc := i.value;
          base := i.value;
        case Patt(p) =>
          if |callStack| >= CallStackSize {
            return Some(QueueFull);
          }
          callStack := callStack + [pc];
          var i := IndexOf(cmdAddresses, p);
          if i.None? {
            return Some(ValueError);
          }
          pc := i.value;
          base := i.value;
        case Pend =>
          if |callStack| > 0 {
            var r := callStack[0];
            callStack := callStack[1..];
            pc := r;
            base := r;
          }
          pc := pc + 1;
      }
    }

    /** The commands that read or add notes: VOL, EOT and NOTE. */
    method CallNotes(cmd: Command) returns (err: Option<Error>)
      requires cmd.Vol? || cmd.Eot? || cmd.Note?
      modifies this
      ensures Outcome(Exec(cmd, cmdAddresses, old(State()), globals.Snapshot()), err, State(), globals.Snapshot())
    {
      if cmd.Vol? {
        err := CallVol(cmd);
      } else if cmd.Eot? {
        err := CallEot(cmd);
      } else {
        err := CallNote(cmd);
      }
    }

    /** VOL: the new volume, then the envelope check of every note. */
    method CallVol(cmd: Command) returns (err: Option<Error>)
      requires cmd.Vol?
      modifies this
      ensures Outcome(Exec(cmd, cmdAddresses, old(State()), globals.Snapshot()), err, State(), globals.Snapshot())
    {
      volume := cmd.volume;
      err := CheckEnvelopes();
      assert old(State()).notes == notes;
      if err.Some? {
        return;
      }
      pc := pc + 1;
    }

    /** EOT: the notes of the key (or every note) are released. */
    method CallEot(cmd: Command) returns (err: Option<Error>)
      requires cmd.Eot?
      modifies this
      ensures Outcome(Exec(cmd, cmdAddresses, old(State()), globals.Snapshot()), err, State(), globals.Snapshot())
    {
      EotReleasesOnlyMatching(notes, cmd.releaseKey);
      err := ReleaseNotes(cmd.releaseKey);
      if err.Some? {
        return;
      }
      pc := pc + 1;
    }

    /** NOTE: a new note state joins the queue, once the key and velocity are checked. */
    method CallNote(cmd: Command) returns (err: Option<Error>)
      requires cmd.Note?
      modifies this
      ensures Outcome(Exec(cmd, cmdAddresses, old(State()), globals.Snapshot()), err, State(), globals.Snapshot())
    {
      var key, vel := cmd.key, cmd.velocity;
      if !InstSet.IsKey(key) || !InstSet.IsVelocity(vel) {
        return Some(ValueError);
      }
      noteQueue := noteQueue + [NewNoteState(cmd.noteTicks, key, vel, voice)];
      pc := pc + 1;
      err := None;
    }

    /** The commands that only step on, or stop the track, or set its tick counter. */
    method CallSteps(cmd: Command) returns (err: Option<Error>)
      requires IsStep(cmd)
      modifies this
      ensures Outcome(Exec(cmd, cmdAddresses, old(State()), globals.Snapshot()), err, State(), globals.Snapshot())
    {
      err := None;
      ghost var s0 := State();
      ghost var next := s0.(pc := s0.pc + 1);
      match cmd {
        case Wait(_, t) => ticks := t;
        case Fine => enabled := false;
        case Prev => enabled := false;
        case Rept(_, _) =>
        case MemAcc(_, _, _) =>
        case LfoDl(_) =>
        case ModT(_) =>
        case Tune(_) =>
        case XCmd(_, _) =>
      }
      pc := pc + 1;
      assert State() == StepFields(cmd, next);
      ExecStep(cmd, cmdAddresses, s0, globals.Snapshot());
    }

    /** TEMPO and KEYSH: they set the class attributes every track shares. */
    method CallGlobals(cmd: Command) returns (err: Option<Error>)
      requires cmd.Tempo? || cmd.KeySh?
      modifies this, globals
      ensures Outcome(Exec(cmd, cmdAddresses, old(State()), old(globals.Snapshot())), err, State(), globals.Snapshot())
    {
      err := None;
      if cmd.Tempo? {
        globals.tempo := cmd.tempo;
      } else {
        globals.keyShift := cmd.keyShift;
      }
      pc := pc + 1;
    }

    /** The commands that set one field of the track. */
    method CallSettings(cmd: Command) returns (err: Option<Error>)
      requires IsSetting(cmd)
      modifies this
      ensures Outcome(Exec(cmd, cmdAddresses, old(State()), globals.Snapshot()), err, State(), globals.Snapshot())
    {
      err := None;
      ghost var s0 := State();
      ghost var next := s0.(pc := s0.pc + 1);
      match cmd {
        case Prio(p) => priority := Some(p);
        case VoiceCmd(v) => voice := v;
        case Pan(p) => panning := p;
        case Bend(b) => pitchBend := b;
        case BendR(r) => pitchRange := r;
        case Lfos(sp) => lfoSpeed := sp;
        case Mod(d) => mod := d;
      }
      pc := pc + 1;
      assert State() == SetField(cmd, next);
      ExecSetting(cmd, cmdAddresses, s0, globals.Snapshot());
    }

    /** `for note in self.notes: note.update()`. */
    method UpdateNotes() returns (err: Option<Error>)
      modifies this
      ensures err.None? <==> UpdateAll(old(notes)).Ok?
      ensures err.Some? ==> err.value == AttributeError
      ensures err.None? ==> State() == old(State()).(notes := UpdateAll(old(notes)).value)
    {
      ghost var pre := notes;
      UpdateAllPointwise(pre);
      var i := 0;
      while i < |notes|
        invariant 0 <= i <= |notes| == |pre|
        invariant forall j :: 0 <= j < i ==> UpdateNote(pre[j]) == Ok(notes[j])
        invariant forall j :: i <= j < |notes| ==> notes[j] == pre[j]
        invariant State() == old(State()).(notes := notes)
      {
        var r := UpdateNote(notes[i]);
        if r.Err? {
          return Some(AttributeError);
        }
        notes := notes[i := r.value];
        i := i + 1;
      }
      assert notes == UpdateAll(pre).value;
      return None;
    }

    /** `update`, running at most `fuel` commands. */
    method Update(fuel: nat) returns (err: Option<Error>)
      modifies this, globals
      ensures Outcome(UpdateSpec(commands, cmdAddresses, old(State()), old(globals.Snapshot()), fuel),
                      err, State(), globals.Snapshot())
    {
      if !enabled {
        return None;
      }
      if ticks > 0 {
        ticks := ticks - 1;
      }
      if ticks == 0 {
        base := pc;
      }
      assert State() == Tick(old(State()));
      err := RunCommands(fuel);
      if err.Some? {
        return;
      }
      UpdateAllPointwise(notes);
      err := UpdateNotes();
    }

    /** The `while self.ticks == 0 and self.enabled` loop of `update`, running at most `fuel` commands. */
    method RunCommands(fuel: nat) returns (err: Option<Error>)
      modifies this, globals
      ensures Outcome(RunLoop(commands, cmdAddresses, old(State()), old(globals.Snapshot()), fuel),
                      err, State(), globals.Snapshot())
    {
      err := None;
      ghost var start := State();
      ghost var g0 := globals.Snapshot();
      var f := fuel;
      while ticks == 0 && enabled
        invariant RunLoop(commands, cmdAddresses, State(), globals.Snapshot(), f) ==
                  RunLoop(commands, cmdAddresses, start, g0, fuel)
        invariant err.None?
        decreases f
      {
        if f == 0 {
          return Some(OutOfFuel);
        }
        if pc >= |commands| {
          return Some(IndexError);
        }
        var c := commands[pc];
        if c.None? {
          return Some(TypeError);
        }
        err := Call(c.value);
        if err.Some? {
          return;
        }
        f := f - 1;
      }
    }
  }

  /**
   * Two tracks share the class attributes: a TEMPO run on one is what the
   * other, and every later track, sees.
   */
  method SharedTempo(trackData: seq<(int, Option<Command>)>, t: int) returns (seen: int)
    ensures seen == t
  {
    var globals := new TrackGlobals();
    var a := new M4ATrack(trackData, globals);
    var b := new M4ATrack(trackData, globals);
    var err := a.Call(Tempo(t));
    seen := b.globals.tempo;
  }
}
