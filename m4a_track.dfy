/**
 * The playback state of sappy/m4a.py: `FMODNote` (a note with its tick
 * counter and envelope) and the fields of `M4ATrack` that the sequencer
 * commands change.
 *
 * A note's envelope is the placeholder `...` until `reset_mixer` installs a
 * copy of its voice's envelope; releasing a note that still holds the
 * placeholder raises `AttributeError`, which the model returns as an error.
 */
module M4aTrack {
  import opened Wrappers
  import InstSet
  import Envelope

  datatype NoteState = NoteState(
    noteOff: bool, voice: int, midiNote: int, velocity: int, ticks: int,
    envelope: Option<Envelope.EnvelopeState>)

  /** `FMODNote(ticks, midi_note, velocity, voice)`: not released, envelope still the placeholder. */
  function NewNoteState(ticks: int, midiNote: int, velocity: int, voice: int): (n: NoteState)
    ensures !n.noteOff && n.envelope.None?
    ensures n.ticks == ticks && n.midiNote == midiNote && n.velocity == velocity && n.voice == voice
  {
    NoteState(false, voice, midiNote, velocity, ticks, None)
  }

  /** `release`: the envelope takes its note-off and the note is marked off. */
  function ReleaseNote(n: NoteState): (r: Result<NoteState>)
    ensures n.envelope.None? <==> r == Err(AttributeError)
    ensures r.Ok? ==> r.value == n.(noteOff := true, envelope := Some(Envelope.OnNoteOff(n.envelope.value)))
  {
    match n.envelope
    case None => Err(AttributeError)
    case Some(e) => Ok(n.(noteOff := true, envelope := Some(Envelope.OnNoteOff(e))))
  }

  /** Releasing a released note changes nothing more. */
  lemma ReleaseIdempotent(n: NoteState)
    requires ReleaseNote(n).Ok?
    ensures ReleaseNote(ReleaseNote(n).value) == ReleaseNote(n)
  {
    Envelope.NoteOffIdempotent(n.envelope.value);
  }

  /** `update`: a positive counter counts down, and a counter at 0 releases the note. */
  function UpdateNote(n: NoteState): (r: Result<NoteState>)
    ensures n.ticks < 0 ==> r == Ok(n)
    ensures n.ticks > 1 ==> r == Ok(n.(ticks := n.ticks - 1))
    ensures r.Ok? ==> r.value.midiNote == n.midiNote && r.value.velocity == n.velocity && r.value.voice == n.voice
    ensures r.Err? <==> 0 <= n.ticks <= 1 && n.envelope.None?
  {
    var t := if n.ticks > 0 then n.ticks - 1 else n.ticks;
    if t == 0 then ReleaseNote(n.(ticks := t)) else Ok(n.(ticks := t))
  }

  /** k successive `update`s, stopping at the first error. */
  function UpdateNoteN(n: NoteState, k: nat): Result<NoteState>
    decreases k
  {
    if k == 0 then Ok(n)
    else match UpdateNote(n)
      case Err(e) => Err(e)
      case Ok(n1) => UpdateNoteN(n1, k - 1)
  }

  /** A TIE note (ticks -1) is left exactly as it is by any number of updates. */
  lemma {:induction false} TieNeverReleases(n: NoteState, k: nat)
    requires n.ticks < 0
    ensures UpdateNoteN(n, k) == Ok(n)
    decreases k
  {
    if k > 0 {
      assert UpdateNote(n) == Ok(n);
      TieNeverReleases(n, k - 1);
    }
  }

  /**
   * A note with t > 0 ticks and an installed envelope counts down untouched
   * for t - 1 updates and is released by update t.
   */
  lemma {:induction false} NoteReleasesAfterTicks(n: NoteState, k: nat)
    requires n.ticks > 0 && n.envelope.Some? && k <= n.ticks
    ensures k < n.ticks ==> UpdateNoteN(n, k) == Ok(n.(ticks := n.ticks - k))
    ensures k == n.ticks ==>
              UpdateNoteN(n, k) == Ok(n.(ticks := 0, noteOff := true,
                                         envelope := Some(Envelope.OnNoteOff(n.envelope.value))))
    decreases k
  {
    if k > 0 {
      var n1 := UpdateNote(n).value;
      if n.ticks == 1 {
        assert k == 1;
      } else {
        assert n1 == n.(ticks := n.ticks - 1);
        NoteReleasesAfterTicks(n1, k - 1);
      }
    }
  }

  /** Whether an EOT with this key releases the note: every note without a key, else the same MIDI key. */
  predicate EotMatches(key: Option<int>, n: NoteState)
  {
    key.None? || n.midiNote == key.value
  }

  /** The notes after an EOT: matching notes released in order, the first failure stopping it. */
  function ReleaseMatching(notes: seq<NoteState>, key: Option<int>): (r: Result<seq<NoteState>>)
    ensures r.Ok? ==> |r.value| == |notes|
    ensures r.Err? ==> r.error == AttributeError
    decreases |notes|
  {
    if |notes| == 0 then Ok([])
    else match ReleaseMatching(notes[..|notes| - 1], key)
      case Err(e) => Err(e)
      case Ok(front) =>
        var n := notes[|notes| - 1];
        if !EotMatches(key, n) then Ok(front + [n])
        else match ReleaseNote(n)
          case Err(e) => Err(e)
          case Ok(n1) => Ok(front + [n1])
  }

  /**
   * EOT releases exactly the matching notes and leaves the others as they
   * are; it fails exactly when a matching note still has no envelope.
   */
  lemma {:induction false} EotReleasesOnlyMatching(notes: seq<NoteState>, key: Option<int>)
    ensures ReleaseMatching(notes, key).Ok? <==>
      forall i :: 0 <= i < |notes| && EotMatches(key, notes[i]) ==> notes[i].envelope.Some?
    ensures ReleaseMatching(notes, key).Err? ==> ReleaseMatching(notes, key).error == AttributeError
    ensures ReleaseMatching(notes, key).Ok? ==>
      var out := ReleaseMatching(notes, key).value;
      && |out| == |notes|
      && (forall i :: 0 <= i < |notes| && !EotMatches(key, notes[i]) ==> out[i] == notes[i])
      && (forall i :: 0 <= i < |notes| && EotMatches(key, notes[i]) ==> out[i] == ReleaseNote(notes[i]).value)
    decreases |notes|
  {
    if |notes| > 0 {
      var init := notes[..|notes| - 1];
      EotReleasesOnlyMatching(init, key);
      assert forall i :: 0 <= i < |init| ==> init[i] == notes[i];
    }
  }

  /** `for note in self.notes: note.update()`, the first failure stopping it. */
  function UpdateAll(notes: seq<NoteState>): (r: Result<seq<NoteState>>)
    ensures r.Ok? ==> |r.value| == |notes|
    ensures r.Err? ==> r.error == AttributeError
    decreases |notes|
  {
    if |notes| == 0 then Ok([])
    else match UpdateAll(notes[..|notes| - 1])
      case Err(e) => Err(e)
      case Ok(front) =>
        match UpdateNote(notes[|notes| - 1])
        case Err(e) => Err(e)
        case Ok(n1) => Ok(front + [n1])
  }

  /**
   * Updating all notes updates each note on its own and keeps their number
   * and order; it fails, with `AttributeError`, exactly when some note's own
   * update does.
   */
  lemma {:induction false} UpdateAllPointwise(notes: seq<NoteState>)
    ensures UpdateAll(notes).Ok? <==> forall i :: 0 <= i < |notes| ==> UpdateNote(notes[i]).Ok?
    ensures UpdateAll(notes).Err? ==> UpdateAll(notes).error == AttributeError
    ensures UpdateAll(notes).Ok? ==>
      && |UpdateAll(notes).value| == |notes|
      && forall i :: 0 <= i < |notes| ==> UpdateNote(notes[i]) == Ok(UpdateAll(notes).value[i])
    decreases |notes|
  {
    if |notes| > 0 {
      var init := notes[..|notes| - 1];
      UpdateAllPointwise(init);
      assert forall i :: 0 <= i < |init| ==> init[i] == notes[i];
    }
  }

  /** The `M4ATrack` fields the sequencer commands read and write. */
  datatype TrackState = TrackState(
    enabled: bool,
    notes: seq<NoteState>,
    noteQueue: seq<NoteState>,
    callStack: seq<nat>,
    voice: int,
    volume: int,
    panning: int,
    pitchBend: int,
    pitchRange: int,
    mod: int,
    lfoSpeed: int,
    priority: Option<int>,
    ticks: int,
    pc: nat,
    base: nat)

  /** The class attributes `M4ATrack.TEMPO` and `M4ATrack.KEY_SHIFT`, shared by every track. */
  datatype Globals = Globals(tempo: int, keyShift: int)

  const InitialGlobals := Globals(75, 0)
  const NoVoice := -1
  /** `queue.Queue(maxsize=3)` of the pattern calls. */
  const CallStackSize: nat := 3

  /** A new track: enabled, no notes, voice -1, volume `mxv`, panning and bend `c_v`, range 2. */
  function InitialTrackState(): (s: TrackState)
    ensures s.enabled && s.pc == 0 && s.base == 0 && s.ticks == 0 && s.callStack == []
    ensures s.volume == InstSet.Mxv && s.panning == InstSet.CentreValue && s.voice == NoVoice
  {
    TrackState(true, [], [], [], NoVoice, InstSet.Mxv, InstSet.CentreValue, InstSet.CentreValue, 2,
               0, 0, None, 0, 0, 0)
  }

  /** `FMODNote` as an object: its methods change its fields in place. */
  class FmodNote {
    var noteOff: bool
    var voice: int
    var midiNote: int
    var velocity: int
    var ticks: int
    var envelope: Option<Envelope.EnvelopeState>

    function State(): NoteState
      reads this
    {
      NoteState(noteOff, voice, midiNote, velocity, ticks, envelope)
    }

    constructor (ticks: int, midiNote: int, velocity: int, voice: int)
      ensures State() == NewNoteState(ticks, midiNote, velocity, voice)
    {
      this.noteOff := false;
      this.voice := voice;
      this.midiNote := midiNote;
      this.velocity := velocity;
      this.ticks := ticks;
      this.envelope := None;
    }

    /** `reset_mixer`: install a copy of the voice's envelope. */
    method ResetMixer(e: Envelope.EnvelopeState)
      modifies this
      ensures State() == old(State()).(envelope := Some(e))
    {
      envelope := Some(e);
    }

    /** `release`; an error leaves the note as it was. */
    method Release() returns (err: Option<Error>)
      modifies this
      ensures err.None? <==> ReleaseNote(old(State())).Ok?
      ensures err.None? ==> State() == ReleaseNote(old(State())).value
      ensures err.Some? ==> err.value == AttributeError && State() == old(State())
    {
      if envelope.None? {
        return Some(AttributeError);
      }
      envelope := Some(Envelope.OnNoteOff(envelope.value));
      noteOff := true;
      return None;
    }

    /** `update`. */
    method Update() returns (err: Option<Error>)
      modifies this
      ensures err.None? <==> UpdateNote(old(State())).Ok?
      ensures err.None? ==> State() == UpdateNote(old(State())).value
    {
      if ticks > 0 {
        ticks := ticks - 1;
      }
      if ticks == 0 {
        err := Release();
      } else {
        err := None;
      }
    }
  }
}
