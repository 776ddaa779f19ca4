/**
 * The envelope and tick counters of the older engine (`sappy/engine.py`):
 * the `Mixer` ADSR envelope, `Note.advance`, `Track.advance` and
 * `Song.used_notes`.
 *
 * The `Mixer` differs from the M4A `SoundEnvelope` in three ways: a PSG
 * attack setting a becomes the step 256 - 32a, the DECAY and RELEASE rates
 * are `round(x / 256, 4)` (a four-decimal fraction, here an exact `real`),
 * and RELEASE ends once the position is at most 1.
 */
module Engine {
  import opened Wrappers
  import InstSet

  // ---------------------------------------------------------------------
  // Rates

  /** Python's `round(n / d)` for d > 0: to the nearest integer, ties to even. */
  function RoundHalfEven(n: int, d: int): (q: int)
    requires d > 0
    ensures 2 * (q * d - n) <= d && 2 * (n - q * d) <= d
  {
    var f := n / d;
    var rem := n % d;
    if 2 * rem > d then f + 1
    else if 2 * rem < d then f
    else if f % 2 == 0 then f else f + 1
  }

  /**
   * `round(x / 256, 4)`: x / 256 is exact in binary, so Python rounds
   * x * 10000 / 256 = x * 625 / 16 to an integer, ties to even, and divides
   * by 10000.
   */
  function Rate(x: int): (r: real)
    ensures -1.0 / 20000.0 <= r - (x as real) / 256.0 <= 1.0 / 20000.0
  {
    var q := RoundHalfEven(x * 625, 16);
    assert 2 * (q * 16 - x * 625) <= 16 && 2 * (x * 625 - q * 16) <= 16;
    (q as real) / 10000.0
  }

  /** A byte setting gives a rate in [0, 1): 255 / 256 rounds to 0.9961. */
  lemma ByteRateBelowOne(x: int)
    requires 0 <= x <= 255
    ensures 0.0 <= Rate(x) < 1.0
  {
    var q := RoundHalfEven(x * 625, 16);
    assert 2 * (q * 16 - x * 625) <= 16;
    assert q * 16 <= 255 * 625 + 8;
    assert q <= 9961;
    assert 2 * (x * 625 - q * 16) <= 16;
    assert q >= 0;
  }

  /** Python's `int(v)` on a float: truncation toward zero. */
  function Trunc(v: real): (r: int)
    ensures v >= 0.0 ==> r as real <= v < (r + 1) as real
    ensures v < 0.0 ==> (r - 1) as real < v <= r as real
  {
    if v >= 0.0 then v.Floor else -((-v).Floor)
  }

  /** `int(pos * rate)`: the position scaled by a DECAY or RELEASE rate. */
  function Scale(pos: int, rate: real): int
  {
    Trunc(pos as real * rate)
  }

  // ---------------------------------------------------------------------
  // The envelope as a value

  datatype MixerPhase = Attack | Decay | Sustain | Release | NoteOff
  {
    /** The class constant: ATTACK = 0 .. NOTEOFF = 4. */
    function Ord(): nat
    {
      match this
      case Attack => 0
      case Decay => 1
      case Sustain => 2
      case Release => 3
      case NoteOff => 4
    }
  }

  datatype MixerState = MixerState(
    phase: MixerPhase,
    attack: int, decay: int, sustain: int, release: int,
    rate: real,   // the integer attack step in ATTACK, a fraction afterwards
    dest: int,
    pos: int)
  {
    /** In ATTACK the rate is the attack step itself, an integer. */
    predicate Valid()
    {
      phase == Attack ==> rate == attack as real
    }
  }

  /** The settings a new mixer keeps: PSG voices rescale their nibble settings. */
  function Settings(attack: int, decay: int, sustain: int, release: int, isPsg: bool): (s: (int, int, int, int))
    ensures isPsg ==> s == (256 - attack * 32, decay * 32, sustain * 16, release * 32)
    ensures !isPsg ==> s == (attack, decay, sustain, release)
  {
    if isPsg then (256 - attack * 32, decay * 32, sustain * 16, release * 32)
    else (attack, decay, sustain, release)
  }

  /** `reset`: back to ATTACK at position 0 with the attack step as rate. */
  function OnReset(e: MixerState): (r: MixerState)
    ensures r.Valid() && r.phase == Attack && r.pos == 0
    ensures r.(phase := e.phase, pos := e.pos, rate := e.rate) == e
  {
    e.(phase := Attack, pos := 0, rate := e.attack as real)
  }

  /** `note_off`: enter RELEASE with rate release/256, unless in RELEASE or NOTEOFF already. */
  function OnNoteOff(e: MixerState): (r: MixerState)
    ensures e.phase.Ord() >= Release.Ord() ==> r == e
    ensures e.phase.Ord() < Release.Ord() ==> r == e.(phase := Release, rate := Rate(e.release))
  {
    if e.phase.Ord() >= Release.Ord() then e
    else e.(phase := Release, rate := Rate(e.release))
  }

  function AttackStep(e: MixerState): MixerState
  {
    if e.phase != Attack then e
    else
      var p := e.pos + e.rate.Floor;
      if p >= 255 then e.(phase := Decay, pos := 255, rate := Rate(e.decay))
      else e.(pos := p)
  }

  function DecayStep(e: MixerState): MixerState
  {
    if e.phase != Decay then e
    else
      var p := Scale(e.pos, e.rate);
      if p <= e.sustain then e.(phase := Sustain, pos := e.sustain) else e.(pos := p)
  }

  function ReleaseStep(e: MixerState): MixerState
  {
    if e.phase != Release then e
    else
      var p := Scale(e.pos, e.rate);
      if p <= 1 then e.(phase := NoteOff, pos := p) else e.(pos := p)
  }

  /**
   * `update`: the phase checks follow one another, so one call can pass from
   * ATTACK through DECAY into SUSTAIN. The position is reported, or `None`
   * once the mixer is in NOTEOFF.
   */
  function Step(e: MixerState): (r: (MixerState, Option<int>))
    ensures r.0.phase == NoteOff <==> r.1 == None
    ensures r.1.Some? ==> r.1.value == r.0.pos
    ensures r.0.phase.Ord() >= e.phase.Ord()
    ensures e.Valid() ==> r.0.Valid()
  {
    var e3 := ReleaseStep(DecayStep(AttackStep(e)));
    (e3, if e3.phase == NoteOff then None else Some(e3.pos))
  }

  /** n successive updates. */
  function StepN(e: MixerState, n: nat): MixerState
    decreases n
  {
    if n == 0 then e else StepN(Step(e).0, n - 1)
  }

  // ---------------------------------------------------------------------
  // Properties

  /** A second `note_off` changes nothing, and after one the mixer is releasing or off. */
  lemma NoteOffIdempotent(e: MixerState)
    ensures OnNoteOff(OnNoteOff(e)) == OnNoteOff(e)
    ensures OnNoteOff(e).phase == Release || OnNoteOff(e).phase == NoteOff
  {
  }

  /** `reset` undoes any run of updates and note-offs: only the settings survive. */
  lemma ResetForgetsHistory(e: MixerState, n: nat)
    ensures OnReset(StepN(e, n)) == OnReset(e)
    ensures OnReset(OnNoteOff(e)) == OnReset(e)
  {
    SettingsKept(e, n);
  }

  lemma {:induction false} SettingsKept(e: MixerState, n: nat)
    ensures var f := StepN(e, n);
      f.attack == e.attack && f.decay == e.decay && f.sustain == e.sustain
      && f.release == e.release && f.dest == e.dest
    decreases n
  {
    if n > 0 {
      SettingsKept(Step(e).0, n - 1);
    }
  }

  /** NOTEOFF is final: nothing changes and `update` reports `None`. SUSTAIN holds its position. */
  lemma NoteOffAndSustainAreStable(e: MixerState)
    requires e.phase == NoteOff || e.phase == Sustain
    ensures Step(e).0 == e
    ensures Step(e).1 == (if e.phase == NoteOff then None else Some(e.pos))
  {
  }

  /** An attack step reaching 255 clamps the position there and starts DECAY at rate decay/256. */
  lemma AttackClampsAt255(e: MixerState)
    requires e.Valid() && e.phase == Attack && e.pos + e.attack >= 255
    ensures AttackStep(e).pos == 255 && AttackStep(e).phase == Decay
    ensures AttackStep(e).rate == Rate(e.decay)
    ensures Step(e).0.phase != Attack
  {
  }

  /** Below 255 an attack step adds the attack setting and stays in ATTACK. */
  lemma AttackAddsStep(e: MixerState)
    requires e.Valid() && e.phase == Attack && e.pos + e.attack < 255
    ensures Step(e) == (e.(pos := e.pos + e.attack), Some(e.pos + e.attack))
  {
  }

  /** In RELEASE a position of at most 1 after the step ends the note. */
  lemma ReleaseEndsAtOne(e: MixerState)
    requires e.phase == Release && Scale(e.pos, e.rate) <= 1
    ensures Step(e).0.phase == NoteOff && Step(e).1 == None
  {
  }

  lemma TruncShrinks(p: int, r: real)
    requires p >= 0 && 0.0 <= r < 1.0
    ensures 0 <= Scale(p, r) <= p
    ensures p > 0 ==> Scale(p, r) < p
  {
    assert 0.0 <= p as real * r <= p as real;
    if p > 0 {
      assert p as real * r < p as real;
    }
  }

  /**
   * With a release rate below 1, RELEASE strictly lowers a position above 1,
   * so NOTEOFF is reached within pos updates.
   */
  lemma {:induction false} ReleaseReachesNoteOff(e: MixerState)
    requires e.phase == Release && 0.0 <= e.rate < 1.0 && e.pos >= 1
    ensures StepN(e, e.pos).phase == NoteOff
    decreases e.pos
  {
    var next := Step(e).0;
    TruncShrinks(e.pos, e.rate);
    if next.phase == NoteOff {
      NoteOffStays(next, e.pos - 1);
    } else {
      assert next.phase == Release && 1 < next.pos < e.pos;
      ReleaseReachesNoteOff(next);
      MoreUpdatesStayOff(next, next.pos, e.pos - 1);
    }
  }

  lemma {:induction false} NoteOffStays(e: MixerState, n: nat)
    requires e.phase == NoteOff
    ensures StepN(e, n) == e
    decreases n
  {
    if n > 0 {
      NoteOffAndSustainAreStable(e);
      NoteOffStays(e, n - 1);
    }
  }

  lemma {:induction false} MoreUpdatesStayOff(e: MixerState, m: nat, n: nat)
    requires m <= n && StepN(e, m).phase == NoteOff
    ensures StepN(e, n).phase == NoteOff
    decreases m
  {
    if m == 0 {
      NoteOffStays(e, n);
    } else {
      MoreUpdatesStayOff(Step(e).0, m - 1, n - 1);
    }
  }

  /** The ranges a DirectSound mixer stays within: byte settings, a position in 0..255. */
  ghost predicate Bounded(e: MixerState)
  {
    && e.Valid()
    && 0 <= e.attack <= 255 && 0 <= e.decay <= 255
    && 0 <= e.sustain <= 255 && 0 <= e.release <= 255
    && 0 <= e.pos <= 255
    && (e.phase == Decay ==> e.rate == Rate(e.decay))
    && (e.phase == Release ==> e.rate == Rate(e.release))
  }

  /** Byte-sized settings keep the position in 0..255 through every update and note-off. */
  lemma BoundedInvariant(e: MixerState)
    requires Bounded(e)
    ensures Bounded(Step(e).0) && Bounded(OnNoteOff(e)) && Bounded(OnReset(e))
    ensures Step(e).1.Some? ==> 0 <= Step(e).1.value <= 255
  {
    var e1 := AttackStep(e);
    ByteRateBelowOne(e.decay);
    var e2 := DecayStep(e1);
    DecayBounded(e1);
    ReleaseBounded(e2);
  }

  lemma DecayBounded(e: MixerState)
    requires Bounded(e)
    ensures Bounded(DecayStep(e))
  {
    if e.phase == Decay {
      ByteRateBelowOne(e.decay);
      TruncShrinks(e.pos, e.rate);
    }
  }

  lemma ReleaseBounded(e: MixerState)
    requires Bounded(e)
    ensures Bounded(ReleaseStep(e))
  {
    if e.phase == Release {
      ByteRateBelowOne(e.release);
      TruncShrinks(e.pos, e.rate);
    }
  }

  /**
   * The PSG step 256 - 32a is positive for every attack nibble 0..7, so a
   * PSG mixer's ATTACK always reaches DECAY within 255 updates.
   */
  lemma PsgAttackStepPositive(a: int)
    requires 0 <= a <= 7
    ensures Settings(a, 0, 0, 0, true).0 >= 32
  {
  }

  lemma {:induction false} AttackReachesDecay(e: MixerState, n: nat)
    requires e.Valid() && e.phase == Attack && e.attack >= 1 && 0 <= e.pos < 255
    requires n >= 255 - e.pos
    ensures StepN(e, n).phase != Attack
    decreases n
  {
    var next := Step(e).0;
    if next.phase == Attack {
      assert next.pos == e.pos + e.attack;
      AttackReachesDecay(next, n - 1);
    } else {
      LaterPhasesStay(next, n - 1);
    }
  }

  lemma {:induction false} LaterPhasesStay(e: MixerState, n: nat)
    requires e.phase != Attack
    ensures StepN(e, n).phase != Attack
    decreases n
  {
    if n > 0 {
      LaterPhasesStay(Step(e).0, n - 1);
    }
  }

  // ---------------------------------------------------------------------
  // The mutable objects

  /** `Mixer`: the envelope object a voice owns. */
  class Mixer {
    var phase: MixerPhase
    var attack: int
    var decay: int
    var sustain: int
    var release: int
    var rate: real
    var dest: int
    var pos: int

    function State(): MixerState
      reads this
    {
      MixerState(phase, attack, decay, sustain, release, rate, dest, pos)
    }

    constructor (attack: int, decay: int, sustain: int, release: int, isPsg: bool)
      ensures State().Valid() && phase == Attack && pos == 0 && dest == 0
      ensures (this.attack, this.decay, this.sustain, this.release)
              == Settings(attack, decay, sustain, release, isPsg)
    {
      phase := Attack;
      this.attack := attack;
      this.decay := decay;
      this.sustain := sustain;
      this.release := release;
      new;
      if isPsg {
        this.attack := 256 - attack * 32;
        this.decay := this.decay * 32;
        this.sustain := this.sustain * 16;
        this.release := this.release * 32;
      }
      rate := this.attack as real;
      dest := 0;
      pos := 0;
    }

    method Reset()
      modifies this
      ensures State() == OnReset(old(State()))
    {
      phase := Attack;
      pos := 0;
      rate := attack as real;
    }

    method NoteOff()
      modifies this
      ensures State() == OnNoteOff(old(State()))
    {
      if phase.Ord() >= Release.Ord() {
        return;
      }
      phase := Release;
      rate := Rate(release);
    }

    method Update() returns (r: Option<int>)
      modifies this
      ensures (State(), r) == Step(old(State()))
    {
      if phase == Attack {
        pos := pos + rate.Floor;
        if pos >= 255 {
          phase := Decay;
          pos := 255;
          rate := Rate(decay);
        }
      }
      assert State() == AttackStep(old(State()));
      if phase == Decay {
        pos := Scale(pos, rate);
        if pos <= sustain {
          phase := Sustain;
          pos := sustain;
        }
      }
      assert State() == DecayStep(AttackStep(old(State())));
      if phase == Release {
        pos := Scale(pos, rate);
        if pos <= 1 {
          phase := MixerPhase.NoteOff;
        }
      }
      if phase == MixerPhase.NoteOff {
        return None;
      }
      return Some(pos);
    }
  }

  // ---------------------------------------------------------------------
  // Tick counters

  /** `Note.advance` on (wait_ticks, note_off): count down, then flag the note-off one tick later. */
  function NoteTick(w: int, off: bool): (r: (int, bool))
    ensures w > 0 ==> r == (w - 1, off)
    ensures w < 0 ==> r == (w, off)
    ensures w == 0 ==> r == (0, true)
  {
    if w > 0 then (w - 1, off)
    else if !off && w == 0 then (w, true)
    else (w, off)
  }

  function NoteTicks(w: int, off: bool, n: nat): (int, bool)
    decreases n
  {
    if n == 0 then (w, off) else var r := NoteTick(w, off); NoteTicks(r.0, r.1, n - 1)
  }

  /**
   * A note with w >= 0 ticks left and no note-off gets its note-off on
   * exactly the (w + 1)-th advance, and not before.
   */
  lemma {:induction false} NoteOffAfterTicks(w: nat, n: nat)
    ensures NoteTicks(w, false, n).1 <==> n >= w + 1
    decreases n
  {
    if n > 0 {
      if w > 0 {
        NoteOffAfterTicks(w - 1, n - 1);
      } else {
        NoteOffKept(0, n - 1);
      }
    }
  }

  lemma {:induction false} NoteOffKept(w: nat, n: nat)
    requires w == 0
    ensures NoteTicks(w, true, n) == (0, true)
    decreases n
  {
    if n > 0 {
      NoteOffKept(w, n - 1);
    }
  }

  /** A tie (negative count) never counts down and never sets the note-off. */
  lemma {:induction false} TieNeverReleases(w: int, n: nat)
    requires w < 0
    ensures NoteTicks(w, false, n) == (w, false)
    decreases n
  {
    if n > 0 {
      TieNeverReleases(w, n - 1);
    }
  }

  /** `Track.advance` on wait_ticks: any nonzero count, negative ones included, goes down by one. */
  function TrackTick(w: int): (r: int)
    ensures w != 0 ==> r == w - 1
    ensures w == 0 ==> r == 0
  {
    if w != 0 then w - 1 else w
  }

  function TrackTicks(w: int, n: nat): int
    decreases n
  {
    if n == 0 then w else TrackTicks(TrackTick(w), n - 1)
  }

  /** n advances stop a non-negative count at 0, but drive a negative count further down. */
  lemma {:induction false} TrackTicksAfter(w: int, n: nat)
    ensures TrackTicks(w, n) == if w < 0 then w - n else if w >= n then w - n else 0
    decreases n
  {
    if n > 0 {
      TrackTicksAfter(TrackTick(w), n - 1);
    }
  }

  /** The track's output type (`OutputType`). */
  datatype OutputType = DSound | PsgSq1 | PsgSq2 | PsgWave | PsgNse | Multi | Drum | Null

  /** `Note`: the tick counter and note-off flag of one sounding note. */
  class Note {
    var noteOff: bool
    var midiNote: int
    var velocity: int
    var track: int
    var waitTicks: int
    var voice: int

    constructor (midiNote: int, velocity: int, track: int, waitTicks: int, voice: int)
      ensures !noteOff && this.midiNote == midiNote && this.velocity == velocity
      ensures this.track == track && this.waitTicks == waitTicks && this.voice == voice
    {
      this.noteOff := false;
      this.midiNote := midiNote;
      this.velocity := velocity;
      this.track := track;
      this.waitTicks := waitTicks;
      this.voice := voice;
    }

    method Advance()
      modifies this`waitTicks, this`noteOff
      ensures (waitTicks, noteOff) == NoteTick(old(waitTicks), old(noteOff))
      ensures midiNote == old(midiNote) && velocity == old(velocity)
      ensures track == old(track) && voice == old(voice)
    {
      if waitTicks > 0 {
        waitTicks := waitTicks - 1;
      } else if !noteOff && waitTicks == 0 {
        noteOff := true;
      }
    }
  }

  /** `Track`: the per-track settings of the older engine and its tick counter. */
  class Track {
    var enabled: bool
    var muted: bool
    var loopPtr: int
    var volume: int
    var panning: int
    var voice: int
    var pitchBend: int
    var pitchRange: int
    var programCtr: int
    var priority: int
    var waitTicks: int
    var keysh: int
    var mod: int
    var lfos: int
    var outVol: int
    var outputType: OutputType
    var usedNotes: seq<int>

    constructor ()
      ensures enabled && !muted && loopPtr == -1 && volume == InstSet.Mxv
      ensures panning == InstSet.CentreValue && pitchBend == InstSet.CentreValue
      ensures voice == 0 && pitchRange == 2 && programCtr == 0 && priority == 0
      ensures waitTicks == 0 && keysh == 0 && mod == 0 && lfos == 0 && outVol == 0
      ensures outputType == DSound && usedNotes == []
    {
      enabled := true;
      muted := false;
      loopPtr := -1;
      volume := InstSet.Mxv;
      panning := InstSet.CentreValue;
      voice := 0;
      pitchBend := InstSet.CentreValue;
      pitchRange := 2;
      programCtr := 0;
      priority := 0;
      waitTicks := 0;
      keysh := 0;
      mod := 0;
      lfos := 0;
      outVol := 0;
      outputType := DSound;
      usedNotes := [];
    }

    method Advance()
      modifies this`waitTicks
      ensures waitTicks == TrackTick(old(waitTicks))
      ensures programCtr == old(programCtr) && enabled == old(enabled)
    {
      if waitTicks != 0 {
        waitTicks := waitTicks - 1;
      }
    }
  }

  // ---------------------------------------------------------------------
  // Song.used_notes

  /** The lists of `ls` one after another. */
  function Flatten(ls: seq<seq<int>>): (r: seq<int>)
  {
    if ls == [] then [] else Flatten(ls[..|ls| - 1]) + ls[|ls| - 1]
  }

  function NoteLists(tracks: seq<Track>): (r: seq<seq<int>>)
    reads tracks
    ensures |r| == |tracks| && forall i :: 0 <= i < |tracks| ==> r[i] == tracks[i].usedNotes
  {
    seq(|tracks|, i reads tracks requires 0 <= i < |tracks| => tracks[i].usedNotes)
  }

  /** `Song.used_notes`: every track's used notes, in track order. */
  function UsedNotes(tracks: seq<Track>): (r: seq<int>)
    reads tracks
  {
    Flatten(NoteLists(tracks))
  }

  /** A note is used in the song iff some track uses it. */
  lemma {:induction false} FlattenMembers(ls: seq<seq<int>>, n: int)
    ensures n in Flatten(ls) <==> exists i :: 0 <= i < |ls| && n in ls[i]
  {
    if ls != [] {
      var init := ls[..|ls| - 1];
      FlattenMembers(init, n);
      if n in Flatten(ls) && n !in ls[|ls| - 1] {
        var i :| 0 <= i < |init| && n in init[i];
        assert ls[i] == init[i];
      }
      if exists i :: 0 <= i < |ls| && n in ls[i] {
        var i :| 0 <= i < |ls| && n in ls[i];
        if i < |init| {
          assert init[i] == ls[i];
        }
      }
    }
  }

  /** The flattened list is as long as all the lists together, and appends in order. */
  lemma FlattenAppend(ls: seq<seq<int>>, l: seq<int>)
    ensures Flatten(ls + [l]) == Flatten(ls) + l
  {
    assert (ls + [l])[..|ls|] == ls;
  }

  function TotalLength(ls: seq<seq<int>>): nat
  {
    if ls == [] then 0 else TotalLength(ls[..|ls| - 1]) + |ls[|ls| - 1]|
  }

  lemma {:induction false} FlattenLength(ls: seq<seq<int>>)
    ensures |Flatten(ls)| == TotalLength(ls)
  {
    if ls != [] {
      FlattenLength(ls[..|ls| - 1]);
    }
  }

  /** `used_notes` holds n iff one of the song's tracks lists n among its used notes. */
  lemma UsedNotesMembers(tracks: seq<Track>, n: int)
    ensures n in UsedNotes(tracks) <==> exists i :: 0 <= i < |tracks| && n in tracks[i].usedNotes
  {
    var ls := NoteLists(tracks);
    FlattenMembers(ls, n);
    if exists i :: 0 <= i < |tracks| && n in tracks[i].usedNotes {
      var i :| 0 <= i < |tracks| && n in tracks[i].usedNotes;
      assert n in ls[i];
    }
  }

  /** A track added last contributes its notes after those of the tracks before it. */
  lemma UsedNotesAppend(tracks: seq<Track>, t: Track)
    ensures UsedNotes(tracks + [t]) == UsedNotes(tracks) + t.usedNotes
  {
    assert NoteLists(tracks + [t]) == NoteLists(tracks) + [t.usedNotes];
    FlattenAppend(NoteLists(tracks), t.usedNotes);
  }
}
