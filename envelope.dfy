/**
 * The ADSR sound envelope of an M4A voice (`SoundEnvelope`).
 *
 * The envelope position starts at 0, climbs by the attack step to 255,
 * falls geometrically (factor decay/256) to the sustain level, holds there,
 * and after a note-off falls geometrically (factor release/256) to 0.
 * The rate is kept as an integer: the attack step itself in ATTACK and the
 * numerator over 256 in DECAY and RELEASE, so `int(pos * rate)` is the
 * truncation toward zero of pos * numerator / 256.
 */
module Envelope {

  datatype Phase = Attack | Decay | Sustain | Release | NoteOff
  {
    /** The class constant of the phase: ATTACK = 0 .. NOTE_OFF = 4. */
    function Ord(): nat
    {
      match this
      case Attack => 0
      case Decay => 1
      case Sustain => 2
      case Release => 3
      case NoteOff => 4
    }
  }

  /** Python's `int(x / 256)`: division truncated toward zero. */
  function TruncDiv256(x: int): (r: int)
    ensures x >= 0 ==> 0 <= r * 256 <= x < (r + 1) * 256
    ensures x < 0 ==> (r - 1) * 256 < x <= r * 256 <= 0
  {
    if x >= 0 then x / 256 else -((-x) / 256)
  }

  datatype EnvelopeState = EnvelopeState(
    phase: Phase,
    attack: int, decay: int, sustain: int, release: int,
    rate: int,   // the attack step in Attack, else a numerator over 256
    pos: int)

  /** A freshly constructed envelope: ATTACK phase, position 0, rate = attack. */
  function Init(attack: int, decay: int, sustain: int, release: int): (e: EnvelopeState)
    ensures e.phase == Attack && e.pos == 0 && e.rate == attack
  {
    EnvelopeState(Attack, attack, decay, sustain, release, attack, 0)
  }

  /** `note_off`: enter RELEASE unless already in RELEASE or NOTE_OFF. */
  function OnNoteOff(e: EnvelopeState): (r: EnvelopeState)
    ensures e.phase.Ord() >= Release.Ord() ==> r == e
    ensures e.phase.Ord() < Release.Ord() ==>
      r == e.(phase := Release, rate := e.release)
  {
    if e.phase.Ord() >= Release.Ord() then e
    else e.(phase := Release, rate := e.release)
  }

  function AttackStep(e: EnvelopeState): EnvelopeState
  {
    if e.phase != Attack then e
    else if e.pos + e.rate >= 255 then e.(phase := Decay, pos := 255, rate := e.decay)
    else e.(pos := e.pos + e.rate)
  }

  function DecayStep(e: EnvelopeState): EnvelopeState
  {
    if e.phase != Decay then e
    else
      var p := TruncDiv256(e.pos * e.rate);
      if p <= e.sustain then e.(phase := Sustain, pos := e.sustain) else e.(pos := p)
  }

  function ReleaseStep(e: EnvelopeState): EnvelopeState
  {
    if e.phase != Release then e
    else
      var p := TruncDiv256(e.pos * e.rate);
      if p <= 0 then e.(phase := Phase.NoteOff, pos := p) else e.(pos := p)
  }

  /**
   * `update`: the phase checks run one after the other, so a single update
   * can pass from ATTACK through DECAY into SUSTAIN. Returns the new state
   * and the position, or -1 once the envelope is in NOTE_OFF.
   */
  function Step(e: EnvelopeState): (r: (EnvelopeState, int))
    ensures r.0.phase == NoteOff ==> r.1 == -1
    ensures r.0.phase != NoteOff ==> r.1 == r.0.pos
    ensures r.0.phase.Ord() >= e.phase.Ord()
  {
    var e3 := ReleaseStep(DecayStep(AttackStep(e)));
    (e3, if e3.phase == NoteOff then -1 else e3.pos)
  }

  /** `n` successive updates. */
  function StepN(e: EnvelopeState, n: nat): EnvelopeState
    decreases n
  {
    if n == 0 then e else StepN(Step(e).0, n - 1)
  }

  // ---------------------------------------------------------------------
  // Properties

  /** A second `note_off` changes nothing. */
  lemma NoteOffIdempotent(e: EnvelopeState)
    ensures OnNoteOff(OnNoteOff(e)) == OnNoteOff(e)
    ensures OnNoteOff(e).phase == Release || OnNoteOff(e).phase == NoteOff
  {
  }

  /** SUSTAIN holds its position until a note-off; NOTE_OFF is final and reports -1. */
  lemma SustainAndNoteOffAreStable(e: EnvelopeState)
    requires e.phase == Sustain || e.phase == NoteOff
    ensures Step(e).0 == e
    ensures Step(e).1 == (if e.phase == NoteOff then -1 else e.pos)
  {
  }

  /** Once ATTACK reaches 255 the position is clamped there and DECAY (or later) begins. */
  lemma AttackClampsAt255(e: EnvelopeState)
    requires e.phase == Attack && e.pos + e.rate >= 255
    ensures AttackStep(e).pos == 255 && AttackStep(e).phase == Decay
    ensures AttackStep(e).rate == e.decay
    ensures Step(e).0.phase != Attack
  {
  }

  lemma MulDivBounds(p: int, d: int)
    requires 0 <= p && 0 <= d < 256
    ensures 0 <= TruncDiv256(p * d) <= p
    ensures p > 0 ==> TruncDiv256(p * d) < p
  {
    assert 0 <= p * d <= p * 255;
    if p > 0 {
      assert p * d < p * 256;
    }
  }

  /** The ranges a DirectSound voice envelope stays within: every field a byte. */
  ghost predicate Bounded(e: EnvelopeState)
  {
    && 0 <= e.attack <= 255 && 0 <= e.decay <= 255
    && 0 <= e.sustain <= 255 && 0 <= e.release <= 255
    && 0 <= e.pos <= 255
    && e.rate == (match e.phase
                  case Attack => e.attack
                  case Decay => e.decay
                  case Sustain => e.decay
                  case _ => e.release)
  }

  /**
   * With byte-sized settings the position never leaves 0..255: the
   * invariant is established by `Init` and kept by `Update` and `NoteOff`.
   */
  lemma BoundedInvariant(e: EnvelopeState)
    requires Bounded(e)
    ensures Bounded(Step(e).0)
    ensures Bounded(OnNoteOff(e))
    ensures 0 <= Step(e).1 <= 255 || Step(e).1 == -1
    ensures Step(e).1 == -1 <==> Step(e).0.phase == NoteOff
  {
    var e1 := AttackStep(e);
    assert Bounded(e1);
    var e2 := DecayStep(e1);
    if e1.phase == Decay { MulDivBounds(e1.pos, e1.rate); }
    assert Bounded(e2);
    if e2.phase == Release { MulDivBounds(e2.pos, e2.rate); }
  }

  lemma InitBounded(a: int, d: int, s: int, r: int)
    requires 0 <= a <= 255 && 0 <= d <= 255 && 0 <= s <= 255 && 0 <= r <= 255
    ensures Bounded(Init(a, d, s, r))
  {
  }

  /**
   * RELEASE with a rate below 256 strictly lowers a positive position, so
   * NOTE_OFF is reached within pos + 1 updates.
   */
  lemma {:induction false} ReleaseReachesNoteOff(e: EnvelopeState)
    requires e.phase == Release && 0 <= e.rate < 256 && e.pos >= 0
    ensures StepN(e, e.pos + 1).phase == NoteOff
    decreases e.pos
  {
    var next := Step(e).0;
    MulDivBounds(e.pos, e.rate);
    if next.phase == NoteOff {
      NoteOffStaysNoteOff(next, e.pos);
    } else {
      assert next.phase == Release && next.pos < e.pos;
      ReleaseReachesNoteOff(next);
      MoreUpdatesStayNoteOff(next, next.pos + 1, e.pos);
    }
  }

  lemma {:induction false} NoteOffStaysNoteOff(e: EnvelopeState, n: nat)
    requires e.phase == NoteOff
    ensures StepN(e, n) == e
    decreases n
  {
    if n > 0 {
      SustainAndNoteOffAreStable(e);
      NoteOffStaysNoteOff(e, n - 1);
    }
  }

  lemma {:induction false} MoreUpdatesStayNoteOff(e: EnvelopeState, m: nat, n: nat)
    requires m <= n && StepN(e, m).phase == NoteOff
    ensures StepN(e, n).phase == NoteOff
    decreases m
  {
    if m == 0 {
      NoteOffStaysNoteOff(e, n);
    } else {
      MoreUpdatesStayNoteOff(Step(e).0, m - 1, n - 1);
    }
  }

  /**
   * A PSG voice with attack setting a >= 8 gets a step 255 - 32a <= -1, so its
   * envelope never leaves ATTACK without a note-off.
   */
  lemma {:induction false} NonPositiveAttackNeverDecays(e: EnvelopeState, n: nat)
    requires e.phase == Attack && e.rate <= 0 && e.pos < 255
    ensures StepN(e, n).phase == Attack && StepN(e, n).pos <= e.pos
    decreases n
  {
    if n > 0 {
      NonPositiveAttackNeverDecays(Step(e).0, n - 1);
    }
  }

  /** One update can cascade: with decay 0 the first update that reaches 255 lands in SUSTAIN. */
  lemma CascadeThroughDecay(e: EnvelopeState)
    requires e.phase == Attack && e.pos + e.rate >= 255 && e.decay == 0 && e.sustain >= 0
    ensures Step(e).0.phase == Sustain && Step(e).1 == e.sustain
  {
  }

  // ---------------------------------------------------------------------
  // The mutable object

  /** `SoundEnvelope`: the envelope object a voice owns and a note copies. */
  class SoundEnvelope {
    var phase: Phase
    var attack: int
    var decay: int
    var sustain: int
    var release: int
    var rate: int
    var envPos: int

    function State(): EnvelopeState
      reads this
    {
      EnvelopeState(phase, attack, decay, sustain, release, rate, envPos)
    }

    constructor (attack: int, decay: int, sustain: int, release: int)
      ensures State() == Init(attack, decay, sustain, release)
    {
      phase := Attack;
      this.attack := attack;
      this.decay := decay;
      this.sustain := sustain;
      this.release := release;
      rate := attack;
      envPos := 0;
    }

    method NoteOff()
      modifies this
      ensures State() == OnNoteOff(old(State()))
    {
      if phase.Ord() >= Release.Ord() {
        return;
      }
      phase := Release;
      rate := release;
    }

    method Update() returns (pos: int)
      modifies this
      ensures (State(), pos) == Step(old(State()))
    {
      if phase == Attack {
        envPos := envPos + rate;
        if envPos >= 255 {
          phase := Decay;
          envPos := 255;
          rate := decay;
        }
      }
      if phase == Decay {
        envPos := TruncDiv256(envPos * rate);
        if envPos <= sustain {
          phase := Sustain;
          envPos := sustain;
        }
      }
      if phase == Release {
        envPos := TruncDiv256(envPos * rate);
        if envPos <= 0 {
          phase := Phase.NoteOff;
        }
      }
      if phase == Phase.NoteOff {
        return -1;
      }
      return envPos;
    }
  }
}
