/**
 * The voice and sample records of the M4A engine (`sappy/m4a.py`): voice-mode
 * validation, the rescaling of PSG envelopes, DirectSound sample validity,
 * square-wave generation, the noise-period check and MIDI note names.
 *
 * A constructor that raises `InvalidArgument` in the source is a function
 * returning `Err(InvalidArgument)` here.
 */
module Voices {
  import opened Wrappers
  import opened RomBytes
  import InstSet
  import Envelope

  /** `M4AVoiceMode`. */
  datatype Mode = DirectSound | PsgSquare1 | PsgSquare2 | PsgWave | PsgNoise
                | FixDSound | KeyZone | Percussion | Null
  {
    function Value(): int
    {
      match this
      case DirectSound => 0x0
      case PsgSquare1 => 0x1
      case PsgSquare2 => 0x2
      case PsgWave => 0x3
      case PsgNoise => 0x4
      case FixDSound => 0x8
      case KeyZone => 0x40
      case Percussion => 0x80
      case Null => 0xFF
    }
  }

  /** `M4AVoiceMode(b)`: the member with value b, or none (a `ValueError` in the source). */
  function ModeOf(b: int): (r: Option<Mode>)
    ensures r.Some? ==> r.value.Value() == b
  {
    if b == 0x0 then Some(DirectSound)
    else if b == 0x1 then Some(PsgSquare1)
    else if b == 0x2 then Some(PsgSquare2)
    else if b == 0x3 then Some(PsgWave)
    else if b == 0x4 then Some(PsgNoise)
    else if b == 0x8 then Some(FixDSound)
    else if b == 0x40 then Some(KeyZone)
    else if b == 0x80 then Some(Percussion)
    else if b == 0xFF then Some(Null)
    else None
  }

  /** The enum lookup inverts `Value`, so the nine modes have nine distinct values. */
  lemma ModeOfValue(m: Mode)
    ensures ModeOf(m.Value()) == Some(m)
  {
  }

  datatype Voice =
    | DirectSoundVoice(mode: Mode, root: int, fixed: bool, panning: int, samplePtr: int,
                       envelope: Envelope.EnvelopeState)
    | Square1(root: int, timeCtrl: int, sweep: int, dutyCycle: int, envelope: Envelope.EnvelopeState)
    | Square2(root: int, timeCtrl: int, dutyCycle: int, envelope: Envelope.EnvelopeState)
    | Waveform(root: int, timeCtrl: int, samplePtr: int, envelope: Envelope.EnvelopeState)
    | Noise(root: int, timeCtrl: int, period: int, envelope: Envelope.EnvelopeState)
    | Drum(voiceTable: map<int, Voice>)
    | KeyZoneVoice(voiceTable: map<int, Voice>, keymap: map<int, int>)

  /** `M4AVoice._validate`: the mode must be an `M4AVoiceMode` and the root a `KeyArg`. */
  function Validate(mode: int, root: int): (r: Result<Mode>)
    ensures r.Ok? <==> ModeOf(mode).Some? && InstSet.IsKey(root)
    ensures r.Ok? ==> r.value.Value() == mode
    ensures r.Err? ==> r.error == InvalidArgument
  {
    match ModeOf(mode)
    case None => Err(InvalidArgument)
    case Some(m) => if InstSet.IsKey(root) then Ok(m) else Err(InvalidArgument)
  }

  /** `M4APSGVoice._validate`: as `Validate`, and the DirectSound modes 0x0/0x8 are refused. */
  function ValidatePsg(mode: int, root: int): (r: Result<Mode>)
    ensures r.Ok? <==> ModeOf(mode).Some? && InstSet.IsKey(root) && mode != 0x0 && mode != 0x8
    ensures r.Ok? ==> r.value.Value() == mode
    ensures r.Err? ==> r.error == InvalidArgument
  {
    var v := Validate(mode, root);
    if v.Ok? && (mode == 0x0 || mode == 0x8) then Err(InvalidArgument) else v
  }

  /** The envelope of a PSG voice: GB register fields rescaled to the DirectSound ranges. */
  function PsgEnvelope(attack: int, decay: int, sustain: int, release: int): (e: Envelope.EnvelopeState)
    ensures e == Envelope.Init(255 - attack * 32, decay * 32, sustain * 16, release * 32)
  {
    Envelope.Init(255 - attack * 32, decay * 32, sustain * 16, release * 32)
  }

  /** The rescaling loses nothing: each register field can be read back from the envelope. */
  lemma PsgEnvelopeInverse(a: int, d: int, s: int, r: int)
    ensures (255 - PsgEnvelope(a, d, s, r).attack) / 32 == a
    ensures PsgEnvelope(a, d, s, r).decay / 32 == d
    ensures PsgEnvelope(a, d, s, r).sustain / 16 == s
    ensures PsgEnvelope(a, d, s, r).release / 32 == r
  {
  }

  /**
   * GB envelope registers (3-bit attack, decay and release, 4-bit sustain)
   * give a byte-bounded envelope whose attack step is at least 31, so the
   * envelope of a PSG voice always reaches DECAY.
   */
  lemma PsgEnvelopeBounded(a: int, d: int, s: int, r: int)
    requires 0 <= a <= 7 && 0 <= d <= 7 && 0 <= s <= 15 && 0 <= r <= 7
    ensures Envelope.Bounded(PsgEnvelope(a, d, s, r))
    ensures PsgEnvelope(a, d, s, r).attack >= 31
  {
    Envelope.InitBounded(255 - a * 32, d * 32, s * 16, r * 32);
  }

  /** `M4ADirectSound(...)`: validated by `Validate`; `fixed` iff the mode is FIX_DSOUND. */
  function NewDirectSound(mode: int, root: int, panning: int, samplePtr: int,
                          attack: int, decay: int, sustain: int, release: int): (r: Result<Voice>)
    ensures r.Ok? <==> Validate(mode, root).Ok?
    ensures r.Ok? ==> r.value.DirectSoundVoice? && r.value.mode.Value() == mode
                      && (r.value.fixed <==> mode == 0x8) && r.value.root == root
                      && r.value.envelope == Envelope.Init(attack, decay, sustain, release)
  {
    match Validate(mode, root)
    case Err(e) => Err(e)
    case Ok(m) =>
      Ok(DirectSoundVoice(m, root, m == FixDSound, panning, samplePtr,
                          Envelope.Init(attack, decay, sustain, release)))
  }

  /** `M4ASquare1(...)`: a PSG voice of mode 0x1; only the root can be refused. */
  function NewSquare1(root: int, timeCtrl: int, sweep: int, dutyCycle: int,
                      attack: int, decay: int, sustain: int, release: int): (r: Result<Voice>)
    ensures r.Ok? <==> InstSet.IsKey(root)
    ensures r.Ok? ==> r.value == Square1(root, timeCtrl, sweep, dutyCycle,
                                         PsgEnvelope(attack, decay, sustain, release))
  {
    match ValidatePsg(PsgSquare1.Value(), root)
    case Err(e) => Err(e)
    case Ok(_) => Ok(Square1(root, timeCtrl, sweep, dutyCycle, PsgEnvelope(attack, decay, sustain, release)))
  }

  /** `M4ASquare2(...)`: a PSG voice of mode 0x2. */
  function NewSquare2(root: int, timeCtrl: int, dutyCycle: int,
                      attack: int, decay: int, sustain: int, release: int): (r: Result<Voice>)
    ensures r.Ok? <==> InstSet.IsKey(root)
    ensures r.Ok? ==> r.value == Square2(root, timeCtrl, dutyCycle, PsgEnvelope(attack, decay, sustain, release))
  {
    match ValidatePsg(PsgSquare2.Value(), root)
    case Err(e) => Err(e)
    case Ok(_) => Ok(Square2(root, timeCtrl, dutyCycle, PsgEnvelope(attack, decay, sustain, release)))
  }

  /** `M4AWaveform(...)`: a PSG voice of mode 0x3. */
  function NewWaveform(root: int, timeCtrl: int, samplePtr: int,
                       attack: int, decay: int, sustain: int, release: int): (r: Result<Voice>)
    ensures r.Ok? <==> InstSet.IsKey(root)
    ensures r.Ok? ==> r.value == Waveform(root, timeCtrl, samplePtr, PsgEnvelope(attack, decay, sustain, release))
  {
    match ValidatePsg(PsgWave.Value(), root)
    case Err(e) => Err(e)
    case Ok(_) => Ok(Waveform(root, timeCtrl, samplePtr, PsgEnvelope(attack, decay, sustain, release)))
  }

  /** `M4ANoise(...)`: a PSG voice of mode 0x4. */
  function NewNoise(root: int, timeCtrl: int, period: int,
                    attack: int, decay: int, sustain: int, release: int): (r: Result<Voice>)
    ensures r.Ok? <==> InstSet.IsKey(root)
    ensures r.Ok? ==> r.value == Noise(root, timeCtrl, period, PsgEnvelope(attack, decay, sustain, release))
  {
    match ValidatePsg(PsgNoise.Value(), root)
    case Err(e) => Err(e)
    case Ok(_) => Ok(Noise(root, timeCtrl, period, PsgEnvelope(attack, decay, sustain, release)))
  }

  /** A sample: loop flag, playback frequency, loop start and the sample bytes. */
  datatype Sample = Sample(looped: bool, frequency: int, loopStart: int, data: seq<Byte>)

  /**
   * `M4ADirectSoundSample(looped, frequency, loop_start, data)` with its
   * validity flag: valid iff the loop byte is 0x00 or 0x40 and the loop
   * start lies within the data. The stored frequency is `frequency // 1024`.
   */
  function NewDirectSoundSample(looped: int, frequency: int, loopStart: int, data: seq<Byte>): (r: (Sample, bool))
    ensures r.1 <==> (looped == 0x0 || looped == 0x40) && 0 <= loopStart <= |data|
    ensures r.0.looped <==> looped == 0x40
    ensures r.0.frequency * 1024 <= frequency < (r.0.frequency + 1) * 1024
    ensures r.0.loopStart == loopStart && r.0.data == data
  {
    var valid := looped in {0x0, 0x40} && 0 <= loopStart <= |data|;
    (Sample(looped == 0x40, frequency / 1024, loopStart, data), valid)
  }

  /** `int(0x7F * PSG_SQUARE_VOLUME)` with the configured volume 0.2. */
  const Variance: int := 25
  const SquareSize: nat := 8
  const SquareHigh: Byte := 0x80 + Variance
  const SquareLow: Byte := 0x80 - Variance

  /** `CYCLES[d]` with Python tuple indexing: -4..-1 count from the end, anything else is an `IndexError`. */
  function Cycles(d: int): (r: Option<nat>)
    ensures r.Some? <==> -4 <= d < 4
    ensures r.Some? ==> r.value in {1, 2, 4, 6}
  {
    var cycles := [1, 2, 4, 6];
    if 0 <= d < 4 then Some(cycles[d])
    else if -4 <= d < 0 then Some(cycles[d + 4])
    else None
  }

  /**
   * `M4ASquareSample.square_wave(d)`: eight bytes, the first `CYCLES[d]` of
   * them high (0x80 + 25) and the rest low (0x80 - 25).
   */
  function SquareWave(duty: int): (r: Result<seq<Byte>>)
    ensures r.Ok? <==> -4 <= duty < 4
    ensures r.Err? ==> r.error == IndexError
    ensures r.Ok? ==> |r.value| == SquareSize
    ensures r.Ok? ==> forall i :: 0 <= i < SquareSize ==>
                        r.value[i] == (if i < Cycles(duty).value then SquareHigh else SquareLow)
  {
    match Cycles(duty)
    case None => Err(IndexError)
    case Some(h) => Ok(seq(h, _ => SquareHigh) + seq(SquareSize - h, _ => SquareLow))
  }

  /** The number of leading high bytes of a wave. */
  function HighRun(w: seq<Byte>): (n: nat)
    ensures n <= |w|
  {
    if w == [] || w[0] != SquareHigh then 0 else 1 + HighRun(w[1..])
  }

  lemma {:induction false} HighRunOfSplit(w: seq<Byte>, h: nat)
    requires h <= |w|
    requires forall i :: 0 <= i < |w| ==> w[i] == (if i < h then SquareHigh else SquareLow)
    ensures HighRun(w) == h
    decreases h
  {
    if h > 0 {
      HighRunOfSplit(w[1..], h - 1);
    } else if w != [] {
      assert w[0] == SquareLow;
    }
  }

  /** The duty-cycle index a square wave was generated from, read off its high run. */
  function DutyOf(w: seq<Byte>): Option<int>
  {
    var h := HighRun(w);
    if h == 1 then Some(0) else if h == 2 then Some(1)
    else if h == 4 then Some(2) else if h == 6 then Some(3) else None
  }

  /**
   * Every accepted duty cycle yields a distinct wave: the duty index, reduced
   * to 0..3 as Python's negative indexing does, is read back from the wave.
   */
  lemma SquareWaveDutyRoundTrip(duty: int)
    requires -4 <= duty < 4
    ensures DutyOf(SquareWave(duty).value) == Some(if duty < 0 then duty + 4 else duty)
  {
    HighRunOfSplit(SquareWave(duty).value, Cycles(duty).value);
  }

  /** `M4ANoiseSample.validate`: the period must be 0 or 1. */
  function ValidateNoise(period: int): (r: Option<Error>)
    ensures r.Some? ==> r.value == InvalidArgument
  {
    if 0 <= period <= 1 then None else Some(InvalidArgument)
  }

  /** The length of the sample `M4ANoiseSample.noise(period)` generates (its contents are random). */
  function NoiseLength(period: int): (r: Result<nat>)
  {
    if period == 0 then Ok(32767) else if period == 1 then Ok(127) else Err(InvalidArgument)
  }

  /**
   * `validate` accepts exactly the periods `noise` can generate: the 15-bit
   * and the 7-bit LFSR lengths.
   */
  lemma NoiseValidationAgrees(period: int)
    ensures ValidateNoise(period).None? <==> NoiseLength(period).Ok?
    ensures NoiseLength(period).Ok? ==> NoiseLength(period).value + 1 in {0x8000, 0x80}
  {
  }

  const NoteNames: seq<string> := ["C", "C#", "D", "D#", "E", "F", "F#", "G", "G#", "A", "A#", "B"]

  function DigitChar(d: int): (c: char)
    requires 0 <= d < 10
    ensures '0' <= c <= '9' && c as int - '0' as int == d
  {
    (d + '0' as int) as char
  }

  /** `str(n)` for a non-negative integer. */
  function DecimalString(n: nat): (s: string)
    ensures |s| >= 1 && '0' <= s[0] <= '9'
    decreases n
  {
    if n < 10 then [DigitChar(n)] else DecimalString(n / 10) + [DigitChar(n % 10)]
  }

  /** `int(s)` for a string of decimal digits. */
  function ParseDecimal(s: string): int
    decreases |s|
  {
    if s == [] then 0 else ParseDecimal(s[..|s| - 1]) * 10 + (s[|s| - 1] as int - '0' as int)
  }

  lemma {:induction false} DecimalRoundTrip(n: nat)
    ensures ParseDecimal(DecimalString(n)) == n
    decreases n
  {
    if n >= 10 {
      DecimalRoundTrip(n / 10);
      var s := DecimalString(n);
      assert s[..|s| - 1] == DecimalString(n / 10);
    }
  }

  function Abs(x: int): nat { if x < 0 then -x else x }

  /**
   * `note_name(n)`: pitch-class name, then the octave n // 12 - 2 written
   * with an `M` in place of a minus sign.
   */
  function NoteName(n: int): (s: string)
    ensures |s| >= 2
  {
    var octave := n / 12 - 2;
    NoteNames[n % 12] + (if octave < 0 then "M" else "") + DecimalString(Abs(octave))
  }

  function PitchIndex(x: string): Option<nat>
  {
    if x == "C" then Some(0) else if x == "C#" then Some(1)
    else if x == "D" then Some(2) else if x == "D#" then Some(3)
    else if x == "E" then Some(4) else if x == "F" then Some(5)
    else if x == "F#" then Some(6) else if x == "G" then Some(7)
    else if x == "G#" then Some(8) else if x == "A" then Some(9)
    else if x == "A#" then Some(10) else if x == "B" then Some(11)
    else None
  }

  function OctaveOf(rest: string): int
  {
    if rest != [] && rest[0] == 'M' then -ParseDecimal(rest[1..]) else ParseDecimal(rest)
  }

  /** Reads a note name back: pitch class, optional `M`, octave digits. */
  function ParseNoteName(s: string): Option<int>
  {
    var split := if |s| >= 2 && s[1] == '#' then 2 else 1;
    if |s| <= split then None
    else match PitchIndex(s[..split])
      case None => None
      case Some(p) => Some((OctaveOf(s[split..]) + 2) * 12 + p)
  }

  /** Note names are unambiguous: the MIDI note is recovered from its name. */
  lemma NoteNameRoundTrip(n: int)
    ensures ParseNoteName(NoteName(n)) == Some(n)
  {
    var octave := n / 12 - 2;
    var sign: string := if octave < 0 then "M" else "";
    var digits := DecimalString(Abs(octave));
    assert NoteName(n) == NoteNames[n % 12] + (sign + digits);
    OctaveRoundTrip(octave);
    PitchRoundTrip(n % 12, sign + digits);
  }

  /** The octave part of a note name reads back as the octave. */
  lemma OctaveRoundTrip(octave: int)
    ensures var rest := (if octave < 0 then "M" else "") + DecimalString(Abs(octave));
      |rest| >= 1 && OctaveOf(rest) == octave
  {
    var digits := DecimalString(Abs(octave));
    DecimalRoundTrip(Abs(octave));
    if octave < 0 {
      assert ("M" + digits)[1..] == digits;
    } else {
      assert "" + digits == digits;
    }
  }

  /** The pitch-class prefix of a note name reads back as the pitch class. */
  lemma PitchRoundTrip(p: int, rest: string)
    requires 0 <= p < 12 && |rest| >= 1 && rest[0] != '#'
    ensures ParseNoteName(NoteNames[p] + rest) == Some((OctaveOf(rest) + 2) * 12 + p)
  {
    var s := NoteNames[p] + rest;
    var split := |NoteNames[p]|;
    assert s[..split] == NoteNames[p];
    assert s[split..] == rest;
  }
}
