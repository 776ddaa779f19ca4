/**
 * The M4A (MusicPlayDef.s) instruction set: the opcode values, the tick
 * counts named by the wait and note opcodes, and the argument ranges.
 */
module InstSet {

  /** Largest value of any command argument. */
  const Mxv := 0x7F
  /** Centre value of PAN, BEND and TUNE. */
  const CentreValue := 0x40

  // Wait opcodes W00..W96.
  const W00 := 0x80
  const W96 := 0xB0

  // Executable commands (the `CMD` enumeration).
  const Fine := 0xB1
  const Goto := 0xB2
  const Patt := 0xB3
  const Pend := 0xB4
  const Rept := 0xB5
  const Prev := 0xB6
  const MemAcc := 0xB9
  const Prio := 0xBA
  const Tempo := 0xBB
  const KeySh := 0xBC
  const Voice := 0xBD
  const Vol := 0xBE
  const Pan := 0xBF
  const Bend := 0xC0
  const BendR := 0xC1
  const Lfos := 0xC2
  const LfoDl := 0xC3
  const Mod := 0xC4
  const ModT := 0xC5
  const Tune := 0xC8
  const XCmd := 0xCD
  const XIecv := 0x08
  const XIecl := 0x09

  // Note opcodes (the `NoteCMD` enumeration).
  const Eot := 0xCE
  const Tie := 0xCF
  const N01 := 0xD0
  const N96 := 0xFF

  predicate IsWait(op: int) { W00 <= op <= W96 }

  predicate IsNote(op: int) { Tie <= op <= N96 }

  /** `op` is a member of the `CMD` enumeration. */
  predicate IsCmd(op: int)
  {
    op in {Fine, Goto, Patt, Pend, Rept, Prev, MemAcc, Prio, Tempo, KeySh,
           Voice, Vol, Pan, Bend, BendR, Lfos, LfoDl, Mod, ModT, Tune, XCmd,
           XIecv, XIecl}
  }

  /** `REPEATABLE`: the commands whose opcode may be omitted (running status). */
  predicate IsRepeatable(op: int)
  {
    op in {Voice, Vol, Pan, Bend, BendR, Mod, Tune, XCmd, Eot}
  }

  predicate IsKey(b: int) { 0 <= b <= Mxv }
  predicate IsVelocity(b: int) { 0 <= b <= Mxv }
  predicate IsGate(b: int) { 1 <= b <= 3 }
  /** `ModArg`: vibrato, tremolo, auto-panpot. */
  predicate IsModArg(b: int) { 0 <= b <= 2 }
  /** `MemAccArg`: mem_set .. mem_mem_blo. */
  predicate IsMemAccArg(b: int) { 0 <= b <= 17 }

  /**
   * The number in the `WaitCMD` member name of opcode `op` (W00 .. W96):
   * the ticks a WAIT command sets.
   */
  function WaitTicks(op: int): (t: nat)
    requires IsWait(op)
    ensures t <= 96
    ensures op <= 0x98 ==> t == op - W00
  {
    if op <= 0x98 then op - W00
    else match op
      case 0x99 => 28 case 0x9A => 30 case 0x9B => 32 case 0x9C => 36
      case 0x9D => 40 case 0x9E => 42 case 0x9F => 44 case 0xA0 => 48
      case 0xA1 => 52 case 0xA2 => 54 case 0xA3 => 56 case 0xA4 => 60
      case 0xA5 => 64 case 0xA6 => 66 case 0xA7 => 68 case 0xA8 => 72
      case 0xA9 => 76 case 0xAA => 78 case 0xAB => 80 case 0xAC => 84
      case 0xAD => 88 case 0xAE => 90 case 0xAF => 92 case _ => 96
  }

  /**
   * The number in the `NoteCMD` member name of a timed note opcode
   * (N01 = 0xD0 .. N96 = 0xFF): the base length of the note in ticks.
   */
  function NoteTicks(op: int): (t: nat)
    requires N01 <= op <= N96
    ensures 1 <= t <= 96
  {
    if op <= 0xE7 then op - Tie
    else match op
      case 0xE8 => 28 case 0xE9 => 30 case 0xEA => 32 case 0xEB => 36
      case 0xEC => 40 case 0xED => 42 case 0xEE => 44 case 0xEF => 48
      case 0xF0 => 52 case 0xF1 => 54 case 0xF2 => 56 case 0xF3 => 60
      case 0xF4 => 64 case 0xF5 => 66 case 0xF6 => 68 case 0xF7 => 72
      case 0xF8 => 76 case 0xF9 => 78 case 0xFA => 80 case 0xFB => 84
      case 0xFC => 88 case 0xFD => 90 case 0xFE => 92 case _ => 96
  }

  lemma WaitTicksStep(op: int)
    requires W00 <= op < W96
    ensures WaitTicks(op) < WaitTicks(op + 1)
  {
  }

  /** The durations named in `WaitCMD` strictly increase with the opcode. */
  lemma {:induction false} WaitTicksIncreasing(a: int, b: int)
    requires W00 <= a < b <= W96
    ensures WaitTicks(a) < WaitTicks(b)
    decreases b - a
  {
    WaitTicksStep(a);
    if a + 1 < b {
      WaitTicksIncreasing(a + 1, b);
    }
  }

  /** W96 is the last wait opcode, and names 96 ticks. */
  lemma WaitTableEnd()
    ensures WaitTicks(W96) == 96
    ensures forall op :: IsWait(op) ==> WaitTicks(op) <= WaitTicks(W96)
  {
    forall op | IsWait(op) ensures WaitTicks(op) <= WaitTicks(W96) {
      if op < W96 { WaitTicksIncreasing(op, W96); }
    }
  }

  /** Note opcode 0xCF + k names the same duration as wait opcode 0x80 + k. */
  lemma NoteMatchesWait(k: int)
    requires 1 <= k <= 48
    ensures NoteTicks(Tie + k) == WaitTicks(W00 + k)
  {
  }

  /** The wait, command and note opcodes are disjoint and cover 0x80..0xFF only partly. */
  lemma OpcodeClassesDisjoint(op: int)
    ensures !(IsWait(op) && IsNote(op))
    ensures IsWait(op) ==> !IsCmd(op) && op != Eot
    ensures IsNote(op) ==> !IsCmd(op)
    ensures IsRepeatable(op) ==> (IsCmd(op) && op >= 0x80) || op == Eot
  {
  }
}
