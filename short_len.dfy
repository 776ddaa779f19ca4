/**
 * The short-length table of the older player (`SHORT_LEN` and
 * `slen_to_ticks`): a wait or note length code 0x00..0x30 to MIDI ticks.
 */
module ShortLen {
  import opened Wrappers
  import InstSet

  /** `slen_to_ticks`: the `SHORT_LEN` entry for `code`, or `None` when there is none. */
  function SlenToTicks(code: int): (r: Option<nat>)
    ensures r.Some? <==> 0 <= code <= 0x30
  {
    if 0 <= code <= 0x18 then Some(code)
    else match code
      case 0x19 => Some(0x1C) case 0x1A => Some(0x1E) case 0x1B => Some(0x20)
      case 0x1C => Some(0x24) case 0x1D => Some(0x28) case 0x1E => Some(0x2C)
      case 0x1F => Some(0x2E) case 0x20 => Some(0x30) case 0x21 => Some(0x34)
      case 0x22 => Some(0x38) case 0x23 => Some(0x3C) case 0x24 => Some(0x3E)
      case 0x25 => Some(0x40) case 0x26 => Some(0x42) case 0x27 => Some(0x44)
      case 0x28 => Some(0x48) case 0x29 => Some(0x4C) case 0x2A => Some(0x4E)
      case 0x2B => Some(0x50) case 0x2C => Some(0x54) case 0x2D => Some(0x58)
      case 0x2E => Some(0x5A) case 0x2F => Some(0x5C) case 0x30 => Some(0x60)
      case _ => None
  }

  /** The short lengths 0x00..0x18 are tick counts as they stand. */
  lemma SlenIdentity(code: int)
    requires 0 <= code <= 0x18
    ensures SlenToTicks(code) == Some(code)
  {
  }

  lemma SlenStep(code: int)
    requires 0 <= code < 0x30
    ensures SlenToTicks(code).value < SlenToTicks(code + 1).value
  {
  }

  /** `SHORT_LEN` strictly increases with its key. */
  lemma {:induction false} SlenIncreasing(a: int, b: int)
    requires 0 <= a < b <= 0x30
    ensures SlenToTicks(a).value < SlenToTicks(b).value
    decreases b - a
  {
    SlenStep(a);
    if a + 1 < b {
      SlenIncreasing(a + 1, b);
    }
  }

  /** The table ends at 0x30 -> 0x60, its largest value. */
  lemma SlenTableEnd(code: int)
    requires 0 <= code <= 0x30
    ensures SlenToTicks(0x30) == Some(0x60)
    ensures SlenToTicks(code).value <= 0x60
  {
    if code < 0x30 { SlenIncreasing(code, 0x30); }
  }

  /**
   * `SHORT_LEN` disagrees with the durations named by the wait opcodes
   * W00..W96 at codes 0x1E, 0x1F, 0x22, 0x23 and 0x24 (for example 0x1E
   * gives 44 ticks where opcode 0x9E is W42), and agrees everywhere else.
   */
  lemma SlenDisagreesWithWaitTable(code: int)
    requires 0 <= code <= 0x30
    ensures SlenToTicks(code) != Some(InstSet.WaitTicks(InstSet.W00 + code))
        <==> code in {0x1E, 0x1F, 0x22, 0x23, 0x24}
  {
  }

  /**
   * The short-length table with the durations of the M4A wait opcodes: code
   * k is the length named by opcode 0x80 + k.
   */
  function SlenToTicksCorrected(code: int): (r: Option<nat>)
    ensures r.Some? <==> 0 <= code <= 0x30
    ensures r.Some? ==> r.value == InstSet.WaitTicks(InstSet.W00 + code)
  {
    if 0 <= code <= 0x18 then Some(code)
    else match code
      case 0x19 => Some(28) case 0x1A => Some(30) case 0x1B => Some(32)
      case 0x1C => Some(36) case 0x1D => Some(40) case 0x1E => Some(42)
      case 0x1F => Some(44) case 0x20 => Some(48) case 0x21 => Some(52)
      case 0x22 => Some(54) case 0x23 => Some(56) case 0x24 => Some(60)
      case 0x25 => Some(64) case 0x26 => Some(66) case 0x27 => Some(68)
      case 0x28 => Some(72) case 0x29 => Some(76) case 0x2A => Some(78)
      case 0x2B => Some(80) case 0x2C => Some(84) case 0x2D => Some(88)
      case 0x2E => Some(90) case 0x2F => Some(92) case 0x30 => Some(96)
      case _ => None
  }

  /** The corrected table still strictly increases. */
  lemma SlenCorrectedIncreasing(a: int, b: int)
    requires 0 <= a < b <= 0x30
    ensures SlenToTicksCorrected(a).value < SlenToTicksCorrected(b).value
  {
    InstSet.WaitTicksIncreasing(InstSet.W00 + a, InstSet.W00 + b);
  }
}
