/**
 * The parameters of the GBA `SoundDriverMode` call: a 32-bit word whose low
 * 24 bits pack reverb, polyphony, volume, sample-rate and DAC settings.
 * `SoundDriverMode` (sappy/m4a.py) and `SoundEngine` (sappy/romio.py) are the
 * same record; `parse_sdm`/`check_sdm` (sappy/rom.py) and
 * `parse_mixer`/`check_mixer` (sappy/romio.py) decode and check it.
 */
module SoundDriver {
  import opened Wrappers

  datatype SoundDriverMode = SoundDriverMode(
    reverb: int, reverbEnabled: bool, polyphony: int,
    volumeInd: int, freqInd: int, dacInd: int)
  {
    /** `volume`: the 4-bit volume index scaled to 0..255. */
    function Volume(): (v: int)
      ensures 0 <= volumeInd <= 15 ==> 0 <= v <= 255 && v % 17 == 0
    {
      volumeInd * 17
    }

    /** `frequency`: the sample rate in Hz; a `KeyError` outside indices 1..12. */
    function Frequency(): (r: Result<int>)
      ensures r.Ok? <==> 1 <= freqInd <= 12
      ensures r.Err? ==> r.error == KeyError
    {
      if freqInd == 1 then Ok(5734) else if freqInd == 2 then Ok(7884)
      else if freqInd == 3 then Ok(10512) else if freqInd == 4 then Ok(13379)
      else if freqInd == 5 then Ok(15768) else if freqInd == 6 then Ok(18157)
      else if freqInd == 7 then Ok(21024) else if freqInd == 8 then Ok(26758)
      else if freqInd == 9 then Ok(31536) else if freqInd == 10 then Ok(36314)
      else if freqInd == 11 then Ok(40137) else if freqInd == 12 then Ok(42048)
      else Err(KeyError)
    }

    /** `dac`: the D/A converter bit depth; a `KeyError` outside indices 8..11. */
    function Dac(): (r: Result<int>)
      ensures r.Ok? <==> 8 <= dacInd <= 11
      ensures r.Err? ==> r.error == KeyError
    {
      if dacInd == 8 then Ok(9) else if dacInd == 9 then Ok(8)
      else if dacInd == 10 then Ok(7) else if dacInd == 11 then Ok(6)
      else Err(KeyError)
    }
  }

  /** The field defaults of the record. */
  const Default := SoundDriverMode(0, false, 8, 15, 4, 9)
  /** `SoundDriverMode._DEFAULT`, the driver word of those defaults. */
  const DefaultWord := 0x0094_F800

  /** A higher sample-rate index always selects a higher rate. */
  lemma FrequencyIncreasing(m: SoundDriverMode, n: SoundDriverMode)
    requires 1 <= m.freqInd < n.freqInd <= 12
    ensures m.Frequency().value < n.Frequency().value
  {
  }

  /** The DAC table maps index i to 17 - i bits. */
  lemma DacBits(m: SoundDriverMode)
    requires 8 <= m.dacInd <= 11
    ensures m.Dac().value == 17 - m.dacInd
  {
  }

  /**
   * `parse_sdm`: reverb from bits 0-6, the enable flag from bit 7, then
   * polyphony, volume, sample rate and DAC from the four nibbles at bits
   * 8, 12, 16 and 20. Masking and shifting is taking a floor quotient and a
   * remainder, which Dafny's `/` and `%` by positive constants are.
   */
  function ParseSdm(word: int): (m: SoundDriverMode)
    ensures 0 <= m.reverb < 128
    ensures 0 <= m.polyphony < 16 && 0 <= m.volumeInd < 16
    ensures 0 <= m.freqInd < 16 && 0 <= m.dacInd < 16
  {
    SoundDriverMode(
      word % 0x80,
      (word / 0x80) % 2 == 1,
      (word / 0x100) % 0x10,
      (word / 0x1000) % 0x10,
      (word / 0x1_0000) % 0x10,
      (word / 0x10_0000) % 0x10)
  }

  /** Whether every field fits the width `ParseSdm` gives it. */
  predicate Packable(m: SoundDriverMode)
  {
    && 0 <= m.reverb < 0x80 && 0 <= m.polyphony < 0x10 && 0 <= m.volumeInd < 0x10
    && 0 <= m.freqInd < 0x10 && 0 <= m.dacInd < 0x10
  }

  /** The driver word holding a record's fields at the positions `ParseSdm` reads. */
  function PackSdm(m: SoundDriverMode): (w: int)
    requires Packable(m)
    ensures 0 <= w < 0x100_0000
  {
    m.reverb + 0x80 * ((if m.reverbEnabled then 1 else 0)
      + 2 * (m.polyphony + 0x10 * (m.volumeInd + 0x10 * (m.freqInd + 0x10 * m.dacInd))))
  }

  /** Packing a record and parsing the word gives the record back. */
  lemma ParsePackRoundTrip(m: SoundDriverMode)
    requires Packable(m)
    ensures ParseSdm(PackSdm(m)) == m
  {
    var e := if m.reverbEnabled then 1 else 0;
    var t5 := m.dacInd;
    var t4 := m.freqInd + 0x10 * t5;
    var t3 := m.volumeInd + 0x10 * t4;
    var t2 := m.polyphony + 0x10 * t3;
    var t1 := e + 2 * t2;
    var w := m.reverb + 0x80 * t1;
    assert w == PackSdm(m);
    assert w % 0x80 == m.reverb && w / 0x80 == t1;
    assert t1 % 2 == e && t1 / 2 == t2;
    assert w / 0x100 == t2;
    assert t2 % 0x10 == m.polyphony && t2 / 0x10 == t3;
    assert w / 0x1000 == t3;
    assert t3 % 0x10 == m.volumeInd && t3 / 0x10 == t4;
    assert w / 0x1_0000 == t4;
    assert t4 % 0x10 == m.freqInd && t4 / 0x10 == t5;
    assert w / 0x10_0000 == t5;
  }

  /** `SoundDriverMode._DEFAULT` is the packed form of the record's defaults. */
  lemma DefaultWordIsDefault()
    ensures PackSdm(Default) == DefaultWord
    ensures ParseSdm(DefaultWord) == Default
  {
    ParsePackRoundTrip(Default);
  }

  predicate ReverbOk(m: SoundDriverMode) { 0 <= m.reverb <= 127 }
  predicate PolyphonyOk(m: SoundDriverMode) { 1 <= m.polyphony <= 12 }
  predicate VolumeOk(m: SoundDriverMode) { 1 <= m.volumeInd <= 15 }
  predicate FrequencyOk(m: SoundDriverMode) { 1 <= m.freqInd <= 12 }
  predicate DacOk(m: SoundDriverMode) { 8 <= m.dacInd <= 11 }

  /** `check_sdm`: Python's chained `a == b == c == d == e` over the five range checks. */
  function CheckSdm(m: SoundDriverMode): (ok: bool)
  {
    && ReverbOk(m) == PolyphonyOk(m) && PolyphonyOk(m) == VolumeOk(m)
    && VolumeOk(m) == FrequencyOk(m) && FrequencyOk(m) == DacOk(m)
  }

  /**
   * The chained comparison accepts a record when all five checks hold and
   * also when all five fail.
   */
  lemma CheckSdmAllOrNone(m: SoundDriverMode)
    ensures CheckSdm(m) <==>
      (ReverbOk(m) && PolyphonyOk(m) && VolumeOk(m) && FrequencyOk(m) && DacOk(m))
      || (!ReverbOk(m) && !PolyphonyOk(m) && !VolumeOk(m) && !FrequencyOk(m) && !DacOk(m))
  {
  }

  /**
   * On a parsed word the reverb check always holds, so `check_sdm` accepts
   * exactly the words whose four other fields are in range, and then the
   * rate and DAC lookups succeed.
   */
  lemma CheckSdmOfParsed(word: int)
    ensures CheckSdm(ParseSdm(word)) <==>
      PolyphonyOk(ParseSdm(word)) && VolumeOk(ParseSdm(word))
      && FrequencyOk(ParseSdm(word)) && DacOk(ParseSdm(word))
    ensures CheckSdm(ParseSdm(word)) ==>
      ParseSdm(word).Frequency().Ok? && ParseSdm(word).Dac().Ok?
  {
  }

  /** A record that fails every check, which `check_sdm` nevertheless accepts. */
  lemma CheckSdmAcceptsAllFailing()
    ensures var m := SoundDriverMode(200, false, 0, 0, 0, 0);
            CheckSdm(m) && !ReverbOk(m) && !DacOk(m)
  {
  }

  /** `parse_mixer`: the decoding of sappy/romio.py. */
  function ParseMixer(mixerData: int): (m: SoundDriverMode)
    ensures m == ParseSdm(mixerData)
  {
    SoundDriverMode(
      mixerData % 0x80,
      (mixerData / 0x80) % 2 == 1,
      (mixerData / 0x100) % 0x10,
      (mixerData / 0x1000) % 0x10,
      (mixerData / 0x1_0000) % 0x10,
      (mixerData / 0x10_0000) % 0x10)
  }

  /** `check_mixer`: the checks of sappy/romio.py, chained the same way. */
  function CheckMixer(m: SoundDriverMode): (ok: bool)
    ensures ok <==> CheckSdm(m)
  {
    var reverbCheck := 0 <= m.reverb <= 127;
    var polyphonyCheck := 1 <= m.polyphony <= 12;
    var volumeCheck := 1 <= m.volumeInd <= 15;
    var frequencyCheck := 1 <= m.freqInd <= 12;
    var dacCheck := 8 <= m.dacInd <= 11;
    reverbCheck == polyphonyCheck && polyphonyCheck == volumeCheck
    && volumeCheck == frequencyCheck && frequencyCheck == dacCheck
  }
}
