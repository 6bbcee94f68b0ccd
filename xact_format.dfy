/** Layout constants, packed-field decoders and the decoded entities of a binary
    XACT sound bank (XSB), as read by src/sound/xactsoundbank_binary.cpp. */
module XactFormat {
  import opened Wrappers
  import opened Bytes

  // ---- Layout ----------------------------------------------------------------

  const kXSBID: nat := 0x5344_424B  // MKTAG('S', 'D', 'B', 'K')
  const kXSBVersion: nat := 11
  /** Size of the fixed header; the cue table follows it directly. */
  const kHeaderSize: nat := 56
  const k3DDefinitionSize: nat := 40
  const kCueDefinitionSize: nat := 20
  const kSoundDefinitionSize: nat := 20
  const kTrackDefinitionSize: nat := 4
  const kWaveBankNameSize: nat := 16
  /** A variation list is a 4-byte descriptor followed by 8-byte records. */
  const kVariationDescriptorSize: nat := 4
  const kVariationRecordSize: nat := 8

  /** Sentinels: "no offset" and "no sound index". */
  const kNoOffset: nat := 0xFFFF_FFFF
  const kNoSoundIndex: nat := 0xFFFF

  // ---- Flags -----------------------------------------------------------------

  const kXSBNoCueNames: nat := 0x01

  const kSound3D: nat        := 0x01
  const kSoundGainBoost: nat := 0x02
  const kSoundEQ: nat        := 0x04
  const kSoundTrivial: nat   := 0x08
  const kSoundSimple: nat    := 0x10

  const kPlayEventMultipleVariations: nat := 0x04
  const kPitchEventVariation: nat := 0x04
  const kPitchEventRelative: nat  := 0x10
  const kPitchEventFade: nat      := 0x20
  const kLowPassEventRandom: nat   := 0x04
  const kLowPassEventRelative: nat := 0x10
  const kLowPassEventSweep: nat    := 0x20
  const kMarkerEventRepeat: nat := 0x20

  /** Whether the single-bit mask is set in x. */
  predicate HasFlag(x: nat, mask: nat)
    requires mask in {0x01, 0x02, 0x04, 0x08, 0x10, 0x20}
  {
    (x / mask) % 2 == 1
  }

  // ---- Constants of the sound-bank interface ---------------------------------
  // The weight range, the selection methods and the event-type tags are declared in
  // src/sound/xactsoundbank.h, which is not part of this model. The values below stand
  // in for them; the proofs use only that the weight range is not empty and that the
  // event tags are distinct.

  const kWeightMinimum: nat := 0
  const kWeightMaximum: nat := 255

  const kSelectMethodOrdered: nat := 0
  /** Selection method of a cue or track that the decoder never assigns. */
  const kInitialSelectMethod: nat := 0

  const kEventTypePlay: u8        := 1
  const kEventTypePlayComplex: u8 := 3
  const kEventTypePitch: u8       := 4
  const kEventTypeVolume: u8      := 6
  const kEventTypeLowPass: u8     := 7
  const kEventTypeLFOMulti: u8    := 9
  const kEventTypeLoop: u8        := 12
  const kEventTypeMarker: u8      := 14

  // ---- Variation descriptor --------------------------------------------------

  /** The bit-packed 32-bit descriptor that heads every cue and wave variation list. */
  datatype VariationData = VariationData(count: nat, current: nat, selectMethod: nat, flags: nat)

  /** Split a descriptor word: flags = bits 30-31, current = bits 17-29,
      selectMethod = bits 13-16, count = bits 0-12. The four fields together are
      exactly the word again. */
  function DecodeVariationData(w: nat): (d: VariationData)
    requires w < 0x1_0000_0000
    ensures d.flags < 4 && d.current < 0x2000 && d.selectMethod < 0x10 && d.count < 0x2000
    ensures w == d.flags * 0x4000_0000 + d.current * 0x2_0000 + d.selectMethod * 0x2000 + d.count
  {
    VariationData(w % 0x2000, (w / 0x2_0000) % 0x2000, (w / 0x2000) % 0x10, w / 0x4000_0000)
  }

  /** The word a descriptor with in-range fields is stored as. */
  function EncodeVariationData(d: VariationData): (w: nat)
    requires d.flags < 4 && d.current < 0x2000 && d.selectMethod < 0x10 && d.count < 0x2000
    ensures w < 0x1_0000_0000
  {
    d.flags * 0x4000_0000 + d.current * 0x2_0000 + d.selectMethod * 0x2000 + d.count
  }

  // ---- Weights ---------------------------------------------------------------

  /** CLIP of one weight into [kWeightMinimum, kWeightMaximum]. */
  function ClipWeight(w: nat): (c: nat)
    ensures kWeightMinimum <= c <= kWeightMaximum
    ensures kWeightMinimum <= w <= kWeightMaximum ==> c == w
    ensures w < kWeightMinimum ==> c == kWeightMinimum
    ensures w > kWeightMaximum ==> c == kWeightMaximum
  {
    if w < kWeightMinimum then kWeightMinimum
    else if w > kWeightMaximum then kWeightMaximum
    else w
  }

  predicate WeightsValid(weightMin: nat, weightMax: nat)
  {
    kWeightMinimum <= weightMin <= weightMax <= kWeightMaximum
  }

  /** Both weights clipped independently, then swapped if out of order. */
  function OrderedWeights(weightMin: nat, weightMax: nat): (r: (nat, nat))
    ensures WeightsValid(r.0, r.1)
    ensures r == (ClipWeight(weightMin), ClipWeight(weightMax)) || r == (ClipWeight(weightMax), ClipWeight(weightMin))
  {
    var lo, hi := ClipWeight(weightMin), ClipWeight(weightMax);
    if lo > hi then (hi, lo) else (lo, hi)
  }

  // ---- Fixed-point parameters, as exact reals ---------------------------------

  function Clamp(x: real, lo: real, hi: real): (r: real)
    requires lo <= hi
    ensures lo <= r <= hi
    ensures lo <= x <= hi ==> r == x
    ensures x < lo ==> r == lo
    ensures x > hi ==> r == hi
  {
    if x < lo then lo else if x > hi then hi else x
  }

  /** CLIP of an integer into [lo, hi]. */
  function ClipInt(x: int, lo: int, hi: int): (r: int)
    requires lo <= hi
    ensures lo <= r <= hi
    ensures lo <= x <= hi ==> r == x
    ensures x < lo ==> r == lo
    ensures x > hi ==> r == hi
  {
    if x < lo then lo else if x > hi then hi else x
  }

  /** A pitch in 1/4096 of an octave scaled to semitones, limited to +-24. */
  function PitchSemitones(v: int): (r: real)
    ensures -24.0 <= r <= 24.0
    ensures -8192 <= v <= 8192 ==> r == (v * 12) as real / 4096.0
    ensures v < -8192 ==> r == -24.0
    ensures v > 8192 ==> r == 24.0
  {
    Clamp((v * 12) as real / 4096.0, -24.0, 24.0)
  }

  /** A volume in hundredths of a decibel, limited to +-64 dB. */
  function VolumeDecibels(v: int): (r: real)
    ensures -64.0 <= r <= 64.0
    ensures -6400 <= v <= 6400 ==> r == v as real / 100.0
    ensures v < -6400 ==> r == -64.0
    ensures v > 6400 ==> r == 64.0
  {
    Clamp(v as real / 100.0, -64.0, 64.0)
  }

  /** The parametric-EQ gain: a signed 16-bit value over 8192, limited to [-1, 4]. */
  function EqGain(v: int): (r: real)
    ensures -1.0 <= r <= 4.0
    ensures -8192 <= v <= 32768 ==> r == v as real / 8192.0
    ensures v < -8192 ==> r == -1.0
    ensures v > 32768 ==> r == 4.0
  {
    Clamp(v as real / 8192.0, -1.0, 4.0)
  }

  /** `1 << n` for the eight shift amounts a 3-bit field can hold. */
  const kShiftedOnes: seq<nat> := [1, 2, 4, 8, 16, 32, 64, 128]

  /** 2 to the power n. */
  function Pow2(n: nat): (p: nat)
    ensures p >= 1
  {
    if n == 0 then 1 else 2 * Pow2(n - 1)
  }

  /** The table holds the powers of two it stands for. */
  lemma ShiftedOnesArePowers()
    ensures forall n :: 0 <= n < |kShiftedOnes| ==> kShiftedOnes[n] == Pow2(n)
  {
    assert Pow2(1) == 2 && Pow2(2) == 4 && Pow2(3) == 8;
    assert Pow2(4) == 16 && Pow2(5) == 32 && Pow2(6) == 64 && Pow2(7) == 128;
  }

  /** The EQ Q factor: 1 / (1 << low 3 bits of the EQ word). */
  function EqQ(eq: nat): (r: real)
    ensures 1.0 / 128.0 <= r <= 1.0
    ensures r * Pow2(eq % 8) as real == 1.0
  {
    ShiftedOnesArePowers();
    1.0 / kShiftedOnes[eq % 8] as real
  }

  /** The EQ frequency: bits 3-15 of the EQ word, limited to [30, 8000]. */
  function EqFrequency(eq: nat): (f: nat)
    requires eq < 0x1_0000
    ensures 30 <= f <= 8000
    ensures 30 <= eq / 8 <= 8000 ==> f == eq / 8
    ensures eq / 8 < 30 ==> f == 30
    ensures eq / 8 > 8000 ==> f == 8000
  {
    ClipInt((eq / 8) % 0x2000, 30, 8000)
  }

  /** Number of rolloff-curve samples stored in a 3D block: at most 10. */
  function RolloffCurveLength(b: u8): (n: nat)
    ensures n <= 10
    ensures b <= 10 ==> n == b
    ensures b > 10 ==> n == 10
  {
    if b > 10 then 10 else b
  }

  /** A cone angle in degrees, limited to [0, 360]. */
  function ConeAngle(v: nat): (a: nat)
    ensures a <= 360
    ensures v <= 360 ==> a == v
    ensures v > 360 ==> a == 360
  {
    if v > 360 then 360 else v
  }

  // ---- Decoded entities ------------------------------------------------------

  datatype WaveBank = WaveBank(name: string)

  datatype CueVariation = CueVariation(soundIndex: nat, weightMin: nat, weightMax: nat)

  datatype Cue = Cue(name: string, variations: seq<CueVariation>, selectMethod: nat)

  /** A cue as it stands before its record is decoded. */
  const EmptyCue := Cue("", [], kInitialSelectMethod)

  datatype WaveVariation = WaveVariation(index: nat, bank: string, weightMin: nat, weightMax: nat)

  datatype PitchFade = PitchFade(pitchStart: real, pitchEnd: real, fadeDuration: nat)
  datatype VolumeFade = VolumeFade(volumeStart: real, volumeEnd: real, fadeDuration: nat)
  datatype LowPassSweep = LowPassSweep(cutOffStart: nat, cutOffEnd: nat, sweepDuration: nat,
                                       resonanceStart: real, resonanceEnd: real)
  datatype LFOShape = LFOShape(delta: real, pitch: real, filter: real, amplitude: real)
  datatype MarkerRepeat = MarkerRepeat(value: nat, repeatDuration: nat)

  /** Per-kind event parameters. An optional block is None when the declared parameter
      size was too small for it; the source then leaves those fields as constructed. */
  datatype EventParams =
    | NoParams
    | PitchParams(fadeStepCount: nat, isRelative: bool, enableFade: bool, enableVariation: bool,
                  pitchFade: Option<PitchFade>)
    | VolumeParams(fadeStepCount: nat, isRelative: bool, enableFade: bool, enableVariation: bool,
                   volumeFade: Option<VolumeFade>)
    | LowPassParams(isRelative: bool, random: bool, sweepCutOff: bool, sweepStepCount: nat,
                    sweep: Option<LowPassSweep>)
    | LFOMultiParams(shape: Option<LFOShape>)
    | LoopParams(count: nat)
    | MarkerParams(repeat: bool, repeatCount: nat, marker: Option<MarkerRepeat>)

  datatype Event = Event(eventType: u8, timestamp: nat, params: EventParams)

  /** The Play event that trivial and simple sounds get without reading one. */
  const SynthesizedPlay := Event(kEventTypePlay, 0, NoParams)

  datatype Track = Track(selectMethod: nat, waves: seq<WaveVariation>, events: seq<Event>)

  const EmptyTrack := Track(kInitialSelectMethod, [], [])

  /** Variation limits and delay that a long Play event stores on its sound. */
  datatype PlayVariation = PlayVariation(pitchMin: real, pitchMax: real,
                                         volumeMin: real, volumeMax: real, delay: nat)

  /** The 3D block; its five IEEE floats are kept as raw 32-bit words. */
  datatype Params3D = Params3D(
    volumeLFE: real, volumeI3DL2: real,
    coneInsideAngle: nat, coneOutsideAngle: nat, coneOutsideVolume: real,
    distanceMinBits: nat, distanceMaxBits: nat, distanceFactorBits: nat,
    rollOffFactorBits: nat, dopplerFactorBits: nat,
    mode: nat, rollOffCurve: seq<real>)

  datatype Sound = Sound(
    volume: real, pitch: real, layer: nat, categoryIndex: nat, priority: nat,
    parametricEQ: bool, parametricEQGain: real, parametricEQQ: real, parametricEQFreq: nat,
    gainBoost: bool, is3D: bool, params3D: Option<Params3D>,
    playVariation: Option<PlayVariation>, tracks: seq<Track>)

  // ---- Wave variations -------------------------------------------------------

  /** The wave variation a packed reference names: the low 16 bits of `indices` are the wave
      index; the high 16 bits select a wave bank, whose name is kept only when that bank
      exists; the weights are clipped and ordered. */
  function WaveOf(banks: seq<WaveBank>, indices: nat, weightMin: nat, weightMax: nat): (w: WaveVariation)
    ensures w.index == indices % 0x1_0000 && w.index < 0x1_0000
    ensures indices / 0x1_0000 < |banks| ==> w.bank == banks[indices / 0x1_0000].name
    ensures indices / 0x1_0000 >= |banks| ==> w.bank == ""
    ensures WeightsValid(w.weightMin, w.weightMax)
    ensures (w.weightMin, w.weightMax) == (ClipWeight(weightMin), ClipWeight(weightMax))
         || (w.weightMin, w.weightMax) == (ClipWeight(weightMax), ClipWeight(weightMin))
  {
    var bankIndex := indices / 0x1_0000;
    var weights := OrderedWeights(weightMin, weightMax);
    WaveVariation(indices % 0x1_0000, if bankIndex < |banks| then banks[bankIndex].name else "",
                  weights.0, weights.1)
  }

  /** addWaveVariation: one wave appended to the track; nothing else of the track changes. */
  function AddWaveVariation(banks: seq<WaveBank>, track: Track, indices: nat,
                            weightMin: nat, weightMax: nat): Track
  {
    track.(waves := track.waves + [WaveOf(banks, indices, weightMin, weightMax)])
  }
}
