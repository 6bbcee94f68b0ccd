/** Reference definition of what the XSB decoder builds from a byte buffer: one function per
    table or record of src/sound/xactsoundbank_binary.cpp, each None when the source would
    fail (a read or seek past the end, a bad header, a trivial or simple sound without
    exactly one track). */
module XactSpec {
  import opened Wrappers
  import opened Bytes
  import opened XactFormat
  import opened XactEvents

  // ---- Variation lists ---------------------------------------------------------

  /** A variation list at off: its descriptor and all of its 8-byte records lie inside the buffer. */
  predicate VariationListFits(s: seq<u8>, off: nat)
  {
    off + kVariationDescriptorSize <= |s|
    && off + kVariationDescriptorSize + kVariationRecordSize * DecodeVariationData(U32LE(s, off)).count <= |s|
  }

  function ListDescriptor(s: seq<u8>, off: nat): VariationData
    requires off + kVariationDescriptorSize <= |s|
  {
    DecodeVariationData(U32LE(s, off))
  }

  /** Cue variation j of the list at off: sound index, 2 unused bytes, two weights. */
  function CueVariationAt(s: seq<u8>, off: nat, j: nat): CueVariation
    requires off + 4 + 8 * (j + 1) <= |s|
  {
    var rec := off + 4 + 8 * j;
    var (lo, hi) := OrderedWeights(U16LE(s, rec + 4), U16LE(s, rec + 6));
    CueVariation(U16LE(s, rec), lo, hi)
  }

  function CueVariationsAt(s: seq<u8>, off: nat): (vs: seq<CueVariation>)
    requires VariationListFits(s, off)
    ensures |vs| == ListDescriptor(s, off).count
  {
    var n := ListDescriptor(s, off).count;
    seq(n, j requires 0 <= j < n => CueVariationAt(s, off, j))
  }

  /** Wave variation j of the list at off: packed bank and wave index, then two weights. */
  function WaveRecordAt(banks: seq<WaveBank>, s: seq<u8>, off: nat, j: nat): WaveVariation
    requires off + 4 + 8 * (j + 1) <= |s|
  {
    var rec := off + 4 + 8 * j;
    WaveOf(banks, U32LE(s, rec), U16LE(s, rec + 4), U16LE(s, rec + 6))
  }

  function WaveRecordsAt(banks: seq<WaveBank>, s: seq<u8>, off: nat): (ws: seq<WaveVariation>)
    requires VariationListFits(s, off)
    ensures |ws| == ListDescriptor(s, off).count
  {
    var n := ListDescriptor(s, off).count;
    seq(n, j requires 0 <= j < n => WaveRecordAt(banks, s, off, j))
  }

  /** readWaveVariations: the track takes the list's selection method, and one wave per record
      is appended to it with addWaveVariation. */
  function WaveListInto(banks: seq<WaveBank>, s: seq<u8>, t: Track, off: nat): Track
    requires VariationListFits(s, off)
  {
    t.(selectMethod := ListDescriptor(s, off).selectMethod, waves := t.waves + WaveRecordsAt(banks, s, off))
  }

  // ---- Wave banks --------------------------------------------------------------

  predicate WaveBanksFit(s: seq<u8>, off: nat, count: nat)
  {
    off + kWaveBankNameSize * count <= |s|
  }

  function WaveBankAt(s: seq<u8>, off: nat, i: nat): WaveBank
    requires off + kWaveBankNameSize * (i + 1) <= |s|
  {
    var p := off + kWaveBankNameSize * i;
    WaveBank(TextBeforeNul(s[p..p + kWaveBankNameSize]))
  }

  function WaveBanksAt(s: seq<u8>, off: nat, count: nat): (banks: seq<WaveBank>)
    requires WaveBanksFit(s, off, count)
    ensures |banks| == count
  {
    seq(count, i requires 0 <= i < count => WaveBankAt(s, off, i))
  }

  /** A table that fits has every shorter table fit too. */
  lemma WaveBanksFitPrefix(s: seq<u8>, off: nat, i: nat, n: nat)
    requires i <= n
    ensures WaveBanksFit(s, off, n) ==> WaveBanksFit(s, off, i)
  {
    assert kWaveBankNameSize * i <= kWaveBankNameSize * n;
  }

  /** The bank table grows one name at a time. */
  lemma WaveBanksSnoc(s: seq<u8>, off: nat, i: nat)
    requires WaveBanksFit(s, off, i + 1)
    ensures WaveBanksFit(s, off, i)
    ensures WaveBanksAt(s, off, i + 1) == WaveBanksAt(s, off, i) + [WaveBankAt(s, off, i)]
  {
  }

  /** Name lookup as the loaders fill it: later entries overwrite earlier ones; None is not registered. */
  function NameIndex(names: seq<Option<string>>): map<string, nat>
  {
    if names == [] then map[]
    else
      var m := NameIndex(names[..|names| - 1]);
      match names[|names| - 1]
      case None => m
      case Some(n) => m[n := |names| - 1]
  }

  /** Registering one more name is one map update. */
  lemma NameIndexSnoc(names: seq<Option<string>>, n: Option<string>)
    ensures NameIndex(names + [n]) == if n.Some? then NameIndex(names)[n.value := |names|] else NameIndex(names)
  {
    assert (names + [n])[..|names|] == names;
  }

  function BankNames(banks: seq<WaveBank>): (names: seq<Option<string>>)
    ensures |names| == |banks|
  {
    seq(|banks|, i requires 0 <= i < |banks| => Some(banks[i].name))
  }

  lemma BankNamesSnoc(banks: seq<WaveBank>, b: WaveBank)
    ensures BankNames(banks + [b]) == BankNames(banks) + [Some(b.name)]
  {
  }

  // ---- Cues --------------------------------------------------------------------

  /** Whether the cue record at rec has a name to read: names are not globally switched off
      and its name offset is not the sentinel. */
  predicate CueNamed(s: seq<u8>, xsbFlags: nat, rec: nat)
    requires rec + 8 <= |s|
  {
    !HasFlag(xsbFlags, kXSBNoCueNames) && U32LE(s, rec + 4) != kNoOffset
  }

  /** Every read and seek for the cue record at rec stays inside the buffer. */
  predicate CueRecordFits(s: seq<u8>, xsbFlags: nat, rec: nat)
  {
    rec + kCueDefinitionSize <= |s|
    && (CueNamed(s, xsbFlags, rec) ==> U32LE(s, rec + 4) <= |s|)
    && (U32LE(s, rec + 8) != kNoOffset ==> VariationListFits(s, U32LE(s, rec + 8)))
  }

  /** The cue of the 20-byte record at rec: 2 unused bytes, sound index, name offset,
      entry offset, 8 unused bytes. */
  function CueAt(s: seq<u8>, xsbFlags: nat, rec: nat): Cue
    requires CueRecordFits(s, xsbFlags, rec)
  {
    var soundIndex := U16LE(s, rec + 2);
    var offsetName := U32LE(s, rec + 4);
    var offsetEntry := U32LE(s, rec + 8);
    var cue := if CueNamed(s, xsbFlags, rec) then EmptyCue.(name := TextBeforeNul(s[offsetName..])) else EmptyCue;
    if offsetEntry != kNoOffset then
      cue.(selectMethod := ListDescriptor(s, offsetEntry).selectMethod,
           variations := CueVariationsAt(s, offsetEntry))
    else if soundIndex != kNoSoundIndex then
      cue.(selectMethod := kSelectMethodOrdered,
           variations := [CueVariation(soundIndex, kWeightMinimum, kWeightMaximum)])
    else cue
  }

  predicate CuesFit(s: seq<u8>, xsbFlags: nat, off: nat, count: nat)
  {
    forall i :: 0 <= i < count ==> CueRecordFits(s, xsbFlags, off + kCueDefinitionSize * i)
  }

  function CuesAt(s: seq<u8>, xsbFlags: nat, off: nat, count: nat): (cues: seq<Cue>)
    requires CuesFit(s, xsbFlags, off, count)
    ensures |cues| == count
  {
    seq(count, i requires 0 <= i < count => CueAt(s, xsbFlags, off + kCueDefinitionSize * i))
  }

  /** The names the cue loader registers: those of the named cues. */
  function CueNames(s: seq<u8>, xsbFlags: nat, off: nat, cues: seq<Cue>): (names: seq<Option<string>>)
    requires CuesFit(s, xsbFlags, off, |cues|)
    ensures |names| == |cues|
  {
    seq(|cues|, i requires 0 <= i < |cues| =>
      if CueNamed(s, xsbFlags, off + kCueDefinitionSize * i) then Some(cues[i].name) else None)
  }

  /** The cue table grows one record at a time. */
  lemma CuesSnoc(s: seq<u8>, xsbFlags: nat, off: nat, i: nat)
    requires CuesFit(s, xsbFlags, off, i) && CueRecordFits(s, xsbFlags, off + kCueDefinitionSize * i)
    ensures CuesFit(s, xsbFlags, off, i + 1)
    ensures CuesAt(s, xsbFlags, off, i + 1) == CuesAt(s, xsbFlags, off, i) + [CueAt(s, xsbFlags, off + kCueDefinitionSize * i)]
  {
  }

  /** Decoding one more cue registers at most its own name. */
  lemma CueNamesSnoc(s: seq<u8>, xsbFlags: nat, off: nat, cues: seq<Cue>, c: Cue)
    requires CuesFit(s, xsbFlags, off, |cues| + 1)
    ensures CueNames(s, xsbFlags, off, cues + [c]) == CueNames(s, xsbFlags, off, cues)
      + [if CueNamed(s, xsbFlags, off + kCueDefinitionSize * |cues|) then Some(c.name) else None]
  {
    assert CueRecordFits(s, xsbFlags, off + kCueDefinitionSize * |cues|);
  }

  // ---- Sounds ------------------------------------------------------------------

  /** The fixed fields of a 20-byte sound record. */
  datatype SoundRecord = SoundRecord(
    indicesOrOffset: nat, volume: nat, pitch: int, trackCount: nat, layer: nat,
    categoryIndex: nat, flags: nat, index3DParam: nat, priority: nat, volume3D: nat,
    eqGain: int, eq: nat)

  function SoundRecordAt(s: seq<u8>, rec: nat): (r: SoundRecord)
    requires rec + kSoundDefinitionSize <= |s|
    ensures r.volume < 0x1_0000 && r.eq < 0x1_0000 && r.flags < 0x100 && r.trackCount < 0x100
  {
    SoundRecord(U32LE(s, rec), U16LE(s, rec + 4), S16LE(s, rec + 6), s[rec + 8], s[rec + 9],
                s[rec + 10], s[rec + 11], U16LE(s, rec + 12), s[rec + 14], s[rec + 15],
                S16LE(s, rec + 16), U16LE(s, rec + 18))
  }

  /** The 3D block at b: its 30 fixed bytes and its (at most 10) curve samples lie in the buffer. */
  predicate Params3DFits(s: seq<u8>, b: nat)
  {
    b + 30 <= |s| && b + 30 + RolloffCurveLength(s[b + 29]) <= |s|
  }

  /** The fixed 30 bytes of the 3D block at b: cone angles, outside volume, 2 unused bytes,
      five IEEE floats (kept as their bits) and the mode; the rolloff curve is not yet read. */
  function Params3DHead(s: seq<u8>, b: nat, volume: nat, volume3D: nat): Params3D
    requires b + 30 <= |s|
  {
    Params3D(
      -(((volume / 0x200) % 0x80) as real) * 0.5,
      Clamp(-(volume3D as real) * 2.56, -64.0, 0.0),
      ConeAngle(U16LE(s, b)), ConeAngle(U16LE(s, b + 2)),
      Clamp(S16LE(s, b + 4) as real / 100.0, -64.0, 0.0),
      U32LE(s, b + 8), U32LE(s, b + 12), U32LE(s, b + 16), U32LE(s, b + 20), U32LE(s, b + 24),
      s[b + 28], [])
  }

  /** The 3D block at b with its rolloff curve: byte 29 gives the curve length (at most 10),
      and each curve byte is scaled from [0, 255] to [0, 1]. */
  function Params3DAt(s: seq<u8>, b: nat, volume: nat, volume3D: nat): (p: Params3D)
    requires Params3DFits(s, b)
  {
    var n := RolloffCurveLength(s[b + 29]);
    Params3DHead(s, b, volume, volume3D).(rollOffCurve := seq(n, j requires 0 <= j < n => s[b + 30 + j] as real / 255.0))
  }

  /** One complex track: the 32-bit word at ptr holds the event count (low 8 bits) and the
      offset of the event table (high 24 bits); the events are applied in order and a deferred
      wave list, if any, is read last. */
  function ComplexTrackAt(banks: seq<WaveBank>, s: seq<u8>, ptr: nat, t0: Track,
                          pv: Option<PlayVariation>): Option<(Track, Option<PlayVariation>)>
  {
    if ptr + kTrackDefinitionSize > |s| then None
    else
      var trackData := U32LE(s, ptr);
      var eventsOffset := trackData / 0x100;
      if eventsOffset > |s| then None
      else
        match EventsFrom(s, eventsOffset, trackData % 0x100)
        case None => None
        case Some(evs) =>
          var st := ApplyEvents(banks, TrackState(t0, pv, kNoOffset), evs);
          if st.wavesOffset == kNoOffset then Some((st.track, st.playVariation))
          else if VariationListFits(s, st.wavesOffset) then
            Some((WaveListInto(banks, s, st.track, st.wavesOffset), st.playVariation))
          else None
  }

  /** How one step of the complex-track loop decodes track i, given the variation limits that
      the earlier tracks left on the sound. */
  type TrackDecoder = (nat, Option<PlayVariation>) -> Option<(Track, Option<PlayVariation>)>

  /** The first n steps of the track loop: the tracks in order and the variation limits the
      last one leaves; None as soon as one track fails. */
  function TracksRun(decode: TrackDecoder, n: nat, pv: Option<PlayVariation>)
    : (r: Option<(seq<Track>, Option<PlayVariation>)>)
    ensures r.Some? ==> |r.value.0| == n
  {
    if n == 0 then Some(([], pv))
    else
      match TracksRun(decode, n - 1, pv)
      case None => None
      case Some(prev) =>
        match decode(n - 1, prev.1)
        case None => None
        case Some(tr) => Some((prev.0 + [tr.0], tr.1))
  }

  /** The run grows by the next track exactly when that track decodes. */
  lemma TracksRunSnoc(decode: TrackDecoder, i: nat, pv: Option<PlayVariation>, tracks: seq<Track>,
                      last: Option<PlayVariation>)
    requires TracksRun(decode, i, pv) == Some((tracks, last))
    ensures decode(i, last).None? ==> TracksRun(decode, i + 1, pv).None?
    ensures decode(i, last).Some? ==> TracksRun(decode, i + 1, pv) == Some((tracks + [decode(i, last).value.0], decode(i, last).value.1))
  {
  }

  /** Once one track fails, every longer run fails too. */
  lemma {:induction false} TracksRunStuck(decode: TrackDecoder, i: nat, n: nat, pv: Option<PlayVariation>)
    requires i <= n && TracksRun(decode, i, pv).None?
    ensures TracksRun(decode, n, pv).None?
    decreases n - i
  {
    if i < n {
      TracksRunStuck(decode, i + 1, n, pv);
    }
  }

  /** Track i of a complex sound: its track word is the i-th 4-byte word from base on, and it
      starts out empty. */
  function ComplexTrackDecoder(banks: seq<WaveBank>, s: seq<u8>, base: nat): TrackDecoder
  {
    (i: nat, pv: Option<PlayVariation>) => ComplexTrackAt(banks, s, base + kTrackDefinitionSize * i, EmptyTrack, pv)
  }

  /** The first n tracks of a complex sound, whose track words start at base. */
  function ComplexTracksFrom(banks: seq<WaveBank>, s: seq<u8>, base: nat, n: nat,
                             pv: Option<PlayVariation>): (r: Option<(seq<Track>, Option<PlayVariation>)>)
  {
    TracksRun(ComplexTrackDecoder(banks, s, base), n, pv)
  }

  /** A track word that starts past the end of the buffer does not decode. */
  lemma ComplexTrackPastEnd(banks: seq<WaveBank>, s: seq<u8>, ptr: nat, t0: Track, pv: Option<PlayVariation>)
    requires ptr > |s|
    ensures ComplexTrackAt(banks, s, ptr, t0, pv).None?
  {
  }

  predicate TrivialOrSimple(flags: nat)
  {
    HasFlag(flags, kSoundTrivial) || HasFlag(flags, kSoundSimple)
  }

  /** readTracks: the tracks of a sound and the variation limits its Play events leave on it. */
  function TracksAt(banks: seq<WaveBank>, s: seq<u8>, indicesOrOffset: nat, count: nat, flags: nat,
                    pv: Option<PlayVariation>): Option<(seq<Track>, Option<PlayVariation>)>
  {
    if TrivialOrSimple(flags) && count != 1 then None
    else if HasFlag(flags, kSoundTrivial) then
      var t := AddWaveVariation(banks, EmptyTrack.(selectMethod := kSelectMethodOrdered), indicesOrOffset,
                                kWeightMinimum, kWeightMaximum);
      Some(([t.(events := t.events + [SynthesizedPlay])], pv))
    else if HasFlag(flags, kSoundSimple) then
      if !VariationListFits(s, indicesOrOffset) then None
      else
        var t := WaveListInto(banks, s, EmptyTrack, indicesOrOffset);
        Some(([t.(events := t.events + [SynthesizedPlay])], pv))
    else ComplexTracksFrom(banks, s, indicesOrOffset, count, pv)
  }

  /** The sound of the record at rec, with its 3D block and its tracks. */
  function SoundAt(banks: seq<WaveBank>, s: seq<u8>, rec: nat, offset3DParams: nat): Option<Sound>
  {
    if rec + kSoundDefinitionSize > |s| then None
    else
      var r := SoundRecordAt(s, rec);
      var is3D := HasFlag(r.flags, kSound3D);
      var b := offset3DParams + k3DDefinitionSize * r.index3DParam;
      if is3D && !Params3DFits(s, b) then None
      else
        match TracksAt(banks, s, r.indicesOrOffset, r.trackCount, r.flags, None)
        case None => None
        case Some(tr) =>
          Some(Sound(
            -((r.volume % 0x200) as real) * 0.16,
            PitchSemitones(r.pitch), r.layer, r.categoryIndex, r.priority,
            HasFlag(r.flags, kSoundEQ), EqGain(r.eqGain), EqQ(r.eq), EqFrequency(r.eq),
            HasFlag(r.flags, kSoundGainBoost), is3D,
            if is3D then Some(Params3DAt(s, b, r.volume, r.volume3D)) else None,
            tr.1, tr.0))
  }

  /** The first n entries of a table of records, decode(i) giving entry i; None as soon as one
      entry does not decode. */
  function TableRun<T>(decode: nat -> Option<T>, n: nat): (r: Option<seq<T>>)
    ensures r.Some? ==> |r.value| == n
  {
    if n == 0 then Some([])
    else
      match TableRun(decode, n - 1)
      case None => None
      case Some(prev) =>
        match decode(n - 1)
        case None => None
        case Some(x) => Some(prev + [x])
  }

  /** The table grows by the next entry exactly when that entry decodes. */
  lemma TableRunSnoc<T>(decode: nat -> Option<T>, i: nat, xs: seq<T>)
    requires TableRun(decode, i) == Some(xs)
    ensures decode(i).None? ==> TableRun(decode, i + 1).None?
    ensures decode(i).Some? ==> TableRun(decode, i + 1) == Some(xs + [decode(i).value])
  {
  }

  /** Once one entry fails, every longer table fails too. */
  lemma {:induction false} TableRunStuck<T>(decode: nat -> Option<T>, i: nat, n: nat)
    requires i <= n && TableRun(decode, i).None?
    ensures TableRun(decode, n).None?
    decreases n - i
  {
    if i < n {
      TableRunStuck(decode, i + 1, n);
    }
  }

  /** A table decodes exactly when each of its entries does, and then entry i is decode(i). */
  lemma {:induction false} TableRunElements<T>(decode: nat -> Option<T>, n: nat)
    ensures TableRun(decode, n).Some? <==> forall i :: 0 <= i < n ==> decode(i).Some?
    ensures TableRun(decode, n).Some? ==> forall i :: 0 <= i < n ==> TableRun(decode, n).value[i] == decode(i).value
  {
    if n > 0 {
      TableRunElements(decode, n - 1);
    }
  }

  /** Sound i of the table whose records start at off. */
  function SoundDecoder(banks: seq<WaveBank>, s: seq<u8>, off: nat, offset3DParams: nat): nat -> Option<Sound>
  {
    (i: nat) => SoundAt(banks, s, off + kSoundDefinitionSize * i, offset3DParams)
  }

  /** readSounds: the count sound records from off on; None as soon as one does not decode. */
  function SoundsFrom(banks: seq<WaveBank>, s: seq<u8>, off: nat, count: nat, offset3DParams: nat)
    : Option<seq<Sound>>
  {
    TableRun(SoundDecoder(banks, s, off, offset3DParams), count)
  }

  // ---- The whole bank ----------------------------------------------------------

  /** The fields of the 56-byte header that the decoder uses. */
  datatype Header = Header(offsetWaveBanks: nat, offset3DParams: nat, xsbFlags: nat,
                           soundCount: nat, cueCount: nat, bankCount: nat, name: string)

  function HeaderAt(s: seq<u8>): Header
    requires kHeaderSize <= |s|
  {
    Header(U32LE(s, 8), U32LE(s, 16), U16LE(s, 24), U16LE(s, 28), U16LE(s, 30), U16LE(s, 34),
           TextBeforeNul(s[40..56]))
  }

  predicate HeaderValid(s: seq<u8>)
  {
    kHeaderSize <= |s| && U32BE(s, 0) == kXSBID && U16LE(s, 4) == kXSBVersion
  }

  datatype SoundBank = SoundBank(name: string, waveBanks: seq<WaveBank>, waveBankMap: map<string, nat>,
                                 cues: seq<Cue>, cueMap: map<string, nat>, sounds: seq<Sound>)

  /** The cue table (right after the header) and the sound table (right after the cues) that
      the header h locates, the sounds resolving wave references against banks. */
  function CueAndSoundTables(s: seq<u8>, h: Header, banks: seq<WaveBank>)
    : Option<(seq<Cue>, map<string, nat>, seq<Sound>)>
  {
    var offsetSounds := kHeaderSize + kCueDefinitionSize * h.cueCount;
    if !CuesFit(s, h.xsbFlags, kHeaderSize, h.cueCount) then None
    else
      match SoundsFrom(banks, s, offsetSounds, h.soundCount, h.offset3DParams)
      case None => None
      case Some(sounds) =>
        var cues := CuesAt(s, h.xsbFlags, kHeaderSize, h.cueCount);
        Some((cues, NameIndex(CueNames(s, h.xsbFlags, kHeaderSize, cues)), sounds))
  }

  /** The two tables decode exactly when the cue table fits and the sound table decodes. */
  lemma CueAndSoundTablesParts(s: seq<u8>, h: Header, banks: seq<WaveBank>)
    ensures var offsetSounds := kHeaderSize + kCueDefinitionSize * h.cueCount;
      CueAndSoundTables(s, h, banks).Some?
      <==> CuesFit(s, h.xsbFlags, kHeaderSize, h.cueCount)
           && SoundsFrom(banks, s, offsetSounds, h.soundCount, h.offset3DParams).Some?
    ensures var offsetSounds := kHeaderSize + kCueDefinitionSize * h.cueCount;
      CueAndSoundTables(s, h, banks).Some? ==>
        var tables := CueAndSoundTables(s, h, banks).value;
        tables.0 == CuesAt(s, h.xsbFlags, kHeaderSize, h.cueCount)
        && tables.1 == NameIndex(CueNames(s, h.xsbFlags, kHeaderSize, tables.0))
        && Some(tables.2) == SoundsFrom(banks, s, offsetSounds, h.soundCount, h.offset3DParams)
  {
  }

  /** load after the header h: the wave banks, then the cues and the sounds, in that order. */
  function BankTables(s: seq<u8>, h: Header): Option<SoundBank>
  {
    if !WaveBanksFit(s, h.offsetWaveBanks, h.bankCount) then None
    else
      var banks := WaveBanksAt(s, h.offsetWaveBanks, h.bankCount);
      match CueAndSoundTables(s, h, banks)
      case None => None
      case Some(tables) => Some(SoundBank(h.name, banks, NameIndex(BankNames(banks)), tables.0, tables.1, tables.2))
  }

  /** load: the header, then the tables it locates. */
  function DecodeSoundBank(s: seq<u8>): Option<SoundBank>
  {
    if !HeaderValid(s) then None else BankTables(s, HeaderAt(s))
  }
}
