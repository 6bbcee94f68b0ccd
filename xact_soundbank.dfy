/** The binary XACT sound-bank loader of src/sound/xactsoundbank_binary.cpp: a class whose
    tables the loading methods fill while they walk one read stream. Each method is proved to
    compute what the reference definition in XactSpec describes, and to fail exactly when that
    definition has no value. */
module XactSoundBank {
  import opened Wrappers
  import opened Bytes
  import opened Stream
  import opened XactFormat
  import opened XactEvents
  import opened XactSpec

  /** readVariationData: one 32-bit descriptor split into its four bit fields. */
  method ReadVariationData(xsb: ReadStream) returns (r: Result<VariationData>)
    requires xsb.Valid()
    modifies xsb
    ensures xsb.Valid()
    ensures r.Ok? <==> old(xsb.pos) + kVariationDescriptorSize <= |xsb.data|
    ensures r.Ok? ==>
      r.value == DecodeVariationData(U32LE(xsb.data, old(xsb.pos))) && xsb.pos == old(xsb.pos) + kVariationDescriptorSize
  {
    var variationData :- xsb.ReadUint32LE();
    return Ok(DecodeVariationData(variationData));
  }

  /** Record j of a cue-variation list at off, read from the current position: the sound
      index, 2 unused bytes and the two weights, put in order. */
  method ReadCueVariation(xsb: ReadStream, ghost off: nat, ghost j: nat) returns (r: Result<CueVariation>)
    requires xsb.Valid() && xsb.pos == off + 4 + 8 * j
    modifies xsb
    ensures xsb.Valid()
    ensures r.Ok? <==> off + 4 + 8 * (j + 1) <= |xsb.data|
    ensures r.Ok? ==> r.value == CueVariationAt(xsb.data, off, j) && xsb.pos == off + 4 + 8 * (j + 1)
  {
    var soundIndex :- xsb.ReadUint16LE();
    :- xsb.Skip(2);
    var weightMin :- xsb.ReadUint16LE();
    var weightMax :- xsb.ReadUint16LE();
    var weights := OrderedWeights(weightMin, weightMax);
    return Ok(CueVariation(soundIndex, weights.0, weights.1));
  }

  /** readCueVarations: the cue takes the list's selection method and exactly its variations. */
  method ReadCueVariations(xsb: ReadStream, cue: Cue, offset: nat) returns (r: Result<Cue>)
    requires xsb.Valid()
    modifies xsb
    ensures xsb.Valid()
    ensures r.Ok? <==> VariationListFits(xsb.data, offset)
    ensures r.Ok? ==> r.value == cue.(selectMethod := ListDescriptor(xsb.data, offset).selectMethod,
                                      variations := CueVariationsAt(xsb.data, offset))
  {
    var moved := xsb.Seek(offset);
    if moved.Fail? { return Err(moved.error); }
    var d :- ReadVariationData(xsb);
    var variations: seq<CueVariation> := [];
    for j := 0 to d.count
      invariant xsb.Valid() && xsb.pos == offset + 4 + 8 * j
      invariant |variations| == j
      invariant forall k :: 0 <= k < j ==> variations[k] == CueVariationAt(xsb.data, offset, k)
    {
      var variation :- ReadCueVariation(xsb, offset, j);
      variations := variations + [variation];
    }
    assert variations == CueVariationsAt(xsb.data, offset);
    return Ok(cue.(selectMethod := d.selectMethod, variations := variations));
  }

  /** One 8-byte record of a wave-variation list: packed indices and the two weights. */
  method ReadWaveRecord(xsb: ReadStream) returns (r: Result<(nat, nat, nat)>)
    requires xsb.Valid()
    modifies xsb
    ensures xsb.Valid()
    ensures r.Ok? <==> old(xsb.pos) + kVariationRecordSize <= |xsb.data|
    ensures r.Ok? ==>
      var p := old(xsb.pos);
      r.value == (U32LE(xsb.data, p), U16LE(xsb.data, p + 4), U16LE(xsb.data, p + 6))
      && xsb.pos == p + kVariationRecordSize
  {
    var indices :- xsb.ReadUint32LE();
    var weightMin :- xsb.ReadUint16LE();
    var weightMax :- xsb.ReadUint16LE();
    return Ok((indices, weightMin, weightMax));
  }

  /** The fixed part of the 20-byte cue record at rec: 2 unused bytes, sound index, name offset,
      entry offset, 8 unused bytes. */
  method ReadCueRecord(xsb: ReadStream, rec: nat) returns (r: Result<(nat, nat, nat)>)
    requires xsb.Valid()
    modifies xsb
    ensures xsb.Valid()
    ensures r.Ok? <==> rec + kCueDefinitionSize <= |xsb.data|
    ensures r.Ok? ==> r.value == (U16LE(xsb.data, rec + 2), U32LE(xsb.data, rec + 4), U32LE(xsb.data, rec + 8))
  {
    var moved := xsb.Seek(rec);
    if moved.Fail? { return Err(moved.error); }
    :- xsb.Skip(2);
    var soundIndex :- xsb.ReadUint16LE();
    var offsetName :- xsb.ReadUint32LE();
    var offsetEntry :- xsb.ReadUint32LE();
    :- xsb.Skip(4);
    :- xsb.Skip(4);
    return Ok((soundIndex, offsetName, offsetEntry));
  }

  /** One cue (the body of readCues' loop): its record, then its name, then its variations.
      The flag returned says whether the cue's name is to be registered. */
  method ReadCue(xsb: ReadStream, xsbFlags: nat, rec: nat) returns (r: Result<(Cue, bool)>)
    requires xsb.Valid()
    modifies xsb
    ensures xsb.Valid()
    ensures r.Ok? <==> CueRecordFits(xsb.data, xsbFlags, rec)
    ensures r.Ok? ==> r.value == (CueAt(xsb.data, xsbFlags, rec), CueNamed(xsb.data, xsbFlags, rec))
  {
    var fields :- ReadCueRecord(xsb, rec);
    var (soundIndex, offsetName, offsetEntry) := fields;
    var cue := EmptyCue;
    var named := !HasFlag(xsbFlags, kXSBNoCueNames) && offsetName != kNoOffset;
    assert named == CueNamed(xsb.data, xsbFlags, rec);
    if named {
      var moved := xsb.Seek(offsetName);
      if moved.Fail? { return Err(moved.error); }
      var cueName := xsb.ReadString();
      cue := cue.(name := cueName);
    }
    if offsetEntry != kNoOffset {
      cue :- ReadCueVariations(xsb, cue, offsetEntry);
    } else if soundIndex != kNoSoundIndex {
      cue := cue.(selectMethod := kSelectMethodOrdered,
                  variations := [CueVariation(soundIndex, kWeightMinimum, kWeightMaximum)]);
    }
    return Ok((cue, named));
  }

  // ---- Event records (the body of readComplexTrack's event loop) ----------------

  /** The stream stands after the 6-byte head of the event record at p, whose fields were
      read into ev, parameterSize and flags. */
  ghost predicate AtEventParams(xsb: ReadStream, p: nat, ev: Event, parameterSize: nat, flags: nat)
    reads xsb
  {
    xsb.Valid() && p + 6 <= |xsb.data| && xsb.pos == p + 6
    && ev == Event(xsb.data[p], U24LE(xsb.data, p + 1), NoParams)
    && parameterSize == xsb.data[p + 4] && flags == xsb.data[p + 5]
  }

  /** A 24-bit little-endian count read one byte at a time, as the event readers do. */
  method ReadUint24LE(xsb: ReadStream) returns (r: Result<nat>)
    requires xsb.Valid()
    modifies xsb
    ensures xsb.Valid()
    ensures r.Ok? <==> old(xsb.pos) + 3 <= |xsb.data|
    ensures r.Ok? ==> r.value == U24LE(xsb.data, old(xsb.pos)) && xsb.pos == old(xsb.pos) + 3
  {
    var b0 :- xsb.ReadByte();
    var b1 :- xsb.ReadByte();
    var b2 :- xsb.ReadByte();
    return Ok(b0 as nat + b1 as nat * 0x100 + b2 as nat * 0x1_0000);
  }

  /** Play and PlayComplex: 2 unused bytes; with 4 parameter bytes the wave reference or list
      offset; with 12 more the sound's variation limits and delay and 2 unknown bytes. */
  method ReadPlayEvent(xsb: ReadStream, ghost p: nat, ev: Event, parameterSize: nat, flags: nat)
    returns (r: Result<EventRecord>)
    requires AtEventParams(xsb, p, ev, parameterSize, flags)
    requires xsb.data[p] == kEventTypePlay || xsb.data[p] == kEventTypePlayComplex
    modifies xsb
    ensures xsb.Valid()
    ensures r.Ok? <==> EventFits(xsb.data, p)
    ensures r.Ok? ==> r.value == DecodeEvent(xsb.data, p) && xsb.pos == r.value.next
  {
    var moved := xsb.Skip(2);
    if moved.Fail? { return Err(moved.error); }
    var remaining := parameterSize;
    var play: Option<PlayPayload> := None;
    if remaining >= 4 {
      var indicesOrOffset :- xsb.ReadUint32LE();
      remaining := remaining - 4;
      var variation: Option<PlayVariation> := None;
      if remaining >= 12 {
        var pitchMin :- xsb.ReadSint16LE();
        var pitchMax :- xsb.ReadSint16LE();
        var volumeMin :- xsb.ReadSint16LE();
        var volumeMax :- xsb.ReadSint16LE();
        var delay :- xsb.ReadUint16LE();
        :- xsb.Skip(2);
        variation := Some(PlayVariation(PitchSemitones(pitchMin), PitchSemitones(pitchMax),
                                        VolumeDecibels(volumeMin), VolumeDecibels(volumeMax), delay));
        remaining := remaining - 12;
      }
      play := Some(PlayPayload(indicesOrOffset, HasFlag(flags, kPlayEventMultipleVariations), variation));
    }
    :- xsb.Skip(remaining);
    return Ok(EventRecord(ev, play, xsb.pos));
  }

  /** Pitch: fade step count; with 8 parameter bytes the start and end pitch, an unknown byte
      and a 24-bit fade duration. */
  method ReadPitchEvent(xsb: ReadStream, ghost p: nat, ev: Event, parameterSize: nat, flags: nat)
    returns (r: Result<EventRecord>)
    requires AtEventParams(xsb, p, ev, parameterSize, flags) && xsb.data[p] == kEventTypePitch
    modifies xsb
    ensures xsb.Valid()
    ensures r.Ok? <==> EventFits(xsb.data, p)
    ensures r.Ok? ==> r.value == DecodeEvent(xsb.data, p) && xsb.pos == r.value.next
  {
    var fadeStepCount :- xsb.ReadUint16LE();
    var remaining := parameterSize;
    var fade: Option<PitchFade> := None;
    if remaining >= 8 {
      var pitchStart :- xsb.ReadSint16LE();
      var pitchEnd :- xsb.ReadSint16LE();
      :- xsb.Skip(1);
      var fadeDuration :- ReadUint24LE(xsb);
      fade := Some(PitchFade(PitchSemitones(pitchStart), PitchSemitones(pitchEnd), fadeDuration));
      remaining := remaining - 8;
    }
    :- xsb.Skip(remaining);
    var params := PitchParams(fadeStepCount, HasFlag(flags, kPitchEventRelative), HasFlag(flags, kPitchEventFade),
                              HasFlag(flags, kPitchEventVariation), fade);
    return Ok(EventRecord(ev.(params := params), None, xsb.pos));
  }

  /** Volume: laid out as Pitch, with volumes in place of pitches. */
  method ReadVolumeEvent(xsb: ReadStream, ghost p: nat, ev: Event, parameterSize: nat, flags: nat)
    returns (r: Result<EventRecord>)
    requires AtEventParams(xsb, p, ev, parameterSize, flags) && xsb.data[p] == kEventTypeVolume
    modifies xsb
    ensures xsb.Valid()
    ensures r.Ok? <==> EventFits(xsb.data, p)
    ensures r.Ok? ==> r.value == DecodeEvent(xsb.data, p) && xsb.pos == r.value.next
  {
    var fadeStepCount :- xsb.ReadUint16LE();
    var remaining := parameterSize;
    var fade: Option<VolumeFade> := None;
    if remaining >= 8 {
      var volumeStart :- xsb.ReadSint16LE();
      var volumeEnd :- xsb.ReadSint16LE();
      :- xsb.Skip(1);
      var fadeDuration :- ReadUint24LE(xsb);
      fade := Some(VolumeFade(VolumeDecibels(volumeStart), VolumeDecibels(volumeEnd), fadeDuration));
      remaining := remaining - 8;
    }
    :- xsb.Skip(remaining);
    var params := VolumeParams(fadeStepCount, HasFlag(flags, kPitchEventRelative), HasFlag(flags, kPitchEventFade),
                               HasFlag(flags, kPitchEventVariation), fade);
    return Ok(EventRecord(ev.(params := params), None, xsb.pos));
  }

  /** LowPass: sweep step count; with 12 parameter bytes the cut-off range, an unknown byte,
      a 24-bit sweep duration and the resonance range. */
  method ReadLowPassEvent(xsb: ReadStream, ghost p: nat, ev: Event, parameterSize: nat, flags: nat)
    returns (r: Result<EventRecord>)
    requires AtEventParams(xsb, p, ev, parameterSize, flags) && xsb.data[p] == kEventTypeLowPass
    modifies xsb
    ensures xsb.Valid()
    ensures r.Ok? <==> EventFits(xsb.data, p)
    ensures r.Ok? ==> r.value == DecodeEvent(xsb.data, p) && xsb.pos == r.value.next
  {
    var sweepStepCount :- xsb.ReadUint16LE();
    var remaining := parameterSize;
    var sweep: Option<LowPassSweep> := None;
    if remaining >= 12 {
      var cutOffStart :- xsb.ReadUint16LE();
      var cutOffEnd :- xsb.ReadUint16LE();
      :- xsb.Skip(1);
      var sweepDuration :- ReadUint24LE(xsb);
      var resonanceStart :- xsb.ReadSint16LE();
      var resonanceEnd :- xsb.ReadSint16LE();
      sweep := Some(LowPassSweep(ClipInt(cutOffStart, 0, 8192), ClipInt(cutOffEnd, 0, 8192), sweepDuration,
                                 Clamp(resonanceStart as real / 100.0, 0.0, 32.0),
                                 Clamp(resonanceEnd as real / 100.0, 0.0, 32.0)));
      remaining := remaining - 12;
    }
    :- xsb.Skip(remaining);
    var params := LowPassParams(HasFlag(flags, kLowPassEventRelative), HasFlag(flags, kLowPassEventRandom),
                                HasFlag(flags, kLowPassEventSweep), sweepStepCount, sweep);
    return Ok(EventRecord(ev.(params := params), None, xsb.pos));
  }

  /** LFOMulti: 2 unused bytes; with 6 parameter bytes 2 unknown bytes, then delta, pitch,
      filter and amplitude, one byte each. */
  method ReadLFOMultiEvent(xsb: ReadStream, ghost p: nat, ev: Event, parameterSize: nat, flags: nat)
    returns (r: Result<EventRecord>)
    requires AtEventParams(xsb, p, ev, parameterSize, flags) && xsb.data[p] == kEventTypeLFOMulti
    modifies xsb
    ensures xsb.Valid()
    ensures r.Ok? <==> EventFits(xsb.data, p)
    ensures r.Ok? ==> r.value == DecodeEvent(xsb.data, p) && xsb.pos == r.value.next
  {
    var moved := xsb.Skip(2);
    if moved.Fail? { return Err(moved.error); }
    var remaining := parameterSize;
    var shape: Option<LFOShape> := None;
    if remaining >= 6 {
      var unknown := xsb.Skip(2);
      if unknown.Fail? { return Err(unknown.error); }
      var delta :- xsb.ReadByte();
      var pitch :- xsb.ReadByte();
      var filter :- xsb.ReadByte();
      var amplitude :- xsb.ReadByte();
      shape := Some(LFOShape(delta as real * 23.4 / 255.0, S8(pitch) as real * 12.0 / 128.0,
                             S8(filter) as real * 96.0 / 128.0, S8(amplitude) as real * 16.0 / 128.0));
      remaining := remaining - 6;
    }
    :- xsb.Skip(remaining);
    return Ok(EventRecord(ev.(params := LFOMultiParams(shape)), None, xsb.pos));
  }

  /** Marker: repeat count; with 8 parameter bytes a 32-bit value, an unknown byte and a
      24-bit repeat duration. */
  method ReadMarkerEvent(xsb: ReadStream, ghost p: nat, ev: Event, parameterSize: nat, flags: nat)
    returns (r: Result<EventRecord>)
    requires AtEventParams(xsb, p, ev, parameterSize, flags) && xsb.data[p] == kEventTypeMarker
    modifies xsb
    ensures xsb.Valid()
    ensures r.Ok? <==> EventFits(xsb.data, p)
    ensures r.Ok? ==> r.value == DecodeEvent(xsb.data, p) && xsb.pos == r.value.next
  {
    var repeatCount :- xsb.ReadUint16LE();
    var remaining := parameterSize;
    var marker: Option<MarkerRepeat> := None;
    if remaining >= 8 {
      var value :- xsb.ReadUint32LE();
      :- xsb.Skip(1);
      var repeatDuration :- ReadUint24LE(xsb);
      marker := Some(MarkerRepeat(value, repeatDuration));
      remaining := remaining - 8;
    }
    :- xsb.Skip(remaining);
    return Ok(EventRecord(ev.(params := MarkerParams(HasFlag(flags, kMarkerEventRepeat), repeatCount, marker)),
                          None, xsb.pos));
  }

  /** One event record: type, 24-bit timestamp, parameter size and flags, then the fields of
      its kind; whatever the parameter size declares beyond those fields is skipped. */
  method ReadEvent(xsb: ReadStream) returns (r: Result<EventRecord>)
    requires xsb.Valid()
    modifies xsb
    ensures xsb.Valid()
    ensures r.Ok? <==> EventFits(xsb.data, old(xsb.pos))
    ensures r.Ok? ==> r.value == DecodeEvent(xsb.data, old(xsb.pos)) && xsb.pos == r.value.next
  {
    ghost var p := xsb.pos;
    var eventType :- xsb.ReadByte();
    var timestamp :- ReadUint24LE(xsb);
    var parameterSize :- xsb.ReadByte();
    var eventFlags :- xsb.ReadByte();
    var ev := Event(eventType, timestamp, NoParams);
    if eventType == kEventTypePlay || eventType == kEventTypePlayComplex {
      r := ReadPlayEvent(xsb, p, ev, parameterSize, eventFlags);
    } else if eventType == kEventTypePitch {
      r := ReadPitchEvent(xsb, p, ev, parameterSize, eventFlags);
    } else if eventType == kEventTypeVolume {
      r := ReadVolumeEvent(xsb, p, ev, parameterSize, eventFlags);
    } else if eventType == kEventTypeLowPass {
      r := ReadLowPassEvent(xsb, p, ev, parameterSize, eventFlags);
    } else if eventType == kEventTypeLFOMulti {
      r := ReadLFOMultiEvent(xsb, p, ev, parameterSize, eventFlags);
    } else if eventType == kEventTypeLoop {
      var count :- xsb.ReadUint16LE();
      :- xsb.Skip(parameterSize);
      r := Ok(EventRecord(ev.(params := LoopParams(count)), None, xsb.pos));
    } else if eventType == kEventTypeMarker {
      r := ReadMarkerEvent(xsb, p, ev, parameterSize, eventFlags);
    } else {
      var moved := xsb.Skip(2);
      if moved.Fail? { return Err(moved.error); }
      :- xsb.Skip(parameterSize);
      r := Ok(EventRecord(ev, None, xsb.pos));
    }
  }

  // ---- Sounds -----------------------------------------------------------------

  /** Bytes 0..11 of a sound record, read from the current position: the track indices or
      offset, volume, pitch, track count, layer, category and flags. */
  method ReadSoundHead(xsb: ReadStream) returns (r: Result<(nat, nat, int, nat, nat, nat, nat)>)
    requires xsb.Valid()
    modifies xsb
    ensures xsb.Valid()
    ensures r.Ok? <==> old(xsb.pos) + 12 <= |xsb.data|
    ensures r.Ok? ==> xsb.pos == old(xsb.pos) + 12
    ensures r.Ok? ==> var p, s := old(xsb.pos), xsb.data;
      r.value == (U32LE(s, p), U16LE(s, p + 4), S16LE(s, p + 6), s[p + 8] as nat, s[p + 9] as nat,
                  s[p + 10] as nat, s[p + 11] as nat)
  {
    var indicesOrOffset :- xsb.ReadUint32LE();
    var volume :- xsb.ReadUint16LE();
    var pitch :- xsb.ReadSint16LE();
    var trackCount :- xsb.ReadByte();
    var layer :- xsb.ReadByte();
    var categoryIndex :- xsb.ReadByte();
    var soundFlags :- xsb.ReadByte();
    return Ok((indicesOrOffset, volume, pitch, trackCount as nat, layer as nat, categoryIndex as nat,
               soundFlags as nat));
  }

  /** Bytes 12..19 of a sound record, read from the current position: the 3D parameter index,
      priority, 3D volume, EQ gain and the EQ word. */
  method ReadSoundTail(xsb: ReadStream) returns (r: Result<(nat, nat, nat, int, nat)>)
    requires xsb.Valid()
    modifies xsb
    ensures xsb.Valid()
    ensures r.Ok? <==> old(xsb.pos) + 8 <= |xsb.data|
    ensures r.Ok? ==> var p, s := old(xsb.pos), xsb.data;
      r.value == (U16LE(s, p), s[p + 2] as nat, s[p + 3] as nat, S16LE(s, p + 4), U16LE(s, p + 6))
  {
    var index3DParam :- xsb.ReadUint16LE();
    var priority :- xsb.ReadByte();
    var volume3D :- xsb.ReadByte();
    var eqGain :- xsb.ReadSint16LE();
    var eq :- xsb.ReadUint16LE();
    return Ok((index3DParam, priority as nat, volume3D as nat, eqGain, eq));
  }

  /** The fixed 20-byte part of the sound record at rec (the head of readSounds' loop). */
  method ReadSoundRecord(xsb: ReadStream, rec: nat) returns (r: Result<SoundRecord>)
    requires xsb.Valid()
    modifies xsb
    ensures xsb.Valid()
    ensures r.Ok? <==> rec + kSoundDefinitionSize <= |xsb.data|
    ensures r.Ok? ==> r.value == SoundRecordAt(xsb.data, rec)
  {
    var moved := xsb.Seek(rec);
    if moved.Fail? { return Err(moved.error); }
    var head :- ReadSoundHead(xsb);
    var tail :- ReadSoundTail(xsb);
    return Ok(SoundRecord(head.0, head.1, head.2, head.3, head.4, head.5, head.6,
                          tail.0, tail.1, tail.2, tail.3, tail.4));
  }

  /** Bytes 0..7 of a 3D block, read from the current position: the two cone angles (clipped
      to 360 degrees), the outside volume (hundredths of a decibel, clamped to [-64, 0]) and
      2 unused bytes. */
  method Read3DCone(xsb: ReadStream) returns (r: Result<(nat, nat, real)>)
    requires xsb.Valid()
    modifies xsb
    ensures xsb.Valid()
    ensures r.Ok? <==> old(xsb.pos) + 8 <= |xsb.data|
    ensures r.Ok? ==> xsb.pos == old(xsb.pos) + 8
    ensures r.Ok? ==> var p, s := old(xsb.pos), xsb.data;
      r.value == (ConeAngle(U16LE(s, p)), ConeAngle(U16LE(s, p + 2)),
                  Clamp(S16LE(s, p + 4) as real / 100.0, -64.0, 0.0))
  {
    var coneInside :- xsb.ReadUint16LE();
    var coneOutside :- xsb.ReadUint16LE();
    var coneOutsideVolume :- xsb.ReadSint16LE();
    :- xsb.Skip(2);
    return Ok((ConeAngle(coneInside), ConeAngle(coneOutside),
               Clamp(coneOutsideVolume as real / 100.0, -64.0, 0.0)));
  }

  /** Bytes 8..27 of a 3D block, read from the current position: the five IEEE floats
      (minimum and maximum distance, distance, rolloff and doppler factors) as raw words. */
  method Read3DFloats(xsb: ReadStream) returns (r: Result<(nat, nat, nat, nat, nat)>)
    requires xsb.Valid()
    modifies xsb
    ensures xsb.Valid()
    ensures r.Ok? <==> old(xsb.pos) + 20 <= |xsb.data|
    ensures r.Ok? ==> xsb.pos == old(xsb.pos) + 20
    ensures r.Ok? ==> var p, s := old(xsb.pos), xsb.data;
      r.value == (U32LE(s, p), U32LE(s, p + 4), U32LE(s, p + 8), U32LE(s, p + 12), U32LE(s, p + 16))
  {
    var distanceMin :- xsb.ReadUint32LE();
    var distanceMax :- xsb.ReadUint32LE();
    var distanceFactor :- xsb.ReadUint32LE();
    var rollOffFactor :- xsb.ReadUint32LE();
    var dopplerFactor :- xsb.ReadUint32LE();
    return Ok((distanceMin, distanceMax, distanceFactor, rollOffFactor, dopplerFactor));
  }

  /** The rolloff curve of a 3D block: n bytes from the current position, each scaled from
      [0, 255] to [0, 1]. */
  method ReadRollOffCurve(xsb: ReadStream, n: nat) returns (r: Result<seq<real>>)
    requires xsb.Valid()
    modifies xsb
    ensures xsb.Valid()
    ensures r.Ok? <==> old(xsb.pos) + n <= |xsb.data|
    ensures r.Ok? ==> var p := old(xsb.pos);
      r.value == seq(n, j requires 0 <= j < n => xsb.data[p + j] as real / 255.0)
  {
    ghost var p := xsb.pos;
    var curve: seq<real> := [];
    for j := 0 to n
      invariant xsb.Valid() && xsb.pos == p + j
      invariant |curve| == j && forall k :: 0 <= k < j ==> curve[k] == xsb.data[p + k] as real / 255.0
    {
      var sample :- xsb.ReadByte();
      curve := curve + [sample as real / 255.0];
    }
    return Ok(curve);
  }

  /** The 3D block at b: two cone angles, the outside volume, 2 unknown bytes, five IEEE
      floats, the mode, and a rolloff curve of at most 10 one-byte samples. */
  method Read3DParams(xsb: ReadStream, b: nat, volume: nat, volume3D: nat) returns (r: Result<Params3D>)
    requires xsb.Valid()
    modifies xsb
    ensures xsb.Valid()
    ensures r.Ok? <==> Params3DFits(xsb.data, b)
    ensures r.Ok? ==> r.value == Params3DAt(xsb.data, b, volume, volume3D)
  {
    var head :- Read3DFixed(xsb, b, volume, volume3D);
    var curve :- ReadRollOffCurve(xsb, RolloffCurveLength(head.1));
    return Ok(head.0.(rollOffCurve := curve));
  }

  /** The fixed 30 bytes of the 3D block at b, and the rolloff curve length byte among them. */
  method Read3DFixed(xsb: ReadStream, b: nat, volume: nat, volume3D: nat) returns (r: Result<(Params3D, u8)>)
    requires xsb.Valid()
    modifies xsb
    ensures xsb.Valid()
    ensures r.Ok? <==> b + 30 <= |xsb.data|
    ensures r.Ok? ==> xsb.pos == b + 30 && r.value == (Params3DHead(xsb.data, b, volume, volume3D), xsb.data[b + 29])
  {
    var moved := xsb.Seek(b);
    if moved.Fail? { return Err(moved.error); }
    var cone :- Read3DCone(xsb);
    var floats :- Read3DFloats(xsb);
    var mode :- xsb.ReadByte();
    var rollOffSize :- xsb.ReadByte();
    return Ok((Params3D(
      -(((volume / 0x200) % 0x80) as real) * 0.5,
      Clamp(-(volume3D as real) * 2.56, -64.0, 0.0),
      cone.0, cone.1, cone.2, floats.0, floats.1, floats.2, floats.3, floats.4, mode, []), rollOffSize));
  }

  // ---- Header -------------------------------------------------------------------

  /** Read the name of wave bank i of the table at off, the stream standing at its record. */
  method ReadWaveBank(xsb: ReadStream, ghost off: nat, ghost i: nat) returns (r: Result<WaveBank>)
    requires xsb.Valid() && xsb.pos == off + kWaveBankNameSize * i
    modifies xsb
    ensures xsb.Valid()
    ensures r.Ok? <==> WaveBanksFit(xsb.data, off, i + 1)
    ensures r.Ok? ==> r.value == WaveBankAt(xsb.data, off, i) && xsb.pos == off + kWaveBankNameSize * (i + 1)
  {
    assert kWaveBankNameSize * (i + 1) == kWaveBankNameSize * i + kWaveBankNameSize;
    var bankName :- xsb.ReadStringFixed(kWaveBankNameSize);
    return Ok(WaveBank(bankName));
  }

  /** The file signature: the big-endian tag SDBK, then the little-endian version 11. Either
      mismatch aborts the load as a malformed file. */
  method ReadSignature(xsb: ReadStream) returns (r: Result<()>)
    requires xsb.Valid()
    modifies xsb
    ensures xsb.Valid()
    ensures r.Ok? <==> var p, s := old(xsb.pos), xsb.data;
      p + 6 <= |s| && U32BE(s, p) == kXSBID && U16LE(s, p + 4) == kXSBVersion
    ensures r.Ok? ==> xsb.pos == old(xsb.pos) + 6
    ensures old(xsb.pos) + 4 <= |xsb.data| && U32BE(xsb.data, old(xsb.pos)) != kXSBID ==>
      r.Err? && r.error.Malformed?
    ensures (old(xsb.pos) + 6 <= |xsb.data| && U32BE(xsb.data, old(xsb.pos)) == kXSBID
             && U16LE(xsb.data, old(xsb.pos) + 4) != kXSBVersion) ==> r.Err? && r.error.Malformed?
  {
    var id :- xsb.ReadUint32BE();
    if id != kXSBID {
      return Err(Malformed("Not a XSB file"));
    }
    var version :- xsb.ReadUint16LE();
    if version != kXSBVersion {
      return Err(Malformed("Unsupported XSB file version"));
    }
    return Ok(());
  }

  /** Header bytes 6..23, read from the current position: the CRC (ignored), then the wave bank
      offset, an unused offset, the 3D parameter offset and another unused offset. */
  method ReadHeaderOffsets(xsb: ReadStream) returns (r: Result<(nat, nat)>)
    requires xsb.Valid()
    modifies xsb
    ensures xsb.Valid()
    ensures r.Ok? <==> old(xsb.pos) + 18 <= |xsb.data|
    ensures r.Ok? ==> xsb.pos == old(xsb.pos) + 18
    ensures r.Ok? ==> r.value == (U32LE(xsb.data, old(xsb.pos) + 2), U32LE(xsb.data, old(xsb.pos) + 10))
  {
    var moved := xsb.Skip(2);
    if moved.Fail? { return Err(moved.error); }
    var offsetWaveBanks :- xsb.ReadUint32LE();
    var _ :- xsb.ReadUint32LE();
    var offset3DParams :- xsb.ReadUint32LE();
    var _ :- xsb.ReadUint32LE();
    return Ok((offsetWaveBanks, offset3DParams));
  }

  /** Header bytes 24..35, read from the current position: the flags and five 16-bit counts, of
      which the sound, cue and wave bank counts are used. */
  method ReadHeaderCounts(xsb: ReadStream) returns (r: Result<(nat, nat, nat, nat)>)
    requires xsb.Valid()
    modifies xsb
    ensures xsb.Valid()
    ensures r.Ok? <==> old(xsb.pos) + 12 <= |xsb.data|
    ensures r.Ok? ==> xsb.pos == old(xsb.pos) + 12
    ensures r.Ok? ==> var p, s := old(xsb.pos), xsb.data;
      r.value == (U16LE(s, p), U16LE(s, p + 4), U16LE(s, p + 6), U16LE(s, p + 10))
  {
    var xsbFlags :- xsb.ReadUint16LE();
    var _ :- xsb.ReadUint16LE();
    var soundCount :- xsb.ReadUint16LE();
    var cueCount :- xsb.ReadUint16LE();
    var _ :- xsb.ReadUint16LE();
    var bankCount :- xsb.ReadUint16LE();
    return Ok((xsbFlags, soundCount, cueCount, bankCount));
  }

  /** The 56-byte header at the start of the stream; the cue table follows it directly. */
  method ReadHeader(xsb: ReadStream) returns (r: Result<Header>)
    requires xsb.Valid() && xsb.pos == 0
    modifies xsb
    ensures xsb.Valid()
    ensures r.Ok? <==> HeaderValid(xsb.data)
    ensures r.Ok? ==> r.value == HeaderAt(xsb.data) && xsb.pos == kHeaderSize
    ensures 4 <= |xsb.data| && U32BE(xsb.data, 0) != kXSBID ==> r.Err? && r.error.Malformed?
    ensures 6 <= |xsb.data| && U32BE(xsb.data, 0) == kXSBID && U16LE(xsb.data, 4) != kXSBVersion ==>
      r.Err? && r.error.Malformed?
  {
    var _ :- ReadSignature(xsb);
    var offsets :- ReadHeaderOffsets(xsb);
    var counts :- ReadHeaderCounts(xsb);
    :- xsb.Skip(4);
    var bankName :- xsb.ReadStringFixed(16);
    return Ok(Header(offsets.0, offsets.1, counts.0, counts.1, counts.2, counts.3, bankName));
  }

  class XactSoundBankBinary {
    var name: string
    var waveBanks: seq<WaveBank>
    var waveBankMap: map<string, nat>
    var cues: seq<Cue>
    var cueMap: map<string, nat>
    var sounds: seq<Sound>

    /** A bank before load has run. */
    ghost predicate Empty()
      reads this
    {
      name == "" && waveBanks == [] && waveBankMap == map[] && cues == [] && cueMap == map[] && sounds == []
    }

    constructor ()
      ensures Empty()
    {
      name, waveBanks, waveBankMap := "", [], map[];
      cues, cueMap, sounds := [], map[], [];
    }

    /** Record j of a wave-variation list at off, read from the current position and added to
        the track as addWaveVariation adds it. */
    method ReadWaveVariation(xsb: ReadStream, track: Track, ghost off: nat, ghost j: nat) returns (r: Result<Track>)
      requires xsb.Valid() && xsb.pos == off + 4 + 8 * j
      modifies xsb
      ensures xsb.Valid()
      ensures r.Ok? <==> off + 4 + 8 * (j + 1) <= |xsb.data|
      ensures r.Ok? ==> xsb.pos == off + 4 + 8 * (j + 1)
      ensures r.Ok? ==> r.value == track.(waves := track.waves + [WaveRecordAt(waveBanks, xsb.data, off, j)])
    {
      var wave :- ReadWaveRecord(xsb);
      return Ok(AddWaveVariation(waveBanks, track, wave.0, wave.1, wave.2));
    }

    /** readWaveVariations: the track takes the list's selection method and gains one wave per
        record, in order. */
    method ReadWaveVariations(xsb: ReadStream, track: Track, offset: nat) returns (r: Result<Track>)
      requires xsb.Valid()
      modifies xsb
      ensures xsb.Valid()
      ensures r.Ok? <==> VariationListFits(xsb.data, offset)
      ensures r.Ok? ==> r.value == WaveListInto(waveBanks, xsb.data, track, offset)
    {
      var moved := xsb.Seek(offset);
      if moved.Fail? { return Err(moved.error); }
      var d :- ReadVariationData(xsb);
      var t := track.(selectMethod := d.selectMethod);
      for i := 0 to d.count
        invariant xsb.Valid() && xsb.pos == offset + 4 + 8 * i
        invariant t.selectMethod == d.selectMethod && t.events == track.events
        invariant |t.waves| == |track.waves| + i && t.waves[..|track.waves|] == track.waves
        invariant forall j :: 0 <= j < i ==> t.waves[|track.waves| + j] == WaveRecordAt(waveBanks, xsb.data, offset, j)
      {
        t :- ReadWaveVariation(xsb, t, offset, i);
      }
      assert t.waves == track.waves + WaveRecordsAt(waveBanks, xsb.data, offset);
      return Ok(t);
    }

    /** readComplexTrack: the track word at the stream position gives the event count (low 8
        bits) and the offset of the event table (high 24 bits). The events are read in order;
        a direct Play event makes the track ordered and adds its wave, a deferred one records
        the offset of a wave-variation list, which is read after the last event. The sound's
        variation limits are passed in as pv and returned updated. */
    method ReadComplexTrack(xsb: ReadStream, track: Track, pv: Option<PlayVariation>)
      returns (r: Result<(Track, Option<PlayVariation>)>)
      requires xsb.Valid()
      modifies xsb
      ensures xsb.Valid()
      ensures r.Ok? <==> ComplexTrackAt(waveBanks, xsb.data, old(xsb.pos), track, pv).Some?
      ensures r.Ok? ==> r.value == ComplexTrackAt(waveBanks, xsb.data, old(xsb.pos), track, pv).value
    {
      ghost var ptr := xsb.pos;
      var trackData :- xsb.ReadUint32LE();
      var eventCount := trackData % 0x100;
      var eventsOffset := trackData / 0x100;
      var wavesOffset := kNoOffset;
      :- xsb.Seek(eventsOffset);
      var t, playVariation := track, pv;
      ghost var evs: seq<EventRecord> := [];
      for i := 0 to eventCount
        invariant xsb.Valid()
        invariant EventsFrom(xsb.data, eventsOffset, i) == Some(evs)
        invariant xsb.pos == EventStart(eventsOffset, evs)
        invariant ApplyEvents(waveBanks, TrackState(track, pv, kNoOffset), evs) == TrackState(t, playVariation, wavesOffset)
      {
        var read := ReadEvent(xsb);
        if read.Err? {
          EventsFromStuck(xsb.data, eventsOffset, i + 1, eventCount);
          return Err(read.error);
        }
        var e := read.value;
        ApplyEventsSnoc(waveBanks, TrackState(track, pv, kNoOffset), evs, e);
        evs := evs + [e];
        t := t.(events := t.events + [e.event]);
        match e.play {
          case None =>
          case Some(play) =>
            if play.variation.Some? {
              playVariation := play.variation;
            }
            if !play.multipleVariations {
              t := t.(selectMethod := kSelectMethodOrdered);
              t := AddWaveVariation(waveBanks, t, play.indicesOrOffset, kWeightMinimum, kWeightMaximum);
            } else {
              wavesOffset := play.indicesOrOffset;
            }
        }
      }
      if wavesOffset != kNoOffset {
        t :- ReadWaveVariations(xsb, t, wavesOffset);
      }
      return Ok((t, playVariation));
    }

    /** readTracks: a trivial or simple sound must have exactly one track. A trivial sound's
        track plays the one wave that indicesOrOffset names; a simple sound's track reads the
        wave-variation list at indicesOrOffset; both get one Play event. A complex sound's
        track words are packed from indicesOrOffset on. */
    method ReadTracks(xsb: ReadStream, indicesOrOffset: nat, count: nat, flags: nat, pv: Option<PlayVariation>)
      returns (r: Result<(seq<Track>, Option<PlayVariation>)>)
      requires xsb.Valid()
      modifies xsb
      ensures xsb.Valid()
      ensures TrivialOrSimple(flags) && count != 1 ==> r.Err? && r.error.Malformed?
      ensures r.Ok? <==> TracksAt(waveBanks, xsb.data, indicesOrOffset, count, flags, pv).Some?
      ensures r.Ok? ==> r.value == TracksAt(waveBanks, xsb.data, indicesOrOffset, count, flags, pv).value
    {
      if (HasFlag(flags, kSoundTrivial) || HasFlag(flags, kSoundSimple)) && count != 1 {
        return Err(Malformed("trivial or simple sound without exactly one track"));
      }
      if HasFlag(flags, kSoundTrivial) {
        var track := EmptyTrack.(selectMethod := kSelectMethodOrdered);
        track := AddWaveVariation(waveBanks, track, indicesOrOffset, kWeightMinimum, kWeightMaximum);
        track := track.(events := track.events + [SynthesizedPlay]);
        return Ok(([track], pv));
      }
      if HasFlag(flags, kSoundSimple) {
        var track :- ReadWaveVariations(xsb, EmptyTrack, indicesOrOffset);
        track := track.(events := track.events + [SynthesizedPlay]);
        return Ok(([track], pv));
      }
      r := ReadComplexTracks(xsb, indicesOrOffset, count, pv);
    }

    /** Track i of a complex sound: seek to its track word, then read the track. */
    method ReadTrackAt(xsb: ReadStream, indicesOrOffset: nat, i: nat, pv: Option<PlayVariation>)
      returns (r: Result<(Track, Option<PlayVariation>)>)
      requires xsb.Valid()
      modifies xsb
      ensures xsb.Valid()
      ensures r.Ok? <==> ComplexTrackDecoder(waveBanks, xsb.data, indicesOrOffset)(i, pv).Some?
      ensures r.Ok? ==> r.value == ComplexTrackDecoder(waveBanks, xsb.data, indicesOrOffset)(i, pv).value
    {
      var ptr := indicesOrOffset + kTrackDefinitionSize * i;
      var seek := xsb.Seek(ptr);
      if seek.Fail? {
        ComplexTrackPastEnd(waveBanks, xsb.data, ptr, EmptyTrack, pv);
        return Err(seek.error);
      }
      r := ReadComplexTrack(xsb, EmptyTrack, pv);
    }

    /** The complex branch of readTracks: track i is read from the track word at
        indicesOrOffset + 4 * i, each track seeing the variation limits the earlier ones left. */
    method ReadComplexTracks(xsb: ReadStream, indicesOrOffset: nat, count: nat, pv: Option<PlayVariation>)
      returns (r: Result<(seq<Track>, Option<PlayVariation>)>)
      requires xsb.Valid()
      modifies xsb
      ensures xsb.Valid()
      ensures r.Ok? <==> ComplexTracksFrom(waveBanks, xsb.data, indicesOrOffset, count, pv).Some?
      ensures r.Ok? ==> r.value == ComplexTracksFrom(waveBanks, xsb.data, indicesOrOffset, count, pv).value
    {
      ghost var decode := ComplexTrackDecoder(waveBanks, xsb.data, indicesOrOffset);
      var tracks: seq<Track> := [];
      var playVariation := pv;
      for i := 0 to count
        invariant xsb.Valid()
        invariant TracksRun(decode, i, pv) == Some((tracks, playVariation))
      {
        TracksRunSnoc(decode, i, pv, tracks, playVariation);
        var read := ReadTrackAt(xsb, indicesOrOffset, i, playVariation);
        if read.Err? {
          TracksRunStuck(decode, i + 1, count, pv);
          return Err(read.error);
        }
        tracks := tracks + [read.value.0];
        playVariation := read.value.1;
      }
      return Ok((tracks, playVariation));
    }

    /** One sound (the body of readSounds' loop): its record, its 3D block when the 3D flag is
        set, then its tracks. */
    method ReadSound(xsb: ReadStream, rec: nat, offset3DParams: nat) returns (r: Result<Sound>)
      requires xsb.Valid()
      modifies xsb
      ensures xsb.Valid()
      ensures r.Ok? <==> SoundAt(waveBanks, xsb.data, rec, offset3DParams).Some?
      ensures r.Ok? ==> r.value == SoundAt(waveBanks, xsb.data, rec, offset3DParams).value
    {
      var record :- ReadSoundRecord(xsb, rec);
      var is3D := HasFlag(record.flags, kSound3D);
      var params3D: Option<Params3D> := None;
      if is3D {
        var params :- Read3DParams(xsb, offset3DParams + k3DDefinitionSize * record.index3DParam,
                                   record.volume, record.volume3D);
        params3D := Some(params);
      }
      var tracks :- ReadTracks(xsb, record.indicesOrOffset, record.trackCount, record.flags, None);
      return Ok(Sound(
        -((record.volume % 0x200) as real) * 0.16,
        PitchSemitones(record.pitch), record.layer, record.categoryIndex, record.priority,
        HasFlag(record.flags, kSoundEQ), EqGain(record.eqGain), EqQ(record.eq), EqFrequency(record.eq),
        HasFlag(record.flags, kSoundGainBoost), is3D, params3D,
        tracks.1, tracks.0));
    }

    /** Sound i of the table at offset, read after the first i: the table grows by it exactly
        when it decodes. */
    method ReadSoundEntry(xsb: ReadStream, offset: nat, i: nat, offset3DParams: nat, ghost table: seq<Sound>)
      returns (r: Result<Sound>)
      requires xsb.Valid()
      requires TableRun(SoundDecoder(waveBanks, xsb.data, offset, offset3DParams), i) == Some(table)
      modifies xsb
      ensures xsb.Valid()
      ensures r.Ok? <==> TableRun(SoundDecoder(waveBanks, xsb.data, offset, offset3DParams), i + 1).Some?
      ensures r.Ok? ==>
        TableRun(SoundDecoder(waveBanks, xsb.data, offset, offset3DParams), i + 1) == Some(table + [r.value])
    {
      var rec := offset + kSoundDefinitionSize * i;
      r := ReadSound(xsb, rec, offset3DParams);
      ghost var decode := SoundDecoder(waveBanks, xsb.data, offset, offset3DParams);
      assert decode(i) == SoundAt(waveBanks, xsb.data, rec, offset3DParams);
      TableRunSnoc(decode, i, table);
    }

    /** readSounds: one sound per 20-byte record, the records packed from offset on. */
    method ReadSounds(xsb: ReadStream, offset: nat, count: nat, offset3DParams: nat) returns (r: Result<()>)
      requires xsb.Valid() && sounds == []
      modifies this, xsb
      ensures xsb.Valid()
      ensures name == old(name) && waveBanks == old(waveBanks) && waveBankMap == old(waveBankMap)
      ensures cues == old(cues) && cueMap == old(cueMap)
      ensures r.Ok? <==> SoundsFrom(waveBanks, xsb.data, offset, count, offset3DParams).Some?
      ensures r.Ok? ==> SoundsFrom(waveBanks, xsb.data, offset, count, offset3DParams) == Some(sounds)
    {
      ghost var decode := SoundDecoder(waveBanks, xsb.data, offset, offset3DParams);
      var table: seq<Sound> := [];
      for i := 0 to count
        invariant xsb.Valid()
        invariant TableRun(decode, i) == Some(table)
        modifies xsb
      {
        var read := ReadSoundEntry(xsb, offset, i, offset3DParams, table);
        if read.Err? {
          TableRunStuck(decode, i + 1, count);
          return Err(read.error);
        }
        table := table + [read.value];
      }
      sounds := table;
      return Ok(());
    }

    /** Append one wave bank to the table and map its name to its index. */
    method AppendWaveBank(bankName: string)
      requires waveBankMap == NameIndex(BankNames(waveBanks))
      modifies this
      ensures name == old(name) && cues == old(cues) && cueMap == old(cueMap) && sounds == old(sounds)
      ensures waveBanks == old(waveBanks) + [WaveBank(bankName)]
      ensures waveBankMap == NameIndex(BankNames(waveBanks))
    {
      BankNamesSnoc(waveBanks, WaveBank(bankName));
      NameIndexSnoc(BankNames(waveBanks), Some(bankName));
      waveBankMap := waveBankMap[bankName := |waveBanks|];
      waveBanks := waveBanks + [WaveBank(bankName)];
    }

    /** readWaveBanks: one 16-byte name per bank, each registered under its name. */
    method ReadWaveBanks(xsb: ReadStream, offset: nat, count: nat) returns (r: Result<()>)
      requires xsb.Valid() && waveBanks == [] && waveBankMap == map[]
      modifies this, xsb
      ensures xsb.Valid()
      ensures name == old(name) && cues == old(cues) && cueMap == old(cueMap) && sounds == old(sounds)
      ensures r.Ok? <==> WaveBanksFit(xsb.data, offset, count)
      ensures r.Ok? ==>
        waveBanks == WaveBanksAt(xsb.data, offset, count) && waveBankMap == NameIndex(BankNames(waveBanks))
    {
      var moved := xsb.Seek(offset);
      if moved.Fail? { return Err(moved.error); }
      for i := 0 to count
        invariant xsb.Valid() && xsb.pos == offset + kWaveBankNameSize * i
        invariant name == old(name) && cues == old(cues) && cueMap == old(cueMap) && sounds == old(sounds)
        invariant WaveBanksFit(xsb.data, offset, i) && waveBanks == WaveBanksAt(xsb.data, offset, i)
        invariant waveBankMap == NameIndex(BankNames(waveBanks))
      {
        var bank := ReadWaveBank(xsb, offset, i);
        if bank.Err? {
          WaveBanksFitPrefix(xsb.data, offset, i + 1, count);
          return Err(bank.error);
        }
        WaveBanksSnoc(xsb.data, offset, i);
        AppendWaveBank(bank.value.name);
      }
      return Ok(());
    }

    /** Append one cue to the table and, when it is named, map its name to its index. */
    method AppendCue(ghost s: seq<u8>, ghost xsbFlags: nat, ghost offset: nat, c: Cue, named: bool)
      requires CuesFit(s, xsbFlags, offset, |cues| + 1)
      requires cueMap == NameIndex(CueNames(s, xsbFlags, offset, cues))
      requires named == CueNamed(s, xsbFlags, offset + kCueDefinitionSize * |cues|)
      modifies this
      ensures name == old(name) && waveBanks == old(waveBanks) && waveBankMap == old(waveBankMap)
      ensures sounds == old(sounds) && cues == old(cues) + [c]
      ensures cueMap == NameIndex(CueNames(s, xsbFlags, offset, cues))
    {
      CueNamesSnoc(s, xsbFlags, offset, cues, c);
      NameIndexSnoc(CueNames(s, xsbFlags, offset, cues), if named then Some(c.name) else None);
      if named {
        cueMap := cueMap[c.name := |cues|];
      }
      cues := cues + [c];
    }

    /** readCues: one cue per 20-byte record, the records packed from offset on; each named
        cue is registered under its name. */
    method ReadCues(xsb: ReadStream, xsbFlags: nat, offset: nat, count: nat) returns (r: Result<()>)
      requires xsb.Valid() && cues == [] && cueMap == map[]
      modifies this, xsb
      ensures xsb.Valid()
      ensures name == old(name) && waveBanks == old(waveBanks) && waveBankMap == old(waveBankMap)
      ensures sounds == old(sounds)
      ensures r.Ok? <==> CuesFit(xsb.data, xsbFlags, offset, count)
      ensures r.Ok? ==>
        cues == CuesAt(xsb.data, xsbFlags, offset, count)
        && cueMap == NameIndex(CueNames(xsb.data, xsbFlags, offset, cues))
    {
      for i := 0 to count
        invariant xsb.Valid()
        invariant name == old(name) && waveBanks == old(waveBanks) && waveBankMap == old(waveBankMap)
        invariant sounds == old(sounds)
        invariant CuesFit(xsb.data, xsbFlags, offset, i) && cues == CuesAt(xsb.data, xsbFlags, offset, i)
        invariant cueMap == NameIndex(CueNames(xsb.data, xsbFlags, offset, cues))
      {
        var rec := offset + kCueDefinitionSize * i;
        var read := ReadCue(xsb, xsbFlags, rec);
        if read.Err? {
          assert !CuesFit(xsb.data, xsbFlags, offset, count) by {
            assert !CueRecordFits(xsb.data, xsbFlags, rec);
          }
          return Err(read.error);
        }
        CuesSnoc(xsb.data, xsbFlags, offset, i);
        AppendCue(xsb.data, xsbFlags, offset, read.value.0, read.value.1);
      }
      return Ok(());
    }

    /** The loaded tables, as the reference definition describes them. */
    function Bank(): SoundBank
      reads this
    {
      SoundBank(name, waveBanks, waveBankMap, cues, cueMap, sounds)
    }

    /** load: the header, then the tables it locates. */
    method Load(xsb: ReadStream) returns (r: Result<()>)
      requires xsb.Valid() && xsb.pos == 0 && Empty()
      modifies this, xsb
      ensures xsb.Valid()
      ensures r.Ok? <==> DecodeSoundBank(xsb.data).Some?
      ensures r.Ok? ==> Bank() == DecodeSoundBank(xsb.data).value
      ensures 4 <= |xsb.data| && U32BE(xsb.data, 0) != kXSBID ==> r.Err? && r.error.Malformed?
      ensures 6 <= |xsb.data| && U32BE(xsb.data, 0) == kXSBID && U16LE(xsb.data, 4) != kXSBVersion ==>
        r.Err? && r.error.Malformed?
    {
      var h :- ReadHeader(xsb);
      r := ReadTables(xsb, h);
    }

    /** The rest of load: the bank name, the wave banks, then the cue and sound tables. */
    method ReadTables(xsb: ReadStream, h: Header) returns (r: Result<()>)
      requires xsb.Valid() && xsb.pos == kHeaderSize && Empty()
      modifies this, xsb
      ensures xsb.Valid()
      ensures r.Ok? <==> BankTables(xsb.data, h).Some?
      ensures r.Ok? ==> Bank() == BankTables(xsb.data, h).value
    {
      name := h.name;
      var offsetCues := xsb.pos;
      var banks := ReadWaveBanks(xsb, h.offsetWaveBanks, h.bankCount);
      if banks.Err? {
        return Err(banks.error);
      }
      r := ReadCuesAndSounds(xsb, h, offsetCues);
    }

    /** The cues at offsetCues (right after the header), then the sounds right after the cue
        table. */
    method ReadCuesAndSounds(xsb: ReadStream, h: Header, offsetCues: nat) returns (r: Result<()>)
      requires xsb.Valid() && offsetCues == kHeaderSize && cues == [] && cueMap == map[] && sounds == []
      modifies this, xsb
      ensures xsb.Valid()
      ensures name == old(name) && waveBanks == old(waveBanks) && waveBankMap == old(waveBankMap)
      ensures r.Ok? <==> CueAndSoundTables(xsb.data, h, waveBanks).Some?
      ensures r.Ok? ==> (cues, cueMap, sounds) == CueAndSoundTables(xsb.data, h, waveBanks).value
    {
      var offsetSounds := offsetCues + kCueDefinitionSize * h.cueCount;
      CueAndSoundTablesParts(xsb.data, h, waveBanks);
      var cueTable := ReadCues(xsb, h.xsbFlags, offsetCues, h.cueCount);
      if cueTable.Err? {
        return Err(cueTable.error);
      }
      r := ReadSounds(xsb, offsetSounds, h.soundCount, h.offset3DParams);
    }
  }
}
