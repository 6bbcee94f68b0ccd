/** Reference definition of the timed-event records of a complex track
    (src/sound/xactsoundbank_binary.cpp, readComplexTrack). */
module XactEvents {
  import opened Wrappers
  import opened Bytes
  import opened XactFormat

  /** What a Play or PlayComplex event with at least 4 parameter bytes carries: a wave
      reference or the offset of a wave-variation list, the "multiple variations" flag that
      says which, and, with 12 more parameter bytes, variation limits for the sound. */
  datatype PlayPayload = PlayPayload(indicesOrOffset: nat, multipleVariations: bool,
                                     variation: Option<PlayVariation>)

  /** One decoded event record and the offset at which the next record starts. */
  datatype EventRecord = EventRecord(event: Event, play: Option<PlayPayload>, next: nat)

  /** An event record at p: the 6-byte head (type, 24-bit timestamp, parameter size, flags)
      and the 2 + parameterSize bytes that follow it lie inside the buffer. */
  predicate EventFits(s: seq<u8>, p: nat)
  {
    p + 6 <= |s| && p + 8 + s[p + 4] <= |s|
  }

  /** Decode the event record at p. Every kind reads at most 2 + parameterSize bytes after the
      head, and the record always ends 8 + parameterSize bytes after p. */
  function DecodeEvent(s: seq<u8>, p: nat): (r: EventRecord)
    requires EventFits(s, p)
    ensures r.event.eventType == s[p]
    ensures r.event.timestamp == U24LE(s, p + 1) < 0x100_0000
    ensures r.next == p + 8 + s[p + 4]
    ensures r.play.Some? ==> (s[p] == kEventTypePlay || s[p] == kEventTypePlayComplex) && s[p + 4] >= 4
  {
    var eventType := s[p];
    var parameterSize := s[p + 4] as int;
    var flags := s[p + 5] as nat;
    var q := p + 6;
    var ev := Event(eventType, U24LE(s, p + 1), NoParams);
    var next := p + 8 + parameterSize;
    if eventType == kEventTypePlay || eventType == kEventTypePlayComplex then
      var play :=
        if parameterSize >= 4 then
          Some(PlayPayload(
            U32LE(s, q + 2),
            HasFlag(flags, kPlayEventMultipleVariations),
            if parameterSize - 4 >= 12 then
              Some(PlayVariation(PitchSemitones(S16LE(s, q + 6)), PitchSemitones(S16LE(s, q + 8)),
                                 VolumeDecibels(S16LE(s, q + 10)), VolumeDecibels(S16LE(s, q + 12)),
                                 U16LE(s, q + 14)))
            else None))
        else None;
      EventRecord(ev, play, next)
    else if eventType == kEventTypePitch then
      var fade :=
        if parameterSize >= 8 then
          Some(PitchFade(PitchSemitones(S16LE(s, q + 2)), PitchSemitones(S16LE(s, q + 4)), U24LE(s, q + 7)))
        else None;
      EventRecord(ev.(params := PitchParams(U16LE(s, q), HasFlag(flags, kPitchEventRelative),
                                            HasFlag(flags, kPitchEventFade),
                                            HasFlag(flags, kPitchEventVariation), fade)), None, next)
    else if eventType == kEventTypeVolume then
      // The source tests the volume flags with the pitch-event masks; their values agree.
      var fade :=
        if parameterSize >= 8 then
          Some(VolumeFade(VolumeDecibels(S16LE(s, q + 2)), VolumeDecibels(S16LE(s, q + 4)), U24LE(s, q + 7)))
        else None;
      EventRecord(ev.(params := VolumeParams(U16LE(s, q), HasFlag(flags, kPitchEventRelative),
                                             HasFlag(flags, kPitchEventFade),
                                             HasFlag(flags, kPitchEventVariation), fade)), None, next)
    else if eventType == kEventTypeLowPass then
      var sweep :=
        if parameterSize >= 12 then
          Some(LowPassSweep(ClipInt(U16LE(s, q + 2), 0, 8192), ClipInt(U16LE(s, q + 4), 0, 8192),
                            U24LE(s, q + 7),
                            Clamp(S16LE(s, q + 10) as real / 100.0, 0.0, 32.0),
                            Clamp(S16LE(s, q + 12) as real / 100.0, 0.0, 32.0)))
        else None;
      EventRecord(ev.(params := LowPassParams(HasFlag(flags, kLowPassEventRelative),
                                              HasFlag(flags, kLowPassEventRandom),
                                              HasFlag(flags, kLowPassEventSweep),
                                              U16LE(s, q), sweep)), None, next)
    else if eventType == kEventTypeLFOMulti then
      var shape :=
        if parameterSize >= 6 then
          Some(LFOShape(s[q + 4] as real * 23.4 / 255.0, S8(s[q + 5]) as real * 12.0 / 128.0,
                        S8(s[q + 6]) as real * 96.0 / 128.0, S8(s[q + 7]) as real * 16.0 / 128.0))
        else None;
      EventRecord(ev.(params := LFOMultiParams(shape)), None, next)
    else if eventType == kEventTypeLoop then
      EventRecord(ev.(params := LoopParams(U16LE(s, q))), None, next)
    else if eventType == kEventTypeMarker then
      var marker :=
        if parameterSize >= 8 then Some(MarkerRepeat(U32LE(s, q + 2), U24LE(s, q + 7))) else None;
      EventRecord(ev.(params := MarkerParams(HasFlag(flags, kMarkerEventRepeat), U16LE(s, q), marker)),
                  None, next)
    else
      EventRecord(ev, None, next)
  }

  /** Where the record after `prev` starts, for records walked from p. */
  function EventStart(p: nat, prev: seq<EventRecord>): nat
  {
    if prev == [] then p else prev[|prev| - 1].next
  }

  /** The first n event records of a track whose event table starts at p, each starting
      where the previous one ended; None when one of them does not fit in the buffer. */
  function EventsFrom(s: seq<u8>, p: nat, n: nat): (r: Option<seq<EventRecord>>)
    ensures r.Some? ==> |r.value| == n
  {
    if n == 0 then Some([])
    else
      match EventsFrom(s, p, n - 1)
      case None => None
      case Some(prev) =>
        var at := EventStart(p, prev);
        if EventFits(s, at) then Some(prev + [DecodeEvent(s, at)]) else None
  }

  /** Once a record does not fit, no longer table of records exists either. */
  lemma {:induction false} EventsFromStuck(s: seq<u8>, p: nat, i: nat, n: nat)
    requires i <= n && EventsFrom(s, p, i).None?
    ensures EventsFrom(s, p, n).None?
    decreases n - i
  {
    if i < n {
      EventsFromStuck(s, p, i + 1, n);
    }
  }

  // ---- Effects of the events on their track -------------------------------------

  /** The state readComplexTrack carries across its event loop: the track being built, the
      variation limits last stored on the sound, and the deferred wave-list offset. */
  datatype TrackState = TrackState(track: Track, playVariation: Option<PlayVariation>, wavesOffset: nat)

  /** One event appended to the track. A Play event without the multiple-variations flag makes
      the track ordered and adds one full-range wave; with the flag it replaces the deferred offset. */
  function ApplyEvent(banks: seq<WaveBank>, st: TrackState, e: EventRecord): TrackState
  {
    var t := st.track.(events := st.track.events + [e.event]);
    match e.play
    case None => st.(track := t)
    case Some(pl) =>
      var pv := if pl.variation.Some? then pl.variation else st.playVariation;
      if !pl.multipleVariations then
        TrackState(AddWaveVariation(banks, t.(selectMethod := kSelectMethodOrdered), pl.indicesOrOffset,
                                    kWeightMinimum, kWeightMaximum), pv, st.wavesOffset)
      else
        TrackState(t, pv, pl.indicesOrOffset)
  }

  function ApplyEvents(banks: seq<WaveBank>, st: TrackState, evs: seq<EventRecord>): TrackState
  {
    if evs == [] then st
    else ApplyEvent(banks, ApplyEvents(banks, st, evs[..|evs| - 1]), evs[|evs| - 1])
  }

  /** Applying one more event is one more step of the fold. */
  lemma ApplyEventsSnoc(banks: seq<WaveBank>, st: TrackState, evs: seq<EventRecord>, e: EventRecord)
    ensures ApplyEvents(banks, st, evs + [e]) == ApplyEvent(banks, ApplyEvents(banks, st, evs), e)
  {
    assert (evs + [e])[..|evs|] == evs;
  }

  /** A Play event whose wave list is deferred. */
  predicate Deferred(e: EventRecord)
  {
    e.play.Some? && e.play.value.multipleVariations
  }

  /** A Play event that names its wave directly. */
  predicate Direct(e: EventRecord)
  {
    e.play.Some? && !e.play.value.multipleVariations
  }

  /** Wave references of the direct Play events, in event order. */
  function DirectPlayIndices(evs: seq<EventRecord>): (r: seq<nat>)
    ensures |r| <= |evs|
  {
    if evs == [] then []
    else
      var last := evs[|evs| - 1];
      DirectPlayIndices(evs[..|evs| - 1]) + (if Direct(last) then [last.play.value.indicesOrOffset] else [])
  }
}
