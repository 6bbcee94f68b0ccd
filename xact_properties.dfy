/** Properties of the reference definition of the XSB decoder: the packed descriptors, the
    layout of event tables, the effect of the events on their track, the track-count rules,
    the cue sentinels, the name indexes and the weights of a whole decoded bank. */
module XactProperties {
  import opened Wrappers
  import opened Bytes
  import opened XactFormat
  import opened XactEvents
  import opened XactSpec

  // ---- Packed fields -----------------------------------------------------------

  /** The variation descriptor splits a 32-bit word into four bit fields and loses nothing. */
  lemma VariationDataRoundTrip(w: nat)
    requires w < 0x1_0000_0000
    ensures EncodeVariationData(DecodeVariationData(w)) == w
  {
  }

  /** Any four in-range fields survive being packed and split again. */
  lemma VariationDataFieldsRoundTrip(d: VariationData)
    requires d.flags < 4 && d.current < 0x2000 && d.selectMethod < 0x10 && d.count < 0x2000
    ensures DecodeVariationData(EncodeVariationData(d)) == d
  {
    var w := EncodeVariationData(d);
    var e := DecodeVariationData(w);
    assert w == d.flags * 0x4000_0000 + d.current * 0x2_0000 + d.selectMethod * 0x2000 + d.count;
    assert w == e.flags * 0x4000_0000 + e.current * 0x2_0000 + e.selectMethod * 0x2000 + e.count;
    PackedDigitsUnique(d.flags, d.current, d.selectMethod, d.count, e.flags, e.current, e.selectMethod, e.count);
  }

  lemma PackedDigitsUnique(a: nat, b: nat, c: nat, d: nat, a': nat, b': nat, c': nat, d': nat)
    requires b < 0x2000 && c < 0x10 && d < 0x2000 && b' < 0x2000 && c' < 0x10 && d' < 0x2000
    requires a * 0x4000_0000 + b * 0x2_0000 + c * 0x2000 + d == a' * 0x4000_0000 + b' * 0x2_0000 + c' * 0x2000 + d'
    ensures a == a' && b == b' && c == c' && d == d'
  {
    var mid, mid' := b * 0x2_0000 + c * 0x2000 + d, b' * 0x2_0000 + c' * 0x2000 + d';
    assert (a * 0x4000_0000 + mid) / 0x4000_0000 == a;
    assert (a' * 0x4000_0000 + mid') / 0x4000_0000 == a';
    assert (b * 0x2_0000 + (c * 0x2000 + d)) / 0x2_0000 == b;
    assert (b' * 0x2_0000 + (c' * 0x2000 + d')) / 0x2_0000 == b';
    assert (c * 0x2000 + d) / 0x2000 == c;
    assert (c' * 0x2000 + d') / 0x2000 == c';
  }

  /** The XSB signature is the four bytes 'S', 'D', 'B', 'K'. */
  lemma SignatureBytes(s: seq<u8>)
    requires 4 <= |s|
    ensures U32BE(s, 0) == kXSBID <==> s[..4] == [0x53, 0x44, 0x42, 0x4B]
  {
    TagBytes(s, 0, 0x53, 0x44, 0x42, 0x4B);
  }

  // ---- Event tables ------------------------------------------------------------

  /** Where record k of a table walked from p starts: p for the first, else where record k-1 ended. */
  function RecordStart(p: nat, evs: seq<EventRecord>, k: nat): nat
    requires k <= |evs|
  {
    if k == 0 then p else evs[k - 1].next
  }

  /** The records of a shorter walk are a prefix of those of a longer one. */
  lemma EventsPrefix(s: seq<u8>, p: nat, n: nat)
    requires EventsFrom(s, p, n).Some? && n > 0
    ensures EventsFrom(s, p, n - 1).Some?
    ensures EventFits(s, EventStart(p, EventsFrom(s, p, n - 1).value))
    ensures EventsFrom(s, p, n).value == EventsFrom(s, p, n - 1).value
         + [DecodeEvent(s, EventStart(p, EventsFrom(s, p, n - 1).value))]
  {
  }

  /** Event k of a decoded table is the record decoded where event k-1 ended (event 0 at the
      table offset p), and that record lies inside the buffer. */
  lemma {:induction false} EventsContiguous(s: seq<u8>, p: nat, n: nat)
    requires EventsFrom(s, p, n).Some?
    ensures var evs := EventsFrom(s, p, n).value;
      forall k :: 0 <= k < n ==>
        EventFits(s, RecordStart(p, evs, k)) && evs[k] == DecodeEvent(s, RecordStart(p, evs, k))
  {
    if n > 0 {
      var evs := EventsFrom(s, p, n).value;
      EventsPrefix(s, p, n);
      EventsContiguous(s, p, n - 1);
      var prev := EventsFrom(s, p, n - 1).value;
      var last := DecodeEvent(s, EventStart(p, prev));
      assert evs == prev + [last];
      forall k | 0 <= k < n
        ensures EventFits(s, RecordStart(p, evs, k)) && evs[k] == DecodeEvent(s, RecordStart(p, evs, k))
      {
        if k < n - 1 {
          assert evs[k] == prev[k];
          assert RecordStart(p, evs, k) == RecordStart(p, prev, k);
        } else {
          assert evs[k] == last;
          assert RecordStart(p, evs, k) == EventStart(p, prev);
        }
      }
    }
  }

  /** Each record spans 8 + its parameter size bytes, so n records end at least 8n bytes after
      the table offset and no later than the end of the buffer. */
  lemma {:induction false} EventsSpan(s: seq<u8>, p: nat, n: nat)
    requires EventsFrom(s, p, n).Some?
    ensures EventStart(p, EventsFrom(s, p, n).value) >= p + 8 * n
    ensures n > 0 ==> EventStart(p, EventsFrom(s, p, n).value) <= |s|
  {
    if n > 0 {
      EventsPrefix(s, p, n);
      EventsSpan(s, p, n - 1);
    }
  }

  /** Every decoded event keeps a 24-bit timestamp and its type byte. */
  lemma {:induction false} EventsTimestamps(s: seq<u8>, p: nat, n: nat)
    requires EventsFrom(s, p, n).Some?
    ensures forall k :: 0 <= k < n ==> EventsFrom(s, p, n).value[k].event.timestamp < 0x100_0000
  {
    EventsContiguous(s, p, n);
  }

  // ---- Effect of the events on their track -------------------------------------

  function EventsOf(evs: seq<EventRecord>): (r: seq<Event>)
    ensures |r| == |evs| && forall k :: 0 <= k < |evs| ==> r[k] == evs[k].event
  {
    seq(|evs|, k requires 0 <= k < |evs| => evs[k].event)
  }

  /** The offset carried by the last deferred Play event, if any. */
  function LastDeferred(evs: seq<EventRecord>): Option<nat>
  {
    if evs == [] then None
    else if Deferred(evs[|evs| - 1]) then Some(evs[|evs| - 1].play.value.indicesOrOffset)
    else LastDeferred(evs[..|evs| - 1])
  }

  /** The variation limits of the last Play event that carries them, if any. */
  function LastVariation(evs: seq<EventRecord>): Option<PlayVariation>
  {
    if evs == [] then None
    else
      var e := evs[|evs| - 1];
      if e.play.Some? && e.play.value.variation.Some? then e.play.value.variation
      else LastVariation(evs[..|evs| - 1])
  }

  /** Every event is appended to the track, in order. */
  lemma {:induction false} ApplyEventsAppendsEvents(banks: seq<WaveBank>, st: TrackState, evs: seq<EventRecord>)
    ensures ApplyEvents(banks, st, evs).track.events == st.track.events + EventsOf(evs)
  {
    if evs != [] {
      ApplyEventsAppendsEvents(banks, st, evs[..|evs| - 1]);
      assert EventsOf(evs) == EventsOf(evs[..|evs| - 1]) + [evs[|evs| - 1].event];
    }
  }

  /** Each direct Play event adds one full-range wave, in order, named by its reference as
      addWaveVariation names it (wave index from the low 16 bits, bank from the high 16 bits);
      the track's existing waves are kept. */
  lemma {:induction false} ApplyEventsAddsDirectWaves(banks: seq<WaveBank>, st: TrackState, evs: seq<EventRecord>)
    ensures var r := ApplyEvents(banks, st, evs);
      |r.track.waves| == |st.track.waves| + |DirectPlayIndices(evs)|
      && r.track.waves[..|st.track.waves|] == st.track.waves
      && forall k :: 0 <= k < |DirectPlayIndices(evs)| ==>
           r.track.waves[|st.track.waves| + k] == WaveOf(banks, DirectPlayIndices(evs)[k], kWeightMinimum, kWeightMaximum)
  {
    if evs != [] {
      var init := evs[..|evs| - 1];
      var e := evs[|evs| - 1];
      ApplyEventsAddsDirectWaves(banks, st, init);
      var mid := ApplyEvents(banks, st, init);
      var r := ApplyEvents(banks, st, evs);
      assert r == ApplyEvent(banks, mid, e);
      var n0 := |st.track.waves|;
      assert mid.track.waves[..n0] == st.track.waves;
      if Direct(e) {
        assert DirectPlayIndices(evs) == DirectPlayIndices(init) + [e.play.value.indicesOrOffset];
        assert r.track.waves[..|mid.track.waves|] == mid.track.waves;
        assert r.track.waves[..n0] == mid.track.waves[..n0];
      } else {
        assert DirectPlayIndices(evs) == DirectPlayIndices(init);
        assert r.track.waves == mid.track.waves;
      }
    }
  }

  /** The deferred wave-list offset is the one of the last deferred Play event: a later one
      replaces an earlier one, and without any the initial offset stays. */
  lemma {:induction false} ApplyEventsLastDeferredWins(banks: seq<WaveBank>, st: TrackState, evs: seq<EventRecord>)
    ensures ApplyEvents(banks, st, evs).wavesOffset
         == if LastDeferred(evs).Some? then LastDeferred(evs).value else st.wavesOffset
  {
    if evs != [] {
      ApplyEventsLastDeferredWins(banks, st, evs[..|evs| - 1]);
    }
  }

  /** The variation limits left on the sound are those of the last Play event carrying them. */
  lemma {:induction false} ApplyEventsLastVariationWins(banks: seq<WaveBank>, st: TrackState, evs: seq<EventRecord>)
    ensures ApplyEvents(banks, st, evs).playVariation
         == if LastVariation(evs).Some? then LastVariation(evs) else st.playVariation
  {
    if evs != [] {
      ApplyEventsLastVariationWins(banks, st, evs[..|evs| - 1]);
    }
  }

  /** A direct Play event makes the track ordered; without one the selection method is kept. */
  lemma {:induction false} ApplyEventsSelectMethod(banks: seq<WaveBank>, st: TrackState, evs: seq<EventRecord>)
    ensures var r := ApplyEvents(banks, st, evs);
      if |DirectPlayIndices(evs)| > 0 then r.track.selectMethod == kSelectMethodOrdered
      else r.track.selectMethod == st.track.selectMethod
  {
    if evs != [] {
      ApplyEventsSelectMethod(banks, st, evs[..|evs| - 1]);
    }
  }

  // ---- Weights -----------------------------------------------------------------

  predicate TrackWeightsValid(t: Track)
  {
    forall w :: w in t.waves ==> WeightsValid(w.weightMin, w.weightMax)
  }

  lemma AddWaveKeepsWeights(banks: seq<WaveBank>, t: Track, indices: nat, wMin: nat, wMax: nat)
    requires TrackWeightsValid(t)
    ensures TrackWeightsValid(AddWaveVariation(banks, t, indices, wMin, wMax))
  {
    var r := AddWaveVariation(banks, t, indices, wMin, wMax);
    assert r.waves == t.waves + [r.waves[|t.waves|]];
  }

  lemma WaveListKeepsWeights(banks: seq<WaveBank>, s: seq<u8>, t: Track, off: nat)
    requires VariationListFits(s, off)
    requires TrackWeightsValid(t)
    ensures TrackWeightsValid(WaveListInto(banks, s, t, off))
  {
    var ws := WaveRecordsAt(banks, s, off);
    forall w | w in t.waves + ws ensures WeightsValid(w.weightMin, w.weightMax) {
      if w !in t.waves {
        var j :| 0 <= j < |ws| && ws[j] == w;
        assert w == WaveRecordAt(banks, s, off, j);
      }
    }
  }

  lemma {:induction false} ApplyEventsKeepWeights(banks: seq<WaveBank>, st: TrackState, evs: seq<EventRecord>)
    requires TrackWeightsValid(st.track)
    ensures TrackWeightsValid(ApplyEvents(banks, st, evs).track)
  {
    if evs != [] {
      ApplyEventsKeepWeights(banks, st, evs[..|evs| - 1]);
      var mid := ApplyEvents(banks, st, evs[..|evs| - 1]);
      var e := evs[|evs| - 1];
      var t := mid.track.(events := mid.track.events + [e.event]);
      if Direct(e) {
        AddWaveKeepsWeights(banks, t.(selectMethod := kSelectMethodOrdered), e.play.value.indicesOrOffset,
                            kWeightMinimum, kWeightMaximum);
      }
    }
  }

  // ---- Wave lists ----------------------------------------------------------------

  /** readWaveVariations gives the track the list's selection method and exactly the list's
      count of new waves, in record order, each with the low 16 bits of its record's packed
      indices as wave index; its events and earlier waves are kept. */
  lemma WaveListShape(banks: seq<WaveBank>, s: seq<u8>, t: Track, off: nat)
    requires VariationListFits(s, off)
    ensures var r := WaveListInto(banks, s, t, off); var n := ListDescriptor(s, off).count;
      |r.waves| == |t.waves| + n && r.waves[..|t.waves|] == t.waves
      && r.events == t.events && r.selectMethod == ListDescriptor(s, off).selectMethod
      && forall j :: 0 <= j < n ==> r.waves[|t.waves| + j].index == U32LE(s, off + 4 + 8 * j) % 0x1_0000
  {
    var r := WaveListInto(banks, s, t, off);
    assert r.waves[..|t.waves|] == t.waves;
  }

  // ---- Tracks ------------------------------------------------------------------

  /** A trivial or simple sound decodes only with exactly one track, and then has one track
      whose only event is the synthesized Play. A simple sound's track holds exactly the wave
      list at indicesOrOffset, with that list's selection method. */
  lemma TrivialOrSimpleHasOneTrack(banks: seq<WaveBank>, s: seq<u8>, ioo: nat, count: nat, flags: nat,
                                   pv: Option<PlayVariation>)
    requires TrivialOrSimple(flags)
    ensures count != 1 ==> TracksAt(banks, s, ioo, count, flags, pv).None?
    ensures TracksAt(banks, s, ioo, count, flags, pv).Some? ==>
      var tr := TracksAt(banks, s, ioo, count, flags, pv).value.0;
      |tr| == 1 && tr[0].events == [SynthesizedPlay]
    ensures count == 1 && !HasFlag(flags, kSoundTrivial) ==>
      (TracksAt(banks, s, ioo, count, flags, pv).Some? <==> VariationListFits(s, ioo))
    ensures !HasFlag(flags, kSoundTrivial) && TracksAt(banks, s, ioo, count, flags, pv).Some? ==>
      var t := TracksAt(banks, s, ioo, count, flags, pv).value.0[0];
      VariationListFits(s, ioo) && t.waves == WaveRecordsAt(banks, s, ioo)
      && t.selectMethod == ListDescriptor(s, ioo).selectMethod
  {
  }

  /** The trivial flag wins over the simple flag: such a sound has one ordered track with the
      single full-range wave its packed bank:index word names, and reads nothing more from the
      buffer. */
  lemma TrivialTakesPrecedence(banks: seq<WaveBank>, s: seq<u8>, s': seq<u8>, ioo: nat, flags: nat,
                               pv: Option<PlayVariation>)
    requires HasFlag(flags, kSoundTrivial)
    ensures TracksAt(banks, s, ioo, 1, flags, pv) == TracksAt(banks, s', ioo, 1, flags, pv)
    ensures TracksAt(banks, s, ioo, 1, flags, pv).Some?
    ensures var t := TracksAt(banks, s, ioo, 1, flags, pv).value.0[0];
      t.waves == [WaveOf(banks, ioo, kWeightMinimum, kWeightMaximum)]
      && t.selectMethod == kSelectMethodOrdered && t.events == [SynthesizedPlay]
  {
    var t := AddWaveVariation(banks, EmptyTrack.(selectMethod := kSelectMethodOrdered), ioo,
                              kWeightMinimum, kWeightMaximum);
    assert t.waves == [] + [WaveOf(banks, ioo, kWeightMinimum, kWeightMaximum)];
    assert t.events == [];
  }

  /** A complex sound has as many tracks as its record says. */
  lemma {:induction false} ComplexTrackCount(banks: seq<WaveBank>, s: seq<u8>, ioo: nat, count: nat, flags: nat,
                                             pv: Option<PlayVariation>)
    requires !TrivialOrSimple(flags)
    requires TracksAt(banks, s, ioo, count, flags, pv).Some?
    ensures |TracksAt(banks, s, ioo, count, flags, pv).value.0| == count
  {
  }

  /** The waves a complex track ends with, given the waves it started with and its event
      records: the earlier waves, then one full-range wave per direct Play event, then, when the
      last deferred Play event names a list, exactly that list's records. */
  predicate WavesAfterEvents(banks: seq<WaveBank>, s: seq<u8>, before: seq<WaveVariation>,
                             evs: seq<EventRecord>, after: seq<WaveVariation>)
  {
    var direct := DirectPlayIndices(evs);
    var o := if LastDeferred(evs).Some? then LastDeferred(evs).value else kNoOffset;
    |after| >= |before| + |direct|
    && after[..|before|] == before
    && (forall k :: 0 <= k < |direct| ==>
          after[|before| + k] == WaveOf(banks, direct[k], kWeightMinimum, kWeightMaximum))
    && (o == kNoOffset ==> |after| == |before| + |direct|)
    && (o != kNoOffset ==>
          (VariationListFits(s, o) && after[|before| + |direct|..] == WaveRecordsAt(banks, s, o)))
  }

  /** The waves of a track built by the event loop of readComplexTrack and its deferred list. */
  lemma EventLoopWaves(banks: seq<WaveBank>, s: seq<u8>, t0: Track, pv: Option<PlayVariation>,
                       evs: seq<EventRecord>, t: Track)
    requires var st := ApplyEvents(banks, TrackState(t0, pv, kNoOffset), evs);
      if st.wavesOffset == kNoOffset then t == st.track
      else VariationListFits(s, st.wavesOffset) && t == WaveListInto(banks, s, st.track, st.wavesOffset)
    ensures WavesAfterEvents(banks, s, t0.waves, evs, t.waves)
  {
    var st0 := TrackState(t0, pv, kNoOffset);
    ApplyEventsAddsDirectWaves(banks, st0, evs);
    ApplyEventsLastDeferredWins(banks, st0, evs);
    var st := ApplyEvents(banks, st0, evs);
    var n0, d := |t0.waves|, |DirectPlayIndices(evs)|;
    if st.wavesOffset != kNoOffset {
      var ws := WaveRecordsAt(banks, s, st.wavesOffset);
      assert t.waves == st.track.waves + ws;
      assert t.waves[n0 + d..] == ws;
      assert t.waves[..n0] == st.track.waves[..n0];
      forall k | 0 <= k < d
        ensures t.waves[n0 + k] == WaveOf(banks, DirectPlayIndices(evs)[k], kWeightMinimum, kWeightMaximum)
      {
        assert t.waves[n0 + k] == st.track.waves[n0 + k];
      }
    }
  }

  /** A complex track's word gives the event count in its low 8 bits and the event table's
      offset in its high 24 bits: the track holds that many more events, each a record of the
      table, and its waves are those WavesAfterEvents describes for those records. */
  lemma ComplexTrackEvents(banks: seq<WaveBank>, s: seq<u8>, ptr: nat, t0: Track, pv: Option<PlayVariation>)
    requires ComplexTrackAt(banks, s, ptr, t0, pv).Some?
    ensures ptr + 4 <= |s|
    ensures var w := U32LE(s, ptr);
      var evs := EventsFrom(s, w / 0x100, w % 0x100);
      var t := ComplexTrackAt(banks, s, ptr, t0, pv).value.0;
      evs.Some? && w % 0x100 < 0x100 && w / 0x100 < 0x100_0000
      && t.events == t0.events + EventsOf(evs.value)
      && |t.events| == |t0.events| + w % 0x100
      && WavesAfterEvents(banks, s, t0.waves, evs.value, t.waves)
  {
    var w := U32LE(s, ptr);
    var evs := EventsFrom(s, w / 0x100, w % 0x100).value;
    var st0 := TrackState(t0, pv, kNoOffset);
    ApplyEventsAppendsEvents(banks, st0, evs);
    EventLoopWaves(banks, s, t0, pv, evs, ComplexTrackAt(banks, s, ptr, t0, pv).value.0);
  }

  lemma ComplexTrackKeepsWeights(banks: seq<WaveBank>, s: seq<u8>, ptr: nat, t0: Track, pv: Option<PlayVariation>)
    requires TrackWeightsValid(t0)
    requires ComplexTrackAt(banks, s, ptr, t0, pv).Some?
    ensures TrackWeightsValid(ComplexTrackAt(banks, s, ptr, t0, pv).value.0)
  {
    var w := U32LE(s, ptr);
    var evs := EventsFrom(s, w / 0x100, w % 0x100).value;
    var st0 := TrackState(t0, pv, kNoOffset);
    ApplyEventsKeepWeights(banks, st0, evs);
    var st := ApplyEvents(banks, st0, evs);
    if st.wavesOffset != kNoOffset {
      WaveListKeepsWeights(banks, s, st.track, st.wavesOffset);
    }
  }

  /** A run of tracks keeps weights valid when every track the decoder yields does. */
  lemma {:induction false} TracksRunKeepWeights(decode: TrackDecoder, n: nat, pv: Option<PlayVariation>)
    requires forall i, v :: decode(i, v).Some? ==> TrackWeightsValid(decode(i, v).value.0)
    requires TracksRun(decode, n, pv).Some?
    ensures forall t :: t in TracksRun(decode, n, pv).value.0 ==> TrackWeightsValid(t)
  {
    if n > 0 {
      TracksRunKeepWeights(decode, n - 1, pv);
    }
  }

  lemma ComplexTracksKeepWeights(banks: seq<WaveBank>, s: seq<u8>, base: nat, n: nat, pv: Option<PlayVariation>)
    requires ComplexTracksFrom(banks, s, base, n, pv).Some?
    ensures forall t :: t in ComplexTracksFrom(banks, s, base, n, pv).value.0 ==> TrackWeightsValid(t)
  {
    var decode := ComplexTrackDecoder(banks, s, base);
    forall i, v | decode(i, v).Some? ensures TrackWeightsValid(decode(i, v).value.0) {
      ComplexTrackKeepsWeights(banks, s, base + kTrackDefinitionSize * i, EmptyTrack, v);
    }
    TracksRunKeepWeights(decode, n, pv);
  }

  lemma TracksKeepWeights(banks: seq<WaveBank>, s: seq<u8>, ioo: nat, count: nat, flags: nat,
                          pv: Option<PlayVariation>)
    requires TracksAt(banks, s, ioo, count, flags, pv).Some?
    ensures forall t :: t in TracksAt(banks, s, ioo, count, flags, pv).value.0 ==> TrackWeightsValid(t)
  {
    if TrivialOrSimple(flags) {
      if HasFlag(flags, kSoundTrivial) {
        AddWaveKeepsWeights(banks, EmptyTrack.(selectMethod := kSelectMethodOrdered), ioo, kWeightMinimum, kWeightMaximum);
      } else {
        WaveListKeepsWeights(banks, s, EmptyTrack, ioo);
      }
    } else {
      ComplexTracksKeepWeights(banks, s, ioo, count, pv);
    }
  }

  // ---- Cues --------------------------------------------------------------------

  /** The three cases of a cue record: an entry offset names a variation list; failing that a
      sound index names the single, full-range, ordered variation; with both sentinels the cue
      has no variation. A name is read only when cue names are on and the name offset is not
      the sentinel. */
  lemma CueSentinels(s: seq<u8>, xsbFlags: nat, rec: nat)
    requires CueRecordFits(s, xsbFlags, rec)
    ensures var c := CueAt(s, xsbFlags, rec);
      var soundIndex, offsetEntry := U16LE(s, rec + 2), U32LE(s, rec + 8);
      (offsetEntry != kNoOffset ==> |c.variations| == ListDescriptor(s, offsetEntry).count)
      && (offsetEntry == kNoOffset && soundIndex != kNoSoundIndex ==>
            c.variations == [CueVariation(soundIndex, kWeightMinimum, kWeightMaximum)]
            && c.selectMethod == kSelectMethodOrdered)
      && (offsetEntry == kNoOffset && soundIndex == kNoSoundIndex ==> c.variations == [] && c.selectMethod == kInitialSelectMethod)
      && (HasFlag(xsbFlags, kXSBNoCueNames) || U32LE(s, rec + 4) == kNoOffset ==> c.name == "")
  {
  }

  /** Every variation of a decoded cue has clipped, ordered weights. */
  lemma CueWeightsValid(s: seq<u8>, xsbFlags: nat, rec: nat)
    requires CueRecordFits(s, xsbFlags, rec)
    ensures forall v :: v in CueAt(s, xsbFlags, rec).variations ==> WeightsValid(v.weightMin, v.weightMax)
  {
    var offsetEntry := U32LE(s, rec + 8);
    if offsetEntry != kNoOffset {
      var vs := CueVariationsAt(s, offsetEntry);
      forall v | v in vs ensures WeightsValid(v.weightMin, v.weightMax) {
        var j :| 0 <= j < |vs| && vs[j] == v;
        assert v == CueVariationAt(s, offsetEntry, j);
      }
    }
  }

  // ---- Name indexes ------------------------------------------------------------

  /** The index maps exactly the registered names, each to the last position that registers it. */
  lemma {:induction false} NameIndexLastWins(names: seq<Option<string>>)
    ensures forall n :: n in NameIndex(names) <==> Some(n) in names
    ensures forall n :: n in NameIndex(names) ==>
      var i := NameIndex(names)[n];
      i < |names| && names[i] == Some(n) && forall j :: i < j < |names| ==> names[j] != Some(n)
  {
    if names != [] {
      var init := names[..|names| - 1];
      var last := names[|names| - 1];
      NameIndexLastWins(init);
      assert names == init + [last];
      NameIndexSnoc(init, last);
      forall n ensures n in NameIndex(names) <==> Some(n) in names {
        if Some(n) in names {
          var i :| 0 <= i < |names| && names[i] == Some(n);
          if i < |names| - 1 {
            assert init[i] == Some(n);
          }
        }
      }
    }
  }

  // ---- The whole bank ----------------------------------------------------------

  /** A decoded bank has a valid header (the signature 'S', 'D', 'B', 'K' and version 11), and
      is the wave-bank table at the header's offset, the cue table right after the 56-byte
      header and the sound table right after the cue table, with the header's counts. */
  lemma BankLayout(s: seq<u8>)
    requires DecodeSoundBank(s).Some?
    ensures HeaderValid(s) && s[..4] == [0x53, 0x44, 0x42, 0x4B] && U16LE(s, 4) == 11
    ensures var h := HeaderAt(s); var b := DecodeSoundBank(s).value;
      var offsetSounds := kHeaderSize + kCueDefinitionSize * h.cueCount;
      WaveBanksFit(s, h.offsetWaveBanks, h.bankCount)
      && CuesFit(s, h.xsbFlags, kHeaderSize, h.cueCount)
      && b.name == h.name
      && b.waveBanks == WaveBanksAt(s, h.offsetWaveBanks, h.bankCount)
      && b.cues == CuesAt(s, h.xsbFlags, kHeaderSize, h.cueCount)
      && SoundsFrom(b.waveBanks, s, offsetSounds, h.soundCount, h.offset3DParams) == Some(b.sounds)
      && |b.waveBanks| == h.bankCount && |b.cues| == h.cueCount && |b.sounds| == h.soundCount
  {
    SignatureBytes(s);
    var h := HeaderAt(s);
    CueAndSoundTablesParts(s, h, WaveBanksAt(s, h.offsetWaveBanks, h.bankCount));
  }

  /** No bank fails for a reason other than its bytes: a header without the SDBK signature or
      with a version other than 11 is refused. */
  lemma BadHeaderRefused(s: seq<u8>)
    requires 4 <= |s| && (s[..4] != [0x53, 0x44, 0x42, 0x4B] || (6 <= |s| && U16LE(s, 4) != 11))
    ensures DecodeSoundBank(s).None?
  {
    SignatureBytes(s);
  }

  lemma CuesWeightsValid(s: seq<u8>, xsbFlags: nat, off: nat, count: nat)
    requires CuesFit(s, xsbFlags, off, count)
    ensures forall c, v :: c in CuesAt(s, xsbFlags, off, count) && v in c.variations ==> WeightsValid(v.weightMin, v.weightMax)
  {
    var cues := CuesAt(s, xsbFlags, off, count);
    forall i | 0 <= i < |cues| ensures forall v :: v in cues[i].variations ==> WeightsValid(v.weightMin, v.weightMax) {
      CueWeightsValid(s, xsbFlags, off + kCueDefinitionSize * i);
    }
  }

  lemma SoundTracksKeepWeights(banks: seq<WaveBank>, s: seq<u8>, rec: nat, offset3DParams: nat)
    requires SoundAt(banks, s, rec, offset3DParams).Some?
    ensures forall t :: t in SoundAt(banks, s, rec, offset3DParams).value.tracks ==> TrackWeightsValid(t)
  {
    var r := SoundRecordAt(s, rec);
    TracksKeepWeights(banks, s, r.indicesOrOffset, r.trackCount, r.flags, None);
  }

  lemma SoundsWeightsValid(banks: seq<WaveBank>, s: seq<u8>, off: nat, count: nat, offset3DParams: nat,
                           sounds: seq<Sound>)
    requires SoundsFrom(banks, s, off, count, offset3DParams) == Some(sounds)
    ensures forall i, t :: 0 <= i < |sounds| && t in sounds[i].tracks ==> TrackWeightsValid(t)
  {
    var decode := SoundDecoder(banks, s, off, offset3DParams);
    TableRunElements(decode, count);
    forall i | 0 <= i < |sounds| ensures forall t :: t in sounds[i].tracks ==> TrackWeightsValid(t) {
      assert decode(i) == SoundAt(banks, s, off + kSoundDefinitionSize * i, offset3DParams);
      SoundTracksKeepWeights(banks, s, off + kSoundDefinitionSize * i, offset3DParams);
    }
  }

  /** The cue and sound tables located by a header keep their weights valid. */
  lemma TablesWeightsValid(s: seq<u8>, h: Header, banks: seq<WaveBank>)
    requires CueAndSoundTables(s, h, banks).Some?
    ensures var tables := CueAndSoundTables(s, h, banks).value;
      (forall c, v :: c in tables.0 && v in c.variations ==> WeightsValid(v.weightMin, v.weightMax))
      && (forall i, t :: 0 <= i < |tables.2| && t in tables.2[i].tracks ==> TrackWeightsValid(t))
  {
    var offsetSounds := kHeaderSize + kCueDefinitionSize * h.cueCount;
    var sounds := SoundsFrom(banks, s, offsetSounds, h.soundCount, h.offset3DParams).value;
    CuesWeightsValid(s, h.xsbFlags, kHeaderSize, h.cueCount);
    SoundsWeightsValid(banks, s, offsetSounds, h.soundCount, h.offset3DParams, sounds);
  }

  /** Every weight pair in a decoded bank, of a cue variation or of a track's wave, is clipped
      into [kWeightMinimum, kWeightMaximum] and ordered. */
  lemma BankWeightsValid(s: seq<u8>)
    requires DecodeSoundBank(s).Some?
    ensures var b := DecodeSoundBank(s).value;
      (forall c, v :: c in b.cues && v in c.variations ==> WeightsValid(v.weightMin, v.weightMax))
      && (forall i, t :: 0 <= i < |b.sounds| && t in b.sounds[i].tracks ==> TrackWeightsValid(t))
  {
    var h := HeaderAt(s);
    TablesWeightsValid(s, h, WaveBanksAt(s, h.offsetWaveBanks, h.bankCount));
  }

  /** A 3D sound carries its 3D block, read at offset3DParams + 40 * its index, with cone
      angles clipped to 360 degrees and a roll-off curve of at most 10 samples; a sound without
      the 3D flag has none. */
  lemma Sound3DBlock(banks: seq<WaveBank>, s: seq<u8>, rec: nat, offset3DParams: nat)
    requires SoundAt(banks, s, rec, offset3DParams).Some?
    ensures rec + 20 <= |s|
    ensures var snd := SoundAt(banks, s, rec, offset3DParams).value;
      var r := SoundRecordAt(s, rec);
      var b := offset3DParams + 40 * r.index3DParam;
      snd.is3D == HasFlag(r.flags, kSound3D) && (snd.params3D.Some? <==> snd.is3D)
      && (snd.is3D ==>
            b + 30 <= |s|
            && snd.params3D.value.coneInsideAngle == ConeAngle(U16LE(s, b)) <= 360
            && snd.params3D.value.coneOutsideAngle == ConeAngle(U16LE(s, b + 2)) <= 360
            && |snd.params3D.value.rollOffCurve| == RolloffCurveLength(s[b + 29]) <= 10)
  {
  }
}
