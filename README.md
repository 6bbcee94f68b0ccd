# XACT sound banks and NWN2 terrain containers, modelled in Dafny

This project models two binary loaders of xoreos, the reimplementation of BioWare's Aurora
engine:

- **The binary XACT sound bank (XSB) decoder** of `src/sound/xactsoundbank_binary.cpp`. It
  reads the 56-byte header, checking the `SDBK` signature and version 11. It then reads the
  table of 16-byte wave-bank names and the 20-byte cue records, which follow the header. Each
  cue record has an optional name, a variation list or a single sound index, and sentinel
  values for "none". Last come the 20-byte sound records. Each sound record has fixed-point
  volume, pitch and EQ fields, and an optional 40-byte 3D block with a roll-off curve. Its
  tracks are trivial, simple or complex. A complex track is a packed track word that
  points to a table of variable-length event records, plus an optional deferred wave list.
  Every weight pair is clipped and put in order. Wave references are resolved against the
  wave banks.
- **The NWN2 baked-terrain container (TRX)** of `src/engines/nwn2/trxfile.cpp`. It reads the
  `NWN2` 2.3 header and the packet count. A guard checks that the directory fits. Then come
  the directory of (tag, offset) entries and the packets. Each packet is an 8-byte head
  that repeats the tag and gives a size. The payload is dispatched on TRWH, TRRN, WATR or
  ASWM.

Both loaders are imperative in the source. They are modelled the same way:

- A `ReadStream` class holds the bytes and a position.
- The decoder state is a class: `XactSoundBank.XactSoundBankBinary` and
  `TrxFile.TRXFile`. Its fields are the tables and dimensions the source fills.
- Methods walk the stream with loops and invariants.
- Every method is proved equal to a pure reference definition (`XactSpec`, `XactEvents`,
  `TrxSpec`), including on which inputs it fails.
- The properties the format promises are lemmas about those definitions (`XactProperties`,
  `TrxProperties`).

A thrown `Common::Exception` is an `Err(Malformed(..))` result. A read past the end of the
stream is `Err(ReadPastEnd)`, and a seek or skip past it is `Err(SeekPastEnd)`.

Files:

- `wrappers.dfy`: `Option`, `Result`, `Outcome`, `Error`.
- `bytes.dfy`: little- and big-endian integers over a byte sequence, `MKTAG`, NUL-terminated
  text.
- `stream.dfy`: the seekable read stream (seek, skip, fixed-width reads, strings).
- `xact_format.dfy`: constants, flags, bit-field and fixed-point decoders, the decoded
  entities, and `addWaveVariation`.
- `xact_events.dfy`: event records and their effect on a track.
- `xact_spec.dfy`: reference decoding of lists, tables, tracks, sounds and the whole bank.
- `xact_soundbank.dfy`: the imperative decoder.
- `xact_properties.dfy`: properties of the XSB decoding.
- `trx_spec.dfy`, `trx_file.dfy`, `trx_properties.dfy`: the same three layers for TRX.

## Model

| member | source | states |
|---|---|---|
| XactFormat.DecodeVariationData | src/sound/xactsoundbank_binary.cpp:82-91 | the four fields are in range (2, 13, 4 and 13 bits) and recompose exactly the 32-bit descriptor word |
| XactProperties.VariationDataRoundTrip | src/sound/xactsoundbank_binary.cpp:85-90 | splitting a word and packing the fields again gives the word back |
| XactProperties.VariationDataFieldsRoundTrip | src/sound/xactsoundbank_binary.cpp:85-90 | packing in-range fields and splitting again gives the same fields |
| XactSoundBank.ReadVariationData | src/sound/xactsoundbank_binary.cpp:82-91 | reads one word at the position; succeeds iff 4 bytes remain and returns its decoded fields |
| XactFormat.ClipWeight | src/sound/xactsoundbank_binary.cpp:108-109 | the result lies in [kWeightMinimum, kWeightMaximum], equals an in-range weight and saturates at either bound |
| XactFormat.OrderedWeights | src/sound/xactsoundbank_binary.cpp:108-112 | the pair is valid (ordered, in range) and is the two clipped weights in one order or the other |
| XactFormat.WaveOf | src/sound/xactsoundbank_binary.cpp:139-153 | wave index = low 16 bits; bank name taken from the bank the high 16 bits select when it exists, else empty; weights clipped and ordered |
| XactProperties.AddWaveKeepsWeights | src/sound/xactsoundbank_binary.cpp:142-153 | adding a wave to a track whose weights are valid keeps all weights valid |
| XactFormat.Clamp | src/sound/xactsoundbank_binary.cpp:458 | CLIP of a real: within bounds, identity inside, saturating outside |
| XactFormat.ClipInt | src/sound/xactsoundbank_binary.cpp:451 | CLIP of an integer: within bounds, identity inside, lo below and hi above |
| XactFormat.PitchSemitones | src/sound/xactsoundbank_binary.cpp:429 | pitch in [-24, 24]: v*12/4096 when that is in range, -24 below it and 24 above it |
| XactFormat.VolumeDecibels | src/sound/xactsoundbank_binary.cpp:240-241 | volume in [-64, 64]: v/100 when that is in range, -64 below it and 64 above it |
| XactFormat.EqGain | src/sound/xactsoundbank_binary.cpp:446 | EQ gain in [-1, 4]: v/8192 when that is in range, -1 below it and 4 above it |
| XactFormat.EqQ | src/sound/xactsoundbank_binary.cpp:450 | Q factor in [1/128, 1], with Q * 2^(eq & 7) == 1, i.e. Q = 1 / (1 << (eq & 7)) |
| XactFormat.EqFrequency | src/sound/xactsoundbank_binary.cpp:451 | frequency in [30, 8000]: eq >> 3 when that is in range, 30 below it and 8000 above it |
| XactFormat.RolloffCurveLength | src/sound/xactsoundbank_binary.cpp:477 | at most 10 samples: the stored byte when it is at most 10, otherwise exactly 10 |
| XactFormat.ConeAngle | src/sound/xactsoundbank_binary.cpp:462-463 | at most 360: the stored value when it is at most 360, otherwise exactly 360 |
| XactProperties.SignatureBytes | src/sound/xactsoundbank_binary.cpp:489-493 | the big-endian tag SDBK is exactly the bytes 'S','D','B','K' |
| XactSpec.CueVariationsAt | src/sound/xactsoundbank_binary.cpp:93-114 | a cue-variation list has exactly the descriptor's count of records |
| XactSoundBank.ReadCueVariation | src/sound/xactsoundbank_binary.cpp:104-113 | record j of a list: succeeds iff its 8 bytes remain, returns the reference record, advances 8 bytes |
| XactSoundBank.ReadCueVariations | src/sound/xactsoundbank_binary.cpp:93-114 | succeeds iff the descriptor and all records fit; the cue gets the list's selection method and exactly its variations, other fields unchanged |
| XactSpec.WaveRecordsAt | src/sound/xactsoundbank_binary.cpp:116-134 | a wave-variation list has exactly the descriptor's count of records |
| XactSoundBank.ReadWaveRecord | src/sound/xactsoundbank_binary.cpp:127-130 | reads packed indices and two weights; succeeds iff 8 bytes remain |
| XactSoundBank.XactSoundBankBinary.ReadWaveVariation | src/sound/xactsoundbank_binary.cpp:127-132 | record j is added to the track as addWaveVariation adds it, and nothing else of the track changes |
| XactSoundBank.XactSoundBankBinary.ReadWaveVariations | src/sound/xactsoundbank_binary.cpp:116-134 | succeeds iff the list fits; the track equals the reference WaveListInto of the input track |
| XactProperties.WaveListShape | src/sound/xactsoundbank_binary.cpp:116-134 | the track takes the list's selection method and gains exactly count waves, in record order, with the records' low-16-bit indices; events and earlier waves are kept |
| XactProperties.WaveListKeepsWeights | src/sound/xactsoundbank_binary.cpp:126-133 | reading a wave list keeps every weight pair of the track valid |
| XactSpec.WaveBanksAt | src/sound/xactsoundbank_binary.cpp:156-165 | the bank table has exactly count entries |
| XactSpec.BankNames | src/sound/xactsoundbank_binary.cpp:161-163 | one registered name per bank, in table order |
| XactSpec.NameIndexSnoc | src/sound/xactsoundbank_binary.cpp:163 | registering one more name is one map update at the new index |
| XactProperties.NameIndexLastWins | src/sound/xactsoundbank_binary.cpp:160-164 | the name map holds exactly the registered names, each mapped to the last position that registers it |
| XactSoundBank.ReadWaveBank | src/sound/xactsoundbank_binary.cpp:161 | bank i's 16-byte name: succeeds iff the table up to bank i fits, returns the reference bank |
| XactSoundBank.XactSoundBankBinary.AppendWaveBank | src/sound/xactsoundbank_binary.cpp:161-163 | the table gains the bank at its end and the map stays the name index of the table |
| XactSoundBank.XactSoundBankBinary.ReadWaveBanks | src/sound/xactsoundbank_binary.cpp:156-165 | succeeds iff offset + 16*count fits; the banks are the reference table and the map is its name index; cues and sounds untouched |
| XactSoundBank.ReadCueRecord | src/sound/xactsoundbank_binary.cpp:173-182 | seeks to the record and reads sound index, name offset and entry offset; succeeds iff 20 bytes fit |
| XactSoundBank.ReadCue | src/sound/xactsoundbank_binary.cpp:171-203 | succeeds iff the record, its name and its variation list fit; returns the reference cue and whether its name is registered |
| XactProperties.CueSentinels | src/sound/xactsoundbank_binary.cpp:184-202 | an entry offset names a variation list; otherwise a sound index gives one full-range ordered variation; with both sentinels there is none; a name is read only when names are on and the offset is not the sentinel |
| XactProperties.CueWeightsValid | src/sound/xactsoundbank_binary.cpp:105-112 | every variation of a decoded cue has valid weights |
| XactSpec.CuesAt | src/sound/xactsoundbank_binary.cpp:167-204 | the cue table has exactly count entries |
| XactSpec.CueNames | src/sound/xactsoundbank_binary.cpp:184-189 | one name-table entry per cue, in cue order |
| XactSoundBank.XactSoundBankBinary.AppendCue | src/sound/xactsoundbank_binary.cpp:172-188 | the cue is appended and the map stays the name index of the named cues |
| XactSoundBank.XactSoundBankBinary.ReadCues | src/sound/xactsoundbank_binary.cpp:167-204 | succeeds iff every record fits; the cues are the reference table and the map its name index; banks untouched |
| XactProperties.CuesWeightsValid | src/sound/xactsoundbank_binary.cpp:167-204 | every variation of every cue of a decoded table has valid weights |
| XactSoundBank.ReadUint24LE | src/sound/xactsoundbank_binary.cpp:219-221 | three bytes assembled little-endian, below 2^24 |
| XactEvents.DecodeEvent | src/sound/xactsoundbank_binary.cpp:215-368 | type byte, 24-bit timestamp, next record at p + 8 + parameter size, and a play reference only for Play/PlayComplex with parameter size >= 4 |
| XactSoundBank.ReadPlayEvent | src/sound/xactsoundbank_binary.cpp:228-258 | the Play fields as the reference decodes them, the stream left where the record ends |
| XactSoundBank.ReadPitchEvent | src/sound/xactsoundbank_binary.cpp:260-279 | the Pitch fields as the reference decodes them |
| XactSoundBank.ReadVolumeEvent | src/sound/xactsoundbank_binary.cpp:281-300 | the Volume fields as the reference decodes them |
| XactSoundBank.ReadLowPassEvent | src/sound/xactsoundbank_binary.cpp:302-324 | the LowPass fields as the reference decodes them |
| XactSoundBank.ReadLFOMultiEvent | src/sound/xactsoundbank_binary.cpp:326-339 | the LFOMulti fields as the reference decodes them |
| XactSoundBank.ReadMarkerEvent | src/sound/xactsoundbank_binary.cpp:345-361 | the Marker fields as the reference decodes them |
| XactSoundBank.ReadEvent | src/sound/xactsoundbank_binary.cpp:216-368 | succeeds iff the record fits; returns DecodeEvent and leaves the position at the record's end |
| XactEvents.EventsFrom | src/sound/xactsoundbank_binary.cpp:214-369 | a decoded table has exactly n records |
| XactEvents.EventsFromStuck | src/sound/xactsoundbank_binary.cpp:215-369 | once a record does not fit, no longer table decodes |
| XactProperties.EventsPrefix | src/sound/xactsoundbank_binary.cpp:215-369 | the first n-1 records of a table are the (n-1)-record table, and the last starts where they end |
| XactProperties.EventsContiguous | src/sound/xactsoundbank_binary.cpp:215-368 | record k is the record decoded where record k-1 ended (record 0 at the table offset) and it fits |
| XactProperties.EventsSpan | src/sound/xactsoundbank_binary.cpp:223-368 | n records end at least 8n bytes after the table offset and not past the buffer |
| XactProperties.EventsTimestamps | src/sound/xactsoundbank_binary.cpp:219-221 | every timestamp is below 2^24 |
| XactEvents.DirectPlayIndices | src/sound/xactsoundbank_binary.cpp:250-253 | the references of the direct Play events, at most one per event |
| XactProperties.EventsOf | src/sound/xactsoundbank_binary.cpp:216 | the events of a record table, one per record, in order |
| XactProperties.ApplyEventsAppendsEvents | src/sound/xactsoundbank_binary.cpp:216 | every event is appended to the track, in order |
| XactProperties.ApplyEventsAddsDirectWaves | src/sound/xactsoundbank_binary.cpp:250-253 | each direct Play event appends one wave, in order, equal to WaveOf of its reference with the full weight range (index from the low 16 bits, bank from the high 16 bits); existing waves kept |
| XactProperties.ApplyEventsLastDeferredWins | src/sound/xactsoundbank_binary.cpp:255-256 | the deferred wave-list offset is that of the last deferred Play event, or the initial one |
| XactProperties.ApplyEventsLastVariationWins | src/sound/xactsoundbank_binary.cpp:236-248 | the sound's variation limits are those of the last Play event carrying them |
| XactProperties.ApplyEventsSelectMethod | src/sound/xactsoundbank_binary.cpp:250-251 | a direct Play event makes the track ordered; without one the method is kept |
| XactProperties.ApplyEventsKeepWeights | src/sound/xactsoundbank_binary.cpp:250-253 | applying events keeps every weight pair valid |
| XactSoundBank.XactSoundBankBinary.ReadComplexTrack | src/sound/xactsoundbank_binary.cpp:206-373 | succeeds iff the reference ComplexTrackAt decodes; returns its track and variation limits |
| XactProperties.EventLoopWaves | src/sound/xactsoundbank_binary.cpp:250-372 | after the event loop and the deferred list, the track's waves are its earlier ones, one full-range wave per direct Play event, then exactly the last deferred list's records |
| XactProperties.ComplexTrackEvents | src/sound/xactsoundbank_binary.cpp:206-373 | the track word's low 8 bits count the events added and its high 24 bits locate them; the waves are the earlier ones, then one full-range wave per direct Play event, then, when the last deferred Play event names a list, exactly that list's records |
| XactSpec.ComplexTrackPastEnd | src/sound/xactsoundbank_binary.cpp:207 | a track word past the end of the buffer does not decode |
| XactProperties.ComplexTrackKeepsWeights | src/sound/xactsoundbank_binary.cpp:206-373 | a decoded complex track keeps weights valid |
| XactSpec.TracksRun | src/sound/xactsoundbank_binary.cpp:408-413 | a run of n tracks that decodes has n tracks |
| XactSpec.TracksRunSnoc | src/sound/xactsoundbank_binary.cpp:408-413 | the run grows by track i exactly when track i decodes |
| XactSpec.TracksRunStuck | src/sound/xactsoundbank_binary.cpp:408-413 | once a track fails, every longer run fails |
| XactProperties.TracksRunKeepWeights | src/sound/xactsoundbank_binary.cpp:408-413 | a run keeps weights valid when each decoded track does |
| XactProperties.ComplexTracksKeepWeights | src/sound/xactsoundbank_binary.cpp:404-413 | all tracks of a complex sound keep weights valid |
| XactSoundBank.XactSoundBankBinary.ReadTrackAt | src/sound/xactsoundbank_binary.cpp:409-412 | track i: seeks to its word at indicesOrOffset + 4i and returns the reference track i |
| XactSoundBank.XactSoundBankBinary.ReadComplexTracks | src/sound/xactsoundbank_binary.cpp:404-413 | succeeds iff the reference run of count tracks decodes, and returns it |
| XactSoundBank.XactSoundBankBinary.ReadTracks | src/sound/xactsoundbank_binary.cpp:375-414 | succeeds iff the reference TracksAt decodes, and returns its tracks and variation limits |
| XactProperties.TrivialOrSimpleHasOneTrack | src/sound/xactsoundbank_binary.cpp:378-402 | a trivial or simple sound decodes only with track count 1, and then has one track whose only event is the synthesized Play; a simple sound decodes iff its wave list fits, and its track holds exactly that list's waves with the list's selection method |
| XactProperties.TrivialTakesPrecedence | src/sound/xactsoundbank_binary.cpp:384-393 | with the trivial flag the track is ordered, its only event is Play, its waves are exactly the one full-range wave (bank, index and weights) of the packed bank:index word, and no byte beyond the record is read |
| XactProperties.ComplexTrackCount | src/sound/xactsoundbank_binary.cpp:404-413 | a complex sound has exactly its record's track count |
| XactProperties.TracksKeepWeights | src/sound/xactsoundbank_binary.cpp:375-414 | every track of a sound keeps weights valid |
| XactSpec.SoundRecordAt | src/sound/xactsoundbank_binary.cpp:424-448 | the record's fields have their stored widths (16-bit volume and EQ, 8-bit flags and track count) |
| XactSoundBank.ReadSoundHead | src/sound/xactsoundbank_binary.cpp:424-436 | bytes 0..11 of the record, succeeding iff 12 bytes remain |
| XactSoundBank.ReadSoundTail | src/sound/xactsoundbank_binary.cpp:438-448 | bytes 12..19 of the record, succeeding iff 8 bytes remain |
| XactSoundBank.ReadSoundRecord | src/sound/xactsoundbank_binary.cpp:422-448 | seeks to the record; succeeds iff it fits and returns SoundRecordAt |
| XactSoundBank.Read3DCone | src/sound/xactsoundbank_binary.cpp:462-466 | two clipped cone angles and the clamped outside volume, then 2 skipped bytes |
| XactSoundBank.Read3DFloats | src/sound/xactsoundbank_binary.cpp:468-473 | the five IEEE floats as raw words |
| XactSoundBank.ReadRollOffCurve | src/sound/xactsoundbank_binary.cpp:479-481 | n samples, sample j = byte j / 255 |
| XactSoundBank.Read3DFixed | src/sound/xactsoundbank_binary.cpp:457-477 | the fixed 30 bytes at the block: succeeds iff they fit and returns Params3DHead and the curve-length byte |
| XactSoundBank.Read3DParams | src/sound/xactsoundbank_binary.cpp:456-482 | succeeds iff the block and its curve fit, and returns Params3DAt |
| XactProperties.Sound3DBlock | src/sound/xactsoundbank_binary.cpp:455-482 | a 3D sound carries the block at offset3DParams + 40 * index, cone angles at most 360 and a curve of at most 10 samples; a non-3D sound has none |
| XactSoundBank.XactSoundBankBinary.ReadSound | src/sound/xactsoundbank_binary.cpp:421-484 | succeeds iff the reference SoundAt decodes, and returns it |
| XactProperties.SoundTracksKeepWeights | src/sound/xactsoundbank_binary.cpp:484 | every track of a decoded sound keeps weights valid |
| XactSpec.TableRun | src/sound/xactsoundbank_binary.cpp:419-485 | a table of n entries that decodes has n entries |
| XactSpec.TableRunSnoc | src/sound/xactsoundbank_binary.cpp:420-485 | the table grows by entry i exactly when entry i decodes |
| XactSpec.TableRunStuck | src/sound/xactsoundbank_binary.cpp:420-485 | once one entry fails, every longer table fails |
| XactSpec.TableRunElements | src/sound/xactsoundbank_binary.cpp:420-485 | a table decodes iff every entry does, and then entry i is the decoding of record i |
| XactSoundBank.XactSoundBankBinary.ReadSoundEntry | src/sound/xactsoundbank_binary.cpp:420-485 | sound i, read after the first i: the table read so far grows by it exactly when the reference decodes it |
| XactSoundBank.XactSoundBankBinary.ReadSounds | src/sound/xactsoundbank_binary.cpp:416-486 | succeeds iff the reference sound table decodes, and then the sounds are that table; banks, cues and maps untouched |
| XactProperties.SoundsWeightsValid | src/sound/xactsoundbank_binary.cpp:416-486 | every track of every sound of a decoded table keeps weights valid |
| XactSoundBank.ReadSignature | src/sound/xactsoundbank_binary.cpp:491-497 | fails as malformed on a tag other than SDBK or a version other than 11 |
| XactSoundBank.ReadHeaderOffsets | src/sound/xactsoundbank_binary.cpp:499-504 | skips the CRC and returns the wave-bank and 3D-parameter offsets |
| XactSoundBank.ReadHeaderCounts | src/sound/xactsoundbank_binary.cpp:506-512 | reads exactly 12 bytes and returns the flags and the sound, cue and bank counts, skipping the two unused counts |
| XactSoundBank.ReadHeader | src/sound/xactsoundbank_binary.cpp:491-516 | succeeds iff the header is valid, returns HeaderAt and stops at byte 56; bad tag or version are malformed |
| XactSpec.CueAndSoundTablesParts | src/sound/xactsoundbank_binary.cpp:518-524 | the cue and sound tables decode iff the cue table fits and the sound table after it decodes |
| XactSoundBank.XactSoundBankBinary.ReadCuesAndSounds | src/sound/xactsoundbank_binary.cpp:518-524 | succeeds iff both tables decode; then cues, cue map and sounds are the reference tables; name and banks untouched |
| XactSoundBank.XactSoundBankBinary.ReadTables | src/sound/xactsoundbank_binary.cpp:516-524 | succeeds iff the tables the header locates decode; the state is the reference bank |
| XactSoundBank.XactSoundBankBinary.Load | src/sound/xactsoundbank_binary.cpp:488-525 | succeeds iff DecodeSoundBank succeeds and the state then is the decoded bank; a bad tag or version fails as malformed |
| XactProperties.BankLayout | src/sound/xactsoundbank_binary.cpp:488-525 | a decoded bank has the SDBK v11 header, the bank table at its offset, the cues right after the 56-byte header and the sounds right after the cues, with the header's counts |
| XactProperties.BadHeaderRefused | src/sound/xactsoundbank_binary.cpp:491-497 | a wrong signature or version is refused |
| XactProperties.TablesWeightsValid | src/sound/xactsoundbank_binary.cpp:518-524 | every weight pair of the cue and sound tables is valid |
| XactProperties.BankWeightsValid | src/sound/xactsoundbank_binary.cpp:488-525 | every weight pair in a decoded bank, of a cue variation or of a wave, is clipped and ordered |
| TrxProperties.TrxMagicBytes | src/engines/nwn2/trxfile.cpp:98-100 | the tag NWN2 is exactly the bytes 'N','W','N','2' |
| TrxSpec.DirectoryAt | src/engines/nwn2/trxfile.cpp:118-122 | the directory has exactly count entries |
| TrxFile.TRXFile.LoadDirectory | src/engines/nwn2/trxfile.cpp:118-126 | succeeds iff all entries can be read and every offset is below the file size; returns the reference directory |
| TrxProperties.DirectoryGuardWraps | src/engines/nwn2/trxfile.cpp:107-109 | some packet count passes the 32-bit guard although its directory does not fit |
| TrxProperties.DirectoryGuardsAgree | src/engines/nwn2/trxfile.cpp:107-109 | the corrected guard implies the one as written, and they agree below 2^29 entries |
| TrxProperties.WrapChangesOnlyTheError | src/engines/nwn2/trxfile.cpp:107-115 | loading with the guard as written gives the same outcome as with the corrected guard |
| TrxSpec.ApplyPacket | src/engines/nwn2/trxfile.cpp:144-165 | only known tags load, and ASWM leaves the terrain as it was |
| TrxFile.TRXFile.LoadPacket | src/engines/nwn2/trxfile.cpp:144-155 | succeeds iff ApplyPacket does and then the state is its result; an unknown tag fails as malformed |
| TrxFile.TRXFile.LoadTRWH | src/engines/nwn2/trxfile.cpp:157-165 | succeeds iff the size is 12; then width and height are the first two words; meshes unchanged |
| TrxSpec.IndexCount | src/engines/nwn2/trxfile.cpp:224-231 | the corrected index-buffer size: every face's three slots fit in it |
| TrxSpec.IndexCountAsWritten | src/engines/nwn2/trxfile.cpp:225 | `fCount * 3` in 32-bit unsigned arithmetic: below 2^32 |
| TrxProperties.IndexBufferWraps | src/engines/nwn2/trxfile.cpp:224-231 | some face count makes the size as written too small even for the first face |
| TrxProperties.IndexCountsAgree | src/engines/nwn2/trxfile.cpp:224-231 | the corrected size holds every face, and it equals the size as written exactly when the face count is below 0x5555_5556 |
| TrxProperties.MeshIndexCountUnwrapped | src/engines/nwn2/trxfile.cpp:224-231 | on every mesh payload that loads with a 32-bit size, the face count is below 0x5555_5556 and the index-buffer size as written equals the corrected one |
| TrxFile.ReadMesh | src/engines/nwn2/trxfile.cpp:181-225 | succeeds iff the payload holds the fixed fields, both counts, every vertex and every face; returns the counts and an index-buffer size that holds every face |
| TrxFile.ReadWindowMesh | src/engines/nwn2/trxfile.cpp:168 | the payload window gives the same answer as the reference on the whole file |
| TrxFile.TRXFile.LoadTRRN | src/engines/nwn2/trxfile.cpp:167-244 | succeeds iff the TRRN payload fits (44-byte vertices, 6-byte faces); the terrain gains one mesh, with three index slots per face |
| TrxFile.TRXFile.LoadWATR | src/engines/nwn2/trxfile.cpp:246-320 | succeeds iff the WATR payload fits (28-byte vertices, 6-byte faces); the water gains one mesh, with three index slots per face |
| TrxProperties.AswmChangesNothing | src/engines/nwn2/trxfile.cpp:322-323 | an ASWM packet with a sound head changes nothing |
| TrxSpec.PacketsRunSnoc | src/engines/nwn2/trxfile.cpp:128-142 | loading one more packet is one more step of the fold |
| TrxSpec.PacketsRunStuck | src/engines/nwn2/trxfile.cpp:128-142 | once a packet is refused, no later packet recovers |
| TrxFile.TRXFile.LoadPacketAt | src/engines/nwn2/trxfile.cpp:129-141 | succeeds iff the head repeats the tag, the size fits and the payload loads |
| TrxFile.TRXFile.LoadPackets | src/engines/nwn2/trxfile.cpp:128-142 | succeeds iff the reference fold over the directory succeeds; the state is its result |
| TrxProperties.PacketsRunAccepted | src/engines/nwn2/trxfile.cpp:128-159 | every packet of a loaded run has a sound head and a known tag, and TRWH packets have size 12 |
| TrxProperties.CountTag | src/engines/nwn2/trxfile.cpp:147-150 | a count of packets carrying a tag, at most the number of packets |
| TrxProperties.LastTagged | src/engines/nwn2/trxfile.cpp:145-146 | the last packet carrying a tag is in the list and carries it |
| TrxProperties.PacketsRunMeshes | src/engines/nwn2/trxfile.cpp:147-150 | each TRRN packet adds one terrain mesh and each WATR packet one water mesh, after the existing ones |
| TrxProperties.PacketsRunDimensions | src/engines/nwn2/trxfile.cpp:157-162 | the dimensions are those of the last TRWH packet, or the initial ones |
| TrxFile.TRXFile.Load | src/engines/nwn2/trxfile.cpp:97-116 | succeeds iff ParseTrx does and the state is its result; bad magic, bad version and a directory that does not fit fail as malformed |
| TrxProperties.TrxLayout | src/engines/nwn2/trxfile.cpp:97-142 | a loaded file has the NWN2 2.3 header, a directory that fits, offsets and heads inside the file, known tags and 12-byte TRWH packets |
| TrxProperties.UnknownTagRefused | src/engines/nwn2/trxfile.cpp:153-154 | a directory entry with an unknown tag makes the file fail |
| TrxProperties.TrxContents | src/engines/nwn2/trxfile.cpp:97-165 | a loaded file holds one terrain mesh per TRRN packet, one water mesh per WATR packet, and the last TRWH dimensions (zero without one) |

## Left out

- IEEE floats: the five 3D-block floats are kept as their raw 32-bit words. Fixed-point
  scalings (`* 0.16f`, `/ 4096.0f`, `/ 255.0f`, ...) are exact reals, not single-precision
  results.
- The weight range, the selection-method values and the event-type tags are declared in
  `src/sound/xactsoundbank.h`, which is not part of this model. Placeholder values stand in
  for them. The proofs use only that the weight range is not empty and that the tags are
  distinct.
- `Common::readString` and `readStringFixed` are modelled as "bytes up to the first NUL". No
  character encoding is decoded.
- Track, Sound and Cue are values passed in and returned. The source passes them by
  reference into tables it has already resized.
- XactSoundBank.XactSoundBankBinary.ReadSounds: on failure the partially filled sound table
  is not kept. The source abandons the bank by throwing.
- The loaders start at stream position 0. The stream is a value; the ReadStream class of
  the engine's common library is not part of this model.
- The wave-bank and cue maps map a name to a table index where the source stores a pointer.
- TrxFile.TRXFile.LoadPackets: the packet size is not written back into the caller's
  directory vector.
- TRX width and height start at 0. The source leaves them uninitialised until a TRWH packet
  arrives.
- TRRN and WATR payloads are checked for fit and contribute their vertex and face counts and
  the size of the index buffer. The vertex-buffer size that `setVertexDeclInterleave`
  computes from the vertex count is in the graphics library, which is not part of this model.
  Their names, textures, colours, vertex data, face indices and the graphics buffers built
  from them are not decoded.
- The TRX constructor's resource lookup, `show`/`hide`, `ResMan`, `GfxMan`, and the
  allocation of `packets.resize(packetCount)` are not modelled.
- TrxFile.TRXFile.LoadASWM: has no contract, as the source's body is empty.

## Findings

| source | as written | input that shows it | evidently intended | confidence | as-written member | corrected member |
|---|---|---|---|---|---|---|
| src/engines/nwn2/trxfile.cpp:107-109 | the directory size `packetCount * 8` is computed in 32-bit unsigned arithmetic and wraps | a 12-byte file with a valid NWN2 2.3 header and packet count 0x2000_0000: the product wraps to 0, so the guard passes, and the loader then resizes the directory to 2^29 entries before the first read fails | refuse any count whose 8-byte entries do not fit in the bytes after the header | not executed | TrxProperties.DirectoryGuardWraps | TrxProperties.DirectoryGuardsAgree |
| src/engines/nwn2/trxfile.cpp:224-231 | the index-buffer size `fCount * 3` is computed in 32-bit unsigned arithmetic and wraps | a TRRN payload whose face count is 0x5555_5556 and which holds at least one face: the buffer gets 2 slots, and the first face's third index is written past it before any read fails | an index buffer of 3 * fCount slots, or a refusal of face counts whose indices do not fit | not executed | TrxProperties.IndexBufferWraps | TrxProperties.IndexCountsAgree |

TrxSpec.DirectoryFitsAsWritten models the guard as written. TrxSpec.DirectoryFits is the
corrected guard that `ParseTrx` and `TrxFile.TRXFile.Load` use.
TrxProperties.WrapChangesOnlyTheError shows that the load outcome is the same either way:
the directory read fails later. The wrap therefore costs an oversized allocation and a
misleading error, not a wrong result.

The second row is the same kind of wrap in loadTRRN and, at trxfile.cpp:301-308, in loadWATR.
TrxSpec.IndexCountAsWritten is the size as written. TrxSpec.IndexCount is the corrected size,
which TrxSpec.MeshAt and TrxFile.ReadMesh use. The model reports such a payload as a read
failure unless it holds 6 bytes for every face. The source has already written past the buffer
after the first face.
TrxProperties.MeshIndexCountUnwrapped shows that on every payload that loads, the two sizes
are equal. The wrap therefore corrupts memory on a payload that fails, and never changes a
mesh that loads.
