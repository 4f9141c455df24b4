# ROL player and BNK bank decoder, in Dafny

This project models `format/rol.js` of the opl3 JavaScript player. That file
plays AdLib ROL songs on an emulated OPL2 (YM3812) chip, using instruments from
an AdLib BNK bank. It has four parts, and each is a module here:

- **Bank decoder** (`Bank`, on top of `Binary`).
  - `decodeInstruments` reads the bank header.
  - It walks the 12-byte index records from 0x1C.
  - It packs each instrument's two operators into 12 register bytes, stored under the instrument's name.
  - `Bank.BankOf` states what a bank decodes to. `Bank.DecodeInstruments` is the loop, proved equal to it.
- **Song decoder** (`Song`, plus the loading methods of `Player.Rol`).
  - `load` reads the header, then the tempo track from 0xB6.
  - It then reads eleven voices, each with a note, an instrument, a volume and a pitch track.
  - `Song.SongOf` states what a file decodes to. A read past the end of the buffer is a `RangeError`, as DataView's is.
  - The methods `Load`, `LoadVoices`, `LoadNoteEvents`, … advance `offset` and fill the player's fields. Each is proved against `SongOf` and its parts.
- **Register encoder** (`Opl`, plus the `Opl*` methods of `Player.Rol`).
  - The chip is seen only through the writes it receives: the player keeps a `log` of `Write(bank, register, value)`.
  - Each writer appends exactly the writes of a function of `Opl`.
  - `Opl.Replay` folds a list of writes into a register file, so lemmas can state what the chip holds afterwards.
- **Playback scheduler** (`Scheduler`, plus the `Update*` methods of `Player.Rol`).
  - `update` is `Scheduler.Step`, a function from the song's tracks and the playback state to the new state, the writes issued and the returned flag.
  - The playback state is `currentTimeInTicks`, `timeToNextUpdate`, the 4 × 11 cursor table and the instrument bound to each voice.
  - `Player.Rol.Update` is the loop over the eleven voices, proved equal to `Step`.
  - The lemmas of `Scheduler` state what a step does: cursors, bindings, timing, termination, and a worked one-note song.

Some things are modelled as follows:
- Bytes are `bv8`.
- The float32 fields (basic tempo, tempo, volume and pitch multipliers) are kept as their raw 32-bit words.
- The two float computations the player performs are parameters of the player object. `fNumOf` gives a note's F-number as the 32-bit pattern JavaScript's bit operators see. `volumeOf` gives `Math.round(multiplier * 0x7F)` of a volume word.
- `op_num` has nine entries, so on voices 9 and 10 `regbase + op_num[channel]` is NaN. That is the register `Opl.Undefined`. The log keeps such writes (`Opl.InstrumentWritesHighVoice`). The register file `Opl.Replay` drops them, which is a choice of this model (see Left out).
- `load` reads from `new DataView(buffer.buffer || buffer)`. The byte sequence the decoders take stands for the bytes of that view, that is, of `buffer.buffer` when the argument is a typed array.

Behaviour of the code worth knowing, which the model follows:
- The bank stores each instrument under its name as read. It does not upper-case the name. The song side upper-cases the names it looks up, so a bank name with an ASCII lower-case letter can never be found (`Binary.LowerCaseNameNeverMatches`).
- `update` returns `timeToNextUpdate < totalNoteTicks`. For a single note of 100 ticks in a song of 100 ticks, the first update therefore returns false (`Scheduler.SingleNotePlayback`).
- `rewind` has an empty body. It does not reset the cursors.
- `loadTempoEvents` writes the new events from index 0 over the list left by an earlier load, without clearing it (`Song.Overwrite`).

The one-note song of `Scheduler.SingleNoteTracks` is built directly as tracks: a note 60 of 100 ticks, then a note 0 at tick 100 that releases it, in a song of 100 ticks. It does not come from the decoder. A decoded 100-tick voice stops reading once its durations reach 100 (`Song.NoteTrackStops`), so it never holds the releasing event at tick 100.

## Model

| member | source | states |
|---|---|---|
| Binary.U16 | format/rol.js:80 | getUint16 little-endian: the word read is below 2^16 |
| Binary.U32 | format/rol.js:67-68 | getUint32 little-endian: the word read is below 2^32 |
| Binary.NulFrom | format/rol.js:271 | the position found holds a NUL and lies at or after the start, inside the buffer |
| Binary.NulFromIsFirst | format/rol.js:271 | no NUL lies before the one found; with none found there is no NUL to the end of the buffer |
| Binary.Chars | format/rol.js:274 | one character per byte |
| Binary.CharsOfBytes | format/rol.js:274 | each character's code is its byte |
| Binary.StringAtIsPrefixBeforeNul | format/rol.js:266-275 | loadString succeeds exactly when a NUL follows the offset; the string is the bytes before the first NUL, none of them NUL |
| Binary.LoadString | format/rol.js:266-275 | the scanning loop returns the string before the first NUL, or RangeError when the scan runs off the buffer |
| Binary.UpperChar | format/rol.js:464 | upper-casing one Latin-1 character yields one or two characters |
| Binary.ToUpperCaseHasNoLowerAscii | format/rol.js:464 | an upper-cased name holds no ASCII lower-case letter |
| Binary.LowerCaseNameNeverMatches | format/rol.js:465 | a bank name holding an ASCII lower-case letter is the upper case of no instrument event's name |
| Binary.ToUpperCaseIdempotent | format/rol.js:464 | upper-casing twice is upper-casing once |
| Binary.UpperAppend | format/rol.js:464 | upper-casing distributes over concatenation |
| Bank.CharacteristicFields | format/rol.js:107 | the characteristic byte holds multiplier, KSR, EG type, vibrato and AM in bits 0-3, 4, 5, 6, 7; as a number it is their weighted sum |
| Bank.LevelFields | format/rol.js:108 | the level byte holds the total level in bits 0-5 and the key scaling level in bits 6-7 |
| Bank.NibbleFields | format/rol.js:109-110 | attack and sustain in the high nibbles, decay and release in the low nibbles |
| Bank.FeedbackConnectionFields | format/rol.js:111 | feedback in bits 1-3, the inverted connection bit in bit 0, bits 4-7 clear |
| Bank.CharacteristicOnto | format/rol.js:128 | every byte is the characteristic byte of the fields read back from it |
| Bank.CanonicalEnvelope | format/rol.js:130-131 | attack 15, decay 0, sustain 0, release 5 pack to 0xF0 and 0x05 on both operators |
| Bank.RecordAt | format/rol.js:80-90 | a decoded index record's 30-byte instrument record lies inside the buffer |
| Bank.Locations | format/rol.js:78-139 | every location recorded for a name leaves room for a 30-byte record |
| Bank.Instruments | format/rol.js:139 | the bank's names are exactly the located names |
| Bank.ReadIndexRecord | format/rol.js:79-86 | one index record read from 0x1C + 12 * i equals RecordAt, RangeError included |
| Bank.ReadInstrument | format/rol.js:89-136 | each byte of the 30-byte record lands in its register bits: the modulator's bytes from the third, the carrier's from the sixteenth, into 0x20 (multiplier, KSR, EG type, vibrato, AM), 0x40 (total level, KSL), 0x60 (attack, decay), 0x80 (sustain, release) and 0xC0 (feedback, inverted connection, nothing above), the wave selects last |
| Bank.InstrumentAtLaidOut | format/rol.js:89-132 | the packed instrument of every record follows that layout |
| Bank.LaidOutUnique | format/rol.js:107-132 | the layout leaves no register bit free: two instruments laid out from one record are equal |
| Bank.DecodeInstruments | format/rol.js:58-156 | the decoding loop returns BankOf, RangeError included |
| Bank.LocationsRecordsDecode | format/rol.js:78-86 | when the bank decodes, every one of its index records does |
| Bank.LocationsHaveRecordNames | format/rol.js:139 | every record's name is in the bank |
| Bank.LocationsNamesFromRecords | format/rol.js:139 | every name in the bank comes from a record |
| Bank.LocationOfLast | format/rol.js:139 | a name lies where the last record carrying it says: later records overwrite earlier ones |
| Bank.BankContents | format/rol.js:58-156 | the bank's names are exactly the records' names, each mapping to the instrument packed from its last record |
| Bank.RecordLayout | format/rol.js:72-86 | record i sits at 0x1C + 12 * i, its name at its fourth byte, its instrument record at dataOffset + 30 * index |
| Opl.OperatorReg | format/rol.js:163 | a channel has an operator register exactly when it is below 9, within 0x12 of the base |
| Opl.ChannelWrites | format/rol.js:162-166 | two writes to bank 0, data1 then data2, three registers apart, both defined exactly on channels 0-8 |
| Opl.ConvertVolume | format/rol.js:172-174 | the converted attenuation lies between the instrument's and 0x3F |
| Opl.ConvertVolumeSilent | format/rol.js:173 | volume 0, or a negative volume, gives 0x3F |
| Opl.ConvertVolumeClamps | format/rol.js:173 | volumes above 127 act as 127 |
| Opl.ConvertVolumeFull | format/rol.js:173 | full volume raises every attenuation below 0x3F by exactly one step |
| Opl.ScaledLevelFields | format/rol.js:181-183 | the level byte written keeps the key scaling bits and holds the converted, or unchanged, total level below them |
| Opl.VolumeWrites | format/rol.js:177-185 | nothing is written exactly when no instrument is bound; otherwise one register pair at 0x40 |
| Opl.VolumeWritesLevels | format/rol.js:180-184 | the carrier's level is always scaled, the modulator's only with the connection bit set, and both keep their KSL bits |
| Opl.ZeroVolumeSilencesCarrier | format/rol.js:183 | volume 0 leaves the carrier fully attenuated |
| Opl.Block | format/rol.js:209-211 | the block lies in 0..7 |
| Opl.BlockOctaves | format/rol.js:209-211 | block 0 below note 31, block 7 from note 103, twelve notes per block in between |
| Opl.BlockMonotone | format/rol.js:209-211 | a higher note is never in a lower block |
| Opl.B0Fields | format/rol.js:217 | for a 10-bit F-number the B0 byte is its top two bits plus 4 * block plus 0x20 for key-on |
| Opl.WideFNumKeepsKeyOn | format/rol.js:217 | an F-number from 0x2000 to 0x3FFF makes the release byte equal the key-on byte, so the release leaves the note sounding |
| Opl.B0KeyOn | format/rol.js:217 | the B0 byte has key-on set exactly when asked for |
| Opl.PlayNoteWrites | format/rol.js:206-219 | three writes, the first a key-off |
| Opl.ReleaseNoteWrites | format/rol.js:221-226 | key-off first; the note is replayed with key-on clear only when it is above 0 |
| Opl.InitStateWrites | format/rol.js:228-235 | five writes, the first two to the second register bank, the other three to the first |
| Opl.ReplayAppend | format/rol.js:158-160 | writes issued in two batches leave the chip as issued in one |
| Opl.OperatorSlotsDistinct | format/rol.js:562 | the eighteen operator slots of op_num are distinct and lie within 0x15 of the base |
| Opl.ReplayChannel | format/rol.js:162-166 | on channels 0-8 oplWriteChannel sets exactly the two operator registers |
| Opl.ReplayInstrument | format/rol.js:187-200 | on channels 0-8 oplWriteInstrument sets the ten operator registers and 0xC0 + channel with the output bits, nothing else |
| Opl.InstrumentWritesHighVoice | format/rol.js:187-200 | on voices 9 and 10 the ten operator writes of oplWriteInstrument name no register; only the last, to 0xC0 + channel, does |
| Opl.InstrumentLeavesOtherChannels | format/rol.js:187-200 | oplWriteInstrument on one of channels 0-8 leaves every operator register of every other channel as it was |
| Opl.ReplayInstrumentHighVoice | format/rol.js:194-199 | on voices 9 and 10 only 0xC0 + channel changes |
| Opl.ReplayPlayNote | format/rol.js:206-219 | after oplPlayNote the A0 and B0 registers hold the F-number and key-on/block bytes; the key-off is overwritten |
| Opl.ReplayReleaseNote | format/rol.js:221-226 | after oplReleaseNote B0 is 0 for note 0, otherwise A0 and B0 hold the note with key-on clear |
| Song.HeaderOf | format/rol.js:400-408 | the header decodes exactly when the buffer holds at least 54 bytes |
| Song.WordEventsAt | format/rol.js:253-263 | n decoded events are n events |
| Song.InstrumentEventsAt | format/rol.js:328-344 | n decoded events are n events |
| Song.VoicesFrom | format/rol.js:419-424 | k decoded voices are k voices |
| Song.SongOf | format/rol.js:396-434 | a decoded song has eleven voices |
| Song.Overwrite | format/rol.js:253-263 | the new events come first, entries of the old list past them survive |
| Song.VoicesFromFailOnward | format/rol.js:419-424 | once a voice fails, every longer run of voices fails |
| Song.NoteTimesArePrefixSums | format/rol.js:290-308 | each note starts at the sum of the durations before it |
| Song.NoteEventsLayout | format/rol.js:297-301 | note k's number and duration are the words at 4 * k and 4 * k + 2 |
| Song.NoteTrackStops | format/rol.js:290 | reading stops once the durations reach the declared total, and every note starts before it |
| Song.NoteTimesAscend | format/rol.js:302-307 | note times never decrease along a track |
| Song.WordEventsLayout | format/rol.js:357-367 | event k's tick and float word lie at 6 * k and 6 * k + 2 |
| Song.InstrumentEventAt | format/rol.js:328-338 | instrument event k's tick lies at 14 * k and its name two bytes on, whatever the names' lengths |
| Song.InstrumentEventsLayout | format/rol.js:328-344 | the same for every event of the list |
| Song.TotalNoteTicksIsMax | format/rol.js:312-314 | the song length is at least every voice's total and the previous value, and equals one of them |
| Scheduler.InstrumentStepServes | format/rol.js:456-483 | the instrument cursor moves exactly when its event is due, timeToNextUpdate only comes down to that track's next event, and the binding becomes the bank entry when found |
| Scheduler.VolumeStepServes | format/rol.js:485-507 | the same for the volume track |
| Scheduler.NoteStepServes | format/rol.js:509-537 | the same for the note track |
| Scheduler.RowFrame | format/rol.js:457-462 | whether a track's event is due or ahead depends only on its cursor and the time |
| Scheduler.VoiceStepCursors | format/rol.js:454-541 | serving a voice moves each of its three cursors exactly when due, no other cursor, and only its binding |
| Scheduler.VoiceStepTiming | format/rol.js:476-536 | serving a voice never raises timeToNextUpdate and leaves it no further than any of its events ahead |
| Scheduler.VoiceStepAttained | format/rol.js:476-536 | serving a voice changes timeToNextUpdate only to the distance of one of its events ahead |
| Scheduler.VoicesUpToCursors | format/rol.js:454-541 | after voices 0..n-1 their cursors moved exactly when due, the others and the pitch row did not, and only their bindings changed |
| Scheduler.VoicesUpToTtnu | format/rol.js:454-541 | after voices 0..n-1 timeToNextUpdate is at most their every event ahead and is unchanged or one such distance |
| Scheduler.StepTiming | format/rol.js:438-448 | at the song's end nothing changes, nothing is written and false is returned; else time grows by the old timeToNextUpdate, the new one lies in 1..totalNoteTicks, and the result is whether it is below totalNoteTicks |
| Scheduler.StepCursors | format/rol.js:457-528 | each instrument, volume and note cursor moves past at most one event, exactly when due; pitch cursors never move |
| Scheduler.StepBindings | format/rol.js:464-469 | a due event binds the bank entry under its upper-cased name; a name missing from the bank leaves the binding |
| Scheduler.StepSchedulesNearest | format/rol.js:476-547 | timeToNextUpdate is the minimum of totalNoteTicks and the distances to every event ahead, and true is returned only with such an event at that distance |
| Scheduler.NoteZeroReleasesPrevious | format/rol.js:512-523 | a due note 0 releases the previous event's note, or only keys off when it is the first event |
| Scheduler.StepKeepsCursorsInRange | format/rol.js:457-528 | no cursor passes the end of its track |
| Scheduler.CursorsNeverMoveBack | format/rol.js:472-526 | cursors only move forward over any number of updates |
| Scheduler.StepsAdvanceTime | format/rol.js:444 | n updates move the time at least n ticks on, or to the song's end, and never back |
| Scheduler.PlaybackEnds | format/rol.js:439-441 | after totalNoteTicks + 1 updates the song has ended |
| Scheduler.SilentVoiceStep | format/rol.js:454-541 | a voice without events changes nothing and writes nothing |
| Scheduler.SilentVoicesChangeNothing | format/rol.js:454-541 | a run of voices without events changes nothing and writes nothing |
| Scheduler.SingleNoteVoice | format/rol.js:509-537 | when only voice 0's notes exist and one is due, serving the voices is that note's step |
| Scheduler.SingleNoteFirstUpdate | format/rol.js:438-548 | one note of 100 ticks: the first update plays note 60, sets timeToNextUpdate to 100 and returns false |
| Scheduler.SingleNoteSecondUpdate | format/rol.js:438-548 | the second update releases note 60 at tick 100 and returns false; the third does nothing |
| Scheduler.SingleNotePlayback | format/rol.js:438-548 | the whole playback of the one-note song |
| Player.Rol.constructor | format/rol.js:13-56 | every list empty, every counter and cursor 0, no instrument bound, and the chip initialised |
| Player.Rol.ChipWrite | format/rol.js:230 | opl.write appends one write to the log |
| Player.Rol.OplWriteReg | format/rol.js:158-160 | appends one write to bank 0 |
| Player.Rol.OplWriteChannel | format/rol.js:162-166 | appends ChannelWrites |
| Player.Rol.OplWriteValue | format/rol.js:168-170 | appends one write to regbase + channel |
| Player.Rol.OplWriteVolume | format/rol.js:177-185 | appends VolumeWrites for the voice's bound instrument |
| Player.Rol.OplWriteInstrument | format/rol.js:187-200 | appends InstrumentWrites |
| Player.Rol.OplKeyOff | format/rol.js:202-204 | appends the key-off |
| Player.Rol.OplPlayNote | format/rol.js:206-219 | appends PlayNoteWrites, with the clamped block |
| Player.Rol.OplReleaseNote | format/rol.js:221-226 | appends ReleaseNoteWrites |
| Player.Rol.OplWriteInitState | format/rol.js:228-235 | appends InitStateWrites |
| Player.Rol.ReadWordEvents | format/rol.js:253-263 | reads n six-byte events, failing exactly when WordEventsAt does |
| Player.Rol.LoadTempoEvents | format/rol.js:237-264 | reads the tempo track: basic tempo, count, events written over the old list, offset past it; fails exactly when TempoTrackAt does |
| Player.Rol.ReadNoteEvents | format/rol.js:290-309 | reads notes while the running sum is below the total, failing exactly when NoteEventsAt does |
| Player.Rol.LoadNoteEvents | format/rol.js:277-315 | sets the voice's notes, raises totalNoteTicks to the voice's total, offset past the track |
| Player.Rol.ReadInstrumentEvents | format/rol.js:328-344 | reads n fourteen-byte events, failing exactly when InstrumentEventsAt does |
| Player.Rol.LoadInstrumentEvents | format/rol.js:317-345 | sets the voice's instrument events and count, offset past the track |
| Player.Rol.LoadVolumeEvents | format/rol.js:347-368 | sets the voice's volume events and count, offset past the track |
| Player.Rol.LoadPitchEvents | format/rol.js:370-394 | sets the voice's pitch events and count, offset past the track |
| Player.Rol.LoadVoice | format/rol.js:420-423 | reads the voice's four tracks, failing exactly when VoiceAt does |
| Player.Rol.LoadVoices | format/rol.js:419-424 | reads eleven voices, failing exactly when VoicesFrom does; totalNoteTicks becomes the maximum |
| Player.Rol.LoadTracks | format/rol.js:416-424 | reads the tempo track, then the eleven voices after it |
| Player.Rol.ReadHeader | format/rol.js:397-413 | reads the header fields, failing exactly when the buffer is too short; offset 0xB6 |
| Player.Rol.Load | format/rol.js:396-434 | succeeds exactly when the song decodes, and leaves its header, basic tempo, tempo events and every voice's tracks in the fields |
| Player.Rol.ScheduleNext | format/rol.js:476-482 | timeToNextUpdate comes down to the next event's distance when it lies ahead and is nearer |
| Player.Rol.UpdateInstrumentEvents | format/rol.js:456-483 | the instrument block's state and writes are InstrumentStep's |
| Player.Rol.ServeInstrumentEvent | format/rol.js:462-474 | a due instrument event's lookup, writes, binding and cursor move are InstrumentStep's |
| Player.Rol.UpdateVolumeEvents | format/rol.js:485-507 | the volume block's state and writes are VolumeStep's |
| Player.Rol.UpdateNoteEvents | format/rol.js:509-537 | the note block's state and writes are NoteStep's |
| Player.Rol.UpdateVoice | format/rol.js:454-541 | one pass of the voice loop is VoiceStep |
| Player.Rol.Update | format/rol.js:438-548 | update's new state, writes and result are Step's, and the song is left unchanged |

## Left out

- The F-number computation (`Math.pow`, `Math.round`, format/rol.js:212-213) is floating point. It enters as the parameter `fNumOf`.
- `Math.round(volumeMultiplier * 0x7F)` (format/rol.js:179) is floating point. It enters as the parameter `volumeOf`.
  - A NaN volume would select table entry 127. It has no counterpart, because `volumeOf` yields an integer.
- The float32 decoding of tempo, volume and pitch multipliers is left out. They stay raw words.
- `refresh` (format/rol.js:553-556) is floating point and left out.
- The `position` ratio (format/rol.js:426, 545) is floating point and left out.
- `rewind` (format/rol.js:558-560) has an empty body, so there is nothing to model.
- `blockData` and `channels`/`OPL2CHANNELS` (format/rol.js:428-432, 583-594) are used by no logic.
- Tempo and pitch events are decoded but never applied by `update`, so there is nothing to dispatch.
- `init` (format/rol.js:54-56) is part of `Player.Rol.constructor`.
- The constructor takes a decoded bank. The case of no bank is left out: `this.instruments` is then undefined, and the first due instrument event throws.
- Player.Rol.constructor: a bank that fails to decode throws inside the JavaScript constructor. Here `Bank.BankOf` returns `RangeError` and no player is built.
- The bank fields `bankMajorVersion` … `instrumentDataOffset` are fields of the JavaScript object. Here they are fields of the `Bank.BankFile` value.
- A bank name such as `__proto__` sets the JavaScript object's prototype instead of adding a key. The model stores it like any other name.
- Player.Rol.Load: on failure it states nothing about the fields the failed read had begun to fill. The JavaScript throws midway and leaves them partly written.
  - The same holds for `LoadTracks`, `LoadVoices`, `LoadVoice`, `LoadTempoEvents` and the `Load*Events` methods.
  - Voices a failed load never reached keep their earlier tracks, which start empty. In the JavaScript they would be undefined, and `update` would throw on them.
- The chip (`opl.write`) is only the log of writes it receives. Its internals are not part of this model. `Opl.Replay` is this model's reading of that log as a register file, not the chip's own behaviour.
- Opl.ReplayInstrumentHighVoice: it holds because `Opl.Replay` drops writes to the NaN register. What `opl.write` does with a NaN register is not known here. For example, a chip computing `(bank << 8) | reg` would turn NaN into 0 and write register 0. `Opl.InstrumentWritesHighVoice` states the fact on the log itself, which does not depend on this choice.
- `load` on a typed array with a non-zero `byteOffset`, such as a pooled Node `Buffer`, reads from the start of the whole underlying `ArrayBuffer`, not from the view's first byte. The model takes the bytes the DataView sees and does not model that offset.
- `decodeInstruments` builds `new DataView(instruments)` directly, which throws on anything but an `ArrayBuffer`. The model takes the bank's bytes.
- An F-number above 10 bits, from about note 115 in block 7, spills into the block field of the B0 byte. From 0x2000 to 0x3FFF it sets the key-on bit (`Opl.WideFNumKeepsKeyOn`). Which notes do so depends on the float computation, which enters as `fNumOf`.
