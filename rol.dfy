/** The ROL player object (format/rol.js:13-548): the fields it keeps and
    the methods that change them. The chip is the log of writes it has
    received. Each method is proved against the functions of Opl, Song and
    Scheduler, whose properties are proved there. */
module Player {
  import opened Wrappers
  import opened Binary
  import opened Bank
  import opened Song
  import opened Opl
  import opened Scheduler

  lemma Concat<T>(a: seq<T>, b: seq<T>, c: seq<T>)
    ensures a + b + c == a + (b + c)
  {
  }

  lemma ConcatThree<T>(a: seq<T>, b: seq<T>, c: seq<T>, d: seq<T>)
    ensures a + b + c + d == a + (b + c + d)
  {
  }

  /** The tracks of voices 0 .. n-1 are those of the decoded voices. */
  ghost predicate TracksLoaded(voices: seq<Voice>, n: nat, notes: seq<seq<NoteEvent>>, instruments: seq<seq<InstrumentEvent>>,
                               volumes: seq<seq<WordEvent>>, pitches: seq<seq<WordEvent>>)
    requires n <= |voices| && n <= |notes| && n <= |instruments| && n <= |volumes| && n <= |pitches|
  {
    forall u | 0 <= u < n ::
      && notes[u] == voices[u].notes && instruments[u] == voices[u].instruments
      && volumes[u] == voices[u].volumes && pitches[u] == voices[u].pitches
  }

  /** One pass of load's voice loop, on values: the voice read at o joins
      the decoded run, its four tracks land at its index, and the song's
      length takes in its total. */
  lemma VoiceLoadedStep(data: seq<bv8>, start: nat, voice: nat, voices: seq<Voice>, o: nat,
                        notes0: seq<seq<NoteEvent>>, instruments0: seq<seq<InstrumentEvent>>,
                        volumes0: seq<seq<WordEvent>>, pitches0: seq<seq<WordEvent>>,
                        notes: seq<seq<NoteEvent>>, instruments: seq<seq<InstrumentEvent>>,
                        volumes: seq<seq<WordEvent>>, pitches: seq<seq<WordEvent>>, base: nat, total0: nat, total: nat)
    requires voice < 11 && |notes0| == 11 && |instruments0| == 11 && |volumes0| == 11 && |pitches0| == 11
    requires VoicesFrom(data, start, voice) == Ok(Parsed(voices, o))
    requires TracksLoaded(voices, voice, notes0, instruments0, volumes0, pitches0)
    requires total0 == TotalNoteTicks(base, voices)
    requires VoiceAt(data, o).Ok?
    requires notes == notes0[voice := VoiceAt(data, o).value.value.notes]
    requires instruments == instruments0[voice := VoiceAt(data, o).value.value.instruments]
    requires volumes == volumes0[voice := VoiceAt(data, o).value.value.volumes]
    requires pitches == pitches0[voice := VoiceAt(data, o).value.value.pitches]
    requires total == Max(VoiceAt(data, o).value.value.total, total0)
    ensures VoicesFrom(data, start, voice + 1)
      == Ok(Parsed(voices + [VoiceAt(data, o).value.value], VoiceAt(data, o).value.next))
    ensures TracksLoaded(voices + [VoiceAt(data, o).value.value], voice + 1, notes, instruments, volumes, pitches)
    ensures total == TotalNoteTicks(base, voices + [VoiceAt(data, o).value.value])
  {
    VoicesFromStep(data, start, voice, voices, o);
    var v := VoiceAt(data, o).value.value;
    assert (voices + [v])[..|voices|] == voices;
  }

  /** What load leaves behind, restated against the song: the tracks read
      from 0xB6 on and the header before them are the decoded song's. */
  lemma LoadedSong(data: seq<bv8>, ok: bool, header: Header, basicTempo: nat, tempoEvents: seq<WordEvent>,
                   tempo0: seq<WordEvent>, notes: seq<seq<NoteEvent>>, instruments: seq<seq<InstrumentEvent>>,
                   volumes: seq<seq<WordEvent>>, pitches: seq<seq<WordEvent>>, total: nat, total0: nat)
    requires |notes| == 11 && |instruments| == 11 && |volumes| == 11 && |pitches| == 11
    requires Ok(header) == HeaderOf(data)
    requires ok <==> TempoTrackAt(data, 0xB6).Ok? && VoicesFrom(data, TempoTrackAt(data, 0xB6).value.next, 11).Ok?
    requires ok ==> basicTempo == TempoTrackAt(data, 0xB6).value.value.basicTempo
    requires ok ==> tempoEvents == Overwrite(tempo0, TempoTrackAt(data, 0xB6).value.value.events)
    requires ok ==> TracksLoaded(VoicesFrom(data, TempoTrackAt(data, 0xB6).value.next, 11).value.value, 11,
                                 notes, instruments, volumes, pitches)
    requires ok ==> total == TotalNoteTicks(total0, VoicesFrom(data, TempoTrackAt(data, 0xB6).value.next, 11).value.value)
    ensures ok <==> SongOf(data).Ok?
    ensures ok ==> header == SongOf(data).value.header
    ensures ok ==> basicTempo == SongOf(data).value.tempo.basicTempo
    ensures ok ==> tempoEvents == Overwrite(tempo0, SongOf(data).value.tempo.events)
    ensures ok ==> TracksLoaded(SongOf(data).value.voices, 11, notes, instruments, volumes, pitches)
    ensures ok ==> total == TotalNoteTicks(total0, SongOf(data).value.voices)
  {
    SongOfCases(data);
  }

  class Rol {
    /** Every opl.write so far, oldest first. */
    var log: seq<Write>

    /** The decoded instrument bank (decodeInstruments). */
    const bank: BankFile
    /** The F-number of a note, Math.round(2^((note-69)/12) * 440 * 2^(20-block) / 49716),
        as the 32-bit pattern that JavaScript's bit operators see. */
    const fNumOf: int -> bv32
    /** Math.round(volumeMultiplier * 0x7F) of a volume event's float word. */
    const volumeOf: nat -> int

    var data: seq<bv8>
    var offset: nat

    var majorVersion: nat
    var minorVersion: nat
    var ticksPerBeat: nat
    var beatsPerMeasure: nat
    var scaleYAxis: nat
    var scaleXAxis: nat
    var musicMode: bv8

    var basicTempo: nat
    var numOfTempoEvents: nat
    var numOfInstrumentEvents: nat
    var numOfVolumeEvents: nat
    var numOfPitchEvents: nat

    var tempoEvents: seq<WordEvent>
    var noteEvents: seq<seq<NoteEvent>>
    var instrumentEvents: seq<seq<InstrumentEvent>>
    var volumeEvents: seq<seq<WordEvent>>
    var pitchEvents: seq<seq<WordEvent>>

    var totalNoteTicks: nat
    var currentTimeInTicks: nat
    var timeToNextUpdate: nat
    /** The cursor table: rows NoteRow, VolumeRow, InstrumentRow and pitch, one column per voice. */
    var currentEventIndex: seq<seq<nat>>
    var currentInstrument: seq<Option<Instrument>>

    predicate Valid()
      reads this
    {
      && |noteEvents| == 11 && |instrumentEvents| == 11 && |volumeEvents| == 11 && |pitchEvents| == 11
      && |currentEventIndex| == 4 && (forall k | 0 <= k < 4 :: |currentEventIndex[k]| == 11)
      && |currentInstrument| == 11
    }

    /** What update reads. */
    function SongTracks(): (t: Tracks)
      reads this
      requires Valid()
      ensures t.Valid()
    {
      Tracks(noteEvents, instrumentEvents, volumeEvents, totalNoteTicks, bank.instruments, fNumOf, volumeOf)
    }

    /** What update changes. */
    function PlaybackState(): (s: Playback)
      reads this
      requires Valid()
      ensures s.Valid()
    {
      Playback(currentTimeInTicks, timeToNextUpdate, currentEventIndex, currentInstrument)
    }

    /** ROL(opl, options) with the bank already decoded, then init: every
        list empty, every counter and cursor 0, and the chip put in OPL2
        melodic mode. */
    constructor(bank: BankFile, fNumOf: int -> bv32, volumeOf: nat -> int)
      ensures Valid()
      ensures this.bank == bank && this.fNumOf == fNumOf && this.volumeOf == volumeOf
      ensures log == InitStateWrites()
      ensures PlaybackState() == Initial()
      ensures totalNoteTicks == 0 && tempoEvents == []
      ensures forall v | 0 <= v < 11 ::
        noteEvents[v] == [] && instrumentEvents[v] == [] && volumeEvents[v] == [] && pitchEvents[v] == []
    {
      var table: seq<seq<nat>> := [];
      var eventType := 0;
      while eventType < 4
        invariant eventType <= 4 && |table| == eventType
        invariant forall k | 0 <= k < eventType :: table[k] == seq(11, _ => 0)
      {
        var row: seq<nat> := [];
        var voice := 0;
        while voice < 11
          invariant voice <= 11 && row == seq(voice, _ => 0)
        {
          row := row + [0];
          voice := voice + 1;
        }
        table := table + [row];
        eventType := eventType + 1;
      }
      this.bank := bank;
      this.fNumOf := fNumOf;
      this.volumeOf := volumeOf;
      log := [];
      data := [];
      offset := 0;
      majorVersion, minorVersion, ticksPerBeat, beatsPerMeasure, scaleYAxis, scaleXAxis, musicMode := 0, 0, 0, 0, 0, 0, 0;
      basicTempo, numOfTempoEvents, numOfInstrumentEvents, numOfVolumeEvents, numOfPitchEvents := 0, 0, 0, 0, 0;
      totalNoteTicks := 0;
      currentTimeInTicks := 0;
      timeToNextUpdate := 0;
      tempoEvents := [];
      noteEvents := seq(11, _ => []);
      instrumentEvents := seq(11, _ => []);
      volumeEvents := seq(11, _ => []);
      pitchEvents := seq(11, _ => []);
      currentInstrument := seq(11, _ => None);
      currentEventIndex := table;
      new;
      OplWriteInitState();
    }

    /** opl.write(bank, reg, value). */
    method ChipWrite(bank: nat, reg: Reg, value: int)
      modifies this`log
      ensures log == old(log) + [Write(bank, reg, value)]
    {
      log := log + [Write(bank, reg, value)];
    }

    /** oplWriteReg. */
    method OplWriteReg(reg: Reg, value: int)
      modifies this`log
      ensures log == old(log) + [Write(0, reg, value)]
    {
      ChipWrite(0, reg, value);
    }

    /** oplWriteChannel. */
    method OplWriteChannel(regbase: int, channel: nat, data1: int, data2: int)
      modifies this`log
      ensures log == old(log) + ChannelWrites(regbase, channel, data1, data2)
    {
      var reg := if channel < |OpNum| then At(regbase + OpNum[channel]) else Undefined;
      OplWriteReg(reg, data1);
      OplWriteReg(Plus3(reg), data2);
    }

    /** oplWriteValue. */
    method OplWriteValue(regbase: int, channel: nat, value: int)
      modifies this`log
      ensures log == old(log) + [ValueWrite(regbase, channel, value)]
    {
      OplWriteReg(At(regbase + channel), value);
    }

    /** oplWriteVolume: the level registers of the channel's instrument, if it has one. */
    method OplWriteVolume(channel: nat, volumeMultiplier: nat)
      requires Valid() && channel < 11
      modifies this`log
      ensures log == old(log) + VolumeWrites(channel, currentInstrument[channel], volumeOf(volumeMultiplier))
    {
      var instr := currentInstrument[channel];
      var volume := volumeOf(volumeMultiplier);
      if instr.Some? {
        var i := instr.value;
        OplWriteChannel(0x40, channel, ScaledLevel(i[2], volume, i[10] & 1 == 1), ScaledLevel(i[3], volume, true));
      }
    }

    /** oplWriteInstrument. */
    method OplWriteInstrument(channel: nat, instr: Instrument)
      modifies this`log
      ensures log == old(log) + InstrumentWrites(channel, instr)
    {
      OplWriteChannel(0x20, channel, instr[0] as int, instr[1] as int);
      OplWriteChannel(0x40, channel, instr[2] as int, instr[3] as int);
      OplWriteChannel(0x60, channel, instr[4] as int, instr[5] as int);
      OplWriteChannel(0x80, channel, instr[6] as int, instr[7] as int);
      OplWriteChannel(0xE0, channel, instr[8] as int, instr[9] as int);
      OplWriteValue(0xC0, channel, (instr[10] | 0x30) as int);
    }

    /** oplKeyOff. */
    method OplKeyOff(voice: nat)
      modifies this`log
      ensures log == old(log) + KeyOffWrites(voice)
    {
      OplWriteReg(At(0xB0 + voice), 0);
    }

    /** oplPlayNote. */
    method OplPlayNote(voice: nat, note: int, keyon: bool)
      modifies this`log
      ensures log == old(log) + PlayNoteWrites(voice, note, keyon, fNumOf(note))
    {
      OplKeyOff(voice);
      var blockNum := (note - 19) / 12;
      if blockNum < 0 {
        blockNum := 0;
      }
      if blockNum > 7 {
        blockNum := 7;
      }
      assert blockNum == Block(note);
      var fNum := fNumOf(note);
      var regNum := 0xA0 + voice;
      OplWriteReg(At(regNum), (fNum & 0xFF) as int);
      regNum := 0xB0 + voice;
      var tmp := B0Value(fNum, blockNum, keyon);
      OplWriteReg(At(regNum), tmp);
      assert log == old(log) + KeyOffWrites(voice) + [RegWrite(0xA0 + voice, (fNum & 0xFF) as int), RegWrite(0xB0 + voice, tmp)];
    }

    /** oplReleaseNote. */
    method OplReleaseNote(voice: nat, note: int)
      modifies this`log
      ensures log == old(log) + ReleaseNoteWrites(voice, note, fNumOf(note))
    {
      OplKeyOff(voice);
      if note > 0 {
        OplPlayNote(voice, note, false);
      }
    }

    /** oplWriteInitState. */
    method OplWriteInitState()
      modifies this`log
      ensures log == old(log) + InitStateWrites()
    {
      ChipWrite(1, At(0x105), 0x00);
      ChipWrite(1, At(0x104), 0x00);
      OplWriteReg(At(0x01), 0x20);
      OplWriteReg(At(0x08), 0x40);
      OplWriteReg(At(0xBD), 0x00);
    }

    /** n events of six bytes from offset: a tick and a float word each. */
    method ReadWordEvents(n: nat) returns (ok: bool, events: seq<WordEvent>)
      modifies this`offset
      ensures ok <==> WordEventsAt(data, old(offset), n).Ok?
      ensures ok ==> events == WordEventsAt(data, old(offset), n).value && offset == old(offset) + 6 * n
    {
      events := [];
      PrependNothing(WordEventsAt(data, offset, n));
      var i := 0;
      while i < n
        invariant i <= n && offset == old(offset) + 6 * i
        invariant WordEventsAt(data, old(offset), n) == Prepend(events, WordEventsAt(data, offset, n - i))
        modifies this`offset
      {
        if offset + 2 > |data| {
          return false, events;
        }
        var timeInTicks := U16(data, offset);
        offset := offset + 2;
        if offset + 4 > |data| {
          return false, events;
        }
        var word := U32(data, offset);
        offset := offset + 4;
        PrependTwice(events, [WordEvent(timeInTicks, word)], WordEventsAt(data, offset, n - i - 1));
        events := events + [WordEvent(timeInTicks, word)];
        i := i + 1;
      }
      assert WordEventsAt(data, offset, 0) == Ok([]);
      ok := true;
    }

    /** loadTempoEvents: the 15-byte name, the basic tempo, the count and the events. */
    method LoadTempoEvents() returns (ok: bool)
      modifies this`offset, this`basicTempo, this`numOfTempoEvents, this`tempoEvents
      ensures ok <==> TempoTrackAt(data, old(offset)).Ok?
      ensures ok ==> basicTempo == TempoTrackAt(data, old(offset)).value.value.basicTempo
      ensures ok ==> numOfTempoEvents == |TempoTrackAt(data, old(offset)).value.value.events|
      ensures ok ==> tempoEvents == Overwrite(old(tempoEvents), TempoTrackAt(data, old(offset)).value.value.events)
      ensures ok ==> offset == TempoTrackAt(data, old(offset)).value.next
    {
      offset := offset + 15;
      if offset + 4 > |data| {
        return false;
      }
      basicTempo := U32(data, offset);
      offset := offset + 4;
      if offset + 2 > |data| {
        return false;
      }
      numOfTempoEvents := U16(data, offset);
      offset := offset + 2;
      var events;
      ok, events := ReadWordEvents(numOfTempoEvents);
      if ok {
        tempoEvents := Overwrite(tempoEvents, events);
      }
    }

    /** The note loop of loadNoteEvents: (note, duration) pairs while the
        running sum of durations is below the total. */
    method ReadNoteEvents(total: nat) returns (ok: bool, events: seq<NoteEvent>)
      modifies this`offset
      ensures ok <==> NoteEventsAt(data, old(offset), 0, total).Ok?
      ensures ok ==> events == NoteEventsAt(data, old(offset), 0, total).value && offset == old(offset) + 4 * |events|
    {
      events := [];
      var totalDuration: nat := 0;
      PrependNothing(NoteEventsAt(data, offset, totalDuration, total));
      while totalDuration < total
        invariant old(offset) <= offset && offset == old(offset) + 4 * |events|
        invariant NoteEventsAt(data, old(offset), 0, total) == Prepend(events, NoteEventsAt(data, offset, totalDuration, total))
        modifies this`offset
        decreases |data| - offset
      {
        if offset + 2 > |data| {
          NoteEventsFail(data, old(offset), events, offset, totalDuration, total);
          return false, events;
        }
        var noteNumber := U16(data, offset);
        offset := offset + 2;
        if offset + 2 > |data| {
          NoteEventsFail(data, old(offset), events, offset - 2, totalDuration, total);
          return false, events;
        }
        var noteDuration := U16(data, offset);
        offset := offset + 2;
        PrependTwice(events, [NoteEvent(totalDuration, noteNumber, noteDuration)],
                     NoteEventsAt(data, offset, totalDuration + noteDuration, total));
        events := events + [NoteEvent(totalDuration, noteNumber, noteDuration)];
        totalDuration := totalDuration + noteDuration;
      }
      assert NoteEventsAt(data, offset, totalDuration, total) == Ok([]);
      assert events + [] == events;
      ok := true;
    }

    /** loadNoteEvents: the 15-byte name, the voice's total ticks, then the
        notes while the running sum of durations is below it; the song's
        length becomes the longest voice's. */
    method LoadNoteEvents(voice: nat) returns (ok: bool)
      requires Valid() && voice < 11
      modifies this`offset, this`noteEvents, this`totalNoteTicks
      ensures Valid()
      ensures ok <==> NoteTrackAt(data, old(offset)).Ok?
      ensures ok ==> noteEvents == old(noteEvents)[voice := NoteTrackAt(data, old(offset)).value.value.events]
      ensures ok ==> totalNoteTicks == Max(NoteTrackAt(data, old(offset)).value.value.total, old(totalNoteTicks))
      ensures ok ==> offset == NoteTrackAt(data, old(offset)).value.next
    {
      offset := offset + 15;
      if offset + 2 > |data| {
        return false;
      }
      var voiceTotalNoteTicks := U16(data, offset);
      offset := offset + 2;
      var events;
      ok, events := ReadNoteEvents(voiceTotalNoteTicks);
      if !ok {
        return;
      }
      noteEvents := noteEvents[voice := events];
      if voiceTotalNoteTicks > totalNoteTicks {
        totalNoteTicks := voiceTotalNoteTicks;
      }
    }

    /** The event loop of loadInstrumentEvents: per event a tick, a name read
        up to its NUL, and fourteen bytes in all. */
    method ReadInstrumentEvents(n: nat) returns (ok: bool, events: seq<InstrumentEvent>)
      modifies this`offset
      ensures ok <==> InstrumentEventsAt(data, old(offset), n).Ok?
      ensures ok ==> events == InstrumentEventsAt(data, old(offset), n).value && offset == old(offset) + 14 * n
    {
      var bytes, start := data, offset;
      events := [];
      PrependNothing(InstrumentEventsAt(bytes, start, n));
      var i := 0;
      while i < n
        invariant i <= n && offset == start + 14 * i
        invariant InstrumentEventsAt(bytes, start, n) == Prepend(events, InstrumentEventsAt(bytes, offset, n - i))
        modifies this`offset
      {
        var eventStart := offset;
        if eventStart + 2 > |bytes| {
          InstrumentEventsFail(bytes, start, n, i, events, eventStart);
          return false, events;
        }
        var timeInTicks := U16(bytes, eventStart);
        var instrumentName := LoadString(bytes, eventStart + 2);
        if instrumentName.RangeError? {
          InstrumentEventsFail(bytes, start, n, i, events, eventStart);
          return false, events;
        }
        // the tick, the nine name bytes, one byte of padding, two unused
        offset := eventStart + 2 + 9 + 1 + 2;
        InstrumentEventsStep(bytes, start, n, i, events, eventStart, instrumentName.value);
        events := events + [InstrumentEvent(timeInTicks, instrumentName.value)];
        i := i + 1;
      }
      InstrumentEventsDone(bytes, start, n, events, offset);
      ok := true;
    }

    /** loadInstrumentEvents: the 15-byte name, the count, then the events. */
    method LoadInstrumentEvents(voice: nat) returns (ok: bool)
      requires Valid() && voice < 11
      modifies this`offset, this`instrumentEvents, this`numOfInstrumentEvents
      ensures Valid()
      ensures ok <==> InstrumentTrackAt(data, old(offset)).Ok?
      ensures ok ==> instrumentEvents == old(instrumentEvents)[voice := InstrumentTrackAt(data, old(offset)).value.value]
      ensures ok ==> numOfInstrumentEvents == |InstrumentTrackAt(data, old(offset)).value.value|
      ensures ok ==> offset == InstrumentTrackAt(data, old(offset)).value.next
    {
      offset := offset + 15;
      if offset + 2 > |data| {
        return false;
      }
      numOfInstrumentEvents := U16(data, offset);
      offset := offset + 2;
      var events;
      ok, events := ReadInstrumentEvents(numOfInstrumentEvents);
      if ok {
        instrumentEvents := instrumentEvents[voice := events];
      }
    }

    /** loadVolumeEvents: the 15-byte name, the count and the events. */
    method LoadVolumeEvents(voice: nat) returns (ok: bool)
      requires Valid() && voice < 11
      modifies this`offset, this`volumeEvents, this`numOfVolumeEvents
      ensures Valid()
      ensures ok <==> WordTrackAt(data, old(offset)).Ok?
      ensures ok ==> volumeEvents == old(volumeEvents)[voice := WordTrackAt(data, old(offset)).value.value]
      ensures ok ==> numOfVolumeEvents == |WordTrackAt(data, old(offset)).value.value|
      ensures ok ==> offset == WordTrackAt(data, old(offset)).value.next
    {
      offset := offset + 15;
      if offset + 2 > |data| {
        return false;
      }
      numOfVolumeEvents := U16(data, offset);
      offset := offset + 2;
      var events;
      ok, events := ReadWordEvents(numOfVolumeEvents);
      if ok {
        volumeEvents := volumeEvents[voice := events];
      }
    }

    /** loadPitchEvents: the 15-byte name, the count and the events. */
    method LoadPitchEvents(voice: nat) returns (ok: bool)
      requires Valid() && voice < 11
      modifies this`offset, this`pitchEvents, this`numOfPitchEvents
      ensures Valid()
      ensures ok <==> WordTrackAt(data, old(offset)).Ok?
      ensures ok ==> pitchEvents == old(pitchEvents)[voice := WordTrackAt(data, old(offset)).value.value]
      ensures ok ==> numOfPitchEvents == |WordTrackAt(data, old(offset)).value.value|
      ensures ok ==> offset == WordTrackAt(data, old(offset)).value.next
    {
      offset := offset + 15;
      if offset + 2 > |data| {
        return false;
      }
      numOfPitchEvents := U16(data, offset);
      offset := offset + 2;
      var events;
      ok, events := ReadWordEvents(numOfPitchEvents);
      if ok {
        pitchEvents := pitchEvents[voice := events];
      }
    }

    /** The body of load's voice loop: the four tracks of one voice. */
    method LoadVoice(voice: nat) returns (ok: bool)
      requires Valid() && voice < 11
      modifies this`offset, this`noteEvents, this`instrumentEvents, this`volumeEvents, this`pitchEvents,
        this`totalNoteTicks, this`numOfInstrumentEvents, this`numOfVolumeEvents, this`numOfPitchEvents
      ensures Valid()
      ensures ok <==> VoiceAt(data, old(offset)).Ok?
      ensures ok ==> noteEvents == old(noteEvents)[voice := VoiceAt(data, old(offset)).value.value.notes]
      ensures ok ==> instrumentEvents == old(instrumentEvents)[voice := VoiceAt(data, old(offset)).value.value.instruments]
      ensures ok ==> volumeEvents == old(volumeEvents)[voice := VoiceAt(data, old(offset)).value.value.volumes]
      ensures ok ==> pitchEvents == old(pitchEvents)[voice := VoiceAt(data, old(offset)).value.value.pitches]
      ensures ok ==> totalNoteTicks == Max(VoiceAt(data, old(offset)).value.value.total, old(totalNoteTicks))
      ensures ok ==> offset == VoiceAt(data, old(offset)).value.next
    {
      ok := LoadNoteEvents(voice);
      if !ok {
        return;
      }
      ok := LoadInstrumentEvents(voice);
      if !ok {
        return;
      }
      ok := LoadVolumeEvents(voice);
      if !ok {
        return;
      }
      ok := LoadPitchEvents(voice);
    }

    /** load's voice loop: the four tracks of each of the eleven voices, read
        one after the other from the offset. */
    method LoadVoices() returns (ok: bool)
      requires Valid()
      modifies this`offset, this`noteEvents, this`instrumentEvents, this`volumeEvents, this`pitchEvents,
        this`totalNoteTicks, this`numOfInstrumentEvents, this`numOfVolumeEvents, this`numOfPitchEvents
      ensures Valid()
      ensures ok <==> VoicesFrom(data, old(offset), 11).Ok?
      ensures ok ==> TracksLoaded(VoicesFrom(data, old(offset), 11).value.value, 11, noteEvents, instrumentEvents, volumeEvents, pitchEvents)
      ensures ok ==> totalNoteTicks == TotalNoteTicks(old(totalNoteTicks), VoicesFrom(data, old(offset), 11).value.value)
      ensures ok ==> offset == VoicesFrom(data, old(offset), 11).value.next
    {
      ghost var start := offset;
      ghost var voices: seq<Voice> := [];
      ok := true;
      var voice := 0;
      while voice < 11
        invariant voice <= 11 && Valid() && ok
        invariant VoicesFrom(data, start, voice) == Ok(Parsed(voices, offset))
        invariant TracksLoaded(voices, voice, noteEvents, instrumentEvents, volumeEvents, pitchEvents)
        invariant totalNoteTicks == TotalNoteTicks(old(totalNoteTicks), voices)
        modifies this`offset, this`noteEvents, this`instrumentEvents, this`volumeEvents, this`pitchEvents,
          this`totalNoteTicks, this`numOfInstrumentEvents, this`numOfVolumeEvents, this`numOfPitchEvents
      {
        ghost var o, total0 := offset, totalNoteTicks;
        ghost var notes0, instruments0, volumes0, pitches0 := noteEvents, instrumentEvents, volumeEvents, pitchEvents;
        ok := LoadVoice(voice);
        if !ok {
          VoicesFromStep(data, start, voice, voices, o);
          VoicesFromFailOnward(data, start, voice + 1, 11);
          return;
        }
        VoiceLoadedStep(data, start, voice, voices, o, notes0, instruments0, volumes0, pitches0,
                        noteEvents, instrumentEvents, volumeEvents, pitchEvents, old(totalNoteTicks), total0, totalNoteTicks);
        voices := voices + [VoiceAt(data, o).value.value];
        voice := voice + 1;
      }
    }

    /** The rest of load: the tempo track from the offset, then the voices
        right after it. */
    method LoadTracks() returns (ok: bool)
      requires Valid()
      modifies this`offset, this`basicTempo, this`numOfTempoEvents, this`tempoEvents,
        this`noteEvents, this`instrumentEvents, this`volumeEvents, this`pitchEvents, this`totalNoteTicks,
        this`numOfInstrumentEvents, this`numOfVolumeEvents, this`numOfPitchEvents
      ensures Valid()
      ensures ok <==> TempoTrackAt(data, old(offset)).Ok? && VoicesFrom(data, TempoTrackAt(data, old(offset)).value.next, 11).Ok?
      ensures ok ==> basicTempo == TempoTrackAt(data, old(offset)).value.value.basicTempo
      ensures ok ==> tempoEvents == Overwrite(old(tempoEvents), TempoTrackAt(data, old(offset)).value.value.events)
      ensures ok ==> TracksLoaded(VoicesFrom(data, TempoTrackAt(data, old(offset)).value.next, 11).value.value, 11,
                                  noteEvents, instrumentEvents, volumeEvents, pitchEvents)
      ensures ok ==> totalNoteTicks == TotalNoteTicks(old(totalNoteTicks), VoicesFrom(data, TempoTrackAt(data, old(offset)).value.next, 11).value.value)
    {
      ghost var tempo := TempoTrackAt(data, offset);
      ok := LoadTempoEvents();
      if !ok {
        return;
      }
      ghost var next := offset;
      assert next == tempo.value.next;
      ok := LoadVoices();
    }

    /** The first lines of load: the buffer, the seven header fields from
        their fixed offsets (a buffer too short for them makes DataView
        throw), and the offset where the events start. */
    method ReadHeader(buffer: seq<bv8>) returns (ok: bool)
      modifies this`data, this`majorVersion, this`minorVersion, this`ticksPerBeat, this`beatsPerMeasure,
        this`scaleYAxis, this`scaleXAxis, this`musicMode, this`offset
      ensures data == buffer
      ensures ok <==> HeaderOf(buffer).Ok?
      ensures ok ==> Ok(Header(majorVersion, minorVersion, ticksPerBeat, beatsPerMeasure, scaleYAxis, scaleXAxis, musicMode))
                     == HeaderOf(buffer)
      ensures ok ==> offset == 0xB6
    {
      data := buffer;
      // The header's last field is the byte at 53.
      if |data| < 54 {
        return false;
      }
      majorVersion := U16(data, 0);
      minorVersion := U16(data, 2);
      ticksPerBeat := U16(data, 44);
      beatsPerMeasure := U16(data, 46);
      scaleYAxis := U16(data, 48);
      scaleXAxis := U16(data, 50);
      musicMode := data[53];
      offset := 0xB6;
      ok := true;
    }

    /** load: the header, the tempo track from 0xB6, then the four tracks of
        each of the eleven voices. It succeeds exactly when the whole file
        decodes; the song's length becomes the longest voice's, or stays
        what it was if that is longer; tempo events of an earlier load past
        the new count survive; the playback state is left as it was. */
    method Load(buffer: seq<bv8>) returns (ok: bool)
      requires Valid()
      modifies this`data, this`offset, this`majorVersion, this`minorVersion, this`ticksPerBeat,
        this`beatsPerMeasure, this`scaleYAxis, this`scaleXAxis, this`musicMode, this`basicTempo,
        this`numOfTempoEvents, this`tempoEvents, this`noteEvents, this`instrumentEvents,
        this`volumeEvents, this`pitchEvents, this`totalNoteTicks, this`numOfInstrumentEvents,
        this`numOfVolumeEvents, this`numOfPitchEvents
      ensures Valid() && data == buffer
      ensures ok <==> SongOf(buffer).Ok?
      ensures ok ==> Header(majorVersion, minorVersion, ticksPerBeat, beatsPerMeasure, scaleYAxis, scaleXAxis, musicMode)
                     == SongOf(buffer).value.header
      ensures ok ==> basicTempo == SongOf(buffer).value.tempo.basicTempo
      ensures ok ==> tempoEvents == Overwrite(old(tempoEvents), SongOf(buffer).value.tempo.events)
      ensures ok ==> TracksLoaded(SongOf(buffer).value.voices, 11, noteEvents, instrumentEvents, volumeEvents, pitchEvents)
      ensures ok ==> totalNoteTicks == TotalNoteTicks(old(totalNoteTicks), SongOf(buffer).value.voices)
    {
      ok := ReadHeader(buffer);
      if !ok {
        SongOfCases(buffer);
        return;
      }
      ghost var tempo0, total0 := tempoEvents, totalNoteTicks;
      ok := LoadTracks();
      LoadedSong(data, ok, Header(majorVersion, minorVersion, ticksPerBeat, beatsPerMeasure, scaleYAxis, scaleXAxis, musicMode),
                 basicTempo, tempoEvents, tempo0, noteEvents, instrumentEvents, volumeEvents, pitchEvents, totalNoteTicks, total0);
    }

    /** The closing part of each track's block in update's loop: when the
        event now at the cursor lies ahead, timeToNextUpdate comes down to
        its distance if that is smaller. */
    method ScheduleNext(k: nat, voice: nat)
      requires Valid() && k < 3 && voice < 11
      modifies this`timeToNextUpdate
      ensures Valid()
      ensures PlaybackState() == Reschedule(SongTracks(), old(PlaybackState()), k, voice)
    {
      var t := SongTracks();
      var nextIndex := currentEventIndex[k][voice];
      if nextIndex < t.Length(k, voice) && t.TimeAt(k, voice, nextIndex) > currentTimeInTicks {
        var timeToEvent := t.TimeAt(k, voice, nextIndex) - currentTimeInTicks;
        if timeToEvent < timeToNextUpdate {
          timeToNextUpdate := timeToEvent;
        }
      }
    }

    /** The instrument block of update's loop for one voice. */
    method UpdateInstrumentEvents(voice: nat)
      requires Valid() && voice < 11
      modifies this`log, this`currentEventIndex, this`currentInstrument, this`timeToNextUpdate
      ensures Valid()
      ensures PlaybackState() == InstrumentStep(SongTracks(), voice, old(PlaybackState())).state
      ensures log == old(log) + InstrumentStep(SongTracks(), voice, old(PlaybackState())).writes
    {
      var nextInstrumentIndex := currentEventIndex[InstrumentRow][voice];
      if nextInstrumentIndex < |instrumentEvents[voice]| {
        var nextInstrument := instrumentEvents[voice][nextInstrumentIndex];
        if nextInstrument.timeInTicks <= currentTimeInTicks {
          ServeInstrumentEvent(voice);
        }
        ScheduleNext(InstrumentRow, voice);
      }
    }

    /** A due instrument event: its upper-cased name is looked up in the
        bank and, when present, written to the voice and bound to it; the
        cursor moves on either way. */
    method ServeInstrumentEvent(voice: nat)
      requires Valid() && voice < 11 && Due(SongTracks(), PlaybackState(), InstrumentRow, voice)
      modifies this`log, this`currentEventIndex, this`currentInstrument
      ensures Valid()
      ensures Reschedule(SongTracks(), PlaybackState(), InstrumentRow, voice)
              == InstrumentStep(SongTracks(), voice, old(PlaybackState())).state
      ensures log == old(log) + InstrumentStep(SongTracks(), voice, old(PlaybackState())).writes
    {
      ghost var s := PlaybackState();
      var nextInstrumentIndex := currentEventIndex[InstrumentRow][voice];
      var instrumentName := ToUpperCase(instrumentEvents[voice][nextInstrumentIndex].instrumentName);
      if instrumentName in bank.instruments {
        var instrumentDefinition := bank.instruments[instrumentName];
        OplWriteInstrument(voice, instrumentDefinition);
        currentInstrument := currentInstrument[voice := Some(instrumentDefinition)];
      }
      var cursors: seq<nat> := currentEventIndex[InstrumentRow][voice := nextInstrumentIndex + 1];
      currentEventIndex := currentEventIndex[InstrumentRow := cursors];
      assert PlaybackState() == Advance(s.(bound := currentInstrument), InstrumentRow, voice);
    }

    /** The volume block of update's loop for one voice. */
    method UpdateVolumeEvents(voice: nat)
      requires Valid() && voice < 11
      modifies this`log, this`currentEventIndex, this`timeToNextUpdate
      ensures Valid()
      ensures PlaybackState() == VolumeStep(SongTracks(), voice, old(PlaybackState())).state
      ensures log == old(log) + VolumeStep(SongTracks(), voice, old(PlaybackState())).writes
    {
      var nextVolumeIndex := currentEventIndex[VolumeRow][voice];
      if nextVolumeIndex < |volumeEvents[voice]| {
        var nextVolume := volumeEvents[voice][nextVolumeIndex];
        if nextVolume.timeInTicks <= currentTimeInTicks {
          OplWriteVolume(voice, nextVolume.word);
          var cursors: seq<nat> := currentEventIndex[VolumeRow][voice := nextVolumeIndex + 1];
          currentEventIndex := currentEventIndex[VolumeRow := cursors];
        }
        ScheduleNext(VolumeRow, voice);
      }
    }

    /** The note block of update's loop for one voice. */
    method UpdateNoteEvents(voice: nat)
      requires Valid() && voice < 11
      modifies this`log, this`currentEventIndex, this`timeToNextUpdate
      ensures Valid()
      ensures PlaybackState() == NoteStep(SongTracks(), voice, old(PlaybackState())).state
      ensures log == old(log) + NoteStep(SongTracks(), voice, old(PlaybackState())).writes
    {
      var nextNoteIndex := currentEventIndex[NoteRow][voice];
      if nextNoteIndex < |noteEvents[voice]| {
        var nextNote := noteEvents[voice][nextNoteIndex];
        var currentNote := if nextNoteIndex > 0 then noteEvents[voice][nextNoteIndex - 1] else nextNote;
        if nextNote.timeInTicks <= currentTimeInTicks {
          if nextNote.note > 0 {
            OplPlayNote(voice, nextNote.note, true);
          } else {
            OplReleaseNote(voice, currentNote.note);
          }
          var cursors: seq<nat> := currentEventIndex[NoteRow][voice := nextNoteIndex + 1];
          currentEventIndex := currentEventIndex[NoteRow := cursors];
        }
        ScheduleNext(NoteRow, voice);
      }
    }

    /** One pass of update's voice loop: the instrument, volume and note
        blocks in turn. */
    method UpdateVoice(voice: nat)
      requires Valid() && voice < 11
      modifies this`log, this`currentEventIndex, this`currentInstrument, this`timeToNextUpdate
      ensures Valid()
      ensures PlaybackState() == VoiceStep(SongTracks(), voice, old(PlaybackState())).state
      ensures log == old(log) + VoiceStep(SongTracks(), voice, old(PlaybackState())).writes
    {
      ghost var t := SongTracks();
      UpdateInstrumentEvents(voice);
      ghost var o1 := InstrumentStep(t, voice, old(PlaybackState()));
      UpdateVolumeEvents(voice);
      ghost var o2 := VolumeStep(t, voice, o1.state);
      UpdateNoteEvents(voice);
      ghost var o3 := NoteStep(t, voice, o2.state);
      ConcatThree(old(log), o1.writes, o2.writes, o3.writes);
    }

    /** update: one Step of the schedule. Its writes reach the chip in order
        and its result says whether more of the song remains to play. */
    method Update() returns (more: bool)
      requires Valid()
      modifies this`log, this`currentTimeInTicks, this`timeToNextUpdate, this`currentEventIndex, this`currentInstrument
      ensures Valid() && SongTracks() == old(SongTracks())
      ensures PlaybackState() == Step(old(SongTracks()), old(PlaybackState())).state
      ensures log == old(log) + Step(old(SongTracks()), old(PlaybackState())).writes
      ensures more == Step(old(SongTracks()), old(PlaybackState())).more
    {
      if currentTimeInTicks >= totalNoteTicks {
        return false;
      }
      currentTimeInTicks := currentTimeInTicks + timeToNextUpdate;
      timeToNextUpdate := totalNoteTicks;
      ghost var t := SongTracks();
      ghost var started := PlaybackState();
      assert started == Started(t, old(PlaybackState()));
      var voice := 0;
      while voice < 11
        invariant voice <= 11 && Valid() && SongTracks() == t
        invariant PlaybackState() == VoicesUpTo(t, started, voice).state
        invariant log == old(log) + VoicesUpTo(t, started, voice).writes
      {
        ghost var before := VoicesUpTo(t, started, voice);
        UpdateVoice(voice);
        ghost var step := VoiceStep(t, voice, before.state);
        Concat(old(log), before.writes, step.writes);
        assert VoicesUpTo(t, started, voice + 1) == Outcome(step.state, before.writes + step.writes);
        voice := voice + 1;
      }
      more := timeToNextUpdate < totalNoteTicks;
    }
  }
}
