/** The ROL song file (load and the load*Events readers, format/rol.js:238-433):
    a header, one tempo track from offset 0xB6, then for each of the eleven
    voices a note, an instrument (timbre), a volume and a pitch track. Every
    track opens with a 15-byte name that is skipped. The functions here state
    what a well-formed file decodes to; a read past the end of the buffer is
    a RangeError. */
module Song {
  import opened Wrappers
  import opened Binary

  /** A decoded value and the offset just past it. */
  datatype Parsed<+T> = Parsed(value: T, next: nat)

  /** A note (0 is silence) starting at timeInTicks and lasting duration ticks. */
  datatype NoteEvent = NoteEvent(timeInTicks: nat, note: nat, duration: nat)

  /** A change of instrument, by name. */
  datatype InstrumentEvent = InstrumentEvent(timeInTicks: nat, instrumentName: string)

  /** A tempo, volume or pitch event. Its multiplier is a float32, kept here
      as its raw 32-bit word. */
  datatype WordEvent = WordEvent(timeInTicks: nat, word: nat)

  datatype Header = Header(
    majorVersion: nat, minorVersion: nat, ticksPerBeat: nat, beatsPerMeasure: nat,
    scaleYAxis: nat, scaleXAxis: nat, musicMode: bv8)

  datatype TempoTrack = TempoTrack(basicTempo: nat, events: seq<WordEvent>)

  /** A note track: the voice's declared length in ticks and its notes. */
  datatype NoteTrack = NoteTrack(total: nat, events: seq<NoteEvent>)

  datatype Voice = Voice(
    total: nat, notes: seq<NoteEvent>, instruments: seq<InstrumentEvent>,
    volumes: seq<WordEvent>, pitches: seq<WordEvent>)

  datatype SongFile = SongFile(header: Header, tempo: TempoTrack, voices: seq<Voice>)

  /** The events before a decoded tail; an error stays an error. */
  function Prepend<T>(prefix: seq<T>, r: Result<seq<T>>): (p: Result<seq<T>>)
    ensures p.Ok? <==> r.Ok?
    ensures p.Ok? ==> p.value == prefix + r.value
  {
    match r
    case RangeError => RangeError
    case Ok(s) => Ok(prefix + s)
  }

  lemma PrependNothing<T>(r: Result<seq<T>>)
    ensures Prepend([], r) == r
  {
    if r.Ok? {
      assert [] + r.value == r.value;
    }
  }

  lemma PrependTwice<T>(a: seq<T>, b: seq<T>, r: Result<seq<T>>)
    ensures Prepend(a, Prepend(b, r)) == Prepend(a + b, r)
  {
    if r.Ok? {
      assert a + (b + r.value) == (a + b) + r.value;
    }
  }

  /** The fixed header: the words at 0, 2, 44, 46, 48 and 50, the music mode
      byte at 53. */
  function HeaderOf(data: seq<bv8>): (r: Result<Header>)
    ensures r.Ok? <==> |data| >= 54
  {
    if |data| < 54 then RangeError
    else Ok(Header(U16(data, 0), U16(data, 2), U16(data, 44), U16(data, 46), U16(data, 48), U16(data, 50), data[53]))
  }

  /** n events of six bytes each: a 2-byte tick, a 4-byte float word. */
  function WordEventsAt(data: seq<bv8>, o: nat, n: nat): (r: Result<seq<WordEvent>>)
    ensures r.Ok? ==> |r.value| == n
    decreases n
  {
    if n == 0 then Ok([])
    else if o + 6 > |data| then RangeError
    else Prepend([WordEvent(U16(data, o), U32(data, o + 2))], WordEventsAt(data, o + 6, n - 1))
  }

  /** n events of fourteen bytes each: a 2-byte tick, then a name read up
      to its NUL from a 9-byte field, a padding byte and two unused bytes;
      the reader steps over all twelve whatever the name's length. */
  function InstrumentEventsAt(data: seq<bv8>, o: nat, n: nat): (r: Result<seq<InstrumentEvent>>)
    ensures r.Ok? ==> |r.value| == n
    decreases n
  {
    if n == 0 then Ok([])
    else if o + 2 > |data| then RangeError
    else match StringAt(data, o + 2)
      case RangeError => RangeError
      case Ok(name) => Prepend([InstrumentEvent(U16(data, o), name)], InstrumentEventsAt(data, o + 14, n - 1))
  }

  /** Note events of four bytes each (note, duration), read while the
      running sum of durations is below the declared total; each event
      starts at the running sum. A duration of 0 does not advance the sum,
      and only the end of the buffer stops such a track. */
  function NoteEventsAt(data: seq<bv8>, o: nat, sum: nat, total: nat): (r: Result<seq<NoteEvent>>)
    decreases |data| - o
  {
    if sum >= total then Ok([])
    else if o + 4 > |data| then RangeError
    else
      var duration := U16(data, o + 2);
      Prepend([NoteEvent(sum, U16(data, o), duration)], NoteEventsAt(data, o + 4, sum + duration, total))
  }

  /** loadTempoEvents: name, basic tempo word, event count, events. */
  function TempoTrackAt(data: seq<bv8>, o: nat): Result<Parsed<TempoTrack>> {
    if o + 21 > |data| then RangeError
    else match WordEventsAt(data, o + 21, U16(data, o + 19))
      case RangeError => RangeError
      case Ok(events) => Ok(Parsed(TempoTrack(U32(data, o + 15), events), o + 21 + 6 * |events|))
  }

  /** loadNoteEvents: name, the voice's total ticks, then notes up to it. */
  function NoteTrackAt(data: seq<bv8>, o: nat): Result<Parsed<NoteTrack>> {
    if o + 17 > |data| then RangeError
    else
      var total := U16(data, o + 15);
      match NoteEventsAt(data, o + 17, 0, total)
      case RangeError => RangeError
      case Ok(events) => Ok(Parsed(NoteTrack(total, events), o + 17 + 4 * |events|))
  }

  /** loadInstrumentEvents: name, event count, events. */
  function InstrumentTrackAt(data: seq<bv8>, o: nat): Result<Parsed<seq<InstrumentEvent>>> {
    if o + 17 > |data| then RangeError
    else match InstrumentEventsAt(data, o + 17, U16(data, o + 15))
      case RangeError => RangeError
      case Ok(events) => Ok(Parsed(events, o + 17 + 14 * |events|))
  }

  /** loadVolumeEvents and loadPitchEvents: name, event count, events. */
  function WordTrackAt(data: seq<bv8>, o: nat): Result<Parsed<seq<WordEvent>>> {
    if o + 17 > |data| then RangeError
    else match WordEventsAt(data, o + 17, U16(data, o + 15))
      case RangeError => RangeError
      case Ok(events) => Ok(Parsed(events, o + 17 + 6 * |events|))
  }

  /** The four tracks of one voice, in file order. */
  function VoiceAt(data: seq<bv8>, o: nat): Result<Parsed<Voice>> {
    match NoteTrackAt(data, o)
    case RangeError => RangeError
    case Ok(notes) =>
      match InstrumentTrackAt(data, notes.next)
      case RangeError => RangeError
      case Ok(instruments) =>
        match WordTrackAt(data, instruments.next)
        case RangeError => RangeError
        case Ok(volumes) =>
          match WordTrackAt(data, volumes.next)
          case RangeError => RangeError
          case Ok(pitches) =>
            Ok(Parsed(Voice(notes.value.total, notes.value.events, instruments.value, volumes.value, pitches.value),
                      pitches.next))
  }

  /** The first k voices, one after another from offset o. */
  function VoicesFrom(data: seq<bv8>, o: nat, k: nat): (r: Result<Parsed<seq<Voice>>>)
    ensures r.Ok? ==> |r.value.value| == k
  {
    if k == 0 then Ok(Parsed([], o))
    else match VoicesFrom(data, o, k - 1)
      case RangeError => RangeError
      case Ok(first) =>
        match VoiceAt(data, first.next)
        case RangeError => RangeError
        case Ok(voice) => Ok(Parsed(first.value + [voice.value], voice.next))
  }

  /** Once a voice fails to decode, every longer run of voices fails. */
  lemma {:induction false} VoicesFromFailOnward(data: seq<bv8>, o: nat, k: nat, n: nat)
    requires k <= n && VoicesFrom(data, o, k).RangeError?
    ensures VoicesFrom(data, o, n).RangeError?
    decreases n - k
  {
    if k < n {
      VoicesFromFailOnward(data, o, k + 1, n);
    }
  }

  /** One more instrument event after the first i of n: its tick at o,
      its name from o + 2, and the next event 14 bytes on. */
  lemma InstrumentEventsStep(data: seq<bv8>, start: nat, n: nat, i: nat, events: seq<InstrumentEvent>, o: nat, name: string)
    requires i < n && o + 2 <= |data| && StringAt(data, o + 2) == Ok(name)
    requires InstrumentEventsAt(data, start, n) == Prepend(events, InstrumentEventsAt(data, o, n - i))
    ensures InstrumentEventsAt(data, start, n)
      == Prepend(events + [InstrumentEvent(U16(data, o), name)], InstrumentEventsAt(data, o + 14, n - (i + 1)))
  {
    PrependTwice(events, [InstrumentEvent(U16(data, o), name)], InstrumentEventsAt(data, o + 14, n - (i + 1)));
  }

  /** A cut-off instrument event fails the whole list. */
  lemma InstrumentEventsFail(data: seq<bv8>, start: nat, n: nat, i: nat, events: seq<InstrumentEvent>, o: nat)
    requires i < n && (o + 2 > |data| || StringAt(data, o + 2).RangeError?)
    requires InstrumentEventsAt(data, start, n) == Prepend(events, InstrumentEventsAt(data, o, n - i))
    ensures InstrumentEventsAt(data, start, n).RangeError?
  {
  }

  /** Once all n instrument events are read, the list is what was read. */
  lemma InstrumentEventsDone(data: seq<bv8>, start: nat, n: nat, events: seq<InstrumentEvent>, o: nat)
    requires InstrumentEventsAt(data, start, n) == Prepend(events, InstrumentEventsAt(data, o, 0))
    ensures InstrumentEventsAt(data, start, n) == Ok(events)
  {
    assert events + [] == events;
  }

  /** A cut-off note event fails the whole list. */
  lemma NoteEventsFail(data: seq<bv8>, start: nat, events: seq<NoteEvent>, o: nat, sum: nat, total: nat)
    requires sum < total && o + 4 > |data|
    requires NoteEventsAt(data, start, 0, total) == Prepend(events, NoteEventsAt(data, o, sum, total))
    ensures NoteEventsAt(data, start, 0, total).RangeError?
  {
  }

  /** One more voice decoded after the first k. */
  lemma VoicesFromStep(data: seq<bv8>, o: nat, k: nat, voices: seq<Voice>, next: nat)
    requires VoicesFrom(data, o, k) == Ok(Parsed(voices, next))
    ensures VoiceAt(data, next).Ok? ==>
      VoicesFrom(data, o, k + 1) == Ok(Parsed(voices + [VoiceAt(data, next).value.value], VoiceAt(data, next).value.next))
    ensures VoiceAt(data, next).RangeError? ==> VoicesFrom(data, o, k + 1).RangeError?
  {
  }

  /** The song decodes exactly when its header, its tempo track and its
      eleven voices do, one after the other. */
  lemma SongOfCases(data: seq<bv8>)
    ensures SongOf(data).Ok? <==>
      && |data| >= 54
      && TempoTrackAt(data, 0xB6).Ok?
      && VoicesFrom(data, TempoTrackAt(data, 0xB6).value.next, 11).Ok?
    ensures SongOf(data).Ok? ==>
      SongOf(data).value == SongFile(HeaderOf(data).value, TempoTrackAt(data, 0xB6).value.value,
                                     VoicesFrom(data, TempoTrackAt(data, 0xB6).value.next, 11).value.value)
  {
  }

  /** The tempo list after loadTempoEvents stores the new events from index
      0 over the list left by an earlier load: the new events come first,
      and entries of the old list past them survive. */
  function Overwrite<T>(previous: seq<T>, loaded: seq<T>): (r: seq<T>)
    ensures |r| == if |loaded| >= |previous| then |loaded| else |previous|
    ensures forall i | 0 <= i < |loaded| :: r[i] == loaded[i]
    ensures forall i | |loaded| <= i < |r| :: r[i] == previous[i]
  {
    if |loaded| >= |previous| then loaded else loaded + previous[|loaded|..]
  }

  /** The whole song: header, tempo track from 0xB6, eleven voices. */
  function SongOf(data: seq<bv8>): (r: Result<SongFile>)
    ensures r.Ok? ==> |r.value.voices| == 11
  {
    match HeaderOf(data)
    case RangeError => RangeError
    case Ok(header) =>
      match TempoTrackAt(data, 0xB6)
      case RangeError => RangeError
      case Ok(tempo) =>
        match VoicesFrom(data, tempo.next, 11)
        case RangeError => RangeError
        case Ok(voices) => Ok(SongFile(header, tempo.value, voices.value))
  }

  /** The sum of the durations. */
  function Durations(events: seq<NoteEvent>): nat {
    if events == [] then 0 else events[0].duration + Durations(events[1..])
  }

  /** Each note starts where the previous ones end: event k's time is the
      running sum plus the durations of events 0..k-1. */
  lemma {:induction false} NoteTimesArePrefixSums(data: seq<bv8>, o: nat, sum: nat, total: nat)
    requires NoteEventsAt(data, o, sum, total).Ok?
    ensures var events := NoteEventsAt(data, o, sum, total).value;
      forall k | 0 <= k < |events| :: events[k].timeInTicks == sum + Durations(events[..k])
    decreases |data| - o
  {
    if sum < total {
      var events := NoteEventsAt(data, o, sum, total).value;
      var duration := events[0].duration;
      var rest := NoteEventsAt(data, o + 4, sum + duration, total).value;
      NoteTimesArePrefixSums(data, o + 4, sum + duration, total);
      forall k | 1 <= k < |events|
        ensures events[k].timeInTicks == sum + Durations(events[..k])
      {
        assert events[k] == rest[k - 1];
        assert events[..k][1..] == rest[..k - 1];
      }
    }
  }

  /** Note events lie four bytes apart: event k's note and duration are the
      two words at 4 * k past the start. */
  lemma {:induction false} NoteEventsLayout(data: seq<bv8>, o: nat, sum: nat, total: nat)
    requires NoteEventsAt(data, o, sum, total).Ok?
    ensures var events := NoteEventsAt(data, o, sum, total).value;
      forall k | 0 <= k < |events| ::
        && o + 4 * k + 4 <= |data|
        && events[k].note == U16(data, o + 4 * k)
        && events[k].duration == U16(data, o + 4 * k + 2)
    decreases |data| - o
  {
    if sum < total {
      var events := NoteEventsAt(data, o, sum, total).value;
      var rest := NoteEventsAt(data, o + 4, sum + U16(data, o + 2), total).value;
      NoteEventsLayout(data, o + 4, sum + U16(data, o + 2), total);
      forall k | 1 <= k < |events|
        ensures o + 4 * k + 4 <= |data|
        ensures events[k].note == U16(data, o + 4 * k) && events[k].duration == U16(data, o + 4 * k + 2)
      {
        assert events[k] == rest[k - 1];
        assert o + 4 + 4 * (k - 1) == o + 4 * k;
      }
    }
  }

  /** Reading stops at the first point where the running sum reaches the
      declared total: every event starts before it, and the durations read
      carry the sum to it or beyond. */
  lemma {:induction false} NoteTrackStops(data: seq<bv8>, o: nat, sum: nat, total: nat)
    requires NoteEventsAt(data, o, sum, total).Ok?
    ensures var events := NoteEventsAt(data, o, sum, total).value;
      && sum + Durations(events) >= total
      && forall k | 0 <= k < |events| :: events[k].timeInTicks < total
    decreases |data| - o
  {
    if sum < total {
      var duration := U16(data, o + 2);
      var events := NoteEventsAt(data, o, sum, total).value;
      var rest := NoteEventsAt(data, o + 4, sum + duration, total).value;
      NoteTrackStops(data, o + 4, sum + duration, total);
      assert events == [events[0]] + rest;
      assert events[1..] == rest;
      forall k | 1 <= k < |events| ensures events[k].timeInTicks < total {
        assert events[k] == rest[k - 1];
      }
    }
  }

  /** Note times never decrease along a track. */
  lemma NoteTimesAscend(data: seq<bv8>, o: nat, sum: nat, total: nat, j: nat, k: nat)
    requires NoteEventsAt(data, o, sum, total).Ok?
    requires j <= k < |NoteEventsAt(data, o, sum, total).value|
    ensures var events := NoteEventsAt(data, o, sum, total).value;
      events[j].timeInTicks <= events[k].timeInTicks
  {
    var events := NoteEventsAt(data, o, sum, total).value;
    NoteTimesArePrefixSums(data, o, sum, total);
    DurationsOfPrefix(events, j, k);
  }

  lemma {:induction false} DurationsOfPrefix(events: seq<NoteEvent>, j: nat, k: nat)
    requires j <= k <= |events|
    ensures Durations(events[..j]) <= Durations(events[..k])
    decreases k - j
  {
    if j < k {
      DurationsOfPrefix(events, j + 1, k);
      DurationsSnoc(events[..j], events[j]);
      assert events[..j + 1] == events[..j] + [events[j]];
    }
  }

  lemma {:induction false} DurationsSnoc(events: seq<NoteEvent>, e: NoteEvent)
    ensures Durations(events + [e]) == Durations(events) + e.duration
  {
    if events == [] {
      assert [e][1..] == [];
    } else {
      assert (events + [e])[1..] == events[1..] + [e];
      DurationsSnoc(events[1..], e);
    }
  }

  /** Word events lie six bytes apart: event k's tick and float word are
      read at 6 * k past the start. */
  lemma {:induction false} WordEventsLayout(data: seq<bv8>, o: nat, n: nat)
    requires WordEventsAt(data, o, n).Ok?
    ensures n > 0 ==> o + 6 * n <= |data|
    ensures forall k | 0 <= k < n ::
      WordEventsAt(data, o, n).value[k] == WordEvent(U16(data, o + 6 * k), U32(data, o + 6 * k + 2))
    decreases n
  {
    if n > 0 {
      WordEventsLayout(data, o + 6, n - 1);
      var events := WordEventsAt(data, o, n).value;
      var rest := WordEventsAt(data, o + 6, n - 1).value;
      forall k | 1 <= k < n
        ensures events[k] == WordEvent(U16(data, o + 6 * k), U32(data, o + 6 * k + 2))
      {
        assert events[k] == rest[k - 1];
        assert o + 6 + 6 * (k - 1) == o + 6 * k;
      }
    }
  }

  /** Event k of an instrument list: its tick is read at 14 * k past the
      start and its name from two bytes further on. */
  lemma {:induction false} InstrumentEventAt(data: seq<bv8>, o: nat, n: nat, k: nat)
    requires InstrumentEventsAt(data, o, n).Ok? && k < n
    ensures o + 14 * k + 2 <= |data|
    ensures InstrumentEventsAt(data, o, n).value[k].timeInTicks == U16(data, o + 14 * k)
    ensures StringAt(data, o + 14 * k + 2) == Ok(InstrumentEventsAt(data, o, n).value[k].instrumentName)
    decreases k
  {
    if k > 0 {
      InstrumentEventAt(data, o + 14, n - 1, k - 1);
      assert o + 14 + 14 * (k - 1) == o + 14 * k;
    }
  }

  /** Instrument events lie fourteen bytes apart whatever the length of their
      names. */
  lemma InstrumentEventsLayout(data: seq<bv8>, o: nat, n: nat)
    requires InstrumentEventsAt(data, o, n).Ok?
    ensures forall k | 0 <= k < n ::
      && o + 14 * k + 2 <= |data|
      && InstrumentEventsAt(data, o, n).value[k].timeInTicks == U16(data, o + 14 * k)
      && StringAt(data, o + 14 * k + 2) == Ok(InstrumentEventsAt(data, o, n).value[k].instrumentName)
  {
    forall k | 0 <= k < n
      ensures o + 14 * k + 2 <= |data|
      ensures InstrumentEventsAt(data, o, n).value[k].timeInTicks == U16(data, o + 14 * k)
      ensures StringAt(data, o + 14 * k + 2) == Ok(InstrumentEventsAt(data, o, n).value[k].instrumentName)
    {
      InstrumentEventAt(data, o, n, k);
    }
  }

  /** The larger of two tick counts. */
  function Max(a: nat, b: nat): nat {
    if a > b then a else b
  }

  /** The song's length in ticks as load leaves it: the largest of the value
      it had before and the voices' declared totals. */
  function TotalNoteTicks(before: nat, voices: seq<Voice>): nat {
    if voices == [] then before
    else
      var t := TotalNoteTicks(before, voices[..|voices| - 1]);
      if voices[|voices| - 1].total > t then voices[|voices| - 1].total else t
  }

  /** It is the maximum: no voice is longer, and it is either the previous
      value or some voice's total. */
  lemma {:induction false} TotalNoteTicksIsMax(before: nat, voices: seq<Voice>)
    ensures TotalNoteTicks(before, voices) >= before
    ensures forall v | v in voices :: v.total <= TotalNoteTicks(before, voices)
    ensures TotalNoteTicks(before, voices) == before
      || exists v | v in voices :: v.total == TotalNoteTicks(before, voices)
  {
    if voices != [] {
      var init := voices[..|voices| - 1];
      TotalNoteTicksIsMax(before, init);
      assert voices == init + [voices[|voices| - 1]];
      assert forall v | v in voices :: v in init || v == voices[|voices| - 1];
      if TotalNoteTicks(before, voices) != before && TotalNoteTicks(before, voices) != voices[|voices| - 1].total {
        var v :| v in init && v.total == TotalNoteTicks(before, init);
        assert v in voices;
      }
    }
  }
}
