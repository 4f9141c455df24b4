/** One call of update (format/rol.js:436-548) as a function of the song's
    tracks and the playback state. Every voice in turn, and within a voice
    the instrument, then the volume, then the note track: the event at the
    track's cursor is dispatched when its time has come and the cursor moves
    past it, then the next event's distance, if it lies ahead, bounds the
    time to the next update. Pitch and tempo events are never dispatched. */
module Scheduler {
  import opened Wrappers
  import opened Binary
  import opened Bank
  import opened Song
  import opened Opl

  /** Rows of the cursor table (currentEventIndex): notes, volumes,
      instruments, and pitch, which no code advances. */
  const NoteRow := 0
  const VolumeRow := 1
  const InstrumentRow := 2

  /** What update reads and never changes: the decoded tracks of the eleven
      voices, the song length, the bank, and the two float computations of
      the source taken as given (the F-number of a note, and
      Math.round(multiplier * 0x7F) of a volume word). */
  datatype Tracks = Tracks(
    notes: seq<seq<NoteEvent>>, instruments: seq<seq<InstrumentEvent>>, volumes: seq<seq<WordEvent>>,
    totalNoteTicks: nat, bank: map<string, Instrument>, fNumOf: int -> bv32, volumeOf: nat -> int)
  {
    predicate Valid() {
      |notes| == 11 && |instruments| == 11 && |volumes| == 11
    }

    /** The number of events in row k of voice v. */
    function Length(k: nat, v: nat): nat
      requires Valid() && k < 3 && v < 11
    {
      if k == NoteRow then |notes[v]| else if k == VolumeRow then |volumes[v]| else |instruments[v]|
    }

    /** The start tick of event i in row k of voice v. */
    function TimeAt(k: nat, v: nat, i: nat): nat
      requires Valid() && k < 3 && v < 11 && i < Length(k, v)
    {
      if k == NoteRow then notes[v][i].timeInTicks
      else if k == VolumeRow then volumes[v][i].timeInTicks
      else instruments[v][i].timeInTicks
    }
  }

  /** What update changes: currentTimeInTicks, timeToNextUpdate, the 4 x 11
      cursor table and the instrument bound to each voice. */
  datatype Playback = Playback(time: nat, ttnu: nat, cursor: seq<seq<nat>>, bound: seq<Option<Instrument>>)
  {
    predicate Valid() {
      |cursor| == 4 && (forall k | 0 <= k < 4 :: |cursor[k]| == 11) && |bound| == 11
    }
  }

  datatype Outcome = Outcome(state: Playback, writes: seq<Write>)

  /** The result of update: the new state, the register writes issued, and
      the returned flag. */
  datatype StepResult = StepResult(state: Playback, writes: seq<Write>, more: bool)

  /** The state before the first update: time 0, nothing scheduled, every
      cursor at 0 and no instrument bound. */
  function Initial(): (s: Playback)
    ensures s.Valid()
  {
    Playback(0, 0, seq(4, _ => seq(11, _ => 0)), seq(11, _ => None))
  }

  /** The event at the cursor of row k of voice v exists and its time has come. */
  predicate Due(t: Tracks, s: Playback, k: nat, v: nat)
    requires t.Valid() && s.Valid() && k < 3 && v < 11
  {
    s.cursor[k][v] < t.Length(k, v) && t.TimeAt(k, v, s.cursor[k][v]) <= s.time
  }

  /** The event at the cursor exists and lies ahead. */
  predicate Pending(t: Tracks, s: Playback, k: nat, v: nat)
    requires t.Valid() && s.Valid() && k < 3 && v < 11
  {
    s.cursor[k][v] < t.Length(k, v) && t.TimeAt(k, v, s.cursor[k][v]) > s.time
  }

  /** How far ahead a pending event lies. */
  function Delta(t: Tracks, s: Playback, k: nat, v: nat): nat
    requires t.Valid() && s.Valid() && k < 3 && v < 11 && Pending(t, s, k, v)
  {
    t.TimeAt(k, v, s.cursor[k][v]) - s.time
  }

  /** Move the cursor of row k of voice v past one event. */
  function Advance(s: Playback, k: nat, v: nat): (r: Playback)
    requires s.Valid() && k < 4 && v < 11
    ensures r.Valid() && r.time == s.time && r.ttnu == s.ttnu && r.bound == s.bound
  {
    s.(cursor := s.cursor[k := s.cursor[k][v := s.cursor[k][v] + 1]])
  }

  /** Bring the time to the next update down to a pending event's distance. */
  function Reschedule(t: Tracks, s: Playback, k: nat, v: nat): (r: Playback)
    requires t.Valid() && s.Valid() && k < 3 && v < 11
    ensures r.Valid() && r.time == s.time && r.cursor == s.cursor && r.bound == s.bound
  {
    if Pending(t, s, k, v) && Delta(t, s, k, v) < s.ttnu then s.(ttnu := Delta(t, s, k, v)) else s
  }

  /** The instrument track: a due event's name is upper-cased and looked up
      in the bank; when present its registers are written and it becomes
      the voice's instrument. Present or not, the cursor moves on. */
  function InstrumentStep(t: Tracks, v: nat, s: Playback): (o: Outcome)
    requires t.Valid() && s.Valid() && v < 11
    ensures o.state.Valid() && o.state.time == s.time
  {
    if Due(t, s, InstrumentRow, v) then
      var name := ToUpperCase(t.instruments[v][s.cursor[InstrumentRow][v]].instrumentName);
      var s1 := Advance(s, InstrumentRow, v);
      if name in t.bank then
        Outcome(Reschedule(t, s1.(bound := s1.bound[v := Some(t.bank[name])]), InstrumentRow, v),
                InstrumentWrites(v, t.bank[name]))
      else Outcome(Reschedule(t, s1, InstrumentRow, v), [])
    else Outcome(Reschedule(t, s, InstrumentRow, v), [])
  }

  /** The volume track: a due event sets the level registers of the voice's
      bound instrument, if any. */
  function VolumeStep(t: Tracks, v: nat, s: Playback): (o: Outcome)
    requires t.Valid() && s.Valid() && v < 11
    ensures o.state.Valid() && o.state.time == s.time && o.state.bound == s.bound
  {
    if Due(t, s, VolumeRow, v) then
      var e := t.volumes[v][s.cursor[VolumeRow][v]];
      Outcome(Reschedule(t, Advance(s, VolumeRow, v), VolumeRow, v), VolumeWrites(v, s.bound[v], t.volumeOf(e.word)))
    else Outcome(Reschedule(t, s, VolumeRow, v), [])
  }

  /** The writes for a due note: a real note is played; note 0 releases the
      note of the previous event, or of the event itself when it is the
      first of its track. */
  function NoteWrites(t: Tracks, v: nat, events: seq<NoteEvent>, idx: nat): seq<Write>
    requires idx < |events|
  {
    var e := events[idx];
    if e.note > 0 then PlayNoteWrites(v, e.note, true, t.fNumOf(e.note))
    else
      var current := if idx > 0 then events[idx - 1] else e;
      ReleaseNoteWrites(v, current.note, t.fNumOf(current.note))
  }

  /** The note track. */
  function NoteStep(t: Tracks, v: nat, s: Playback): (o: Outcome)
    requires t.Valid() && s.Valid() && v < 11
    ensures o.state.Valid() && o.state.time == s.time && o.state.bound == s.bound
  {
    if Due(t, s, NoteRow, v) then
      Outcome(Reschedule(t, Advance(s, NoteRow, v), NoteRow, v), NoteWrites(t, v, t.notes[v], s.cursor[NoteRow][v]))
    else Outcome(Reschedule(t, s, NoteRow, v), [])
  }

  /** One voice: instrument, then volume, then note. */
  function VoiceStep(t: Tracks, v: nat, s: Playback): (o: Outcome)
    requires t.Valid() && s.Valid() && v < 11
    ensures o.state.Valid() && o.state.time == s.time
  {
    var o1 := InstrumentStep(t, v, s);
    var o2 := VolumeStep(t, v, o1.state);
    var o3 := NoteStep(t, v, o2.state);
    Outcome(o3.state, o1.writes + o2.writes + o3.writes)
  }

  /** Voices 0 .. n-1 in order, their writes concatenated. */
  function VoicesUpTo(t: Tracks, s: Playback, n: nat): (o: Outcome)
    requires t.Valid() && s.Valid() && n <= 11
    ensures o.state.Valid() && o.state.time == s.time
  {
    if n == 0 then Outcome(s, [])
    else
      var first := VoicesUpTo(t, s, n - 1);
      var last := VoiceStep(t, n - 1, first.state);
      Outcome(last.state, first.writes + last.writes)
  }

  /** update: nothing once the song's end is reached; otherwise time moves
      on by the previous timeToNextUpdate, which restarts from the song
      length, every voice is served, and the result says whether some event
      lies closer than the song length. */
  function Step(t: Tracks, s: Playback): (r: StepResult)
    requires t.Valid() && s.Valid()
    ensures r.state.Valid()
  {
    if s.time >= t.totalNoteTicks then StepResult(s, [], false)
    else
      var o := VoicesUpTo(t, s.(time := s.time + s.ttnu, ttnu := t.totalNoteTicks), 11);
      StepResult(o.state, o.writes, o.state.ttnu < t.totalNoteTicks)
  }

  /** The instrument bound to voice v after its instrument row is served. */
  function BoundAfter(t: Tracks, s: Playback, v: nat): Option<Instrument>
    requires t.Valid() && s.Valid() && v < 11
  {
    if Due(t, s, InstrumentRow, v) then
      var name := ToUpperCase(t.instruments[v][s.cursor[InstrumentRow][v]].instrumentName);
      if name in t.bank then Some(t.bank[name]) else s.bound[v]
    else s.bound[v]
  }

  /** How serving row k of voice v took s to r: the cursor moved past the
      event exactly when it was due, the time stayed, and the time to the
      next update is the smaller of the old one and the distance to the
      event now at the cursor, if that lies ahead. */
  predicate RowServed(t: Tracks, s: Playback, r: Playback, k: nat, v: nat)
    requires t.Valid() && s.Valid() && r.Valid() && k < 3 && v < 11
  {
    && r.time == s.time
    && r.cursor == (if Due(t, s, k, v) then Advance(s, k, v).cursor else s.cursor)
    && r.ttnu <= s.ttnu
    && (Pending(t, r, k, v) ==> r.ttnu <= Delta(t, r, k, v))
    && (r.ttnu == s.ttnu || (Pending(t, r, k, v) && r.ttnu == Delta(t, r, k, v)))
  }

  lemma InstrumentStepServes(t: Tracks, v: nat, s: Playback)
    requires t.Valid() && s.Valid() && v < 11
    ensures var r := InstrumentStep(t, v, s).state;
      RowServed(t, s, r, InstrumentRow, v) && r.bound == s.bound[v := BoundAfter(t, s, v)]
  {
  }

  lemma VolumeStepServes(t: Tracks, v: nat, s: Playback)
    requires t.Valid() && s.Valid() && v < 11
    ensures RowServed(t, s, VolumeStep(t, v, s).state, VolumeRow, v)
  {
  }

  lemma NoteStepServes(t: Tracks, v: nat, s: Playback)
    requires t.Valid() && s.Valid() && v < 11
    ensures RowServed(t, s, NoteStep(t, v, s).state, NoteRow, v)
  {
  }

  /** Whether row k of voice v is due or pending depends only on its cursor
      and the time. */
  lemma RowFrame(t: Tracks, s1: Playback, s2: Playback, k: nat, v: nat)
    requires t.Valid() && s1.Valid() && s2.Valid() && k < 3 && v < 11
    requires s1.time == s2.time && s1.cursor[k][v] == s2.cursor[k][v]
    ensures Due(t, s1, k, v) == Due(t, s2, k, v)
    ensures Pending(t, s1, k, v) == Pending(t, s2, k, v)
    ensures Pending(t, s1, k, v) ==> Delta(t, s1, k, v) == Delta(t, s2, k, v)
  {
  }

  /** What serving one voice does to the cursors: each of its three cursors
      moves past its event exactly when that event was due, no other cursor
      moves, and only this voice's binding can change. */
  lemma VoiceStepCursors(t: Tracks, v: nat, s: Playback)
    requires t.Valid() && s.Valid() && v < 11
    ensures VoiceStep(t, v, s).state.time == s.time
    ensures forall k, u | 0 <= k < 4 && 0 <= u < 11 ::
      VoiceStep(t, v, s).state.cursor[k][u] == if k < 3 && u == v && Due(t, s, k, u) then s.cursor[k][u] + 1 else s.cursor[k][u]
    ensures VoiceStep(t, v, s).state.bound == s.bound[v := BoundAfter(t, s, v)]
  {
    var s1 := InstrumentStep(t, v, s).state;
    var s2 := VolumeStep(t, v, s1).state;
    InstrumentStepServes(t, v, s);
    VolumeStepServes(t, v, s1);
    NoteStepServes(t, v, s2);
    RowFrame(t, s, s1, VolumeRow, v);
    RowFrame(t, s, s2, NoteRow, v);
  }

  /** Serving one voice never raises the time to the next update, and
      leaves it no further than any of the voice's pending events. */
  lemma VoiceStepTiming(t: Tracks, v: nat, s: Playback)
    requires t.Valid() && s.Valid() && v < 11
    ensures VoiceStep(t, v, s).state.ttnu <= s.ttnu
    ensures forall k | 0 <= k < 3 && Pending(t, VoiceStep(t, v, s).state, k, v) ::
      VoiceStep(t, v, s).state.ttnu <= Delta(t, VoiceStep(t, v, s).state, k, v)
  {
    var s1 := InstrumentStep(t, v, s).state;
    var s2 := VolumeStep(t, v, s1).state;
    var r := NoteStep(t, v, s2).state;
    InstrumentStepServes(t, v, s);
    VolumeStepServes(t, v, s1);
    NoteStepServes(t, v, s2);
    RowFrame(t, s1, r, InstrumentRow, v);
    RowFrame(t, s2, r, VolumeRow, v);
  }

  /** Serving one voice changes the time to the next update only to the
      distance of one of that voice's pending events. */
  lemma VoiceStepAttained(t: Tracks, v: nat, s: Playback)
    requires t.Valid() && s.Valid() && v < 11
    ensures || VoiceStep(t, v, s).state.ttnu == s.ttnu
            || exists k | 0 <= k < 3 :: Pending(t, VoiceStep(t, v, s).state, k, v)
                                      && VoiceStep(t, v, s).state.ttnu == Delta(t, VoiceStep(t, v, s).state, k, v)
  {
    var s1 := InstrumentStep(t, v, s).state;
    var s2 := VolumeStep(t, v, s1).state;
    var r := NoteStep(t, v, s2).state;
    InstrumentStepServes(t, v, s);
    VolumeStepServes(t, v, s1);
    NoteStepServes(t, v, s2);
    RowFrame(t, s1, r, InstrumentRow, v);
    RowFrame(t, s2, r, VolumeRow, v);
  }

  /** Serving voices 0 .. n-1 moves each of their three cursors past its
      event exactly when that event was due at the start, leaves the other
      voices' cursors and every pitch cursor where they were, and changes
      only those voices' bindings. */
  lemma {:induction false} VoicesUpToCursors(t: Tracks, s: Playback, n: nat)
    requires t.Valid() && s.Valid() && n <= 11
    ensures var r := VoicesUpTo(t, s, n).state;
      && (forall k, u | 0 <= k < 4 && 0 <= u < 11 ::
            r.cursor[k][u] == if k < 3 && u < n && Due(t, s, k, u) then s.cursor[k][u] + 1 else s.cursor[k][u])
      && (forall u | 0 <= u < 11 :: r.bound[u] == if u < n then BoundAfter(t, s, u) else s.bound[u])
  {
    if n > 0 {
      VoicesUpToCursors(t, s, n - 1);
      var m := VoicesUpTo(t, s, n - 1).state;
      VoiceStepCursors(t, n - 1, m);
      RowFrame(t, s, m, NoteRow, n - 1);
      RowFrame(t, s, m, VolumeRow, n - 1);
      RowFrame(t, s, m, InstrumentRow, n - 1);
    }
  }

  /** After serving voices 0 .. n-1 the time to the next update is at most
      what it was, at most the distance to every event of theirs that lies
      ahead, and it is either unchanged or equal to one such distance. */
  lemma {:induction false} VoicesUpToTtnu(t: Tracks, s: Playback, n: nat)
    requires t.Valid() && s.Valid() && n <= 11
    ensures var r := VoicesUpTo(t, s, n).state;
      && r.ttnu <= s.ttnu
      && (forall k, u | 0 <= k < 3 && 0 <= u < n && Pending(t, r, k, u) :: r.ttnu <= Delta(t, r, k, u))
      && (r.ttnu == s.ttnu || exists k, u | 0 <= k < 3 && 0 <= u < n :: Pending(t, r, k, u) && r.ttnu == Delta(t, r, k, u))
  {
    if n > 0 {
      VoicesUpToTtnu(t, s, n - 1);
      var m := VoicesUpTo(t, s, n - 1).state;
      var r := VoicesUpTo(t, s, n).state;
      VoiceStepCursors(t, n - 1, m);
      VoiceStepTiming(t, n - 1, m);
      VoiceStepAttained(t, n - 1, m);
      forall k, u | 0 <= k < 3 && 0 <= u < n - 1
        ensures Pending(t, m, k, u) == Pending(t, r, k, u)
        ensures Pending(t, m, k, u) ==> Delta(t, m, k, u) == Delta(t, r, k, u)
      {
        RowFrame(t, m, r, k, u);
      }
      if r.ttnu != s.ttnu && r.ttnu == m.ttnu {
        var k, u :| 0 <= k < 3 && 0 <= u < n - 1 && Pending(t, m, k, u) && m.ttnu == Delta(t, m, k, u);
        assert Pending(t, r, k, u) && r.ttnu == Delta(t, r, k, u);
      }
    }
  }

  /** The state in which a non-terminal update serves the voices: time moved
      on by the previous timeToNextUpdate, which restarts from the song length. */
  function Started(t: Tracks, s: Playback): (r: Playback)
    requires s.Valid()
    ensures r.Valid()
  {
    s.(time := s.time + s.ttnu, ttnu := t.totalNoteTicks)
  }

  /** update at or past the end of the song changes nothing, writes nothing
      and returns false; before it, time moves on by the previous
      timeToNextUpdate and the new one lies between 1 and the song length;
      the result is true exactly when it is below the song length. */
  lemma StepTiming(t: Tracks, s: Playback)
    requires t.Valid() && s.Valid()
    ensures var r := Step(t, s);
      && (s.time >= t.totalNoteTicks ==> r == StepResult(s, [], false))
      && (s.time < t.totalNoteTicks ==>
            && r.state.time == s.time + s.ttnu
            && 1 <= r.state.ttnu <= t.totalNoteTicks
            && (r.more <==> r.state.ttnu < t.totalNoteTicks))
  {
    if s.time < t.totalNoteTicks {
      VoicesUpToTtnu(t, Started(t, s), 11);
    }
  }

  /** In a non-terminal update each instrument, volume and note cursor moves
      past exactly one event when that event's time has come, and otherwise
      stays; the pitch cursors never move. */
  lemma StepCursors(t: Tracks, s: Playback)
    requires t.Valid() && s.Valid() && s.time < t.totalNoteTicks
    ensures var r, now := Step(t, s).state, Started(t, s);
      forall k, u | 0 <= k < 4 && 0 <= u < 11 ::
        r.cursor[k][u] == if k < 3 && Due(t, now, k, u) then s.cursor[k][u] + 1 else s.cursor[k][u]
  {
    VoicesUpToCursors(t, Started(t, s), 11);
  }

  /** A due instrument event binds the bank entry under its upper-cased
      name; an event naming no entry binds nothing, and the voice keeps the
      instrument it had. Voices without a due instrument event keep theirs. */
  lemma StepBindings(t: Tracks, s: Playback)
    requires t.Valid() && s.Valid() && s.time < t.totalNoteTicks
    ensures var r, now := Step(t, s).state, Started(t, s);
      forall u | 0 <= u < 11 ::
        r.bound[u] ==
          if Due(t, now, InstrumentRow, u)
             && ToUpperCase(t.instruments[u][s.cursor[InstrumentRow][u]].instrumentName) in t.bank
          then Some(t.bank[ToUpperCase(t.instruments[u][s.cursor[InstrumentRow][u]].instrumentName)])
          else s.bound[u]
  {
    VoicesUpToCursors(t, Started(t, s), 11);
  }

  /** The new timeToNextUpdate is the minimum of the song length and the
      distances to the events now at the cursors that lie ahead: no such
      event is nearer, and unless it is the song length some event lies at
      exactly that distance. Hence a true result means an event lies ahead
      at that distance. */
  lemma StepSchedulesNearest(t: Tracks, s: Playback)
    requires t.Valid() && s.Valid() && s.time < t.totalNoteTicks
    ensures var r := Step(t, s);
      && (forall k, u | 0 <= k < 3 && 0 <= u < 11 && Pending(t, r.state, k, u) :: r.state.ttnu <= Delta(t, r.state, k, u))
      && (r.state.ttnu == t.totalNoteTicks
          || exists k, u | 0 <= k < 3 && 0 <= u < 11 :: Pending(t, r.state, k, u) && r.state.ttnu == Delta(t, r.state, k, u))
      && (r.more ==> exists k, u | 0 <= k < 3 && 0 <= u < 11 :: Pending(t, r.state, k, u) && r.state.ttnu == Delta(t, r.state, k, u))
  {
    VoicesUpToTtnu(t, Started(t, s), 11);
  }

  /** A due note 0 releases the note of the previous event of the track:
      key-off, then that note again with key-on clear when it is a real
      note. When the note 0 is the first event of its track the previous
      event is itself, so only the key-off is written. */
  lemma NoteZeroReleasesPrevious(t: Tracks, v: nat, events: seq<NoteEvent>, idx: nat)
    requires idx < |events| && events[idx].note == 0
    ensures idx > 0 ==>
      (NoteWrites(t, v, events, idx)
       == KeyOffWrites(v) + (if events[idx - 1].note > 0
                             then PlayNoteWrites(v, events[idx - 1].note, false, t.fNumOf(events[idx - 1].note))
                             else []))
    ensures idx == 0 ==> NoteWrites(t, v, events, idx) == KeyOffWrites(v)
  {
  }

  /** No cursor lies beyond the end of its track. */
  predicate CursorsInRange(t: Tracks, s: Playback)
    requires t.Valid() && s.Valid()
  {
    forall k, u | 0 <= k < 3 && 0 <= u < 11 :: s.cursor[k][u] <= t.Length(k, u)
  }

  /** update keeps every cursor within its track. */
  lemma StepKeepsCursorsInRange(t: Tracks, s: Playback)
    requires t.Valid() && s.Valid() && CursorsInRange(t, s)
    ensures CursorsInRange(t, Step(t, s).state)
  {
    if s.time < t.totalNoteTicks {
      StepCursors(t, s);
    }
  }

  /** n calls of update in a row. */
  function Steps(t: Tracks, s: Playback, n: nat): (r: Playback)
    requires t.Valid() && s.Valid()
    ensures r.Valid()
    decreases n
  {
    if n == 0 then s else Steps(t, Step(t, s).state, n - 1)
  }

  /** Cursors only move forward: an event once passed is never served again. */
  lemma {:induction false} CursorsNeverMoveBack(t: Tracks, s: Playback, n: nat)
    requires t.Valid() && s.Valid()
    ensures forall k, u | 0 <= k < 4 && 0 <= u < 11 :: s.cursor[k][u] <= Steps(t, s, n).cursor[k][u]
    decreases n
  {
    if n > 0 {
      var r := Step(t, s).state;
      if s.time < t.totalNoteTicks {
        StepCursors(t, s);
      } else {
        StepTiming(t, s);
      }
      CursorsNeverMoveBack(t, r, n - 1);
    }
  }

  /** From a state that is finished or has something scheduled, n updates
      bring the time to the song's end or n ticks further. */
  lemma {:induction false} StepsAdvanceTime(t: Tracks, s: Playback, n: nat)
    requires t.Valid() && s.Valid()
    requires s.time >= t.totalNoteTicks || s.ttnu >= 1
    ensures Steps(t, s, n).time >= s.time
    ensures Steps(t, s, n).time >= t.totalNoteTicks || Steps(t, s, n).time >= s.time + n
    decreases n
  {
    if n > 0 {
      StepTiming(t, s);
      StepsAdvanceTime(t, Step(t, s).state, n - 1);
    }
  }

  /** Playback ends: after totalNoteTicks + 1 updates the time has reached
      the song's end, so every later update returns false and changes
      nothing. */
  lemma PlaybackEnds(t: Tracks, s: Playback)
    requires t.Valid() && s.Valid()
    ensures Steps(t, s, t.totalNoteTicks + 1).time >= t.totalNoteTicks
  {
    StepTiming(t, s);
    StepsAdvanceTime(t, Step(t, s).state, t.totalNoteTicks);
  }

  /** A voice none of whose three tracks has an event. */
  predicate Silent(t: Tracks, v: nat)
    requires t.Valid() && v < 11
  {
    |t.notes[v]| == 0 && |t.volumes[v]| == 0 && |t.instruments[v]| == 0
  }

  /** Serving a voice without events changes nothing and writes nothing. */
  lemma SilentVoiceStep(t: Tracks, v: nat, s: Playback)
    requires t.Valid() && s.Valid() && v < 11 && Silent(t, v)
    ensures VoiceStep(t, v, s) == Outcome(s, [])
  {
    assert InstrumentStep(t, v, s) == Outcome(s, []);
    assert VolumeStep(t, v, s) == Outcome(s, []);
  }

  /** Serving voices without events changes nothing and writes nothing. */
  lemma {:induction false} SilentVoicesChangeNothing(t: Tracks, s: Playback, m: nat, n: nat)
    requires t.Valid() && s.Valid() && m <= n <= 11
    requires forall u | m <= u < n :: Silent(t, u)
    ensures VoicesUpTo(t, s, n) == VoicesUpTo(t, s, m)
    decreases n
  {
    if m < n {
      SilentVoicesChangeNothing(t, s, m, n - 1);
      var first := VoicesUpTo(t, s, n - 1);
      SilentVoiceStep(t, n - 1, first.state);
      assert first.writes + [] == first.writes;
    }
  }

  /** A song whose only voice 0 plays note 60 from tick 0 and releases it
      at tick 100, with a song length of 100. */
  function SingleNoteTracks(bank: map<string, Instrument>, fNumOf: int -> bv32, volumeOf: nat -> int): (t: Tracks)
    ensures t.Valid()
  {
    Tracks([[NoteEvent(0, 60, 100), NoteEvent(100, 0, 0)]] + seq(10, _ => []),
           seq(11, _ => []), seq(11, _ => []), 100, bank, fNumOf, volumeOf)
  }

  /** The single-note song has no events but voice 0's notes. */
  lemma SingleNoteSilence(bank: map<string, Instrument>, fNumOf: int -> bv32, volumeOf: nat -> int)
    ensures forall u | 1 <= u < 11 :: Silent(SingleNoteTracks(bank, fNumOf, volumeOf), u)
    ensures |SingleNoteTracks(bank, fNumOf, volumeOf).instruments[0]| == 0
    ensures |SingleNoteTracks(bank, fNumOf, volumeOf).volumes[0]| == 0
  {
  }

  /** Serving the voices of a song whose only events are voice 0's notes,
      when its note is due: the note is dispatched and nothing else happens. */
  lemma SingleNoteVoice(t: Tracks, a: Playback)
    requires t.Valid() && a.Valid() && |t.instruments[0]| == 0 && |t.volumes[0]| == 0
    requires forall u | 1 <= u < 11 :: Silent(t, u)
    requires Due(t, a, NoteRow, 0)
    ensures VoicesUpTo(t, a, 11) == NoteStep(t, 0, a)
  {
    SilentVoicesChangeNothing(t, a, 1, 11);
    assert InstrumentStep(t, 0, a) == Outcome(a, []);
    assert VolumeStep(t, 0, a) == Outcome(a, []);
    assert VoiceStep(t, 0, a).writes == NoteStep(t, 0, a).writes;
    assert VoicesUpTo(t, a, 1).writes == [] + VoiceStep(t, 0, a).writes;
  }

  /** The first update plays note 60 and, the release at tick 100 being no
      closer than the song length, returns false with timeToNextUpdate 100. */
  lemma SingleNoteFirstUpdate(bank: map<string, Instrument>, fNumOf: int -> bv32, volumeOf: nat -> int)
    ensures var t := SingleNoteTracks(bank, fNumOf, volumeOf);
      var r1 := Step(t, Initial());
      && r1.writes == PlayNoteWrites(0, 60, true, fNumOf(60)) && !r1.more
      && r1.state.time == 0 && r1.state.ttnu == 100 && r1.state.cursor[NoteRow][0] == 1
  {
    var t := SingleNoteTracks(bank, fNumOf, volumeOf);
    var a := Started(t, Initial());
    assert Due(t, a, NoteRow, 0);
    SingleNoteSilence(bank, fNumOf, volumeOf);
    SingleNoteVoice(t, a);
    assert NoteWrites(t, 0, t.notes[0], 0) == PlayNoteWrites(0, 60, true, fNumOf(60));
  }

  /** From there the second update, at tick 100, releases note 60 and
      returns false, and the third does nothing. */
  lemma SingleNoteSecondUpdate(bank: map<string, Instrument>, fNumOf: int -> bv32, volumeOf: nat -> int, s: Playback)
    requires s.Valid() && s.time == 0 && s.ttnu == 100 && s.cursor[NoteRow][0] == 1
    ensures var t := SingleNoteTracks(bank, fNumOf, volumeOf);
      var r2 := Step(t, s);
      && r2.writes == ReleaseNoteWrites(0, 60, fNumOf(60)) && !r2.more
      && r2.state.time == 100
      && Step(t, r2.state) == StepResult(r2.state, [], false)
  {
    var t := SingleNoteTracks(bank, fNumOf, volumeOf);
    var b := Started(t, s);
    assert Due(t, b, NoteRow, 0);
    SingleNoteSilence(bank, fNumOf, volumeOf);
    SingleNoteVoice(t, b);
    assert NoteWrites(t, 0, t.notes[0], 1) == ReleaseNoteWrites(0, 60, fNumOf(60));
  }

  /** The whole playback of the single-note song. */
  lemma SingleNotePlayback(bank: map<string, Instrument>, fNumOf: int -> bv32, volumeOf: nat -> int)
    ensures var t := SingleNoteTracks(bank, fNumOf, volumeOf);
      var r1 := Step(t, Initial());
      var r2 := Step(t, r1.state);
      && r1.writes == PlayNoteWrites(0, 60, true, fNumOf(60)) && !r1.more && r1.state.ttnu == 100
      && r2.writes == ReleaseNoteWrites(0, 60, fNumOf(60)) && !r2.more && r2.state.time == 100
      && Step(t, r2.state) == StepResult(r2.state, [], false)
  {
    SingleNoteFirstUpdate(bank, fNumOf, volumeOf);
    SingleNoteSecondUpdate(bank, fNumOf, volumeOf, Step(SingleNoteTracks(bank, fNumOf, volumeOf), Initial()).state);
  }
}
