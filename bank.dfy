/** The AdLib BNK instrument bank: the packing of each operator's raw fields
    into OPL2 register bytes, and the decoder that walks the index records
    (decodeInstruments, format/rol.js:58-156). */
module Bank {
  import opened Wrappers
  import opened Binary

  /** Twelve register bytes: even indices belong to the modulator, odd ones to
      the carrier, for the registers 0x20, 0x40, 0x60, 0x80 and 0xE0; bytes 10
      and 11 are the feedback/connection bytes for register 0xC0. */
  type Instrument = s: seq<bv8> | |s| == 12 witness [0, 0, 0, 0, 0, 0, 0, 0, 0, 0, 0, 0]

  /** The thirteen raw bytes of one operator, in file order. */
  datatype Operator = Operator(
    keyScalingLevel: bv8, frequencyMultiplier: bv8, feedback: bv8, attack: bv8,
    sustain: bv8, egType: bv8, decay: bv8, release: bv8, totalLevel: bv8,
    amplitudeVibrato: bv8, frequencyVibrato: bv8, keyScalingRate: bv8, connection: bv8)

  function OperatorAt(data: seq<bv8>, o: nat): Operator
    requires o + 13 <= |data|
  {
    Operator(data[o], data[o + 1], data[o + 2], data[o + 3], data[o + 4], data[o + 5], data[o + 6],
             data[o + 7], data[o + 8], data[o + 9], data[o + 10], data[o + 11], data[o + 12])
  }

  // Every mask below keeps bits of the low byte only, so computing in 8 bits
  // gives the same value as the source's 32-bit operators.

  /** Register 0x20: AM, vibrato, EG type, KSR and frequency multiplier. */
  function Characteristic(op: Operator): bv8 {
    (op.frequencyMultiplier & 0x0F) | ((op.keyScalingRate << 4) & 0x10) | ((op.egType << 5) & 0x20)
      | ((op.frequencyVibrato << 6) & 0x40) | ((op.amplitudeVibrato << 7) & 0x80)
  }

  /** Register 0x40: key scaling level and total level. */
  function Level(op: Operator): bv8 {
    (op.totalLevel & 0x3F) | ((op.keyScalingLevel << 6) & 0xC0)
  }

  /** Register 0x60: attack rate and decay rate. */
  function AttackDecay(op: Operator): bv8 {
    ((op.attack << 4) & 0xF0) | (op.decay & 0x0F)
  }

  /** Register 0x80: sustain level and release rate. */
  function SustainRelease(op: Operator): bv8 {
    ((op.sustain << 4) & 0xF0) | (op.release & 0x0F)
  }

  /** Register 0xC0: feedback and the inverted connection bit. */
  function FeedbackConnection(op: Operator): bv8 {
    ((op.feedback << 1) & 0x0E) | ((op.connection ^ 0x01) & 0x01)
  }

  /** The characteristic byte holds the multiplier in bits 0-3, KSR in bit 4,
      EG type in bit 5, vibrato in bit 6 and AM in bit 7; as a number it is the
      sum of those fields at their weights, hence below 256. */
  lemma CharacteristicFields(op: Operator)
    ensures var b := Characteristic(op);
      && b & 0x0F == op.frequencyMultiplier & 0x0F
      && (b >> 4) & 1 == op.keyScalingRate & 1
      && (b >> 5) & 1 == op.egType & 1
      && (b >> 6) & 1 == op.frequencyVibrato & 1
      && b >> 7 == op.amplitudeVibrato & 1
    ensures Characteristic(op) as int ==
      (op.frequencyMultiplier & 0x0F) as int + 0x10 * (op.keyScalingRate & 1) as int
      + 0x20 * (op.egType & 1) as int + 0x40 * (op.frequencyVibrato & 1) as int
      + 0x80 * (op.amplitudeVibrato & 1) as int
  {
    BitsAsSum(Characteristic(op));
  }

  /** The level byte holds the total level in bits 0-5 and the key scaling
      level in bits 6-7. */
  lemma LevelFields(op: Operator)
    ensures Level(op) & 0x3F == op.totalLevel & 0x3F
    ensures Level(op) >> 6 == op.keyScalingLevel & 3
    ensures Level(op) as int == (op.totalLevel & 0x3F) as int + 0x40 * (op.keyScalingLevel & 3) as int
  {
    BitsAsSum(Level(op));
  }

  /** Attack in the high nibble, decay in the low one; sustain in the high
      nibble, release in the low one. */
  lemma NibbleFields(op: Operator)
    ensures AttackDecay(op) >> 4 == op.attack & 0x0F && AttackDecay(op) & 0x0F == op.decay & 0x0F
    ensures SustainRelease(op) >> 4 == op.sustain & 0x0F && SustainRelease(op) & 0x0F == op.release & 0x0F
  {
  }

  /** Feedback in bits 1-3, the inverted low bit of the connection byte in
      bit 0, bits 4-7 clear. */
  lemma FeedbackConnectionFields(op: Operator)
    ensures (FeedbackConnection(op) >> 1) & 7 == op.feedback & 7
    ensures FeedbackConnection(op) & 1 == 1 - (op.connection & 1)
    ensures FeedbackConnection(op) >> 4 == 0
  {
  }

  lemma BitsAsSum(b: bv8)
    ensures b as int == (b & 0x0F) as int + 0x10 * ((b >> 4) & 1) as int + 0x20 * ((b >> 5) & 1) as int
      + 0x40 * ((b >> 6) & 1) as int + 0x80 * (b >> 7) as int
    ensures b as int == (b & 0x3F) as int + 0x40 * (b >> 6) as int
  {
  }

  /** Every byte is the characteristic byte of the operator whose fields are
      read back from it: packing loses nothing inside the masks. */
  lemma CharacteristicOnto(b: bv8, op: Operator)
    requires op.frequencyMultiplier == b & 0x0F && op.keyScalingRate == (b >> 4) & 1
    requires op.egType == (b >> 5) & 1 && op.frequencyVibrato == (b >> 6) & 1
    requires op.amplitudeVibrato == b >> 7
    ensures Characteristic(op) == b
  {
  }

  /** The 12-byte register block of one bank entry. */
  function PackInstrument(modulator: Operator, carrier: Operator, wave0: bv8, wave1: bv8): Instrument {
    [Characteristic(modulator), Characteristic(carrier), Level(modulator), Level(carrier),
     AttackDecay(modulator), AttackDecay(carrier), SustainRelease(modulator), SustainRelease(carrier),
     wave0, wave1, FeedbackConnection(modulator), FeedbackConnection(carrier)]
  }

  /** The canonical instrument with attack 15, decay 0, sustain 0 and release 5
      on both operators has attack/decay bytes 0xF0 and sustain/release bytes 0x05. */
  lemma CanonicalEnvelope(modulator: Operator, carrier: Operator, wave0: bv8, wave1: bv8)
    requires modulator.attack == carrier.attack == 15 && modulator.decay == carrier.decay == 0
    requires modulator.sustain == carrier.sustain == 0 && modulator.release == carrier.release == 5
    ensures var r := PackInstrument(modulator, carrier, wave0, wave1);
      r[4] == r[5] == 0xF0 && r[6] == r[7] == 0x05
  {
  }

  /** An instrument record of 30 bytes: percussive flag, voice number (both
      unused), modulator fields, carrier fields, two wave-select bytes. */
  function InstrumentAt(data: seq<bv8>, io: nat): Instrument
    requires io + 0x1E <= |data|
  {
    PackInstrument(OperatorAt(data, io + 2), OperatorAt(data, io + 15), data[io + 28], data[io + 29])
  }

  /** Where the thirteen record bytes of one operator, starting at o, land in
      an instrument: k is 0 for the modulator and 1 for the carrier, whose
      bytes sit at ins[k] (0x20), ins[k + 2] (0x40), ins[k + 4] (0x60),
      ins[k + 6] (0x80) and ins[k + 10] (0xC0). */
  predicate OperatorLaidOut(ins: Instrument, k: nat, data: seq<bv8>, o: nat)
    requires k < 2 && o + 13 <= |data|
  {
    // 0x20: multiplier, KSR, EG type, vibrato, AM
    && ins[k] & 0x0F == data[o + 1] & 0x0F
    && (ins[k] >> 4) & 1 == data[o + 11] & 1
    && (ins[k] >> 5) & 1 == data[o + 5] & 1
    && (ins[k] >> 6) & 1 == data[o + 10] & 1
    && ins[k] >> 7 == data[o + 9] & 1
    // 0x40: total level, key scaling level
    && ins[k + 2] & 0x3F == data[o + 8] & 0x3F
    && ins[k + 2] >> 6 == data[o] & 3
    // 0x60: attack, decay
    && ins[k + 4] >> 4 == data[o + 3] & 0x0F
    && ins[k + 4] & 0x0F == data[o + 6] & 0x0F
    // 0x80: sustain, release
    && ins[k + 6] >> 4 == data[o + 4] & 0x0F
    && ins[k + 6] & 0x0F == data[o + 7] & 0x0F
    // 0xC0: feedback, inverted connection, nothing above
    && ins[k + 10] >> 4 == 0
    && (ins[k + 10] >> 1) & 7 == data[o + 2] & 7
    && ins[k + 10] & 1 == (data[o + 12] & 1) ^ 1
  }

  /** The layout of a whole 30-byte instrument record: the modulator from
      its third byte, the carrier from its sixteenth, the wave selects last. */
  predicate InstrumentLaidOut(ins: Instrument, data: seq<bv8>, io: nat)
    requires io + 0x1E <= |data|
  {
    && OperatorLaidOut(ins, 0, data, io + 2)
    && OperatorLaidOut(ins, 1, data, io + 15)
    && ins[8] == data[io + 28] && ins[9] == data[io + 29]
  }

  /** The packed instrument record follows the layout. */
  lemma OperatorPackedLaidOut(ins: Instrument, k: nat, data: seq<bv8>, o: nat)
    requires k < 2 && o + 13 <= |data|
    requires var op := OperatorAt(data, o);
      && ins[k] == Characteristic(op) && ins[k + 2] == Level(op) && ins[k + 4] == AttackDecay(op)
      && ins[k + 6] == SustainRelease(op) && ins[k + 10] == FeedbackConnection(op)
    ensures OperatorLaidOut(ins, k, data, o)
  {
    var op := OperatorAt(data, o);
    CharacteristicFields(op);
    LevelFields(op);
    NibbleFields(op);
    FeedbackConnectionFields(op);
  }

  /** The instrument packed from a record is laid out from it. */
  lemma InstrumentAtLaidOut(data: seq<bv8>, io: nat)
    requires io + 0x1E <= |data|
    ensures InstrumentLaidOut(InstrumentAt(data, io), data, io)
  {
    OperatorPackedLaidOut(InstrumentAt(data, io), 0, data, io + 2);
    OperatorPackedLaidOut(InstrumentAt(data, io), 1, data, io + 15);
  }

  /** The layout leaves no bit of the twelve register bytes free: two
      instruments laid out from the same record are equal. */
  lemma LaidOutUnique(a: Instrument, b: Instrument, data: seq<bv8>, io: nat)
    requires io + 0x1E <= |data|
    requires InstrumentLaidOut(a, data, io) && InstrumentLaidOut(b, data, io)
    ensures a == b
  {
    forall j | 0 <= j < 12
      ensures a[j] == b[j]
    {
      var x, y := a[j], b[j];
      if j < 2 {
        assert x & 0x0F == y & 0x0F && (x >> 4) & 1 == (y >> 4) & 1 && (x >> 5) & 1 == (y >> 5) & 1;
        assert (x >> 6) & 1 == (y >> 6) & 1 && x >> 7 == y >> 7;
      } else if j < 4 {
        assert x & 0x3F == y & 0x3F && x >> 6 == y >> 6;
      } else if j < 8 {
        assert x & 0x0F == y & 0x0F && x >> 4 == y >> 4;
      } else if 10 <= j {
        assert x >> 4 == y >> 4 && (x >> 1) & 7 == (y >> 1) & 7 && x & 1 == y & 1;
      }
    }
  }

  /** One 12-byte index record: the instrument's index, its used flag, its
      name, and where its 30-byte instrument record starts. */
  datatype IndexRecord = IndexRecord(index: nat, usedFlag: bv8, name: string, dataAt: nat)

  /** Index record i: a 2-byte instrument index, a used flag and a name at
      0x1C + 12 * i; the instrument record at dataOffset + 30 * index. */
  function RecordAt(data: seq<bv8>, dataOffset: nat, i: nat): (r: Result<IndexRecord>)
    ensures r.Ok? ==> r.value.dataAt + 0x1E <= |data|
  {
    var offset := 0x1C + 12 * i;
    if offset + 3 > |data| then RangeError
    else match StringAt(data, offset + 3)
      case RangeError => RangeError
      case Ok(name) =>
        var index := U16(data, offset);
        var io := dataOffset + index * 0x1E;
        if io + 0x1E > |data| then RangeError
        else Ok(IndexRecord(index, data[offset + 2], name, io))
  }

  /** Where each name's instrument record lies after the first n index
      records; a later record replaces an earlier one of the same name. */
  function Locations(data: seq<bv8>, dataOffset: nat, n: nat): (r: Result<map<string, nat>>)
    ensures r.Ok? ==> forall k | k in r.value :: r.value[k] + 0x1E <= |data|
  {
    if n == 0 then Ok(map[])
    else match Locations(data, dataOffset, n - 1)
      case RangeError => RangeError
      case Ok(m) =>
        match RecordAt(data, dataOffset, n - 1)
        case RangeError => RangeError
        case Ok(rec) => Ok(m[rec.name := rec.dataAt])
  }

  /** The instruments stored under each name: the packed instrument record
      at that name's location. */
  function Instruments(data: seq<bv8>, locations: map<string, nat>): (m: map<string, Instrument>)
    requires forall k | k in locations :: locations[k] + 0x1E <= |data|
    ensures m.Keys == locations.Keys
  {
    map k | k in locations :: InstrumentAt(data, locations[k])
  }

  datatype BankFile = BankFile(
    majorVersion: bv8, minorVersion: bv8, numInstrumentsUsed: nat, numInstruments: nat,
    instrumentNamesOffset: nat, instrumentDataOffset: nat, instruments: map<string, Instrument>)

  /** The decoded bank: a 20-byte header read at fixed offsets, then one
      instrument per index record. */
  function BankOf(data: seq<bv8>): Result<BankFile> {
    if |data| < 0x14 then RangeError
    else
      var dataOffset := U32(data, 0x10);
      match Locations(data, dataOffset, U16(data, 0x0A))
      case RangeError => RangeError
      case Ok(locations) =>
        Ok(BankFile(data[0], data[1], U16(data, 0x08), U16(data, 0x0A), U32(data, 0x0C), dataOffset,
                    Instruments(data, locations)))
  }

  lemma {:induction false} LocationsFailOnward(data: seq<bv8>, dataOffset: nat, k: nat, n: nat)
    requires k <= n && Locations(data, dataOffset, k).RangeError?
    ensures Locations(data, dataOffset, n).RangeError?
    decreases n - k
  {
    if k < n {
      LocationsFailOnward(data, dataOffset, k + 1, n);
    }
  }

  lemma LocationsGrow(data: seq<bv8>, dataOffset: nat, i: nat, m: map<string, nat>, rec: IndexRecord)
    requires Locations(data, dataOffset, i) == Ok(m)
    requires RecordAt(data, dataOffset, i) == Ok(rec)
    ensures Locations(data, dataOffset, i + 1) == Ok(m[rec.name := rec.dataAt])
  {
  }

  lemma InstrumentsGrow(data: seq<bv8>, locations: map<string, nat>, name: string, io: nat)
    requires forall k | k in locations :: locations[k] + 0x1E <= |data|
    requires io + 0x1E <= |data|
    ensures Instruments(data, locations[name := io]) == Instruments(data, locations)[name := InstrumentAt(data, io)]
  {
  }

  /** One pass of the loop in decodeInstruments up to the instrument data:
      the index, the used flag, the name and the instrument record's offset,
      each read at the positions the index record prescribes. */
  method ReadIndexRecord(data: seq<bv8>, instrumentDataOffset: nat, offset: nat, ghost insNum: nat)
    returns (r: Result<IndexRecord>)
    requires offset == 0x1C + 12 * insNum
    ensures r == RecordAt(data, instrumentDataOffset, insNum)
  {
    if offset + 3 > |data| {
      return RangeError;
    }
    var instrumentIndex := U16(data, offset);
    var usedFlag := data[offset + 2];
    var instrumentName := LoadString(data, offset + 3);
    if instrumentName.RangeError? {
      return RangeError;
    }
    var instrumentOffset := instrumentDataOffset + instrumentIndex * 0x1E;
    if instrumentOffset + 0x1E > |data| {
      return RangeError;
    }
    r := Ok(IndexRecord(instrumentIndex, usedFlag, instrumentName.value, instrumentOffset));
  }

  /** The rest of the pass: the operator fields read from the 30-byte
      instrument record and packed into register bytes, each record byte
      landing in the register bits the layout gives it. */
  method ReadInstrument(data: seq<bv8>, instrumentOffset: nat) returns (instrument: Instrument)
    requires instrumentOffset + 0x1E <= |data|
    ensures InstrumentLaidOut(instrument, data, instrumentOffset)
    ensures instrument == InstrumentAt(data, instrumentOffset)
  {
    var modulator := OperatorAt(data, instrumentOffset + 2);
    var carrier := OperatorAt(data, instrumentOffset + 15);
    InstrumentAtLaidOut(data, instrumentOffset);
    instrument := PackInstrument(modulator, carrier, data[instrumentOffset + 28], data[instrumentOffset + 29]);
  }

  /** One whole pass of the loop in decodeInstruments: the index record,
      then the instrument it points at. */
  method ReadEntry(data: seq<bv8>, instrumentDataOffset: nat, offset: nat, ghost insNum: nat)
    returns (r: Result<(IndexRecord, Instrument)>)
    requires offset == 0x1C + 12 * insNum
    ensures r.RangeError? <==> RecordAt(data, instrumentDataOffset, insNum).RangeError?
    ensures r.Ok? ==> r.value.0 == RecordAt(data, instrumentDataOffset, insNum).value
    ensures r.Ok? ==> r.value.1 == InstrumentAt(data, r.value.0.dataAt)
  {
    var record := ReadIndexRecord(data, instrumentDataOffset, offset, insNum);
    if record.RangeError? {
      return RangeError;
    }
    var instrument := ReadInstrument(data, record.value.dataAt);
    r := Ok((record.value, instrument));
  }

  /** decodeInstruments: walk numInstruments index records from 0x1C,
      packing each instrument and storing it under its name. */
  method DecodeInstruments(data: seq<bv8>) returns (r: Result<BankFile>)
    ensures r == BankOf(data)
  {
    if |data| < 0x14 {
      return RangeError;
    }
    var numInstruments := U16(data, 0x0A);
    var instrumentDataOffset := U32(data, 0x10);
    var offset := 0x1C;
    var instruments: map<string, Instrument> := map[];
    ghost var locations: map<string, nat> := map[];
    var insNum := 0;
    while insNum < numInstruments
      invariant insNum <= numInstruments
      invariant offset == 0x1C + 12 * insNum
      invariant Locations(data, instrumentDataOffset, insNum) == Ok(locations)
      invariant instruments == Instruments(data, locations)
    {
      var entry := ReadEntry(data, instrumentDataOffset, offset, insNum);
      if entry.RangeError? {
        LocationsFailOnward(data, instrumentDataOffset, insNum + 1, numInstruments);
        return RangeError;
      }
      var (record, instrument) := entry.value;
      LocationsGrow(data, instrumentDataOffset, insNum, locations, record);
      InstrumentsGrow(data, locations, record.name, record.dataAt);
      instruments := instruments[record.name := instrument];
      locations := locations[record.name := record.dataAt];
      offset := offset + 12;
      insNum := insNum + 1;
    }
    r := Ok(BankFile(data[0], data[1], U16(data, 0x08), numInstruments, U32(data, 0x0C),
                     instrumentDataOffset, instruments));
  }

  /** Record i is the last of the first n records to carry its name. */
  predicate LastOfName(data: seq<bv8>, dataOffset: nat, n: nat, i: nat)
    requires RecordAt(data, dataOffset, i).Ok?
  {
    forall j | i < j < n ::
      !(RecordAt(data, dataOffset, j).Ok? && RecordAt(data, dataOffset, j).value.name == RecordAt(data, dataOffset, i).value.name)
  }

  /** A decoded prefix of n > 0 records is the prefix of n - 1 records with
      the last record's name set to its location. */
  lemma LocationsStep(data: seq<bv8>, dataOffset: nat, n: nat)
    requires n > 0 && Locations(data, dataOffset, n).Ok?
    ensures Locations(data, dataOffset, n - 1).Ok? && RecordAt(data, dataOffset, n - 1).Ok?
    ensures var rec := RecordAt(data, dataOffset, n - 1).value;
      Locations(data, dataOffset, n).value == Locations(data, dataOffset, n - 1).value[rec.name := rec.dataAt]
  {
  }

  /** Every record among the first n decodes when the locations do. */
  lemma {:induction false} LocationsRecordsDecode(data: seq<bv8>, dataOffset: nat, n: nat)
    requires Locations(data, dataOffset, n).Ok?
    ensures forall i | 0 <= i < n :: RecordAt(data, dataOffset, i).Ok?
  {
    if n > 0 {
      LocationsStep(data, dataOffset, n);
      LocationsRecordsDecode(data, dataOffset, n - 1);
    }
  }

  /** Every one of the first n records leaves its name in the locations. */
  lemma {:induction false} LocationsHaveRecordNames(data: seq<bv8>, dataOffset: nat, n: nat)
    requires Locations(data, dataOffset, n).Ok?
    ensures forall i | 0 <= i < n ::
      RecordAt(data, dataOffset, i).Ok? && RecordAt(data, dataOffset, i).value.name in Locations(data, dataOffset, n).value
  {
    if n > 0 {
      LocationsStep(data, dataOffset, n);
      LocationsHaveRecordNames(data, dataOffset, n - 1);
    }
  }

  /** Every name in the locations is the name of one of the first n records. */
  lemma {:induction false} LocationsNamesFromRecords(data: seq<bv8>, dataOffset: nat, n: nat, k: string)
    requires Locations(data, dataOffset, n).Ok? && k in Locations(data, dataOffset, n).value
    ensures exists i | 0 <= i < n :: RecordAt(data, dataOffset, i).Ok? && RecordAt(data, dataOffset, i).value.name == k
  {
    LocationsStep(data, dataOffset, n);
    if k != RecordAt(data, dataOffset, n - 1).value.name {
      LocationsNamesFromRecords(data, dataOffset, n - 1, k);
    }
  }

  /** Each name lies where the last record carrying it says. */
  lemma {:induction false} LocationOfLast(data: seq<bv8>, dataOffset: nat, n: nat, i: nat)
    requires Locations(data, dataOffset, n).Ok? && i < n
    requires RecordAt(data, dataOffset, i).Ok? && LastOfName(data, dataOffset, n, i)
    ensures RecordAt(data, dataOffset, i).value.name in Locations(data, dataOffset, n).value
    ensures Locations(data, dataOffset, n).value[RecordAt(data, dataOffset, i).value.name]
      == RecordAt(data, dataOffset, i).value.dataAt
  {
    LocationsStep(data, dataOffset, n);
    if i < n - 1 {
      assert LastOfName(data, dataOffset, n - 1, i);
      LocationOfLast(data, dataOffset, n - 1, i);
    }
  }

  /** The decoded bank: its names are exactly those of the numInstruments
      index records, and each maps to the instrument packed from the 30-byte
      record of the last index record with that name. */
  lemma BankContents(data: seq<bv8>)
    requires BankOf(data).Ok?
    ensures var bank := BankOf(data).value;
      var n := bank.numInstruments;
      var dataOffset := bank.instrumentDataOffset;
      && (forall i | 0 <= i < n :: RecordAt(data, dataOffset, i).Ok?)
      && (forall k :: k in bank.instruments <==>
            exists i | 0 <= i < n :: RecordAt(data, dataOffset, i).value.name == k)
      && (forall i | 0 <= i < n && LastOfName(data, dataOffset, n, i) ::
            bank.instruments[RecordAt(data, dataOffset, i).value.name]
              == InstrumentAt(data, RecordAt(data, dataOffset, i).value.dataAt))
  {
    var bank := BankOf(data).value;
    var n, dataOffset := bank.numInstruments, bank.instrumentDataOffset;
    LocationsHaveRecordNames(data, dataOffset, n);
    forall i | 0 <= i < n && LastOfName(data, dataOffset, n, i)
      ensures bank.instruments[RecordAt(data, dataOffset, i).value.name]
        == InstrumentAt(data, RecordAt(data, dataOffset, i).value.dataAt)
    {
      LocationOfLast(data, dataOffset, n, i);
    }
    forall k | k in bank.instruments
      ensures exists i | 0 <= i < n :: RecordAt(data, dataOffset, i).value.name == k
    {
      LocationsNamesFromRecords(data, dataOffset, n, k);
    }
  }

  /** Record i lies 12 * i bytes after 0x1C, its name is read from its fourth
      byte, and its instrument record lies at dataOffset + 30 * index. */
  lemma RecordLayout(data: seq<bv8>, dataOffset: nat, i: nat)
    requires RecordAt(data, dataOffset, i).Ok?
    ensures var rec := RecordAt(data, dataOffset, i).value;
      var offset := 0x1C + 12 * i;
      && offset + 3 < |data|
      && rec.index == U16(data, offset) && rec.usedFlag == data[offset + 2]
      && StringAt(data, offset + 3) == Ok(rec.name)
      && rec.dataAt == dataOffset + rec.index * 0x1E
      && rec.dataAt + 0x1E <= |data|
  {
    StringAtIsPrefixBeforeNul(data, 0x1C + 12 * i + 3);
  }
}
