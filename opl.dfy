/** The OPL2 (YM3812) register writers of format/rol.js:158-235. The chip is
    seen only through the writes it receives, so every writer is the list of
    writes it issues, in order; Replay folds such a list into a register file
    to state what the chip holds afterwards. */
module Opl {
  import opened Wrappers
  import opened Bank

  /** A register address. JavaScript computes `regbase + op_num[channel]`,
      and op_num has nine entries: for channels 9 and 10 the sum is NaN,
      which names no register. */
  datatype Reg = At(address: int) | Undefined

  /** One call of opl.write(bank, register, value). */
  datatype Write = Write(bank: nat, reg: Reg, value: int)

  /** Operator offset of each of the nine two-operator channels (op_num). */
  const OpNum: seq<int> := [0x00, 0x01, 0x02, 0x08, 0x09, 0x0A, 0x10, 0x11, 0x12]

  type VolumeEntry = x: int | 0 <= x <= 127

  /** The volume curve (volumetable): 128 entries rising from 0 to 127,
      kept in the source's rows of eight. */
  const VolumeRows: seq<seq<VolumeEntry>> := [
    [0, 1, 3, 5, 6, 8, 10, 11],
    [13, 14, 16, 17, 19, 20, 22, 23],
    [25, 26, 27, 29, 30, 32, 33, 34],
    [36, 37, 39, 41, 43, 45, 47, 49],
    [50, 52, 54, 55, 57, 59, 60, 61],
    [63, 64, 66, 67, 68, 69, 71, 72],
    [73, 74, 75, 76, 77, 79, 80, 81],
    [82, 83, 84, 84, 85, 86, 87, 88],
    [89, 90, 91, 92, 92, 93, 94, 95],
    [96, 96, 97, 98, 99, 99, 100, 101],
    [101, 102, 103, 103, 104, 105, 105, 106],
    [107, 107, 108, 109, 109, 110, 110, 111],
    [112, 112, 113, 113, 114, 114, 115, 115],
    [116, 117, 117, 118, 118, 119, 119, 120],
    [120, 121, 121, 122, 122, 123, 123, 123],
    [124, 124, 125, 125, 126, 126, 127, 127]]

  /** Entry k of the volume curve. */
  function VolumeTable(k: nat): VolumeEntry
    requires k < 128
  {
    assert |VolumeRows| == 16 && |VolumeRows[k / 8]| == 8;
    VolumeRows[k / 8][k % 8]
  }

  /** oplWriteReg: a write to the first register bank. */
  function RegWrite(reg: int, data: int): (w: Write)
    ensures w.bank == 0 && w.reg.At? && w.reg.address == reg && w.value == data
  {
    Write(0, At(reg), data)
  }

  /** The register of the channel's first operator, if the channel has one. */
  function OperatorReg(regbase: int, channel: nat): (r: Reg)
    ensures r.At? <==> channel < 9
    ensures r.At? ==> regbase <= r.address <= regbase + 0x12
  {
    if channel < |OpNum| then At(regbase + OpNum[channel]) else Undefined
  }

  /** The register three above: the channel's second operator (NaN + 3 is NaN). */
  function Plus3(r: Reg): (s: Reg)
    ensures s.At? <==> r.At?
    ensures s.At? ==> s.address == r.address + 3
  {
    match r
    case At(a) => At(a + 3)
    case Undefined => Undefined
  }

  /** oplWriteChannel: data1 to the first operator, data2 to the second. */
  function ChannelWrites(regbase: int, channel: nat, data1: int, data2: int): (ws: seq<Write>)
    ensures |ws| == 2 && ws[0].value == data1 && ws[1].value == data2
    ensures ws[0].bank == ws[1].bank == 0
    ensures channel < 9 <==> ws[0].reg.At? && ws[1].reg.At?
    ensures channel < 9 ==> ws[1].reg.address == ws[0].reg.address + 3
  {
    var reg := OperatorReg(regbase, channel);
    [Write(0, reg, data1), Write(0, Plus3(reg), data2)]
  }

  /** oplWriteValue: one write to regbase + channel. */
  function ValueWrite(regbase: int, channel: nat, value: int): Write {
    RegWrite(regbase + channel, value)
  }

  /** oplConvertVolume: the attenuation `data` (0 loudest, 0x3F silent)
      scaled towards silence by the volume curve. `>> 7` of a non-negative
      32-bit value is division by 128. A volume above 127 reads entry 127; a
      negative volume reads past the start of the table, the product is NaN,
      NaN >> 7 is 0, and the result is 0x3F. */
  function ConvertVolume(data: nat, volume: int): (r: int)
    requires data <= 0x3F
    ensures data <= r <= 0x3F
  {
    if volume < 0 then 0x3F
    else
      var entry := VolumeTable(if volume <= 127 then volume else 127);
      ScaleBound(0x3F - data, entry);
      0x3F - ((0x3F - data) * entry) / 128
  }

  lemma ScaleBound(d: nat, entry: nat)
    requires entry <= 127
    ensures 0 <= (d * entry) / 128 <= d
  {
    assert d * entry <= d * 128;
  }

  /** Volume 0 (and the NaN read for a negative volume) leaves the
      attenuation at its maximum, 0x3F. */
  lemma ConvertVolumeSilent(data: nat, volume: int)
    requires data <= 0x3F && volume <= 0
    ensures ConvertVolume(data, volume) == 0x3F
  {
    assert VolumeTable(0) == 0;
  }

  /** Volumes above 127 act as 127. */
  lemma ConvertVolumeClamps(data: nat, volume: int)
    requires data <= 0x3F && volume >= 127
    ensures ConvertVolume(data, volume) == ConvertVolume(data, 127)
  {
  }

  /** Full volume raises every attenuation below 0x3F by exactly one step. */
  lemma ConvertVolumeFull(data: nat)
    requires data <= 0x3F
    ensures ConvertVolume(data, 127) == (if data == 0x3F then 0x3F else data + 1)
  {
    var d := 0x3F - data;
    assert VolumeTable(127) == 127;
    assert (d * 127) / 128 == d - 1 || d == 0 by {
      if d > 0 {
        assert d * 127 == 128 * (d - 1) + (128 - d);
      }
    }
  }

  /** One operator's level byte under a volume: the total level (bits 0-5)
      scaled when `scaled` holds, the key-scaling bits (6-7) kept. The two
      parts occupy disjoint bits, so the source's `|` is their sum. */
  function ScaledLevel(level: bv8, volume: int, scaled: bool): int {
    (if scaled then ConvertVolume((level & 0x3F) as nat, volume) else (level & 0x3F) as int) + (level & 0xC0) as int
  }

  /** The scaled byte keeps the key-scaling level above bit 6, holds the
      converted (or unchanged) total level below it, and is a byte. */
  lemma ScaledLevelFields(level: bv8, volume: int, scaled: bool)
    ensures var v := ScaledLevel(level, volume, scaled);
      && 0 <= v < 0x100
      && v / 64 == (level >> 6) as int
      && v % 64 == (if scaled then ConvertVolume((level & 0x3F) as nat, volume) else (level & 0x3F) as int)
  {
    BitsAsSum(level);
    assert (level & 0xC0) as int == 64 * (level >> 6) as int;
    assert (level & 0x3F) as int < 64;
  }

  /** oplWriteVolume: nothing without a bound instrument; otherwise both
      level registers, the carrier scaled always and the modulator only in
      additive mode (connection bit set). */
  function VolumeWrites(channel: nat, instr: Option<Instrument>, volume: int): (ws: seq<Write>)
    ensures instr.None? <==> ws == []
    ensures instr.Some? ==> |ws| == 2 && ws == ChannelWrites(0x40, channel, ws[0].value, ws[1].value)
  {
    match instr
    case None => []
    case Some(i) =>
      ChannelWrites(0x40, channel, ScaledLevel(i[2], volume, i[10] & 1 == 1), ScaledLevel(i[3], volume, true))
  }

  /** The level written for each operator keeps the instrument's key-scaling
      bits and replaces its total level: by the scaled one for the carrier,
      and for the modulator only when the connection bit is set. */
  lemma VolumeWritesLevels(channel: nat, i: Instrument, volume: int)
    ensures var ws := VolumeWrites(channel, Some(i), volume);
      && 0 <= ws[0].value < 0x100 && 0 <= ws[1].value < 0x100
      && ws[0].value / 64 == (i[2] >> 6) as int
      && ws[1].value / 64 == (i[3] >> 6) as int
      && ws[0].value % 64 == (if i[10] & 1 == 1 then ConvertVolume((i[2] & 0x3F) as nat, volume) else (i[2] & 0x3F) as int)
      && ws[1].value % 64 == ConvertVolume((i[3] & 0x3F) as nat, volume)
  {
    ScaledLevelFields(i[2], volume, i[10] & 1 == 1);
    ScaledLevelFields(i[3], volume, true);
  }

  /** Volume 0 leaves the carrier at full attenuation, whatever the
      instrument's own total level. */
  lemma ZeroVolumeSilencesCarrier(channel: nat, i: Instrument)
    ensures VolumeWrites(channel, Some(i), 0)[1].value % 64 == 0x3F
  {
    VolumeWritesLevels(channel, i, 0);
    ConvertVolumeSilent((i[3] & 0x3F) as nat, 0);
  }

  /** oplWriteInstrument: the five operator register pairs, then the
      feedback/connection register with both output bits (0x30) set. */
  function InstrumentWrites(channel: nat, i: Instrument): seq<Write> {
    ChannelWrites(0x20, channel, i[0] as int, i[1] as int)
    + ChannelWrites(0x40, channel, i[2] as int, i[3] as int)
    + ChannelWrites(0x60, channel, i[4] as int, i[5] as int)
    + ChannelWrites(0x80, channel, i[6] as int, i[7] as int)
    + ChannelWrites(0xE0, channel, i[8] as int, i[9] as int)
    + [ValueWrite(0xC0, channel, (i[10] | 0x30) as int)]
  }

  /** oplKeyOff. */
  function KeyOffWrites(voice: nat): seq<Write> {
    [RegWrite(0xB0 + voice, 0)]
  }

  /** The octave block of a note: floor((note - 19) / 12) held to 0..7. */
  function Block(note: int): (b: int)
    ensures 0 <= b <= 7
  {
    var b := (note - 19) / 12;
    if b < 0 then 0 else if b > 7 then 7 else b
  }

  /** Notes below 31 share block 0, notes from 103 share block 7, and in
      between every twelve notes (an octave) open the next block. */
  lemma BlockOctaves(note: int)
    ensures Block(note) == 0 <==> note < 31
    ensures Block(note) == 7 <==> note >= 103
    ensures 31 <= note < 103 ==> 19 + 12 * Block(note) <= note < 31 + 12 * Block(note)
    ensures 31 <= note < 91 ==> Block(note + 12) == Block(note) + 1
  {
  }

  /** A higher note never lies in a lower block. */
  lemma BlockMonotone(n1: int, n2: int)
    requires n1 <= n2
    ensures Block(n1) <= Block(n2)
  {
    assert (n1 - 19) / 12 <= (n2 - 19) / 12;
  }

  /** The 32-bit pattern as a JavaScript int32 value. */
  function Signed(x: bv32): int {
    if x < 0x8000_0000 then x as int else x as int - 0x1_0000_0000
  }

  /** `>>` on an int32: the shift copies the sign bit. */
  function ShiftRight8(x: bv32): bv32 {
    if x & 0x8000_0000 == 0 then x >> 8 else (x >> 8) | 0xFF00_0000
  }

  /** The 2-bit block field (block << 2) as a 32-bit pattern. */
  function BlockBits(block: int): bv32
    requires 0 <= block <= 7
  {
    if block == 0 then 0x00 else if block == 1 then 0x04 else if block == 2 then 0x08
    else if block == 3 then 0x0C else if block == 4 then 0x10 else if block == 5 then 0x14
    else if block == 6 then 0x18 else 0x1C
  }

  /** The key-on/block/F-number-high byte for register 0xB0:
      fNum >> 8 | block << 2 | (keyon ? 0x20 : 0). */
  function B0Value(fNum: bv32, block: int, keyon: bool): int
    requires 0 <= block <= 7
  {
    Signed(ShiftRight8(fNum) | BlockBits(block) | (if keyon then 0x20 else 0))
  }

  /** For an F-number that fits its 10 bits the B0 byte holds its top two
      bits in bits 0-1, the block in bits 2-4 and key-on in bit 5. */
  lemma B0Fields(fNum: bv32, block: int, keyon: bool)
    requires fNum < 0x400 && 0 <= block <= 7
    ensures B0Value(fNum, block, keyon) == (fNum >> 8) as int + 4 * block + (if keyon then 0x20 else 0)
    ensures 0 <= B0Value(fNum, block, keyon) < 0x40
  {
    var hi := fNum >> 8;
    assert hi < 4;
    assert ShiftRight8(fNum) == hi;
    var k: bv32 := if keyon then 0x20 else 0;
    var v := hi | BlockBits(block) | k;
    assert v == hi + BlockBits(block) + k by {
      assert hi & BlockBits(block) == 0 && (hi | BlockBits(block)) & k == 0;
    }
    assert v < 0x40;
    assert BlockBits(block) as int == 4 * block;
    assert hi as int < 4;
  }

  /** For an F-number that fits its 10 bits, the B0 byte has its key-on
      bit (0x20) set exactly when key-on is asked for, and nothing above it. */
  lemma B0KeyOn(fNum: bv32, block: int, keyon: bool)
    requires fNum < 0x400 && 0 <= block <= 7
    ensures keyon ==> 0x20 <= B0Value(fNum, block, keyon) < 0x40
    ensures !keyon ==> 0 <= B0Value(fNum, block, keyon) < 0x20
  {
    B0Fields(fNum, block, keyon);
  }

  /** The B0 byte takes fNum >> 8 whole. An F-number from 0x2000 up (the
      F-number computed for notes from about 151 in block 7) already has
      bit 5 set there, so the key-off byte of a release equals the key-on
      byte of the note: the release leaves the note sounding. */
  lemma WideFNumKeepsKeyOn(fNum: bv32, block: int)
    requires 0x2000 <= fNum < 0x4000 && 0 <= block <= 7
    ensures B0Value(fNum, block, false) == B0Value(fNum, block, true)
    ensures 0x20 <= B0Value(fNum, block, false) < 0x40
  {
    var hi := fNum >> 8;
    assert ShiftRight8(fNum) == hi && 0x20 <= hi < 0x40;
    assert hi | BlockBits(block) == (hi | BlockBits(block)) | 0x20;
    assert hi | BlockBits(block) < 0x40;
  }

  /** oplPlayNote: key-off first, then the low eight F-number bits to 0xA0
      and the key-on/block/high bits to 0xB0. */
  function PlayNoteWrites(voice: nat, note: int, keyon: bool, fNum: bv32): (ws: seq<Write>)
    ensures |ws| == 3 && ws[0] == KeyOffWrites(voice)[0]
  {
    KeyOffWrites(voice)
    + [RegWrite(0xA0 + voice, (fNum & 0xFF) as int), RegWrite(0xB0 + voice, B0Value(fNum, Block(note), keyon))]
  }

  /** oplReleaseNote: key-off, then for a real note its frequency again
      with key-on clear. */
  function ReleaseNoteWrites(voice: nat, note: int, fNum: bv32): (ws: seq<Write>)
    ensures |ws| >= 1 && ws[..1] == KeyOffWrites(voice)
    ensures note > 0 ==> ws == KeyOffWrites(voice) + PlayNoteWrites(voice, note, false, fNum)
    ensures note <= 0 ==> ws == KeyOffWrites(voice)
  {
    KeyOffWrites(voice) + if note > 0 then PlayNoteWrites(voice, note, false, fNum) else []
  }

  /** oplWriteInitState: OPL3 and 4-operator modes off on the second bank,
      waveform select on, CSW off, and melodic mode with low depths. */
  function InitStateWrites(): (ws: seq<Write>)
    ensures |ws| == 5 && ws[0].bank == ws[1].bank == 1
    ensures forall k | 2 <= k < 5 :: ws[k].bank == 0
  {
    [Write(1, At(0x105), 0x00), Write(1, At(0x104), 0x00),
     RegWrite(0x01, 0x20), RegWrite(0x08, 0x40), RegWrite(0xBD, 0x00)]
  }

  /** What the chip holds: the last value written to each (bank, register). */
  type Registers = map<(nat, int), int>

  function Apply(regs: Registers, w: Write): Registers {
    match w.reg
    case At(a) => regs[(w.bank, a) := w.value]
    case Undefined => regs
  }

  /** The register file after the writes, in order. A write to no register
      changes nothing. */
  function Replay(regs: Registers, ws: seq<Write>): Registers
    decreases |ws|
  {
    if ws == [] then regs else Replay(Apply(regs, ws[0]), ws[1..])
  }

  lemma {:induction false} ReplayAppend(regs: Registers, a: seq<Write>, b: seq<Write>)
    ensures Replay(regs, a + b) == Replay(Replay(regs, a), b)
    decreases |a|
  {
    if a == [] {
      assert a + b == b;
    } else {
      assert (a + b)[1..] == a[1..] + b;
      ReplayAppend(Apply(regs, a[0]), a[1..], b);
    }
  }

  lemma ReplayTwo(regs: Registers, a: Write, b: Write)
    ensures Replay(regs, [a, b]) == Apply(Apply(regs, a), b)
  {
    assert [a, b][1..] == [b];
    assert [b][1..] == [];
    assert Replay(regs, [a, b]) == Replay(Apply(regs, a), [b]);
    assert Replay(Apply(regs, a), [b]) == Replay(Apply(Apply(regs, a), b), []);
  }

  lemma ReplayThree(regs: Registers, a: Write, b: Write, c: Write)
    ensures Replay(regs, [a, b, c]) == Apply(Apply(Apply(regs, a), b), c)
  {
    assert [a, b, c][1..] == [b, c];
    ReplayTwo(Apply(regs, a), b, c);
  }

  /** The eighteen operator slots of the nine channels are distinct: a write
      to one channel's operator never lands on another's. */
  lemma OperatorSlotsDistinct(c1: nat, c2: nat, s1: int, s2: int)
    requires c1 < 9 && c2 < 9 && s1 in {0, 3} && s2 in {0, 3}
    ensures c1 != c2 || s1 != s2 ==> OpNum[c1] + s1 != OpNum[c2] + s2
    ensures 0 <= OpNum[c1] + s1 <= 0x15
  {
  }

  /** One oplWriteChannel on channels 0-8 sets the two operator registers. */
  lemma ReplayChannel(regs: Registers, regbase: int, channel: nat, data1: int, data2: int)
    requires channel < 9
    ensures Replay(regs, ChannelWrites(regbase, channel, data1, data2))
      == regs[(0, regbase + OpNum[channel]) := data1][(0, regbase + OpNum[channel] + 3) := data2]
  {
    var ws := ChannelWrites(regbase, channel, data1, data2);
    ReplayTwo(regs, ws[0], ws[1]);
    assert ws == [ws[0], ws[1]];
  }

  /** After oplWriteInstrument on channels 0-8, each operator register of the
      channel holds its byte of the instrument and register 0xC0 + channel
      holds the feedback/connection byte with the output bits set; nothing
      else changes. */
  lemma ReplayInstrument(regs: Registers, channel: nat, i: Instrument)
    requires channel < 9
    ensures var o := OpNum[channel];
      Replay(regs, InstrumentWrites(channel, i))
      == regs[(0, 0x20 + o) := i[0] as int][(0, 0x23 + o) := i[1] as int]
             [(0, 0x40 + o) := i[2] as int][(0, 0x43 + o) := i[3] as int]
             [(0, 0x60 + o) := i[4] as int][(0, 0x63 + o) := i[5] as int]
             [(0, 0x80 + o) := i[6] as int][(0, 0x83 + o) := i[7] as int]
             [(0, 0xE0 + o) := i[8] as int][(0, 0xE3 + o) := i[9] as int]
             [(0, 0xC0 + channel) := (i[10] | 0x30) as int]
  {
    var w1 := ChannelWrites(0x20, channel, i[0] as int, i[1] as int);
    var w2 := ChannelWrites(0x40, channel, i[2] as int, i[3] as int);
    var w3 := ChannelWrites(0x60, channel, i[4] as int, i[5] as int);
    var w4 := ChannelWrites(0x80, channel, i[6] as int, i[7] as int);
    var w5 := ChannelWrites(0xE0, channel, i[8] as int, i[9] as int);
    var w6 := [ValueWrite(0xC0, channel, (i[10] | 0x30) as int)];
    ReplayAppend(regs, w1 + w2 + w3 + w4 + w5, w6);
    ReplayAppend(regs, w1 + w2 + w3 + w4, w5);
    ReplayAppend(regs, w1 + w2 + w3, w4);
    ReplayAppend(regs, w1 + w2, w3);
    ReplayAppend(regs, w1, w2);
    var r1 := Replay(regs, w1);
    var r2 := Replay(r1, w2);
    var r3 := Replay(r2, w3);
    var r4 := Replay(r3, w4);
    ReplayChannel(regs, 0x20, channel, i[0] as int, i[1] as int);
    ReplayChannel(r1, 0x40, channel, i[2] as int, i[3] as int);
    ReplayChannel(r2, 0x60, channel, i[4] as int, i[5] as int);
    ReplayChannel(r3, 0x80, channel, i[6] as int, i[7] as int);
    ReplayChannel(r4, 0xE0, channel, i[8] as int, i[9] as int);
    assert w6[1..] == [];
  }

  /** On voices 9 and 10 oplWriteInstrument reaches no operator register;
      its one effective write is to 0xC9 or 0xCA. */
  lemma ReplayInstrumentHighVoice(regs: Registers, channel: nat, i: Instrument)
    requires channel >= 9
    ensures Replay(regs, InstrumentWrites(channel, i)) == regs[(0, 0xC0 + channel) := (i[10] | 0x30) as int]
  {
    var ws := InstrumentWrites(channel, i);
    var k := 0;
    while k < 10
      invariant k <= 10
      invariant Replay(regs, ws) == Replay(regs, ws[k..])
    {
      assert ws[k].reg == Undefined;
      assert ws[k..][1..] == ws[k + 1..];
      k := k + 1;
    }
    assert ws[10..][1..] == [];
  }

  /** On voices 9 and 10 op_num has no entry, so the ten operator writes of
      oplWriteInstrument name no register (the address is NaN); only the
      last one, to 0xC0 + channel, names a register. */
  lemma InstrumentWritesHighVoice(channel: nat, i: Instrument)
    requires channel >= 9
    ensures |InstrumentWrites(channel, i)| == 11
    ensures forall k | 0 <= k < 10 :: InstrumentWrites(channel, i)[k].reg == Undefined
    ensures InstrumentWrites(channel, i)[10] == Write(0, At(0xC0 + channel), (i[10] | 0x30) as int)
  {
  }

  /** oplWriteInstrument on one of channels 0-8 leaves the operator
      registers of every other channel as they were. */
  lemma InstrumentLeavesOtherChannels(regs: Registers, c1: nat, c2: nat, i: Instrument, base: int, s: int)
    requires c1 < 9 && c2 < 9 && c1 != c2
    requires base in {0x20, 0x40, 0x60, 0x80, 0xE0} && s in {0, 3}
    ensures (0, base + OpNum[c2] + s) in Replay(regs, InstrumentWrites(c1, i)) <==> (0, base + OpNum[c2] + s) in regs
    ensures (0, base + OpNum[c2] + s) in regs ==>
      Replay(regs, InstrumentWrites(c1, i))[(0, base + OpNum[c2] + s)] == regs[(0, base + OpNum[c2] + s)]
  {
    ReplayInstrument(regs, c1, i);
    OperatorSlotsDistinct(c2, c1, s, 0);
    OperatorSlotsDistinct(c2, c1, s, 3);
    OperatorSlotsDistinct(c1, c2, 0, s);
  }

  /** After oplPlayNote the A0 register of the voice holds the low F-number
      byte and its B0 register the key-on/block byte; the key-off written
      first is overwritten, and no other register changes. */
  lemma ReplayPlayNote(regs: Registers, voice: nat, note: int, keyon: bool, fNum: bv32)
    ensures Replay(regs, PlayNoteWrites(voice, note, keyon, fNum))
      == regs[(0, 0xA0 + voice) := (fNum & 0xFF) as int][(0, 0xB0 + voice) := B0Value(fNum, Block(note), keyon)]
  {
    var ws := PlayNoteWrites(voice, note, keyon, fNum);
    ReplayThree(regs, ws[0], ws[1], ws[2]);
    assert ws == [ws[0], ws[1], ws[2]];
    assert regs[(0, 0xB0 + voice) := 0][(0, 0xA0 + voice) := (fNum & 0xFF) as int][(0, 0xB0 + voice) := B0Value(fNum, Block(note), keyon)]
      == regs[(0, 0xA0 + voice) := (fNum & 0xFF) as int][(0, 0xB0 + voice) := B0Value(fNum, Block(note), keyon)];
  }

  /** After oplReleaseNote the voice's B0 register holds 0 when the note is
      not a real one; otherwise its A0 register holds the low F-number byte
      and its B0 register the block and high bits with key-on clear. No
      other register changes. */
  lemma ReplayReleaseNote(regs: Registers, voice: nat, note: int, fNum: bv32)
    ensures note <= 0 ==> Replay(regs, ReleaseNoteWrites(voice, note, fNum)) == regs[(0, 0xB0 + voice) := 0]
    ensures note > 0 ==>
      (Replay(regs, ReleaseNoteWrites(voice, note, fNum))
       == regs[(0, 0xA0 + voice) := (fNum & 0xFF) as int][(0, 0xB0 + voice) := B0Value(fNum, Block(note), false)])
  {
    var off := KeyOffWrites(voice);
    if note > 0 {
      var r1 := regs[(0, 0xB0 + voice) := 0];
      ReplayAppend(regs, off, PlayNoteWrites(voice, note, false, fNum));
      assert Replay(regs, off) == r1 by {
        assert off[1..] == [];
      }
      ReplayPlayNote(r1, voice, note, false, fNum);
      assert r1[(0, 0xA0 + voice) := (fNum & 0xFF) as int][(0, 0xB0 + voice) := B0Value(fNum, Block(note), false)]
        == regs[(0, 0xA0 + voice) := (fNum & 0xFF) as int][(0, 0xB0 + voice) := B0Value(fNum, Block(note), false)];
    } else {
      assert ReleaseNoteWrites(voice, note, fNum) == off;
      assert off[1..] == [];
    }
  }
}
