/** The record both ends exchange (server/src/dataitem.h), its memory layout, and what a client
    makes of one.  Both ends are taken to use the 32-bit ARM layout of the struct:
    valid at 0, type at 4, sample_time at 8, data at 12, channel at 16, 20 bytes in all. */
module DataGrams {
  type U8 = x: int | 0 <= x < 0x100
  type U32 = x: int | 0 <= x < 0x1_0000_0000
  type TimeT = x: int | -0x8000_0000 <= x < 0x8000_0000

  const TYPE_UNTYPE: U32 := 0
  const TYPE_GETTIME: U32 := 1
  const TYPE_GETDATA: U32 := 2

  const RECORD_SIZE := 20

  datatype DataGram = DataGram(valid: U8, kind: U32, sampleTime: TimeT, data: U32, channel: U8)

  /** What memset leaves before a read fills the record. */
  const BLANK := DataGram(0, TYPE_UNTYPE, 0, 0, 0)

  function Word(x: U32): (b: seq<U8>)
    ensures |b| == 4
  {
    [x % 0x100, x / 0x100 % 0x100, x / 0x1_0000 % 0x100, x / 0x100_0000]
  }

  function FromWord(b: seq<U8>): U32
    requires |b| == 4
  {
    var (b0: int, b1: int, b2: int, b3: int) := (b[0], b[1], b[2], b[3]);
    b0 + 0x100 * b1 + 0x1_0000 * b2 + 0x100_0000 * b3
  }

  function Unsigned(t: TimeT): U32 {
    if t < 0 then t + 0x1_0000_0000 else t
  }

  function Signed(x: U32): TimeT {
    if x < 0x8000_0000 then x else x - 0x1_0000_0000
  }

  function Encode(g: DataGram): (b: seq<U8>)
    ensures |b| == RECORD_SIZE
  {
    [g.valid, 0, 0, 0] + Word(g.kind) + Word(Unsigned(g.sampleTime)) + Word(g.data) + [g.channel, 0, 0, 0]
  }

  /** Padding bytes are ignored, as a struct read ignores them. */
  function Decode(b: seq<U8>): DataGram
    requires |b| == RECORD_SIZE
  {
    DataGram(b[0], FromWord(b[4..8]), Signed(FromWord(b[8..12])), FromWord(b[12..16]), b[16])
  }

  predicate CleanPadding(b: seq<U8>)
    requires |b| == RECORD_SIZE
  {
    b[1] == b[2] == b[3] == b[17] == b[18] == b[19] == 0
  }

  lemma ByteOff(b: U8, rest: nat)
    ensures (b + 0x100 * rest) % 0x100 == b && (b + 0x100 * rest) / 0x100 == rest
  {
  }

  lemma WordRoundTrip(x: U32)
    ensures FromWord(Word(x)) == x
  {
    var q := x / 0x100;
    var r := q / 0x100;
    assert x / 0x1_0000 == r && x / 0x100_0000 == r / 0x100;
    assert x == 0x100 * q + x % 0x100;
    assert q == 0x100 * r + q % 0x100;
  }

  lemma FromWordRoundTrip(b: seq<U8>)
    requires |b| == 4
    ensures Word(FromWord(b)) == b
  {
    var x: int, b1: int, b2: int, b3: int := FromWord(b), b[1], b[2], b[3];
    var y, z := b1 + 0x100 * b2 + 0x1_0000 * b3, b2 + 0x100 * b3;
    ByteOff(b[0], y);
    ByteOff(b[1], z);
    ByteOff(b[2], b3);
    assert x / 0x100 == y && y / 0x100 == z && z / 0x100 == b3;
    assert x / 0x1_0000 == z && x / 0x100_0000 == b3;
  }

  /** What one end writes from its struct the other end reads back into its own. */
  lemma DecodeEncode(g: DataGram)
    ensures Decode(Encode(g)) == g
  {
    var b := Encode(g);
    assert b[4..8] == Word(g.kind);
    assert b[8..12] == Word(Unsigned(g.sampleTime));
    assert b[12..16] == Word(g.data);
    WordRoundTrip(g.kind);
    WordRoundTrip(Unsigned(g.sampleTime));
    WordRoundTrip(g.data);
  }

  lemma EncodeDecode(b: seq<U8>)
    requires |b| == RECORD_SIZE && CleanPadding(b)
    ensures Encode(Decode(b)) == b
  {
    FromWordRoundTrip(b[4..8]);
    FromWordRoundTrip(b[8..12]);
    FromWordRoundTrip(b[12..16]);
    assert b == b[0..4] + b[4..8] + b[8..12] + b[12..16] + b[16..20];
  }

  /** The server zeroes its record and then reads into it, so a short read leaves a record
      whose missing tail is zero (adcnetwork.c, 213-214). */
  function ServerRecord(bytes: seq<U8>): DataGram
    requires |bytes| <= RECORD_SIZE
  {
    Decode(ZeroPadded(bytes))
  }

  function ZeroPadded(bytes: seq<U8>): (b: seq<U8>)
    requires |bytes| <= RECORD_SIZE
    ensures |b| == RECORD_SIZE && b[..|bytes|] == bytes
    ensures forall i :: |bytes| <= i < RECORD_SIZE ==> b[i] == 0
  {
    bytes + seq(RECORD_SIZE - |bytes|, _ => 0)
  }

  lemma PaddingStaysClean(g: DataGram, n: nat)
    requires n <= RECORD_SIZE
    ensures CleanPadding(ZeroPadded(Encode(g)[..n]))
  {
  }

  /** A short server read goes unnoticed exactly when everything it missed was zero anyway. */
  lemma ShortServerRead(g: DataGram, n: nat)
    requires n <= RECORD_SIZE
    ensures ServerRecord(Encode(g)[..n]) == g <==> forall i :: n <= i < RECORD_SIZE ==> Encode(g)[i] == 0
  {
    var full, padded := Encode(g), ZeroPadded(Encode(g)[..n]);
    DecodeEncode(g);
    PaddingStaysClean(g, n);
    EncodeDecode(padded);
    if forall i :: n <= i < RECORD_SIZE ==> full[i] == 0 {
      assert forall i :: 0 <= i < n ==> padded[i] == padded[..n][i] == full[i];
      assert padded == full;
    }
  }

  // ------------------------------------------------- what a client makes of it

  datatype DataItem = DataItem(ch: U8, data: U32, dateTime: TimeT)

  datatype Emission = DataReady(item: DataItem) | TimeReady(dateTime: TimeT) | UnknownType | InvalidRecord

  /** processData (fyynet.cc, 137-165): what a client on this channel makes of a reply. */
  function ProcessData(reply: DataGram, channel: U8): Emission {
    if reply.valid == 0 || reply.channel != channel then InvalidRecord
    else if reply.kind == TYPE_GETDATA then DataReady(DataItem(reply.channel, reply.data, reply.sampleTime))
    else if reply.kind == TYPE_GETTIME then TimeReady(reply.sampleTime)
    else UnknownType
  }

  /** Which signal a reply calls for.  A record that is not valid or belongs to another channel
      counts for nothing; else type 2 is a sample and type 1 the time, each with the time stamp of
      the reply, and any other type is unknown. */
  ghost predicate Announces(reply: DataGram, channel: U8, out: Emission) {
    && (out.InvalidRecord? <==> reply.valid == 0 || reply.channel != channel)
    && (out.DataReady? <==> reply.valid != 0 && reply.channel == channel && reply.kind == 2)
    && (out.TimeReady? <==> reply.valid != 0 && reply.channel == channel && reply.kind == 1)
    && (out.UnknownType? <==> reply.valid != 0 && reply.channel == channel && reply.kind !in {1, 2})
    && (out.DataReady? ==> out.item.ch == channel && out.item.data == reply.data && out.item.dateTime == reply.sampleTime)
    && (out.TimeReady? ==> out.dateTime == reply.sampleTime)
  }

  lemma Announced(reply: DataGram, channel: U8)
    ensures Announces(reply, channel, ProcessData(reply, channel))
  {
  }

  // ----------------------------------------------------------- the layout

  /** A word is stored with its lowest byte first. */
  lemma LittleEndian(x: U32)
    ensures var b: seq<int> := Word(x);
      |b| == 4 && x == b[0] + 0x100 * b[1] + 0x1_0000 * b[2] + 0x100_0000 * b[3]
  {
    WordRoundTrip(x);
  }

  /** Where each field lies in the twenty bytes, and that the time is in two's complement. */
  lemma RecordLayout(g: DataGram)
    ensures var b := Encode(g);
      && |b| == 20
      && b[0] == g.valid && b[4..8] == Word(g.kind) && b[12..16] == Word(g.data) && b[16] == g.channel
      && b[8..12] == Word(if g.sampleTime < 0 then g.sampleTime + 0x1_0000_0000 else g.sampleTime)
      && b[1] == b[2] == b[3] == b[17] == b[18] == b[19] == 0
  {
  }

  /** A record of zero bytes has no known type and no valid data. */
  lemma ZeroRecord(b: seq<U8>)
    requires |b| == 20 && forall i :: 0 <= i < 20 ==> b[i] == 0
    ensures Decode(b) == BLANK == DataGram(0, 0, 0, 0, 0)
  {
  }
}
