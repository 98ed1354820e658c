/** One direction of a TCP connection as a byte stream: records are written at one end, bytes
    are delivered in chunks of any size, and each read takes at most one record's worth. */
module Framing {
  import opened Wrappers
  import opened DataGrams

  datatype Stream = Stream(
    inFlight: seq<U8>,        // accepted from the writer, not yet delivered
    buffered: seq<U8>,        // delivered, not yet read
    readPos: nat,
    stream: seq<U8>,          // history: every byte accepted from the writer
    written: seq<DataGram>,   // history: records written whole
    decoded: seq<DataGram>,   // history: records read whole
    starts: seq<nat>)         // history: where in the stream each of those reads began

  datatype StreamStep =
    | Write(record: DataGram, accepted: nat)   // the kernel accepts this many bytes of the record
    | Deliver(count: nat)
    | Read

  const EMPTY := Stream([], [], 0, [], [], [], [])

  function Transfer(s: Stream, step: StreamStep): Stream {
    match step
    case Write(record, accepted) =>
      var n := Min(accepted, RECORD_SIZE);
      s.(inFlight := s.inFlight + Encode(record)[..n],
         stream := s.stream + Encode(record)[..n],
         written := if n == RECORD_SIZE then s.written + [record] else s.written)
    case Deliver(count) =>
      var n := Min(count, |s.inFlight|);
      s.(inFlight := s.inFlight[n..], buffered := s.buffered + s.inFlight[..n])
    case Read =>
      // a short read is taken off the stream and discarded by the client (fyynet.cc, 127-133)
      if |s.buffered| < RECORD_SIZE then s.(buffered := [], readPos := s.readPos + |s.buffered|)
      else s.(buffered := s.buffered[RECORD_SIZE..],
              readPos := s.readPos + RECORD_SIZE,
              decoded := s.decoded + [Decode(s.buffered[..RECORD_SIZE])],
              starts := s.starts + [s.readPos])
  }

  function Carry(s: Stream, steps: seq<StreamStep>): Stream
    decreases |steps|
  {
    if steps == [] then s else Transfer(Carry(s, steps[..|steps| - 1]), steps[|steps| - 1])
  }

  // ------------------------------------------------------- any run whatever

  /** The bytes still to be read are the rest of the stream, and each record decoded was cut out
      of the stream where its read began, the reads lying one behind the other. */
  ghost predicate StreamInv(s: Stream) {
    && s.readPos <= |s.stream|
    && s.buffered + s.inFlight == s.stream[s.readPos..]
    && |s.starts| == |s.decoded|
    && (forall k :: 0 <= k < |s.starts| ==> s.starts[k] + RECORD_SIZE <= s.readPos)
    && (forall k :: 0 <= k < |s.starts| ==> s.decoded[k] == Decode(s.stream[s.starts[k]..s.starts[k] + RECORD_SIZE]))
  }

  lemma WriteKeepsStream(s: Stream, more: seq<U8>, written: seq<DataGram>)
    requires StreamInv(s)
    ensures StreamInv(s.(inFlight := s.inFlight + more, stream := s.stream + more, written := written))
  {
    var t := s.stream + more;
    assert t[s.readPos..] == s.stream[s.readPos..] + more;
    forall k | 0 <= k < |s.starts|
      ensures t[s.starts[k]..s.starts[k] + RECORD_SIZE] == s.stream[s.starts[k]..s.starts[k] + RECORD_SIZE]
    {
    }
  }

  lemma CutFront(stream: seq<U8>, pos: nat, front: seq<U8>, back: seq<U8>, n: nat)
    requires pos <= |stream| && front + back == stream[pos..] && n <= |front|
    ensures pos + n <= |stream| && front[n..] + back == stream[pos + n..] && front[..n] == stream[pos..pos + n]
  {
    assert |front + back| == |stream| - pos;
    assert front[n..] + back == (front + back)[n..];
    assert front[..n] == (front + back)[..n];
  }

  lemma ReadKeepsStream(s: Stream)
    requires StreamInv(s)
    ensures StreamInv(Transfer(s, Read))
  {
    CutFront(s.stream, s.readPos, s.buffered, s.inFlight, Min(RECORD_SIZE, |s.buffered|));
  }

  lemma TransferKeepsStream(s: Stream, step: StreamStep)
    requires StreamInv(s)
    ensures StreamInv(Transfer(s, step))
  {
    match step
    case Write(record, accepted) =>
      WriteKeepsStream(s, Encode(record)[..Min(accepted, RECORD_SIZE)], Transfer(s, step).written);
    case Deliver(count) =>
      var n := Min(count, |s.inFlight|);
      assert s.buffered + s.inFlight[..n] + s.inFlight[n..] == s.buffered + s.inFlight;
    case Read =>
      ReadKeepsStream(s);
  }

  lemma {:induction false} DecodedFromStream(steps: seq<StreamStep>)
    ensures StreamInv(Carry(EMPTY, steps))
    decreases |steps|
  {
    if steps == [] {
    } else {
      DecodedFromStream(steps[..|steps| - 1]);
      TransferKeepsStream(Carry(EMPTY, steps[..|steps| - 1]), steps[|steps| - 1]);
    }
  }

  /** How many bytes the short reads of a run have thrown away. */
  function Skipped(steps: seq<StreamStep>): nat
    decreases |steps|
  {
    if steps == [] then 0
    else
      var s := Carry(EMPTY, steps[..|steps| - 1]);
      Skipped(steps[..|steps| - 1]) + if steps[|steps| - 1].Read? && |s.buffered| < RECORD_SIZE then |s.buffered| else 0
  }

  /** No whole read comes after a short read that found some bytes. */
  ghost predicate ShortReadsLast(steps: seq<StreamStep>)
    decreases |steps|
  {
    steps == [] ||
    var front, step := steps[..|steps| - 1], steps[|steps| - 1];
    ShortReadsLast(front) && (step.Read? && |Carry(EMPTY, front).buffered| >= RECORD_SIZE ==> Skipped(front) == 0)
  }

  /** The k-th record decoded was cut out of the stream at the place of the k-th record. */
  ghost predicate InPlace(s: Stream) {
    forall k :: 0 <= k < |s.starts| ==> s.starts[k] == RECORD_SIZE * k
  }

  lemma {:induction false} PositionIsSkipped(steps: seq<StreamStep>)
    ensures var s := Carry(EMPTY, steps); |s.starts| == |s.decoded| && s.readPos == RECORD_SIZE * |s.decoded| + Skipped(steps)
    decreases |steps|
  {
    if steps == [] {
    } else {
      PositionIsSkipped(steps[..|steps| - 1]);
    }
  }

  lemma AppendInPlace(s: Stream, start: nat)
    ensures InPlace(s.(starts := s.starts + [start])) <==> InPlace(s) && start == RECORD_SIZE * |s.starts|
  {
    var t := s.(starts := s.starts + [start]);
    assert forall k :: 0 <= k < |s.starts| ==> t.starts[k] == s.starts[k];
    assert t.starts[|s.starts|] == start;
  }

  /** Over any run, partial writes included: every record decoded sits at its own place in the
      stream exactly if no whole read follows a short one. */
  lemma {:induction false} InPlaceExactly(steps: seq<StreamStep>)
    ensures InPlace(Carry(EMPTY, steps)) <==> ShortReadsLast(steps)
    decreases |steps|
  {
    if steps == [] {
    } else {
      var front, step := steps[..|steps| - 1], steps[|steps| - 1];
      var s := Carry(EMPTY, front);
      InPlaceExactly(front);
      PositionIsSkipped(front);
      if step.Read? && |s.buffered| >= RECORD_SIZE {
        AppendInPlace(s, s.readPos);
        assert Carry(EMPTY, steps).starts == s.(starts := s.starts + [s.readPos]).starts;
      } else {
        assert Carry(EMPTY, steps).starts == s.starts;
      }
    }
  }

  // ------------------------------------------------------------ whole records

  function Bytes(records: seq<DataGram>): (b: seq<U8>)
    ensures |b| == RECORD_SIZE * |records|
  {
    if records == [] then [] else Encode(records[0]) + Bytes(records[1..])
  }

  lemma {:induction false} BytesAppend(records: seq<DataGram>, g: DataGram)
    ensures Bytes(records + [g]) == Bytes(records) + Encode(g)
  {
    if records == [] {
      assert Bytes([g][1..]) == [];
      assert Bytes([g]) == Encode(g) + [];
    } else {
      assert (records + [g])[1..] == records[1..] + [g];
      BytesAppend(records[1..], g);
    }
  }

  lemma {:induction false} BytesAt(records: seq<DataGram>, k: nat)
    requires k < |records|
    ensures Bytes(records)[RECORD_SIZE * k..RECORD_SIZE * k + RECORD_SIZE] == Encode(records[k])
  {
    var all, e, rest := Bytes(records), Encode(records[0]), Bytes(records[1..]);
    assert all == e + rest;
    if k == 0 {
      assert all[..RECORD_SIZE] == e;
    } else {
      BytesAt(records[1..], k - 1);
      Shift(e, rest, RECORD_SIZE * k, RECORD_SIZE * k + RECORD_SIZE);
    }
  }

  lemma Shift(front: seq<U8>, rest: seq<U8>, a: nat, b: nat)
    requires |front| <= a <= b <= |front| + |rest|
    ensures (front + rest)[a..b] == rest[a - |front|..b - |front|]
  {
  }

  /** Every write is accepted entirely or not at all. */
  ghost predicate WholeWrites(steps: seq<StreamStep>) {
    forall i :: 0 <= i < |steps| && steps[i].Write? ==> steps[i].accepted == 0 || steps[i].accepted >= RECORD_SIZE
  }

  lemma WholeWriteAppends(s: Stream, record: DataGram, accepted: nat)
    requires accepted >= RECORD_SIZE
    ensures var t := Transfer(s, Write(record, accepted)); t.stream == s.stream + Encode(record) && t.written == s.written + [record]
  {
    assert Encode(record)[..RECORD_SIZE] == Encode(record);
  }

  lemma {:induction false} StreamIsRecords(steps: seq<StreamStep>)
    requires WholeWrites(steps)
    ensures Carry(EMPTY, steps).stream == Bytes(Carry(EMPTY, steps).written)
    decreases |steps|
  {
    if steps == [] {
    } else {
      var front, step := steps[..|steps| - 1], steps[|steps| - 1];
      assert forall i :: 0 <= i < |front| ==> front[i] == steps[i];
      StreamIsRecords(front);
      var s := Carry(EMPTY, front);
      if step.Write? && step.accepted >= RECORD_SIZE {
        BytesAppend(s.written, step.record);
        WholeWriteAppends(s, step.record, step.accepted);
      } else {
        assert Carry(EMPTY, steps).stream == s.stream;
      }
    }
  }

  /** A record cut out of a stream of whole records at the k-th place is the k-th of them. */
  lemma CutInPlace(records: seq<DataGram>, stream: seq<U8>, start: nat, k: nat)
    requires stream == Bytes(records) && start == RECORD_SIZE * k && start + RECORD_SIZE <= |stream|
    ensures k < |records| && Decode(stream[start..start + RECORD_SIZE]) == records[k]
  {
    assert RECORD_SIZE * (k + 1) <= RECORD_SIZE * |records|;
    BytesAt(records, k);
    DecodeEncode(records[k]);
  }

  /** Framing: with writes accepted whole, as long as no whole read follows a short one, however
      the bytes are chunked and coalesced, the k-th record decoded is the k-th written. */
  lemma FramedInOrder(steps: seq<StreamStep>)
    requires WholeWrites(steps) && ShortReadsLast(steps)
    ensures var s := Carry(EMPTY, steps); |s.decoded| <= |s.written| && s.decoded == s.written[..|s.decoded|]
  {
    var s := Carry(EMPTY, steps);
    DecodedFromStream(steps);
    InPlaceExactly(steps);
    StreamIsRecords(steps);
    InPlaceInOrder(s);
  }

  lemma DecodedInPlace(s: Stream, k: nat)
    requires StreamInv(s) && InPlace(s) && s.stream == Bytes(s.written) && k < |s.decoded|
    ensures k < |s.written| && s.decoded[k] == s.written[k]
  {
    CutInPlace(s.written, s.stream, s.starts[k], k);
  }

  lemma SameEach(a: seq<DataGram>, b: seq<DataGram>)
    requires |a| <= |b| && forall k :: 0 <= k < |a| ==> a[k] == b[k]
    ensures a == b[..|a|]
  {
  }

  lemma InPlaceInOrder(s: Stream)
    requires StreamInv(s) && InPlace(s) && s.stream == Bytes(s.written)
    ensures |s.decoded| <= |s.written| && s.decoded == s.written[..|s.decoded|]
  {
    if s.decoded != [] {
      DecodedInPlace(s, |s.decoded| - 1);
    }
    forall k | 0 <= k < |s.decoded| ensures s.decoded[k] == s.written[k] {
      DecodedInPlace(s, k);
    }
    SameEach(s.decoded, s.written);
  }

  lemma Then(steps: seq<StreamStep>, step: StreamStep) returns (next: seq<StreamStep>)
    ensures next == steps + [step] && Carry(EMPTY, next) == Transfer(Carry(EMPTY, steps), step)
    ensures WholeWrites(steps) && WholeWrites([step]) ==> WholeWrites(next)
  {
    next := steps + [step];
    assert next[..|steps|] == steps;
    assert [step][0] == step;
  }

  /** Eight bytes of a record are delivered, read and thrown away; the rest of it is still to come. */
  lemma EightBytesLost(record: DataGram) returns (steps: seq<StreamStep>)
    ensures WholeWrites(steps)
    ensures var s := Carry(EMPTY, steps);
      s.buffered == [] && s.inFlight == Encode(record)[8..] && s.decoded == [] && s.written == [record]
  {
    var e := Encode(record);
    steps := Then([], Write(record, RECORD_SIZE));
    assert Carry(EMPTY, steps).inFlight == e;
    steps := Then(steps, Deliver(8));
    assert Carry(EMPTY, steps).buffered == e[..8] && Carry(EMPTY, steps).inFlight == e[8..];
    steps := Then(steps, Read);
  }

  /** One short read is enough: the next record decoded is pieced together from two. */
  lemma ShortReadLosesFraming()
    ensures exists steps :: WholeWrites(steps) && WrongFirstRecord(Carry(EMPTY, steps))
  {
    var record := DataGram(1, TYPE_GETDATA, 0, 0, 0);
    var e := Encode(record);
    var steps := EightBytesLost(record);
    steps := Then(steps, Write(record, RECORD_SIZE));
    assert Carry(EMPTY, steps).inFlight == e[8..] + e;
    steps := Then(steps, Deliver(32));
    var buffered := Carry(EMPTY, steps).buffered;
    assert buffered == e[8..] + e;
    steps := Then(steps, Read);
    assert Carry(EMPTY, steps).decoded == [Decode(buffered[..RECORD_SIZE])];
    assert buffered[0] == e[8] == 0;
  }

  ghost predicate WrongFirstRecord(s: Stream) {
    s.decoded != [] && s.written != [] && s.decoded[0] != s.written[0]
  }

  // ------------------------------------------------------ the server's reader

  /** The server handles whatever its read returns, a short record padded with zeros.  A read that
      finds nothing is the business of module AdcNetwork. */
  function ServerTransfer(s: Stream, step: StreamStep): Stream {
    if step.Read? then
      var n := Min(RECORD_SIZE, |s.buffered|);
      if n == 0 then s
      else s.(buffered := s.buffered[n..],
              readPos := s.readPos + n,
              decoded := s.decoded + [ServerRecord(s.buffered[..n])],
              starts := s.starts + [s.readPos])
    else Transfer(s, step)
  }

  function ServerCarry(steps: seq<StreamStep>): Stream
    decreases |steps|
  {
    if steps == [] then EMPTY else ServerTransfer(ServerCarry(steps[..|steps| - 1]), steps[|steps| - 1])
  }

  /** Where the k-th record handled ends: the reads lie one behind the other. */
  function EndOf(s: Stream, k: nat): nat {
    if k + 1 < |s.starts| then s.starts[k + 1] else s.readPos
  }

  /** The k-th record handled is made of the bytes from its start to its end, at most a record's worth. */
  ghost predicate Piece(s: Stream, k: nat)
    requires k < |s.starts| == |s.decoded|
  {
    && s.starts[k] < EndOf(s, k) <= s.readPos <= |s.stream|
    && EndOf(s, k) <= s.starts[k] + RECORD_SIZE
    && s.decoded[k] == ServerRecord(s.stream[s.starts[k]..EndOf(s, k)])
  }

  ghost predicate ServerInv(s: Stream) {
    && s.readPos <= |s.stream|
    && s.buffered + s.inFlight == s.stream[s.readPos..]
    && |s.starts| == |s.decoded|
    && (forall k :: 0 <= k < |s.starts| ==> Piece(s, k))
  }

  lemma WriteKeepsServer(s: Stream, more: seq<U8>, written: seq<DataGram>)
    requires ServerInv(s)
    ensures ServerInv(s.(inFlight := s.inFlight + more, stream := s.stream + more, written := written))
  {
    var t := s.(inFlight := s.inFlight + more, stream := s.stream + more, written := written);
    assert t.stream[s.readPos..] == s.stream[s.readPos..] + more;
    forall k | 0 <= k < |s.starts| ensures Piece(t, k) {
      assert Piece(s, k);
      assert t.stream[s.starts[k]..EndOf(t, k)] == s.stream[s.starts[k]..EndOf(s, k)];
    }
  }

  /** A read of n bytes leaves the pieces before it as they were. */
  lemma EarlierPiece(s: Stream, n: nat, k: nat)
    requires ServerInv(s) && 0 < n <= RECORD_SIZE && n <= |s.buffered| && k < |s.starts|
    ensures var t := s.(buffered := s.buffered[n..], readPos := s.readPos + n,
                        decoded := s.decoded + [ServerRecord(s.buffered[..n])], starts := s.starts + [s.readPos]);
      s.readPos + n <= |s.stream| && Piece(t, k)
  {
    CutFront(s.stream, s.readPos, s.buffered, s.inFlight, n);
    assert Piece(s, k);
  }

  lemma ServerReadKeeps(s: Stream)
    requires ServerInv(s) && s.buffered != []
    ensures ServerInv(ServerTransfer(s, Read))
  {
    var t, n := ServerTransfer(s, Read), Min(RECORD_SIZE, |s.buffered|);
    CutFront(s.stream, s.readPos, s.buffered, s.inFlight, n);
    forall k | 0 <= k < |t.starts| ensures Piece(t, k) {
      if k < |s.starts| {
        EarlierPiece(s, n, k);
      }
    }
  }

  lemma DeliverKeepsServer(s: Stream, count: nat)
    requires ServerInv(s)
    ensures ServerInv(Transfer(s, Deliver(count)))
  {
    var t := Transfer(s, Deliver(count));
    assert t.buffered + t.inFlight == s.buffered + s.inFlight;
    forall k | 0 <= k < |s.starts| ensures Piece(t, k) {
      assert Piece(s, k);
    }
  }

  lemma ServerTransferKeeps(s: Stream, step: StreamStep)
    requires ServerInv(s)
    ensures ServerInv(ServerTransfer(s, step))
  {
    match step
    case Write(record, accepted) =>
      WriteKeepsServer(s, Encode(record)[..Min(accepted, RECORD_SIZE)], Transfer(s, step).written);
    case Deliver(count) =>
      DeliverKeepsServer(s, count);
    case Read =>
      if s.buffered != [] {
        ServerReadKeeps(s);
      }
  }

  lemma {:induction false} HandledFromStream(steps: seq<StreamStep>)
    ensures ServerInv(ServerCarry(steps))
    decreases |steps|
  {
    if steps == [] {
    } else {
      HandledFromStream(steps[..|steps| - 1]);
      ServerTransferKeeps(ServerCarry(steps[..|steps| - 1]), steps[|steps| - 1]);
    }
  }

  /** No read of the run has come up short. */
  ghost predicate AllReadsWhole(steps: seq<StreamStep>)
    decreases |steps|
  {
    steps == [] ||
    var front, step := steps[..|steps| - 1], steps[|steps| - 1];
    AllReadsWhole(front) && (step.Read? ==> !(0 < |ServerCarry(front).buffered| < RECORD_SIZE))
  }

  /** No read that finds bytes comes after one that came up short. */
  ghost predicate NoReadAfterShort(steps: seq<StreamStep>)
    decreases |steps|
  {
    steps == [] ||
    var front, step := steps[..|steps| - 1], steps[|steps| - 1];
    NoReadAfterShort(front) && (step.Read? && ServerCarry(front).buffered != [] ==> AllReadsWhole(front))
  }

  lemma {:induction false} ServerPosition(steps: seq<StreamStep>)
    ensures var s := ServerCarry(steps);
      s.readPos <= RECORD_SIZE * |s.starts| && (s.readPos == RECORD_SIZE * |s.starts| <==> AllReadsWhole(steps))
    decreases |steps|
  {
    if steps == [] {
    } else {
      ServerPosition(steps[..|steps| - 1]);
    }
  }

  /** Over any run: every record the server handles starts at its own place in the stream exactly
      if it reads nothing after a short read. */
  lemma {:induction false} HandledInPlaceExactly(steps: seq<StreamStep>)
    ensures InPlace(ServerCarry(steps)) <==> NoReadAfterShort(steps)
    decreases |steps|
  {
    if steps == [] {
    } else {
      var front, step := steps[..|steps| - 1], steps[|steps| - 1];
      var s := ServerCarry(front);
      HandledInPlaceExactly(front);
      ServerPosition(front);
      if step.Read? && s.buffered != [] {
        AppendInPlace(s, s.readPos);
        assert ServerCarry(steps).starts == s.(starts := s.starts + [s.readPos]).starts;
      } else {
        assert ServerCarry(steps).starts == s.starts;
      }
    }
  }

  lemma {:induction false} SameStream(steps: seq<StreamStep>)
    ensures ServerCarry(steps).stream == Carry(EMPTY, steps).stream && ServerCarry(steps).written == Carry(EMPTY, steps).written
    decreases |steps|
  {
    if steps == [] {
    } else {
      SameStream(steps[..|steps| - 1]);
    }
  }

  lemma SubSlice(s: seq<U8>, a: nat, b: nat, c: nat)
    requires a <= b <= c <= |s|
    ensures s[a..c][..b - a] == s[a..b]
  {
  }

  /** A piece of a stream of whole records that starts in the k-th place lies in the k-th of them. */
  lemma PieceInPlace(records: seq<DataGram>, stream: seq<U8>, start: nat, end: nat, k: nat)
    requires stream == Bytes(records)
    requires start == RECORD_SIZE * k && start < end <= start + RECORD_SIZE && end <= |stream|
    ensures k < |records| && stream[start..end] == Encode(records[k])[..end - start]
  {
    assert RECORD_SIZE * k < RECORD_SIZE * |records|;
    BytesAt(records, k);
    SubSlice(stream, start, end, start + RECORD_SIZE);
  }

  /** The k-th record handled is what the server makes of the first bytes of the k-th written. */
  ghost predicate CutFromWritten(s: Stream, k: nat) {
    && k < |s.written| && k < |s.decoded| == |s.starts| && s.starts[k] < EndOf(s, k) <= s.starts[k] + RECORD_SIZE
    && s.decoded[k] == ServerRecord(Encode(s.written[k])[..EndOf(s, k) - s.starts[k]])
  }

  lemma PieceCutFromWritten(s: Stream, k: nat)
    requires ServerInv(s) && InPlace(s) && s.stream == Bytes(s.written) && k < |s.decoded|
    ensures CutFromWritten(s, k)
  {
    assert Piece(s, k);
    PieceInPlace(s.written, s.stream, s.starts[k], EndOf(s, k), k);
  }

  lemma UnnoticedExactly(s: Stream, k: nat)
    requires CutFromWritten(s, k)
    ensures s.decoded[k] == s.written[k] <==> LacksOnlyZeros(s, k)
  {
    ShortServerRead(s.written[k], EndOf(s, k) - s.starts[k]);
  }

  /** The bytes of the k-th record written that the server did not get are zero. */
  ghost predicate LacksOnlyZeros(s: Stream, k: nat)
    requires CutFromWritten(s, k)
  {
    forall i :: EndOf(s, k) - s.starts[k] <= i < RECORD_SIZE ==> Encode(s.written[k])[i] == 0
  }

  lemma {:induction false} HandledRun(steps: seq<StreamStep>)
    requires WholeWrites(steps) && NoReadAfterShort(steps)
    ensures var s := ServerCarry(steps); ServerInv(s) && InPlace(s) && s.stream == Bytes(s.written)
  {
    HandledFromStream(steps);
    HandledInPlaceExactly(steps);
    SameStream(steps);
    StreamIsRecords(steps);
  }

  /** With writes accepted whole and no read after a short one, the k-th record handled comes from
      the k-th written: cut short if it is the last, else whole.  It is the record written exactly
      if all it lacks is zero. */
  lemma {:induction false} HandledInOrder(steps: seq<StreamStep>, k: nat)
    requires WholeWrites(steps) && NoReadAfterShort(steps) && k < |ServerCarry(steps).decoded|
    ensures var s := ServerCarry(steps);
      && CutFromWritten(s, k)
      && (k + 1 < |s.decoded| ==> EndOf(s, k) == s.starts[k] + RECORD_SIZE)
      && (s.decoded[k] == s.written[k] <==> LacksOnlyZeros(s, k))
  {
    HandledRun(steps);
    PieceCutFromWritten(ServerCarry(steps), k);
    UnnoticedExactly(ServerCarry(steps), k);
  }

  lemma ServerThen(steps: seq<StreamStep>, step: StreamStep) returns (next: seq<StreamStep>)
    ensures next == steps + [step] && ServerCarry(next) == ServerTransfer(ServerCarry(steps), step)
    ensures WholeWrites(steps) && WholeWrites([step]) ==> WholeWrites(next)
  {
    next := steps + [step];
    assert next[..|steps|] == steps;
    assert [step][0] == step;
  }

  lemma Delivered(s: Stream, n: nat)
    requires s.buffered == [] && n <= |s.inFlight|
    ensures Transfer(s, Deliver(n)) == s.(inFlight := s.inFlight[n..], buffered := s.inFlight[..n])
  {
    assert [] + s.inFlight[..n] == s.inFlight[..n];
  }

  lemma TakenAll(s: Stream)
    requires 0 < |s.buffered| <= RECORD_SIZE
    ensures var t := ServerTransfer(s, Read);
      && t.decoded == s.decoded + [ServerRecord(s.buffered)] && t.buffered == []
      && t.written == s.written && t.inFlight == s.inFlight
  {
    assert s.buffered[..|s.buffered|] == s.buffered;
  }

  /** Bytes that are delivered to a server with nothing buffered and read at once. */
  lemma DeliverAndRead(before: seq<StreamStep>, n: nat) returns (steps: seq<StreamStep>)
    requires WholeWrites(before) && ServerCarry(before).buffered == [] && 0 < n <= RECORD_SIZE && n <= |ServerCarry(before).inFlight|
    ensures WholeWrites(steps)
    ensures var s, t := ServerCarry(before), ServerCarry(steps);
      && t.written == s.written && t.decoded == s.decoded + [ServerRecord(s.inFlight[..n])]
      && t.buffered == [] && t.inFlight == s.inFlight[n..]
  {
    steps := ServerThen(before, Deliver(n));
    Delivered(ServerCarry(before), n);
    TakenAll(ServerCarry(steps));
    steps := ServerThen(steps, Read);
  }

  /** A record written whole of which the first n bytes are delivered and read, then the rest. */
  lemma ReadInTwo(record: DataGram, n: nat) returns (steps: seq<StreamStep>)
    requires 0 < n < RECORD_SIZE
    ensures WholeWrites(steps) && ServerCarry(steps).written == [record]
    ensures ServerCarry(steps).decoded == [ServerRecord(Encode(record)[..n]), ServerRecord(Encode(record)[n..])]
  {
    steps := ServerThen([], Write(record, RECORD_SIZE));
    assert ServerCarry(steps).inFlight == Encode(record);
    steps := DeliverAndRead(steps, n);
    steps := DeliverAndRead(steps, RECORD_SIZE - n);
    assert Encode(record)[n..][..RECORD_SIZE - n] == Encode(record)[n..];
  }

  /** A request for a sample of channel 2 of which the first sixteen bytes are delivered: the
      server handles a request for channel 0, and the rest of it as one more request. */
  lemma ShortReadSamplesZero()
    ensures exists steps ::
      && WholeWrites(steps)
      && ServerCarry(steps).written == [DataGram(0, TYPE_GETDATA, 0, 0, 2)]
      && ServerCarry(steps).decoded == [DataGram(0, TYPE_GETDATA, 0, 0, 0), DataGram(2, TYPE_UNTYPE, 0, 0, 0)]
  {
    CutRequest();
    var steps := ReadInTwo(DataGram(0, TYPE_GETDATA, 0, 0, 2), 16);
  }

  /** The two halves of that request as the server reads them. */
  lemma CutRequest()
    ensures var e := Encode(DataGram(0, TYPE_GETDATA, 0, 0, 2));
      && ServerRecord(e[..16]) == DataGram(0, TYPE_GETDATA, 0, 0, 0)
      && ServerRecord(e[16..]) == DataGram(2, TYPE_UNTYPE, 0, 0, 0)
  {
    var e := Encode(DataGram(0, TYPE_GETDATA, 0, 0, 2));
    assert ZeroPadded(e[..16]) == Encode(DataGram(0, TYPE_GETDATA, 0, 0, 0));
    DecodeEncode(DataGram(0, TYPE_GETDATA, 0, 0, 0));
    assert ZeroPadded(e[16..]) == Encode(DataGram(2, TYPE_UNTYPE, 0, 0, 0));
    DecodeEncode(DataGram(2, TYPE_UNTYPE, 0, 0, 0));
  }

  // ------------------------------------------------ the stream as a queue

  /** The step moves a whole record or nothing. */
  ghost predicate WholeStep(s: Stream, step: StreamStep) {
    match step
    case Write(_, accepted) => accepted == 0 || accepted >= RECORD_SIZE
    case Deliver(_) => true
    case Read => |s.buffered| == 0 || |s.buffered| >= RECORD_SIZE
  }

  /** The records written and not yet decoded: the queue of whole records that the transition
      system in module AdcNetwork keeps for each direction of a connection. */
  function Queue(s: Stream): seq<DataGram>
    requires |s.decoded| <= |s.written|
  {
    s.written[|s.decoded|..]
  }

  /** What is in the stream is exactly the encoding of that queue. */
  ghost predicate InOrder(s: Stream) {
    && |s.decoded| <= |s.written|
    && s.decoded == s.written[..|s.decoded|]
    && s.buffered + s.inFlight == Bytes(Queue(s))
    && |s.stream| == RECORD_SIZE * |s.written|
    && s.readPos == RECORD_SIZE * |s.decoded|
  }

  lemma WriteKeepsOrder(s: Stream, record: DataGram)
    requires InOrder(s)
    ensures InOrder(Transfer(s, Write(record, RECORD_SIZE)))
    ensures Queue(Transfer(s, Write(record, RECORD_SIZE))) == Queue(s) + [record]
  {
    var e := Encode(record);
    assert e[..RECORD_SIZE] == e;
    assert (s.written + [record])[|s.decoded|..] == Queue(s) + [record];
    BytesAppend(Queue(s), record);
    assert s.buffered + (s.inFlight + e) == (s.buffered + s.inFlight) + e;
  }

  lemma ReadKeepsOrder(s: Stream)
    requires InOrder(s) && |s.buffered| >= RECORD_SIZE
    ensures InOrder(Transfer(s, Read)) && Queue(s) != []
    ensures Transfer(s, Read).decoded == s.decoded + [Queue(s)[0]] && Queue(Transfer(s, Read)) == Queue(s)[1..]
  {
    var all, rest := s.buffered + s.inFlight, Queue(s);
    var e, tail := Encode(rest[0]), Bytes(rest[1..]);
    assert all == e + tail;
    assert all[..RECORD_SIZE] == e && all[RECORD_SIZE..] == tail;
    assert s.buffered[..RECORD_SIZE] == e;
    DecodeEncode(rest[0]);
    assert s.buffered[RECORD_SIZE..] + s.inFlight == tail;
    assert rest[1..] == s.written[|s.decoded| + 1..];
  }

  /** In whole transfers the byte stream behaves as that queue: a write appends a record, a read
      that finds data takes the oldest one, and delivery changes nothing. */
  lemma StreamIsQueue(s: Stream, step: StreamStep)
    requires InOrder(s) && WholeStep(s, step)
    ensures InOrder(Transfer(s, step))
    ensures step.Write? && step.accepted > 0 ==> Queue(Transfer(s, step)) == Queue(s) + [step.record]
    ensures step.Read? && s.buffered != [] ==>
      && Queue(s) != []
      && Transfer(s, step).decoded == s.decoded + [Queue(s)[0]]
      && Queue(Transfer(s, step)) == Queue(s)[1..]
    ensures step.Deliver? ==> Queue(Transfer(s, step)) == Queue(s)
  {
    var t := Transfer(s, step);
    match step
    case Write(record, accepted) =>
      if accepted >= RECORD_SIZE {
        WriteKeepsOrder(s, record);
        assert t == Transfer(s, Write(record, RECORD_SIZE));
      } else {
        assert t.inFlight == s.inFlight && t.stream == s.stream;
      }
    case Deliver(count) =>
      assert t.buffered + t.inFlight == s.buffered + s.inFlight;
    case Read =>
      if |s.buffered| == 0 {
        assert t.buffered == s.buffered;
      } else {
        ReadKeepsOrder(s);
      }
  }

  // --------------------------------------------------------------- alignment

  ghost predicate WholeRun(steps: seq<StreamStep>)
    decreases |steps|
  {
    steps == [] ||
    var front := steps[..|steps| - 1];
    WholeRun(front) && WholeStep(Carry(EMPTY, front), steps[|steps| - 1])
  }

  ghost predicate Aligned(s: Stream) {
    |s.stream| % RECORD_SIZE == 0 && s.readPos % RECORD_SIZE == 0
  }

  /** After every step of the run so far both positions are whole numbers of records. */
  ghost predicate AlwaysAligned(steps: seq<StreamStep>)
    decreases |steps|
  {
    Aligned(Carry(EMPTY, steps)) && (steps != [] ==> AlwaysAligned(steps[..|steps| - 1]))
  }

  lemma {:induction false} WholeRunInOrder(steps: seq<StreamStep>)
    requires WholeRun(steps)
    ensures InOrder(Carry(EMPTY, steps))
    decreases |steps|
  {
    if steps == [] {
    } else {
      WholeRunInOrder(steps[..|steps| - 1]);
      StreamIsQueue(Carry(EMPTY, steps[..|steps| - 1]), steps[|steps| - 1]);
    }
  }

  lemma InOrderIsAligned(s: Stream)
    requires InOrder(s)
    ensures Aligned(s)
  {
  }

  lemma AlignedStepIsWhole(s: Stream, step: StreamStep)
    requires Aligned(s) && Aligned(Transfer(s, step))
    ensures WholeStep(s, step)
  {
  }

  /** Both positions stay multiples of the record size throughout a run exactly when no
      transfer is partial. */
  lemma {:induction false} AlignedThroughout(steps: seq<StreamStep>)
    ensures AlwaysAligned(steps) <==> WholeRun(steps)
    decreases |steps|
  {
    if steps == [] {
    } else {
      var front, step := steps[..|steps| - 1], steps[|steps| - 1];
      AlignedThroughout(front);
      if AlwaysAligned(steps) {
        AlignedStepIsWhole(Carry(EMPTY, front), step);
      }
      if WholeRun(steps) {
        WholeRunInOrder(steps);
        InOrderIsAligned(Carry(EMPTY, steps));
      }
    }
  }
}
