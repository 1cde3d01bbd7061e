/**
 * The record decoder: one variable-length list-mode record (a header of
 * `headerLength` 32-bit words, optionally followed by a trace) becomes a
 * measurement, read from a file whose position is rolled back on any short read.
 */
module Records {
  import opened Wrappers
  import opened Bits
  import opened Layout
  import opened FineTime
  import opened Registry
  import opened ListFiles

  /** The raw energy sums of an 8- or 16-word header, as unsigned 32-bit words. */
  datatype EnergySums = EnergySums(trailing: bv32, leading: bv32, gap: bv32, baseline: bv32)

  /**
   * One decoded record.  `energySums` and `qdcSums` are `None` when the header
   * variant does not carry them (the decoder then leaves those fields alone).
   */
  datatype Measurement = Measurement(
    crateID: int, slotID: int, channelNumber: int,
    headerLength: int, eventLength: int, finishCode: int,
    eventTime: nat, cfdForce: int,
    eventEnergy: int, traceLength: nat, outOfRange: int,
    energySums: Option<EnergySums>, qdcSums: Option<seq<bv32>>)

  /** What a failed read hands back; callers never look at it. */
  const Unread := Measurement(0, 0, 0, 0, 0, 0, 0, 0, 0, 0, 0, None, None)

  /**
   * The result of decoding at a position: a measurement with the position
   * after it (and the trace samples when the caller captures them), the end
   * of the data (some read came up short), or undefined behaviour of the
   * original decoder (an out-of-bounds header access or a null channel).
   */
  datatype Outcome =
    | Decoded(m: Measurement, next: nat, trace: Option<seq<bv16>>)
    | EndOfData
    | Unsafe

  function ChannelOf(crates: CrateMap, m: Measurement): Option<Channel>
  {
    GetChannel(crates, m.crateID, m.slotID, m.channelNumber)
  }

  /** The eight QDC sums, taken whole from eight consecutive header words. */
  function QDCsAt(ws: seq<bv32>, first: nat): (q: seq<bv32>)
    requires first + 8 <= |ws|
    ensures |q| == 8
  {
    seq(8, i requires 0 <= i < 8 => Apply(mQDCSums, ws[first + i]))
  }

  /** The four raw energy sums, taken whole from four consecutive header words. */
  function EnergySumsAt(ws: seq<bv32>, first: nat): EnergySums
    requires first + 4 <= |ws|
  {
    EnergySums(Apply(mESumTrailing, ws[first]), Apply(mESumLeading, ws[first + 1]),
               Apply(mESumGap, ws[first + 2]), Apply(mBaseline, ws[first + 3]))
  }

  /** The energy sums a header of `hL` words carries: only 8- and 16-word headers have them. */
  function HeaderSums(hL: int, ws: seq<bv32>): Option<EnergySums>
    requires |ws| >= 3 && |ws| == hL - 1
  {
    if hL == 8 || hL == 16 then Some(EnergySumsAt(ws, 3)) else None
  }

  /** Timing from the slot's frequency for a configured channel, the default otherwise. */
  function Timing(crates: CrateMap, h: HeaderWord, low: bv32, high: bv32): EventTime
  {
    TimestampBound(low, high);
    if GetChannel(crates, h.crateID as int, h.slotID as int, h.channelNumber as int).Some?
    then ProcessTime(Timestamp(low, high), high, GetSlot(crates, h.crateID as int, h.slotID as int).value.freq)
    else EventTime(0, 0)
  }

  /**
   * The measurement a complete header yields: `ws` are the header words after
   * the first (word 1 onward), of which there are at least three.
   */
  function HeaderFields(h: HeaderWord, ws: seq<bv32>, crates: CrateMap): Measurement
    requires |ws| >= 3 && |ws| == h.headerLength as int - 1
  {
    var hL := h.headerLength as int;
    var timing := Timing(crates, h, ws[0], ws[1]);
    Measurement(
      h.crateID as int, h.slotID as int, h.channelNumber as int,
      hL, h.eventLength as int, h.finishCode as int,
      timing.time, timing.cfdForce,
      Apply(mEventEnergy, ws[2]) as int, Apply(mTraceLength, ws[2]) as int,
      Apply(mTraceOutRange, ws[2]) as int,
      HeaderSums(hL, ws),
      if hL == 12 then Some(QDCsAt(ws, 3)) else if hL == 16 then Some(QDCsAt(ws, 7)) else None)
  }

  /** Whether the trace words are skipped with a seek rather than read. */
  predicate SkipsTrace(crates: CrateMap, m: Measurement, capture: bool)
  {
    !capture && ChannelOf(crates, m).Some? && !ChannelOf(crates, m).value.traces
  }

  /**
   * The header of the record at byte `p`: the first word gives the header
   * length, then the rest of the header is read.  A header length of 0 or
   * below 4 makes the decoder index outside its header buffer.
   */
  function DecodeHeader(data: seq<bv8>, p: nat, crates: CrateMap): (r: Outcome)
    ensures r.Decoded? ==> && 4 <= r.m.headerLength && 0 <= r.m.eventLength
                           && r.next == p + 4 * r.m.headerLength <= |data| && r.trace == None
  {
    if p + 4 > |data| then EndOfData
    else
      var h := SplitHeader(WordAt(data, p));
      var hL := h.headerLength as int;
      if hL == 0 then Unsafe                       // a header buffer of -1 words
      else if p + 4 * hL > |data| then EndOfData
      else if hL < 4 then Unsafe                   // header words 2 and 3 are read regardless
      else Decoded(HeaderFields(h, WordsAt(data, p + 4, hL - 1), crates), p + 4 * hL, None)
  }

  /**
   * Decoding the record at byte `p`.  `capture` says whether the caller asks
   * for the trace samples.  The header is read first; what follows it is
   * handled by `DecodeTrace`.
   */
  function Decode(data: seq<bv8>, p: nat, crates: CrateMap, capture: bool): Outcome
  {
    var header := DecodeHeader(data, p, crates);
    if header.Decoded? then DecodeTrace(data, header.next, header.m, crates, capture) else header
  }

  /**
   * The part of a record after its header, at byte `body`: nothing when the
   * event length equals the header length, otherwise the trace words are
   * skipped (seeking never fails: the target is not before the record) or
   * `traceLength` samples are read.  A channel's trace flag is consulted
   * whenever there are trace words, and for a captured trace once it is read.
   */
  function DecodeTrace(data: seq<bv8>, body: nat, m: Measurement, crates: CrateMap, capture: bool): Outcome
    requires 4 * m.headerLength <= body && 0 <= m.eventLength
  {
    var channel := ChannelOf(crates, m);
    var hL, eL := m.headerLength, m.eventLength;
    if eL - hL == 0 then Decoded(m, body, None)
    else if !capture && channel.None? then Unsafe             // flags of a null channel
    else if !capture && !channel.value.traces then Decoded(m, body + 4 * (eL - hL), None)
    else if body + 2 * m.traceLength > |data| then EndOfData
    else if channel.None? then Unsafe                          // flags of a null channel
    else Decoded(m, body + 2 * m.traceLength,
                 if capture then Some(HalvesAt(data, body, m.traceLength)) else None)
  }

  /** With no room for a first word, the position is the end of the data. */
  lemma DecodeAtEnd(data: seq<bv8>, p: nat, crates: CrateMap, capture: bool)
    ensures p + 4 > |data| ==> Decode(data, p, crates, capture) == EndOfData
  {
  }

  /**
   * A header is read only when its first word says it has at least four
   * words and they all lie in the file; its measurement is the one those
   * words yield.
   */
  lemma HeaderFromWords(data: seq<bv8>, p: nat, crates: CrateMap)
    requires DecodeHeader(data, p, crates).Decoded?
    ensures p + 4 <= |data|
    ensures var h := SplitHeader(WordAt(data, p));
      && 4 <= h.headerLength as int && p + 4 * (h.headerLength as int) <= |data|
      && DecodeHeader(data, p, crates).m == HeaderFields(h, WordsAt(data, p + 4, h.headerLength as int - 1), crates)
  {
  }

  /**
   * Decoding is undefined only for a header shorter than four words or for a
   * record with trace words from a channel the definition does not know.
   */
  lemma DecodeUnsafe(data: seq<bv8>, p: nat, crates: CrateMap, capture: bool)
    requires Decode(data, p, crates, capture).Unsafe?
    ensures p + 4 <= |data|
    ensures var h := SplitHeader(WordAt(data, p));
      || h.headerLength < 4
      || (h.eventLength != h.headerLength
          && GetChannel(crates, h.crateID as int, h.slotID as int, h.channelNumber as int).None?)
  {
    if DecodeHeader(data, p, crates).Decoded? {
      HeaderFromWords(data, p, crates);
    }
  }

  /** A record without trace words decodes whatever channel it names, once its header is in the file. */
  lemma HeaderOnlyRecordsAreSafe(data: seq<bv8>, p: nat, crates: CrateMap, capture: bool)
    requires p + 4 <= |data|
    requires var h := SplitHeader(WordAt(data, p));
      4 <= h.headerLength && h.eventLength == h.headerLength
    ensures p + 4 * (SplitHeader(WordAt(data, p)).headerLength as int) <= |data|
            ==> Decode(data, p, crates, capture).Decoded?
    ensures p + 4 * (SplitHeader(WordAt(data, p)).headerLength as int) > |data|
            ==> Decode(data, p, crates, capture) == EndOfData
  {
  }

  /**
   * After the header: the record ends at the header's end when it has no
   * trace words, after the trace words when they are skipped, or after
   * `traceLength` 16-bit samples when they are read; samples are handed back
   * exactly when the caller captures them and there are trace words, and a
   * record whose trace is read lies within the file.
   */
  lemma TraceAdvances(data: seq<bv8>, body: nat, m: Measurement, crates: CrateMap, capture: bool)
    requires 4 * m.headerLength <= body <= |data| && 0 <= m.eventLength
    requires DecodeTrace(data, body, m, crates, capture).Decoded?
    ensures var r := DecodeTrace(data, body, m, crates, capture);
      && r.m == m
      && r.next == body + (if m.eventLength == m.headerLength then 0
                           else if SkipsTrace(crates, m, capture) then 4 * (m.eventLength - m.headerLength)
                           else 2 * m.traceLength)
      && (r.trace.Some? <==> capture && m.eventLength != m.headerLength)
      && (!SkipsTrace(crates, m, capture) ==> r.next <= |data|)
  {
  }

  /**
   * A decoded record carries its header's measurement and ends where the
   * trace stage leaves the cursor after that header.
   */
  lemma DecodeAdvances(data: seq<bv8>, p: nat, crates: CrateMap, capture: bool)
    requires Decode(data, p, crates, capture).Decoded?
    ensures var header, r := DecodeHeader(data, p, crates), Decode(data, p, crates, capture);
      && header.Decoded?
      && r.m == header.m
      && r.next == header.next + (if r.m.eventLength == r.m.headerLength then 0
                                  else if SkipsTrace(crates, r.m, capture) then 4 * (r.m.eventLength - r.m.headerLength)
                                  else 2 * r.m.traceLength)
      && (r.trace.Some? <==> capture && r.m.eventLength != r.m.headerLength)
      && (!SkipsTrace(crates, r.m, capture) ==> r.next <= |data|)
  {
    var header := DecodeHeader(data, p, crates);
    TraceAdvances(data, header.next, header.m, crates, capture);
  }
  /**
   * A decoded record starts inside the data and ends no earlier than it
   * starts; it ends where it starts exactly when its event length is 0 and
   * its trace words are skipped.
   */
  lemma DecodedMovesForward(data: seq<bv8>, p: nat, crates: CrateMap, capture: bool)
    requires Decode(data, p, crates, capture).Decoded?
    ensures var r := Decode(data, p, crates, capture);
      && p < |data| && p <= r.next
      && (r.next == p <==> r.m.eventLength == 0 && SkipsTrace(crates, r.m, capture))
  {
    DecodeAdvances(data, p, crates, capture);
  }


  /**
   * A configured channel's event time is the fine-time correction of the
   * timestamp in header words 1 and 2 at its slot's frequency, and its force
   * flag is the one the fine-time word gives.
   */
  lemma HeaderTiming(data: seq<bv8>, p: nat, crates: CrateMap)
    requires DecodeHeader(data, p, crates).Decoded?
    requires ChannelOf(crates, DecodeHeader(data, p, crates).m).Some?
    ensures p + 12 <= |data|
    ensures var m := DecodeHeader(data, p, crates).m;
      var low, high := WordAt(data, p + 4), WordAt(data, p + 8);
      && GetSlot(crates, m.crateID, m.slotID).Some?
      && Timestamp(low, high) < TwoTo64
      && m.eventTime == ProcessTime(Timestamp(low, high), high, GetSlot(crates, m.crateID, m.slotID).value.freq).time
      && m.cfdForce == ProcessCFD(high, GetSlot(crates, m.crateID, m.slotID).value.freq).force
  {
    HeaderFromWords(data, p, crates);
    TimestampBound(WordAt(data, p + 4), WordAt(data, p + 8));
  }

  /** An unknown channel keeps the default time 0 and force 0. */
  lemma HeaderUnknownChannelTiming(data: seq<bv8>, p: nat, crates: CrateMap)
    requires DecodeHeader(data, p, crates).Decoded?
    requires ChannelOf(crates, DecodeHeader(data, p, crates).m).None?
    ensures DecodeHeader(data, p, crates).m.eventTime == 0
    ensures DecodeHeader(data, p, crates).m.cfdForce == 0
  {
    HeaderFromWords(data, p, crates);
  }

  /**
   * Which header variants carry what: 8 words the energy sums, 12 words the
   * QDC sums, 16 words both; any other length neither.
   */
  lemma HeaderVariants(data: seq<bv8>, p: nat, crates: CrateMap)
    requires DecodeHeader(data, p, crates).Decoded?
    ensures var m := DecodeHeader(data, p, crates).m;
      m.energySums.Some? <==> m.headerLength == 8 || m.headerLength == 16
    ensures var m := DecodeHeader(data, p, crates).m;
      m.qdcSums.Some? <==> m.headerLength == 12 || m.headerLength == 16
  {
    HeaderFromWords(data, p, crates);
  }

  /** The energy sums are header words 4 to 7, taken whole. */
  lemma HeaderEnergySums(data: seq<bv8>, p: nat, crates: CrateMap)
    requires DecodeHeader(data, p, crates).Decoded?
    requires DecodeHeader(data, p, crates).m.energySums.Some?
    ensures p + 32 <= |data|
    ensures DecodeHeader(data, p, crates).m.energySums.value
         == EnergySums(WordAt(data, p + 16), WordAt(data, p + 20), WordAt(data, p + 24), WordAt(data, p + 28))
  {
    HeaderFromWords(data, p, crates);
    var h := SplitHeader(WordAt(data, p));
    var ws := WordsAt(data, p + 4, h.headerLength as int - 1);
    FieldsEnergySums(h.headerLength as int, ws);
  }

  /** The energy sums of an assembled header are its words 4 to 7, taken whole. */
  lemma FieldsEnergySums(hL: int, ws: seq<bv32>)
    requires |ws| >= 3 && |ws| == hL - 1
    requires HeaderSums(hL, ws).Some?
    ensures |ws| >= 7
    ensures HeaderSums(hL, ws).value == EnergySums(ws[3], ws[4], ws[5], ws[6])
  {
    WholeSums(ws, 3);
  }

  /** Energy sums read from words `first` to `first + 3` are those words unchanged. */
  lemma WholeSums(ws: seq<bv32>, first: nat)
    requires first + 4 <= |ws|
    ensures EnergySumsAt(ws, first) == EnergySums(ws[first], ws[first + 1], ws[first + 2], ws[first + 3])
  {
    WholeWordMasks(ws[first]);
    WholeWordMasks(ws[first + 1]);
    WholeWordMasks(ws[first + 2]);
    WholeWordMasks(ws[first + 3]);
  }

  /**
   * The QDC sums are header words 4 to 11 of a 12-word header and words 8
   * to 15 of a 16-word header, taken whole.
   */
  lemma HeaderQDCSums(data: seq<bv8>, p: nat, crates: CrateMap, i: nat)
    requires DecodeHeader(data, p, crates).Decoded?
    requires DecodeHeader(data, p, crates).m.qdcSums.Some? && i < 8
    ensures var m := DecodeHeader(data, p, crates).m;
      var first := if m.headerLength == 12 then 4 else 8;
      && |m.qdcSums.value| == 8
      && p + 4 * (first + i) + 4 <= |data|
      && m.qdcSums.value[i] == WordAt(data, p + 4 * (first + i))
  {
    HeaderFromWords(data, p, crates);
    var h := SplitHeader(WordAt(data, p));
    var ws := WordsAt(data, p + 4, h.headerLength as int - 1);
    var first := if h.headerLength as int == 12 then 3 else 7;
    WholeWordMasks(ws[first + i]);
  }

  /** The QDC sums of header words `first + 1` to `first + 8`, filled one by one. */
  method ReadQDCs(ws: seq<bv32>, first: nat) returns (q: seq<bv32>)
    requires first + 8 <= |ws|
    ensures q == QDCsAt(ws, first)
  {
    var sums := new bv32[8];
    for i := 0 to 8
      invariant forall k :: 0 <= k < i ==> sums[k] == Apply(mQDCSums, ws[first + k])
    {
      sums[i] := Apply(mQDCSums, ws[first + i]);
    }
    q := sums[..];
  }

  /**
   * The field-by-field assembly of a measurement from its header words, as
   * the decoder performs it once the whole header is in memory.
   */
  method HeaderMeasurement(h: HeaderWord, ws: seq<bv32>, crates: CrateMap) returns (m: Measurement)
    requires |ws| >= 3 && |ws| == h.headerLength as int - 1
    ensures m == HeaderFields(h, ws, crates)
  {
    var hL := h.headerLength as int;
    var timing := EventTime(0, 0);
    var channel := GetChannel(crates, h.crateID as int, h.slotID as int, h.channelNumber as int);
    if channel.Some? {
      TimestampBound(ws[0], ws[1]);
      timing := ProcessTime(Timestamp(ws[0], ws[1]), ws[1], GetSlot(crates, h.crateID as int, h.slotID as int).value.freq);
    }
    var energySums: Option<EnergySums> := None;
    var qdcSums: Option<seq<bv32>> := None;
    if hL == 8 {
      energySums := Some(EnergySumsAt(ws, 3));
    } else if hL == 12 {
      var q := ReadQDCs(ws, 3);
      qdcSums := Some(q);
    } else if hL == 16 {
      energySums := Some(EnergySumsAt(ws, 3));
      var q := ReadQDCs(ws, 7);
      qdcSums := Some(q);
    }
    m := Measurement(
      h.crateID as int, h.slotID as int, h.channelNumber as int,
      hL, h.eventLength as int, h.finishCode as int,
      timing.time, timing.cfdForce,
      Apply(mEventEnergy, ws[2]) as int, Apply(mTraceLength, ws[2]) as int,
      Apply(mTraceOutRange, ws[2]) as int,
      energySums, qdcSums);
  }

  /**
   * Reads the header of the record at the file's position.  On success the
   * position is just past the header; when a read comes up short the
   * position is restored.
   */
  method ReadHeader(f: ListFile, crates: CrateMap) returns (ok: bool, m: Measurement)
    modifies f
    requires DecodeHeader(f.data, f.pos, crates) != Unsafe
    ensures var d := DecodeHeader(f.data, old(f.pos), crates);
      && (ok <==> d.Decoded?)
      && (ok ==> m == d.m && f.pos == d.next)
      && (!ok ==> f.pos == old(f.pos))
  {
    var start := f.pos;
    var okFirst, first := f.ReadWords(1);
    if !okFirst {
      f.SetPos(start);
      return false, Unread;
    }
    var h := SplitHeader(first[0]);
    var hL := h.headerLength as int;
    var okRest, ws := f.ReadWords(hL - 1);
    if !okRest {
      f.SetPos(start);
      return false, Unread;
    }
    m := HeaderMeasurement(h, ws, crates);
    ok := true;
  }

  /**
   * Reads or skips what follows a header read from byte `start`: on a short
   * read the position goes back to `start`.
   */
  method ReadTrace(f: ListFile, m: Measurement, crates: CrateMap, capture: bool, start: nat)
    returns (ok: bool, trace: Option<seq<bv16>>)
    modifies f
    requires 4 * m.headerLength <= f.pos && 0 <= m.eventLength
    requires DecodeTrace(f.data, f.pos, m, crates, capture) != Unsafe
    ensures var d := DecodeTrace(f.data, old(f.pos), m, crates, capture);
      && (ok <==> d.Decoded?)
      && (ok ==> trace == d.trace && f.pos == d.next)
      && (!ok ==> f.pos == start)
  {
    var channel := ChannelOf(crates, m);
    var hL, eL := m.headerLength, m.eventLength;
    if eL - hL == 0 {
      return true, None;
    } else if !capture && !channel.value.traces {
      f.Skip(4 * (eL - hL));
      return true, None;
    }
    var okTrace, samples := f.ReadHalves(m.traceLength);
    if !okTrace {
      f.SetPos(start);
      return false, None;
    }
    ok, trace := true, if capture then Some(samples) else None;
  }

  /**
   * Reads one record at the file's position.  Returns 0 with the decoded
   * measurement and the position after the record, or -1 with the position
   * restored when some read comes up short.
   */
  method ReadMeasurement(f: ListFile, crates: CrateMap, capture: bool)
    returns (r: int, m: Measurement, trace: Option<seq<bv16>>)
    modifies f
    requires Decode(f.data, f.pos, crates, capture) != Unsafe
    ensures var d := Decode(f.data, old(f.pos), crates, capture);
      && (r == 0 <==> d.Decoded?)
      && (r == -1 <==> d.EndOfData?)
      && (d.Decoded? ==> m == d.m && trace == d.trace && f.pos == d.next)
      && (d.EndOfData? ==> f.pos == old(f.pos))
  {
    var start := f.pos;
    var ok;
    ok, m := ReadHeader(f, crates);
    if !ok {
      return -1, Unread, None;
    }
    ok, trace := ReadTrace(f, m, crates, capture, start);
    if !ok {
      return -1, Unread, None;
    }
    r := 0;
  }
}
