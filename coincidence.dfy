/**
 * The coincidence builder as a specification: which records a call of the
 * event reader gathers into one event, where it leaves the file position, and
 * the counters an event keeps.  The records are seen through a `Stream`, so
 * that the reasoning here is about the grouping rule and not about bits.
 */
module Coincidence {
  import opened Wrappers
  import opened Bits
  import opened Registry
  import opened Records

  /**
   * A list-mode file as the event builder sees it: its length and what
   * decoding (without capturing traces) gives at each position.
   */
  datatype Stream = Stream(size: nat, at: nat -> Outcome)

  /**
   * `s` is the stream of records of `data`: decoding there without capturing
   * traces gives what `s` says.
   */
  ghost predicate Represents(s: Stream, data: seq<bv8>, crates: CrateMap)
  {
    && s.size == |data|
    && forall p {:trigger Decode(data, p, crates, false)} :: s.at(p) == Decode(data, p, crates, false)
  }

  /** The stream of records of a file under a channel registry. */
  function RecordsOf(data: seq<bv8>, crates: CrateMap): (s: Stream)
    ensures Represents(s, data, crates)
  {
    Stream(|data|, (p: nat) => Decode(data, p, crates, false))
  }

  predicate IsAt(m: Measurement, crateID: int, slotID: int, channelNumber: int)
  {
    m.crateID == crateID && m.slotID == slotID && m.channelNumber == channelNumber
  }

  /** The index of the first measurement with the given address, if any. */
  function Find(ms: seq<Measurement>, crateID: int, slotID: int, channelNumber: int): (r: Option<nat>)
    ensures r.Some? ==> r.value < |ms| && IsAt(ms[r.value], crateID, slotID, channelNumber)
    ensures r.Some? ==> forall j :: 0 <= j < r.value ==> !IsAt(ms[j], crateID, slotID, channelNumber)
    ensures r.None? <==> forall j :: 0 <= j < |ms| ==> !IsAt(ms[j], crateID, slotID, channelNumber)
  {
    if ms == [] then None
    else if IsAt(ms[0], crateID, slotID, channelNumber) then Some(0)
    else match Find(ms[1..], crateID, slotID, channelNumber)
      case None => None
      case Some(i) => Some(i + 1)
  }

  /** Whether a measurement with the same address as `m` is already in `ms`. */
  predicate Repeats(ms: seq<Measurement>, m: Measurement)
  {
    Find(ms, m.crateID, m.slotID, m.channelNumber).Some?
  }

  /** The three counters an event keeps beside its measurements. */
  datatype Counters = Counters(pileups: int, badcfd: int, outofrange: int)
  {
    function Plus(other: Counters): Counters
    {
      Counters(pileups + other.pileups, badcfd + other.badcfd, outofrange + other.outofrange)
    }
  }

  /** What one measurement adds: a pileup for finish code 1, its force flag and its out-of-range flag. */
  function CountersOf(m: Measurement): Counters
  {
    Counters(if m.finishCode == 1 then 1 else 0, m.cfdForce, m.outOfRange)
  }

  /** The counters of a list of measurements, tallied from the front. */
  function Tally(ms: seq<Measurement>): (c: Counters)
  {
    if ms == [] then Counters(0, 0, 0)
    else Tally(ms[..|ms| - 1]).Plus(CountersOf(ms[|ms| - 1]))
  }

  /** The number of measurements with finish code 1. */
  function Pileups(ms: seq<Measurement>): (n: nat)
    ensures n <= |ms|
  {
    if ms == [] then 0
    else Pileups(ms[..|ms| - 1]) + (if ms[|ms| - 1].finishCode == 1 then 1 else 0)
  }

  /** Tallying counts the pileups: the measurements whose finish code is 1. */
  lemma {:induction false} TallyCountsPileups(ms: seq<Measurement>)
    ensures Tally(ms).pileups == Pileups(ms)
  {
    if ms != [] {
      TallyCountsPileups(ms[..|ms| - 1]);
    }
  }

  /** Tallying a concatenation adds the tallies of its parts. */
  lemma {:induction false} TallyAppend(a: seq<Measurement>, b: seq<Measurement>)
    ensures Tally(a + b) == Tally(a).Plus(Tally(b))
    decreases |b|
  {
    if b == [] {
      assert a + b == a;
    } else {
      var b' := b[..|b| - 1];
      assert (a + b)[..|a + b| - 1] == a + b';
      TallyAppend(a, b');
    }
  }

  /**
   * How a call of the event reader ends: with the event's measurements (the
   * ones it had, then the gathered ones) and the position it rewinds to; with
   * no seed record; or undefined: a record it may not decode, a repeated
   * address on an unconfigured channel, a loop that never ends (a tagger
   * record within its own window that ends where it starts), or a record
   * that ends before its start or is decoded past the end of the data,
   * which no file gives (`DecodedMovesForward`).
   */
  datatype EventEnd =
    | Closed(measurements: seq<Measurement>, resume: nat)
    | NoSeed
    | Undefined

  /**
   * The loop of the event reader at position `p`, with the event holding `ms`
   * and the window closing at `maxTime`.  The event closes, leaving the
   * position at `p`, at the byte ceiling, at the end of the data, at a record
   * beyond the window, or at a repeated address on a channel that is not a
   * tagger; otherwise the record joins and the window moves to its time.
   * A record that ends where it starts (event length 0 with its trace
   * skipped) joins and is read again at once, now as a repeat of itself: the
   * event closes there beyond the window or on a channel that is not a
   * tagger, and the loop never ends on a tagger.
   */
  function Gather(s: Stream, crates: CrateMap, window: int, maxOffset: int,
                  p: nat, ms: seq<Measurement>, maxTime: nat): EventEnd
    decreases if p < s.size then s.size - p else 0
  {
    if maxOffset > 0 && p >= maxOffset then Closed(ms, p)
    else match s.at(p)
      case EndOfData => Closed(ms, p)
      case Unsafe => Undefined
      case Decoded(m, next, _) =>
        var channel := GetChannel(crates, m.crateID, m.slotID, m.channelNumber);
        if m.eventTime > maxTime then Closed(ms, p)
        else if Repeats(ms, m) && channel.None? then Undefined
        else if Repeats(ms, m) && !channel.value.isTagger then Closed(ms, p)
        else if p < next && p < s.size then Gather(s, crates, window, maxOffset, next, ms + [m], Wrap64(m.eventTime + window))
        else if next != p then Undefined
        else if m.eventTime > Wrap64(m.eventTime + window) then Closed(ms + [m], p)
        else if channel.Some? && !channel.value.isTagger then Closed(ms + [m], p)
        else Undefined
  }

  /** Whether the record at `p` joins the event in `Gather`. */
  predicate Joins(s: Stream, crates: CrateMap, maxOffset: int, p: nat, ms: seq<Measurement>, maxTime: nat)
  {
    && !(maxOffset > 0 && p >= maxOffset)
    && s.at(p).Decoded?
    && var m := s.at(p).m;
       var channel := GetChannel(crates, m.crateID, m.slotID, m.channelNumber);
       && m.eventTime <= maxTime
       && (!Repeats(ms, m) || (channel.Some? && channel.value.isTagger))
       && p < s.at(p).next && p < s.size
  }

  /**
   * A call of the event reader at position `p` on an event holding `ms`: the
   * seed record always joins and opens the window; the gathering follows.
   */
  function Collect(s: Stream, crates: CrateMap, window: int, maxOffset: int,
                   p: nat, ms: seq<Measurement>): EventEnd
  {
    match s.at(p)
    case EndOfData => NoSeed
    case Unsafe => Undefined
    case Decoded(m, next, _) => Gather(s, crates, window, maxOffset, next, ms + [m], Wrap64(m.eventTime + window))
  }

  /** The seed record opens the event and its window. */
  lemma CollectSeeds(s: Stream, crates: CrateMap, window: int, maxOffset: int,
                     p: nat, ms: seq<Measurement>, m: Measurement, next: nat)
    requires s.at(p).Decoded? && s.at(p).m == m && s.at(p).next == next
    ensures Collect(s, crates, window, maxOffset, p, ms)
         == Gather(s, crates, window, maxOffset, next, ms + [m], Wrap64(m.eventTime + window))
  {
  }

  /** A record that joins moves the gathering on to the position after it. */
  lemma GatherJoins(s: Stream, crates: CrateMap, window: int, maxOffset: int,
                    p: nat, ms: seq<Measurement>, maxTime: nat, m: Measurement, next: nat)
    requires s.at(p).Decoded? && s.at(p).m == m && s.at(p).next == next
    requires Joins(s, crates, maxOffset, p, ms, maxTime)
    ensures Gather(s, crates, window, maxOffset, p, ms, maxTime)
         == Gather(s, crates, window, maxOffset, next, ms + [m], Wrap64(m.eventTime + window))
  {
  }

  /**
   * Whether the record at `p` closes the event in `Gather`: the byte ceiling,
   * the end of the data, a record beyond the window, or a repeated address on
   * a configured channel that is not a tagger.
   */
  predicate Closes(s: Stream, crates: CrateMap, maxOffset: int, p: nat, ms: seq<Measurement>, maxTime: nat)
  {
    || (maxOffset > 0 && p >= maxOffset)
    || s.at(p).EndOfData?
    || (&& s.at(p).Decoded?
        && var m := s.at(p).m;
           var channel := GetChannel(crates, m.crateID, m.slotID, m.channelNumber);
           || m.eventTime > maxTime
           || (Repeats(ms, m) && channel.Some? && !channel.value.isTagger))
  }

  /** A record that closes the event leaves it as it is, at the record's position. */
  lemma GatherCloses(s: Stream, crates: CrateMap, window: int, maxOffset: int,
                     p: nat, ms: seq<Measurement>, maxTime: nat)
    requires Closes(s, crates, maxOffset, p, ms, maxTime)
    ensures Gather(s, crates, window, maxOffset, p, ms, maxTime) == Closed(ms, p)
  {
  }

  /**
   * The record at `p` ends where it starts and is already in the event, with
   * the window at its time: the event reader is about to read it again.
   */
  predicate Rereads(s: Stream, window: int, p: nat, ms: seq<Measurement>, maxTime: nat)
  {
    && s.at(p).Decoded? && s.at(p).next == p
    && Repeats(ms, s.at(p).m) && maxTime == Wrap64(s.at(p).m.eventTime + window)
  }

  /**
   * Taking a record that ends where it starts leaves the event reader about
   * to read it again.
   */
  lemma StallRereads(s: Stream, window: int, p: nat, ms: seq<Measurement>, m: Measurement)
    requires s.at(p).Decoded? && s.at(p).m == m && s.at(p).next == p
    ensures Rereads(s, window, p, ms + [m], Wrap64(m.eventTime + window))
  {
    RepeatsItself(ms, m);
  }

  /**
   * A record read again closes the event beyond the window or on a channel
   * that is not a tagger; on a tagger within the window the reader never
   * stops.
   */
  lemma RereadEnds(s: Stream, crates: CrateMap, window: int, maxOffset: int,
                   p: nat, ms: seq<Measurement>, maxTime: nat)
    requires Rereads(s, window, p, ms, maxTime) && !(maxOffset > 0 && p >= maxOffset)
    ensures var m := s.at(p).m;
      var channel := GetChannel(crates, m.crateID, m.slotID, m.channelNumber);
      Gather(s, crates, window, maxOffset, p, ms, maxTime)
        == if m.eventTime > maxTime || (channel.Some? && !channel.value.isTagger) then Closed(ms, p)
           else Undefined
  {
    var m := s.at(p).m;
    RepeatsItself(ms, m);
  }

  /**
   * Taking a record into the event: gathering goes on after it with the
   * window at its time, the position moves forward unless the record ends
   * where it starts (and then it is read again), and a record read again is
   * never taken a second time unless the reader would never stop.
   */
  lemma GatherTakes(s: Stream, crates: CrateMap, window: int, maxOffset: int,
                    p: nat, ms: seq<Measurement>, maxTime: nat, m: Measurement, q: nat, rereading: bool)
    requires !(maxOffset > 0 && p >= maxOffset)
    requires s.at(p).Decoded? && s.at(p).m == m && s.at(p).next == q && m.eventTime <= maxTime
    requires var channel := GetChannel(crates, m.crateID, m.slotID, m.channelNumber);
      !Repeats(ms, m) || (channel.Some? && channel.value.isTagger)
    requires Gather(s, crates, window, maxOffset, p, ms, maxTime) != Undefined
    requires rereading ==> Rereads(s, window, p, ms, maxTime)
    ensures !rereading
    ensures Gather(s, crates, window, maxOffset, p, ms, maxTime)
         == Gather(s, crates, window, maxOffset, q, ms + [m], Wrap64(m.eventTime + window))
    ensures q == p ==> Rereads(s, window, p, ms + [m], Wrap64(m.eventTime + window))
    ensures q != p ==> p < q && p < s.size
  {
    if rereading {
      RereadEnds(s, crates, window, maxOffset, p, ms, maxTime);
      assert false;
    }
    if q == p {
      GatherStalls(s, crates, window, maxOffset, p, ms, maxTime, m);
      StallRereads(s, window, p, ms, m);
    }
  }

  /**
   * A record that ends where it starts, taken as a new address on a channel
   * that is not a tagger, closes the event right after it, at its own
   * position.
   */
  lemma GatherStallCloses(s: Stream, crates: CrateMap, window: int, maxOffset: int,
                          p: nat, ms: seq<Measurement>, maxTime: nat)
    requires !(maxOffset > 0 && p >= maxOffset)
    requires s.at(p).Decoded? && s.at(p).next == p && s.at(p).m.eventTime <= maxTime
    requires var m := s.at(p).m;
      var channel := GetChannel(crates, m.crateID, m.slotID, m.channelNumber);
      !Repeats(ms, m) && channel.Some? && !channel.value.isTagger
    ensures Gather(s, crates, window, maxOffset, p, ms, maxTime) == Closed(ms + [s.at(p).m], p)
  {
    var m := s.at(p).m;
    GatherStalls(s, crates, window, maxOffset, p, ms, maxTime, m);
    StallRereads(s, window, p, ms, m);
    RereadEnds(s, crates, window, maxOffset, p, ms + [m], Wrap64(m.eventTime + window));
  }

  /** A measurement repeats the address of any event it has been appended to. */
  lemma RepeatsItself(ms: seq<Measurement>, m: Measurement)
    ensures Repeats(ms + [m], m)
  {
    assert IsAt((ms + [m])[|ms|], m.crateID, m.slotID, m.channelNumber);
  }

  /**
   * A record that ends where it starts and is taken into the event is read
   * again at once: gathering from the same position with the record appended
   * and the window moved to its time has the same outcome.
   */
  lemma GatherStalls(s: Stream, crates: CrateMap, window: int, maxOffset: int,
                     p: nat, ms: seq<Measurement>, maxTime: nat, m: Measurement)
    requires !(maxOffset > 0 && p >= maxOffset)
    requires s.at(p).Decoded? && s.at(p).m == m && s.at(p).next == p && m.eventTime <= maxTime
    requires var channel := GetChannel(crates, m.crateID, m.slotID, m.channelNumber);
      !Repeats(ms, m) || (channel.Some? && channel.value.isTagger)
    ensures Gather(s, crates, window, maxOffset, p, ms, maxTime)
         == Gather(s, crates, window, maxOffset, p, ms + [m], Wrap64(m.eventTime + window))
  {
    RepeatsItself(ms, m);
  }

  /** Gathering only appends: the event keeps what it held. */
  lemma {:induction false} GatherExtends(s: Stream, crates: CrateMap, window: int, maxOffset: int,
                                         p: nat, ms: seq<Measurement>, maxTime: nat)
    requires Gather(s, crates, window, maxOffset, p, ms, maxTime).Closed?
    ensures var e := Gather(s, crates, window, maxOffset, p, ms, maxTime);
      |ms| <= |e.measurements| && e.measurements[..|ms|] == ms
    decreases if p < s.size then s.size - p else 0
  {
    var e := Gather(s, crates, window, maxOffset, p, ms, maxTime);
    if Joins(s, crates, maxOffset, p, ms, maxTime) {
      var m, next := s.at(p).m, s.at(p).next;
      GatherExtends(s, crates, window, maxOffset, next, ms + [m], Wrap64(m.eventTime + window));
      assert (ms + [m])[..|ms|] == ms;
    } else if s.at(p).Decoded? {
      assert (ms + [s.at(p).m])[..|ms|] == ms;
    }
  }

  /**
   * The seed record and everything the loop gathers are appended after what
   * the event held, so the multiplicity of a call is at least 1.
   */
  lemma CollectAppends(s: Stream, crates: CrateMap, window: int, maxOffset: int,
                       p: nat, ms: seq<Measurement>)
    requires Collect(s, crates, window, maxOffset, p, ms).Closed?
    ensures var e := Collect(s, crates, window, maxOffset, p, ms);
      && s.at(p).Decoded?
      && |ms| < |e.measurements| && e.measurements[..|ms| + 1] == ms + [s.at(p).m]
  {
    var m := s.at(p).m;
    GatherExtends(s, crates, window, maxOffset, s.at(p).next, ms + [m], Wrap64(m.eventTime + window));
  }

  /**
   * The sliding window: every gathered measurement is no later than the
   * previous one's time plus the window, taken modulo 2^64 like the original's
   * unsigned arithmetic.
   */
  lemma {:induction false} GatherSlides(s: Stream, crates: CrateMap, window: int, maxOffset: int,
                                        p: nat, ms: seq<Measurement>, maxTime: nat)
    requires ms != [] && maxTime == Wrap64(ms[|ms| - 1].eventTime + window)
    requires Gather(s, crates, window, maxOffset, p, ms, maxTime).Closed?
    ensures var e := Gather(s, crates, window, maxOffset, p, ms, maxTime);
      forall i :: |ms| <= i < |e.measurements| ==>
        e.measurements[i].eventTime <= Wrap64(e.measurements[i - 1].eventTime + window)
    decreases if p < s.size then s.size - p else 0
  {
    var e := Gather(s, crates, window, maxOffset, p, ms, maxTime);
    GatherExtends(s, crates, window, maxOffset, p, ms, maxTime);
    if Joins(s, crates, maxOffset, p, ms, maxTime) {
      var m, next := s.at(p).m, s.at(p).next;
      var ms' := ms + [m];
      GatherSlides(s, crates, window, maxOffset, next, ms', Wrap64(m.eventTime + window));
      GatherExtends(s, crates, window, maxOffset, next, ms', Wrap64(m.eventTime + window));
      assert e.measurements[|ms|] == m by {
        assert e.measurements[..|ms'|] == ms';
      }
    }
  }

  /**
   * Only taggers repeat: a gathered measurement whose address is already in
   * the event before it comes from a configured tagger channel.
   */
  lemma {:induction false} GatherRepeatsOnlyTaggers(s: Stream, crates: CrateMap, window: int, maxOffset: int,
                                                    p: nat, ms: seq<Measurement>, maxTime: nat)
    requires Gather(s, crates, window, maxOffset, p, ms, maxTime).Closed?
    ensures var e := Gather(s, crates, window, maxOffset, p, ms, maxTime);
      forall i :: |ms| <= i < |e.measurements| && Repeats(e.measurements[..i], e.measurements[i]) ==>
        var m := e.measurements[i];
        GetChannel(crates, m.crateID, m.slotID, m.channelNumber).Some?
        && GetChannel(crates, m.crateID, m.slotID, m.channelNumber).value.isTagger
    decreases if p < s.size then s.size - p else 0
  {
    var e := Gather(s, crates, window, maxOffset, p, ms, maxTime);
    GatherExtends(s, crates, window, maxOffset, p, ms, maxTime);
    if Joins(s, crates, maxOffset, p, ms, maxTime) {
      var m, next := s.at(p).m, s.at(p).next;
      var ms' := ms + [m];
      var maxTime' := Wrap64(m.eventTime + window);
      assert e == Gather(s, crates, window, maxOffset, next, ms', maxTime');
      GatherRepeatsOnlyTaggers(s, crates, window, maxOffset, next, ms', maxTime');
      GatherExtends(s, crates, window, maxOffset, next, ms', maxTime');
      assert e.measurements[|ms|] == m && e.measurements[..|ms|] == ms by {
        assert e.measurements[..|ms'|] == ms';
      }
      forall i | |ms| <= i < |e.measurements| && Repeats(e.measurements[..i], e.measurements[i])
        ensures GetChannel(crates, e.measurements[i].crateID, e.measurements[i].slotID,
                           e.measurements[i].channelNumber).Some?
        ensures GetChannel(crates, e.measurements[i].crateID, e.measurements[i].slotID,
                           e.measurements[i].channelNumber).value.isTagger
      {
      }
    } else if s.at(p).Decoded? {
      assert (ms + [s.at(p).m])[..|ms|] == ms;
    }
  }

  /**
   * Why an event of `ms` stops at `q`: the byte ceiling is reached, the data
   * ends, or the record there lies beyond the window of the last measurement
   * or repeats an address on a channel that is not a tagger.
   */
  predicate StopsAt(s: Stream, crates: CrateMap, window: int, maxOffset: int, q: nat, ms: seq<Measurement>)
    requires ms != []
  {
    || (maxOffset > 0 && q >= maxOffset)
    || s.at(q).EndOfData?
    || (s.at(q).Decoded? && s.at(q).m.eventTime > Wrap64(ms[|ms| - 1].eventTime + window))
    || (&& s.at(q).Decoded? && Repeats(ms, s.at(q).m)
        && var m := s.at(q).m;
           GetChannel(crates, m.crateID, m.slotID, m.channelNumber).Some?
           && !GetChannel(crates, m.crateID, m.slotID, m.channelNumber).value.isTagger)
  }

  /** Why an event closes: it stops at its resume position. */
  lemma {:induction false} GatherStops(s: Stream, crates: CrateMap, window: int, maxOffset: int,
                                       p: nat, ms: seq<Measurement>, maxTime: nat)
    requires ms != [] && maxTime == Wrap64(ms[|ms| - 1].eventTime + window)
    requires Gather(s, crates, window, maxOffset, p, ms, maxTime).Closed?
    ensures var e := Gather(s, crates, window, maxOffset, p, ms, maxTime);
      e.measurements != [] && StopsAt(s, crates, window, maxOffset, e.resume, e.measurements)
    decreases if p < s.size then s.size - p else 0
  {
    if Joins(s, crates, maxOffset, p, ms, maxTime) {
      var m, next := s.at(p).m, s.at(p).next;
      GatherStops(s, crates, window, maxOffset, next, ms + [m], Wrap64(m.eventTime + window));
    } else {
      StopsHere(s, crates, window, maxOffset, p, ms, maxTime);
    }
  }

  /** An event whose next record does not join stops where it closes. */
  lemma StopsHere(s: Stream, crates: CrateMap, window: int, maxOffset: int,
                  p: nat, ms: seq<Measurement>, maxTime: nat)
    requires ms != [] && maxTime == Wrap64(ms[|ms| - 1].eventTime + window)
    requires !Joins(s, crates, maxOffset, p, ms, maxTime)
    requires Gather(s, crates, window, maxOffset, p, ms, maxTime).Closed?
    ensures var e := Gather(s, crates, window, maxOffset, p, ms, maxTime);
      e.measurements != [] && StopsAt(s, crates, window, maxOffset, e.resume, e.measurements)
  {
    if s.at(p).Decoded? && Gather(s, crates, window, maxOffset, p, ms, maxTime) != Closed(ms, p) {
      RepeatsItself(ms, s.at(p).m);
    }
  }
}
