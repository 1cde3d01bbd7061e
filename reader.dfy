/**
 * The batch driver: reads events one after another from a list-mode file,
 * up to a count or a byte ceiling, and keeps running totals of what the
 * events counted.
 */
module Readers {
  import opened Bits
  import opened Registry
  import opened Records
  import opened ListFiles
  import opened Coincidence
  import opened Events

  /** The copy of an event the driver appends to its caller's list. */
  datatype EventRecord = EventRecord(measurements: seq<Measurement>, counters: Counters, mults: seq<int>)

  /** The histogram of a fresh event after one call of multiplicity `mult`. */
  function Histogram(mult: int): (h: seq<int>)
    ensures |h| == 4
    ensures forall i :: 0 <= i < 4 ==> h[i] == if mult == i + 1 then 1 else 0
  {
    [if mult == 1 then 1 else 0, if mult == 2 then 1 else 0, if mult == 3 then 1 else 0, if mult == 4 then 1 else 0]
  }

  /** The event the event reader would read from each position of a file. */
  datatype EventStream = EventStream(at: nat -> EventEnd)

  /** `es` gives, at each position, the event read there with an empty event to fill. */
  ghost predicate EventsOf(es: EventStream, s: Stream, crates: CrateMap, window: int, maxOffset: int)
  {
    forall p {:trigger Collect(s, crates, window, maxOffset, p, [])} ::
      es.at(p) == Collect(s, crates, window, maxOffset, p, [])
  }

  /** The events of a record stream under a window and a byte ceiling. */
  function EventsIn(s: Stream, crates: CrateMap, window: int, maxOffset: int): (es: EventStream)
    ensures EventsOf(es, s, crates, window, maxOffset)
  {
    EventStream((p: nat) => Collect(s, crates, window, maxOffset, p, []))
  }

  /** The running totals the driver keeps. */
  datatype Totals = Totals(counters: Counters, subevents: int, nEvents: int, mults: seq<int>)

  /** The totals after adding one event's counters, size and histogram. */
  function AddEvent(t: Totals, e: EventRecord): Totals
    requires |t.mults| == 4 && |e.mults| == 4
  {
    Totals(t.counters.Plus(e.counters), t.subevents + |e.measurements|, t.nEvents + 1,
           [t.mults[0] + e.mults[0], t.mults[1] + e.mults[1], t.mults[2] + e.mults[2], t.mults[3] + e.mults[3]])
  }

  /**
   * How a call of the driver ends: the caller's list with the events read
   * appended, the totals, the position after the events and whether the end
   * of the input (or the byte ceiling) was met; or aborted, for behaviour the
   * original does not define (an undefined event, a failed assertion that the
   * position lies within the file, or a loop without a count limit that stops
   * making progress).
   */
  datatype Run =
    | Run(events: seq<EventRecord>, totals: Totals, resume: nat, end: bool)
    | Aborted

  /** The copy of a closed event of a fresh event object. */
  function RecordOf(ms: seq<Measurement>): EventRecord
  {
    EventRecord(ms, Tally(ms), Histogram(|ms|))
  }

  /**
   * The driver loop at position `p` of a file of `size` bytes, with `max`
   * events still wanted (a negative `max` sets no limit), appending to
   * `events` and adding to `totals`: it stops at the byte ceiling or when no
   * event is left (setting the end flag), or after an event that ends exactly
   * at the end of the file.
   */
  function Build(es: EventStream, size: nat, maxOffset: int, p: nat, max: int,
                 events: seq<EventRecord>, totals: Totals): Run
    requires |totals.mults| == 4
    decreases if max > 0 then max else 0, if p < size then size - p else 0
  {
    if max == 0 then Run(events, totals, p, false)
    else if maxOffset > 0 && p >= maxOffset then Run(events, totals, p, true)
    else match es.at(p)
      case NoSeed => Run(events, totals, p, true)
      case Undefined => Aborted
      case Closed(ms, q) =>
        var e := RecordOf(ms);
        if q > size then Aborted
        else if q == size then Run(events + [e], AddEvent(totals, e), q, false)
        else if max < 0 && q <= p then Aborted
        else Build(es, size, maxOffset, q, max - 1, events + [e], AddEvent(totals, e))
  }

  /** All the measurements of a list of events, event after event. */
  function Flatten(events: seq<EventRecord>): seq<Measurement>
  {
    if events == [] then [] else events[0].measurements + Flatten(events[1..])
  }

  /** The number of events of multiplicity `mult`. */
  function CountMult(events: seq<EventRecord>, mult: int): nat
  {
    if events == [] then 0
    else (if |events[0].measurements| == mult then 1 else 0) + CountMult(events[1..], mult)
  }

  class Reader {
    const file: ListFile
    const crates: CrateMap
    var pileups: int
    var sameChanPU: int
    const mults: array<int>
    var badcfd: int
    var outofrange: int
    var subevents: int
    var nEvents: int
    var fileLength: int
    var end: bool
    var maxOffset: int
    var startOffset: int

    ghost predicate Valid()
      reads this
    {
      mults.Length == 4
    }


    /** The totals as one value. */
    ghost function TotalsNow(): (t: Totals)
      reads this, mults
      requires Valid()
      ensures |t.mults| == 4
    {
      Totals(Counters(pileups, badcfd, outofrange), subevents, nEvents, [mults[0], mults[1], mults[2], mults[3]])
    }

    /**
     * A driver over an opened file and a channel registry, with every total
     * and bucket at zero, the end flag clear, no byte ceiling and a start
     * offset of 0.
     */
    constructor (file: ListFile, crates: CrateMap)
      ensures Valid() && fresh(mults)
      ensures this.file == file && this.crates == crates
      ensures pileups == 0 && sameChanPU == 0 && badcfd == 0 && outofrange == 0
      ensures subevents == 0 && nEvents == 0 && fileLength == 0
      ensures mults[..] == [0, 0, 0, 0]
      ensures !end && maxOffset == -1 && startOffset == 0
    {
      this.file := file;
      this.crates := crates;
      pileups, sameChanPU := 0, 0;
      mults := new int[4](_ => 0);
      badcfd, outofrange, subevents, nEvents := 0, 0, 0, 0;
      fileLength := 0;
      end := false;
      maxOffset, startOffset := -1, 0;
    }

    /**
     * Seeks to an absolute offset and records it as the start offset; a
     * negative offset leaves the position where it was.
     */
    method SetOffset(offset: int) returns (r: int)
      modifies this, file
      ensures r == offset && startOffset == offset
      ensures file.pos == if offset >= 0 then offset else old(file.pos)
      ensures pileups == old(pileups) && end == old(end) && maxOffset == old(maxOffset)
      ensures nEvents == old(nEvents) && fileLength == old(fileLength)
      ensures badcfd == old(badcfd) && outofrange == old(outofrange) && subevents == old(subevents)
      ensures sameChanPU == old(sameChanPU)
    {
      file.SeekTo(offset);
      startOffset := offset;
      return offset;
    }

    /** Whether the position is at the recorded file length, which it may not pass. */
    method Eof() returns (b: bool)
      requires file.pos <= fileLength
      ensures b <==> file.pos == fileLength
    {
      b := file.pos == fileLength;
    }

    /**
     * Reads up to `max` events (no limit when negative) with a coincidence
     * window of `coincWindow` time units of 2^15 ticks, stopping at the byte
     * ceiling `maxOffset` when it is positive, and appends them to `events`,
     * adding their counters to the totals.  Always returns 0.
     */
    method Read(events: seq<EventRecord>, ghost s: Stream, ghost es: EventStream,
                coincWindow: int, max: int, maxOffset: int)
      returns (r: int, events': seq<EventRecord>)
      requires Valid() && Represents(s, file.data, crates)
      requires -0x1_0000 <= coincWindow < 0x1_0000
      requires EventsOf(es, s, crates, coincWindow * 0x8000, maxOffset)
      requires Build(es, |file.data|, maxOffset, file.pos, max, events, TotalsNow()) != Aborted
      modifies this, mults, file
      ensures Valid() && r == 0
      ensures Build(es, |file.data|, maxOffset, old(file.pos), max, events, old(TotalsNow()))
              == Run(events', TotalsNow(), file.pos, end)
      ensures this.maxOffset == maxOffset && fileLength == |file.data|
      ensures sameChanPU == old(sameChanPU) && startOffset == old(startOffset)
    {
      this.maxOffset := maxOffset;
      var window := coincWindow * 0x8000;
      end := false;
      fileLength := |file.data|;
      ghost var target := Build(es, |file.data|, maxOffset, file.pos, max, events, TotalsNow());
      events' := events;
      var left := max;
      while left != 0
        invariant Valid() && fileLength == |file.data| && this.maxOffset == maxOffset && !end
        invariant sameChanPU == old(sameChanPU) && startOffset == old(startOffset)
        invariant Build(es, |file.data|, maxOffset, file.pos, left, events', TotalsNow()) == target
        decreases if left > 0 then left else 0, if file.pos < |file.data| then |file.data| - file.pos else 0
      {
        var stop;
        stop, events' := Advance(events', s, es, window, left);
        if stop {
          break;
        }
        left := left - 1;
        var atEnd := Eof();
        if atEnd {
          break;
        }
      }
      return 0, events';
    }

    /**
     * One pass of the driver loop up to the end-of-file test: stops at the
     * byte ceiling or when no event is left, setting the end flag; otherwise
     * reads an event, adds it to the totals and appends its copy to `events`.
     */
    method Advance(events: seq<EventRecord>, ghost s: Stream, ghost es: EventStream, window: int, left: int)
      returns (stop: bool, events': seq<EventRecord>)
      requires Valid() && Represents(s, file.data, crates) && EventsOf(es, s, crates, window, maxOffset)
      requires left != 0 && Build(es, |file.data|, maxOffset, file.pos, left, events, TotalsNow()) != Aborted
      modifies this, mults, file
      ensures Valid() && fileLength == old(fileLength) && maxOffset == old(maxOffset)
      ensures sameChanPU == old(sameChanPU) && startOffset == old(startOffset)
      ensures stop ==> && end && events' == events && TotalsNow() == old(TotalsNow())
                       && Build(es, |file.data|, maxOffset, old(file.pos), left, events, TotalsNow())
                          == Run(events, TotalsNow(), file.pos, true)
      ensures !stop ==> && end == old(end) && file.pos <= |file.data|
                        && (left < 0 && file.pos < |file.data| ==> old(file.pos) < file.pos)
                        && Build(es, |file.data|, maxOffset, old(file.pos), left, events, old(TotalsNow()))
                           == if file.pos == |file.data| then Run(events', TotalsNow(), file.pos, false)
                              else Build(es, |file.data|, maxOffset, file.pos, left - 1, events', TotalsNow())
    {
      if maxOffset > 0 && file.pos >= maxOffset {
        end := true;
        return true, events;
      }
      ghost var p := file.pos;
      var ok, e := ReadEvent(file, crates, s, es, window, maxOffset);
      if !ok {
        end := true;
        return true, events;
      }
      ghost var before := TotalsNow();
      Accumulate(e);
      BuildStep(es, |file.data|, maxOffset, p, left, events, before, file.pos);
      return false, events + [e];
    }

    /** Adds one event's counters, size and histogram to the totals. */
    method Accumulate(e: EventRecord)
      requires Valid() && |e.mults| == 4
      modifies this, mults
      ensures Valid() && TotalsNow() == AddEvent(old(TotalsNow()), e)
      ensures maxOffset == old(maxOffset) && fileLength == old(fileLength) && end == old(end)
      ensures sameChanPU == old(sameChanPU) && startOffset == old(startOffset)
    {
      pileups := pileups + e.counters.pileups;
      badcfd := badcfd + e.counters.badcfd;
      subevents := subevents + |e.measurements|;
      nEvents := nEvents + 1;
      outofrange := outofrange + e.counters.outofrange;
      for i := 0 to 4
        modifies mults
        invariant forall j :: 0 <= j < i ==> mults[j] == old(mults[j]) + e.mults[j]
        invariant forall j :: i <= j < 4 ==> mults[j] == old(mults[j])
      {
        mults[i] := mults[i] + e.mults[i];
      }
    }
  }

  /**
   * One pass of the driver loop: reads an event into a fresh event object
   * and, when there was one, returns its copy.
   */
  method ReadEvent(f: ListFile, crates: CrateMap, ghost s: Stream, ghost es: EventStream, window: int, maxOffset: int)
    returns (ok: bool, e: EventRecord)
    requires Represents(s, f.data, crates) && EventsOf(es, s, crates, window, maxOffset)
    requires es.at(f.pos) != Undefined
    modifies f
    ensures ok <==> es.at(old(f.pos)).Closed?
    ensures ok ==> e == RecordOf(es.at(old(f.pos)).measurements) && f.pos == es.at(old(f.pos)).resume
    ensures !ok ==> f.pos == old(f.pos)
  {
    assert es.at(f.pos) == Collect(s, crates, window, maxOffset, f.pos, []);
    var event := new Event();
    var retval := event.Read(f, crates, s, window, maxOffset);
    if retval == 1 {
      return false, EventRecord([], Counters(0, 0, 0), []);
    }
    e := EventRecord(event.measurements, Counters(event.pileups, event.badcfd, event.outofrange),
                     [event.mults[0], event.mults[1], event.mults[2], event.mults[3]]);
    return true, e;
  }

  /**
   * One event read at `p` that ends at `q`: the run from `p` goes on from
   * `q` with the event appended and added, unless `q` is the end of the file,
   * where the run stops.
   */
  lemma BuildStep(es: EventStream, size: nat, maxOffset: int, p: nat, max: int,
                  events: seq<EventRecord>, totals: Totals, q: nat)
    requires |totals.mults| == 4 && max != 0 && !(maxOffset > 0 && p >= maxOffset)
    requires Build(es, size, maxOffset, p, max, events, totals) != Aborted
    requires es.at(p).Closed? && es.at(p).resume == q
    ensures q <= size && (max < 0 && q < size ==> p < q)
    ensures var e := RecordOf(es.at(p).measurements);
      Build(es, size, maxOffset, p, max, events, totals)
      == if q == size then Run(events + [e], AddEvent(totals, e), q, false)
         else Build(es, size, maxOffset, q, max - 1, events + [e], AddEvent(totals, e))
  {
  }

  /** The driver only appends to the caller's list. */
  lemma {:induction false} BuildExtends(es: EventStream, size: nat, maxOffset: int, p: nat, max: int,
                                        events: seq<EventRecord>, totals: Totals)
    requires |totals.mults| == 4
    requires Build(es, size, maxOffset, p, max, events, totals).Run?
    ensures var b := Build(es, size, maxOffset, p, max, events, totals);
      |events| <= |b.events| && b.events[..|events|] == events
    decreases if max > 0 then max else 0, if p < size then size - p else 0
  {
    if max != 0 && !(maxOffset > 0 && p >= maxOffset) && es.at(p).Closed? {
      var e := RecordOf(es.at(p).measurements);
      if es.at(p).resume < size {
        BuildExtends(es, size, maxOffset, es.at(p).resume, max - 1, events + [e], AddEvent(totals, e));
        assert (events + [e])[..|events|] == events;
      } else {
        assert (events + [e])[..|events|] == events;
      }
    }
  }

  /**
   * `after` is `before` grown by what `added` holds: one event each, their
   * measurements, the pileup, forced-CFD and out-of-range counts of those
   * measurements, and one histogram entry per event in the bucket of its
   * multiplicity.
   */
  ghost predicate Adds(before: Totals, added: seq<EventRecord>, after: Totals)
  {
    && after.nEvents == before.nEvents + |added|
    && after.subevents == before.subevents + |Flatten(added)|
    && after.counters == before.counters.Plus(Tally(Flatten(added)))
    && |before.mults| == 4 && |after.mults| == 4
    && forall i :: 0 <= i < 4 ==> after.mults[i] == before.mults[i] + CountMult(added, i + 1)
  }

  lemma AddsNothing(t: Totals)
    requires |t.mults| == 4
    ensures Adds(t, [], t)
  {
    assert Tally(Flatten([])) == Counters(0, 0, 0);
    assert t.counters.Plus(Counters(0, 0, 0)) == t.counters;
    assert forall k :: CountMult([], k) == 0;
  }

  lemma Suffix(all: seq<EventRecord>, events: seq<EventRecord>, e: EventRecord)
    requires |events| < |all| && all[..|events| + 1] == events + [e]
    ensures all[|events|..] == [e] + all[|events| + 1..]
  {
    assert all[|events|] == (events + [e])[|events|];
  }

  /** Adding a filled event, then the rest, adds the event and the rest. */
  lemma AddsFirst(t: Totals, e: EventRecord, rest: seq<EventRecord>, after: Totals)
    requires |t.mults| == 4 && e == RecordOf(e.measurements)
    requires Adds(AddEvent(t, e), rest, after)
    ensures Adds(t, [e] + rest, after)
  {
    assert ([e] + rest)[1..] == rest;
    TallyAppend(e.measurements, Flatten(rest));
  }

  /**
   * The driver's totals grow by what the events it appends hold (see
   * `Adds`).
   */
  lemma {:induction false} BuildSums(es: EventStream, size: nat, maxOffset: int, p: nat, max: int,
                                     events: seq<EventRecord>, totals: Totals)
    requires |totals.mults| == 4
    requires Build(es, size, maxOffset, p, max, events, totals).Run?
    ensures var b := Build(es, size, maxOffset, p, max, events, totals);
      |events| <= |b.events| && Adds(totals, b.events[|events|..], b.totals)
    decreases if max > 0 then max else 0, if p < size then size - p else 0
  {
    var b := Build(es, size, maxOffset, p, max, events, totals);
    BuildExtends(es, size, maxOffset, p, max, events, totals);
    if max == 0 || (maxOffset > 0 && p >= maxOffset) || es.at(p).NoSeed? {
      assert b.events[|events|..] == [];
    } else {
      var q := es.at(p).resume;
      var e := RecordOf(es.at(p).measurements);
      var t' := AddEvent(totals, e);
      if q == size {
        assert b.events[|events|..] == [e] + [];
        AddsNothing(t');
        AddsFirst(totals, e, [], t');
      } else {
        var c := Build(es, size, maxOffset, q, max - 1, events + [e], t');
        BuildExtends(es, size, maxOffset, q, max - 1, events + [e], t');
        BuildSums(es, size, maxOffset, q, max - 1, events + [e], t');
        Suffix(c.events, events, e);
        AddsFirst(totals, e, c.events[|events| + 1..], c.totals);
      }
    }
  }

  /**
   * A call reads at most `max` events when `max` is not negative; it sets
   * the end flag only at the byte ceiling or where no event is left, and
   * otherwise stops at the end of the file or after `max` events.
   */
  lemma {:induction false} BuildStops(es: EventStream, size: nat, maxOffset: int, p: nat, max: int,
                                      events: seq<EventRecord>, totals: Totals)
    requires |totals.mults| == 4
    requires Build(es, size, maxOffset, p, max, events, totals).Run?
    ensures var b := Build(es, size, maxOffset, p, max, events, totals);
      && |events| <= |b.events|
      && (max >= 0 ==> |b.events| - |events| <= max)
      && (b.end ==> (maxOffset > 0 && b.resume >= maxOffset) || es.at(b.resume).NoSeed?)
      && (!b.end ==> b.resume == size || |b.events| - |events| == max)
    decreases if max > 0 then max else 0, if p < size then size - p else 0
  {
    if max != 0 && !(maxOffset > 0 && p >= maxOffset) && es.at(p).Closed? && es.at(p).resume < size {
      var e := RecordOf(es.at(p).measurements);
      BuildStops(es, size, maxOffset, es.at(p).resume, max - 1, events + [e], AddEvent(totals, e));
    }
  }

  /**
   * Each event is a non-empty event whose counters are the tally of its
   * measurements and whose histogram marks its multiplicity.
   */
  ghost predicate Filled(events: seq<EventRecord>)
  {
    forall i :: 0 <= i < |events| ==>
      && |events[i].measurements| > 0
      && events[i].counters == Tally(events[i].measurements)
      && events[i].mults == Histogram(|events[i].measurements|)
  }

  /**
   * Over the events of a file, every event the driver appends holds at
   * least one measurement, and its counters and histogram are those of a
   * fresh event filled with its measurements.
   */
  lemma {:induction false} BuildFills(s: Stream, crates: CrateMap, window: int, es: EventStream,
                                      maxOffset: int, p: nat, max: int,
                                      events: seq<EventRecord>, totals: Totals)
    requires EventsOf(es, s, crates, window, maxOffset) && Filled(events)
    requires |totals.mults| == 4
    requires Build(es, s.size, maxOffset, p, max, events, totals).Run?
    ensures Filled(Build(es, s.size, maxOffset, p, max, events, totals).events)
    decreases if max > 0 then max else 0, if p < s.size then s.size - p else 0
  {
    if max != 0 && !(maxOffset > 0 && p >= maxOffset) && es.at(p).Closed? {
      assert es.at(p) == Collect(s, crates, window, maxOffset, p, []);
      CollectAppends(s, crates, window, maxOffset, p, []);
      var e := RecordOf(es.at(p).measurements);
      assert Filled(events + [e]);
      if es.at(p).resume < s.size {
        BuildFills(s, crates, window, es, maxOffset, es.at(p).resume, max - 1, events + [e], AddEvent(totals, e));
      }
    }
  }
}
