/**
 * An event: the measurements gathered in one coincidence window, the
 * counters kept beside them and the multiplicity histogram of the calls that
 * filled it.
 */
module Events {
  import opened Wrappers
  import opened Bits
  import opened Registry
  import opened Records
  import opened ListFiles
  import opened Coincidence

  class Event {
    var measurements: seq<Measurement>
    var pileups: int
    var badcfd: int
    var outofrange: int
    const mults: array<int>

    /** The counters are the tally of the measurements; the histogram has four buckets. */
    ghost predicate Valid()
      reads this
    {
      && mults.Length == 4
      && Counters(pileups, badcfd, outofrange) == Tally(measurements)
    }

    /** An empty event with every counter and bucket at zero. */
    constructor ()
      ensures Valid() && fresh(mults)
      ensures measurements == []
      ensures pileups == 0 && badcfd == 0 && outofrange == 0
      ensures mults[..] == [0, 0, 0, 0]
    {
      measurements := [];
      pileups, badcfd, outofrange := 0, 0, 0;
      mults := new int[4](_ => 0);
    }

    /**
     * Appends a measurement and counts it: a pileup exactly when its finish
     * code is 1, plus its force flag and its out-of-range flag.
     */
    method AddMeasurement(m: Measurement) returns (r: int)
      requires Valid()
      modifies this
      ensures Valid()
      ensures r == 0
      ensures measurements == old(measurements) + [m]
      ensures pileups == old(pileups) + (if m.finishCode == 1 then 1 else 0)
      ensures badcfd == old(badcfd) + m.cfdForce
      ensures outofrange == old(outofrange) + m.outOfRange
    {
      assert (measurements + [m])[..|measurements|] == measurements;
      measurements := measurements + [m];
      if m.finishCode == 1 {
        pileups := pileups + 1;
      }
      badcfd := badcfd + m.cfdForce;
      outofrange := outofrange + m.outOfRange;
      return 0;
    }

    /** The first measurement with the given address, found by a scan from the front. */
    method GetMeasurement(crateID: int, slotID: int, channelNumber: int) returns (r: Option<Measurement>)
      ensures var i := Find(measurements, crateID, slotID, channelNumber);
        && (r.Some? <==> i.Some?)
        && (r.Some? ==> r.value == measurements[i.value])
    {
      var k := 0;
      while k < |measurements|
        invariant 0 <= k <= |measurements|
        invariant forall j :: 0 <= j < k ==> !IsAt(measurements[j], crateID, slotID, channelNumber)
      {
        if IsAt(measurements[k], crateID, slotID, channelNumber) {
          FindFirst(measurements, crateID, slotID, channelNumber, k);
          return Some(measurements[k]);
        }
        k := k + 1;
      }
      return None;
    }

    /**
     * Reads one event from `f`: a seed record, then every record within the
     * sliding window of `coincWindow` after the last one joined, up to a
     * repeated address on a non-tagger channel, the byte ceiling `maxOffset`
     * (when positive) or the end of the data.  Returns 1, changing nothing,
     * when there is no seed record, and 0 otherwise, with the position at the
     * first record not taken and the histogram bucket of the call's
     * multiplicity raised.
     */
    method Read(f: ListFile, crates: CrateMap, ghost s: Stream, coincWindow: int, maxOffset: int) returns (r: int)
      requires Valid() && Represents(s, f.data, crates)
      requires Collect(s, crates, coincWindow, maxOffset, f.pos, measurements) != Undefined
      modifies this, mults, f
      ensures Valid()
      ensures var e := Collect(s, crates, coincWindow, maxOffset, old(f.pos), old(measurements));
        && (r == 1 <==> e.NoSeed?)
        && (r == 0 <==> e.Closed?)
        && (e.NoSeed? ==> && measurements == old(measurements) && f.pos == old(f.pos)
                          && unchanged(mults))
        && (e.Closed? ==> && measurements == e.measurements && f.pos == e.resume
                          && forall i :: 0 <= i < 4 ==>
                               mults[i] == old(mults[i]) + if |e.measurements| - |old(measurements)| == i + 1 then 1 else 0)
    {
      ghost var target := Collect(s, crates, coincWindow, maxOffset, f.pos, measurements);
      ghost var start := f.pos;
      var ok, meas := ReadRecord(f, crates, s);
      if !ok {
        return 1;
      }
      CollectSeeds(s, crates, coincWindow, maxOffset, start, measurements, meas, f.pos);
      var _ := AddMeasurement(meas);
      var mult, pos := GatherLoop(f, crates, s, coincWindow, maxOffset, Wrap64(meas.eventTime + coincWindow), 1);
      if mult < 5 {
        mults[mult - 1] := mults[mult - 1] + 1;
      }
      f.SetPos(pos);
      return 0;
    }

    /**
     * The loop of the event reader: reads records while they join the event,
     * counting them into the multiplicity, and returns the position at the
     * start of the record (or end of data) that closed it.
     */
    method GatherLoop(f: ListFile, crates: CrateMap, ghost s: Stream, coincWindow: int, maxOffset: int,
                      maxTime0: nat, mult0: int)
      returns (mult: int, pos: nat)
      requires Valid() && Represents(s, f.data, crates)
      requires Gather(s, crates, coincWindow, maxOffset, f.pos, measurements, maxTime0) != Undefined
      modifies this, f
      ensures Valid()
      ensures Gather(s, crates, coincWindow, maxOffset, old(f.pos), old(measurements), maxTime0)
              == Closed(measurements, pos)
      ensures mult == mult0 + |measurements| - |old(measurements)| >= mult0
    {
      ghost var target := Gather(s, crates, coincWindow, maxOffset, f.pos, measurements, maxTime0);
      mult, pos := mult0, f.pos;
      var maxTime := maxTime0;
      // whether the last record taken ended where it started, so that it is read again next
      ghost var stalled := false;
      while true
        invariant Valid()
        invariant Gather(s, crates, coincWindow, maxOffset, f.pos, measurements, maxTime) == target
        invariant mult == mult0 + |measurements| - |old(measurements)| >= mult0
        invariant stalled ==> Rereads(s, coincWindow, f.pos, measurements, maxTime)
        decreases if f.pos < s.size then s.size - f.pos else 0, if stalled then 0 else 1
      {
        pos := f.pos;
        if maxOffset > 0 && pos >= maxOffset {
          GatherCloses(s, crates, coincWindow, maxOffset, pos, measurements, maxTime);
          break;
        }
        var ok, next := ReadRecord(f, crates, s);
        if !ok {
          GatherCloses(s, crates, coincWindow, maxOffset, pos, measurements, maxTime);
          break;
        }
        if next.eventTime <= maxTime {
          var duplicate := GetMeasurement(next.crateID, next.slotID, next.channelNumber);
          if duplicate.Some? {
            var channel := GetChannel(crates, next.crateID, next.slotID, next.channelNumber);
            if !channel.value.isTagger {
              GatherCloses(s, crates, coincWindow, maxOffset, pos, measurements, maxTime);
              break;
            }
          }
          GatherTakes(s, crates, coincWindow, maxOffset, pos, measurements, maxTime, next, f.pos, stalled);
          ghost var joined, q := measurements + [next], f.pos;
          mult := mult + 1;
          var _ := AddMeasurement(next);
          maxTime := Wrap64(next.eventTime + coincWindow);
          assert measurements == joined && f.pos == q;
          stalled := f.pos == pos;
        } else {
          GatherCloses(s, crates, coincWindow, maxOffset, pos, measurements, maxTime);
          break;
        }
      }
    }
  }

  /**
   * The decoder as the event reader calls it, without a trace buffer, seen
   * through the record stream of the file.
   */
  method ReadRecord(f: ListFile, crates: CrateMap, ghost s: Stream) returns (ok: bool, m: Measurement)
    modifies f
    requires Represents(s, f.data, crates) && s.at(f.pos) != Unsafe
    ensures ok <==> s.at(old(f.pos)).Decoded?
    ensures ok ==> s.at(old(f.pos)).m == m && s.at(old(f.pos)).next == f.pos
    ensures !ok ==> s.at(old(f.pos)) == EndOfData && f.pos == old(f.pos)
  {
    assert s.at(f.pos) == Decode(f.data, f.pos, crates, false);
    var r, trace;
    r, m, trace := ReadMeasurement(f, crates, false);
    ok := r == 0;
  }

  /** A match at `k` with none before it is the first match. */
  lemma FindFirst(ms: seq<Measurement>, crateID: int, slotID: int, channelNumber: int, k: nat)
    requires k < |ms| && IsAt(ms[k], crateID, slotID, channelNumber)
    requires forall j :: 0 <= j < k ==> !IsAt(ms[j], crateID, slotID, channelNumber)
    ensures Find(ms, crateID, slotID, channelNumber) == Some(k)
  {
  }
}
