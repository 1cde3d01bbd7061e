/**
 * The channel registry of an experiment definition: crates hold slots, slots
 * hold channels, each level keyed by its numeric ID.  The records are values;
 * the registry never changes a channel once it is inserted, so holding them by
 * value loses nothing the decoder can observe.
 */
module Registry {
  import opened Wrappers

  /** One configured digitizer channel and its processing flags. */
  datatype Channel = Channel(
    crateID: int, slotID: int, channelNumber: int,
    qdcs: bool, eraw: bool, traces: bool,
    algName: string, algFile: string, algIndex: int,
    isTagger: bool)

  /** A digitizer module: its sampling frequency in MHz and its channels. */
  datatype Slot = Slot(slotID: int, crateID: int, freq: int, channelMap: map<int, Channel>)
  {
    function GetChannel(channelNumber: int): (r: Option<Channel>)
      ensures r.Some? <==> channelNumber in channelMap
      ensures r.Some? ==> r.value == channelMap[channelNumber]
    {
      if channelNumber in channelMap then Some(channelMap[channelNumber]) else None
    }

    /**
     * Inserts (or silently replaces) a channel stamped with this slot's
     * crate and slot IDs; nothing else in the slot changes.
     */
    function AddChannel(channelNumber: int, eraw: bool, qdcs: bool, traces: bool,
                        algName: string, algFile: string, algIndex: int,
                        isTagger: bool): (s: Slot)
      ensures s.GetChannel(channelNumber)
           == Some(Channel(crateID, slotID, channelNumber, qdcs, eraw, traces,
                           algName, algFile, algIndex, isTagger))
      ensures forall n :: n != channelNumber ==> s.GetChannel(n) == GetChannel(n)
      ensures s.slotID == slotID && s.crateID == crateID && s.freq == freq
    {
      this.(channelMap := channelMap[channelNumber :=
        Channel(crateID, slotID, channelNumber, qdcs, eraw, traces,
                algName, algFile, algIndex, isTagger)])
    }
  }

  /** A crate of digitizer modules. */
  datatype Crate = Crate(crateID: int, slotMap: map<int, Slot>)
  {
    function GetSlot(slotID: int): (r: Option<Slot>)
      ensures r.Some? <==> slotID in slotMap
      ensures r.Some? ==> r.value == slotMap[slotID]
    {
      if slotID in slotMap then Some(slotMap[slotID]) else None
    }

    /**
     * Inserts (or silently replaces) an empty slot with the given frequency,
     * stamped with this crate's ID; the other slots are untouched.
     */
    function AddSlot(slotID: int, frequency: int): (c: Crate)
      ensures c.GetSlot(slotID) == Some(Slot(slotID, crateID, frequency, map[]))
      ensures forall s :: s != slotID ==> c.GetSlot(s) == GetSlot(s)
      ensures c.crateID == crateID
    {
      this.(slotMap := slotMap[slotID := Slot(slotID, crateID, frequency, map[])])
    }
  }

  type CrateMap = map<int, Crate>

  function GetCrate(crates: CrateMap, crateID: int): (r: Option<Crate>)
    ensures r.Some? <==> crateID in crates
    ensures r.Some? ==> r.value == crates[crateID]
  {
    if crateID in crates then Some(crates[crateID]) else None
  }

  /** Absent exactly when the crate or the slot is absent. */
  function GetSlot(crates: CrateMap, crateID: int, slotID: int): (r: Option<Slot>)
    ensures r.Some? <==> crateID in crates && slotID in crates[crateID].slotMap
    ensures r.Some? ==> r.value == crates[crateID].slotMap[slotID]
  {
    match GetCrate(crates, crateID)
    case None => None
    case Some(crate) => crate.GetSlot(slotID)
  }

  /** Absent exactly when some level of the address is absent. */
  function GetChannel(crates: CrateMap, crateID: int, slotID: int, channelNumber: int): (r: Option<Channel>)
    ensures r.Some? <==> GetSlot(crates, crateID, slotID).Some?
                         && channelNumber in GetSlot(crates, crateID, slotID).value.channelMap
    ensures r.Some? ==> r.value == GetSlot(crates, crateID, slotID).value.channelMap[channelNumber]
  {
    match GetSlot(crates, crateID, slotID)
    case None => None
    case Some(slot) => slot.GetChannel(channelNumber)
  }

  /**
   * Adding a crate: refused with -1 (and no change) when the ID is taken,
   * otherwise an empty crate is added and every other crate is kept.
   */
  function DefineCrate(crates: CrateMap, crateID: int): (r: (int, CrateMap))
    ensures GetCrate(crates, crateID).Some? ==> r == (-1, crates)
    ensures GetCrate(crates, crateID).None? ==>
              && r.0 == 0
              && GetCrate(r.1, crateID) == Some(Crate(crateID, map[]))
              && forall c :: c != crateID ==> GetCrate(r.1, c) == GetCrate(crates, c)
  {
    if GetCrate(crates, crateID).Some? then (-1, crates)
    else (0, crates[crateID := Crate(crateID, map[])])
  }

  /**
   * Adding a slot: refused with -1 (and no change) when the slot exists, so
   * the first frequency stays, or when its crate is missing; otherwise the
   * slot is added empty with the given frequency and every other slot is kept.
   */
  function DefineSlot(crates: CrateMap, crateID: int, slotID: int, frequency: int): (r: (int, CrateMap))
    ensures (GetSlot(crates, crateID, slotID).Some? || GetCrate(crates, crateID).None?) ==> r == (-1, crates)
    ensures GetSlot(crates, crateID, slotID).None? && GetCrate(crates, crateID).Some? ==>
              && r.0 == 0
              && GetSlot(r.1, crateID, slotID) == Some(Slot(slotID, crates[crateID].crateID, frequency, map[]))
              && (forall c, s :: (c, s) != (crateID, slotID) ==> GetSlot(r.1, c, s) == GetSlot(crates, c, s))
              && forall c :: GetCrate(r.1, c).Some? <==> GetCrate(crates, c).Some?
  {
    if GetSlot(crates, crateID, slotID).Some? then (-1, crates)
    else match GetCrate(crates, crateID)
      case None => (-1, crates)
      case Some(crate) => (0, crates[crateID := crate.AddSlot(slotID, frequency)])
  }

  /**
   * Adding a channel: refused with -1 (and no change) when the channel exists,
   * so the first definition stays, or when its slot is missing; otherwise the
   * channel is inserted with the given flags, and every other address, every
   * slot frequency and every crate is kept.
   */
  function DefineChannel(crates: CrateMap, crateID: int, slotID: int, channelNumber: int,
                         eraw: bool, qdcs: bool, traces: bool,
                         algName: string, algFile: string, algIndex: int,
                         isTagger: bool): (r: (int, CrateMap))
    ensures (|| GetChannel(crates, crateID, slotID, channelNumber).Some?
             || GetSlot(crates, crateID, slotID).None?) ==> r == (-1, crates)
    ensures GetChannel(crates, crateID, slotID, channelNumber).None?
            && GetSlot(crates, crateID, slotID).Some? ==>
              && r.0 == 0
              && (var slot := GetSlot(crates, crateID, slotID).value;
                  GetChannel(r.1, crateID, slotID, channelNumber)
                  == Some(Channel(slot.crateID, slot.slotID, channelNumber, qdcs, eraw, traces,
                                  algName, algFile, algIndex, isTagger)))
              && (forall c, s, n :: (c, s, n) != (crateID, slotID, channelNumber) ==>
                    GetChannel(r.1, c, s, n) == GetChannel(crates, c, s, n))
              && (forall c, s :: GetSlot(r.1, c, s).Some? <==> GetSlot(crates, c, s).Some?)
              && (forall c, s :: GetSlot(r.1, c, s).Some? ==> GetSlot(r.1, c, s).value.freq == GetSlot(crates, c, s).value.freq)
              && forall c :: GetCrate(r.1, c).Some? <==> GetCrate(crates, c).Some?
  {
    if GetChannel(crates, crateID, slotID, channelNumber).Some? then (-1, crates)
    else match GetSlot(crates, crateID, slotID)
      case None => (-1, crates)
      case Some(slot) =>
        var crate := crates[crateID];
        var slot' := slot.AddChannel(channelNumber, eraw, qdcs, traces, algName, algFile, algIndex, isTagger);
        (0, crates[crateID := crate.(slotMap := crate.slotMap[slotID := slot'])])
  }

  /**
   * Every crate, slot and channel carries the IDs it is filed under.  The
   * insertions stamp new slots and channels from the enclosing record's own
   * fields, so this is what makes a stamped ID equal the address.
   */
  ghost predicate WellKeyed(crates: CrateMap)
  {
    && (forall c :: c in crates ==> crates[c].crateID == c)
    && (forall c, s :: GetSlot(crates, c, s).Some? ==>
          GetSlot(crates, c, s).value.crateID == c && GetSlot(crates, c, s).value.slotID == s)
    && forall c, s, n :: GetChannel(crates, c, s, n).Some? ==>
          var ch := GetChannel(crates, c, s, n).value;
          ch.crateID == c && ch.slotID == s && ch.channelNumber == n
  }

  lemma EmptyIsWellKeyed()
    ensures WellKeyed(map[])
  {
  }

  lemma DefineCrateKeepsKeys(crates: CrateMap, crateID: int)
    requires WellKeyed(crates)
    ensures WellKeyed(DefineCrate(crates, crateID).1)
  {
    var r := DefineCrate(crates, crateID).1;
    forall c, s
      ensures GetSlot(r, c, s) == if c == crateID && crateID !in crates then None else GetSlot(crates, c, s)
    {
    }
    forall c, s, n
      ensures GetChannel(r, c, s, n) == if c == crateID && crateID !in crates then None else GetChannel(crates, c, s, n)
    {
    }
  }

  lemma DefineSlotKeepsKeys(crates: CrateMap, crateID: int, slotID: int, frequency: int)
    requires WellKeyed(crates)
    ensures WellKeyed(DefineSlot(crates, crateID, slotID, frequency).1)
  {
    var r := DefineSlot(crates, crateID, slotID, frequency).1;
    forall c, s, n | GetChannel(r, c, s, n).Some?
      ensures GetChannel(r, c, s, n) == GetChannel(crates, c, s, n)
    {
    }
  }

  lemma DefineChannelKeepsKeys(crates: CrateMap, crateID: int, slotID: int, channelNumber: int,
                               eraw: bool, qdcs: bool, traces: bool,
                               algName: string, algFile: string, algIndex: int, isTagger: bool)
    requires WellKeyed(crates)
    ensures WellKeyed(DefineChannel(crates, crateID, slotID, channelNumber, eraw, qdcs, traces,
                                    algName, algFile, algIndex, isTagger).1)
  {
  }
}
