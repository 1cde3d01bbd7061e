/**
 * The experiment definition: a text file whose `D` (detector) and `T`
 * (tagger) lines declare channels, read line by line into the channel
 * registry and into the lists of detector and tagger channels.
 */
module Definitions {
  import opened Wrappers
  import opened Registry
  import opened StringStreams

  /** The largest number of characters one `fgets` call into a 2048-byte buffer returns. */
  const LINE_CHUNK: nat := 2047

  /**
   * The end of what one `fgets` call reads from `pos`: through the next
   * newline, or 2047 characters, or to the end of the text, whichever comes
   * first.
   */
  function ChunkEnd(text: string, pos: nat): (e: nat)
    requires pos < |text|
    ensures pos < e <= |text| && e - pos <= LINE_CHUNK
    ensures forall k :: pos <= k < e - 1 ==> text[k] != '\n'
    ensures e < |text| ==> text[e - 1] == '\n' || e - pos == LINE_CHUNK
    decreases |text| - pos
  {
    if text[pos] == '\n' || pos + 1 == |text| then pos + 1
    else ChunkEndFrom(text, pos, pos + 1)
  }

  function ChunkEndFrom(text: string, start: nat, pos: nat): (e: nat)
    requires start < pos < |text| && pos - start < LINE_CHUNK
    requires forall k :: start <= k < pos ==> text[k] != '\n'
    ensures pos < e <= |text| && e - start <= LINE_CHUNK
    ensures forall k :: start <= k < e - 1 ==> text[k] != '\n'
    ensures e < |text| ==> text[e - 1] == '\n' || e - start == LINE_CHUNK
    decreases |text| - pos
  {
    if text[pos] == '\n' || pos + 1 == |text| || pos + 1 - start == LINE_CHUNK then pos + 1
    else ChunkEndFrom(text, start, pos + 1)
  }

  /** The C string in a buffer: everything before the first NUL. */
  function UpToNul(chunk: string): (line: string)
    ensures |line| <= |chunk| && line == chunk[..|line|]
    ensures forall k :: 0 <= k < |line| ==> line[k] != '\0'
    ensures |line| < |chunk| ==> chunk[|line|] == '\0'
  {
    if chunk == [] || chunk[0] == '\0' then [] else [chunk[0]] + UpToNul(chunk[1..])
  }

  /** The first character of a line; an empty line reads as NUL. */
  function Head(line: string): char
  {
    if line == [] then '\0' else line[0]
  }

  /** The fields of a definition line, as the line parser extracts them. */
  datatype Fields = Fields(
    flag: char, crateID: int, slotID: int, channelNumber: int, frequency: int,
    eraw: bool, qdcs: bool, traces: bool,
    algName: string, algFile: string, algIndex: int)

  /** The optional trailing fields with the defaults of a failed extraction. */
  datatype Options = Options(eraw: bool, qdcs: bool, traces: bool, algName: string, algFile: string, algIndex: int)

  /**
   * The trailing fields read from `ss`: a flag is set when its integer is
   * read and non-zero, and each field whose extraction fails takes its
   * default (false, the empty name, index -1).
   */
  function ParseOptions(ss: Scan): Options
    requires ss.pos <= |ss.text|
  {
    var e := ReadInt(ss);
    var q := ReadInt(e.ss);
    var t := ReadInt(q.ss);
    var n := ReadWord(t.ss);
    var f := ReadWord(n.ss);
    var i := ReadInt(f.ss);
    Options(!e.ss.fail && e.value.value != 0,
            !q.ss.fail && q.value.value != 0,
            !t.ss.fail && t.value.value != 0,
            if n.ss.fail then "" else n.value.value,
            if f.ss.fail then "" else f.value.value,
            if i.ss.fail then -1 else i.value.value)
  }

  /**
   * The fields of a line, or None when one of the flag, crate, slot,
   * channel and frequency extractions leaves its (uninitialised) target
   * untouched, so the value used is indeterminate.
   */
  function ParseLine(line: string): Option<Fields>
  {
    var flag := ReadChar(Open(line));
    var crate := ReadInt(flag.ss);
    var slot := ReadInt(crate.ss);
    var channel := ReadInt(slot.ss);
    var freq := ReadInt(channel.ss);
    if flag.value.None? || crate.value.None? || slot.value.None? || channel.value.None? || freq.value.None?
    then None
    else
      var o := ParseOptions(freq.ss);
      Some(Fields(flag.value.value, crate.value.value, slot.value.value, channel.value.value, freq.value.value,
                  o.eraw, o.qdcs, o.traces, o.algName, o.algFile, o.algIndex))
  }

  /** The registry and the channel lists an experiment definition builds. */
  datatype Config = Config(crates: CrateMap, detectors: seq<Channel>, taggers: seq<Channel>)

  /** The result of reading lines: a configuration, or indeterminate. */
  datatype Parsed = Parsed(config: Config) | Indeterminate

  /** The channel a definition line describes. */
  function DefinedChannel(f: Fields): Channel
  {
    Channel(f.crateID, f.slotID, f.channelNumber, f.qdcs, f.eraw, f.traces,
            f.algName, f.algFile, f.algIndex, f.flag == 'T')
  }

  /**
   * The registry updates of one parsed line: its crate and its slot are added
   * when missing, then, for a `D` or `T` flag, its channel (a tagger for
   * `T`); a channel added anew is appended to the detector or tagger list,
   * and a channel already defined keeps its first definition.
   */
  function ApplyFields(cfg: Config, f: Fields): Config
  {
    var crates1 := DefineCrate(cfg.crates, f.crateID).1;
    var crates2 := DefineSlot(crates1, f.crateID, f.slotID, f.frequency).1;
    if f.flag != 'D' && f.flag != 'T' then cfg.(crates := crates2)
    else
      var added := DefineChannel(crates2, f.crateID, f.slotID, f.channelNumber, f.eraw, f.qdcs, f.traces,
                                 f.algName, f.algFile, f.algIndex, f.flag == 'T');
      if added.0 != 0 then cfg.(crates := crates2)
      else
        var ch := GetChannel(added.1, f.crateID, f.slotID, f.channelNumber).value;
        if f.flag == 'D' then Config(added.1, cfg.detectors + [ch], cfg.taggers)
        else Config(added.1, cfg.detectors, cfg.taggers + [ch])
  }

  /**
   * One line: a `D` or `T` line is parsed and applied; every other line
   * changes nothing.
   */
  function ApplyLine(cfg: Config, line: string): Parsed
  {
    if Head(line) != 'D' && Head(line) != 'T' then Parsed(cfg)
    else match ParseLine(line)
      case None => Indeterminate
      case Some(f) => Parsed(ApplyFields(cfg, f))
  }

  /** Every line of `text` from `pos` on, as `fgets` hands them out. */
  function ApplyText(cfg: Config, text: string, pos: nat): Parsed
    decreases if pos < |text| then |text| - pos else 0
  {
    if pos >= |text| then Parsed(cfg)
    else
      var next := ChunkEnd(text, pos);
      match ApplyLine(cfg, UpToNul(text[pos..next]))
      case Indeterminate => Indeterminate
      case Parsed(cfg') => ApplyText(cfg', text, next)
  }

  class ExperimentDefinition {
    /** The text of the opened definition file, if any, and the read position in it. */
    var file: Option<string>
    var cursor: nat
    var crates: CrateMap
    var detectors: seq<Channel>
    var taggers: seq<Channel>

    /** The configuration built so far. */
    function Current(): Config
      reads this
    {
      Config(crates, detectors, taggers)
    }

    /** A definition over an opened file (or none), with no crates and no channels. */
    constructor (file: Option<string>)
      ensures this.file == file && cursor == 0
      ensures crates == map[] && detectors == [] && taggers == []
    {
      this.file := file;
      cursor := 0;
      crates := map[];
      detectors, taggers := [], [];
    }

    /** Adds an empty crate unless the ID is taken (-1). */
    method AddCrate(crateID: int) returns (r: int)
      modifies this
      ensures (r, crates) == DefineCrate(old(crates), crateID)
      ensures detectors == old(detectors) && taggers == old(taggers)
      ensures file == old(file) && cursor == old(cursor)
    {
      if GetCrate(crates, crateID).Some? {
        return -1;
      }
      crates := crates[crateID := Crate(crateID, map[])];
      return 0;
    }

    /** Adds an empty slot with a frequency unless it exists or its crate is missing (-1). */
    method AddSlot(crateID: int, slotID: int, frequency: int) returns (r: int)
      modifies this
      ensures (r, crates) == DefineSlot(old(crates), crateID, slotID, frequency)
      ensures detectors == old(detectors) && taggers == old(taggers)
      ensures file == old(file) && cursor == old(cursor)
    {
      if GetSlot(crates, crateID, slotID).Some? {
        return -1;
      }
      var crate := GetCrate(crates, crateID);
      if crate.None? {
        return -1;
      }
      crates := crates[crateID := crate.value.AddSlot(slotID, frequency)];
      return 0;
    }

    /** Adds a channel unless it exists or its slot is missing (-1). */
    method AddChannel(crateID: int, slotID: int, channelNumber: int, eraw: bool, qdcs: bool, traces: bool,
                      algName: string, algFile: string, algIndex: int, isTagger: bool) returns (r: int)
      modifies this
      ensures (r, crates) == DefineChannel(old(crates), crateID, slotID, channelNumber, eraw, qdcs, traces,
                                           algName, algFile, algIndex, isTagger)
      ensures detectors == old(detectors) && taggers == old(taggers)
      ensures file == old(file) && cursor == old(cursor)
    {
      if GetChannel(crates, crateID, slotID, channelNumber).Some? {
        return -1;
      }
      var slot := GetSlot(crates, crateID, slotID);
      if slot.None? {
        return -1;
      }
      var crate := crates[crateID];
      var slot' := slot.value.AddChannel(channelNumber, eraw, qdcs, traces, algName, algFile, algIndex, isTagger);
      crates := crates[crateID := crate.(slotMap := crate.slotMap[slotID := slot'])];
      return 0;
    }

    /**
     * Reads every remaining line of the file into the registry and the
     * channel lists; -1 when no file is open.
     */
    method Read() returns (r: int)
      requires file.Some? ==> ApplyText(Current(), file.value, cursor) != Indeterminate
      modifies this
      ensures file == old(file)
      ensures file.None? ==> r == -1 && Current() == old(Current()) && cursor == old(cursor)
      ensures file.Some? ==> && r == 0
                             && ApplyText(old(Current()), file.value, old(cursor)) == Parsed(Current())
                             && cursor == if old(cursor) < |file.value| then |file.value| else old(cursor)
    {
      if file.None? {
        return -1;
      }
      var text := file.value;
      ghost var target := ApplyText(Current(), text, cursor);
      ghost var start := cursor;
      while cursor < |text|
        invariant file == old(file) && ApplyText(Current(), text, cursor) == target
        invariant target != Indeterminate
        invariant cursor == start || start <= cursor <= |text|
        decreases |text| - cursor
      {
        var next := ChunkEnd(text, cursor);
        var line := UpToNul(text[cursor..next]);
        cursor := next;
        ReadLine(line);
      }
      return 0;
    }

    /** The handling of one line by the read loop. */
    method ReadLine(line: string)
      requires ApplyLine(Current(), line) != Indeterminate
      modifies this
      ensures Parsed(Current()) == ApplyLine(old(Current()), line)
      ensures file == old(file) && cursor == old(cursor)
    {
      var head := Head(line);
      if head != 'D' && head != 'T' {
        return;
      }
      var fields := ParseLine(line);
      if fields.None? {
        assert false;
      }
      DefineLine(fields.value);
    }

    /** The registry calls for one parsed `D` or `T` line. */
    method DefineLine(f: Fields)
      modifies this
      ensures Current() == ApplyFields(old(Current()), f)
      ensures file == old(file) && cursor == old(cursor)
    {
      var _ := AddCrate(f.crateID);
      var _ := AddSlot(f.crateID, f.slotID, f.frequency);
      if f.flag == 'D' || f.flag == 'T' {
        var isTagger := f.flag == 'T';
        var r := AddChannel(f.crateID, f.slotID, f.channelNumber, f.eraw, f.qdcs, f.traces,
                            f.algName, f.algFile, f.algIndex, isTagger);
        if r != 0 {
          return;
        }
        var ch := GetChannel(crates, f.crateID, f.slotID, f.channelNumber).value;
        if isTagger {
          taggers := taggers + [ch];
        } else {
          detectors := detectors + [ch];
        }
      }
    }
  }

  /** A line that does not start with `D` or `T` (blank, comment, `C`, anything else) changes nothing. */
  lemma OtherLinesIgnored(cfg: Config, line: string)
    requires Head(line) != 'D' && Head(line) != 'T'
    ensures ApplyLine(cfg, line) == Parsed(cfg)
  {
  }

  /** A `D` or `T` at the head of a line is the flag the parser reads. */
  lemma FlagIsHead(line: string)
    requires Head(line) == 'D' || Head(line) == 'T'
    ensures ReadChar(Open(line)) == Extracted(Scan(line, 1, false, false), Some(Head(line)))
  {
    assert SkipSpace(line, 0) == 0;
  }

  /**
   * After a failed extraction, or with nothing but white space left, every
   * trailing field takes its default: no raw energy sums, no QDCs, no
   * traces, no algorithm name or file and algorithm index -1.
   */
  lemma OptionsDefault(ss: Scan)
    requires ss.pos <= |ss.text|
    requires ss.fail || ss.eof || Exhausted(ss)
    ensures ParseOptions(ss) == Options(false, false, false, "", "", -1)
  {
    ExhaustedFails(ss);
    var e := ReadInt(ss);
    ExhaustedFails(e.ss);
    var q := ReadInt(e.ss);
    ExhaustedFails(q.ss);
    var t := ReadInt(q.ss);
    ExhaustedFails(t.ss);
    var n := ReadWord(t.ss);
    ExhaustedFails(n.ss);
    var f := ReadWord(n.ss);
    ExhaustedFails(f.ss);
  }

  /** A line giving only the address and the frequency gets the default flags. */
  lemma AddressOnlyLine(line: string)
    requires line == "D 1 2 3 250\n"
    ensures ParseLine(line) == Some(Fields('D', 1, 2, 3, 250, false, false, false, "", "", -1))
  {
    FlagIsHead(line);
    ExampleAddress(line);
    ExampleChannel(line);
    ExampleFrequency(line);
    OptionsDefault(Scan(line, 11, false, false));
  }

  lemma ExampleAddress(line: string)
    requires line == "D 1 2 3 250\n"
    ensures ReadInt(Scan(line, 1, false, false)) == Extracted(Scan(line, 3, false, false), Some(1))
    ensures ReadInt(Scan(line, 3, false, false)) == Extracted(Scan(line, 5, false, false), Some(2))
  {
    ReadDigit(Scan(line, 1, false, false));
    ReadDigit(Scan(line, 3, false, false));
  }

  lemma ExampleChannel(line: string)
    requires line == "D 1 2 3 250\n"
    ensures ReadInt(Scan(line, 5, false, false)) == Extracted(Scan(line, 7, false, false), Some(3))
  {
    ReadDigit(Scan(line, 5, false, false));
  }

  lemma ExampleFrequency(line: string)
    requires line == "D 1 2 3 250\n"
    ensures ReadInt(Scan(line, 7, false, false)) == Extracted(Scan(line, 11, false, false), Some(250))
    ensures Exhausted(Scan(line, 11, false, false))
  {
    assert Magnitude(line[8..11]) == 250 by {
      assert line[8..11] == "250" && "250"[..2] == "25" && "25"[..1] == "2" && "2"[..0] == "";
    }
    ReadUnsigned(Scan(line, 7, false, false), 8, 11, 250);
  }

  /** `>>` into an `int` over white space and then an unsigned run of digits. */
  lemma ReadUnsigned(ss: Scan, start: nat, end: nat, v: int)
    requires !ss.fail && !ss.eof && ss.pos <= start < end <= |ss.text|
    requires forall k :: ss.pos <= k < start ==> IsSpace(ss.text[k])
    requires forall k :: start <= k < end ==> IsDigit(ss.text[k])
    requires end < |ss.text| ==> !IsDigit(ss.text[end])
    requires !IsSpace(ss.text[start]) && Magnitude(ss.text[start..end]) == v <= INT_MAX
    ensures ReadInt(ss) == Extracted(Scan(ss.text, end, false, end == |ss.text|), Some(v))
  {
    SkipSpaceTo(ss.text, ss.pos, start);
    DigitEndTo(ss.text, start, end);
  }

  /** `>>` into an `int` over one white-space character and then a single digit. */
  lemma ReadDigit(ss: Scan)
    requires !ss.fail && !ss.eof && ss.pos + 2 < |ss.text|
    requires IsSpace(ss.text[ss.pos]) && IsDigit(ss.text[ss.pos + 1]) && !IsDigit(ss.text[ss.pos + 2])
    ensures ReadInt(ss) == Extracted(Scan(ss.text, ss.pos + 2, false, false), Some(ss.text[ss.pos + 1] as int - '0' as int))
  {
    var d := ss.text[ss.pos + 1..ss.pos + 2];
    assert d[..0] == [];
    ReadUnsigned(ss, ss.pos + 1, ss.pos + 2, ss.text[ss.pos + 1] as int - '0' as int);
  }

  lemma {:induction false} SkipSpaceTo(t: string, i: nat, j: nat)
    requires i <= j < |t| && !IsSpace(t[j])
    requires forall k :: i <= k < j ==> IsSpace(t[k])
    ensures SkipSpace(t, i) == j
    decreases j - i
  {
    if i < j {
      SkipSpaceTo(t, i + 1, j);
    }
  }

  lemma {:induction false} DigitEndTo(t: string, i: nat, j: nat)
    requires i <= j <= |t| && (j < |t| ==> !IsDigit(t[j]))
    requires forall k :: i <= k < j ==> IsDigit(t[k])
    ensures DigitEnd(t, i) == j
    decreases j - i
  {
    if i < j {
      DigitEndTo(t, i + 1, j);
    }
  }

  /** The address of a channel. */
  function Address(ch: Channel): (int, int, int)
  {
    (ch.crateID, ch.slotID, ch.channelNumber)
  }

  /**
   * A channel list as the definition keeps it: every entry is the channel
   * the registry holds at its address, with the given tagger flag, and no
   * address is listed twice.
   */
  ghost predicate Listed(crates: CrateMap, chs: seq<Channel>, tagger: bool)
  {
    && (forall i :: 0 <= i < |chs| ==>
          chs[i].isTagger == tagger && GetChannel(crates, chs[i].crateID, chs[i].slotID, chs[i].channelNumber) == Some(chs[i]))
    && forall i, j :: 0 <= i < j < |chs| ==> Address(chs[i]) != Address(chs[j])
  }

  /** The registry is well keyed and both lists agree with it. */
  ghost predicate Consistent(cfg: Config)
  {
    WellKeyed(cfg.crates) && Listed(cfg.crates, cfg.detectors, false) && Listed(cfg.crates, cfg.taggers, true)
  }

  /** Every defined channel and every defined slot is still there, unchanged. */
  ghost predicate Keeps(before: CrateMap, after: CrateMap)
  {
    && (forall c, s, n :: GetChannel(before, c, s, n).Some? ==> GetChannel(after, c, s, n) == GetChannel(before, c, s, n))
    && forall c, s :: GetSlot(before, c, s).Some? ==>
         GetSlot(after, c, s).Some? && GetSlot(after, c, s).value.freq == GetSlot(before, c, s).value.freq
  }

  lemma DefineCrateKeeps(crates: CrateMap, crateID: int)
    ensures Keeps(crates, DefineCrate(crates, crateID).1)
  {
    var r := DefineCrate(crates, crateID).1;
    forall c, s | GetSlot(crates, c, s).Some?
      ensures GetSlot(r, c, s) == GetSlot(crates, c, s)
    {
    }
  }

  lemma DefineSlotKeeps(crates: CrateMap, crateID: int, slotID: int, frequency: int)
    ensures Keeps(crates, DefineSlot(crates, crateID, slotID, frequency).1)
  {
    var r := DefineSlot(crates, crateID, slotID, frequency).1;
    forall c, s, n | GetChannel(crates, c, s, n).Some?
      ensures GetChannel(r, c, s, n) == GetChannel(crates, c, s, n)
    {
    }
  }

  /**
   * A line whose channel is already defined changes nothing: its crate and
   * its slot exist, so the first frequency stays, and the channel keeps its
   * first definition and is not listed again.
   */
  lemma RepeatedChannel(cfg: Config, f: Fields)
    requires GetChannel(cfg.crates, f.crateID, f.slotID, f.channelNumber).Some?
    ensures ApplyFields(cfg, f) == cfg
  {
  }

  /**
   * A `D` or `T` line for an undefined channel defines it with the parsed
   * fields (a tagger exactly for `T`) and appends it to the detector list
   * for `D` or to the tagger list for `T`; every channel and slot defined
   * before is kept.
   */
  lemma NewChannel(cfg: Config, f: Fields)
    requires WellKeyed(cfg.crates)
    requires f.flag == 'D' || f.flag == 'T'
    requires GetChannel(cfg.crates, f.crateID, f.slotID, f.channelNumber).None?
    ensures GetChannel(ApplyFields(cfg, f).crates, f.crateID, f.slotID, f.channelNumber) == Some(DefinedChannel(f))
    ensures f.flag == 'D' ==> ApplyFields(cfg, f).detectors == cfg.detectors + [DefinedChannel(f)]
                              && ApplyFields(cfg, f).taggers == cfg.taggers
    ensures f.flag == 'T' ==> ApplyFields(cfg, f).taggers == cfg.taggers + [DefinedChannel(f)]
                              && ApplyFields(cfg, f).detectors == cfg.detectors
    ensures Keeps(cfg.crates, ApplyFields(cfg, f).crates)
  {
    var crates1 := DefineCrate(cfg.crates, f.crateID).1;
    DefineCrateKeeps(cfg.crates, f.crateID);
    DefineCrateKeepsKeys(cfg.crates, f.crateID);
    var crates2 := DefineSlot(crates1, f.crateID, f.slotID, f.frequency).1;
    DefineSlotKeeps(crates1, f.crateID, f.slotID, f.frequency);
    DefineSlotKeepsKeys(crates1, f.crateID, f.slotID, f.frequency);
    assert GetSlot(crates2, f.crateID, f.slotID).Some?;
    var slot := GetSlot(crates2, f.crateID, f.slotID).value;
    assert slot.crateID == f.crateID && slot.slotID == f.slotID;
  }

  /** Applying one parsed line keeps the registry and the lists consistent. */
  lemma ApplyFieldsConsistent(cfg: Config, f: Fields)
    requires Consistent(cfg)
    ensures Consistent(ApplyFields(cfg, f)) && Keeps(cfg.crates, ApplyFields(cfg, f).crates)
    ensures cfg.detectors <= ApplyFields(cfg, f).detectors && cfg.taggers <= ApplyFields(cfg, f).taggers
  {
    var after := ApplyFields(cfg, f);
    if GetChannel(cfg.crates, f.crateID, f.slotID, f.channelNumber).Some? {
      RepeatedChannel(cfg, f);
    } else if f.flag == 'D' || f.flag == 'T' {
      NewChannel(cfg, f);
      DefineCrateKeepsKeys(cfg.crates, f.crateID);
      var crates1 := DefineCrate(cfg.crates, f.crateID).1;
      DefineSlotKeepsKeys(crates1, f.crateID, f.slotID, f.frequency);
      var crates2 := DefineSlot(crates1, f.crateID, f.slotID, f.frequency).1;
      DefineChannelKeepsKeys(crates2, f.crateID, f.slotID, f.channelNumber, f.eraw, f.qdcs, f.traces,
                             f.algName, f.algFile, f.algIndex, f.flag == 'T');
      ListedExtends(cfg.crates, after.crates, cfg.detectors, false, f);
      ListedExtends(cfg.crates, after.crates, cfg.taggers, true, f);
    } else {
      var crates1 := DefineCrate(cfg.crates, f.crateID).1;
      DefineCrateKeeps(cfg.crates, f.crateID);
      DefineCrateKeepsKeys(cfg.crates, f.crateID);
      DefineSlotKeeps(crates1, f.crateID, f.slotID, f.frequency);
      DefineSlotKeepsKeys(crates1, f.crateID, f.slotID, f.frequency);
      ListedKept(cfg.crates, after.crates, cfg.detectors, false);
      ListedKept(cfg.crates, after.crates, cfg.taggers, true);
    }
  }

  lemma ListedKept(before: CrateMap, after: CrateMap, chs: seq<Channel>, tagger: bool)
    requires Listed(before, chs, tagger) && Keeps(before, after)
    ensures Listed(after, chs, tagger)
  {
    forall i | 0 <= i < |chs|
      ensures GetChannel(after, chs[i].crateID, chs[i].slotID, chs[i].channelNumber) == Some(chs[i])
    {
      assert GetChannel(before, chs[i].crateID, chs[i].slotID, chs[i].channelNumber).Some?;
    }
  }

  lemma ListedExtends(before: CrateMap, after: CrateMap, chs: seq<Channel>, tagger: bool, f: Fields)
    requires Listed(before, chs, tagger) && Keeps(before, after)
    requires GetChannel(before, f.crateID, f.slotID, f.channelNumber).None?
    requires GetChannel(after, f.crateID, f.slotID, f.channelNumber) == Some(DefinedChannel(f))
    ensures Listed(after, chs, tagger)
    ensures DefinedChannel(f).isTagger == tagger ==> Listed(after, chs + [DefinedChannel(f)], tagger)
  {
    ListedKept(before, after, chs, tagger);
    var ch := DefinedChannel(f);
    if ch.isTagger == tagger {
      var chs' := chs + [ch];
      forall i, j | 0 <= i < j < |chs'|
        ensures Address(chs'[i]) != Address(chs'[j])
      {
        if j == |chs| {
          assert GetChannel(before, chs[i].crateID, chs[i].slotID, chs[i].channelNumber).Some?;
        }
      }
    }
  }

  /**
   * Reading lines keeps the registry and the lists consistent, keeps every
   * channel and slot already defined (the first definition wins) and only
   * appends to the lists.
   */
  lemma {:induction false} ApplyTextConsistent(cfg: Config, text: string, pos: nat)
    requires Consistent(cfg) && ApplyText(cfg, text, pos) != Indeterminate
    ensures var after := ApplyText(cfg, text, pos).config;
            && Consistent(after) && Keeps(cfg.crates, after.crates)
            && cfg.detectors <= after.detectors && cfg.taggers <= after.taggers
    decreases if pos < |text| then |text| - pos else 0
  {
    if pos < |text| {
      var next := ChunkEnd(text, pos);
      var line := UpToNul(text[pos..next]);
      var step := ApplyLine(cfg, line);
      if Head(line) == 'D' || Head(line) == 'T' {
        ApplyFieldsConsistent(cfg, ParseLine(line).value);
      }
      ApplyTextConsistent(step.config, text, next);
    }
  }
}
