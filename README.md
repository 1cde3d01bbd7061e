# pixie2root list-mode decoding, modelled in Dafny

pixie2root converts the list-mode output of XIA Pixie-16 digitizers into
events. This project models the core of that converter:

- the **record decoder** (`Measurement::read` with `ProcessCFD` and
  `ProcessTime`). It takes one variable-length record out of a binary file.
  The header is 4 to 31 little-endian 32-bit words (energy sums come only
  with 8 or 16 words and QDC sums only with 12 or 16), cut into fields
  with fixed masks, and an optional trace of 16-bit samples may follow. The
  48-bit timestamp is corrected with the constant-fraction (CFD) word at the
  slot's sampling frequency (100, 250 or 500 MHz).
- the **event builder** (`Event`, `Event::read`). It groups consecutive
  records into one event while each record's time is within the coincidence
  window of the record before it. The event closes at:
  - a record outside the window;
  - a repeated channel that is not a tagger;
  - the end of the data;
  - the byte ceiling.

  It keeps pileup, forced-CFD and out-of-range counters and a multiplicity
  histogram.
- the **batch driver** (`Reader`). It reads events up to a count or a byte
  ceiling and keeps running totals.
- the **experiment definition** (`Experiment_Definition`). It has two parts:
  - the channel registry (crates → slots → channels), in which every first
    definition wins;
  - the reader of the definition file, whose `D` (detector) and `T` (tagger)
    lines declare channels. Each line is parsed with C++ string-stream
    extraction.

Modules, one per file:

| file | module | what it holds |
|---|---|---|
| `wrappers.dfy` | `Wrappers` | `Option` |
| `bits.dfy` | `Bits` | masks, little-endian words, 64-bit wrap-around, C++ truncating division |
| `layout.dfy` | `Layout` | the mask constants and the first header word |
| `fine_time.dfy` | `FineTime` | `ProcessCFD`, the timestamp, `ProcessTime` |
| `registry.dfy` | `Registry` | channels, slots, crates and the registry operations |
| `list_file.dfy` | `ListFiles` | the binary file with its stdio position (class) |
| `records.dfy` | `Records` | the record decoder, as a specification `Decode` and as methods over the file |
| `coincidence.dfy` | `Coincidence` | the event-building rule as a specification (`Gather`, `Collect`) |
| `events.dfy` | `Events` | class `Event` and its `Read` |
| `reader.dfy` | `Readers` | class `Reader`; the driver loop as a specification (`Build`) |
| `string_stream.dfy` | `StringStreams` | `>>` into `char`, `int` and `std::string` with fail/eof flags |
| `definition.dfy` | `Definitions` | class `ExperimentDefinition`; the line parser and the definition-file reader |
| `line_format.dfy` | `LineFormat` | definition lines written from their fields, and the proof that the parser reads them back |

### How the model is organised

- **Specifications and methods.** Each loop of the source is a method.
  The method is proved against a function that states its outcome:
  - `ReadMeasurement` against `Decode`;
  - `Event.Read` against `Collect`;
  - `Reader.Read` against `Build`;
  - `ExperimentDefinition.Read` against `ApplyText`.

  Lemmas then prove what those functions promise.
- **Undefined behaviour** in the source is an explicit outcome rather than a
  precondition over the whole file:
  - `Unsafe` covers a header buffer that is too short, and the flags of a
    null channel.
  - `Undefined` covers what the event builder cannot do: read an `Unsafe`
    record, or read a null channel's tagger flag. It also covers a loop
    that never ends, on a tagger record within its own window that ends
    where it starts.
  - `Aborted` covers what the driver cannot do: read an `Undefined` event,
    fail the `assert` in `eof()`, or repeat a loop with no count limit
    that makes no progress.
  - `Indeterminate` covers an uninitialised `int` read by the definition
    parser.

  Methods require that the outcome of their specification is not one of
  these.
- **Machine integers.** Header words are `bv32`. Unsigned 64-bit time
  arithmetic is written with `Wrap64`. The 500 MHz division truncates
  toward zero (`TruncDiv`). The string-stream `int` extraction clamps to the
  32-bit range and sets the fail flag, as C++11 specifies.

## Model

| member | source | states |
|---|---|---|
| Bits.TruncDiv | src/measurement.cc:64 | C++ `/` by a positive divisor: the remainder has the sign of the dividend and is smaller than the divisor |
| Bits.TruncDivDiffersFromFloor | src/measurement.cc:64 | -4 / 5 is 0 in C++ where floor division gives -1 |
| Bits.Wrap64 | src/event.cc:30 | a value converted to `uint64_t` lies below 2^64 and is unchanged when already in range |
| Layout.SplitHeader | src/measurement.cc:93-98 | every field cut from the first header word fits its mask's width |
| Layout.PackHeader | src/measurement.cc:8-13 | packing in-range header fields into a word and splitting it again gives the same fields |
| Layout.HeaderMasksPartitionWord | src/measurement.cc:8-13 | the six first-word masks are pairwise disjoint and cover all 32 bits |
| Layout.SplitHeaderIsLossless | src/measurement.cc:93-98 | splitting a header word loses no bit: packing the fields rebuilds the word |
| Layout.WholeWordMasks | src/measurement.cc:28-33 | the energy-sum, baseline, QDC and low-time masks take a word unchanged |
| FineTime.ProcessCFD | src/measurement.cc:35-71 | the force flag is 0 or 1 at every frequency |
| FineTime.Time100IsField | src/measurement.cc:20 | the 100 MHz time mask is bits 16-30 |
| FineTime.Time100Bound | src/measurement.cc:20 | the 100 MHz fraction is below 32768 |
| FineTime.Time250IsField | src/measurement.cc:21 | the 250 MHz time mask is bits 16-29 |
| FineTime.Time250Bound | src/measurement.cc:21 | the 250 MHz fraction is below 16384 |
| FineTime.Time500IsField | src/measurement.cc:22 | the 500 MHz time mask is bits 16-28 |
| FineTime.Time500Bound | src/measurement.cc:22 | the 500 MHz fraction is below 8192 |
| FineTime.ForceIsBit31 | src/measurement.cc:23-24 | both force masks select bit 31 |
| FineTime.TrigSource250IsBit30 | src/measurement.cc:25 | the 250 MHz trigger source is bit 30 |
| FineTime.TrigSource500IsField | src/measurement.cc:26 | the 500 MHz trigger source is bits 29-31 |
| FineTime.TrigSource500Bound | src/measurement.cc:26 | the 500 MHz trigger source is below 8 |
| FineTime.CFDAt100 | src/measurement.cc:37-42 | at 100 MHz the result is (bits 16-30, bit 31) and the fraction lies in 0..32767 |
| FineTime.CFDAt250 | src/measurement.cc:43-54 | at 250 MHz the force flag is bit 31. A forced fraction is 16384; otherwise it is bits 16-29 less 16384 times bit 30. The fraction lies in -16384..16384 |
| FineTime.CFDAt500 | src/measurement.cc:55-66 | at 500 MHz trigger source 7 gives (32768, forced). Any other source gives the C++-truncated (fine + 8192·(source−1))·4/5, unforced. The fraction lies in -6553..39320 |
| FineTime.Fraction500 | src/measurement.cc:55-66 | the two 500 MHz cases, without the range |
| FineTime.Range500 | src/measurement.cc:55-66 | the 500 MHz fraction lies in -6553..39320 |
| FineTime.CFDAtOtherFrequency | src/measurement.cc:67-70 | any other frequency gives fraction 0, force 0 |
| FineTime.TimestampBound | src/measurement.cc:109-114 | the assembled timestamp has 48 bits |
| FineTime.TimeWordBounds | src/measurement.cc:109-110 | the high time field is below 2^16 and the low word below 2^32 |
| FineTime.TimeHighIsField | src/measurement.cc:15 | the high time mask is bits 0-15 |
| FineTime.TimeLowIsWord | src/measurement.cc:14 | the low time mask takes the whole word |
| FineTime.TimestampSplits | src/measurement.cc:109-114 | the timestamp divides back into the high field and the low word |
| FineTime.ProcessTime | src/measurement.cc:73-82 | the time lies below 2^64 and the force flag is the CFD's |
| FineTime.CorrectedTime | src/measurement.cc:73-82 | the time is (timestamp·2^15 + fraction) mod 2^64. At 250 MHz it is then multiplied by 8 mod 2^64 and divided by 10 |
| FineTime.Time100KeepsTimestamp | src/measurement.cc:73-82 | at 100 MHz the time's quotient by 2^15 is the timestamp and its remainder is the fraction |
| FineTime.Time250ScalesByFourFifths | src/measurement.cc:77-79 | at 250 MHz, for timestamps from 1 to below 2^45, the time is the floor of 4/5 of the corrected sum |
| FineTime.Time250WrapsForLateTimestamps | src/measurement.cc:77-79 | the 64-bit multiplication by 8 wraps: timestamp 2^47 at 250 MHz gives time 0 |
| FineTime.NegativeFractionWraps | src/measurement.cc:73-76 | trigger source 0 at 500 MHz gives fraction -6553, which wraps timestamp 0 to 2^64 − 6553 |
| Registry.Slot.GetChannel | src/experiment_definition.cc:135-142 | present exactly when the channel number is in the slot, and then it is that channel |
| Registry.Slot.AddChannel | src/experiment_definition.cc:144-164 | the channel is stored with the slot's crate and slot IDs and the given flags. The other channels and the slot's IDs and frequency are unchanged |
| Registry.Crate.GetSlot | src/experiment_definition.cc:118-125 | present exactly when the slot ID is in the crate |
| Registry.Crate.AddSlot | src/experiment_definition.cc:127-133 | an empty slot with the frequency is stored under the ID. The other slots are unchanged |
| Registry.GetCrate | src/experiment_definition.cc:166-174 | present exactly when the crate ID is registered |
| Registry.GetSlot | src/experiment_definition.cc:176-187 | absent exactly when the crate or the slot is absent |
| Registry.GetChannel | src/experiment_definition.cc:189-198 | absent exactly when some level of the address is absent |
| Registry.DefineCrate | src/experiment_definition.cc:200-209 | an existing crate gives -1 and no change. Otherwise the result is 0, with an empty crate added and every other crate kept |
| Registry.DefineSlot | src/experiment_definition.cc:211-232 | an existing slot or a missing crate gives -1 and no change. Otherwise the result is 0, with the slot added empty with the frequency and every other slot and every crate kept |
| Registry.DefineChannel | src/experiment_definition.cc:234-261 | an existing channel or a missing slot gives -1 and no change. Otherwise the result is 0, and the channel is found with the given flags. Every other address, every slot, every frequency and every crate is kept |
| Registry.EmptyIsWellKeyed | src/experiment_definition.hh:95 | the empty registry files every record under its own IDs |
| Registry.DefineCrateKeepsKeys | src/experiment_definition.cc:200-209 | adding a crate keeps every crate, slot and channel filed under its own IDs |
| Registry.DefineSlotKeepsKeys | src/experiment_definition.cc:211-232 | adding a slot keeps every record filed under its own IDs |
| Registry.DefineChannelKeepsKeys | src/experiment_definition.cc:234-261 | adding a channel keeps every record filed under its own IDs |
| ListFiles.ListFile.ReadWords | src/measurement.cc:88-107 | `fread` of n words succeeds exactly when they lie in the file and then advances past them. A short read leaves the position at the end of the file |
| ListFiles.ListFile.ReadHalves | src/measurement.cc:164-168 | `fread` of n 16-bit samples, with the same full/short behaviour |
| ListFiles.ListFile.Skip | src/measurement.cc:157-160 | a relative `fseek` moves the position by the offset |
| ListFiles.ListFile.SeekTo | src/reader.cc:56-60 | an absolute `fseek` moves to a non-negative offset and fails, leaving the position, for a negative one |
| ListFiles.ListFile.SetPos | src/measurement.cc:87-90 | `fsetpos` restores the saved position |
| Records.QDCsAt | src/measurement.cc:135-139 | there are eight QDC sums |
| Records.DecodeHeader | src/measurement.cc:84-107 | a decoded header has at least four words and a non-negative event length, lies in the file, and ends `4·headerLength` bytes after the record start |
| Records.DecodeAtEnd | src/measurement.cc:88-91 | with no room for a first word the result is the end of the data |
| Records.HeaderFromWords | src/measurement.cc:93-126 | a header is decoded only when its first word declares at least 4 words that lie in the file. The measurement is the one those words yield |
| Records.DecodeUnsafe | src/measurement.cc:103-156 | decoding is undefined only for a header shorter than 4 words, or for a record with trace words whose channel is not registered |
| Records.HeaderOnlyRecordsAreSafe | src/measurement.cc:103-154 | a record without trace words, with a header of at least 4 words, decodes or reaches the end of the data, whatever channel it names |
| Records.TraceAdvances | src/measurement.cc:151-185 | after the header, the record ends at the header (no trace words), after the skipped words, or after `traceLength` samples. Samples come back exactly when they are captured and there are trace words. A trace that is read lies in the file |
| Records.DecodeAdvances | src/measurement.cc:84-187 | a decoded record carries its header's measurement and ends where the trace stage leaves the position |
| Records.DecodedMovesForward | src/measurement.cc:84-187 | a decoded record starts inside the data and ends no earlier than it starts, ending where it starts exactly when its event length is 0 and its trace words are skipped |
| Records.HeaderTiming | src/measurement.cc:109-120 | for a registered channel, the event time is `ProcessTime` of the timestamp in words 1-2 at the slot's frequency, and the force flag is the CFD word's |
| Records.HeaderUnknownChannelTiming | src/measurement.cc:116-123 | an unregistered channel keeps event time 0 and force 0 |
| Records.HeaderVariants | src/measurement.cc:128-149 | energy sums exactly for 8- or 16-word headers; QDC sums exactly for 12- or 16-word headers |
| Records.HeaderEnergySums | src/measurement.cc:129-144 | the energy sums are header words 4-7, taken whole |
| Records.HeaderQDCSums | src/measurement.cc:135-148 | the QDC sums are words 4-11 of a 12-word header, or words 8-15 of a 16-word header |
| Records.ReadQDCs | src/measurement.cc:136-138 | the loop fills the eight QDC sums from consecutive words |
| Records.HeaderMeasurement | src/measurement.cc:93-149 | the field-by-field assembly gives the header's measurement |
| Records.ReadHeader | src/measurement.cc:84-107 | it succeeds exactly when the header decodes, and then leaves the position after the header. Otherwise the position is restored |
| Records.ReadTrace | src/measurement.cc:151-185 | it succeeds exactly when the trace stage decodes, and then returns its samples and position. Otherwise the position goes back to the record start |
| Records.ReadMeasurement | src/measurement.cc:84-187 | it returns 0 exactly when the record decodes (with its measurement, trace and next position), and -1 exactly at the end of the data, with the position restored |
| Coincidence.Find | src/event.hh:53-63 | the first index holding the address, or none exactly when no measurement has it |
| Coincidence.TallyCountsPileups | src/event.hh:38-40 | the pileup counter counts the measurements with finish code 1 |
| Coincidence.TallyAppend | src/event.hh:35-46 | the counters of a concatenation are the sums of the parts' counters |
| Coincidence.CollectSeeds | src/event.cc:20-33 | the seed record joins the event and opens a window at its time plus the window width |
| Coincidence.GatherJoins | src/event.cc:55-95 | a record that joins moves the event on to the next position with the window moved to its time |
| Coincidence.GatherCloses | src/event.cc:37-99 | the event closes, unchanged, at its position on the byte ceiling, the end of the data, a record beyond the window or a repeated address on a configured channel that is not a tagger |
| Coincidence.GatherStalls | src/event.cc:55-95 | a record that ends where it starts is taken, and then read again at once from the same position with the window at its time |
| Coincidence.StallRereads | src/event.cc:55-95 | after taking a record that ends where it starts, the reader is about to read it again as a repeat of itself |
| Coincidence.RereadEnds | src/event.cc:55-95 | a record read again closes the event beyond the window or on a channel that is not a tagger, and on a tagger within the window the reader never stops |
| Coincidence.GatherTakes | src/event.cc:55-95 | taking a record continues gathering after it, moves the position forward unless the record ends where it starts, and never takes a record read again |
| Coincidence.GatherStallCloses | src/event.cc:55-106 | a new non-tagger record that ends where it starts is appended, and the event closes at its own position |
| Coincidence.RepeatsItself | src/event.cc:58 | a measurement appended to an event repeats its own address there |
| Coincidence.GatherExtends | src/event.cc:89 | building only appends to the event |
| Coincidence.CollectAppends | src/event.cc:20-36 | a closed event holds the seed after what it held, so its multiplicity is at least 1 |
| Coincidence.GatherSlides | src/event.cc:55-93 | each gathered measurement is no later than the previous one's time plus the window, mod 2^64 |
| Coincidence.GatherRepeatsOnlyTaggers | src/event.cc:58-72 | a gathered measurement that repeats an address in the event comes from a registered tagger |
| Coincidence.GatherStops | src/event.cc:37-99 | at its resume position the event met the ceiling, the end of the data, a record beyond the window, or a repeated non-tagger channel |
| Coincidence.StopsHere | src/event.cc:55-99 | an event whose next record does not join closes where it met the ceiling, the end of the data, a record beyond the window, or a repeated non-tagger channel, also when that record is re-read without advancing |
| Events.Event.constructor | src/event.hh:24-33 | an empty event with zero counters and zero histogram |
| Events.Event.AddMeasurement | src/event.hh:35-46 | the measurement is appended. The pileups rise by one exactly for finish code 1, and the forced-CFD and out-of-range flags are added. It returns 0 |
| Events.Event.GetMeasurement | src/event.hh:53-63 | it finds the first measurement with the address, or none exactly when there is none |
| Events.Event.Read | src/event.cc:12-109 | it returns 1, changing nothing, exactly when there is no seed record. Otherwise it returns 0, with the measurements and rewind position of `Collect` and the multiplicity bucket raised |
| Events.Event.GatherLoop | src/event.cc:37-99 | the loop ends where `Gather` says, with the multiplicity counting the joined records |
| Events.ReadRecord | src/event.cc:48-52 | a record read by the event builder is the stream's decoded record, or the end of the data with the position kept |
| Readers.Histogram | src/event.cc:101-104 | a fresh event's histogram marks bucket `mult` and no other |
| Readers.Reader.constructor | src/reader.cc:18-45 | all totals and buckets are zero, the end flag is clear, the ceiling is -1 and the start offset is 0 |
| Readers.Reader.SetOffset | src/reader.cc:56-60 | it seeks to the offset (a negative one leaves the position), records it as the start offset and returns it. Every total, the end flag, the ceiling and the file length are unchanged |
| Readers.Reader.Eof | src/reader.cc:78-90 | true exactly when the position is the file length, which it may not exceed |
| Readers.Reader.Read | src/reader.cc:125-177 | it returns 0. The events, totals, position and end flag are those of `Build`, the ceiling and file length are recorded, and the same-channel counter and the start offset are unchanged |
| Readers.Reader.Advance | src/reader.cc:135-171 | one pass of the loop follows one step of `Build`, keeping the ceiling, file length, same-channel counter and start offset |
| Readers.Reader.Accumulate | src/reader.cc:158-166 | the totals grow by one event's counters, size and histogram; the ceiling, file length, end flag, same-channel counter and start offset are unchanged |
| Readers.ReadEvent | src/reader.cc:145-153 | a fresh event reads the event the event stream gives at the position |
| Readers.BuildStep | src/reader.cc:135-175 | one step of `Build`; an unlimited loop moves strictly forward |
| Readers.BuildExtends | src/reader.cc:169 | the driver only appends to the caller's list |
| Readers.BuildSums | src/reader.cc:158-166 | the totals grow by the events appended: their number, their measurements, their tallied counters and their multiplicities |
| Readers.BuildStops | src/reader.cc:135-175 | at most `max` events when `max` ≥ 0. The end flag is set only at the ceiling or when no event is left. Otherwise the loop stopped at the end of the file or after `max` events |
| Readers.BuildFills | src/reader.cc:145-169 | every appended event holds at least one measurement, and its counters and histogram are those of a fresh event filled with them |
| StringStreams.SkipSpace | src/experiment_definition.cc:66-82 | the first non-space position at or after the start |
| StringStreams.DigitEnd | src/experiment_definition.cc:67-70 | the end of the run of digits |
| StringStreams.WordEnd | src/experiment_definition.cc:79-82 | the end of the run of non-space characters |
| StringStreams.ReadChar | src/experiment_definition.cc:66 | a character is stored exactly when the extraction does not fail |
| StringStreams.ReadInt | src/experiment_definition.cc:67-70 | an extraction that does not fail stores an `int` in the 32-bit range |
| StringStreams.ReadWord | src/experiment_definition.cc:79-82 | a word is stored exactly when the extraction does not fail, and it is non-empty and free of white space |
| StringStreams.ExhaustedFails | src/experiment_definition.cc:71-84 | once the stream has failed, hit the end, or holds only white space, every extraction fails and leaves its target untouched |
| Definitions.ChunkEnd | src/experiment_definition.cc:39 | one `fgets` into 2048 bytes reads at most 2047 characters, through the first newline or to the end of the text |
| Definitions.UpToNul | src/experiment_definition.cc:40 | the `std::string` of a buffer stops before its first NUL |
| Definitions.ExperimentDefinition.constructor | src/experiment_definition.hh:95 | an empty registry and empty detector and tagger lists |
| Definitions.ExperimentDefinition.AddCrate | src/experiment_definition.cc:200-209 | the result and the new registry are those of `DefineCrate`, and the lists are unchanged |
| Definitions.ExperimentDefinition.AddSlot | src/experiment_definition.cc:211-232 | the result and the new registry are those of `DefineSlot` |
| Definitions.ExperimentDefinition.AddChannel | src/experiment_definition.cc:234-261 | the result and the new registry are those of `DefineChannel` |
| Definitions.ExperimentDefinition.Read | src/experiment_definition.cc:29-114 | -1, changing nothing, with no file open. Otherwise 0, with the registry and lists of `ApplyText` over the remaining lines |
| Definitions.ExperimentDefinition.ReadLine | src/experiment_definition.cc:40-105 | one line changes the definition as `ApplyLine` says |
| Definitions.ExperimentDefinition.DefineLine | src/experiment_definition.cc:84-102 | the registry calls of a parsed line change the definition as `ApplyFields` says |
| Definitions.OtherLinesIgnored | src/experiment_definition.cc:41-46 | a line not starting with `D` or `T` changes nothing |
| Definitions.FlagIsHead | src/experiment_definition.cc:66 | the flag read from a `D` or `T` line is its first character |
| Definitions.OptionsDefault | src/experiment_definition.cc:71-83 | after a failed extraction or at the end of the line, eraw, qdcs and traces are false, the names are empty and the index is -1 |
| Definitions.AddressOnlyLine | src/experiment_definition.cc:66-83 | `D 1 2 3 250` parses to crate 1, slot 2, channel 3 at 250 MHz with every default |
| Definitions.DefineCrateKeeps | src/experiment_definition.cc:200-209 | adding a crate keeps every slot and channel |
| Definitions.DefineSlotKeeps | src/experiment_definition.cc:211-232 | adding a slot keeps every channel and every slot's frequency |
| Definitions.RepeatedChannel | src/experiment_definition.cc:84-100 | a line for an already defined channel changes nothing: the first definition and the first frequency stay, and nothing is appended |
| Definitions.NewChannel | src/experiment_definition.cc:84-102 | a `D`/`T` line for a new channel defines it with the parsed fields, a tagger exactly for `T`. It is appended to the detector list for `D` or the tagger list for `T`, and all earlier definitions are kept |
| Definitions.ApplyFieldsConsistent | src/experiment_definition.cc:84-102 | one line keeps the registry well keyed and the lists consistent. Every listed channel is the registered one with the right tagger flag, and no address is listed twice |
| Definitions.ApplyTextConsistent | src/experiment_definition.cc:39-107 | reading the whole file keeps that consistency, keeps every earlier channel and slot (the first definition wins), and only appends to the lists |
| LineFormat.Digits | src/experiment_definition.cc:67-70 | the decimal digits of `n` are digits only, and the value the `int` extraction gives them is `n` |
| LineFormat.FieldAt | src/experiment_definition.cc:66-82 | a field written after one space lies between its start and its end, with the rest of the line after it |
| LineFormat.NumeralRun | src/experiment_definition.cc:67-70 | a written integer starts with a digit or a minus sign (minus exactly when negative), and its digits run to the next white space with its magnitude as their value |
| LineFormat.IntAt | src/experiment_definition.cc:67-70 | extracting an `int` where a written 32-bit integer follows one space stores that integer, does not fail, and stops at its end |
| LineFormat.WordAt | src/experiment_definition.cc:78-81 | extracting a `std::string` where a written word follows one space stores that word, does not fail, and stops at its end |
| LineFormat.TrailingLayout | src/experiment_definition.cc:71-83 | where the three flags, the two names and the index lie when written after the frequency |
| LineFormat.TrailingRead | src/experiment_definition.cc:71-83 | the trailing fields written after the frequency read back as the same three flags, two names and index |
| LineFormat.AddressLayout | src/experiment_definition.cc:66-70 | where the flag, crate, slot, channel and frequency lie in a written line |
| LineFormat.ParseFormatted | src/experiment_definition.cc:66-83 | a written line with a `D` or `T` flag, 32-bit integers and non-empty names reads back as exactly the fields it was written from |
| LineFormat.ApplyFormatted | src/experiment_definition.cc:41-102 | reading a written line changes the definition exactly as its fields say |

## Left out

- File opening and closing (`Reader::open`, `Experiment_Definition::open`,
  `close`, `fopen`, `fclose`) are not modelled. The constructors take the
  opened file's contents (`ListFile`, or the definition file's text)
  instead.
- `Reader::update_filesize`: `fstat` is replaced by the length of the data.
- `Reader::offset` is the `ListFile` position.
- The end-of-file test leaves out the sticky `feof` flag. Every way out of
  the event reader ends in `fsetpos`, in the event reader itself
  (src/event.cc:106) or inside the record decoder after a short read
  (src/measurement.cc:89,105,166). `fsetpos` clears the end-of-file
  indicator, so `feof` is false whenever `eof()` runs.
- Live sorting (`liveSort`, `check_pos`, `usleep`), `printUpdate`,
  `dump_traces`, the thread number and every `print` and warning output
  are left out. Their only effect is on the console.
- Trace algorithms are not modelled: `set_algorithms`, `Channel.alg`,
  `tracealg->Process`, `good_trace` and `trace_meas`. Their code lies
  outside the modelled core, and they do not change the decoded measurement's fields. A
  captured trace is returned as a value instead of being copied into
  `outTrace`.
- `Channel.name` and `operator==` on channels are not modelled. The name is
  only built for printing.
- measurement.hh is not part of this model. Its field types are taken as
  signed `int`. The time and force of a default-constructed measurement are
  taken as 0. Fields the decoder never assigns are `None`.
- Registry records and events are values, not pointers. A channel is never
  changed after insertion, so no aliasing is observable through them.
- Events.Event.Read: `retval = 2` for a same-channel pileup is overwritten by
  `return 0`, so the reader's `sameChanPU` counter never changes. The model
  returns 0 and keeps `sameChanPU` unchanged.
- Readers.Reader.Read: requires `|coincWindow| < 2^16`, so that
  `coincWindow << 15` fits in a 32-bit `int`. The long-long totals are
  unbounded integers, with no 64-bit overflow modelled.
- Readers.Build: a record can end where it starts: event length 0 on a
  configured channel with traces off, whose trace skip returns to the
  record start. An event that closes at its own start makes the original
  loop forever when there is no count limit. The model reports that case
  as `Aborted`. With a count limit, the same event is read again until the
  limit is reached, as in the original.
- Definitions.ParseLine: the string stream is modelled as pure functions
  over the line (`StringStreams`). Only the "C" locale's white space is
  recognised.
- The parsed `int` flags become `bool` as `int`-to-`bool` conversion does
  (non-zero is true).
- Definitions.ExperimentDefinition.Read: the contents of the file from the
  current position are a value (`file`) with a cursor.
