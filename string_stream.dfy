/**
 * Formatted extraction from a string stream in the "C" locale, as the
 * definition-file parser uses it: `>>` into a `char`, an `int` or a
 * `std::string`, with the stream's fail and end-of-file flags.
 *
 * An extraction from a stream whose fail or end-of-file flag is already set
 * sets the fail flag and leaves the target untouched.  Otherwise leading white
 * space is skipped, and reaching the end while skipping fails the same way.
 * An `int` takes an optional sign and a run of decimal digits: no digits
 * stores 0 and fails; a value outside the 32-bit range stores the nearest
 * bound and fails.  Reaching the end of the text while reading a field sets
 * the end-of-file flag, which does not fail that extraction.
 */
module StringStreams {
  import opened Wrappers

  const INT_MAX: int := 0x7fff_ffff
  const INT_MIN: int := -0x8000_0000

  /** The text of a stream, the read position and the fail and end-of-file flags. */
  datatype Scan = Scan(text: string, pos: nat, fail: bool, eof: bool)

  /** A fresh stream over `text` (after `clear()` and `str(text)`). */
  function Open(text: string): Scan
  {
    Scan(text, 0, false, false)
  }

  /** The stream after an extraction, and the value stored (None: target untouched). */
  datatype Extracted<T> = Extracted(ss: Scan, value: Option<T>)

  /** White space in the "C" locale: space, tab, newline, vertical tab, form feed, return. */
  predicate IsSpace(c: char)
  {
    c == ' ' || c == '\t' || c == '\n' || c as int == 11 || c as int == 12 || c == '\r'
  }

  predicate IsDigit(c: char)
  {
    '0' as int <= c as int <= '9' as int
  }

  /** The first position at or after `i` that is not white space. */
  function SkipSpace(t: string, i: nat): (j: nat)
    requires i <= |t|
    ensures i <= j <= |t|
    ensures forall k :: i <= k < j ==> IsSpace(t[k])
    ensures j < |t| ==> !IsSpace(t[j])
    decreases |t| - i
  {
    if i < |t| && IsSpace(t[i]) then SkipSpace(t, i + 1) else i
  }

  /** The end of the run of digits starting at `i`. */
  function DigitEnd(t: string, i: nat): (j: nat)
    requires i <= |t|
    ensures i <= j <= |t|
    ensures forall k :: i <= k < j ==> IsDigit(t[k])
    ensures j < |t| ==> !IsDigit(t[j])
    decreases |t| - i
  {
    if i < |t| && IsDigit(t[i]) then DigitEnd(t, i + 1) else i
  }

  /** The end of the run of non-space characters starting at `i`. */
  function WordEnd(t: string, i: nat): (j: nat)
    requires i <= |t|
    ensures i <= j <= |t|
    ensures forall k :: i <= k < j ==> !IsSpace(t[k])
    ensures j < |t| ==> IsSpace(t[j])
    decreases |t| - i
  {
    if i < |t| && !IsSpace(t[i]) then WordEnd(t, i + 1) else i
  }

  /** The value of a string of decimal digits. */
  function Magnitude(ds: string): nat
    requires forall k :: 0 <= k < |ds| ==> IsDigit(ds[k])
  {
    if ds == [] then 0
    else
      assert IsDigit(ds[|ds| - 1]);
      Magnitude(ds[..|ds| - 1]) * 10 + (ds[|ds| - 1] as int - '0' as int)
  }

  /** `>>` into a `char`: the next character that is not white space. */
  function ReadChar(ss: Scan): (r: Extracted<char>)
    requires ss.pos <= |ss.text|
    ensures r.ss.pos <= |r.ss.text| && r.ss.text == ss.text
    ensures r.value.Some? <==> !r.ss.fail
  {
    if ss.fail || ss.eof then Extracted(ss.(fail := true), None)
    else
      var start := SkipSpace(ss.text, ss.pos);
      if start == |ss.text| then Extracted(Scan(ss.text, start, true, true), None)
      else Extracted(Scan(ss.text, start + 1, false, false), Some(ss.text[start]))
  }

  /** `>>` into an `int`. */
  function ReadInt(ss: Scan): (r: Extracted<int>)
    requires ss.pos <= |ss.text|
    ensures r.ss.pos <= |r.ss.text| && r.ss.text == ss.text
    ensures !r.ss.fail ==> r.value.Some? && INT_MIN <= r.value.value <= INT_MAX
  {
    if ss.fail || ss.eof then Extracted(ss.(fail := true), None)
    else
      var t := ss.text;
      var start := SkipSpace(t, ss.pos);
      if start == |t| then Extracted(Scan(t, start, true, true), None)
      else
        var signed := t[start] == '+' || t[start] == '-';
        var first := if signed then start + 1 else start;
        var end := DigitEnd(t, first);
        if end == first then Extracted(Scan(t, end, true, end == |t|), Some(0))
        else
          assert forall k :: 0 <= k < end - first ==> IsDigit(t[first..end][k]);
          var mag := Magnitude(t[first..end]);
          var v: int := if t[start] == '-' then -(mag as int) else mag;
          if v > INT_MAX then Extracted(Scan(t, end, true, end == |t|), Some(INT_MAX))
          else if v < INT_MIN then Extracted(Scan(t, end, true, end == |t|), Some(INT_MIN))
          else Extracted(Scan(t, end, false, end == |t|), Some(v))
  }

  /** `>>` into a `std::string`: the next run of characters that are not white space. */
  function ReadWord(ss: Scan): (r: Extracted<string>)
    requires ss.pos <= |ss.text|
    ensures r.ss.pos <= |r.ss.text| && r.ss.text == ss.text
    ensures r.value.Some? <==> !r.ss.fail
    ensures r.value.Some? ==> |r.value.value| > 0 && forall k :: 0 <= k < |r.value.value| ==> !IsSpace(r.value.value[k])
  {
    if ss.fail || ss.eof then Extracted(ss.(fail := true), None)
    else
      var start := SkipSpace(ss.text, ss.pos);
      if start == |ss.text| then Extracted(Scan(ss.text, start, true, true), None)
      else
        var end := WordEnd(ss.text, start);
        Extracted(Scan(ss.text, end, false, end == |ss.text|), Some(ss.text[start..end]))
  }

  /** Nothing but white space is left to read. */
  ghost predicate Exhausted(ss: Scan)
  {
    ss.pos <= |ss.text| && forall k :: ss.pos <= k < |ss.text| ==> IsSpace(ss.text[k])
  }

  /**
   * Once a stream has failed, or has nothing left but white space, every
   * extraction fails, leaves its target untouched and leaves the stream
   * failed.
   */
  lemma ExhaustedFails(ss: Scan)
    requires ss.pos <= |ss.text|
    requires ss.fail || ss.eof || Exhausted(ss)
    ensures ReadInt(ss).value.None? && ReadInt(ss).ss.fail
    ensures ReadWord(ss).value.None? && ReadWord(ss).ss.fail
    ensures ReadChar(ss).value.None? && ReadChar(ss).ss.fail
  {
    if !(ss.fail || ss.eof) {
      assert SkipSpace(ss.text, ss.pos) == |ss.text|;
    }
  }
}
