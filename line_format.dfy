/**
 * Definition lines written out: the fields of a `D` or `T` line as text, in
 * the order the line parser extracts them, each after one space.  Reading a
 * written line gives back every field, and applying it is applying those
 * fields.
 */
module LineFormat {
  import opened Wrappers
  import opened StringStreams
  import opened Definitions

  function DigitChar(d: nat): (c: char)
    requires d < 10
    ensures IsDigit(c) && c as int - '0' as int == d
  {
    ('0' as int + d) as char
  }

  /** The decimal digits of `n`, most significant first; their value is `n`. */
  function Digits(n: nat): (s: string)
    ensures |s| > 0 && forall k :: 0 <= k < |s| ==> IsDigit(s[k])
    ensures Magnitude(s) == n
  {
    if n < 10 then
      var s := [DigitChar(n)];
      assert s[..0] == [];
      s
    else
      var s := Digits(n / 10) + [DigitChar(n % 10)];
      assert s[..|s| - 1] == Digits(n / 10);
      s
  }

  /** An `int` in decimal, with a minus sign when it is negative. */
  function Numeral(v: int): string
  {
    if v < 0 then "-" + Digits(-v) else Digits(v)
  }

  /** A boolean flag as the integer the parser turns back into it. */
  function Flag(b: bool): string
  {
    Numeral(if b then 1 else 0)
  }

  /** One field after a single space, followed by the rest of the line. */
  function Field(token: string, rest: string): string
  {
    " " + token + rest
  }

  /** A non-empty run of characters that are not white space. */
  predicate Word(w: string)
  {
    |w| > 0 && forall k :: 0 <= k < |w| ==> !IsSpace(w[k])
  }

  predicate IsInt(v: int)
  {
    INT_MIN <= v <= INT_MAX
  }

  /** Fields a line can carry: a `D` or `T` flag, 32-bit integers and two words. */
  predicate Writable(f: Fields)
  {
    && (f.flag == 'D' || f.flag == 'T')
    && IsInt(f.crateID) && IsInt(f.slotID) && IsInt(f.channelNumber) && IsInt(f.frequency)
    && IsInt(f.algIndex) && Word(f.algName) && Word(f.algFile)
  }

  /** The trailing fields of a line, from the raw energy flag to the end of the line. */
  function Trailing(f: Fields): string
  {
    Field(Flag(f.eraw), Field(Flag(f.qdcs), Field(Flag(f.traces),
      Field(f.algName, Field(f.algFile, Field(Numeral(f.algIndex), "\n"))))))
  }

  /** The definition line carrying `f`. */
  function FormatLine(f: Fields): string
  {
    [f.flag] + Field(Numeral(f.crateID), Field(Numeral(f.slotID), Field(Numeral(f.channelNumber),
      Field(Numeral(f.frequency), Trailing(f)))))
  }

  /** What follows a field starts with white space. */
  predicate Separated(rest: string)
  {
    |rest| > 0 && IsSpace(rest[0])
  }

  /** A field written at `p` and ending at `e`: a space, the token, then the rest of the line. */
  lemma FieldAt(text: string, p: nat, e: nat, token: string, rest: string)
    requires p <= |text| && text[p..] == Field(token, rest) && e == p + 1 + |token|
    ensures e <= |text| && text[p] == ' ' && text[p + 1..e] == token && text[e..] == rest
  {
    assert text[p..][1..1 + |token|] == token;
    assert text[p..][1 + |token|..] == rest;
  }

  /** `>>` into an `int` from `p` reads the integer written between `p + 1` and `e`. */
  lemma IntAt(text: string, p: nat, e: nat, v: int)
    requires p < e < |text| && text[p] == ' ' && text[p + 1..e] == Numeral(v) && IsSpace(text[e])
    requires IsInt(v)
    ensures ReadInt(Scan(text, p, false, false)) == Extracted(Scan(text, e, false, false), Some(v))
  {
    var first := if v < 0 then p + 2 else p + 1;
    NumeralRun(text, p + 1, e, v, first);
    SkipSpaceTo(text, p, p + 1);
    ReadSigned(text, p, first, e, v);
  }

  /**
   * `>>` into an `int` from `p` over one white-space character, an optional
   * minus sign and the digits from `first` to `e`, whose value is that of `v`.
   */
  lemma ReadSigned(text: string, p: nat, first: nat, e: nat, v: int)
    requires p + 1 <= first < e < |text| && SkipSpace(text, p) == p + 1
    requires text[p + 1] != '+' && (text[p + 1] == '-' <==> v < 0) && first == if v < 0 then p + 2 else p + 1
    requires DigitEnd(text, first) == e && forall k :: 0 <= k < e - first ==> IsDigit(text[first..e][k])
    requires Magnitude(text[first..e]) == (if v < 0 then -v else v) && IsInt(v)
    ensures ReadInt(Scan(text, p, false, false)) == Extracted(Scan(text, e, false, false), Some(v))
  {
  }

  /**
   * A written integer between `s` and a white-space character at `e`: its
   * first character is a digit or a minus sign, and its digits run to `e`
   * with the integer's magnitude as their value.
   */
  lemma NumeralRun(text: string, s: nat, e: nat, v: int, first: nat)
    requires s <= e < |text| && text[s..e] == Numeral(v) && IsSpace(text[e])
    requires first == if v < 0 then s + 1 else s
    ensures s < e && !IsSpace(text[s]) && text[s] != '+' && (text[s] == '-' <==> v < 0)
    ensures first < e && DigitEnd(text, first) == e
    ensures forall k :: 0 <= k < e - first ==> IsDigit(text[first..e][k])
    ensures Magnitude(text[first..e]) == if v < 0 then -v else v
  {
    var ds := if v < 0 then Digits(-v) else Digits(v);
    assert text[s] == Numeral(v)[0];
    assert text[first..e] == ds;
    forall k | first <= k < e
      ensures IsDigit(text[k])
    {
      assert text[k] == ds[k - first];
    }
    DigitEndTo(text, first, e);
  }

  /** `>>` into a `std::string` from `p` reads the word written between `p + 1` and `e`. */
  lemma WordAt(text: string, p: nat, e: nat, w: string)
    requires p < e < |text| && text[p] == ' ' && text[p + 1..e] == w && IsSpace(text[e]) && Word(w)
    ensures ReadWord(Scan(text, p, false, false)) == Extracted(Scan(text, e, false, false), Some(w))
  {
    SkipSpaceTo(text, p, p + 1);
    forall k | p + 1 <= k < e
      ensures !IsSpace(text[k])
    {
      assert text[k] == w[k - p - 1];
    }
    WordEndTo(text, p + 1, e);
  }

  lemma {:induction false} WordEndTo(t: string, i: nat, j: nat)
    requires i <= j < |t| && IsSpace(t[j])
    requires forall k :: i <= k < j ==> !IsSpace(t[k])
    ensures WordEnd(t, i) == j
    decreases j - i
  {
    if i < j {
      WordEndTo(t, i + 1, j);
    }
  }

  /** Where the trailing fields lie when they are written from `p` on. */
  lemma TrailingLayout(text: string, f: Fields, p: nat, p1: nat, p2: nat, p3: nat, p4: nat, p5: nat, p6: nat)
    requires p <= |text| && text[p..] == Trailing(f)
    requires p1 == p + 1 + |Flag(f.eraw)| && p2 == p1 + 1 + |Flag(f.qdcs)| && p3 == p2 + 1 + |Flag(f.traces)|
    requires p4 == p3 + 1 + |f.algName| && p5 == p4 + 1 + |f.algFile| && p6 == p5 + 1 + |Numeral(f.algIndex)|
    ensures p6 < |text| && text[p6] == '\n'
    ensures text[p] == ' ' && text[p + 1..p1] == Flag(f.eraw)
    ensures text[p1] == ' ' && text[p1 + 1..p2] == Flag(f.qdcs)
    ensures text[p2] == ' ' && text[p2 + 1..p3] == Flag(f.traces)
    ensures text[p3] == ' ' && text[p3 + 1..p4] == f.algName
    ensures text[p4] == ' ' && text[p4 + 1..p5] == f.algFile
    ensures text[p5] == ' ' && text[p5 + 1..p6] == Numeral(f.algIndex)
  {
    var r5 := Field(Numeral(f.algIndex), "\n");
    var r4 := Field(f.algFile, r5);
    var r3 := Field(f.algName, r4);
    var r2 := Field(Flag(f.traces), r3);
    var r1 := Field(Flag(f.qdcs), r2);
    FieldAt(text, p, p1, Flag(f.eraw), r1);
    FieldAt(text, p1, p2, Flag(f.qdcs), r2);
    FieldAt(text, p2, p3, Flag(f.traces), r3);
    FieldAt(text, p3, p4, f.algName, r4);
    FieldAt(text, p4, p5, f.algFile, r5);
    FieldAt(text, p5, p6, Numeral(f.algIndex), "\n");
  }

  /** The trailing fields read back: the three flags, the two names and the index. */
  lemma TrailingRead(text: string, p: nat, f: Fields)
    requires Writable(f) && p <= |text| && text[p..] == Trailing(f)
    ensures ParseOptions(Scan(text, p, false, false))
         == Options(f.eraw, f.qdcs, f.traces, f.algName, f.algFile, f.algIndex)
  {
    var p1 := p + 1 + |Flag(f.eraw)|;
    var p2 := p1 + 1 + |Flag(f.qdcs)|;
    var p3 := p2 + 1 + |Flag(f.traces)|;
    var p4 := p3 + 1 + |f.algName|;
    var p5 := p4 + 1 + |f.algFile|;
    var p6 := p5 + 1 + |Numeral(f.algIndex)|;
    TrailingLayout(text, f, p, p1, p2, p3, p4, p5, p6);
    IntAt(text, p, p1, if f.eraw then 1 else 0);
    IntAt(text, p1, p2, if f.qdcs then 1 else 0);
    IntAt(text, p2, p3, if f.traces then 1 else 0);
    WordAt(text, p3, p4, f.algName);
    WordAt(text, p4, p5, f.algFile);
    IntAt(text, p5, p6, f.algIndex);
  }

  /** Where the address fields lie in a written line. */
  lemma AddressLayout(f: Fields, p1: nat, p2: nat, p3: nat, p4: nat)
    requires p1 == 2 + |Numeral(f.crateID)| && p2 == p1 + 1 + |Numeral(f.slotID)|
    requires p3 == p2 + 1 + |Numeral(f.channelNumber)| && p4 == p3 + 1 + |Numeral(f.frequency)|
    ensures p4 <= |FormatLine(f)| && FormatLine(f)[0] == f.flag && FormatLine(f)[p4..] == Trailing(f)
    ensures FormatLine(f)[1] == ' ' && FormatLine(f)[2..p1] == Numeral(f.crateID)
    ensures FormatLine(f)[p1] == ' ' && FormatLine(f)[p1 + 1..p2] == Numeral(f.slotID)
    ensures FormatLine(f)[p2] == ' ' && FormatLine(f)[p2 + 1..p3] == Numeral(f.channelNumber)
    ensures FormatLine(f)[p3] == ' ' && FormatLine(f)[p3 + 1..p4] == Numeral(f.frequency)
  {
    var text := FormatLine(f);
    var r3 := Field(Numeral(f.frequency), Trailing(f));
    var r2 := Field(Numeral(f.channelNumber), r3);
    var r1 := Field(Numeral(f.slotID), r2);
    assert text[1..] == Field(Numeral(f.crateID), r1);
    FieldAt(text, 1, p1, Numeral(f.crateID), r1);
    FieldAt(text, p1, p2, Numeral(f.slotID), r2);
    FieldAt(text, p2, p3, Numeral(f.channelNumber), r3);
    FieldAt(text, p3, p4, Numeral(f.frequency), Trailing(f));
  }

  /**
   * Reading a written line gives back every field: the flag, the address,
   * the frequency, the three flags, the two names and the index.
   */
  lemma ParseFormatted(f: Fields)
    requires Writable(f)
    ensures ParseLine(FormatLine(f)) == Some(f)
  {
    var text := FormatLine(f);
    var p1 := 2 + |Numeral(f.crateID)|;
    var p2 := p1 + 1 + |Numeral(f.slotID)|;
    var p3 := p2 + 1 + |Numeral(f.channelNumber)|;
    var p4 := p3 + 1 + |Numeral(f.frequency)|;
    AddressLayout(f, p1, p2, p3, p4);
    TrailingRead(text, p4, f);
    assert Trailing(f)[0] == ' ';
    assert SkipSpace(text, 0) == 0;
    IntAt(text, 1, p1, f.crateID);
    IntAt(text, p1, p2, f.slotID);
    IntAt(text, p2, p3, f.channelNumber);
    IntAt(text, p3, p4, f.frequency);
  }

  /** Reading a written line applies exactly its fields to the definition. */
  lemma ApplyFormatted(cfg: Config, f: Fields)
    requires Writable(f)
    ensures ApplyLine(cfg, FormatLine(f)) == Parsed(ApplyFields(cfg, f))
  {
    ParseFormatted(f);
  }
}
