/** The call timer shown in the call window: `formatDuration` renders the
    elapsed seconds as minutes and seconds, `mm:ss`. */
module CallWindow {
  import opened Wrappers
  import opened Text

  /** `Math.floor(seconds / 60)` and `seconds % 60` (both operands are
      non-negative, so floor and truncation agree). */
  function Fields(seconds: nat): (f: (nat, nat))
    ensures f.1 < 60
    ensures f.0 * 60 + f.1 == seconds
  {
    (seconds / 60, seconds % 60)
  }

  /** One field rendered with `toString().padStart(2, '0')`. */
  function Field(n: nat): (r: string)
  {
    PadStart(NatToDecimal(n), 2, '0')
  }

  /** `formatDuration(seconds)`: the minutes field, ':', the seconds field. */
  function FormatDuration(seconds: nat): (r: string)
  {
    var (mins, secs) := Fields(seconds);
    Field(mins) + ":" + Field(secs)
  }

  /** Reads a rendering back: the digits before the first ':' are minutes,
      the digits after it are seconds. */
  function ParseDuration(s: string): (r: Option<nat>)
  {
    if ':' !in s then None
    else
      var i := IndexOf(s, ':');
      var mins, secs := s[..i], s[i + 1..];
      if mins != [] && secs != [] && AllDigits(mins) && AllDigits(secs)
      then Some(DecimalValue(mins) * 60 + DecimalValue(secs))
      else None
  }

  /** A padded field is all digits, at least two of them, with no ':',
      and reads back as `n`; below 100 it is exactly two digits. */
  lemma FieldDigits(n: nat)
    ensures AllDigits(Field(n)) && 2 <= |Field(n)| && ':' !in Field(n)
    ensures DecimalValue(Field(n)) == n
    ensures n < 100 ==> |Field(n)| == 2
  {
    NatToDecimalRoundTrip(n);
    var d := NatToDecimal(n);
    if |d| < 2 {
      assert Field(n) == "0" + d;
      LeadingZero(d);
    }
  }

  /** The pieces of `fm + ":" + fs` when `fm` has no ':'. */
  lemma JoinParts(fm: string, fs: string)
    requires ':' !in fm
    ensures var r := fm + ":" + fs;
            |fm| < |r| && r[..|fm|] == fm && r[|fm|] == ':' && r[|fm| + 1..] == fs &&
            forall k :: 0 <= k < |fm| ==> r[k] != ':'
  {
    var r := fm + ":" + fs;
    forall k | 0 <= k < |fm|
      ensures r[k] != ':'
    {
      assert r[k] == fm[k] && fm[k] in fm;
    }
  }

  /** A string made of a digit string `fm` of at least two characters
      with no ':', then ':', then a two-digit `fs`, has the layout of a
      rendering, and its two fields are `fm` and `fs`. */
  lemma ShapeParts(r: string, fm: string, fs: string)
    requires 2 <= |fm| && AllDigits(fm) && ':' !in fm && |fs| == 2 && AllDigits(fs)
    requires |fm| < |r| && r[..|fm|] == fm && r[|fm|] == ':' && r[|fm| + 1..] == fs
    ensures |r| >= 5 && r[|r| - 3] == ':' && ':' !in r[..|r| - 3] &&
            AllDigits(r[..|r| - 3]) && AllDigits(r[|r| - 2..]) &&
            DecimalValue(r[..|r| - 3]) == DecimalValue(fm) &&
            DecimalValue(r[|r| - 2..]) == DecimalValue(fs)
  {
    assert |r| == |fm| + 3;
    assert r[..|r| - 3] == fm && r[|r| - 2..] == fs;
  }

  /** The layout of the rendering: a minutes field of at least two digits,
      ':', and a seconds field of exactly two digits whose value is below
      60; the two fields read back as the minutes and seconds. */
  lemma {:induction false} FormatDurationShape(seconds: nat)
    ensures var r := FormatDuration(seconds);
            |r| >= 5 && r[|r| - 3] == ':' && ':' !in r[..|r| - 3] &&
            AllDigits(r[..|r| - 3]) && AllDigits(r[|r| - 2..]) &&
            DecimalValue(r[..|r| - 3]) == seconds / 60 &&
            DecimalValue(r[|r| - 2..]) == seconds % 60 < 60
  {
    var fm, fs := Field(seconds / 60), Field(seconds % 60);
    FieldDigits(seconds / 60);
    FieldDigits(seconds % 60);
    JoinParts(fm, fs);
    assert FormatDuration(seconds) == fm + ":" + fs;
    ShapeParts(FormatDuration(seconds), fm, fs);
  }

  /** Below 100 minutes the rendering is exactly `mm:ss`. */
  lemma {:induction false} FormatDurationFiveChars(seconds: nat)
    requires seconds < 6000
    ensures |FormatDuration(seconds)| == 5 && FormatDuration(seconds)[2] == ':'
  {
    FieldDigits(seconds / 60);
    FieldDigits(seconds % 60);
    FormatDurationShape(seconds);
  }

  /** A string made of the digit strings `fm`, ':' and `fs`, with no ':' in
      `fm`, parses as `fm` minutes and `fs` seconds. */
  lemma ParseParts(r: string, fm: string, fs: string)
    requires fm != [] && fs != [] && AllDigits(fm) && AllDigits(fs)
    requires |fm| < |r| && r[..|fm|] == fm && r[|fm|] == ':' && r[|fm| + 1..] == fs
    requires forall k :: 0 <= k < |fm| ==> r[k] != ':'
    ensures ParseDuration(r) == Some(DecimalValue(fm) * 60 + DecimalValue(fs))
  {
    IndexOfUnique(r, ':', |fm|);
  }

  /** Parsing the two fields back gives the original number of seconds. */
  lemma {:induction false} FormatDurationRoundTrip(seconds: nat)
    ensures ParseDuration(FormatDuration(seconds)) == Some(seconds)
  {
    var (mins, secs) := Fields(seconds);
    var fm, fs := Field(mins), Field(secs);
    FieldDigits(mins);
    FieldDigits(secs);
    JoinParts(fm, fs);
    ParseParts(FormatDuration(seconds), fm, fs);
  }
}
