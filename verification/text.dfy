/**
 * The string operations the webhook handler relies on: the newline
 * replacement and byte-length truncation of `truncate`, and the `%d`
 * rendering of an `int` used in every message. Go strings are byte
 * sequences, so a `string` here carries one `char` per byte.
 */
module Text {

  /** The character `strings.ReplaceAll(s, "\n", " ")` puts at a position holding `c`. */
  function Flatten(c: char): char {
    if c == '\n' then ' ' else c
  }

  /** `strings.ReplaceAll(s, "\n", " ")`: every newline becomes one space. */
  function ReplaceNewlines(s: string): (r: string)
    ensures |r| == |s|
    ensures forall i :: 0 <= i < |s| ==> r[i] == Flatten(s[i])
    ensures '\n' !in r
  {
    if s == [] then [] else [Flatten(s[0])] + ReplaceNewlines(s[1..])
  }

  /** The suffix appended when a string is cut. */
  const Ellipsis: string := "..."

  /**
   * `truncate(s, max)`: newlines become spaces; a result of at most `max`
   * bytes is returned whole, a longer one is cut to its first `max` bytes
   * and followed by "...".
   */
  function Truncate(s: string, max: nat): (r: string)
    ensures '\n' !in r
    ensures |s| <= max ==> |r| == |s| && forall i :: 0 <= i < |s| ==> r[i] == Flatten(s[i])
    ensures |s| > max ==> |r| == max + |Ellipsis|
    ensures |s| > max ==> (forall i :: 0 <= i < max ==> r[i] == Flatten(s[i])) && r[max..] == Ellipsis
  {
    var t := ReplaceNewlines(s);
    if |t| <= max then t else t[..max] + Ellipsis
  }

  /** A string that has no newline and fits is left exactly as it was. */
  lemma TruncateKeepsShortLine(s: string, max: nat)
    requires '\n' !in s && |s| <= max
    ensures Truncate(s, max) == s
  {
    var r := Truncate(s, max);
    forall i | 0 <= i < |s|
      ensures r[i] == s[i]
    {
      assert s[i] != '\n';
    }
  }

  /** Truncating a second time changes nothing, whether or not the first call cut. */
  lemma TruncateIdempotent(s: string, max: nat)
    ensures Truncate(Truncate(s, max), max) == Truncate(s, max)
  {
    var t := Truncate(s, max);
    if |s| <= max {
      TruncateKeepsShortLine(t, max);
    } else {
      assert '\n' !in t[..max] by {
        forall i | 0 <= i < max
          ensures t[..max][i] != '\n'
        {
          assert t[..max][i] == t[i];
        }
      }
      TruncateCutsLongLine(t, max);
      assert t == t[..max] + t[max..];
    }
  }

  /** A line longer than the bound whose first `max` bytes hold no newline keeps exactly those bytes. */
  lemma TruncateCutsLongLine(s: string, max: nat)
    requires |s| > max && '\n' !in s[..max]
    ensures Truncate(s, max) == s[..max] + Ellipsis
  {
    var r := Truncate(s, max);
    forall i | 0 <= i < max
      ensures r[i] == s[..max][i]
    {
      assert s[..max][i] == s[i] != '\n';
    }
    assert r == r[..max] + r[max..];
  }

  /** A cut keeps the first `max` bytes with their newlines flattened, then the suffix. */
  lemma TruncateFlattensKeptPrefix(s: string, max: nat)
    requires |s| > max
    ensures Truncate(s, max) == ReplaceNewlines(s[..max]) + Ellipsis
  {
    var r := Truncate(s, max);
    var f := ReplaceNewlines(s[..max]);
    forall i | 0 <= i < max
      ensures r[i] == f[i]
    {
      assert f[i] == Flatten(s[..max][i]) == Flatten(s[i]);
    }
    assert r == r[..max] + r[max..];
  }

  /** Example: `strings.ReplaceAll` turns the newline into a space. */
  lemma ReplaceNewlinesExample()
    ensures ReplaceNewlines("line1\nli") == "line1 li"
  {
    var f := ReplaceNewlines("line1\nli");
    assert f[0] == 'l' && f[1] == 'i' && f[2] == 'n' && f[3] == 'e' && f[4] == '1';
    assert f[5] == ' ' && f[6] == 'l' && f[7] == 'i';
  }

  /** Example: a newline inside the kept part comes out as a space, and the rest is cut. */
  lemma TruncateNewlineExample()
    ensures Truncate("line1\nline2", 8) == "line1 li..."
  {
    TruncateFlattensKeptPrefix("line1\nline2", 8);
    assert "line1\nline2"[..8] == "line1\nli";
    ReplaceNewlinesExample();
    assert "line1 li" + Ellipsis == "line1 li...";
  }

  /** Example: a short input is not cut, but its newline still becomes a space. */
  lemma TruncateShortNewlineExample()
    ensures Truncate("a\nb", 5) == "a b"
  {
    var r := Truncate("a\nb", 5);
    assert |r| == 3;
    assert r[0] == Flatten('a') && r[1] == Flatten('\n') && r[2] == Flatten('b');
  }

  /** Example: a long line keeps its first `max` bytes and gains the suffix. */
  lemma TruncateLongExample()
    ensures Truncate("abcdefghij", 5) == "abcde..."
  {
    assert "abcdefghij"[..5] == "abcde";
    TruncateCutsLongLine("abcdefghij", 5);
  }

  // ---------------------------------------------------------------------
  // Decimal rendering, as `fmt.Sprintf("%d", n)` does it

  predicate IsDigit(c: char) {
    '0' <= c <= '9'
  }

  function DigitChar(d: nat): (c: char)
    requires d < 10
    ensures IsDigit(c)
  {
    "0123456789"[d]
  }

  function DigitValue(c: char): (d: nat)
    requires IsDigit(c)
    ensures d < 10
  {
    (c as int - '0' as int) as nat
  }

  /** Decimal digits of a natural number, most significant first, no leading zero. */
  function NatDigits(n: nat): (r: string)
    ensures |r| >= 1
    ensures forall i :: 0 <= i < |r| ==> IsDigit(r[i])
    ensures n > 0 ==> r[0] != '0'
    decreases n
  {
    if n < 10 then [DigitChar(n)] else NatDigits(n / 10) + [DigitChar(n % 10)]
  }

  /** `%d` of an `int`: a minus sign for negative values, then the digits of the magnitude. */
  function Decimal(n: int): (r: string)
    ensures |r| >= 1
    ensures r[0] == '-' <==> n < 0
    ensures forall i :: 0 <= i < |r| ==> r[i] == '-' || IsDigit(r[i])
    ensures n == 0 ==> r == "0"
    ensures n < 0 ==> |r| >= 2
    ensures n != 0 ==> r[if n < 0 then 1 else 0] != '0'
  {
    if n < 0 then
      var d := NatDigits(-n);
      assert ("-" + d)[1..] == d;
      "-" + d
    else NatDigits(n)
  }

  /** The number a string of decimal digits denotes; the partner of `NatDigits`. */
  function DigitsValue(s: string): nat
    requires forall i :: 0 <= i < |s| ==> IsDigit(s[i])
  {
    if s == [] then 0 else 10 * DigitsValue(s[..|s| - 1]) + DigitValue(s[|s| - 1])
  }

  /** Reading back the digits of `n` gives `n`. */
  lemma {:induction false} DigitsRoundTrip(n: nat)
    ensures DigitsValue(NatDigits(n)) == n
    decreases n
  {
    var r := NatDigits(n);
    if n < 10 {
      assert r[..0] == [];
    } else {
      DigitsRoundTrip(n / 10);
      assert r[..|r| - 1] == NatDigits(n / 10);
    }
  }

  /** The number a `%d` rendering denotes; the partner of `Decimal`. */
  function DecimalValue(s: string): int
    requires |s| >= 1
    requires forall i :: 0 < i < |s| ==> IsDigit(s[i])
    requires s[0] == '-' || IsDigit(s[0])
  {
    if s[0] == '-' then -(DigitsValue(s[1..]) as int) else DigitsValue(s)
  }

  /** `%d` loses nothing: the rendering reads back as the number it came from. */
  lemma DecimalRoundTrip(n: int)
    ensures forall i :: 0 < i < |Decimal(n)| ==> IsDigit(Decimal(n)[i])
    ensures DecimalValue(Decimal(n)) == n
  {
    var r := Decimal(n);
    if n < 0 {
      var d := NatDigits(-n);
      assert r[1..] == d;
      DigitsRoundTrip(-n);
    } else {
      DigitsRoundTrip(n);
    }
  }

  /** Distinct numbers render to distinct strings. */
  lemma DecimalInjective(m: int, n: int)
    requires Decimal(m) == Decimal(n)
    ensures m == n
  {
    DecimalRoundTrip(m);
    DecimalRoundTrip(n);
  }

  /** Example: `%d` of 42. */
  lemma DecimalExample()
    ensures Decimal(42) == "42"
  {
    assert NatDigits(4) == "4";
    assert NatDigits(42) == NatDigits(4) + [DigitChar(2)];
  }
}
