/**
 * String operations the dashboard uses: ASCII case mapping for
 * `toLowerCase`/`toUpperCase`, `includes`, and the decimal rendering of a
 * whole number inside a template literal.
 */
module Text {

  /** `toLowerCase` on one character, restricted to ASCII letters. */
  function LowerChar(c: char): char {
    if 'A' <= c <= 'Z' then (c as int + 32) as char else c
  }

  /** `toUpperCase` on one character, restricted to ASCII letters. */
  function UpperChar(c: char): char {
    if 'a' <= c <= 'z' then (c as int - 32) as char else c
  }

  /** `s.toLowerCase()` over ASCII. */
  function Lower(s: string): (r: string)
    ensures |r| == |s|
    ensures forall i :: 0 <= i < |s| ==> r[i] == LowerChar(s[i])
  {
    seq(|s|, i requires 0 <= i < |s| => LowerChar(s[i]))
  }

  /** `needle` occurs in `hay` starting at position `i`. */
  predicate MatchAt(hay: string, needle: string, i: int) {
    0 <= i <= |hay| - |needle| && hay[i..i + |needle|] == needle
  }

  /** `hay.includes(needle)`: the empty needle is contained in every string. */
  predicate Contains(hay: string, needle: string)
    decreases |hay|
  {
    if |needle| > |hay| then false
    else hay[..|needle|] == needle || Contains(hay[1..], needle)
  }

  /** `Contains` holds exactly when the needle occurs at some position. */
  lemma {:induction false} ContainsIffMatch(hay: string, needle: string)
    ensures Contains(hay, needle) <==> exists i :: MatchAt(hay, needle, i)
    decreases |hay|
  {
    if |needle| <= |hay| {
      if hay[..|needle|] == needle {
        assert MatchAt(hay, needle, 0);
      } else {
        ContainsIffMatch(hay[1..], needle);
        if Contains(hay[1..], needle) {
          var i :| MatchAt(hay[1..], needle, i);
          assert hay[i + 1..i + 1 + |needle|] == hay[1..][i..i + |needle|];
          assert MatchAt(hay, needle, i + 1);
        }
        if i :| MatchAt(hay, needle, i) {
          assert i != 0;
          assert hay[1..][i - 1..i - 1 + |needle|] == hay[i..i + |needle|];
          assert MatchAt(hay[1..], needle, i - 1);
        }
      }
    } else {
      forall i | MatchAt(hay, needle, i) ensures false { }
    }
  }

  /** A string contains each of its suffixes; template strings end with the interpolated value. */
  lemma ContainsSuffix(prefix: string, s: string)
    ensures Contains(prefix + s, s)
  {
    assert MatchAt(prefix + s, s, |prefix|);
    ContainsIffMatch(prefix + s, s);
  }

  /** A haystack missing one of the needle's characters cannot contain it. */
  lemma NotContainsAbsent(hay: string, needle: string, k: nat)
    requires k < |needle| && needle[k] !in hay
    ensures !Contains(hay, needle)
  {
    ContainsIffMatch(hay, needle);
  }

  /**
   * When the needle's character `k` occurs in the haystack only at position
   * `q`, a match would have to start at `q - k`; if that start is out of
   * range, or the haystack differs from the needle at offset `j` there, the
   * haystack does not contain the needle.
   */
  lemma NotContainsAnchored(hay: string, needle: string, k: nat, q: nat, j: nat)
    requires k < |needle| && q < |hay| && j < |needle|
    requires needle[k] !in hay[..q] && needle[k] !in hay[q + 1..]
    requires q < k || q - k + |needle| > |hay| || hay[q - k + j] != needle[j]
    ensures !Contains(hay, needle)
  {
    ContainsIffMatch(hay, needle);
  }

  /** A needle occurring at a known position is contained. */
  lemma ContainsAt(hay: string, needle: string, i: nat)
    requires MatchAt(hay, needle, i)
    ensures Contains(hay, needle)
  {
    ContainsIffMatch(hay, needle);
  }

  function DigitChar(d: nat): char
    requires d < 10
  {
    (d + '0' as int) as char
  }

  /** The decimal digits of `n` without leading zeros, as `${n}` renders a whole number. */
  function Decimal(n: nat): (r: string)
    ensures |r| >= 1
    ensures forall i :: 0 <= i < |r| ==> '0' <= r[i] <= '9'
    decreases n
  {
    if n < 10 then [DigitChar(n)] else Decimal(n / 10) + [DigitChar(n % 10)]
  }

  /** Reads a string of decimal digits back as a number (the inverse of `Decimal`). */
  function ParseDecimal(s: string): nat
    decreases |s|
  {
    if s == [] then 0
    else
      var d := s[|s| - 1] as int - '0' as int;
      ParseDecimal(s[..|s| - 1]) * 10 + (if 0 <= d < 10 then d else 0)
  }

  /** Rendering a number and reading it back gives the number. */
  lemma {:induction false} DecimalRoundTrip(n: nat)
    ensures ParseDecimal(Decimal(n)) == n
    decreases n
  {
    if n >= 10 {
      var r := Decimal(n);
      assert r[..|r| - 1] == Decimal(n / 10);
      DecimalRoundTrip(n / 10);
    }
  }

  /** Distinct numbers render as distinct strings. */
  lemma DecimalInjective(m: nat, n: nat)
    requires Decimal(m) == Decimal(n)
    ensures m == n
  {
    DecimalRoundTrip(m);
    DecimalRoundTrip(n);
  }
}
