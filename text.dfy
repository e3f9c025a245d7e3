/** The string operations the application relies on: `toLowerCase` on
    addresses, `includes` on text, and the decimal rendering of a number
    inside a template literal. */
module Text {

  /** Lower-cases one ASCII letter and leaves every other character alone. */
  function LowerChar(c: char): char
  {
    if 'A' <= c <= 'Z' then (c as int - 'A' as int + 'a' as int) as char else c
  }

  function ToLower(s: string): (r: string)
    ensures |r| == |s|
    ensures forall i :: 0 <= i < |s| ==> r[i] == LowerChar(s[i])
  {
    if s == [] then [] else [LowerChar(s[0])] + ToLower(s[1..])
  }

  /** Two addresses denote the same account when they agree after lower-casing both. */
  predicate SameAddress(a: string, b: string)
  {
    ToLower(a) == ToLower(b)
  }

  /** A checksummed (mixed-case) address and its lower-case form match. */
  lemma SameAddressAsLowerCase(a: string)
    ensures SameAddress(a, ToLower(a))
  {
  }

  lemma SameAddressExample()
    ensures SameAddress("0xAbC", "0xaBc")
  {
  }

  /** `pat` occurs in `text` starting at position `i`. */
  predicate OccursAt(text: string, pat: string, i: int)
  {
    0 <= i && i + |pat| <= |text| && text[i..i + |pat|] == pat
  }

  /** JavaScript's `text.includes(pat)`. */
  predicate Contains(text: string, pat: string)
  {
    exists i | 0 <= i <= |text| - |pat| :: OccursAt(text, pat, i)
  }

  /** A pattern longer than the text never occurs in it. */
  lemma ContainsBoundsLength(text: string, pat: string)
    requires Contains(text, pat)
    ensures |pat| <= |text|
  {
  }

  /** Whatever contains `p + q` also contains its prefix `p`. */
  lemma ContainsPrefix(text: string, p: string, q: string)
    requires Contains(text, p + q)
    ensures Contains(text, p)
  {
    var i :| 0 <= i <= |text| - |p + q| && OccursAt(text, p + q, i);
    assert text[i..i + |p|] == (p + q)[..|p|] == p;
    assert OccursAt(text, p, i);
  }

  /** Appending text never removes an occurrence. */
  lemma ContainsAppend(text: string, more: string, pat: string)
    requires Contains(text, pat)
    ensures Contains(text + more, pat)
  {
    var i :| 0 <= i <= |text| - |pat| && OccursAt(text, pat, i);
    assert (text + more)[i..i + |pat|] == text[i..i + |pat|];
    assert OccursAt(text + more, pat, i);
  }

  /** A pattern whose first character never appears in the text does not occur in it. */
  lemma AbsentFirstChar(text: string, pat: string)
    requires |pat| > 0 && pat[0] !in text
    ensures !Contains(text, pat)
  {
  }

  /** A text contains every one of its own infixes. */
  lemma ContainsInfix(a: string, pat: string, b: string)
    ensures Contains(a + pat + b, pat)
  {
    var t := a + pat + b;
    assert t[|a|..|a| + |pat|] == pat;
    assert OccursAt(t, pat, |a|);
  }

  function DigitChar(d: nat): char
    requires d < 10
  {
    "0123456789"[d]
  }

  function DigitValue(c: char): nat
  {
    if '0' <= c <= '9' then c as int - '0' as int else 0
  }

  /** Decimal rendering of a natural number, as `${n}` produces it. */
  function NatToString(n: nat): (s: string)
    ensures |s| >= 1
    decreases n
  {
    if n < 10 then [DigitChar(n)] else NatToString(n / 10) + [DigitChar(n % 10)]
  }

  /** Reads a string of decimal digits back into a number. */
  function ParseNat(s: string): nat
  {
    if s == [] then 0 else ParseNat(s[..|s| - 1]) * 10 + DigitValue(s[|s| - 1])
  }

  lemma {:induction false} ParseNatToString(n: nat)
    ensures ParseNat(NatToString(n)) == n
    decreases n
  {
    var s := NatToString(n);
    if n < 10 {
      assert s[..|s| - 1] == [];
    } else {
      ParseNatToString(n / 10);
      assert s[..|s| - 1] == NatToString(n / 10);
    }
  }

  /** Different numbers are rendered differently. */
  lemma NatToStringInjective(m: nat, n: nat)
    requires NatToString(m) == NatToString(n)
    ensures m == n
  {
    ParseNatToString(m);
    ParseNatToString(n);
  }

  function Pow10(k: nat): (p: nat)
    ensures p >= 1
  {
    if k == 0 then 1 else 10 * Pow10(k - 1)
  }

  lemma {:induction false} Pow10Monotone(j: nat, k: nat)
    requires j <= k
    ensures Pow10(j) <= Pow10(k)
    decreases k
  {
    if j < k {
      Pow10Monotone(j, k - 1);
    }
  }

  /** A number is smaller than ten to the power of its digit count. */
  lemma {:induction false} NatToStringBound(n: nat)
    ensures n < Pow10(|NatToString(n)|)
    decreases n
  {
    if n >= 10 {
      NatToStringBound(n / 10);
    }
  }
}
