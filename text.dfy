/** String helpers standing in for the Python string operations the parser relies on:
    decimal digit strings, `str.join`, `str.replace(c, "")` and ASCII lower-casing. */
module Text {
  import opened Base

  predicate IsDigit(c: char) { '0' <= c <= '9' }

  predicate AllDigits(s: string) { forall i | 0 <= i < |s| :: IsDigit(s[i]) }

  function DigitValue(c: char): nat
    requires IsDigit(c)
  {
    c as int - '0' as int
  }

  function DigitChar(n: nat): (c: char)
    requires n < 10
    ensures IsDigit(c) && DigitValue(c) == n
  {
    ('0' as int + n) as char
  }

  /** The number a string of decimal digits spells, most significant digit first ("" spells 0). */
  function DigitsValue(s: string): nat
    requires AllDigits(s)
  {
    if s == [] then 0 else DigitsValue(s[..|s| - 1]) * 10 + DigitValue(s[|s| - 1])
  }

  /** The shortest decimal spelling of `n`, as Python's `str(n)`. */
  function NatToDigits(n: nat): (r: string)
    ensures AllDigits(r) && 1 <= |r|
    ensures DigitsValue(r) == n
    ensures n < 10 ==> |r| == 1
    ensures n < 100 ==> |r| <= 2
    ensures n < 1000 ==> |r| <= 3
    ensures n < 10000 ==> |r| <= 4
  {
    if n < 10 then [DigitChar(n)]
    else
      var r := NatToDigits(n / 10) + [DigitChar(n % 10)];
      assert r[..|r| - 1] == NatToDigits(n / 10);
      r
  }

  function Zeros(k: nat): (r: string)
    ensures |r| == k && AllDigits(r)
  {
    if k == 0 then [] else Zeros(k - 1) + ['0']
  }

  lemma {:induction false} ZerosValue(k: nat)
    ensures DigitsValue(Zeros(k)) == 0
  {
    if k > 0 {
      var z := Zeros(k);
      assert z[..k - 1] == Zeros(k - 1);
      ZerosValue(k - 1);
    }
  }

  /** Leading zeros do not change the number a digit string spells. */
  lemma {:induction false} LeadingZeros(k: nat, s: string)
    requires AllDigits(s)
    ensures AllDigits(Zeros(k) + s)
    ensures DigitsValue(Zeros(k) + s) == DigitsValue(s)
    decreases |s|
  {
    var z := Zeros(k);
    if s == [] {
      assert z + s == z;
      ZerosValue(k);
    } else {
      var init := s[..|s| - 1];
      assert (z + s)[..|z + s| - 1] == z + init;
      LeadingZeros(k, init);
    }
  }

  /** `s` left-padded with '0' to at least `width` characters (what "%04d" does to a number). */
  function PadLeft(s: string, width: nat): (r: string)
    requires AllDigits(s)
    ensures AllDigits(r)
    ensures |r| == if |s| < width then width else |s|
    ensures DigitsValue(r) == DigitsValue(s)
  {
    if |s| < width then LeadingZeros(width - |s|, s); Zeros(width - |s|) + s else s
  }

  /** Python's `sep.join(parts)`. */
  function Join(sep: string, parts: seq<string>): string
  {
    if |parts| == 0 then ""
    else if |parts| == 1 then parts[0]
    else parts[0] + sep + Join(sep, parts[1..])
  }

  /** `part` occurs in `s` starting at `at`. */
  predicate OccursAt(part: string, s: string, at: nat)
  {
    at + |part| <= |s| && s[at..at + |part|] == part
  }

  /** Every part of a join can be found again in the joined string, at the offset given by
      the lengths of the parts before it. */
  lemma {:induction false} JoinContains(sep: string, parts: seq<string>, k: nat)
    requires k < |parts|
    ensures exists at: nat :: OccursAt(parts[k], Join(sep, parts), at)
  {
    if k == 0 {
      assert OccursAt(parts[0], Join(sep, parts), 0);
    } else {
      JoinContains(sep, parts[1..], k - 1);
      var at: nat :| OccursAt(parts[1..][k - 1], Join(sep, parts[1..]), at);
      var prefix := parts[0] + sep;
      assert Join(sep, parts) == prefix + Join(sep, parts[1..]);
      assert OccursAt(parts[k], Join(sep, parts), |prefix| + at) by {
        var j := Join(sep, parts[1..]);
        assert (prefix + j)[|prefix| + at..|prefix| + at + |parts[k]|] == j[at..at + |parts[k]|];
      }
    }
  }

  /** Python's `s.replace(c, "")` for a one-character `c`: every occurrence of `c` removed,
      everything else kept in order. */
  function RemoveAll(s: string, c: char): (r: string)
    ensures c !in r
    ensures multiset(r) == multiset(s)[c := 0]
    ensures c !in s ==> r == s
  {
    if s == [] then []
    else
      var rest := RemoveAll(s[1..], c);
      assert s == [s[0]] + s[1..];
      if s[0] == c then rest else [s[0]] + rest
  }

  /** Removal distributes over concatenation, so the kept characters stay in their order. */
  lemma {:induction false} RemoveAllAppend(a: string, b: string, c: char)
    ensures RemoveAll(a + b, c) == RemoveAll(a, c) + RemoveAll(b, c)
  {
    if a == [] {
      assert a + b == b;
    } else {
      assert (a + b)[1..] == a[1..] + b;
      RemoveAllAppend(a[1..], b, c);
    }
  }

  /** A single character is removed exactly when it is `c`. */
  lemma RemoveAllSingle(x: char, c: char)
    ensures RemoveAll([x], c) == if x == c then [] else [x]
  {
    assert [x][1..] == [];
  }

  function LowerChar(c: char): char
  {
    if 'A' <= c <= 'Z' then (c as int + 32) as char else c
  }

  function UpperChar(c: char): char
  {
    if 'a' <= c <= 'z' then (c as int - 32) as char else c
  }

  /** Python's `s.lower()` on ASCII text. */
  function Lower(s: string): (r: string)
    ensures |r| == |s|
  {
    seq(|s|, i requires 0 <= i < |s| => LowerChar(s[i]))
  }

  predicate IsLowerWord(s: string) { forall i | 0 <= i < |s| :: 'a' <= s[i] <= 'z' }

  /** `s` with its first letter in upper case, as "Jan" is written. */
  function Capitalized(s: string): (r: string)
    ensures |r| == |s|
  {
    if s == [] then [] else [UpperChar(s[0])] + s[1..]
  }

  lemma LowerCapitalized(s: string)
    requires IsLowerWord(s)
    ensures Lower(Capitalized(s)) == s
  {
    var c := Capitalized(s);
    forall i | 0 <= i < |s| ensures Lower(c)[i] == s[i] {
      if i > 0 { assert c[i] == s[i]; }
    }
  }

  /** The first position of `c` in `s`, if any (Python's `s.find(c)` without the -1). */
  function IndexOf(s: string, c: char): (r: Option<nat>)
    ensures r.None? ==> c !in s
    ensures r.Some? ==> r.value < |s| && s[r.value] == c && c !in s[..r.value]
  {
    if s == [] then None
    else if s[0] == c then Some(0)
    else
      match IndexOf(s[1..], c)
      case None => None
      case Some(i) => assert s[..i + 1] == [s[0]] + s[1..][..i]; Some(i + 1)
  }
}
