/** ASCII string helpers shared by the texture, patch table and token models.
    Case conversion covers 'a'..'z' / 'A'..'Z' only; locale-aware case mapping
    of the string library is not part of this model. */
module Text {

  function UpperChar(c: char): char {
    if 'a' <= c <= 'z' then (c as int - 32) as char else c
  }

  function LowerChar(c: char): char {
    if 'A' <= c <= 'Z' then (c as int + 32) as char else c
  }

  /** Upper-cases every letter and keeps every other character. */
  function Upper(s: string): (r: string)
    ensures |r| == |s|
    ensures forall i :: 0 <= i < |s| ==> r[i] == UpperChar(s[i])
  {
    seq(|s|, i requires 0 <= i < |s| => UpperChar(s[i]))
  }

  function Lower(s: string): (r: string)
    ensures |r| == |s|
    ensures forall i :: 0 <= i < |s| ==> r[i] == LowerChar(s[i])
  {
    seq(|s|, i requires 0 <= i < |s| => LowerChar(s[i]))
  }

  /** Case-insensitive string equality (CmpNoCase(...) == 0). */
  predicate EqualsNoCase(a: string, b: string) {
    |a| == |b| && forall i :: 0 <= i < |a| ==> LowerChar(a[i]) == LowerChar(b[i])
  }

  predicate IsLetter(c: char) {
    'a' <= c <= 'z' || 'A' <= c <= 'Z'
  }

  /** A character that can open a printed number. */
  predicate IsNumeralStart(c: char) {
    c == '-' || '0' <= c <= '9'
  }

  /** A word that starts with a letter is never equal, ignoring case, to a
      string that starts like a number. */
  lemma NumeralIsNotWord(num: string, word: string)
    requires |num| > 0 && IsNumeralStart(num[0])
    requires |word| > 0 && IsLetter(word[0])
    ensures !EqualsNoCase(num, word)
  {
    assert Lower(num)[0] == LowerChar(num[0]) == num[0];
    assert Lower(word)[0] == LowerChar(word[0]);
  }

  predicate Contains(s: string, c: char) {
    exists i :: 0 <= i < |s| && s[i] == c
  }

  function Concat(ss: seq<string>): (r: string)
    ensures ss == [] ==> r == ""
    ensures |ss| == 1 ==> r == ss[0]
  {
    if ss == [] then "" else ss[0] + Concat(ss[1..])
  }

  lemma {:induction false} ConcatAppend(a: seq<string>, b: seq<string>)
    ensures Concat(a + b) == Concat(a) + Concat(b)
  {
    if a == [] {
      assert a + b == b;
    } else {
      assert (a + b)[1..] == a[1..] + b;
      ConcatAppend(a[1..], b);
    }
  }

  function DigitChar(d: nat): char
    requires d < 10
  {
    ('0' as int + d) as char
  }

  /** Decimal text of a natural number, most significant digit first. */
  function NatText(n: nat): (r: string)
    ensures |r| > 0 && '0' <= r[0] <= '9'
    decreases n
  {
    if n < 10 then [DigitChar(n)] else NatText(n / 10) + [DigitChar(n % 10)]
  }

  /** printf "%d" of an integer. */
  function IntText(n: int): (r: string)
    ensures |r| > 0 && IsNumeralStart(r[0])
    ensures (r[0] == '-') <==> n < 0
  {
    if n < 0 then "-" + NatText(-n) else NatText(n)
  }
}
