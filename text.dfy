/**
 * The two pieces of Ruby string building the simulator relies on:
 * `Integer#to_s` (decimal rendering, used for file names) and
 * `Array#join` (used to build the logged command line), each with an
 * inverse that shows nothing is lost.
 */
module Text {

  predicate IsDigit(c: char) {
    '0' <= c <= '9'
  }

  predicate AllDigits(s: string) {
    forall i :: 0 <= i < |s| ==> IsDigit(s[i])
  }

  function DigitChar(d: nat): (c: char)
    requires d < 10
    ensures IsDigit(c)
  {
    (48 + d) as char
  }

  function DigitValue(c: char): (d: nat)
    requires IsDigit(c)
    ensures d < 10
  {
    c as int - 48
  }

  /** `Integer#to_s` of a non-negative integer: its shortest decimal rendering. */
  function NatToString(n: nat): (s: string)
    ensures |s| >= 1 && AllDigits(s)
    ensures |s| > 1 ==> s[0] != '0'
  {
    if n < 10 then [DigitChar(n)] else NatToString(n / 10) + [DigitChar(n % 10)]
  }

  /** `Integer#to_s` of any integer: a minus sign precedes the digits of a negative one. */
  function IntToString(i: int): (s: string)
    ensures |s| >= 1
    ensures i < 0 <==> s[0] == '-'
    ensures forall k :: 0 <= k < |s| ==> IsDigit(s[k]) || (k == 0 && s[k] == '-')
  {
    if i < 0 then "-" + NatToString(-i) else NatToString(i)
  }

  /** The value of a string of decimal digits. */
  function ParseNat(s: string): nat
    requires AllDigits(s)
  {
    if |s| == 0 then 0 else ParseNat(s[..|s| - 1]) * 10 + DigitValue(s[|s| - 1])
  }

  /** The value of an optionally signed string of decimal digits. */
  function ParseInt(s: string): int
    requires |s| >= 1
    requires s[0] == '-' ==> AllDigits(s[1..])
    requires s[0] != '-' ==> AllDigits(s)
  {
    if s[0] == '-' then -(ParseNat(s[1..]) as int) else ParseNat(s)
  }

  lemma {:induction false} ParseNatToString(n: nat)
    ensures ParseNat(NatToString(n)) == n
  {
    if n >= 10 {
      var s := NatToString(n);
      assert s[..|s| - 1] == NatToString(n / 10);
      ParseNatToString(n / 10);
    }
  }

  /** Reading back the decimal rendering of an integer gives the integer. */
  lemma ParseIntToString(i: int)
    ensures ParseInt(IntToString(i)) == i
  {
    if i < 0 {
      assert IntToString(i)[1..] == NatToString(-i);
      ParseNatToString(-i);
    } else {
      ParseNatToString(i);
    }
  }

  /** Distinct integers have distinct decimal renderings. */
  lemma IntToStringInjective(i: int, j: int)
    requires IntToString(i) == IntToString(j)
    ensures i == j
  {
    ParseIntToString(i);
    ParseIntToString(j);
  }

  /** `Array#join(sep)`: the words with `sep` between consecutive ones. */
  function Join(words: seq<string>, sep: string): string {
    if |words| == 0 then ""
    else if |words| == 1 then words[0]
    else words[0] + sep + Join(words[1..], sep)
  }

  /**
   * The pieces of `s` between occurrences of `c`, empty pieces kept:
   * the inverse of joining with the one-character separator `c`.
   */
  function Fields(s: string, c: char): (r: seq<string>)
    ensures |r| >= 1
  {
    if |s| == 0 then [""]
    else if s[0] == c then [""] + Fields(s[1..], c)
    else
      var rest := Fields(s[1..], c);
      [[s[0]] + rest[0]] + rest[1..]
  }

  lemma {:induction false} FieldsOfWord(w: string, c: char)
    requires c !in w
    ensures Fields(w, c) == [w]
  {
    if |w| > 0 {
      FieldsOfWord(w[1..], c);
      assert [w[0]] + w[1..] == w;
    }
  }

  lemma {:induction false} FieldsOfWordThenRest(w: string, c: char, rest: string)
    requires c !in w
    ensures Fields(w + [c] + rest, c) == [w] + Fields(rest, c)
  {
    if |w| == 0 {
      assert w + [c] + rest == [c] + rest;
      assert ([c] + rest)[1..] == rest;
    } else {
      var s := w + [c] + rest;
      assert s[1..] == w[1..] + [c] + rest;
      FieldsOfWordThenRest(w[1..], c, rest);
      assert [w[0]] + w[1..] == w;
    }
  }

  /**
   * Joining words that do not contain the separator character and
   * splitting the result at that character gives back the words.
   */
  lemma {:induction false} FieldsOfJoin(words: seq<string>, c: char)
    requires |words| >= 1
    requires forall i :: 0 <= i < |words| ==> c !in words[i]
    ensures Fields(Join(words, [c]), c) == words
  {
    if |words| == 1 {
      FieldsOfWord(words[0], c);
    } else {
      FieldsOfJoin(words[1..], c);
      FieldsOfWordThenRest(words[0], c, Join(words[1..], [c]));
      assert [words[0]] + words[1..] == words;
    }
  }

  /** The first word starts the joined string. */
  lemma {:induction false} JoinStartsWithFirst(words: seq<string>, sep: string)
    requires |words| >= 1
    ensures |words[0]| <= |Join(words, sep)|
    ensures Join(words, sep)[..|words[0]|] == words[0]
  {
    if |words| > 1 {
      assert Join(words, sep) == words[0] + (sep + Join(words[1..], sep));
    }
  }
}
