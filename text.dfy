/**
 * Character-level helpers shared by the client's frame parser (JavaScript
 * `indexOf`, `split`, number-to-string) and the server's (Go `strings.Index`).
 */
module Text {

  /** Position of the first `c` in `s`, or -1 when there is none. */
  function IndexOf(s: string, c: char): (i: int)
    ensures -1 <= i < |s|
    ensures 0 <= i ==> s[i] == c && c !in s[..i]
    ensures i < 0 <==> c !in s
  {
    if |s| == 0 then -1
    else if s[0] == c then 0
    else
      var k := IndexOf(s[1..], c);
      if k < 0 then -1
      else
        assert s[..k + 1] == [s[0]] + s[1..][..k];
        k + 1
  }

  /** The first `c` of `a + [c] + b`, when `a` has none, sits right after `a`. */
  lemma IndexOfAfterPrefix(a: string, c: char, b: string)
    requires c !in a
    ensures IndexOf(a + [c] + b, c) == |a|
  {
    var s := a + [c] + b;
    assert s[|a|] == c;
    assert s[..|a|] == a;
  }

  /** Number of occurrences of `c` in `s`. */
  function Count(s: string, c: char): nat
  {
    multiset(s)[c]
  }

  /** JavaScript `parts.join(sep)` for a one-character separator. */
  function Join(parts: seq<string>, sep: char): string
  {
    if parts == [] then ""
    else if |parts| == 1 then parts[0]
    else parts[0] + [sep] + Join(parts[1..], sep)
  }

  lemma JoinCons(a: string, rest: seq<string>, sep: char)
    requires |rest| >= 1
    ensures Join([a] + rest, sep) == a + [sep] + Join(rest, sep)
  {
    assert ([a] + rest)[1..] == rest;
  }

  /**
   * JavaScript `s.split(sep)` for a one-character separator: one part more
   * than there are separators, and none of them holding one.
   */
  function Split(s: string, sep: char): (parts: seq<string>)
    ensures |parts| == Count(s, sep) + 1
    ensures forall k :: 0 <= k < |parts| ==> sep !in parts[k]
    decreases |s|
  {
    var i := IndexOf(s, sep);
    if i < 0 then [s]
    else
      CountAround(s, i, sep);
      var rest := Split(s[i + 1..], sep);
      var r := [s[..i]] + rest;
      assert forall k :: 1 <= k < |r| ==> r[k] == rest[k - 1];
      r
  }

  /** Joining the parts of a split with its separator gives the text back. */
  lemma {:induction false} JoinSplit(s: string, sep: char)
    ensures Join(Split(s, sep), sep) == s
    decreases |s|
  {
    var i := IndexOf(s, sep);
    if i >= 0 {
      var rest := Split(s[i + 1..], sep);
      var parts := Split(s, sep);
      assert parts == [s[..i]] + rest;
      assert parts[0] == s[..i];
      assert parts[1..] == rest;
      JoinSplit(s[i + 1..], sep);
      JoinCons(s[..i], rest, sep);
      assert s[..i] + [sep] + s[i + 1..] == s;
    }
  }

  /** Cutting `s` at an occurrence of `c` at `i` loses exactly that one occurrence. */
  lemma CountAround(s: string, i: int, c: char)
    requires 0 <= i < |s| && s[i] == c && c !in s[..i]
    ensures Count(s, c) == Count(s[i + 1..], c) + 1
  {
    assert s == s[..i] + [c] + s[i + 1..];
    assert multiset(s) == multiset(s[..i]) + multiset([c]) + multiset(s[i + 1..]);
  }

  /** A header with exactly one separator splits into the text on either side of it. */
  lemma SplitAroundSeparator(a: string, sep: char, b: string)
    requires sep !in a && sep !in b
    ensures Split(a + [sep] + b, sep) == [a, b]
  {
    var s := a + [sep] + b;
    IndexOfAfterPrefix(a, sep, b);
    assert s[..|a|] == a;
    assert s[|a| + 1..] == b;
  }

  // ----- decimal numbers -----

  function DigitChar(d: nat): char
    requires d < 10
  {
    "0123456789"[d]
  }

  function DigitValue(ch: char): nat
  {
    if '0' <= ch <= '9' then ch as nat - '0' as nat else 0
  }

  predicate IsDigit(ch: char)
  {
    '0' <= ch <= '9'
  }

  /** Decimal text of a natural number, as JavaScript's `"" + n` writes it. */
  function NatToString(n: nat): (s: string)
    ensures |s| >= 1
    ensures forall k :: 0 <= k < |s| ==> IsDigit(s[k])
    ensures n >= 1 ==> s[0] != '0'
  {
    if n < 10 then [DigitChar(n)] else NatToString(n / 10) + [DigitChar(n % 10)]
  }

  /** Reads the decimal digits of `s` back into a number. */
  function ParseNat(s: string): nat
  {
    if |s| == 0 then 0 else ParseNat(s[..|s| - 1]) * 10 + DigitValue(s[|s| - 1])
  }

  lemma {:induction false} ParseNatToString(n: nat)
    ensures ParseNat(NatToString(n)) == n
  {
    if n >= 10 {
      var s := NatToString(n);
      assert s[..|s| - 1] == NatToString(n / 10);
      ParseNatToString(n / 10);
    }
  }

  /** Different numbers are written differently. */
  lemma NatToStringInjective(m: nat, n: nat)
    requires NatToString(m) == NatToString(n)
    ensures m == n
  {
    ParseNatToString(m);
    ParseNatToString(n);
  }

  /** JavaScript's text for an integer: a minus sign, then the digits. */
  function IntToString(n: int): (s: string)
    ensures |s| >= 1
    ensures n >= 0 ==> s == NatToString(n)
    ensures n < 0 ==> s[0] == '-' && s[1..] == NatToString(-n)
  {
    if n < 0 then "-" + NatToString(-n) else NatToString(n)
  }
}
