/**
 * String operations the networking layer borrows from Foundation: substring search
 * (`String.contains`), the `+` to `%2B` rewrite of a percent-encoded query
 * (`replacingOccurrences(of:with:)`), and the decimal rendering of an `Int` in string
 * interpolation.
 */
module Text {
  import opened Wrappers

  /** `sub` occurs in `s` starting at index `i`. */
  predicate OccursAt(s: string, sub: string, i: int) {
    0 <= i && i + |sub| <= |s| && s[i..i + |sub|] == sub
  }

  /** Reference definition of "`s` contains `sub`". */
  ghost predicate ContainsSubstring(s: string, sub: string) {
    exists i :: OccursAt(s, sub, i)
  }

  /** Left-to-right search used by the model for `String.contains`. */
  function HasSubstring(s: string, sub: string): bool
    decreases |s|
  {
    if |s| < |sub| then false
    else s[..|sub|] == sub || HasSubstring(s[1..], sub)
  }

  lemma OccursShift(s: string, sub: string, i: int)
    requires s != [] && 0 <= i
    ensures OccursAt(s[1..], sub, i) <==> OccursAt(s, sub, i + 1)
  {
    if 0 <= i && i + |sub| <= |s| - 1 {
      assert s[1..][i..i + |sub|] == s[i + 1..i + 1 + |sub|];
    }
  }

  lemma {:induction false} HasSubstringCorrect(s: string, sub: string)
    ensures HasSubstring(s, sub) <==> ContainsSubstring(s, sub)
    decreases |s|
  {
    if |s| < |sub| {
    } else if s[..|sub|] == sub {
      assert OccursAt(s, sub, 0);
    } else {
      HasSubstringCorrect(s[1..], sub);
      if ContainsSubstring(s[1..], sub) {
        var i :| OccursAt(s[1..], sub, i);
        OccursShift(s, sub, i);
      }
      if ContainsSubstring(s, sub) {
        var i :| OccursAt(s, sub, i);
        assert i != 0;
        OccursShift(s, sub, i - 1);
      }
    }
  }

  /** Replaces every `+` by `%2B`. */
  function ReplacePlus(s: string): (r: string)
    ensures '+' !in r
  {
    if s == [] then []
    else (if s[0] == '+' then "%2B" else [s[0]]) + ReplacePlus(s[1..])
  }

  lemma {:induction false} ReplacePlusAppend(a: string, b: string)
    ensures ReplacePlus(a + b) == ReplacePlus(a) + ReplacePlus(b)
  {
    if a == [] {
      assert a + b == b;
    } else {
      assert (a + b)[0] == a[0];
      assert (a + b)[1..] == a[1..] + b;
      ReplacePlusAppend(a[1..], b);
    }
  }

  /** Turns every `%2B` back into `+`, as a server decoding the query would. */
  function RestorePlus(s: string): string
    decreases |s|
  {
    if |s| >= 3 && s[..3] == "%2B" then "+" + RestorePlus(s[3..])
    else if s == [] then []
    else [s[0]] + RestorePlus(s[1..])
  }

  /** If `s` does not already hold `%2B`, the rewrite loses nothing: restoring gives `s` back. */
  lemma {:induction false} RestoreReplacePlus(s: string)
    requires !HasSubstring(s, "%2B")
    ensures RestorePlus(ReplacePlus(s)) == s
    decreases |s|
  {
    if s != [] {
      var rest := s[1..];
      assert !HasSubstring(rest, "%2B");
      RestoreReplacePlus(rest);
      var r := ReplacePlus(rest);
      if s[0] == '+' {
        assert ReplacePlus(s) == "%2B" + r;
        assert ("%2B" + r)[3..] == r;
      } else {
        assert ReplacePlus(s) == [s[0]] + r;
        var t := [s[0]] + r;
        assert t[1..] == r;
      }
    }
  }

  /** Index of the first occurrence of `c` in `s`. */
  function IndexOf(s: string, c: char): (r: Option<nat>)
    ensures r.Some? ==> r.value < |s| && s[r.value] == c && c !in s[..r.value]
    ensures r.None? ==> c !in s
  {
    if s == [] then None
    else if s[0] == c then Some(0)
    else match IndexOf(s[1..], c)
      case None => None
      case Some(i) => Some(i + 1)
  }

  lemma IndexOfAppend(a: string, b: string, c: char)
    requires c !in a && b != [] && b[0] == c
    ensures IndexOf(a + b, c) == Some(|a|)
  {
    assert (a + b)[|a|] == c;
    assert (a + b)[..|a|] == a;
  }

  function DigitChar(d: int): char
    requires 0 <= d < 10
  {
    "0123456789"[d]
  }

  /** Decimal digits of `n`, most significant first, without leading zeros. */
  function NatDigits(n: nat): (r: string)
    ensures r != []
    ensures forall i :: 0 <= i < |r| ==> '0' <= r[i] <= '9'
    decreases n
  {
    if n < 10 then [DigitChar(n)] else NatDigits(n / 10) + [DigitChar(n % 10)]
  }

  /** The text of an `Int` in Swift's string interpolation. */
  function IntText(i: int): string {
    if i < 0 then "-" + NatDigits(-i) else NatDigits(i)
  }

  /** Reads decimal digits back to a number (the partner of NatDigits). */
  function ParseDigits(s: string): int
    decreases |s|
  {
    if s == [] then 0 else ParseDigits(s[..|s| - 1]) * 10 + (s[|s| - 1] as int - '0' as int)
  }

  lemma {:induction false} ParseNatDigits(n: nat)
    ensures ParseDigits(NatDigits(n)) == n
    decreases n
  {
    if n >= 10 {
      var d := NatDigits(n / 10) + [DigitChar(n % 10)];
      assert d[..|d| - 1] == NatDigits(n / 10);
      ParseNatDigits(n / 10);
    }
  }

  /** Swift's interpolation of an Int can be read back: the rendering is lossless. */
  lemma IntTextRoundTrip(i: int)
    ensures IntText(i) != [] && (IntText(i)[0] == '-' <==> i < 0)
    ensures i < 0 ==> -ParseDigits(IntText(i)[1..]) == i
    ensures i >= 0 ==> ParseDigits(IntText(i)) == i
  {
    if i < 0 {
      assert IntText(i)[1..] == NatDigits(-i);
      ParseNatDigits(-i);
    } else {
      ParseNatDigits(i);
    }
  }
}
