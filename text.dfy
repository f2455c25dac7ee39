/** String and list primitives of the JavaScript runtime that the extension
    relies on: `substring(0, n)` / `slice(0, n)`, `includes`, the
    first-occurrence `replace` and an ASCII `toUpperCase`. */
module Text {

  function Min(a: int, b: int): int {
    if a <= b then a else b
  }

  /** `s.substring(0, n)` (and `s.slice(0, n)` on arrays) for a non-negative n:
      a hard cut, never an error, whatever the length of `s`. */
  function Prefix<T>(s: seq<T>, n: nat): (r: seq<T>)
    ensures r <= s
    ensures |r| <= n
    ensures |r| == Min(|s|, n)
  {
    if |s| <= n then s else s[..n]
  }

  /** `s.startsWith(p)`. */
  predicate StartsWith(s: string, p: string) {
    |p| <= |s| && s[..|p|] == p
  }

  /** `s.includes(sub)`: a substring test, scanning from the left. */
  predicate Contains(s: string, sub: string)
    decreases |s|
  {
    StartsWith(s, sub) || (|s| > 0 && Contains(s[1..], sub))
  }

  /** The reference meaning of `Contains`: `sub` occurs at some position of `s`. */
  predicate OccursAt(s: string, sub: string, i: int) {
    0 <= i && i + |sub| <= |s| && s[i..i + |sub|] == sub
  }

  lemma {:induction false} ContainsIffOccurs(s: string, sub: string)
    ensures Contains(s, sub) <==> exists i :: OccursAt(s, sub, i)
    decreases |s|
  {
    if StartsWith(s, sub) {
      assert OccursAt(s, sub, 0);
    } else if |s| == 0 {
      assert forall i :: !OccursAt(s, sub, i);
    } else {
      ContainsIffOccurs(s[1..], sub);
      if Contains(s[1..], sub) {
        var i :| OccursAt(s[1..], sub, i);
        assert s[1..][i..i + |sub|] == s[i + 1..i + 1 + |sub|];
        assert OccursAt(s, sub, i + 1);
      } else {
        forall i | OccursAt(s, sub, i)
          ensures false
        {
          assert i != 0;
          assert s[1..][i - 1..i - 1 + |sub|] == s[i..i + |sub|];
          assert OccursAt(s[1..], sub, i - 1);
        }
      }
    }
  }

  /** Every string that embeds `sub` passes the test: a host name only has to
      contain the fragment, it does not have to be equal to it. */
  lemma {:induction false} ContainsEmbedded(a: string, sub: string, b: string)
    ensures Contains(a + sub + b, sub)
  {
    var s := a + sub + b;
    assert s[|a|..|a| + |sub|] == sub;
    assert OccursAt(s, sub, |a|);
    ContainsIffOccurs(s, sub);
  }

  /** `s.replace(c, d)` with a one-character string pattern: only the FIRST
      occurrence of `c` is replaced. */
  function ReplaceFirst(s: string, c: char, d: char): (r: string)
    ensures |r| == |s|
  {
    if |s| == 0 then []
    else if s[0] == c then [d] + s[1..]
    else [s[0]] + ReplaceFirst(s[1..], c, d)
  }

  /** Without any `c` the string is returned unchanged. */
  lemma {:induction false} ReplaceFirstAbsent(s: string, c: char, d: char)
    requires c !in s
    ensures ReplaceFirst(s, c, d) == s
  {
    if |s| > 0 {
      assert s == [s[0]] + s[1..];
      ReplaceFirstAbsent(s[1..], c, d);
    }
  }

  /** The leftmost `c`, at index i, is the one replaced. */
  lemma {:induction false} ReplaceFirstAt(s: string, c: char, d: char, i: nat)
    requires i < |s| && s[i] == c && c !in s[..i]
    ensures ReplaceFirst(s, c, d) == s[..i] + [d] + s[i + 1..]
  {
    if i > 0 {
      assert s[0] == s[..i][0];
      var t := s[1..];
      assert t[..i - 1] == s[1..i];
      ReplaceFirstAt(t, c, d, i - 1);
      assert t[i..] == s[i + 1..];
      assert s[..i] == [s[0]] + s[1..i];
    }
  }

  /** Without any `c` the string is returned unchanged; otherwise exactly the
      leftmost `c` (at index i) becomes `d` and every later `c` survives. */
  lemma ReplaceFirstSpec(s: string, c: char, d: char)
    ensures c !in s ==> ReplaceFirst(s, c, d) == s
    ensures forall i :: 0 <= i < |s| && s[i] == c && c !in s[..i] ==>
      ReplaceFirst(s, c, d) == s[..i] + [d] + s[i + 1..]
  {
    if c !in s {
      ReplaceFirstAbsent(s, c, d);
    }
    forall i | 0 <= i < |s| && s[i] == c && c !in s[..i]
      ensures ReplaceFirst(s, c, d) == s[..i] + [d] + s[i + 1..]
    {
      ReplaceFirstAt(s, c, d, i);
    }
  }

  /** `toUpperCase` on ASCII letters; other characters are kept. */
  function UpperChar(ch: char): char {
    if 'a' <= ch <= 'z' then (ch as int - 32) as char else ch
  }

  /** `toUpperCase` on a string: each lower-case ASCII letter becomes its
      capital, every other character stays where and what it was. */
  function UpperAscii(s: string): (r: string)
    ensures |r| == |s|
    ensures forall i :: 0 <= i < |r| ==> !('a' <= r[i] <= 'z')
    ensures forall i :: 0 <= i < |s| ==>
      if 'a' <= s[i] <= 'z' then 'A' <= r[i] <= 'Z' && r[i] as int == s[i] as int - 32 else r[i] == s[i]
  {
    seq(|s|, i requires 0 <= i < |s| => UpperChar(s[i]))
  }

  /** Upper-casing twice is upper-casing once. */
  lemma UpperAsciiIdempotent(s: string)
    ensures UpperAscii(UpperAscii(s)) == UpperAscii(s)
  {
  }
}
