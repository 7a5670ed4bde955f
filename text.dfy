/**
 * The string operations of JavaScript that the screens rely on: `trim`,
 * `toLowerCase`/`toUpperCase`, `includes` and `replace` with a one-character
 * pattern.
 */
module Text {
  import opened Common

  /** JavaScript's WhiteSpace and LineTerminator characters, the set `trim` and `parseFloat` skip. */
  predicate IsSpace(c: char) {
    || c == '\t' || c == '\n' || c == '\U{000B}' || c == '\U{000C}' || c == '\r' || c == ' '
    || c == '\U{00A0}' || c == '\U{1680}' || ('\U{2000}' <= c <= '\U{200A}')
    || c == '\U{2028}' || c == '\U{2029}' || c == '\U{202F}' || c == '\U{205F}'
    || c == '\U{3000}' || c == '\U{FEFF}'
  }

  predicate AllSpace(s: string) {
    forall i :: 0 <= i < |s| ==> IsSpace(s[i])
  }

  /** `s.trimStart()`: the suffix of `s` left after its leading white space. */
  function TrimStart(s: string): (r: string)
    ensures |r| <= |s| && r == s[|s| - |r|..]
    ensures AllSpace(s[..|s| - |r|])
    ensures r == [] || !IsSpace(r[0])
  {
    if s != [] && IsSpace(s[0]) then TrimStart(s[1..]) else s
  }

  lemma TrimStartKeeps(s: string)
    requires s == [] || !IsSpace(s[0])
    ensures TrimStart(s) == s
  {
  }

  /** `s.trimEnd()`: the prefix of `s` left after its trailing white space. */
  function TrimEnd(s: string): (r: string)
    ensures |r| <= |s| && r == s[..|r|]
    ensures AllSpace(s[|r|..])
    ensures r == [] || !IsSpace(r[|r| - 1])
  {
    if s != [] && IsSpace(s[|s| - 1]) then TrimEnd(s[..|s| - 1]) else s
  }

  /** `s.trim()`. */
  function Trim(s: string): string {
    TrimEnd(TrimStart(s))
  }

  /** `s.trim()` is an infix of `s` with only white space cut away, and neither of its ends is white space. */
  lemma TrimIsInfix(s: string)
    ensures TrimOffset(s) + |Trim(s)| <= |s|
    ensures Trim(s) == s[TrimOffset(s)..TrimOffset(s) + |Trim(s)|]
    ensures AllSpace(s[..TrimOffset(s)]) && AllSpace(s[TrimOffset(s) + |Trim(s)|..])
    ensures Trim(s) == [] || (!IsSpace(Trim(s)[0]) && !IsSpace(Trim(s)[|Trim(s)| - 1]))
  {
    InfixOfInfix(s, TrimStart(s), Trim(s), TrimOffset(s));
  }

  /** Where `s.trim()` starts in `s`. */
  function TrimOffset(s: string): nat {
    |s| - |TrimStart(s)|
  }

  /** A prefix `r` of the suffix `t` of `s` starting at `i`, with white space on both sides. */
  lemma InfixOfInfix(s: string, t: string, r: string, i: nat)
    requires i <= |s| && t == s[i..] && AllSpace(s[..i]) && (t == [] || !IsSpace(t[0]))
    requires |r| <= |t| && r == t[..|r|] && AllSpace(t[|r|..]) && (r == [] || !IsSpace(r[|r| - 1]))
    ensures i + |r| <= |s| && r == s[i..i + |r|] && AllSpace(s[i + |r|..])
    ensures r == [] || (!IsSpace(r[0]) && !IsSpace(r[|r| - 1]))
  {
    SuffixSlices(s, i, |r|);
    PrefixKeepsFirst(t, r);
  }

  lemma PrefixKeepsFirst(t: string, r: string)
    requires |r| <= |t| && r == t[..|r|]
    ensures r == [] || r[0] == t[0]
  {
  }

  /** A string trims to the empty string exactly when it is all white space (the `x.trim() === ""` tests). */
  lemma TrimEmptyIffBlank(s: string)
    ensures Trim(s) == [] <==> AllSpace(s)
  {
    var t := TrimStart(s);
    var k := |s| - |t|;
    assert t == s[k..];
    if Trim(s) == [] {
      assert AllSpace(t[0..]);
      forall j | 0 <= j < |s| ensures IsSpace(s[j]) {
        if j < k { assert s[j] == s[..k][j]; } else { assert s[j] == t[j - k]; }
      }
    }
  }

  function LowerChar(c: char): char {
    if 'A' <= c <= 'Z' then (c as int + 32) as char else c
  }

  function UpperChar(c: char): char {
    if 'a' <= c <= 'z' then (c as int - 32) as char else c
  }

  /** `s.toLowerCase()`, on the ASCII letters. */
  function ToLower(s: string): (r: string)
    ensures |r| == |s|
    ensures forall i :: 0 <= i < |s| ==> r[i] == LowerChar(s[i])
  {
    seq(|s|, i requires 0 <= i < |s| => LowerChar(s[i]))
  }

  /** `s.toUpperCase()`, on the ASCII letters. */
  function ToUpper(s: string): (r: string)
    ensures |r| == |s|
    ensures forall i :: 0 <= i < |s| ==> r[i] == UpperChar(s[i])
  {
    seq(|s|, i requires 0 <= i < |s| => UpperChar(s[i]))
  }

  lemma ToLowerIdempotent(s: string)
    ensures ToLower(ToLower(s)) == ToLower(s)
  {
  }

  /** `q` occurs in `s` starting at index `i`. */
  predicate OccursAt(s: string, q: string, i: nat) {
    i + |q| <= |s| && s[i..i + |q|] == q
  }

  /** `s.includes(q)`: some infix of `s` equals `q`. */
  function Contains(s: string, q: string): (r: bool)
    ensures r <==> exists i: nat :: OccursAt(s, q, i)
  {
    if |q| > |s| then
      assert forall i: nat :: !OccursAt(s, q, i);
      false
    else if s[..|q|] == q then
      assert OccursAt(s, q, 0);
      true
    else
      var r := Contains(s[1..], q);
      assert forall i: nat :: OccursAt(s[1..], q, i) <==> OccursAt(s, q, i + 1) by {
        forall i: nat ensures OccursAt(s[1..], q, i) <==> OccursAt(s, q, i + 1) {
          if i + |q| <= |s[1..]| { assert s[1..][i..i + |q|] == s[i + 1..i + 1 + |q|]; }
        }
      }
      assert r ==> exists i: nat :: OccursAt(s, q, i) by {
        if r { var i: nat :| OccursAt(s[1..], q, i); assert OccursAt(s, q, i + 1); }
      }
      assert (exists i: nat :: OccursAt(s, q, i)) ==> r by {
        if exists i: nat :: OccursAt(s, q, i) {
          var i: nat :| OccursAt(s, q, i);
          assert i != 0;
          assert OccursAt(s[1..], q, i - 1);
        }
      }
      r
  }

  /** Every string contains the empty string, so an empty search box keeps every row. */
  lemma ContainsEmpty(s: string)
    ensures Contains(s, "")
  {
    assert OccursAt(s, "", 0);
  }

  /** `s.toLowerCase().includes(q.toLowerCase())`. */
  function ContainsIgnoreCase(s: string, q: string): bool {
    Contains(ToLower(s), ToLower(q))
  }

  /** `s.indexOf(c)`: the first index holding `c`, or -1. */
  function IndexOf(s: string, c: char): (r: int)
    ensures -1 <= r < |s|
    ensures r == -1 <==> c !in s
    ensures r >= 0 ==> s[r] == c && c !in s[..r]
  {
    if s == [] then -1
    else if s[0] == c then 0
    else
      var k := IndexOf(s[1..], c);
      assert s == [s[0]] + s[1..];
      if k == -1 then -1
      else
        assert s[..k + 1] == [s[0]] + s[1..][..k];
        k + 1
  }

  /** `s.replace(c, d)` for one-character strings: only the first occurrence of `c` becomes `d`. */
  function ReplaceFirst(s: string, c: char, d: char): (r: string)
    ensures |r| == |s|
    ensures c !in s ==> r == s
    ensures c in s ==> exists i :: 0 <= i < |s| && s[i] == c && c !in s[..i] && r == s[..i] + [d] + s[i + 1..]
    ensures forall k :: 0 <= k < |s| ==> r[k] == if k == IndexOf(s, c) then d else s[k]
  {
    var i := IndexOf(s, c);
    if i < 0 then s else s[..i] + [d] + s[i + 1..]
  }
}
