/**
 * The string operations the service relies on: lower-casing, Python's
 * `str.strip()` and Python's substring test `k in s`.  Characters are
 * Dafny `char`s; only the ASCII part of case folding and of the
 * whitespace class is modelled.
 */
module Text {

  /** Lower-case one character (ASCII letters only). */
  function LowerChar(c: char): char
  {
    if 'A' <= c <= 'Z' then (c as int + 32) as char else c
  }

  /** `s.lower()` / `s.toLowerCase()` on ASCII text. */
  function Lower(s: string): (r: string)
    ensures |r| == |s|
    ensures forall i :: 0 <= i < |s| ==> r[i] == LowerChar(s[i])
  {
    if s == [] then [] else [LowerChar(s[0])] + Lower(s[1..])
  }

  lemma LowerIdempotent(s: string)
    ensures Lower(Lower(s)) == Lower(s)
  {
  }

  /** The ASCII characters for which Python's `str.isspace()` holds. */
  predicate IsSpace(c: char)
  {
    c == ' ' || '\t' <= c <= '\r' || '\U{1c}' <= c <= '\U{1f}'
  }

  function TrimLeft(s: string): (r: string)
    ensures |r| <= |s|
    ensures r == [] || !IsSpace(r[0])
    ensures forall i :: 0 <= i < |s| - |r| ==> IsSpace(s[i])
  {
    if |s| > 0 && IsSpace(s[0]) then TrimLeft(s[1..]) else s
  }

  function TrimRight(s: string): (r: string)
    ensures |r| <= |s|
    ensures r != [] ==> r[0] == s[0]
    ensures r == [] || !IsSpace(r[|r| - 1])
    ensures forall i :: |r| <= i < |s| ==> IsSpace(s[i])
  {
    if |s| > 0 && IsSpace(s[|s| - 1]) then TrimRight(s[..|s| - 1]) else s
  }

  /** Trimming on the left drops a prefix: what remains is a suffix of the text. */
  lemma {:induction false} TrimLeftIsSuffix(s: string)
    ensures TrimLeft(s) == s[|s| - |TrimLeft(s)|..]
  {
    if |s| > 0 && IsSpace(s[0]) {
      TrimLeftIsSuffix(s[1..]);
    }
  }

  /** Trimming on the right drops a suffix: what remains is a prefix of the text. */
  lemma {:induction false} TrimRightIsPrefix(s: string)
    ensures TrimRight(s) == s[..|TrimRight(s)|]
  {
    if |s| > 0 && IsSpace(s[|s| - 1]) {
      TrimRightIsPrefix(s[..|s| - 1]);
    }
  }

  /** Python's `s.strip()`: drop leading and trailing whitespace. */
  function Strip(s: string): (r: string)
    ensures |r| <= |s|
    ensures r == [] || (!IsSpace(r[0]) && !IsSpace(r[|r| - 1]))
  {
    TrimRight(TrimLeft(s))
  }

  /** Python's `k in s` for strings: `k` occurs in `s` as a contiguous substring. */
  function Contains(s: string, k: string): bool
    decreases |s|
  {
    if |k| > |s| then false else s[..|k|] == k || Contains(s[1..], k)
  }

  /** `k` occurs in `s` starting at position `i`. */
  predicate OccursAt(s: string, k: string, i: int)
  {
    0 <= i && i + |k| <= |s| && s[i..i + |k|] == k
  }

  /**
   * Stripping keeps the piece of the text that starts at the first
   * non-space character, and everything it drops is whitespace.
   */
  lemma StripDropsOnlySpace(s: string)
    ensures var k := |s| - |TrimLeft(s)|;
      && k + |Strip(s)| <= |s|
      && s[k..k + |Strip(s)|] == Strip(s)
      && (forall i :: 0 <= i < k ==> IsSpace(s[i]))
      && (forall i :: k + |Strip(s)| <= i < |s| ==> IsSpace(s[i]))
  {
    var t := TrimLeft(s);
    TrimLeftIsSuffix(s);
    TrimRightIsPrefix(t);
    PrefixOfSuffix(s, t, TrimRight(t), |s| - |t|);
  }

  /** A prefix `r` of the suffix `t` of `s` at `k`, where `t` has only whitespace after `r`. */
  lemma PrefixOfSuffix(s: string, t: string, r: string, k: nat)
    requires k <= |s| && t == s[k..] && |r| <= |t| && r == t[..|r|]
    requires forall i :: |r| <= i < |t| ==> IsSpace(t[i])
    ensures s[k..k + |r|] == r
    ensures forall i :: k + |r| <= i < |s| ==> IsSpace(s[i])
  {
    assert s[k..k + |r|] == s[k..][..|r|];
    forall i | k + |r| <= i < |s|
      ensures IsSpace(s[i])
    {
      assert s[i] == t[i - k];
    }
  }

  /** Stripping keeps a contiguous piece of the text. */
  lemma StripIsSubstring(s: string)
    ensures Contains(s, Strip(s))
  {
    StripDropsOnlySpace(s);
    assert OccursAt(s, Strip(s), |s| - |TrimLeft(s)|);
    ContainsAt(s, Strip(s));
  }

  /** `Contains` agrees with "there is a position where `k` starts". */
  lemma {:induction false} ContainsAt(s: string, k: string)
    ensures Contains(s, k) <==> exists i :: OccursAt(s, k, i)
    decreases |s|
  {
    if |k| <= |s| && s[..|k|] != k {
      ContainsAt(s[1..], k);
      if exists i :: OccursAt(s, k, i) {
        var i :| OccursAt(s, k, i);
        assert i > 0;
        assert OccursAt(s[1..], k, i - 1);
      }
      if Contains(s[1..], k) {
        var j :| OccursAt(s[1..], k, j);
        assert OccursAt(s, k, j + 1);
      }
    } else if |k| <= |s| {
      assert OccursAt(s, k, 0);
    }
  }

  /** A substring of a substring is a substring. */
  lemma ContainsTransitive(s: string, m: string, k: string)
    requires Contains(s, m) && Contains(m, k)
    ensures Contains(s, k)
  {
    ContainsAt(s, m);
    ContainsAt(m, k);
    ContainsAt(s, k);
    var i :| OccursAt(s, m, i);
    var j :| OccursAt(m, k, j);
    var w := s[i + j..i + j + |k|];
    forall t | 0 <= t < |k|
      ensures w[t] == k[t]
    {
      assert s[i..i + |m|][j + t] == m[j + t];
      assert m[j..j + |k|][t] == k[t];
    }
    assert OccursAt(s, k, i + j);
  }


  /** Every character of a contained string occurs in the containing one. */
  lemma ContainedCharsOccur(s: string, k: string, c: char)
    requires Contains(s, k) && c in k
    ensures c in s
  {
    ContainsAt(s, k);
    var i :| OccursAt(s, k, i);
    var t :| 0 <= t < |k| && k[t] == c;
    assert s[i..i + |k|][t] == c;
  }


  /** A string with a character that `s` lacks is not contained in `s`. */
  lemma MissingCharNotContained(s: string, k: string, c: char)
    requires c in k && c !in s
    ensures !Contains(s, k)
  {
    if Contains(s, k) {
      ContainedCharsOccur(s, k, c);
    }
  }

}
