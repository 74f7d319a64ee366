/**
 * The two java.lang.String operations that every line of user input goes
 * through: trim(), which strips the characters at or below U+0020 from both
 * ends, and toUpperCase(Locale.ROOT), modelled on the ASCII letters only.
 */
module JavaString {

  /** trim() removes exactly the characters whose code is at most that of ' '. */
  predicate IsBlank(c: char)
  {
    c <= ' '
  }

  predicate AllBlank(s: string)
  {
    forall i :: 0 <= i < |s| ==> IsBlank(s[i])
  }

  /** The first loop of trim(): from index k, skip blank characters. */
  function TrimStart(s: string, k: nat): (st: nat)
    requires k <= |s|
    ensures k <= st <= |s|
    ensures forall i :: k <= i < st ==> IsBlank(s[i])
    ensures st < |s| ==> !IsBlank(s[st])
    decreases |s| - k
  {
    if k < |s| && IsBlank(s[k]) then TrimStart(s, k + 1) else k
  }

  /** The second loop of trim(): move the end back over blank characters,
      never past the start st. */
  function TrimEnd(s: string, st: nat, len: nat): (e: nat)
    requires st <= len <= |s|
    ensures st <= e <= len
    ensures forall i :: e <= i < len ==> IsBlank(s[i])
    ensures st < e ==> !IsBlank(s[e - 1])
    decreases len
  {
    if st < len && IsBlank(s[len - 1]) then TrimEnd(s, st, len - 1) else len
  }

  /** The number of blank characters at the front of s. */
  function LeadingBlanks(s: string): (k: nat)
    ensures k <= |s|
    ensures forall i :: 0 <= i < k ==> IsBlank(s[i])
    ensures k < |s| ==> !IsBlank(s[k])
  {
    TrimStart(s, 0)
  }

  /** Where the text that trim() keeps ends. */
  function TrimmedEnd(s: string): (e: nat)
    ensures LeadingBlanks(s) <= e <= |s|
    ensures forall i :: e <= i < |s| ==> IsBlank(s[i])
    ensures LeadingBlanks(s) < e ==> !IsBlank(s[e - 1])
  {
    TrimEnd(s, LeadingBlanks(s), |s|)
  }

  /** String.trim(): s without its leading and trailing blanks. */
  function Trim(s: string): (t: string)
    ensures t == [] <==> AllBlank(s)
    ensures t != [] ==> !IsBlank(t[0]) && !IsBlank(t[|t| - 1])
  {
    s[LeadingBlanks(s)..TrimmedEnd(s)]
  }

  /** trim() is determined by where the first and last non-blank characters
      are: whatever lies between a blank prefix and a blank suffix that both
      stop at a non-blank character (or meet) is what trim() returns. */
  lemma TrimIs(s: string, i: nat, j: nat)
    requires i <= j <= |s|
    requires forall k :: 0 <= k < i ==> IsBlank(s[k])
    requires forall k :: j <= k < |s| ==> IsBlank(s[k])
    requires i < j ==> !IsBlank(s[i]) && !IsBlank(s[j - 1])
    ensures Trim(s) == s[i..j]
  {
    if i == j {
      assert AllBlank(s) by {
        forall k | 0 <= k < |s| ensures IsBlank(s[k]) {
          if k >= i { assert j <= k; }
        }
      }
    } else {
      assert LeadingBlanks(s) == i;
    }
  }

  /** trim() removes blanks and nothing else: a line is its blank prefix,
      its trimmed text and a blank suffix, in that order. */
  lemma TrimRemovesOnlyBlanks(s: string)
    ensures var i, t := LeadingBlanks(s), Trim(s);
            i + |t| <= |s| && s == s[..i] + t + s[i + |t|..]
            && AllBlank(s[..i]) && AllBlank(s[i + |t|..])
  {
    var i, j := LeadingBlanks(s), TrimmedEnd(s);
    forall k | 0 <= k < i ensures IsBlank(s[..i][k]) {
      assert s[..i][k] == s[k];
    }
    forall k | 0 <= k < |s| - j ensures IsBlank(s[j..][k]) {
      assert s[j..][k] == s[j + k];
    }
    SplitThree(s, i, j);
  }

  /** A line is the concatenation of three consecutive slices of it. */
  lemma SplitThree(s: string, i: nat, j: nat)
    requires i <= j <= |s|
    ensures s == s[..i] + s[i..j] + s[j..]
  {
  }

  /** A slice of the middle part of a concatenation. */
  lemma MiddleSlice(p: string, s: string, q: string, i: nat, j: nat)
    requires i <= j <= |s|
    ensures (p + s + q)[|p| + i..|p| + j] == s[i..j]
  {
    var w := p + s + q;
    assert |w[|p| + i..|p| + j]| == j - i;
    forall k | 0 <= k < j - i ensures w[|p| + i..|p| + j][k] == s[i..j][k] {
      assert w[|p| + i + k] == s[i + k];
    }
  }

  /** Blank padding around a line does not change what trim() returns. */
  lemma TrimIgnoresPadding(p: string, s: string, q: string)
    requires AllBlank(p) && AllBlank(q)
    ensures Trim(p + s + q) == Trim(s)
  {
    var i, j := LeadingBlanks(s), TrimmedEnd(s);
    PaddedEnds(p, s, q, i, j);
    TrimIs(p + s + q, |p| + i, |p| + j);
    MiddleSlice(p, s, q, i, j);
  }

  /** The blank ends of a line, widened by blank padding, are blank ends of
      the padded line, and the characters next to them are unchanged. */
  lemma PaddedEnds(p: string, s: string, q: string, i: nat, j: nat)
    requires AllBlank(p) && AllBlank(q) && i <= j <= |s|
    requires forall k :: 0 <= k < i ==> IsBlank(s[k])
    requires forall k :: j <= k < |s| ==> IsBlank(s[k])
    ensures forall k :: 0 <= k < |p| + i ==> IsBlank((p + s + q)[k])
    ensures forall k :: |p| + j <= k < |p + s + q| ==> IsBlank((p + s + q)[k])
    ensures i < j ==> (p + s + q)[|p| + i] == s[i] && (p + s + q)[|p| + j - 1] == s[j - 1]
  {
    var w := p + s + q;
    forall k | 0 <= k < |p| + i ensures IsBlank(w[k]) {
      if k >= |p| { assert w[k] == s[k - |p|]; }
    }
    forall k | |p| + j <= k < |w| ensures IsBlank(w[k]) {
      if k < |p| + |s| { assert w[k] == s[k - |p|]; }
      else { assert w[k] == q[k - |p| - |s|]; }
    }
  }

  /** trim() is idempotent. */
  lemma TrimIdempotent(s: string)
    ensures Trim(Trim(s)) == Trim(s)
  {
    var t := Trim(s);
    TrimIs(t, 0, |t|);
    assert t[0..|t|] == t;
  }

  /** toUpperCase(Locale.ROOT) on one character, for the ASCII letters. */
  function UpperChar(c: char): (u: char)
    ensures 'a' <= c <= 'z' ==> 'A' <= u <= 'Z' && u as int - 'A' as int == c as int - 'a' as int
    ensures !('a' <= c <= 'z') ==> u == c
    ensures !('a' <= u <= 'z')
    ensures IsBlank(u) <==> IsBlank(c)
  {
    if 'a' <= c <= 'z' then (c as int - 32) as char else c
  }

  /** toUpperCase(Locale.ROOT), character by character. */
  function UpperAscii(s: string): (u: string)
    ensures |u| == |s|
    ensures forall i :: 0 <= i < |s| ==> u[i] == UpperChar(s[i])
  {
    seq(|s|, i requires 0 <= i < |s| => UpperChar(s[i]))
  }

  /** Upper-casing commutes with slicing. */
  lemma UpperSlice(s: string, i: nat, j: nat)
    requires i <= j <= |s|
    ensures UpperAscii(s)[i..j] == UpperAscii(s[i..j])
  {
  }

  /** Upper-casing does not change which characters trim() removes. */
  lemma TrimUpperCommute(s: string)
    ensures Trim(UpperAscii(s)) == UpperAscii(Trim(s))
  {
    var u, i, j := UpperAscii(s), LeadingBlanks(s), TrimmedEnd(s);
    TrimIs(u, i, j);
    UpperSlice(s, i, j);
  }

  /** Upper-casing twice is upper-casing once. */
  lemma UpperIdempotent(s: string)
    ensures UpperAscii(UpperAscii(s)) == UpperAscii(s)
  {
  }
}
