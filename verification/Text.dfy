/**
 * The three JavaScript string operations the showcase filter uses:
 * `String.prototype.trim`, `toLowerCase` (restricted to ASCII letters) and
 * `includes` (contiguous substring search).
 */
module Text {

  // ---------------------------------------------------------------------------
  // trim()

  /**
   * The characters `trim()` strips: ECMAScript WhiteSpace (tab, vertical tab,
   * form feed, space, no-break space, byte order mark and the Unicode space
   * separators) and LineTerminator (line feed, carriage return, line and
   * paragraph separators).
   */
  predicate IsWhitespace(c: char)
    ensures IsWhitespace(c) ==> !('A' <= c <= 'Z') && !('a' <= c <= 'z')
  {
    var n := c as int;
    n == 0x09 || n == 0x0A || n == 0x0B || n == 0x0C || n == 0x0D || n == 0x20 ||
    n == 0xA0 || n == 0x1680 || (0x2000 <= n <= 0x200A) || n == 0x2028 ||
    n == 0x2029 || n == 0x202F || n == 0x205F || n == 0x3000 || n == 0xFEFF
  }

  predicate AllWhitespace(s: string) {
    forall i | 0 <= i < |s| :: IsWhitespace(s[i])
  }

  /** Drops the leading whitespace: the result is the suffix that starts at the first other character. */
  function TrimStart(s: string): (r: string)
    ensures |r| <= |s| && r == s[|s| - |r|..]
    ensures AllWhitespace(s[..|s| - |r|])
    ensures r == [] || !IsWhitespace(r[0])
  {
    if s != [] && IsWhitespace(s[0]) then TrimStart(s[1..]) else s
  }

  /** Drops the trailing whitespace: the result is the prefix that ends at the last other character. */
  function TrimEnd(s: string): (r: string)
    ensures |r| <= |s| && r == s[..|r|]
    ensures AllWhitespace(s[|r|..])
    ensures r == [] || !IsWhitespace(r[|r| - 1])
  {
    if s != [] && IsWhitespace(s[|s| - 1]) then TrimEnd(s[..|s| - 1]) else s
  }

  /**
   * `s.trim()`: the piece of `s` left when only whitespace is dropped, and
   * only at the two ends, and which neither starts nor ends with whitespace.
   */
  function Trim(s: string): (r: string)
    ensures |r| <= |s|
    ensures exists k | 0 <= k <= |s| - |r| ::
              OccursAt(s, r, k) && AllWhitespace(s[..k]) && AllWhitespace(s[k + |r|..])
    ensures r == [] || (!IsWhitespace(r[0]) && !IsWhitespace(r[|r| - 1]))
  {
    var t := TrimStart(s);
    var r := TrimEnd(t);
    var k := |s| - |t|;
    assert s[k..] == t;
    assert s[k..k + |r|] == t[..|r|];
    assert s[k + |r|..] == t[|r|..];
    assert OccursAt(s, r, k) && AllWhitespace(s[..k]) && AllWhitespace(s[k + |r|..]);
    r
  }

  /** `s.trim()` is falsy (the empty string) exactly when every character of `s` is whitespace. */
  lemma {:induction false} TrimEmptyIff(s: string)
    ensures Trim(s) == [] <==> AllWhitespace(s)
  {
    var t := TrimStart(s);
    if t == [] {
      assert s[..|s|] == s;
    } else {
      // t starts with the first non-whitespace character of s, and TrimEnd keeps it
      assert t[0] == s[|s| - |t|];
    }
  }

  /** Trimming leaves a string without outer whitespace unchanged. */
  lemma {:induction false} TrimKeepsInner(s: string)
    requires s != [] && !IsWhitespace(s[0]) && !IsWhitespace(s[|s| - 1])
    ensures Trim(s) == s
  {
    assert TrimStart(s) == s;
  }

  // ---------------------------------------------------------------------------
  // toLowerCase(), ASCII letters only

  function LowerChar(c: char): (r: char)
    ensures !('A' <= r <= 'Z')
    ensures !('A' <= c <= 'Z') ==> r == c
    ensures 'A' <= c <= 'Z' ==> r as int == c as int + 32
  {
    if 'A' <= c <= 'Z' then (c as int + 32) as char else c
  }

  /** Maps every ASCII capital to its small letter and leaves every other character alone. */
  function Lower(s: string): (r: string)
    ensures |r| == |s|
    ensures forall i | 0 <= i < |s| :: r[i] == LowerChar(s[i])
  {
    seq(|s|, i requires 0 <= i < |s| => LowerChar(s[i]))
  }

  lemma LowerIdempotent(s: string)
    ensures Lower(Lower(s)) == Lower(s)
  {
  }

  /** Lower-casing works character by character, so it distributes over concatenation. */
  lemma LowerAppend(a: string, b: string)
    ensures Lower(a + b) == Lower(a) + Lower(b)
  {
  }

  /** Characters with the same lower-case form are both whitespace or both not: lower-casing only changes letters. */
  lemma SameLowerSameWhitespace(a: char, b: char)
    requires LowerChar(a) == LowerChar(b)
    ensures IsWhitespace(a) == IsWhitespace(b)
  {
    if a != b {
      assert 'A' <= a <= 'Z' || 'A' <= b <= 'Z';
    }
  }

  /** Two strings with the same lower-case form are blank (`trim()` empty) together. */
  lemma {:induction false} SameLowerSameBlank(q1: string, q2: string)
    requires Lower(q1) == Lower(q2)
    ensures (Trim(q1) == []) == (Trim(q2) == [])
  {
    TrimEmptyIff(q1);
    TrimEmptyIff(q2);
    assert |q1| == |q2|;
    forall i | 0 <= i < |q1| ensures IsWhitespace(q1[i]) == IsWhitespace(q2[i]) {
      assert Lower(q1)[i] == Lower(q2)[i];
      SameLowerSameWhitespace(q1[i], q2[i]);
    }
  }

  // ---------------------------------------------------------------------------
  // includes()

  /** `n` occurs in `h` starting at position `k`. */
  predicate OccursAt(h: string, n: string, k: int) {
    0 <= k && k + |n| <= |h| && h[k..k + |n|] == n
  }

  /** `h.includes(n)`: `n` occurs as a contiguous piece of `h`. */
  predicate Includes(h: string, n: string)
    ensures Includes(h, n) ==> |n| <= |h|
  {
    exists k | 0 <= k <= |h| - |n| :: OccursAt(h, n, k)
  }

  /** The empty string is included in every string; only the empty string is included in the empty string. */
  lemma IncludesEmpty(h: string, n: string)
    ensures Includes(h, [])
    ensures Includes([], n) <==> n == []
  {
    assert OccursAt(h, [], 0);
    if n == [] { assert OccursAt([], n, 0); }
  }

  /** A piece of the needle is found wherever the needle is. */
  lemma IncludesInfix(h: string, n: string, i: int, j: int)
    requires 0 <= i <= j <= |n|
    requires Includes(h, n)
    ensures Includes(h, n[i..j])
  {
    var k :| 0 <= k <= |h| - |n| && OccursAt(h, n, k);
    forall t | 0 <= t < j - i ensures h[k + i..k + j][t] == n[i..j][t] {
      assert h[k..k + |n|][i + t] == n[i + t];
    }
    assert OccursAt(h, n[i..j], k + i);
  }

  /** Extending the haystack on either side keeps every occurrence. */
  lemma IncludesExtend(a: string, h: string, b: string, n: string)
    requires Includes(h, n)
    ensures Includes(a + h + b, n)
  {
    var k :| 0 <= k <= |h| - |n| && OccursAt(h, n, k);
    assert (a + h + b)[|a| + k..|a| + k + |n|] == h[k..k + |n|];
    assert OccursAt(a + h + b, n, |a| + k);
  }

  // ---------------------------------------------------------------------------
  // Refuting a case-insensitive match by a short piece of the needle

  /** The characters of `h` at `k` and `k + 1` are `a` and `b` up to case. */
  predicate PairAt(h: string, a: char, b: char, k: int)
    requires 0 <= k < |h| - 1
  {
    LowerChar(h[k]) == a && LowerChar(h[k + 1]) == b
  }

  predicate NoPair(h: string, a: char, b: char) {
    forall k | 0 <= k < |h| - 1 :: !PairAt(h, a, b, k)
  }

  /** The characters of `h` at `k`, `k + 1` and `k + 2` are `a`, `b` and `c` up to case. */
  predicate TripleAt(h: string, a: char, b: char, c: char, k: int)
    requires 0 <= k < |h| - 2
  {
    LowerChar(h[k]) == a && LowerChar(h[k + 1]) == b && LowerChar(h[k + 2]) == c
  }

  predicate NoTriple(h: string, a: char, b: char, c: char) {
    forall k | 0 <= k < |h| - 2 :: !TripleAt(h, a, b, c, k)
  }

  /** An occurrence of the needle in `Lower(h)` puts each pair of its adjacent characters, up to case, in `h`. */
  lemma OccurrenceHasPair(h: string, n: string, k: int, i: int)
    requires 0 <= i < |n| - 1
    ensures OccursAt(Lower(h), n, k) ==> 0 <= k + i < |h| - 1 && PairAt(h, n[i], n[i + 1], k + i)
  {
    if OccursAt(Lower(h), n, k) {
      assert Lower(h)[k..k + |n|][i] == Lower(h)[k + i];
      assert Lower(h)[k..k + |n|][i + 1] == Lower(h)[k + i + 1];
    }
  }

  /** An occurrence of the needle in `Lower(h)` puts each run of three adjacent characters, up to case, in `h`. */
  lemma OccurrenceHasTriple(h: string, n: string, k: int, i: int)
    requires 0 <= i < |n| - 2
    ensures OccursAt(Lower(h), n, k) ==> 0 <= k + i < |h| - 2 && TripleAt(h, n[i], n[i + 1], n[i + 2], k + i)
  {
    if OccursAt(Lower(h), n, k) {
      assert Lower(h)[k..k + |n|][i] == Lower(h)[k + i];
      assert Lower(h)[k..k + |n|][i + 1] == Lower(h)[k + i + 1];
      assert Lower(h)[k..k + |n|][i + 2] == Lower(h)[k + i + 2];
    }
  }

  /** If two adjacent characters of the needle never occur together in `h` (ignoring case), the needle is not in `Lower(h)`. */
  lemma NotIncludesByPair(h: string, n: string, i: int)
    requires 0 <= i < |n| - 1
    requires NoPair(h, n[i], n[i + 1])
    ensures !Includes(Lower(h), n)
  {
    forall k | 0 <= k <= |h| - |n| ensures !OccursAt(Lower(h), n, k) {
      OccurrenceHasPair(h, n, k, i);
    }
  }

  /** If three adjacent characters of the needle never occur together in `h` (ignoring case), the needle is not in `Lower(h)`. */
  lemma NotIncludesByTriple(h: string, n: string, i: int)
    requires 0 <= i < |n| - 2
    requires NoTriple(h, n[i], n[i + 1], n[i + 2])
    ensures !Includes(Lower(h), n)
  {
    forall k | 0 <= k <= |h| - |n| ensures !OccursAt(Lower(h), n, k) {
      OccurrenceHasTriple(h, n, k, i);
    }
  }
}
