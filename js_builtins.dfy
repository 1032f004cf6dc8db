/**
 * The JavaScript built-ins the modelled code relies on, restricted to what it uses:
 * Array.prototype.slice with negative indices, String.prototype.includes,
 * String.prototype.toLowerCase (on ASCII letters) and String.prototype.trim.
 */
module JsBuiltins {

  // ---------------------------------------------------------------------------
  // Array.prototype.slice (ECMA-262, section 23.1.3.28)
  // ---------------------------------------------------------------------------

  /** Resolves a relative index the way `slice` does: negative counts from the end, then clamps to [0, len]. */
  function RelativeIndex(k: int, len: nat): (r: nat)
    ensures r <= len
    ensures 0 <= k <= len ==> r == k
    ensures k < 0 && 0 <= len + k ==> r == len + k
    ensures len + k < 0 ==> r == 0
    ensures len < k ==> r == len
  {
    if k < 0 then (if len + k < 0 then 0 else len + k)
    else if k > len then len
    else k
  }

  /** `s.slice(start, end)`. */
  function Slice<T>(s: seq<T>, start: int, end: int): (r: seq<T>)
    ensures |r| <= |s|
  {
    var from, to := RelativeIndex(start, |s|), RelativeIndex(end, |s|);
    if from < to then s[from..to] else []
  }

  /** `s.slice(start)`: the end defaults to the length. */
  function SliceFrom<T>(s: seq<T>, start: int): (r: seq<T>)
    ensures |r| <= |s|
  {
    Slice(s, start, |s|)
  }

  /** The last `min(n, |s|)` elements of `s`, in order: the reference definition of a history window. */
  function LastN<T>(s: seq<T>, n: nat): (r: seq<T>)
    ensures |r| == if |s| < n then |s| else n
    ensures s == s[..|s| - |r|] + r
  {
    if |s| <= n then s else s[|s| - n..]
  }

  /** `s.slice(-n)` is the window of the last n elements. */
  lemma SliceFromNegative<T>(s: seq<T>, n: nat)
    requires n > 0
    ensures SliceFrom(s, -(n as int)) == LastN(s, n)
  {
  }

  /** `(s + [x]).slice(-(n + 1), -1)` is the window of the last n elements of `s`: the appended element is never in it. */
  lemma SliceBeforeLast<T>(s: seq<T>, x: T, n: nat)
    ensures Slice(s + [x], -(n + 1), -1) == LastN(s, n)
  {
    var t := s + [x];
    assert t[..|s|] == s;
    if |s| <= n {
      if |s| > 0 {
        assert Slice(t, -(n + 1), -1) == t[0..|s|];
      }
    } else {
      assert Slice(t, -(n + 1), -1) == t[|s| - n..|s|];
      assert t[|s| - n..|s|] == s[|s| - n..];
    }
  }

  /** A window never grows past its bound, and a list already within the bound is its own window. */
  lemma LastNShort<T>(s: seq<T>, n: nat)
    requires |s| <= n
    ensures LastN(s, n) == s
  {
  }

  // ---------------------------------------------------------------------------
  // String.prototype.includes
  // ---------------------------------------------------------------------------

  /** `k` occurs in `s` starting at position `i`. */
  predicate OccursAt(s: string, k: string, i: int) {
    0 <= i && i + |k| <= |s| && s[i..i + |k|] == k
  }

  /** `s.includes(k)`: `k` is a prefix of some suffix of `s`. */
  predicate Includes(s: string, k: string)
    decreases |s|
  {
    k <= s || (|s| > 0 && Includes(s[1..], k))
  }

  /** `Includes` holds exactly when there is a position where `k` occurs. */
  lemma {:induction false} IncludesIff(s: string, k: string)
    ensures Includes(s, k) <==> exists i :: OccursAt(s, k, i)
    decreases |s|
  {
    if k <= s {
      assert OccursAt(s, k, 0);
    } else if |s| > 0 {
      IncludesIff(s[1..], k);
      if Includes(s[1..], k) {
        var i :| OccursAt(s[1..], k, i);
        assert s[1..][i..i + |k|] == s[i + 1..i + 1 + |k|];
        assert OccursAt(s, k, i + 1);
      }
      if exists i :: OccursAt(s, k, i) {
        var i :| OccursAt(s, k, i);
        assert i != 0;
        assert s[1..][i - 1..i - 1 + |k|] == s[i..i + |k|];
        assert OccursAt(s[1..], k, i - 1);
      }
    }
  }

  /** Every character of an included string occurs in the string it is included in. */
  lemma IncludedCharsOccur(s: string, k: string)
    ensures Includes(s, k) ==> forall c :: c in k ==> c in s
  {
    if Includes(s, k) {
      IncludesIff(s, k);
      var i :| OccursAt(s, k, i);
      forall c | c in k ensures c in s {
        var j :| 0 <= j < |k| && k[j] == c;
        assert s[i..i + |k|][j] == s[i + j];
      }
    }
  }

  /** A string with a character that `s` lacks is not included in `s`. */
  lemma MissingCharExcludes(s: string, k: string, c: char)
    requires c in k && c !in s
    ensures !Includes(s, k)
  {
    IncludedCharsOccur(s, k);
  }

  // ---------------------------------------------------------------------------
  // String.prototype.toLowerCase, on ASCII letters
  // ---------------------------------------------------------------------------

  function LowerChar(c: char): (r: char)
    ensures 'A' <= c <= 'Z' ==> r as int == c as int + 32
    ensures !('A' <= c <= 'Z') ==> r == c
  {
    if 'A' <= c <= 'Z' then (c as int + 32) as char else c
  }

  /** `s.toLowerCase()`: every upper-case ASCII letter is mapped to its lower-case form. */
  function Lower(s: string): (r: string)
  {
    seq(|s|, i requires 0 <= i < |s| => LowerChar(s[i]))
  }

  /** Lower-casing twice is lower-casing once. */
  lemma LowerIdempotent(s: string)
    ensures Lower(Lower(s)) == Lower(s)
  {
    assert forall i :: 0 <= i < |s| ==> LowerChar(LowerChar(s[i])) == LowerChar(s[i]);
  }

  /** Lower-casing preserves occurrences: if `k` occurs in `s`, its lower-case form occurs in `s`'s. */
  lemma {:induction false} LowerPreservesIncludes(s: string, k: string)
    requires Includes(s, k)
    ensures Includes(Lower(s), Lower(k))
    decreases |s|
  {
    if k <= s {
      assert Lower(k) == Lower(s)[..|k|];
    } else {
      assert |s| > 0;
      assert Lower(s)[1..] == Lower(s[1..]);
      LowerPreservesIncludes(s[1..], k);
    }
  }

  // ---------------------------------------------------------------------------
  // String.prototype.trim (ECMA-262 WhiteSpace and LineTerminator code points)
  // ---------------------------------------------------------------------------

  /** The code points `trim` strips: WhiteSpace (TAB, VT, FF, SP, NBSP, ZWNBSP, category Zs) and LineTerminator. */
  predicate IsJsWhitespace(c: char) {
    c == '\t' || c == '\n' || c == '\U{000B}' || c == '\U{000C}' || c == '\r' || c == ' '
    || c == '\U{00A0}' || c == '\U{1680}' || ('\U{2000}' <= c <= '\U{200A}')
    || c == '\U{2028}' || c == '\U{2029}' || c == '\U{202F}' || c == '\U{205F}'
    || c == '\U{3000}' || c == '\U{FEFF}'
  }

  /** Leading white space removed. */
  function TrimStart(s: string): (r: string)
    ensures |r| <= |s|
  {
    if s != [] && IsJsWhitespace(s[0]) then TrimStart(s[1..]) else s
  }

  /** `TrimStart` keeps a suffix, drops only white space and leaves none at the front. */
  lemma {:induction false} TrimStartSpec(s: string)
    ensures TrimStart(s) == s[|s| - |TrimStart(s)|..]
    ensures TrimStart(s) == [] || !IsJsWhitespace(TrimStart(s)[0])
    ensures forall i :: 0 <= i < |s| - |TrimStart(s)| ==> IsJsWhitespace(s[i])
  {
    if s != [] && IsJsWhitespace(s[0]) {
      TrimStartSpec(s[1..]);
      assert s[1..][|s| - 1 - |TrimStart(s)|..] == s[|s| - |TrimStart(s)|..];
      forall i | 1 <= i < |s| - |TrimStart(s)| ensures IsJsWhitespace(s[i]) {
        assert s[i] == s[1..][i - 1];
      }
    }
  }

  /** Trailing white space removed. */
  function TrimEnd(s: string): (r: string)
    ensures |r| <= |s|
  {
    if s != [] && IsJsWhitespace(s[|s| - 1]) then TrimEnd(s[..|s| - 1]) else s
  }

  /** `TrimEnd` keeps a prefix, drops only white space and leaves none at the back. */
  lemma {:induction false} TrimEndSpec(s: string)
    ensures TrimEnd(s) == s[..|TrimEnd(s)|]
    ensures TrimEnd(s) == [] || !IsJsWhitespace(TrimEnd(s)[|TrimEnd(s)| - 1])
    ensures forall i :: |TrimEnd(s)| <= i < |s| ==> IsJsWhitespace(s[i])
  {
    if s != [] && IsJsWhitespace(s[|s| - 1]) {
      var t := s[..|s| - 1];
      TrimEndSpec(t);
      assert t[..|TrimEnd(s)|] == s[..|TrimEnd(s)|];
      forall i | |TrimEnd(s)| <= i < |s| - 1 ensures IsJsWhitespace(s[i]) {
        assert s[i] == t[i];
      }
    }
  }

  /** `s.trim()`. */
  function Trim(s: string): (r: string)
  {
    TrimEnd(TrimStart(s))
  }

  /** `trim` keeps a contiguous slice of its input and drops only white space around it. */
  lemma TrimSlice(s: string)
    ensures var i := |s| - |TrimStart(s)|;
      && i + |Trim(s)| <= |s|
      && Trim(s) == s[i..i + |Trim(s)|]
      && (forall k :: 0 <= k < i ==> IsJsWhitespace(s[k]))
      && (forall k :: i + |Trim(s)| <= k < |s| ==> IsJsWhitespace(s[k]))
  {
    var t := TrimStart(s);
    var i := |s| - |t|;
    var r := TrimEnd(t);
    TrimStartSpec(s);
    TrimEndSpec(t);
    assert r == s[i..i + |r|] by {
      assert t == s[i..];
      assert r == t[..|r|];
    }
    forall k | i + |r| <= k < |s| ensures IsJsWhitespace(s[k]) {
      assert s[k] == t[k - i];
    }
  }

  /** No white space is left at either end of a trimmed string. */
  lemma TrimEnds(s: string)
    ensures Trim(s) == [] || (!IsJsWhitespace(Trim(s)[0]) && !IsJsWhitespace(Trim(s)[|Trim(s)| - 1]))
  {
    var t := TrimStart(s);
    var r := TrimEnd(t);
    TrimStartSpec(s);
    TrimEndSpec(t);
    if r != [] {
      assert r[0] == t[0];
    }
  }

  /** The trimmed string is empty exactly when every character is white space. */
  lemma TrimEmptyIff(s: string)
    ensures Trim(s) == [] <==> forall k :: 0 <= k < |s| ==> IsJsWhitespace(s[k])
  {
    TrimSlice(s);
    TrimEnds(s);
    var i := |s| - |TrimStart(s)|;
    if Trim(s) != [] {
      assert s[i] == Trim(s)[0];
    }
  }

  /** Trimming is idempotent. */
  lemma TrimIdempotent(s: string)
    ensures Trim(Trim(s)) == Trim(s)
  {
    TrimEnds(s);
    var t := Trim(s);
    if t != [] {
      assert TrimStart(t) == t;
      assert TrimEnd(t) == t;
    }
  }
}
