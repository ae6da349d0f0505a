/**
  String helpers with the meaning JavaScript gives them: `String.prototype.trim`,
  the `\s` regular-expression class, `toLowerCase`, `includes`, `startsWith` and
  the last piece of `split`.
 */
module Text {

  /** JavaScript's WhiteSpace and LineTerminator code points: what `trim` removes and `\s` matches. */
  predicate IsSpace(c: char) {
    || c == '\t' || c == '\n' || c == '\U{B}' || c == '\U{C}' || c == '\r' || c == ' '
    || c == '\U{A0}' || c == '\U{1680}' || ('\U{2000}' <= c <= '\U{200A}')
    || c == '\U{2028}' || c == '\U{2029}' || c == '\U{202F}' || c == '\U{205F}'
    || c == '\U{3000}' || c == '\U{FEFF}'
  }

  predicate NoSpace(s: string) {
    forall i :: 0 <= i < |s| ==> !IsSpace(s[i])
  }

  /** Neither the first nor the last character is white space. */
  predicate Trimmed(s: string) {
    s == [] || (!IsSpace(s[0]) && !IsSpace(s[|s| - 1]))
  }

  /** Drops the leading white space: the result is the suffix of `s` after it. */
  function TrimStart(s: string): (r: string)
    ensures |r| <= |s| && r == s[|s| - |r|..]
    ensures r == [] || !IsSpace(r[0])
    ensures forall i :: 0 <= i < |s| - |r| ==> IsSpace(s[i])
  {
    if s != [] && IsSpace(s[0]) then TrimStart(s[1..]) else s
  }

  /** Drops the trailing white space: the result is the prefix of `s` before it. */
  function TrimEnd(s: string): (r: string)
    ensures |r| <= |s| && r == s[..|r|]
    ensures r == [] || !IsSpace(r[|r| - 1])
    ensures forall i :: |r| <= i < |s| ==> IsSpace(s[i])
  {
    if s != [] && IsSpace(s[|s| - 1]) then TrimEnd(s[..|s| - 1]) else s
  }

  /** `String.prototype.trim`: the infix of `s` left once white space is removed from both ends. */
  function Trim(s: string): (r: string)
    ensures Trimmed(r)
    ensures |r| <= |s|
    ensures exists i {:trigger s[i..]} :: && 0 <= i <= |s| - |r| && r == s[i..][..|r|]
                                          && (forall k :: 0 <= k < i ==> IsSpace(s[k]))
                                          && (forall k :: i + |r| <= k < |s| ==> IsSpace(s[k]))
    ensures NoSpace(s) ==> r == s
  {
    var t := TrimStart(s);
    var r := TrimEnd(t);
    var i := |s| - |t|;
    assert r == s[i..][..|r|];
    forall k | i + |r| <= k < |s|
      ensures IsSpace(s[k])
    {
      assert s[k] == t[k - i];
    }
    r
  }

  /** Trimming a string that is already trimmed changes nothing. */
  lemma TrimOfTrimmed(s: string)
    requires Trimmed(s)
    ensures Trim(s) == s
  {
  }

  predicate IsUpper(c: char) {
    'A' <= c <= 'Z'
  }

  function LowerChar(c: char): (r: char)
    ensures !IsUpper(r)
    ensures IsSpace(r) <==> IsSpace(c)
    ensures !IsUpper(c) ==> r == c
  {
    if IsUpper(c) then (c as int - 'A' as int + 'a' as int) as char else c
  }

  /** `toLowerCase`, character by character. */
  function Lower(s: string): (r: string)
    ensures |r| == |s|
    ensures forall i :: 0 <= i < |s| ==> r[i] == LowerChar(s[i])
  {
    if s == [] then [] else [LowerChar(s[0])] + Lower(s[1..])
  }

  /** Lower-casing keeps white space where it was and is idempotent. */
  lemma LowerKeepsShape(s: string)
    ensures Trimmed(s) ==> Trimmed(Lower(s))
    ensures NoSpace(s) <==> NoSpace(Lower(s))
    ensures Lower(Lower(s)) == Lower(s)
  {
    var r := Lower(s);
    assert NoSpace(r) ==> NoSpace(s) by {
      if NoSpace(r) {
        forall i | 0 <= i < |s| ensures !IsSpace(s[i]) {
          assert !IsSpace(r[i]);
        }
      }
    }
  }

  predicate StartsWith(s: string, p: string) {
    |p| <= |s| && s[..|p|] == p
  }

  /** `p` occurs in `s` starting at index `i`. */
  predicate OccursAt(s: string, p: string, i: int) {
    0 <= i && i + |p| <= |s| && s[i..i + |p|] == p
  }

  /** `s.includes(p)`. */
  predicate Contains(s: string, p: string) {
    exists i :: 0 <= i <= |s| - |p| && OccursAt(s, p, i)
  }

  /**
    Where the last piece of `s.split(p)` starts, scanning from `i` with `last`
    the end of the last separator seen: `split` takes occurrences from left to
    right without overlap.
   */
  function SplitEnd(s: string, p: string, i: nat, last: nat): (r: nat)
    requires p != [] && last <= i <= |s|
    ensures last <= r <= |s|
    decreases |s| - i
  {
    if i + |p| > |s| then last
    else if OccursAt(s, p, i) then SplitEnd(s, p, i + |p|, i + |p|)
    else SplitEnd(s, p, i + 1, last)
  }

  /** The scan stops right after a separator, or at 0 when it found none. */
  lemma {:induction false} SplitEndSeparated(s: string, p: string, i: nat, last: nat)
    requires p != [] && last <= i <= |s|
    requires last == 0 || (last >= |p| && OccursAt(s, p, last - |p|))
    ensures var r := SplitEnd(s, p, i, last); r == 0 || (r >= |p| && OccursAt(s, p, r - |p|))
    decreases |s| - i
  {
    if i + |p| > |s| {
    } else if OccursAt(s, p, i) {
      SplitEndSeparated(s, p, i + |p|, i + |p|);
    } else {
      SplitEndSeparated(s, p, i + 1, last);
    }
  }

  /** No separator starts at or after where the scan stops. */
  lemma {:induction false} SplitEndFree(s: string, p: string, i: nat, last: nat, j: int)
    requires p != [] && last <= i <= |s|
    requires SplitEnd(s, p, i, last) <= j && i <= j
    ensures !OccursAt(s, p, j)
    decreases |s| - i
  {
    if i + |p| > |s| {
    } else if OccursAt(s, p, i) {
      if i + |p| <= j {
        SplitEndFree(s, p, i + |p|, i + |p|, j);
      }
    } else if i < j {
      SplitEndFree(s, p, i + 1, last, j);
    }
  }

  /** `s.split(p).at(-1)` for a non-empty separator `p`. */
  function AfterLast(s: string, p: string): (r: string)
    requires p != []
    ensures |r| <= |s| && r == s[|s| - |r|..]
  {
    s[SplitEnd(s, p, 0, 0)..]
  }

  /**
    The last piece of the split is the suffix after the last separator: it
    contains no separator, it is preceded by one, and it is all of `s` exactly
    when `s` contains none.
   */
  lemma AfterLastIsLastPiece(s: string, p: string)
    requires p != []
    ensures var k := |s| - |AfterLast(s, p)|;
      && !Contains(AfterLast(s, p), p)
      && (k == 0 <==> !Contains(s, p))
      && (k > 0 ==> k >= |p| && s[k - |p|..k] == p)
  {
    var k := SplitEnd(s, p, 0, 0);
    var r := s[k..];
    SplitEndSeparated(s, p, 0, 0);
    forall j | 0 <= j <= |r| - |p| ensures !OccursAt(r, p, j) {
      SplitEndFree(s, p, 0, 0, k + j);
      assert r[j..j + |p|] == s[k + j..k + j + |p|];
    }
    if k == 0 {
      forall j | 0 <= j <= |s| - |p| ensures !OccursAt(s, p, j) {
        SplitEndFree(s, p, 0, 0, j);
      }
    } else {
      assert OccursAt(s, p, k - |p|);
    }
  }
}
