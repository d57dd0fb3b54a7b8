/**
 * The string operations the validators use. Whitespace is the whole of str.isspace(). Lower case covers
 * every character whose lower case is an ASCII character: the ASCII capitals and the Kelvin sign U+212A.
 * Other letters are left as they are; their lower case is never ASCII, so no accepted name contains one.
 */
module Text {
  /** str.isspace() */
  predicate IsSpace(c: char) {
    || '\t' <= c <= '\r' || '\U{1C}' <= c <= ' ' || c == '\U{85}' || c == '\U{A0}' || c == '\U{1680}'
    || '\U{2000}' <= c <= '\U{200A}' || c == '\U{2028}' || c == '\U{2029}' || c == '\U{202F}' || c == '\U{205F}'
    || c == '\U{3000}'
  }

  /** The code points of Unicode's whitespace, as str.isspace() has them. */
  lemma SpaceTable(c: char)
    ensures IsSpace(c) <==>
              || 9 <= c as int <= 13 || 28 <= c as int <= 32 || 8192 <= c as int <= 8202
              || c as int in {133, 160, 5760, 8232, 8233, 8239, 8287, 12288}
  {
  }

  /** Capitals and small letters of ASCII are 32 apart. */
  lemma LowerTable(c: char)
    ensures 65 <= c as int <= 90 ==> LowerChar(c) as int == c as int + 32
    ensures c as int == 8490 ==> LowerChar(c) == 'k'
    ensures !(65 <= c as int <= 90) && c as int != 8490 ==> LowerChar(c) == c
  {
  }

  predicate IsDot(c: char) {
    c == '.'
  }

  const KELVIN := '\U{212A}'

  predicate IsCapital(c: char) {
    'A' <= c <= 'Z' || c == KELVIN
  }

  function LowerChar(c: char): char {
    if c == KELVIN then 'k' else if 'A' <= c <= 'Z' then c - 'A' + 'a' else c
  }

  function Lower(s: string): (r: string)
    ensures |r| == |s| && forall i :: 0 <= i < |s| ==> r[i] == LowerChar(s[i])
  {
    seq(|s|, i requires 0 <= i < |s| => LowerChar(s[i]))
  }

  function DropLeft(s: string, drop: char -> bool): string {
    if s != "" && drop(s[0]) then DropLeft(s[1..], drop) else s
  }

  function DropRight(s: string, drop: char -> bool): string {
    if s != "" && drop(s[|s|-1]) then DropRight(s[..|s|-1], drop) else s
  }

  function Strip(s: string): string {
    DropRight(DropLeft(s, IsSpace), IsSpace)
  }

  function RstripDots(s: string): string {
    DropRight(s, IsDot)
  }

  predicate EndsWith(s: string, t: string) {
    |t| <= |s| && s[|s|-|t|..] == t
  }

  predicate StartsWith(s: string, t: string) {
    |t| <= |s| && s[..|t|] == t
  }

  // ---------------------------------------------------------------------------------------

  /** What DropRight leaves is a prefix whose last character stays, and it drops nothing else. */
  lemma {:induction false} DropRightSpec(s: string, drop: char -> bool)
    ensures var r := DropRight(s, drop);
            && StartsWith(s, r) && (r != "" ==> !drop(r[|r|-1]))
            && (r == s <==> s == "" || !drop(s[|s|-1]))
            && forall i :: |r| <= i < |s| ==> drop(s[i])
  {
    if s != "" && drop(s[|s|-1]) {
      DropRightSpec(s[..|s|-1], drop);
    }
  }

  lemma {:induction false} DropLeftSpec(s: string, drop: char -> bool)
    ensures var r := DropLeft(s, drop);
            && EndsWith(s, r) && (r != "" ==> !drop(r[0]))
            && (r == s <==> s == "" || !drop(s[0]))
            && forall i :: 0 <= i < |s| - |r| ==> drop(s[i])
  {
    if s != "" && drop(s[0]) {
      DropLeftSpec(s[1..], drop);
      assert |DropLeft(s, drop)| < |s|;
    }
  }

  /** strip() is a fixed point exactly on strings with no whitespace at either end. */
  lemma StripSpec(s: string)
    ensures var r := Strip(s);
            && (r != "" ==> !IsSpace(r[0]) && !IsSpace(r[|r|-1]))
            && (r == s <==> s == "" || (!IsSpace(s[0]) && !IsSpace(s[|s|-1])))
            && |r| <= |s|
  {
    var l := DropLeft(s, IsSpace);
    DropLeftSpec(s, IsSpace);
    DropRightSpec(l, IsSpace);
  }

  lemma CutLeft(s: string, drop: char -> bool) returns (i: nat)
    ensures i <= |s| && DropLeft(s, drop) == s[i..] && forall k :: 0 <= k < i ==> drop(s[k])
    ensures i < |s| ==> !drop(s[i])
  {
    DropLeftSpec(s, drop);
    i := |s| - |DropLeft(s, drop)|;
  }

  lemma CutRight(s: string, drop: char -> bool) returns (j: nat)
    ensures j <= |s| && DropRight(s, drop) == s[..j] && forall k :: j <= k < |s| ==> drop(s[k])
    ensures 0 < j ==> !drop(s[j-1])
  {
    DropRightSpec(s, drop);
    j := |DropRight(s, drop)|;
  }

  /**
   * What strip() leaves is the input without its surrounding whitespace: nothing but whitespace is lost, and
   * none is left at the ends.
   */
  lemma StripKeeps(s: string) returns (i: nat, j: nat)
    ensures i <= j <= |s| && Strip(s) == s[i..j]
    ensures forall k :: 0 <= k < i || j <= k < |s| ==> IsSpace(s[k])
    ensures i < j ==> !IsSpace(s[i]) && !IsSpace(s[j-1])
  {
    i := CutLeft(s, IsSpace);
    var m := CutRight(s[i..], IsSpace);
    j := i + m;
    assert s[i..][..m] == s[i..j];
    forall k | j <= k < |s|
      ensures IsSpace(s[k])
    {
      assert s[i..][k-i] == s[k];
    }
    assert m > 0 ==> s[i..][m-1] == s[j-1] && s[i..][0] == s[i];
  }

  lemma LowerFixed(s: string)
    requires forall i :: 0 <= i < |s| ==> !IsCapital(s[i])
    ensures Lower(s) == s
  {
  }

  /** Lower-casing creates and removes no trailing dot. */
  lemma {:induction false} RstripLower(s: string)
    ensures RstripDots(Lower(s)) == Lower(RstripDots(s))
  {
    if s != "" && s[|s|-1] == '.' {
      RstripLower(s[..|s|-1]);
      assert Lower(s)[..|s|-1] == Lower(s[..|s|-1]);
      RstripOne(s);
      RstripOne(Lower(s));
    } else {
      DropRightSpec(s, IsDot);
      DropRightSpec(Lower(s), IsDot);
    }
  }

  lemma RstripOne(s: string)
    requires s != "" && s[|s|-1] == '.'
    ensures RstripDots(s) == RstripDots(s[..|s|-1])
  {
  }

  // ---------------------------------------------------------------------------------------
  // split(".") and its inverse.
  // ---------------------------------------------------------------------------------------

  /** split(".") */
  function Split(s: string): (r: seq<string>)
    ensures r != []
  {
    if s == "" then [""] else Prefixed(s[0], Split(s[1..]))
  }

  /** The parts of c + s, from those of s. */
  function Prefixed(c: char, r: seq<string>): (t: seq<string>)
    requires r != []
    ensures t != []
  {
    if c == '.' then [""] + r else [[c] + r[0]] + r[1..]
  }

  lemma PrefixedConcat(c: char, r: seq<string>, t: seq<string>)
    requires r != []
    ensures Prefixed(c, r + t) == Prefixed(c, r) + t
  {
    if c != '.' {
      assert (r + t)[0] == r[0] && (r + t)[1..] == r[1..] + t;
    }
  }

  function Join(labels: seq<string>): string {
    if labels == [] then ""
    else if |labels| == 1 then labels[0]
    else labels[0] + "." + Join(labels[1..])
  }

  predicate DotFree(part: string) {
    forall i :: 0 <= i < |part| ==> part[i] != '.'
  }

  lemma {:induction false} JoinSplit(s: string)
    ensures Join(Split(s)) == s
  {
    if s != "" {
      JoinSplit(s[1..]);
      var r := Split(s[1..]);
      assert s == [s[0]] + s[1..];
      if s[0] == '.' {
        assert ([""] + r)[1..] == r;
      } else if |r| > 1 {
        assert ([[s[0]] + r[0]] + r[1..])[1..] == r[1..];
      }
    }
  }

  lemma {:induction false} SplitDotFree(s: string, k: nat)
    requires k < |Split(s)|
    ensures DotFree(Split(s)[k])
  {
    if s != "" {
      var r := Split(s[1..]);
      SplitDotFree(s[1..], if s[0] == '.' && k > 0 then k - 1 else if s[0] == '.' then 0 else k);
    }
  }

  lemma {:induction false} SplitOne(part: string)
    requires DotFree(part)
    ensures Split(part) == [part]
  {
    if part != "" {
      SplitOne(part[1..]);
      assert part == [part[0]] + part[1..];
    }
  }

  /** A dot between two strings separates their labels. */
  lemma {:induction false} SplitConcat(a: string, b: string)
    ensures Split(a + "." + b) == Split(a) + Split(b)
  {
    var s := a + "." + b;
    if a == "" {
      assert s[1..] == b;
    } else {
      assert s[1..] == a[1..] + "." + b;
      SplitConcat(a[1..], b);
      PrefixedConcat(a[0], Split(a[1..]), Split(b));
    }
  }

  lemma {:induction false} SplitJoin(labels: seq<string>)
    requires labels != [] && forall i :: 0 <= i < |labels| ==> DotFree(labels[i])
    ensures Split(Join(labels)) == labels
  {
    SplitOne(labels[0]);
    if |labels| > 1 {
      SplitJoin(labels[1..]);
      SplitConcat(labels[0], Join(labels[1..]));
    }
  }

  lemma {:induction false} JoinConcat(a: seq<string>, b: seq<string>)
    requires a != [] && b != []
    ensures Join(a + b) == Join(a) + "." + Join(b)
  {
    if |a| == 1 {
      assert (a + b)[1..] == b;
    } else {
      assert (a + b)[1..] == a[1..] + b;
      JoinConcat(a[1..], b);
    }
  }
}
