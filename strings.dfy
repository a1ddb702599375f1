/** The JavaScript string operations the prompt composer relies on, over `seq<char>`. */
module Strings {

  /** `s.startsWith(p)` */
  predicate StartsWith(s: string, p: string) {
    |p| <= |s| && s[..|p|] == p
  }

  /** `s.endsWith(p)` */
  predicate EndsWith(s: string, p: string) {
    |p| <= |s| && s[|s| - |p|..] == p
  }

  /** `sub` occurs in `s` starting at index `i`. */
  predicate OccursAt(s: string, sub: string, i: nat) {
    i + |sub| <= |s| && s[i..i + |sub|] == sub
  }

  lemma OccursAtChar(s: string, c: char, i: nat)
    requires i < |s| && s[i] == c
    ensures OccursAt(s, [c], i)
  {
    assert s[i..i + 1] == [c];
  }

  /** `s.includes(sub)`, scanning from the front. */
  predicate Contains(s: string, sub: string)
    ensures Contains(s, sub) ==> |sub| <= |s|
    ensures StartsWith(s, sub) ==> Contains(s, sub)
    decreases |s|
  {
    StartsWith(s, sub) || (s != [] && Contains(s[1..], sub))
  }

  lemma OccursAtShift(s: string, sub: string, i: nat)
    requires s != []
    ensures OccursAt(s, sub, i + 1) <==> OccursAt(s[1..], sub, i)
  {
    if i + 1 + |sub| <= |s| {
      assert s[i + 1..i + 1 + |sub|] == s[1..][i..i + |sub|];
    }
  }

  /** `includes` finds `sub` exactly when it occurs at some index. */
  lemma {:induction false} ContainsIffOccurs(s: string, sub: string)
    ensures Contains(s, sub) <==> exists i: nat :: OccursAt(s, sub, i)
    decreases |s|
  {
    if s == [] {
      if Contains(s, sub) {
        assert OccursAt(s, sub, 0);
      }
      if exists i: nat :: OccursAt(s, sub, i) {
        var i: nat :| OccursAt(s, sub, i);
        assert StartsWith(s, sub);
      }
    } else {
      ContainsIffOccurs(s[1..], sub);
      if Contains(s, sub) {
        if StartsWith(s, sub) {
          assert OccursAt(s, sub, 0);
        } else {
          var i: nat :| OccursAt(s[1..], sub, i);
          OccursAtShift(s, sub, i);
        }
      }
      if exists i: nat :: OccursAt(s, sub, i) {
        var i: nat :| OccursAt(s, sub, i);
        if i == 0 {
          assert StartsWith(s, sub);
        } else {
          OccursAtShift(s, sub, i - 1);
        }
      }
    }
  }

  /**
   * `s.split(sep)[0]`: the text before the first occurrence of `sep`,
   * or all of `s` when `sep` does not occur.
   */
  function Before(s: string, sep: string): (r: string)
    requires sep != []
    ensures StartsWith(s, r)
    ensures forall i: nat | i < |r| :: !OccursAt(s, sep, i)
    ensures |r| == |s| || OccursAt(s, sep, |r|)
    decreases |s|
  {
    if s == [] || StartsWith(s, sep) then []
    else
      var rest := Before(s[1..], sep);
      assert forall i: nat | 1 <= i <= |rest| :: OccursAt(s, sep, i) == OccursAt(s[1..], sep, i - 1) by {
        forall i: nat | 1 <= i <= |rest| ensures OccursAt(s, sep, i) == OccursAt(s[1..], sep, i - 1) {
          OccursAtShift(s, sep, i - 1);
        }
      }
      OccursAtShift(s, sep, |rest|);
      assert OccursAt(s, sep, 0) == StartsWith(s, sep);
      [s[0]] + rest
  }

  /**
   * The characters `String.prototype.trim` removes: ECMAScript WhiteSpace
   * (including the Unicode space separators) and LineTerminator.
   */
  predicate IsSpace(c: char) {
    c == '\t' || c == '\n' || c == '\U{000B}' || c == '\U{000C}' || c == '\r' || c == ' '
    || c == '\U{00A0}' || c == '\U{1680}' || ('\U{2000}' <= c <= '\U{200A}')
    || c == '\U{2028}' || c == '\U{2029}' || c == '\U{202F}' || c == '\U{205F}'
    || c == '\U{3000}' || c == '\U{FEFF}'
  }

  /** `s.trimStart()` */
  function TrimStart(s: string): (r: string)
    ensures EndsWith(s, r)
    ensures forall i | 0 <= i < |s| - |r| :: IsSpace(s[i])
    ensures r == [] || !IsSpace(r[0])
    decreases |s|
  {
    if s != [] && IsSpace(s[0]) then TrimStart(s[1..]) else s
  }

  /** `s.trimEnd()` */
  function TrimEnd(s: string): (r: string)
    ensures StartsWith(s, r)
    ensures forall i | |r| <= i < |s| :: IsSpace(s[i])
    ensures r == [] || !IsSpace(r[|r| - 1])
    decreases |s|
  {
    if s != [] && IsSpace(s[|s| - 1]) then TrimEnd(s[..|s| - 1]) else s
  }

  /** `s.trim()`: `s` is the result with only white space around it. */
  function Trim(s: string): (r: string)
    ensures exists i: nat :: OccursAt(s, r, i)
    ensures r == [] || (!IsSpace(r[0]) && !IsSpace(r[|r| - 1]))
  {
    var t := TrimStart(s);
    var r := TrimEnd(t);
    var i := |s| - |t|;
    assert OccursAt(s, r, i);
    r
  }

  /** Everything `trim` removes, before and after the result, is white space. */
  lemma TrimRemovesOnlySpace(s: string)
    ensures var i := |s| - |TrimStart(s)|;
      OccursAt(s, Trim(s), i)
      && (forall k | 0 <= k < i :: IsSpace(s[k]))
      && (forall k | i + |Trim(s)| <= k < |s| :: IsSpace(s[k]))
  {
    var t := TrimStart(s);
    var i := |s| - |t|;
    assert t == s[i..];
    var r := TrimEnd(t);
    assert r == t[..|r|];
    SpaceAfterShift(s, i, t, |r|);
    assert Trim(s) == r;
    assert OccursAt(s, r, i);
  }

  /** White space at the end of `s[i..]` is white space at the end of `s`. */
  lemma SpaceAfterShift(s: string, i: nat, t: string, n: nat)
    requires i <= |s| && t == s[i..] && n <= |t|
    requires forall k | n <= k < |t| :: IsSpace(t[k])
    ensures s[i..i + n] == t[..n]
    ensures forall k | i + n <= k < |s| :: IsSpace(s[k])
  {
    forall k | i + n <= k < |s| ensures IsSpace(s[k]) {
      assert s[k] == t[k - i];
    }
  }

  /** `s.replace(/<suffix>$/, '')` for a literal suffix. */
  function StripSuffix(s: string, suffix: string): (r: string)
    ensures EndsWith(s, suffix) ==> r + suffix == s
    ensures !EndsWith(s, suffix) ==> r == s
  {
    if EndsWith(s, suffix) then s[..|s| - |suffix|] else s
  }

  /** `xs.join(sep)` */
  function Join(xs: seq<string>, sep: string): (r: string)
    ensures |xs| == 1 ==> r == xs[0]
    ensures xs != [] ==> StartsWith(r, xs[0])
    decreases |xs|
  {
    if |xs| == 0 then ""
    else if |xs| == 1 then xs[0]
    else
      var r := xs[0] + sep + Join(xs[1..], sep);
      assert r[..|xs[0]|] == xs[0];
      r
  }

  /** A join of a non-empty list ends with its last item. */
  lemma {:induction false} JoinEndsWithLast(xs: seq<string>, sep: string)
    requires xs != []
    ensures EndsWith(Join(xs, sep), xs[|xs| - 1])
    decreases |xs|
  {
    if |xs| > 1 {
      JoinEndsWithLast(xs[1..], sep);
      var rest := Join(xs[1..], sep);
      var r := Join(xs, sep);
      var last := xs[|xs| - 1];
      assert last == xs[1..][|xs[1..]| - 1];
      assert r == xs[0] + sep + rest;
      assert r[|r| - |last|..] == rest[|rest| - |last|..];
    }
  }

  /** An ending of an ending is an ending. */
  lemma EndsWithTransitive(s: string, t: string, p: string)
    requires EndsWith(s, t) && EndsWith(t, p)
    ensures EndsWith(s, p)
  {
    assert s[|s| - |p|..] == t[|t| - |p|..];
  }

  /** Joining two non-empty lists puts exactly one separator between their joins. */
  lemma {:induction false} JoinAppend(xs: seq<string>, ys: seq<string>, sep: string)
    requires xs != [] && ys != []
    ensures Join(xs + ys, sep) == Join(xs, sep) + sep + Join(ys, sep)
    decreases |xs|
  {
    if |xs| == 1 {
      assert (xs + ys)[1..] == ys;
    } else {
      assert (xs + ys)[1..] == xs[1..] + ys;
      JoinAppend(xs[1..], ys, sep);
    }
  }

  /** `c.toUpperCase()` for a single character, ASCII letters only. */
  function UpperAscii(c: char): (r: char)
    ensures 'a' <= c <= 'z' ==> 'A' <= r <= 'Z' && r as int - c as int == 'A' as int - 'a' as int
    ensures !('a' <= c <= 'z') ==> r == c
  {
    if 'a' <= c <= 'z' then (c as int - 'a' as int + 'A' as int) as char else c
  }

  /** `s.charAt(0).toUpperCase() + s.slice(1)` */
  function Capitalise(s: string): (r: string)
    ensures |r| == |s|
    ensures s != [] ==> r[0] == UpperAscii(s[0]) && r[1..] == s[1..]
  {
    if s == [] then [] else [UpperAscii(s[0])] + s[1..]
  }

  /** Capitalising never changes whether a text ends with a character that is not a letter. */
  lemma CapitaliseKeepsEnding(s: string, p: string)
    requires |p| == 1 && !('a' <= p[0] <= 'z') && !('A' <= p[0] <= 'Z')
    ensures EndsWith(Capitalise(s), p) <==> EndsWith(s, p)
  {
    var t := Capitalise(s);
    if |s| >= 2 {
      assert t[|t| - 1] == s[|s| - 1];
    }
  }
}
