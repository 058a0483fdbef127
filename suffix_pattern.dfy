/**
 * removeSuffixPattern: ReplaceAllString with the fixed pattern
 *     ` in [^\[\]\(\)]+-\d+ \(undefined\)`
 * and the empty replacement, written out by hand. A match is " in ", a
 * non-empty run of characters other than brackets and parentheses, a dash,
 * a non-empty run of ASCII digits, a space and "(undefined)". Because the
 * run cannot cross a bracket or a parenthesis, a match that starts at a
 * given position is unique and ends just after the first delimiter at or
 * after its fifth character.
 */
module SuffixPattern {
  import opened Wrappers

  const InSeparator := " in "
  const UndefinedMarker := "(undefined)"

  predicate IsDelimiter(c: char)
  {
    c == '[' || c == ']' || c == '(' || c == ')'
  }

  /** `\d` in Go's regular expressions: ASCII digits only. */
  predicate IsDigit(c: char)
  {
    '0' <= c <= '9'
  }

  /** The first position at or after `from` holding a delimiter, or |t| when there is none. */
  function FirstDelimiter(t: string, from: nat): (p: nat)
    requires from <= |t|
    ensures from <= p <= |t|
    ensures forall j :: from <= j < p ==> !IsDelimiter(t[j])
    ensures p < |t| ==> IsDelimiter(t[p])
    decreases |t| - from
  {
    if from == |t| then |t|
    else if IsDelimiter(t[from]) then from
    else FirstDelimiter(t, from + 1)
  }

  /** The start of the longest run of digits that ends just before `end`. */
  function DigitRunStart(t: string, end: nat): (k: nat)
    requires end <= |t|
    ensures k <= end
    ensures forall j :: k <= j < end ==> IsDigit(t[j])
    ensures k > 0 ==> !IsDigit(t[k - 1])
  {
    if end > 0 && IsDigit(t[end - 1]) then DigitRunStart(t, end - 1) else end
  }

  /** The length of the match that starts at the front of `t`, if there is one. */
  function MatchAtFront(t: string): (r: Option<nat>)
    ensures r.Some? ==> 19 <= r.value <= |t|
  {
    if |t| < 4 || t[..4] != InSeparator then None
    else
      var p := FirstDelimiter(t, 4);
      if p + 11 <= |t| && t[p..p + 11] == UndefinedMarker && t[p - 1] == ' ' then
        var k := DigitRunStart(t, p - 1);
        if 6 <= k < p - 1 && t[k - 1] == '-' then Some(p + 11) else None
      else None
  }

  /**
   * The pattern, read declaratively: `m` is " in " + X + "-" + D + " (undefined)"
   * with X a non-empty run without delimiters and D a non-empty run of digits;
   * `d` is the position of the dash.
   */
  ghost predicate IsPatternMatch(m: string)
  {
    && |m| >= 19
    && m[..4] == InSeparator
    && m[|m| - 12] == ' '
    && m[|m| - 11..] == UndefinedMarker
    && exists d :: 5 <= d < |m| - 13 && m[d] == '-'
         && (forall j :: 4 <= j < d ==> !IsDelimiter(m[j]))
         && (forall j :: d < j < |m| - 12 ==> IsDigit(m[j]))
  }

  /** Every match the scanner reports is a match of the pattern. */
  lemma MatchAtFrontSound(t: string)
    requires MatchAtFront(t).Some?
    ensures IsPatternMatch(t[..MatchAtFront(t).value])
  {
    var e := MatchAtFront(t).value;
    var m := t[..e];
    var p := FirstDelimiter(t, 4);
    var k := DigitRunStart(t, p - 1);
    assert p == e - 11;
    assert m[..4] == t[..4];
    assert m[|m| - 11..] == t[p..p + 11];
    assert m[|m| - 12] == t[p - 1];
    var d := k - 1;
    assert m[d] == '-';
    forall j | 4 <= j < d ensures !IsDelimiter(m[j]) {
      assert m[j] == t[j];
    }
    forall j | d < j < |m| - 12 ensures IsDigit(m[j]) {
      assert m[j] == t[j];
    }
  }

  lemma FirstDelimiterAt(t: string, from: nat, p: nat)
    requires from <= p < |t| && IsDelimiter(t[p])
    requires forall j :: from <= j < p ==> !IsDelimiter(t[j])
    ensures FirstDelimiter(t, from) == p
  {
  }

  lemma DigitRunStartAt(t: string, end: nat, d: nat)
    requires d < end <= |t| && !IsDigit(t[d])
    requires forall j :: d < j < end ==> IsDigit(t[j])
    ensures DigitRunStart(t, end) == d + 1
  {
  }

  lemma MatchAtFrontWhen(t: string, p: nat, d: nat)
    requires |t| >= 4 && t[..4] == InSeparator
    requires FirstDelimiter(t, 4) == p && p + 11 <= |t|
    requires t[p..p + 11] == UndefinedMarker && t[p - 1] == ' '
    requires 5 <= d && d + 1 < p - 1 && t[d] == '-' && DigitRunStart(t, p - 1) == d + 1
    ensures MatchAtFront(t) == Some(p + 11)
  {
  }

  /** Every match of the pattern at the front is the one the scanner reports. */
  lemma MatchAtFrontComplete(t: string, e: nat)
    requires e <= |t| && IsPatternMatch(t[..e])
    ensures MatchAtFront(t) == Some(e)
  {
    var m := t[..e];
    var d :| 5 <= d < |m| - 13 && m[d] == '-'
              && (forall j :: 4 <= j < d ==> !IsDelimiter(m[j]))
              && (forall j :: d < j < |m| - 12 ==> IsDigit(m[j]));
    var p := e - 11;
    assert t[..4] == InSeparator by {
      assert t[..4] == m[..4];
    }
    assert t[p..p + 11] == UndefinedMarker && t[p - 1] == ' ' by {
      assert t[p..p + 11] == m[|m| - 11..];
      assert t[p - 1] == m[|m| - 12];
    }
    assert FirstDelimiter(t, 4) == p by {
      assert t[p] == '(' by {
        assert t[p] == m[|m| - 11..][0];
      }
      forall j | 4 <= j < p ensures !IsDelimiter(t[j]) {
        assert t[j] == m[j];
      }
      FirstDelimiterAt(t, 4, p);
    }
    assert t[d] == '-' by {
      assert t[d] == m[d];
    }
    assert DigitRunStart(t, p - 1) == d + 1 by {
      forall j | d < j < p - 1 ensures IsDigit(t[j]) {
        assert t[j] == m[j];
      }
      DigitRunStartAt(t, p - 1, d);
    }
    MatchAtFrontWhen(t, p, d);
  }

  /** The scanner finds a match at the front exactly when the pattern matches a prefix, and it finds its end. */
  lemma MatchAtFrontIsPattern(t: string, e: nat)
    ensures MatchAtFront(t) == Some(e) <==> e <= |t| && IsPatternMatch(t[..e])
  {
    if MatchAtFront(t) == Some(e) {
      MatchAtFrontSound(t);
    }
    if e <= |t| && IsPatternMatch(t[..e]) {
      MatchAtFrontComplete(t, e);
    }
  }

  /** A match that starts at a given position is unique. */
  lemma MatchIsUnique(t: string, e1: nat, e2: nat)
    requires e1 <= |t| && IsPatternMatch(t[..e1])
    requires e2 <= |t| && IsPatternMatch(t[..e2])
    ensures e1 == e2
  {
    MatchAtFrontIsPattern(t, e1);
    MatchAtFrontIsPattern(t, e2);
  }

  /**
   * ReplaceAllString(s, ""): scan left to right, delete each match and
   * resume right after it.
   */
  function RemoveSuffixPattern(s: string): (r: string)
    ensures |r| <= |s|
    decreases |s|
  {
    if s == [] then []
    else match MatchAtFront(s)
      case Some(e) => RemoveSuffixPattern(s[e..])
      case None => [s[0]] + RemoveSuffixPattern(s[1..])
  }

  /** No match starts anywhere in `s`. */
  predicate NoMatchIn(s: string)
  {
    forall i :: 0 <= i < |s| ==> MatchAtFront(s[i..]).None?
  }

  /** A string in which nothing matches is returned unchanged. */
  lemma {:induction false} NoMatchUnchanged(s: string)
    requires NoMatchIn(s)
    ensures RemoveSuffixPattern(s) == s
  {
    if s != [] {
      assert s[0..] == s;
      forall i | 0 <= i < |s[1..]| ensures MatchAtFront(s[1..][i..]).None? {
        assert s[1..][i..] == s[i + 1..];
      }
      NoMatchUnchanged(s[1..]);
    }
  }

  predicate InSeparatorAt(s: string, i: nat)
  {
    i + 4 <= |s| && s[i..i + 4] == InSeparator
  }

  /** No match can start where " in " does not. */
  lemma NoMatchOffSeparator(s: string, i: nat)
    requires i < |s| && !InSeparatorAt(s, i)
    ensures MatchAtFront(s[i..]).None?
  {
    if |s[i..]| >= 4 {
      assert s[i..][..4] == s[i..i + 4];
    }
  }

  /** A string with no " in " in it is returned unchanged. */
  lemma WithoutSeparatorUnchanged(s: string)
    requires forall i :: 0 <= i < |s| ==> !InSeparatorAt(s, i)
    ensures RemoveSuffixPattern(s) == s
  {
    forall i | 0 <= i < |s| ensures MatchAtFront(s[i..]).None? {
      NoMatchOffSeparator(s, i);
    }
    NoMatchUnchanged(s);
  }

  /** Text in front of which no match starts is copied, and the scan goes on behind it. */
  lemma {:induction false} UnmatchedPrefixCopied(a: string, b: string)
    requires forall i :: 0 <= i < |a| ==> MatchAtFront((a + b)[i..]).None?
    ensures RemoveSuffixPattern(a + b) == a + RemoveSuffixPattern(b)
  {
    if a != [] {
      var s := a + b;
      assert s[0..] == s;
      assert s[1..] == a[1..] + b;
      forall i | 0 <= i < |a[1..]| ensures MatchAtFront((a[1..] + b)[i..]).None? {
        assert (a[1..] + b)[i..] == s[i + 1..];
      }
      UnmatchedPrefixCopied(a[1..], b);
    } else {
      assert a + b == b;
    }
  }

  /** A match at the front of `m + rest` that covers exactly `m` is deleted. */
  lemma MatchDeleted(m: string, rest: string)
    requires IsPatternMatch(m)
    ensures RemoveSuffixPattern(m + rest) == RemoveSuffixPattern(rest)
  {
    var t := m + rest;
    assert t[..|m|] == m;
    MatchAtFrontIsPattern(t, |m|);
    assert t[|m|..] == rest;
  }

  /** No match can start at a character other than a space. */
  lemma NoMatchOffSpace(s: string, i: nat)
    requires i < |s| && s[i] != ' '
    ensures MatchAtFront(s[i..]).None?
  {
    if |s[i..]| >= 4 {
      assert s[i..][..4][0] == s[i];
    }
  }

  /** Any text built the way the pattern describes is a match. */
  lemma PatternFromParts(x: string, digits: string)
    requires x != [] && forall j :: 0 <= j < |x| ==> !IsDelimiter(x[j])
    requires digits != [] && forall j :: 0 <= j < |digits| ==> IsDigit(digits[j])
    ensures IsPatternMatch(InSeparator + x + "-" + digits + " " + UndefinedMarker)
  {
    var m := InSeparator + x + "-" + digits + " " + UndefinedMarker;
    var d := 4 + |x|;
    assert m[..4] == InSeparator;
    assert m[|m| - 11..] == UndefinedMarker;
    assert m[|m| - 12] == ' ';
    assert m[d] == '-';
    forall j | 4 <= j < d ensures !IsDelimiter(m[j]) {
      assert m[j] == x[j - 4];
    }
    forall j | d < j < |m| - 12 ensures IsDigit(m[j]) {
      assert m[j] == digits[j - d - 1];
    }
  }

  lemma ExampleSuffixRemoved()
    ensures RemoveSuffixPattern("project-name in project-name-0 (undefined)") == "project-name"
  {
    var a := "project-name";
    var m := InSeparator + "project-name" + "-" + "0" + " " + UndefinedMarker;
    PatternFromParts("project-name", "0");
    forall i | 0 <= i < |a| ensures MatchAtFront((a + m)[i..]).None? {
      NoMatchOffSpace(a + m, i);
    }
    UnmatchedPrefixCopied(a, m);
    MatchDeleted(m, "");
    assert m + "" == m;
    FirstExampleIsNamePlusMatch();
  }

  lemma FirstExampleIsNamePlusMatch()
    ensures "project-name in project-name-0 (undefined)"
         == "project-name" + (InSeparator + "project-name" + "-" + "0" + " " + UndefinedMarker)
  {
  }

  lemma ExampleSuffixRemovedInside()
    ensures RemoveSuffixPattern("project in test-123 (undefined) extra") == "project extra"
  {
    var a := "project";
    var m := InSeparator + "test" + "-" + "123" + " " + UndefinedMarker;
    var tail := " extra";
    PatternFromParts("test", "123");
    forall i | 0 <= i < |a| ensures MatchAtFront((a + (m + tail))[i..]).None? {
      NoMatchOffSpace(a + (m + tail), i);
    }
    UnmatchedPrefixCopied(a, m + tail);
    MatchDeleted(m, tail);
    forall i | 0 <= i < |tail| ensures !InSeparatorAt(tail, i) {
      if i + 4 <= |tail| {
        assert tail[i..i + 4][0] == tail[i] && tail[i..i + 4][1] == tail[i + 1];
      }
    }
    WithoutSeparatorUnchanged(tail);
    SecondExampleIsNameMatchTail();
  }

  lemma SecondExampleIsNameMatchTail()
    ensures "project in test-123 (undefined) extra"
         == "project" + ((InSeparator + "test" + "-" + "123" + " " + UndefinedMarker) + " extra")
    ensures "project" + " extra" == "project extra"
  {
  }

  lemma ExampleNoMatchUnchanged()
    ensures RemoveSuffixPattern("normal project name") == "normal project name"
  {
    var s := "normal project name";
    forall i | 0 <= i < |s| ensures !InSeparatorAt(s, i) {
      if i + 4 <= |s| {
        assert s[i..i + 4][0] == s[i] && s[i..i + 4][1] == s[i + 1];
      }
    }
    WithoutSeparatorUnchanged(s);
  }
}
