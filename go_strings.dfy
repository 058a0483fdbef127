/**
 * Small pure models of the Go standard-library calls the launcher makes:
 * strings.HasPrefix, TrimPrefix, path/filepath.Base and net/url.QueryUnescape
 * for the formatter, strings.Replace(…, 1) for expandPath alone, and
 * strings.ReplaceAll for the opener. Index (the search behind the
 * formatter's strings.SplitN) and Count (the measure in the contracts) are
 * helpers of the model. A Go string is read as a sequence of characters.
 */
module GoStrings {
  import opened Wrappers

  predicate HasPrefix(s: string, prefix: string)
  {
    |prefix| <= |s| && s[..|prefix|] == prefix
  }

  function TrimPrefix(s: string, prefix: string): (r: string)
    ensures HasPrefix(s, prefix) ==> s == prefix + r
    ensures !HasPrefix(s, prefix) ==> r == s
  {
    if HasPrefix(s, prefix) then s[|prefix|..] else s
  }

  /** strings.Count for a one-character separator. */
  function Count(s: string, c: char): (n: nat)
    ensures n <= |s|
    ensures n == 0 <==> c !in s
  {
    if s == [] then 0 else (if s[0] == c then 1 else 0) + Count(s[1..], c)
  }

  lemma {:induction false} CountAppend(a: string, b: string, c: char)
    ensures Count(a + b, c) == Count(a, c) + Count(b, c)
  {
    if a != [] {
      assert (a + b)[1..] == a[1..] + b;
      CountAppend(a[1..], b, c);
    } else {
      assert a + b == b;
    }
  }

  /** strings.Index for a one-character separator: the first position of `c`. */
  function Index(s: string, c: char): (r: Option<nat>)
    ensures r.Some? ==> r.value < |s| && s[r.value] == c && c !in s[..r.value]
    ensures r.None? <==> c !in s
  {
    if s == [] then None
    else if s[0] == c then Some(0)
    else match Index(s[1..], c)
      case None => None
      case Some(i) => Some(i + 1)
  }

  /** strings.ReplaceAll for a one-character `old`: every `c` becomes `repl`. */
  function ReplaceAll(s: string, c: char, repl: string): (r: string)
    ensures c !in s ==> r == s
  {
    if s == [] then [] else (if s[0] == c then repl else [s[0]]) + ReplaceAll(s[1..], c, repl)
  }

  /** Replacing in a concatenation replaces in each part. */
  lemma {:induction false} ReplaceAllAppend(a: string, b: string, c: char, repl: string)
    ensures ReplaceAll(a + b, c, repl) == ReplaceAll(a, c, repl) + ReplaceAll(b, c, repl)
  {
    if a == [] {
      assert a + b == b;
    } else {
      assert (a + b)[0] == a[0];
      assert (a + b)[1..] == a[1..] + b;
      ReplaceAllAppend(a[1..], b, c, repl);
    }
  }

  /** strings.Replace(s, old, new, 1) for a one-character `old`: only the first `c` becomes `repl`. */
  function ReplaceFirst(s: string, c: char, repl: string): (r: string)
    ensures c !in s ==> r == s
    ensures c in s ==> exists i :: 0 <= i < |s| && s[i] == c && c !in s[..i] && r == s[..i] + repl + s[i + 1..]
  {
    match Index(s, c)
    case None => s
    case Some(i) => s[..i] + repl + s[i + 1..]
  }

  // ---------------------------------------------------------------------------
  // path/filepath.Base (Unix separator)

  /** `s` without its trailing slashes. */
  function TrimTrailingSlashes(s: string): (r: string)
    ensures |r| <= |s| && r == s[..|r|]
    ensures r == [] || r[|r| - 1] != '/'
    ensures forall k :: |r| <= k < |s| ==> s[k] == '/'
  {
    if s != [] && s[|s| - 1] == '/' then TrimTrailingSlashes(s[..|s| - 1]) else s
  }

  /** The text after the last slash of `s` (all of `s` when it has none). */
  function AfterLastSlash(s: string): (r: string)
    ensures |r| <= |s| && r == s[|s| - |r|..]
    ensures '/' !in r
    ensures |r| < |s| ==> s[|s| - |r| - 1] == '/'
  {
    if s == [] || s[|s| - 1] == '/' then []
    else AfterLastSlash(s[..|s| - 1]) + [s[|s| - 1]]
  }

  /**
   * filepath.Base: the last element of a slash-separated path. The empty
   * path gives ".", a path of slashes only gives "/", trailing slashes are
   * ignored.
   */
  function Base(path: string): (r: string)
    ensures r != []
    ensures path == [] ==> r == "."
    ensures r != "/" ==> '/' !in r
  {
    if path == [] then "."
    else
      var trimmed := TrimTrailingSlashes(path);
      if trimmed == [] then "/" else AfterLastSlash(trimmed)
  }

  lemma {:induction false} AfterLastSlashOfJoin(dir: string, name: string)
    requires '/' !in name
    ensures AfterLastSlash(dir + "/" + name) == name
  {
    var s := dir + "/" + name;
    if name == [] {
      assert s[|s| - 1] == '/';
    } else {
      var shorter := name[..|name| - 1];
      assert s[..|s| - 1] == dir + "/" + shorter;
      assert s[|s| - 1] == name[|name| - 1];
      AfterLastSlashOfJoin(dir, shorter);
      assert shorter + [name[|name| - 1]] == name;
    }
  }

  /** Base undoes a join: the element after the last separator is recovered. */
  lemma BaseOfJoin(dir: string, name: string)
    requires name != [] && '/' !in name
    ensures Base(dir + "/" + name) == name
  {
    var s := dir + "/" + name;
    assert s[|s| - 1] == name[|name| - 1];
    assert TrimTrailingSlashes(s) == s;
    AfterLastSlashOfJoin(dir, name);
  }

  /** Trailing slashes do not change the base of a non-empty path. */
  lemma BaseIgnoresTrailingSlash(path: string)
    requires path != []
    ensures Base(path + "/") == Base(path)
  {
    var s := path + "/";
    assert s[..|s| - 1] == path;
  }

  // ---------------------------------------------------------------------------
  // net/url.QueryUnescape

  predicate IsHex(c: char)
  {
    '0' <= c <= '9' || 'a' <= c <= 'f' || 'A' <= c <= 'F'
  }

  function HexValue(c: char): (v: nat)
    requires IsHex(c)
    ensures v < 16
  {
    if '0' <= c <= '9' then c as int - '0' as int
    else if 'a' <= c <= 'f' then c as int - 'a' as int + 10
    else c as int - 'A' as int + 10
  }

  /** The percent sign at `i` is followed by two hex digits. */
  predicate WellFormedEscapeAt(s: string, i: nat)
    requires i < |s|
  {
    i + 2 < |s| && IsHex(s[i + 1]) && IsHex(s[i + 2])
  }

  /**
   * url.QueryUnescape: `%XX` becomes the character with byte code XX, `+`
   * becomes a space, and a `%` not followed by two hex digits is an error
   * (None).
   */
  function QueryUnescape(s: string): (r: Option<string>)
    ensures r.Some? ==> |r.value| == |s| - 2 * Count(s, '%')
    ensures '%' !in s && '+' !in s ==> r == Some(s)
  {
    if s == [] then Some([])
    else if s[0] == '%' then
      if |s| < 3 || !IsHex(s[1]) || !IsHex(s[2]) then None
      else
        assert Count(s, '%') == 1 + Count(s[3..], '%') by {
          assert s[1..][1..] == s[2..] && s[2..][1..] == s[3..];
          assert s[1] != '%' && s[2] != '%';
          assert Count(s[1..], '%') == Count(s[2..], '%');
          assert Count(s[2..], '%') == Count(s[3..], '%');
        }
        match QueryUnescape(s[3..])
        case None => None
        case Some(t) => Some([(HexValue(s[1]) * 16 + HexValue(s[2])) as char] + t)
    else
      assert s == [s[0]] + s[1..];
      match QueryUnescape(s[1..])
      case None => None
      case Some(t) => Some([if s[0] == '+' then ' ' else s[0]] + t)
  }

  /** Unescaping fails exactly when some percent sign is not followed by two hex digits. */
  lemma {:induction false} QueryUnescapeSucceedsIff(s: string)
    ensures QueryUnescape(s).Some? <==>
              forall i :: 0 <= i < |s| && s[i] == '%' ==> WellFormedEscapeAt(s, i)
  {
    if s == [] {
    } else if s[0] == '%' {
      if |s| < 3 || !IsHex(s[1]) || !IsHex(s[2]) {
        assert !WellFormedEscapeAt(s, 0);
      } else {
        var rest := s[3..];
        QueryUnescapeSucceedsIff(rest);
        forall i | 0 <= i < |rest| && rest[i] == '%'
          ensures WellFormedEscapeAt(rest, i) <==> WellFormedEscapeAt(s, i + 3)
        {
          assert rest[i] == s[i + 3];
        }
        if QueryUnescape(rest).Some? {
          forall i | 0 <= i < |s| && s[i] == '%' ensures WellFormedEscapeAt(s, i) {
            if i >= 3 {
              assert rest[i - 3] == s[i];
            }
          }
        } else {
          var j :| 0 <= j < |rest| && rest[j] == '%' && !WellFormedEscapeAt(rest, j);
          assert s[j + 3] == '%' && !WellFormedEscapeAt(s, j + 3);
        }
      }
    } else {
      var rest := s[1..];
      QueryUnescapeSucceedsIff(rest);
      if QueryUnescape(rest).Some? {
        forall i | 0 <= i < |s| && s[i] == '%' ensures WellFormedEscapeAt(s, i) {
          assert i >= 1 && rest[i - 1] == s[i];
        }
      } else {
        var j :| 0 <= j < |rest| && rest[j] == '%' && !WellFormedEscapeAt(rest, j);
        assert s[j + 1] == '%' && !WellFormedEscapeAt(s, j + 1);
      }
    }
  }

  lemma FirstThenRestAppend(a: string, t: string)
    requires a != []
    ensures [a[0]] + (a[1..] + t) == a + t
  {
  }

  /** Text without percent or plus signs passes through unescaping unchanged, in front of whatever follows. */
  lemma {:induction false} QueryUnescapePlainPrefix(a: string, b: string)
    requires '%' !in a && '+' !in a
    ensures QueryUnescape(a + b) == match QueryUnescape(b)
                                    case Some(t) => Some(a + t)
                                    case None => None
  {
    if a == [] {
      assert a + b == b;
      if QueryUnescape(b).Some? {
        assert a + QueryUnescape(b).value == QueryUnescape(b).value;
      }
    } else {
      var s := a + b;
      assert s[0] == a[0] && s[1..] == a[1..] + b;
      QueryUnescapePlainPrefix(a[1..], b);
      if QueryUnescape(b).Some? {
        var t := QueryUnescape(b).value;
        assert QueryUnescape(s[1..]) == Some(a[1..] + t);
        FirstThenRestAppend(a, t);
      }
    }
  }

  /** Without percent signs unescaping cannot fail, and only turns plus signs into spaces. */
  lemma {:induction false} QueryUnescapeWithoutPercent(s: string)
    requires '%' !in s
    ensures QueryUnescape(s) == Some(ReplaceAll(s, '+', " "))
  {
    if s != [] {
      QueryUnescapeWithoutPercent(s[1..]);
    }
  }
}
