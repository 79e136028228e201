/** Values and string operations shared by the front end and the back end:
    the optional-value wrapper, the two conversation roles, and the few
    JavaScript string built-ins the chat view relies on
    (`String.prototype.split`, `trim` and `includes`). */
module Common {

  datatype Option<T> = None | Some(value: T) {
    function GetOr(default: T): T {
      match this
      case Some(v) => v
      case None => default
    }
  }

  /** The speaker of a chat message or of a history entry: 'user' or 'model'. */
  datatype Role = User | Model

  // ---------------------------------------------------------------------
  // Splitting on line feeds, as `s.split('\n')` does
  // ---------------------------------------------------------------------

  /** The pieces of `s` between line feeds. Like JavaScript's split there is
      always at least one piece, and a line feed at either end yields an
      empty piece. */
  function SplitLines(s: string): (lines: seq<string>)
    ensures |lines| >= 1
    ensures forall k :: 0 <= k < |lines| ==> '\n' !in lines[k]
    ensures |lines| == 1 + CountLineFeeds(s)
  {
    if s == [] then [""]
    else if s[0] == '\n' then [""] + SplitLines(s[1..])
    else
      var rest := SplitLines(s[1..]);
      [[s[0]] + rest[0]] + rest[1..]
  }

  function CountLineFeeds(s: string): nat {
    if s == [] then 0 else (if s[0] == '\n' then 1 else 0) + CountLineFeeds(s[1..])
  }

  /** The inverse of SplitLines: the pieces glued back with line feeds. */
  function JoinLines(lines: seq<string>): string
    requires |lines| >= 1
  {
    if |lines| == 1 then lines[0] else lines[0] + "\n" + JoinLines(lines[1..])
  }

  /** Splitting loses nothing: joining the pieces gives the text back. */
  lemma {:induction false} JoinSplitLines(s: string)
    ensures JoinLines(SplitLines(s)) == s
  {
    if s == [] {
    } else if s[0] == '\n' {
      JoinSplitLines(s[1..]);
      assert s == "\n" + s[1..];
    } else {
      var rest := SplitLines(s[1..]);
      JoinSplitLines(s[1..]);
      if |rest| == 1 {
        assert s == [s[0]] + s[1..];
      } else {
        calc {
          JoinLines(SplitLines(s));
          JoinLines([[s[0]] + rest[0]] + rest[1..]);
          ([s[0]] + rest[0]) + "\n" + JoinLines(rest[1..]);
          [s[0]] + (rest[0] + "\n" + JoinLines(rest[1..]));
          [s[0]] + JoinLines(rest);
          s;
        }
      }
    }
  }

  /** Splitting inverts joining, for pieces without line feeds. */
  lemma {:induction false} SplitJoinLines(lines: seq<string>)
    requires |lines| >= 1
    requires forall k :: 0 <= k < |lines| ==> '\n' !in lines[k]
    ensures SplitLines(JoinLines(lines)) == lines
  {
    if |lines| == 1 {
      SplitNoLineFeed(lines[0]);
    } else {
      SplitJoinLines(lines[1..]);
      SplitPrefix(lines[0], JoinLines(lines[1..]));
    }
  }

  lemma {:induction false} SplitNoLineFeed(s: string)
    requires '\n' !in s
    ensures SplitLines(s) == [s]
  {
    if s != [] {
      assert '\n' !in s[1..] by {
        forall k | 0 <= k < |s[1..]| ensures s[1..][k] != '\n' { assert s[1..][k] == s[k + 1]; }
      }
      SplitNoLineFeed(s[1..]);
      assert [s[0]] + s[1..] == s;
    }
  }

  lemma {:induction false} SplitPrefix(p: string, t: string)
    requires '\n' !in p
    ensures SplitLines(p + "\n" + t) == [p] + SplitLines(t)
  {
    if p == [] {
      assert p + "\n" + t == "\n" + t;
      assert ("\n" + t)[1..] == t;
    } else {
      assert '\n' !in p[1..] by {
        forall k | 0 <= k < |p[1..]| ensures p[1..][k] != '\n' { assert p[1..][k] == p[k + 1]; }
      }
      SplitPrefix(p[1..], t);
      assert (p + "\n" + t)[1..] == p[1..] + "\n" + t;
      assert [p[0]] + p[1..] == p;
    }
  }

  // ---------------------------------------------------------------------
  // `s.trim()`: white space and line terminators removed at both ends
  // ---------------------------------------------------------------------

  /** The characters JavaScript's trim removes: the WhiteSpace and
      LineTerminator productions of ECMAScript (tab, vertical tab, form feed,
      the Unicode space separators, the byte order mark, and the four line
      terminators). */
  predicate IsJsWhitespace(c: char) {
    c == '\t' || c == '\n' || c == '\U{000B}' || c == '\U{000C}' || c == '\r' ||
    c == ' ' || c == '\U{00A0}' || c == '\U{1680}' ||
    ('\U{2000}' <= c <= '\U{200A}') ||
    c == '\U{2028}' || c == '\U{2029}' || c == '\U{202F}' || c == '\U{205F}' ||
    c == '\U{3000}' || c == '\U{FEFF}'
  }

  predicate AllWhitespace(s: string) {
    forall k :: 0 <= k < |s| ==> IsJsWhitespace(s[k])
  }

  /** `s` with its leading white space removed. */
  function TrimStart(s: string): string {
    if s != [] && IsJsWhitespace(s[0]) then TrimStart(s[1..]) else s
  }

  /** `s` with its trailing white space removed. */
  function TrimEnd(s: string): string {
    if s != [] && IsJsWhitespace(s[|s| - 1]) then TrimEnd(s[..|s| - 1]) else s
  }

  /** `s.trim()`. */
  function Trim(s: string): string {
    TrimEnd(TrimStart(s))
  }

  /** TrimStart drops a white-space prefix and stops at the first other
      character. */
  lemma {:induction false} TrimStartSpec(s: string)
    ensures var r := TrimStart(s);
      |r| <= |s| && r == s[|s| - |r|..] && AllWhitespace(s[..|s| - |r|]) &&
      (r == [] || !IsJsWhitespace(r[0]))
  {
    if s != [] && IsJsWhitespace(s[0]) {
      TrimStartSpec(s[1..]);
      var r := TrimStart(s[1..]);
      assert s[..|s| - |r|] == [s[0]] + s[1..][..|s[1..]| - |r|];
    }
  }

  /** TrimEnd drops a white-space suffix and stops at the last other
      character. */
  lemma {:induction false} TrimEndSpec(s: string)
    ensures var r := TrimEnd(s);
      |r| <= |s| && r == s[..|r|] && AllWhitespace(s[|r|..]) &&
      (r == [] || !IsJsWhitespace(r[|r| - 1]))
  {
    if s != [] && IsJsWhitespace(s[|s| - 1]) {
      TrimEndSpec(s[..|s| - 1]);
      var r := TrimEnd(s[..|s| - 1]);
      assert s[|r|..] == s[..|s| - 1][|r|..] + [s[|s| - 1]];
    }
  }

  /** `s.trim()` is what remains between two white-space margins, and neither
      of its ends is white space. */
  lemma TrimSpec(s: string)
    ensures var r := Trim(s);
      |TrimStart(s)| <= |s| && IsTrimmedAt(s, r, |s| - |TrimStart(s)|) &&
      (r == [] || (!IsJsWhitespace(r[0]) && !IsJsWhitespace(r[|r| - 1])))
  {
    var front := TrimStart(s);
    var r := TrimEnd(front);
    var a := |s| - |front|;
    TrimStartSpec(s);
    TrimEndSpec(front);
    assert AllWhitespace(s[..a]);
    assert front == s[a..];
    assert r == front[..|r|];
    assert s[a..a + |r|] == r;
    assert s[a + |r|..] == front[|r|..];
    assert AllWhitespace(front[|r|..]);
    if r != [] {
      assert r[0] == front[0];
    }
  }

  /** `r` sits at offset `a` of `s`, and everything around it is white space. */
  predicate IsTrimmedAt(s: string, r: string, a: nat) {
    a + |r| <= |s| && s[a..a + |r|] == r && AllWhitespace(s[..a]) && AllWhitespace(s[a + |r|..])
  }

  /** `!s.trim()` in JavaScript: nothing but white space. */
  predicate IsBlank(s: string) {
    Trim(s) == ""
  }

  /** A text is blank exactly when every character of it is white space. */
  lemma BlankIffAllWhitespace(s: string)
    ensures IsBlank(s) <==> AllWhitespace(s)
  {
    TrimSpec(s);
    var r := Trim(s);
    var a := |s| - |TrimStart(s)|;
    if r == "" {
      var front := TrimStart(s);
      TrimStartSpec(s);
      TrimEndSpec(front);
      assert front[|r|..] == front;
      assert front == [];
      assert s[..a] == s;
    } else {
      assert s[a] == r[0];
    }
  }

  // ---------------------------------------------------------------------
  // `s.includes(pat)`
  // ---------------------------------------------------------------------

  predicate OccursAt(s: string, pat: string, i: nat) {
    i + |pat| <= |s| && s[i..i + |pat|] == pat
  }

  /** `s.includes(pat)`: some position of `s` starts a copy of `pat`. */
  function Includes(s: string, pat: string): (r: bool)
    ensures r <==> exists i: nat :: OccursAt(s, pat, i)
  {
    if |s| < |pat| then false
    else if s[..|pat|] == pat then (assert OccursAt(s, pat, 0); true)
    else
      var r := Includes(s[1..], pat);
      assert r ==> exists i: nat :: OccursAt(s, pat, i) by {
        if r {
          var i: nat :| OccursAt(s[1..], pat, i);
          assert s[i + 1..i + 1 + |pat|] == s[1..][i..i + |pat|];
          assert OccursAt(s, pat, i + 1);
        }
      }
      assert (exists i: nat :: OccursAt(s, pat, i)) ==> r by {
        if exists i: nat :: OccursAt(s, pat, i) {
          var i: nat :| OccursAt(s, pat, i);
          assert i != 0;
          assert s[1..][i - 1..i - 1 + |pat|] == s[i..i + |pat|];
          assert OccursAt(s[1..], pat, i - 1);
        }
      }
      r
  }

  // ---------------------------------------------------------------------
  // Concatenating a list of texts
  // ---------------------------------------------------------------------

  /** The texts, one after the other. */
  function ConcatAll(texts: seq<string>): string {
    if texts == [] then "" else texts[0] + ConcatAll(texts[1..])
  }

  lemma {:induction false} ConcatAllAppend(a: seq<string>, b: seq<string>)
    ensures ConcatAll(a + b) == ConcatAll(a) + ConcatAll(b)
  {
    if a == [] {
      assert a + b == b;
    } else {
      ConcatAllAppend(a[1..], b);
      assert (a + b)[1..] == a[1..] + b;
    }
  }
}
