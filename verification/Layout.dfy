/** What of a scenario's layout does not matter: indentation, trailing white space, line ends, comments. */
module Layout {
  import opened Base
  import opened Scenario
  import opened Grammar
  import opened ScriptParser
  import opened ScriptLines
  import Choice

  ghost predicate White(s: string) {
    forall i | 0 <= i < |s| :: IsSpace(s[i])
  }

  /** White space, as far as ASCII goes. */
  lemma AsciiWhiteSpace(c: char)
    requires c as int < 0x80
    ensures IsSpace(c) <==> c == ' ' || c == '\t' || c == '\n' || c == '\U{b}' || c == '\U{c}' || c == '\r'
  {
  }

  // ---- trimming ----

  lemma {:induction false} TrimStartPadded(pre: string, s: string)
    requires White(pre)
    ensures TrimStart(pre + s) == TrimStart(s)
    decreases |pre|
  {
    if pre == "" {
      assert pre + s == s;
    } else {
      assert (pre + s)[0] == pre[0] && (pre + s)[1..] == pre[1..] + s;
      TrimStartPadded(pre[1..], s);
    }
  }

  lemma {:induction false} TrimEndPadded(s: string, post: string)
    requires White(post)
    ensures TrimEnd(s + post) == TrimEnd(s)
    decreases |post|
  {
    if post == "" {
      assert s + post == s;
    } else {
      var init := post[..|post| - 1];
      assert (s + post)[|s + post| - 1] == post[|post| - 1] && (s + post)[..|s + post| - 1] == s + init;
      TrimEndPadded(s, init);
    }
  }

  /** Leading white space and the rest. */
  lemma {:induction false} TrimStartSplits(s: string) returns (pre: string)
    ensures White(pre) && s == pre + TrimStart(s)
    ensures TrimStart(s) == "" || !IsSpace(TrimStart(s)[0])
    decreases |s|
  {
    if s != "" && IsSpace(s[0]) {
      var more := TrimStartSplits(s[1..]);
      pre := [s[0]] + more;
      assert s == [s[0]] + s[1..];
    } else {
      pre := "";
    }
  }

  lemma {:induction false} TrimEndSplits(s: string) returns (post: string)
    ensures White(post) && s == TrimEnd(s) + post
    ensures TrimEnd(s) == "" || !IsSpace(TrimEnd(s)[|TrimEnd(s)| - 1])
    decreases |s|
  {
    if s != "" && IsSpace(s[|s| - 1]) {
      var more := TrimEndSplits(s[..|s| - 1]);
      post := more + [s[|s| - 1]];
      assert s == s[..|s| - 1] + [s[|s| - 1]];
    } else {
      post := "";
    }
  }

  /** A line is what is left of it when trimmed, between white space. */
  lemma TrimSplits(s: string) returns (pre: string, post: string)
    ensures White(pre) && White(post) && s == pre + Trim(s) + post
    ensures Trim(s) == "" || (!IsSpace(Trim(s)[0]) && !IsSpace(Trim(s)[|Trim(s)| - 1]))
  {
    pre := TrimStartSplits(s);
    post := TrimEndSplits(TrimStart(s));
    hide TrimStart, TrimEnd;
    assert pre + Trim(s) + post == pre + (Trim(s) + post);
    if Trim(s) != "" {
      assert TrimStart(s)[0] == Trim(s)[0];
    }
  }

  lemma WhiteTrimsAway(s: string)
    requires White(s)
    ensures Trim(s) == ""
  {
    assert s + "" == s;
    TrimStartPadded(s, "");
  }

  lemma TrimPadded(pre: string, s: string, post: string)
    requires White(pre) && White(post)
    ensures Trim(pre + s + post) == Trim(s)
  {
    assert pre + s + post == pre + (s + post);
    TrimStartPadded(pre, s + post);
    var lead := TrimStartSplits(s);
    var core := TrimStart(s);
    assert s + post == lead + (core + post);
    TrimStartPadded(lead, core + post);
    if core == "" {
      assert core + post == post;
      WhiteTrimsAway(post);
      assert TrimEnd("") == "";
    } else {
      assert (core + post)[0] == core[0];
      TrimEndPadded(core, post);
    }
  }

  // ---- only what is left after trimming counts ----

  lemma {:induction false} OnlyTrimmedCounts(lex: Lex, a: seq<string>, b: seq<string>, i: nat, name: Option<string>,
                                             before: seq<Statement>)
    requires |a| == |b| && i <= |a| && forall k | 0 <= k < |a| :: Trim(a[k]) == Trim(b[k])
    ensures ParseFrom(lex, a, i, name, before) == ParseFrom(lex, b, i, name, before)
    decreases |a| - i
  {
    hide Trim, ParseHeader, ParseLine, IsComment;
    if i < |a| {
      assert Trim(a[i]) == Trim(b[i]);
      if Silent(a[i]) {
        OnlyTrimmedCounts(lex, a, b, i + 1, name, before);
      } else if name.None? {
        match ParseHeader(lex, i + 1, Trim(a[i])) {
          case Err(_) =>
          case Ok(n) => OnlyTrimmedCounts(lex, a, b, i + 1, Some(n), before);
        }
      } else {
        match ParseLine(lex, i + 1, Trim(a[i])) {
          case Err(_) =>
          case Ok(st) => OnlyTrimmedCounts(lex, a, b, i + 1, name, before + [st]);
        }
      }
    }
  }

  // ---- lines ----

  ghost predicate OneLine(s: string) {
    forall i | 0 <= i < |s| :: s[i] != '\n'
  }

  function Unlines(lines: seq<string>): string {
    if lines == [] then "" else lines[0] + ("\n" + Unlines(lines[1..]))
  }

  /** Lines end with a line feed; the last one need not. */
  lemma {:induction false} LinesOfText(lex: Lex, lines: seq<string>, last: string)
    requires OneLine(last) && forall k | 0 <= k < |lines| :: OneLine(lines[k])
    ensures Lines(lex, Unlines(lines) + last) == lines + (if last == "" then [] else [last])
    decreases |lines|
  {
    if lines == [] {
      assert Unlines(lines) + last == last;
      LastLine(lex, last);
    } else {
      hide Lines;
      LinesOfText(lex, lines[1..], last);
      LineCons(lex, lines[0], Unlines(lines[1..]) + last);
      assert Unlines(lines) + last == lines[0] + ("\n" + (Unlines(lines[1..]) + last));
      assert lines == [lines[0]] + lines[1..];
    }
  }

  lemma LastLine(lex: Lex, last: string)
    requires OneLine(last)
    ensures Lines(lex, last) == if last == "" then [] else [last]
  {
    if last != "" {
      Choice.SpanAll(lex, InLine, last, "");
      assert last + "" == last;
      assert last[..|last|] == last;
    }
  }

  // ---- margins ----

  /** Indentation is transparent: white space before and after a line changes nothing of a parse, errors and line
      numbers included. */
  lemma MarginsAreTransparent(lex: Lex, above: seq<string>, pre: string, line: string, post: string,
                              below: seq<string>, last: string)
    requires forall k | 0 <= k < |above| :: OneLine(above[k])
    requires forall k | 0 <= k < |below| :: OneLine(below[k])
    requires OneLine(line) && OneLine(last) && OneLine(pre) && White(pre) && OneLine(post) && White(post)
    ensures Parse(lex, Unlines(above + [pre + line + post] + below) + last)
            == Parse(lex, Unlines(above + [line] + below) + last)
  {
    hide Lines, ParseFrom, Trim, Unlines;
    var padded, plain := above + [pre + line + post] + below, above + [line] + below;
    forall k | 0 <= k < |padded| ensures OneLine(padded[k]) && OneLine(plain[k]) && Trim(padded[k]) == Trim(plain[k]) {
      if k == |above| {
        TrimPadded(pre, line, post);
      }
    }
    LinesOfText(lex, padded, last);
    LinesOfText(lex, plain, last);
    var end := if last == "" then [] else [last];
    forall k | 0 <= k < |padded + end| ensures Trim((padded + end)[k]) == Trim((plain + end)[k]) {
      if k < |padded| {
        assert (padded + end)[k] == padded[k] && (plain + end)[k] == plain[k];
      }
    }
    OnlyTrimmedCounts(lex, padded + end, plain + end, 0, None, []);
  }

  /** The same for a last line without a line feed. */
  lemma LastMarginIsTransparent(lex: Lex, above: seq<string>, pre: string, line: string, post: string)
    requires forall k | 0 <= k < |above| :: OneLine(above[k])
    requires OneLine(line) && line != "" && OneLine(pre) && White(pre) && OneLine(post) && White(post)
    ensures Parse(lex, Unlines(above) + (pre + line + post)) == Parse(lex, Unlines(above) + line)
  {
    hide Lines, ParseFrom, Trim, Unlines;
    LinesOfText(lex, above, pre + line + post);
    LinesOfText(lex, above, line);
    TrimPadded(pre, line, post);
    var padded, plain := above + [pre + line + post], above + [line];
    forall k | 0 <= k < |padded| ensures Trim(padded[k]) == Trim(plain[k]) {
      if k < |above| {
        assert padded[k] == above[k] == plain[k];
      }
    }
    OnlyTrimmedCounts(lex, padded, plain, 0, None, []);
  }

  // ---- lines that say nothing ----

  /** The first character that is not white space is a `#`, and no digit follows it. */
  ghost predicate CommentAt(line: string, i: nat) {
    && i < |line| && line[i] == '#' && (forall k | 0 <= k < i :: IsSpace(line[k]))
    && (i + 1 < |line| ==> !('0' <= line[i + 1] <= '9'))
  }

  /** A line says nothing exactly if it is all white space or, white space aside, starts with a `#` that no digit
      follows. */
  lemma SilentExactly(line: string)
    ensures Silent(line) <==> White(line) || exists i: nat :: CommentAt(line, i)
  {
    var pre, post := TrimSplits(line);
    var core := Trim(line);
    hide Trim;
    if core == "" {
      assert line == pre + post;
    } else {
      assert line[|pre|] == core[0];
      Hashed(pre, core, post);
    }
  }

  lemma Hashed(pre: string, core: string, post: string)
    requires White(pre) && White(post) && core != "" && !IsSpace(core[0])
    ensures var line := pre + core + post;
            && !White(line)
            && (IsComment(core) <==> exists i: nat :: CommentAt(line, i))
  {
    var line, n := pre + core + post, |pre|;
    assert line[n] == core[0];
    assert |core| > 1 ==> line[n + 1] == core[1];
    assert |core| == 1 && n + 1 < |line| ==> line[n + 1] == post[0];
    if IsComment(core) {
      assert CommentAt(line, n);
    }
    forall k | 0 <= k < n ensures IsSpace(line[k]) {
      assert line[k] == pre[k];
    }
    if i: nat :| CommentAt(line, i) {
      assert i == n;
    }
  }
}
