/** How the parser treats lines: what blank lines and comments do, how lines are numbered, what an error names. */
module ScriptLines {
  import opened Base
  import opened Scenario
  import opened Grammar
  import opened ScriptParser
  import Choice

  // ---- what a parse comes to ----

  /** Line `m` says something, and it parses as a statement. */
  predicate ParsesAt(lex: Lex, lines: seq<string>, m: nat)
    requires m < |lines|
  {
    ParseLine(lex, m + 1, Trim(lines[m])).Ok?
  }

  /** The statements of the lines from `i` on, provided they all parse. */
  function Collect(lex: Lex, lines: seq<string>, i: nat): seq<Statement>
    requires i <= |lines|
    decreases |lines| - i
  {
    if i == |lines| then []
    else if Silent(lines[i]) || !ParsesAt(lex, lines, i) then Collect(lex, lines, i + 1)
    else [ParseLine(lex, i + 1, Trim(lines[i])).value] + Collect(lex, lines, i + 1)
  }

  /** Line `m` is the first from `i` on that says something but does not parse. */
  ghost predicate FirstBad(lex: Lex, lines: seq<string>, i: nat, m: nat) {
    && i <= m < |lines|
    && !Silent(lines[m]) && !ParsesAt(lex, lines, m)
    && (forall k: nat | i <= k < m :: Silent(lines[k]) || ParsesAt(lex, lines, k))
  }

  /** After the header, parsing succeeds exactly when every line that says something parses, and then the
      statements are those lines in order; otherwise the error names the first line that does not parse. */
  lemma {:induction false} BodyOutcome(lex: Lex, lines: seq<string>, i: nat, name: string, before: seq<Statement>)
    requires i <= |lines|
    ensures match ParseFrom(lex, lines, i, Some(name), before)
            case Ok(script) =>
              && script == Script(name, before + Collect(lex, lines, i))
              && forall m: nat | i <= m < |lines| :: Silent(lines[m]) || ParsesAt(lex, lines, m)
            case Err(e) =>
              && 1 <= e.line && FirstBad(lex, lines, i, e.line - 1)
              && Err(e) == ParseLine(lex, e.line, Trim(lines[e.line - 1]))
    decreases |lines| - i
  {
    hide ParseStatement, Silent;
    if i == |lines| {
      assert before + [] == before;
    } else if Silent(lines[i]) {
      BodyOutcome(lex, lines, i + 1, name, before);
    } else {
      match ParseLine(lex, i + 1, Trim(lines[i]))
      case Err(e) =>
        assert FirstBad(lex, lines, i, i);
      case Ok(st) =>
        BodyOutcome(lex, lines, i + 1, name, before + [st]);
        assert before + ([st] + Collect(lex, lines, i + 1)) == before + [st] + Collect(lex, lines, i + 1);
    }
  }

  /** Line `h` is the first that says anything. */
  ghost predicate FirstSaid(lines: seq<string>, i: nat, h: nat) {
    i <= h < |lines| && !Silent(lines[h]) && forall k: nat | i <= k < h :: Silent(lines[k])
  }

  lemma SaidEarlier(lines: seq<string>, i: nat, h: nat)
    requires i < |lines| && Silent(lines[i]) && FirstSaid(lines, i + 1, h)
    ensures FirstSaid(lines, i, h)
  {
    hide Silent;
    forall k: nat | i <= k < h ensures Silent(lines[k]) {
      assert k == i || i + 1 <= k;
    }
  }

  /** The first line that says anything is the header, and the rest of the file follows from it. */
  ghost predicate HeaderDecides(lex: Lex, lines: seq<string>, i: nat, h: nat, r: Result<Script, DslError>) {
    FirstSaid(lines, i, h)
    && match ParseHeader(lex, h + 1, Trim(lines[h]))
       case Err(e) => r == Err(e) && e.line == h + 1
       case Ok(name) => r == ParseFrom(lex, lines, h + 1, Some(name), [])
  }

  /** From line `i` on: nothing but silence, or a header and what it decides. */
  ghost predicate Outcome(lex: Lex, lines: seq<string>, i: nat, r: Result<Script, DslError>) {
    || (r == Err(DslError(0, MissingHeader)) && forall k: nat | i <= k < |lines| :: Silent(lines[k]))
    || exists h: nat :: HeaderDecides(lex, lines, i, h, r)
  }

  lemma OutcomeEarlier(lex: Lex, lines: seq<string>, i: nat, r: Result<Script, DslError>)
    requires i < |lines| && Silent(lines[i]) && Outcome(lex, lines, i + 1, r)
    ensures Outcome(lex, lines, i, r)
  {
    hide Silent, ParseFrom, ParseHeader;
    var next := i + 1;
    if h: nat :| HeaderDecides(lex, lines, next, h, r) {
      SaidEarlier(lines, i, h);
      assert HeaderDecides(lex, lines, i, h, r);
    } else {
      forall k: nat | i <= k < |lines| ensures Silent(lines[k]) {
        assert k == i || next <= k;
      }
    }
  }

  lemma HeaderHere(lex: Lex, lines: seq<string>, i: nat)
    requires i < |lines| && !Silent(lines[i])
    ensures Outcome(lex, lines, i, ParseFrom(lex, lines, i, None, []))
  {
    hide Header, Silent;
    assert HeaderDecides(lex, lines, i, i, ParseFrom(lex, lines, i, None, []));
  }

  /** The whole file: nothing but silence, a bad header, or a header and a body. */
  lemma {:induction false} FileOutcome(lex: Lex, lines: seq<string>, i: nat)
    requires i <= |lines|
    ensures Outcome(lex, lines, i, ParseFrom(lex, lines, i, None, []))
    decreases |lines| - i
  {
    hide Silent, HeaderDecides;
    if i < |lines| {
      if Silent(lines[i]) {
        FileOutcome(lex, lines, i + 1);
        OutcomeEarlier(lex, lines, i, ParseFrom(lex, lines, i + 1, None, []));
      } else {
        HeaderHere(lex, lines, i);
      }
    }
  }

  // ---- numbering ----

  ghost predicate Increasing(statements: seq<Statement>) {
    forall i, j | 0 <= i < j < |statements| :: statements[i].line < statements[j].line
  }

  lemma {:induction false} CollectIncreases(lex: Lex, lines: seq<string>, i: nat)
    requires i <= |lines|
    ensures Increasing(Collect(lex, lines, i))
    ensures forall k | 0 <= k < |Collect(lex, lines, i)| :: i < Collect(lex, lines, i)[k].line <= |lines|
    decreases |lines| - i
  {
    hide ParseStatement, Silent;
    if i < |lines| {
      CollectIncreases(lex, lines, i + 1);
    }
  }

  /** Statement lines strictly increase, and each is a line of the file. */
  lemma LinesIncrease(lex: Lex, src: string)
    requires Parse(lex, src).Ok?
    ensures Increasing(Parse(lex, src).value.statements)
    ensures forall st | st in Parse(lex, src).value.statements :: 1 <= st.line <= |Lines(lex, src)|
  {
    hide ParseHeader, ParseLine, Silent, Lines, ParseFrom, Collect;
    var lines := Lines(lex, src);
    FileOutcome(lex, lines, 0);
    var h: nat :| HeaderDecides(lex, lines, 0, h, Parse(lex, src));
    var name := ParseHeader(lex, h + 1, Trim(lines[h])).value;
    BodyOutcome(lex, lines, h + 1, name, []);
    CollectIncreases(lex, lines, h + 1);
    assert [] + Collect(lex, lines, h + 1) == Collect(lex, lines, h + 1);
  }

  // ---- silent lines ----

  /** Line numbers when a line is put in after line `k`. */
  function Shift(n: nat, k: nat): nat {
    if n > k then n + 1 else n
  }

  function ShiftAll(statements: seq<Statement>, k: nat): (r: seq<Statement>)
    ensures |r| == |statements|
  {
    if statements == [] then []
    else ShiftAll(statements[..|statements| - 1], k)
         + [statements[|statements| - 1].(line := Shift(statements[|statements| - 1].line, k))]
  }

  function Shifted(r: Result<Script, DslError>, k: nat): Result<Script, DslError> {
    match r
    case Ok(script) => Ok(script.(statements := ShiftAll(script.statements, k)))
    case Err(e) => Err(e.(line := Shift(e.line, k)))
  }

  lemma ShiftSnoc(statements: seq<Statement>, st: Statement, k: nat)
    ensures ShiftAll(statements + [st], k) == ShiftAll(statements, k) + [st.(line := Shift(st.line, k))]
  {
    assert (statements + [st])[..|statements|] == statements;
  }

  /** Beyond the inserted line everything is one line further down. */
  lemma {:induction false} AfterInserted(lex: Lex, lines: seq<string>, line: string, k: nat, i: nat,
                                        name: Option<string>, before: seq<Statement>)
    requires k <= i <= |lines|
    ensures ParseFrom(lex, lines[..k] + [line] + lines[k..], i + 1, name, ShiftAll(before, k))
            == Shifted(ParseFrom(lex, lines, i, name, before), k)
    decreases |lines| - i
  {
    hide ParseStatement, Silent, Header, ShiftAll;
    var longer := lines[..k] + [line] + lines[k..];
    if i < |lines| {
      assert longer[i + 1] == lines[i];
      if Silent(lines[i]) {
        AfterInserted(lex, lines, line, k, i + 1, name, before);
      } else if name.None? {
        match ParseHeader(lex, i + 1, Trim(lines[i])) {
          case Err(_) =>
          case Ok(n) => AfterInserted(lex, lines, line, k, i + 1, Some(n), before);
        }
      } else {
        match ParseLine(lex, i + 1, Trim(lines[i])) {
          case Err(_) =>
          case Ok(st) =>
            ShiftSnoc(before, st, k);
            AfterInserted(lex, lines, line, k, i + 1, name, before + [st]);
        }
      }
    }
  }

  lemma {:induction false} ShiftNothing(statements: seq<Statement>, k: nat)
    requires forall i | 0 <= i < |statements| :: statements[i].line <= k
    ensures ShiftAll(statements, k) == statements
    decreases |statements|
  {
    if statements != [] {
      ShiftNothing(statements[..|statements| - 1], k);
    }
  }

  /** Up to the inserted line nothing changes. */
  lemma {:induction false} BeforeInserted(lex: Lex, lines: seq<string>, line: string, k: nat, i: nat,
                                         name: Option<string>, before: seq<Statement>)
    requires i <= k <= |lines| && Silent(line)
    requires forall j | 0 <= j < |before| :: before[j].line <= i
    ensures ParseFrom(lex, lines[..k] + [line] + lines[k..], i, name, before)
            == Shifted(ParseFrom(lex, lines, i, name, before), k)
    decreases k - i
  {
    hide ParseStatement, Silent, Header, ShiftAll;
    var longer := lines[..k] + [line] + lines[k..];
    if i == k {
      assert longer[i] == line;
      ShiftNothing(before, k);
      AfterInserted(lex, lines, line, k, k, name, before);
    } else {
      assert longer[i] == lines[i];
      if Silent(lines[i]) {
        BeforeInserted(lex, lines, line, k, i + 1, name, before);
      } else if name.None? {
        match ParseHeader(lex, i + 1, Trim(lines[i])) {
          case Err(_) =>
          case Ok(n) => BeforeInserted(lex, lines, line, k, i + 1, Some(n), before);
        }
      } else {
        match ParseLine(lex, i + 1, Trim(lines[i])) {
          case Err(_) =>
          case Ok(st) => BeforeInserted(lex, lines, line, k, i + 1, name, before + [st]);
        }
      }
    }
  }

  // ---- the same for texts ----

  /** The first line of a text that ends with a line feed, whatever follows it. */
  lemma FirstLine(lex: Lex, a: string, b: string) returns (n: nat)
    requires a != "" && a[|a| - 1] == '\n'
    ensures n < |a| && (a[n + 1..] == "" || a[n + 1..][|a[n + 1..]| - 1] == '\n')
    ensures Lines(lex, a) == [a[..n]] + Lines(lex, a[n + 1..])
    ensures Lines(lex, a + b) == [a[..n]] + Lines(lex, a[n + 1..] + b)
  {
    n := FirstSpan(lex, a, b);
    hide Span;
    assert (a + b)[n + 1..] == a[n + 1..] + b;
    assert (a + b)[..n] == a[..n];
  }

  lemma FirstSpan(lex: Lex, a: string, b: string) returns (n: nat)
    requires a != "" && a[|a| - 1] == '\n'
    ensures n < |a| && Span(lex, InLine, a) == n == Span(lex, InLine, a + b)
  {
    n := Span(lex, InLine, a);
    Choice.SpanStops(lex, InLine, a);
    assert n < |a|;
    Choice.SpanAll(lex, InLine, a[..n], a[n..] + b);
    assert a + b == a[..n] + (a[n..] + b);
  }

  /** A text cut at the start of a line is cut between its lines. */
  lemma {:induction false} LinesConcat(lex: Lex, a: string, b: string)
    requires a == "" || a[|a| - 1] == '\n'
    ensures Lines(lex, a + b) == Lines(lex, a) + Lines(lex, b)
    decreases |a|
  {
    if a == "" {
      assert a + b == b;
    } else {
      hide Lines, Span;
      var n := FirstLine(lex, a, b);
      LinesConcat(lex, a[n + 1..], b);
    }
  }

  /** Transparency: putting a blank line or a comment in front of any line, or taking one away, shifts the
      numbers of the lines below it and changes nothing else of the parse. */
  lemma SilentLinesAreTransparent(lex: Lex, a: string, line: string, b: string)
    requires a == "" || a[|a| - 1] == '\n'
    requires Silent(line) && forall i | 0 <= i < |line| :: line[i] != '\n'
    ensures Parse(lex, a + (line + ("\n" + b))) == Shifted(Parse(lex, a + b), |Lines(lex, a)|)
  {
    hide ParseFrom, Silent, Lines;
    LinesConcat(lex, a, line + ("\n" + b));
    LinesConcat(lex, a, b);
    LineCons(lex, line, b);
    var lines, k := Lines(lex, a + b), |Lines(lex, a)|;
    assert lines[..k] == Lines(lex, a) && lines[k..] == Lines(lex, b);
    assert Lines(lex, a + (line + ("\n" + b))) == lines[..k] + [line] + lines[k..];
    BeforeInserted(lex, lines, line, k, 0, None, []);
  }

  lemma LineCons(lex: Lex, line: string, rest: string)
    requires forall i | 0 <= i < |line| :: line[i] != '\n'
    ensures Lines(lex, line + ("\n" + rest)) == [line] + Lines(lex, rest)
  {
    var src := line + ("\n" + rest);
    Choice.SpanAll(lex, InLine, line, "\n" + rest);
    assert src[..|line|] == line && src[|line| + 1..] == rest;
  }

  // ---- the error of a file ----

  /** A parse error after the header names the first line that does not parse; a parse without error
      has read every line that says something. */
  lemma ErrorNamesTheFirstBadLine(lex: Lex, src: string, h: nat)
    requires FirstSaid(Lines(lex, src), 0, h)
    requires ParseHeader(lex, h + 1, Trim(Lines(lex, src)[h])).Ok?
    ensures var lines := Lines(lex, src);
            match Parse(lex, src)
            case Ok(script) =>
              && script.statements == Collect(lex, lines, h + 1)
              && forall m: nat | h < m < |lines| :: Silent(lines[m]) || ParsesAt(lex, lines, m)
            case Err(e) => e.line > h + 1 && FirstBad(lex, lines, h + 1, e.line - 1)
  {
    hide ParseStatement, Silent, Header, Lines;
    var lines := Lines(lex, src);
    FileOutcome(lex, lines, 0);
    BodyOutcome(lex, lines, h + 1, ParseHeader(lex, h + 1, Trim(lines[h])).value, []);
    assert [] + Collect(lex, lines, h + 1) == Collect(lex, lines, h + 1);
    forall g: nat | FirstSaid(lines, 0, g) ensures g == h {
    }
  }
}
