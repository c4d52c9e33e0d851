/** Whole scenarios: parsing the canonical text gives the scenario back, and every parsed scenario has one. */
module ScriptRoundTrip {
  import opened Base
  import opened Json
  import opened Scenario
  import opened Grammar
  import opened Printer
  import opened RoundTrip
  import opened ScriptParser
  import Choice
  import CommandRoundTrip

  // ---- a printed command is one clean line ----

  /** No line feed, and nothing at the end that trimming would take. */
  predicate Clean(lex: Lex, s: string) {
    LastOk(s) && AllIn(lex, InLine, s)
  }

  lemma CleanAfter(lex: Lex, a: string, b: string)
    requires AllIn(lex, InLine, a) && Clean(lex, b)
    ensures Clean(lex, a + b)
  {
    assert (a + b)[|a + b| - 1] == b[|b| - 1];
  }

  lemma CleanTail(lex: Lex, a: string, tail: string)
    requires Clean(lex, a) && (tail == "" || Clean(lex, tail))
    ensures Clean(lex, a + tail)
  {
    if tail == "" {
      assert a + tail == a;
    } else {
      CleanAfter(lex, a, tail);
    }
  }

  lemma CleanSpaced(lex: Lex, a: string, b: string)
    requires AllIn(lex, InLine, a) && Clean(lex, b)
    ensures Clean(lex, Spaced(a, b))
    ensures Clean(lex, " " + Spaced(a, b))
  {
    CleanAfter(lex, " ", b);
    CleanAfter(lex, a, " " + b);
    CleanAfter(lex, " ", Spaced(a, b));
  }

  lemma CleanIdent(lex: Lex, s: string)
    requires ValidLex(lex) && IsIdent(lex, s)
    ensures Clean(lex, s)
  {
    assert In(lex, IdentChars, s[|s| - 1]);
    assert IsSpace('\n');
    forall i | 0 <= i < |s| ensures In(lex, InLine, s[i]) {
      assert In(lex, IdentChars, s[i]);
    }
  }

  lemma CleanNat(lex: Lex, n: nat)
    ensures Clean(lex, ShowNat(n))
  {
    ShowNatReads(n);
    var s := ShowNat(n);
    assert IsDigit(s[|s| - 1]);
  }

  lemma CleanInt(lex: Lex, n: int)
    ensures Clean(lex, ShowInt(n))
  {
    CleanNat(lex, if n < 0 then -n else n);
    if n < 0 {
      CleanAfter(lex, "-", ShowNat(-n));
    }
  }

  lemma CleanWithin(lex: Lex, w: Option<Duration>)
    ensures ShowWithin(w) == "" || Clean(lex, ShowWithin(w))
  {
    hide ShowNat, Clean, Spaced;
    if w.Some? {
      var d := w.value;
      CleanNat(lex, d);
      CleanNat(lex, d / 1000);
      CleanUnits(lex);
      CleanTail(lex, ShowNat(d), "ms");
      CleanTail(lex, ShowNat(d / 1000), "s");
      PlainWords(lex, "within");
      CleanSpaced(lex, "within", ShowDuration(d));
    }
  }

  lemma CleanUnits(lex: Lex)
    ensures Clean(lex, "ms") && Clean(lex, "s")
  {
  }

  /** The keywords hold no line feed. */
  lemma PlainWords(lex: Lex, word: string)
    requires forall i | 0 <= i < |word| :: word[i] != '\n'
    ensures AllIn(lex, InLine, word)
    ensures word != "" && !IsSpace(word[|word| - 1]) ==> Clean(lex, word)
  {
  }

  lemma CleanJson(lex: Lex, v: Json)
    requires ValidLex(lex)
    ensures Clean(lex, lex.show(v))
  {
    assert ShowsWell(lex, v);
  }

  lemma CleanOutput(lex: Lex, output: Option<Json>)
    requires ValidLex(lex)
    ensures ShowOutput(lex, output) == "" || Clean(lex, ShowOutput(lex, output))
  {
    hide Clean, Spaced, ValidLex;
    if output.Some? {
      CleanJson(lex, output.value);
      PlainWords(lex, "output");
      CleanSpaced(lex, "output", lex.show(output.value));
    }
  }

  lemma {:induction false} CleanPairs(lex: Lex, pairs: seq<Pair>, tail: string)
    requires tail == "" || Clean(lex, tail)
    requires forall i | 0 <= i < |pairs| :: AllIn(lex, InLine, pairs[i].0)
    ensures ShowPairs(pairs, tail) == "" || Clean(lex, ShowPairs(pairs, tail))
    decreases |pairs|
  {
    hide Clean, ShowInt, AllIn;
    if pairs != [] {
      CleanPairs(lex, pairs[1..], tail);
      var after := ShowPairs(pairs[1..], tail);
      CleanInt(lex, pairs[0].1);
      CleanTail(lex, ShowInt(pairs[0].1), after);
      PlainWords(lex, "=");
      PlainWords(lex, " ");
      var value := ShowInt(pairs[0].1) + after;
      CleanAfter(lex, "=", value);
      CleanAfter(lex, pairs[0].0, "=" + value);
      CleanAfter(lex, " ", pairs[0].0 + ("=" + value));
    }
  }

  lemma PairKeys(lex: Lex, pairs: seq<Pair>)
    requires PairsOk(pairs, QUEUE_KEYS) || PairsOk(pairs, PUSH_KEYS)
    ensures forall i | 0 <= i < |pairs| :: AllIn(lex, InLine, pairs[i].0)
  {
    forall i | 0 <= i < |pairs| ensures AllIn(lex, InLine, pairs[i].0) {
      assert pairs[i].0 in QUEUE_KEYS + PUSH_KEYS;
    }
  }

  lemma CleanPush(lex: Lex, data: Json, pairs: seq<Pair>)
    requires ValidLex(lex) && PairsOk(pairs, PUSH_KEYS)
    ensures ShowPush(lex, data, pairs) == "" || Clean(lex, ShowPush(lex, data, pairs))
  {
    hide Clean, ShowPairs, Spaced, ValidLex;
    PairKeys(lex, pairs);
    if MessageOk(data) {
      CleanPairs(lex, pairs, "");
      PlainWords(lex, "\"");
      PlainWords(lex, data.s);
      CleanTail(lex, "\"", ShowPairs(pairs, ""));
      CleanAfter(lex, data.s, "\"" + ShowPairs(pairs, ""));
      CleanAfter(lex, "\"", data.s + ("\"" + ShowPairs(pairs, "")));
      PlainWords(lex, "message");
      CleanSpaced(lex, "message", "\"" + (data.s + ("\"" + ShowPairs(pairs, ""))));
    } else {
      CleanJson(lex, data);
      PlainWords(lex, "data");
      CleanSpaced(lex, "data", lex.show(data));
      CleanPairs(lex, pairs, " " + Spaced("data", lex.show(data)));
    }
  }

  lemma {:induction false} CleanNames(lex: Lex, names: seq<string>)
    requires ValidLex(lex) && forall i | 0 <= i < |names| :: IsIdent(lex, names[i])
    ensures ShowNames(names) == "" || Clean(lex, ShowNames(names))
    decreases |names|
  {
    hide Clean, ValidLex, IsIdent;
    if names != [] {
      CleanNames(lex, names[1..]);
      CleanIdent(lex, names[0]);
      CleanTail(lex, names[0], ShowNames(names[1..]));
      PlainWords(lex, " ");
      CleanAfter(lex, " ", names[0] + ShowNames(names[1..]));
    }
  }

  lemma CleanHandle(lex: Lex, word: string, h: string, tail: string)
    requires ValidLex(lex) && IsIdent(lex, h) && (tail == "" || Clean(lex, tail)) && AllIn(lex, InLine, word)
    ensures Clean(lex, h + tail) && Clean(lex, Spaced(word, h + tail)) && AllIn(lex, InLine, h)
  {
    CleanIdent(lex, h);
    hide Spaced, ValidLex, IsIdent;
    CleanTail(lex, h, tail);
    CleanSpaced(lex, word, h + tail);
  }

  lemma CleanClaiming(lex: Lex, q: string, h: string, w: Option<Duration>)
    requires ValidLex(lex) && IsIdent(lex, q) && IsIdent(lex, h)
    ensures Clean(lex, ShowClaiming(q, h, w))
  {
    hide Clean, ValidLex, IsIdent, ShowWithin, Spaced;
    CleanWithin(lex, w);
    PlainWords(lex, "->");
    CleanHandle(lex, "->", h, ShowWithin(w));
    PlainWords(lex, " ");
    CleanAfter(lex, " ", Spaced("->", h + ShowWithin(w)));
    CleanIdent(lex, q);
    CleanTail(lex, q, " " + Spaced("->", h + ShowWithin(w)));
  }

  lemma Keywords(lex: Lex)
    ensures AllIn(lex, InLine, "create") && AllIn(lex, InLine, "queue") && AllIn(lex, InLine, "delete")
    ensures AllIn(lex, InLine, "push") && AllIn(lex, InLine, "consume") && AllIn(lex, InLine, "spawn")
    ensures AllIn(lex, InLine, "await") && AllIn(lex, InLine, "ack") && AllIn(lex, InLine, "fail")
    ensures AllIn(lex, InLine, "assert") && AllIn(lex, InLine, "check") && AllIn(lex, InLine, "size")
    ensures AllIn(lex, InLine, "state") && AllIn(lex, InLine, "data") && AllIn(lex, InLine, "==")
    ensures Clean(lex, "maintain") && Clean(lex, "empty") && Clean(lex, "gone") && Clean(lex, "ack")
    ensures Clean(lex, "exactly_one_claimed")
  {
  }

  lemma CleanQueueCommand(lex: Lex, c: Command)
    requires ValidLex(lex) && WellFormed(lex, c) && CommandRoundTrip.IndexOf(c) <= 5
    ensures Clean(lex, Print(lex, c))
  {
    hide Clean, ValidLex, IsIdent, AllIn, Spaced, ShowPairs, ShowPush, ShowClaiming, QueuePairs, PushPairs;
    Keywords(lex);
    match c
    case CreateQueue(q, o) =>
      CommandRoundTrip.QueuePairsOk(o);
      PairKeys(lex, QueuePairs(o));
      CleanPairs(lex, QueuePairs(o), "");
      CleanHandle(lex, "queue", q, ShowPairs(QueuePairs(o), ""));
      CleanSpaced(lex, "create", Spaced("queue", q + ShowPairs(QueuePairs(o), "")));
    case DeleteQueue(q) =>
      CleanHandle(lex, "queue", q, "");
      CleanSpaced(lex, "delete", Spaced("queue", q + ""));
    case Maintain =>
    case Push(q, data, o) =>
      CommandRoundTrip.PushPairsOk(o);
      CleanPush(lex, data, PushPairs(o));
      CleanHandle(lex, "push", q, ShowPush(lex, data, PushPairs(o)));
    case Consume(q, h, w) =>
      CleanClaiming(lex, q, h, w);
      CleanSpaced(lex, "consume", ShowClaiming(q, h, w));
    case SpawnConsume(q, h, w) =>
      CleanClaiming(lex, q, h, w);
      CleanSpaced(lex, "consume", ShowClaiming(q, h, w));
      CleanSpaced(lex, "spawn", Spaced("consume", ShowClaiming(q, h, w)));
  }

  lemma CleanAssert(lex: Lex, c: Command)
    requires ValidLex(lex) && WellFormed(lex, c) && CommandRoundTrip.IndexOf(c) == 9
    ensures Clean(lex, Print(lex, c))
  {
    hide Clean, ValidLex, IsIdent, AllIn, Spaced, ShowInt, ShowNames;
    Keywords(lex);
    match c
    case AssertQueueEmpty(q) =>
      CleanHandle(lex, "queue", q, "");
      CleanTail(lex, "empty", "");
      CleanSpaced(lex, q, "empty" + "");
      CleanSpaced(lex, "queue", Spaced(q, "empty" + ""));
      CleanSpaced(lex, "assert", Spaced("queue", Spaced(q, "empty" + "")));
    case AssertQueueSize(q, n) =>
      CleanHandle(lex, "queue", q, "");
      CleanInt(lex, n);
      CleanTail(lex, ShowInt(n), "");
      CleanSpaced(lex, "size", ShowInt(n) + "");
      CleanSpaced(lex, q, Spaced("size", ShowInt(n) + ""));
      CleanSpaced(lex, "queue", Spaced(q, Spaced("size", ShowInt(n) + "")));
      CleanSpaced(lex, "assert", Spaced("queue", Spaced(q, Spaced("size", ShowInt(n) + ""))));
    case AssertVarEq(h, o) =>
      CleanHandle(lex, "==", o, "");
      CleanHandle(lex, "==", h, "");
      CleanSpaced(lex, h, Spaced("==", o + ""));
      CleanSpaced(lex, "assert", Spaced(h, Spaced("==", o + "")));
    case AssertExactlyOneClaimed(hs) =>
      CleanNames(lex, hs);
      CleanTail(lex, "exactly_one_claimed", ShowNames(hs));
      CleanSpaced(lex, "assert", "exactly_one_claimed" + ShowNames(hs));
  }

  lemma CleanCheck(lex: Lex, h: string, text: string)
    requires ValidLex(lex) && IsIdent(lex, h) && Clean(lex, text)
    ensures Clean(lex, Spaced("check", Spaced(h, text)))
  {
    hide Clean, ValidLex, IsIdent, AllIn, Spaced;
    Keywords(lex);
    CleanHandle(lex, "check", h, "");
    CleanSpaced(lex, h, text);
    CleanSpaced(lex, "check", Spaced(h, text));
  }

  lemma CleanState(lex: Lex, s: string)
    requires s in STATES
    ensures Clean(lex, s + "")
  {
  }

  lemma CleanRest(lex: Lex, c: Command)
    requires ValidLex(lex) && WellFormed(lex, c)
    requires CommandRoundTrip.IndexOf(c) > 5 && CommandRoundTrip.IndexOf(c) != 9
    ensures Clean(lex, Print(lex, c))
  {
    hide Clean, ValidLex, IsIdent, AllIn, Spaced, ShowOutput, ShowWithin;
    Keywords(lex);
    match c
    case Ack(h, output) => CleanOutput(lex, output); CleanHandle(lex, "ack", h, ShowOutput(lex, output));
    case Fail(h, output) => CleanOutput(lex, output); CleanHandle(lex, "fail", h, ShowOutput(lex, output));
    case Await(h) => CleanHandle(lex, "await", h, "");
    case CheckState(h, s) =>
      CleanState(lex, s);
      CleanSpaced(lex, "state", s + "");
      CleanCheck(lex, h, Spaced("state", s + ""));
    case CheckAck(h, w) =>
      CleanWithin(lex, w);
      CleanTail(lex, "ack", ShowWithin(w));
      CleanCheck(lex, h, "ack" + ShowWithin(w));
    case CheckEmpty(h) => CleanTail(lex, "empty", ""); CleanCheck(lex, h, "empty" + "");
    case CheckGone(h) => CleanTail(lex, "gone", ""); CleanCheck(lex, h, "gone" + "");
    case CheckData(h, v) =>
      CleanJson(lex, v);
      CleanSpaced(lex, "data", lex.show(v));
      CleanCheck(lex, h, Spaced("data", lex.show(v)));
  }

  lemma CleanCommand(lex: Lex, c: Command)
    requires ValidLex(lex) && WellFormed(lex, c)
    ensures Clean(lex, Print(lex, c))
  {
    hide Clean, ValidLex, WellFormed, Print;
    if CommandRoundTrip.IndexOf(c) <= 5 {
      CleanQueueCommand(lex, c);
    } else if CommandRoundTrip.IndexOf(c) == 9 {
      CleanAssert(lex, c);
    } else {
      CleanRest(lex, c);
    }
  }

  // ---- statements ----

  predicate StatementOk(lex: Lex, st: Statement) {
    st.client <= U32_MAX && WellFormed(lex, st.command)
  }

  lemma PrintStarts(lex: Lex, c: Command)
    requires ValidLex(lex) && WellFormed(lex, c)
    ensures Ends(lex, Blanks, Print(lex, c)) && Print(lex, c) != ""
  {
    hide Print, ParseCommand, CommandAlternative, WellFormed, ValidLex;
    CommandRoundTrip.CommandRead(lex, c);
    CommandRoundTrip.AlternativeRead(lex, c);
    Choice.AlternativeLeads(lex, CommandRoundTrip.IndexOf(c), Print(lex, c));
    assert Choice.Leads(Print(lex, c)) < 99;
  }

  lemma StatementRead(lex: Lex, client: nat, c: Command)
    requires ValidLex(lex) && WellFormed(lex, c) && client <= U32_MAX
    ensures ParseStatement(lex, PrintStatement(lex, client, c)) == Done((client, c), "")
  {
    hide ParseCommand, Print, WellFormed, ValidLex, Unsigned, Space1, ShowNat, Lit;
    PrintStarts(lex, c);
    CommandRoundTrip.CommandRead(lex, c);
    var text := Print(lex, c);
    LitRead("#", ShowNat(client) + (" " + text));
    UnsignedRead(lex, client, U32_MAX, " " + text);
    SpaceRead(lex, text);
  }

  /** The printed statement is a line of its own, and neither blank nor a comment. */
  lemma StatementIsALine(lex: Lex, client: nat, c: Command)
    requires ValidLex(lex) && WellFormed(lex, c)
    ensures var text := PrintStatement(lex, client, c);
            Trim(text) == text && !Silent(text) && AllIn(lex, InLine, text)
  {
    var text := PrintStatement(lex, client, c);
    CleanCommand(lex, c);
    CleanNat(lex, client);
    ShowNatReads(client);
    hide Print, WellFormed, ValidLex, ShowNat;
    PlainWords(lex, " ");
    PlainWords(lex, "#");
    CleanAfter(lex, " ", Print(lex, c));
    CleanAfter(lex, ShowNat(client), " " + Print(lex, c));
    CleanAfter(lex, "#", ShowNat(client) + (" " + Print(lex, c)));
    assert text[0] == '#' && text[1] == ShowNat(client)[0];
    TrimNothing(text);
  }

  lemma HeaderIsALine(lex: Lex, name: string)
    requires ValidLex(lex) && IsIdent(lex, name)
    ensures var text := PrintHeader(name);
            && Trim(text) == text && !Silent(text) && AllIn(lex, InLine, text)
            && Header(lex, text) == Done(name, "")
  {
    HeaderClean(lex, name);
    hide ValidLex, Trim, Silent, AllIn;
    HeaderRead(lex, name);
  }

  lemma HeaderClean(lex: Lex, name: string)
    requires ValidLex(lex) && IsIdent(lex, name)
    ensures var text := PrintHeader(name); Trim(text) == text && !Silent(text) && AllIn(lex, InLine, text)
  {
    var text := PrintHeader(name);
    CleanIdent(lex, name);
    PlainWords(lex, ":");
    PlainWords(lex, "scenario");
    CleanTail(lex, name, ":");
    CleanSpaced(lex, "scenario", name + ":");
    assert text[0] == 's';
    TrimNothing(text);
  }

  lemma HeaderRead(lex: Lex, name: string)
    requires IsIdent(lex, name)
    ensures Header(lex, PrintHeader(name)) == Done(name, "")
  {
    IdentRead(lex, name, ":");
    IdentStart(lex, name, ":");
    WordRead(lex, "scenario", name + ":");
  }

  // ---- lines ----

  lemma LinesCons(lex: Lex, line: string, rest: string)
    requires AllIn(lex, InLine, line)
    ensures Lines(lex, line + ("\n" + rest)) == [line] + Lines(lex, rest)
  {
    var src := line + ("\n" + rest);
    Choice.SpanAll(lex, InLine, line, "\n" + rest);
    assert src[..|line|] == line && src[|line| + 1..] == rest;
  }

  function LinesOf(lex: Lex, statements: seq<Statement>): seq<string> {
    if statements == [] then []
    else [PrintStatement(lex, statements[0].client, statements[0].command)] + LinesOf(lex, statements[1..])
  }

  lemma {:induction false} StatementLines(lex: Lex, statements: seq<Statement>)
    requires ValidLex(lex) && forall i | 0 <= i < |statements| :: StatementOk(lex, statements[i])
    ensures Lines(lex, PrintStatements(lex, statements)) == LinesOf(lex, statements)
    ensures |LinesOf(lex, statements)| == |statements|
    ensures forall i | 0 <= i < |statements| ::
              LinesOf(lex, statements)[i] == PrintStatement(lex, statements[i].client, statements[i].command)
    decreases |statements|
  {
    hide PrintStatement, ValidLex;
    if statements != [] {
      var st := statements[0];
      StatementLines(lex, statements[1..]);
      StatementIsALine(lex, st.client, st.command);
      LinesCons(lex, PrintStatement(lex, st.client, st.command), PrintStatements(lex, statements[1..]));
    }
  }

  /** The statements as they come back: the same, on consecutive lines from `first` on. */
  function Renumbered(statements: seq<Statement>, first: nat): (r: seq<Statement>)
    ensures |r| == |statements|
  {
    if statements == [] then []
    else [statements[0].(line := first)] + Renumbered(statements[1..], first + 1)
  }

  lemma {:induction false} StatementsRead(lex: Lex, lines: seq<string>, i: nat, name: string,
                                          before: seq<Statement>, statements: seq<Statement>)
    requires ValidLex(lex) && i + |statements| == |lines|
    requires forall k | 0 <= k < |statements| :: StatementOk(lex, statements[k])
    requires forall k | 0 <= k < |statements| ::
               lines[i + k] == PrintStatement(lex, statements[k].client, statements[k].command)
    ensures ParseFrom(lex, lines, i, Some(name), before)
            == Ok(Script(name, before + Renumbered(statements, i + 1)))
    decreases |statements|
  {
    hide PrintStatement, ParseStatement, Silent, ValidLex;
    if statements == [] {
      assert before + [] == before;
    } else {
      var st := statements[0];
      assert StatementOk(lex, st) && lines[i + 0] == PrintStatement(lex, st.client, st.command);
      StatementIsALine(lex, st.client, st.command);
      StatementRead(lex, st.client, st.command);
      var st' := Statement(i + 1, st.client, st.command);
      forall k | 0 <= k < |statements| - 1
        ensures lines[i + 1 + k] == PrintStatement(lex, statements[1..][k].client, statements[1..][k].command)
      {
        assert lines[i + (k + 1)] == PrintStatement(lex, statements[k + 1].client, statements[k + 1].command);
      }
      StatementsRead(lex, lines, i + 1, name, before + [st'], statements[1..]);
      assert ParseLine(lex, i + 1, lines[i]) == Ok(st');
      assert before + Renumbered(statements, i + 1) == before + [st'] + Renumbered(statements[1..], i + 2);
    }
  }

  ghost predicate ScriptOk(lex: Lex, script: Script) {
    IsIdent(lex, script.name) && forall i | 0 <= i < |script.statements| :: StatementOk(lex, script.statements[i])
  }

  /** Round trip: parsing the canonical text of a well-formed scenario gives the same name, clients and
      commands, numbered as printed. */
  lemma ScriptRead(lex: Lex, script: Script)
    requires ValidLex(lex) && ScriptOk(lex, script)
    ensures Parse(lex, PrintScript(lex, script)) == Ok(Script(script.name, Renumbered(script.statements, 2)))
  {
    hide PrintStatement, ParseStatement, Silent, ValidLex, Header, PrintHeader, Lines, ParseFrom, Trim, StatementOk;
    var statements := script.statements;
    StatementLines(lex, statements);
    HeaderIsALine(lex, script.name);
    LinesCons(lex, PrintHeader(script.name), PrintStatements(lex, statements));
    var lines := Lines(lex, PrintScript(lex, script));
    assert lines == [PrintHeader(script.name)] + LinesOf(lex, statements);
    forall k | 0 <= k < |statements|
      ensures lines[1 + k] == PrintStatement(lex, statements[k].client, statements[k].command)
    {
      assert lines[1 + k] == LinesOf(lex, statements)[k];
    }
    StatementsRead(lex, lines, 1, script.name, [], statements);
    assert [] + Renumbered(statements, 2) == Renumbered(statements, 2);
    HeaderFirst(lex, lines, script.name);
  }

  lemma HeaderFirst(lex: Lex, lines: seq<string>, name: string)
    requires ValidLex(lex) && IsIdent(lex, name) && lines != [] && lines[0] == PrintHeader(name)
    ensures ParseFrom(lex, lines, 0, None, []) == ParseFrom(lex, lines, 1, Some(name), [])
  {
    hide Silent, ValidLex, Header, PrintHeader;
    HeaderIsALine(lex, name);
    assert ParseHeader(lex, 1, lines[0]) == Ok(name);
  }
}
