/** Every scenario the parser accepts is well formed, so it has a canonical text that parses to the same scenario. */
module Canonical {
  import opened Base
  import opened Scenario
  import opened Grammar
  import opened Printer
  import opened ScriptParser
  import opened ScriptRoundTrip
  import Choice

  // ---- leaves yield what their types promise ----

  lemma IdentOk(lex: Lex, s: string)
    requires Ident(lex, s).Done?
    ensures IsIdent(lex, Ident(lex, s).value)
  {
    Choice.SpanStops(lex, IdentChars, s);
  }

  lemma IntegerOk(lex: Lex, s: string)
    requires Integer(lex, s).Done?
    ensures IntOk(Integer(lex, s).value)
  {
    hide TakeSome, NatOf;
  }

  lemma ParsedDurationOk(lex: Lex, s: string)
    requires ParseDuration(lex, s).Done?
    ensures DurationOk(ParseDuration(lex, s).value)
  {
    hide TakeSome, NatOf;
    var n := Unsigned(lex, s, U64_MAX).value;
    assert n <= U64_MAX;
    assert (n * 1000) % 1000 == 0 && (n * 1000) / 1000 == n;
    var m := (n * 60) % (U64_MAX + 1);
    assert (m * 1000) % 1000 == 0 && (m * 1000) / 1000 == m;
  }

  lemma ParsedWithinOk(lex: Lex, s: string)
    requires Within(lex, s).Done?
    ensures WithinOk(Within(lex, s).value)
  {
    hide Words2Mid, ParseDuration, DurationOk;
    if Words2Mid(lex, s, "within").Done? {
      var r := Words2Mid(lex, s, "within").rest;
      if ParseDuration(lex, r).Done? {
        ParsedDurationOk(lex, r);
      }
    }
  }

  lemma ParsedStateOk(s: string)
    requires StateLit(s).Done?
    ensures StateLit(s).value in STATES
  {
    assert forall i | 0 <= i < |STATES| :: STATES[i] in STATES;
    assert STATES[0] == "created" && STATES[1] == "retry" && STATES[2] == "active"
           && STATES[3] == "completed" && STATES[4] == "cancelled" && STATES[5] == "failed";
  }

  lemma ClaimingOk(lex: Lex, s: string)
    requires Claiming(lex, s).Done?
    ensures var c := Claiming(lex, s).value; IsIdent(lex, c.0) && IsIdent(lex, c.1) && WithinOk(c.2)
  {
    hide Ident, IsIdent, Words2Mid, Within, WithinOk;
    IdentOk(lex, s);
    var r := Words2Mid(lex, Ident(lex, s).rest, "->").rest;
    IdentOk(lex, r);
    ParsedWithinOk(lex, Ident(lex, r).rest);
  }

  // ---- options ----

  predicate ValuesOk(pairs: seq<Pair>) {
    forall i | 0 <= i < |pairs| :: IntOk(pairs[i].1)
  }

  lemma AssignedOk(lex: Lex, key: Parsed<string>)
    requires Assigned(lex, key).Done?
    ensures IntOk(Assigned(lex, key).value.1)
  {
    hide Integer;
    IntegerOk(lex, Lit(key.rest, "=").rest);
  }

  lemma {:induction false} QueueOptsOk(lex: Lex, s: string)
    ensures ValuesOk(QueueOpts(lex, s).0)
    decreases |s|
  {
    hide Space1, Assigned, QueueKey;
    match Space1(lex, s)
    case Fail =>
    case Done(_, r) =>
      match QueueOpt(lex, r)
      case Fail =>
      case Done(pair, r') =>
        AssignedOk(lex, QueueKey(r));
        if |r'| < |s| {
          QueueOptsOk(lex, r');
        }
  }

  lemma {:induction false} PushItemsOk(lex: Lex, s: string)
    ensures ValuesOk(Overrides(PushItems(lex, s).0))
    decreases |s|
  {
    hide Space1, Assigned, PushKey, MessageClause, DataClause;
    match Space1(lex, s)
    case Fail =>
    case Done(_, r) =>
      match OnePushItem(lex, r)
      case Fail =>
      case Done(item, r') =>
        if item.Override? {
          assert SendOpt(lex, r) == Done(item.pair, r');
          AssignedOk(lex, PushKey(r));
        }
        if |r'| < |s| {
          PushItemsOk(lex, r');
          assert PushItems(lex, s).0[1..] == PushItems(lex, r').0;
        }
  }

  lemma {:induction false} LastValueOk(pairs: seq<Pair>, key: string)
    requires ValuesOk(pairs)
    ensures OptionOk(LastValue(pairs, key))
    decreases |pairs|
  {
    if pairs != [] {
      LastValueOk(pairs[..|pairs| - 1], key);
    }
  }

  lemma FoldsOk(pairs: seq<Pair>)
    requires ValuesOk(pairs)
    ensures var o := FoldQueue(pairs); OptionOk(o.retryLimit) && OptionOk(o.retryDelay)
                                       && OptionOk(o.expireInSeconds) && OptionOk(o.retentionSeconds)
    ensures var o := FoldPush(pairs); OptionOk(o.priority) && OptionOk(o.startAfter) && OptionOk(o.retryLimit)
                                      && OptionOk(o.retryDelay) && OptionOk(o.expireInSeconds)
  {
    FoldQueueKeepsLast(pairs);
    FoldPushKeepsLast(pairs);
    forall key ensures OptionOk(LastValue(pairs, key)) {
      LastValueOk(pairs, key);
    }
  }

  lemma {:induction false} IdentsOk(lex: Lex, s: string)
    ensures forall i | 0 <= i < |Idents(lex, s).0| :: IsIdent(lex, Idents(lex, s).0[i])
    decreases |s|
  {
    hide Space1, Ident, IsIdent;
    match Space1(lex, s)
    case Fail =>
    case Done(_, r) =>
      match Ident(lex, r)
      case Fail =>
      case Done(name, r') =>
        IdentOk(lex, r);
        if |r'| < |s| {
          IdentsOk(lex, r');
        }
  }

  // ---- commands ----

  lemma CreateOk(lex: Lex, s: string)
    requires CreateQueueCmd(lex, s).Done?
    ensures WellFormed(lex, CreateQueueCmd(lex, s).value)
  {
    hide Words2, Ident, IsIdent, QueueOpts, FoldQueue;
    var r := Words2(lex, s, "create", "queue").rest;
    IdentOk(lex, r);
    QueueOptsOk(lex, Ident(lex, r).rest);
    FoldsOk(QueueOpts(lex, Ident(lex, r).rest).0);
  }

  lemma PushOk(lex: Lex, s: string)
    requires PushCmd(lex, s).Done?
    ensures WellFormed(lex, PushCmd(lex, s).value)
  {
    hide Word1Of2, Ident, IsIdent, PushItems, FoldPush, Overrides, PayloadOf;
    var r := Word1Of2(lex, s, "push", "send").rest;
    IdentOk(lex, r);
    PushItemsOk(lex, Ident(lex, r).rest);
    FoldsOk(Overrides(PushItems(lex, Ident(lex, r).rest).0));
  }

  lemma ConsumesOk(lex: Lex, s: string)
    ensures SpawnCmd(lex, s).Done? ==> WellFormed(lex, SpawnCmd(lex, s).value)
    ensures ConsumeCmd(lex, s).Done? ==> WellFormed(lex, ConsumeCmd(lex, s).value)
  {
    hide Words2, Word1Of2, Claiming, IsIdent, WithinOk;
    if SpawnCmd(lex, s).Done? {
      ClaimingOk(lex, Words2(lex, s, "spawn", "consume").rest);
    }
    if ConsumeCmd(lex, s).Done? {
      ClaimingOk(lex, Word1Of2(lex, s, "consume", "fetch").rest);
    }
  }

  lemma HandlesOk(lex: Lex, s: string)
    ensures AckCmd(lex, s).Done? ==> WellFormed(lex, AckCmd(lex, s).value)
    ensures FailCmd(lex, s).Done? ==> WellFormed(lex, FailCmd(lex, s).value)
    ensures AwaitCmd(lex, s).Done? ==> WellFormed(lex, AwaitCmd(lex, s).value)
    ensures DeleteQueueCmd(lex, s).Done? ==> WellFormed(lex, DeleteQueueCmd(lex, s).value)
  {
    hide Words2, Word1Of2, Word, Output, Ident, IsIdent;
    if AckCmd(lex, s).Done? {
      IdentOk(lex, Word1Of2(lex, s, "ack", "complete").rest);
    }
    if FailCmd(lex, s).Done? {
      IdentOk(lex, Word(lex, s, "fail").rest);
    }
    if AwaitCmd(lex, s).Done? {
      IdentOk(lex, Word(lex, s, "await").rest);
    }
    if DeleteQueueCmd(lex, s).Done? {
      IdentOk(lex, Words2(lex, s, "delete", "queue").rest);
    }
  }

  lemma AssertQueueOk(lex: Lex, s: string)
    requires AssertQueue(lex, s).Done?
    ensures WellFormed(lex, AssertQueue(lex, s).value)
  {
    hide Word, Space1, Integer, IntOk, Ident, IsIdent;
    var r := Word(lex, s, "queue").rest;
    IdentOk(lex, r);
    var r' := Space1(lex, Ident(lex, r).rest).rest;
    if !("empty" <= r') {
      IntegerOk(lex, Word(lex, r', "size").rest);
    }
  }

  lemma AssertEqualOk(lex: Lex, s: string)
    requires AssertEqual(lex, s).Done?
    ensures WellFormed(lex, AssertEqual(lex, s).value)
  {
    hide Words2Mid, Ident, IsIdent;
    IdentOk(lex, s);
    IdentOk(lex, Words2Mid(lex, Ident(lex, s).rest, "==").rest);
  }

  lemma {:induction false} ChosenFrom(alternative: nat -> Parsed<Command>, n: nat)
    requires Choose(alternative, n).Done?
    ensures exists i: nat :: i < n && alternative(i) == Choose(alternative, n)
    decreases n
  {
    if Choose(alternative, n - 1).Done? {
      ChosenFrom(alternative, n - 1);
    } else {
      assert alternative(n - 1) == Choose(alternative, n);
    }
  }

  lemma AssertOk(lex: Lex, s: string)
    requires AssertCmd(lex, s).Done?
    ensures WellFormed(lex, AssertCmd(lex, s).value)
  {
    hide AssertQueue, AssertEqual, Idents, IsIdent, Word, Choose;
    var r := Word(lex, s, "assert").rest;
    ChosenFrom(AssertAlternatives(lex, r), ASSERTS);
    var i: nat :| i < ASSERTS && AssertAlternatives(lex, r)(i) == Choose(AssertAlternatives(lex, r), ASSERTS);
    assert AssertAlternative(lex, i, r).Done?;
    match i
    case 0 => AssertQueueOk(lex, r);
    case 1 => IdentsOk(lex, Lit(r, "exactly_one_claimed").rest);
    case 2 => AssertEqualOk(lex, r);
  }

  lemma CheckAlternativeOk(lex: Lex, handle: string, i: nat, s: string)
    requires IsIdent(lex, handle) && CheckAlternative(lex, handle, i, s).Done?
    ensures WellFormed(lex, CheckAlternative(lex, handle, i, s).value)
  {
    hide Word, StateLit, Within, WithinOk, JsonValue, IsIdent;
    match i
    case 0 => ParsedStateOk(Word(lex, s, "state").rest);
    case 1 => ParsedWithinOk(lex, Lit(s, "ack").rest);
    case 2 =>
    case 3 =>
    case 4 =>
  }

  lemma CheckOk(lex: Lex, s: string)
    requires CheckCmd(lex, s).Done?
    ensures WellFormed(lex, CheckCmd(lex, s).value)
  {
    hide CheckAlternative, Ident, IsIdent, Word, Space1, Choose, WellFormed;
    var r := Word(lex, s, "check").rest;
    IdentOk(lex, r);
    var handle, r' := Ident(lex, r).value, Space1(lex, Ident(lex, r).rest).rest;
    var alternatives := CheckAlternatives(lex, handle, r');
    ChosenFrom(alternatives, CHECKS);
    var i: nat :| i < CHECKS && alternatives(i) == Choose(alternatives, CHECKS);
    CheckAlternativeOk(lex, handle, i, r');
  }

  lemma CommandOk(lex: Lex, s: string)
    requires ParseCommand(lex, s).Done?
    ensures WellFormed(lex, ParseCommand(lex, s).value)
  {
    hide CreateQueueCmd, DeleteQueueCmd, PushCmd, SpawnCmd, ConsumeCmd, AckCmd, FailCmd, AwaitCmd,
         AssertCmd, CheckCmd, Choose, WellFormed;
    var alternatives := CommandAlternatives(lex, s);
    ChosenFrom(alternatives, COMMANDS);
    var i: nat :| i < COMMANDS && alternatives(i) == Choose(alternatives, COMMANDS);
    assert CommandAlternative(lex, i, s).Done?;
    match i
    case 0 => CreateOk(lex, s);
    case 1 => HandlesOk(lex, s);
    case 2 => MaintainIsOk(lex, s);
    case 3 => PushOk(lex, s);
    case 4 => ConsumesOk(lex, s);
    case 5 => ConsumesOk(lex, s);
    case 6 => HandlesOk(lex, s);
    case 7 => HandlesOk(lex, s);
    case 8 => HandlesOk(lex, s);
    case 9 => AssertOk(lex, s);
    case 10 => CheckOk(lex, s);
  }

  lemma MaintainIsOk(lex: Lex, s: string)
    ensures MaintainCmd(s).Done? ==> WellFormed(lex, MaintainCmd(s).value)
  {
  }

  // ---- scripts ----

  lemma PrefixOk(lex: Lex, s: string)
    ensures ClientPrefix(lex, s).0 <= U32_MAX
  {
    hide TakeSome, NatOf, Space1, Lit;
  }

  lemma LineOk(lex: Lex, lineNo: nat, text: string)
    requires ParseLine(lex, lineNo, text).Ok?
    ensures StatementOk(lex, ParseLine(lex, lineNo, text).value)
  {
    hide ClientPrefix, ParseCommand, WellFormed, Trim;
    PrefixOk(lex, text);
    CommandOk(lex, ClientPrefix(lex, text).1);
  }

  lemma HeaderOk(lex: Lex, lineNo: nat, text: string)
    requires ParseHeader(lex, lineNo, text).Ok?
    ensures IsIdent(lex, ParseHeader(lex, lineNo, text).value)
  {
    hide Word, Ident, IsIdent, Trim;
    IdentOk(lex, Word(lex, text, "scenario").rest);
  }

  lemma {:induction false} ParsedOk(lex: Lex, lines: seq<string>, i: nat, name: Option<string>,
                                    before: seq<Statement>)
    requires i <= |lines| && (name.Some? ==> IsIdent(lex, name.value))
    requires forall k | 0 <= k < |before| :: StatementOk(lex, before[k])
    ensures match ParseFrom(lex, lines, i, name, before)
            case Ok(script) => ScriptOk(lex, script)
            case Err(_) => true
    decreases |lines| - i
  {
    hide ParseLine, ParseHeader, Silent, StatementOk, IsIdent, Trim;
    if i < |lines| {
      if Silent(lines[i]) {
        ParsedOk(lex, lines, i + 1, name, before);
      } else if name.None? {
        match ParseHeader(lex, i + 1, Trim(lines[i])) {
          case Err(_) =>
          case Ok(n) =>
            HeaderOk(lex, i + 1, Trim(lines[i]));
            ParsedOk(lex, lines, i + 1, Some(n), before);
        }
      } else {
        match ParseLine(lex, i + 1, Trim(lines[i])) {
          case Err(_) =>
          case Ok(st) =>
            LineOk(lex, i + 1, Trim(lines[i]));
            ParsedOk(lex, lines, i + 1, name, before + [st]);
        }
      }
    }
  }

  /** Whatever text parses, its scenario is well formed, and printing and parsing it again changes only
      the line numbers: blank lines, comments and spacing are all the canonical text drops. */
  lemma ParsedScriptsAreCanonical(lex: Lex, src: string)
    requires ValidLex(lex) && Parse(lex, src).Ok?
    ensures var script := Parse(lex, src).value;
            && ScriptOk(lex, script)
            && Parse(lex, PrintScript(lex, script)) == Ok(Script(script.name, Renumbered(script.statements, 2)))
  {
    ParsedOk(lex, Lines(lex, src), 0, None, []);
    hide ParseFrom, PrintScript, ValidLex, Lines, ScriptOk;
    ScriptRead(lex, Parse(lex, src).value);
  }
}
