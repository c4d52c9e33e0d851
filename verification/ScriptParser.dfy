/** `parse_scenario`: lines, comments, the header, and one statement per line. */
module ScriptParser {
  import opened Base
  import opened Scenario
  import opened Grammar

  datatype ErrorKind = BadHeader | AfterHeader | Syntax | TrailingInput | MissingHeader

  datatype DslError = DslError(line: nat, kind: ErrorKind)

  /** `str::lines`; a carriage return before the line feed is white space, trimmed later. */
  function Lines(lex: Lex, src: string): seq<string>
    decreases |src|
  {
    if src == "" then []
    else
      var n := Span(lex, InLine, src);
      if n == |src| then [src] else [src[..n]] + Lines(lex, src[n + 1..])
  }

  /** `#` and then anything but a digit. */
  predicate IsComment(text: string) {
    text != "" && text[0] == '#' && (|text| == 1 || !IsDigit(text[1]))
  }

  /** Blank lines and comments say nothing. */
  predicate Silent(line: string) {
    Trim(line) == "" || IsComment(Trim(line))
  }

  function ParseHeader(lex: Lex, lineNo: nat, text: string): Result<string, DslError> {
    match Header(lex, text)
    case Fail => Err(DslError(lineNo, BadHeader))
    case Done(name, rest) => if Trim(rest) == "" then Ok(name) else Err(DslError(lineNo, AfterHeader))
  }

  function ParseLine(lex: Lex, lineNo: nat, text: string): Result<Statement, DslError> {
    match ParseStatement(lex, text)
    case Fail => Err(DslError(lineNo, Syntax))
    case Done(st, rest) =>
      if Trim(rest) == "" then Ok(Statement(lineNo, st.0, st.1)) else Err(DslError(lineNo, TrailingInput))
  }

  /** What parsing the lines from `i` on comes to, given the header and the statements read so far. */
  function ParseFrom(lex: Lex, lines: seq<string>, i: nat, name: Option<string>, statements: seq<Statement>)
    : Result<Script, DslError>
    requires i <= |lines|
    decreases |lines| - i
  {
    if i == |lines| then
      if name.None? then Err(DslError(0, MissingHeader)) else Ok(Script(name.value, statements))
    else if Silent(lines[i]) then ParseFrom(lex, lines, i + 1, name, statements)
    else if name.None? then
      match ParseHeader(lex, i + 1, Trim(lines[i]))
      case Err(e) => Err(e)
      case Ok(n) => ParseFrom(lex, lines, i + 1, Some(n), statements)
    else
      match ParseLine(lex, i + 1, Trim(lines[i]))
      case Err(e) => Err(e)
      case Ok(st) => ParseFrom(lex, lines, i + 1, name, statements + [st])
  }

  function Parse(lex: Lex, src: string): Result<Script, DslError> {
    ParseFrom(lex, Lines(lex, src), 0, None, [])
  }

  method ParseScenario(lex: Lex, src: string) returns (r: Result<Script, DslError>)
    ensures r == Parse(lex, src)
  {
    var name: Option<string> := None;
    var statements := [];
    var lines := Lines(lex, src);
    var i := 0;
    while i < |lines|
      invariant 0 <= i <= |lines|
      invariant ParseFrom(lex, lines, i, name, statements) == Parse(lex, src)
    {
      var lineNo, text := i + 1, Trim(lines[i]);
      if text == "" || IsComment(text) {
      } else if name.None? {
        match ParseHeader(lex, lineNo, text) {
          case Err(e) => return Err(e);
          case Ok(n) => name := Some(n);
        }
      } else {
        match ParseLine(lex, lineNo, text) {
          case Err(e) => return Err(e);
          case Ok(st) => statements := statements + [st];
        }
      }
      i := i + 1;
    }
    if name.None? {
      return Err(DslError(0, MissingHeader));
    }
    r := Ok(Script(name.value, statements));
  }
}
