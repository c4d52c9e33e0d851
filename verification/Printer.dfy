/** The canonical text of a scenario. */
module Printer {
  import opened Base
  import opened Json
  import opened Scenario
  import opened Grammar

  // ---- what can be printed ----

  predicate AllIn(lex: Lex, class_: Class, s: string) {
    forall i | 0 <= i < |s| :: In(lex, class_, s[i])
  }

  predicate IsIdent(lex: Lex, s: string) {
    s != "" && AllIn(lex, IdentChars, s)
  }

  predicate IntOk(n: int) {
    I64_MIN <= n <= I64_MAX
  }

  predicate OptionOk(v: Option<int>) {
    v.Some? ==> IntOk(v.value)
  }

  /** Whole milliseconds, or whole seconds, that 64 bits can hold. */
  predicate DurationOk(d: Duration) {
    d <= U64_MAX || (d % 1000 == 0 && d / 1000 <= U64_MAX)
  }

  predicate WithinOk(w: Option<Duration>) {
    w.Some? ==> DurationOk(w.value)
  }

  const STATES: seq<string> := ["created", "retry", "active", "completed", "cancelled", "failed"]

  predicate WellFormed(lex: Lex, c: Command) {
    match c
    case CreateQueue(q, o) =>
      IsIdent(lex, q) && OptionOk(o.retryLimit) && OptionOk(o.retryDelay)
      && OptionOk(o.expireInSeconds) && OptionOk(o.retentionSeconds)
    case DeleteQueue(q) => IsIdent(lex, q)
    case Maintain => true
    case Push(q, _, o) =>
      IsIdent(lex, q) && OptionOk(o.priority) && OptionOk(o.startAfter)
      && OptionOk(o.retryLimit) && OptionOk(o.retryDelay) && OptionOk(o.expireInSeconds)
    case Consume(q, h, w) => IsIdent(lex, q) && IsIdent(lex, h) && WithinOk(w)
    case SpawnConsume(q, h, w) => IsIdent(lex, q) && IsIdent(lex, h) && WithinOk(w)
    case Await(h) => IsIdent(lex, h)
    case Ack(h, _) => IsIdent(lex, h)
    case Fail(h, _) => IsIdent(lex, h)
    case AssertQueueEmpty(q) => IsIdent(lex, q)
    case AssertQueueSize(q, n) => IsIdent(lex, q) && IntOk(n)
    case CheckState(h, s) => IsIdent(lex, h) && s in STATES
    case CheckAck(h, w) => IsIdent(lex, h) && WithinOk(w)
    case CheckEmpty(h) => IsIdent(lex, h)
    case CheckData(h, _) => IsIdent(lex, h)
    case CheckGone(h) => IsIdent(lex, h)
    case AssertVarEq(h, o) => IsIdent(lex, h) && IsIdent(lex, o)
    case AssertExactlyOneClaimed(hs) => hs != [] && forall i | 0 <= i < |hs| :: IsIdent(lex, hs[i])
  }

  predicate LastOk(s: string) {
    s != "" && !IsSpace(s[|s| - 1])
  }

  /** The JSON text of a value: one line, no white space around it, and parsing it gives the value back. */
  ghost predicate ShowsWell(lex: Lex, v: Json) {
    var text := lex.show(v);
    LastOk(text) && !IsSpace(text[0]) && AllIn(lex, InLine, text) && lex.parse(text) == Some(v)
  }

  /** What the library parts have to satisfy: letters are not white space, and JSON round-trips. */
  ghost predicate ValidLex(lex: Lex) {
    && (forall c :: lex.letter(c) ==> !IsSpace(c))
    && (forall v :: ShowsWell(lex, v))
  }

  // ---- printing ----

  function DigitChar(n: nat): char
    requires n < 10
  {
    ('0' as int + n) as char
  }

  function ShowNat(n: nat): string {
    if n < 10 then [DigitChar(n)] else ShowNat(n / 10) + [DigitChar(n % 10)]
  }

  function ShowInt(n: int): string {
    if n < 0 then "-" + ShowNat(-n) else ShowNat(n)
  }

  function ShowDuration(d: Duration): string {
    if d <= U64_MAX then ShowNat(d) + "ms" else ShowNat(d / 1000) + "s"
  }

  function Spaced(a: string, b: string): string {
    a + (" " + b)
  }

  /** ` key=value` for each pair, then the tail. */
  function ShowPairs(pairs: seq<Pair>, tail: string): string {
    if pairs == [] then tail
    else " " + (pairs[0].0 + ("=" + (ShowInt(pairs[0].1) + ShowPairs(pairs[1..], tail))))
  }

  function PairOf(key: string, v: Option<int>): seq<Pair> {
    match v
    case None => []
    case Some(n) => [(key, n)]
  }

  function QueuePairs(o: QueueSettings): seq<Pair> {
    PairOf("retryLimit", o.retryLimit) + (PairOf("retryDelay", o.retryDelay)
      + (PairOf("expireInSeconds", o.expireInSeconds) + PairOf("retentionSeconds", o.retentionSeconds)))
  }

  function PushPairs(o: PushSettings): seq<Pair> {
    PairOf("priority", o.priority) + (PairOf("startAfter", o.startAfter) + (PairOf("retryLimit", o.retryLimit)
      + (PairOf("retryDelay", o.retryDelay) + PairOf("expireInSeconds", o.expireInSeconds))))
  }

  function ShowWithin(w: Option<Duration>): string {
    match w
    case None => ""
    case Some(d) => " " + Spaced("within", ShowDuration(d))
  }

  function ShowOutput(lex: Lex, output: Option<Json>): string {
    match output
    case None => ""
    case Some(v) => " " + Spaced("output", lex.show(v))
  }

  function ShowClaiming(q: string, h: string, w: Option<Duration>): string {
    q + (" " + Spaced("->", h + ShowWithin(w)))
  }

  /** A string payload without quotes or line feeds has the short form. */
  predicate MessageOk(v: Json) {
    v.Str? && forall i | 0 <= i < |v.s| :: v.s[i] != '"' && v.s[i] != '\n'
  }

  /** The short form goes before the options; JSON runs to the end of the line, so it goes after them. */
  function ShowPush(lex: Lex, data: Json, pairs: seq<Pair>): string {
    if MessageOk(data) then " " + Spaced("message", "\"" + (data.s + ("\"" + ShowPairs(pairs, ""))))
    else ShowPairs(pairs, " " + Spaced("data", lex.show(data)))
  }

  function ShowNames(names: seq<string>): string {
    if names == [] then "" else " " + (names[0] + ShowNames(names[1..]))
  }

  function Print(lex: Lex, c: Command): string {
    match c
    case CreateQueue(q, o) => Spaced("create", Spaced("queue", q + ShowPairs(QueuePairs(o), "")))
    case DeleteQueue(q) => Spaced("delete", Spaced("queue", q + ""))
    case Maintain => "maintain"
    case Push(q, data, o) => Spaced("push", q + ShowPush(lex, data, PushPairs(o)))
    case Consume(q, h, w) => Spaced("consume", ShowClaiming(q, h, w))
    case SpawnConsume(q, h, w) => Spaced("spawn", Spaced("consume", ShowClaiming(q, h, w)))
    case Await(h) => Spaced("await", h + "")
    case Ack(h, output) => Spaced("ack", h + ShowOutput(lex, output))
    case Fail(h, output) => Spaced("fail", h + ShowOutput(lex, output))
    case AssertQueueEmpty(q) => Spaced("assert", Spaced("queue", Spaced(q, "empty" + "")))
    case AssertQueueSize(q, n) => Spaced("assert", Spaced("queue", Spaced(q, Spaced("size", ShowInt(n) + ""))))
    case CheckState(h, s) => Spaced("check", Spaced(h, Spaced("state", s + "")))
    case CheckAck(h, w) => Spaced("check", Spaced(h, "ack" + ShowWithin(w)))
    case CheckEmpty(h) => Spaced("check", Spaced(h, "empty" + ""))
    case CheckData(h, v) => Spaced("check", Spaced(h, Spaced("data", lex.show(v))))
    case CheckGone(h) => Spaced("check", Spaced(h, "gone" + ""))
    case AssertVarEq(h, o) => Spaced("assert", Spaced(h, Spaced("==", o + "")))
    case AssertExactlyOneClaimed(hs) => Spaced("assert", "exactly_one_claimed" + ShowNames(hs))
  }

  function PrintStatement(lex: Lex, client: nat, c: Command): string {
    "#" + (ShowNat(client) + (" " + Print(lex, c)))
  }

  function PrintStatements(lex: Lex, statements: seq<Statement>): string {
    if statements == [] then ""
    else PrintStatement(lex, statements[0].client, statements[0].command)
         + ("\n" + PrintStatements(lex, statements[1..]))
  }

  function PrintHeader(name: string): string {
    Spaced("scenario", name + ":")
  }

  function PrintScript(lex: Lex, script: Script): string {
    PrintHeader(script.name) + ("\n" + PrintStatements(lex, script.statements))
  }
}
