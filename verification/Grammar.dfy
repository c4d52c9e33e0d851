/** The line parser: ordered choice with backtracking over the text of one statement. */
module Grammar {
  import opened Base
  import opened Json
  import opened Scenario

  /** What the parser takes from libraries: which characters beyond ASCII are alphanumeric, and JSON. */
  datatype Lex = Lex(letter: char -> bool, parse: string -> Option<Json>, show: Json -> string)

  /** A failed parser leaves the cursor where it was: the rest is kept by the caller. */
  datatype Parsed<+T> = Fail | Done(value: T, rest: string) {
    predicate IsFailure() {
      Fail?
    }

    function PropagateFailure<U>(): Parsed<U>
      requires Fail?
    {
      Parsed.Fail
    }

    function Extract(): (T, string)
      requires Done?
    {
      (value, rest)
    }

    function Map<U>(f: T -> U): Parsed<U> {
      match this
      case Fail => Parsed.Fail
      case Done(v, rest) => Done(f(v), rest)
    }

    /** `alt`: the other parser's result where this one failed. */
    function Or<U>(other: Parsed<U>, f: T -> U): Parsed<U> {
      match this
      case Fail => other
      case Done(v, rest) => Done(f(v), rest)
    }
  }

  // ---- characters ----

  /** `char::is_whitespace`. */
  predicate IsSpace(c: char) {
    var n := c as int;
    || 0x09 <= n <= 0x0d || n == 0x20 || n == 0x85 || n == 0xa0 || n == 0x1680
    || 0x2000 <= n <= 0x200a || n == 0x2028 || n == 0x2029 || n == 0x202f || n == 0x205f || n == 0x3000
  }

  predicate IsDigit(c: char) {
    '0' <= c <= '9'
  }

  datatype Class = Blanks | Digits | IdentChars | Unquoted | InLine

  predicate In(lex: Lex, class_: Class, c: char) {
    match class_
    case Blanks => c == ' ' || c == '\t'
    case Digits => IsDigit(c)
    case IdentChars =>
      'a' <= c <= 'z' || 'A' <= c <= 'Z' || IsDigit(c) || c == '_' || c == '-' || (c as int >= 0x80 && lex.letter(c))
    case Unquoted => c != '"'
    case InLine => c != '\n'
  }

  /** How many characters at the front are of the class. */
  function Span(lex: Lex, class_: Class, s: string): (n: nat)
    ensures n <= |s|
  {
    if s == "" || !In(lex, class_, s[0]) then 0 else 1 + Span(lex, class_, s[1..])
  }

  // ---- leaf parsers ----

  function Lit(s: string, word: string): Parsed<()> {
    if word <= s then Done((), s[|word|..]) else Parsed.Fail
  }

  function TakeWhile(lex: Lex, class_: Class, s: string): Parsed<string> {
    var n := Span(lex, class_, s);
    Done(s[..n], s[n..])
  }

  function TakeSome(lex: Lex, class_: Class, s: string): (p: Parsed<string>)
    ensures p.Done? ==> |p.rest| < |s|
  {
    var n := Span(lex, class_, s);
    if n == 0 then Parsed.Fail else Done(s[..n], s[n..])
  }

  function Space1(lex: Lex, s: string): (p: Parsed<()>)
    ensures p.Done? ==> |p.rest| < |s|
  {
    var (_, r) :- TakeSome(lex, Blanks, s);
    Done((), r)
  }

  function Ident(lex: Lex, s: string): (p: Parsed<string>)
    ensures p.Done? ==> |p.rest| < |s|
  {
    TakeSome(lex, IdentChars, s)
  }

  function NatOf(digits: string): nat {
    if digits == "" then 0
    else NatOf(digits[..|digits| - 1]) * 10 + (if IsDigit(digits[|digits| - 1])
                                               then digits[|digits| - 1] as int - '0' as int else 0)
  }

  const U32_MAX: int := 0xffff_ffff
  const U64_MAX: int := 0xffff_ffff_ffff_ffff
  const I64_MIN: int := -0x8000_0000_0000_0000
  const I64_MAX: int := 0x7fff_ffff_ffff_ffff

  /** digit1 and the conversion to an unsigned integer, which fails when the number is too large. */
  function Unsigned(lex: Lex, s: string, max: int): Parsed<nat> {
    var (digits, r) :- TakeSome(lex, Digits, s);
    if NatOf(digits) <= max then Done(NatOf(digits), r) else Parsed.Fail
  }

  function Integer(lex: Lex, s: string): Parsed<int> {
    if s != "" && s[0] == '-' then
      var (digits, r) :- TakeSome(lex, Digits, s[1..]);
      var n: int := NatOf(digits);
      if -n >= I64_MIN then Done(-n, r) else Parsed.Fail
    else
      var (digits, r) :- TakeSome(lex, Digits, s);
      if NatOf(digits) <= I64_MAX then Done(NatOf(digits), r) else Parsed.Fail
  }

  /** Minutes are multiplied in 64 bits. */
  function UnitOf(n: nat, s: string): Parsed<Duration> {
    if "ms" <= s then Done(n, s[2..])
    else if "s" <= s then Done(n * 1000, s[1..])
    else if "m" <= s then Done((n * 60) % (U64_MAX + 1) * 1000, s[1..])
    else Parsed.Fail
  }

  function ParseDuration(lex: Lex, s: string): Parsed<Duration> {
    var (n, r) :- Unsigned(lex, s, U64_MAX);
    UnitOf(n, r)
  }

  function Quoted(lex: Lex, s: string): Parsed<string> {
    var (_, r) :- Lit(s, "\"");
    var (text, r) :- TakeWhile(lex, Unquoted, r);
    var (_, r) :- Lit(r, "\"");
    Done(text, r)
  }

  function TrimStart(s: string): string {
    if s != "" && IsSpace(s[0]) then TrimStart(s[1..]) else s
  }

  function TrimEnd(s: string): string {
    if s != "" && IsSpace(s[|s| - 1]) then TrimEnd(s[..|s| - 1]) else s
  }

  function Trim(s: string): string {
    TrimEnd(TrimStart(s))
  }

  /** Everything left on the line, as JSON. */
  function JsonValue(lex: Lex, s: string): Parsed<Json> {
    match lex.parse(Trim(s))
    case None => Parsed.Fail
    case Some(v) => Done(v, "")
  }

  function MessageClause(lex: Lex, s: string): Parsed<Json> {
    var (_, r) :- Lit(s, "message");
    var (_, r) :- Space1(lex, r);
    var (text, r) :- Quoted(lex, r);
    Done(Str(text), r)
  }

  function DataClause(lex: Lex, s: string): Parsed<Json> {
    var (_, r) :- Lit(s, "data");
    var (_, r) :- Space1(lex, r);
    JsonValue(lex, r)
  }

  function QueueKey(s: string): Parsed<string> {
    if "retryLimit" <= s then Done("retryLimit", s[|"retryLimit"|..])
    else if "retryDelay" <= s then Done("retryDelay", s[|"retryDelay"|..])
    else if "expireInSeconds" <= s then Done("expireInSeconds", s[|"expireInSeconds"|..])
    else if "retentionSeconds" <= s then Done("retentionSeconds", s[|"retentionSeconds"|..])
    else Parsed.Fail
  }

  function PushKey(s: string): Parsed<string> {
    if "priority" <= s then Done("priority", s[|"priority"|..])
    else if "startAfter" <= s then Done("startAfter", s[|"startAfter"|..])
    else if "retryLimit" <= s then Done("retryLimit", s[|"retryLimit"|..])
    else if "retryDelay" <= s then Done("retryDelay", s[|"retryDelay"|..])
    else if "expireInSeconds" <= s then Done("expireInSeconds", s[|"expireInSeconds"|..])
    else Parsed.Fail
  }

  function Assigned(lex: Lex, key: Parsed<string>): Parsed<Pair> {
    var (k, r) :- key;
    var (_, r) :- Lit(r, "=");
    var (v, r) :- Integer(lex, r);
    Done((k, v), r)
  }

  function QueueOpt(lex: Lex, s: string): Parsed<Pair> {
    Assigned(lex, QueueKey(s))
  }

  function SendOpt(lex: Lex, s: string): Parsed<Pair> {
    Assigned(lex, PushKey(s))
  }

  function StateLit(s: string): Parsed<string> {
    if "created" <= s then Done("created", s[|"created"|..])
    else if "retry" <= s then Done("retry", s[|"retry"|..])
    else if "active" <= s then Done("active", s[|"active"|..])
    else if "completed" <= s then Done("completed", s[|"completed"|..])
    else if "cancelled" <= s then Done("cancelled", s[|"cancelled"|..])
    else if "failed" <= s then Done("failed", s[|"failed"|..])
    else Parsed.Fail
  }

  // ---- repetition ----

  /** `repeat(0.., preceded(space1, queue_opt))`: an item that fails gives back its space. */
  function QueueOpts(lex: Lex, s: string): (p: (seq<Pair>, string))
    decreases |s|
  {
    match Space1(lex, s)
    case Fail => ([], s)
    case Done(_, r) =>
      match QueueOpt(lex, r)
      case Fail => ([], s)
      case Done(pair, r') =>
        if |r'| < |s| then
          var (more, rest) := QueueOpts(lex, r');
          ([pair] + more, rest)
        else ([], s)
  }

  datatype PushItem = Payload(v: Json) | Override(pair: Pair)

  function OnePushItem(lex: Lex, s: string): Parsed<PushItem> {
    MessageClause(lex, s).Or(
      DataClause(lex, s).Or(
        SendOpt(lex, s).Map(pair => Override(pair)), v => Payload(v)), v => Payload(v))
  }

  function PushItems(lex: Lex, s: string): (p: (seq<PushItem>, string))
    decreases |s|
  {
    match Space1(lex, s)
    case Fail => ([], s)
    case Done(_, r) =>
      match OnePushItem(lex, r)
      case Fail => ([], s)
      case Done(item, r') =>
        if |r'| < |s| then
          var (more, rest) := PushItems(lex, r');
          ([item] + more, rest)
        else ([], s)
  }

  function Idents(lex: Lex, s: string): (p: (seq<string>, string))
    decreases |s|
  {
    match Space1(lex, s)
    case Fail => ([], s)
    case Done(_, r) =>
      match Ident(lex, r)
      case Fail => ([], s)
      case Done(name, r') =>
        var (more, rest) := Idents(lex, r');
        ([name] + more, rest)
  }

  function Overrides(items: seq<PushItem>): seq<Pair> {
    if items == [] then []
    else (if items[0].Override? then [items[0].pair] else []) + Overrides(items[1..])
  }

  /** The payload: the last one given, or an empty object. */
  function PayloadOf(items: seq<PushItem>): Json {
    if items == [] then EMPTY_OBJECT
    else if items[|items| - 1].Payload? then items[|items| - 1].v
    else PayloadOf(items[..|items| - 1])
  }

  // ---- commands ----

  function Words2(lex: Lex, s: string, a: string, b: string): Parsed<()> {
    var (_, r) :- Lit(s, a);
    var (_, r) :- Space1(lex, r);
    var (_, r) :- Lit(r, b);
    Space1(lex, r)
  }

  function Word(lex: Lex, s: string, a: string): Parsed<()> {
    var (_, r) :- Lit(s, a);
    Space1(lex, r)
  }

  /** `alt((a, b))` followed by space: once `a` is read the choice is made. */
  function Word1Of2(lex: Lex, s: string, a: string, b: string): Parsed<()> {
    if a <= s then Word(lex, s, a) else Word(lex, s, b)
  }

  function Within(lex: Lex, s: string): Parsed<Option<Duration>> {
    var within :=
      match Words2Mid(lex, s, "within")
      case Fail => Parsed.Fail
      case Done(_, r) => ParseDuration(lex, r);
    match within
    case Fail => Done(None, s)
    case Done(d, r) => Done(Some(d), r)
  }

  /** Space, a word, space. */
  function Words2Mid(lex: Lex, s: string, word: string): Parsed<()> {
    var (_, r) :- Space1(lex, s);
    Word(lex, r, word)
  }

  function Output(lex: Lex, s: string): Parsed<Option<Json>> {
    match Words2Mid(lex, s, "output")
    case Fail => Done(None, s)
    case Done(_, r) =>
      match JsonValue(lex, r)
      case Fail => Done(None, s)
      case Done(v, r') => Done(Some(v), r')
  }

  function CreateQueueCmd(lex: Lex, s: string): Parsed<Command> {
    var (_, r) :- Words2(lex, s, "create", "queue");
    var (name, r) :- Ident(lex, r);
    var (pairs, r) := QueueOpts(lex, r);
    Done(CreateQueue(name, FoldQueue(pairs)), r)
  }

  function DeleteQueueCmd(lex: Lex, s: string): Parsed<Command> {
    var (_, r) :- Words2(lex, s, "delete", "queue");
    var (name, r) :- Ident(lex, r);
    Done(DeleteQueue(name), r)
  }

  function MaintainCmd(s: string): Parsed<Command> {
    var (_, r) :- Lit(s, "maintain");
    Done(Maintain, r)
  }

  function PushCmd(lex: Lex, s: string): Parsed<Command> {
    var (_, r) :- Word1Of2(lex, s, "push", "send");
    var (queue, r) :- Ident(lex, r);
    var (items, r) := PushItems(lex, r);
    Done(Push(queue, PayloadOf(items), FoldPush(Overrides(items))), r)
  }

  /** `<queue> -> <handle> [within <duration>]`. */
  function Claiming(lex: Lex, s: string): Parsed<(string, string, Option<Duration>)> {
    var (queue, r) :- Ident(lex, s);
    var (_, r) :- Words2Mid(lex, r, "->");
    var (handle, r) :- Ident(lex, r);
    var (within, r) :- Within(lex, r);
    Done((queue, handle, within), r)
  }

  function SpawnCmd(lex: Lex, s: string): Parsed<Command> {
    var (_, r) :- Words2(lex, s, "spawn", "consume");
    var (c, r) :- Claiming(lex, r);
    Done(SpawnConsume(c.0, c.1, c.2), r)
  }

  function ConsumeCmd(lex: Lex, s: string): Parsed<Command> {
    var (_, r) :- Word1Of2(lex, s, "consume", "fetch");
    var (c, r) :- Claiming(lex, r);
    Done(Consume(c.0, c.1, c.2), r)
  }

  function AckCmd(lex: Lex, s: string): Parsed<Command> {
    var (_, r) :- Word1Of2(lex, s, "ack", "complete");
    var (handle, r) :- Ident(lex, r);
    var (output, r) :- Output(lex, r);
    Done(Ack(handle, output), r)
  }

  function FailCmd(lex: Lex, s: string): Parsed<Command> {
    var (_, r) :- Word(lex, s, "fail");
    var (handle, r) :- Ident(lex, r);
    var (output, r) :- Output(lex, r);
    Done(Command.Fail(handle, output), r)
  }

  function AwaitCmd(lex: Lex, s: string): Parsed<Command> {
    var (_, r) :- Word(lex, s, "await");
    var (handle, r) :- Ident(lex, r);
    Done(Await(handle), r)
  }

  function AssertQueue(lex: Lex, s: string): Parsed<Command> {
    var (_, r) :- Word(lex, s, "queue");
    var (queue, r) :- Ident(lex, r);
    var (_, r) :- Space1(lex, r);
    if "empty" <= r then Done(AssertQueueEmpty(queue), r[|"empty"|..])
    else
      var (_, r) :- Word(lex, r, "size");
      var (n, r) :- Integer(lex, r);
      Done(AssertQueueSize(queue, n), r)
  }

  function AssertExactlyOne(lex: Lex, s: string): Parsed<Command> {
    var (_, r) :- Lit(s, "exactly_one_claimed");
    var (handles, r) := Idents(lex, r);
    if handles == [] then Parsed.Fail else Done(AssertExactlyOneClaimed(handles), r)
  }

  function AssertEqual(lex: Lex, s: string): Parsed<Command> {
    var (left, r) :- Ident(lex, s);
    var (_, r) :- Words2Mid(lex, r, "==");
    var (right, r) :- Ident(lex, r);
    Done(AssertVarEq(left, right), r)
  }

  /** The alternatives of `assert`, in the order they are tried. */
  function AssertAlternative(lex: Lex, i: nat, s: string): Parsed<Command> {
    match i
    case 0 => AssertQueue(lex, s)
    case 1 => AssertExactlyOne(lex, s)
    case 2 => AssertEqual(lex, s)
    case _ => Parsed.Fail
  }

  const ASSERTS: nat := 3

  function AssertAlternatives(lex: Lex, s: string): nat -> Parsed<Command> {
    (i: nat) => AssertAlternative(lex, i, s)
  }

  function AssertCmd(lex: Lex, s: string): Parsed<Command> {
    var (_, r) :- Word(lex, s, "assert");
    Choose(AssertAlternatives(lex, r), ASSERTS)
  }

  /** The alternatives of `check <handle>`. */
  function CheckAlternative(lex: Lex, handle: string, i: nat, s: string): Parsed<Command> {
    match i
    case 0 =>
      var (_, r) :- Word(lex, s, "state");
      var (state, r) :- StateLit(r);
      Done(CheckState(handle, state), r)
    case 1 =>
      var (_, r) :- Lit(s, "ack");
      var (within, r) :- Within(lex, r);
      Done(CheckAck(handle, within), r)
    case 2 =>
      var (_, r) :- Word(lex, s, "data");
      var (v, r) :- JsonValue(lex, r);
      Done(CheckData(handle, v), r)
    case 3 =>
      var (_, r) :- Lit(s, "gone");
      Done(CheckGone(handle), r)
    case 4 =>
      var (_, r) :- Lit(s, "empty");
      Done(CheckEmpty(handle), r)
    case _ => Parsed.Fail
  }

  const CHECKS: nat := 5

  function CheckAlternatives(lex: Lex, handle: string, s: string): nat -> Parsed<Command> {
    (i: nat) => CheckAlternative(lex, handle, i, s)
  }

  function CheckCmd(lex: Lex, s: string): Parsed<Command> {
    var (_, r) :- Word(lex, s, "check");
    var (handle, r) :- Ident(lex, r);
    var (_, r) :- Space1(lex, r);
    Choose(CheckAlternatives(lex, handle, r), CHECKS)
  }

  /** Ordered choice: the first of the alternatives 0 .. n - 1 that succeeds. */
  function Choose(alternative: nat -> Parsed<Command>, n: nat): Parsed<Command> {
    if n == 0 then Parsed.Fail
    else
      match Choose(alternative, n - 1)
      case Fail => alternative(n - 1)
      case Done(v, r) => Done(v, r)
  }

  const COMMANDS: nat := 11

  function CommandAlternative(lex: Lex, i: nat, s: string): Parsed<Command> {
    match i
    case 0 => CreateQueueCmd(lex, s)
    case 1 => DeleteQueueCmd(lex, s)
    case 2 => MaintainCmd(s)
    case 3 => PushCmd(lex, s)
    case 4 => SpawnCmd(lex, s)
    case 5 => ConsumeCmd(lex, s)
    case 6 => AckCmd(lex, s)
    case 7 => FailCmd(lex, s)
    case 8 => AwaitCmd(lex, s)
    case 9 => AssertCmd(lex, s)
    case 10 => CheckCmd(lex, s)
    case _ => Parsed.Fail
  }

  function CommandAlternatives(lex: Lex, s: string): nat -> Parsed<Command> {
    (i: nat) => CommandAlternative(lex, i, s)
  }

  function ParseCommand(lex: Lex, s: string): Parsed<Command> {
    Choose(CommandAlternatives(lex, s), COMMANDS)
  }

  /** `#N ` in front of a statement; anything else leaves client 1. */
  function ClientPrefix(lex: Lex, s: string): (nat, string) {
    var prefix :=
      match Lit(s, "#")
      case Fail => Parsed.Fail
      case Done(_, r) =>
        match Unsigned(lex, r, U32_MAX)
        case Fail => Parsed.Fail
        case Done(n, r') =>
          match Space1(lex, r')
          case Fail => Parsed.Fail
          case Done(_, r'') => Done(n, r'');
    match prefix
    case Fail => (1, s)
    case Done(n, r) => (n, r)
  }

  function ParseStatement(lex: Lex, s: string): Parsed<(nat, Command)> {
    var (client, r) := ClientPrefix(lex, s);
    var (command, r) :- ParseCommand(lex, r);
    Done((client, command), r)
  }

  function Header(lex: Lex, s: string): Parsed<string> {
    var (_, r) :- Word(lex, s, "scenario");
    var (name, r) :- Ident(lex, r);
    Done(name, if ":" <= r then r[1..] else r)
  }
}
